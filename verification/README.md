# Verification of the audio sideband adapter and the TrEE sample services

This Dafny project models the stateful parts of two driver samples and proves properties of the models. The virtual audio
adapter (`audio/sysvad`) attaches Bluetooth, USB and A2DP "sideband" devices to endpoints at run time; the trusted
execution environment samples (`TrEE`) answer requests with byte loops, timers and work items. Nothing was executed: the
statements below are about the models, and Dafny's verifier checks their proofs.

| files | what they hold |
|---|---|
| `Sideband.dfy`, `SidebandLedger.dfy`, `SidebandLifecycle.dfy`, `SidebandTheorems.dfy`, `SidebandOrder.dfy`, `SidebandOutcome.dfy`, `SidebandManager.dfy` | arrival and removal of devices, the work item that starts and stops them, reference counts, cleanup |
| `Subdevices.dfy`, `EndpointFilters.dfy` | the subdevice cache and the installation of endpoint filters with its rollback |
| `Registry.dfy`, `RegistryCopy.dfy` | the recursive registry copy |
| `PowerRelations.dfy` | power relations and the references on device objects |
| `Notifications.dfy`, `NotificationDevice.dfy` | the notification request loop with its error budget |
| `StreamStatus.dfy`, `StreamDevice.dfy` | the stream-status request and its event |
| `Transport.dfy`, `TransportDevice.dfy` | counted streams and the transport resources of the USB headset |
| `EndpointSetup.dfy`, `EndpointClone.dfy` | format search, pin category, cloned endpoint descriptors |
| `Tone.dfy`, `ToneSamples.dfy`, `ToneGenerator.dfy` | the tone generator, the stream it cuts into buffers, what its samples are worth |
| `DelayedCompletion.dfy`, `DelayedRequest.dfy` | requests answered by a timer and a work item, or cancelled |
| `EchoService.dfy` | echo, repeat, reverse, and the service composed of the last two |
| `Buffers.dfy` | writing bytes into a buffer, shared by the tone generator and the echo service |
| `Counting.dfy` | occurrences in a sequence, which the ledgers are stated with |

Each protocol is a value: a state, steps, and runs over any sequence of steps, so that a theorem about runs covers every
interleaving of the threads involved. Beside it stands a class in the source's own form, whose methods change fields and
arrays in place and are proved to make exactly the specified steps. Platform calls are inputs that may succeed or fail.

What the proofs take for granted: PnP callbacks are serialized; enqueueing a work item that is already pending does
nothing and pending clears when the callback begins; a flush waits for pending and running callbacks; callers of stream
open, start, suspend and close are serialized; references held by miniports are outside the ledger. That drains of one
work item do not overlap is assumed for the lifecycle claims alone; `SidebandTheorems.OverlapStopsBeforeStart` shows what
happens otherwise, and `SidebandOrder.StopOvertakesStartExactly` when. The three sideband protocols of the adapter are
copies of one another and are modelled once, as are the three notification loops and the three stream-status handshakes.

Where the code does less than one would expect, the model follows the code and a theorem says exactly when the expected
behaviour holds:

- a buffer shorter than the residue drops the rest of it (`Tone.LostNothing`, `Tone.CallKeepsPlace`);
- 24-bit frames with several channels store every channel at the start of the frame (`Tone.WholeFramesHideTheBuffer`);
- the wave half's status overwrites the topology half's, so success does not imply both (`EndpointFilters.SuccessExactly`);
- a failed installation of a pair that was already connected disconnects it (`EndpointFilters.FailureRollsBack`);
- an installation succeeds without a cache record if the wave filter's found no room
  (`EndpointFilters.InstallRefinesMap`, `EndpointFilters.SuccessWithoutRecord`);
- a Stop can be called before the Start it follows (`SidebandOrder.StopOvertakesStartExactly`);
- a worker that cannot resend one request abandons those queued behind it (`Notifications.StrandsExactly`);
- a device is destroyed while running if its arrival runs out of memory late (`SidebandTheorems.DestructorAssertion`);
- the USB and A2DP devices report a live stream before the first one is opened (`StreamStatus.ClosedMeansFailure`);
- the A2DP start counter is not taken back (`Transport.A2dpInStepExactly`);
- a private request cancelled between expiry and work item is never answered (`DelayedCompletion.PrivateUnansweredExactly`);
- a cancel routine that is held up stops a timer that is already deleted (`DelayedCompletion.DeletedTimerStoppedExactly`);
- a private request can be marked cancelable after it was completed (`DelayedCompletion.CompletedRequestMarkedExactly`);
- repeat does not end on an empty input, reverse not on one of 2^32 bytes or more (`EchoService.RepeatEndsExactly`,
  `EchoService.ReverseEndsExactly`);
- deleting a cloned endpoint keeps its wave properties allocated (`EndpointClone.Device.CreateThenDelete`).

Verify with `dafny verify dfyconfig.toml`.

## Model

| member | source | states |
|---|---|---|
| `SidebandTheorems.LedgerHolds` | audio/sysvad/common.cpp:2842-3202 | over every run of interleaved arrivals, removals, overlapping drains and cleanup, no destroyed device is touched, a device exists exactly while somebody holds it, and its count is list entry + queued entries naming it + entries in a drain's hand + live local handles |
| `SidebandTheorems.QueuedWorkIsAnnounced` | audio/sysvad/common.cpp:2871-2924 | no lost wake-up: whenever the queue is non-empty the work item is pending or some drain has not yet seen the queue empty |
| `SidebandTheorems.ListedNamesAreDistinct` | audio/sysvad/common.cpp:2984-3102 | over every run a duplicate arrival never lists two devices under one symbolic link |
| `SidebandTheorems.FlushLeavesTheList` | audio/sysvad/common.cpp:3394-3413 | after unregistering and flushing, the queue is empty, no drain runs, the live devices are exactly the listed ones and each has one reference |
| `SidebandTheorems.CleanupTurn` | audio/sysvad/common.cpp:3416-3431 | one turn of the cleanup loop stops and destroys the first listed device and changes no other |
| `SidebandTheorems.CleanupDestroysEverything` | audio/sysvad/common.cpp:3416-3433 | the cleanup loop ends with an empty list and no live device, having stopped and destroyed every device in list order |
| `SidebandTheorems.TeardownLeaksNothing` | audio/sysvad/common.cpp:3371-3441 | whatever the run before it did, a finished teardown leaves no device object behind |
| `SidebandTheorems.LifecycleOfEveryRun` | audio/sysvad/common.cpp:2871-2924 | with drains that do not overlap, the events of any device are a prefix of: published, started once, unlisted (in either order), stopped once after the start in state Running or Failed, destroyed after both; or of a failed arrival |
| `SidebandTheorems.DestructorAssertion` | audio/sysvad/BthhfpDevice.cpp:522-531 | the destructor's assertion that the device is not running fails exactly for devices whose arrival found no memory for its work entry after Init had succeeded |
| `SidebandTheorems.OverlapStopsBeforeStart` | audio/sysvad/common.cpp:2871-2924 | a concrete run with two overlapping drains in which Stop is called before Start: why the ordering claims need drains that do not overlap |
| `SidebandOrder.StopOvertakesStartExactly` | audio/sysvad/common.cpp:2871-2924 | over every run, however its drains overlap: a drain that has taken the Stop of a device and is about to call it finds the device not started exactly if another drain has taken its Start and not called it yet |
| `SidebandOrder.StartedAtMostOnce` | audio/sysvad/common.cpp:2871-2924 | over every run, overlapping drains included, a device is published at most once and started at most as often as it was published |
| `SidebandOrder.StepOrdered` | audio/sysvad/common.cpp:2842-3202 | every step keeps the order: the one Start of a published device is queued, taken or called, never behind its Stop in the queue, and never still queued once the Stop is in a drain's hand |
| `SidebandOutcome.RemovalUnlists` | audio/sysvad/common.cpp:3107-3202 | an uninterrupted removal of a listed name whose allocation succeeds turns the state into itself but for the list without that device, its Stop last in the queue, the work item woken and one Unlisted event; the name is no longer listed and the device keeps its reference count |
| `SidebandOutcome.RemovalGivesUp` | audio/sysvad/common.cpp:3146-3202 | a removal whose allocation fails changes nothing at all |
| `SidebandOutcome.RemovalOfUnlisted` | audio/sysvad/common.cpp:3132-3141 | a removal of a name that is not listed changes nothing |
| `SidebandOutcome.RemovalAmongOthers` | audio/sysvad/common.cpp:3107-3202 | with any steps of drains, cleanup and waiting notifications in between: the device is unlisted, and only it, exactly if the allocation succeeds, and the last stretch then puts the Stop at the end of the queue and wakes the work item |
| `SidebandOutcome.ArrivalPublishes` | audio/sysvad/common.cpp:2984-3102 | an uninterrupted arrival of an unlisted name whose calls all succeed adds one running device of that name with two references, lists it last, queues its Start last and wakes the work item |
| `SidebandOutcome.ArrivalOfListed` | audio/sysvad/common.cpp:3018-3025 | a second arrival of a listed name changes nothing |
| `SidebandOutcome.ArrivalWithoutMemory` | audio/sysvad/common.cpp:3030-3036 | without memory for the object an arrival changes nothing |
| `SidebandOutcome.ArrivalWithoutInit` | audio/sysvad/common.cpp:3047-3048 | if Init fails the object is destroyed again and list, queue and every other object are as before |
| `SidebandOutcome.ArrivalWithoutTask` | audio/sysvad/common.cpp:3053-3059 | the same without memory for the work entry, the object being destroyed while running |
| `SidebandOutcome.ArrivalAmongOthers` | audio/sysvad/common.cpp:2984-3102 | with any steps of others in between: the new device ends up listed last and running with its Start at the end of the queue exactly if Init and the allocation of the work entry succeed; otherwise it is gone and the list as it was |
| `SidebandOutcome.DrainTurnExactly` | audio/sysvad/common.cpp:2871-2924 | one turn of the drain takes the first entry, calls what it says on its device, which ends Stopped, as it was, or Failed after a failed Start, and drops the reference, destroying the device if it was the last |
| `SidebandOutcome.FailedExactly` | audio/sysvad/common.cpp:2871-2924 | over every run, overlapping drains included, a device that is running or failed has failed exactly if a Start of it returned a failure |
| `SidebandLedger.FindSound` | audio/sysvad/common.cpp:2930-2979 | the list scan never meets a destroyed device and misses a name only if no listed device has it |
| `SidebandLedger.HeldIsAlive` | audio/sysvad/common.cpp:2842-3202 | under the ledger every holder of a device may touch it |
| `SidebandLedger.PublishInv` | audio/sysvad/common.cpp:3068-3086 | publishing keeps the ledger: the list takes over the creator's reference and the queued entry takes one more |
| `SidebandLedger.UnpublishInv` | audio/sysvad/common.cpp:3167-3186 | unpublishing keeps the ledger: the list's reference is dropped, the find reference goes to the queued entry, and the device survives |
| `SidebandLedger.ReturnInv` | audio/sysvad/common.cpp:2871-2924 | the release after a start or stop call keeps the ledger and destroys the device exactly when nobody else holds it |
| `SidebandLedger.StepInv` | audio/sysvad/common.cpp:2842-3202 | every single step keeps the ledger, the list shape and the wake-up discipline |
| `SidebandLifecycle.ReturnIsLast` | audio/sysvad/common.cpp:2871-2924 | with one drain at a time, the reference dropped after a call is the last one exactly if the call was Stop |
| `SidebandLifecycle.StopReturned` | audio/sysvad/BthhfpDevice.cpp:3213-3216 | a device whose Stop has returned is held by the stopper alone and is in state Stopped |
| `SidebandLifecycle.LifeStep` | audio/sysvad/common.cpp:2842-3202 | every step of a run without overlapping drains keeps each device in one of the stages of its life |
| `SidebandManager.Adapter.constructor` | audio/sysvad/common.cpp:2842-2924 | an adapter begins with empty lists, under the invariant |
| `SidebandManager.Adapter.DeviceFind` | audio/sysvad/common.cpp:2930-2979 | returns a referenced listed device with the name exactly if there is one |
| `SidebandManager.Adapter.BeginInterfaceArrival` | audio/sysvad/common.cpp:2984-3050 | the first stretch of an arrival is the specified step |
| `SidebandManager.Adapter.BeginInterfaceRemoval` | audio/sysvad/common.cpp:3107-3150 | the first stretch of a removal is the specified step |
| `SidebandManager.Adapter.Insert` | audio/sysvad/common.cpp:3068-3086 | publishing under the mutex: list, queue, reference and wake-up are changed as specified |
| `SidebandManager.Adapter.Remove` | audio/sysvad/common.cpp:3167-3186 | unpublishing under the mutex: the released reference is never the last |
| `SidebandManager.Adapter.RunCallback` | audio/sysvad/common.cpp:3052-3102 | every later stretch of a PnP callback, with its failures, is the specified step |
| `SidebandManager.Adapter.RunDrain` | audio/sysvad/common.cpp:2871-2924 | every stretch of the drain loop is the specified step |
| `SidebandManager.Adapter.Cleanup` | audio/sysvad/common.cpp:3416-3433 | the cleanup loop empties list, queue and heap and logs stop and destruction of each device in order |
| `Tone.ChunkIndependence` | audio/sysvad/ToneGenerator.cpp:143-219 | for any calls whose buffers are at least as long as the residue before them, the concatenated unmuted output is the prefix of the one stream frame(theta), frame(advance(theta)), ..., whatever the buffer sizes |
| `Tone.LostNothing` | audio/sysvad/ToneGenerator.cpp:174-184 | a run drops no byte of the stream exactly if every unmuted buffer is at least as long as the residue it finds |
| `Tone.CallKeepsPlace` | audio/sysvad/ToneGenerator.cpp:174-184 | one call continues the stream exactly if its buffer is at least as long as the residue |
| `Tone.EveryByteAccounted` | audio/sysvad/ToneGenerator.cpp:143-219 | bytes of the frames begun = bytes put out + residue + bytes dropped by short buffers |
| `Tone.FrameArithmetic` | audio/sysvad/ToneGenerator.cpp:186-210 | the number of frames begun for B bytes is ceil(B / FrameSize) and the residue is (-B) mod FrameSize |
| `Tone.FramesCover` | audio/sysvad/ToneGenerator.cpp:186-210 | frames begun times frame size = bytes + rest of the last frame |
| `Tone.PhaseWithinTurn` | audio/sysvad/ToneGenerator.cpp:126-130 | with an increment of at most a turn and an initial phase in [0, 2 pi) the phase stays in [0, 2 pi) |
| `Tone.PhaseIsLinear` | audio/sysvad/ToneGenerator.cpp:126-130 | the phase after n frames is the initial one plus n increments minus a whole number of turns |
| `Tone.EveryRun` | audio/sysvad/ToneGenerator.cpp:143-219 | after a run from a frame boundary that drops nothing and puts out b bytes: they are the first b bytes of the stream, (-b) mod FrameSize bytes are carried, the phase is in [0, 2 pi) and equals the initial one plus ceil(b / FrameSize) increments minus whole turns |
| `Tone.IncrementBelowTurn` | audio/sysvad/ToneGenerator.cpp:253-263 | a frequency not above the sample rate gives an increment in [0, 2 pi] |
| `Tone.WholeFramesHideTheBuffer` | audio/sysvad/ToneGenerator.cpp:100-124 | what a frame leaves in the buffer is independent of the old content exactly for 8, 16, 32-bit formats and 24-bit mono |
| `Tone.Sample24` | audio/sysvad/ToneGenerator.cpp:112-118 | a 24-bit sample is the upper three bytes of the 32-bit one |
| `ToneSamples.SampleDecodes` | audio/sysvad/ToneGenerator.cpp:23-45 | read back as little-endian integers, for values in [-1, 1]: a 16-bit sample is value * 32767 and a 32-bit one value * 2147483647 without the fraction, an 8-bit one 127.5 * value + 127.5 rounded down, a 24-bit one the 32-bit integer to within its missing byte |
| `ToneSamples.SampleMonotone` | audio/sysvad/ToneGenerator.cpp:23-45 | a larger value never reads back as a smaller sample |
| `ToneSamples.FrameDecodes` | audio/sysvad/ToneGenerator.cpp:85-131 | every channel of a frame reads back as the direct-current offset plus the amplitude times the sine of the phase |
| `ToneSamples.EveryFrameHeard` | audio/sysvad/ToneGenerator.cpp:85-219 | in the output of a run that drops nothing, every channel of the k-th frame reads back as the tone at the initial phase plus k increments, whole turns taken off |
| `Tone.StreamSplit` | audio/sysvad/ToneGenerator.cpp:143-219 | reading a stream may be interrupted anywhere and continued with the carried rest and phase |
| `ToneGeneration.ToneGenerator.Init` | audio/sysvad/ToneGenerator.cpp:221-285 | sets increment, phase and frame size and succeeds exactly if the format is PCM and the platform calls succeed; a first call starts with no residue, a later one keeps the residue count |
| `ToneGeneration.ToneGenerator.StoreChannels` | audio/sysvad/ToneGenerator.cpp:100-124 | the channel loop stores the specified frame, inside the frame only |
| `ToneGeneration.ToneGenerator.InitNewFrame` | audio/sysvad/ToneGenerator.cpp:85-131 | writes one frame for the current phase and advances it, or zeros if the size is not a frame |
| `ToneGeneration.ToneGenerator.CopyResidue` | audio/sysvad/ToneGenerator.cpp:174-184 | copies as much of the residue as fits and forgets the rest |
| `ToneGeneration.ToneGenerator.CopyFrames` | audio/sysvad/ToneGenerator.cpp:186-200 | writes all aligned frames, in range |
| `ToneGeneration.ToneGenerator.CopyPartialFrame` | audio/sysvad/ToneGenerator.cpp:203-210 | splits the last frame between buffer and residue |
| `ToneGeneration.ToneGenerator.GenerateSine` | audio/sysvad/ToneGenerator.cpp:143-219 | fills the whole buffer with the next bytes of the stream and keeps the place; muted, disabled or without floating point it writes zeros and advances nothing |
| `RegistryCopy.Hive.CopyRegistryKey` | audio/sysvad/common.cpp:4850-4986 | succeeds exactly if every platform call it makes does, and stops at the first that fails; a successful copy between disjoint keys has enumerated and copied every subkey: it makes the destination the recursive merge, with or without the top-level values; nothing outside the destination changes either way; the recursion ends because the tree below the source shrinks |
| `RegistryCopy.Hive.CopyRegistryValues` | audio/sysvad/common.cpp:4754-4847 | succeeds exactly if every platform call does; a successful copy puts every value of the source over the destination's and keeps the others |
| `RegistryCopy.Hive.CopySubkey` | audio/sysvad/common.cpp:4930-4969 | one turn of the subkey loop merges one more subkey |
| `Registry.MergeLeavesSourceAndTop` | audio/sysvad/common.cpp:4850-4986 | a merge without the top values leaves the source tree and the destination's top-level values as they were |
| `Registry.MergeValues` | audio/sysvad/common.cpp:4850-4986 | below the top every source value is found at the destination, destination-only values survive, nothing else appears |
| `Registry.MergeIdempotent` | audio/sysvad/common.cpp:4850-4986 | copying a second time changes nothing |
| `Registry.MergeChild` | audio/sysvad/common.cpp:4930-4969 | copying one more subkey extends the merge of those before it |
| `Subdevices.CachingRefinesMap` | audio/sysvad/common.cpp:2209-2264 | appending a record for a new name is a map update and keeps names distinct |
| `Subdevices.RemovalRefinesMap` | audio/sysvad/common.cpp:2269-2301 | removing a record is a map removal and keeps names distinct |
| `Subdevices.OwnsAppend` | audio/sysvad/common.cpp:2209-2264 | a new record owns its port, its miniport and one reference per optional interface |
| `Subdevices.OwnsRemove` | audio/sysvad/common.cpp:2269-2301 | removing a record returns exactly the references it owned |
| `Subdevices.RemoveAppended` | audio/sysvad/common.cpp:2269-2301 | removing a name that was absent before its record was appended restores the sequence |
| `EndpointFilters.Adapter.GetCachedSubdevice` | audio/sysvad/common.cpp:2165-2202 | returns referenced port and miniport of the named record exactly if there is one |
| `EndpointFilters.Adapter.CacheSubdevice` | audio/sysvad/common.cpp:2209-2264 | appends a record and takes its references, or changes nothing |
| `EndpointFilters.Adapter.RemoveCachedSubdevice` | audio/sysvad/common.cpp:2269-2301 | removes the named record and returns its references |
| `EndpointFilters.Adapter.EmptySubdeviceCache` | audio/sysvad/common.cpp:2305-2323 | removes every record, returns every reference the cache owned and keeps the invariant |
| `EndpointFilters.Adapter.ConnectTopologies` | audio/sysvad/common.cpp:1985-2067 | connects every link from its output pin to its input pin or, if one connection fails, disconnects every pin of the pair that can be disconnected |
| `EndpointFilters.Adapter.DisconnectTopologies` | audio/sysvad/common.cpp:2072-2160 | takes away exactly those connections of the pair that the platform agrees to undo, going on past each refusal |
| `EndpointFilters.Adapter.InstallSubdevice` | audio/sysvad/common.cpp:1721-1919 | creates and registers a port and a miniport or leaves nothing |
| `EndpointFilters.Adapter.InstallEndpointFilters` | audio/sysvad/common.cpp:2492-2658 | the whole new state is the specified one, with every reference accounted for; each returned port comes with the miniport of the same filter; on failure the cache and every reference count are those on entry |
| `EndpointFilters.Adapter.RemoveEndpointFilters` | audio/sysvad/common.cpp:2663-2712 | the whole new state is the specified one, with every reference accounted for |
| `EndpointFilters.SuccessExactly` | audio/sysvad/common.cpp:2535-2608 | exactly when an installation succeeds, including with a failed topology half whose status the wave half has overwritten |
| `EndpointFilters.InstallReturnsFilters` | audio/sysvad/common.cpp:2535-2634 | each port and miniport a successful installation returns belong together: they are the cached pair of that name on entry, or two consecutive new identities, registered and, if the record found room, cached under the name |
| `EndpointFilters.WireReadsBack` | audio/sysvad/common.cpp:1985-2040 | between two different filters every link makes a connection of its own, which leaves the topology filter exactly for a topology output |
| `EndpointFilters.FailureRollsBack` | audio/sysvad/common.cpp:2637-2650 | a failed installation restores the cache, and the registrations if unregistering works; the connections are those from before and the ones made, less those it could undo, which are the ones from before exactly if it undid none of them and nothing it made was stuck |
| `EndpointFilters.FailureKeepsOtherConnections` | audio/sysvad/common.cpp:1985-2160 | if every disconnection works, a failed installation takes away exactly the connections of a pair that was installed before |
| `EndpointFilters.InstallThenRemove` | audio/sysvad/common.cpp:2663-2712 | removing what was installed for a new pair restores cache, registrations and connections |
| `EndpointFilters.InstallSound` | audio/sysvad/common.cpp:2492-2658 | installing keeps cached names distinct |
| `EndpointFilters.RemoveSound` | audio/sysvad/common.cpp:2663-2712 | removing keeps cached names distinct |
| `EndpointFilters.InstallRefinesMap` | audio/sysvad/common.cpp:2492-2658 | an installation does to the cache, read as a map, what its outcomes say: on success up to two new entries, on failure none; and its success can be read off the map |
| `EndpointFilters.SuccessWithoutRecord` | audio/sysvad/common.cpp:2576-2608 | the success in which the wave filter is registered and connected and its record found no room: it is not in the map |
| `EndpointFilters.RemoveRefinesMap` | audio/sysvad/common.cpp:2663-2712 | a removal takes both names out of the map |
| `EndpointFilters.CacheRefinesMap` | audio/sysvad/common.cpp:2165-2323 | over every run of installations, removals and clean-outs the cache is the map those operations give and its names stay distinct |
| `Notifications.ConservationOfEveryRun` | audio/sysvad/BthhfpDevice.cpp:1478-1724 | over every run each notification request is in exactly one place (not started, at the driver, in the collection, in a worker's hand, given up), is never added twice nor sent while outstanding, and its error count stays in 0..6 |
| `Notifications.ParkedStaysParked` | audio/sysvad/BthhfpDevice.cpp:1689-1711 | a request that was given up is never touched again |
| `Notifications.AtMostFiveRetries` | audio/sysvad/BthhfpDevice.cpp:1696-1711 | a request that only fails is sent again at most five times |
| `Notifications.RetriesAreBounded` | audio/sysvad/BthhfpDevice.cpp:1696-1722 | from any state, the sends still to come of a request that only fails are bounded by its remaining error budget |
| `Notifications.FiveRetriesHappen` | audio/sysvad/BthhfpDevice.cpp:1626-1660 | the bound is reached: on an idle device each of the first five failures leads to one more send |
| `Notifications.FailureParksExactly` | audio/sysvad/BthhfpDevice.cpp:1699-1722 | a failure ends a request exactly if it is the sixth in a row or the request cannot be queued |
| `Notifications.TurnExactly` | audio/sysvad/BthhfpDevice.cpp:1505-1660 | after a worker's turn a request is at the driver exactly if it failed or its control code is known, and it was reused and sent; otherwise it is given up |
| `Notifications.GivenUpExactly` | audio/sysvad/BthhfpDevice.cpp:1478-1724 | over every run a request has been given up exactly if one of its completions was cancelled, could not be queued or was the sixth failure in a row, or a turn found a success with an unknown control code or a refused reuse or send |
| `Notifications.FailingRunsEnd` | audio/sysvad/BthhfpDevice.cpp:1478-1724 | if completions only fail, a measure bounds the number of steps that change anything |
| `Notifications.StrandsExactly` | audio/sysvad/BthhfpDevice.cpp:1634-1660 | a step leaves requests queued with nobody to look at them exactly if the only worker leaves its loop on a refused reuse or send with others queued and no wake-up pending |
| `Notifications.NoLostWakeUp` | audio/sysvad/BthhfpDevice.cpp:1478-1502 | without a refused reuse or send, queued requests always have a worker or a wake-up |
| `Notifications.RescuedExactly` | audio/sysvad/BthhfpDevice.cpp:1716-1724 | stranded requests are looked at again exactly when another request's completion is queued |
| `Notifications.StrandedForever` | audio/sysvad/BthhfpDevice.cpp:1634-1660 | with nothing left at the driver, stranded requests stay where they are |
| `Notifications.LostWakeUp` | audio/sysvad/BthhfpDevice.cpp:1634-1660 | a concrete run that strands a request |
| `NotificationDevice.DrainTakesAPrefix` | audio/sysvad/UsbHsDevice.cpp:1981-2137 | one undisturbed callback takes the queued requests from the front and leaves some behind only after a refused reuse or send |
| `NotificationDevice.DrainWorksOffAPrefix` | audio/sysvad/UsbHsDevice.cpp:1981-2137 | every request it took is at the driver or given up, every other is untouched |
| `NotificationDevice.DrainEmpties` | audio/sysvad/UsbHsDevice.cpp:1981-2137 | if the platform refuses nothing, one callback empties the collection |
| `NotificationDevice.DrainSendsExactly` | audio/sysvad/UsbHsDevice.cpp:1981-2137 | each request a callback took is at the driver exactly if it was one to be sent again and its own reuse and send worked |
| `NotificationDevice.DrainSendsAll` | audio/sysvad/A2dpHpDevice.cpp:1703-1865 | if the platform refuses nothing, every queued request with a known control code is back at the driver |
| `NotificationDevice.DrainIsARun` | audio/sysvad/A2dpHpDevice.cpp:1703-1865 | the callback is a run of the interleaved system |
| `NotificationDevice.Device.Enable` | audio/sysvad/BthhfpDevice.cpp:1920-1966 | the first send moves a request to the driver |
| `NotificationDevice.Device.Complete` | audio/sysvad/BthhfpDevice.cpp:1689-1724 | the completion routine queues the request, last, and wakes the worker, exactly if it succeeded, or failed within its budget, and could be added |
| `NotificationDevice.Device.Handle` | audio/sysvad/BthhfpDevice.cpp:1505-1661 | one turn of the worker: the request is at the driver exactly if it failed or is known and was sent, given up otherwise, and a refusal leaves the loop |
| `NotificationDevice.Device.RunWorkItem` | audio/sysvad/BthhfpDevice.cpp:1478-1661 | the callback's whole new state is the specified one |
| `StreamStatus.EventTracksRequest` | audio/sysvad/BthhfpDevice.cpp:2584-2632 | over every run the status request is never sent while outstanding, and outside the send window the event is clear exactly while the request is with the driver or in its completion routine |
| `StreamStatus.StopBlocksOnlyOnTheRequest` | audio/sysvad/BthhfpDevice.cpp:2637-2677 | the wait of the last suspend blocks exactly while the cancelled request or its completion routine is under way, and then ends with the late status overwritten |
| `StreamStatus.ClosedMeansFailure` | audio/sysvad/BthhfpDevice.cpp:971-981 | at rest with no stream the status reads failure exactly if the device began with a failure status or a stream was ever started (the USB and A2DP devices begin with success) |
| `StreamStatus.LiveUntilReported` | audio/sysvad/BthhfpDevice.cpp:1017-1027 | while a started stream's request waits at the driver the status reads success |
| `StreamStatus.StatusIsTheLastResult` | audio/sysvad/BthhfpDevice.cpp:2529-2579 | while a stream is counted and its request has completed, the status is what the last completion reported, whatever starts and suspends came beside it |
| `StreamStatus.OpensBalance` | audio/sysvad/BthhfpDevice.cpp:1002-1078 | at rest the driver has one open stream while any is counted and none otherwise, failed starts included |
| `StreamStatus.RunInv` | audio/sysvad/BthhfpDevice.cpp:1002-1078 | every step of starts, suspends and completions keeps the handshake |
| `StreamStatus.StartSettles` | audio/sysvad/BthhfpDevice.cpp:1002-1048 | a start whose steps are not interrupted comes to the stated result: the stream live with its request out, or everything taken back and the status a failure |
| `StreamStatus.SuspendSettles` | audio/sysvad/BthhfpDevice.cpp:1053-1078 | a suspend interrupted only by the completion it waits for comes to the stated result: closed, request back, late status overwritten |
| `StreamDevice.Device.GetStreamStatus` | audio/sysvad/BthhfpDevice.cpp:971-981 | success of the stored status; with no stream it is success only on a device that never started one |
| `StreamDevice.Device.StreamStart` | audio/sysvad/BthhfpDevice.cpp:1002-1048 | succeeds exactly if a stream was counted or both driver calls succeed; a failed start takes counter, driver stream, event and request back |
| `StreamDevice.Device.StreamSuspend` | audio/sysvad/BthhfpDevice.cpp:1053-1078 | in any state, a completion under way included, the last suspend closes, waits and marks the stream; others only count |
| `StreamDevice.Device.StoreResult` | audio/sysvad/BthhfpDevice.cpp:2529-2579 | the first stretch of the completion routine stores the reported status while the event is still clear |
| `StreamDevice.Device.SignalEvent` | audio/sysvad/BthhfpDevice.cpp:2529-2579 | the second stretch sets the event with the status already stored |
| `StreamDevice.Device.StreamStatusCompletion` | audio/sysvad/BthhfpDevice.cpp:2529-2579 | from wherever the request is, its completion ends with the reported status stored and then the event set |
| `StreamDevice.Device.StopStatusNotification` | audio/sysvad/BthhfpDevice.cpp:2637-2677 | returns with the event set and the request reusable, or completed if the reuse is refused |
| `Transport.Conservation` | audio/sysvad/UsbHsDevice.cpp:1285-1454 | over any serialized run with arbitrary failures the live blocks are exactly the non-null fields, each held once and under its own tag, nothing is freed twice or under another tag, an endpoint not started holds nothing, and the sync fields are held exactly with feedback |
| `Transport.StartAllOrNothing` | audio/sysvad/UsbHsDevice.cpp:1285-1333 | a start succeeds exactly if the endpoint was started or the platform delivers everything; a failed one leaves endpoint and live blocks as they were |
| `Transport.StartThenSuspend` | audio/sysvad/UsbHsDevice.cpp:1411-1430 | a start followed by a suspend restores endpoint and live blocks |
| `Transport.SuspendFrees` | audio/sysvad/UsbHsDevice.cpp:1411-1454 | a suspend keeps ownership and frees only with the last stream |
| `Transport.DriverFollowsCount` | audio/sysvad/UsbHsDevice.cpp:1285-1454 | the driver runs a stream of an endpoint exactly while one is counted |
| `Transport.DestructorLeaksNothing` | audio/sysvad/UsbHsDevice.cpp:641-642 | freeing both records leaves no block, after any run |
| `Transport.FetchOwned` | audio/sysvad/UsbHsDevice.cpp:2559-2699 | one GetSiop stores an owned block or leaves the pool as it was |
| `Transport.FreeOwned` | audio/sysvad/UsbHsDevice.cpp:2539-2555 | freeing one field frees its block once, under its tag |
| `Transport.A2dpDrift` | audio/sysvad/A2dpHpDevice.cpp:1187-1254 | from any count, over every run of A2DP starts and suspends, the driver falls behind the start counter by one for every first start it refused |
| `Transport.A2dpInStepExactly` | audio/sysvad/A2dpHpDevice.cpp:1187-1254 | over every run from the idle device the driver runs one stream while any is counted, less one for every first start it refused; the two are in step exactly if it refused none |
| `TransportDevice.Device.GetSiop` | audio/sysvad/UsbHsDevice.cpp:2559-2699 | succeeds exactly if all five platform calls do and then returns a block under the tag; otherwise returns none and leaves no block |
| `TransportDevice.Device.GetTransportResources` | audio/sysvad/UsbHsDevice.cpp:2704-2781 | acquires four or seven fields in order, or frees all of them |
| `TransportDevice.Device.FreeTransportResources` | audio/sysvad/UsbHsDevice.cpp:2539-2555 | frees each non-null field under its tag and zeroes the record |
| `TransportDevice.Device.StreamStart` | audio/sysvad/UsbHsDevice.cpp:1285-1386 | the whole new state is the specified one |
| `TransportDevice.Device.StreamSuspend` | audio/sysvad/UsbHsDevice.cpp:1411-1454 | the whole new state is the specified one |
| `TransportDevice.Device.Destroy` | audio/sysvad/UsbHsDevice.cpp:641-642 | leaves no live block |
| `DelayedCompletion.AtMostOnce` | TrEE/Miniport/TestService.c:598-672 | at every moment of every run a request has one reply at most and one timer at most, deleted once at most; a cancelled reply only with a stopped timer, a successful one only after the work item wrote the output |
| `DelayedCompletion.ServiceExactlyOnce` | TrEE/Miniport/TestService.c:676-788 | a service request that has settled was answered exactly once and its timer deleted exactly once |
| `DelayedCompletion.PrivateAnsweredUnlessSpared` | TrEE/Miniport/TestService.c:1141-1182 | a private request that has settled lost its timer exactly once and has its one answer unless its work item found the cancel routine called |
| `DelayedCompletion.PrivateUnansweredExactly` | TrEE/Miniport/TestService.c:1096-1182 | a private request that has settled is left unanswered exactly if its work item found the cancel routine called; if it was marked before the timer expired, exactly if that routine came too late to stop the timer |
| `DelayedCompletion.EveryRunEnds` | TrEE/Miniport/TestService.c:598-1182 | a rank bounds the number of steps that change anything, for any number of requests |
| `DelayedCompletion.DeletedTimerStoppedExactly` | TrEE/Miniport/TestService.c:1056-1075 | a run stops no deleted timer of a request exactly if every stop of its cancel routine comes before the work item has deleted the timer |
| `DelayedCompletion.PromptCancelTouchesNoDeletedTimer` | TrEE/Miniport/TestService.c:1056-1075 | in particular, a cancel routine that is not held up past the answer stops no deleted timer |
| `DelayedCompletion.CompletedRequestMarkedExactly` | TrEE/Miniport/TestService.c:1317-1322 | a run marks no completed request exactly if the dispatch routine marks before the work item has answered |
| `DelayedCompletion.MarkedFirstMarksNoCompletedRequest` | TrEE/Miniport/TestService.c:1317-1322 | in particular, if marking precedes expiry no completed request is marked cancelable |
| `DelayedCompletion.UnansweredRun` | TrEE/Miniport/TestService.c:1121-1136 | a concrete run in which nobody answers |
| `DelayedCompletion.LateMarkRun` | TrEE/Miniport/TestService.c:1317-1322 | a concrete run in which a completed request is marked |
| `DelayedCompletion.StaleTimerRun` | TrEE/Miniport/TestService.c:1056-1075 | a concrete run in which a deleted timer is stopped, on either path |
| `DelayedRequest.Holder.Submit` | TrEE/Miniport/TestService.c:676-788 | answers at once exactly if a buffer is too short or an object cannot be created, with the reason and the size the code reports; otherwise the timer is armed |
| `DelayedRequest.Holder.WorkItemCallback` | TrEE/Miniport/TestService.c:1141-1182 | writes the output, answers unless a private request's cancel routine was called, deletes the timer |
| `DelayedRequest.Holder.CancelRoutine` | TrEE/Miniport/TestService.c:1096-1137 | answers and deletes exactly if the timer could be stopped; entered after the deletion it stops a deleted timer |
| `PowerRelations.LedgerOfEveryRun` | audio/sysvad/common.cpp:2363-2486 | over every run of additions, removals and queries, refused ones included, a device object has one reference per list entry and per occurrence in relations handed on |
| `PowerRelations.UpdateBalanced` | audio/sysvad/common.cpp:2363-2486 | answering or refusing a query keeps the references in balance |
| `PowerRelations.RemoveDropsAll` | audio/sysvad/common.cpp:4015-4044 | a removal drops every list reference on the device and none on another |
| `PowerRelations.AddThenRemoveExactly` | audio/sysvad/common.cpp:3979-4044 | adding and removing a device restores the list exactly if it was not in it |
| `PowerRelations.WritesInRangeExactly` | audio/sysvad/common.cpp:2393-2411 | with the total taken in 32 bits, every write is in range exactly if prior and added entries together do not exceed 2^32 |
| `PowerRelations.Adapter.UpdatePowerRelations` | audio/sysvad/common.cpp:2363-2486 | on success the prior entries followed by the list in order, one more reference for each entry of the list; with an empty list nothing changes; without memory no relations are returned and one reference per prior entry is dropped |
| `PowerRelations.Adapter.AppendList` | audio/sysvad/common.cpp:2430-2452 | every write is in range and every added object referenced |
| `PowerRelations.Adapter.DereferenceAll` | audio/sysvad/common.cpp:2457-2475 | drops one reference per prior entry |
| `PowerRelations.Adapter.AddDevice` | audio/sysvad/common.cpp:3979-4008 | appends and references, or changes nothing |
| `PowerRelations.Adapter.RemoveDevice` | audio/sysvad/common.cpp:4015-4044 | removes every entry of the device and its references |
| `EchoService.TwiceReversed` | TrEE/Miniport/TestService.c:922-1005 | with room and working calls the first 2n bytes are the reversed input twice, 2n is reported, the rest is untouched; every failure leaves the output as it was and reports as the code does |
| `EchoService.TwiceReversedReadsBack` | TrEE/Miniport/TestService.c:948-997 | reversing the reply yields the request twice |
| `EchoService.EchoHandler` | TrEE/OSService/SampleOSService.c:723-817 | echo with room copies the input and leaves the rest; repeat writes n * floor(m / n) bytes that begin with the input and have its period; reverse writes it backwards; echo without room reports overflow and the needed size, reverse without room overflow and no size, an unknown code a bad parameter, all three without touching the output |
| `EchoService.RepeatInto` | TrEE/OSService/SampleOSService.c:784-795 | writes as many whole copies as fit, in range |
| `EchoService.ReverseInto` | TrEE/OSService/SampleOSService.c:797-809 | writes the input backwards |
| `EchoService.CopiesLength` | TrEE/OSService/SampleOSService.c:784-795 | the copies take n * floor(m / n) bytes |
| `EchoService.CopiesFill` | TrEE/OSService/SampleOSService.c:784-795 | the copies repeat the input with its period and leave less room than one more needs |
| `EchoService.RepeatEndsExactly` | TrEE/OSService/SampleOSService.c:784-795 | the repeat loop ends exactly on a non-empty input |
| `EchoService.ReverseEndsExactly` | TrEE/OSService/SampleOSService.c:797-809 | the reverse loop, whose index has 32 bits, ends exactly on an input shorter than 2^32 bytes |
| `EchoService.ReversedTwice` | TrEE/OSService/SampleOSService.c:797-809 | reversing is its own inverse |
| `EndpointSetup.VerifyEndpointFormatCompatibility` | audio/sysvad/UsbHsDevice.cpp:2486-2536 | succeeds exactly if some hardware format matches some large enough device format, and then gives the greatest such hardware index |
| `EndpointSetup.UpdateCustomEndpointCategory` | audio/sysvad/A2dpHpDevice.cpp:3824-3872 | succeeds exactly with one non-audio and at most one audio pin and then changes that pin only; otherwise reports which of the two it was |
| `EndpointClone.Device.CreateCustomEndpointMinipair` | audio/sysvad/A2dpHpDevice.cpp:3689-3820 | a clone has base ++ [friendly name] ++ custom topology properties, the base's wave properties and the recategorised pins; the base is not changed; a failure frees every block |
| `EndpointClone.Device.FillTopoProperties` | audio/sysvad/A2dpHpDevice.cpp:3730-3753 | base ++ [friendly name] ++ custom, in order and in range |
| `EndpointClone.Device.DeleteCustomEndpointMinipair` | audio/sysvad/A2dpHpDevice.cpp:3876-3902 | frees four of a clone's five blocks |
| `EndpointClone.Device.CreateThenDelete` | audio/sysvad/A2dpHpDevice.cpp:3689-3902 | a clone that is deleted leaves exactly one block behind, its wave properties |

## Left out

- WDF, PnP, PortCls, pool, registry and IOCTL bodies: their outcomes are inputs; timing, IRQL and paging do not appear.
- `sin` and floating-point rounding: a sample is an abstract real function of the phase; a sample outside the range of its integer conversion keeps its low bytes.
- Symbolic links and registry names are compared exactly; the registry itself ignores case. The retry with a larger buffer, the 32-bit enumeration index and the cleanup of handles and buffers after a failed registry copy do not appear.
- `Init` of a sideband device: allocation and its first reference are one step; the objects it creates are not listed.
- EndpointFilters.Adapter.InstallSubdevice: all or nothing: what fails before the registration registers nothing, and the queries for `IUnknown` after it do not fail, by the rules of COM; the audio interface it creates first is not modelled.
- Every output parameter of `InstallEndpointFilters` is taken to be requested, and the status of `DisconnectTopologies` is not used by the model.
- The values the notification worker publishes, its callbacks into the miniport and the `Immediate` flags of the request buffers.
- PowerRelations.Adapter.UpdatePowerRelations: requires fewer than 2^32 entries in all, where the code's 32-bit total would wrap; `PowerRelations.WritesInRangeExactly` says exactly what the wrap would do to the writes.
- EchoService.EchoHandler: excludes the inputs on which its loops do not end, which two lemmas determine exactly; buffers do not overlap.
- EchoService.TwiceReversed: excludes the same inputs; sizes are taken not to wrap when doubled.
- ToneGeneration.ToneGenerator.Init: nothing is said about the increment of a zero sample rate, which is no real number; the buffer of an earlier call, which the code does not free, is not tracked.
- NotificationDevice.Device.RunWorkItem: one callback undisturbed by completions; `Notifications` covers every interleaving.
- EndpointClone.Device.CreateCustomEndpointMinipair: the property count is not limited to 32 bits, and the base's property lists are present even if empty.
- Creation lists of the device classes, volume and mute accessors, power-state broadcasts, `hw.cpp`, `basetopo.cpp`, `kshelper.cpp`, `SampleMiniport.c`, the kernel-memory handler: one-branch or straight-line code.
- Constants of the A2DP codec capabilities: data only.
