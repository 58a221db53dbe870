/** What the sideband manager promises, over every run. */
module SidebandTheorems {
  import opened Counting
  import opened Sideband
  import opened SidebandLedger
  import opened SidebandLifecycle

  // ----- any number of overlapping drains

  /** The reference ledger: no destroyed object is touched, an object lives exactly while somebody holds it,
      and its count is the number of its holders. */
  lemma {:induction false} LedgerHolds(steps: seq<Step>, d: DeviceId)
    ensures var s := Run(steps);
      && !s.fault
      && (d in s.heap <==> Holders(s, d) > 0)
      && (d in s.heap ==> s.heap[d].refs == Holders(s, d))
  {
    RunInv(steps);
    HeldIsAlive(Run(steps), d);
  }

  /** No wake-up is lost. */
  lemma {:induction false} QueuedWorkIsAnnounced(steps: seq<Step>)
    ensures Awake(Run(steps))
  {
    RunInv(steps);
  }

  /** A duplicate arrival never lists a second device under the same symbolic link. */
  lemma {:induction false} ListedNamesAreDistinct(steps: seq<Step>, i: nat, j: nat)
    requires i < j < |Run(steps).devices|
    ensures var s := Run(steps);
      s.devices[i] in s.heap && s.devices[j] in s.heap && s.heap[s.devices[i]].name != s.heap[s.devices[j]].name
  {
    RunInv(steps);
  }

  lemma {:induction false} DistinctListedOnce(heap: map<DeviceId, Device>, devices: seq<DeviceId>, d: DeviceId)
    requires NamesDistinct(heap, devices)
    ensures Count(devices, d) == if d in devices then 1 else 0
  {
    if devices != [] {
      var rest := devices[1..];
      assert devices == [devices[0]] + rest;
      assert forall i :: 0 <= i < |rest| ==> rest[i] == devices[i + 1];
      DistinctListedOnce(heap, rest, d);
      forall i | 0 <= i < |rest|
        ensures rest[i] != devices[0]
      {
        assert heap[devices[0]].name != heap[devices[i + 1]].name;
      }
    }
  }

  /** After unregistering and flushing, the queue is empty, exactly the listed devices are alive and each has
      one reference. */
  lemma {:induction false} FlushLeavesTheList(steps: seq<Step>)
    requires Run(steps).teardown == Flushed
    ensures var s := Run(steps);
      && s.tasks == [] && s.drains == [] && !s.pending && s.callback == Idle
      && (forall d :: d in s.heap <==> d in s.devices)
      && (forall d :: d in s.devices ==> s.heap[d].refs == 1)
  {
    var s := Run(steps);
    RunInv(steps);
    forall d: DeviceId
      ensures d in s.heap <==> d in s.devices
      ensures d in s.devices ==> s.heap[d].refs == 1
    {
      HeldIsAlive(s, d);
      DistinctListedOnce(s.heap, s.devices, d);
    }
  }

  // ----- the cleanup loop

  /** The events one turn of the cleanup loop adds, for a device found in state `found`. */
  function TurnEvents(d: DeviceId, found: DeviceState): seq<Event> {
    [Event(d, Unlisted), Event(d, StopCalled(found)), Event(d, Destroyed(Stopped))]
  }

  predicate AllIn(devices: seq<DeviceId>, heap: map<DeviceId, Device>) {
    forall d :: d in devices ==> d in heap
  }

  function LoopEvents(heap: map<DeviceId, Device>, devices: seq<DeviceId>): seq<Event>
    requires AllIn(devices, heap)
  {
    if devices == [] then [] else TurnEvents(devices[0], heap[devices[0]].state) + LoopEvents(heap, devices[1..])
  }

  /** One turn of the loop stops and destroys the first device and touches no other. */
  lemma CleanupTurn(s: State)
    requires Inv(s) && s.teardown == Flushed && s.devices != []
    ensures var d := s.devices[0];
      && d in s.heap
      && ContinueCleanup(ContinueCleanup(ContinueCleanup(s)))
         == s.(heap := s.heap - {d}, devices := s.devices[1..], log := s.log + TurnEvents(d, s.heap[d].state))
  {
    var d := s.devices[0];
    HeldIsAlive(s, d);
    DistinctListedOnce(s.heap, s.devices, d);
    var s1 := ContinueCleanup(s);
    var s2 := ContinueCleanup(s1);
    var s3 := ContinueCleanup(s2);
    assert s.heap[d].refs == 1;
    assert s2.heap - {d} == s.heap - {d};
    assert s3.log == s.log + TurnEvents(d, s.heap[d].state);
  }

  function CleanupLoop(s: State, turns: nat): State
    decreases turns
  {
    if turns == 0 then s else CleanupLoop(ContinueCleanup(ContinueCleanup(ContinueCleanup(s))), turns - 1)
  }

  /** The state after one turn, with what the loop keeps. */
  lemma AfterTurn(s: State) returns (next: State)
    requires Inv(s) && s.teardown == Flushed && s.devices != []
    ensures next == ContinueCleanup(ContinueCleanup(ContinueCleanup(s)))
    ensures var d := s.devices[0];
      && d in s.heap
      && next == s.(heap := s.heap - {d}, devices := s.devices[1..], log := s.log + TurnEvents(d, s.heap[d].state))
    ensures Inv(next) && s.devices[0] !in next.devices && AllIn(s.devices, s.heap)
  {
    ListedAreAlive(s);
    CleanupTurn(s);
    ContinueCleanupInv(s);
    ContinueCleanupInv(ContinueCleanup(s));
    ContinueCleanupInv(ContinueCleanup(ContinueCleanup(s)));
    next := ContinueCleanup(ContinueCleanup(ContinueCleanup(s)));
    assert forall i :: 0 <= i < |next.devices| ==> next.devices[i] in next.heap;
  }

  lemma ListedAreAlive(s: State)
    requires Inv(s)
    ensures AllIn(s.devices, s.heap)
  {
    assert forall i :: 0 <= i < |s.devices| ==> s.devices[i] in s.heap;
  }

  lemma EmptyListEmptyHeap(s: State)
    requires Inv(s) && s.teardown == Flushed && s.devices == []
    ensures s.heap == map[] && s.tasks == []
  {
    forall d: DeviceId
      ensures d !in s.heap
    {
      HeldIsAlive(s, d);
    }
  }

  /** The cleanup loop ends with an empty list, every device stopped and destroyed in list order, and nothing
      left alive. */
  lemma {:induction false} CleanupDestroysEverything(s: State)
    requires Inv(s) && s.teardown == Flushed
    ensures AllIn(s.devices, s.heap)
    ensures var s' := CleanupLoop(s, |s.devices|);
      s'.devices == [] && s'.heap == map[] && s'.teardown == Flushed && s'.log == s.log + LoopEvents(s.heap, s.devices)
    decreases |s.devices|
  {
    if s.devices == [] {
      EmptyListEmptyHeap(s);
      assert s.log + [] == s.log;
    } else {
      var next := AfterTurn(s);
      LoopTurn(s, next);
      CleanupDestroysEverything(next);
    }
  }

  lemma LoopTurn(s: State, next: State)
    requires AllIn(s.devices, s.heap) && s.devices != [] && s.devices[0] !in s.devices[1..]
    requires next == s.(heap := s.heap - {s.devices[0]}, devices := s.devices[1..],
                        log := s.log + TurnEvents(s.devices[0], s.heap[s.devices[0]].state))
    ensures AllIn(next.devices, next.heap)
    ensures next.log + LoopEvents(next.heap, next.devices) == s.log + LoopEvents(s.heap, s.devices)
  {
    assert s.devices == [s.devices[0]] + s.devices[1..];
    SameLoopEvents(s.heap, next.heap, next.devices);
  }

  lemma {:induction false} SameLoopEvents(heap: map<DeviceId, Device>, heap': map<DeviceId, Device>,
                                          devices: seq<DeviceId>)
    requires AllIn(devices, heap) && AllIn(devices, heap')
    requires forall d :: d in devices ==> heap[d] == heap'[d]
    ensures LoopEvents(heap, devices) == LoopEvents(heap', devices)
  {
    if devices != [] {
      assert devices == [devices[0]] + devices[1..];
      SameLoopEvents(heap, heap', devices[1..]);
    }
  }

  /** Whatever the run before it did, teardown leaves no device object behind. */
  lemma {:induction false} TeardownLeaksNothing(steps: seq<Step>)
    requires Run(steps).teardown == Flushed && Run(steps).devices == []
    ensures Run(steps).heap == map[]
  {
    RunInv(steps);
    CleanupDestroysEverything(Run(steps));
  }

  // ----- drains that do not overlap

  predicate PrefixOf(w: seq<Kind>, whole: seq<Kind>) {
    |w| <= |whole| && w == whole[..|w|]
  }

  /** A whole life: started once, stopped once after that, destroyed after the Stop and after leaving the list. */
  ghost predicate WholeLife(w: seq<Kind>) {
    exists found :: (found == Running || found == Failed) &&
      ( || w == [Published, StartCalled, Unlisted, StopCalled(found), Destroyed(Stopped)]
        || w == [Published, Unlisted, StartCalled, StopCalled(found), Destroyed(Stopped)])
  }

  /** The life of a device that never got into the list. */
  predicate StillBorn(w: seq<Kind>) {
    PrefixOf(w, [NoTask, Destroyed(Running)]) || PrefixOf(w, [Destroyed(Initializing)])
  }

  /** Over every run, the events of a device are the beginning of one of the whole lives, or of a failed arrival. */
  lemma {:induction false} LifecycleOfEveryRun(steps: seq<Step>, d: DeviceId)
    requires NoOverlap(steps)
    ensures var w := Story(Run(steps).log, d);
      StillBorn(w) || exists whole :: WholeLife(whole) && PrefixOf(w, whole)
  {
    LifeRun(steps);
    var p := Look(Run(steps), d);
    assert Coherent(p);
    if !StillBorn(p.story) {
      var found := if |p.story| >= 4 && p.story[3] == StopCalled(Failed) then Failed else Running;
      var one := [Published, StartCalled, Unlisted, StopCalled(found), Destroyed(Stopped)];
      var two := [Published, Unlisted, StartCalled, StopCalled(found), Destroyed(Stopped)];
      assert WholeLife(one) && WholeLife(two);
      LifePrefix(p, found);
    }
  }

  lemma LifePrefix(p: Profile, found: DeviceState)
    requires Coherent(p) && !StillBorn(p.story)
    requires found == if |p.story| >= 4 && p.story[3] == StopCalled(Failed) then Failed else Running
    ensures PrefixOf(p.story, [Published, StartCalled, Unlisted, StopCalled(found), Destroyed(Stopped)])
      || PrefixOf(p.story, [Published, Unlisted, StartCalled, StopCalled(found), Destroyed(Stopped)])
  {
    assert !Unpublished(p);
    if |p.story| == 4 {
      assert p.story == p.story[..3] + [p.story[3]];
    } else if |p.story| == 5 {
      assert p.story[..4] == p.story[..4][..3] + [p.story[3]];
      assert p.story == p.story[..4] + [p.story[4]];
    }
  }

  lemma LastState(p: Profile, last: DeviceState)
    requires Coherent(p) && Destroyed(last) in p.story
    ensures last == Running <==> NoTask in p.story
  {
    if !Unpublished(p) {
      if |p.story| == 5 {
        FinishedEvents(p.story[..4]);
        assert p.story == p.story[..4] + [p.story[4]];
      } else if |p.story| == 4 {
        FinishedEvents(p.story);
      }
    }
  }

  lemma FinishedEvents(w: seq<Kind>)
    requires Finished(w)
    ensures NoTask !in w && forall k :: k in w ==> !k.Destroyed?
  {
    assert w == w[..3] + [w[3]];
  }

  /** The destructor asserts that the device is not running.  That assertion fails for exactly the devices
      whose arrival found no memory for the work task after Init had succeeded. */
  lemma {:induction false} DestructorAssertion(steps: seq<Step>, d: DeviceId, last: DeviceState)
    requires NoOverlap(steps) && Destroyed(last) in Story(Run(steps).log, d)
    ensures last == Running <==> NoTask in Story(Run(steps).log, d)
  {
    LifeRun(steps);
    assert Coherent(Look(Run(steps), d));
    LastState(Look(Run(steps), d), last);
  }

  // ----- why overlap has to be excluded

  lemma RunSnoc(steps: seq<Step>, step: Step)
    ensures Run(steps + [step]) == Apply(Run(steps), step)
  {
    assert (steps + [step])[..|steps|] == steps;
  }

  /** A run up to a published device whose Start is in the hand of a drain. */
  lemma StartInHand() returns (steps: seq<Step>)
    ensures Run(steps) == INITIAL.(heap := map[0 := Device("a", 2, Running)], next := 1, devices := [0],
                                   drains := [Taken(Task(Start, 0))], log := [Event(0, Published)])
  {
    RunSnoc([], Arrival("a"));
    RunSnoc([Arrival("a")], CallbackStep(true));
    RunSnoc([Arrival("a")] + [CallbackStep(true)], CallbackStep(true));
    RunSnoc([Arrival("a")] + [CallbackStep(true)] + [CallbackStep(true)], CallbackStep(true));
    steps := [Arrival("a")] + [CallbackStep(true)] + [CallbackStep(true)] + [CallbackStep(true)];
    assert Run(steps) == INITIAL.(heap := map[0 := Device("a", 1, Running)], next := 1, callback := ArrivalTask(0));
    RunSnoc(steps, CallbackStep(true));
    RunSnoc(steps + [CallbackStep(true)], DrainBegin);
    RunSnoc(steps + [CallbackStep(true)] + [DrainBegin], DrainStep(0, true));
    steps := steps + [CallbackStep(true)] + [DrainBegin] + [DrainStep(0, true)];
  }

  /** Removal of that device while the drain still has the Start: a second callback gets the Stop. */
  lemma StopInOtherHand(steps: seq<Step>) returns (more: seq<Step>)
    requires Run(steps) == INITIAL.(heap := map[0 := Device("a", 2, Running)], next := 1, devices := [0],
                                    drains := [Taken(Task(Start, 0))], log := [Event(0, Published)])
    ensures Run(more).drains == [Taken(Task(Start, 0)), Polling] && Run(more).tasks == [Task(Stop, 0)]
    ensures Run(more).log == [Event(0, Published), Event(0, Unlisted)]
    ensures Run(more).heap == map[0 := Device("a", 2, Running)]
  {
    RunSnoc(steps, Removal("a"));
    RunSnoc(steps + [Removal("a")], CallbackStep(true));
    more := steps + [Removal("a")] + [CallbackStep(true)];
    assert Run(more) == Run(steps).(heap := map[0 := Device("a", 3, Running)], callback := RemovalTask(0));
    RunSnoc(more, CallbackStep(true));
    assert Without([0], 0) == [];
    more := more + [CallbackStep(true)];
    RunSnoc(more, DrainBegin);
    more := more + [DrainBegin];
  }

  /** The story of the second callback's call. */
  lemma StoppedStory()
    ensures Story([Event(0, Published), Event(0, Unlisted), Event(0, StopCalled(Running))], 0)
      == [Published, Unlisted, StopCalled(Running)]
  {
    StorySnoc([], Event(0, Published), 0);
    StorySnoc([Event(0, Published)], Event(0, Unlisted), 0);
    StorySnoc([Event(0, Published), Event(0, Unlisted)], Event(0, StopCalled(Running)), 0);
  }

  /** With two callbacks at once, one can call Stop while the other still has the Start of the same device in hand. */
  lemma OverlapStopsBeforeStart()
    ensures exists steps :: Story(Run(steps).log, 0) == [Published, Unlisted, StopCalled(Running)]
  {
    var steps := StartInHand();
    steps := StopInOtherHand(steps);
    RunSnoc(steps, DrainStep(1, true));
    RunSnoc(steps + [DrainStep(1, true)], DrainStep(1, true));
    assert Run(steps + [DrainStep(1, true)] + [DrainStep(1, true)]).log
        == [Event(0, Published), Event(0, Unlisted), Event(0, StopCalled(Running))];
    StoppedStory();
  }
}
