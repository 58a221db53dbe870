/**
 The life of one device over a whole run in which work-item callbacks do not overlap.

 What concerns one device is gathered in its profile.  Every step changes the profile
 of at most one device, and the profiles move through a small set of stages.
 */
module SidebandLifecycle {
  import opened Counting
  import opened Sideband
  import opened SidebandLedger

  /** The events of `d`, in order. */
  function Story(log: seq<Event>, d: DeviceId): seq<Kind> {
    if log == [] then []
    else Story(log[..|log| - 1], d) + (if log[|log| - 1].device == d then [log[|log| - 1].kind] else [])
  }

  /** The actions queued for `d`, in order. */
  function Actions(tasks: seq<Task>, d: DeviceId): seq<Action> {
    if tasks == [] then []
    else (if tasks[0].device == d then [tasks[0].action] else []) + Actions(tasks[1..], d)
  }

  /** What the drain, or cleanup, is doing with a device. */
  datatype Busy = NotBusy | About(action: Action) | Calling(action: Action) | Done(action: Action)

  datatype Object = Gone | Alive(state: DeviceState)

  datatype Profile = Profile(
    story: seq<Kind>,
    queued: seq<Action>,
    drain: Busy,
    cleanup: Busy,
    listed: bool,
    obj: Object)

  function DrainBusy(drains: seq<Drain>, d: DeviceId): Busy {
    if drains == [] || drains[0].Polling? || drains[0].task.device != d then NotBusy
    else match drains[0]
      case Taken(t) => About(t.action)
      case InCall(t) => Calling(t.action)
      case Returned(t) => Done(t.action)
  }

  function CleanupBusy(teardown: Teardown, d: DeviceId): Busy {
    if teardown == Popped(d) then About(Stop)
    else if teardown == Halted(d) then Done(Stop)
    else NotBusy
  }

  function ObjectOf(heap: map<DeviceId, Device>, d: DeviceId): Object {
    if d in heap then Alive(heap[d].state) else Gone
  }

  function Look(s: State, d: DeviceId): Profile {
    Profile(Story(s.log, d), Actions(s.tasks, d), DrainBusy(s.drains, d), CleanupBusy(s.teardown, d),
            d in s.devices, ObjectOf(s.heap, d))
  }

  // ----- the stages

  predicate Quiet(p: Profile) {
    p.queued == [] && p.drain == NotBusy && p.cleanup == NotBusy
  }

  /** Never published: nobody but the arrival callback ever sees the object. */
  predicate Unpublished(p: Profile) {
    && Quiet(p) && !p.listed
    && (|| (p.story == [] && p.obj in {Gone, Alive(Initializing), Alive(Running)})
        || (p.story == [NoTask] && p.obj == Alive(Running))
        || (p.story == [NoTask, Destroyed(Running)] && p.obj == Gone)
        || (p.story == [Destroyed(Initializing)] && p.obj == Gone))
  }

  predicate StartAhead(p: Profile, rest: seq<Action>) {
    && p.cleanup == NotBusy && p.obj == Alive(Running)
    && (|| (p.drain == NotBusy && p.queued == [Start] + rest)
        || (p.drain == About(Start) && p.queued == rest))
  }

  predicate StartBehind(p: Profile, rest: seq<Action>) {
    && p.cleanup == NotBusy && p.obj in {Alive(Running), Alive(Failed)}
    && p.drain in {NotBusy, Calling(Start), Done(Start)} && p.queued == rest
  }

  predicate StopNext(p: Profile) {
    && p.queued == [] && p.obj in {Alive(Running), Alive(Failed)}
    && (|| (p.drain == About(Stop) && p.cleanup == NotBusy)
        || (p.drain == NotBusy && p.cleanup == About(Stop)))
  }

  predicate StopBehind(p: Profile) {
    && p.queued == []
    && (|| (p.drain == Calling(Stop) && p.cleanup == NotBusy && p.obj == Alive(Stopping))
        || (p.drain == Done(Stop) && p.cleanup == NotBusy && p.obj == Alive(Stopped))
        || (p.drain == NotBusy && p.cleanup == Done(Stop) && p.obj == Alive(Stopped)))
  }

  /** Published, started and unlisted, in one of the two possible orders. */
  predicate Retired(w: seq<Kind>) {
    w == [Published, StartCalled, Unlisted] || w == [Published, Unlisted, StartCalled]
  }

  predicate Finished(w: seq<Kind>) {
    |w| == 4 && Retired(w[..3]) && (w[3] == StopCalled(Running) || w[3] == StopCalled(Failed))
  }

  predicate Coherent(p: Profile) {
    || Unpublished(p)
    || (p.story == [Published] && p.listed && StartAhead(p, []))
    || (p.story == [Published, StartCalled] && p.listed && StartBehind(p, []))
    || (p.story == [Published, Unlisted] && !p.listed && StartAhead(p, [Stop]))
    || (Retired(p.story) && !p.listed && (StartBehind(p, [Stop]) || StopNext(p)))
    || (Finished(p.story) && !p.listed && StopBehind(p))
    || (|p.story| == 5 && Finished(p.story[..4]) && p.story[4] == Destroyed(Stopped)
        && Quiet(p) && !p.listed && p.obj == Gone)
  }

  ghost predicate AllCoherent(s: State) {
    forall d: DeviceId :: Coherent(Look(s, d))
  }

  // ----- folding the sequences

  lemma StorySnoc(log: seq<Event>, e: Event, d: DeviceId)
    ensures Story(log + [e], d) == Story(log, d) + (if e.device == d then [e.kind] else [])
  {
    assert (log + [e])[..|log|] == log;
  }

  lemma {:induction false} ActionsSnoc(tasks: seq<Task>, t: Task, d: DeviceId)
    ensures Actions(tasks + [t], d) == Actions(tasks, d) + (if t.device == d then [t.action] else [])
  {
    if tasks == [] {
      assert [t][1..] == [];
    } else {
      ActionsSnoc(tasks[1..], t, d);
      assert (tasks + [t])[1..] == tasks[1..] + [t];
    }
  }

  lemma {:induction false} ActionsQueued(tasks: seq<Task>, d: DeviceId)
    ensures |Actions(tasks, d)| == Queued(tasks, d)
  {
    if tasks != [] {
      ActionsQueued(tasks[1..], d);
    }
  }

  /** The holders of a device, read off its profile. */
  lemma HoldersOfProfile(s: State, d: DeviceId)
    requires Inv(s) && |s.drains| <= 1
    ensures var p := Look(s, d);
      Holders(s, d) == Count(s.devices, d) + |p.queued| + (if p.drain == NotBusy then 0 else 1)
        + (if p.cleanup == NotBusy then 0 else 1) + CallbackHandle(s.callback, d)
    ensures d in s.devices <==> Count(s.devices, d) > 0
    ensures d in s.heap <==> Holders(s, d) > 0
  {
    ActionsQueued(s.tasks, d);
    CountIsMembership(s.devices, d);
    HeldIsAlive(s, d);
    if |s.drains| == 1 {
      assert InHands(s.drains, d) == InHand(s.drains[0], d) + InHands([], d);
    }
  }

  // ----- what the accesses to device objects show of every device

  lemma RecordLook(s: State, d: DeviceId, kind: Kind, e: DeviceId)
    ensures Look(Record(s, d, kind), e)
      == if e == d then Look(s, e).(story := Look(s, e).story + [kind]) else Look(s, e)
  {
    StorySnoc(s.log, Event(d, kind), e);
  }

  lemma SetStateLook(s: State, d: DeviceId, state: DeviceState, e: DeviceId)
    requires d in s.heap
    ensures Look(SetState(s, d, state), e) == if e == d then Look(s, e).(obj := Alive(state)) else Look(s, e)
  {
  }

  lemma ReleaseStory(s: State, d: DeviceId, e: DeviceId)
    requires d in s.heap && s.heap[d].refs > 0
    ensures Story(Release(s, d).log, e)
      == Story(s.log, e) + (if e == d && s.heap[d].refs == 1 then [Destroyed(s.heap[d].state)] else [])
  {
    StorySnoc(s.log, Event(d, Destroyed(s.heap[d].state)), e);
  }

  lemma ReleaseObject(s: State, d: DeviceId, e: DeviceId)
    requires d in s.heap && s.heap[d].refs > 0
    ensures ObjectOf(Release(s, d).heap, e) == if e == d && s.heap[d].refs == 1 then Gone else ObjectOf(s.heap, e)
  {
  }

  lemma ReleaseLook(s: State, d: DeviceId, e: DeviceId)
    requires d in s.heap && s.heap[d].refs > 0
    ensures var p := Look(s, e);
      Look(Release(s, d), e)
      == if e != d || s.heap[d].refs > 1 then p else p.(story := p.story + [Destroyed(s.heap[d].state)], obj := Gone)
  {
    ReleaseStory(s, d, e);
    ReleaseObject(s, d, e);
  }

  // ----- PnP callbacks

  lemma BeginCallbackKeeps(s: State, step: Step)
    requires Inv(s) && AllCoherent(s) && (step.Arrival? || step.Removal?)
    ensures AllCoherent(Apply(s, step))
  {
    var s' := Apply(s, step);
    FindSound(s.heap, s.devices, step.name);
    forall d: DeviceId
      ensures Coherent(Look(s', d))
    {
      assert Look(s', d) == Look(s, d);
    }
  }

  lemma AllocateKeeps(s: State, name: string)
    requires Inv(s) && AllCoherent(s) && |s.drains| <= 1 && s.callback == ArrivalMissing(name)
    requires Story(s.log, s.next) == []
    ensures AllCoherent(Allocate(s, name))
  {
    var s' := Allocate(s, name);
    HoldersOfProfile(s, s.next);
    forall d: DeviceId
      ensures Coherent(Look(s', d))
    {
      if d != s.next {
        assert Look(s', d) == Look(s, d);
      }
    }
  }

  /** What the local variables of an arrival say about the object under construction. */
  ghost predicate BuildOk(s: State) {
    match s.callback
    case ArrivalCreated(d) => Story(s.log, d) == [] && d in s.heap && s.heap[d].state == Initializing
    case ArrivalReady(d) => Story(s.log, d) == [] && d in s.heap && s.heap[d].state == Running
    case ArrivalTask(d) => Story(s.log, d) == [] && d in s.heap && s.heap[d].state == Running
    case ArrivalFailed(d) =>
      d in s.heap && (Story(s.log, d) == [NoTask] || (Story(s.log, d) == [] && s.heap[d].state == Initializing))
    case _ => true
  }

  /** The callback's own handle never is what keeps a published device alive. */
  lemma DropHandleKeeps(s: State, d: DeviceId)
    requires Inv(s) && AllCoherent(s) && |s.drains| <= 1 && CallbackHandle(s.callback, d) == 1
    requires s.callback.ArrivalFailed? <==> d !in s.devices
    requires BuildOk(s)
    ensures AllCoherent(Release(s, d).(callback := Idle))
  {
    HoldersOfProfile(s, d);
    HeldIsAlive(s, d);
    assert Coherent(Look(s, d));
    forall e: DeviceId
      ensures Coherent(Look(Release(s, d).(callback := Idle), e))
    {
      ReleaseLook(s, d, e);
      assert Look(Release(s, d).(callback := Idle), e) == Look(Release(s, d), e);
    }
  }

  lemma PublishLook(s: State, d: DeviceId, e: DeviceId)
    requires d in s.heap
    ensures var p := Look(s, e);
      Look(Publish(s, d), e)
      == if e != d then p else p.(story := p.story + [Published], queued := p.queued + [Start], listed := true)
  {
    StorySnoc(s.log, Event(d, Published), e);
    ActionsSnoc(s.tasks, Task(Start, d), e);
  }

  lemma PublishKeeps(s: State, d: DeviceId)
    requires Inv(s) && AllCoherent(s) && |s.drains| <= 1 && s.callback == ArrivalTask(d)
    requires Story(s.log, d) == [] && s.heap[d].state == Running
    ensures AllCoherent(Publish(s, d))
  {
    HoldersOfProfile(s, d);
    forall e: DeviceId
      ensures Coherent(Look(Publish(s, d), e))
    {
      PublishLook(s, d, e);
    }
  }

  lemma {:induction false} WithoutKeeps(devices: seq<DeviceId>, d: DeviceId, e: DeviceId)
    requires e != d
    ensures e in Without(devices, d) <==> e in devices
  {
    if devices != [] {
      assert devices == [devices[0]] + devices[1..];
      if devices[0] != d {
        WithoutKeeps(devices[1..], d, e);
      }
    }
  }

  lemma UnpublishLook(s: State, d: DeviceId, e: DeviceId)
    requires d in s.heap && s.heap[d].refs >= 2 && d !in Without(s.devices, d)
    ensures var p := Look(s, e);
      Look(Unpublish(s, d), e)
      == if e != d then p else p.(story := p.story + [Unlisted], queued := p.queued + [Stop], listed := false)
  {
    var unlisted := s.(devices := Without(s.devices, d));
    RecordLook(unlisted, d, Unlisted, e);
    ReleaseLook(Record(unlisted, d, Unlisted), d, e);
    ActionsSnoc(s.tasks, Task(Stop, d), e);
    if e != d { WithoutKeeps(s.devices, d, e); }
  }

  lemma UnpublishKeeps(s: State, d: DeviceId)
    requires Inv(s) && AllCoherent(s) && |s.drains| <= 1 && s.callback == RemovalTask(d)
    ensures AllCoherent(Unpublish(s, d))
  {
    UnpublishInv(s, d);
    WithoutDistinct(s.heap, s.devices, d);
    forall e: DeviceId
      ensures Coherent(Look(Unpublish(s, d), e))
    {
      UnpublishLook(s, d, e);
    }
  }

  ghost predicate LogOk(s: State) {
    forall e :: e in s.log ==> e.device < s.next
  }

  /** The whole invariant of runs without overlap. */
  ghost predicate LifeInv(s: State) {
    Inv(s) && AllCoherent(s) && BuildOk(s) && LogOk(s)
  }

  lemma {:induction false} UnseenHasNoStory(log: seq<Event>, d: DeviceId)
    requires forall e :: e in log ==> e.device < d
    ensures Story(log, d) == []
  {
    if log != [] {
      UnseenHasNoStory(log[..|log| - 1], d);
    }
  }

  lemma BuildLook(s: State, ok: bool, e: DeviceId)
    requires s.callback.ArrivalCreated? || s.callback.ArrivalReady?
    requires s.callback.device in s.heap
    ensures Look(ContinueCallback(s, ok), e)
      == (if e != s.callback.device then Look(s, e)
          else if s.callback.ArrivalCreated? then (if ok then Look(s, e).(obj := Alive(Running)) else Look(s, e))
          else if ok then Look(s, e)
          else Look(s, e).(story := Look(s, e).story + [NoTask]))
  {
    if s.callback.ArrivalCreated? {
      SetStateLook(s, s.callback.device, Running, e);
    } else {
      RecordLook(s, s.callback.device, NoTask, e);
    }
  }

  lemma BuildStepKeeps(s: State, ok: bool)
    requires LifeInv(s) && |s.drains| <= 1 && (s.callback.ArrivalCreated? || s.callback.ArrivalReady?)
    ensures AllCoherent(ContinueCallback(s, ok))
    ensures BuildOk(ContinueCallback(s, ok))
  {
    var d := s.callback.device;
    var p := Look(s, d);
    assert Coherent(p);
    BuildLook(s, ok, d);
    assert Unpublished(p) && p.story == [];
    forall e: DeviceId
      ensures Coherent(Look(ContinueCallback(s, ok), e))
    {
      BuildLook(s, ok, e);
    }
  }

  lemma ContinueCallbackKeeps(s: State, ok: bool)
    requires LifeInv(s) && |s.drains| <= 1
    ensures AllCoherent(ContinueCallback(s, ok)) && BuildOk(ContinueCallback(s, ok))
  {
    var s' := ContinueCallback(s, ok);
    UnseenHasNoStory(s.log, s.next);
    match s.callback
    case ArrivalMissing(name) =>
      if ok {
        AllocateKeeps(s, name);
      } else {
        assert forall d: DeviceId :: Look(s', d) == Look(s, d);
      }
    case ArrivalCreated(d) => BuildStepKeeps(s, ok);
    case ArrivalReady(d) => BuildStepKeeps(s, ok);
    case ArrivalTask(d) => PublishKeeps(s, d);
    case ArrivalFound(d) => DropHandleKeeps(s, d);
    case ArrivalFailed(d) => DropHandleKeeps(s, d);
    case RemovalFailed(d) => DropHandleKeeps(s, d);
    case RemovalTask(d) => UnpublishKeeps(s, d);
    case Idle =>
    case RemovalFound(d) => assert forall e: DeviceId :: Look(s', e) == Look(s, e);
  }

  // ----- the work item, one callback at a time

  lemma TakeKeeps(s: State, ok: bool)
    requires Inv(s) && AllCoherent(s) && s.drains == [Polling]
    ensures AllCoherent(ContinueDrain(s, 0, ok))
  {
    var s' := ContinueDrain(s, 0, ok);
    forall e: DeviceId
      ensures Coherent(Look(s', e))
    {
      var p := Look(s, e);
      if s.tasks == [] {
        assert s'.drains == [];
        assert Look(s', e) == p;
      } else if e != s.tasks[0].device {
        assert Look(s', e) == p;
      } else {
        assert p.queued == [s.tasks[0].action] + Look(s', e).queued;
        assert Look(s', e) == p.(queued := p.queued[1..], drain := About(p.queued[0]));
      }
    }
  }

  /** A device's profile once its call has been entered. */
  function EnteredProfile(p: Profile, action: Action): Profile
    requires p.obj.Alive?
  {
    p.(story := p.story + [if action == Start then StartCalled else StopCalled(p.obj.state)],
       drain := Calling(action), obj := if action == Start then p.obj else Alive(Stopping))
  }

  lemma EnterStage(p: Profile, action: Action)
    requires Coherent(p) && p.drain == About(action)
    ensures p.obj.Alive? && Coherent(EnteredProfile(p, action))
  {
    if action == Start {
      assert p.story == [Published] || p.story == [Published, Unlisted];
    } else {
      assert Retired(p.story) && StopNext(p);
      assert EnteredProfile(p, Stop).story[..3] == p.story;
    }
  }

  lemma EnterLook(s: State, t: Task, ok: bool, e: DeviceId)
    requires s.drains == [Taken(t)] && t.device in s.heap
    ensures Look(ContinueDrain(s, 0, ok), e)
      == if e == t.device then EnteredProfile(Look(s, e), t.action) else Look(s, e)
  {
    var kind := if t.action == Start then StartCalled else StopCalled(s.heap[t.device].state);
    RecordLook(s, t.device, kind, e);
    SetStateLook(Record(s, t.device, kind), t.device, Stopping, e);
  }

  lemma EnterKeeps(s: State, t: Task, ok: bool)
    requires Inv(s) && AllCoherent(s) && s.drains == [Taken(t)]
    ensures AllCoherent(ContinueDrain(s, 0, ok))
  {
    assert Coherent(Look(s, t.device));
    EnterStage(Look(s, t.device), t.action);
    forall e: DeviceId
      ensures Coherent(Look(ContinueDrain(s, 0, ok), e))
    {
      EnterLook(s, t, ok, e);
    }
  }

  function LeftProfile(p: Profile, action: Action, ok: bool): Profile {
    p.(drain := Done(action), obj := if action == Stop then Alive(Stopped) else if ok then p.obj else Alive(Failed))
  }

  lemma LeaveStage(p: Profile, action: Action, ok: bool)
    requires Coherent(p) && p.drain == Calling(action)
    ensures p.obj.Alive? && Coherent(LeftProfile(p, action, ok))
  {
    if action == Start {
      assert p.story == [Published, StartCalled] || Retired(p.story);
    } else {
      assert Finished(p.story);
    }
  }

  lemma LeaveLook(s: State, t: Task, ok: bool, e: DeviceId)
    requires s.drains == [InCall(t)] && t.device in s.heap
    ensures Look(ContinueDrain(s, 0, ok), e)
      == if e == t.device then LeftProfile(Look(s, e), t.action, ok) else Look(s, e)
  {
    SetStateLook(s, t.device, if t.action == Stop then Stopped else Failed, e);
  }

  lemma LeaveKeeps(s: State, t: Task, ok: bool)
    requires Inv(s) && AllCoherent(s) && s.drains == [InCall(t)]
    ensures AllCoherent(ContinueDrain(s, 0, ok))
  {
    assert Coherent(Look(s, t.device));
    LeaveStage(Look(s, t.device), t.action, ok);
    forall e: DeviceId
      ensures Coherent(Look(ContinueDrain(s, 0, ok), e))
    {
      LeaveLook(s, t, ok, e);
    }
  }

  /** A device whose Start has returned is still listed or still has its Stop queued. */
  lemma StartReturned(p: Profile)
    requires Coherent(p) && p.drain == Done(Start)
    ensures (p.listed || p.queued != []) && p.cleanup == NotBusy
    ensures Coherent(p.(drain := NotBusy))
  {
  }

  /** A device whose Stop has returned is held by the stopper alone, and may go. */
  lemma StopReturned(p: Profile)
    requires Coherent(p) && (p.drain == Done(Stop) || p.cleanup == Done(Stop))
    ensures p.queued == [] && !p.listed && (p.drain == NotBusy || p.cleanup == NotBusy) && p.obj == Alive(Stopped)
    ensures Coherent(Profile(p.story + [Destroyed(Stopped)], [], NotBusy, NotBusy, false, Gone))
  {
    assert (p.story + [Destroyed(Stopped)])[..4] == p.story;
  }

  lemma ReturnLook(s: State, t: Task, ok: bool, e: DeviceId)
    requires s.drains == [Returned(t)] && t.device in s.heap && s.heap[t.device].refs > 0
    ensures var p := Look(s, e);
      Look(ContinueDrain(s, 0, ok), e)
      == (if e != t.device then p
          else if s.heap[e].refs == 1 then
            p.(story := p.story + [Destroyed(s.heap[e].state)], drain := NotBusy, obj := Gone)
          else p.(drain := NotBusy))
  {
    ReleaseLook(s, t.device, e);
  }

  /** The drain's release is the last one exactly after a Stop. */
  lemma ReturnIsLast(s: State, t: Task)
    requires Inv(s) && AllCoherent(s) && s.drains == [Returned(t)]
    ensures t.device in s.heap && s.heap[t.device].refs > 0
    ensures s.heap[t.device].refs == 1 <==> t.action == Stop
  {
    var d := t.device;
    HoldersOfProfile(s, d);
    HeldIsAlive(s, d);
    assert Coherent(Look(s, d));
    if t.action == Start { StartReturned(Look(s, d)); } else { StopReturned(Look(s, d)); }
  }

  lemma ReturnKeeps(s: State, t: Task, ok: bool)
    requires Inv(s) && AllCoherent(s) && s.drains == [Returned(t)]
    ensures AllCoherent(ContinueDrain(s, 0, ok))
    ensures t.device in ContinueDrain(s, 0, ok).heap <==> t.action == Start
  {
    var p := Look(s, t.device);
    assert Coherent(p);
    ReturnIsLast(s, t);
    if t.action == Start { StartReturned(p); } else { StopReturned(p); }
    forall e: DeviceId
      ensures Coherent(Look(ContinueDrain(s, 0, ok), e))
    {
      ReturnLook(s, t, ok, e);
    }
  }

  lemma ContinueDrainKeeps(s: State, index: nat, ok: bool)
    requires Inv(s) && AllCoherent(s) && |s.drains| <= 1
    ensures AllCoherent(ContinueDrain(s, index, ok))
  {
    if index < |s.drains| {
      assert s.drains == [s.drains[0]];
      match s.drains[0]
      case Polling => TakeKeeps(s, ok);
      case Taken(t) => EnterKeeps(s, t, ok);
      case InCall(t) => LeaveKeeps(s, t, ok);
      case Returned(t) => ReturnKeeps(s, t, ok);
    }
  }

  // ----- cleanup

  lemma PopKeeps(s: State)
    requires Inv(s) && AllCoherent(s) && s.teardown == Flushed && s.devices != []
    ensures AllCoherent(ContinueCleanup(s))
  {
    var s' := ContinueCleanup(s);
    var d := s.devices[0];
    PopInv(s);
    forall e: DeviceId
      ensures Coherent(Look(s', e))
    {
      StorySnoc(s.log, Event(d, Unlisted), e);
      assert s.devices == [d] + s'.devices;
      if e != d {
        assert Look(s', e) == Look(s, e);
      } else {
        assert Coherent(Look(s, d));
        forall i | 0 <= i < |s'.devices|
          ensures s'.devices[i] != d
        {
          assert s.heap[s.devices[0]].name != s.heap[s.devices[i + 1]].name;
        }
        assert Look(s', d) ==
          Look(s, d).(story := [Published, StartCalled, Unlisted], listed := false, cleanup := About(Stop));
      }
    }
  }

  function HaltedProfile(p: Profile): Profile
    requires p.obj.Alive?
  {
    p.(story := p.story + [StopCalled(p.obj.state)], cleanup := Done(Stop), obj := Alive(Stopped))
  }

  lemma HaltStage(p: Profile)
    requires Coherent(p) && p.cleanup == About(Stop)
    ensures p.obj.Alive? && Coherent(HaltedProfile(p))
  {
    assert Retired(p.story) && StopNext(p);
    assert HaltedProfile(p).story[..3] == p.story;
  }

  lemma HaltLook(s: State, d: DeviceId, e: DeviceId)
    requires s.teardown == Popped(d) && d in s.heap
    ensures Look(ContinueCleanup(s), e) == if e == d then HaltedProfile(Look(s, e)) else Look(s, e)
  {
    RecordLook(s, d, StopCalled(s.heap[d].state), e);
    SetStateLook(Record(s, d, StopCalled(s.heap[d].state)), d, Stopped, e);
  }

  lemma HaltKeeps(s: State)
    requires Inv(s) && AllCoherent(s) && s.teardown.Popped?
    ensures AllCoherent(ContinueCleanup(s))
  {
    var d := s.teardown.device;
    assert Coherent(Look(s, d));
    HaltStage(Look(s, d));
    forall e: DeviceId
      ensures Coherent(Look(ContinueCleanup(s), e))
    {
      HaltLook(s, d, e);
    }
  }

  /** The reference cleanup drops is the last one. */
  lemma FinalReleaseLook(s: State, d: DeviceId, e: DeviceId)
    requires s.teardown == Halted(d) && d in s.heap && s.heap[d].refs == 1
    ensures var p := Look(s, e);
      Look(ContinueCleanup(s), e)
      == if e != d then p
         else p.(story := p.story + [Destroyed(s.heap[d].state)], cleanup := NotBusy, obj := Gone)
  {
    ReleaseLook(s, d, e);
  }

  lemma FinalReleaseKeeps(s: State)
    requires Inv(s) && AllCoherent(s) && s.teardown.Halted?
    ensures AllCoherent(ContinueCleanup(s))
    ensures s.teardown.device in s.heap && s.teardown.device !in ContinueCleanup(s).heap
  {
    var d := s.teardown.device;
    var p := Look(s, d);
    HoldersOfProfile(s, d);
    HeldIsAlive(s, d);
    assert Coherent(p);
    StopReturned(p);
    forall e: DeviceId
      ensures Coherent(Look(ContinueCleanup(s), e))
    {
      FinalReleaseLook(s, d, e);
    }
  }

  lemma ContinueCleanupKeeps(s: State)
    requires Inv(s) && AllCoherent(s)
    ensures AllCoherent(ContinueCleanup(s))
  {
    var s' := ContinueCleanup(s);
    match s.teardown
    case Popped(d) => HaltKeeps(s);
    case Halted(d) => FinalReleaseKeeps(s);
    case _ =>
      if s.teardown == Flushed && s.devices != [] {
        PopKeeps(s);
      } else {
        assert forall e: DeviceId :: Look(s', e) == Look(s, e);
      }
  }

  // ----- every run without overlap

  lemma BeginDrainKeeps(s: State)
    requires LifeInv(s) && |BeginDrain(s).drains| <= 1
    ensures AllCoherent(BeginDrain(s)) && BuildOk(BeginDrain(s))
  {
    assert forall d: DeviceId :: Look(BeginDrain(s), d) == Look(s, d);
  }

  lemma EnterElsewhere(s: State, t: Task, d: DeviceId)
    requires t.device in s.heap && t.device != d
    ensures Story(Enter(s, t).log, d) == Story(s.log, d)
    ensures d in s.heap ==> d in Enter(s, t).heap && Enter(s, t).heap[d] == s.heap[d]
  {
    var kind := if t.action == Start then StartCalled else StopCalled(s.heap[t.device].state);
    StorySnoc(s.log, Event(t.device, kind), d);
  }

  /** What a drain does to one device is invisible at every other. */
  lemma DrainElsewhere(s: State, index: nat, ok: bool, d: DeviceId)
    requires Inv(s) && index < |s.drains| && !s.drains[index].Polling? && s.drains[index].task.device != d
    ensures var s' := ContinueDrain(s, index, ok);
      && s'.callback == s.callback && Story(s'.log, d) == Story(s.log, d)
      && (d in s.heap ==> d in s'.heap && s'.heap[d].state == s.heap[d].state)
  {
    var e := s.drains[index].task.device;
    assert e in s.heap && s.heap[e].refs > 0 by {
      InHandsAt(s.drains, index, Polling, e);
      HeldIsAlive(s, e);
    }
    match s.drains[index]
    case Taken(t) => EnterElsewhere(s, t, d);
    case InCall(t) =>
    case Returned(t) => ReleaseLook(s, e, d);
  }

  /** A drain never has the object under construction in hand. */
  lemma DrainKeepsBuild(s: State, index: nat, ok: bool)
    requires LifeInv(s) && index < |s.drains|
    ensures BuildOk(ContinueDrain(s, index, ok))
  {
    if s.callback.ArrivalCreated? || s.callback.ArrivalReady? || s.callback.ArrivalTask? || s.callback.ArrivalFailed? {
      var d := s.callback.device;
      InHandsAt(s.drains, index, Polling, d);
      if !s.drains[index].Polling? {
        DrainElsewhere(s, index, ok, d);
      }
    }
  }

  lemma CallbackKeepsLog(s: State, step: Step)
    requires Inv(s) && LogOk(s) && (step.Arrival? || step.Removal? || step.CallbackStep?)
    ensures LogOk(Apply(s, step))
  {
    if !s.callback.Idle? && !s.callback.ArrivalMissing? {
      HeldIsAlive(s, s.callback.device);
    }
  }

  lemma HandIsAlive(s: State, index: nat)
    requires Inv(s) && index < |s.drains| && !s.drains[index].Polling?
    ensures s.drains[index].task.device in s.heap && s.drains[index].task.device < s.next
  {
    InHandsAt(s.drains, index, Polling, s.drains[index].task.device);
    HeldIsAlive(s, s.drains[index].task.device);
  }

  lemma DrainKeepsLog(s: State, index: nat, ok: bool)
    requires Inv(s) && LogOk(s)
    ensures LogOk(ContinueDrain(s, index, ok))
  {
    if index < |s.drains| && !s.drains[index].Polling? {
      HandIsAlive(s, index);
      var s' := ContinueDrain(s, index, ok);
      assert s'.next == s.next;
      assert forall e :: e in s'.log ==> e in s.log || e.device == s.drains[index].task.device;
    }
  }

  lemma CleanupKeepsLog(s: State)
    requires Inv(s) && LogOk(s)
    ensures LogOk(ContinueCleanup(s))
  {
    if s.teardown.Popped? || s.teardown.Halted? {
      HeldIsAlive(s, s.teardown.device);
    }
  }

  lemma LifeStep(s: State, step: Step)
    requires LifeInv(s) && |s.drains| <= 1 && |Apply(s, step).drains| <= 1
    ensures LifeInv(Apply(s, step))
  {
    StepInv(s, step);
    match step
    case Arrival(name) => BeginCallbackKeeps(s, step); CallbackKeepsLog(s, step);
    case Removal(name) => BeginCallbackKeeps(s, step); CallbackKeepsLog(s, step);
    case CallbackStep(ok) => ContinueCallbackKeeps(s, ok); CallbackKeepsLog(s, step);
    case DrainBegin => BeginDrainKeeps(s);
    case DrainStep(index, ok) =>
      if index < |s.drains| {
        ContinueDrainKeeps(s, index, ok);
        DrainKeepsBuild(s, index, ok);
        DrainKeepsLog(s, index, ok);
      }
    case CleanupStep => ContinueCleanupKeeps(s); CleanupKeepsLog(s);
  }

  /** No two work-item callbacks are ever in progress at once. */
  ghost predicate NoOverlap(steps: seq<Step>) {
    forall k | 0 <= k <= |steps| :: |Run(steps[..k]).drains| <= 1
  }

  lemma {:induction false} LifeRun(steps: seq<Step>)
    requires NoOverlap(steps)
    ensures LifeInv(Run(steps))
  {
    if steps != [] {
      var before := steps[..|steps| - 1];
      assert steps[..|steps|] == steps;
      forall k | 0 <= k <= |before|
        ensures |Run(before[..k]).drains| <= 1
      {
        assert before[..k] == steps[..k];
      }
      LifeRun(before);
      LifeStep(Run(before), steps[|steps| - 1]);
    }
  }
}
