/**
 When a Stop overtakes the Start it follows: for any number of overlapping drains,
 exactly when another drain has taken the Start and not called it yet.
 */
module SidebandOrder {
  import opened Counting
  import opened Sideband
  import opened SidebandLedger

  function Publishings(s: State, d: DeviceId): nat {
    Count(s.log, Event(d, Published))
  }

  function Starts(s: State, d: DeviceId): nat {
    Count(s.log, Event(d, StartCalled))
  }

  /** Drains that have taken the Start of `d` and not called it yet. */
  function StartsTaken(s: State, d: DeviceId): nat {
    Count(s.drains, Taken(Task(Start, d)))
  }

  function StartsQueued(s: State, d: DeviceId): nat {
    Count(s.tasks, Task(Start, d))
  }

  predicate Holds(drain: Drain, t: Task) {
    !drain.Polling? && drain.task == t
  }

  /** The object exists and is not published yet, or does not exist yet. */
  predicate Unborn(s: State, d: DeviceId) {
    d >= s.next
    || ((s.callback.ArrivalCreated? || s.callback.ArrivalReady? || s.callback.ArrivalTask?) && s.callback.device == d)
  }

  /** A Stop of `d` is of a published device, and no Start of `d` is queued behind it. */
  ghost predicate StopsLast(s: State, d: DeviceId) {
    && (forall i, j :: 0 <= i < j < |s.tasks| && s.tasks[i] == Task(Stop, d) ==> s.tasks[j] != Task(Start, d))
    && (forall j :: 0 <= j < |s.drains| && Holds(s.drains[j], Task(Stop, d)) ==> Task(Start, d) !in s.tasks)
  }

  ghost predicate StopsPublished(s: State, d: DeviceId) {
    || Publishings(s, d) == 1
    || (&& d !in s.devices && Task(Stop, d) !in s.tasks
        && forall j :: 0 <= j < |s.drains| ==> !Holds(s.drains[j], Task(Stop, d)))
  }

  /** A device is published at most once; from then on its Start is queued, taken or called, once. */
  ghost predicate Ordered(s: State, d: DeviceId) {
    && StartsQueued(s, d) + StartsTaken(s, d) + Starts(s, d) == Publishings(s, d) <= 1
    && (Unborn(s, d) ==> Publishings(s, d) == 0)
    && StopsPublished(s, d)
    && StopsLast(s, d)
  }

  // ----- steps that neither publish nor start

  predicate Quiet(log: seq<Event>, log': seq<Event>) {
    log' == log
    || (&& |log'| == |log| + 1 && log' == log + [log'[|log|]]
        && !log'[|log|].kind.Published? && !log'[|log|].kind.StartCalled?)
  }

  lemma QuietCounts(s: State, s': State, d: DeviceId)
    requires Quiet(s.log, s'.log)
    ensures Publishings(s', d) == Publishings(s, d) && Starts(s', d) == Starts(s, d)
  {
    if s'.log != s.log {
      CountSnoc(s.log, s'.log[|s.log|], Event(d, Published));
      CountSnoc(s.log, s'.log[|s.log|], Event(d, StartCalled));
    }
  }

  /** Queue and drains stay; `d` may leave the list and does not become unborn. */
  predicate QuietStep(s: State, s': State, d: DeviceId) {
    && Quiet(s.log, s'.log) && s'.tasks == s.tasks && s'.drains == s.drains
    && (Unborn(s', d) ==> Unborn(s, d))
    && (d in s'.devices ==> d in s.devices)
  }

  lemma QuietKeeps(s: State, s': State, d: DeviceId)
    requires Ordered(s, d) && QuietStep(s, s', d)
    ensures Ordered(s', d)
  {
    QuietCounts(s, s', d);
  }

  // ----- PnP callbacks

  /** Nobody but the callback holds a device under construction, so no task for it exists. */
  lemma BuiltHasNoTask(s: State, d: DeviceId)
    requires Inv(s) && s.callback == ArrivalTask(d)
    ensures Task(Start, d) !in s.tasks && Task(Stop, d) !in s.tasks
    ensures forall j :: 0 <= j < |s.drains| ==> !Holds(s.drains[j], Task(Stop, d))
  {
    assert Fresh(s, d);
    if t :| t in s.tasks && t.device == d { QueuedIsHolder(s.tasks, t); }
    forall j | 0 <= j < |s.drains|
      ensures !Holds(s.drains[j], Task(Stop, d))
    {
      InHandsAt(s.drains, j, Polling, d);
    }
  }

  lemma {:induction false} QueuedIsHolder(tasks: seq<Task>, t: Task)
    requires t in tasks
    ensures Queued(tasks, t.device) > 0
  {
    if tasks[0] != t {
      assert tasks == [tasks[0]] + tasks[1..];
      QueuedIsHolder(tasks[1..], t);
    }
  }

  lemma PublishOrdered(s: State, d: DeviceId, e: DeviceId)
    requires Inv(s) && s.callback == ArrivalTask(d) && Ordered(s, e)
    ensures Ordered(Publish(s, d), e)
  {
    BuiltHasNoTask(s, d);
    CountSnoc(s.log, Event(d, Published), Event(e, Published));
    CountSnoc(s.log, Event(d, Published), Event(e, StartCalled));
    CountSnoc(s.tasks, Task(Start, d), Task(Start, e));
  }

  lemma UnpublishLog(s: State, d: DeviceId)
    requires Inv(s) && s.callback == RemovalTask(d)
    ensures Unpublish(s, d).log == s.log + [Event(d, Unlisted)] && d in s.devices
    ensures forall e :: e in Unpublish(s, d).devices ==> e in s.devices
  {
    UnpublishInv(s, d);
    WithoutDistinct(s.heap, s.devices, d);
  }

  lemma UnpublishOrdered(s: State, d: DeviceId, e: DeviceId)
    requires Inv(s) && s.callback == RemovalTask(d) && Ordered(s, e)
    ensures Ordered(Unpublish(s, d), e)
  {
    UnpublishLog(s, d);
    QuietCounts(s, Unpublish(s, d), e);
    CountSnoc(s.tasks, Task(Stop, d), Task(Start, e));
  }

  lemma BuildOrdered(s: State, ok: bool, d: DeviceId)
    requires Ordered(s, d) && (s.callback.ArrivalMissing? || s.callback.ArrivalCreated? || s.callback.ArrivalReady?)
    ensures Ordered(ContinueCallback(s, ok), d)
  {
    QuietKeeps(s, ContinueCallback(s, ok), d);
  }

  lemma DropHandleOrdered(s: State, d: DeviceId, e: DeviceId)
    requires Ordered(s, e)
    ensures Ordered(Release(s, d).(callback := Idle), e)
  {
    QuietKeeps(s, Release(s, d).(callback := Idle), e);
  }

  lemma CallbackOrdered(s: State, ok: bool, e: DeviceId)
    requires Inv(s) && Ordered(s, e)
    ensures Ordered(ContinueCallback(s, ok), e)
  {
    match s.callback
    case ArrivalMissing(name) => BuildOrdered(s, ok, e);
    case ArrivalCreated(d) => BuildOrdered(s, ok, e);
    case ArrivalReady(d) => BuildOrdered(s, ok, e);
    case ArrivalTask(d) => PublishOrdered(s, d, e);
    case RemovalTask(d) => UnpublishOrdered(s, d, e);
    case ArrivalFound(d) => DropHandleOrdered(s, d, e);
    case ArrivalFailed(d) => DropHandleOrdered(s, d, e);
    case RemovalFailed(d) => DropHandleOrdered(s, d, e);
    case Idle =>
    case RemovalFound(d) =>
  }

  lemma BeginCallbackQuiet(s: State, name: string, d: DeviceId)
    ensures QuietStep(s, BeginArrival(s, name), d) && QuietStep(s, BeginRemoval(s, name), d)
  {
  }

  lemma HaltQuiet(s: State, d: DeviceId)
    ensures var s' := Halt(s, d);
      && Quiet(s.log, s'.log) && s'.tasks == s.tasks && s'.drains == s.drains
      && s'.next == s.next && s'.callback == s.callback && s'.devices == s.devices
  {
  }

  lemma CleanupQuiet(s: State, d: DeviceId)
    ensures QuietStep(s, ContinueCleanup(s), d)
  {
    match s.teardown
    case Popped(gone) => HaltQuiet(s, gone);
    case _ =>
  }

  // ----- the work item

  lemma CountWithout1(drains: seq<Drain>, i: nat, w: Drain)
    requires i < |drains| && drains[i] != w
    ensures Count(Without1(drains, i), w) == Count(drains, w)
  {
    CountConcat(drains[..i], drains[i + 1..], w);
    CountConcat(drains[..i], [drains[i]] + drains[i + 1..], w);
    assert drains == drains[..i] + ([drains[i]] + drains[i + 1..]);
    assert ([drains[i]] + drains[i + 1..])[1..] == drains[i + 1..];
  }

  lemma BeginDrainOrdered(s: State, d: DeviceId)
    requires Ordered(s, d)
    ensures Ordered(BeginDrain(s), d)
  {
    CountSnoc(s.drains, Polling, Taken(Task(Start, d)));
  }

  lemma LeaveLoopOrdered(s: State, index: nat, ok: bool, d: DeviceId)
    requires Ordered(s, d) && index < |s.drains| && s.drains[index] == Polling && s.tasks == []
    ensures Ordered(ContinueDrain(s, index, ok), d)
  {
    CountWithout1(s.drains, index, Taken(Task(Start, d)));
    var rest := Without1(s.drains, index);
    assert forall j :: 0 <= j < |rest| ==> rest[j] == s.drains[if j < index then j else j + 1];
  }

  lemma TakeOrdered(s: State, index: nat, ok: bool, d: DeviceId)
    requires Ordered(s, d) && index < |s.drains| && s.drains[index] == Polling && s.tasks != []
    ensures Ordered(ContinueDrain(s, index, ok), d)
  {
    var rest := s.tasks[1..];
    CountUpdate(s.drains, index, Taken(s.tasks[0]), Taken(Task(Start, d)));
    assert forall j :: 0 <= j < |rest| ==> rest[j] == s.tasks[j + 1];
  }

  /** A drain moves on with what it has in hand. */
  lemma HandMovesOn(s: State, index: nat, w: Drain, s': State, d: DeviceId)
    requires Ordered(s, d) && index < |s.drains| && !s.drains[index].Polling?
    requires w == Polling || (!w.Polling? && !w.Taken? && w.task == s.drains[index].task)
    requires s'.drains == s.drains[index := w] && s'.tasks == s.tasks && s'.devices == s.devices
    requires s'.next == s.next && s'.callback == s.callback
    requires if s.drains[index].Taken? && s.drains[index].task.action == Start
             then s'.log == s.log + [Event(s.drains[index].task.device, StartCalled)]
             else Quiet(s.log, s'.log)
    ensures Ordered(s', d)
  {
    CountUpdate(s.drains, index, w, Taken(Task(Start, d)));
    if s.drains[index].Taken? && s.drains[index].task.action == Start {
      CountSnoc(s.log, Event(s.drains[index].task.device, StartCalled), Event(d, StartCalled));
      CountSnoc(s.log, Event(s.drains[index].task.device, StartCalled), Event(d, Published));
    } else {
      QuietCounts(s, s', d);
    }
  }

  lemma DrainOrdered(s: State, index: nat, ok: bool, d: DeviceId)
    requires Inv(s) && Ordered(s, d)
    ensures Ordered(ContinueDrain(s, index, ok), d)
  {
    if index < |s.drains| {
      var s' := ContinueDrain(s, index, ok);
      match s.drains[index]
      case Polling =>
        if s.tasks == [] { LeaveLoopOrdered(s, index, ok, d); } else { TakeOrdered(s, index, ok, d); }
      case Taken(t) =>
        InHandsAt(s.drains, index, Polling, t.device);
        HeldIsAlive(s, t.device);
        HandMovesOn(s, index, InCall(t), s', d);
      case InCall(t) => HandMovesOn(s, index, Returned(t), s', d);
      case Returned(t) => HandMovesOn(s, index, Polling, s', d);
    }
  }

  // ----- every run

  lemma StepOrdered(s: State, step: Step, d: DeviceId)
    requires Inv(s) && Ordered(s, d)
    ensures Ordered(Apply(s, step), d)
  {
    match step
    case CallbackStep(ok) => CallbackOrdered(s, ok, d);
    case DrainBegin => BeginDrainOrdered(s, d);
    case DrainStep(index, ok) => DrainOrdered(s, index, ok, d);
    case Arrival(name) =>
      BeginCallbackQuiet(s, name, d);
      QuietKeeps(s, BeginArrival(s, name), d);
    case Removal(name) =>
      BeginCallbackQuiet(s, name, d);
      QuietKeeps(s, BeginRemoval(s, name), d);
    case CleanupStep =>
      CleanupQuiet(s, d);
      QuietKeeps(s, ContinueCleanup(s), d);
  }

  lemma {:induction false} RunOrdered(steps: seq<Step>, d: DeviceId)
    ensures Ordered(Run(steps), d)
  {
    if steps != [] {
      RunInv(steps[..|steps| - 1]);
      RunOrdered(steps[..|steps| - 1], d);
      StepOrdered(Run(steps[..|steps| - 1]), steps[|steps| - 1], d);
    }
  }

  /** Over every run, however its drains overlap: a device is started at most once, and never before it is published. */
  lemma {:induction false} StartedAtMostOnce(steps: seq<Step>, d: DeviceId)
    ensures Starts(Run(steps), d) <= Publishings(Run(steps), d) <= 1
  {
    RunOrdered(steps, d);
  }

  lemma StartTakenExactly(s: State, index: nat, d: DeviceId)
    requires Ordered(s, d) && index < |s.drains| && s.drains[index] == Taken(Task(Stop, d))
    ensures Event(d, StartCalled) !in s.log <==> Taken(Task(Start, d)) in s.drains
  {
    CountIsMembership(s.log, Event(d, StartCalled));
    CountIsMembership(s.drains, Taken(Task(Start, d)));
    CountIsMembership(s.tasks, Task(Start, d));
    assert Holds(s.drains[index], Task(Stop, d));
  }

  /**
   A drain that has taken the Stop of a device is about to call it.  In any reachable state the device has not been
   started by then exactly if another drain has taken its Start and not called it yet.
   */
  lemma {:induction false} StopOvertakesStartExactly(steps: seq<Step>, index: nat, d: DeviceId)
    requires index < |Run(steps).drains| && Run(steps).drains[index] == Taken(Task(Stop, d))
    ensures Event(d, StartCalled) !in Run(steps).log <==> Taken(Task(Start, d)) in Run(steps).drains
  {
    RunOrdered(steps, d);
    StartTakenExactly(Run(steps), index, d);
  }
}
