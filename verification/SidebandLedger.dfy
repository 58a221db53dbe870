/**
 The reference-count ledger and the wake-up discipline of the sideband manager,
 for every run and any number of overlapping work-item callbacks.
 */
module SidebandLedger {
  import opened Counting
  import opened Sideband

  // ----- who holds a reference on `d`

  function Queued(tasks: seq<Task>, d: DeviceId): nat {
    if tasks == [] then 0 else (if tasks[0].device == d then 1 else 0) + Queued(tasks[1..], d)
  }

  function InHand(drain: Drain, d: DeviceId): nat {
    if !drain.Polling? && drain.task.device == d then 1 else 0
  }

  function InHands(drains: seq<Drain>, d: DeviceId): nat {
    if drains == [] then 0 else InHand(drains[0], d) + InHands(drains[1..], d)
  }

  function CallbackHandle(callback: Callback, d: DeviceId): nat {
    if !callback.Idle? && !callback.ArrivalMissing? && callback.device == d then 1 else 0
  }

  function CleanupHandle(teardown: Teardown, d: DeviceId): nat {
    if (teardown.Popped? || teardown.Halted?) && teardown.device == d then 1 else 0
  }

  /** List entries, queued tasks, tasks in a drain's hand and live local handles that name `d`. */
  function Holders(s: State, d: DeviceId): nat {
    Count(s.devices, d) + Queued(s.tasks, d) + InHands(s.drains, d)
    + CallbackHandle(s.callback, d) + CleanupHandle(s.teardown, d)
  }

  /** The reference count of `d`; a destroyed object has none. */
  function Refs(heap: map<DeviceId, Device>, d: DeviceId): nat {
    if d in heap then heap[d].refs else 0
  }

  ghost predicate Balanced(s: State) {
    && (forall d: DeviceId :: Refs(s.heap, d) == Holders(s, d))
    && (forall d :: d in s.heap ==> s.heap[d].refs > 0)
  }

  // ----- the shape of the lists and of the local variables

  ghost predicate NamesDistinct(heap: map<DeviceId, Device>, devices: seq<DeviceId>) {
    && (forall i :: 0 <= i < |devices| ==> devices[i] in heap)
    && (forall i, j :: 0 <= i < j < |devices| ==> heap[devices[i]].name != heap[devices[j]].name)
  }

  ghost predicate NameUnlisted(heap: map<DeviceId, Device>, devices: seq<DeviceId>, name: string)
    requires NamesDistinct(heap, devices)
  {
    forall i :: 0 <= i < |devices| ==> heap[devices[i]].name != name
  }

  /** The object under construction is held by nobody but the callback, and its name is not listed. */
  ghost predicate Fresh(s: State, d: DeviceId)
    requires NamesDistinct(s.heap, s.devices)
  {
    Holders(s, d) == 1 && d in s.heap && NameUnlisted(s.heap, s.devices, s.heap[d].name)
  }

  ghost predicate CallbackOk(s: State)
    requires NamesDistinct(s.heap, s.devices)
  {
    match s.callback
    case Idle => true
    case ArrivalMissing(name) => NameUnlisted(s.heap, s.devices, name)
    case ArrivalFound(d) => d in s.devices
    case RemovalFound(d) => d in s.devices
    case RemovalTask(d) => d in s.devices
    case RemovalFailed(d) => d in s.devices
    case ArrivalCreated(d) => Fresh(s, d)
    case ArrivalReady(d) => Fresh(s, d)
    case ArrivalTask(d) => Fresh(s, d)
    case ArrivalFailed(d) => Fresh(s, d)
  }

  ghost predicate Shape(s: State) {
    && (forall d :: d in s.heap ==> d < s.next)
    && NamesDistinct(s.heap, s.devices)
    && CallbackOk(s)
    && (s.teardown != Live ==> s.callback == Idle)
    && (s.teardown.Flushed? || s.teardown.Popped? || s.teardown.Halted? ==>
          !s.pending && s.drains == [] && s.tasks == [])
  }

  /** Queued work is always announced: the work item is pending or some drain has still to see the queue empty. */
  predicate Awake(s: State) {
    s.tasks != [] ==> s.pending || s.drains != []
  }

  ghost predicate Inv(s: State) {
    !s.fault && Balanced(s) && Shape(s) && Awake(s)
  }

  // ----- counting over the sequences

  lemma {:induction false} QueuedSnoc(tasks: seq<Task>, t: Task, d: DeviceId)
    ensures Queued(tasks + [t], d) == Queued(tasks, d) + (if t.device == d then 1 else 0)
  {
    if tasks == [] {
      assert [t][1..] == [];
    } else {
      QueuedSnoc(tasks[1..], t, d);
      assert (tasks + [t])[1..] == tasks[1..] + [t];
    }
  }

  lemma {:induction false} InHandsSnoc(drains: seq<Drain>, w: Drain, d: DeviceId)
    ensures InHands(drains + [w], d) == InHands(drains, d) + InHand(w, d)
  {
    if drains == [] {
      assert [w][1..] == [];
    } else {
      InHandsSnoc(drains[1..], w, d);
      assert (drains + [w])[1..] == drains[1..] + [w];
    }
  }

  lemma {:induction false} InHandsAt(drains: seq<Drain>, i: nat, w: Drain, d: DeviceId)
    requires i < |drains|
    ensures InHands(drains, d) == InHand(drains[i], d) + InHands(Without1(drains, i), d)
    ensures InHands(drains[i := w], d) == InHand(w, d) + InHands(Without1(drains, i), d)
  {
    if i == 0 {
      assert Without1(drains, 0) == drains[1..] == drains[0 := w][1..];
    } else {
      InHandsAt(drains[1..], i - 1, w, d);
      assert Without1(drains, i)[1..] == Without1(drains[1..], i - 1);
      assert drains[i := w][1..] == drains[1..][i - 1 := w];
    }
  }

  lemma {:induction false} ListedWithout(devices: seq<DeviceId>, gone: DeviceId, d: DeviceId)
    requires gone in devices
    ensures Count(devices, d) == Count(Without(devices, gone), d) + (if gone == d then 1 else 0)
  {
    if devices[0] != gone {
      ListedWithout(devices[1..], gone, d);
      assert Without(devices, gone)[1..] == Without(devices[1..], gone);
    }
  }

  lemma {:induction false} WithoutDistinct(heap: map<DeviceId, Device>, devices: seq<DeviceId>, d: DeviceId)
    requires NamesDistinct(heap, devices) && d in devices
    ensures NamesDistinct(heap, Without(devices, d)) && d !in Without(devices, d)
    ensures forall e :: e in Without(devices, d) ==> e in devices
  {
    var rest := devices[1..];
    assert forall i :: 0 <= i < |rest| ==> rest[i] == devices[i + 1];
    if devices[0] != d {
      WithoutDistinct(heap, rest, d);
      var kept := Without(rest, d);
      forall i | 0 <= i < |kept|
        ensures heap[kept[i]].name != heap[devices[0]].name
      {
        assert kept[i] in rest;
      }
    }
  }

  lemma {:induction false} FindSound(heap: map<DeviceId, Device>, devices: seq<DeviceId>, name: string)
    requires NamesDistinct(heap, devices)
    ensures var r := Find(heap, devices, name);
      && !r.Dangling?
      && (r.Found? ==> r.device in devices && heap[r.device].name == name)
      && (r.NotFound? ==> NameUnlisted(heap, devices, name))
  {
    if devices != [] && heap[devices[0]].name != name {
      var rest := devices[1..];
      assert forall i :: 0 <= i < |rest| ==> rest[i] == devices[i + 1];
      FindSound(heap, rest, name);
      if Find(heap, rest, name).NotFound? {
        forall i | 0 <= i < |devices|
          ensures heap[devices[i]].name != name
        {
          if i > 0 { assert devices[i] == rest[i - 1]; }
        }
      }
    }
  }

  // ----- facts every proof below starts from

  /** Whoever holds `d` may touch it. */
  lemma HeldIsAlive(s: State, d: DeviceId)
    requires Balanced(s)
    ensures d in s.heap <==> Holders(s, d) > 0
    ensures d in s.heap ==> s.heap[d].refs == Holders(s, d)
    ensures d in s.devices ==> Count(s.devices, d) > 0
  {
    assert Refs(s.heap, d) == Holders(s, d);
    CountIsMembership(s.devices, d);
  }

  /** Dropping one holder of `d`: the count stays right, and the object dies exactly when nobody else holds it. */
  lemma ReleaseBalanced(s: State, d: DeviceId, s': State)
    requires forall e: DeviceId :: Refs(s.heap, e) == Holders(s', e) + (if e == d then 1 else 0)
    requires forall e :: e in s.heap ==> s.heap[e].refs > 0
    requires s'.heap == Release(s, d).heap
    ensures Balanced(s') && d in s.heap && Release(s, d).fault == s.fault
    ensures d in s'.heap <==> Holders(s', d) > 0
  {
    assert Refs(s.heap, d) > 0;
    forall e: DeviceId
      ensures Refs(s'.heap, e) == Holders(s', e)
    {
      assert Refs(s.heap, e) == Holders(s', e) + (if e == d then 1 else 0);
    }
    assert Refs(s'.heap, d) == Holders(s', d);
  }

  /** Nothing that is listed dies when the books balance and the names of the survivors are kept. */
  lemma NamesSurvive(s: State, s': State)
    requires NamesDistinct(s.heap, s.devices) && Balanced(s') && s'.devices == s.devices
    requires forall d :: d in s.heap && d in s'.heap ==> s'.heap[d].name == s.heap[d].name
    ensures NamesDistinct(s'.heap, s'.devices)
    ensures forall d :: d in s.devices ==> d in s.heap && d in s'.heap
  {
    forall i | 0 <= i < |s.devices|
      ensures s.devices[i] in s'.heap && s.devices[i] in s.heap
    {
      HeldIsAlive(s', s.devices[i]);
    }
  }

  // ----- PnP callbacks

  lemma BeginCallbackInv(s: State, name: string, next: Callback)
    requires Inv(s) && s.teardown == Live && s.callback == Idle
    requires var r := Find(s.heap, s.devices, name);
      r.Found? && (next == ArrivalFound(r.device) || next == RemovalFound(r.device))
    ensures Inv(AddRef(s, Find(s.heap, s.devices, name).device).(callback := next))
  {
    FindSound(s.heap, s.devices, name);
    var d := Find(s.heap, s.devices, name).device;
    var s' := AddRef(s, d).(callback := next);
    forall e: DeviceId
      ensures Refs(s'.heap, e) == Holders(s', e)
    {
      assert Refs(s.heap, e) == Holders(s, e);
    }
    NamesSurvive(s, s');
  }

  lemma BeginArrivalInv(s: State, name: string)
    requires Inv(s)
    ensures Inv(BeginArrival(s, name))
  {
    FindSound(s.heap, s.devices, name);
    var s' := BeginArrival(s, name);
    if s.teardown == Live && s.callback == Idle {
      var r := Find(s.heap, s.devices, name);
      if r.Found? {
        BeginCallbackInv(s, name, ArrivalFound(r.device));
      } else {
        assert forall e: DeviceId :: Holders(s', e) == Holders(s, e);
      }
    }
  }

  lemma BeginRemovalInv(s: State, name: string)
    requires Inv(s)
    ensures Inv(BeginRemoval(s, name))
  {
    FindSound(s.heap, s.devices, name);
    if s.teardown == Live && s.callback == Idle {
      var r := Find(s.heap, s.devices, name);
      if r.Found? {
        BeginCallbackInv(s, name, RemovalFound(r.device));
      }
    }
  }

  lemma AllocateInv(s: State, name: string)
    requires Inv(s) && s.callback == ArrivalMissing(name)
    ensures Inv(Allocate(s, name))
  {
    var s' := Allocate(s, name);
    HeldIsAlive(s, s.next);
    forall e: DeviceId
      ensures Refs(s'.heap, e) == Holders(s', e)
    {
      assert Refs(s.heap, e) == Holders(s, e);
    }
    NamesSurvive(s, s');
  }

  /** Dropping the callback's own handle. */
  lemma DropHandleInv(s: State, d: DeviceId)
    requires Inv(s) && CallbackHandle(s.callback, d) == 1
    ensures Inv(Release(s, d).(callback := Idle))
  {
    var s' := Release(s, d).(callback := Idle);
    forall e: DeviceId
      ensures Refs(s.heap, e) == Holders(s', e) + (if e == d then 1 else 0)
    {
      assert Refs(s.heap, e) == Holders(s, e);
    }
    ReleaseBalanced(s, d, s');
    NamesSurvive(s, s');
  }

  lemma PublishBalanced(s: State, d: DeviceId)
    requires Inv(s) && s.callback == ArrivalTask(d)
    ensures Balanced(Publish(s, d))
  {
    var s' := Publish(s, d);
    forall e: DeviceId
      ensures Refs(s'.heap, e) == Holders(s', e)
    {
      assert Refs(s.heap, e) == Holders(s, e);
      CountSnoc(s.devices, d, e);
      QueuedSnoc(s.tasks, Task(Start, d), e);
    }
  }

  lemma PublishInv(s: State, d: DeviceId)
    requires Inv(s) && s.callback == ArrivalTask(d)
    ensures Inv(Publish(s, d))
  {
    var s' := Publish(s, d);
    PublishBalanced(s, d);
    assert forall i :: 0 <= i < |s.devices| ==> s'.devices[i] == s.devices[i];
  }

  /** The reference of the list that Unpublish drops is never the last one. */
  lemma UnpublishInv(s: State, d: DeviceId)
    requires Inv(s) && s.callback == RemovalTask(d)
    ensures d in s.heap && s.heap[d].refs >= 2
    ensures Inv(Unpublish(s, d)) && d in Unpublish(s, d).heap
  {
    var s' := Unpublish(s, d);
    HeldIsAlive(s, d);
    var mid := Record(s.(devices := Without(s.devices, d)), d, Unlisted);
    forall e: DeviceId
      ensures Refs(mid.heap, e) == Holders(s', e) + (if e == d then 1 else 0)
    {
      assert Refs(s.heap, e) == Holders(s, e);
      ListedWithout(s.devices, d, e);
      QueuedSnoc(s.tasks, Task(Stop, d), e);
    }
    ReleaseBalanced(mid, d, s');
    WithoutDistinct(s.heap, s.devices, d);
  }

  lemma LocalStepInv(s: State, ok: bool)
    requires Inv(s) && (s.callback.ArrivalReady? || s.callback.RemovalFound?)
    ensures Inv(ContinueCallback(s, ok))
  {
    var s' := ContinueCallback(s, ok);
    assert forall e: DeviceId :: Holders(s', e) == Holders(s, e);
  }

  lemma InitInv(s: State, ok: bool)
    requires Inv(s) && s.callback.ArrivalCreated?
    ensures Inv(ContinueCallback(s, ok))
  {
    var s' := ContinueCallback(s, ok);
    var d := s.callback.device;
    HeldIsAlive(s, d);
    forall e: DeviceId
      ensures Refs(s'.heap, e) == Holders(s', e) && Holders(s', e) == Holders(s, e)
    {
      assert Refs(s.heap, e) == Holders(s, e);
    }
    NamesSurvive(s, s');
  }

  lemma ContinueCallbackInv(s: State, ok: bool)
    requires Inv(s)
    ensures Inv(ContinueCallback(s, ok))
  {
    match s.callback
    case Idle =>
    case ArrivalFound(d) => DropHandleInv(s, d);
    case ArrivalMissing(name) =>
      if ok {
        AllocateInv(s, name);
      } else {
        assert forall e: DeviceId :: Holders(s.(callback := Idle), e) == Holders(s, e);
      }
    case ArrivalCreated(d) => InitInv(s, ok);
    case ArrivalReady(d) => LocalStepInv(s, ok);
    case ArrivalTask(d) => PublishInv(s, d);
    case ArrivalFailed(d) => DropHandleInv(s, d);
    case RemovalFound(d) => LocalStepInv(s, ok);
    case RemovalTask(d) => UnpublishInv(s, d);
    case RemovalFailed(d) => DropHandleInv(s, d);
  }

  // ----- the work item

  /** A step that changes neither lists, names nor who holds what keeps the shape. */
  lemma ShapeKept(s: State, s': State)
    requires Shape(s) && Balanced(s')
    requires s'.devices == s.devices && s'.callback == s.callback && s'.teardown == s.teardown && s'.next == s.next
    requires s.teardown.Live? || s.teardown.Unregistered?
    requires forall d :: d in s'.heap ==> d in s.heap && s'.heap[d].name == s.heap[d].name
    requires forall d: DeviceId :: CallbackHandle(s.callback, d) == 1 ==> Holders(s', d) <= Holders(s, d)
    ensures Shape(s')
  {
    NamesSurvive(s, s');
    if !s.callback.Idle? && !s.callback.ArrivalMissing? {
      var d := s.callback.device;
      assert CallbackHandle(s.callback, d) == 1;
      HeldIsAlive(s', d);
    }
  }

  lemma BeginDrainInv(s: State)
    requires Inv(s)
    ensures Inv(BeginDrain(s))
  {
    var s' := BeginDrain(s);
    forall e: DeviceId
      ensures Holders(s', e) == Holders(s, e)
    {
      InHandsSnoc(s.drains, Polling, e);
    }
    assert forall e: DeviceId :: Refs(s.heap, e) == Holders(s, e);
  }

  lemma TakeInv(s: State, index: nat, ok: bool)
    requires Inv(s) && index < |s.drains| && s.drains[index] == Polling
    ensures Inv(ContinueDrain(s, index, ok))
  {
    var s' := ContinueDrain(s, index, ok);
    forall e: DeviceId
      ensures Refs(s'.heap, e) == Holders(s', e) && Holders(s', e) == Holders(s, e)
    {
      assert Refs(s.heap, e) == Holders(s, e);
      InHandsAt(s.drains, index, if s.tasks == [] then Polling else Taken(s.tasks[0]), e);
    }
    ShapeKept(s, s');
  }

  /** A call on the device in hand: the object is alive throughout, and only its state may change. */
  lemma CallInv(s: State, index: nat, w: Drain, s': State)
    requires Inv(s) && index < |s.drains| && !s.drains[index].Polling? && !w.Polling? && w.task == s.drains[index].task
    requires var d := w.task.device;
      && (d in s.heap ==> d in s'.heap && s'.heap == s.heap[d := s.heap[d].(state := s'.heap[d].state)])
      && (d in s.heap ==> s' == s.(heap := s'.heap, log := s'.log, drains := s.drains[index := w]))
    ensures w.task.device in s.heap && Inv(s')
  {
    var d := w.task.device;
    InHandsAt(s.drains, index, w, d);
    HeldIsAlive(s, d);
    forall e: DeviceId
      ensures Refs(s'.heap, e) == Holders(s', e) && Holders(s', e) == Holders(s, e)
    {
      assert Refs(s.heap, e) == Holders(s, e);
      InHandsAt(s.drains, index, w, e);
    }
    ShapeKept(s, s');
  }

  /** Emptying a drain's hand takes one holder from the device it held, and none from any other. */
  lemma HandEmptied(s: State, index: nat, s': State, e: DeviceId)
    requires index < |s.drains| && s'.drains == s.drains[index := Polling]
    requires s'.devices == s.devices && s'.tasks == s.tasks && s'.callback == s.callback && s'.teardown == s.teardown
    ensures Holders(s, e) == Holders(s', e) + InHand(s.drains[index], e)
  {
    InHandsAt(s.drains, index, Polling, e);
  }

  lemma ReturnInv(s: State, index: nat, ok: bool)
    requires Inv(s) && index < |s.drains| && s.drains[index].Returned?
    ensures Inv(ContinueDrain(s, index, ok))
  {
    var s' := ContinueDrain(s, index, ok);
    var d := s.drains[index].task.device;
    forall e: DeviceId
      ensures Refs(s.heap, e) == Holders(s', e) + (if e == d then 1 else 0) && Holders(s', e) <= Holders(s, e)
    {
      assert Refs(s.heap, e) == Holders(s, e);
      HandEmptied(s, index, s', e);
    }
    ReleaseBalanced(s, d, s');
    ShapeKept(s, s');
  }

  lemma ContinueDrainInv(s: State, index: nat, ok: bool)
    requires Inv(s)
    ensures Inv(ContinueDrain(s, index, ok))
  {
    if index < |s.drains| {
      match s.drains[index]
      case Polling => TakeInv(s, index, ok);
      case Taken(t) => CallInv(s, index, InCall(t), ContinueDrain(s, index, ok));
      case InCall(t) => CallInv(s, index, Returned(t), ContinueDrain(s, index, ok));
      case Returned(t) => ReturnInv(s, index, ok);
    }
  }

  // ----- cleanup

  lemma PopInv(s: State)
    requires Inv(s) && s.teardown == Flushed && s.devices != []
    ensures Inv(ContinueCleanup(s))
  {
    var s' := ContinueCleanup(s);
    forall e: DeviceId
      ensures Refs(s'.heap, e) == Holders(s', e)
    {
      assert Refs(s.heap, e) == Holders(s, e);
    }
    assert forall i :: 0 <= i < |s'.devices| ==> s'.devices[i] == s.devices[i + 1];
  }

  lemma HaltInv(s: State)
    requires Inv(s) && s.teardown.Popped?
    ensures Inv(ContinueCleanup(s))
  {
    var s' := ContinueCleanup(s);
    HeldIsAlive(s, s.teardown.device);
    forall e: DeviceId
      ensures Refs(s'.heap, e) == Holders(s', e)
    {
      assert Refs(s.heap, e) == Holders(s, e);
    }
    NamesSurvive(s, s');
  }

  lemma FinalReleaseInv(s: State)
    requires Inv(s) && s.teardown.Halted?
    ensures Inv(ContinueCleanup(s))
  {
    var s' := ContinueCleanup(s);
    forall e: DeviceId
      ensures Refs(s.heap, e) == Holders(s', e) + (if e == s.teardown.device then 1 else 0)
    {
      assert Refs(s.heap, e) == Holders(s, e);
    }
    ReleaseBalanced(s, s.teardown.device, s');
    NamesSurvive(s, s');
  }

  lemma ContinueCleanupInv(s: State)
    requires Inv(s)
    ensures Inv(ContinueCleanup(s))
  {
    match s.teardown
    case Popped(d) => HaltInv(s);
    case Halted(d) => FinalReleaseInv(s);
    case _ =>
      if s.teardown == Flushed && s.devices != [] {
        PopInv(s);
      } else {
        assert forall e: DeviceId :: Holders(ContinueCleanup(s), e) == Holders(s, e);
        assert forall e: DeviceId :: Refs(s.heap, e) == Holders(s, e);
      }
  }

  // ----- every run

  lemma StepInv(s: State, step: Step)
    requires Inv(s)
    ensures Inv(Apply(s, step))
  {
    match step
    case Arrival(name) => BeginArrivalInv(s, name);
    case Removal(name) => BeginRemovalInv(s, name);
    case CallbackStep(ok) => ContinueCallbackInv(s, ok);
    case DrainBegin => BeginDrainInv(s);
    case DrainStep(index, ok) => ContinueDrainInv(s, index, ok);
    case CleanupStep => ContinueCleanupInv(s);
  }

  lemma {:induction false} RunInv(steps: seq<Step>)
    ensures Inv(Run(steps))
  {
    if steps != [] {
      RunInv(steps[..|steps| - 1]);
      StepInv(Run(steps[..|steps| - 1]), steps[|steps| - 1]);
    }
  }
}
