/**
 What one PnP callback achieves, said of the device list, the queue, the log and the objects alone.
 First for a callback that nothing interrupts, then for any steps of the other threads in between.
 */
module SidebandOutcome {
  import opened Counting
  import opened Sideband
  import opened SidebandLedger

  /** Every later stretch of the callback in flight; `calls` are the outcomes of its platform calls. */
  function Calls(s: State, calls: seq<bool>): State
    decreases |calls|
  {
    if calls == [] then s else Calls(ContinueCallback(s, calls[0]), calls[1..])
  }

  lemma CallsThen(s: State, a: bool, rest: seq<bool>)
    ensures Calls(s, [a] + rest) == Calls(ContinueCallback(s, a), rest)
  {
    assert ([a] + rest)[1..] == rest;
  }

  lemma TwoCalls(s: State, a: bool, b: bool)
    ensures Calls(s, [a, b]) == ContinueCallback(ContinueCallback(s, a), b)
  {
    CallsThen(s, a, [b]);
    CallsThen(ContinueCallback(s, a), b, []);
    assert [a, b] == [a] + [b] && [b] == [b] + [];
  }

  lemma FourCalls(s: State, a: bool, b: bool, c: bool, e: bool)
    ensures Calls(s, [a, b, c, e])
      == ContinueCallback(ContinueCallback(ContinueCallback(ContinueCallback(s, a), b), c), e)
  {
    assert [a, b, c, e] == [a] + ([b] + [c, e]);
    CallsThen(s, a, [b] + [c, e]);
    CallsThen(ContinueCallback(s, a), b, [c, e]);
    TwoCalls(ContinueCallback(ContinueCallback(s, a), b), c, e);
  }

  /** No callback is in flight and the adapter still gets notifications. */
  ghost predicate Ready(s: State) {
    Inv(s) && s.teardown == Live && s.callback == Idle
  }

  /** The name of a listed device finds that device. */
  lemma FindListed(s: State, d: DeviceId)
    requires Inv(s) && d in s.devices
    ensures d in s.heap && Find(s.heap, s.devices, s.heap[d].name) == Found(d)
  {
    HeldIsAlive(s, d);
    FindSound(s.heap, s.devices, s.heap[d].name);
    var i :| 0 <= i < |s.devices| && s.devices[i] == d;
    var r := Find(s.heap, s.devices, s.heap[d].name);
    assert s.heap[s.devices[i]].name == s.heap[d].name;
    var j :| 0 <= j < |s.devices| && s.devices[j] == r.device;
    assert i < j ==> s.heap[s.devices[i]].name != s.heap[s.devices[j]].name;
    assert j < i ==> s.heap[s.devices[j]].name != s.heap[s.devices[i]].name;
  }

  predicate Listed(s: State, name: string) {
    exists d :: d in s.devices && d in s.heap && s.heap[d].name == name
  }

  // ----- nothing comes between

  /** A removal whose allocation succeeds unlists the device, queues its Stop last and wakes the work item; the
      device keeps as many references as it had. */
  lemma RemovalUnlists(s: State, d: DeviceId, last: bool)
    requires Ready(s) && d in s.devices
    ensures d in s.heap
    ensures Calls(BeginRemoval(s, s.heap[d].name), [true, last])
      == s.(devices := Without(s.devices, d), tasks := s.tasks + [Task(Stop, d)], pending := true,
            log := s.log + [Event(d, Unlisted)])
    ensures !Listed(Calls(BeginRemoval(s, s.heap[d].name), [true, last]), s.heap[d].name)
    ensures forall e :: e in Without(s.devices, d) <==> e in s.devices && e != d
  {
    FindListed(s, d);
    var name := s.heap[d].name;
    var found := BeginRemoval(s, name);
    StepInv(s, Removal(name));
    StepInv(found, CallbackStep(true));
    TwoCalls(found, true, last);
    ListedHeldTwice(ContinueCallback(found, true), d);
    assert Calls(found, [true, last]).heap == s.heap;
    WithoutExactly(s.heap, s.devices, d);
    NameGone(s, d, Calls(found, [true, last]));
  }

  /** Once a device is unlisted its name is no longer listed. */
  lemma NameGone(before: State, d: DeviceId, after: State)
    requires Inv(before) && d in before.devices && d in before.heap && after.devices == Without(before.devices, d)
    requires forall e :: e in after.heap ==> e in before.heap && after.heap[e].name == before.heap[e].name
    ensures !Listed(after, before.heap[d].name)
  {
    WithoutExactly(before.heap, before.devices, d);
    forall e | e in after.devices && e in after.heap
      ensures after.heap[e].name != before.heap[d].name
    {
      FindListed(before, e);
      FindListed(before, d);
    }
  }

  lemma ListedHeldTwice(s: State, d: DeviceId)
    requires Inv(s) && d in s.devices && CallbackHandle(s.callback, d) == 1
    ensures d in s.heap && s.heap[d].refs >= 2
  {
    HeldIsAlive(s, d);
  }

  lemma WithoutExactly(heap: map<DeviceId, Device>, devices: seq<DeviceId>, d: DeviceId)
    requires NamesDistinct(heap, devices) && d in devices
    ensures forall e :: e in Without(devices, d) <==> e in devices && e != d
  {
    WithoutDistinct(heap, devices, d);
    WithoutKeepsOthers(devices, d);
  }

  lemma {:induction false} WithoutKeepsOthers(devices: seq<DeviceId>, d: DeviceId)
    ensures forall e :: e in devices && e != d ==> e in Without(devices, d)
  {
    if devices != [] {
      assert devices == [devices[0]] + devices[1..];
      WithoutKeepsOthers(devices[1..], d);
    }
  }

  /** A removal whose allocation fails changes nothing at all, and neither does one of a name that is not listed. */
  lemma RemovalGivesUp(s: State, d: DeviceId, last: bool)
    requires Ready(s) && d in s.devices
    ensures d in s.heap && Calls(BeginRemoval(s, s.heap[d].name), [false, last]) == s
  {
    FindListed(s, d);
    var found := BeginRemoval(s, s.heap[d].name);
    TwoCalls(found, false, last);
    assert Calls(found, [false, last]).heap == s.heap;
  }

  lemma RemovalOfUnlisted(s: State, name: string)
    requires Ready(s) && !Listed(s, name)
    ensures BeginRemoval(s, name) == s
  {
    FindSound(s.heap, s.devices, name);
  }

  /** A second arrival of a listed name changes nothing. */
  lemma ArrivalOfListed(s: State, d: DeviceId, last: bool)
    requires Ready(s) && d in s.devices
    ensures d in s.heap && ContinueCallback(BeginArrival(s, s.heap[d].name), last) == s
  {
    FindListed(s, d);
    assert ContinueCallback(BeginArrival(s, s.heap[d].name), last).heap == s.heap;
  }

  lemma ArrivalMisses(s: State, name: string)
    requires Ready(s) && !Listed(s, name)
    ensures BeginArrival(s, name) == s.(callback := ArrivalMissing(name)) && s.next !in s.heap
  {
    FindSound(s.heap, s.devices, name);
  }

  /** An arrival of a name that is not listed, all of whose calls succeed: a new device of that name, running and
      listed last, its Start queued last, the work item woken, one reference for the list and one for the queue. */
  lemma ArrivalPublishes(s: State, name: string, last: bool)
    requires Ready(s) && !Listed(s, name)
    ensures Calls(BeginArrival(s, name), [true, true, true, last])
      == s.(heap := s.heap[s.next := Device(name, 2, Running)], next := s.next + 1, devices := s.devices + [s.next],
            tasks := s.tasks + [Task(Start, s.next)], pending := true, log := s.log + [Event(s.next, Published)])
  {
    ArrivalMisses(s, name);
    var missing := BeginArrival(s, name);
    FourCalls(missing, true, true, true, last);
    var created := ContinueCallback(missing, true);
    var ready := ContinueCallback(created, true);
    assert ready == s.(heap := s.heap[s.next := Device(name, 1, Running)], next := s.next + 1,
                       callback := ArrivalReady(s.next));
    var after := ContinueCallback(ContinueCallback(ready, true), last);
    assert after.heap == s.heap[s.next := Device(name, 2, Running)];
  }

  /** Without memory for the object nothing changes. */
  lemma ArrivalWithoutMemory(s: State, name: string)
    requires Ready(s) && !Listed(s, name)
    ensures ContinueCallback(BeginArrival(s, name), false) == s
  {
    ArrivalMisses(s, name);
  }

  /** If Init fails the object is destroyed again; list, queue and all other objects are as before. */
  lemma ArrivalWithoutInit(s: State, name: string, last: bool)
    requires Ready(s) && !Listed(s, name)
    ensures ContinueCallback(ContinueCallback(ContinueCallback(BeginArrival(s, name), true), false), last)
      == s.(next := s.next + 1, log := s.log + [Event(s.next, Destroyed(Initializing))])
  {
    ArrivalMisses(s, name);
    var failed := ContinueCallback(ContinueCallback(BeginArrival(s, name), true), false);
    assert failed == s.(heap := s.heap[s.next := Device(name, 1, Initializing)], next := s.next + 1,
                        callback := ArrivalFailed(s.next));
    assert failed.heap - {s.next} == s.heap;
  }

  /** The same if there is no memory for the work task. */
  lemma ArrivalWithoutTask(s: State, name: string, last: bool)
    requires Ready(s) && !Listed(s, name)
    ensures Calls(BeginArrival(s, name), [true, true, false, last])
      == s.(next := s.next + 1, log := s.log + [Event(s.next, NoTask)] + [Event(s.next, Destroyed(Running))])
  {
    ArrivalMisses(s, name);
    FourCalls(BeginArrival(s, name), true, true, false, last);
    var ready := ContinueCallback(ContinueCallback(BeginArrival(s, name), true), true);
    assert ready == s.(heap := s.heap[s.next := Device(name, 1, Running)], next := s.next + 1,
                       callback := ArrivalReady(s.next));
    var failed := ContinueCallback(ready, false);
    assert failed.heap - {s.next} == s.heap;
  }

  // ----- any steps of the other threads come between

  function After(s: State, steps: seq<Step>): State
    decreases |steps|
  {
    if steps == [] then s else After(Apply(s, steps[0]), steps[1..])
  }

  /** Steps of the work item and of cleanup, and notifications that wait for the callback in flight. */
  predicate Others(steps: seq<Step>) {
    forall i :: 0 <= i < |steps| ==> !steps[i].CallbackStep?
  }

  predicate Building(callback: Callback, d: DeviceId) {
    (callback.ArrivalCreated? || callback.ArrivalReady? || callback.ArrivalTask? || callback.ArrivalFailed?)
    && callback.device == d
  }

  /** What the other threads leave alone while a callback is in flight. */
  ghost predicate Undisturbed(s: State, t: State) {
    && t.callback == s.callback && t.devices == s.devices && t.next == s.next && t.teardown == s.teardown
    && (forall d :: d in t.heap ==> d in s.heap && t.heap[d].name == s.heap[d].name)
    && (forall d :: d in s.heap && Building(s.callback, d) ==> d in t.heap && t.heap[d] == s.heap[d])
    && (forall d: DeviceId :: Count(t.log, Event(d, Unlisted)) == Count(s.log, Event(d, Unlisted)))
    && (forall d: DeviceId :: Count(t.log, Event(d, Published)) == Count(s.log, Event(d, Published)))
  }

  lemma OneMoreEvent(log: seq<Event>, e: Event)
    requires !e.kind.Unlisted? && !e.kind.Published?
    ensures forall d: DeviceId :: Count(log + [e], Event(d, Unlisted)) == Count(log, Event(d, Unlisted))
    ensures forall d: DeviceId :: Count(log + [e], Event(d, Published)) == Count(log, Event(d, Published))
  {
    forall d: DeviceId
      ensures Count(log + [e], Event(d, Unlisted)) == Count(log, Event(d, Unlisted))
      ensures Count(log + [e], Event(d, Published)) == Count(log, Event(d, Published))
    {
      CountSnoc(log, e, Event(d, Unlisted));
      CountSnoc(log, e, Event(d, Published));
    }
  }

  /** The device in a drain's hand is alive and not under construction. */
  lemma InHandIsBuilt(s: State, index: nat)
    requires Inv(s) && index < |s.drains| && !s.drains[index].Polling?
    ensures var d := s.drains[index].task.device;
      d in s.heap && s.heap[d].refs > 0 && !Building(s.callback, d)
  {
    var d := s.drains[index].task.device;
    InHandsAt(s.drains, index, Polling, d);
    HeldIsAlive(s, d);
  }

  lemma EnterUndisturbed(s: State, t: Task, drains: seq<Drain>)
    requires t.device in s.heap && !Building(s.callback, t.device)
    ensures Undisturbed(s, Enter(s, t).(drains := drains))
  {
    OneMoreEvent(s.log, Event(t.device, StartCalled));
    OneMoreEvent(s.log, Event(t.device, StopCalled(s.heap[t.device].state)));
  }

  lemma ReleaseUndisturbed(s: State, d: DeviceId, drains: seq<Drain>)
    requires d in s.heap && s.heap[d].refs > 0 && !Building(s.callback, d)
    ensures Undisturbed(s, Release(s, d).(drains := drains))
  {
    OneMoreEvent(s.log, Event(d, Destroyed(s.heap[d].state)));
  }

  lemma DrainUndisturbed(s: State, index: nat, ok: bool)
    requires Inv(s)
    ensures Undisturbed(s, ContinueDrain(s, index, ok))
  {
    if index < |s.drains| {
      if !s.drains[index].Polling? {
        InHandIsBuilt(s, index);
      }
      match s.drains[index]
      case Polling =>
      case Taken(t) => EnterUndisturbed(s, t, s.drains[index := InCall(t)]);
      case InCall(t) =>
      case Returned(t) => ReleaseUndisturbed(s, t.device, s.drains[index := Polling]);
    }
  }

  lemma {:induction false} OthersUndisturbed(s: State, steps: seq<Step>)
    requires Inv(s) && s.callback != Idle && Others(steps)
    ensures Inv(After(s, steps)) && Undisturbed(s, After(s, steps))
    decreases |steps|
  {
    if steps != [] {
      var t := Apply(s, steps[0]);
      StepInv(s, steps[0]);
      if steps[0].DrainStep? {
        DrainUndisturbed(s, steps[0].index, steps[0].ok);
      }
      OthersUndisturbed(t, steps[1..]);
    }
  }

  /** One stretch of the callback and then steps of others. */
  function Turn(s: State, ok: bool, others: seq<Step>): State {
    After(ContinueCallback(s, ok), others)
  }

  /** The removal of `d` that began in `s` is under way in `t`. */
  ghost predicate RemovalUnderway(s: State, d: DeviceId, t: State) {
    && Inv(t) && d in s.heap && t.devices == s.devices && CallbackHandle(t.callback, d) == 1
    && (forall e :: e in t.heap && e in s.devices ==> e in s.heap && t.heap[e].name == s.heap[e].name)
    && Count(t.log, Event(d, Unlisted)) == Count(s.log, Event(d, Unlisted))
  }

  /** What the last stretch of a removal turns `before` into. */
  ghost predicate RemovalDone(s: State, d: DeviceId, ok: bool, before: State, after: State) {
    && after.callback == Idle && d in s.heap && d in before.heap && d in after.heap && before.heap[d].refs > 1
    && after.devices == (if ok then Without(s.devices, d) else s.devices)
    && (Listed(after, s.heap[d].name) <==> !ok)
    && after.tasks == (if ok then before.tasks + [Task(Stop, d)] else before.tasks)
    && after.pending == (ok || before.pending)
    && after.log == (if ok then before.log + [Event(d, Unlisted)] else before.log)
    && Count(after.log, Event(d, Unlisted)) == Count(s.log, Event(d, Unlisted)) + (if ok then 1 else 0)
    && after.heap == before.heap[d := before.heap[d].(refs := before.heap[d].refs - 1)]
  }

  lemma RemovalBegins(s: State, d: DeviceId)
    requires Ready(s) && d in s.devices
    ensures d in s.heap && RemovalUnderway(s, d, BeginRemoval(s, s.heap[d].name))
    ensures BeginRemoval(s, s.heap[d].name).callback == RemovalFound(d)
  {
    FindListed(s, d);
    StepInv(s, Removal(s.heap[d].name));
  }

  lemma RemovalGoesOn(s: State, d: DeviceId, t: State, others: seq<Step>)
    requires RemovalUnderway(s, d, t) && Others(others)
    ensures RemovalUnderway(s, d, After(t, others)) && After(t, others).callback == t.callback
  {
    OthersUndisturbed(t, others);
  }

  lemma RemovalDecides(s: State, d: DeviceId, t: State, ok: bool)
    requires RemovalUnderway(s, d, t) && t.callback == RemovalFound(d)
    ensures RemovalUnderway(s, d, ContinueCallback(t, ok))
    ensures ContinueCallback(t, ok).callback == if ok then RemovalTask(d) else RemovalFailed(d)
  {
    StepInv(t, CallbackStep(ok));
  }

  lemma RemovalEnds(s: State, d: DeviceId, ok: bool, before: State, last: bool)
    requires RemovalUnderway(s, d, before) && d in s.devices
    requires before.callback == if ok then RemovalTask(d) else RemovalFailed(d)
    ensures RemovalDone(s, d, ok, before, ContinueCallback(before, last))
  {
    var after := ContinueCallback(before, last);
    ListedHeldTwice(before, d);
    if ok {
      CountSnoc(before.log, Event(d, Unlisted), Event(d, Unlisted));
      NameGone(before, d, after);
    } else {
      assert d in after.devices && d in after.heap && after.heap[d].name == s.heap[d].name;
    }
  }

  /** A removal of a listed name, with anything in between: it unlists the device, and only that, exactly if its
      allocation succeeds, and then its last stretch leaves the Stop at the end of the queue and the work item woken. */
  lemma RemovalAmongOthers(s: State, d: DeviceId, ok: bool, last: bool, first: seq<Step>, second: seq<Step>)
    requires Ready(s) && d in s.devices && Others(first) && Others(second)
    ensures d in s.heap
    ensures var before := Turn(After(BeginRemoval(s, s.heap[d].name), first), ok, second);
      RemovalDone(s, d, ok, before, ContinueCallback(before, last))
  {
    RemovalBegins(s, d);
    var found := BeginRemoval(s, s.heap[d].name);
    RemovalGoesOn(s, d, found, first);
    RemovalDecides(s, d, After(found, first), ok);
    RemovalGoesOn(s, d, ContinueCallback(After(found, first), ok), second);
    RemovalEnds(s, d, ok, Turn(After(found, first), ok, second), last);
  }

  /** The arrival of `name` that began in `s` has made the object and not published it. */
  ghost predicate ArrivalUnderway(s: State, name: string, t: State) {
    && Inv(t) && t.devices == s.devices && s.next in t.heap && t.heap[s.next] == Device(name, 1, t.heap[s.next].state)
    && Building(t.callback, s.next)
    && Count(t.log, Event(s.next, Published)) == Count(s.log, Event(s.next, Published))
  }

  /** What the last stretch of an arrival turns `before` into. */
  ghost predicate ArrivalDone(s: State, name: string, ok: bool, before: State, after: State) {
    && after.callback == Idle
    && after.devices == (if ok then s.devices + [s.next] else s.devices)
    && after.tasks == (if ok then before.tasks + [Task(Start, s.next)] else before.tasks)
    && after.pending == (ok || before.pending)
    && after.heap == (if ok then before.heap[s.next := Device(name, 2, Running)] else before.heap - {s.next})
    && Count(after.log, Event(s.next, Published))
       == Count(s.log, Event(s.next, Published)) + (if ok then 1 else 0)
  }

  lemma ArrivalCreates(s: State, name: string, first: seq<Step>)
    requires Ready(s) && !Listed(s, name) && Others(first)
    ensures var t := ContinueCallback(After(BeginArrival(s, name), first), true);
      ArrivalUnderway(s, name, t) && t.callback == ArrivalCreated(s.next) && t.heap[s.next].state == Initializing
  {
    ArrivalMisses(s, name);
    StepInv(s, Arrival(name));
    OthersUndisturbed(BeginArrival(s, name), first);
    StepInv(After(BeginArrival(s, name), first), CallbackStep(true));
  }

  lemma ArrivalGoesOn(s: State, name: string, t: State, others: seq<Step>)
    requires ArrivalUnderway(s, name, t) && Others(others)
    ensures ArrivalUnderway(s, name, After(t, others)) && After(t, others).callback == t.callback
    ensures After(t, others).heap[s.next] == t.heap[s.next]
  {
    OthersUndisturbed(t, others);
  }

  lemma ArrivalInitialises(s: State, name: string, t: State, ok: bool)
    requires ArrivalUnderway(s, name, t) && t.callback == ArrivalCreated(s.next)
    ensures ArrivalUnderway(s, name, ContinueCallback(t, ok))
    ensures ok ==> ContinueCallback(t, ok).callback == ArrivalReady(s.next)
                   && ContinueCallback(t, ok).heap[s.next].state == Running
    ensures !ok ==> ContinueCallback(t, ok).callback == ArrivalFailed(s.next)
  {
    StepInv(t, CallbackStep(ok));
  }

  lemma ArrivalDecides(s: State, name: string, t: State, ok: bool)
    requires ArrivalUnderway(s, name, t) && t.callback == ArrivalReady(s.next)
    ensures ArrivalUnderway(s, name, ContinueCallback(t, ok))
    ensures ContinueCallback(t, ok).callback == if ok then ArrivalTask(s.next) else ArrivalFailed(s.next)
    ensures ContinueCallback(t, ok).heap[s.next] == t.heap[s.next]
  {
    StepInv(t, CallbackStep(ok));
    CountSnoc(t.log, Event(s.next, NoTask), Event(s.next, Published));
  }

  lemma ArrivalEnds(s: State, name: string, before: State, last: bool)
    requires ArrivalUnderway(s, name, before)
    requires before.callback == ArrivalFailed(s.next)
      || (before.callback == ArrivalTask(s.next) && before.heap[s.next].state == Running)
    ensures ArrivalDone(s, name, before.callback.ArrivalTask?, before, ContinueCallback(before, last))
  {
    CountSnoc(before.log, Event(s.next, Published), Event(s.next, Published));
    CountSnoc(before.log, Event(s.next, Destroyed(before.heap[s.next].state)), Event(s.next, Published));
  }

  /** An arrival of a name that is not listed, with anything in between and memory for the object: exactly if Init
      and the allocation of the work task both succeed the new device ends up listed last, running, its Start at the
      end of the queue; otherwise the object is gone and the list is as it was. */
  lemma ArrivalAmongOthers(s: State, name: string, ok: bool, last: bool,
                           first: seq<Step>, second: seq<Step>, third: seq<Step>, fourth: seq<Step>)
    requires Ready(s) && !Listed(s, name) && Others(first) && Others(second) && Others(third) && Others(fourth)
    ensures var created := Turn(After(BeginArrival(s, name), first), true, second);
      var refused := Turn(created, false, third); var before := Turn(Turn(created, true, third), ok, fourth);
      && ArrivalDone(s, name, false, refused, ContinueCallback(refused, last))
      && ArrivalDone(s, name, ok, before, ContinueCallback(before, last))
  {
    ArrivalCreates(s, name, first);
    var made := ContinueCallback(After(BeginArrival(s, name), first), true);
    ArrivalGoesOn(s, name, made, second);
    var created := After(made, second);
    ArrivalInitialises(s, name, created, false);
    ArrivalGoesOn(s, name, ContinueCallback(created, false), third);
    ArrivalEnds(s, name, Turn(created, false, third), last);
    ArrivalInitialises(s, name, created, true);
    ArrivalGoesOn(s, name, ContinueCallback(created, true), third);
    var ready := Turn(created, true, third);
    ArrivalDecides(s, name, ready, ok);
    ArrivalGoesOn(s, name, ContinueCallback(ready, ok), fourth);
    ArrivalEnds(s, name, Turn(ready, ok, fourth), last);
  }

  // ----- the work item

  /** One turn of the drain: take, call, return, release; `ok` is whether Start succeeds. */
  function DrainTurn(s: State, index: nat, ok: bool): State {
    ContinueDrain(ContinueDrain(ContinueDrain(ContinueDrain(s, index, ok), index, ok), index, ok), index, ok)
  }

  /** The object after its call has returned. */
  function Called(device: Device, action: Action, ok: bool): Device {
    device.(state := if action == Stop then Stopped else if ok then device.state else Failed)
  }

  lemma CallReturns(s: State, index: nat, ok: bool, t: Task)
    requires index < |s.drains| && s.drains[index] == Polling && s.tasks != [] && t == s.tasks[0] && t.device in s.heap
    ensures ContinueDrain(ContinueDrain(ContinueDrain(s, index, ok), index, ok), index, ok)
      == s.(tasks := s.tasks[1..], drains := s.drains[index := Returned(t)],
            heap := s.heap[t.device := Called(s.heap[t.device], t.action, ok)],
            log := s.log + [Event(t.device, if t.action == Start then StartCalled
                                            else StopCalled(s.heap[t.device].state))])
  {
    var taken := ContinueDrain(s, index, ok);
    assert taken == s.(tasks := s.tasks[1..], drains := s.drains[index := Taken(t)]);
    EnterThenLeave(taken, t, ok);
    assert s.drains[index := Taken(t)][index := InCall(t)][index := Returned(t)] == s.drains[index := Returned(t)];
  }

  lemma EnterThenLeave(s: State, t: Task, ok: bool)
    requires t.device in s.heap
    ensures Leave(Enter(s, t), t, ok)
      == s.(heap := s.heap[t.device := Called(s.heap[t.device], t.action, ok)],
            log := s.log + [Event(t.device, if t.action == Start then StartCalled
                                            else StopCalled(s.heap[t.device].state))])
  {
    assert t.action == Start && ok ==> s.heap[t.device := s.heap[t.device]] == s.heap;
  }

  /** A turn takes the first entry of the queue, calls what it says on its device, and drops its reference; a
      device that nobody else holds is destroyed. */
  lemma DrainTurnExactly(s: State, index: nat, ok: bool)
    requires Inv(s) && index < |s.drains| && s.drains[index] == Polling && s.tasks != []
    ensures var Task(action, d) := s.tasks[0];
      && d in s.heap
      && var left := Called(s.heap[d], action, ok);
         var call := Event(d, if action == Start then StartCalled else StopCalled(s.heap[d].state));
         DrainTurn(s, index, ok)
         == if s.heap[d].refs == 1
            then s.(tasks := s.tasks[1..], heap := s.heap - {d},
                    log := s.log + [call] + [Event(d, Destroyed(left.state))])
            else s.(tasks := s.tasks[1..], heap := s.heap[d := left.(refs := left.refs - 1)], log := s.log + [call])
  {
    HeldIsAlive(s, s.tasks[0].device);
    CallReturns(s, index, ok, s.tasks[0]);
    assert s.drains[index := Returned(s.tasks[0])][index := Polling] == s.drains;
  }

  /** A drain's Start of `d` returns a failure. */
  predicate Refuses(s: State, step: Step, d: DeviceId) {
    step.DrainStep? && !step.ok && step.index < |s.drains| && s.drains[step.index] == InCall(Task(Start, d))
  }

  predicate StartRefused(steps: seq<Step>, d: DeviceId) {
    steps != [] &&
    (|| StartRefused(steps[..|steps| - 1], d)
     || Refuses(Run(steps[..|steps| - 1]), steps[|steps| - 1], d))
  }

  /** What the state of `d` says about its Start. */
  predicate Tells(s: State, d: DeviceId, refused: bool) {
    && (d in s.heap && s.heap[d].state == Failed ==> refused)
    && (d in s.heap && s.heap[d].state in {Initializing, Running} ==> !refused)
    && (d >= s.next || Building(s.callback, d) ==> !refused)
  }

  lemma DrainTells(s: State, index: nat, ok: bool, d: DeviceId, refused: bool)
    requires Inv(s) && Tells(s, d, refused)
    ensures Tells(ContinueDrain(s, index, ok), d, refused || Refuses(s, DrainStep(index, ok), d))
  {
    if index < |s.drains| && !s.drains[index].Polling? {
      InHandIsBuilt(s, index);
    }
  }

  lemma SameStateTells(s: State, t: State, d: DeviceId, refused: bool)
    requires Tells(s, d, refused) && t.next == s.next && (Building(t.callback, d) ==> Building(s.callback, d))
    requires d in t.heap ==> d in s.heap && t.heap[d].state == s.heap[d].state
    ensures Tells(t, d, refused)
  {
  }

  lemma BuildTells(s: State, ok: bool, d: DeviceId, refused: bool)
    requires Inv(s) && Tells(s, d, refused)
    requires s.callback.ArrivalMissing? || s.callback.ArrivalCreated? || s.callback.ArrivalReady?
    ensures Tells(ContinueCallback(s, ok), d, refused)
  {
  }

  lemma CallbackTells(s: State, ok: bool, d: DeviceId, refused: bool)
    requires Inv(s) && Tells(s, d, refused)
    ensures Tells(ContinueCallback(s, ok), d, refused)
  {
    match s.callback
    case ArrivalMissing(_) => BuildTells(s, ok, d, refused);
    case ArrivalCreated(_) => BuildTells(s, ok, d, refused);
    case ArrivalReady(_) => BuildTells(s, ok, d, refused);
    case ArrivalTask(e) => SameStateTells(s, Publish(s, e), d, refused);
    case RemovalTask(e) => SameStateTells(s, Unpublish(s, e), d, refused);
    case ArrivalFound(e) => SameStateTells(s, Release(s, e).(callback := Idle), d, refused);
    case ArrivalFailed(e) => SameStateTells(s, Release(s, e).(callback := Idle), d, refused);
    case RemovalFailed(e) => SameStateTells(s, Release(s, e).(callback := Idle), d, refused);
    case RemovalFound(_) =>
    case Idle =>
  }

  lemma StepTells(s: State, step: Step, d: DeviceId, refused: bool)
    requires Inv(s) && Tells(s, d, refused)
    ensures Tells(Apply(s, step), d, refused || Refuses(s, step, d))
  {
    match step
    case CallbackStep(ok) => CallbackTells(s, ok, d, refused);
    case DrainStep(index, ok) => DrainTells(s, index, ok, d, refused);
    case DrainBegin =>
    case CleanupStep =>
    case Arrival(name) =>
    case Removal(name) =>
  }

  lemma {:induction false} RunTells(steps: seq<Step>, d: DeviceId)
    ensures Tells(Run(steps), d, StartRefused(steps, d))
  {
    if steps != [] {
      var before := steps[..|steps| - 1];
      RunTells(before, d);
      RunInv(before);
      StepTells(Run(before), steps[|steps| - 1], d, StartRefused(before, d));
    }
  }

  /** Over every run, overlapping drains included: a device that is running or failed has failed exactly if a Start
      of it returned a failure. */
  lemma {:induction false} FailedExactly(steps: seq<Step>, d: DeviceId)
    requires d in Run(steps).heap && Run(steps).heap[d].state in {Running, Failed}
    ensures Run(steps).heap[d].state == Failed <==> StartRefused(steps, d)
  {
    RunTells(steps, d);
  }
}
