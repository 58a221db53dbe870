/**
 The adapter's sideband code in its own form: a list, a queue and counted objects changed in place.
 Each method is one mutex section or one stretch between two; cleanup, which runs alone, is one method.
 No method tests whether an object is still alive: the ledger says it is.
 */
module SidebandManager {
  import opened Sideband
  import opened SidebandLedger
  import opened SidebandTheorems

  class Adapter {
    var heap: map<DeviceId, Device>
    var next: DeviceId
    var devices: seq<DeviceId>
    var tasks: seq<Task>
    var pending: bool
    var drains: seq<Drain>
    var callback: Callback
    var teardown: Teardown
    ghost var log: seq<Event>

    ghost function View(): State
      reads this
    {
      State(heap, next, devices, tasks, pending, drains, callback, teardown, false, log)
    }

    constructor ()
      ensures View() == INITIAL && Inv(View())
    {
      heap, next, devices, tasks := map[], 0, [], [];
      pending, drains, callback, teardown := false, [], Idle, Live;
      log := [];
      new;
      RunInv([]);
    }

    method AddReference(d: DeviceId)
      requires d in heap
      modifies `heap
      ensures View() == AddRef(old(View()), d)
    {
      heap := heap[d := heap[d].(refs := heap[d].refs + 1)];
    }

    method ReleaseReference(d: DeviceId)
      requires d in heap && heap[d].refs > 0
      modifies `heap, `log
      ensures View() == Release(old(View()), d)
    {
      var left := heap[d].refs - 1;
      if left == 0 {
        log := log + [Event(d, Destroyed(heap[d].state))];
        heap := heap - {d};
      } else {
        heap := heap[d := heap[d].(refs := left)];
      }
    }

    method ExchangeState(d: DeviceId, state: DeviceState) returns (found: DeviceState)
      requires d in heap
      modifies `heap
      ensures found == old(heap[d].state) && View() == SetState(old(View()), d, state)
    {
      found := heap[d].state;
      heap := heap[d := heap[d].(state := state)];
    }

    method DeviceFind(name: string) returns (found: bool, d: DeviceId)
      requires Inv(View()) && callback == Idle
      modifies `heap
      ensures match Find(old(heap), devices, name)
        case Found(e) => found && d == e && View() == AddRef(old(View()), e)
        case NotFound => !found && View() == old(View())
        case Dangling => false
      ensures found ==> old(d in devices && d in heap && heap[d].name == name)
      ensures !found ==> forall i :: 0 <= i < |devices| ==> old(heap)[devices[i]].name != name
    {
      FindSound(heap, devices, name);
      var le := 0;
      while le < |devices|
        invariant 0 <= le <= |devices| && View() == old(View())
        invariant Find(heap, devices, name) == Find(heap, devices[le..], name)
      {
        if heap[devices[le]].name == name {
          AddReference(devices[le]);
          return true, devices[le];
        }
        le := le + 1;
      }
      return false, 0;
    }

    method BeginInterfaceArrival(name: string)
      requires Inv(View()) && teardown == Live && callback == Idle
      modifies this
      ensures View() == BeginArrival(old(View()), name) && Inv(View())
    {
      BeginArrivalInv(View(), name);
      FindSound(heap, devices, name);
      var found, d := DeviceFind(name);
      callback := if found then ArrivalFound(d) else ArrivalMissing(name);
    }

    method BeginInterfaceRemoval(name: string)
      requires Inv(View()) && teardown == Live && callback == Idle
      modifies this
      ensures View() == BeginRemoval(old(View()), name) && Inv(View())
    {
      BeginRemovalInv(View(), name);
      FindSound(heap, devices, name);
      var found, d := DeviceFind(name);
      if found {
        callback := RemovalFound(d);
      }
    }

    method Insert(d: DeviceId)
      requires Inv(View()) && callback == ArrivalTask(d)
      modifies this
      ensures View() == Publish(old(View()), d) && Inv(View())
    {
      PublishInv(View(), d);
      devices := devices + [d];
      log := log + [Event(d, Published)];
      tasks := tasks + [Task(Start, d)];
      AddReference(d);
      pending := true;
      callback := Idle;
    }

    method Unlink(d: DeviceId)
      modifies `devices
      ensures devices == Without(old(devices), d)
    {
      var i := 0;
      while i < |devices| && devices[i] != d
        invariant 0 <= i <= |devices| && devices == old(devices)
        invariant devices[..i] + Without(devices[i..], d) == Without(devices, d)
      {
        assert devices[..i + 1] + Without(devices[i + 1..], d) == devices[..i] + Without(devices[i..], d);
        i := i + 1;
      }
      if i < |devices| {
        devices := devices[..i] + devices[i + 1..];
      }
    }

    method Remove(d: DeviceId)
      requires Inv(View()) && callback == RemovalTask(d)
      modifies this
      ensures View() == Unpublish(old(View()), d) && Inv(View()) && d in heap
    {
      UnpublishInv(View(), d);
      Unlink(d);
      log := log + [Event(d, Unlisted)];
      ReleaseReference(d);    // not the last one
      tasks := tasks + [Task(Stop, d)];
      pending := true;
      callback := Idle;
    }

    method DropHandle(d: DeviceId)
      requires Inv(View()) && CallbackHandle(callback, d) == 1
      modifies this
      ensures View() == Release(old(View()), d).(callback := Idle) && Inv(View())
    {
      HeldIsAlive(View(), d);
      DropHandleInv(View(), d);
      ReleaseReference(d);
      callback := Idle;
    }

    method RunCallback(ok: bool)
      requires Inv(View())
      modifies this
      ensures View() == ContinueCallback(old(View()), ok) && Inv(View())
    {
      ContinueCallbackInv(View(), ok);
      match callback
      case Idle =>
      case ArrivalFound(d) => DropHandle(d);
      case ArrivalMissing(name) =>
        if ok {
          heap := heap[next := Device(name, 1, Initializing)];
          callback := ArrivalCreated(next);
          next := next + 1;
        } else {
          callback := Idle;
        }
      case ArrivalCreated(d) =>
        if ok {
          var _ := ExchangeState(d, Running);
          callback := ArrivalReady(d);
        } else {
          callback := ArrivalFailed(d);
        }
      case ArrivalReady(d) =>
        if ok {
          callback := ArrivalTask(d);
        } else {
          log := log + [Event(d, NoTask)];
          callback := ArrivalFailed(d);
        }
      case ArrivalTask(d) => Insert(d);
      case ArrivalFailed(d) => DropHandle(d);
      case RemovalFound(d) => callback := if ok then RemovalTask(d) else RemovalFailed(d);
      case RemovalTask(d) => Remove(d);
      case RemovalFailed(d) => DropHandle(d);
    }

    method RunDrain(index: nat, ok: bool)
      requires Inv(View()) && index < |drains|
      modifies this
      ensures View() == ContinueDrain(old(View()), index, ok) && Inv(View())
    {
      ContinueDrainInv(View(), index, ok);
      if !drains[index].Polling? {
        InHandsAt(drains, index, Polling, drains[index].task.device);
        HeldIsAlive(View(), drains[index].task.device);
      }
      match drains[index]
      case Polling =>
        if tasks == [] {
          drains := drains[..index] + drains[index + 1..];
        } else {
          drains, tasks := drains[index := Taken(tasks[0])], tasks[1..];
        }
      case Taken(t) =>
        if t.action == Start {
          log := log + [Event(t.device, StartCalled)];
        } else {
          var found := ExchangeState(t.device, Stopping);
          log := log + [Event(t.device, StopCalled(found))];
        }
        drains := drains[index := InCall(t)];
      case InCall(t) =>
        if t.action == Stop {
          var _ := ExchangeState(t.device, Stopped);
        } else if !ok {
          var _ := ExchangeState(t.device, Failed);
        }
        drains := drains[index := Returned(t)];
      case Returned(t) =>
        ReleaseReference(t.device);
        drains := drains[index := Polling];
    }

    /** One turn of the cleanup loop: unlink the first device, stop it, drop what is the last reference. */
    method StopFirst()
      requires Inv(View()) && teardown == Flushed && devices != []
      modifies this
      ensures View() == ContinueCleanup(ContinueCleanup(ContinueCleanup(old(View()))))
      ensures Inv(View()) && teardown == Flushed && devices == old(devices)[1..]
      ensures AllIn(devices, heap) && AllIn(old(devices), old(heap))
      ensures log + LoopEvents(heap, devices) == old(log) + LoopEvents(old(heap), old(devices))
    {
      ghost var before := View();
      ghost var after := AfterTurn(before);
      LoopTurn(before, after);
      HeldIsAlive(before, devices[0]);
      DistinctListedOnce(heap, devices, devices[0]);
      var d := devices[0];
      devices := devices[1..];
      var found := ExchangeState(d, Stopped);
      log := log + [Event(d, Unlisted)] + [Event(d, StopCalled(found))];
      ReleaseReference(d);
      assert log == before.log + TurnEvents(d, found);
      assert View() == after;
    }

    /** The loop of the cleanup routine, after the notifications are unregistered and the work item is flushed. */
    method Cleanup()
      requires Inv(View()) && teardown == Flushed
      modifies this
      ensures AllIn(old(devices), old(heap))
      ensures devices == [] && heap == map[] && tasks == []
      ensures log == old(log) + LoopEvents(old(heap), old(devices))
    {
      ListedAreAlive(View());
      while devices != []
        invariant Inv(View()) && teardown == Flushed && AllIn(devices, heap)
        invariant log + LoopEvents(heap, devices) == old(log) + LoopEvents(old(heap), old(devices))
        decreases |devices|
      {
        StopFirst();
      }
      EmptyListEmptyHeap(View());
      assert log + [] == log;
    }
  }
}
