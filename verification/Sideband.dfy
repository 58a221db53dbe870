/**
 The sideband device manager of the adapter: PnP callbacks publish and unpublish
 devices and queue Start/Stop tasks under a mutex, a work item drains the queue,
 and devices are reference counted.  The Bluetooth, USB and A2DP copies of the
 protocol differ only in names, so one model stands for the three.

 A run is any sequence of steps; one step is one mutex section, or one stretch of
 code between two mutex sections, of one of the threads involved.
 */
module Sideband {

  type DeviceId = nat

  datatype DeviceState = Initializing | Running | Stopping | Stopped | Failed

  /** A live device object; it disappears from the heap when it is destroyed. */
  datatype Device = Device(name: string, refs: nat, state: DeviceState)

  datatype Action = Start | Stop

  datatype Task = Task(action: Action, device: DeviceId)

  /** Where one running work-item callback is in its drain loop. */
  datatype Drain = Polling | Taken(task: Task) | InCall(task: Task) | Returned(task: Task)

  /** The local variables of the PnP callback in flight (callbacks are serialized). */
  datatype Callback =
    | Idle
    | ArrivalFound(device: DeviceId)    // already present: the find reference is to be dropped
    | ArrivalMissing(name: string)      // not present: allocate the object
    | ArrivalCreated(device: DeviceId)  // allocated, Init has taken the first reference
    | ArrivalReady(device: DeviceId)    // Init succeeded: allocate the work task
    | ArrivalTask(device: DeviceId)     // everything at hand: publish
    | ArrivalFailed(device: DeviceId)   // release what was created
    | RemovalFound(device: DeviceId)    // present: allocate the work task
    | RemovalTask(device: DeviceId)     // unpublish
    | RemovalFailed(device: DeviceId)   // drop the find reference

  datatype Teardown = Live | Unregistered | Flushed | Popped(device: DeviceId) | Halted(device: DeviceId)

  /** What happens to a device, in order; the history the lifecycle claims are about. */
  datatype Kind =
    | Published
    | Unlisted
    | StartCalled
    | StopCalled(found: DeviceState)
    | NoTask                         // the arrival found no memory for its work task
    | Destroyed(last: DeviceState)

  datatype Event = Event(device: DeviceId, kind: Kind)

  datatype State = State(
    heap: map<DeviceId, Device>,
    next: DeviceId,
    devices: seq<DeviceId>,
    tasks: seq<Task>,
    pending: bool,
    drains: seq<Drain>,
    callback: Callback,
    teardown: Teardown,
    fault: bool,           // a destroyed object was touched
    log: seq<Event>)

  const INITIAL: State := State(map[], 0, [], [], false, [], Idle, Live, false, [])

  datatype Step =
    | Arrival(name: string)
    | Removal(name: string)
    | CallbackStep(ok: bool)          // `ok` is the outcome of the platform call of that stretch
    | DrainBegin
    | DrainStep(index: nat, ok: bool)
    | CleanupStep

  // ----- access to device objects

  function AddRef(s: State, d: DeviceId): State {
    if d in s.heap then s.(heap := s.heap[d := s.heap[d].(refs := s.heap[d].refs + 1)])
    else s.(fault := true)
  }

  function Release(s: State, d: DeviceId): State {
    if d !in s.heap || s.heap[d].refs == 0 then s.(fault := true)
    else if s.heap[d].refs == 1 then
      s.(heap := s.heap - {d}, log := s.log + [Event(d, Destroyed(s.heap[d].state))])
    else s.(heap := s.heap[d := s.heap[d].(refs := s.heap[d].refs - 1)])
  }

  function SetState(s: State, d: DeviceId, state: DeviceState): State {
    if d in s.heap then s.(heap := s.heap[d := s.heap[d].(state := state)])
    else s.(fault := true)
  }

  function Record(s: State, d: DeviceId, kind: Kind): State {
    s.(log := s.log + [Event(d, kind)])
  }

  // ----- PnP callbacks

  datatype FindResult = Found(device: DeviceId) | NotFound | Dangling

  /** The scan of the device list for a symbolic link name. */
  function Find(heap: map<DeviceId, Device>, devices: seq<DeviceId>, name: string): FindResult {
    if devices == [] then NotFound
    else if devices[0] !in heap then Dangling
    else if heap[devices[0]].name == name then Found(devices[0])
    else Find(heap, devices[1..], name)
  }

  function BeginArrival(s: State, name: string): State {
    if s.teardown != Live || s.callback != Idle then s
    else match Find(s.heap, s.devices, name)
      case Found(d) => AddRef(s, d).(callback := ArrivalFound(d))
      case NotFound => s.(callback := ArrivalMissing(name))
      case Dangling => s.(fault := true)
  }

  function BeginRemoval(s: State, name: string): State {
    if s.teardown != Live || s.callback != Idle then s
    else match Find(s.heap, s.devices, name)
      case Found(d) => AddRef(s, d).(callback := RemovalFound(d))
      case NotFound => s
      case Dangling => s.(fault := true)
  }

  /** Unlinks `d`; unlinking an entry that is in no list changes nothing. */
  function Without(devices: seq<DeviceId>, d: DeviceId): seq<DeviceId> {
    if devices == [] then []
    else if devices[0] == d then devices[1..]
    else [devices[0]] + Without(devices[1..], d)
  }

  function Allocate(s: State, name: string): State {
    s.(heap := s.heap[s.next := Device(name, 1, Initializing)],
       next := s.next + 1,
       callback := ArrivalCreated(s.next))
  }

  function Publish(s: State, d: DeviceId): State {
    Record(AddRef(s, d), d, Published)
      .(devices := s.devices + [d], tasks := s.tasks + [Task(Start, d)], pending := true, callback := Idle)
  }

  function Unpublish(s: State, d: DeviceId): State {
    Release(Record(s.(devices := Without(s.devices, d)), d, Unlisted), d)
      .(tasks := s.tasks + [Task(Stop, d)], pending := true, callback := Idle)
  }

  function ContinueCallback(s: State, ok: bool): State {
    match s.callback
    case Idle => s
    case ArrivalFound(d) => Release(s, d).(callback := Idle)
    case ArrivalMissing(name) => if ok then Allocate(s, name) else s.(callback := Idle)
    case ArrivalCreated(d) =>
      if ok then SetState(s, d, Running).(callback := ArrivalReady(d)) else s.(callback := ArrivalFailed(d))
    case ArrivalReady(d) =>
      if ok then s.(callback := ArrivalTask(d)) else Record(s, d, NoTask).(callback := ArrivalFailed(d))
    case ArrivalTask(d) => Publish(s, d)
    case ArrivalFailed(d) => Release(s, d).(callback := Idle)
    case RemovalFound(d) => s.(callback := if ok then RemovalTask(d) else RemovalFailed(d))
    case RemovalTask(d) => Unpublish(s, d)
    case RemovalFailed(d) => Release(s, d).(callback := Idle)
  }

  // ----- the work item

  function BeginDrain(s: State): State {
    if s.pending then s.(pending := false, drains := s.drains + [Polling]) else s
  }

  function Without1(drains: seq<Drain>, index: nat): seq<Drain>
    requires index < |drains|
  {
    drains[..index] + drains[index + 1..]
  }

  function Enter(s: State, t: Task): State {
    if t.device !in s.heap then s.(fault := true)
    else match t.action
      case Start => Record(s, t.device, StartCalled)
      case Stop => SetState(Record(s, t.device, StopCalled(s.heap[t.device].state)), t.device, Stopping)
  }

  function Leave(s: State, t: Task, ok: bool): State {
    if t.device !in s.heap then s.(fault := true)
    else match t.action
      case Start => if ok then s else SetState(s, t.device, Failed)
      case Stop => SetState(s, t.device, Stopped)
  }

  function ContinueDrain(s: State, index: nat, ok: bool): State {
    if index >= |s.drains| then s
    else match s.drains[index]
      case Polling =>
        if s.tasks == [] then s.(drains := Without1(s.drains, index))
        else s.(tasks := s.tasks[1..], drains := s.drains[index := Taken(s.tasks[0])])
      case Taken(t) => Enter(s, t).(drains := s.drains[index := InCall(t)])
      case InCall(t) => Leave(s, t, ok).(drains := s.drains[index := Returned(t)])
      case Returned(t) => Release(s, t.device).(drains := s.drains[index := Polling])
  }

  // ----- cleanup

  function Halt(s: State, d: DeviceId): State {
    if d !in s.heap then s.(fault := true)
    else SetState(Record(s, d, StopCalled(s.heap[d].state)), d, Stopped)
  }

  function ContinueCleanup(s: State): State {
    match s.teardown
    case Live => if s.callback == Idle then s.(teardown := Unregistered) else s
    case Unregistered => if !s.pending && s.drains == [] then s.(teardown := Flushed) else s
    case Flushed =>
      if s.devices == [] then s
      else Record(s, s.devices[0], Unlisted).(devices := s.devices[1..], teardown := Popped(s.devices[0]))
    case Popped(d) => Halt(s, d).(teardown := Halted(d))
    case Halted(d) => Release(s, d).(teardown := Flushed)
  }

  // ----- runs

  function Apply(s: State, step: Step): State {
    match step
    case Arrival(name) => BeginArrival(s, name)
    case Removal(name) => BeginRemoval(s, name)
    case CallbackStep(ok) => ContinueCallback(s, ok)
    case DrainBegin => BeginDrain(s)
    case DrainStep(index, ok) => ContinueDrain(s, index, ok)
    case CleanupStep => ContinueCleanup(s)
  }

  function Run(steps: seq<Step>): State {
    if steps == [] then INITIAL
    else Apply(Run(steps[..|steps| - 1]), steps[|steps| - 1])
  }
}
