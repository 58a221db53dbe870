/**
 The stream-status handshake: starting the first stream opens it at the driver and leaves one status request
 there; its completion stores the reported status and sets an event; suspending the last stream cancels the
 request and waits for the event.  The Bluetooth device counts StreamStart/StreamSuspend, the USB and A2DP
 devices count StreamOpen/StreamClose; the protocol is the same.

 Stream calls are serialized; the completion runs beside them.  A step is one access to the shared fields or one
 call into the driver.
 */
module StreamStatus {

  const STATUS_SUCCESS: int := 0
  const STATUS_INVALID_DEVICE_STATE: int := 0xC000_0184 - 0x1_0000_0000

  predicate NtSuccess(status: int) {
    status >= 0
  }

  /** The one status request, with the completion routine's own position in it. */
  datatype Request =
    | Ready                        // may be sent
    | Outstanding(cancelled: bool)
    | Storing(result: int)         // completion: about to store the result
    | Signalling                   // completion: about to set the event
    | Reported                     // completed, not reused yet

  /** Where the stream call in flight is. */
  datatype Call =
    | Rest
    | Opening | MarkingLive | Clearing | Sending | Unclearing          // start
    | Undoing(open: bool) | UndoClosing | UndoMarking                // start, failed
    | Closing | Cancelling | Waiting | Reusing | Marking               // suspend

  datatype State = State(
    streams: int,
    status: int,
    event: bool,
    request: Request,
    call: Call,
    opens: int,       // streams open at the driver
    used: bool,       // some start call has been made
    fault: bool)      // the request was sent while outstanding

  datatype Step =
    | StreamStart
    | StreamSuspend
    | Advance(ok: bool)                       // `ok` answers the driver call of that step, if any
    | Complete(ok: bool, reported: int)       // the driver completes the request
    | CompletionStep

  function Initial(status: int): State {
    State(0, status, true, Ready, Rest, 0, false, false)
  }

  function Start(s: State): State {
    if s.call != Rest then s
    else s.(streams := s.streams + 1, used := true, call := if s.streams + 1 == 1 then Opening else Rest)
  }

  /** The source asserts that a stream is started. */
  function Suspend(s: State): State {
    if s.call != Rest || s.streams <= 0 then s
    else s.(streams := s.streams - 1, call := if s.streams - 1 == 0 then Closing else Rest)
  }

  function Send(s: State, ok: bool): State {
    match s.request
    case Ready | Reported => if ok then s.(request := Outstanding(false), call := Rest) else s.(call := Unclearing)
    case _ => s.(fault := true)
  }

  function Continue(s: State, ok: bool): State {
    match s.call
    case Rest => s
    case Opening => if ok then s.(opens := s.opens + 1, call := MarkingLive) else s.(call := Undoing(false))
    case MarkingLive => s.(status := STATUS_SUCCESS, call := Clearing)
    case Clearing => s.(event := false, call := Sending)
    case Sending => Send(s, ok)
    case Unclearing => s.(event := true, call := Undoing(true))
    case Undoing(open) => s.(streams := s.streams - 1, call := if open then UndoClosing else UndoMarking)
    case UndoClosing => s.(opens := s.opens - 1, call := UndoMarking)
    case UndoMarking => s.(status := STATUS_INVALID_DEVICE_STATE, call := Rest)
    case Closing => s.(opens := s.opens - 1, call := Cancelling)
    case Cancelling =>
      s.(request := if s.request.Outstanding? then Outstanding(true) else s.request, call := Waiting)
    case Waiting => if s.event then s.(call := Reusing) else s
    case Reusing => s.(request := if ok then Ready else s.request, call := Marking)
    case Marking => s.(status := STATUS_INVALID_DEVICE_STATE, call := Rest)
  }

  /** The routine stores the status first and sets the event last. */
  function ContinueCompletion(s: State): State {
    match s.request
    case Storing(result) => s.(status := result, request := Signalling)
    case Signalling => s.(event := true, request := Reported)
    case _ => s
  }

  function Apply(s: State, step: Step): State {
    match step
    case StreamStart => Start(s)
    case StreamSuspend => Suspend(s)
    case Advance(ok) => Continue(s, ok)
    case Complete(ok, reported) =>
      if s.request.Outstanding? then s.(request := Storing(if ok then reported else STATUS_INVALID_DEVICE_STATE)) else s
    case CompletionStep => ContinueCompletion(s)
  }

  function Run(s: State, steps: seq<Step>): State
    decreases |steps|
  {
    if steps == [] then s else Run(Apply(s, steps[0]), steps[1..])
  }

  function CallRank(call: Call): nat {
    match call
    case Rest => 0
    case Opening => 9
    case MarkingLive => 8
    case Clearing => 7
    case Sending => 6
    case Unclearing => 5
    case Undoing(_) => 4
    case UndoClosing => 3
    case UndoMarking => 2
    case Closing => 9
    case Cancelling => 8
    case Waiting => 7
    case Reusing => 6
    case Marking => 5
  }

  /** The stream call in flight runs on, with nothing beside it, to its end or to a wait that blocks.  `open`
      answers the open call, `ok` any later one. */
  function Settled(s: State, open: bool, ok: bool): State
    decreases CallRank(s.call)
  {
    if s.call == Rest || s.fault || (s.call == Waiting && !s.event) then s
    else
      var t := Continue(s, if s.call == Opening then open else ok);
      if t.fault then t else Settled(t, open, ok)
  }

  function Completed(s: State, ok: bool, reported: int): State {
    ContinueCompletion(ContinueCompletion(Apply(s, Complete(ok, reported))))
  }

  // ----- the invariant

  /** The request is away: with the driver or in its completion routine. */
  predicate Away(s: State) {
    !s.request.Ready? && !s.request.Reported?
  }

  /** Between the stream calls the event is clear exactly while the request is away. */
  predicate Handshake(s: State) {
    match s.call
    case Sending | Unclearing => !s.event && !Away(s)
    case _ => s.event <==> !Away(s)
  }

  /** The request is away only while a stream is open at the driver or is being closed. */
  predicate Ownership(s: State) {
    match s.call
    case Rest =>
      && s.streams >= 0 && s.opens == (if s.streams > 0 then 1 else 0)
      && (s.streams == 0 ==> !Away(s)) && (s.streams > 0 ==> !s.request.Ready?)
    case Opening => s.streams == 1 && s.opens == 0 && !Away(s)
    case MarkingLive | Clearing | Sending | Unclearing => s.streams == 1 && s.opens == 1 && !Away(s)
    case Undoing(open) => s.streams == 1 && s.opens == (if open then 1 else 0) && !Away(s)
    case UndoClosing => s.streams == 0 && s.opens == 1 && !Away(s)
    case UndoMarking => s.streams == 0 && s.opens == 0 && !Away(s)
    case Closing => s.streams == 0 && s.opens == 1 && !s.request.Ready?
    case Cancelling | Waiting => s.streams == 0 && s.opens == 0 && !s.request.Ready?
    case Reusing => s.streams == 0 && s.opens == 0 && s.request.Reported?
    case Marking => s.streams == 0 && s.opens == 0 && !Away(s)
  }

  /** What the stored status says. */
  predicate Meaning(s: State, initial: int) {
    && (s.call == Waiting && s.request.Outstanding? ==> s.request.cancelled)
    && (s.call == Clearing || s.call == Sending ==> s.status == STATUS_SUCCESS)
    && (s.request.Outstanding? && s.call in {Rest, Closing, Cancelling} ==> s.status == STATUS_SUCCESS)
    && (s.call == Rest && s.streams == 0 ==> s.status == if s.used then STATUS_INVALID_DEVICE_STATE else initial)
    && (!s.used ==> s.call == Rest && s.streams == 0)
  }

  predicate Inv(s: State, initial: int) {
    !s.fault && Handshake(s) && Ownership(s) && Meaning(s, initial)
  }

  lemma StepInv(s: State, step: Step, initial: int)
    requires Inv(s, initial)
    ensures Inv(Apply(s, step), initial)
  {
  }

  lemma {:induction false} RunInv(s: State, steps: seq<Step>, initial: int)
    requires Inv(s, initial)
    ensures Inv(Run(s, steps), initial)
    decreases |steps|
  {
    if steps != [] {
      StepInv(s, steps[0], initial);
      RunInv(Apply(s, steps[0]), steps[1..], initial);
    }
  }

  // ----- whole calls

  /** What a start comes to. */
  function StartResult(s: State, open: bool, ok: bool): State {
    if s.streams > 0 then s.(streams := s.streams + 1, used := true)
    else if open && ok then
      s.(streams := 1, used := true, opens := 1, status := STATUS_SUCCESS, event := false,
        request := Outstanding(false))
    else s.(used := true, status := STATUS_INVALID_DEVICE_STATE)
  }

  /** What a suspend comes to. */
  function SuspendResult(s: State, reused: bool): State {
    if s.streams > 1 then s.(streams := s.streams - 1)
    else s.(streams := 0, opens := 0, event := true, request := if reused then Ready else Reported,
            status := STATUS_INVALID_DEVICE_STATE)
  }

  /** One step of a call on its way. */
  lemma SettlesOn(s: State, open: bool, ok: bool, t: State)
    requires s.call != Rest && !s.fault && !(s.call == Waiting && !s.event)
    requires t == Continue(s, if s.call == Opening then open else ok) && !t.fault
    ensures Settled(s, open, ok) == Settled(t, open, ok)
  {
  }

  /** The end of a start whose open call worked and whose request is to be sent. */
  lemma SendSettles(s: State, open: bool, ok: bool)
    requires s.call == MarkingLive && s.streams == 1 && s.opens == 1 && !Away(s) && !s.fault && s.event
    ensures Settled(s, open, ok)
      == if ok then s.(status := STATUS_SUCCESS, event := false, request := Outstanding(false), call := Rest)
         else s.(streams := 0, opens := 0, status := STATUS_INVALID_DEVICE_STATE, call := Rest)
  {
    var clearing := s.(status := STATUS_SUCCESS, call := Clearing);
    var sending := clearing.(event := false, call := Sending);
    SettlesOn(s, open, ok, clearing);
    SettlesOn(clearing, open, ok, sending);
    if ok {
      SettlesOn(sending, open, ok, sending.(request := Outstanding(false), call := Rest));
    } else {
      SettlesOn(sending, open, ok, sending.(call := Unclearing));
      UnclearSettles(sending.(call := Unclearing), open, ok);
    }
  }

  lemma UnclearSettles(s: State, open: bool, ok: bool)
    requires s.call == Unclearing && s.streams == 1 && s.opens == 1 && !s.fault
    ensures Settled(s, open, ok)
      == s.(event := true, streams := 0, opens := 0, status := STATUS_INVALID_DEVICE_STATE, call := Rest)
  {
    var undoing := s.(event := true, call := Undoing(true));
    var closing := undoing.(streams := 0, call := UndoClosing);
    var marking := closing.(opens := 0, call := UndoMarking);
    SettlesOn(s, open, ok, undoing);
    SettlesOn(undoing, open, ok, closing);
    SettlesOn(closing, open, ok, marking);
    SettlesOn(marking, open, ok, marking.(status := STATUS_INVALID_DEVICE_STATE, call := Rest));
  }

  lemma RefusedSettles(s: State, open: bool, ok: bool)
    requires s.call == Undoing(false) && s.streams == 1 && !s.fault
    ensures Settled(s, open, ok) == s.(streams := 0, status := STATUS_INVALID_DEVICE_STATE, call := Rest)
  {
    var marking := s.(streams := 0, call := UndoMarking);
    SettlesOn(s, open, ok, marking);
    SettlesOn(marking, open, ok, marking.(status := STATUS_INVALID_DEVICE_STATE, call := Rest));
  }

  /** A start that is not interrupted. */
  lemma StartSettles(s: State, open: bool, ok: bool, initial: int)
    requires Inv(s, initial) && s.call == Rest
    ensures Settled(Start(s), open, ok) == StartResult(s, open, ok)
  {
    if s.streams == 0 {
      var next := Continue(Start(s), open);
      SettlesOn(Start(s), open, ok, next);
      if open { SendSettles(next, open, ok); } else { RefusedSettles(next, open, ok); }
    }
  }

  /** A suspend that is interrupted only by the completion its wait waits for. */
  lemma SuspendSettles(s: State, ok: bool, reported: int, reused: bool, initial: int)
    requires Inv(s, initial) && s.call == Rest && s.streams > 0
    ensures s.streams > 1 ==> Settled(Suspend(s), true, reused) == SuspendResult(s, reused)
    ensures s.streams == 1 ==>
      Settled(Completed(Settled(Suspend(s), true, reused), ok, reported), true, reused) == SuspendResult(s, reused)
  {
    if s.streams > 1 {
      return;
    }
    var s1 := Suspend(s);
    var s2 := Continue(s1, reused);
    var s3 := Continue(s2, reused);
    SettlesOn(s1, true, reused, s2);
    SettlesOn(s2, true, reused, s3);
    if Away(s) {
      assert Settled(s3, true, reused) == s3;
      WaitSettles(Completed(s3, ok, reported), true, reused);
    } else {
      WaitSettles(s3, true, reused);
      var r := Settled(s3, true, reused);
      assert Completed(r, ok, reported) == r;
    }
  }

  lemma WaitSettles(s: State, open: bool, reused: bool)
    requires s.call == Waiting && s.event && !s.fault && s.request == Reported
    ensures Settled(s, open, reused)
      == s.(call := Rest, request := if reused then Ready else Reported, status := STATUS_INVALID_DEVICE_STATE)
  {
    var s1 := Continue(s, reused);
    var s2 := Continue(s1, reused);
    SettlesOn(s, open, reused, s1);
    SettlesOn(s1, open, reused, s2);
    SettlesOn(s2, open, reused, Continue(s2, reused));
  }

  // ----- what every run keeps

  /** The request is never sent while outstanding; outside the send window of a start call, the event is clear
      exactly while the request is away. */
  lemma EventTracksRequest(initial: int, steps: seq<Step>)
    ensures var s := Run(Initial(initial), steps);
      && !s.fault
      && (!s.call.Sending? && !s.call.Unclearing? ==> (!s.event <==> Away(s)))
      && (Away(s) ==> s.opens == 1 || s.call in {Cancelling, Waiting})
  {
    RunInv(Initial(initial), steps, initial);
  }

  /** Once the driver has completed the request and the completion routine has run, the wait returns and the late
      status is overwritten. */
  lemma WaitReturns(s: State, initial: int, ok: bool, reported: int, reused: bool)
    requires Inv(s, initial) && s.call == Waiting
    ensures var t := Run(s,
      [Complete(ok, reported), CompletionStep, CompletionStep, Advance(true), Advance(reused), Advance(true)]);
      t.call == Rest && t.streams == 0 && t.status == STATUS_INVALID_DEVICE_STATE && t.event && !Away(t)
  {
    SixSteps(s, Complete(ok, reported), CompletionStep, CompletionStep, Advance(true), Advance(reused), Advance(true));
    var s1 := Apply(s, Complete(ok, reported));
    var s2 := Apply(s1, CompletionStep);
    assert s2.request.Signalling? || s2.request.Reported?;
    var s3 := Apply(s2, CompletionStep);
    assert s3 == s.(event := true, request := Reported, status := s3.status);
    var s4 := Apply(s3, Advance(true));
    assert s4 == s3.(call := Reusing);
  }

  /** Stop's wait blocks only on the cancelled request or on its completion routine, and returns after them. */
  lemma StopBlocksOnlyOnTheRequest(initial: int, steps: seq<Step>, ok: bool, reported: int, reused: bool)
    requires Run(Initial(initial), steps).call == Waiting
    ensures var s := Run(Initial(initial), steps);
      && (Apply(s, Advance(true)) == s <==> !s.event)
      && (!s.event <==> s.request == Outstanding(true) || s.request.Storing? || s.request.Signalling?)
    ensures var t := Run(Run(Initial(initial), steps),
                         [Complete(ok, reported), CompletionStep, CompletionStep,
                          Advance(true), Advance(reused), Advance(true)]);
      t.call == Rest && t.streams == 0 && t.status == STATUS_INVALID_DEVICE_STATE && t.event && !Away(t)
  {
    RunInv(Initial(initial), steps, initial);
    WaitReturns(Run(Initial(initial), steps), initial, ok, reported, reused);
  }

  lemma SixSteps(s: State, a: Step, b: Step, c: Step, d: Step, e: Step, f: Step)
    ensures Run(s, [a, b, c, d, e, f]) == Apply(Apply(Apply(Apply(Apply(Apply(s, a), b), c), d), e), f)
  {
    assert [a, b, c, d, e, f][1..] == [b, c, d, e, f];
    assert [b, c, d, e, f][1..] == [c, d, e, f];
    assert [c, d, e, f][1..] == [d, e, f];
    assert [d, e, f][1..] == [e, f];
    assert [e, f][1..] == [f];
    var s5 := Apply(Apply(Apply(Apply(Apply(s, a), b), c), d), e);
    assert Run(s5, [f]) == Apply(s5, f);
    assert Run(Apply(Apply(s, a), b), [c, d, e, f]) == Run(Apply(Apply(Apply(Apply(s, a), b), c), d), [e, f]);
  }

  /** With no stream and no call in flight the stored status is a failure, exactly if the device began with one or some
      stream was ever started: the USB and A2DP devices begin with STATUS_SUCCESS. */
  lemma ClosedMeansFailure(initial: int, steps: seq<Step>)
    requires Run(Initial(initial), steps).call == Rest && Run(Initial(initial), steps).streams == 0
    ensures var s := Run(Initial(initial), steps);
      !NtSuccess(s.status) <==> !NtSuccess(initial) || StreamStart in steps
  {
    RunInv(Initial(initial), steps, initial);
    UsedMeansStarted(Initial(initial), steps, initial);
  }

  lemma {:induction false} UsedMeansStarted(s: State, steps: seq<Step>, initial: int)
    requires Inv(s, initial)
    ensures Run(s, steps).used <==> s.used || StreamStart in steps
    decreases |steps|
  {
    if steps != [] {
      StepInv(s, steps[0], initial);
      UsedMeansStarted(Apply(s, steps[0]), steps[1..], initial);
      assert steps == [steps[0]] + steps[1..];
    }
  }

  /** While a started stream's request waits at the driver, the status reads success. */
  lemma LiveUntilReported(initial: int, steps: seq<Step>)
    requires Run(Initial(initial), steps).call == Rest && Run(Initial(initial), steps).streams > 0
    ensures var s := Run(Initial(initial), steps);
      && s.opens == 1
      && (s.request.Outstanding? ==> NtSuccess(s.status))
      && !s.request.Ready?
  {
    RunInv(Initial(initial), steps, initial);
  }

  /** The result of the last completion of a run: what it reported, or a failure if the driver failed the request. */
  function LastResult(s: State, steps: seq<Step>, last: int): int
    decreases |steps|
  {
    if steps == [] then last else LastResult(Apply(s, steps[0]), steps[1..], NextResult(s, steps[0], last))
  }

  function NextResult(s: State, step: Step, last: int): int {
    if !step.Complete? || !s.request.Outstanding? then last
    else if step.ok then step.reported
    else STATUS_INVALID_DEVICE_STATE
  }

  /** What the request and the status hold of the last result. */
  predicate HoldsResult(s: State, last: int) {
    && (s.request.Storing? ==> s.request.result == last)
    && ((s.request.Signalling? || s.request.Reported?) && s.call == Rest && s.streams > 0 ==> s.status == last)
  }

  lemma StepHoldsResult(s: State, step: Step, initial: int, last: int)
    requires Inv(s, initial) && HoldsResult(s, last)
    ensures HoldsResult(Apply(s, step), NextResult(s, step, last))
  {
  }

  lemma {:induction false} RunHoldsResult(s: State, steps: seq<Step>, initial: int, last: int)
    requires Inv(s, initial) && HoldsResult(s, last)
    ensures HoldsResult(Run(s, steps), LastResult(s, steps, last))
    decreases |steps|
  {
    if steps != [] {
      StepInv(s, steps[0], initial);
      StepHoldsResult(s, steps[0], initial, last);
      RunHoldsResult(Apply(s, steps[0]), steps[1..], initial, NextResult(s, steps[0], last));
    }
  }

  /** While a stream is counted and its request has completed, the status is what the completion reported, however often
      the stream is started or suspended beside it. */
  lemma StatusIsTheLastResult(initial: int, steps: seq<Step>)
    requires Run(Initial(initial), steps).call == Rest && Run(Initial(initial), steps).streams > 0
    requires Run(Initial(initial), steps).request.Signalling? || Run(Initial(initial), steps).request.Reported?
    ensures Run(Initial(initial), steps).status == LastResult(Initial(initial), steps, initial)
  {
    RunHoldsResult(Initial(initial), steps, initial, initial);
  }

  /** At rest the driver has exactly one open stream while any is counted, and none otherwise. */
  lemma OpensBalance(initial: int, steps: seq<Step>)
    requires Run(Initial(initial), steps).call == Rest
    ensures var s := Run(Initial(initial), steps);
      s.streams >= 0 && s.opens == if s.streams > 0 then 1 else 0
  {
    RunInv(Initial(initial), steps, initial);
  }
}
