/**
 The notification loop of a sideband device: requests wait at the lower driver, their completions put them into
 a collection, and a work item takes them out, publishes the new value and sends them again.
 The Bluetooth, USB and A2DP devices share the loop; one model stands for the three.
 */
module Notifications {
  import opened Counting

  const MAX_ERROR_COUNT: nat := 5

  type Request = nat

  /** One request: `known` says that the worker's switch has a case for its control code, `failed` is the status
      of its last completion.  The four counters say how often it is where; nothing in the type makes them exclusive. */
  datatype Context = Context(
    known: bool,
    failed: bool,
    errors: nat,
    unsent: nat,    // created, not started yet
    driver: nat,    // outstanding at the lower driver
    hands: nat,     // taken by a worker; one worker each
    parked: nat)    // given up

  datatype State = State(
    contexts: seq<Context>,
    collection: seq<Request>,
    pending: bool,
    polling: nat,   // workers about to look at the collection
    fault: bool)    // a request was sent while outstanding, or added twice

  datatype Status = Succeeded | Failed | Cancelled

  datatype Outcome = Sent | ReuseFailed | SendFailed

  datatype Step =
    | Start(request: Request, sent: bool)
    | Complete(request: Request, status: Status, added: bool)
    | Begin
    | Poll
    | Finish(request: Request, outcome: Outcome)

  function Fresh(known: seq<bool>): seq<Context> {
    seq(|known|, i requires 0 <= i < |known| => Context(known[i], false, 0, 1, 0, 0, 0))
  }

  function Initial(known: seq<bool>): State {
    State(Fresh(known), [], false, 0, false)
  }

  /** The lower driver takes the request; sending one that is outstanding is a fault. */
  function Send(s: State, r: Request, c: Context): State
    requires r < |s.contexts|
  {
    s.(contexts := s.contexts[r := c.(driver := c.driver + 1)], fault := s.fault || c.driver > 0)
  }

  function Add(s: State, r: Request, c: Context): State
    requires r < |s.contexts|
  {
    s.(contexts := s.contexts[r := c], collection := s.collection + [r], pending := true,
       fault := s.fault || r in s.collection)
  }

  function Park(s: State, r: Request, c: Context): State
    requires r < |s.contexts|
  {
    s.(contexts := s.contexts[r := c.(parked := c.parked + 1)])
  }

  function Started(s: State, r: Request, sent: bool): State {
    if r >= |s.contexts| || s.contexts[r].unsent == 0 || !sent then s
    else Send(s, r, s.contexts[r].(unsent := s.contexts[r].unsent - 1))
  }

  /** The completion routine. */
  function Completed(s: State, r: Request, status: Status, added: bool): State {
    if r >= |s.contexts| || s.contexts[r].driver == 0 then s
    else
      var c := s.contexts[r].(driver := s.contexts[r].driver - 1);
      match status
      case Cancelled => Park(s, r, c)
      case Succeeded =>
        var d := c.(errors := 0, failed := false);
        if added then Add(s, r, d) else Park(s, r, d)
      case Failed =>
        var d := c.(errors := c.errors + 1, failed := true);
        if d.errors > MAX_ERROR_COUNT || !added then Park(s, r, d) else Add(s, r, d)
  }

  /** The top of the worker's loop. */
  function Polled(s: State): State {
    if s.polling == 0 then s
    else if s.collection == [] || s.collection[0] >= |s.contexts| then s.(polling := s.polling - 1)
    else
      var r := s.collection[0];
      s.(polling := s.polling - 1, collection := s.collection[1..],
         contexts := s.contexts[r := s.contexts[r].(hands := s.contexts[r].hands + 1)])
  }

  /** The rest of one turn; a failed reuse or send leaves the loop. */
  function Finished(s: State, r: Request, outcome: Outcome): State {
    if r >= |s.contexts| || s.contexts[r].hands == 0 then s
    else
      var c := s.contexts[r].(hands := s.contexts[r].hands - 1);
      if !c.failed && !c.known then Park(s, r, c).(polling := s.polling + 1)
      else if outcome == Sent then Send(s, r, c).(polling := s.polling + 1)
      else Park(s, r, c)
  }

  function Apply(s: State, step: Step): State {
    match step
    case Start(r, sent) => Started(s, r, sent)
    case Complete(r, status, added) => Completed(s, r, status, added)
    case Begin => if s.pending then s.(pending := false, polling := s.polling + 1) else s
    case Poll => Polled(s)
    case Finish(r, outcome) => Finished(s, r, outcome)
  }

  function Run(s: State, steps: seq<Step>): State
    decreases |steps|
  {
    if steps == [] then s else Run(Apply(s, steps[0]), steps[1..])
  }

  // ----- conservation

  function Elsewhere(c: Context): nat {
    c.unsent + c.driver + c.hands + c.parked
  }

  function Places(s: State, r: Request): nat {
    Count(s.collection, r) + if r < |s.contexts| then Elsewhere(s.contexts[r]) else 0
  }

  predicate Budgeted(c: Context) {
    && c.errors <= MAX_ERROR_COUNT + 1
    && (c.errors > MAX_ERROR_COUNT ==> c.parked > 0)
    && (c.unsent > 0 ==> c.errors == 0)
  }

  ghost predicate Inv(s: State) {
    && !s.fault
    && (forall r: Request :: Places(s, r) == if r < |s.contexts| then 1 else 0)
    && (forall r: Request :: r < |s.contexts| ==> Budgeted(s.contexts[r]))
  }

  /** What a step keeps about one request. */
  ghost predicate Keeps(s: State, t: State, q: Request) {
    && !t.fault && |t.contexts| == |s.contexts| && Places(t, q) == Places(s, q)
    && (q < |t.contexts| ==> Budgeted(t.contexts[q]))
  }

  lemma CompletedKeeps(s: State, r: Request, status: Status, added: bool, q: Request)
    requires Inv(s)
    ensures Keeps(s, Completed(s, r, status, added), q)
  {
    assert Places(s, r) <= 1;
    CountSnoc(s.collection, r, q);
    CountIsMembership(s.collection, r);
  }

  lemma PolledKeeps(s: State, q: Request)
    requires Inv(s)
    ensures Keeps(s, Polled(s), q)
  {
    if s.collection != [] {
      var r := s.collection[0];
      assert Places(s, r) > 0;
    }
  }

  lemma FinishedKeeps(s: State, r: Request, outcome: Outcome, q: Request)
    requires Inv(s)
    ensures Keeps(s, Finished(s, r, outcome), q)
  {
    assert Places(s, r) <= 1;
  }

  lemma StepKeeps(s: State, step: Step, q: Request)
    requires Inv(s)
    ensures Keeps(s, Apply(s, step), q)
  {
    match step
    case Start(r, sent) => assert Places(s, r) <= 1;
    case Complete(r, status, added) => CompletedKeeps(s, r, status, added, q);
    case Begin =>
    case Poll => PolledKeeps(s, q);
    case Finish(r, outcome) => FinishedKeeps(s, r, outcome, q);
  }

  lemma StepInv(s: State, step: Step)
    requires Inv(s)
    ensures Inv(Apply(s, step)) && |Apply(s, step).contexts| == |s.contexts|
  {
    StepKeeps(s, step, 0);
    forall q: Request
      ensures Places(Apply(s, step), q) == Places(s, q)
      ensures q < |s.contexts| ==> Budgeted(Apply(s, step).contexts[q])
    {
      StepKeeps(s, step, q);
    }
  }

  lemma {:induction false} RunInv(s: State, steps: seq<Step>)
    requires Inv(s)
    ensures Inv(Run(s, steps)) && |Run(s, steps).contexts| == |s.contexts|
    decreases |steps|
  {
    if steps != [] {
      StepInv(s, steps[0]);
      RunInv(Apply(s, steps[0]), steps[1..]);
    }
  }

  /** Every request is always in exactly one place, never added twice, never sent while outstanding, within its
      budget. */
  lemma ConservationOfEveryRun(known: seq<bool>, steps: seq<Step>, r: Request)
    ensures var s := Run(Initial(known), steps);
      && !s.fault
      && Places(s, r) == (if r < |known| then 1 else 0)
      && |s.contexts| == |known|
      && (r < |known| ==> s.contexts[r].errors <= MAX_ERROR_COUNT + 1)
      && (r < |known| && s.contexts[r].errors == MAX_ERROR_COUNT + 1 ==> s.contexts[r].parked == 1)
  {
    RunInv(Initial(known), steps);
    assert Places(Run(Initial(known), steps), r) == if r < |known| then 1 else 0;
  }

  /** A parked request is out of the loop for good. */
  lemma {:induction false} ParkedStaysParked(s: State, steps: seq<Step>, r: Request)
    requires Inv(s) && r < |s.contexts| && s.contexts[r].parked > 0
    ensures |Run(s, steps).contexts| == |s.contexts| && Run(s, steps).contexts[r] == s.contexts[r]
    decreases |steps|
  {
    if steps != [] {
      assert Places(s, r) == 1;
      StepInv(s, steps[0]);
      if s.collection != [] {
        assert Places(s, s.collection[0]) > 0;
      }
      ParkedStaysParked(Apply(s, steps[0]), steps[1..], r);
    }
  }

  /** After its turn a request is at the driver exactly if it is one to be sent again, having failed or being known,
      and the platform reused and sent it; otherwise it is given up. */
  lemma TurnExactly(s: State, r: Request, outcome: Outcome)
    requires Inv(s) && r < |s.contexts| && s.contexts[r].hands > 0
    ensures |Finished(s, r, outcome).contexts| == |s.contexts|
    ensures var c := s.contexts[r]; var d := Finished(s, r, outcome).contexts[r];
      && (d.driver == 1 <==> (c.failed || c.known) && outcome == Sent)
      && (d.parked == 1 <==> !((c.failed || c.known) && outcome == Sent))
      && d.errors == c.errors && d.failed == c.failed && d.known == c.known
  {
    assert Places(s, r) == 1;
  }

  // ----- which requests are given up

  /** The failures in a row the completions of `r` have reported, when there were `row` before the step. */
  function RowAfter(s: State, step: Step, r: Request, row: nat): nat {
    if !step.Complete? || step.request != r || r >= |s.contexts| || s.contexts[r].driver == 0 then row
    else match step.status
      case Succeeded => 0
      case Failed => row + 1
      case Cancelled => row
  }

  /** The step ends `r`: its completion was cancelled, could not be queued or is the sixth failure in a row, or its
      turn finds a success with an unknown control code or a refused reuse or send. */
  predicate Ends(s: State, step: Step, r: Request, row: nat) {
    && r < |s.contexts|
    && (|| (&& step.Complete? && step.request == r && s.contexts[r].driver > 0
            && (step.status == Cancelled || !step.added || (step.status == Failed && row == MAX_ERROR_COUNT)))
        || (&& step.Finish? && step.request == r && s.contexts[r].hands > 0
            && (step.outcome != Sent || (row == 0 && !s.contexts[r].known))))
  }

  predicate Ended(s: State, steps: seq<Step>, r: Request, row: nat)
    decreases |steps|
  {
    steps != [] &&
    (Ends(s, steps[0], r, row) || Ended(Apply(s, steps[0]), steps[1..], r, RowAfter(s, steps[0], r, row)))
  }

  lemma RowStep(s: State, step: Step, r: Request)
    requires Inv(s) && r < |s.contexts| && (s.contexts[r].failed <==> s.contexts[r].errors > 0)
    ensures |Apply(s, step).contexts| == |s.contexts|
    ensures var c := Apply(s, step).contexts[r];
      c.errors == RowAfter(s, step, r, s.contexts[r].errors) && (c.failed <==> c.errors > 0)
    ensures Apply(s, step).contexts[r].parked > 0
      <==> s.contexts[r].parked > 0 || Ends(s, step, r, s.contexts[r].errors)
  {
    assert Places(s, r) == 1;
    match step
    case Start(_, _) =>
    case Complete(_, _, _) => CompletionRow(s, step, r);
    case Begin =>
    case Poll =>
    case Finish(q, outcome) => if q == r && s.contexts[r].hands > 0 { TurnExactly(s, r, outcome); }
  }

  lemma CompletionRow(s: State, step: Step, r: Request)
    requires step.Complete? && r < |s.contexts| && (s.contexts[r].failed <==> s.contexts[r].errors > 0)
    requires Elsewhere(s.contexts[r]) <= 1 && s.contexts[r].errors <= MAX_ERROR_COUNT + 1
    requires s.contexts[r].errors > MAX_ERROR_COUNT ==> s.contexts[r].parked > 0
    ensures |Apply(s, step).contexts| == |s.contexts|
    ensures var c := Apply(s, step).contexts[r];
      c.errors == RowAfter(s, step, r, s.contexts[r].errors) && (c.failed <==> c.errors > 0)
    ensures Apply(s, step).contexts[r].parked > 0
      <==> s.contexts[r].parked > 0 || Ends(s, step, r, s.contexts[r].errors)
  {
  }

  lemma {:induction false} EndedIsParked(s: State, steps: seq<Step>, r: Request)
    requires Inv(s) && r < |s.contexts| && (s.contexts[r].failed <==> s.contexts[r].errors > 0)
    ensures |Run(s, steps).contexts| == |s.contexts|
    ensures Run(s, steps).contexts[r].parked > 0
      <==> s.contexts[r].parked > 0 || Ended(s, steps, r, s.contexts[r].errors)
    decreases |steps|
  {
    if steps != [] {
      RowStep(s, steps[0], r);
      StepInv(s, steps[0]);
      EndedIsParked(Apply(s, steps[0]), steps[1..], r);
    }
  }

  /** Over every run a request has been given up exactly if one of the steps ended it. */
  lemma GivenUpExactly(known: seq<bool>, steps: seq<Step>, r: Request)
    requires r < |known|
    ensures |Run(Initial(known), steps).contexts| == |known|
    ensures Run(Initial(known), steps).contexts[r].parked == 1 <==> Ended(Initial(known), steps, r, 0)
  {
    EndedIsParked(Initial(known), steps, r);
    RunInv(Initial(known), steps);
    assert Places(Run(Initial(known), steps), r) == 1;
  }

  // ----- bounded retry

  predicate Resent(s: State, step: Step, r: Request) {
    && step.Finish? && step.request == r && r < |s.contexts| && s.contexts[r].hands > 0
    && r < |Apply(s, step).contexts| && Apply(s, step).contexts[r].driver > s.contexts[r].driver
  }

  function Resends(s: State, steps: seq<Step>, r: Request): nat
    decreases |steps|
  {
    if steps == [] then 0
    else (if Resent(s, steps[0], r) then 1 else 0) + Resends(Apply(s, steps[0]), steps[1..], r)
  }

  predicate NeverSucceeds(steps: seq<Step>, r: Request) {
    forall i :: 0 <= i < |steps| && steps[i].Complete? && steps[i].request == r ==> steps[i].status != Succeeded
  }

  /** How often a request can still be sent again if it only fails from here on. */
  function Left(c: Context): int {
    if c.parked > 0 then 0
    else if c.unsent > 0 || c.driver > 0 then MAX_ERROR_COUNT - c.errors
    else MAX_ERROR_COUNT + 1 - c.errors
  }

  lemma LeftStep(s: State, step: Step, r: Request)
    requires Inv(s) && r < |s.contexts|
    requires step.Complete? && step.request == r ==> step.status != Succeeded
    ensures |Apply(s, step).contexts| == |s.contexts|
    ensures Left(Apply(s, step).contexts[r]) + (if Resent(s, step, r) then 1 else 0) <= Left(s.contexts[r])
    ensures 0 <= Left(Apply(s, step).contexts[r])
  {
    StepInv(s, step);
    assert Places(s, r) == 1 && Places(Apply(s, step), r) == 1;
    if s.collection != [] {
      assert Places(s, s.collection[0]) > 0;
    }
  }

  lemma {:induction false} RetriesAreBounded(s: State, steps: seq<Step>, r: Request)
    requires Inv(s) && r < |s.contexts| && NeverSucceeds(steps, r)
    ensures |Run(s, steps).contexts| == |s.contexts|
    ensures Resends(s, steps, r) + Left(Run(s, steps).contexts[r]) <= Left(s.contexts[r])
    ensures Left(Run(s, steps).contexts[r]) >= 0
    decreases |steps|
  {
    if steps == [] {
      assert Places(s, r) == 1;
    } else {
      var first, rest := steps[0], steps[1..];
      assert NeverSucceeds(rest, r) by {
        assert forall i :: 0 <= i < |rest| ==> rest[i] == steps[i + 1];
      }
      LeftStep(s, first, r);
      StepInv(s, first);
      RetriesAreBounded(Apply(s, first), rest, r);
    }
  }

  /** A request at the driver that has not failed yet is sent again at most five times while it only fails. */
  lemma AtMostFiveRetries(s: State, steps: seq<Step>, r: Request)
    requires Inv(s) && r < |s.contexts| && s.contexts[r].driver > 0 && s.contexts[r].errors == 0
    requires NeverSucceeds(steps, r)
    ensures Resends(s, steps, r) <= MAX_ERROR_COUNT
  {
    RetriesAreBounded(s, steps, r);
    assert Places(s, r) == 1;
  }

  /** One failure and what follows it when no other request is about. */
  function FailingTurn(r: Request): seq<Step> {
    [Complete(r, Failed, true), Begin, Poll, Finish(r, Sent), Poll]
  }

  function FailingTurns(r: Request, turns: nat): seq<Step> {
    if turns == 0 then [] else FailingTurn(r) + FailingTurns(r, turns - 1)
  }

  /** No other request is about and no worker runs. */
  ghost predicate Alone(s: State, r: Request) {
    Inv(s) && r < |s.contexts| && s.contexts[r].driver > 0 && s.collection == [] && !s.pending && s.polling == 0
  }

  function WithErrors(s: State, r: Request, errors: nat): State
    requires r < |s.contexts|
  {
    s.(contexts := s.contexts[r := s.contexts[r].(errors := errors, failed := true)])
  }

  lemma UpdateTwice(contexts: seq<Context>, r: Request, c: Context, d: Context)
    requires r < |contexts|
    ensures contexts[r := c][r := d] == contexts[r := d]
  {
  }

  /** The one request of an idle device fails, */
  lemma FailStep(s: State, r: Request)
    requires Alone(s, r) && s.contexts[r].errors < MAX_ERROR_COUNT
    ensures var d := s.contexts[r].(driver := 0, errors := s.contexts[r].errors + 1, failed := true);
      Apply(s, Complete(r, Failed, true)) == s.(contexts := s.contexts[r := d], collection := [r], pending := true)
  {
    assert Places(s, r) == 1;
  }

  /** is taken by the worker */
  lemma TakeStep(s: State, contexts: seq<Context>, r: Request, d: Context)
    requires r < |contexts| && s.contexts == contexts[r := d] && s.collection == [r] && s.polling == 1
    ensures Apply(s, Poll)
      == s.(contexts := contexts[r := d.(hands := d.hands + 1)], collection := [], polling := 0)
  {
    UpdateTwice(contexts, r, d, d.(hands := d.hands + 1));
  }

  /** and sent again. */
  lemma SendStep(s: State, contexts: seq<Context>, r: Request, d: Context)
    requires r < |contexts| && d.hands == 0 && d.driver == 0 && d.failed && s.polling == 0
    requires s.contexts == contexts[r := d.(hands := 1)]
    ensures Apply(s, Finish(r, Sent)) == s.(contexts := contexts[r := d.(driver := 1)], polling := 1)
    ensures Resent(s, Finish(r, Sent), r)
  {
    UpdateTwice(contexts, r, d.(hands := 1), d.(driver := 1));
  }

  lemma OneRetry(s: State, r: Request, rest: seq<Step>)
    requires Alone(s, r) && s.contexts[r].errors < MAX_ERROR_COUNT
    ensures var t := WithErrors(s, r, s.contexts[r].errors + 1);
      && Alone(t, r)
      && Run(s, FailingTurn(r) + rest) == Run(t, rest)
      && Resends(s, FailingTurn(r) + rest, r) == 1 + Resends(t, rest, r)
  {
    var d := s.contexts[r].(driver := 0, errors := s.contexts[r].errors + 1, failed := true);
    var s1, s4 := Apply(s, Complete(r, Failed, true)), s.(contexts := s.contexts[r := d.(driver := 1)], polling := 1);
    var s2, s3 := Apply(s1, Begin), s.(contexts := s.contexts[r := d.(hands := 1)]);
    assert Places(s, r) == 1;
    FailStep(s, r);
    TakeStep(s2, s.contexts, r, d);
    SendStep(s3, s.contexts, r, d);
    StepInv(s, Complete(r, Failed, true));
    StepInv(s1, Begin);
    StepInv(s2, Poll);
    StepInv(s3, Finish(r, Sent));
    StepInv(s4, Poll);
    FiveSteps(s, Complete(r, Failed, true), Begin, Poll, Finish(r, Sent), Poll, rest, r);
  }

  lemma FiveSteps(s: State, a: Step, b: Step, c: Step, d: Step, e: Step, rest: seq<Step>, r: Request)
    ensures var s1 := Apply(s, a); var s2 := Apply(s1, b); var s3 := Apply(s2, c); var s4 := Apply(s3, d);
      var s5 := Apply(s4, e);
      && Run(s, [a, b, c, d, e] + rest) == Run(s5, rest)
      && Resends(s, [a, b, c, d, e] + rest, r)
         == (if Resent(s, a, r) then 1 else 0) + (if Resent(s1, b, r) then 1 else 0)
            + (if Resent(s2, c, r) then 1 else 0)
            + (if Resent(s3, d, r) then 1 else 0) + (if Resent(s4, e, r) then 1 else 0) + Resends(s5, rest, r)
  {
    var s1 := Apply(s, a);
    var s2 := Apply(s1, b);
    var s3 := Apply(s2, c);
    var s4 := Apply(s3, d);
    Unroll(s4, e, rest, r);
    Unroll(s3, d, [e] + rest, r);
    Unroll(s2, c, [d] + ([e] + rest), r);
    Unroll(s1, b, [c] + ([d] + ([e] + rest)), r);
    Unroll(s, a, [b] + ([c] + ([d] + ([e] + rest))), r);
    assert [a, b, c, d, e] + rest == [a] + ([b] + ([c] + ([d] + ([e] + rest))));
  }

  /** The bound is reached: with nothing else going on, each of the first five failures leads to one more send. */
  lemma {:induction false} FiveRetriesHappen(s: State, r: Request, turns: nat)
    requires Alone(s, r) && s.contexts[r].errors + turns <= MAX_ERROR_COUNT
    ensures Resends(s, FailingTurns(r, turns), r) == turns
    ensures turns > 0 ==> Run(s, FailingTurns(r, turns)) == WithErrors(s, r, s.contexts[r].errors + turns)
    decreases turns
  {
    if turns > 0 {
      var t := WithErrors(s, r, s.contexts[r].errors + 1);
      OneRetry(s, r, FailingTurns(r, turns - 1));
      FiveRetriesHappen(t, r, turns - 1);
      assert WithErrors(t, r, s.contexts[r].errors + turns) == WithErrors(s, r, s.contexts[r].errors + turns);
    }
  }

  lemma Unroll(s: State, step: Step, rest: seq<Step>, r: Request)
    ensures Run(s, [step] + rest) == Run(Apply(s, step), rest)
    ensures Resends(s, [step] + rest, r) == (if Resent(s, step, r) then 1 else 0) + Resends(Apply(s, step), rest, r)
  {
    assert ([step] + rest)[1..] == rest;
  }

  /** The sixth failure in a row parks the request; an earlier one does only if it cannot be queued. */
  lemma FailureParksExactly(s: State, r: Request, added: bool)
    requires Inv(s) && r < |s.contexts| && s.contexts[r].driver > 0
    ensures Apply(s, Complete(r, Failed, added)).contexts[r].parked > 0
      <==> !added || s.contexts[r].errors == MAX_ERROR_COUNT
  {
    assert Places(s, r) == 1;
  }

  // ----- termination of all-failing runs

  function DriverWeight(errors: nat): nat {
    if errors > MAX_ERROR_COUNT then 0 else 1 + 5 * (MAX_ERROR_COUNT - errors)
  }

  function Weight(c: Context): nat {
    if c.parked > 0 then 0
    else if c.unsent > 0 then DriverWeight(0) + 1
    else if c.driver > 0 then DriverWeight(c.errors)
    else DriverWeight(c.errors) + 2
  }

  function Total(contexts: seq<Context>): nat {
    if contexts == [] then 0 else Weight(contexts[0]) + Total(contexts[1..])
  }

  function Signals(s: State): nat {
    s.polling + if s.pending then 2 else 0
  }

  function Measure(s: State): nat {
    Total(s.contexts) + Signals(s)
  }

  lemma {:induction false} OneWeightChanges(contexts: seq<Context>, r: Request, c: Context)
    requires r < |contexts|
    ensures Total(contexts[r := c]) == Total(contexts) - Weight(contexts[r]) + Weight(c)
  {
    if r > 0 {
      assert contexts[r := c][1..] == contexts[1..][r - 1 := c];
      OneWeightChanges(contexts[1..], r - 1, c);
    } else {
      assert contexts[r := c][1..] == contexts[1..];
    }
  }

  /** The request a step moves. */
  function Subject(s: State, step: Step): Request {
    match step
    case Begin => |s.contexts|
    case Poll => if s.collection != [] then s.collection[0] else |s.contexts|
    case Start(r, _) => r
    case Complete(r, _, _) => r
    case Finish(r, _) => r
  }

  /** The step moves one request, which weighs less afterwards than the signals it costs. */
  lemma SubjectLosesWeight(s: State, step: Step)
    requires Inv(s) && Apply(s, step) != s && Subject(s, step) < |s.contexts|
    requires step.Complete? ==> step.status != Succeeded
    ensures var t, r := Apply(s, step), Subject(s, step);
      && |t.contexts| == |s.contexts| && t.contexts == s.contexts[r := t.contexts[r]]
      && Weight(t.contexts[r]) + Signals(t) < Weight(s.contexts[r]) + Signals(s)
  {
    var t, r := Apply(s, step), Subject(s, step);
    StepInv(s, step);
    assert Places(s, r) == 1 && Places(t, r) == 1;
    if step.Poll? {
      CountIsMembership(s.collection, r);
    }
  }

  lemma MeasureDrops(s: State, step: Step)
    requires Inv(s) && Apply(s, step) != s
    requires step.Complete? ==> step.status != Succeeded
    ensures Measure(Apply(s, step)) < Measure(s)
  {
    var t, r := Apply(s, step), Subject(s, step);
    if step.Poll? && s.collection != [] {
      CountIsMembership(s.collection, r);
      assert Places(s, r) > 0;
    }
    if r < |s.contexts| {
      SubjectLosesWeight(s, step);
      OneWeightChanges(s.contexts, r, t.contexts[r]);
    }
  }

  function Effective(s: State, steps: seq<Step>): nat
    decreases |steps|
  {
    if steps == [] then 0
    else (if Apply(s, steps[0]) != s then 1 else 0) + Effective(Apply(s, steps[0]), steps[1..])
  }

  /** A device whose requests only fail comes to rest: the measure bounds the steps that change anything. */
  lemma {:induction false} FailingRunsEnd(s: State, steps: seq<Step>)
    requires Inv(s)
    requires forall i :: 0 <= i < |steps| && steps[i].Complete? ==> steps[i].status != Succeeded
    ensures Effective(s, steps) + Measure(Run(s, steps)) <= Measure(s)
    decreases |steps|
  {
    if steps != [] {
      var first, rest := steps[0], steps[1..];
      assert forall i :: 0 <= i < |rest| ==> rest[i] == steps[i + 1];
      if Apply(s, first) != s {
        MeasureDrops(s, first);
      }
      StepInv(s, first);
      FailingRunsEnd(Apply(s, first), rest);
    }
  }

  // ----- wake-ups

  /** Requests are queued and nobody will look at them. */
  ghost predicate Stranded(s: State) {
    && s.collection != [] && !s.pending && s.polling == 0
    && forall r: Request :: r < |s.contexts| ==> s.contexts[r].hands == 0
  }

  /** The worker leaves its loop because the platform refuses to reuse or send the request. */
  predicate Breaks(s: State, step: Step) {
    && step.Finish? && step.outcome != Sent && step.request < |s.contexts| && s.contexts[step.request].hands > 0
    && (s.contexts[step.request].failed || s.contexts[step.request].known)
  }

  /** Exactly when one step strands requests: the only worker leaves its loop with others queued and no wake-up
      pending. */
  lemma StrandsExactly(s: State, step: Step)
    requires Inv(s) && !Stranded(s)
    ensures Stranded(Apply(s, step)) <==>
      (&& Breaks(s, step) && s.polling == 0 && !s.pending && s.collection != []
       && forall q: Request :: q < |s.contexts| && q != step.request ==> s.contexts[q].hands == 0)
  {
    var t, r := Apply(s, step), Subject(s, step);
    StepInv(s, step);
    if r < |s.contexts| {
      assert Places(s, r) == 1;
      assert t.contexts == s.contexts[r := t.contexts[r]];
    }
    if step.Poll? && s.collection != [] {
      assert Places(s, r) > 0;
      assert s.polling > 0 ==> t.contexts[r].hands > 0;
    }
    forall q: Request | q < |s.contexts| && s.contexts[q].hands > 0
      ensures q < |t.contexts| && (t.contexts[q].hands > 0 || (step.Finish? && q == r))
    {
    }
  }

  ghost predicate NoBreaks(s: State, steps: seq<Step>)
    decreases |steps|
  {
    steps == [] || (!Breaks(s, steps[0]) && NoBreaks(Apply(s, steps[0]), steps[1..]))
  }

  /** Without a refused reuse or send no wake-up is lost: while requests are queued somebody will look at them. */
  lemma {:induction false} NoLostWakeUp(s: State, steps: seq<Step>)
    requires Inv(s) && !Stranded(s) && NoBreaks(s, steps)
    ensures !Stranded(Run(s, steps))
    decreases |steps|
  {
    if steps != [] {
      StrandsExactly(s, steps[0]);
      StepInv(s, steps[0]);
      NoLostWakeUp(Apply(s, steps[0]), steps[1..]);
    }
  }

  /** Stranded requests are looked at again exactly when the completion of another request is queued. */
  lemma RescuedExactly(s: State, step: Step)
    requires Inv(s) && Stranded(s)
    ensures !Stranded(Apply(s, step)) <==>
      (&& step.Complete? && step.added && step.request < |s.contexts| && s.contexts[step.request].driver > 0
       && (step.status == Succeeded || (step.status == Failed && s.contexts[step.request].errors < MAX_ERROR_COUNT)))
  {
    var t, r := Apply(s, step), Subject(s, step);
    StepInv(s, step);
    if r < |s.contexts| {
      assert Places(s, r) == 1;
      assert t.contexts == s.contexts[r := t.contexts[r]];
    }
  }

  /** With no request left at the driver or to be started, stranded requests stay where they are. */
  lemma {:induction false} StrandedForever(s: State, steps: seq<Step>)
    requires Inv(s) && Stranded(s)
    requires forall r: Request :: r < |s.contexts| ==> s.contexts[r].driver == 0 && s.contexts[r].unsent == 0
    ensures Run(s, steps) == s
    decreases |steps|
  {
    if steps != [] {
      assert Apply(s, steps[0]) == s;
      StrandedForever(s, steps[1..]);
    }
  }

  /** The run that shows it: two requests complete, the worker cannot send the first again, the second is stranded. */
  lemma LostWakeUp()
    ensures Stranded(Run(Initial([true, true]),
      [Start(0, true), Start(1, true), Complete(0, Succeeded, true), Complete(1, Succeeded, true), Begin]
      + [Poll, Finish(0, SendFailed)]))
  {
    var s0 := Initial([true, true]);
    var c := Context(true, false, 0, 0, 0, 0, 0);
    var d := c.(driver := 1);
    assert s0.contexts == [c.(unsent := 1), c.(unsent := 1)];
    var s1 := s0.(contexts := [d, c.(unsent := 1)]);
    var s2 := s0.(contexts := [d, d]);
    var s3 := s0.(contexts := [c, d], collection := [0], pending := true);
    var s4 := s3.(contexts := [c, c], collection := [0, 1]);
    var s5 := s4.(pending := false, polling := 1);
    assert Apply(s0, Start(0, true)) == s1;
    assert Apply(s1, Start(1, true)) == s2;
    assert Apply(s2, Complete(0, Succeeded, true)) == s3;
    assert Apply(s3, Complete(1, Succeeded, true)) == s4;
    FiveSteps(s0, Start(0, true), Start(1, true), Complete(0, Succeeded, true), Complete(1, Succeeded, true), Begin,
              [Poll, Finish(0, SendFailed)], 0);
    BreakStrands(s5, c);
  }

  lemma BreakStrands(s: State, c: Context)
    requires c == Context(true, false, 0, 0, 0, 0, 0)
    requires s == State([c, c], [0, 1], false, 1, false)
    ensures Stranded(Run(s, [Poll, Finish(0, SendFailed)]))
  {
    var t := s.(contexts := [c.(hands := 1), c], collection := [1], polling := 0);
    assert Apply(s, Poll) == t;
    Unroll(s, Poll, [Finish(0, SendFailed)], 0);
    Unroll(t, Finish(0, SendFailed), [], 0);
    assert [Poll] + [Finish(0, SendFailed)] == [Poll, Finish(0, SendFailed)];
    assert [Finish(0, SendFailed)] + [] == [Finish(0, SendFailed)];
  }
}
