/**
 The delayed-completion requests of the TrEE test service: a request is answered by a work item that a
 timer enqueues, unless a cancel routine stops the timer first.  Requests come through the service's own
 interface or through the private I/O path, whose cancel routine belongs to the framework request.

 A step is one platform call of one of the three parties; the parties interleave freely.
 */
module DelayedCompletion {

  const SIZE_OF_ULONG: nat := 4
  const ANSWER: nat := 0x1234_5678

  datatype Path = Service | Private

  /** Why a request is refused at once: a buffer too short for a ULONG, or no timer or work item to be had. */
  datatype Reason = ShortInput | ShortOutput | Unavailable

  datatype Reply = Succeeded(written: nat) | Cancelled | Failed(reason: Reason, written: nat)

  datatype Timer = Absent | Armed | Expired | Spent | Stopped

  /** The work item: queued, output written, request unmarked, answered or spared, timer deleted. */
  datatype Work = NotQueued | Queued | Written | Unmarked | Answered | Spared | Over(spared: bool)

  /** The cancel routine: entered, timer stopped, request answered, timer deleted; or the timer was no longer
      to be stopped. */
  datatype Cancel = Idle | Entered | Halted | Replied | Done | Missed

  datatype Request = Request(
    path: Path,
    submitted: bool,
    returned: bool,          // the dispatch routine is through: PENDING returned, or the private request marked
    marked: bool,            // the framework may call the private request's cancel routine
    timer: Timer,
    work: Work,
    cancel: Cancel,
    output: nat,
    replies: seq<Reply>,
    created: nat,            // timer objects
    deleted: nat,
    stale: bool,             // a deleted timer was stopped
    late: bool)              // a completed request was marked cancelable

  function New(path: Path): Request {
    Request(path, false, false, false, Absent, NotQueued, Idle, 0, [], 0, 0, false, false)
  }

  datatype Action =
    | Submit(inputSize: nat, outputSize: nat, timerCreated: bool, workItemCreated: bool)
    | Return
    | Expire
    | TimerCallback
    | WorkStep
    | CancelEnter
    | CancelStep

  function Answer(r: Request, reply: Reply): Request {
    r.(replies := r.replies + [reply])
  }

  /** Everything up to starting the timer; a request refused here is answered with the status returned. */
  function Submitted(r: Request, inputSize: nat, outputSize: nat, timerCreated: bool, workItemCreated: bool): Request {
    var s := r.(submitted := true);
    if inputSize < SIZE_OF_ULONG then Answer(s, Failed(ShortInput, 0)).(returned := true)
    else if outputSize < SIZE_OF_ULONG then Answer(s, Failed(ShortOutput, SIZE_OF_ULONG)).(returned := true)
    else if !timerCreated then Answer(s, Failed(Unavailable, 0)).(returned := true)
    else if !workItemCreated then
      Answer(s, Failed(Unavailable, 0)).(returned := true, created := r.created + 1, deleted := r.deleted + 1)
    else s.(created := r.created + 1, timer := Armed)
  }

  /** Where the work item goes next.  It answers a service request outright; on the private path it first
      unmarks the request, and leaves it alone if that reports that the cancel routine has been called. */
  function NextWork(r: Request): Work {
    match r.work
    case NotQueued => NotQueued
    case Queued => Written
    case Written => if r.path == Service then Answered else if r.cancel != Idle then Spared else Unmarked
    case Unmarked => Answered
    case Answered => Over(false)
    case Spared => Over(true)
    case Over(spared) => Over(spared)
  }

  /** What it does on the way there. */
  function Worked(r: Request): Request {
    var next := NextWork(r);
    if next == r.work then r
    else
      r.(work := next,
         output := if next == Written then ANSWER else r.output,
         marked := r.marked && next != Unmarked,
         replies := if next == Answered then r.replies + [Succeeded(SIZE_OF_ULONG)] else r.replies,
         deleted := if next.Over? then r.deleted + 1 else r.deleted)
  }

  /** Stopping a timer succeeds only while it is armed. */
  function NextCancel(r: Request): Cancel {
    match r.cancel
    case Entered => if r.deleted == 0 && r.timer == Armed then Halted else Missed
    case Halted => Replied
    case Replied => Done
    case other => other
  }

  function Cancelling(r: Request): Request {
    var next := NextCancel(r);
    if next == r.cancel then r
    else
      r.(cancel := next,
         timer := if next == Halted then Stopped else r.timer,
         stale := r.stale || (next == Missed && r.deleted > 0),
         replies := if next == Replied then r.replies + [Cancelled] else r.replies,
         deleted := if next == Done then r.deleted + 1 else r.deleted)
  }

  /** The cancel routine is called once at most: for a service request between the PENDING return and the
      completion, for a private one while it is marked cancelable. */
  predicate Cancelable(r: Request) {
    && r.submitted && r.returned && r.timer != Absent && r.cancel == Idle
    && (r.path == Service ==> r.replies == [])
    && (r.path == Private ==> r.marked)
  }

  function Act(r: Request, a: Action): Request {
    match a
    case Submit(inputSize, outputSize, timerCreated, workItemCreated) =>
      if r.submitted then r else Submitted(r, inputSize, outputSize, timerCreated, workItemCreated)
    case Return =>
      if !r.submitted || r.returned then r
      else
        r.(returned := true, marked := r.marked || r.path == Private,
           late := r.late || (r.path == Private && r.replies != []))
    case Expire => if r.timer == Armed then r.(timer := Expired) else r
    case TimerCallback => if r.timer == Expired then r.(timer := Spent, work := Queued) else r
    case WorkStep => Worked(r)
    case CancelEnter => if Cancelable(r) then r.(cancel := Entered, marked := false) else r
    case CancelStep => Cancelling(r)
  }

  // ----- any number of requests

  datatype Step = Step(index: nat, action: Action)

  type System = seq<Request>

  function Apply(s: System, step: Step): System {
    if step.index >= |s| then s else s[step.index := Act(s[step.index], step.action)]
  }

  function Run(s: System, steps: seq<Step>): System
    decreases |steps|
  {
    if steps == [] then s else Run(Apply(s, steps[0]), steps[1..])
  }

  function Fresh(paths: seq<Path>): System {
    seq(|paths|, i requires 0 <= i < |paths| => New(paths[i]))
  }

  // ----- the invariant of one request

  predicate Sound(r: Request) {
    match r.timer
    case Absent =>
      && r.work == NotQueued && r.cancel == Idle && r.created == r.deleted <= 1 && !r.stale && !r.late
      && (if r.submitted then r.returned && |r.replies| == 1 && r.replies[0].Failed?
          else r.replies == [] && r.created == 0 && !r.returned)
    case Armed => r.submitted && r.work == NotQueued && r.cancel in {Idle, Entered} && Untouched(r)
    case Expired => r.submitted && r.work == NotQueued && r.cancel in {Idle, Entered, Missed} && Untouched(r)
    case Stopped =>
      && r.submitted && r.returned && r.work == NotQueued && r.cancel in {Halted, Replied, Done} && r.created == 1
      && r.replies == (if r.cancel == Halted then [] else [Cancelled])
      && r.deleted == (if r.cancel == Done then 1 else 0) && !r.stale && !r.late
    case Spent =>
      && r.submitted && r.work != NotQueued && r.cancel in {Idle, Entered, Missed} && r.created == 1
      && r.replies == (if r.work == Answered || r.work == Over(false) then [Succeeded(SIZE_OF_ULONG)] else [])
      && r.deleted == (if r.work.Over? then 1 else 0)
      && (r.work != Queued ==> r.output == ANSWER)
      && (r.path == Service ==> r.work !in {Unmarked, Spared, Over(true)} && !r.late)
      && (r.work == Spared || r.work == Over(true) ==> r.cancel != Idle)
      && (r.stale ==> r.cancel == Missed)
      && (r.cancel != Idle ==> r.returned)
  }

  predicate Untouched(r: Request) {
    && r.replies == [] && r.created == 1 && r.deleted == 0 && !r.stale && !r.late && (r.cancel != Idle ==> r.returned)
  }

  lemma WorkedSound(r: Request)
    requires Sound(r)
    ensures Sound(Worked(r))
  {
  }

  lemma CancellingSound(r: Request)
    requires Sound(r)
    ensures Sound(Cancelling(r))
  {
  }

  lemma SubmittedSound(r: Request, inputSize: nat, outputSize: nat, timerCreated: bool, workItemCreated: bool)
    requires Sound(r) && !r.submitted
    ensures Sound(Submitted(r, inputSize, outputSize, timerCreated, workItemCreated))
  {
  }

  lemma ReturnSound(r: Request)
    requires Sound(r)
    ensures Sound(Act(r, Return))
  {
  }

  lemma TimerSound(r: Request)
    requires Sound(r)
    ensures Sound(Act(r, Expire)) && Sound(Act(r, TimerCallback))
  {
  }

  lemma EnterSound(r: Request)
    requires Sound(r)
    ensures Sound(Act(r, CancelEnter))
  {
  }

  lemma ActPath(r: Request, a: Action)
    ensures Act(r, a).path == r.path
  {
  }

  lemma ActSound(r: Request, a: Action)
    requires Sound(r)
    ensures Sound(Act(r, a)) && Act(r, a).path == r.path
  {
    ActPath(r, a);
    match a
    case Submit(inputSize, outputSize, timerCreated, workItemCreated) =>
      if !r.submitted {
        SubmittedSound(r, inputSize, outputSize, timerCreated, workItemCreated);
      }
    case Return => ReturnSound(r);
    case Expire => TimerSound(r);
    case TimerCallback => TimerSound(r);
    case WorkStep => WorkedSound(r);
    case CancelEnter => EnterSound(r);
    case CancelStep => CancellingSound(r);
  }

  lemma {:induction false} RunSound(s: System, steps: seq<Step>)
    requires forall i :: 0 <= i < |s| ==> Sound(s[i])
    ensures |Run(s, steps)| == |s|
    ensures forall i :: 0 <= i < |s| ==> Sound(Run(s, steps)[i]) && Run(s, steps)[i].path == s[i].path
    decreases |steps|
  {
    if steps != [] {
      if steps[0].index < |s| {
        ActSound(s[steps[0].index], steps[0].action);
      }
      RunSound(Apply(s, steps[0]), steps[1..]);
    }
  }

  /** Nothing is left to happen to the request but a cancel call. */
  ghost predicate Settled(r: Request) {
    forall a: Action :: a != CancelEnter ==> Act(r, a) == r
  }

  lemma SettledMeans(r: Request)
    requires Sound(r) && Settled(r)
    ensures r.submitted && r.returned
    ensures r.timer == Absent || (r.timer == Stopped && r.cancel == Done) || (r.timer == Spent && r.work.Over?)
    ensures r.cancel in {Idle, Done, Missed}
  {
    assert Act(r, Submit(4, 4, true, true)) == r;
    assert Act(r, Return) == r;
    assert Act(r, Expire) == r;
    assert Act(r, TimerCallback) == r;
    assert Act(r, WorkStep) == r;
    assert Act(r, CancelStep) == r;
  }

  lemma SoundMeans(r: Request)
    requires Sound(r)
    ensures |r.replies| <= 1 && r.deleted <= r.created <= 1
    ensures Cancelled in r.replies ==> r.timer == Stopped
    ensures Succeeded(SIZE_OF_ULONG) in r.replies ==> r.timer == Spent && r.output == ANSWER
  {
    if r.replies != [] {
      assert r.replies == [r.replies[0]];
    }
  }

  /** Every request, at every moment: one reply at most, one timer at most, which is deleted once at most, by
      the party that has it; a timer that was stopped never leads to a successful reply and one that was not
      never to a cancelled one. */
  lemma AtMostOnce(paths: seq<Path>, steps: seq<Step>, i: nat)
    requires i < |paths|
    ensures |Run(Fresh(paths), steps)| == |paths|
    ensures var r := Run(Fresh(paths), steps)[i];
      && |r.replies| <= 1 && r.deleted <= r.created <= 1
      && (Cancelled in r.replies ==> r.timer == Stopped)
      && (Succeeded(SIZE_OF_ULONG) in r.replies ==> r.timer == Spent && r.output == ANSWER)
  {
    RunSound(Fresh(paths), steps);
    SoundMeans(Run(Fresh(paths), steps)[i]);
  }

  /** A service request that has settled was answered exactly once, and its timer, if it had one, deleted
      exactly once. */
  lemma ServiceExactlyOnce(paths: seq<Path>, steps: seq<Step>, i: nat)
    requires i < |paths| && paths[i] == Service
    requires |Run(Fresh(paths), steps)| == |paths| && Settled(Run(Fresh(paths), steps)[i])
    ensures var r := Run(Fresh(paths), steps)[i];
      |r.replies| == 1 && r.deleted == r.created && (r.timer != Absent ==> r.created == 1)
  {
    RunSound(Fresh(paths), steps);
    SettledMeans(Run(Fresh(paths), steps)[i]);
  }

  /** A private request that has settled lost its timer exactly once too, but it was left without an answer
      exactly if its work item found the cancel routine called. */
  lemma PrivateAnsweredUnlessSpared(paths: seq<Path>, steps: seq<Step>, i: nat)
    requires i < |paths| && paths[i] == Private
    requires |Run(Fresh(paths), steps)| == |paths| && Settled(Run(Fresh(paths), steps)[i])
    ensures var r := Run(Fresh(paths), steps)[i];
      && |r.replies| == (if r.work == Over(true) then 0 else 1)
      && r.deleted == r.created && (r.timer != Absent ==> r.created == 1)
  {
    RunSound(Fresh(paths), steps);
    SettledMeans(Run(Fresh(paths), steps)[i]);
  }

  // ----- every run comes to rest

  function TimerRank(t: Timer): nat {
    match t
    case Absent => 0
    case Armed => 10
    case Expired => 9
    case Spent => 0
    case Stopped => 0
  }

  function WorkRank(w: Work): nat {
    match w
    case NotQueued => 0
    case Queued => 6
    case Written => 5
    case Unmarked => 4
    case Answered => 3
    case Spared => 3
    case Over(_) => 0
  }

  function CancelRank(c: Cancel): nat {
    match c
    case Idle => 4
    case Entered => 3
    case Halted => 2
    case Replied => 1
    case _ => 0
  }

  function Rank(r: Request): nat {
    TimerRank(r.timer) + WorkRank(r.work) + CancelRank(r.cancel)
      + (if r.submitted then 0 else 20) + (if r.returned then 0 else 1)
  }

  lemma WorkedRank(r: Request)
    requires r.work != NotQueued && !r.work.Over?
    ensures Rank(Worked(r)) < Rank(r)
  {
  }

  lemma CancellingRank(r: Request)
    requires r.cancel in {Entered, Halted, Replied}
    ensures Rank(Cancelling(r)) < Rank(r)
  {
  }

  lemma SubmittedRank(r: Request, inputSize: nat, outputSize: nat, timerCreated: bool, workItemCreated: bool)
    requires Sound(r) && !r.submitted
    ensures Rank(Submitted(r, inputSize, outputSize, timerCreated, workItemCreated)) < Rank(r)
  {
  }

  lemma TimerCallbackRank(r: Request)
    requires Sound(r) && r.timer == Expired
    ensures Rank(Act(r, TimerCallback)) < Rank(r)
  {
  }

  lemma RankDrops(r: Request, a: Action)
    requires Sound(r) && Act(r, a) != r
    ensures Rank(Act(r, a)) < Rank(r)
  {
    match a
    case Submit(inputSize, outputSize, timerCreated, workItemCreated) =>
      SubmittedRank(r, inputSize, outputSize, timerCreated, workItemCreated);
    case Return =>
    case Expire =>
    case TimerCallback => TimerCallbackRank(r);
    case WorkStep => WorkedRank(r);
    case CancelEnter =>
    case CancelStep => CancellingRank(r);
  }

  function Total(s: System): nat {
    if s == [] then 0 else Rank(s[0]) + Total(s[1..])
  }

  lemma {:induction false} TotalUpdate(s: System, i: nat, r: Request)
    requires i < |s|
    ensures Total(s[i := r]) == Total(s) - Rank(s[i]) + Rank(r)
  {
    if i == 0 {
      assert s[i := r][1..] == s[1..];
    } else {
      assert s[i := r][1..] == s[1..][i - 1 := r];
      TotalUpdate(s[1..], i - 1, r);
    }
  }

  function Effective(s: System, steps: seq<Step>): nat
    decreases |steps|
  {
    if steps == [] then 0
    else (if Apply(s, steps[0]) != s then 1 else 0) + Effective(Apply(s, steps[0]), steps[1..])
  }

  lemma {:induction false} EveryRunEnds(s: System, steps: seq<Step>)
    requires forall i :: 0 <= i < |s| ==> Sound(s[i])
    ensures Effective(s, steps) + Total(Run(s, steps)) <= Total(s)
    decreases |steps|
  {
    if steps != [] {
      var t := Apply(s, steps[0]);
      if steps[0].index < |s| {
        var i, a := steps[0].index, steps[0].action;
        ActSound(s[i], a);
        TotalUpdate(s, i, Act(s[i], a));
        if Act(s[i], a) != s[i] {
          RankDrops(s[i], a);
        } else {
          assert s[i := Act(s[i], a)] == s;
        }
      }
      EveryRunEnds(t, steps[1..]);
    }
  }

  // ----- one request of a run

  /** What a run does to request `i`. */
  function Mine(steps: seq<Step>, i: nat): seq<Action> {
    if steps == [] then []
    else (if steps[0].index == i then [steps[0].action] else []) + Mine(steps[1..], i)
  }

  function Acts(r: Request, actions: seq<Action>): Request
    decreases |actions|
  {
    if actions == [] then r else Acts(Act(r, actions[0]), actions[1..])
  }

  lemma {:induction false} Projection(s: System, steps: seq<Step>, i: nat)
    requires i < |s|
    ensures |Run(s, steps)| == |s| && Run(s, steps)[i] == Acts(s[i], Mine(steps, i))
    decreases |steps|
  {
    if steps != [] {
      var rest := Mine(steps[1..], i);
      Projection(Apply(s, steps[0]), steps[1..], i);
      if steps[0].index == i {
        assert ([steps[0].action] + rest)[1..] == rest;
      } else {
        assert Mine(steps, i) == rest;
      }
    }
  }

  lemma NewProjection(paths: seq<Path>, steps: seq<Step>, i: nat)
    requires i < |paths|
    ensures |Run(Fresh(paths), steps)| == |paths|
    ensures Run(Fresh(paths), steps)[i] == Acts(New(paths[i]), Mine(steps, i))
  {
    Projection(Fresh(paths), steps, i);
  }

  // ----- what depends on timing

  /** Whenever the cancel routine stops the timer, the work item has not deleted it yet. */
  predicate StopsBeforeDeletion(r: Request, actions: seq<Action>)
    decreases |actions|
  {
    actions == [] ||
    (&& (actions[0] == CancelStep && r.cancel == Entered ==> !r.work.Over?)
     && StopsBeforeDeletion(Act(r, actions[0]), actions[1..]))
  }

  lemma StaleStep(r: Request, a: Action)
    requires Sound(r)
    ensures Act(r, a).stale <==> r.stale || (a == CancelStep && r.cancel == Entered && r.work.Over?)
  {
    if a == CancelStep && r.cancel == Entered {
      assert r.deleted > 0 <==> r.work.Over?;
    }
  }

  lemma {:induction false} StaleActs(r: Request, actions: seq<Action>)
    requires Sound(r)
    ensures Acts(r, actions).stale <==> r.stale || !StopsBeforeDeletion(r, actions)
    decreases |actions|
  {
    if actions != [] {
      StaleStep(r, actions[0]);
      ActSound(r, actions[0]);
      StaleActs(Act(r, actions[0]), actions[1..]);
    }
  }

  /** A run stops no deleted timer of a request exactly if its cancel routine always stops before the deletion. */
  lemma DeletedTimerStoppedExactly(paths: seq<Path>, steps: seq<Step>, i: nat)
    requires i < |paths|
    ensures |Run(Fresh(paths), steps)| == |paths|
    ensures !Run(Fresh(paths), steps)[i].stale <==> StopsBeforeDeletion(New(paths[i]), Mine(steps, i))
  {
    NewProjection(paths, steps, i);
    StaleActs(New(paths[i]), Mine(steps, i));
  }

  /** Whenever the dispatch routine marks a private request, the work item has not answered it yet. */
  predicate MarkedBeforeAnswer(r: Request, actions: seq<Action>)
    decreases |actions|
  {
    actions == [] ||
    (&& (actions[0] == Return && r.path == Private && r.submitted && !r.returned ==> r.work !in {Answered, Over(false)})
     && MarkedBeforeAnswer(Act(r, actions[0]), actions[1..]))
  }

  lemma LateStep(r: Request, a: Action)
    requires Sound(r)
    ensures Act(r, a).late <==>
      (r.late || (a == Return && r.path == Private && r.submitted && !r.returned && r.work in {Answered, Over(false)}))
  {
    if a == Return && r.submitted && !r.returned {
      assert r.timer in {Armed, Expired, Spent};
      assert r.replies != [] <==> r.work in {Answered, Over(false)};
    }
  }

  lemma {:induction false} LateActs(r: Request, actions: seq<Action>)
    requires Sound(r)
    ensures Acts(r, actions).late <==> r.late || !MarkedBeforeAnswer(r, actions)
    decreases |actions|
  {
    if actions != [] {
      LateStep(r, actions[0]);
      ActSound(r, actions[0]);
      LateActs(Act(r, actions[0]), actions[1..]);
    }
  }

  /** A run marks no completed request exactly if marking always comes before the answer. */
  lemma CompletedRequestMarkedExactly(paths: seq<Path>, steps: seq<Step>, i: nat)
    requires i < |paths|
    ensures |Run(Fresh(paths), steps)| == |paths|
    ensures !Run(Fresh(paths), steps)[i].late <==> MarkedBeforeAnswer(New(paths[i]), Mine(steps, i))
  {
    NewProjection(paths, steps, i);
    LateActs(New(paths[i]), Mine(steps, i));
  }

  /** The cancel routine stops the timer before the work item answers or gives up. */
  predicate Prompt(r: Request, actions: seq<Action>)
    decreases |actions|
  {
    actions == [] ||
    (&& (actions[0] == CancelStep && r.cancel == Entered ==> r.work in {NotQueued, Queued, Written})
     && Prompt(Act(r, actions[0]), actions[1..]))
  }

  lemma {:induction false} PromptStopsBeforeDeletion(r: Request, actions: seq<Action>)
    requires Prompt(r, actions)
    ensures StopsBeforeDeletion(r, actions)
    decreases |actions|
  {
    if actions != [] {
      PromptStopsBeforeDeletion(Act(r, actions[0]), actions[1..]);
    }
  }

  /** A cancel routine that is not held up never touches a deleted timer. */
  lemma {:induction false} PromptCancelTouchesNoDeletedTimer(paths: seq<Path>, steps: seq<Step>, i: nat)
    requires i < |paths| && Prompt(New(paths[i]), Mine(steps, i))
    ensures |Run(Fresh(paths), steps)| == |paths| && !Run(Fresh(paths), steps)[i].stale
  {
    PromptStopsBeforeDeletion(New(paths[i]), Mine(steps, i));
    DeletedTimerStoppedExactly(paths, steps, i);
  }

  /** The dispatch routine starts the timer before it marks a private request; here the expiry does not overtake it. */
  predicate MarkedFirst(r: Request, actions: seq<Action>)
    decreases |actions|
  {
    actions == [] ||
    (&& (actions[0] == Expire && r.timer == Armed ==> r.returned)
     && MarkedFirst(Act(r, actions[0]), actions[1..]))
  }

  predicate InTime(r: Request) {
    && Sound(r) && (r.timer in {Expired, Spent} ==> r.returned)
    && (r.path == Private && r.work in {Unmarked, Answered, Over(false)} ==> r.cancel == Idle && !r.marked)
  }

  lemma WorkedInTime(r: Request)
    requires InTime(r)
    ensures InTime(Worked(r))
  {
    WorkedSound(r);
  }

  lemma CancellingInTime(r: Request)
    requires InTime(r)
    ensures InTime(Cancelling(r))
  {
    CancellingSound(r);
  }

  lemma ActInTime(r: Request, a: Action)
    requires InTime(r) && (a == Expire && r.timer == Armed ==> r.returned)
    ensures InTime(Act(r, a))
  {
    ActSound(r, a);
    match a
    case WorkStep => WorkedInTime(r);
    case CancelStep => CancellingInTime(r);
    case Submit(_, _, _, _) =>
    case Return =>
    case Expire =>
    case TimerCallback =>
    case CancelEnter =>
  }

  lemma {:induction false} MarkedFirstKeepsInTime(r: Request, actions: seq<Action>)
    requires InTime(r) && MarkedFirst(r, actions)
    ensures InTime(Acts(r, actions)) && MarkedBeforeAnswer(r, actions)
    decreases |actions|
  {
    if actions != [] {
      ActInTime(r, actions[0]);
      MarkedFirstKeepsInTime(Act(r, actions[0]), actions[1..]);
    }
  }

  lemma MarkedFirstMarksNoCompletedRequest(paths: seq<Path>, steps: seq<Step>, i: nat)
    requires i < |paths| && MarkedFirst(New(paths[i]), Mine(steps, i))
    ensures |Run(Fresh(paths), steps)| == |paths| && !Run(Fresh(paths), steps)[i].late
  {
    MarkedFirstKeepsInTime(New(paths[i]), Mine(steps, i));
    CompletedRequestMarkedExactly(paths, steps, i);
  }

  /** The work item asks the framework about the private request and hears that its cancel routine has been called. */
  predicate Caught(r: Request, actions: seq<Action>)
    decreases |actions|
  {
    actions != [] &&
    (|| (actions[0] == WorkStep && r.path == Private && r.work == Written && r.cancel != Idle)
     || Caught(Act(r, actions[0]), actions[1..]))
  }

  predicate Spurned(r: Request) {
    r.work == Spared || r.work == Over(true)
  }

  lemma SpurnedStep(r: Request, a: Action)
    requires Sound(r)
    ensures Spurned(Act(r, a)) <==>
      (Spurned(r) || (a == WorkStep && r.path == Private && r.work == Written && r.cancel != Idle))
  {
    assert r.timer == Expired ==> r.work == NotQueued;
  }

  lemma {:induction false} CaughtActs(r: Request, actions: seq<Action>)
    requires Sound(r)
    ensures Spurned(Acts(r, actions)) <==> Spurned(r) || Caught(r, actions)
    decreases |actions|
  {
    if actions != [] {
      SpurnedStep(r, actions[0]);
      ActSound(r, actions[0]);
      CaughtActs(Act(r, actions[0]), actions[1..]);
    }
  }

  /** A private request that has settled was left without an answer exactly if its work item found the cancel
      routine called; with the request marked before the expiry that is exactly if the cancel routine came too
      late to stop the timer. */
  lemma PrivateUnansweredExactly(paths: seq<Path>, steps: seq<Step>, i: nat)
    requires i < |paths| && paths[i] == Private
    requires |Run(Fresh(paths), steps)| == |paths| && Settled(Run(Fresh(paths), steps)[i])
    ensures var r := Run(Fresh(paths), steps)[i];
      && (r.replies == [] <==> Caught(New(Private), Mine(steps, i)))
      && (MarkedFirst(New(Private), Mine(steps, i)) ==> (r.replies == [] <==> r.cancel == Missed))
  {
    PrivateAnsweredUnlessSpared(paths, steps, i);
    NewProjection(paths, steps, i);
    CaughtActs(New(Private), Mine(steps, i));
    RunSound(Fresh(paths), steps);
    SettledMeans(Run(Fresh(paths), steps)[i]);
    if MarkedFirst(New(Private), Mine(steps, i)) {
      MarkedFirstKeepsInTime(New(Private), Mine(steps, i));
    }
  }

  // ----- the runs that go wrong

  /** The steps of a request that is alone. */
  function Alone(actions: seq<Action>): seq<Step> {
    if actions == [] then [] else [Step(0, actions[0])] + Alone(actions[1..])
  }

  lemma {:induction false} AloneIsMine(actions: seq<Action>)
    ensures Mine(Alone(actions), 0) == actions
  {
    if actions != [] {
      AloneIsMine(actions[1..]);
      assert Alone(actions)[1..] == Alone(actions[1..]);
      assert [actions[0]] + actions[1..] == actions;
    }
  }

  lemma AloneActs(path: Path, actions: seq<Action>)
    ensures |Run(Fresh([path]), Alone(actions))| == 1
    ensures Run(Fresh([path]), Alone(actions))[0] == Acts(New(path), actions)
  {
    NewProjection([path], Alone(actions), 0);
    AloneIsMine(actions);
  }

  lemma ActsOne(r: Request, a: Action, rest: seq<Action>)
    ensures Acts(r, [a] + rest) == Acts(Act(r, a), rest)
  {
    assert ([a] + rest)[1..] == rest;
  }

  lemma ActsFour(r: Request, a: Action, b: Action, c: Action, d: Action, rest: seq<Action>)
    ensures Acts(r, [a, b, c, d] + rest) == Acts(Act(Act(Act(Act(r, a), b), c), d), rest)
  {
    ActsOne(r, a, [b] + ([c] + ([d] + rest)));
    ActsOne(Act(r, a), b, [c] + ([d] + rest));
    ActsOne(Act(Act(r, a), b), c, [d] + rest);
    ActsOne(Act(Act(Act(r, a), b), c), d, rest);
    assert [a, b, c, d] + rest == [a] + ([b] + ([c] + ([d] + rest)));
  }

  const SUBMITTED: Action := Submit(4, 4, true, true)

  const UNANSWERED: seq<Action> :=
    [SUBMITTED, Return, Expire, CancelEnter] + ([CancelStep, TimerCallback, WorkStep, WorkStep] + [WorkStep])

  /** Cancelled between the expiry and the work item: nobody answers. */
  lemma UnansweredRun()
    ensures |Run(Fresh([Private]), Alone(UNANSWERED))| == 1
    ensures var r := Run(Fresh([Private]), Alone(UNANSWERED))[0];
      r.timer == Spent && r.work == Over(true) && r.cancel == Missed && r.replies == [] && !r.stale && !r.late
  {
    AloneActs(Private, UNANSWERED);
    var r0 := New(Private);
    var r1 := r0.(submitted := true, returned := true, created := 1, timer := Expired, cancel := Entered);
    ActsFour(r0, SUBMITTED, Return, Expire, CancelEnter, [CancelStep, TimerCallback, WorkStep, WorkStep] + [WorkStep]);
    assert Act(Act(Act(Act(r0, SUBMITTED), Return), Expire), CancelEnter) == r1;
    UnansweredEnd(r1);
  }

  lemma UnansweredEnd(r: Request)
    requires r.path == Private && r.timer == Expired && r.cancel == Entered && r.deleted == 0
    ensures Acts(r, [CancelStep, TimerCallback, WorkStep, WorkStep] + [WorkStep])
      == r.(cancel := Missed, timer := Spent, output := ANSWER, work := Over(true), deleted := 1)
  {
    ActsFour(r, CancelStep, TimerCallback, WorkStep, WorkStep, [WorkStep]);
    var q := r.(cancel := Missed, timer := Spent, work := Queued);
    MissTurns(r);
    SpareTurns(q);
    ActsOne(q.(output := ANSWER, work := Spared), WorkStep, []);
    assert [WorkStep] + [] == [WorkStep];
  }

  lemma MissTurns(r: Request)
    requires r.timer == Expired && r.cancel == Entered && r.deleted == 0
    ensures Act(Act(r, CancelStep), TimerCallback) == r.(cancel := Missed, timer := Spent, work := Queued)
  {
  }

  lemma SpareTurns(w: Request)
    requires w.path == Private && w.work == Queued && w.cancel != Idle
    ensures Act(Act(w, WorkStep), WorkStep) == w.(output := ANSWER, work := Spared)
  {
    assert Act(w, WorkStep) == w.(output := ANSWER, work := Written);
  }

  const LATE: seq<Action> :=
    [SUBMITTED, Expire, TimerCallback, WorkStep] + ([WorkStep, WorkStep, WorkStep, Return] + [])

  /** The timer expires before the request is marked: a completed request is marked cancelable. */
  lemma LateMarkRun()
    ensures |Run(Fresh([Private]), Alone(LATE))| == 1 && Run(Fresh([Private]), Alone(LATE))[0].late
  {
    AloneActs(Private, LATE);
    var r0 := New(Private);
    var r1 := r0.(submitted := true, created := 1, timer := Spent, work := Written, output := ANSWER);
    ActsFour(r0, SUBMITTED, Expire, TimerCallback, WorkStep, [WorkStep, WorkStep, WorkStep, Return] + []);
    ActsFour(r1, WorkStep, WorkStep, WorkStep, Return, []);
  }

  const STALE: seq<Action> :=
    [SUBMITTED, Return, CancelEnter, Expire] + ([TimerCallback, WorkStep, WorkStep, WorkStep] + [CancelStep])

  /** A cancel routine held up until the work item is through stops a deleted timer, on either path. */
  lemma StaleTimerRun(path: Path)
    ensures |Run(Fresh([path]), Alone(STALE))| == 1 && Run(Fresh([path]), Alone(STALE))[0].stale
  {
    AloneActs(path, STALE);
    var r0 := New(path);
    var r1 := r0.(submitted := true, returned := true, created := 1, timer := Expired, cancel := Entered);
    assert Act(Act(Act(Act(r0, SUBMITTED), Return), CancelEnter), Expire) == r1;
    ActsFour(r0, SUBMITTED, Return, CancelEnter, Expire, [TimerCallback, WorkStep, WorkStep, WorkStep] + [CancelStep]);
    StaleEnd(r1);
  }

  lemma StaleEnd(r: Request)
    requires r.timer == Expired && r.cancel == Entered && r.deleted == 0
    ensures Acts(r, [TimerCallback, WorkStep, WorkStep, WorkStep] + [CancelStep]).stale
  {
    var w := r.(timer := Spent, work := Written, output := ANSWER);
    assert Act(Act(r, TimerCallback), WorkStep) == w;
    ActsFour(r, TimerCallback, WorkStep, WorkStep, WorkStep, [CancelStep]);
    WorkItemOver(w);
    ActsOne(Act(Act(w, WorkStep), WorkStep), CancelStep, []);
    assert [CancelStep] + [] == [CancelStep];
  }

  lemma WorkItemOver(w: Request)
    requires w.work == Written && w.cancel == Entered && w.deleted == 0
    ensures var d := Act(Act(w, WorkStep), WorkStep);
      d.deleted == 1 && d.work.Over? && d.cancel == Entered
  {
    var a := Act(w, WorkStep);
    assert a.work == (if w.path == Service then Answered else Spared) && a.deleted == 0 && a.cancel == Entered;
  }
}
