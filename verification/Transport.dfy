/**
 The transport resources of the USB headset's two endpoints: up to seven pool blocks each, fetched when the first stream
 of an endpoint starts, all or nothing, and freed when the last one is suspended.
 */
module Transport {
  import opened Counting

  type Address = nat    // 0 for none

  /** Block tags; the field with index `i` is allocated and freed with tag 7 + i. */
  type Tag = nat

  const FIELDS: nat := 7
  const ULONG_MAX: nat := 0xFFFF_FFFF

  function FieldTag(i: nat): Tag {
    7 + i
  }

  // fault: a block freed twice or under another tag
  datatype Pool = Pool(live: map<Address, Tag>, next: Address, fault: bool)

  /** One endpoint.  `running` is the number of start calls the driver has accepted and not seen suspended. */
  datatype Endpoint = Endpoint(feedback: bool, streams: int, running: int, fields: seq<Address>)

  datatype Which = Speaker | Mic

  datatype State = State(pool: Pool, speaker: Endpoint, mic: Endpoint)

  /** What the platform answers to one GetSiop: creating the request, the size query, the allocation, the
      reuse, the fetch. */
  datatype Siop = Siop(created: bool, tooSmall: bool, information: nat, room: bool, reused: bool, fetched: bool)

  datatype Answers = Answers(configured: bool, started: bool, siops: seq<Siop>)

  datatype Step = Start(which: Which, answers: Answers) | Suspend(which: Which)

  const NOTHING: seq<Address> := [0, 0, 0, 0, 0, 0, 0]

  function Initial(speakerFeedback: bool, micFeedback: bool): State {
    State(Pool(map[], 1, false), Endpoint(speakerFeedback, 0, 0, NOTHING), Endpoint(micFeedback, 0, 0, NOTHING))
  }

  // ----- the pool

  function Free(pool: Pool, p: Address, tag: Tag): Pool {
    if p in pool.live && pool.live[p] == tag then pool.(live := pool.live - {p}) else pool.(fault := true)
  }

  predicate Reaches(a: Siop) {
    a.created && a.tooSmall && 0 < a.information <= ULONG_MAX && a.room
  }

  predicate Delivers(a: Siop) {
    Reaches(a) && a.reused && a.fetched
  }

  /** The pool after GetSiop: a block that cannot be filled is freed again. */
  function SiopPool(pool: Pool, tag: Tag, a: Siop): Pool {
    if !Reaches(a) then pool
    else
      var taken := pool.(live := pool.live[pool.next := tag], next := pool.next + 1);
      if Delivers(a) then taken else Free(taken, pool.next, tag)
  }

  function SiopAddress(pool: Pool, a: Siop): Address {
    if Delivers(a) then pool.next else 0
  }

  function AnswerAt(answers: Answers, i: nat): Siop {
    if i < |answers.siops| then answers.siops[i] else Siop(false, false, 0, false, false, false)
  }

  // ----- an endpoint

  function Wanted(feedback: bool): nat {
    if feedback then FIELDS else 4
  }

  datatype Held = Held(pool: Pool, fields: seq<Address>, ok: bool)

  /** The requests from field `i` up to `n`, stopping at the first refusal. */
  function Acquire(pool: Pool, fields: seq<Address>, i: nat, n: nat, answers: Answers): (h: Held)
    requires i <= n <= FIELDS == |fields|
    ensures |h.fields| == FIELDS
    decreases n - i
  {
    if i == n then Held(pool, fields, true)
    else
      var a := AnswerAt(answers, i);
      var taken := SiopPool(pool, FieldTag(i), a);
      var stored := fields[i := SiopAddress(pool, a)];
      if Delivers(a) then Acquire(taken, stored, i + 1, n, answers) else Held(taken, stored, false)
  }

  /** Frees the non-null fields from `i` on. */
  function Release(pool: Pool, fields: seq<Address>, i: nat): Pool
    requires i <= FIELDS == |fields|
    decreases FIELDS - i
  {
    if i == FIELDS then pool
    else Release(if fields[i] != 0 then Free(pool, fields[i], FieldTag(i)) else pool, fields, i + 1)
  }

  function GetTransportResources(pool: Pool, e: Endpoint, answers: Answers): Held
    requires |e.fields| == FIELDS
  {
    var h := Acquire(pool, e.fields, 0, Wanted(e.feedback), answers);
    if h.ok then h else Held(Release(h.pool, h.fields, 0), NOTHING, false)
  }

  datatype Result = Result(pool: Pool, endpoint: Endpoint, ok: bool)

  function StreamStart(pool: Pool, e: Endpoint, answers: Answers): Result
    requires |e.fields| == FIELDS
  {
    if e.streams + 1 != 1 then Result(pool, e.(streams := e.streams + 1), true)
    else if !answers.configured || !answers.started then Result(pool, e, false)
    else
      var h := GetTransportResources(pool, e, answers);
      if h.ok then Result(h.pool, e.(streams := e.streams + 1, running := e.running + 1, fields := h.fields), true)
      else Result(h.pool, e.(fields := h.fields), false)
  }

  function StreamSuspend(pool: Pool, e: Endpoint): Result
    requires |e.fields| == FIELDS
  {
    if e.streams <= 0 then Result(pool, e, false)
    else if e.streams - 1 != 0 then Result(pool, e.(streams := e.streams - 1), true)
    else Result(Release(pool, e.fields, 0), e.(streams := 0, running := e.running - 1, fields := NOTHING), true)
  }

  predicate Sized(s: State) {
    |s.speaker.fields| == FIELDS && |s.mic.fields| == FIELDS
  }

  function Apply(s: State, step: Step): State {
    if !Sized(s) then s
    else match step
      case Start(Speaker, answers) =>
        var r := StreamStart(s.pool, s.speaker, answers);
        s.(pool := r.pool, speaker := r.endpoint)
      case Start(Mic, answers) => var r := StreamStart(s.pool, s.mic, answers); s.(pool := r.pool, mic := r.endpoint)
      case Suspend(Speaker) => var r := StreamSuspend(s.pool, s.speaker); s.(pool := r.pool, speaker := r.endpoint)
      case Suspend(Mic) => var r := StreamSuspend(s.pool, s.mic); s.(pool := r.pool, mic := r.endpoint)
  }

  function Run(s: State, steps: seq<Step>): State
    decreases |steps|
  {
    if steps == [] then s else Run(Apply(s, steps[0]), steps[1..])
  }

  // ----- ownership

  lemma {:induction false} CountNone(fields: seq<Address>, p: Address)
    requires forall i :: 0 <= i < |fields| ==> fields[i] != p
    ensures Count(fields, p) == 0
  {
    if fields != [] {
      CountNone(fields[1..], p);
    }
  }

  /** Each live block belongs to exactly one field, which carries its tag, and no field dangles.
      `rest` counts the fields of the other endpoint. */
  ghost predicate Owned(pool: Pool, fields: seq<Address>, other: seq<Address>) {
    && !pool.fault && pool.next > 0
    && (forall p: Address :: p in pool.live ==> 0 < p < pool.next)
    && (forall p: Address :: p > 0 ==> Count(fields, p) + Count(other, p) == if p in pool.live then 1 else 0)
    && Tagged(pool, fields) && Tagged(pool, other)
  }

  ghost predicate Tagged(pool: Pool, fields: seq<Address>) {
    forall i: nat :: i < |fields| && fields[i] != 0 ==> fields[i] in pool.live && pool.live[fields[i]] == FieldTag(i)
  }

  lemma UsedOnce(fields: seq<Address>, i: nat, j: nat)
    requires i < |fields| && j < |fields| && i != j && fields[i] == fields[j]
    ensures Count(fields, fields[i]) > 1
  {
    CountUpdate(fields, i, fields[i] + 1, fields[i]);
    CountIsMembership(fields[i := fields[i] + 1], fields[j]);
  }

  lemma UsedInBoth(fields: seq<Address>, other: seq<Address>, i: nat, j: nat)
    requires i < |fields| && j < |other| && fields[i] == other[j]
    ensures Count(fields, fields[i]) + Count(other, fields[i]) > 1
  {
    CountIsMembership(fields, fields[i]);
    CountIsMembership(other, other[j]);
  }

  lemma OwnedSwap(pool: Pool, fields: seq<Address>, other: seq<Address>)
    requires Owned(pool, fields, other)
    ensures Owned(pool, other, fields)
  {
  }

  lemma FetchOwned(pool: Pool, fields: seq<Address>, other: seq<Address>, i: nat, a: Siop)
    requires i < |fields| && fields[i] == 0 && Owned(pool, fields, other)
    ensures Owned(SiopPool(pool, FieldTag(i), a), fields[i := SiopAddress(pool, a)], other)
    ensures !Delivers(a) ==> SiopPool(pool, FieldTag(i), a).live == pool.live && SiopAddress(pool, a) == 0
  {
    forall p: Address {
      CountUpdate(fields, i, SiopAddress(pool, a), p);
    }
    if !Delivers(a) && Reaches(a) {
      assert pool.next !in pool.live;
      assert pool.live[pool.next := FieldTag(i)] - {pool.next} == pool.live;
    }
  }

  lemma FreeOwned(pool: Pool, fields: seq<Address>, other: seq<Address>, i: nat)
    requires i < |fields| && fields[i] != 0 && Owned(pool, fields, other)
    ensures Owned(Free(pool, fields[i], FieldTag(i)), fields[i := 0], other)
  {
    forall p: Address {
      CountUpdate(fields, i, 0, p);
    }
    var freed := Free(pool, fields[i], FieldTag(i));
    forall j: nat | j < |fields| && fields[i := 0][j] != 0
      ensures fields[i := 0][j] in freed.live && freed.live[fields[i := 0][j]] == FieldTag(j)
    {
      if fields[j] == fields[i] {
        UsedOnce(fields, i, j);
      }
    }
    forall j: nat | j < |other| && other[j] != 0
      ensures other[j] in freed.live && freed.live[other[j]] == FieldTag(j)
    {
      if other[j] == fields[i] {
        UsedInBoth(fields, other, i, j);
      }
    }
  }

  lemma {:induction false} AcquireOwned(pool: Pool, fields: seq<Address>, other: seq<Address>,
                                        i: nat, n: nat, answers: Answers)
    requires i <= n <= FIELDS == |fields| && Owned(pool, fields, other)
    requires forall j :: i <= j < FIELDS ==> fields[j] == 0
    ensures var h := Acquire(pool, fields, i, n, answers); Owned(h.pool, h.fields, other)
    decreases n - i
  {
    if i < n {
      var a := AnswerAt(answers, i);
      FetchOwned(pool, fields, other, i, a);
      if Delivers(a) {
        AcquireOwned(SiopPool(pool, FieldTag(i), a), fields[i := SiopAddress(pool, a)], other, i + 1, n, answers);
      }
    }
  }

  lemma {:induction false} AcquireFills(pool: Pool, fields: seq<Address>, i: nat, n: nat, answers: Answers)
    requires i <= n <= FIELDS == |fields| && pool.next > 0
    ensures var h := Acquire(pool, fields, i, n, answers);
      && (forall j :: 0 <= j < FIELDS && !(i <= j < n) ==> h.fields[j] == fields[j])
      && (h.ok ==> forall j :: i <= j < n ==> h.fields[j] != 0)
      && (h.ok <==> forall j :: i <= j < n ==> Delivers(AnswerAt(answers, j)))
    decreases n - i
  {
    if i < n {
      var a := AnswerAt(answers, i);
      if Delivers(a) {
        AcquireFills(SiopPool(pool, FieldTag(i), a), fields[i := SiopAddress(pool, a)], i + 1, n, answers);
      }
    }
  }

  lemma {:induction false} ReleaseOwned(pool: Pool, fields: seq<Address>, other: seq<Address>, i: nat)
    requires i <= FIELDS == |fields| && Owned(pool, Cleared(fields, i), other)
    ensures Owned(Release(pool, fields, i), NOTHING, other)
    decreases FIELDS - i
  {
    if i == FIELDS {
      assert Cleared(fields, i) == NOTHING;
    } else if fields[i] != 0 {
      FreeOwned(pool, Cleared(fields, i), other, i);
      assert Cleared(fields, i)[i := 0] == Cleared(fields, i + 1);
      ReleaseOwned(Free(pool, fields[i], FieldTag(i)), fields, other, i + 1);
    } else {
      assert Cleared(fields, i) == Cleared(fields, i + 1);
      ReleaseOwned(pool, fields, other, i + 1);
    }
  }

  function Cleared(fields: seq<Address>, i: nat): seq<Address>
    requires |fields| == FIELDS
  {
    seq(FIELDS, j requires 0 <= j < FIELDS => if j < i then 0 else fields[j])
  }

  lemma ReleaseAll(pool: Pool, fields: seq<Address>, other: seq<Address>)
    requires |fields| == FIELDS && Owned(pool, fields, other)
    ensures Owned(Release(pool, fields, 0), NOTHING, other)
  {
    assert Cleared(fields, 0) == fields;
    ReleaseOwned(pool, fields, other, 0);
  }

  /** The live blocks are determined by the fields, so equal ownership means equal live pointers. */
  lemma SameLive(a: Pool, b: Pool, fields: seq<Address>, other: seq<Address>)
    requires Owned(a, fields, other) && Owned(b, fields, other)
    ensures a.live == b.live
  {
    forall p: Address
      ensures p in a.live <==> p in b.live
      ensures p in a.live ==> a.live[p] == b.live[p]
    {
      if p in a.live || p in b.live {
        assert p > 0;
        assert Count(fields, p) + Count(other, p) == 1;
        if Count(fields, p) > 0 {
          var i := WhereUsed(fields, p);
          assert fields[i] in a.live && fields[i] in b.live;
        } else {
          var i := WhereUsed(other, p);
          assert other[i] in a.live && other[i] in b.live;
        }
      }
    }
  }

  lemma {:induction false} WhereUsed(fields: seq<Address>, p: Address) returns (i: nat)
    requires Count(fields, p) > 0
    ensures i < |fields| && fields[i] == p
  {
    if fields[0] == p {
      i := 0;
    } else {
      var k := WhereUsed(fields[1..], p);
      i := k + 1;
    }
  }

  // ----- whole runs

  /** What an endpoint holds is decided by whether it is started and has feedback. */
  predicate Shape(e: Endpoint) {
    && |e.fields| == FIELDS && e.streams >= 0
    && e.running == (if e.streams > 0 then 1 else 0)
    && (e.streams == 0 ==> e.fields == NOTHING)
    && (e.streams > 0 ==> forall i :: 0 <= i < FIELDS ==> (e.fields[i] != 0 <==> i < Wanted(e.feedback)))
  }

  ghost predicate Inv(s: State) {
    Shape(s.speaker) && Shape(s.mic) && Owned(s.pool, s.speaker.fields, s.mic.fields)
  }

  /** A start succeeds exactly if the endpoint is started already or the platform delivers everything; if it fails, the
      endpoint and the live blocks are what they were. */
  lemma StartAllOrNothing(pool: Pool, e: Endpoint, other: seq<Address>, answers: Answers)
    requires Shape(e) && Owned(pool, e.fields, other)
    ensures var r := StreamStart(pool, e, answers);
      && Shape(r.endpoint) && Owned(r.pool, r.endpoint.fields, other)
      && r.endpoint.feedback == e.feedback
      && (r.ok <==> (e.streams > 0 || (answers.configured && answers.started && (
            forall i :: 0 <= i < FIELDS && (i < 4 || e.feedback) ==> Delivers(AnswerAt(answers, i))))))
      && (r.ok ==> r.endpoint.streams == e.streams + 1)
      && (!r.ok ==> r.endpoint == e && r.pool.live == pool.live)
      && (e.streams > 0 ==> r.pool == pool)
  {
    if e.streams == 0 && answers.configured && answers.started {
      var h := Acquire(pool, e.fields, 0, Wanted(e.feedback), answers);
      AcquireOwned(pool, e.fields, other, 0, Wanted(e.feedback), answers);
      AcquireFills(pool, e.fields, 0, Wanted(e.feedback), answers);
      if !h.ok {
        ReleaseAll(h.pool, h.fields, other);
        SameLive(Release(h.pool, h.fields, 0), pool, NOTHING, other);
      }
    }
  }

  lemma SuspendFrees(pool: Pool, e: Endpoint, other: seq<Address>)
    requires Shape(e) && Owned(pool, e.fields, other)
    ensures var r := StreamSuspend(pool, e);
      && Shape(r.endpoint) && Owned(r.pool, r.endpoint.fields, other)
      && r.endpoint.feedback == e.feedback
      && (r.ok <==> e.streams > 0)
      && (r.ok ==> r.endpoint.streams == e.streams - 1)
      && (e.streams != 1 ==> r.pool == pool)
  {
    if e.streams == 1 {
      ReleaseAll(pool, e.fields, other);
    }
  }

  /** Starting a stream and suspending it leaves the live blocks and the endpoint as they were. */
  lemma StartThenSuspend(pool: Pool, e: Endpoint, other: seq<Address>, answers: Answers)
    requires Shape(e) && Owned(pool, e.fields, other) && StreamStart(pool, e, answers).ok
    ensures var r := StreamStart(pool, e, answers);
      |r.endpoint.fields| == FIELDS &&
      var t := StreamSuspend(r.pool, r.endpoint);
      t.ok && t.endpoint == e && t.pool.live == pool.live && !t.pool.fault
  {
    var r := StreamStart(pool, e, answers);
    StartAllOrNothing(pool, e, other, answers);
    SuspendFrees(r.pool, r.endpoint, other);
    SameLive(StreamSuspend(r.pool, r.endpoint).pool, pool, e.fields, other);
  }

  lemma StepInv(s: State, step: Step)
    requires Inv(s)
    ensures Inv(Apply(s, step))
    ensures Apply(s, step).speaker.feedback == s.speaker.feedback && Apply(s, step).mic.feedback == s.mic.feedback
  {
    OwnedSwap(s.pool, s.speaker.fields, s.mic.fields);
    var t := Apply(s, step);
    match step
    case Start(Speaker, answers) => StartAllOrNothing(s.pool, s.speaker, s.mic.fields, answers);
    case Start(Mic, answers) =>
      StartAllOrNothing(s.pool, s.mic, s.speaker.fields, answers);
      OwnedSwap(t.pool, t.mic.fields, t.speaker.fields);
    case Suspend(Speaker) => SuspendFrees(s.pool, s.speaker, s.mic.fields);
    case Suspend(Mic) =>
      SuspendFrees(s.pool, s.mic, s.speaker.fields);
      OwnedSwap(t.pool, t.mic.fields, t.speaker.fields);
  }

  lemma {:induction false} RunInv(s: State, steps: seq<Step>)
    requires Inv(s)
    ensures Inv(Run(s, steps))
    ensures Run(s, steps).speaker.feedback == s.speaker.feedback && Run(s, steps).mic.feedback == s.mic.feedback
    decreases |steps|
  {
    if steps != [] {
      StepInv(s, steps[0]);
      RunInv(Apply(s, steps[0]), steps[1..]);
    }
  }

  lemma InitialInv(speakerFeedback: bool, micFeedback: bool)
    ensures Inv(Initial(speakerFeedback, micFeedback))
  {
    forall p: Address | p > 0 {
      CountNone(NOTHING, p);
    }
  }

  /** Over every run: the live blocks are exactly the non-null fields, each held once and under its own tag; nothing was
      freed twice or under another tag; an endpoint that is not started holds nothing, one that is holds the first four
      fields, and the three sync fields exactly if it has feedback. */
  lemma Conservation(speakerFeedback: bool, micFeedback: bool, steps: seq<Step>, p: Address, i: nat)
    requires p > 0 && i < FIELDS
    ensures var s := Run(Initial(speakerFeedback, micFeedback), steps);
      && !s.pool.fault && Sized(s)
      && Count(s.speaker.fields, p) + Count(s.mic.fields, p) == (if p in s.pool.live then 1 else 0)
      && (s.speaker.fields[i] != 0 <==> s.speaker.streams > 0 && (i < 4 || speakerFeedback))
      && (s.mic.fields[i] != 0 <==> s.mic.streams > 0 && (i < 4 || micFeedback))
      && (s.speaker.fields[i] != 0 ==>
            s.speaker.fields[i] in s.pool.live && s.pool.live[s.speaker.fields[i]] == 7 + i)
      && (s.mic.fields[i] != 0 ==> s.mic.fields[i] in s.pool.live && s.pool.live[s.mic.fields[i]] == 7 + i)
  {
    InitialInv(speakerFeedback, micFeedback);
    RunInv(Initial(speakerFeedback, micFeedback), steps);
  }

  /** The driver runs a stream of an endpoint exactly while one is counted. */
  lemma DriverFollowsCount(speakerFeedback: bool, micFeedback: bool, steps: seq<Step>)
    ensures var s := Run(Initial(speakerFeedback, micFeedback), steps);
      && s.speaker.running == (if s.speaker.streams > 0 then 1 else 0)
      && s.mic.running == (if s.mic.streams > 0 then 1 else 0)
  {
    InitialInv(speakerFeedback, micFeedback);
    RunInv(Initial(speakerFeedback, micFeedback), steps);
  }

  /** The destructor frees both records, whatever is still started; no block is left. */
  lemma ReleaseBoth(s: State)
    requires Inv(s)
    ensures var pool := Release(Release(s.pool, s.speaker.fields, 0), s.mic.fields, 0);
      pool.live == map[] && !pool.fault
  {
    ReleaseAll(s.pool, s.speaker.fields, s.mic.fields);
    var pool := Release(s.pool, s.speaker.fields, 0);
    OwnedSwap(pool, NOTHING, s.mic.fields);
    ReleaseAll(pool, s.mic.fields, NOTHING);
    InitialInv(false, false);
    SameLive(Release(pool, s.mic.fields, 0), Initial(false, false).pool, NOTHING, NOTHING);
  }

  lemma DestructorLeaksNothing(speakerFeedback: bool, micFeedback: bool, steps: seq<Step>)
    ensures var s := Run(Initial(speakerFeedback, micFeedback), steps);
      Sized(s) &&
      var pool := Release(Release(s.pool, s.speaker.fields, 0), s.mic.fields, 0);
      pool.live == map[] && !pool.fault
  {
    InitialInv(speakerFeedback, micFeedback);
    RunInv(Initial(speakerFeedback, micFeedback), steps);
    ReleaseBoth(Run(Initial(speakerFeedback, micFeedback), steps));
  }

  // ----- the A2DP start counter

  datatype Counted = Counted(streams: int, running: int)

  /** The A2DP device counts a start before it asks the driver and does not take the count back. */
  function A2dpStart(c: Counted, ok: bool): Counted {
    Counted(c.streams + 1, if c.streams + 1 == 1 && ok then c.running + 1 else c.running)
  }

  function A2dpSuspend(c: Counted): Counted
    requires c.streams > 0
  {
    Counted(c.streams - 1, if c.streams - 1 == 0 then c.running - 1 else c.running)
  }

  predicate Matched(c: Counted) {
    c.streams >= 0 && c.running == if c.streams > 0 then 1 else 0
  }

  /** A start keeps the driver and the counter in step exactly if the driver was running or accepts. */
  lemma A2dpStartKeepsStepExactly(c: Counted, ok: bool)
    requires Matched(c)
    ensures Matched(A2dpStart(c, ok)) <==> c.streams > 0 || ok
    ensures A2dpSuspend(A2dpStart(c, ok)) == c <==> c.streams > 0 || ok
  {
  }

  datatype A2dpCall = Starting(ok: bool) | Suspending

  /** The source asserts that a stream is counted when one is suspended. */
  function A2dpApply(c: Counted, call: A2dpCall): Counted {
    match call
    case Starting(ok) => A2dpStart(c, ok)
    case Suspending => if c.streams > 0 then A2dpSuspend(c) else c
  }

  function A2dpRun(c: Counted, calls: seq<A2dpCall>): Counted
    decreases |calls|
  {
    if calls == [] then c else A2dpRun(A2dpApply(c, calls[0]), calls[1..])
  }

  /** How many first starts of a run the driver refuses. */
  function Refused(c: Counted, calls: seq<A2dpCall>): nat
    decreases |calls|
  {
    if calls == [] then 0
    else (if calls[0] == Starting(false) && c.streams == 0 then 1 else 0) + Refused(A2dpApply(c, calls[0]), calls[1..])
  }

  lemma {:induction false} A2dpDrift(c: Counted, calls: seq<A2dpCall>)
    requires c.streams >= 0
    ensures var t := A2dpRun(c, calls);
      && t.streams >= 0
      && t.running - (if t.streams > 0 then 1 else 0)
         == c.running - (if c.streams > 0 then 1 else 0) - Refused(c, calls)
    decreases |calls|
  {
    if calls != [] {
      A2dpDrift(A2dpApply(c, calls[0]), calls[1..]);
    }
  }

  /** Over every run the driver has seen one suspend too many for every first start it refused; counter and
      driver are in step exactly if it refused none. */
  lemma A2dpInStepExactly(calls: seq<A2dpCall>)
    ensures var c := A2dpRun(Counted(0, 0), calls);
      && c.running == (if c.streams > 0 then 1 else 0) - Refused(Counted(0, 0), calls)
      && (Matched(c) <==> Refused(Counted(0, 0), calls) == 0)
  {
    A2dpDrift(Counted(0, 0), calls);
  }
}
