/** The USB headset's start and suspend calls in their own form: two records of pointers changed in place. */
module TransportDevice {
  import opened Transport

  /** The seven pointers of one endpoint and its counters. */
  class Record {
    const feedback: bool
    var fields: seq<Address>
    var streams: int
    var running: int

    ghost function View(): Endpoint
      reads this
    {
      Endpoint(feedback, streams, running, fields)
    }

    constructor (feedback: bool)
      ensures View() == Endpoint(feedback, 0, 0, NOTHING)
    {
      this.feedback := feedback;
      streams, running, fields := 0, 0, NOTHING;
    }
  }

  class Device {
    var pool: Pool
    const speaker: Record
    const mic: Record

    ghost function View(): State
      reads this, speaker, mic
    {
      State(pool, speaker.View(), mic.View())
    }

    ghost predicate Separate()
    {
      speaker != mic
    }

    constructor (speakerFeedback: bool, micFeedback: bool)
      ensures Separate() && View() == Initial(speakerFeedback, micFeedback) && Inv(View())
    {
      pool := Pool(map[], 1, false);
      speaker := new Record(speakerFeedback);
      mic := new Record(micFeedback);
      new;
      InitialInv(speakerFeedback, micFeedback);
    }

    method Allocate(tag: Tag) returns (p: Address)
      modifies `pool
      ensures p == old(pool.next) && pool == old(pool).(live := old(pool.live)[p := tag], next := p + 1)
    {
      p := pool.next;
      pool := pool.(live := pool.live[p := tag], next := p + 1);
    }

    method FreeWithTag(p: Address, tag: Tag)
      modifies `pool
      ensures pool == Free(old(pool), p, tag)
    {
      if p in pool.live && pool.live[p] == tag {
        pool := pool.(live := pool.live - {p});
      } else {
        pool := pool.(fault := true);
      }
    }

    method GetSiop(tag: Tag, a: Siop) returns (ok: bool, output: Address)
      requires pool.next > 0
      modifies `pool
      ensures ok <==> Delivers(a)
      ensures ok <==> a.created && a.tooSmall && 0 < a.information <= ULONG_MAX && a.room && a.reused && a.fetched
      ensures output == SiopAddress(old(pool), a) && pool == SiopPool(old(pool), tag, a)
      ensures ok ==> output != 0 && output in pool.live && pool.live[output] == tag
      ensures !ok ==> output == 0
      ensures !ok && old(pool).next !in old(pool).live ==> pool.live == old(pool).live && pool.fault == old(pool).fault
    {
      output := 0;
      if !a.created || !a.tooSmall || a.information == 0 || a.information > ULONG_MAX {
        return false, 0;
      }
      var block := 0;
      if a.room {
        block := Allocate(tag);
      }
      ok := a.room && a.reused && a.fetched;
      if ok {
        output := block;
      } else if block != 0 {
        FreeWithTag(block, tag);
      }
    }

    method FetchField(r: Record, i: nat, answers: Answers) returns (ok: bool)
      requires i < FIELDS == |r.fields| && pool.next > 0
      modifies `pool, r`fields
      ensures ok <==> Delivers(AnswerAt(answers, i))
      ensures pool == SiopPool(old(pool), FieldTag(i), AnswerAt(answers, i)) && pool.next > 0
      ensures r.fields == old(r.fields)[i := SiopAddress(old(pool), AnswerAt(answers, i))]
    {
      var p;
      ok, p := GetSiop(FieldTag(i), AnswerAt(answers, i));
      r.fields := r.fields[i := p];
    }

    method FreeField(r: Record, i: nat)
      requires i < |r.fields|
      modifies `pool, r`fields
      ensures pool == if old(r.fields)[i] != 0 then Free(old(pool), old(r.fields)[i], FieldTag(i)) else old(pool)
      ensures r.fields == old(r.fields)[i := 0]
    {
      if r.fields[i] != 0 {
        FreeWithTag(r.fields[i], FieldTag(i));
        r.fields := r.fields[i := 0];
      }
    }

    method FreeDataFields(r: Record)
      requires |r.fields| == FIELDS
      modifies `pool, r`fields
      ensures Release(pool, old(r.fields), 4) == Release(old(pool), old(r.fields), 0)
      ensures r.fields == [0, 0, 0, 0] + old(r.fields)[4..]
    {
      ghost var before, start := r.fields, pool;
      FreeField(r, 0);
      assert Release(pool, before, 1) == Release(start, before, 0);
      FreeField(r, 1);
      assert Release(pool, before, 2) == Release(start, before, 0);
      FreeField(r, 2);
      assert Release(pool, before, 3) == Release(start, before, 0);
      FreeField(r, 3);
      assert Release(pool, before, 4) == Release(start, before, 0);
    }

    method FreeSyncFields(r: Record, ghost before: seq<Address>)
      requires |before| == FIELDS && r.fields == [0, 0, 0, 0] + before[4..]
      modifies `pool, r`fields
      ensures pool == Release(old(pool), before, 4) && r.fields == NOTHING
    {
      ghost var start := pool;
      FreeField(r, 4);
      assert Release(pool, before, 5) == Release(start, before, 4);
      FreeField(r, 5);
      assert Release(pool, before, 6) == Release(start, before, 4);
      FreeField(r, 6);
      assert Release(pool, before, 7) == Release(start, before, 4);
    }

    method FreeTransportResources(r: Record)
      requires |r.fields| == FIELDS
      modifies `pool, r`fields
      ensures pool == Release(old(pool), old(r.fields), 0) && r.fields == NOTHING
    {
      ghost var before := r.fields;
      FreeDataFields(r);
      FreeSyncFields(r, before);
    }

    /** The first four fields. */
    method FetchDataFields(r: Record, answers: Answers) returns (ok: bool)
      requires |r.fields| == FIELDS && pool.next > 0
      modifies `pool, r`fields
      ensures Held(pool, r.fields, ok) == Acquire(old(pool), old(r.fields), 0, 4, answers) && pool.next > 0
    {
      ghost var goal := Acquire(pool, r.fields, 0, 4, answers);
      ok := FetchField(r, 0, answers);
      if !ok {
        return;
      }
      assert Acquire(pool, r.fields, 1, 4, answers) == goal;
      ok := FetchField(r, 1, answers);
      if !ok {
        return;
      }
      assert Acquire(pool, r.fields, 2, 4, answers) == goal;
      ok := FetchField(r, 2, answers);
      if !ok {
        return;
      }
      assert Acquire(pool, r.fields, 3, 4, answers) == goal;
      ok := FetchField(r, 3, answers);
    }

    /** The sync fields, of an endpoint with feedback. */
    method FetchSyncFields(r: Record, answers: Answers) returns (ok: bool)
      requires |r.fields| == FIELDS && pool.next > 0
      modifies `pool, r`fields
      ensures Held(pool, r.fields, ok) == Acquire(old(pool), old(r.fields), 4, FIELDS, answers) && pool.next > 0
    {
      ghost var goal := Acquire(pool, r.fields, 4, FIELDS, answers);
      ok := FetchField(r, 4, answers);
      if !ok {
        return;
      }
      assert Acquire(pool, r.fields, 5, FIELDS, answers) == goal;
      ok := FetchField(r, 5, answers);
      if !ok {
        return;
      }
      assert Acquire(pool, r.fields, 6, FIELDS, answers) == goal;
      ok := FetchField(r, 6, answers);
    }

    method GetTransportResources(r: Record, answers: Answers) returns (ok: bool)
      requires |r.fields| == FIELDS && pool.next > 0
      modifies `pool, r`fields
      ensures Held(pool, r.fields, ok) == Transport.GetTransportResources(old(pool), old(r.View()), answers)
    {
      AcquireSplits(pool, r.fields, 0, answers);
      ok := FetchDataFields(r, answers);
      if ok && r.feedback {
        ok := FetchSyncFields(r, answers);
      }
      if !ok {
        FreeTransportResources(r);
      }
    }

    method StreamStart(r: Record, answers: Answers) returns (ok: bool)
      requires |r.fields| == FIELDS && pool.next > 0 && r.streams >= 0
      modifies `pool, r
      ensures Result(pool, r.View(), ok) == Transport.StreamStart(old(pool), old(r.View()), answers)
    {
      ok := true;
      r.streams := r.streams + 1;
      if r.streams == 1 {
        var streamStart := false;
        ok := answers.configured && answers.started;
        if ok {
          streamStart := true;
          r.running := r.running + 1;
          ok := GetTransportResources(r, answers);
        }
        if !ok {
          r.streams := r.streams - 1;
          if streamStart {
            r.running := r.running - 1;
          }
        }
      }
    }

    method StreamSuspend(r: Record)
      requires |r.fields| == FIELDS && r.streams > 0
      modifies `pool, r
      ensures Result(pool, r.View(), true) == Transport.StreamSuspend(old(pool), old(r.View()))
    {
      r.streams := r.streams - 1;
      if r.streams == 0 {
        r.running := r.running - 1;
        FreeTransportResources(r);
      }
    }

    method Step(step: Transport.Step)
      requires Separate() && Inv(View())
      requires step.Suspend? ==> (if step.which == Speaker then speaker.streams else mic.streams) > 0
      modifies this, speaker, mic
      ensures View() == Apply(old(View()), step) && Inv(View())
    {
      StepInv(View(), step);
      match step
      case Start(which, answers) =>
        var _ := StreamStart(if which == Speaker then speaker else mic, answers);
      case Suspend(which) =>
        StreamSuspend(if which == Speaker then speaker else mic);
    }

    /** The destructor. */
    method Destroy()
      requires Separate() && Inv(View())
      modifies this, speaker, mic
      ensures pool.live == map[] && !pool.fault
    {
      ReleaseBoth(View());
      FreeTransportResources(speaker);
      FreeTransportResources(mic);
    }
  }

  /** Fetching up to the end is fetching the first four and, if all came, the rest. */
  lemma {:induction false} AcquireSplits(pool: Pool, fields: seq<Address>, i: nat, answers: Answers)
    requires i <= 4 && |fields| == FIELDS
    ensures var h := Acquire(pool, fields, i, 4, answers);
      Acquire(pool, fields, i, FIELDS, answers) == if h.ok then Acquire(h.pool, h.fields, 4, FIELDS, answers) else h
    decreases 4 - i
  {
    if i < 4 {
      var a := AnswerAt(answers, i);
      if Delivers(a) {
        AcquireSplits(SiopPool(pool, FieldTag(i), a), fields[i := SiopAddress(pool, a)], i + 1, answers);
      }
    }
  }
}
