/** The notification routines in their own form: request contexts and a collection changed in place. */
module NotificationDevice {
  import opened Counting
  import opened Notifications

  /** One undisturbed callback of the work item: turns until the collection is empty or a turn leaves the loop.
      `outcomes` is what the platform answers to the successive reuse-and-send attempts. */
  function Drain(s: State, outcomes: seq<Outcome>): State
    decreases |s.collection|
  {
    if s.polling == 0 || s.collection == [] || outcomes == [] || s.collection[0] >= |s.contexts| then Polled(s)
    else
      var t := Finished(Polled(s), s.collection[0], outcomes[0]);
      if t.polling < s.polling then t else Drain(t, outcomes[1..])
  }

  /** How many of the queued requests the callback takes before it leaves the loop. */
  function Handled(s: State, outcomes: seq<Outcome>): nat
    decreases |s.collection|
  {
    if s.polling == 0 || s.collection == [] || outcomes == [] || s.collection[0] >= |s.contexts| then 0
    else
      var t := Finished(Polled(s), s.collection[0], outcomes[0]);
      if t.polling < s.polling then 1 else 1 + Handled(t, outcomes[1..])
  }

  lemma HeadTurn(s: State, outcome: Outcome)
    requires Inv(s) && s.polling > 0 && s.collection != []
    ensures var r := s.collection[0]; var t := Finished(Polled(s), r, outcome);
      && r < |s.contexts| == |t.contexts| && Inv(Polled(s)) && Inv(t)
      && t.collection == s.collection[1..] && t.pending == s.pending
      && (t.contexts[r].driver == 1 || t.contexts[r].parked == 1)
      && (t.contexts[r].driver == 1 <==> (s.contexts[r].failed || s.contexts[r].known) && outcome == Sent)
      && (forall q: Request :: q < |s.contexts| && q != r ==> t.contexts[q] == s.contexts[q])
      && (t.polling < s.polling <==> Breaks(Polled(s), Finish(r, outcome)))
      && (t.polling < s.polling ==> t.polling == s.polling - 1)
      && (t.polling >= s.polling ==> t.polling == s.polling)
  {
    var r := s.collection[0];
    assert Places(s, r) > 0;
    StepInv(s, Poll);
    StepInv(Polled(s), Finish(r, outcome));
    assert Places(Finished(Polled(s), r, outcome), r) == 1;
    assert Places(Polled(s), r) == 1;
  }

  /** The callback works the collection off from the front, and leaves something behind only if a turn left the loop. */
  lemma {:induction false} DrainTakesAPrefix(s: State, outcomes: seq<Outcome>)
    requires Inv(s) && s.polling > 0 && |s.collection| <= |outcomes|
    ensures var t := Drain(s, outcomes); var k := Handled(s, outcomes);
      && Inv(t) && |t.contexts| == |s.contexts| && t.polling == s.polling - 1 && t.pending == s.pending
      && k <= |s.collection| && t.collection == s.collection[k..]
      && (k < |s.collection| ==> k > 0 && outcomes[k - 1] != Sent)
    decreases |s.collection|
  {
    StepInv(s, Poll);
    if s.collection != [] {
      HeadTurn(s, outcomes[0]);
      var t := Finished(Polled(s), s.collection[0], outcomes[0]);
      if t.polling >= s.polling {
        DrainTakesAPrefix(t, outcomes[1..]);
      }
    }
  }

  /** The first turn: its request, the state after it, and what the turns after it add up to. */
  lemma FirstTurn(s: State, outcomes: seq<Outcome>) returns (r: Request, t: State)
    requires Inv(s) && s.polling > 0 && s.collection != [] && outcomes != []
    ensures Inv(t) && r == s.collection[0] < |s.contexts| == |t.contexts| && t.collection == s.collection[1..]
    ensures t.contexts[r].driver == 1 || t.contexts[r].parked == 1
    ensures t.contexts[r].driver == 1 <==> (s.contexts[r].failed || s.contexts[r].known) && outcomes[0] == Sent
    ensures forall q: Request :: q < |s.contexts| && q != r ==> t.contexts[q] == s.contexts[q]
    ensures if t.polling < s.polling then Drain(s, outcomes) == t && Handled(s, outcomes) == 1
            else t.polling > 0 && Drain(s, outcomes) == Drain(t, outcomes[1..])
                 && Handled(s, outcomes) == 1 + Handled(t, outcomes[1..])
  {
    HeadTurn(s, outcomes[0]);
    r := s.collection[0];
    t := Finished(Polled(s), r, outcomes[0]);
  }

  lemma QueuedOnce(s: State, i: nat, j: nat)
    requires Inv(s) && i < j < |s.collection|
    ensures s.collection[i] != s.collection[j] && s.collection[i] < |s.contexts| && s.collection[j] < |s.contexts|
  {
    var r := s.collection[i];
    assert Places(s, r) > 0 && Places(s, s.collection[j]) > 0 by {
      CountIsMembership(s.collection, r);
      CountIsMembership(s.collection, s.collection[j]);
    }
    CountConcat(s.collection[..j], s.collection[j..], r);
    assert s.collection == s.collection[..j] + s.collection[j..];
    CountIsMembership(s.collection[..j], r);
    CountIsMembership(s.collection[j..], s.collection[j]);
    assert s.collection[..j][i] == r;
    assert Places(s, r) == 1;
  }

  /** What a callback that took the first `k` requests did with `q`. */
  predicate WorkedOff(s: State, t: State, k: nat, q: Request) {
    && q < |s.contexts| == |t.contexts| && k <= |s.collection|
    && (q in s.collection[..k] ==> t.contexts[q].driver == 1 || t.contexts[q].parked == 1)
    && (q !in s.collection[..k] ==> t.contexts[q] == s.contexts[q])
  }

  lemma OneMoreWorkedOff(s: State, r: Request, t: State, u: State, k: nat, q: Request)
    requires s.collection == [r] + t.collection && q < |s.contexts| == |t.contexts| && r < |t.contexts|
    requires t.contexts[r].driver == 1 || t.contexts[r].parked == 1
    requires q != r ==> t.contexts[q] == s.contexts[q]
    requires WorkedOff(t, u, k, q)
    ensures WorkedOff(s, u, k + 1, q)
  {
    assert s.collection[..k + 1] == [r] + t.collection[..k];
  }

  /** What the callback took is at the driver or parked; what it did not take is untouched. */
  lemma {:induction false} DrainWorksOffAPrefix(s: State, outcomes: seq<Outcome>, q: Request)
    requires Inv(s) && s.polling > 0 && |s.collection| <= |outcomes| && q < |s.contexts|
    ensures WorkedOff(s, Drain(s, outcomes), Handled(s, outcomes), q)
    decreases |s.collection|
  {
    if s.collection != [] {
      var r, t := FirstTurn(s, outcomes);
      if t.polling < s.polling {
        OneMoreWorkedOff(s, r, t, t, 0, q);
      } else {
        DrainWorksOffAPrefix(t, outcomes[1..], q);
        OneMoreWorkedOff(s, r, t, Drain(t, outcomes[1..]), Handled(t, outcomes[1..]), q);
      }
    }
  }

  /** Each request the callback took is at the driver exactly if it was one to be sent again and its own reuse and send
      worked; otherwise it is given up. */
  lemma {:induction false} DrainSendsExactly(s: State, outcomes: seq<Outcome>, i: nat)
    requires Inv(s) && s.polling > 0 && |s.collection| <= |outcomes| && i < Handled(s, outcomes)
    ensures i < |s.collection| && s.collection[i] < |s.contexts| == |Drain(s, outcomes).contexts|
    ensures var c := s.contexts[s.collection[i]]; var d := Drain(s, outcomes).contexts[s.collection[i]];
      && (d.driver == 1 <==> (c.failed || c.known) && outcomes[i] == Sent)
      && (d.driver == 1 || d.parked == 1)
    decreases |s.collection|
  {
    var r, t := FirstTurn(s, outcomes);
    if t.polling >= s.polling {
      if i == 0 {
        if r in t.collection {
          var j :| 0 <= j < |t.collection| && t.collection[j] == r;
          QueuedOnce(s, 0, j + 1);
        }
        DrainWorksOffAPrefix(t, outcomes[1..], r);
      } else {
        DrainSendsExactly(t, outcomes[1..], i - 1);
        QueuedOnce(s, 0, i);
      }
    }
  }

  /** If the platform refuses nothing, every queued request with a known control code is back at the driver. */
  lemma DrainSendsAll(s: State, outcomes: seq<Outcome>, q: Request)
    requires Inv(s) && s.polling > 0 && |s.collection| <= |outcomes|
    requires forall i :: 0 <= i < |outcomes| ==> outcomes[i] == Sent
    requires q in s.collection
    ensures q < |s.contexts| == |Drain(s, outcomes).contexts|
    ensures s.contexts[q].known ==> Drain(s, outcomes).contexts[q].driver == 1
  {
    DrainTakesAPrefix(s, outcomes);
    var i :| 0 <= i < |s.collection| && s.collection[i] == q;
    DrainSendsExactly(s, outcomes, i);
  }

  function DrainSteps(s: State, outcomes: seq<Outcome>): seq<Step>
    decreases |s.collection|
  {
    if s.polling == 0 || s.collection == [] || outcomes == [] || s.collection[0] >= |s.contexts| then [Poll]
    else
      var finish := Finish(s.collection[0], outcomes[0]);
      var t := Apply(Polled(s), finish);
      [Poll] + ([finish] + if t.polling < s.polling then [] else DrainSteps(t, outcomes[1..]))
  }

  /** The callback is a run of the interleaved system, so everything said about runs holds of it. */
  lemma {:induction false} DrainIsARun(s: State, outcomes: seq<Outcome>)
    ensures Run(s, DrainSteps(s, outcomes)) == Drain(s, outcomes)
    decreases |s.collection|
  {
    if s.polling == 0 || s.collection == [] || outcomes == [] || s.collection[0] >= |s.contexts| {
      assert [Poll][1..] == [];
    } else {
      var finish := Finish(s.collection[0], outcomes[0]);
      var t := Apply(Polled(s), finish);
      var rest := if t.polling < s.polling then [] else DrainSteps(t, outcomes[1..]);
      Unroll(s, Poll, [finish] + rest, 0);
      Unroll(Polled(s), finish, rest, 0);
      if t.polling >= s.polling {
        DrainIsARun(t, outcomes[1..]);
      }
    }
  }

  /** One turn of the loop, seen from the whole callback. */
  lemma DrainTurn(s: State, outcomes: seq<Outcome>, i: nat)
    requires Inv(s) && s.polling > 0 && s.collection != [] && i < |outcomes|
    ensures var r := s.collection[0]; var u := Polled(s); var t := Finished(u, r, outcomes[i]);
      && r < |u.contexts| && u.contexts[r].hands > 0 && Inv(u) && Inv(t)
      && t.collection == s.collection[1..]
      && (if Breaks(u, Finish(r, outcomes[i])) then Drain(s, outcomes[i..]) == t
          else t.polling > 0 && Drain(s, outcomes[i..]) == Drain(t, outcomes[i + 1..]))
  {
    HeadTurn(s, outcomes[i]);
    assert outcomes[i..][1..] == outcomes[i + 1..];
    assert Places(Polled(s), s.collection[0]) == 1;
  }

  /** If the platform refuses nothing, every queued request is handled. */
  lemma DrainEmpties(s: State, outcomes: seq<Outcome>)
    requires Inv(s) && s.polling > 0 && |s.collection| <= |outcomes|
    requires forall i :: 0 <= i < |outcomes| ==> outcomes[i] == Sent
    ensures Drain(s, outcomes).collection == []
  {
    DrainTakesAPrefix(s, outcomes);
  }

  /** The completed request is queued exactly when it may still be retried and the collection could grow. */
  lemma CompletedOutcome(s: State, r: Request, status: Status, added: bool)
    requires Inv(s) && r < |s.contexts| && s.contexts[r].driver > 0
    ensures Inv(Completed(s, r, status, added)) && r !in s.collection && s.contexts[r].errors <= MAX_ERROR_COUNT
    ensures r in Completed(s, r, status, added).collection <==>
      (added && (status == Succeeded || (status == Failed && s.contexts[r].errors < MAX_ERROR_COUNT)))
  {
    StepInv(s, Step.Complete(r, status, added));
    assert Places(s, r) == 1;
    CountIsMembership(s.collection, r);
  }

  lemma FinishedOutcome(s: State, r: Request, outcome: Outcome)
    requires Inv(s) && r < |s.contexts| && s.contexts[r].hands > 0
    ensures Inv(Finished(s, r, outcome)) && s.contexts[r].driver == 0 && s.contexts[r].parked == 0
    ensures |Finished(s, r, outcome).contexts| == |s.contexts|
  {
    StepInv(s, Finish(r, outcome));
    assert Places(s, r) == 1;
  }

  class Device {
    var contexts: seq<Context>
    var collection: seq<Request>
    var pending: bool
    var polling: nat

    ghost function View(): State
      reads this
    {
      State(contexts, collection, pending, polling, false)
    }

    constructor (known: seq<bool>)
      ensures View() == Initial(known) && Inv(View())
    {
      contexts, collection, pending, polling := Fresh(known), [], false, 0;
      new;
      RunInv(Initial(known), []);
    }

    method Enable(r: Request, sent: bool)
      requires Inv(View()) && r < |contexts| && contexts[r].unsent > 0
      modifies this
      ensures View() == Apply(old(View()), Start(r, sent)) && Inv(View())
      ensures sent ==> contexts[r].driver == 1
    {
      StepInv(View(), Start(r, sent));
      assert Places(View(), r) == 1;
      if sent {
        contexts := contexts[r := contexts[r].(unsent := contexts[r].unsent - 1, driver := contexts[r].driver + 1)];
      }
    }

    /** The completion routine; `added` is whether the collection could grow. */
    method Complete(r: Request, status: Status, added: bool)
      requires Inv(View()) && r < |contexts| && contexts[r].driver > 0
      modifies this
      ensures View() == Apply(old(View()), Step.Complete(r, status, added)) && Inv(View())
      ensures r in collection <==>
        (added && (status == Succeeded || (status == Failed && old(contexts[r].errors) < MAX_ERROR_COUNT)))
      ensures r in collection ==> collection == old(collection) + [r] && pending
      ensures r !in collection ==> collection == old(collection) && pending == old(pending)
    {
      CompletedOutcome(View(), r, status, added);
      var c := contexts[r].(driver := contexts[r].driver - 1);
      if status == Failed {
        c := c.(errors := c.errors + 1, failed := true);
      } else if status == Succeeded {
        c := c.(errors := 0, failed := false);
      }
      if status != Cancelled && c.errors <= MAX_ERROR_COUNT && added {
        AddRequest(r, c);
      } else {
        GiveUp(r, c);
      }
    }

    /** Queues the request and wakes the work item. */
    method AddRequest(r: Request, c: Context)
      requires r < |contexts| && r !in collection
      modifies this
      ensures View() == Add(old(View()), r, c)
    {
      contexts := contexts[r := c];
      collection := collection + [r];
      pending := true;
    }

    method GiveUp(r: Request, c: Context)
      requires r < |contexts|
      modifies this
      ensures View() == Park(old(View()), r, c)
    {
      contexts := contexts[r := c.(parked := c.parked + 1)];
    }

    /** Takes the first queued request. */
    method Take() returns (r: Request)
      requires Inv(View()) && polling > 0 && collection != []
      modifies this
      ensures View() == Polled(old(View())) && Inv(View()) && r == old(collection[0])
    {
      HeadTurn(View(), Sent);
      r := collection[0];
      collection := collection[1..];
      contexts := contexts[r := contexts[r].(hands := contexts[r].hands + 1)];
      polling := polling - 1;
    }

    /** The rest of one turn; `stay` is false when the platform refuses to reuse or send the request. */
    method Handle(r: Request, outcome: Outcome) returns (stay: bool)
      requires Inv(View()) && r < |contexts| && contexts[r].hands > 0
      modifies this
      ensures View() == Finished(old(View()), r, outcome) && Inv(View())
      ensures stay <==> !Breaks(old(View()), Finish(r, outcome))
      ensures contexts[r].driver == (if old(contexts[r].failed || contexts[r].known) && outcome == Sent then 1 else 0)
      ensures contexts[r].parked == 1 - contexts[r].driver
    {
      FinishedOutcome(View(), r, outcome);
      var c := contexts[r].(hands := contexts[r].hands - 1);
      stay := true;
      if !c.failed && !c.known {
        GiveUp(r, c);
      } else if outcome == Sent {
        SendAgain(r, c);
      } else {
        GiveUp(r, c);
        stay := false;
      }
      if stay {
        polling := polling + 1;
      }
    }

    method SendAgain(r: Request, c: Context)
      requires r < |contexts| && c.driver == 0
      modifies this
      ensures View() == Send(old(View()), r, c)
    {
      contexts := contexts[r := c.(driver := c.driver + 1)];
    }

    /** The loop of the work-item callback. */
    method Loop(outcomes: seq<Outcome>)
      requires Inv(View()) && polling > 0 && |collection| <= |outcomes|
      modifies this
      ensures View() == Drain(old(View()), outcomes)
    {
      var i := 0;
      while collection != []
        invariant Inv(View()) && polling > 0 && 0 <= i && |collection| + i <= |outcomes|
        invariant Drain(View(), outcomes[i..]) == Drain(old(View()), outcomes)
        decreases |collection|
      {
        DrainTurn(View(), outcomes, i);
        var r := Take();
        var stay := Handle(r, outcomes[i]);
        if !stay {
          return;
        }
        i := i + 1;
      }
      polling := polling - 1;
    }

    /** The work-item callback. */
    method RunWorkItem(outcomes: seq<Outcome>)
      requires Inv(View()) && pending && |collection| <= |outcomes|
      modifies this
      ensures View() == Drain(Apply(old(View()), Begin), outcomes) && Inv(View())
      ensures var k := Handled(Apply(old(View()), Begin), outcomes);
        k <= |old(collection)| && collection == old(collection)[k..]
    {
      StepInv(View(), Begin);
      DrainTakesAPrefix(Apply(View(), Begin), outcomes);
      pending := false;
      polling := polling + 1;
      Loop(outcomes);
    }
  }
}
