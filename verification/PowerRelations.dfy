/**
 The adapter's power relations: the device objects the sideband devices depend on, the relations reported to PnP for a
 query, and the references that go with both.
 */
module PowerRelations {
  import opened Counting

  type Pdo = nat

  const ULONG_RANGE: nat := 0x1_0000_0000

  /** What a query carries: no relations, or a block of them.  Every object in it is referenced. */
  datatype Information = Null | Relations(objects: seq<Pdo>)

  datatype State = State(
    list: seq<Pdo>,                // the adapter's list
    queries: seq<Information>,     // queries on their way and relations handed on to PnP
    references: map<Pdo, int>)     // references held through the list and the queries

  datatype Step =
    | Add(pdo: Pdo, room: bool)
    | Remove(pdo: Pdo)
    | Query(information: Information)    // a query arrives with what other drivers reported
    | Update(index: nat, room: bool)
    | Drop(index: nat)                   // PnP is done with the relations

  const INITIAL: State := State([], [], map[])

  function References(references: map<Pdo, int>, p: Pdo): int {
    if p in references then references[p] else 0
  }

  function Change(references: map<Pdo, int>, p: Pdo, delta: int): map<Pdo, int> {
    references[p := References(references, p) + delta]
  }

  function ChangeAll(references: map<Pdo, int>, objects: seq<Pdo>, delta: int): map<Pdo, int> {
    if objects == [] then references
    else Change(ChangeAll(references, objects[..|objects| - 1], delta), objects[|objects| - 1], delta)
  }

  function Objects(information: Information): seq<Pdo> {
    if information == Null then [] else information.objects
  }

  /** The list without any entry of `p`. */
  function Without(list: seq<Pdo>, p: Pdo): seq<Pdo> {
    if list == [] then []
    else Without(list[..|list| - 1], p) + if list[|list| - 1] == p then [] else [list[|list| - 1]]
  }

  /** The new content of a query; a query is left alone while the list is empty. */
  function Updated(list: seq<Pdo>, prior: Information, room: bool): Information {
    if list == [] then prior
    else if !room then Null
    else Relations(Objects(prior) + list)
  }

  function Apply(s: State, step: Step): State {
    match step
    case Add(p, room) =>
      if room then s.(list := s.list + [p], references := Change(s.references, p, 1)) else s
    case Remove(p) =>
      s.(list := Without(s.list, p), references := Change(s.references, p, 0 - Count(s.list, p) as int))
    case Query(information) =>
      s.(queries := s.queries + [information], references := ChangeAll(s.references, Objects(information), 1))
    case Update(k, room) =>
      if k >= |s.queries| then s
      else
        s.(queries := s.queries[k := Updated(s.list, s.queries[k], room)],
           references :=
             if s.list == [] then s.references
             else if room then ChangeAll(s.references, s.list, 1)
             else ChangeAll(s.references, Objects(s.queries[k]), -1))
    case Drop(k) =>
      if k >= |s.queries| then s
      else s.(queries := s.queries[k := Null], references := ChangeAll(s.references, Objects(s.queries[k]), -1))
  }

  function Run(steps: seq<Step>): State {
    if steps == [] then INITIAL else Apply(Run(steps[..|steps| - 1]), steps[|steps| - 1])
  }

  // ----- counting

  lemma {:induction false} ChangeAllCounts(references: map<Pdo, int>, objects: seq<Pdo>, delta: int, p: Pdo)
    requires delta == 1 || delta == -1
    ensures References(ChangeAll(references, objects, delta), p)
      == References(references, p) + if delta == 1 then Count(objects, p) as int else 0 - Count(objects, p) as int
  {
    if objects != [] {
      var front, last := objects[..|objects| - 1], objects[|objects| - 1];
      ChangeAllCounts(references, front, delta, p);
      CountSnoc(front, last, p);
      assert objects == front + [last];
    }
  }

  lemma {:induction false} CountWithout(list: seq<Pdo>, p: Pdo, q: Pdo)
    ensures Count(Without(list, p), q) == if p == q then 0 else Count(list, q)
  {
    if list != [] {
      var front, last := list[..|list| - 1], list[|list| - 1];
      CountWithout(front, p, q);
      CountSnoc(front, last, q);
      CountConcat(Without(front, p), if last == p then [] else [last], q);
      assert list == front + [last];
    }
  }

  /** Occurrences of `p` in all queries. */
  function Occurrences(queries: seq<Information>, p: Pdo): nat {
    if queries == [] then 0 else Count(Objects(queries[0]), p) + Occurrences(queries[1..], p)
  }

  lemma {:induction false} OccurrencesUpdate(queries: seq<Information>, k: nat, information: Information, p: Pdo)
    requires k < |queries|
    ensures Occurrences(queries[k := information], p)
      == Occurrences(queries, p) - Count(Objects(queries[k]), p) + Count(Objects(information), p)
  {
    if k == 0 {
      assert queries[k := information][1..] == queries[1..];
    } else {
      assert queries[k := information][1..] == queries[1..][k - 1 := information];
      OccurrencesUpdate(queries[1..], k - 1, information, p);
    }
  }

  lemma {:induction false} OccurrencesAppend(queries: seq<Information>, information: Information, p: Pdo)
    ensures Occurrences(queries + [information], p) == Occurrences(queries, p) + Count(Objects(information), p)
  {
    if queries == [] {
      assert queries + [information] == [information];
    } else {
      assert (queries + [information])[1..] == queries[1..] + [information];
      OccurrencesAppend(queries[1..], information, p);
    }
  }

  // ----- the ledger

  predicate Balanced(s: State, p: Pdo) {
    References(s.references, p) == Count(s.list, p) + Occurrences(s.queries, p)
  }

  lemma UpdateBalanced(s: State, k: nat, room: bool, p: Pdo)
    requires Balanced(s, p) && k < |s.queries|
    ensures Balanced(Apply(s, Update(k, room)), p)
  {
    var prior := s.queries[k];
    OccurrencesUpdate(s.queries, k, Updated(s.list, prior, room), p);
    ChangeAllCounts(s.references, s.list, 1, p);
    ChangeAllCounts(s.references, Objects(prior), -1, p);
    CountConcat(Objects(prior), s.list, p);
  }

  lemma StepBalanced(s: State, step: Step, p: Pdo)
    requires Balanced(s, p)
    ensures Balanced(Apply(s, step), p)
  {
    match step
    case Add(q, room) => CountConcat(s.list, [q], p);
    case Remove(q) => CountWithout(s.list, q, p);
    case Query(information) =>
      OccurrencesAppend(s.queries, information, p);
      ChangeAllCounts(s.references, Objects(information), 1, p);
    case Update(k, room) =>
      if k < |s.queries| {
        UpdateBalanced(s, k, room, p);
      }
    case Drop(k) =>
      if k < |s.queries| {
        OccurrencesUpdate(s.queries, k, Null, p);
        ChangeAllCounts(s.references, Objects(s.queries[k]), -1, p);
      }
  }

  /** Over every run a device object has exactly one reference per entry in the list and per occurrence in the
      relations of a query, through refused queries too. */
  lemma {:induction false} LedgerOfEveryRun(steps: seq<Step>, p: Pdo)
    ensures Balanced(Run(steps), p)
  {
    if steps != [] {
      LedgerOfEveryRun(steps[..|steps| - 1], p);
      StepBalanced(Run(steps[..|steps| - 1]), steps[|steps| - 1], p);
    }
  }

  /** Removing a device drops every reference the list held on it and none on another. */
  lemma RemoveDropsAll(s: State, p: Pdo, q: Pdo)
    requires Balanced(s, p) && Balanced(s, q)
    ensures var t := Apply(s, Remove(p));
      && Count(t.list, p) == 0 && t.queries == s.queries
      && References(t.references, p) == Occurrences(s.queries, p)
      && (q != p ==> Count(t.list, q) == Count(s.list, q) && References(t.references, q) == References(s.references, q))
  {
    CountWithout(s.list, p, p);
    CountWithout(s.list, p, q);
  }

  /** Adding a device and removing it gives the list back exactly if it was not in it. */
  lemma AddThenRemoveExactly(list: seq<Pdo>, p: Pdo)
    ensures Without(list + [p], p) == list <==> p !in list
  {
    assert (list + [p])[..|list|] == list;
    WithoutSame(list, p);
  }

  lemma {:induction false} WithoutSame(list: seq<Pdo>, p: Pdo)
    ensures |Without(list, p)| + Count(list, p) == |list|
    ensures Count(list, p) > 0 <==> p in list
    ensures p !in list ==> Without(list, p) == list
  {
    if list != [] {
      var front, last := list[..|list| - 1], list[|list| - 1];
      WithoutSame(front, p);
      CountSnoc(front, last, p);
      assert list == front + [last];
    }
  }

  // ----- the block

  /** A block allocated for `count` relations holds this many; `count - 1` is taken in 32 bits. */
  function Capacity(count: nat): nat {
    1 + (count + ULONG_RANGE - 1) % ULONG_RANGE
  }

  /** The total is taken in 32 bits.  Every write is in range exactly if prior and added entries together do not exceed
      2^32, and the block's 32-bit count is their number exactly if they do not reach it. */
  lemma WritesInRangeExactly(prior: nat, added: nat)
    requires prior < ULONG_RANGE && 0 < added < ULONG_RANGE
    ensures prior + added <= Capacity((prior + added) % ULONG_RANGE) <==> prior + added <= ULONG_RANGE
    ensures (prior + added) % ULONG_RANGE == prior + added <==> prior + added < ULONG_RANGE
  {
    if prior + added >= ULONG_RANGE {
      assert (prior + added) % ULONG_RANGE == prior + added - ULONG_RANGE;
    }
  }

  // ----- the methods

  /** A block of relations, `room` entries long. */
  class Block {
    var count: nat
    const objects: array<Pdo>

    ghost function View(): seq<Pdo>
      requires count <= objects.Length
      reads this, objects
    {
      objects[..count]
    }

    constructor (room: nat)
      ensures fresh(objects) && objects.Length == room && count == 0
    {
      count := 0;
      objects := new Pdo[room](_ => 0);
    }
  }

  /** What a query's block means. */
  ghost function Content(block: Block?): Information
    requires block != null ==> block.count <= block.objects.Length
    reads block, if block == null then {} else {block.objects}
  {
    if block == null then Null else Relations(block.View())
  }

  class Adapter {
    var list: seq<Pdo>
    var references: map<Pdo, int>

    constructor ()
      ensures list == [] && references == map[]
    {
      list, references := [], map[];
    }

    method Reference(p: Pdo)
      modifies `references
      ensures references == Change(old(references), p, 1)
    {
      references := references[p := (if p in references then references[p] else 0) + 1];
    }

    method Dereference(p: Pdo)
      modifies `references
      ensures references == Change(old(references), p, -1)
    {
      references := references[p := (if p in references then references[p] else 0) - 1];
    }

    method AddDevice(p: Pdo, room: bool) returns (ok: bool)
      modifies this
      ensures ok == room
      ensures list == if ok then old(list) + [p] else old(list)
      ensures references == if ok then Change(old(references), p, 1) else old(references)
    {
      if !room {
        return false;
      }
      Reference(p);
      list := list + [p];
      return true;
    }

    method RemoveDevice(p: Pdo)
      modifies this
      ensures list == Without(old(list), p)
      ensures forall q :: References(references, q)
                       == References(old(references), q) - if q == p then Count(old(list), p) else 0
    {
      var kept: seq<Pdo>, i := [], 0;
      assert list[..0] == [] && Count(list[..0], p) == 0;
      while i < |list|
        invariant 0 <= i <= |list| && list == old(list)
        invariant kept == Without(list[..i], p)
        invariant forall q :: References(references, q)
                           == References(old(references), q) - if q == p then Count(list[..i], p) else 0
      {
        assert list[..i + 1][..i] == list[..i];
        assert list[..i + 1] == list[..i] + [list[i]];
        CountSnoc(list[..i], list[i], p);
        if list[i] == p {
          Dereference(p);
        } else {
          kept := kept + [list[i]];
        }
        i := i + 1;
      }
      assert list[..i] == list;
      list := kept;
    }

    /** Answers a power-relations query.  `prior` comes with the query; `room` is whether a block could be had. */
    method UpdatePowerRelations(prior: Block?, room: bool) returns (ok: bool, information: Block?)
      requires prior != null ==> prior.count <= prior.objects.Length && prior.count + |list| < ULONG_RANGE
      modifies `references
      ensures ok <==> list == [] || room
      ensures list == [] ==> information == prior
      ensures information != null ==> information.count <= information.objects.Length
      ensures Content(information) == Updated(list, Content(prior), room)
      ensures references ==
        if list == [] then old(references)
        else if room then ChangeAll(old(references), list, 1)
        else ChangeAll(old(references), Objects(Content(prior)), -1)
      ensures list != [] && room ==>
        && information != null && information.View() == (if prior == null then [] else prior.View()) + list
        && forall p :: References(references, p) == References(old(references), p) + Count(list, p)
      ensures list != [] && !room ==>
        && information == null
        && forall p :: References(references, p)
             == References(old(references), p) - if prior == null then 0 else Count(prior.View(), p)
    {
      forall p: Pdo
        ensures References(ChangeAll(references, list, 1), p) == References(references, p) + Count(list, p)
        ensures prior != null ==> References(ChangeAll(references, prior.View(), -1), p)
                                  == References(references, p) - Count(prior.View(), p)
      {
        ChangeAllCounts(references, list, 1, p);
        if prior != null {
          ChangeAllCounts(references, prior.View(), -1, p);
        }
      }
      var added := 0;
      while added < |list|
        invariant 0 <= added <= |list|
      {
        added := added + 1;
      }
      if added == 0 {
        return true, prior;
      }
      if !room {
        if prior != null {
          DereferenceAll(prior);
        }
        return false, null;
      }
      var count := added + if prior == null then 0 else prior.count;
      var block := new Block(count);
      if prior != null {
        CopyPrior(prior, block);
      }
      AppendList(block);
      return true, block;
    }

    method DereferenceAll(prior: Block)
      requires prior.count <= prior.objects.Length
      modifies `references
      ensures references == ChangeAll(old(references), prior.View(), -1)
    {
      var i := 0;
      while i < prior.count
        invariant 0 <= i <= prior.count
        invariant references == ChangeAll(old(references), prior.objects[..i], -1)
      {
        assert prior.objects[..i + 1][..i] == prior.objects[..i];
        Dereference(prior.objects[i]);
        i := i + 1;
      }
    }

    method CopyPrior(prior: Block, block: Block)
      requires prior != block && prior.objects != block.objects
      requires prior.count <= prior.objects.Length && prior.count <= block.objects.Length
      modifies block, block.objects
      ensures block.count == prior.count && block.View() == prior.View()
    {
      var i := 0;
      while i < prior.count
        invariant 0 <= i <= prior.count
        invariant block.objects[..i] == prior.objects[..i]
      {
        block.objects[i] := prior.objects[i];
        i := i + 1;
      }
      block.count := prior.count;
    }

    /** Each write is in range: the block has room for exactly what is there and what is added. */
    method AppendList(block: Block)
      requires block.count + |list| == block.objects.Length
      modifies block, block.objects, `references
      ensures block.count == block.objects.Length
      ensures block.View() == old(block.View()) + list
      ensures references == ChangeAll(old(references), list, 1)
    {
      ghost var before := block.View();
      var i := 0;
      while i < |list|
        invariant 0 <= i <= |list| && block.count == |before| + i
        invariant block.count + (|list| - i) == block.objects.Length
        invariant block.objects[..block.count] == before + list[..i]
        invariant references == ChangeAll(old(references), list[..i], 1)
      {
        assert list[..i + 1][..i] == list[..i];
        assert list[..i + 1] == list[..i] + [list[i]];
        block.objects[block.count] := list[i];
        Reference(list[i]);
        block.count := block.count + 1;
        i := i + 1;
      }
      assert list[..i] == list;
    }
  }
}
