/**
 The recursive registry copy that gives a dynamically named interface the settings of its template.
 Keys are addressed by their path; a key records the order in which its values and subkeys enumerate.
 */
module Registry {

  type Name = string
  type Path = seq<Name>

  datatype Value = Value(kind: nat, data: seq<int>)

  datatype Key = Key(valueNames: seq<Name>, values: map<Name, Value>, subkeys: seq<Name>)

  type Keys = map<Path, Key>

  predicate NoDuplicates(names: seq<Name>) {
    forall i, j :: 0 <= i < j < |names| ==> names[i] != names[j]
  }

  /** Enumerating a key yields each of its values and each of its subkeys exactly once. */
  ghost predicate WellFormed(keys: Keys) {
    && (forall p :: p in keys ==> NoDuplicates(keys[p].valueNames) && NoDuplicates(keys[p].subkeys))
    && (forall p, n {:trigger n in keys[p].valueNames} ::
          p in keys ==> (n in keys[p].valueNames <==> n in keys[p].values))
    && (forall p, n {:trigger p + [n] in keys} {:trigger n in keys[p].subkeys} ::
          p + [n] in keys <==> p in keys && n in keys[p].subkeys)
  }

  /** Neither key lies below the other. */
  predicate Disjoint(a: Path, b: Path) {
    !(a <= b) && !(b <= a)
  }

  function Values(keys: Keys, p: Path): map<Name, Value> {
    if p in keys then keys[p].values else map[]
  }

  // ----- what a copy has to achieve

  /** The source key whose values go to `p`, if `p` lies at or below `dst`. */
  function Origin(src: Path, dst: Path, p: Path): Path
    requires dst <= p
  {
    src + p[|dst|..]
  }

  /** `p` receives the values of a source key; the top key does so only when asked to. */
  predicate Receives(keys: Keys, src: Path, dst: Path, top: bool, p: Path) {
    dst <= p && (p == dst ==> top) && Origin(src, dst, p) in keys
  }

  /** `after` is `before` with the tree at `src` merged over the one at `dst`: the keys of both are there,
      a source value overrides, and whatever only the destination has survives. */
  ghost predicate Merged(before: Keys, after: Keys, src: Path, dst: Path, top: bool) {
    forall p: Path ::
      && (p in after <==> p in before || Receives(before, src, dst, top, p))
      && Values(after, p) ==
         if Receives(before, src, dst, top, p) then Values(before, p) + Values(before, Origin(src, dst, p))
         else Values(before, p)
  }

  /** Outside `dst` nothing has changed. */
  ghost predicate SameOutside(before: Keys, after: Keys, dst: Path) {
    forall p: Path :: !(dst <= p) ==> (p in after <==> p in before) && (p in before ==> after[p] == before[p])
  }

  /** Only the values of `p` may have changed. */
  ghost predicate SameButValues(before: Keys, after: Keys, p: Path) {
    forall q: Path :: (q in after <==> q in before) && (q != p && q in before ==> after[q] == before[q])
  }

  /** The keys at and below `p`. */
  ghost function Below(keys: Keys, p: Path): set<Path> {
    set q | q in keys && p <= q
  }

  // ----- the copy while its loop runs

  /** As `Receives`, but only for the subkeys already copied. */
  predicate ReceivesSome(keys: Keys, src: Path, dst: Path, done: seq<Name>, p: Path) {
    dst <= p && p != dst && p[|dst|] in done && Origin(src, dst, p) in keys
  }

  ghost predicate MergedSome(before: Keys, after: Keys, src: Path, dst: Path, done: seq<Name>) {
    forall p: Path ::
      && (p in after <==> p in before || ReceivesSome(before, src, dst, done, p))
      && Values(after, p) ==
         if ReceivesSome(before, src, dst, done, p) then Values(before, p) + Values(before, Origin(src, dst, p))
         else Values(before, p)
  }

  lemma PrefixesNest(a: Path, b: Path, p: Path)
    requires a <= p && b <= p
    ensures a <= b || b <= a
  {
    assert a == p[..|a|] && b == p[..|b|];
    if |a| <= |b| {
      assert a == b[..|a|];
    } else {
      assert b == a[..|b|];
    }
  }

  lemma DisjointOrigin(src: Path, dst: Path, p: Path)
    requires Disjoint(src, dst) && src <= p
    ensures !(dst <= p)
  {
    if dst <= p {
      PrefixesNest(src, dst, p);
    }
  }

  lemma DropLast(a: Path, b: Path, n: Name)
    ensures a + [n] <= b + [n] ==> a <= b
  {
    if a + [n] <= b + [n] {
      assert (a + [n])[..|a|] == a == (b + [n])[..|a|] == b[..|a|];
    }
  }

  lemma DisjointChild(src: Path, dst: Path, n: Name)
    requires Disjoint(src, dst)
    ensures Disjoint(src + [n], dst + [n])
  {
    DropLast(src, dst, n);
    DropLast(dst, src, n);
  }

  /** A path below `dst + [n]`, and where it comes from. */
  lemma ChildPath(src: Path, dst: Path, n: Name, p: Path)
    ensures dst + [n] <= p <==> dst <= p && p != dst && p[|dst|] == n
    ensures dst + [n] <= p ==> Origin(src + [n], dst + [n], p) == Origin(src, dst, p)
  {
    if dst + [n] <= p {
      assert p[..|dst| + 1] == dst + [n];
      assert dst == p[..|dst|];
      assert p[|dst|..] == [n] + p[|dst| + 1..];
    }
    if dst <= p && p != dst && p[|dst|] == n {
      assert p[..|dst| + 1] == dst + [n];
    }
  }

  /** Copying one more subkey extends the partial merge. */
  lemma MergeChild(before: Keys, mid: Keys, created: Keys, after: Keys, src: Path, dst: Path, done: seq<Name>, n: Name)
    requires Disjoint(src, dst) && n !in done
    requires MergedSome(before, mid, src, dst, done) && src + [n] in before
    requires forall p: Path :: (p in created <==> p in mid || p == dst + [n]) && Values(created, p) == Values(mid, p)
    requires Merged(created, after, src + [n], dst + [n], true)
    ensures MergedSome(before, after, src, dst, done + [n])
  {
    forall p: Path
      ensures p in after <==> p in before || ReceivesSome(before, src, dst, done + [n], p)
      ensures Values(after, p) == if ReceivesSome(before, src, dst, done + [n], p)
        then Values(before, p) + Values(before, Origin(src, dst, p)) else Values(before, p)
    {
      ChildPath(src, dst, n, p);
      assert p in created <==> p in mid || p == dst + [n];
      assert p in mid <==> p in before || ReceivesSome(before, src, dst, done, p);
      if dst + [n] <= p {
        var from := Origin(src, dst, p);
        assert src <= from && from[..|src|] == src;
        DisjointOrigin(src, dst, from);
        assert from in mid <==> from in before;
        assert Values(mid, from) == Values(before, from);
        ChildPath(src, dst, n, from);
        assert from in created <==> from in before;
        assert !ReceivesSome(before, src, dst, done, p);
        if p == dst + [n] {
          assert from == src + [n];
        }
      } else {
        assert !Receives(created, src + [n], dst + [n], true, p);
      }
    }
  }

  /** When every subkey is copied, the merge is complete below the top key. */
  lemma MergeComplete(before: Keys, after: Keys, src: Path, dst: Path)
    requires WellFormed(before) && src in before && dst in before
    requires MergedSome(before, after, src, dst, before[src].subkeys)
    ensures Merged(before, after, src, dst, false)
  {
    forall p: Path
      ensures ReceivesSome(before, src, dst, before[src].subkeys, p) <==> Receives(before, src, dst, false, p)
    {
      if Receives(before, src, dst, false, p) {
        FirstStep(before, src, p[|dst|..]);
      }
    }
  }

  /** The first step of a path below an existing key is one of its subkeys. */
  lemma {:induction false} FirstStep(keys: Keys, p: Path, rest: Path)
    requires WellFormed(keys) && rest != [] && p + rest in keys
    ensures p in keys && rest[0] in keys[p].subkeys
    decreases |rest|
  {
    if |rest| == 1 {
      assert p + rest == p + [rest[0]];
    } else {
      var last := rest[|rest| - 1];
      var short := rest[..|rest| - 1];
      assert p + rest == (p + short) + [last];
      FirstStep(keys, p, short);
    }
  }

  /** Overwriting the top values as well completes the merge. */
  lemma MergeTop(before: Keys, mid: Keys, after: Keys, src: Path, dst: Path)
    requires Disjoint(src, dst) && src in before && dst in before
    requires Merged(before, mid, src, dst, false)
    requires forall p: Path :: (p in after <==> p in mid) && (p != dst ==> Values(after, p) == Values(mid, p))
    requires Values(after, dst) == Values(mid, dst) + Values(mid, src)
    ensures Merged(before, after, src, dst, true)
  {
    forall p: Path
      ensures p in after <==> p in before || Receives(before, src, dst, true, p)
      ensures Values(after, p) == if Receives(before, src, dst, true, p)
        then Values(before, p) + Values(before, Origin(src, dst, p)) else Values(before, p)
    {
      assert p in after <==> p in mid;
      assert p in mid <==> p in before || Receives(before, src, dst, false, p);
      assert Origin(src, dst, dst) == src;
      DisjointOrigin(src, dst, src);
    }
  }

  // ----- what follows from a merge

  /** A merge with the top values left alone: the source tree and the top values of the destination are as before. */
  lemma MergeLeavesSourceAndTop(before: Keys, after: Keys, src: Path, dst: Path, p: Path)
    requires Disjoint(src, dst) && Merged(before, after, src, dst, false)
    ensures src <= p ==> (p in after <==> p in before) && Values(after, p) == Values(before, p)
    ensures Values(after, dst) == Values(before, dst)
  {
    if src <= p {
      DisjointOrigin(src, dst, p);
    }
  }

  /** Every value of the source is found at the destination, and a value only the destination has stays. */
  lemma MergeValues(before: Keys, after: Keys, src: Path, dst: Path, rest: Path, n: Name)
    requires Merged(before, after, src, dst, false) && rest != []
    ensures src + rest in before && n in Values(before, src + rest) ==>
      && dst + rest in after && n in Values(after, dst + rest)
      && Values(after, dst + rest)[n] == Values(before, src + rest)[n]
    ensures n in Values(before, dst + rest) && n !in Values(before, src + rest) ==>
      n in Values(after, dst + rest) && Values(after, dst + rest)[n] == Values(before, dst + rest)[n]
    ensures n in Values(after, dst + rest) ==> n in Values(before, dst + rest) || n in Values(before, src + rest)
  {
    var p := dst + rest;
    assert p[|dst|..] == rest;
    assert p in after <==> p in before || Receives(before, src, dst, false, p);
  }

  /** Copying a second time changes nothing. */
  lemma MergeIdempotent(before: Keys, once: Keys, twice: Keys, src: Path, dst: Path, top: bool, p: Path)
    requires Disjoint(src, dst) && Merged(before, once, src, dst, top) && Merged(once, twice, src, dst, top)
    ensures p in twice <==> p in once
    ensures Values(twice, p) == Values(once, p)
  {
    assert p in twice <==> p in once || Receives(once, src, dst, top, p);
    assert p in once <==> p in before || Receives(before, src, dst, top, p);
    if dst <= p {
      var from := Origin(src, dst, p);
      assert from[..|src|] == src;
      DisjointOrigin(src, dst, from);
      assert from in once <==> from in before || Receives(before, src, dst, top, from);
      assert Values(once, from) == Values(before, from);
    }
  }
}
