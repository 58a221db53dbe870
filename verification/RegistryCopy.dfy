/** The copy routines, writing into the registry inside their enumeration loops. */
module RegistryCopy {
  import opened Registry

  /** Platform calls `from` to `to` all worked, except that a failure ends with the one call that did not. */
  ghost predicate Worked(answers: nat -> bool, from: nat, to: nat, ok: bool) {
    && from <= to
    && (ok ==> forall i :: from <= i < to ==> answers(i))
    && (!ok ==> from < to && !answers(to - 1) && forall i :: from <= i < to - 1 ==> answers(i))
  }

  class Hive {
    const answers: nat -> bool    // what the platform answers to the successive calls
    var keys: Keys
    var calls: nat

    constructor (keys: Keys, answers: nat -> bool)
      ensures this.keys == keys && this.answers == answers && calls == 0
    {
      this.keys, this.answers, calls := keys, answers, 0;
    }

    /** Any call to the platform may fail. */
    method Platform() returns (ok: bool)
      modifies `calls
      ensures calls == old(calls) + 1 && ok == answers(old(calls))
      ensures Worked(answers, old(calls), calls, ok)
    {
      ok := answers(calls);
      calls := calls + 1;
    }

    /** The `i`-th subkey of an open key, or no more entries. */
    method EnumerateKey(p: Path, i: nat) returns (more: bool, name: Name)
      requires p in keys
      ensures more <==> i < |keys[p].subkeys|
      ensures more ==> name == keys[p].subkeys[i]
    {
      more := i < |keys[p].subkeys|;
      name := if more then keys[p].subkeys[i] else "";
    }

    /** The `i`-th value of an open key, or no more entries. */
    method EnumerateValue(p: Path, i: nat) returns (more: bool, name: Name, value: Value)
      requires p in keys
      ensures more <==> i < |keys[p].valueNames|
      ensures more ==> name == keys[p].valueNames[i]
      ensures more && name in keys[p].values ==> value == keys[p].values[name]
    {
      more := i < |keys[p].valueNames|;
      name := if more then keys[p].valueNames[i] else "";
      value := if name in keys[p].values then keys[p].values[name] else Value(0, []);
    }

    /** Opens a subkey, creating it without values if it is not there. */
    method CreateKey(p: Path, n: Name)
      requires WellFormed(keys) && p in keys
      modifies `keys
      ensures WellFormed(keys) && SameOutside(old(keys), keys, p) && p in keys
      ensures forall q: Path ::
        (q in keys <==> q in old(keys) || q == p + [n]) && Values(keys, q) == Values(old(keys), q)
    {
      if p + [n] !in keys {
        var key := keys[p];
        assert n !in key.subkeys;
        NothingBelow(keys, p + [n]);
        keys := keys[p := key.(subkeys := key.subkeys + [n])][p + [n] := Key([], map[], [])];
        assert p + [n] != p;
        CreatedWellFormed(old(keys), keys, p, n);
      }
    }

    /** Writes a value into an open key. */
    method SetValueKey(p: Path, n: Name, value: Value)
      requires WellFormed(keys) && p in keys
      modifies `keys
      ensures WellFormed(keys) && SameButValues(old(keys), keys, p) && p in keys
      ensures keys[p].values == old(keys)[p].values[n := value]
    {
      var key := keys[p];
      var names := if n in key.values then key.valueNames else key.valueNames + [n];
      assert n in key.valueNames <==> n in key.values;
      keys := keys[p := key.(valueNames := names, values := key.values[n := value])];
      SetWellFormed(old(keys), keys, p, n, value);
    }

    method CopyRegistryValues(src: Path, dst: Path) returns (ok: bool)
      requires WellFormed(keys) && src in keys && dst in keys && src != dst
      modifies `keys, `calls
      ensures WellFormed(keys) && SameButValues(old(keys), keys, dst) && dst in keys
      ensures ok ==> keys[dst].values == old(keys)[dst].values + old(keys)[src].values
      ensures Worked(answers, old(calls), calls, ok)
    {
      ok := Platform();
      if !ok { return false; }
      ghost var before := keys;
      NoValueYet(before, src, dst);
      ok := CopyEachValue(before, src, dst);
      if ok {
        AllValues(before, src);
      }
    }

    /** The enumeration loop. */
    method CopyEachValue(ghost before: Keys, src: Path, dst: Path) returns (ok: bool)
      requires ValuesCopied(before, keys, src, dst, 0)
      modifies `keys, `calls
      ensures exists i :: ValuesCopied(before, keys, src, dst, i) && (ok ==> i == |before[src].valueNames|)
      ensures Worked(answers, old(calls), calls, ok)
    {
      var i := 0;
      while true
        invariant ValuesCopied(before, keys, src, dst, i)
        invariant Worked(answers, old(calls), calls, true)
        decreases |before[src].valueNames| - i
      {
        var more, name, value := EnumerateValue(src, i);
        if !more { return true; }
        ok := CopyValue(before, src, dst, i, name, value);
        if !ok { return false; }
        i := i + 1;
      }
    }

    /** One turn of that loop. */
    method CopyValue(ghost before: Keys, src: Path, dst: Path, i: nat, name: Name, value: Value) returns (ok: bool)
      requires ValuesCopied(before, keys, src, dst, i)
      requires i < |before[src].valueNames| && name == before[src].valueNames[i]
      requires name in before[src].values ==> value == before[src].values[name]
      modifies `keys, `calls
      ensures ValuesCopied(before, keys, src, dst, if ok then i + 1 else i)
      ensures Worked(answers, old(calls), calls, ok)
    {
      ok := Platform();
      if !ok { return false; }
      ghost var sum := keys[dst].values;
      SetValueKey(dst, name, value);
      NextValue(before, src, i);
      PutInSum(before[dst].values, FirstValues(before[src], i), name, value);
      assert keys[dst].values == sum[name := value];
    }

    method CopyRegistryKey(src: Path, dst: Path, overwrite: bool) returns (ok: bool)
      requires WellFormed(keys) && src in keys && dst in keys && Disjoint(src, dst)
      modifies `keys, `calls
      ensures Contained(old(keys), keys, dst)
      ensures ok ==> Merged(old(keys), keys, src, dst, overwrite)
      ensures Worked(answers, old(calls), calls, ok)
      decreases |Below(keys, src)|, 2
    {
      ok := Platform();
      if !ok { return false; }
      ghost var before := keys;
      NoKeyYet(before, src, dst);
      ok := CopyEachKey(before, src, dst);
      if !ok { return false; }
      AllKeys(before, keys, src, dst);
      if overwrite {
        ghost var mid := keys;
        ok := CopyRegistryValues(src, dst);
        TopCopied(before, mid, keys, src, dst, ok);
      }
    }

    /** The enumeration loop. */
    method CopyEachKey(ghost before: Keys, src: Path, dst: Path) returns (ok: bool)
      requires KeysCopied(before, keys, src, dst, 0)
      modifies `keys, `calls
      ensures Contained(before, keys, dst)
      ensures ok ==> KeysCopied(before, keys, src, dst, |before[src].subkeys|)
      ensures Worked(answers, old(calls), calls, ok)
      decreases |Below(before, src)|, 1
    {
      var i := 0;
      while true
        invariant KeysCopied(before, keys, src, dst, i)
        invariant Worked(answers, old(calls), calls, true)
        decreases |before[src].subkeys| - i
      {
        var more, name := EnumerateKey(src, i);
        if !more { return true; }
        ok := CopySubkey(before, src, dst, i, name);
        if !ok { return false; }
        i := i + 1;
      }
    }

    /** One turn of that loop: open the subkey on both sides and copy it whole. */
    method CopySubkey(ghost before: Keys, src: Path, dst: Path, i: nat, name: Name) returns (ok: bool)
      requires KeysCopied(before, keys, src, dst, i)
      requires i < |before[src].subkeys| && name == before[src].subkeys[i]
      modifies `keys, `calls
      ensures Contained(before, keys, dst)
      ensures ok ==> KeysCopied(before, keys, src, dst, i + 1)
      ensures Worked(answers, old(calls), calls, ok)
      decreases |Below(before, src)|, 0
    {
      ok := Platform();
      if !ok { return false; }
      ok := Platform();
      if !ok { return false; }
      ghost var mid := keys;
      OpenSubkey(before, src, dst, i, name);
      ghost var created := keys;
      ok := CopyRegistryKey(src + [name], dst + [name], true);
      SubkeyCopied(before, mid, created, keys, src, dst, i, ok);
    }

    /** Opens the source subkey and opens or creates its counterpart. */
    method OpenSubkey(ghost before: Keys, src: Path, dst: Path, i: nat, name: Name)
      requires KeysCopied(before, keys, src, dst, i)
      requires i < |before[src].subkeys| && name == before[src].subkeys[i]
      modifies `keys
      ensures Opened(old(keys), keys, src, dst, name)
      ensures src + [name] in before && |Below(keys, src + [name])| < |Below(before, src)|
    {
      ghost var mid := keys;
      CreateKey(dst, name);
      SubkeyReady(before, mid, keys, src, dst, i, name);
    }
  }

  // ----- the key loop

  /** Everything outside the destination is as before. */
  ghost predicate Contained(before: Keys, keys: Keys, dst: Path) {
    WellFormed(keys) && SameOutside(before, keys, dst) && dst in keys
  }

  /** What the loop has done when it asks for subkey `i`. */
  ghost predicate KeysCopied(before: Keys, keys: Keys, src: Path, dst: Path, i: nat) {
    && WellFormed(before) && src in before && dst in before && Disjoint(src, dst)
    && Contained(before, keys, dst) && src in keys && keys[src] == before[src]
    && i <= |before[src].subkeys| && MergedSome(before, keys, src, dst, before[src].subkeys[..i])
  }

  /** The subkey `n` is open on both sides, and nothing else has changed. */
  ghost predicate Opened(mid: Keys, created: Keys, src: Path, dst: Path, n: Name) {
    && WellFormed(created) && SameOutside(mid, created, dst) && dst in created
    && src + [n] in created && dst + [n] in created && Disjoint(src + [n], dst + [n])
    && forall p: Path :: (p in created <==> p in mid || p == dst + [n]) && Values(created, p) == Values(mid, p)
  }

  lemma NoKeyYet(keys: Keys, src: Path, dst: Path)
    requires WellFormed(keys) && src in keys && dst in keys && Disjoint(src, dst)
    ensures KeysCopied(keys, keys, src, dst, 0)
  {
  }

  lemma AllKeys(before: Keys, keys: Keys, src: Path, dst: Path)
    requires src in before && KeysCopied(before, keys, src, dst, |before[src].subkeys|)
    ensures Merged(before, keys, src, dst, false)
  {
    assert before[src].subkeys[..|before[src].subkeys|] == before[src].subkeys;
    MergeComplete(before, keys, src, dst);
  }

  /** What copying the top values as well, complete or not, means for the whole. */
  lemma TopCopied(before: Keys, mid: Keys, after: Keys, src: Path, dst: Path, ok: bool)
    requires Disjoint(src, dst) && src in before && dst in before && SameOutside(before, mid, dst)
    requires Merged(before, mid, src, dst, false)
    requires SameButValues(mid, after, dst) && dst in after && src in mid && dst in mid
    requires ok ==> after[dst].values == mid[dst].values + mid[src].values
    ensures SameOutside(before, after, dst)
    ensures ok ==> Merged(before, after, src, dst, true)
  {
    if ok {
      MergeTop(before, mid, after, src, dst);
    }
  }

  // ----- upkeep of the enumeration order

  lemma NothingBelow(keys: Keys, p: Path)
    requires WellFormed(keys) && p !in keys
    ensures forall n: Name :: p + [n] !in keys
  {
    forall n: Name
      ensures p + [n] !in keys
    {
    }
  }

  lemma LastStep(p: Path, n: Name, q: Path, m: Name)
    ensures p + [n] == q + [m] <==> p == q && n == m
  {
    if p + [n] == q + [m] {
      assert (p + [n])[..|p|] == p;
      assert (q + [m])[..|q|] == q;
      assert (p + [n])[|p|] == n && (q + [m])[|q|] == m;
    }
  }

  lemma CreatedWellFormed(before: Keys, after: Keys, p: Path, n: Name)
    requires WellFormed(before) && p in before && p + [n] !in before
    requires after == before[p := before[p].(subkeys := before[p].subkeys + [n])][p + [n] := Key([], map[], [])]
    ensures WellFormed(after)
  {
    NothingBelow(before, p + [n]);
    assert n !in before[p].subkeys;
    assert |p + [n]| != |p|;
    forall q: Path, m: Name
      ensures q + [m] in after <==> q in after && m in after[q].subkeys
    {
      LastStep(p, n, q, m);
      assert q + [m] in before <==> q in before && m in before[q].subkeys;
    }
  }

  lemma SetWellFormed(before: Keys, after: Keys, p: Path, n: Name, value: Value)
    requires WellFormed(before) && p in before
    requires after == before[p := before[p].(
      valueNames := if n in before[p].values then before[p].valueNames else before[p].valueNames + [n],
      values := before[p].values[n := value])]
    ensures WellFormed(after)
  {
    assert n in before[p].valueNames <==> n in before[p].values;
    forall q: Path, m: Name
      ensures q + [m] in after <==> q in after && m in after[q].subkeys
    {
      assert q + [m] in before <==> q in before && m in before[q].subkeys;
    }
    forall q: Path, m: Name | q in after
      ensures m in after[q].valueNames <==> m in after[q].values
    {
      assert m in before[q].valueNames <==> m in before[q].values;
    }
  }

  // ----- the value loop

  /** The values enumerated before index `i`. */
  ghost function FirstValues(key: Key, i: nat): map<Name, Value>
    requires i <= |key.valueNames|
  {
    map n | n in key.valueNames[..i] && n in key.values :: key.values[n]
  }

  /** What the loop has done when it asks for value `i`. */
  ghost predicate ValuesCopied(before: Keys, keys: Keys, src: Path, dst: Path, i: nat) {
    && src in before && dst in before && src != dst && i <= |before[src].valueNames| && WellFormed(before)
    && WellFormed(keys) && SameButValues(before, keys, dst) && dst in keys && src in keys && keys[src] == before[src]
    && keys[dst].values == before[dst].values + FirstValues(before[src], i)
  }

  lemma NoValueYet(keys: Keys, src: Path, dst: Path)
    requires WellFormed(keys) && src in keys && dst in keys && src != dst
    ensures ValuesCopied(keys, keys, src, dst, 0)
  {
    assert FirstValues(keys[src], 0) == map[];
    assert keys[dst].values + map[] == keys[dst].values;
  }

  lemma AllValues(keys: Keys, p: Path)
    requires WellFormed(keys) && p in keys
    ensures FirstValues(keys[p], |keys[p].valueNames|) == keys[p].values
  {
    var names := keys[p].valueNames;
    assert names[..|names|] == names;
    assert forall n :: n in names <==> n in keys[p].values;
  }

  lemma PutInSum(a: map<Name, Value>, b: map<Name, Value>, n: Name, v: Value)
    ensures (a + b)[n := v] == a + b[n := v]
  {
  }

  lemma NextValue(keys: Keys, p: Path, i: nat)
    requires WellFormed(keys) && p in keys && i < |keys[p].valueNames|
    ensures var n := keys[p].valueNames[i];
      n in keys[p].values && FirstValues(keys[p], i + 1) == FirstValues(keys[p], i)[n := keys[p].values[n]]
  {
    var names := keys[p].valueNames;
    assert names[i] in names;
    assert names[..i + 1] == names[..i] + [names[i]];
  }

  // ----- recursion and frame

  lemma BelowChild(before: Keys, created: Keys, src: Path, dst: Path, n: Name)
    requires Disjoint(src, dst) && src in before && SameOutside(before, created, dst)
    ensures |Below(created, src + [n])| < |Below(before, src)|
  {
    forall q | q in Below(created, src + [n])
      ensures q in Below(before, src)
    {
      assert (src + [n])[..|src|] == src == q[..|src|];
      DisjointOrigin(src, dst, q);
    }
    assert src in Below(before, src) && src !in Below(created, src + [n]);
    SmallerSet(Below(created, src + [n]), Below(before, src), src);
  }

  lemma SmallerSet(a: set<Path>, b: set<Path>, x: Path)
    requires a <= b && x in b && x !in a
    ensures |a| < |b|
  {
    SubsetSize(a, b - {x});
  }

  lemma {:induction false} SubsetSize(a: set<Path>, b: set<Path>)
    requires a <= b
    ensures |a| <= |b|
  {
    if a != {} {
      var x :| x in a;
      SubsetSize(a - {x}, b - {x});
    }
  }

  /** Both subkeys of a turn are open, apart from each other, and there is less to copy below them. */
  lemma SubkeyReady(before: Keys, mid: Keys, created: Keys, src: Path, dst: Path, i: nat, n: Name)
    requires KeysCopied(before, mid, src, dst, i) && i < |before[src].subkeys| && n == before[src].subkeys[i]
    requires WellFormed(created) && SameOutside(mid, created, dst) && dst in created
    requires forall p: Path :: (p in created <==> p in mid || p == dst + [n]) && Values(created, p) == Values(mid, p)
    ensures Opened(mid, created, src, dst, n)
    ensures src + [n] in before && |Below(created, src + [n])| < |Below(before, src)|
  {
    assert n in before[src].subkeys;
    assert src + [n] in before;
    SubkeyApart(before, mid, created, src, dst, n);
  }

  lemma SubkeyApart(before: Keys, mid: Keys, created: Keys, src: Path, dst: Path, n: Name)
    requires Disjoint(src, dst) && src in before && src + [n] in before
    requires SameOutside(before, mid, dst) && SameOutside(mid, created, dst)
    ensures src + [n] in created && Disjoint(src + [n], dst + [n])
    ensures |Below(created, src + [n])| < |Below(before, src)|
  {
    DisjointChild(src, dst, n);
    DisjointOrigin(src, dst, src + [n]);
    BelowChild(before, created, src, dst, n);
  }

  /** What the copy of one subkey, complete or not, means for the whole. */
  lemma SubkeyCopied(before: Keys, mid: Keys, created: Keys, after: Keys, src: Path, dst: Path, i: nat, ok: bool)
    requires KeysCopied(before, mid, src, dst, i) && i < |before[src].subkeys|
    requires var n := before[src].subkeys[i];
      && src + [n] in before && Opened(mid, created, src, dst, n) && Contained(created, after, dst + [n])
      && (ok ==> Merged(created, after, src + [n], dst + [n], true))
    ensures Contained(before, after, dst)
    ensures ok ==> KeysCopied(before, after, src, dst, i + 1)
  {
    var n := before[src].subkeys[i];
    SameOutsideChild(created, after, dst, n);
    SourceKept(before, after, src, dst);
    if ok {
      SubkeyMerged(before, mid, created, after, src, dst, i, n);
    }
  }

  lemma SubkeyMerged(before: Keys, mid: Keys, created: Keys, after: Keys, src: Path, dst: Path, i: nat, n: Name)
    requires src in before && Disjoint(src, dst) && NoDuplicates(before[src].subkeys)
    requires i < |before[src].subkeys| && n == before[src].subkeys[i] && src + [n] in before
    requires MergedSome(before, mid, src, dst, before[src].subkeys[..i])
    requires forall p: Path :: (p in created <==> p in mid || p == dst + [n]) && Values(created, p) == Values(mid, p)
    requires Merged(created, after, src + [n], dst + [n], true)
    ensures MergedSome(before, after, src, dst, before[src].subkeys[..i + 1])
  {
    assert before[src].subkeys[..i + 1] == before[src].subkeys[..i] + [n];
    MergeChild(before, mid, created, after, src, dst, before[src].subkeys[..i], n);
  }

  lemma SourceKept(before: Keys, after: Keys, src: Path, dst: Path)
    requires SameOutside(before, after, dst) && src in before && Disjoint(src, dst)
    ensures src in after && after[src] == before[src]
  {
    DisjointOrigin(src, dst, src);
  }

  lemma SameOutsideChild(before: Keys, after: Keys, dst: Path, n: Name)
    requires SameOutside(before, after, dst + [n])
    ensures SameOutside(before, after, dst)
    ensures dst in before <==> dst in after
  {
    forall p: Path
      ensures !(dst <= p) ==> (p in after <==> p in before) && (p in before ==> after[p] == before[p])
    {
      ChildPath(dst, dst, n, p);
    }
  }
}
