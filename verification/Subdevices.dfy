/**
 The adapter's cache of subdevices: named records that own references on a port, on a miniport and on
 the optional interfaces of the miniport.
 */
module Subdevices {

  datatype Option<+T> = None | Some(value: T)

  /** The identity of a COM object. */
  type Interface = nat

  datatype Record = Record(name: string, port: Interface, miniport: Interface, hasPower: bool, hasChange: bool)

  /** How many references on `x` one record owns: the optional interfaces are references on the miniport. */
  function Owns(r: Record, x: Interface): nat {
    (if r.port == x then 1 else 0)
    + (if r.miniport == x then 1 + (if r.hasPower then 1 else 0) + (if r.hasChange then 1 else 0) else 0)
  }

  function CacheOwns(cache: seq<Record>, x: Interface): nat {
    if cache == [] then 0 else Owns(cache[0], x) + CacheOwns(cache[1..], x)
  }

  predicate Distinct(cache: seq<Record>) {
    forall i, j :: 0 <= i < j < |cache| ==> cache[i].name != cache[j].name
  }

  predicate Named(cache: seq<Record>, name: string) {
    exists i :: 0 <= i < |cache| && cache[i].name == name
  }

  /** The first record of that name. */
  function Index(cache: seq<Record>, name: string): (i: nat)
    ensures i <= |cache|
    ensures i < |cache| <==> Named(cache, name)
    ensures i < |cache| ==> cache[i].name == name
    ensures forall j :: 0 <= j < i ==> cache[j].name != name
  {
    if cache == [] then 0
    else if cache[0].name == name then 0
    else
      var i := Index(cache[1..], name);
      assert Named(cache[1..], name) ==> cache[i + 1].name == name;
      assert forall j :: 0 < j <= i && j < |cache| ==> cache[j] == cache[1..][j - 1];
      i + 1
  }

  /** The cache without the first record of that name. */
  function Removed(cache: seq<Record>, name: string): seq<Record> {
    var i := Index(cache, name);
    if i < |cache| then cache[..i] + cache[i + 1..] else cache
  }

  // ----- the cache as a map

  function AsMap(cache: seq<Record>): map<string, (Interface, Interface)> {
    map n | n in NamesOf(cache) :: (cache[Index(cache, n)].port, cache[Index(cache, n)].miniport)
  }

  function NamesOf(cache: seq<Record>): (names: set<string>)
    ensures forall n :: n in names <==> Named(cache, n)
  {
    set i | 0 <= i < |cache| :: cache[i].name
  }

  lemma IndexUnique(cache: seq<Record>, i: nat)
    requires Distinct(cache) && i < |cache|
    ensures Index(cache, cache[i].name) == i
  {
    assert Named(cache, cache[i].name);
  }

  /** Caching a new name adds one entry to the map. */
  lemma CachingRefinesMap(cache: seq<Record>, r: Record)
    requires Distinct(cache) && !Named(cache, r.name)
    ensures Distinct(cache + [r])
    ensures AsMap(cache + [r]) == AsMap(cache)[r.name := (r.port, r.miniport)]
  {
    var longer := cache + [r];
    assert longer[|cache|].name == r.name;
    IndexUnique(longer, |cache|);
    forall n: string
      ensures n != r.name ==> (Named(longer, n) <==> Named(cache, n))
      ensures Named(cache, n) ==> Index(longer, n) == Index(cache, n)
    {
      if Named(cache, n) {
        assert longer[Index(cache, n)].name == n;
        IndexUnique(longer, Index(cache, n));
      }
    }
  }

  lemma RemovedAt(cache: seq<Record>, name: string, n: string)
    requires Distinct(cache) && Named(cache, name)
    ensures var shorter := Removed(cache, name);
      && Distinct(shorter)
      && (Named(shorter, n) <==> Named(cache, n) && n != name)
      && (Named(shorter, n) ==> shorter[Index(shorter, n)] == cache[Index(cache, n)])
  {
    var i, shorter := Index(cache, name), Removed(cache, name);
    assert forall j :: 0 <= j < |shorter| ==> shorter[j] == if j < i then cache[j] else cache[j + 1];
    if Named(shorter, n) {
      var k := Index(shorter, n);
      assert cache[if k < i then k else k + 1].name == n;
    }
    if Named(cache, n) && n != name {
      var k := Index(cache, n);
      assert shorter[if k < i then k else k - 1] == cache[k];
      IndexUnique(shorter, if k < i then k else k - 1);
    }
  }

  /** Removing a name takes away its entry and no other. */
  lemma RemovalRefinesMap(cache: seq<Record>, name: string)
    requires Distinct(cache)
    ensures Distinct(Removed(cache, name))
    ensures AsMap(Removed(cache, name)) == AsMap(cache) - {name}
  {
    if Named(cache, name) {
      RemovedAt(cache, name, name);
      forall n: string
        ensures n in AsMap(Removed(cache, name)) <==> n in AsMap(cache) - {name}
        ensures n in AsMap(Removed(cache, name)) ==> AsMap(Removed(cache, name))[n] == AsMap(cache)[n]
      {
        RemovedAt(cache, name, n);
      }
    } else {
      assert AsMap(cache) - {name} == AsMap(cache);
    }
  }

  // ----- the references of the cache

  lemma {:induction false} OwnsAppend(cache: seq<Record>, r: Record, x: Interface)
    ensures CacheOwns(cache + [r], x) == CacheOwns(cache, x) + Owns(r, x)
  {
    if cache == [] {
      assert [r][1..] == [];
    } else {
      OwnsAppend(cache[1..], r, x);
      assert (cache + [r])[1..] == cache[1..] + [r];
    }
  }

  lemma {:induction false} OwnsRemove(cache: seq<Record>, i: nat, x: Interface)
    requires i < |cache|
    ensures CacheOwns(cache, x) == CacheOwns(cache[..i] + cache[i + 1..], x) + Owns(cache[i], x)
  {
    var shorter := cache[..i] + cache[i + 1..];
    if i == 0 {
      assert shorter == cache[1..];
    } else {
      OwnsRemove(cache[1..], i - 1, x);
      assert shorter[1..] == cache[1..][..i - 1] + cache[1..][i..];
    }
  }

  /** Removing what was just appended. */
  lemma RemoveAppended(cache: seq<Record>, r: Record, tail: seq<Record>)
    requires !Named(cache, r.name)
    ensures Removed(cache + [r] + tail, r.name) == cache + tail
  {
    var longer := cache + [r] + tail;
    assert longer[|cache|] == r;
    assert forall j :: 0 <= j < |cache| ==> longer[j] == cache[j];
    assert Index(longer, r.name) == |cache|;
  }

  lemma RemoveAbsent(cache: seq<Record>, name: string)
    ensures !Named(cache, name) ==> Removed(cache, name) == cache
  {
  }
}
