/** Shared vocabulary: optional values, results, flattened sequences. */
module Prelude {

  datatype Option<+T> = None | Some(value: T) {
    function GetOr(default: T): T {
      if Some? then value else default
    }
  }

  datatype Result<+T, +E> = Ok(value: T) | Err(error: E)

  function Lookup<K, V>(m: map<K, V>, key: K): Option<V> {
    if key in m then Some(m[key]) else None
  }

  lemma Snoc<T>(s: seq<T>, x: T)
    ensures (s + [x])[..|s + [x]| - 1] == s && (s + [x])[|s + [x]| - 1] == x
  {
  }

  /** The concatenation of all parts, in order. */
  function Flatten<T>(parts: seq<seq<T>>): seq<T> {
    if parts == [] then [] else parts[0] + Flatten(parts[1..])
  }

  lemma {:induction false} FlattenAppend<T>(a: seq<seq<T>>, b: seq<seq<T>>)
    ensures Flatten(a + b) == Flatten(a) + Flatten(b)
  {
    if a == [] {
      assert a + b == b;
    } else {
      assert (a + b)[1..] == a[1..] + b;
      FlattenAppend(a[1..], b);
    }
  }

  predicate NoDuplicates<T(==)>(s: seq<T>) {
    forall i, j :: 0 <= i < j < |s| ==> s[i] != s[j]
  }

  function Elements<T(==)>(s: seq<T>): set<T> {
    set x | x in s
  }

  lemma ElementsSnoc<T>(s: seq<T>, x: T)
    ensures Elements(s + [x]) == Elements(s) + {x}
  {
  }

  lemma {:induction false} ElementsSize<T>(s: seq<T>)
    requires NoDuplicates(s)
    ensures |Elements(s)| == |s|
  {
    if s != [] {
      var n := |s| - 1;
      ElementsSize(s[..n]);
      ElementsSnoc(s[..n], s[n]);
      assert s == s[..n] + [s[n]];
    }
  }

  lemma {:induction false} SubsetSize<T>(a: set<T>, b: set<T>)
    requires a <= b
    ensures |a| <= |b|
  {
    if a != {} {
      var x :| x in a;
      SubsetSize(a - {x}, b - {x});
    }
  }

  lemma SameMultisetOnce<T>(a: seq<T>, b: seq<T>)
    requires multiset(a) == multiset(b) && NoDuplicates(a)
    ensures NoDuplicates(b)
  {
    CountsOnce(a);
    forall i, j | 0 <= i < j < |b| ensures b[i] != b[j] {
      CountsTwice(b, i, j);
    }
  }

  lemma CountsTwice<T>(s: seq<T>, i: nat, j: nat)
    requires i < j < |s|
    ensures s[i] == s[j] ==> multiset(s)[s[i]] >= 2
  {
    assert s == s[..i] + [s[i]] + s[i + 1..j] + [s[j]] + s[j + 1..];
  }

  lemma {:induction false} CountsOnce<T>(a: seq<T>)
    requires NoDuplicates(a)
    ensures forall x :: multiset(a)[x] <= 1
  {
    if a != [] {
      var n := |a| - 1;
      CountsOnce(a[..n]);
      assert a == a[..n] + [a[n]];
      assert a[n] !in a[..n];
    }
  }

  lemma DisjointSize<T>(a: set<T>, b: set<T>)
    requires a !! b
    ensures |a + b| == |a| + |b|
  {
  }
}

/** A Python `dict` / `OrderedDict`: pairs in insertion order, keys distinct.
    Position 0 is the oldest entry, which is the one every bounded map in the
    gateway evicts first. */
module OrderedDict {
  import opened Prelude

  type Dict<K(==), V> = seq<(K, V)>

  ghost predicate Distinct<K, V>(d: Dict<K, V>) {
    forall i, j :: 0 <= i < j < |d| ==> d[i].0 != d[j].0
  }

  predicate Has<K(==), V>(d: Dict<K, V>, key: K) {
    exists i :: 0 <= i < |d| && d[i].0 == key
  }

  function Find<K(==), V>(d: Dict<K, V>, key: K): (found: Option<V>)
    ensures found.None? <==> !Has(d, key)
    ensures found.Some? ==> (key, found.value) in d
  {
    if d == [] then None
    else if d[0].0 == key then
      assert Has(d, key);
      Some(d[0].1)
    else
      var rest := Find(d[1..], key);
      assert Has(d[1..], key) <==> Has(d, key) by {
        if Has(d, key) {
          var i :| 0 <= i < |d| && d[i].0 == key;
          assert d[1..][i - 1].0 == key;
        }
      }
      rest
  }

  /** `d[key] = value`: a known key keeps its position, a new one goes last. */
  function Store<K(==), V>(d: Dict<K, V>, key: K, value: V): Dict<K, V> {
    if d == [] then [(key, value)]
    else if d[0].0 == key then [(key, value)] + d[1..]
    else [d[0]] + Store(d[1..], key, value)
  }

  /** `d.pop(key, None)`. */
  function Delete<K(==), V>(d: Dict<K, V>, key: K): Dict<K, V> {
    if d == [] then []
    else if d[0].0 == key then d[1..]
    else [d[0]] + Delete(d[1..], key)
  }

  /** `while len(d) > bound: d.pop(next(iter(d)))`. */
  function EvictOldest<V, K(==)>(d: Dict<K, V>, bound: nat): (kept: Dict<K, V>)
    ensures |kept| == if |d| > bound then bound else |d|
  {
    if |d| > bound then d[|d| - bound..] else d
  }

  lemma FindAt<K, V>(d: Dict<K, V>, i: nat)
    requires Distinct(d) && i < |d|
    ensures Find(d, d[i].0) == Some(d[i].1)
  {
    if i > 0 {
      FindAt(d[1..], i - 1);
    }
  }

  lemma FindUnique<K, V>(d: Dict<K, V>, key: K, value: V)
    requires Distinct(d) && (key, value) in d
    ensures Find(d, key) == Some(value)
  {
    var i :| 0 <= i < |d| && d[i] == (key, value);
    FindAt(d, i);
  }

  lemma {:induction false} StoreLookup<K, V>(d: Dict<K, V>, key: K, value: V, other: K)
    ensures Find(Store(d, key, value), other) == if other == key then Some(value) else Find(d, other)
  {
    if d != [] && d[0].0 != key {
      StoreLookup(d[1..], key, value, other);
      assert ([d[0]] + Store(d[1..], key, value))[1..] == Store(d[1..], key, value);
    } else if d != [] {
      assert ([(key, value)] + d[1..])[1..] == d[1..];
    }
  }

  lemma {:induction false} StoreSize<K, V>(d: Dict<K, V>, key: K, value: V)
    ensures Find(d, key).None? ==> Store(d, key, value) == d + [(key, value)]
    ensures Find(d, key).Some? ==> |Store(d, key, value)| == |d|
  {
    if d != [] && d[0].0 != key {
      StoreSize(d[1..], key, value);
      assert d == [d[0]] + d[1..];
    }
  }

  /** The key at each position survives a store. */
  lemma {:induction false} StoreKeepsKeys<K, V>(d: Dict<K, V>, key: K, value: V, i: nat)
    requires i < |d|
    ensures |Store(d, key, value)| >= |d|
    ensures Store(d, key, value)[i].0 == d[i].0
    ensures d[i].0 != key ==> Store(d, key, value)[i] == d[i]
  {
    StoreSize(d, key, value);
    if d[0].0 != key && i > 0 {
      StoreKeepsKeys(d[1..], key, value, i - 1);
    }
  }

  lemma {:induction false} StoreMember<K, V>(d: Dict<K, V>, key: K, value: V, e: (K, V))
    requires Distinct(d) && e in Store(d, key, value)
    ensures e == (key, value) || (e in d && e.0 != key)
  {
    if d != [] && d[0].0 == key && e != (key, value) {
      var i :| 0 <= i < |d[1..]| && d[1..][i] == e;
      assert d[i + 1] == e;
    } else if d != [] && d[0].0 != key && e != d[0] {
      StoreMember(d[1..], key, value, e);
    }
  }

  lemma StoreDistinct<K, V>(d: Dict<K, V>, key: K, value: V)
    requires Distinct(d)
    ensures Distinct(Store(d, key, value))
  {
    var stored := Store(d, key, value);
    StoreSize(d, key, value);
    forall i | 0 <= i < |d| ensures stored[i].0 == d[i].0 {
      StoreKeepsKeys(d, key, value, i);
    }
    hide Store;
    if Find(d, key).None? {
      assert forall i :: 0 <= i < |d| ==> d[i].0 != key;
    }
  }

  lemma StoreShape<K, V>(d: Dict<K, V>, key: K, value: V)
    requires Distinct(d)
    ensures Find(d, key).None? ==> Store(d, key, value) == d + [(key, value)]
    ensures Find(d, key).Some? ==> |Store(d, key, value)| == |d|
    ensures forall e :: e in Store(d, key, value) ==> e == (key, value) || (e in d && e.0 != key)
    ensures Distinct(Store(d, key, value))
  {
    hide *;
    StoreSize(d, key, value);
    StoreDistinct(d, key, value);
    forall e | e in Store(d, key, value) ensures e == (key, value) || (e in d && e.0 != key) {
      StoreMember(d, key, value, e);
    }
  }

  lemma {:induction false} DeleteMembers<K, V>(d: Dict<K, V>, key: K)
    requires Distinct(d)
    ensures Distinct(Delete(d, key))
    ensures forall e :: e in Delete(d, key) ==> e in d && e.0 != key
    ensures forall e :: e in d && e.0 != key ==> e in Delete(d, key)
  {
    if d == [] {
    } else if d[0].0 == key {
      forall e | e in d && e.0 != key ensures e in d[1..] {
        var i :| 0 <= i < |d| && d[i] == e;
        assert d[1..][i - 1] == e;
      }
    } else {
      DeleteMembers(d[1..], key);
      assert d == [d[0]] + d[1..];
      var rest := Delete(d[1..], key);
      forall e | e in rest ensures e.0 != d[0].0 {
        var i :| 0 <= i < |d[1..]| && d[1..][i] == e;
        assert d[i + 1] == e;
      }
      assert forall j :: 0 <= j < |rest| ==> rest[j] in rest;
    }
  }

  lemma {:induction false} DeleteLookup<K, V>(d: Dict<K, V>, key: K, other: K)
    requires Distinct(d)
    ensures Find(Delete(d, key), other) == if other == key then None else Find(d, other)
  {
    if d == [] {
    } else if d[0].0 == key {
      assert !Has(d[1..], key);
    } else {
      DeleteLookup(d[1..], key, other);
      assert ([d[0]] + Delete(d[1..], key))[1..] == Delete(d[1..], key);
    }
  }

  // What the operations are, position by position.

  /** `d[key] = value`, told by positions. */
  ghost predicate IsStored<K, V>(d: Dict<K, V>, key: K, value: V, after: Dict<K, V>) {
    if exists i :: 0 <= i < |d| && d[i].0 == key
    then exists i :: 0 <= i < |d| && d[i].0 == key && after == d[i := (key, value)]
    else after == d + [(key, value)]
  }

  /** The dict without one key, order kept. */
  ghost predicate IsWithout<K, V>(d: Dict<K, V>, key: K, after: Dict<K, V>) {
    if exists i :: 0 <= i < |d| && d[i].0 == key
    then exists i :: 0 <= i < |d| && d[i].0 == key && after == d[..i] + d[i + 1..]
    else after == d
  }

  /** The youngest entries, as many as the bound allows. */
  ghost predicate IsYoungest<K, V>(d: Dict<K, V>, bound: nat, after: Dict<K, V>) {
    after == if |d| <= bound then d else d[|d| - bound..]
  }

  lemma {:induction false} StoreIs<K, V>(d: Dict<K, V>, key: K, value: V)
    ensures IsStored(d, key, value, Store(d, key, value))
  {
    if d == [] {
    } else if d[0].0 == key {
      assert [(key, value)] + d[1..] == d[0 := (key, value)];
    } else {
      StoreIs(d[1..], key, value);
      if exists i :: 0 <= i < |d| && d[i].0 == key {
        var j :| 0 <= j < |d| && d[j].0 == key;
        assert d[1..][j - 1].0 == key;
        var i :| 0 <= i < |d[1..]| && d[1..][i].0 == key && Store(d[1..], key, value) == d[1..][i := (key, value)];
        assert d[i + 1].0 == key && Store(d, key, value) == d[i + 1 := (key, value)];
      } else {
        assert forall i :: 0 <= i < |d[1..]| ==> d[1..][i] == d[i + 1];
        assert d == [d[0]] + d[1..];
      }
    }
  }

  lemma {:induction false} DeleteIs<K, V>(d: Dict<K, V>, key: K)
    ensures IsWithout(d, key, Delete(d, key))
  {
    hide IsWithout;
    if d == [] {
      NoneWithout(d, key);
    } else if d[0].0 == key {
      WithoutAt(d, 0, key);
      assert d[..0] + d[1..] == d[1..];
    } else {
      DeleteIs(d[1..], key);
      WithoutNext(d, key, Delete(d[1..], key));
    }
  }

  lemma NoneWithout<K, V>(d: Dict<K, V>, key: K)
    requires forall i :: 0 <= i < |d| ==> d[i].0 != key
    ensures IsWithout(d, key, d)
  {
  }

  lemma WithoutAt<K, V>(d: Dict<K, V>, i: nat, key: K)
    requires i < |d| && d[i].0 == key
    ensures IsWithout(d, key, d[..i] + d[i + 1..])
  {
  }

  lemma WithoutNext<K, V>(d: Dict<K, V>, key: K, after: Dict<K, V>)
    requires d != [] && d[0].0 != key && IsWithout(d[1..], key, after)
    ensures IsWithout(d, key, [d[0]] + after)
  {
    var rest := d[1..];
    if exists i :: 0 <= i < |rest| && rest[i].0 == key {
      var i :| 0 <= i < |rest| && rest[i].0 == key && after == rest[..i] + rest[i + 1..];
      assert d[i + 1].0 == key;
      assert [d[0]] + after == d[..i + 1] + d[i + 1 + 1..];
      hide IsWithout;
      WithoutAt(d, i + 1, key);
    } else {
      assert forall i :: 0 <= i < |rest| ==> rest[i] == d[i + 1];
      assert d == [d[0]] + rest;
      NoneWithout(d, key);
    }
  }

  lemma EvictIs<K, V>(d: Dict<K, V>, bound: nat)
    ensures IsYoungest(d, bound, EvictOldest(d, bound))
  {
  }

  /** `while len(d) > bound: d.pop(next(iter(d)))`. */
  method DropOldest<K(==), V>(d: Dict<K, V>, bound: nat) returns (kept: Dict<K, V>)
    ensures kept == EvictOldest(d, bound)
    ensures Distinct(d) ==> Distinct(kept)
  {
    kept := d;
    ghost var dropped := 0;
    while |kept| > bound
      invariant dropped <= |d| && kept == d[dropped..]
      invariant dropped == 0 || |kept| >= bound
    {
      kept := kept[1..];
      dropped := dropped + 1;
    }
  }

  lemma LastSurvives<K, V>(d: Dict<K, V>, key: K, value: V, bound: nat)
    requires Distinct(d)
    ensures bound > 0 && Find(d, key).None? ==> Find(EvictOldest(Store(d, key, value), bound), key) == Some(value)
  {
    if bound > 0 && Find(d, key).None? {
      StoreShape(d, key, value);
      var kept := EvictOldest(Store(d, key, value), bound);
      FindAt(kept, |kept| - 1);
    }
  }

  lemma DeleteSize<K, V>(d: Dict<K, V>, key: K)
    ensures |Delete(d, key)| == if Find(d, key).Some? then |d| - 1 else |d|
  {
  }

  lemma DeleteAbsent<K, V>(d: Dict<K, V>, key: K)
    requires Find(d, key).None?
    ensures Delete(d, key) == d
  {
  }
}

/** Decoded JSON values; objects keep their key order, as Python's do. */
module Json {
  import opened OrderedDict

  datatype Json =
    | Null
    | Bool(truth: bool)
    | Num(value: real)
    | Str(text: string)
    | Arr(items: seq<Json>)
    | Obj(fields: Dict<string, Json>)
}
