/** `d.setdefault(key(x), []).append(x)` over a list: groups in order of first
    appearance, members in list order. */
module Grouping {
  import opened Prelude
  import opened OrderedDict

  /** The members of one group. */
  function Having<T(==,!new), K(==)>(s: seq<T>, key: T -> K, k: K): (r: seq<T>)
    ensures forall x :: x in r <==> x in s && key(x) == k
    ensures NoDuplicates(s) ==> NoDuplicates(r)
  {
    if s == [] then []
    else
      var n := |s| - 1;
      Having(s[..n], key, k) + if key(s[n]) == k then [s[n]] else []
  }

  function Group<T(==,!new), K(==)>(s: seq<T>, key: T -> K, k: K): Option<seq<T>> {
    var mine := Having(s, key, k);
    if mine == [] then None else Some(mine)
  }

  function Append<T(==,!new), K(==)>(d: Dict<K, seq<T>>, k: K, x: T): Dict<K, seq<T>> {
    Store(d, k, Find(d, k).GetOr([]) + [x])
  }

  function Grouped<T(==,!new), K(==)>(s: seq<T>, key: T -> K): Dict<K, seq<T>> {
    if s == [] then []
    else
      var n := |s| - 1;
      Append(Grouped(s[..n], key), key(s[n]), s[n])
  }

  method GroupBy<T(==,!new), K(==)>(s: seq<T>, key: T -> K) returns (groups: Dict<K, seq<T>>)
    ensures groups == Grouped(s, key)
  {
    groups := [];
    var i := 0;
    while i < |s|
      invariant i <= |s| && groups == Grouped(s[..i], key)
    {
      assert s[..i + 1][..i] == s[..i];
      groups := Append(groups, key(s[i]), s[i]);
      i := i + 1;
    }
    assert s[..i] == s;
  }

  lemma GroupSnoc<T(!new), K>(s: seq<T>, key: T -> K, x: T, k: K)
    ensures Group(s + [x], key, k) == if key(x) == k then Some(Group(s, key, k).GetOr([]) + [x]) else Group(s, key, k)
  {
    assert (s + [x])[..|s|] == s;
    assert Having(s, key, k) + [] == Having(s, key, k);
  }

  /** Each key leads to exactly its members, and no key is listed twice. */
  lemma {:induction false} GroupedHolds<T(!new), K>(s: seq<T>, key: T -> K, k: K)
    ensures Distinct(Grouped(s, key)) && Find(Grouped(s, key), k) == Group(s, key, k)
  {
    if s != [] {
      var n := |s| - 1;
      var front, x := s[..n], s[n];
      assert s == front + [x];
      GroupedHolds(front, key, k);
      GroupedHolds(front, key, key(x));
      GroupSnoc(front, key, x, k);
      GroupSnoc(front, key, x, key(x));
      var d := Grouped(front, key);
      StoreDistinct(d, key(x), Find(d, key(x)).GetOr([]) + [x]);
      StoreLookup(d, key(x), Find(d, key(x)).GetOr([]) + [x], k);
      hide Group, Store, Find, Distinct;
    }
  }

  /** What one entry of the grouping holds. */
  lemma GroupEntry<T(!new), K>(s: seq<T>, key: T -> K, i: nat)
    requires i < |Grouped(s, key)|
    ensures var k, members := Grouped(s, key)[i].0, Grouped(s, key)[i].1;
            && members == Having(s, key, k) && members != []
            && (NoDuplicates(s) ==> NoDuplicates(members))
            && (forall x :: x in members <==> x in s && key(x) == k)
  {
    var groups := Grouped(s, key);
    GroupedHolds(s, key, groups[i].0);
    FindAt(groups, i);
    hide Grouped, Find, Distinct;
  }

  lemma InSomeGroup<T(!new), K>(s: seq<T>, key: T -> K, x: T) returns (i: nat)
    requires x in s
    ensures i < |Grouped(s, key)| && Grouped(s, key)[i].0 == key(x) && x in Grouped(s, key)[i].1
  {
    var groups := Grouped(s, key);
    GroupedHolds(s, key, key(x));
    assert x in Having(s, key, key(x));
    hide Grouped;
    assert Has(groups, key(x));
    i :| 0 <= i < |groups| && groups[i].0 == key(x);
    FindAt(groups, i);
  }
}
