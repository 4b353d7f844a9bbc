/** Python's `sorted`: a stable sort under a total preorder. */
module Sorting {
  ghost predicate Preorder<T(!new)>(leq: (T, T) -> bool) {
    && (forall a, b :: leq(a, b) || leq(b, a))
    && (forall a, b, c :: leq(a, b) && leq(b, c) ==> leq(a, c))
  }

  function Insert<T>(x: T, s: seq<T>, leq: (T, T) -> bool): seq<T> {
    if s == [] then [x]
    else if leq(x, s[0]) then [x] + s
    else [s[0]] + Insert(x, s[1..], leq)
  }

  function Sort<T>(s: seq<T>, leq: (T, T) -> bool): seq<T> {
    if s == [] then [] else Insert(s[0], Sort(s[1..], leq), leq)
  }

  ghost predicate Ordered<T>(s: seq<T>, leq: (T, T) -> bool) {
    forall i, j :: 0 <= i < j < |s| ==> leq(s[i], s[j])
  }

  lemma {:induction false} InsertKeepsAll<T>(x: T, s: seq<T>, leq: (T, T) -> bool)
    ensures multiset(Insert(x, s, leq)) == multiset(s) + multiset{x}
  {
    if s != [] && !leq(x, s[0]) {
      InsertKeepsAll(x, s[1..], leq);
      assert s == [s[0]] + s[1..];
    }
  }

  lemma {:induction false} InsertKeepsOrder<T(!new)>(x: T, s: seq<T>, leq: (T, T) -> bool)
    requires Preorder(leq) && Ordered(s, leq)
    ensures Ordered(Insert(x, s, leq), leq)
  {
    if s != [] && leq(x, s[0]) {
      assert forall j :: 0 <= j < |s| ==> leq(x, s[j]);
    } else if s != [] {
      InsertKeepsOrder(x, s[1..], leq);
      var rest := Insert(x, s[1..], leq);
      InsertMembers(x, s[1..], leq);
      forall j | 0 <= j < |rest| ensures leq(s[0], rest[j]) {
        assert rest[j] in rest;
      }
    }
  }

  lemma InsertMembers<T>(x: T, s: seq<T>, leq: (T, T) -> bool)
    ensures forall y :: y in Insert(x, s, leq) <==> y == x || y in s
    ensures |Insert(x, s, leq)| == |s| + 1
  {
    InsertKeepsAll(x, s, leq);
    var r := Insert(x, s, leq);
    forall y ensures y in r <==> y == x || y in s {
      assert y in r <==> y in multiset(r);
      assert y in s <==> y in multiset(s);
    }
    assert |r| == |multiset(r)| && |s| == |multiset(s)|;
  }

  lemma {:induction false} SortSorts<T(!new)>(s: seq<T>, leq: (T, T) -> bool)
    requires Preorder(leq)
    ensures Ordered(Sort(s, leq), leq)
  {
    if s != [] {
      SortSorts(s[1..], leq);
      InsertKeepsOrder(s[0], Sort(s[1..], leq), leq);
    }
  }

  lemma {:induction false} SortKeepsAll<T>(s: seq<T>, leq: (T, T) -> bool)
    ensures multiset(Sort(s, leq)) == multiset(s)
    ensures |Sort(s, leq)| == |s|
    ensures forall y :: y in Sort(s, leq) <==> y in s
  {
    if s != [] {
      SortKeepsAll(s[1..], leq);
      InsertKeepsAll(s[0], Sort(s[1..], leq), leq);
      InsertMembers(s[0], Sort(s[1..], leq), leq);
      assert s == [s[0]] + s[1..];
    }
  }

  /** Position `i` comes no later than `j`, and strictly earlier in the input on a tie. */
  ghost predicate StableAt<T>(a: T, b: T, leq: (T, T) -> bool, pos: T -> int) {
    leq(a, b) && (leq(b, a) ==> pos(a) < pos(b))
  }

  ghost predicate Stable<T>(s: seq<T>, leq: (T, T) -> bool, pos: T -> int) {
    forall i, j :: 0 <= i < j < |s| ==> StableAt(s[i], s[j], leq, pos)
  }

  lemma {:induction false} InsertIsStable<T(!new)>(x: T, s: seq<T>, leq: (T, T) -> bool, pos: T -> int)
    requires Preorder(leq) && Stable(s, leq, pos) && forall y :: y in s ==> pos(x) < pos(y)
    ensures Stable(Insert(x, s, leq), leq, pos)
  {
    if s != [] && leq(x, s[0]) {
      forall j | 0 <= j < |s| ensures StableAt(x, s[j], leq, pos) {
        assert s[j] in s;
        assert j > 0 ==> StableAt(s[0], s[j], leq, pos);
      }
    } else if s != [] {
      InsertIsStable(x, s[1..], leq, pos);
      var rest := Insert(x, s[1..], leq);
      InsertMembers(x, s[1..], leq);
      forall j | 0 <= j < |rest| ensures StableAt(s[0], rest[j], leq, pos) {
        assert rest[j] in rest;
        if rest[j] != x {
          var k :| 0 <= k < |s[1..]| && s[1..][k] == rest[j];
          assert StableAt(s[0], s[k + 1], leq, pos);
        }
      }
    }
  }

  /** Equal elements keep their input order. */
  lemma {:induction false} SortIsStable<T(!new)>(s: seq<T>, leq: (T, T) -> bool, pos: T -> int)
    requires Preorder(leq) && forall i, j :: 0 <= i < j < |s| ==> pos(s[i]) < pos(s[j])
    ensures Stable(Sort(s, leq), leq, pos)
  {
    if s != [] {
      SortIsStable(s[1..], leq, pos);
      SortKeepsAll(s[1..], leq);
      InsertIsStable(s[0], Sort(s[1..], leq), leq, pos);
    }
  }

  lemma HeadIsLeast<T>(a: seq<T>, x: T, leq: (T, T) -> bool)
    requires Ordered(a, leq) && x in multiset(a)
    ensures a != [] && (leq(a[0], x) || a[0] == x)
  {
    assert x in a;
    var i :| 0 <= i < |a| && a[i] == x;
  }

  lemma TailMultiset<T>(a: seq<T>)
    requires a != []
    ensures multiset(a) == multiset{a[0]} + multiset(a[1..])
    ensures multiset(a[1..]) == multiset(a) - multiset{a[0]}
  {
    assert a == [a[0]] + a[1..];
  }

  ghost predicate NoTies<T>(a: seq<T>, leq: (T, T) -> bool) {
    forall x, y :: x in a && y in a && leq(x, y) && leq(y, x) ==> x == y
  }

  /** Two orderings of the same elements are one, when no two distinct elements tie. */
  lemma {:induction false} OrderedUnique<T(!new)>(a: seq<T>, b: seq<T>, leq: (T, T) -> bool)
    requires multiset(a) == multiset(b) && Ordered(a, leq) && Ordered(b, leq) && NoTies(a, leq)
    ensures a == b
  {
    if a == [] {
      assert |b| == |multiset(b)|;
    } else {
      assert a[0] in multiset(a);
      HeadIsLeast(b, a[0], leq);
      assert b[0] in multiset(b);
      HeadIsLeast(a, b[0], leq);
      assert b[0] in a;
      assert a[0] == b[0];
      TailMultiset(a);
      TailMultiset(b);
      Tails(a, leq);
      Tails(b, leq);
      hide Ordered, NoTies;
      assert a == [a[0]] + a[1..] && b == [b[0]] + b[1..];
      OrderedUnique(a[1..], b[1..], leq);
    }
  }

  lemma Tails<T>(a: seq<T>, leq: (T, T) -> bool)
    requires a != []
    ensures Ordered(a, leq) ==> Ordered(a[1..], leq)
    ensures NoTies(a, leq) ==> NoTies(a[1..], leq)
  {
  }

  /** Sorting forgets the order it was given, when no two distinct elements tie. */
  lemma SortForgetsOrder<T(!new)>(a: seq<T>, b: seq<T>, leq: (T, T) -> bool)
    requires Preorder(leq) && multiset(a) == multiset(b)
    requires NoTies(a, leq)
    ensures Sort(a, leq) == Sort(b, leq)
  {
    SortKeepsAll(a, leq);
    SortKeepsAll(b, leq);
    SortSorts(a, leq);
    SortSorts(b, leq);
    OrderedUnique(Sort(a, leq), Sort(b, leq), leq);
  }

  // Sums over a list ---------------------------------------------------------

  function Sum<T>(s: seq<T>, weight: T -> nat): nat {
    if s == [] then 0 else Sum(s[..|s| - 1], weight) + weight(s[|s| - 1])
  }

  lemma {:induction false} SumAppend<T>(a: seq<T>, b: seq<T>, weight: T -> nat)
    ensures Sum(a + b, weight) == Sum(a, weight) + Sum(b, weight)
  {
    if b == [] {
      assert a + b == a;
    } else {
      var n := |b| - 1;
      assert (a + b)[..|a + b| - 1] == a + b[..n];
      SumAppend(a, b[..n], weight);
    }
  }

  lemma SumFirst<T>(s: seq<T>, weight: T -> nat)
    requires s != []
    ensures Sum(s, weight) == weight(s[0]) + Sum(s[1..], weight)
  {
    assert s == [s[0]] + s[1..] && [s[0]][..0] == [];
    SumAppend([s[0]], s[1..], weight);
  }

  lemma {:induction false} SumInsert<T>(x: T, s: seq<T>, leq: (T, T) -> bool, weight: T -> nat)
    ensures Sum(Insert(x, s, leq), weight) == weight(x) + Sum(s, weight)
  {
    var r := Insert(x, s, leq);
    SumFirst(r, weight);
    if s != [] && !leq(x, s[0]) {
      SumInsert(x, s[1..], leq, weight);
      SumFirst(s, weight);
    }
  }

  /** Sorting changes no sum. */
  lemma {:induction false} SumSort<T>(s: seq<T>, leq: (T, T) -> bool, weight: T -> nat)
    ensures Sum(Sort(s, leq), weight) == Sum(s, weight)
  {
    if s != [] {
      SumSort(s[1..], leq, weight);
      SumInsert(s[0], Sort(s[1..], leq), leq, weight);
      SumFirst(s, weight);
    }
  }
}
