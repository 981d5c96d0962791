/**
 * Ordering (label, value) pairs by their value, as Python's `sorted(items, key=lambda x: x[1])`
 * and `list.sort(key=lambda x: x[1])` do: the sort is stable, so pairs with equal values keep
 * their relative order, also when `reverse=True`.
 */
module KeySort {

  /** A (label, value) pair: a dictionary item, or a (name, amount) conversion line. */
  type Item = (string, real)

  /** Whether value `a` may stand before value `b`: non-decreasing, or non-increasing when `descending`. */
  predicate InOrder(a: real, b: real, descending: bool)
  {
    if descending then a >= b else a <= b
  }

  predicate Sorted(s: seq<Item>, descending: bool)
  {
    forall i, j :: 0 <= i < j < |s| ==> InOrder(s[i].1, s[j].1, descending)
  }

  /** The pairs of `s` whose value is `v`, in the order they have in `s`. */
  function WithValue(s: seq<Item>, v: real): seq<Item>
  {
    if s == [] then []
    else (if s[0].1 == v then [s[0]] else []) + WithValue(s[1..], v)
  }

  /**
   * `out` is what a stable sort of `s` by value yields: it is ordered, and for every value the
   * pairs carrying it are the same pairs in the same order as in `s`.
   */
  ghost predicate IsStableSortOf(out: seq<Item>, s: seq<Item>, descending: bool)
  {
    && Sorted(out, descending)
    && forall v :: WithValue(out, v) == WithValue(s, v)
  }

  /** Places `x` before the first pair of `t` that it may precede. */
  function Insert(x: Item, t: seq<Item>, descending: bool): (r: seq<Item>)
    ensures |r| == |t| + 1
    ensures multiset(r) == multiset(t) + multiset{x}
  {
    if t == [] || InOrder(x.1, t[0].1, descending) then [x] + t
    else assert t == [t[0]] + t[1..]; [t[0]] + Insert(x, t[1..], descending)
  }

  /** Python's `sorted(s, key=lambda x: x[1], reverse=descending)`. */
  function StableSort(s: seq<Item>, descending: bool): (r: seq<Item>)
    ensures |r| == |s|
    ensures multiset(r) == multiset(s)
  {
    if s == [] then []
    else assert s == [s[0]] + s[1..]; Insert(s[0], StableSort(s[1..], descending), descending)
  }

  lemma {:induction false} WithValueAppend(a: seq<Item>, b: seq<Item>, v: real)
    ensures WithValue(a + b, v) == WithValue(a, v) + WithValue(b, v)
  {
    if a == [] {
      assert a + b == b;
    } else {
      var head := if a[0].1 == v then [a[0]] else [];
      assert (a + b)[0] == a[0];
      assert (a + b)[1..] == a[1..] + b;
      assert WithValue(a + b, v) == head + WithValue(a[1..] + b, v);
      WithValueAppend(a[1..], b, v);
      assert WithValue(a, v) == head + WithValue(a[1..], v);
    }
  }

  lemma WithValueSingle(e: Item, v: real)
    ensures WithValue([e], v) == if e.1 == v then [e] else []
  {
    var s := [e];
    assert s[1..] == [];
    assert WithValue(s[1..], v) == [];
    assert WithValue(s, v) == (if e.1 == v then [e] else []) + [];
  }

  lemma {:induction false} InsertOrdered(x: Item, t: seq<Item>, descending: bool)
    requires Sorted(t, descending)
    ensures Sorted(Insert(x, t, descending), descending)
  {
    if !(t == [] || InOrder(x.1, t[0].1, descending)) {
      var rest := Insert(x, t[1..], descending);
      InsertOrdered(x, t[1..], descending);
      forall k | 0 <= k < |rest|
        ensures InOrder(t[0].1, rest[k].1, descending)
      {
        assert rest[k] in multiset(rest);
        assert rest[k] == x || rest[k] in multiset(t[1..]);
      }
      var r := [t[0]] + rest;
      assert r == Insert(x, t, descending);
      forall i, j | 0 <= i < j < |r|
        ensures InOrder(r[i].1, r[j].1, descending)
      {
        if i > 0 {
          assert r[i] == rest[i - 1] && r[j] == rest[j - 1];
        } else {
          assert r[j] == rest[j - 1];
        }
      }
    }
  }

  lemma {:induction false} InsertGroups(x: Item, t: seq<Item>, descending: bool, v: real)
    ensures WithValue(Insert(x, t, descending), v) == WithValue([x] + t, v)
  {
    if !(t == [] || InOrder(x.1, t[0].1, descending)) {
      var rest := Insert(x, t[1..], descending);
      InsertGroups(x, t[1..], descending, v);
      assert Insert(x, t, descending) == [t[0]] + rest;
      assert t == [t[0]] + t[1..];
      WithValueAppend([t[0]], rest, v);
      WithValueAppend([x], t[1..], v);
      WithValueAppend([t[0]], t[1..], v);
      WithValueAppend([x], t, v);
      WithValueSingle(x, v);
      WithValueSingle(t[0], v);
      // `x` passes over `t[0]` only when their values differ, so at most one of them is kept
      SwapPairGroups(WithValue([x], v), WithValue([t[0]], v), WithValue(t[1..], v));
    }
  }

  lemma SwapPairGroups(a: seq<Item>, b: seq<Item>, c: seq<Item>)
    requires a == [] || b == []
    ensures b + (a + c) == a + (b + c)
  {
    if a == [] {
      assert a + c == c && a + (b + c) == b + c;
    } else {
      assert b + (a + c) == a + c && b + c == c;
    }
  }

  /** The stable sort of `s` is ordered and keeps equal-valued pairs in the order of `s`. */
  lemma {:induction false} StableSortCorrect(s: seq<Item>, descending: bool)
    ensures IsStableSortOf(StableSort(s, descending), s, descending)
  {
    if s != [] {
      var rest := StableSort(s[1..], descending);
      StableSortCorrect(s[1..], descending);
      InsertOrdered(s[0], rest, descending);
      forall v
        ensures WithValue(StableSort(s, descending), v) == WithValue(s, v)
      {
        InsertGroups(s[0], rest, descending, v);
        WithValueAppend([s[0]], rest, v);
        WithValueAppend([s[0]], s[1..], v);
        assert s == [s[0]] + s[1..];
      }
    }
  }

  lemma {:induction false} WithValueCount(s: seq<Item>, e: Item)
    ensures multiset(WithValue(s, e.1))[e] == multiset(s)[e]
  {
    if s != [] {
      WithValueCount(s[1..], e);
      WithValueAppend([s[0]], s[1..], e.1);
      assert s == [s[0]] + s[1..];
      assert WithValue(s, e.1) == (if s[0].1 == e.1 then [s[0]] else []) + WithValue(s[1..], e.1);
    }
  }

  /** A stable sort is a permutation of its input. */
  lemma StableSortIsPermutation(out: seq<Item>, s: seq<Item>, descending: bool)
    requires IsStableSortOf(out, s, descending)
    ensures multiset(out) == multiset(s)
  {
    forall e
      ensures multiset(out)[e] == multiset(s)[e]
    {
      WithValueCount(out, e);
      WithValueCount(s, e);
    }
  }

  lemma {:induction false} WithValueNonEmpty(s: seq<Item>, i: nat)
    requires i < |s|
    ensures WithValue(s, s[i].1) != []
  {
    if i > 0 {
      WithValueNonEmpty(s[1..], i - 1);
      assert s[1..][i - 1] == s[i];
    }
  }

  lemma {:induction false} WithValueMember(s: seq<Item>, v: real)
    requires WithValue(s, v) != []
    ensures exists i :: 0 <= i < |s| && s[i].1 == v
  {
    if s[0].1 != v {
      WithValueMember(s[1..], v);
      var i :| 0 <= i < |s[1..]| && s[1..][i].1 == v;
      assert s[i + 1].1 == v;
    }
  }

  /** At most one sequence is a stable sort of a given input: the result of a stable sort is determined. */
  lemma {:induction false} StableSortUnique(x: seq<Item>, y: seq<Item>, descending: bool)
    requires Sorted(x, descending) && Sorted(y, descending)
    requires forall v :: WithValue(x, v) == WithValue(y, v)
    ensures x == y
  {
    if x != [] {
      WithValueNonEmpty(x, 0);
    }
    if y != [] {
      WithValueNonEmpty(y, 0);
    }
    if x != [] {
      WithValueMember(y, x[0].1);
      WithValueMember(x, y[0].1);
      var i :| 0 <= i < |y| && y[i].1 == x[0].1;
      var j :| 0 <= j < |x| && x[j].1 == y[0].1;
      assert InOrder(y[0].1, y[i].1, descending) || i == 0;
      assert InOrder(x[0].1, x[j].1, descending) || j == 0;
      assert x[0].1 == y[0].1;
      assert x[0] == y[0] by {
        assert WithValue(x, x[0].1)[0] == x[0];
        assert WithValue(y, y[0].1)[0] == y[0];
      }
      forall v
        ensures WithValue(x[1..], v) == WithValue(y[1..], v)
      {
        var head := if x[0].1 == v then [x[0]] else [];
        assert WithValue(x, v) == head + WithValue(x[1..], v);
        assert WithValue(y, v) == head + WithValue(y[1..], v);
        assert WithValue(x[1..], v) == (head + WithValue(x[1..], v))[|head|..];
        assert WithValue(y[1..], v) == (head + WithValue(y[1..], v))[|head|..];
      }
      StableSortUnique(x[1..], y[1..], descending);
      assert x == [x[0]] + x[1..] && y == [y[0]] + y[1..];
    }
  }

  /** A sequence whose neighbours are in order is sorted. */
  lemma {:induction false} AdjacentSorted(s: seq<Item>, descending: bool)
    requires forall i :: 0 <= i < |s| - 1 ==> InOrder(s[i].1, s[i + 1].1, descending)
    ensures Sorted(s, descending)
  {
    if |s| > 1 {
      AdjacentSorted(s[1..], descending);
      forall j | 1 <= j < |s|
        ensures InOrder(s[0].1, s[j].1, descending)
      {
        assert s[1..][j - 1] == s[j];
        assert InOrder(s[1..][0].1, s[1..][j - 1].1, descending) || j == 1;
      }
      assert forall i, j :: 1 <= i < j < |s| ==> s[1..][i - 1] == s[i] && s[1..][j - 1] == s[j];
    }
  }

  /** Any stable sort of `s` is the one `StableSort` computes. */
  lemma StableSortOfIsStableSort(out: seq<Item>, s: seq<Item>, descending: bool)
    requires IsStableSortOf(out, s, descending)
    ensures out == StableSort(s, descending)
  {
    StableSortCorrect(s, descending);
    StableSortUnique(out, StableSort(s, descending), descending);
  }

  lemma SwapPairKeepsGroups(a: Item, b: Item, v: real)
    requires a.1 != b.1
    ensures WithValue([a, b], v) == WithValue([b, a], v)
  {
    assert [a, b][1..] == [b] && [b, a][1..] == [a];
  }

  /** Exchanging two neighbours with different values changes no group of equal values. */
  lemma SwapKeepsGroups(s: seq<Item>, j: nat, v: real)
    requires 0 < j < |s| && s[j - 1].1 != s[j].1
    ensures WithValue(s[j - 1 := s[j]][j := s[j - 1]], v) == WithValue(s, v)
  {
    var pre, post := s[..j - 1], s[j + 1..];
    var ab, ba := [s[j - 1], s[j]], [s[j], s[j - 1]];
    assert s == pre + ab + post;
    assert s[j - 1 := s[j]][j := s[j - 1]] == pre + ba + post;
    WithValueAppend(pre + ab, post, v);
    WithValueAppend(pre, ab, v);
    WithValueAppend(pre + ba, post, v);
    WithValueAppend(pre, ba, v);
    SwapPairKeepsGroups(s[j - 1], s[j], v);
  }

  /**
   * Python's `list.sort(key=lambda x: x[1])` on the list held in `a`: an insertion sort by
   * adjacent swaps that never moves a pair past one with the same value.
   */
  method SortByValue(a: array<Item>)
    modifies a
    ensures IsStableSortOf(a[..], old(a[..]), false)
    ensures a[..] == StableSort(old(a[..]), false)
  {
    ghost var orig := a[..];
    var i := 1;
    while i < a.Length
      invariant 1 <= i <= a.Length || a.Length == 0
      invariant forall p, q :: 0 <= p < q < i && q < a.Length ==> a[p].1 <= a[q].1
      invariant forall v :: WithValue(a[..], v) == WithValue(orig, v)
    {
      SinkLast(a, i);
      i := i + 1;
    }
    StableSortOfIsStableSort(a[..], orig, false);
  }

  /**
   * One step of the insertion sort: with `a[..i]` ordered, swaps `a[i]` down past the larger
   * values before it, which leaves `a[..i + 1]` ordered and keeps every group of equal values.
   */
  method SinkLast(a: array<Item>, i: int)
    modifies a
    requires 0 < i < a.Length
    requires forall p, q :: 0 <= p < q < i ==> a[p].1 <= a[q].1
    ensures forall p, q :: 0 <= p < q <= i ==> a[p].1 <= a[q].1
    ensures forall p :: i < p < a.Length ==> a[p] == old(a[p])
    ensures forall v :: WithValue(a[..], v) == WithValue(old(a[..]), v)
  {
    var j := i;
    while j > 0 && a[j - 1].1 > a[j].1
      invariant 0 <= j <= i
      invariant forall p, q :: 0 <= p < q <= i && p != j && q != j ==> a[p].1 <= a[q].1
      invariant forall q :: j < q <= i ==> a[j].1 <= a[q].1
      invariant forall p :: i < p < a.Length ==> a[p] == old(a[p])
      invariant forall v :: WithValue(a[..], v) == WithValue(old(a[..]), v)
    {
      forall v
        ensures WithValue(a[..][j - 1 := a[j]][j := a[j - 1]], v) == WithValue(old(a[..]), v)
      {
        SwapKeepsGroups(a[..], j, v);
      }
      a[j - 1], a[j] := a[j], a[j - 1];
      j := j - 1;
    }
  }
}
