/** Stable insertion sort over a total preorder, standing in for
    `java.util.Collections.sort`, which is a stable sort: elements the
    comparator ranks equal keep their relative order (`SortIsStable`). */
module Sorting {

  /** `le` is total and transitive: a comparator that never contradicts itself. */
  ghost predicate IsTotalPreorder<T(!new)>(le: (T, T) -> bool) {
    && (forall x, y :: le(x, y) || le(y, x))
    && (forall x, y, z :: le(x, y) && le(y, z) ==> le(x, z))
  }

  /** Every earlier element is at most every later one. */
  ghost predicate SortedBy<T>(le: (T, T) -> bool, s: seq<T>) {
    forall i, j :: 0 <= i < j < |s| ==> le(s[i], s[j])
  }

  /** Inserts `x` in front of the first element it does not exceed, so that
      `x` precedes every element equal to it (stability when folding from
      the right). */
  function Insert<T(!new)>(le: (T, T) -> bool, x: T, s: seq<T>): (r: seq<T>)
    requires IsTotalPreorder(le)
    ensures multiset(r) == multiset(s) + multiset{x}
    ensures SortedBy(le, s) ==> SortedBy(le, r)
  {
    if |s| == 0 then [x]
    else if le(x, s[0]) then
      assert s == [s[0]] + s[1..];
      assert SortedBy(le, s) ==> SortedBy(le, [x] + s) by {
        if SortedBy(le, s) { LeadSorted(le, x, s); }
      }
      [x] + s
    else
      var rest := Insert(le, x, s[1..]);
      assert s == [s[0]] + s[1..];
      assert SortedBy(le, s) ==> SortedBy(le, [s[0]] + rest) by {
        if SortedBy(le, s) { HeadBelowInsert(le, x, s, rest); }
      }
      [s[0]] + rest
  }

  /** An element at most the head of an ordered sequence can lead it. */
  lemma LeadSorted<T(!new)>(le: (T, T) -> bool, x: T, s: seq<T>)
    requires IsTotalPreorder(le) && SortedBy(le, s)
    requires |s| > 0 && le(x, s[0])
    ensures SortedBy(le, [x] + s)
  {
    forall i, j | 0 <= i < j < |[x] + s|
      ensures le(([x] + s)[i], ([x] + s)[j])
    {
      if i == 0 && j > 1 {
        assert le(s[0], s[j - 1]);
      }
    }
  }

  /** The head of an ordered sequence stays in front after `x`, which it
      does not exceed, is inserted into its tail. */
  lemma HeadBelowInsert<T(!new)>(le: (T, T) -> bool, x: T, s: seq<T>, rest: seq<T>)
    requires IsTotalPreorder(le) && SortedBy(le, s)
    requires |s| > 0 && !le(x, s[0])
    requires SortedBy(le, rest)
    requires multiset(rest) == multiset(s[1..]) + multiset{x}
    ensures SortedBy(le, [s[0]] + rest)
  {
    assert le(s[0], x);
    forall j | 0 <= j < |rest|
      ensures le(s[0], rest[j])
    {
      assert rest[j] in multiset(rest);
      if rest[j] != x {
        assert rest[j] in multiset(s[1..]);
        var k :| 0 <= k < |s[1..]| && s[1..][k] == rest[j];
        assert s[k + 1] == rest[j];
      }
    }
    forall i, j | 0 <= i < j < |[s[0]] + rest|
      ensures le(([s[0]] + rest)[i], ([s[0]] + rest)[j])
    {
      if i > 0 {
        assert ([s[0]] + rest)[i] == rest[i - 1];
      }
    }
  }

  /** Sorts `s` by `le`; the result is an ordered permutation of `s`. */
  function Sort<T(!new)>(le: (T, T) -> bool, s: seq<T>): (r: seq<T>)
    requires IsTotalPreorder(le)
    ensures multiset(r) == multiset(s)
    ensures |r| == |s|
    ensures SortedBy(le, r)
  {
    if |s| == 0 then []
    else
      assert s == [s[0]] + s[1..];
      var r := Insert(le, s[0], Sort(le, s[1..]));
      assert |multiset(r)| == |r|;
      r
  }

  /** Sorting an already ordered sequence changes nothing; in particular
      sorting is idempotent. */
  lemma {:induction false} SortOfSorted<T(!new)>(le: (T, T) -> bool, s: seq<T>)
    requires IsTotalPreorder(le)
    requires SortedBy(le, s)
    ensures Sort(le, s) == s
  {
    if |s| > 0 {
      assert SortedBy(le, s[1..]);
      SortOfSorted(le, s[1..]);
      assert s == [s[0]] + s[1..];
    }
  }

  lemma SortIdempotent<T(!new)>(le: (T, T) -> bool, s: seq<T>)
    requires IsTotalPreorder(le)
    ensures Sort(le, Sort(le, s)) == Sort(le, s)
  {
    SortOfSorted(le, Sort(le, s));
  }

  /** The elements of `s` that `le` ranks equal to `x`, in their order in `s`. */
  function EquivalentTo<T>(le: (T, T) -> bool, x: T, s: seq<T>): seq<T> {
    if |s| == 0 then []
    else (if le(x, s[0]) && le(s[0], x) then [s[0]] else []) + EquivalentTo(le, x, s[1..])
  }

  /** `EquivalentTo` over a sequence with a known head. */
  lemma EquivalentToCons<T>(le: (T, T) -> bool, x: T, a: T, s: seq<T>)
    ensures EquivalentTo(le, x, [a] + s)
            == (if le(x, a) && le(a, x) then [a] else []) + EquivalentTo(le, x, s)
  {
    assert ([a] + s)[0] == a && ([a] + s)[1..] == s;
  }

  /** Inserting `y` puts it in front of every element equal to it and leaves
      the order among the others alone. */
  lemma {:induction false} InsertKeepsEquivalentOrder<T(!new)>(le: (T, T) -> bool, x: T, y: T, t: seq<T>)
    requires IsTotalPreorder(le)
    ensures EquivalentTo(le, x, Insert(le, y, t))
            == (if le(x, y) && le(y, x) then [y] else []) + EquivalentTo(le, x, t)
    decreases |t|
  {
    if |t| == 0 {
      EquivalentToCons(le, x, y, t);
      assert [y] + t == [y];
    } else if le(y, t[0]) {
      EquivalentToCons(le, x, y, t);
    } else {
      InsertBehindHead(le, x, y, t);
    }
  }

  /** The case where `y` goes behind the head of `t`. */
  lemma {:induction false} InsertBehindHead<T(!new)>(le: (T, T) -> bool, x: T, y: T, t: seq<T>)
    requires IsTotalPreorder(le)
    requires |t| > 0 && !le(y, t[0])
    ensures EquivalentTo(le, x, Insert(le, y, t))
            == (if le(x, y) && le(y, x) then [y] else []) + EquivalentTo(le, x, t)
    decreases |t|, 0
  {
    var head, tail := t[0], t[1..];
    var rest := Insert(le, y, tail);
    assert Insert(le, y, t) == [head] + rest;
    assert t == [head] + tail;
    EquivalentToCons(le, x, head, rest);
    EquivalentToCons(le, x, head, tail);
    InsertKeepsEquivalentOrder(le, x, y, tail);
    var ey: seq<T> := if le(x, y) && le(y, x) then [y] else [];
    var et: seq<T> := if le(x, head) && le(head, x) then [head] else [];
    if le(x, head) {
      NotBelowEquivalent(le, x, y, head);
    }
    EmptySidesCommute(et, ey, EquivalentTo(le, x, tail));
  }

  lemma EmptySidesCommute<T>(a: seq<T>, b: seq<T>, c: seq<T>)
    requires a == [] || b == []
    ensures a + (b + c) == b + (a + c)
  {
    if a == [] {
      assert a + (b + c) == b + c;
      assert a + c == c;
    } else {
      assert b + c == c;
      assert b + (a + c) == a + c;
    }
  }

  /** Something not at most `z` is not at most anything `z` bounds from
      above either. */
  lemma NotBelowEquivalent<T(!new)>(le: (T, T) -> bool, x: T, y: T, z: T)
    requires IsTotalPreorder(le)
    requires le(x, z) && !le(y, z)
    ensures !le(y, x)
  {
  }

  /** Stability: for every `x`, the elements ranked equal to `x` appear in
      the sorted result in the same order as in the input. */
  lemma {:induction false} SortIsStable<T(!new)>(le: (T, T) -> bool, x: T, s: seq<T>)
    requires IsTotalPreorder(le)
    ensures EquivalentTo(le, x, Sort(le, s)) == EquivalentTo(le, x, s)
  {
    if |s| > 0 {
      SortIsStable(le, x, s[1..]);
      InsertKeepsEquivalentOrder(le, x, s[0], Sort(le, s[1..]));
    }
  }
}
