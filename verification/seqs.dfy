/** The array operations the components use on lists of rows:
    `Array.prototype.filter`, `findIndex`, and de-duplication through a `Set`
    (which keeps the first appearance of each value, in insertion order). */
module Seqs {

  /** `r` is an order-preserving subsequence of `s`: `r` can be obtained from
      `s` by deleting elements. */
  predicate SubseqOf<T(==)>(r: seq<T>, s: seq<T>)
    decreases |s|
  {
    || r == []
    || (s != [] && ((r[0] == s[0] && SubseqOf(r[1..], s[1..])) || SubseqOf(r, s[1..])))
  }

  /** Every list is a subsequence of itself. */
  lemma {:induction false} SubseqOfSelf<T>(s: seq<T>)
    ensures SubseqOf(s, s)
  {
    if s != [] {
      SubseqOfSelf(s[1..]);
    }
  }

  /** `s.filter(p)`. */
  function Filter<T(==)>(p: T -> bool, s: seq<T>): (r: seq<T>)
    ensures |r| <= |s|
    ensures forall i :: 0 <= i < |r| ==> r[i] in s && p(r[i])
    ensures forall i :: 0 <= i < |s| && p(s[i]) ==> s[i] in r
    ensures SubseqOf(r, s)
  {
    if s == [] then []
    else if p(s[0]) then [s[0]] + Filter(p, s[1..])
    else Filter(p, s[1..])
  }

  /** A filter whose predicate holds of every element keeps the whole list. */
  lemma {:induction false} FilterKeepsAll<T>(p: T -> bool, s: seq<T>)
    requires forall x :: x in s ==> p(x)
    ensures Filter(p, s) == s
  {
    if s != [] {
      FilterKeepsAll(p, s[1..]);
    }
  }

  /** Two filters whose predicates agree on the list give the same result. */
  lemma {:induction false} FilterCongruent<T>(p: T -> bool, q: T -> bool, s: seq<T>)
    requires forall x :: x in s ==> (p(x) <==> q(x))
    ensures Filter(p, s) == Filter(q, s)
  {
    if s != [] {
      FilterCongruent(p, q, s[1..]);
    }
  }

  /** When every element satisfies exactly one of three predicates, the three
      filtered lists together are exactly as long as the list. */
  lemma {:induction false} FilterPartition3<T>(p: T -> bool, q: T -> bool, u: T -> bool, s: seq<T>)
    requires forall x :: x in s ==> (p(x) && !q(x) && !u(x)) || (!p(x) && q(x) && !u(x)) || (!p(x) && !q(x) && u(x))
    ensures |Filter(p, s)| + |Filter(q, s)| + |Filter(u, s)| == |s|
  {
    if s != [] {
      FilterPartition3(p, q, u, s[1..]);
    }
  }

  /** Index of the first element satisfying `p`, or -1 (`s.findIndex(p)`). */
  function FirstIndex<T>(p: T -> bool, s: seq<T>): (r: int)
    ensures -1 <= r < |s|
    ensures r >= 0 ==> p(s[r]) && forall j :: 0 <= j < r ==> !p(s[j])
    ensures r == -1 ==> forall j :: 0 <= j < |s| ==> !p(s[j])
  {
    if s == [] then -1
    else if p(s[0]) then 0
    else
      var k := FirstIndex(p, s[1..]);
      if k == -1 then -1 else k + 1
  }

  /** Index of the first occurrence of `x` in `s`, or -1. */
  function IndexOf<T(==)>(s: seq<T>, x: T): (r: int)
    ensures -1 <= r < |s|
    ensures r >= 0 ==> s[r] == x && x !in s[..r]
    ensures r == -1 <==> x !in s
  {
    if s == [] then -1
    else if s[0] == x then 0
    else
      var k := IndexOf(s[1..], x);
      if k == -1 then -1 else k + 1
  }

  /** No value occurs twice. */
  predicate NoDup<T(==)>(s: seq<T>) {
    forall i, j :: 0 <= i < j < |s| ==> s[i] != s[j]
  }

  /** `Array.from(new Set(s))`: each value once, at its first appearance. */
  function Dedup<T(==)>(s: seq<T>): (r: seq<T>)
    ensures forall i :: 0 <= i < |r| ==> r[i] in s
    ensures forall i :: 0 <= i < |s| ==> s[i] in r
    ensures NoDup(r)
    decreases |s|
  {
    if s == [] then []
    else
      var init, x := s[..|s| - 1], s[|s| - 1];
      if x in init then Dedup(init) else Dedup(init) + [x]
  }

  /** The first occurrence of a value already in `s` does not move when
      something is appended. */
  lemma {:induction false} IndexOfAppend<T>(s: seq<T>, x: T, y: T)
    requires y in s
    ensures IndexOf(s + [x], y) == IndexOf(s, y)
  {
    if s[0] != y {
      assert (s + [x])[1..] == s[1..] + [x];
      IndexOfAppend(s[1..], x, y);
    }
  }

  /** `Dedup` lists the values in the order of their first appearance. */
  lemma {:induction false} DedupFirstAppearanceOrder<T>(s: seq<T>)
    ensures forall i, j :: 0 <= i < j < |Dedup(s)| ==> IndexOf(s, Dedup(s)[i]) < IndexOf(s, Dedup(s)[j])
    decreases |s|
  {
    if s != [] {
      var init, x := s[..|s| - 1], s[|s| - 1];
      assert s == init + [x];
      DedupFirstAppearanceOrder(init);
      OrderAfterAppend(init, x, Dedup(init));
      if x !in init {
        IndexOfNew(init, x);
        NewLast(s, Dedup(init), x, |init|);
      }
    }
  }

  /** Appending `x` keeps the first appearance, hence the order, of every
      earlier value. */
  lemma OrderAfterAppend<T>(init: seq<T>, x: T, d: seq<T>)
    requires forall i :: 0 <= i < |d| ==> d[i] in init
    requires forall i, j :: 0 <= i < j < |d| ==> IndexOf(init, d[i]) < IndexOf(init, d[j])
    ensures forall i :: 0 <= i < |d| ==> IndexOf(init + [x], d[i]) == IndexOf(init, d[i]) < |init|
    ensures forall i, j :: 0 <= i < j < |d| ==> IndexOf(init + [x], d[i]) < IndexOf(init + [x], d[j])
  {
    forall i | 0 <= i < |d|
      ensures IndexOf(init + [x], d[i]) == IndexOf(init, d[i])
    {
      IndexOfAppend(init, x, d[i]);
    }
  }

  /** A value new to `init` first appears at the end of `init + [x]`. */
  lemma IndexOfNew<T>(init: seq<T>, x: T)
    requires x !in init
    ensures IndexOf(init + [x], x) == |init|
  {
    var s := init + [x];
    assert s[|init|] == x;
    assert s[..|init|] == init;
  }

  /** A value appended after values that all appear before `n` keeps the
      order when it first appears at `n`. */
  lemma NewLast<T>(s: seq<T>, d: seq<T>, x: T, n: int)
    requires forall i :: 0 <= i < |d| ==> IndexOf(s, d[i]) < n
    requires forall i, j :: 0 <= i < j < |d| ==> IndexOf(s, d[i]) < IndexOf(s, d[j])
    requires IndexOf(s, x) == n
    ensures forall i, j :: 0 <= i < j < |d + [x]| ==> IndexOf(s, (d + [x])[i]) < IndexOf(s, (d + [x])[j])
  {
    var r := d + [x];
    forall i, j | 0 <= i < j < |r|
      ensures IndexOf(s, r[i]) < IndexOf(s, r[j])
    {
      assert r[i] == d[i];
      if j < |d| {
        assert r[j] == d[j];
      } else {
        assert r[j] == x;
      }
    }
  }
}
