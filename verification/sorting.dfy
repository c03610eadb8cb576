/**
 * Sorting and order statistics. The source sorts with `sort_by` and selects
 * with `select_nth_unstable_by`; both are modelled by value, through one
 * insertion sort parameterised by its comparison.
 */
module Sorting {

  /** `le` is total and transitive: a comparison `sort_by` can rely on. */
  ghost predicate TotalPreorder<T(!new)>(le: (T, T) -> bool) {
    && (forall a, b :: le(a, b) || le(b, a))
    && (forall a, b, c :: le(a, b) && le(b, c) ==> le(a, c))
  }

  predicate SortedBy<T>(s: seq<T>, le: (T, T) -> bool) {
    forall i, j :: 0 <= i < j < |s| ==> le(s[i], s[j])
  }

  /** `x` inserted before the first element it does not follow. */
  function InsertBy<T>(x: T, s: seq<T>, le: (T, T) -> bool): (r: seq<T>)
    ensures |r| == |s| + 1
    ensures multiset(r) == multiset(s) + multiset{x}
  {
    if s == [] then [x]
    else if le(x, s[0]) then [x] + s
    else
      assert s == [s[0]] + s[1..];
      [s[0]] + InsertBy(x, s[1..], le)
  }

  lemma {:induction false} InsertByKeepsSorted<T(!new)>(x: T, s: seq<T>, le: (T, T) -> bool)
    requires TotalPreorder(le) && SortedBy(s, le)
    ensures SortedBy(InsertBy(x, s, le), le)
  {
    if s == [] || le(x, s[0]) {
    } else {
      InsertByKeepsSorted(x, s[1..], le);
      var t := InsertBy(x, s[1..], le);
      assert multiset(t) == multiset(s[1..]) + multiset{x};
      forall k | 0 <= k < |t|
        ensures le(s[0], t[k])
      {
        assert t[k] in multiset(t);
        if t[k] != x {
          assert t[k] in multiset(s[1..]);
          var j :| 0 <= j < |s[1..]| && s[1..][j] == t[k];
          assert s[j + 1] == t[k];
        }
      }
    }
  }

  lemma InsertKeepsOrder<T(!new)>(x: T, s: seq<T>, le: (T, T) -> bool)
    ensures TotalPreorder(le) && SortedBy(s, le) ==> SortedBy(InsertBy(x, s, le), le)
  {
    if TotalPreorder(le) && SortedBy(s, le) {
      InsertByKeepsSorted(x, s, le);
    }
  }

  /** `sort_by(le)`: a permutation of `s` ordered by `le`. */
  function SortBy<T(!new)>(s: seq<T>, le: (T, T) -> bool): (r: seq<T>)
    ensures |r| == |s|
    ensures multiset(r) == multiset(s)
    ensures TotalPreorder(le) ==> SortedBy(r, le)
  {
    if s == [] then []
    else
      var rest := SortBy(s[1..], le);
      InsertKeepsOrder(s[0], rest, le);
      assert s == [s[0]] + s[1..];
      InsertBy(s[0], rest, le)
  }

  /** `f` applied to every element, in order. */
  function MapSeq<T, U>(f: T -> U, s: seq<T>): (r: seq<U>)
    ensures |r| == |s| && forall k :: 0 <= k < |s| ==> r[k] == f(s[k])
  {
    seq(|s|, k requires 0 <= k < |s| => f(s[k]))
  }

  /** Mapping a permutation of a sequence gives a permutation of the mapped sequence. */
  lemma {:induction false} MapPermutation<T, U>(f: T -> U, a: seq<T>, b: seq<T>)
    requires multiset(a) == multiset(b)
    ensures multiset(MapSeq(f, a)) == multiset(MapSeq(f, b))
    decreases |a|
  {
    if |a| == 0 {
      assert |b| == |multiset(b)| == 0;
    } else {
      var x := a[0];
      assert x in multiset(b);
      var i :| 0 <= i < |b| && b[i] == x;
      var l, r := b[..i], b[i + 1..];
      assert b == l + [x] + r;
      assert a == [x] + a[1..];
      RemoveOne(a[1..], l, r, x);
      MapPermutation(f, a[1..], l + r);
      MapSplit(f, l, x, r);
      MapCons(f, a);
    }
  }

  /** The mapped multiset of a non-empty sequence: its head's image and the rest's. */
  lemma MapCons<T, U>(f: T -> U, a: seq<T>)
    requires |a| > 0
    ensures multiset(MapSeq(f, a)) == multiset{f(a[0])} + multiset(MapSeq(f, a[1..]))
  {
    assert MapSeq(f, a) == [f(a[0])] + MapSeq(f, a[1..]);
  }

  /** Taking the same element out of two equal multisets leaves equal ones. */
  lemma RemoveOne<T>(a: seq<T>, l: seq<T>, r: seq<T>, x: T)
    requires multiset([x] + a) == multiset(l + [x] + r)
    ensures multiset(a) == multiset(l + r)
  {
    assert multiset([x] + a) == multiset{x} + multiset(a);
    assert multiset(l + [x] + r) == multiset{x} + multiset(l + r);
    MultisetCancel(multiset(a), multiset(l + r), x);
  }

  lemma MultisetCancel<T>(p: multiset<T>, q: multiset<T>, x: T)
    requires multiset{x} + p == multiset{x} + q
    ensures p == q
  {
    forall y ensures p[y] == q[y] {
      assert (multiset{x} + p)[y] == (multiset{x} + q)[y];
    }
  }

  /** The mapped multiset counts the taken-out element once more. */
  lemma MapSplit<T, U>(f: T -> U, l: seq<T>, x: T, r: seq<T>)
    ensures multiset(MapSeq(f, l + [x] + r)) == multiset{f(x)} + multiset(MapSeq(f, l + r))
  {
    assert MapSeq(f, l + [x] + r) == MapSeq(f, l) + [f(x)] + MapSeq(f, r);
    assert MapSeq(f, l + r) == MapSeq(f, l) + MapSeq(f, r);
  }

  /**
   * The rank the percentile helpers select: `floor(0.9 * len)`, clamped to
   * the last index.
   */
  function Rank90(len: nat): (k: nat)
    requires len > 0
    ensures k < len
    ensures k as real <= 0.9 * len as real < k as real + 1.0
  {
    // 0.9 * len < len, so the clamp to `len - 1` never bites.
    var f := (0.9 * len as real).Floor;
    assert 0 <= f < len;
    f
  }

  /** `<=` on reals, the comparison `partial_cmp` induces on finite values. */
  predicate RealLe(a: real, b: real) {
    a <= b
  }

  lemma RealLeTotal()
    ensures TotalPreorder(RealLe)
  {
  }

  /** A sorted sequence of reals is determined by its multiset of values. */
  lemma {:induction false} SortedRealsUnique(a: seq<real>, b: seq<real>)
    requires SortedBy(a, RealLe) && SortedBy(b, RealLe)
    requires multiset(a) == multiset(b)
    ensures a == b
    decreases |a|
  {
    if a != [] {
      SortedHeadsEqual(a, b);
      TailMultiset(a);
      TailMultiset(b);
      SortedRealsUnique(a[1..], b[1..]);
      assert a == [a[0]] + a[1..] && b == [b[0]] + b[1..];
    }
  }

  /** Two sorted arrangements of the same non-empty multiset start alike. */
  lemma SortedHeadsEqual(a: seq<real>, b: seq<real>)
    requires SortedBy(a, RealLe) && SortedBy(b, RealLe)
    requires multiset(a) == multiset(b) && a != []
    ensures b != [] && a[0] == b[0]
  {
    assert a[0] in multiset(b);
    var i :| 0 <= i < |b| && b[i] == a[0];
    assert b[0] in multiset(a);
    var j :| 0 <= j < |a| && a[j] == b[0];
    assert a[0] <= a[j] && b[0] <= b[i];
  }

  /** Dropping the head removes exactly one copy of it from the multiset. */
  lemma TailMultiset(a: seq<real>)
    requires a != []
    ensures multiset(a[1..]) == multiset(a) - multiset{a[0]}
  {
    assert a == [a[0]] + a[1..];
    assert multiset(a) == multiset{a[0]} + multiset(a[1..]);
  }

  /**
   * The element `select_nth_unstable(k)` leaves at position `k`: the `k`-th
   * smallest value of `s`.
   */
  function NthSmallest(s: seq<real>, k: nat): (r: real)
    requires k < |s|
    ensures r in s
  {
    var t := SortBy(s, RealLe);
    assert t[k] in multiset(t);
    t[k]
  }

  /**
   * Since `<=` on reals is antisymmetric, every ordered arrangement of `s`
   * puts the same value at position `k`, whatever the selection algorithm.
   */
  lemma NthSmallestUnique(s: seq<real>, k: nat, t: seq<real>)
    requires k < |s|
    requires SortedBy(t, RealLe) && multiset(t) == multiset(s)
    ensures k < |t| && t[k] == NthSmallest(s, k)
  {
    RealLeTotal();
    assert |t| == |multiset(t)| == |s|;
    SortedRealsUnique(t, SortBy(s, RealLe));
  }

  /** No element of `s` lies below its smallest and none above its largest. */
  lemma NthSmallestBounds(s: seq<real>, k: nat)
    requires k < |s|
    ensures forall i :: 0 <= i < |s| && s[i] < NthSmallest(s, 0) ==> false
    ensures forall i :: 0 <= i < |s| ==> s[i] <= NthSmallest(s, |s| - 1)
  {
    RealLeTotal();
    var t := SortBy(s, RealLe);
    forall i | 0 <= i < |s|
      ensures t[0] <= s[i] <= t[|s| - 1]
    {
      assert s[i] in multiset(t);
      var j :| 0 <= j < |t| && t[j] == s[i];
    }
  }
}
