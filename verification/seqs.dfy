/** The array reductions the dashboard builds from: Array.prototype.filter,
    map, reduce-to-a-sum, find, and `[...new Set(xs)]` (distinct values in
    first-seen order), as pure functions over sequences. */
module Seqs {

  import opened Results
  import Numeric

  /** Array.prototype.filter: the elements satisfying `p`, in their original order. */
  function Filter<T(!new)>(s: seq<T>, p: T -> bool): (r: seq<T>)
    ensures |r| <= |s|
    ensures forall x :: x in r <==> x in s && p(x)
  {
    if |s| == 0 then []
    else if p(s[0]) then [s[0]] + Filter(s[1..], p)
    else Filter(s[1..], p)
  }

  /** Filtering commutes with concatenation, so the kept elements keep their relative order. */
  lemma {:induction false} FilterConcat<T(!new)>(a: seq<T>, b: seq<T>, p: T -> bool)
    ensures Filter(a + b, p) == Filter(a, p) + Filter(b, p)
  {
    if |a| == 0 {
      assert a + b == b;
    } else {
      assert (a + b)[0] == a[0];
      assert (a + b)[1..] == a[1..] + b;
      FilterConcat(a[1..], b, p);
    }
  }

  /** A filter that keeps everything is the identity. */
  lemma {:induction false} FilterAll<T(!new)>(s: seq<T>, p: T -> bool)
    requires forall x :: x in s ==> p(x)
    ensures Filter(s, p) == s
  {
    if |s| > 0 {
      assert forall x :: x in s[1..] ==> x in s;
      FilterAll(s[1..], p);
    }
  }

  /** A filter that keeps nothing is empty. */
  lemma {:induction false} FilterNone<T(!new)>(s: seq<T>, p: T -> bool)
    requires forall x :: x in s ==> !p(x)
    ensures Filter(s, p) == []
  {
    if |s| > 0 {
      assert forall x :: x in s[1..] ==> x in s;
      FilterNone(s[1..], p);
    }
  }

  /** Two predicates that agree on the elements keep the same elements. */
  lemma {:induction false} FilterExt<T(!new)>(s: seq<T>, p: T -> bool, q: T -> bool)
    requires forall x :: x in s ==> p(x) == q(x)
    ensures Filter(s, p) == Filter(s, q)
  {
    if |s| > 0 {
      assert forall x :: x in s[1..] ==> x in s;
      FilterExt(s[1..], p, q);
    }
  }

  /** A weaker predicate keeps at least as many elements. */
  lemma {:induction false} FilterCountMono<T(!new)>(s: seq<T>, p: T -> bool, q: T -> bool)
    requires forall x :: x in s ==> p(x) ==> q(x)
    ensures |Filter(s, p)| <= |Filter(s, q)|
  {
    if |s| > 0 {
      assert forall x :: x in s[1..] ==> x in s;
      FilterCountMono(s[1..], p, q);
    }
  }

  /** Array.prototype.map. */
  function Map<T, U>(s: seq<T>, f: T -> U): (r: seq<U>)
    ensures |r| == |s|
    ensures forall i :: 0 <= i < |s| ==> r[i] == f(s[i])
  {
    seq(|s|, i requires 0 <= i < |s| => f(s[i]))
  }

  /** `reduce((sum, x) => sum + f(x), 0)` over real-valued fields. */
  function Sum<T>(s: seq<T>, f: T -> real): real
  {
    if |s| == 0 then 0.0 else f(s[0]) + Sum(s[1..], f)
  }

  /** `reduce((sum, x) => sum + f(x), 0)` over integer-valued fields. */
  function SumInt<T>(s: seq<T>, f: T -> int): int
  {
    if |s| == 0 then 0 else f(s[0]) + SumInt(s[1..], f)
  }

  lemma {:induction false} SumConcat<T>(a: seq<T>, b: seq<T>, f: T -> real)
    ensures Sum(a + b, f) == Sum(a, f) + Sum(b, f)
  {
    if |a| == 0 {
      assert a + b == b;
    } else {
      assert (a + b)[0] == a[0];
      assert (a + b)[1..] == a[1..] + b;
      SumConcat(a[1..], b, f);
    }
  }

  lemma {:induction false} SumIntConcat<T>(a: seq<T>, b: seq<T>, f: T -> int)
    ensures SumInt(a + b, f) == SumInt(a, f) + SumInt(b, f)
  {
    if |a| == 0 {
      assert a + b == b;
    } else {
      assert (a + b)[0] == a[0];
      assert (a + b)[1..] == a[1..] + b;
      SumIntConcat(a[1..], b, f);
    }
  }

  lemma {:induction false} SumIntNonNegative<T>(s: seq<T>, f: T -> int)
    requires forall x :: x in s ==> 0 <= f(x)
    ensures 0 <= SumInt(s, f)
  {
    if |s| > 0 {
      assert forall x :: x in s[1..] ==> x in s;
      SumIntNonNegative(s[1..], f);
    }
  }

  /** `a` added up `n` times. */
  function Times(n: nat, a: real): real
  {
    if n == 0 then 0.0 else a + Times(n - 1, a)
  }

  lemma {:induction false} TimesIsMul(n: nat, a: real)
    ensures Times(n, a) == n as real * a
  {
    if n > 0 {
      TimesIsMul(n - 1, a);
      Numeric.MulSucc(n - 1, a);
    }
  }

  lemma {:induction false} SumBoundsTimes<T>(s: seq<T>, f: T -> real, lo: real, hi: real)
    requires forall x :: x in s ==> lo <= f(x) <= hi
    ensures Times(|s|, lo) <= Sum(s, f) <= Times(|s|, hi)
  {
    if |s| > 0 {
      assert forall x :: x in s[1..] ==> x in s;
      SumBoundsTimes(s[1..], f, lo, hi);
      assert s[0] in s;
    }
  }

  /** Summing values that each lie in [lo, hi] gives a total in [n*lo, n*hi]. */
  lemma SumBounds<T>(s: seq<T>, f: T -> real, lo: real, hi: real)
    requires forall x :: x in s ==> lo <= f(x) <= hi
    ensures |s| as real * lo <= Sum(s, f) <= |s| as real * hi
  {
    SumBoundsTimes(s, f, lo, hi);
    TimesIsMul(|s|, lo);
    TimesIsMul(|s|, hi);
  }

  /** `a` added up `n` times, over integers. */
  function TimesInt(n: nat, a: int): int
  {
    if n == 0 then 0 else a + TimesInt(n - 1, a)
  }

  lemma {:induction false} TimesIntIsMul(n: nat, a: int)
    ensures TimesInt(n, a) == n * a
  {
    if n > 0 {
      TimesIntIsMul(n - 1, a);
      assert n * a == a + (n - 1) * a;
    }
  }

  lemma {:induction false} SumIntAtLeastTimes<T>(s: seq<T>, f: T -> int, lo: int)
    requires forall x :: x in s ==> lo <= f(x)
    ensures TimesInt(|s|, lo) <= SumInt(s, f)
  {
    if |s| > 0 {
      assert forall x :: x in s[1..] ==> x in s;
      SumIntAtLeastTimes(s[1..], f, lo);
      assert s[0] in s;
    }
  }

  lemma {:induction false} SumIntAtMostTimes<T>(s: seq<T>, f: T -> int, hi: int)
    requires forall x :: x in s ==> f(x) <= hi
    ensures SumInt(s, f) <= TimesInt(|s|, hi)
  {
    if |s| > 0 {
      assert forall x :: x in s[1..] ==> x in s;
      SumIntAtMostTimes(s[1..], f, hi);
      assert s[0] in s;
    }
  }

  lemma SumIntBounds<T>(s: seq<T>, f: T -> int, lo: int, hi: int)
    requires forall x :: x in s ==> lo <= f(x) <= hi
    ensures |s| * lo <= SumInt(s, f) <= |s| * hi
  {
    SumIntAtLeastTimes(s, f, lo);
    SumIntAtMostTimes(s, f, hi);
    TimesIntIsMul(|s|, lo);
    TimesIntIsMul(|s|, hi);
  }

  lemma SumIntAtLeast<T>(s: seq<T>, f: T -> int, lo: int)
    requires forall x :: x in s ==> lo <= f(x)
    ensures |s| * lo <= SumInt(s, f)
  {
    SumIntAtLeastTimes(s, f, lo);
    TimesIntIsMul(|s|, lo);
  }

  /** For non-negative terms, the sum over a filtered sub-list is at most the full sum. */
  lemma {:induction false} SumFilterLe<T(!new)>(s: seq<T>, p: T -> bool, f: T -> real)
    requires forall x :: x in s ==> 0.0 <= f(x)
    ensures 0.0 <= Sum(Filter(s, p), f) <= Sum(s, f)
  {
    if |s| > 0 {
      assert forall x :: x in s[1..] ==> x in s;
      SumFilterLe(s[1..], p, f);
    }
  }

  predicate NoDups<T(==)>(s: seq<T>)
  {
    forall i, j :: 0 <= i < j < |s| ==> s[i] != s[j]
  }

  /** The position of the first occurrence of `x` in `s`. */
  function FirstIndex<T(==)>(s: seq<T>, x: T): (i: nat)
    requires x in s
    ensures i < |s| && s[i] == x
    ensures forall j :: 0 <= j < i ==> s[j] != x
  {
    if s[0] == x then 0 else 1 + FirstIndex(s[1..], x)
  }

  /** An occurrence with no earlier occurrence is the first one. */
  lemma FirstIndexUnique<T>(s: seq<T>, x: T, i: nat)
    requires i < |s| && s[i] == x
    requires forall j :: 0 <= j < i ==> s[j] != x
    ensures FirstIndex(s, x) == i
  {
  }

  /** Appending to a sequence does not move the first occurrence of an element already there. */
  lemma FirstIndexExtend<T>(s: seq<T>, y: T, x: T)
    requires x in s
    ensures x in s + [y] && FirstIndex(s + [y], x) == FirstIndex(s, x)
  {
    var i := FirstIndex(s, x);
    FirstIndexUnique(s + [y], x, i);
  }

  /** `[...new Set(s)]`: each distinct element once, in order of first appearance. */
  function Dedup<T(==,!new)>(s: seq<T>): (r: seq<T>)
    ensures |r| <= |s|
    ensures forall x :: x in r <==> x in s
    ensures NoDups(r)
    ensures forall i, j :: 0 <= i < j < |r| ==> FirstIndex(s, r[i]) < FirstIndex(s, r[j])
  {
    if |s| == 0 then []
    else
      var init := s[..|s| - 1];
      var last := s[|s| - 1];
      var d := Dedup(init);
      assert s == init + [last];
      assert forall x :: x in d ==> FirstIndex(s, x) == FirstIndex(init, x) by {
        forall x | x in d
          ensures FirstIndex(s, x) == FirstIndex(init, x)
        {
          FirstIndexExtend(init, last, x);
        }
      }
      if last in d then d
      else
        assert last !in init;
        FirstIndexUnique(s, last, |s| - 1);
        d + [last]
  }

  /** Array.prototype.findIndex: the first position satisfying `p`, if any. */
  function FindFirst<T>(s: seq<T>, p: T -> bool): (r: Option<nat>)
    ensures r.Some? ==> r.value < |s| && p(s[r.value])
    ensures r.Some? ==> forall j :: 0 <= j < r.value ==> !p(s[j])
    ensures r.None? <==> forall j :: 0 <= j < |s| ==> !p(s[j])
  {
    if |s| == 0 then None
    else if p(s[0]) then Some(0)
    else match FindFirst(s[1..], p)
      case None => None
      case Some(i) => Some(i + 1)
  }

  lemma AppendAssoc<T>(a: seq<T>, b: seq<T>, c: seq<T>)
    ensures a + (b + c) == (a + b) + c
  {
  }
}
