/**
 * Sums and filters over a sequence, defined from the front of the sequence to
 * its last element so that they follow a left-to-right accumulation loop.
 */
module Reductions {

  /** The sum of `f` over the elements of `s`. */
  function SumBy<T>(s: seq<T>, f: T -> int): int {
    if s == [] then 0 else SumBy(s[..|s| - 1], f) + f(s[|s| - 1])
  }

  /** The sum of `g` over the elements of `s`, over the reals. */
  function RealSumBy<T>(s: seq<T>, g: T -> real): real {
    if s == [] then 0.0 else RealSumBy(s[..|s| - 1], g) + g(s[|s| - 1])
  }

  /** The elements of `s` that satisfy `p`, in their order in `s`. */
  function Filter<T>(s: seq<T>, p: T -> bool): (r: seq<T>)
    ensures |r| <= |s|
  {
    if s == [] then []
    else Filter(s[..|s| - 1], p) + (if p(s[|s| - 1]) then [s[|s| - 1]] else [])
  }

  /** An element is kept by `Filter` exactly when it occurs in `s` and satisfies `p`. */
  lemma {:induction false} FilterMembership<T>(s: seq<T>, p: T -> bool, x: T)
    ensures x in Filter(s, p) <==> x in s && p(x)
  {
    if s != [] {
      assert s == s[..|s| - 1] + [s[|s| - 1]];
      FilterMembership(s[..|s| - 1], p, x);
    }
  }

  lemma {:induction false} SumByAppend<T>(s: seq<T>, t: seq<T>, f: T -> int)
    ensures SumBy(s + t, f) == SumBy(s, f) + SumBy(t, f)
  {
    if t != [] {
      assert (s + t)[..|s + t| - 1] == s + t[..|t| - 1];
      SumByAppend(s, t[..|t| - 1], f);
    } else {
      assert s + t == s;
    }
  }

  lemma {:induction false} RealSumByAppend<T>(s: seq<T>, t: seq<T>, g: T -> real)
    ensures RealSumBy(s + t, g) == RealSumBy(s, g) + RealSumBy(t, g)
  {
    if t != [] {
      assert (s + t)[..|s + t| - 1] == s + t[..|t| - 1];
      RealSumByAppend(s, t[..|t| - 1], g);
    } else {
      assert s + t == s;
    }
  }

  lemma SumBySingleton<T>(x: T, f: T -> int)
    ensures SumBy([x], f) == f(x)
  {
  }

  /** An element inserted anywhere adds its contribution to the sum. */
  lemma SumByInsert<T>(front: seq<T>, x: T, back: seq<T>, f: T -> int)
    ensures SumBy(front + [x] + back, f) == SumBy(front + back, f) + f(x)
  {
    SumByAppend(front + [x], back, f);
    SumByAppend(front, [x], f);
    SumByAppend(front, back, f);
    SumBySingleton(x, f);
  }

  /** Taking out the element at `j` takes its contribution out of the sum. */
  lemma SumByRemoveAt<T>(t: seq<T>, j: nat, f: T -> int)
    requires j < |t|
    ensures SumBy(t, f) == SumBy(t[..j] + t[j + 1..], f) + f(t[j])
  {
    assert t[..j + 1] == t[..j] + [t[j]];
    assert t == t[..j + 1] + t[j + 1..];
    SumByInsert(t[..j], t[j], t[j + 1..], f);
  }

  lemma MultisetRemoveAt<T>(t: seq<T>, j: nat)
    requires j < |t|
    ensures multiset(t[..j] + t[j + 1..]) == multiset(t) - multiset{t[j]}
  {
    assert t == t[..j] + [t[j]] + t[j + 1..];
  }

  /** The last element of `s` occurs in any permutation `t` of `s`; removing both leaves permutations. */
  lemma MatchLast<T>(s: seq<T>, t: seq<T>) returns (j: nat)
    requires s != [] && multiset(s) == multiset(t)
    ensures j < |t| && t[j] == s[|s| - 1]
    ensures multiset(s[..|s| - 1]) == multiset(t[..j] + t[j + 1..])
  {
    var x := s[|s| - 1];
    assert x in multiset(t) by {
      assert x in multiset(s);
    }
    j :| 0 <= j < |t| && t[j] == x;
    MultisetRemoveAt(s, |s| - 1);
    MultisetRemoveAt(t, j);
    assert s[..|s| - 1] + s[|s|..] == s[..|s| - 1];
  }

  /** A sum over a sequence does not depend on the order of its elements. */
  lemma {:induction false} SumByPermutation<T>(s: seq<T>, t: seq<T>, f: T -> int)
    requires multiset(s) == multiset(t)
    ensures SumBy(s, f) == SumBy(t, f)
  {
    if s == [] {
      assert |t| == |multiset(t)| == 0;
    } else {
      var j := MatchLast(s, t);
      SumByPermutation(s[..|s| - 1], t[..j] + t[j + 1..], f);
      SumByRemoveAt(t, j, f);
    }
  }

  /** A sum over elements that all contribute 0 is 0. */
  lemma {:induction false} SumByZero<T>(s: seq<T>, f: T -> int)
    requires forall i :: 0 <= i < |s| ==> f(s[i]) == 0
    ensures SumBy(s, f) == 0
  {
    if s != [] {
      SumByZero(s[..|s| - 1], f);
    }
  }

  /** A sum over elements that all contribute at least 0 is 0 only if each of them contributes 0. */
  lemma {:induction false} SumByNonNegative<T>(s: seq<T>, f: T -> int)
    requires forall i :: 0 <= i < |s| ==> f(s[i]) >= 0
    ensures SumBy(s, f) >= 0
    ensures SumBy(s, f) == 0 ==> forall i :: 0 <= i < |s| ==> f(s[i]) == 0
  {
    if s != [] {
      var rest := s[..|s| - 1];
      SumByNonNegative(rest, f);
      assert forall i :: 0 <= i < |rest| ==> rest[i] == s[i];
    }
  }

  /** Splitting a sequence by a predicate and its complement splits its sum. */
  lemma {:induction false} SumBySplit<T>(s: seq<T>, p: T -> bool, q: T -> bool, f: T -> int)
    requires forall x :: q(x) == !p(x)
    ensures SumBy(s, f) == SumBy(Filter(s, p), f) + SumBy(Filter(s, q), f)
  {
    if s != [] {
      var rest, x := s[..|s| - 1], s[|s| - 1];
      SumBySplit(rest, p, q, f);
      SumByAppend(Filter(rest, p), if p(x) then [x] else [], f);
      SumByAppend(Filter(rest, q), if q(x) then [x] else [], f);
      SumBySingleton(x, f);
    }
  }

  /** Dropping elements that contribute 0 does not change a sum. */
  lemma {:induction false} SumByDropZeros<T>(s: seq<T>, p: T -> bool, f: T -> int)
    requires forall i :: 0 <= i < |s| && !p(s[i]) ==> f(s[i]) == 0
    ensures SumBy(Filter(s, p), f) == SumBy(s, f)
  {
    if s != [] {
      var rest, x := s[..|s| - 1], s[|s| - 1];
      assert forall i :: 0 <= i < |rest| && !p(rest[i]) ==> f(rest[i]) == 0 by {
        assert forall i :: 0 <= i < |rest| ==> rest[i] == s[i];
      }
      SumByDropZeros(rest, p, f);
      SumByAppend(Filter(rest, p), if p(x) then [x] else [], f);
      SumBySingleton(x, f);
    }
  }

  /** Dropping elements that contribute 0 does not change a real sum. */
  lemma {:induction false} RealSumByDropZeros<T>(s: seq<T>, p: T -> bool, g: T -> real)
    requires forall i :: 0 <= i < |s| && !p(s[i]) ==> g(s[i]) == 0.0
    ensures RealSumBy(Filter(s, p), g) == RealSumBy(s, g)
  {
    if s != [] {
      var rest, x := s[..|s| - 1], s[|s| - 1];
      assert forall i :: 0 <= i < |rest| && !p(rest[i]) ==> g(rest[i]) == 0.0 by {
        assert forall i :: 0 <= i < |rest| ==> rest[i] == s[i];
      }
      RealSumByDropZeros(rest, p, g);
      RealSumByAppend(Filter(rest, p), if p(x) then [x] else [], g);
      assert RealSumBy([x], g) == g(x) by {
        assert [x][..0] == [];
      }
    }
  }

  lemma RealSumBySingleton<T>(x: T, g: T -> real)
    ensures RealSumBy([x], g) == g(x)
  {
  }

  /** An element inserted anywhere adds its contribution to the real sum. */
  lemma RealSumByInsert<T>(front: seq<T>, x: T, back: seq<T>, g: T -> real)
    ensures RealSumBy(front + [x] + back, g) == RealSumBy(front + back, g) + g(x)
  {
    RealSumByAppend(front + [x], back, g);
    RealSumByAppend(front, [x], g);
    RealSumByAppend(front, back, g);
    RealSumBySingleton(x, g);
  }

  /** A real sum over a sequence does not depend on the order of its elements. */
  lemma {:induction false} RealSumByPermutation<T>(s: seq<T>, t: seq<T>, g: T -> real)
    requires multiset(s) == multiset(t)
    ensures RealSumBy(s, g) == RealSumBy(t, g)
  {
    if s == [] {
      assert |t| == |multiset(t)| == 0;
    } else {
      var j := MatchLast(s, t);
      RealSumByPermutation(s[..|s| - 1], t[..j] + t[j + 1..], g);
      assert t[..j + 1] == t[..j] + [t[j]];
      assert t == t[..j + 1] + t[j + 1..];
      RealSumByInsert(t[..j], t[j], t[j + 1..], g);
    }
  }

  /** `g` lies between `lo` and `hi` times the weight `w`. */
  predicate Between(lo: real, hi: real, w: int, g: real) {
    lo * (w as real) <= g <= hi * (w as real)
  }

  lemma AddBounds(lo: real, hi: real, weight: int, total: real, w: int, g: real)
    requires Between(lo, hi, weight, total) && Between(lo, hi, w, g)
    ensures Between(lo, hi, weight + w, total + g)
  {
  }

  /**
   * If every element's real contribution lies between `lo` and `hi` times its
   * integer weight, the real sum lies between `lo` and `hi` times the total weight.
   */
  lemma {:induction false} WeightedSumBounds<T>(s: seq<T>, w: T -> int, g: T -> real, lo: real, hi: real)
    requires forall i :: 0 <= i < |s| ==> Between(lo, hi, w(s[i]), g(s[i]))
    ensures Between(lo, hi, SumBy(s, w), RealSumBy(s, g))
  {
    if s != [] {
      var rest, x := s[..|s| - 1], s[|s| - 1];
      assert forall i :: 0 <= i < |rest| ==> Between(lo, hi, w(rest[i]), g(rest[i])) by {
        assert forall i :: 0 <= i < |rest| ==> rest[i] == s[i];
      }
      WeightedSumBounds(rest, w, g, lo, hi);
      AddBounds(lo, hi, SumBy(rest, w), RealSumBy(rest, g), w(x), g(x));
    }
  }

  /** Filtering distributes over concatenation. */
  lemma {:induction false} FilterAppend<T>(s: seq<T>, t: seq<T>, p: T -> bool)
    ensures Filter(s + t, p) == Filter(s, p) + Filter(t, p)
  {
    if t == [] {
      assert s + t == s;
    } else {
      assert (s + t)[..|s + t| - 1] == s + t[..|t| - 1];
      FilterAppend(s, t[..|t| - 1], p);
    }
  }

  /** An element inserted anywhere is kept by a filter exactly when it satisfies the predicate. */
  lemma FilterInsert<T>(front: seq<T>, x: T, back: seq<T>, p: T -> bool)
    ensures multiset(Filter(front + [x] + back, p))
         == multiset(Filter(front + back, p)) + (if p(x) then multiset{x} else multiset{})
  {
    FilterAppend(front + [x], back, p);
    FilterAppend(front, [x], p);
    FilterAppend(front, back, p);
    assert Filter([x], p) == (if p(x) then [x] else []) by {
      assert [x][..0] == [];
    }
  }

  /** Filtering two permutations of each other gives permutations of each other. */
  lemma {:induction false} FilterPermutation<T>(s: seq<T>, t: seq<T>, p: T -> bool)
    requires multiset(s) == multiset(t)
    ensures multiset(Filter(s, p)) == multiset(Filter(t, p))
  {
    if s == [] {
      assert |t| == |multiset(t)| == 0;
    } else {
      var j := MatchLast(s, t);
      FilterPermutation(s[..|s| - 1], t[..j] + t[j + 1..], p);
      assert t[..j + 1] == t[..j] + [t[j]];
      assert t == t[..j + 1] + t[j + 1..];
      FilterInsert(t[..j], t[j], t[j + 1..], p);
    }
  }
}
