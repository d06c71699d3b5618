/**
 * Whole-array expressions on a trace or a time axis: numpy's `a - d`, `-a`, `a / d`,
 * `a[::-1]` and `np.average(a)`, on unbounded reals.
 */
module Series {

  /** Every sample minus d (numpy's `a - d`). */
  function Shift(s: seq<real>, d: real): (r: seq<real>)
    ensures |r| == |s|
    ensures forall i :: 0 <= i < |s| ==> r[i] == s[i] - d
  {
    if s == [] then [] else [s[0] - d] + Shift(s[1..], d)
  }

  /** Every sample negated (numpy's `-a`). */
  function Negate(s: seq<real>): (r: seq<real>)
    ensures |r| == |s|
    ensures forall i :: 0 <= i < |s| ==> r[i] == -s[i]
  {
    if s == [] then [] else [-s[0]] + Negate(s[1..])
  }

  /** The samples in reverse order (Python's `a[::-1]`). */
  function Reverse(s: seq<real>): (r: seq<real>)
    ensures |r| == |s|
    ensures forall i :: 0 <= i < |s| ==> r[i] == s[|s| - 1 - i]
  {
    if s == [] then [] else Reverse(s[1..]) + [s[0]]
  }

  /** Every sample divided by a non-zero x (numpy's `a / x`). */
  function Divide(s: seq<real>, x: real): (r: seq<real>)
    requires x != 0.0
    ensures |r| == |s|
    ensures forall i :: 0 <= i < |s| ==> r[i] == s[i] / x
  {
    if s == [] then [] else [s[0] / x] + Divide(s[1..], x)
  }

  function Sum(s: seq<real>): real {
    if s == [] then 0.0 else s[0] + Sum(s[1..])
  }

  /** `np.average` of a non-empty slice. */
  function Mean(s: seq<real>): real
    requires |s| > 0
  {
    Sum(s) / (|s| as real)
  }

  /** Negating twice gives the samples back. */
  lemma {:induction false} NegateInvolution(s: seq<real>)
    ensures Negate(Negate(s)) == s
  {
    if s != [] {
      NegateInvolution(s[1..]);
    }
  }

  /** Reversing twice gives the samples back. */
  lemma ReverseInvolution(s: seq<real>)
    ensures Reverse(Reverse(s)) == s
  {
  }

  /** Negation and reversal commute, so a flipped axis can be flipped back in either order. */
  lemma {:induction false} NegateReverseCommute(s: seq<real>)
    ensures Negate(Reverse(s)) == Reverse(Negate(s))
  {
    var reversed, negated := Reverse(s), Negate(s);
    var left, right := Negate(reversed), Reverse(negated);
    forall i | 0 <= i < |s|
      ensures left[i] == right[i]
    {
      var j := |s| - 1 - i;
      assert left[i] == -reversed[i] == -s[j];
      assert right[i] == negated[j] == -s[j];
    }
    assert left == right;
  }

  /** Shifting by d and then by -d gives the samples back. */
  lemma {:induction false} ShiftInverse(s: seq<real>, d: real)
    ensures Shift(Shift(s, d), -d) == s
  {
    if s != [] {
      ShiftInverse(s[1..], d);
    }
  }

  /** A slice of a shifted array is the shifted slice. */
  lemma ShiftSlice(s: seq<real>, d: real, lo: nat, hi: nat)
    requires lo <= hi <= |s|
    ensures Shift(s, d)[lo..hi] == Shift(s[lo..hi], d)
  {
  }

  /** Subtracting d from every sample lowers the sum by |s| * d. */
  lemma {:induction false} SumShift(s: seq<real>, d: real)
    ensures Sum(Shift(s, d)) == Sum(s) - (|s| as real) * d
  {
    if s != [] {
      SumShift(s[1..], d);
    }
  }

  /** Subtracting the mean of a non-empty array leaves an array whose mean is 0. */
  lemma {:induction false} MeanRemoved(s: seq<real>)
    requires |s| > 0
    ensures Mean(Shift(s, Mean(s))) == 0.0
  {
    var m := Mean(s);
    SumShift(s, m);
    SubtractOwnMean(Sum(s), |s| as real);
    assert Sum(Shift(s, m)) == 0.0;
  }

  lemma SubtractOwnMean(total: real, n: real)
    requires n > 0.0
    ensures total - n * (total / n) == 0.0
  {
    MultiplyQuotient(total, n);
  }

  lemma MultiplyQuotient(a: real, n: real)
    requires n != 0.0
    ensures n * (a / n) == a
  {
  }
}
