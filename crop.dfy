/**
 * Where `cropTimeScale` cuts a raw time axis: from the first occurrence of one extreme
 * to the first later occurrence of the other, depending on which way the first two
 * samples run.
 */
module Crop {
  import opened Values

  /** Python's `max` of a non-empty list. */
  function Max(s: seq<real>): (m: real)
    requires |s| > 0
    ensures m in s
    ensures forall i :: 0 <= i < |s| ==> s[i] <= m
  {
    if |s| == 1 then s[0]
    else
      var rest := Max(s[1..]);
      assert forall i :: 1 <= i < |s| ==> s[i] == s[1..][i - 1];
      if s[0] >= rest then s[0] else rest
  }

  /** Python's `min` of a non-empty list. */
  function Min(s: seq<real>): (m: real)
    requires |s| > 0
    ensures m in s
    ensures forall i :: 0 <= i < |s| ==> m <= s[i]
  {
    if |s| == 1 then s[0]
    else
      var rest := Min(s[1..]);
      assert forall i :: 1 <= i < |s| ==> s[i] == s[1..][i - 1];
      if s[0] <= rest then s[0] else rest
  }

  /** The first index at or after `from` holding v, or |s| when there is none. */
  function FirstFrom(s: seq<real>, from: nat, v: real): (i: nat)
    requires from <= |s|
    ensures from <= i <= |s|
    ensures i < |s| ==> s[i] == v
    ensures forall j :: from <= j < i ==> s[j] != v
    ensures v in s[from..] ==> i < |s|
    decreases |s| - from
  {
    if from == |s| then from
    else if s[from] == v then from
    else
      var i := FirstFrom(s, from + 1, v);
      assert v in s[from..] ==> v in s[from + 1..] by {
        if v in s[from..] {
          var k :| from <= k < |s| && s[k] == v;
          assert s[from + 1..][k - from - 1] == v;
        }
      }
      i
  }

  /** The half-open index range `[start, end)` that is kept. */
  datatype Window = Window(start: nat, end: nat)

  /**
   * The two scans of one branch: forward to the first `opening` value, then on to the
   * first `closing` value after it; running off the end reads past the array.
   */
  function TwoScans(s: seq<real>, opening: real, closing: real): (r: Result<Window>)
    ensures r.Ok? ==> r.value.start <= r.value.end < |s|
  {
    var start := FirstFrom(s, 0, opening);
    var end := FirstFrom(s, start, closing);
    if end == |s| then Err(IndexError) else Ok(Window(start, end))
  }

  /**
   * What the two scans find when the opening value occurs: the window opens at its first
   * occurrence, closes at the first closing value after that, and fails exactly when no
   * closing value follows.
   */
  lemma ScanFinds(s: seq<real>, opening: real, closing: real)
    requires opening in s && opening != closing
    ensures var start := FirstFrom(s, 0, opening);
      TwoScans(s, opening, closing).Ok? <==> closing in s[start..]
    ensures TwoScans(s, opening, closing).Ok? ==>
      var w := TwoScans(s, opening, closing).value;
      && w.start < w.end
      && s[w.start] == opening
      && (forall j :: 0 <= j < w.start ==> s[j] != opening)
      && s[w.end] == closing
      && (forall j :: w.start <= j < w.end ==> s[j] != closing)
  {
    assert s[0..] == s;
    FirstFromFound(s, 0, opening);
    FirstFromFound(s, FirstFrom(s, 0, opening), closing);
  }

  /**
   * The window of `cropTimeScale`, or the exception it raises: `max` of an empty axis
   * raises ValueError, reading the second sample of a one-sample axis raises IndexError,
   * and so does the second scan when it runs off the end looking for the closing extreme.
   * Equal first samples select nothing.
   */
  function CropWindow(s: seq<real>): (r: Result<Window>)
    ensures r.Ok? ==> r.value.start <= r.value.end <= |s|
  {
    if |s| == 0 then Err(ValueError)
    else if |s| == 1 then Err(IndexError)
    else
      var hi := Max(s);
      var lo := Min(s);
      if s[0] < s[1] then TwoScans(s, hi, lo)
      else if s[0] > s[1] then TwoScans(s, lo, hi)
      else
        Ok(Window(0, 0))
  }

  /** Only the two exceptions of the code can come out of the crop, each for its reason. */
  lemma CropErrors(s: seq<real>)
    ensures CropWindow(s) == Err(ValueError) <==> |s| == 0
    ensures CropWindow(s).Err? ==> CropWindow(s).exc in {ValueError, IndexError}
    ensures |s| == 1 ==> CropWindow(s) == Err(IndexError)
  {
  }

  /** The first index holding v at or after `from` lies inside the array exactly when v occurs there. */
  lemma FirstFromFound(s: seq<real>, from: nat, v: real)
    requires from <= |s|
    ensures FirstFrom(s, from, v) < |s| <==> v in s[from..]
  {
    var i := FirstFrom(s, from, v);
    if i < |s| {
      assert s[from..][i - from] == v;
    }
  }

  /**
   * A rising start: the window opens at the first maximum, everything before it lies
   * below the maximum, it closes at the first minimum after that, and every kept sample
   * lies above the minimum. The crop succeeds exactly when a minimum follows the first
   * maximum.
   */
  lemma AscendingWindow(s: seq<real>)
    requires |s| >= 2 && s[0] < s[1]
    ensures var start := FirstFrom(s, 0, Max(s));
      CropWindow(s).Ok? <==> Min(s) in s[start..]
    ensures CropWindow(s).Ok? ==>
      var w := CropWindow(s).value;
      && w.start < w.end < |s|
      && s[w.start] == Max(s)
      && (forall j :: 0 <= j < w.start ==> s[j] < Max(s))
      && s[w.end] == Min(s)
      && (forall j :: w.start <= j < w.end ==> s[j] > Min(s))
  {
    var hi, lo := Max(s), Min(s);
    assert lo < hi by { assert lo <= s[0] < s[1] <= hi; }
    assert CropWindow(s) == TwoScans(s, hi, lo);
    ScanFinds(s, hi, lo);
  }

  /** A falling start: the mirror image, from the first minimum to the next maximum. */
  lemma DescendingWindow(s: seq<real>)
    requires |s| >= 2 && s[0] > s[1]
    ensures var start := FirstFrom(s, 0, Min(s));
      CropWindow(s).Ok? <==> Max(s) in s[start..]
    ensures CropWindow(s).Ok? ==>
      var w := CropWindow(s).value;
      && w.start < w.end < |s|
      && s[w.start] == Min(s)
      && (forall j :: 0 <= j < w.start ==> s[j] > Min(s))
      && s[w.end] == Max(s)
      && (forall j :: w.start <= j < w.end ==> s[j] < Max(s))
  {
    var hi, lo := Max(s), Min(s);
    assert lo < hi by { assert lo <= s[1] < s[0] <= hi; }
    assert CropWindow(s) == TwoScans(s, lo, hi);
    ScanFinds(s, lo, hi);
  }

  /** Equal first samples keep nothing. */
  lemma FlatStartEmpty(s: seq<real>)
    requires |s| >= 2 && s[0] == s[1]
    ensures CropWindow(s) == Ok(Window(0, 0))
  {
  }

  /** The first index holding v is pinned down by its contract. */
  lemma FirstFromIs(s: seq<real>, from: nat, v: real, i: nat)
    requires from <= i <= |s|
    requires i < |s| ==> s[i] == v
    requires forall j :: from <= j < i ==> s[j] != v
    requires i == |s| ==> v !in s[from..]
    ensures FirstFrom(s, from, v) == i
  {
  }

  /**
   * A strictly increasing axis has its maximum last and its minimum first, so the
   * second scan of the crop runs off the end: the crop raises IndexError.
   */
  lemma StrictlyAscendingFails(s: seq<real>)
    requires |s| >= 2
    requires forall i, j :: 0 <= i < j < |s| ==> s[i] < s[j]
    ensures CropWindow(s) == Err(IndexError)
  {
    var last := |s| - 1;
    assert Max(s) == s[last] by {
      var k :| 0 <= k < |s| && s[k] == Max(s);
      if k < last {
        assert s[k] < s[last];
      }
    }
    assert Min(s) == s[0] by {
      var k :| 0 <= k < |s| && s[k] == Min(s);
      if 0 < k {
        assert s[0] < s[k];
      }
    }
    FirstFromIs(s, 0, Max(s), last);
    assert s[last..] == [s[last]];
    FirstFromIs(s, last, Min(s), |s|);
  }

  /** A strictly decreasing axis fails the same way in the mirror branch. */
  lemma StrictlyDescendingFails(s: seq<real>)
    requires |s| >= 2
    requires forall i, j :: 0 <= i < j < |s| ==> s[i] > s[j]
    ensures CropWindow(s) == Err(IndexError)
  {
    var last := |s| - 1;
    assert Min(s) == s[last] by {
      var k :| 0 <= k < |s| && s[k] == Min(s);
      if k < last {
        assert s[k] > s[last];
      }
    }
    assert Max(s) == s[0] by {
      var k :| 0 <= k < |s| && s[k] == Max(s);
      if 0 < k {
        assert s[0] > s[k];
      }
    }
    FirstFromIs(s, 0, Min(s), last);
    assert s[last..] == [s[last]];
    FirstFromIs(s, last, Max(s), |s|);
  }

  /**
   * One period of a triangular sweep, rising to its peak and falling back to its start,
   * is cut from the peak to the end.
   */
  lemma TriangleSweep(s: seq<real>, peak: nat)
    requires 0 < peak < |s| - 1
    requires forall i, j :: 0 <= i < j <= peak ==> s[i] < s[j]
    requires forall i, j :: peak <= i < j < |s| ==> s[i] > s[j]
    requires s[|s| - 1] <= s[0]
    ensures CropWindow(s) == Ok(Window(peak, |s| - 1))
  {
    var last := |s| - 1;
    TriangleExtremes(s, peak);
    MaxAt(s, peak);
    MinAt(s, last);
    FirstFromIs(s, 0, s[peak], peak);
    forall j | peak <= j < last
      ensures s[j] != s[last]
    {
      assert s[j] > s[last];
    }
    FirstFromIs(s, peak, s[last], last);
    assert s[0] < s[1];
  }

  /** The extremes of a triangular sweep: the largest sample at its peak, the smallest at its end. */
  lemma TriangleExtremes(s: seq<real>, peak: nat)
    requires 0 < peak < |s| - 1
    requires forall i, j :: 0 <= i < j <= peak ==> s[i] < s[j]
    requires forall i, j :: peak <= i < j < |s| ==> s[i] > s[j]
    requires s[|s| - 1] <= s[0]
    ensures forall j :: 0 <= j < |s| ==> s[j] <= s[peak]
    ensures forall j :: 0 <= j < |s| ==> s[|s| - 1] <= s[j]
  {
    var last := |s| - 1;
    forall j | 0 <= j < |s|
      ensures s[j] <= s[peak]
    {
      if j < peak {
        assert s[j] < s[peak];
      } else if peak < j {
        assert s[peak] > s[j];
      }
    }
    forall j | 0 <= j < |s|
      ensures s[last] <= s[j]
    {
      if 0 < j <= peak {
        assert s[0] < s[j];
      } else if peak < j < last {
        assert s[j] > s[last];
      } else if j == peak {
        assert s[peak] > s[last];
      }
    }
  }

  /** An element no smaller than every other is the maximum. */
  lemma MaxAt(s: seq<real>, k: nat)
    requires k < |s|
    requires forall j :: 0 <= j < |s| ==> s[j] <= s[k]
    ensures Max(s) == s[k]
  {
  }

  /** An element no larger than every other is the minimum. */
  lemma MinAt(s: seq<real>, k: nat)
    requires k < |s|
    requires forall j :: 0 <= j < |s| ==> s[k] <= s[j]
    ensures Min(s) == s[k]
  {
  }
}
