/**
 * The cleaning steps of a scan as functions of the state they read and write: the
 * cleaned axes, the `analysis_log` dictionary and the `analysis_log[...]` attributes.
 * The raw arrays and the parameters are inputs, since no step changes them.
 */
module Cleaning {
  import opened Values
  import opened Series
  import opened Crop
  import opened AnalysisLog
  import opened Text

  /** The part of a scan the cleaning steps change. */
  datatype Stage = Stage(time: seq<real>, trace: seq<real>, analysisLog: map<string, Value>, logAttrs: LogAttrs)

  predicate Aligned(st: Stage) {
    |st.time| == |st.trace|
  }

  /** The low-pass filter `lfilter(butter(order, cutHigh))` applied to a trace. */
  type LowPass = (nat, real, seq<real>) -> seq<real>

  /** The helper `nyqistFreq` of a time axis. */
  type Nyquist = seq<real> -> real

  ghost predicate KeepsLength(lowPass: LowPass) {
    forall order, cutHigh, t :: |lowPass(order, cutHigh, t)| == |t|
  }

  /** The `overwrite` argument when a caller leaves it at its default. */
  const NoOverwrite: Value := Bool(false)

  /* ------------------------------------------------------------ steps */

  /**
   * `cropTimeScale`: the axes and the log dictionary are reset first; then the window of
   * the raw time axis is copied out of both raw arrays and the extremes are logged. When
   * the window cannot be found the reset state is all that remains.
   */
  function CropStep(rawTime: seq<real>, rawTrace: seq<real>, st: Stage): (r: (Stage, Status))
    requires |rawTime| == |rawTrace|
    ensures Aligned(r.0) && r.0.analysisLog == map[]
    ensures r.1 == Completed <==> CropWindow(rawTime).Ok?
    ensures r.1.Raised? ==> r.1 == Raised(CropWindow(rawTime).exc) && r.0 == Stage([], [], map[], st.logAttrs)
    ensures r.1 == Completed ==>
      var w := CropWindow(rawTime).value;
      && r.0.time == rawTime[w.start..w.end]
      && r.0.trace == rawTrace[w.start..w.end]
      && r.0.logAttrs == Record(st.logAttrs, "Crop Time Scale", NoOverwrite, [],
           map["maxtime" := Num(Max(rawTime)), "mintime" := Num(Min(rawTime))])
  {
    match CropWindow(rawTime)
    case Err(e) => (Stage([], [], map[], st.logAttrs), Raised(e))
    case Ok(w) =>
      var extremes := map["maxtime" := Num(Max(rawTime)), "mintime" := Num(Min(rawTime))];
      (Stage(rawTime[w.start..w.end], rawTrace[w.start..w.end], map[],
             Record(st.logAttrs, "Crop Time Scale", NoOverwrite, [], extremes)),
       Completed)
  }

  /**
   * `shiftTime(tshift)`: every time moves by -tshift and the trace stays. The shift is
   * passed in the `overwrite` position of the log call, so only a flag is logged.
   */
  function ShiftStep(st: Stage, tshift: real): (r: Stage)
    ensures |r.time| == |st.time| && r.trace == st.trace && r.analysisLog == st.analysisLog
    ensures forall i :: 0 <= i < |st.time| ==> r.time[i] == st.time[i] - tshift
    ensures r.logAttrs == Record(st.logAttrs, "Shift Time", Num(tshift), [], map[])
  {
    Stage(Shift(st.time, tshift), st.trace, st.analysisLog,
          Record(st.logAttrs, "Shift Time", Num(tshift), [], map[]))
  }

  /**
   * `flipTime`: the time axis is reversed and negated, the trace reversed, so the i-th
   * pair comes from the mirrored position.
   */
  function FlipTimeStep(st: Stage): (r: Stage)
    ensures |r.time| == |st.time| && |r.trace| == |st.trace| && r.analysisLog == st.analysisLog
    ensures forall i :: 0 <= i < |st.time| ==> r.time[i] == -st.time[|st.time| - 1 - i]
    ensures forall i :: 0 <= i < |st.trace| ==> r.trace[i] == st.trace[|st.trace| - 1 - i]
    ensures r.logAttrs == Record(st.logAttrs, "Flip Time", NoOverwrite, [], map[])
  {
    Stage(Negate(Reverse(st.time)), Reverse(st.trace), st.analysisLog,
          Record(st.logAttrs, "Flip Time", NoOverwrite, [], map[]))
  }

  /** `flipTrace`: the trace is negated and the time axis stays. */
  function FlipTraceStep(st: Stage): (r: Stage)
    ensures r.time == st.time && |r.trace| == |st.trace| && r.analysisLog == st.analysisLog
    ensures forall i :: 0 <= i < |st.trace| ==> r.trace[i] == -st.trace[i]
    ensures r.logAttrs == Record(st.logAttrs, "Flip Trace", NoOverwrite, [], map[])
  {
    Stage(st.time, Negate(st.trace), st.analysisLog,
          Record(st.logAttrs, "Flip Trace", NoOverwrite, [], map[]))
  }

  /** Python's normalisation of a slice bound against a sequence of length n. */
  function SliceBound(n: nat, x: int): (b: nat)
    ensures b <= n
    ensures 0 <= x <= n ==> b == x
  {
    if x < 0 then (if x + n < 0 then 0 else x + n)
    else if x > n then n
    else x
  }

  /**
   * The samples `removeDC(window)` averages: `trace[0:window]` when the log dictionary
   * has a 'Flip Time' entry, else `trace[n - window:n]`. A window longer than the trace
   * makes the tail start negative, and Python counts it from the end once more.
   */
  function BaselineRange(n: nat, window: int, flipLogged: bool): (r: (nat, nat))
    requires window > 0
    ensures r.0 <= r.1 <= n
    ensures n > 0 ==> r.0 < r.1
    ensures flipLogged ==> r == (0, if window <= n then window else n)
    ensures !flipLogged && window <= n ==> r == (n - window, n)
    ensures !flipLogged && n < window ==> r == (if 2 * n >= window then 2 * n - window else 0, n)
  {
    if flipLogged then (0, SliceBound(n, window))
    else (SliceBound(n, n - window), n)
  }

  /**
   * `removeDC(window)`: the mean of the baseline samples is subtracted from the trace and
   * logged with the window. Only an empty trace has nothing to average; numpy's mean of
   * an empty slice is NaN, which is what gets logged, and the empty trace stays empty.
   */
  function RemoveDcStep(st: Stage, window: int): (r: Stage)
    requires Aligned(st) && window > 0
    ensures r.time == st.time && |r.trace| == |st.trace| && r.analysisLog == st.analysisLog
    ensures |st.trace| > 0 ==>
      var range := BaselineRange(|st.trace|, window, "Flip Time" in st.analysisLog);
      var offset := Mean(st.trace[range.0..range.1]);
      && (forall i :: 0 <= i < |st.trace| ==> r.trace[i] == st.trace[i] - offset)
      && r.logAttrs == Record(st.logAttrs, "Remove DC", NoOverwrite, [],
           map["window" := Num(window as real), "shift" := Num(offset)])
    ensures |st.trace| == 0 ==>
      r.logAttrs == Record(st.logAttrs, "Remove DC", NoOverwrite, [],
        map["window" := Num(window as real), "shift" := NaN])
  {
    var n := |st.trace|;
    if n == 0 then
      Stage(st.time, st.trace, st.analysisLog,
            Record(st.logAttrs, "Remove DC", NoOverwrite, [],
                   map["window" := Num(window as real), "shift" := NaN]))
    else
      var range := BaselineRange(n, window, "Flip Time" in st.analysisLog);
      var offset := Mean(st.trace[range.0..range.1]);
      Stage(st.time, Shift(st.trace, offset), st.analysisLog,
            Record(st.logAttrs, "Remove DC", NoOverwrite, [],
                   map["window" := Num(window as real), "shift" := Num(offset)]))
  }

  /** The cut-off frequency `filterLowPass` logs and can return. */
  function FilterFrequency(nyquist: Nyquist, time: seq<real>, cutHigh: real): real {
    nyquist(time) * cutHigh
  }

  /** `filterLowPass(cutHigh, order)`: the trace goes through the filter, the axis stays. */
  function FilterStep(st: Stage, lowPass: LowPass, nyquist: Nyquist, cutHigh: real, order: nat): (r: Stage)
    ensures r.time == st.time && r.trace == lowPass(order, cutHigh, st.trace)
    ensures r.analysisLog == st.analysisLog
    ensures r.logAttrs == Record(st.logAttrs, "Low Pass Filter", NoOverwrite, [],
      map["frequency" := Num(FilterFrequency(nyquist, st.time, cutHigh)),
          "nyq_factor" := Num(cutHigh), "order" := Num(order as real)])
  {
    var entry := map["frequency" := Num(FilterFrequency(nyquist, st.time, cutHigh)),
                     "nyq_factor" := Num(cutHigh), "order" := Num(order as real)];
    Stage(st.time, lowPass(order, cutHigh, st.trace), st.analysisLog,
          Record(st.logAttrs, "Low Pass Filter", NoOverwrite, [], entry))
  }

  /** The log key of a normalisation: 'Normalized by ' and the name with '_' read as ' '. */
  function NormalizeKey(parameter: string): (key: string)
    ensures |key| == 14 + |parameter| && key[..14] == "Normalized by "
    ensures '_' !in key[14..]
  {
    ReplaceRemoves(parameter, '_', ' ');
    "Normalized by " + Replace(parameter, '_', ' ')
  }

  /** After the prefix, the key spells the name with each '_' read as ' ' and every other character kept. */
  lemma NormalizeKeySpelling(parameter: string)
    ensures forall i :: 0 <= i < |parameter| ==>
      NormalizeKey(parameter)[14 + i] == (if parameter[i] == '_' then ' ' else parameter[i])
  {
    var key := NormalizeKey(parameter);
    forall i | 0 <= i < |parameter|
      ensures key[14 + i] == (if parameter[i] == '_' then ' ' else parameter[i])
    {
      assert key[14 + i] == Replace(parameter, '_', ' ')[i];
    }
  }

  /**
   * `normalizeToParameter(parameter)` given the parameter's value, or None when the scan
   * has no such attribute (`getattr` raises AttributeError). A true, non-zero value
   * divides the trace (`True` divides by 1; a non-empty string raises TypeError from
   * numpy); a false or zero one leaves it. Both of the latter log the normalisation.
   */
  function NormalizeStep(st: Stage, value: Option<Value>, parameter: string): (r: (Stage, Status))
    requires value.Some? ==> IsScalar(value.value)
    ensures r.0.time == st.time && |r.0.trace| == |st.trace| && r.0.analysisLog == st.analysisLog
    ensures value.None? ==> r == (st, Raised(AttributeError))
    ensures value.Some? && value.value.Str? && |value.value.s| > 0 ==> r == (st, Raised(TypeError))
    ensures value.Some? && !(value.value.Str? && |value.value.s| > 0) ==>
      && r.1 == Completed
      && r.0.logAttrs == Record(st.logAttrs, NormalizeKey(parameter), NoOverwrite, [], map[])
    ensures value.Some? && value.value.Num? && value.value.x != 0.0 ==>
      forall i :: 0 <= i < |st.trace| ==> r.0.trace[i] == st.trace[i] / value.value.x
    ensures value.Some? && !(value.value.Num? && value.value.x != 0.0) ==> r.0.trace == st.trace
  {
    match value
    case None => (st, Raised(AttributeError))
    case Some(v) =>
      var logged := Record(st.logAttrs, NormalizeKey(parameter), NoOverwrite, [], map[]);
      var kept := Stage(st.time, st.trace, st.analysisLog, logged);
      match v
      case Num(x) =>
        if x != 0.0 then (Stage(st.time, Divide(st.trace, x), st.analysisLog, logged), Completed)
        else (kept, Completed)
      case Bool(_) => (kept, Completed)
      case Str(s) => if |s| > 0 then (st, Raised(TypeError)) else (kept, Completed)
  }

  /* --------------------------------------------------------- pipeline */

  /** The switches of `cleanData`; `shift` is the `shiftTime` argument, 0 to skip it. */
  datatype CleanOptions = CleanOptions(
    crop: bool, shift: real, flipTime: bool, removeDC: bool, filterLowPass: bool, flipTrace: bool)

  /** The defaults of `cleanData`. */
  const DefaultClean: CleanOptions := CleanOptions(true, 0.0, true, true, true, false)

  /** The baseline window `cleanData` uses. */
  const DefaultWindow: int := 40

  /** The filter settings `cleanData` uses. */
  const DefaultCutHigh: real := 0.1
  const DefaultOrder: nat := 2

  /** The steps of `cleanData` after the crop, each when enabled, in their fixed order. */
  function CleanAfterCrop(st: Stage, opts: CleanOptions, lowPass: LowPass, nyquist: Nyquist): (r: Stage)
    requires Aligned(st) && KeepsLength(lowPass)
    ensures Aligned(r)
  {
    CleanTrace(AlignTime(st, opts), opts, lowPass, nyquist)
  }

  /** The time-axis steps of `cleanData`: the shift, then the reversal of both arrays. */
  function AlignTime(st: Stage, opts: CleanOptions): (r: Stage)
    requires Aligned(st)
    ensures Aligned(r)
  {
    var shifted := if opts.shift != 0.0 then ShiftStep(st, opts.shift) else st;
    if opts.flipTime then FlipTimeStep(shifted) else shifted
  }

  /** The trace steps of `cleanData`: the baseline, the filter, then the sign flip. */
  function CleanTrace(st: Stage, opts: CleanOptions, lowPass: LowPass, nyquist: Nyquist): (r: Stage)
    requires Aligned(st) && KeepsLength(lowPass)
    ensures Aligned(r)
  {
    var levelled := if opts.removeDC then RemoveDcStep(st, DefaultWindow) else st;
    var filtered := if opts.filterLowPass then FilterStep(levelled, lowPass, nyquist, DefaultCutHigh, DefaultOrder) else levelled;
    if opts.flipTrace then FlipTraceStep(filtered) else filtered
  }

  /** `cleanData`: the enabled steps in their fixed order; an exception in the crop ends it. */
  function Clean(rawTime: seq<real>, rawTrace: seq<real>, st: Stage, opts: CleanOptions,
                 lowPass: LowPass, nyquist: Nyquist): (r: (Stage, Status))
    requires |rawTime| == |rawTrace| && Aligned(st) && KeepsLength(lowPass)
    ensures Aligned(r.0)
  {
    var cropped := if opts.crop then CropStep(rawTime, rawTrace, st) else (st, Completed);
    if cropped.1.Raised? then cropped
    else (CleanAfterCrop(cropped.0, opts, lowPass, nyquist), Completed)
  }

  /* ----------------------------------------------------------- lemmas */

  /** The crop depends on the raw arrays only: whatever was cleaned before is discarded. */
  lemma CropForgetsHistory(rawTime: seq<real>, rawTrace: seq<real>, st1: Stage, st2: Stage)
    requires |rawTime| == |rawTrace|
    ensures var (a, sa) := CropStep(rawTime, rawTrace, st1);
      var (b, sb) := CropStep(rawTime, rawTrace, st2);
      a.time == b.time && a.trace == b.trace && a.analysisLog == b.analysisLog && sa == sb
  {
  }

  /** Cropping twice is cropping once, down to the log, since the second log call is ignored. */
  lemma CropIdempotent(rawTime: seq<real>, rawTrace: seq<real>, st: Stage)
    requires |rawTime| == |rawTrace|
    ensures var once := CropStep(rawTime, rawTrace, st);
      CropStep(rawTime, rawTrace, once.0) == once
  {
  }

  /** Flipping the time axis twice restores both arrays; only the log remembers. */
  lemma FlipTimeInvolution(st: Stage)
    ensures var twice := FlipTimeStep(FlipTimeStep(st));
      twice.time == st.time && twice.trace == st.trace && twice.logAttrs == FlipTimeStep(st).logAttrs
  {
    NegateReverseCommute(st.time);
    NegateInvolution(Reverse(st.time));
    ReverseInvolution(st.time);
    ReverseInvolution(st.trace);
    calc {
      Negate(Reverse(Negate(Reverse(st.time))));
      { NegateReverseCommute(Negate(Reverse(st.time))); }
      Reverse(Negate(Negate(Reverse(st.time))));
      Reverse(Reverse(st.time));
    }
  }

  /** Flipping the trace twice restores it. */
  lemma FlipTraceInvolution(st: Stage)
    ensures var twice := FlipTraceStep(FlipTraceStep(st));
      twice.time == st.time && twice.trace == st.trace && twice.logAttrs == FlipTraceStep(st).logAttrs
  {
    NegateInvolution(st.trace);
  }

  /** Shifting back by the same amount restores the time axis. */
  lemma ShiftUndone(st: Stage, tshift: real)
    ensures ShiftStep(ShiftStep(st, tshift), -tshift).time == st.time
  {
    ShiftInverse(st.time, tshift);
  }

  /**
   * Without a 'Flip Time' entry in the log dictionary the baseline is the last `window`
   * samples, and once it is removed they average to 0.
   */
  lemma RemoveDcZeroTail(st: Stage, window: int)
    requires Aligned(st) && 0 < window <= |st.trace|
    requires "Flip Time" !in st.analysisLog
    ensures var n := |st.trace|;
      var r := RemoveDcStep(st, window);
      && (forall i :: 0 <= i < n ==> r.trace[i] == st.trace[i] - Mean(st.trace[n - window..]))
      && Mean(r.trace[n - window..]) == 0.0
  {
    var n := |st.trace|;
    var tail := st.trace[n - window..];
    assert st.trace[n - window..n] == tail;
    ShiftSlice(st.trace, Mean(tail), n - window, n);
    assert Shift(st.trace, Mean(tail))[n - window..] == Shift(st.trace, Mean(tail))[n - window..n];
    MeanRemoved(tail);
  }

  /** No step but the crop touches the log dictionary, and the crop empties it. */
  lemma {:induction false} CleanLogDictionary(rawTime: seq<real>, rawTrace: seq<real>, st: Stage,
                                              opts: CleanOptions, lowPass: LowPass, nyquist: Nyquist)
    requires |rawTime| == |rawTrace| && Aligned(st) && KeepsLength(lowPass)
    ensures Clean(rawTime, rawTrace, st, opts, lowPass, nyquist).0.analysisLog
         == (if opts.crop then map[] else st.analysisLog)
  {
  }

  /**
   * Since nothing ever writes 'Flip Time' into the log dictionary, a cleaning that crops
   * takes the baseline from the tail even when the time axis was flipped just before.
   */
  lemma DefaultCleanUsesTail(rawTime: seq<real>, rawTrace: seq<real>, st: Stage)
    requires |rawTime| == |rawTrace| && Aligned(st)
    ensures var cropped := CropStep(rawTime, rawTrace, st).0;
      "Flip Time" !in FlipTimeStep(cropped).analysisLog
  {
  }

  /** With the crop on, an empty raw axis raises ValueError and leaves empty axes. */
  lemma CleanEmptyRaw(st: Stage, opts: CleanOptions, lowPass: LowPass, nyquist: Nyquist)
    requires Aligned(st) && KeepsLength(lowPass) && opts.crop
    ensures var r := Clean([], [], st, opts, lowPass, nyquist);
      r.1 == Raised(ValueError) && r.0.time == [] && r.0.trace == [] && r.0.logAttrs == st.logAttrs
  {
  }

  /** With the crop on, a strictly increasing raw axis makes the cleaning raise IndexError. */
  lemma CleanAscendingRawFails(rawTime: seq<real>, rawTrace: seq<real>, st: Stage, opts: CleanOptions,
                               lowPass: LowPass, nyquist: Nyquist)
    requires |rawTime| == |rawTrace| >= 2 && Aligned(st) && KeepsLength(lowPass) && opts.crop
    requires forall i, j :: 0 <= i < j < |rawTime| ==> rawTime[i] < rawTime[j]
    ensures Clean(rawTime, rawTrace, st, opts, lowPass, nyquist).1 == Raised(IndexError)
  {
    StrictlyAscendingFails(rawTime);
  }

  /** A zero or empty parameter leaves the trace as it was but still logs the normalisation. */
  lemma NormalizeByFalsyLogs(st: Stage, v: Value, parameter: string)
    requires IsScalar(v) && !Truthy(v)
    ensures NormalizeStep(st, Some(v), parameter)
         == (Stage(st.time, st.trace, st.analysisLog,
                   Record(st.logAttrs, NormalizeKey(parameter), NoOverwrite, [], map[])), Completed)
  {
  }
}
