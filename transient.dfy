/**
 * One pump-probe scan: its raw and cleaned arrays, its experiment parameters and its
 * analysis log, with the methods that clean the data and keep the bookkeeping.
 */
module Transients {
  import opened Values
  import opened Series
  import opened Text
  import opened Crop
  import opened AnalysisLog
  import opened Metadata
  import opened Header
  import opened Cleaning
  import opened ImportRoute

  /** What a `.mat` file provides: the rows of `Daten` (trace, time) and `DC[0][0]`, when present. */
  datatype MatContents = MatContents(daten: Option<(seq<real>, seq<real>)>, dc: Option<real>)

  /** One data row of a text file: raw time, raw trace, time, trace. */
  datatype Row = Row(rawTime: real, rawTrace: real, time: real, trace: real)

  /**
   * What `print(len(data[0]))` makes of the array `loadtxt` returns. No data row gives an
   * empty array, and `data[0]` raises IndexError. One data row is read as a flat array of
   * four numbers, and `len` of its first number raises TypeError. Two or more rows pass.
   */
  function LoadedStatus(rows: seq<Row>): (s: Status)
    ensures s == Completed <==> |rows| >= 2
    ensures s.Raised? ==> s.exc == (if rows == [] then IndexError else TypeError)
  {
    if |rows| == 0 then Raised(IndexError)
    else if |rows| == 1 then Raised(TypeError)
    else Completed
  }

  function RawTimes(rows: seq<Row>): (c: seq<real>)
    ensures |c| == |rows| && forall i :: 0 <= i < |rows| ==> c[i] == rows[i].rawTime
  {
    seq(|rows|, i requires 0 <= i < |rows| => rows[i].rawTime)
  }

  function RawTraces(rows: seq<Row>): (c: seq<real>)
    ensures |c| == |rows| && forall i :: 0 <= i < |rows| ==> c[i] == rows[i].rawTrace
  {
    seq(|rows|, i requires 0 <= i < |rows| => rows[i].rawTrace)
  }

  function Times(rows: seq<Row>): (c: seq<real>)
    ensures |c| == |rows| && forall i :: 0 <= i < |rows| ==> c[i] == rows[i].time
  {
    seq(|rows|, i requires 0 <= i < |rows| => rows[i].time)
  }

  function Traces(rows: seq<Row>): (c: seq<real>)
    ensures |c| == |rows| && forall i :: 0 <= i < |rows| ==> c[i] == rows[i].trace
  {
    seq(|rows|, i requires 0 <= i < |rows| => rows[i].trace)
  }

  /** All attributes of a scan by name, as `self.__dict__` holds them. */
  function AttributeMap(rawTime: seq<real>, rawTrace: seq<real>, time: seq<real>, trace: seq<real>,
                        metadata: map<string, Value>, analysisLog: map<string, Value>,
                        logAttrs: LogAttrs): map<string, Value>
  {
    metadata + logAttrs + map[
      LogDictName := Dict(analysisLog),
      "raw_time" := Samples(rawTime), "raw_trace" := Samples(rawTrace),
      "time" := Samples(time), "trace" := Samples(trace)]
  }

  /** The attributes of a freshly constructed scan. */
  function FreshAttributes(): map<string, Value> {
    AttributeMap([], [], [], [], DefaultMetadata, map[], map[])
  }

  /** A fresh scan reports no parameters at all. */
  lemma FreshScanFetchesNothing(parse: string -> Option<real>)
    requires parse("") == None
    ensures NonDefault(FreshAttributes(), parse) == map[]
  {
    DefaultsNotFetched(FreshAttributes(), parse);
  }

  /** The parameters after the header lines: each assigned name now holds its raw text. */
  function AssignText(m: map<string, Value>, written: map<string, string>): (r: map<string, Value>)
    ensures r.Keys == m.Keys
    ensures forall k :: k in m ==> r[k] == if k in written then Str(written[k]) else m[k]
  {
    map k | k in m :: if k in written then Str(written[k]) else m[k]
  }

  /** Assigning one more name changes at most that entry. */
  lemma AssignStep(m: map<string, Value>, written: map<string, string>, k: string, v: string)
    ensures AssignText(m, written[k := v]) == if k in m then AssignText(m, written)[k := Str(v)] else AssignText(m, written)
  {
    var after := AssignText(m, written[k := v]);
    if k in m {
      assert after == AssignText(m, written)[k := Str(v)];
    } else {
      assert after == AssignText(m, written);
    }
  }

  /** The methods of the class, which `getattr` finds on every instance. */
  const MethodNames: set<string> := {
    "initMetadata_filename", "calcEnergyDensities", "initMetadata", "fetchMetadata", "log_it",
    "writeMetadata_fromDict", "getUnit", "cleanData", "cropTimeScale", "shiftTime", "flipTime",
    "flipTrace", "removeDC", "filterLowPass", "normalizeToParameter", "quickplot", "importFile",
    "importMatFile", "importCSV", "exportCSV"}

  /** A name `getattr` resolves on the class rather than the instance: a method or a dunder name. */
  predicate IsClassAttribute(name: string) {
    name in MethodNames || (|name| >= 4 && name[..2] == "__" && name[|name| - 2..] == "__")
  }

  /** The parameters after `importMatFile`: the path, and R0 when both matrices were read. */
  function MatMetadata(md: map<string, Value>, filepath: string, mat: MatContents): (r: map<string, Value>)
    ensures r.Keys == md.Keys + {"original_filepath"} + (if mat.daten.Some? && mat.dc.Some? then {"R0"} else {})
    ensures r["original_filepath"] == Str(filepath)
    ensures mat.daten.Some? && mat.dc.Some? ==> r["R0"] == Num(mat.dc.value)
    ensures forall k :: k in md && k != "original_filepath" && (mat.daten.None? || mat.dc.None? || k != "R0") ==> r[k] == md[k]
  {
    var withPath := md["original_filepath" := Str(filepath)];
    if mat.daten.Some? && mat.dc.Some? then withPath["R0" := Num(mat.dc.value)] else withPath
  }

  /** The loop of `fetchMetadata` over the attribute dictionary `attrs`. */
  method CollectNonDefault(attrs: map<string, Value>, parse: string -> Option<real>) returns (md: map<string, Value>)
    ensures md == NonDefault(attrs, parse)
  {
    md := map[];
    var todo := attrs.Keys;
    while todo != {}
      invariant todo <= attrs.Keys
      invariant forall k :: k in md <==> k in attrs && k !in todo && k !in ArrayNames && Kept(attrs[k], parse)
      invariant forall k :: k in md ==> md[k] == attrs[k]
      decreases todo
    {
      var key :| key in todo;
      if key !in ArrayNames && Kept(attrs[key], parse) {
        md := md[key := attrs[key]];
      }
      todo := todo - {key};
    }
    assert md == NonDefault(attrs, parse);
  }

  class Transient {
    var rawTime: seq<real>
    var rawTrace: seq<real>
    var time: seq<real>
    var trace: seq<real>
    /** The experiment parameters by attribute name, `other` included once it is set. */
    var metadata: map<string, Value>
    /** The `analysis_log` dictionary. */
    var analysisLog: map<string, Value>
    /** The `analysis_log[<key>]` attributes `log_it` creates. */
    var logAttrs: LogAttrs

    predicate Valid()
      reads this
    {
      && |rawTime| == |rawTrace|
      && |time| == |trace|
      && ParamNames <= metadata.Keys
    }

    /** The state the cleaning steps work on. */
    function Snapshot(): Stage
      reads this
    {
      Stage(time, trace, analysisLog, logAttrs)
    }

    function Attributes(): map<string, Value>
      reads this
    {
      AttributeMap(rawTime, rawTrace, time, trace, metadata, analysisLog, logAttrs)
    }

    constructor()
      ensures Valid()
      ensures rawTime == [] && rawTrace == [] && time == [] && trace == []
      ensures metadata == DefaultMetadata && analysisLog == map[] && logAttrs == map[]
      ensures Attributes() == FreshAttributes()
    {
      rawTime := [];
      rawTrace := [];
      time := [];
      trace := [];
      metadata := DefaultMetadata;
      analysisLog := map[];
      logAttrs := map[];
      DefaultsCoverParameters();
    }

    /** `log_it`: an entry is made under `analysis_log[key]` unless one exists already. */
    method LogIt(key: string, overwrite: Value, args: seq<Value>, kwargs: map<string, Value>)
      requires Valid()
      modifies this`logAttrs
      ensures Valid()
      ensures logAttrs == Record(old(logAttrs), key, overwrite, args, kwargs)
    {
      var name := AttrName(key);
      var entry := EntryFor(args, kwargs);
      if name !in logAttrs {
        logAttrs := logAttrs[name := entry];
      }
      // An existing entry is left alone: 'Boolean' is compared with 'boolean' and
      // `entry is list` / `entry is dict` compare with the type objects, all false.
    }

    /**
     * One scanning loop of `cropTimeScale`: from `from` on, skips the samples below
     * (`below`) or above the extreme `target`; running off the end is the IndexError.
     */
    method Scan(from: nat, target: real, below: bool) returns (i: nat)
      requires from <= |rawTime|
      requires below ==> forall j :: 0 <= j < |rawTime| ==> rawTime[j] <= target
      requires !below ==> forall j :: 0 <= j < |rawTime| ==> rawTime[j] >= target
      ensures i == FirstFrom(rawTime, from, target)
    {
      i := from;
      while i < |rawTime| && (if below then rawTime[i] < target else rawTime[i] > target)
        invariant from <= i <= FirstFrom(rawTime, from, target)
        decreases |rawTime| - i
      {
        i := i + 1;
      }
    }

    /**
     * The window `cropTimeScale` keeps: from the first occurrence of the opening extreme
     * (the maximum on a rising start, the minimum on a falling one) to the first later
     * occurrence of the other; nothing when the first two samples are equal.
     */
    method FindWindow() returns (window: Result<Window>)
      ensures window == CropWindow(rawTime)
    {
      if |rawTime| == 0 {
        return Err(ValueError);
      }
      var maxT := Max(rawTime);
      var minT := Min(rawTime);
      if |rawTime| == 1 {
        return Err(IndexError);
      }
      assert rawTime[0..] == rawTime;
      var start := 0;
      var end := 0;
      if rawTime[0] < rawTime[1] {
        start := Scan(0, maxT, true);
        end := Scan(start, minT, false);
      } else if rawTime[0] > rawTime[1] {
        start := Scan(0, minT, false);
        end := Scan(start, maxT, true);
      }
      if end == |rawTime| {
        return Err(IndexError);
      }
      window := Ok(Window(start, end));
    }

    /**
     * `cropTimeScale`: resets the axes and the log dictionary, finds the window and
     * copies it out of both raw arrays sample by sample.
     */
    method CropTimeScale() returns (status: Status)
      requires Valid()
      modifies this`time, this`trace, this`analysisLog, this`logAttrs
      ensures Valid()
      ensures (Snapshot(), status) == CropStep(rawTime, rawTrace, old(Snapshot()))
    {
      analysisLog := map[];
      time := [];
      trace := [];
      var window := FindWindow();
      if window.Err? {
        return Raised(window.exc);
      }
      CopyWindow(window.value.start, window.value.end);
      LogIt("Crop Time Scale", NoOverwrite, [], map["maxtime" := Num(Max(rawTime)), "mintime" := Num(Min(rawTime))]);
      status := Completed;
    }

    /** The copying loop of `cropTimeScale`: appends the window of both raw arrays to the emptied axes. */
    method CopyWindow(start: nat, end: nat)
      requires start <= end <= |rawTime| == |rawTrace|
      requires time == [] && trace == []
      modifies this`time, this`trace
      ensures time == rawTime[start..end] && trace == rawTrace[start..end]
    {
      var times, samples := rawTime, rawTrace;
      var i := 0;
      while i < end - start
        invariant 0 <= i <= end - start
        invariant time == times[start..start + i] && trace == samples[start..start + i]
      {
        assert times[start..start + i + 1] == times[start..start + i] + [times[i + start]];
        assert samples[start..start + i + 1] == samples[start..start + i] + [samples[i + start]];
        time := time + [times[i + start]];
        trace := trace + [samples[i + start]];
        i := i + 1;
      }
    }

    /** `shiftTime(tshift)`. */
    method ShiftTime(tshift: real)
      requires Valid()
      modifies this`time, this`logAttrs
      ensures Valid()
      ensures Snapshot() == ShiftStep(old(Snapshot()), tshift)
    {
      time := Shift(time, tshift);
      LogIt("Shift Time", Num(tshift), [], map[]);
    }

    /** `flipTime`. */
    method FlipTime()
      requires Valid()
      modifies this`time, this`trace, this`logAttrs
      ensures Valid()
      ensures Snapshot() == FlipTimeStep(old(Snapshot()))
    {
      time := Reverse(time);
      time := Negate(time);
      trace := Reverse(trace);
      LogIt("Flip Time", NoOverwrite, [], map[]);
    }

    /** `flipTrace`. */
    method FlipTrace()
      requires Valid()
      modifies this`trace, this`logAttrs
      ensures Valid()
      ensures Snapshot() == FlipTraceStep(old(Snapshot()))
    {
      trace := Negate(trace);
      LogIt("Flip Trace", NoOverwrite, [], map[]);
    }

    /**
     * `removeDC(window)`: the head of the trace is the baseline when the log dictionary has
     * a 'Flip Time' entry, else the tail, whose start is counted from `len(time)`.
     */
    method RemoveDC(window: int)
      requires Valid() && window > 0
      modifies this`trace, this`logAttrs
      ensures Valid()
      ensures Snapshot() == RemoveDcStep(old(Snapshot()), window)
    {
      var lo, hi := Baseline(window);
      var shift: Value := NaN;
      if lo < hi {
        var offset := Mean(trace[lo..hi]);
        shift := Num(offset);
        trace := Shift(trace, offset);
      }
      LogIt("Remove DC", NoOverwrite, [], map["window" := Num(window as real), "shift" := shift]);
    }

    /** The slice `removeDC` averages, empty only for an empty trace. */
    method Baseline(window: int) returns (lo: nat, hi: nat)
      requires Valid() && window > 0
      ensures |trace| == 0 ==> lo == hi == 0
      ensures |trace| > 0 ==> (lo, hi) == BaselineRange(|trace|, window, "Flip Time" in analysisLog)
    {
      var n := |trace|;
      if "Flip Time" in analysisLog {
        lo, hi := SliceBound(n, 0), SliceBound(n, window);
      } else {
        var tpoints := |time|;
        lo, hi := SliceBound(n, tpoints - window), SliceBound(n, tpoints);
      }
    }

    /** `filterLowPass(cutHigh, order)`, returning the cut-off frequency. */
    method FilterLowPass(cutHigh: real, order: nat, lowPass: LowPass, nyquist: Nyquist) returns (frequency: real)
      requires Valid() && KeepsLength(lowPass)
      modifies this`trace, this`logAttrs
      ensures Valid()
      ensures Snapshot() == FilterStep(old(Snapshot()), lowPass, nyquist, cutHigh, order)
      ensures frequency == FilterFrequency(nyquist, time, cutHigh)
    {
      trace := lowPass(order, cutHigh, trace);
      frequency := FilterFrequency(nyquist, time, cutHigh);
      LogIt("Low Pass Filter", NoOverwrite, [],
            map["frequency" := Num(frequency), "nyq_factor" := Num(cutHigh), "order" := Num(order as real)]);
    }

    /**
     * `normalizeToParameter(parameter)` for a parameter name; the data arrays, the log
     * attributes and the attributes of the class itself are not parameters.
     */
    method NormalizeToParameter(parameter: string) returns (status: Status)
      requires Valid()
      requires parameter !in ArrayNames && parameter != LogDictName && parameter !in logAttrs
      requires !IsClassAttribute(parameter)
      requires parameter in metadata ==> IsScalar(metadata[parameter])
      modifies this`trace, this`logAttrs
      ensures Valid()
      ensures (Snapshot(), status)
           == NormalizeStep(old(Snapshot()), if parameter in metadata then Some(metadata[parameter]) else None, parameter)
    {
      if parameter !in metadata {
        return Raised(AttributeError);
      }
      status := NormalizeByValue(metadata[parameter], parameter);
    }

    /**
     * The body of `normalizeToParameter` once `getattr` has found the value: divide by a
     * true, non-zero value, then log the normalisation.
     */
    method NormalizeByValue(value: Value, parameter: string) returns (status: Status)
      requires Valid() && IsScalar(value)
      modifies this`trace, this`logAttrs
      ensures Valid()
      ensures (Snapshot(), status) == NormalizeStep(old(Snapshot()), Some(value), parameter)
    {
      if Truthy(value) {
        if DiffersFromZero(value) {
          match value
          case Num(x) => trace := Divide(trace, x);
          case Bool(_) =>
          case Str(_) => return Raised(TypeError);
        }
      }
      LogIt(NormalizeKey(parameter), NoOverwrite, [], map[]);
      status := Completed;
    }

    /** `cleanData`: the enabled steps in their fixed order, stopping at an exception. */
    method CleanData(opts: CleanOptions, lowPass: LowPass, nyquist: Nyquist) returns (status: Status)
      requires Valid() && KeepsLength(lowPass)
      modifies this`time, this`trace, this`analysisLog, this`logAttrs
      ensures Valid()
      ensures (Snapshot(), status) == Clean(rawTime, rawTrace, old(Snapshot()), opts, lowPass, nyquist)
    {
      status := Completed;
      if opts.crop {
        status := CropTimeScale();
        if status.Raised? {
          return;
        }
      }
      CleanCropped(opts, lowPass, nyquist);
    }

    /** The steps of `cleanData` that follow the crop. */
    method CleanCropped(opts: CleanOptions, lowPass: LowPass, nyquist: Nyquist)
      requires Valid() && KeepsLength(lowPass)
      modifies this`time, this`trace, this`logAttrs
      ensures Valid()
      ensures Snapshot() == CleanAfterCrop(old(Snapshot()), opts, lowPass, nyquist)
    {
      AlignCropped(opts);
      CleanCroppedTrace(opts, lowPass, nyquist);
    }

    /** The time-axis steps of `cleanData` after the crop; reversing time reverses the trace with it. */
    method AlignCropped(opts: CleanOptions)
      requires Valid()
      modifies this`time, this`trace, this`logAttrs
      ensures Valid()
      ensures Snapshot() == AlignTime(old(Snapshot()), opts)
    {
      if opts.shift != 0.0 {
        ShiftTime(opts.shift);
      }
      if opts.flipTime {
        FlipTime();
      }
    }

    /** The trace steps of `cleanData` after the crop. */
    method CleanCroppedTrace(opts: CleanOptions, lowPass: LowPass, nyquist: Nyquist)
      requires Valid() && KeepsLength(lowPass)
      modifies this`trace, this`logAttrs
      ensures Valid()
      ensures Snapshot() == CleanTrace(old(Snapshot()), opts, lowPass, nyquist)
    {
      if opts.removeDC {
        RemoveDC(DefaultWindow);
      }
      if opts.filterLowPass {
        var _ := FilterLowPass(DefaultCutHigh, DefaultOrder, lowPass, nyquist);
      }
      if opts.flipTrace {
        FlipTrace();
      }
    }

    /** `calcEnergyDensities`, with `getEnergyDensity` as `density`. */
    method CalcEnergyDensities(density: (Value, Value, real) -> real)
      requires Valid()
      modifies this`metadata
      ensures Valid()
      ensures metadata == EnergyUpdate(old(metadata), density)
    {
      assert EnergyInputs <= ParamNames;
      EnergyBranch(density, "pump_power", "pump_spot", "pump_energy", RepRate / 2.0, "pump_power");
      EnergyBranch(density, "probe_power", "probe_spot", "probe_energy", RepRate / 2.0, "pump_energy");
      EnergyBranch(density, "destruction_power", "destruction_spot", "destruction_energy", RepRate, "destruction_energy");
    }

    /** One branch of `calcEnergyDensities`, as `EnergyStep` names its attributes. */
    method EnergyBranch(density: (Value, Value, real) -> real,
                        power: string, spot: string, energy: string, rate: real, zeroed: string)
      requires power in metadata && spot in metadata && energy in metadata && zeroed in metadata
      modifies this`metadata
      ensures metadata == EnergyStep(old(metadata), density, power, spot, energy, rate, zeroed)
    {
      if DiffersFromZero(metadata[power]) {
        metadata := metadata[energy := Num(density(metadata[spot], metadata[power], rate))];
      } else {
        metadata := metadata[zeroed := Num(0.0)];
      }
    }

    /**
     * The dispatch loop of `initMetadata_filename`: each known key of `info` sets its
     * parameter; `noinfo` stays true when no key is known.
     */
    method ApplyFilenameInfo(info: Info) returns (noinfo: bool)
      modifies this`metadata
      ensures metadata == FromFilename(old(metadata), info)
      ensures noinfo <==> forall i :: 0 <= i < |info| ==> FilenameField(info[i].0).None?
    {
      ghost var md0 := metadata;
      noinfo := true;
      for n := 0 to |info|
        invariant metadata == FromFilename(md0, info[..n])
        invariant noinfo <==> forall i :: 0 <= i < n ==> FilenameField(info[i].0).None?
      {
        var (key, v) := info[n];
        assert info[..n + 1][..n] == info[..n];
        match FilenameField(key) {
          case Some(field) =>
            metadata := metadata[field := v];
            noinfo := false;
          case None =>
        }
      }
      assert info[..|info|] == info;
    }

    /**
     * `initMetadata_filename`, given the dictionary `name_to_info` makes of the file path.
     * Without any known key the closing message reads the missing attribute
     * `original_filename` and raises AttributeError before the densities are recalculated.
     */
    method InitMetadataFilename(info: Info, density: (Value, Value, real) -> real)
      returns (status: Status)
      requires Valid()
      modifies this`metadata
      ensures Valid()
      ensures (forall i :: 0 <= i < |info| ==> FilenameField(info[i].0).None?) ==>
        metadata == old(metadata) && status == Raised(AttributeError)
      ensures (exists i :: 0 <= i < |info| && FilenameField(info[i].0).Some?) ==>
        metadata == EnergyUpdate(FromFilename(old(metadata), info), density) && status == Completed
    {
      ghost var md0 := metadata;
      var noinfo := ApplyFilenameInfo(info);
      if noinfo {
        NoKnownKeyChangesNothing(md0, info);
        return Raised(AttributeError);
      }
      CalcEnergyDensities(density);
      status := Completed;
    }

    /**
     * `fetchMetadata`: the attributes other than the four arrays whose value is a non-zero
     * number, a numeric string of non-zero value, or a non-empty string, list or dictionary.
     * `parse` is Python's `float` on strings.
     */
    method FetchMetadata(parse: string -> Option<real>) returns (md: map<string, Value>)
      ensures md == NonDefault(Attributes(), parse)
    {
      md := CollectNonDefault(Attributes(), parse);
    }

    /**
     * The header loop of `importCSV`: a line naming one of `names` sets that attribute to
     * the raw text of its second field; a named line without one raises IndexError.
     */
    method AssignHeader(names: set<string>, lines: seq<string>) returns (status: Status)
      modifies this`metadata, this`logAttrs
      ensures var scan := HeaderScan(names, lines);
        && status == scan.1
        && metadata == AssignText(old(metadata), scan.0)
        && logAttrs == AssignText(old(logAttrs), scan.0)
    {
      ghost var md0, log0 := metadata, logAttrs;
      for i := 0 to |lines|
        invariant HeaderScan(names, lines[..i]).1 == Completed
        invariant metadata == AssignText(md0, HeaderScan(names, lines[..i]).0)
        invariant logAttrs == AssignText(log0, HeaderScan(names, lines[..i]).0)
      {
        ghost var before := HeaderScan(names, lines[..i]).0;
        HeaderStep(names, lines, i);
        var name := HeaderName(lines[i]);
        if name in names {
          match HeaderValue(lines[i])
          case None =>
            assert lines == lines[..i + 1] + lines[i + 1..];
            StopsAtError(names, lines[..i + 1], lines[i + 1..]);
            return Raised(IndexError);
          case Some(value) =>
            AssignStep(md0, before, name, value);
            AssignStep(log0, before, name, value);
            if name in metadata {
              metadata := metadata[name := Str(value)];
            }
            if name in logAttrs {
              logAttrs := logAttrs[name := Str(value)];
            }
        }
      }
      assert lines[..|lines|] == lines;
      status := Completed;
    }

    /**
     * The header part of `importCSV`, over the attributes the scan has when it starts.
     * Lines may not name the data arrays or the log dictionary, which hold no text here.
     */
    method ImportHeader(lines: seq<string>) returns (status: Status)
      requires Valid()
      requires forall i :: 0 <= i < |lines| ==> HeaderName(lines[i]) !in ArrayNames + {LogDictName}
      modifies this`metadata, this`logAttrs
      ensures Valid()
      ensures var scan := HeaderScan(old(Attributes()).Keys, lines);
        && status == scan.1
        && metadata == AssignText(old(metadata), scan.0)
        && logAttrs == AssignText(old(logAttrs), scan.0)
    {
      var names := Attributes().Keys;
      status := AssignHeader(names, lines);
    }

    /** The data loop of `importCSV`: each row appends one sample to each of the four arrays. */
    method AppendRows(rows: seq<Row>)
      requires Valid()
      modifies this`rawTime, this`rawTrace, this`time, this`trace
      ensures Valid()
      ensures rawTime == old(rawTime) + RawTimes(rows) && rawTrace == old(rawTrace) + RawTraces(rows)
      ensures time == old(time) + Times(rows) && trace == old(trace) + Traces(rows)
    {
      for i := 0 to |rows|
        invariant rawTime == old(rawTime) + RawTimes(rows)[..i] && rawTrace == old(rawTrace) + RawTraces(rows)[..i]
        invariant time == old(time) + Times(rows)[..i] && trace == old(trace) + Traces(rows)[..i]
      {
        assert RawTimes(rows)[..i + 1] == RawTimes(rows)[..i] + [rows[i].rawTime];
        assert RawTraces(rows)[..i + 1] == RawTraces(rows)[..i] + [rows[i].rawTrace];
        assert Times(rows)[..i + 1] == Times(rows)[..i] + [rows[i].time];
        assert Traces(rows)[..i + 1] == Traces(rows)[..i] + [rows[i].trace];
        rawTime := rawTime + [rows[i].rawTime];
        rawTrace := rawTrace + [rows[i].rawTrace];
        time := time + [rows[i].time];
        trace := trace + [rows[i].trace];
      }
      assert RawTimes(rows)[..|rows|] == RawTimes(rows);
      assert RawTraces(rows)[..|rows|] == RawTraces(rows);
      assert Times(rows)[..|rows|] == Times(rows);
      assert Traces(rows)[..|rows|] == Traces(rows);
    }

    /**
     * `importMatFile`, given what `loadmat` read: the path is recorded, then the raw
     * arrays and R0 are taken from `Daten` and `DC`; a missing key ends the import.
     */
    method ImportMatFile(filepath: string, mat: MatContents)
      requires Valid()
      requires mat.daten.Some? ==> |mat.daten.value.0| == |mat.daten.value.1|
      modifies this`metadata, this`rawTime, this`rawTrace
      ensures Valid()
      ensures metadata == MatMetadata(old(metadata), filepath, mat)
      ensures mat.daten.Some? ==> rawTime == mat.daten.value.1 && rawTrace == mat.daten.value.0
      ensures mat.daten.None? ==> rawTime == old(rawTime) && rawTrace == old(rawTrace)
    {
      metadata := MatMetadata(metadata, filepath, mat);
      if mat.daten.Some? {
        rawTime := mat.daten.value.1;
        rawTrace := mat.daten.value.0;
      }
    }

    /**
     * The importer `importFile` picks by the extension of the path: `.mat` unless the file
     * is `t-cal.mat`, `.txt`, or none. Of the importers only the text one raises here: a
     * `MatContents` holds whole rows, so the short matrices that make `importMatFile` raise
     * are not represented.
     */
    method ImportRouted(route: ImportKind, filepath: string, mat: MatContents, header: seq<string>,
                        rows: seq<Row>)
      returns (status: Status)
      requires Valid()
      requires mat.daten.Some? ==> |mat.daten.value.0| == |mat.daten.value.1|
      requires forall i :: 0 <= i < |header| ==> HeaderName(header[i]) !in ArrayNames + {LogDictName}
      modifies this`metadata, this`rawTime, this`rawTrace, this`time, this`trace, this`logAttrs
      ensures Valid()
      ensures route == MatFile ==>
        (&& metadata == MatMetadata(old(metadata), filepath, mat)
         && (mat.daten.Some? ==> rawTime == mat.daten.value.1 && rawTrace == mat.daten.value.0)
         && (mat.daten.None? ==> rawTime == old(rawTime) && rawTrace == old(rawTrace)))
      ensures route == TextFile ==>
        (&& metadata == AssignText(old(metadata), HeaderScan(old(Attributes()).Keys, header).0)
         && (CsvStatus(old(Attributes()).Keys, header, rows) == Completed ==>
               rawTime == old(rawTime) + RawTimes(rows) && rawTrace == old(rawTrace) + RawTraces(rows))
         && (CsvStatus(old(Attributes()).Keys, header, rows).Raised? ==>
               rawTime == old(rawTime) && rawTrace == old(rawTrace)))
      ensures route == CalibrationSkipped || route == InvalidFormat ==>
        (metadata == old(metadata) && rawTime == old(rawTime) && rawTrace == old(rawTrace))
      ensures Snapshot() == ImportedStage(route, old(Snapshot()), header, rows, old(Attributes()).Keys)
      ensures status == (if route == TextFile then CsvStatus(old(Attributes()).Keys, header, rows) else Completed)
    {
      status := Completed;
      match route {
        case MatFile => ImportMatFile(filepath, mat);
        case CalibrationSkipped =>
        case TextFile => status := ImportCSV(header, rows);
        case InvalidFormat =>
      }
    }

    /** `importCSV`: the header lines, then, unless they raised, the data rows. */
    method ImportCSV(header: seq<string>, rows: seq<Row>) returns (status: Status)
      requires Valid()
      requires forall i :: 0 <= i < |header| ==> HeaderName(header[i]) !in ArrayNames + {LogDictName}
      modifies this`metadata, this`rawTime, this`rawTrace, this`time, this`trace, this`logAttrs
      ensures Valid()
      ensures status == CsvStatus(old(Attributes()).Keys, header, rows)
      ensures metadata == AssignText(old(metadata), HeaderScan(old(Attributes()).Keys, header).0)
      ensures status == Completed ==>
        rawTime == old(rawTime) + RawTimes(rows) && rawTrace == old(rawTrace) + RawTraces(rows)
      ensures status.Raised? ==> rawTime == old(rawTime) && rawTrace == old(rawTrace)
      ensures Snapshot() == ImportedStage(TextFile, old(Snapshot()), header, rows, old(Attributes()).Keys)
    {
      ghost var names := Attributes().Keys;
      status := ImportHeader(header);
      if status.Raised? {
        return;
      }
      assert HeaderScan(names, header).1 == Completed;
      status := LoadedStatus(rows);
      if status.Raised? {
        return;
      }
      AppendRows(rows);
    }

    /**
     * `importFile`: the extension picks the importer, then `cleanData` runs with its
     * defaults whatever the branch, unless the import raised.
     */
    method ImportFile(filepath: string, doClean: bool, mat: MatContents, header: seq<string>, rows: seq<Row>,
                      lowPass: LowPass, nyquist: Nyquist)
      returns (route: ImportKind, status: Status)
      requires Valid() && KeepsLength(lowPass)
      requires mat.daten.Some? ==> |mat.daten.value.0| == |mat.daten.value.1|
      requires forall i :: 0 <= i < |header| ==> HeaderName(header[i]) !in ArrayNames + {LogDictName}
      modifies this
      ensures Valid()
      ensures route == Route(filepath)
      ensures route == MatFile ==>
        (&& metadata == MatMetadata(old(metadata), filepath, mat)
         && (mat.daten.Some? ==> rawTime == mat.daten.value.1 && rawTrace == mat.daten.value.0)
         && (mat.daten.None? ==> rawTime == old(rawTime) && rawTrace == old(rawTrace)))
      ensures route == TextFile ==>
        (&& metadata == AssignText(old(metadata), HeaderScan(old(Attributes()).Keys, header).0)
         && (CsvStatus(old(Attributes()).Keys, header, rows) == Completed ==>
               rawTime == old(rawTime) + RawTimes(rows) && rawTrace == old(rawTrace) + RawTraces(rows))
         && (CsvStatus(old(Attributes()).Keys, header, rows).Raised? ==>
               rawTime == old(rawTime) && rawTrace == old(rawTrace)))
      ensures route == CalibrationSkipped || route == InvalidFormat ==>
        (metadata == old(metadata) && rawTime == old(rawTime) && rawTrace == old(rawTrace))
      ensures var imported := ImportedStage(route, old(Snapshot()), header, rows, old(Attributes()).Keys);
        if route == TextFile && CsvStatus(old(Attributes()).Keys, header, rows).Raised? then
          Snapshot() == imported && status == CsvStatus(old(Attributes()).Keys, header, rows)
        else if doClean then
          (Snapshot(), status) == Clean(rawTime, rawTrace, imported, DefaultClean, lowPass, nyquist)
        else
          Snapshot() == imported && status == Completed
    {
      route := Route(filepath);
      status := ImportRouted(route, filepath, mat, header, rows);
      if status.Raised? {
        return;
      }
      if doClean {
        status := CleanData(DefaultClean, lowPass, nyquist);
      }
    }
  }

  /** The outcome of `importCSV`: the exception of the header loop, otherwise that of the data. */
  function CsvStatus(names: set<string>, header: seq<string>, rows: seq<Row>): (s: Status)
    ensures s == Completed <==> HeaderScan(names, header).1 == Completed && |rows| >= 2
  {
    var scanned := HeaderScan(names, header).1;
    if scanned.Raised? then scanned else LoadedStatus(rows)
  }

  /**
   * The cleaning state right after an import: the text importer assigns header values to
   * log attributes and, when neither the header loop nor the data read raises, appends the
   * rows.
   */
  function ImportedStage(route: ImportKind, before: Stage, header: seq<string>, rows: seq<Row>,
                         names: set<string>): (r: Stage)
    ensures Aligned(before) ==> Aligned(r)
  {
    if route != TextFile then before
    else
      var scan := HeaderScan(names, header);
      var logAttrs := AssignText(before.logAttrs, scan.0);
      if CsvStatus(names, header, rows) == Completed then
        Stage(before.time + Times(rows), before.trace + Traces(rows), before.analysisLog, logAttrs)
      else
        Stage(before.time, before.trace, before.analysisLog, logAttrs)
  }

  /**
   * A text file with fewer than two data rows raises after its header, IndexError for
   * none and TypeError for one, and its samples reach no array.
   */
  lemma ShortDataAppendsNothing(before: Stage, header: seq<string>, rows: seq<Row>, names: set<string>)
    requires |rows| < 2 && HeaderScan(names, header).1 == Completed
    ensures CsvStatus(names, header, rows) == Raised(if rows == [] then IndexError else TypeError)
    ensures var r := ImportedStage(TextFile, before, header, rows, names);
      r.time == before.time && r.trace == before.trace
      && r.logAttrs == AssignText(before.logAttrs, HeaderScan(names, header).0)
  {
  }
}
