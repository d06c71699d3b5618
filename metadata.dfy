/**
 * The experiment parameters of a scan: their defaults, their units, which of them count
 * as known, how the file-name information fills them and how the excitation densities
 * follow from powers and spot sizes.
 */
module Metadata {
  import opened Values
  import opened Text

  /** The parameter attributes every scan has from construction on. */
  const ParamNames: set<string> := {
    "material", "sample", "date", "original_filepath",
    "pump_power", "probe_power", "destruction_power",
    "pump_spot", "probe_spot", "destruction_spot",
    "pump_energy", "probe_energy", "destruction_energy",
    "pump_polarization", "probe_polarization", "destruction_polarization",
    "sample_orientation", "temperature", "R0", "save_name"
  }

  /** The one parameter the file-name information can add. */
  const OtherName: string := "other"

  /** The four data arrays, which `fetchMetadata` skips. */
  const ArrayNames: set<string> := {"time", "trace", "raw_time", "raw_trace"}

  /** The dictionary attribute that only the crop ever resets. */
  const LogDictName: string := "analysis_log"

  /** The values a fresh scan starts with: empty strings for text, 0 for numbers. */
  const DefaultMetadata: map<string, Value> := map[
    "material" := Str(""), "sample" := Str(""), "date" := Str(""),
    "original_filepath" := Str(""),
    "pump_power" := Num(0.0), "probe_power" := Num(0.0), "destruction_power" := Num(0.0),
    "pump_spot" := Num(0.0), "probe_spot" := Num(0.0), "destruction_spot" := Num(0.0),
    "pump_energy" := Num(0.0), "probe_energy" := Num(0.0), "destruction_energy" := Num(0.0),
    "pump_polarization" := Num(0.0), "probe_polarization" := Num(0.0),
    "destruction_polarization" := Num(0.0), "sample_orientation" := Num(0.0),
    "temperature" := Num(0.0), "R0" := Num(0.0), "save_name" := Str("")
  ]

  lemma DefaultsCoverParameters()
    ensures DefaultMetadata.Keys == ParamNames
    ensures forall k :: k in DefaultMetadata ==> IsScalar(DefaultMetadata[k]) && !Truthy(DefaultMetadata[k])
  {
  }

  /* ---------------------------------------------------------------- units */

  /** The last words of a name that `getUnit` knows a unit for. */
  const UnitSuffixes: set<string> := {"power", "polarization", "orientation", "R0", "trace", "time", "energy"}

  /** The unit table of `getUnit`, by the last '_'-separated word of a name. */
  function UnitOfSuffix(suffix: string): (u: Option<string>)
    ensures u.Some? <==> suffix in UnitSuffixes
  {
    if suffix == "power" then Some("mW")
    else if suffix == "polarization" || suffix == "orientation" then Some("deg")
    else if suffix == "R0" then Some("V")
    else if suffix == "trace" then Some("")
    else if suffix == "time" then Some("ps")
    else if suffix == "energy" then Some("mJ/cm^2")
    else None
  }

  /** `getUnit`: the unit named by the text after the last '_', or None. */
  function Unit(parameter: string): (u: Option<string>)
    ensures u.Some? <==> LastPiece(parameter, '_') in UnitSuffixes
  {
    UnitOfSuffix(LastPiece(parameter, '_'))
  }

  /** Only the part after the last '_' decides the unit. */
  lemma UnitBySuffix(prefix: string, suffix: string)
    requires '_' !in suffix
    ensures Unit(prefix + "_" + suffix) == Unit(suffix) == UnitOfSuffix(suffix)
  {
    assert prefix + "_" + suffix == prefix + ['_'] + suffix;
    LastPieceAfterSeparator(prefix, '_', suffix);
    LastPieceWhole(suffix, '_');
  }

  /**
   * The table read off for any name ending in a word: powers in mW, excitation densities in
   * mJ/cm^2, polarizations and orientations in degrees, R0 in volts, time axes in ps,
   * traces without a unit, and any other word (a spot size, say) with none at all. The word
   * alone has the same unit as the word after a prefix.
   */
  lemma UnitTable(prefix: string, word: string)
    requires '_' !in word
    ensures Unit(word) == Unit(prefix + "_" + word)
    ensures var u := Unit(prefix + "_" + word);
      && (word == "power" ==> u == Some("mW"))
      && (word == "energy" ==> u == Some("mJ/cm^2"))
      && (word == "polarization" || word == "orientation" ==> u == Some("deg"))
      && (word == "R0" ==> u == Some("V"))
      && (word == "time" ==> u == Some("ps"))
      && (word == "trace" ==> u == Some(""))
      && (word !in UnitSuffixes ==> u == None)
  {
    UnitBySuffix(prefix, word);
  }

  /* ------------------------------------------------------- fetchMetadata */

  /**
   * Whether `fetchMetadata` keeps a value: `float(v) != 0` when the conversion works;
   * otherwise (ValueError for a string that is not a number, TypeError for a list or a
   * dictionary) when the value is not empty. `parse` is Python's `float` on strings.
   */
  predicate Kept(v: Value, parse: string -> Option<real>) {
    match v
    case Num(x) => x != 0.0
    case NaN => true
    case Bool(b) => b
    case Str(s) => if parse(s).Some? then parse(s).value != 0.0 else |s| > 0
    case List(items) => |items| > 0
    case Dict(entries) => |entries| > 0
  }

  /** `fetchMetadata`: every attribute but the four arrays whose value is kept, unchanged. */
  function NonDefault(attrs: map<string, Value>, parse: string -> Option<real>): (md: map<string, Value>)
    ensures forall k :: k in md <==> k in attrs && k !in ArrayNames && Kept(attrs[k], parse)
    ensures forall k :: k in md ==> md[k] == attrs[k]
  {
    map k | k in attrs && k !in ArrayNames && Kept(attrs[k], parse) :: attrs[k]
  }

  /** A fresh scan has nothing to report, however its arrays and its log dictionary look. */
  lemma DefaultsNotFetched(attrs: map<string, Value>, parse: string -> Option<real>)
    requires parse("") == None
    requires forall k :: k in attrs && k !in ArrayNames ==>
      (k in DefaultMetadata && attrs[k] == DefaultMetadata[k]) || (k == LogDictName && attrs[k] == Dict(map[]))
    ensures NonDefault(attrs, parse) == map[]
  {
    forall k | k in attrs && k !in ArrayNames
      ensures !Kept(attrs[k], parse)
    {
      if k in DefaultMetadata && attrs[k] == DefaultMetadata[k] {
        DefaultsCoverParameters();
      }
    }
  }

  /** A number is kept exactly when it is not zero, and a numeric string when its value is not zero. */
  lemma FetchKeepsNonZero(attrs: map<string, Value>, parse: string -> Option<real>, k: string)
    requires k in attrs && k !in ArrayNames
    ensures attrs[k].Num? ==> (k in NonDefault(attrs, parse) <==> attrs[k].x != 0.0)
    ensures attrs[k].Str? && parse(attrs[k].s).Some? ==>
      (k in NonDefault(attrs, parse) <==> parse(attrs[k].s).value != 0.0)
    ensures attrs[k].Str? && parse(attrs[k].s).None? ==>
      (k in NonDefault(attrs, parse) <==> |attrs[k].s| > 0)
  {
  }

  /** A log entry is never empty, so every attribute `log_it` made is reported. */
  lemma LogEntriesFetched(attrs: map<string, Value>, parse: string -> Option<real>, k: string)
    requires k in attrs && k !in ArrayNames
    requires attrs[k] == Str("Boolean") || (attrs[k].List? && |attrs[k].items| > 0)
      || (attrs[k].Dict? && |attrs[k].entries| > 0)
    requires parse("Boolean") == None
    ensures k in NonDefault(attrs, parse) && NonDefault(attrs, parse)[k] == attrs[k]
  {
  }

  /* ------------------------------------------------- initMetadata_filename */

  /** The parameter each file-name key fills, or None for a key the dispatch does not know. */
  function FilenameField(key: string): (f: Option<string>)
    ensures f.Some? ==> f.value in ParamNames + {OtherName}
  {
    if key == "Scan Date" then Some("date")
    else if key == "Pump Power" then Some("pump_power")
    else if key == "Probe Power" then Some("probe_power")
    else if key == "Temperature" then Some("temperature")
    else if key == "Destruction Power" then Some("destruction_power")
    else if key == "Material" then Some("material")
    else if key == "Pump Spot" then Some("pump_spot")
    else if key == "Probe Spot" then Some("probe_spot")
    else if key == "Other" then Some(OtherName)
    else None
  }

  /** No two keys of the dispatch fill the same parameter. */
  lemma FilenameFieldInjective(k1: string, k2: string)
    requires FilenameField(k1).Some? && FilenameField(k1) == FilenameField(k2)
    ensures k1 == k2
  {
  }

  /**
   * The map `name_to_info` makes of a file path, as the key/value pairs of the dictionary
   * in its iteration order.
   */
  type Info = seq<(string, Value)>

  /** A dictionary holds each key once. */
  predicate DistinctKeys(info: Info) {
    forall i, j :: 0 <= i < j < |info| ==> info[i].0 != info[j].0
  }

  /** The parameters the known keys of `info` fill. */
  function Targets(info: Info): set<string>
    decreases |info|
  {
    if info == [] then {}
    else
      var last := info[|info| - 1];
      Targets(info[..|info| - 1]) + (if FilenameField(last.0).Some? then {FilenameField(last.0).value} else {})
  }

  /** One pass of the dispatch loop: a known key sets its parameter, any other key changes nothing. */
  function Dispatch(md: map<string, Value>, key: string, v: Value): (r: map<string, Value>)
    ensures FilenameField(key).Some? ==> r.Keys == md.Keys + {FilenameField(key).value}
    ensures FilenameField(key).Some? ==> r[FilenameField(key).value] == v
    ensures forall f :: f in md && FilenameField(key) != Some(f) ==> f in r && r[f] == md[f]
    ensures FilenameField(key).None? ==> r == md
  {
    match FilenameField(key)
    case Some(field) => md[field := v]
    case None => md
  }

  /** The parameters after the dispatch loop has gone through `info` in order. */
  function FromFilename(md: map<string, Value>, info: Info): (r: map<string, Value>)
    ensures md.Keys <= r.Keys
    decreases |info|
  {
    if info == [] then md
    else
      var last := info[|info| - 1];
      Dispatch(FromFilename(md, info[..|info| - 1]), last.0, last.1)
  }

  /** The loop adds exactly the parameters the known keys name. */
  lemma {:induction false} FromFilenameKeys(md: map<string, Value>, info: Info)
    ensures FromFilename(md, info).Keys == md.Keys + Targets(info)
    decreases |info|
  {
    if info != [] {
      FromFilenameKeys(md, info[..|info| - 1]);
    }
  }

  /** A parameter no known key names keeps its value. */
  lemma {:induction false} FromFilenameKeeps(md: map<string, Value>, info: Info, f: string)
    requires f in md
    requires forall i :: 0 <= i < |info| ==> FilenameField(info[i].0) != Some(f)
    ensures f in FromFilename(md, info) && FromFilename(md, info)[f] == md[f]
    decreases |info|
  {
    if info != [] {
      var earlier := info[..|info| - 1];
      assert forall i :: 0 <= i < |earlier| ==> earlier[i] == info[i];
      FromFilenameKeeps(md, earlier, f);
    }
  }

  /** Each known key of a dictionary leaves its own value in the parameter it names. */
  lemma {:induction false} FromFilenameSets(md: map<string, Value>, info: Info, i: nat)
    requires DistinctKeys(info)
    requires i < |info| && FilenameField(info[i].0).Some?
    ensures var f := FilenameField(info[i].0).value;
      f in FromFilename(md, info) && FromFilename(md, info)[f] == info[i].1
    decreases |info|
  {
    var n := |info| - 1;
    var earlier := info[..n];
    if i < n {
      assert earlier[i] == info[i];
      assert DistinctKeys(earlier) by {
        assert forall a :: 0 <= a < |earlier| ==> earlier[a] == info[a];
      }
      FromFilenameSets(md, earlier, i);
      if FilenameField(info[n].0) == FilenameField(info[i].0) {
        FilenameFieldInjective(info[i].0, info[n].0);
        assert false;
      }
    }
  }

  /** Without any known key nothing is set, and line 148 then reads a missing attribute. */
  lemma {:induction false} NoKnownKeyChangesNothing(md: map<string, Value>, info: Info)
    requires forall i :: 0 <= i < |info| ==> FilenameField(info[i].0).None?
    ensures FromFilename(md, info) == md
    decreases |info|
  {
    if info != [] {
      var earlier := info[..|info| - 1];
      assert forall i :: 0 <= i < |earlier| ==> earlier[i] == info[i];
      NoKnownKeyChangesNothing(md, earlier);
    }
  }

  /* --------------------------------------------------- calcEnergyDensities */

  /** The laser repetition rate [Hz]; pump and probe see half of it. */
  const RepRate: real := 283000.0

  const EnergyInputs: set<string> := {
    "pump_power", "probe_power", "destruction_power",
    "pump_spot", "probe_spot", "destruction_spot",
    "pump_energy", "probe_energy", "destruction_energy"
  }

  /**
   * One branch of `calcEnergyDensities`: when the `power` attribute differs from 0, the
   * `energy` attribute becomes the density of `spot` and `power` at `rate`; otherwise the
   * `zeroed` attribute is set to 0. Each branch of the source names its own `zeroed`, two
   * of them by a slip: the pump branch resets the pump power and the probe branch zeroes
   * the pump energy.
   */
  function EnergyStep(md: map<string, Value>, density: (Value, Value, real) -> real,
                      power: string, spot: string, energy: string, rate: real, zeroed: string): (r: map<string, Value>)
    requires power in md && spot in md && energy in md && zeroed in md
    ensures r.Keys == md.Keys
  {
    if DiffersFromZero(md[power]) then md[energy := Num(density(md[spot], md[power], rate))]
    else md[zeroed := Num(0.0)]
  }

  /**
   * `calcEnergyDensities`, step by step as written: the pump, probe and destruction
   * branches in that order. `density` is the helper `getEnergyDensity(spot, power, rate)`.
   */
  function EnergyUpdate(md: map<string, Value>, density: (Value, Value, real) -> real): (r: map<string, Value>)
    requires EnergyInputs <= md.Keys
    ensures r.Keys == md.Keys
  {
    var pumped := EnergyStep(md, density, "pump_power", "pump_spot", "pump_energy", RepRate / 2.0, "pump_power");
    var probed := EnergyStep(pumped, density, "probe_power", "probe_spot", "probe_energy", RepRate / 2.0, "pump_energy");
    EnergyStep(probed, density, "destruction_power", "destruction_spot", "destruction_energy", RepRate, "destruction_energy")
  }

  /**
   * What each parameter ends up as. A zero probe power zeroes the pump energy even when
   * the pump is on; a zero pump power with the probe on leaves the old pump energy in
   * place; a zero probe power leaves the old probe energy in place.
   */
  lemma EnergyOutcome(md: map<string, Value>, density: (Value, Value, real) -> real)
    requires EnergyInputs <= md.Keys
    ensures var r := EnergyUpdate(md, density);
      var pumpOn := DiffersFromZero(md["pump_power"]);
      var probeOn := DiffersFromZero(md["probe_power"]);
      var destructionOn := DiffersFromZero(md["destruction_power"]);
      && r["pump_power"] == (if pumpOn then md["pump_power"] else Num(0.0))
      && r["pump_energy"] == (
           if !probeOn then Num(0.0)
           else if pumpOn then Num(density(md["pump_spot"], md["pump_power"], 141500.0))
           else md["pump_energy"])
      && r["probe_energy"] == (
           if probeOn then Num(density(md["probe_spot"], md["probe_power"], 141500.0))
           else md["probe_energy"])
      && r["destruction_energy"] == (
           if destructionOn then Num(density(md["destruction_spot"], md["destruction_power"], 283000.0))
           else Num(0.0))
      && forall k :: k in md && k !in {"pump_power", "pump_energy", "probe_energy", "destruction_energy"}
           ==> r[k] == md[k]
  {
  }

  /** Recomputing the densities a second time changes nothing more. */
  lemma EnergyIdempotent(md: map<string, Value>, density: (Value, Value, real) -> real)
    requires EnergyInputs <= md.Keys
    ensures EnergyUpdate(EnergyUpdate(md, density), density) == EnergyUpdate(md, density)
  {
    var once := EnergyUpdate(md, density);
    var twice := EnergyUpdate(once, density);
    EnergyOutcome(md, density);
    EnergyOutcome(once, density);
    assert DiffersFromZero(once["pump_power"]) == DiffersFromZero(md["pump_power"]);
    assert once["probe_power"] == md["probe_power"] && once["destruction_power"] == md["destruction_power"];
    assert once["pump_spot"] == md["pump_spot"] && once["probe_spot"] == md["probe_spot"];
    assert once["destruction_spot"] == md["destruction_spot"];
    forall k | k in once
      ensures twice[k] == once[k]
    {
      if k !in {"pump_power", "pump_energy", "probe_energy", "destruction_energy"} {
        assert twice[k] == once[k] == md[k];
      }
    }
    assert twice == once;
  }

}
