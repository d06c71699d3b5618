/**
 * The log bookkeeping of `log_it`: each entry lives in an attribute of its own named
 * `analysis_log[<key>]`, made once and never touched again.
 */
module AnalysisLog {
  import opened Values

  /** The attributes `log_it` creates, by name. */
  type LogAttrs = map<string, Value>

  const Prefix: string := "analysis_log["

  /** The attribute name an entry is stored under. */
  function AttrName(key: string): (n: string)
    ensures IsLogAttrName(n)
    ensures n[|Prefix|..|n| - 1] == key
  {
    Prefix + key + "]"
  }

  predicate IsLogAttrName(n: string) {
    |n| > |Prefix| && n[..|Prefix|] == Prefix && n[|n| - 1] == ']'
  }

  /** Different keys never share an attribute. */
  lemma AttrNamesDiffer(k1: string, k2: string)
    requires k1 != k2
    ensures AttrName(k1) != AttrName(k2)
  {
    assert k1 == AttrName(k1)[|Prefix|..|AttrName(k1)| - 1];
    assert k2 == AttrName(k2)[|Prefix|..|AttrName(k2)| - 1];
  }

  /**
   * The entry built from the extra arguments: the keyword arguments when there are any,
   * otherwise the positional ones, otherwise the flag string 'Boolean'.
   */
  function EntryFor(args: seq<Value>, kwargs: map<string, Value>): (e: Value)
    ensures |kwargs| > 0 ==> e == Dict(kwargs)
    ensures |kwargs| == 0 && |args| > 0 ==> e == List(args)
    ensures |kwargs| == 0 && |args| == 0 ==> e == Str("Boolean")
  {
    if |kwargs| > 0 then Dict(kwargs)
    else if |args| > 0 then List(args)
    else Str("Boolean")
  }

  /**
   * `log_it(key, overwrite, *args, **kwargs)`: stores the entry when no attribute of that
   * name exists yet. When one does, the flag comparison against 'boolean' never matches
   * 'Boolean' and the `entry is list` / `entry is dict` tests compare with the type
   * objects, so nothing happens and `overwrite` plays no part.
   */
  function Record(attrs: LogAttrs, key: string, overwrite: Value, args: seq<Value>,
                  kwargs: map<string, Value>): (r: LogAttrs)
    ensures AttrName(key) in r
    ensures AttrName(key) in attrs ==> r == attrs
    ensures AttrName(key) !in attrs ==> r[AttrName(key)] == EntryFor(args, kwargs)
    ensures r.Keys == attrs.Keys + {AttrName(key)}
    ensures forall n :: n in attrs ==> r[n] == attrs[n]
  {
    var name := AttrName(key);
    if name in attrs then attrs else attrs[name := EntryFor(args, kwargs)]
  }

  /** The flag entry is spelled 'Boolean', so the toggling branch that looks for 'boolean' is dead. */
  lemma FlagNeverToggles(args: seq<Value>, kwargs: map<string, Value>)
    ensures EntryFor(args, kwargs) != Str("boolean")
  {
  }

  /** Only the first call with a key counts: a later one leaves every attribute as it was. */
  lemma {:induction false} FirstEntryWins(attrs: LogAttrs, key: string, calls: seq<(Value, seq<Value>, map<string, Value>)>)
    requires AttrName(key) in attrs
    ensures RecordAll(attrs, key, calls) == attrs
  {
    if calls != [] {
      FirstEntryWins(attrs, key, calls[1..]);
    }
  }

  /** The log after a series of calls with the same key. */
  function RecordAll(attrs: LogAttrs, key: string, calls: seq<(Value, seq<Value>, map<string, Value>)>): LogAttrs
    decreases |calls|
  {
    if calls == [] then attrs
    else
      var (overwrite, args, kwargs) := calls[0];
      RecordAll(Record(attrs, key, overwrite, args, kwargs), key, calls[1..])
  }

  /** After any series of calls with a key, its attribute holds what the first call stored. */
  lemma RepeatedKeyKeepsFirst(attrs: LogAttrs, key: string, calls: seq<(Value, seq<Value>, map<string, Value>)>)
    requires AttrName(key) !in attrs && |calls| > 0
    ensures RecordAll(attrs, key, calls) == attrs[AttrName(key) := EntryFor(calls[0].1, calls[0].2)]
  {
    var first := Record(attrs, key, calls[0].0, calls[0].1, calls[0].2);
    FirstEntryWins(first, key, calls[1..]);
  }

  /** The `overwrite` argument never changes what is stored. */
  lemma OverwriteInert(attrs: LogAttrs, key: string, o1: Value, o2: Value, args: seq<Value>,
                       kwargs: map<string, Value>)
    ensures Record(attrs, key, o1, args, kwargs) == Record(attrs, key, o2, args, kwargs)
  {
  }
}
