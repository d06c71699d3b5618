/** Values held by the attributes of a scan, and the outcome of an operation that may raise. */
module Values {

  datatype Option<+T> = None | Some(value: T)

  /** A Python value as it appears in an attribute or in a log entry. */
  datatype Value =
    | Num(x: real)                        // an int or a float
    | NaN                                 // numpy's average of an empty slice
    | Bool(b: bool)
    | Str(s: string)
    | List(items: seq<Value>)
    | Dict(entries: map<string, Value>)

  /** The exceptions the modelled code lets escape. */
  datatype Exception = ValueError | IndexError | AttributeError | TypeError

  /** Whether an operation ran to its end or left through an exception. */
  datatype Status = Completed | Raised(exc: Exception)

  datatype Result<+T> = Ok(value: T) | Err(exc: Exception)

  /** A value that a metadata attribute can hold: a number, a flag or a string. */
  predicate IsScalar(v: Value) {
    v.Num? || v.Bool? || v.Str?
  }

  /** Python's truth value `bool(v)`. */
  predicate Truthy(v: Value) {
    match v
    case Num(x) => x != 0.0
    case NaN => true
    case Bool(b) => b
    case Str(s) => |s| > 0
    case List(items) => |items| > 0
    case Dict(entries) => |entries| > 0
  }

  /** Python's `v != 0`: only a number or a flag can equal the integer 0. */
  predicate DiffersFromZero(v: Value) {
    match v
    case Num(x) => x != 0.0
    case Bool(b) => b
    case _ => true
  }

  /**
   * How the two tests relate: a number is true and differs from 0 exactly when it is not
   * 0; NaN and `True` pass both and `False` neither; a value that is false yet differs from
   * 0 is exactly an empty string, list or dictionary.
   */
  lemma ZeroTests(v: Value)
    ensures Truthy(v) ==> DiffersFromZero(v)
    ensures v.Num? ==> (Truthy(v) <==> v.x != 0.0) && (DiffersFromZero(v) <==> v.x != 0.0)
    ensures v.NaN? ==> Truthy(v) && DiffersFromZero(v)
    ensures v.Bool? ==> (Truthy(v) <==> v.b) && (DiffersFromZero(v) <==> v.b)
    ensures (DiffersFromZero(v) && !Truthy(v)) <==> (v == Str([]) || v == List([]) || v == Dict(map[]))
  {
  }

  /** A sequence of samples as the list value it is in Python. */
  function Samples(s: seq<real>): (v: Value)
    ensures v.List? && |v.items| == |s|
  {
    List(seq(|s|, i requires 0 <= i < |s| => Num(s[i])))
  }
}
