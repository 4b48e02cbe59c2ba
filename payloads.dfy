/**
 * The already-fetched RPC replies, as the nested dictionaries, lists and strings
 * that a device's XML reply becomes, and the handful of Python operations the
 * extraction code applies to them.
 */
module Payloads {
  import opened Results
  import Text

  datatype Value =
    | Null                             // Python None
    | Str(s: string)
    | Obj(fields: map<string, Value>)  // a dict with string keys
    | Arr(items: seq<Value>)           // a list

  /** `v[key]`: a KeyError on a dict without the key, a TypeError on anything that is not a dict. */
  function Index(v: Value, key: string): Result<Value> {
    if !v.Obj? then Err(TypeErr)
    else if key in v.fields then Ok(v.fields[key])
    else Err(KeyErr(key))
  }

  /** `v[k1][k2]...`: the keys looked up one after another, the first failing lookup raising. */
  function Path(v: Value, keys: seq<string>): Result<Value>
    decreases |keys|
  {
    if keys == [] then Ok(v)
    else
      var w :- Index(v, keys[0]);
      Path(w, keys[1..])
  }

  /** `v.get(key)`: None for a missing key, an AttributeError on anything that is not a dict. */
  function Get(v: Value, key: string): Result<Value> {
    if !v.Obj? then Err(TypeErr)
    else if key in v.fields then Ok(v.fields[key])
    else Ok(Null)
  }

  /** `v[0]`: the first element of a list or the first character of a string. */
  function First(v: Value): Result<Value> {
    match v
    case Arr(items) => if items == [] then Err(IndexErr) else Ok(items[0])
    case Str(s) => if s == "" then Err(IndexErr) else Ok(Str(s[..1]))
    case Obj(_) => Err(KeyErr("0"))   // a dict indexed by the integer 0
    case Null => Err(TypeErr)
  }

  /** `int(v)`: a TypeError unless v is a string, a ValueError unless it is a decimal numeral. */
  function ToNat(v: Value): (r: Result<nat>)
    ensures r.Ok? ==> v.Str? && Text.ParseNat(v.s) == Some(r.value)
    ensures Numeral(v) ==> r == Ok(Text.ParseNat(v.s).value)
    ensures !v.Str? ==> r == Err(TypeErr)
    ensures v.Str? && !Numeral(v) ==> r == Err(ValueErr(v.s))
  {
    match v
    case Str(s) =>
      (match Text.ParseNat(s)
       case Some(n) => Ok(n)
       case None => Err(ValueErr(s)))
    case _ => Err(TypeErr)
  }

  /** A string `int()` reads: a decimal numeral. */
  predicate Numeral(v: Value) {
    v.Str? && Text.ParseNat(v.s).Some?
  }

  /** Python truthiness: None and empty strings, dicts and lists are false. */
  predicate Truthy(v: Value) {
    match v
    case Null => false
    case Str(s) => s != ""
    case Obj(m) => m != map[]
    case Arr(items) => items != []
  }

  /** Whether `v` may be a dict key: dicts and lists are unhashable. */
  predicate Hashable(v: Value) {
    v.Null? || v.Str?
  }

  /**
   * The records a `for` loop visits when every visited element is then indexed by a
   * string key. Iterating an empty dict or string visits nothing; a non-empty dict
   * yields its keys and a non-empty string its characters, both strings, so the
   * first `element[key]` raises a TypeError; None is not iterable.
   */
  function IterRecords(v: Value): Result<seq<Value>> {
    match v
    case Arr(items) => Ok(items)
    case Obj(m) => if m == map[] then Ok([]) else Err(TypeErr)
    case Str(s) => if s == "" then Ok([]) else Err(TypeErr)
    case Null => Err(TypeErr)
  }

  /** The `isinstance(x, list)` test: one record, or a list of records. */
  datatype Payload = Single(record: Value) | Many(records: seq<Value>)

  function Shape(v: Value): Payload {
    if v.Arr? then Many(v.items) else Single(v)
  }

  /** The records a payload stands for: a single record counts as a one-element list. */
  function Records(p: Payload): seq<Value> {
    match p
    case Single(r) => [r]
    case Many(rs) => rs
  }
}
