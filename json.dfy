/**
 * The untrusted reply of the language model, as `json.loads` hands it to the
 * reconciliation code, and the Python operations that code applies to it:
 * `dict.get` with a default, iteration in a `for` loop, truthiness, `float(...)`
 * and `str(...)`. Every one of them may raise; a raise is an `Err`.
 */
module PyJson {
  import opened Wrappers

  /** A JSON value (RFC 8259) as Python sees it after `json.loads`. */
  datatype Json =
    | JNull
    | JBool(b: bool)
    | JNum(n: real)
    | JStr(s: string)
    | JArr(elems: seq<Json>)
    | JObj(fields: map<string, Json>)

  /** The exception a read of the reply raises. */
  datatype Fault =
    | NotAnObject   // AttributeError: `.get` on something that is not a dict
    | NotIterable   // TypeError: a `for` loop over None, a number or a bool
    | NotANumber    // TypeError or ValueError from `float(...)`
    | NotAString    // pydantic's ValidationError on a `str` field

  type Outcome<T> = Result<T, Fault>

  /**
   * Library behaviour the model does not re-derive: `json.loads` (None where it
   * raises), `float` applied to a string (None where it raises) and `str` applied
   * to a number, a list or a dict.
   */
  datatype Runtime = Runtime(
    loads: string -> Option<Json>,
    parseFloat: string -> Option<real>,
    strOf: Json -> string)

  /**
   * Python truthiness of a decoded value (`if not data`): the falsy values are
   * exactly None, False, zero and the empty string, list and dict.
   */
  predicate Truthy(j: Json): (t: bool)
    ensures !t <==> j in {JNull, JBool(false), JNum(0.0), JStr([]), JArr([]), JObj(map[])}
  {
    match j
    case JNull => false
    case JBool(b) => b
    case JNum(n) => n != 0.0
    case JStr(s) => s != []
    case JArr(elems) => elems != []
    case JObj(fields) => fields != map[]
  }

  /** `d.get(key, default)` on a dict. */
  function Lookup(fields: map<string, Json>, key: string, default: Json): Json {
    if key in fields then fields[key] else default
  }

  /**
   * The elements a `for` loop visits. A list yields its elements; None, numbers
   * and bools raise. A string or dict yields strings, and the `.get` the loop
   * body applies to the first of them raises, so only an empty one gets through.
   */
  function Iterate(j: Json): (r: Outcome<seq<Json>>)
    ensures r.Ok? <==> j.JArr? || j == JStr([]) || j == JObj(map[])
    ensures j.JArr? ==> r == Ok(j.elems)
    ensures r.Ok? && !j.JArr? ==> r.value == []
  {
    match j
    case JArr(elems) => Ok(elems)
    case JStr(s) => if s == [] then Ok([]) else Err(NotAnObject)
    case JObj(fields) => if fields == map[] then Ok([]) else Err(NotAnObject)
    case _ => Err(NotIterable)
  }

  /**
   * `float(x)`. Numbers pass through, a bool is the integer 0 or 1, a string is
   * parsed by the runtime; None, lists and dicts raise.
   */
  function ToFloat(j: Json, rt: Runtime): (r: Outcome<real>)
    ensures r.Ok? <==> j.JNum? || j.JBool? || (j.JStr? && rt.parseFloat(j.s).Some?)
    ensures j.JNum? ==> r == Ok(j.n)
    ensures j.JBool? ==> r == Ok(if j.b then 1.0 else 0.0)
    ensures j.JStr? && r.Ok? ==> r.value == rt.parseFloat(j.s).value
  {
    match j
    case JNum(n) => Ok(n)
    case JBool(b) => Ok(if b then 1.0 else 0.0)
    case JStr(s) => if rt.parseFloat(s).Some? then Ok(rt.parseFloat(s).value) else Err(NotANumber)
    case _ => Err(NotANumber)
  }

  /**
   * A number-or-default field: `float(d.get(key, default))`. An absent key gives
   * the default; a key present with null makes `float(None)` raise.
   */
  function NumberOrDefault(fields: map<string, Json>, key: string, default: real, rt: Runtime): (r: Outcome<real>)
    ensures key !in fields ==> r == Ok(default)
    ensures key in fields && fields[key].JNull? ==> r.Err?
    ensures key in fields && fields[key].JNum? ==> r == Ok(fields[key].n)
    ensures key in fields ==> r == ToFloat(fields[key], rt)
  {
    if key in fields then ToFloat(fields[key], rt) else Ok(default)
  }

  /**
   * A number-or-None field: `float(d[key]) if d.get(key) is not None else None`.
   * Absent and null both give None; anything else is coerced, 0 included.
   */
  function NumberOrNone(fields: map<string, Json>, key: string, rt: Runtime): (r: Outcome<Option<real>>)
    ensures r == Ok(None) <==> key !in fields || fields[key].JNull?
    ensures r.Err? <==> key in fields && !fields[key].JNull? && ToFloat(fields[key], rt).Err?
    ensures r.Ok? && r.value.Some? ==> key in fields && ToFloat(fields[key], rt) == Ok(r.value.value)
  {
    if key in fields && !fields[key].JNull? then
      var x :- ToFloat(fields[key], rt);
      Ok(Some(x))
    else
      Ok(None)
  }

  /** `str(x)`: a string is itself, None and bools print as Python literals. */
  function PyStr(j: Json, rt: Runtime): (r: string)
    ensures j.JStr? ==> r == j.s
    ensures j.JNull? ==> r == "None"
    ensures j.JBool? ==> r == (if j.b then "True" else "False")
  {
    match j
    case JStr(s) => s
    case JNull => "None"
    case JBool(b) => if b then "True" else "False"
    case _ => rt.strOf(j)
  }
}
