/** Plain `Option` and `Result` types shared by the modules of this model. */
module Wrappers {

  datatype Option<+T> = None | Some(value: T)

  datatype Result<+R, +E> = Success(value: R) | Failure(error: E)
}

/**
 * JSON values as the Python code sees them after `json.loads`, with Python's
 * truthiness, `dict.get` / `dict[key]` and `str()` on scalars.
 */
module Json {
  import opened Wrappers

  datatype Json =
    | JNull
    | JBool(b: bool)
    | JInt(i: int)
    | JString(s: string)
    | JArray(items: seq<Json>)
    | JObject(fields: map<string, Json>)

  /** Python truthiness of the decoded value (`if value:`). */
  predicate Truthy(j: Json)
  {
    match j
    case JNull => false
    case JBool(b) => b
    case JInt(i) => i != 0
    case JString(s) => s != ""
    case JArray(items) => items != []
    case JObject(fields) => fields != map[]
  }

  /** `j[key]` / `j.get(key)`: None when `j` is not an object or has no such key. */
  function Field(j: Json, key: string): (r: Option<Json>)
    ensures r.Some? <==> j.JObject? && key in j.fields
    ensures r.Some? ==> r.value == j.fields[key]
  {
    if j.JObject? && key in j.fields then Some(j.fields[key]) else None
  }

  /** The value of `j[key]`, or the class of the exception it raises. */
  datatype Indexed = Got(value: Json) | Raised(exception: string)

  /**
   * `j[key]` with a string key: a dict raises `KeyError` for a missing key,
   * every other decoded value (list, str, int, bool, None) raises `TypeError`.
   */
  function Index(j: Json, key: string): (r: Indexed)
    ensures r.Got? <==> Field(j, key).Some?
    ensures r.Got? ==> r.value == j.fields[key]
    ensures r == Raised("KeyError") <==> j.JObject? && key !in j.fields
    ensures r == Raised("TypeError") <==> !j.JObject?
  {
    if !j.JObject? then Raised("TypeError")
    else if key in j.fields then Got(j.fields[key])
    else Raised("KeyError")
  }

  /** `j[outer][inner]`: the first subscript that raises decides the exception. */
  function Index2(j: Json, outer: string, inner: string): (r: Indexed)
    ensures Index(j, outer).Raised? ==> r == Index(j, outer)
    ensures Index(j, outer).Got? ==> r == Index(Index(j, outer).value, inner)
  {
    match Index(j, outer)
    case Got(v) => Index(v, inner)
    case Raised(e) => Raised(e)
  }

  /** `j.get(key)` where an absent key reads as Python's None (`JNull`). */
  function GetOrNull(j: Json, key: string): (r: Json)
    ensures Field(j, key).None? ==> r == JNull
    ensures Field(j, key).Some? ==> r == Field(j, key).value
  {
    match Field(j, key)
    case Some(v) => v
    case None => JNull
  }

  function DigitChar(d: nat): (c: char)
    requires d < 10
    ensures '0' <= c <= '9'
  {
    "0123456789"[d]
  }

  /** Decimal rendering of a natural number, as `str(n)` prints it. */
  function NatToString(n: nat): (s: string)
    ensures |s| >= 1
    ensures forall i :: 0 <= i < |s| ==> '0' <= s[i] <= '9'
    decreases n
  {
    if n < 10 then [DigitChar(n)] else NatToString(n / 10) + [DigitChar(n % 10)]
  }

  /** `str(i)` on a Python int. */
  function IntToString(i: int): (s: string)
    ensures i < 0 <==> (|s| >= 1 && s[0] == '-')
  {
    if i < 0 then "-" + NatToString(-i) else NatToString(i)
  }

  /**
   * `str(j)` for the scalar JSON values; a list or dict is rendered as a
   * fixed placeholder (their Python repr is not modelled).
   */
  function PyStr(j: Json): (s: string)
    ensures j.JString? ==> s == j.s
  {
    match j
    case JNull => "None"
    case JBool(b) => if b then "True" else "False"
    case JInt(i) => IntToString(i)
    case JString(s) => s
    case JArray(_) => "[...]"
    case JObject(_) => "{...}"
  }
}
