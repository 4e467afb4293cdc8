/**
 * The Python values the client handles: what `simplejson.loads` produces and
 * the raw body `request` hands back when it does not decode, the built-in
 * exceptions the client's code can raise, and the built-in operations it
 * applies to decoded values (`c[k]`, `k in c`, `c.get(k)`, `c.iteritems()`).
 */
module PyValues {
  import opened Wrappers
  import opened PyText

  /** A Python value as `simplejson.loads` produces it: `None`, `bool`, `int`,
      `float`, `str`, `list`, `dict`. A response body that is not decoded is a
      `str` as well, so it is a `JStr`. */
  datatype Json =
    | JNull
    | JBool(b: bool)
    | JInt(i: int)
    | JFloat(x: real)
    | JStr(s: PyStr)
    | JArr(items: seq<Json>)
    | JObj(fields: map<PyStr, Json>)

  /** The reasons behind a Python `TypeError` the client can run into. */
  datatype TypeProblem =
    | DuplicateKeyword(name: PyStr)   // a parameter given twice, by position or keyword and again in **d
    | MissingArgument(name: PyStr)    // a required positional parameter got no value
    | Unhashable                      // a list or dict used as a dict key
    | NotSubscriptable                // None, bool, int or float indexed
    | BadIndexType                    // a list or str indexed by a non-integer
    | NotIterable                     // `x in c` where c is None, bool, int or float
    | NotAString                      // `sep.join` over a non-string item

  /** Python's built-in exceptions, as raised by the client's own code. */
  datatype Crash =
    | KeyError(key: Json)
    | TypeError(problem: TypeProblem)
    | AttributeError(name: PyStr)
    | ValueError                      // the JSON decoder rejected the body
    | IndexError

  /** Python's `s[i]`: negative indices count from the end. */
  function PyIndex<T>(s: seq<T>, i: int): (r: Result<T, Crash>)
    ensures r.Ok? <==> -|s| <= i < |s|
    ensures r.Ok? ==> r.value == s[i % |s|]
    ensures r.Err? ==> r.error == IndexError
  {
    if 0 <= i < |s| then Ok(s[i])
    else if -|s| <= i < 0 then Ok(s[|s| + i])
    else Err(IndexError)
  }

  /** The integer a `bool` or `int` index stands for (`True == 1`). */
  function AsIndex(k: Json): int
    requires k.JInt? || k.JBool?
  {
    if k.JInt? then k.i else if k.b then 1 else 0
  }

  /** Python's `c[k]` on decoded JSON values. */
  function Subscript(c: Json, k: Json): (r: Result<Json, Crash>)
    ensures c.JObj? && k.JStr? ==> (r.Ok? <==> k.s in c.fields)
    ensures c.JObj? && k.JStr? && k.s in c.fields ==> r == Ok(c.fields[k.s])
    ensures c.JObj? && k.JStr? && k.s !in c.fields ==> r == Err(KeyError(k))
    ensures (c.JNull? || c.JBool? || c.JInt? || c.JFloat?) ==> r == Err(TypeError(NotSubscriptable))
  {
    match c
    case JObj(fields) =>
      if k.JStr? && k.s in fields then Ok(fields[k.s])
      else if k.JArr? || k.JObj? then Err(TypeError(Unhashable))
      else Err(KeyError(k))
    case JArr(items) =>
      if k.JInt? || k.JBool? then PyIndex(items, AsIndex(k)) else Err(TypeError(BadIndexType))
    case JStr(s) =>
      if k.JInt? || k.JBool? then
        match PyIndex(s, AsIndex(k))
        case Ok(ch) => Ok(JStr([ch]))
        case Err(e) => Err(e)
      else Err(TypeError(BadIndexType))
    case _ => Err(TypeError(NotSubscriptable))
  }

  /** Python's `needle in c` for a string `needle`. */
  function Contains(c: Json, needle: PyStr): (r: Result<bool, Crash>)
    ensures c.JObj? ==> r == Ok(needle in c.fields)
    ensures r.Err? <==> !(c.JObj? || c.JStr? || c.JArr?)
    ensures r.Err? ==> r.error == TypeError(NotIterable)
  {
    match c
    case JObj(fields) => Ok(needle in fields)
    case JStr(s) => Ok(IsSubstring(needle, s))
    case JArr(items) => Ok(JStr(needle) in items)
    case _ => Err(TypeError(NotIterable))
  }

  /** `c.iteritems()`: only a `dict` has it. */
  function Items(c: Json): (r: Result<map<PyStr, Json>, Crash>)
    ensures r.Ok? <==> c.JObj?
    ensures r.Ok? ==> r.value == c.fields
    ensures r.Err? ==> r.error == AttributeError("iteritems")
  {
    if c.JObj? then Ok(c.fields) else Err(AttributeError("iteritems"))
  }

  /** `c.get(key)`: the value under `key`, `None` when absent; only a `dict` has it. */
  function Get(c: Json, key: PyStr): (r: Result<Json, Crash>)
    ensures r.Ok? <==> c.JObj?
    ensures r.Ok? && key in c.fields ==> r.value == c.fields[key]
    ensures r.Ok? && key !in c.fields ==> r.value == JNull
    ensures r.Err? ==> r.error == AttributeError("get")
  {
    if c.JObj? then Ok(if key in c.fields then c.fields[key] else JNull)
    else Err(AttributeError("get"))
  }
}
