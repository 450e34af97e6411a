/** JSON values as Python's `json` module hands them to the dashboard
    backend, and the handful of Python built-in behaviours the backend
    applies to them: truthiness, `dict.get`, `isinstance(x, (int, float))`,
    hashing into a dict key, `str()`, and iteration in a `for` loop. */
module Json {
  import opened Results

  /** A decoded JSON document. Integers and floats are both `JNum`. */
  datatype Json =
    | JNull
    | JBool(b: bool)
    | JNum(n: real)
    | JStr(s: string)
    | JArr(items: seq<Json>)
    | JObj(fields: map<string, Json>)

  /** Python truthiness: `None`, `False`, zero, `""`, `[]` and `{}` are falsy. */
  predicate Truthy(j: Json): (b: bool)
    ensures !b <==> j in {JNull, JBool(false), JNum(0.0), JStr(""), JArr([]), JObj(map[])}
  {
    match j
    case JNull => false
    case JBool(b) => b
    case JNum(n) => n != 0.0
    case JStr(s) => s != ""
    case JArr(xs) => xs != []
    case JObj(m) => m != map[]
  }

  /** `isinstance(j, (int, float))`; `bool` is a subclass of `int` in Python. */
  predicate IsNumber(j: Json) {
    j.JNum? || j.JBool?
  }

  /** Booleans pass the number test, numeric text and `None` do not: a
      worked statement of the definition above, for the `avg` test. */
  lemma NumberKinds(b: bool, n: real, s: string)
    ensures IsNumber(JBool(b)) && IsNumber(JNum(n))
    ensures !IsNumber(JStr(s)) && !IsNumber(JNull)
  {
  }

  /** The numeric value of a number (`True` is 1, `False` is 0). */
  function NumValue(j: Json): real
    requires IsNumber(j)
  {
    if j.JNum? then j.n else if j.b then 1.0 else 0.0
  }

  /** `obj.get(key, default)`: only a dict has `.get`; on anything else the
      attribute lookup raises. */
  function Get(obj: Json, key: string, default: Json): (r: Result<Json>)
    ensures r.Ok? <==> obj.JObj?
    ensures r.Ok? && key in obj.fields ==> r.value == obj.fields[key]
    ensures r.Ok? && key !in obj.fields ==> r.value == default
  {
    match obj
    case JObj(m) => Ok(if key in m then m[key] else default)
    case _ => Err("object has no attribute 'get'")
  }

  /** The value `Get` returns from a dict. */
  function FieldOr(m: map<string, Json>, key: string, default: Json): Json {
    if key in m then m[key] else default
  }

  /** A Python dict key. Keys compare by value, so `True` and `1` (and
      `1.0`) are the same key, and `False` is the key `0`. */
  datatype Key = KNone | KNum(n: real) | KStr(s: string)

  /** Hashing a JSON value for use as a dict key; lists and dicts are
      unhashable and raise `TypeError`. */
  function KeyOf(j: Json): (r: Result<Key>)
    ensures r.Ok? <==> !j.JArr? && !j.JObj?
    ensures r.Ok? && IsNumber(j) ==> r.value == KNum(NumValue(j))
    ensures j.JStr? ==> r == Ok(KStr(j.s))
    ensures j.JNull? ==> r == Ok(KNone)
  {
    match j
    case JNull => Ok(KNone)
    case JBool(b) => Ok(KNum(if b then 1.0 else 0.0))
    case JNum(n) => Ok(KNum(n))
    case JStr(s) => Ok(KStr(s))
    case _ => Err("unhashable type")
  }

  /** `d.get(k, default)` on a dict with real values. */
  function Lookup(d: map<Key, real>, k: Key, default: real): real {
    if k in d then d[k] else default
  }

  /** Placeholder spelling for numbers, lists and dicts in `Text`. */
  const OtherText: string := "<value>"

  /** `str(j)` as used by an f-string: strings are themselves, `None`,
      `True` and `False` are spelled as Python spells them; numbers and
      containers get a fixed placeholder. */
  function Text(j: Json): (t: string)
    ensures j.JStr? ==> t == j.s
    ensures !j.JStr? ==> |t| > 0 && t[0] != 'U'
  {
    match j
    case JStr(s) => s
    case JNull => "None"
    case JBool(b) => if b then "True" else "False"
    case _ => OtherText
  }

  /** The elements a Python `for` loop visits. A list yields its elements;
      an empty string or dict yields nothing. A non-empty string or dict
      yields strings, and the loop body's first `.get` on one raises, so the
      whole loop fails before touching any state: that is modelled as
      failing here. `None`, numbers and booleans are not iterable. */
  function Iterate(j: Json): (r: Result<seq<Json>>)
    ensures j.JArr? ==> r == Ok(j.items)
    ensures j == JStr("") || j == JObj(map[]) ==> r == Ok([])
    ensures !j.JArr? && j != JStr("") && j != JObj(map[]) ==> r.Err?
  {
    match j
    case JArr(xs) => Ok(xs)
    case JStr(s) => if s == "" then Ok([]) else Err("'str' object has no attribute 'get'")
    case JObj(m) => if m == map[] then Ok([]) else Err("'str' object has no attribute 'get'")
    case _ => Err("object is not iterable")
  }
}
