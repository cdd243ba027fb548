/**
 * JSON values as Python holds them after `json.loads` or `pickle.load`, and the
 * three Python operations the chat app applies to them: `key in v`, `v[key]`
 * and `str(v)`. Exception texts are those of CPython 3.11 and later.
 */
module PyJson {
  import opened Wrappers

  /** A parsed JSON value. Numbers are integers; JSON floats are not modelled. */
  datatype Json =
    | JNull
    | JBool(b: bool)
    | JNum(n: int)
    | JStr(s: string)
    | JArray(items: seq<Json>)
    | JObject(fields: map<string, Json>)

  /** The Python type name that appears in TypeError messages. */
  function TypeName(v: Json): string {
    match v
    case JNull => "NoneType"
    case JBool(_) => "bool"
    case JNum(_) => "int"
    case JStr(_) => "str"
    case JArray(_) => "list"
    case JObject(_) => "dict"
  }

  /** Python's `needle in hay` on two strings. */
  predicate IsSubstring(needle: string, hay: string)
    decreases |hay|
  {
    |needle| <= |hay| && (hay[..|needle|] == needle || IsSubstring(needle, hay[1..]))
  }

  /**
   * Python's `key in v` for a string `key`: key membership on a dict, element
   * equality on a list, substring on a str, a TypeError on a scalar.
   */
  function Contains(v: Json, key: string): (r: Result<bool, string>)
    ensures r.Failure? <==> v.JNull? || v.JBool? || v.JNum?
    ensures v.JObject? ==> r == Success(key in v.fields)
  {
    match v
    case JObject(fields) => Success(key in fields)
    case JArray(items) => Success(JStr(key) in items)
    case JStr(s) => Success(IsSubstring(key, s))
    case _ => Failure("argument of type '" + TypeName(v) + "' is not iterable")
  }

  /**
   * Python's `v[key]` for a string `key`: only a dict holding the key yields a
   * value; anything else raises KeyError or TypeError, whose `str` is returned.
   */
  function Subscript(v: Json, key: string): (r: Result<Json, string>)
    ensures r.Success? <==> v.JObject? && key in v.fields
    ensures r.Success? ==> r.value == v.fields[key]
  {
    match v
    case JObject(fields) => if key in fields then Success(fields[key]) else Failure("'" + key + "'")
    case JArray(_) => Failure("list indices must be integers or slices, not str")
    case JStr(_) => Failure("string indices must be integers, not 'str'")
    case _ => Failure("'" + TypeName(v) + "' object is not subscriptable")
  }

  function Digit(d: nat): char
    requires d < 10
  {
    "0123456789"[d]
  }

  /** The decimal numeral of `n`, as Python's `str` writes it. */
  function NatDecimal(n: nat): (s: string)
    ensures |s| > 0
    decreases n
  {
    if n < 10 then [Digit(n)] else NatDecimal(n / 10) + [Digit(n % 10)]
  }

  function IntDecimal(n: int): string {
    if n < 0 then "-" + NatDecimal(-n) else NatDecimal(n)
  }

  /**
   * Python's `str(v)`. The text Python writes for a list or a dict is not part
   * of this model: the caller supplies it as `containerStr`.
   */
  function Str(v: Json, containerStr: Json -> string): string {
    match v
    case JNull => "None"
    case JBool(b) => if b then "True" else "False"
    case JNum(n) => IntDecimal(n)
    case JStr(s) => s
    case _ => containerStr(v)
  }

  /** A history entry as the app builds it: `{"role": role, "content": content}`. */
  function Entry(role: string, content: string): (m: Json)
    ensures IsMessage(m)
    ensures m.fields["role"] == JStr(role) && m.fields["content"] == JStr(content)
  {
    JObject(map["role" := JStr(role), "content" := JStr(content)])
  }

  /** A history entry that `m["role"]` and `m["content"]` can both be read from. */
  predicate IsMessage(m: Json) {
    m.JObject? && "role" in m.fields && "content" in m.fields
  }
}
