/**
 * The Python values the handler inspects: decoded JSON (what `json.loads`
 * gives and what the Lambda runtime passes as `event`), the exceptions raised
 * while inspecting them, and the few Python built-ins applied to them
 * (`dict.get`, `==` against an integer literal, `str()`).
 */
module PyJson {
  import opened Wrappers
  import PyText

  /** A decoded JSON value as Python holds it: None, bool, int, float, str, list, dict. */
  datatype Json =
    | JNull
    | JBool(b: bool)
    | JInt(i: int)
    | JFloat(r: real)
    | JStr(s: string)
    | JArr(items: seq<Json>)
    | JObj(fields: map<string, Json>)

  /** The Python exception classes the handler can meet, with the text `str(e)` gives. */
  datatype ExceptionKind = AttributeError | TypeError | IndexError | JSONDecodeError

  datatype PyException = PyException(kind: ExceptionKind, message: string)

  const EmptyDict: Json := JObj(map[])

  /** `type(v).__name__` */
  function TypeName(v: Json): string {
    match v
    case JNull => "NoneType"
    case JBool(_) => "bool"
    case JInt(_) => "int"
    case JFloat(_) => "float"
    case JStr(_) => "str"
    case JArr(_) => "list"
    case JObj(_) => "dict"
  }

  /**
   * `v.get(key, default)`: the value under `key` or `default` when `v` is a
   * dict; any other value has no `get` and raises AttributeError.
   */
  function Get(v: Json, key: string, default: Json): (r: Result<Json, PyException>)
    ensures r.Success? <==> v.JObj?
    ensures v.JObj? && key in v.fields ==> r == Success(v.fields[key])
    ensures v.JObj? && key !in v.fields ==> r == Success(default)
    ensures r.Failure? ==>
      r.error == PyException(AttributeError, "'" + TypeName(v) + "' object has no attribute 'get'")
  {
    match v
    case JObj(fields) => Success(if key in fields then fields[key] else default)
    case _ => Failure(PyException(AttributeError, "'" + TypeName(v) + "' object has no attribute 'get'"))
  }

  /** `fields.get(key, default)` on a dict's entries. */
  function FieldOr(fields: map<string, Json>, key: string, default: Json): (v: Json)
    ensures key in fields ==> v == fields[key]
    ensures key !in fields ==> v == default
  {
    if key in fields then fields[key] else default
  }

  /**
   * Python's `v == n` for an integer literal `n`: True and False compare as 1
   * and 0, floats by value; None, strings, lists and dicts equal no integer.
   */
  predicate PyEquals(v: Json, n: int)
    ensures PyEquals(v, n) ==> v.JBool? || v.JInt? || v.JFloat?
  {
    match v
    case JBool(b) => (if b then 1 else 0) == n
    case JInt(i) => i == n
    case JFloat(r) => r == n as real
    case _ => false
  }

  /** A value equals at most one integer, so `type == 1` and `type == 2` never both hold. */
  lemma PyEqualsUnique(v: Json, n: int, m: int)
    requires PyEquals(v, n) && PyEquals(v, m)
    ensures n == m
  {
  }

  /** `True == 1` and `1.0 == 1` hold in Python; the string "1" is not 1. */
  lemma PyEqualsOne()
    ensures PyEquals(JBool(true), 1) && PyEquals(JFloat(1.0), 1) && PyEquals(JInt(1), 1)
    ensures !PyEquals(JStr("1"), 1) && !PyEquals(JBool(false), 1)
  {
  }

  /**
   * `str(v)`, as an f-string interpolates it. Exact for None, bool, int and
   * str, and for integral floats below 10^16; a list or dict keeps only its
   * bracket pair.
   */
  function PyStr(v: Json): (s: string)
    ensures v.JStr? ==> s == v.s
    ensures !v.JStr? ==> |s| > 0 && (s[0] in "-0123456789[{" || s in {"None", "True", "False"})
  {
    match v
    case JNull => "None"
    case JBool(b) => if b then "True" else "False"
    case JInt(i) => PyText.IntToDecimal(i)
    case JFloat(r) =>
      var m := if r < 0.0 then -r else r;
      (if r < 0.0 then "-" else "") + PyText.IntToDecimal(m.Floor) + ".0"
    case JStr(s) => s
    case JArr(_) => "[]"
    case JObj(_) => "{}"
  }
}
