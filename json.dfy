/** JSON values as Python's `json.loads` produces them, and the two Python
    conversions the resume scorer applies to them: `int(v)` and `str(v)`. */
module Json {
  import opened Wrappers
  import opened Text

  /** A decoded JSON value. `JFloat` holds a finite JSON number with a fraction
      or an exponent (a Python `float`); `JNonFinite` stands for the `Infinity`,
      `-Infinity` and `NaN` literals that `json.loads` also accepts. */
  datatype Json =
    | JNull
    | JBool(b: bool)
    | JInt(i: int)
    | JFloat(r: real)
    | JNonFinite
    | JStr(s: string)
    | JArr(items: seq<Json>)
    | JObj(fields: map<string, Json>)

  /** Python's `int(x)` truncates a float toward zero. */
  function TruncateReal(r: real): (n: int)
    ensures r >= 0.0 ==> n as real <= r < n as real + 1.0
    ensures r < 0.0 ==> n as real - 1.0 < r <= n as real
  {
    if r >= 0.0 then r.Floor else -((-r).Floor)
  }

  /** Python's `int(v)`: `None` stands for the exception it raises
      (`TypeError` on null, lists and dicts, `ValueError` on a string that is
      not a base-10 integer, `OverflowError`/`ValueError` on infinities and NaN).
      A bool is an int in Python, so `int(True) == 1`. */
  function PyInt(v: Json): Option<int> {
    match v
    case JInt(i) => Some(i)
    case JBool(b) => Some(if b then 1 else 0)
    case JFloat(r) => Some(TruncateReal(r))
    case JStr(s) => ParseInt(s)
    case _ => None
  }

  /** Python's `str(v)`: `None` stands for the `ValueError` it raises on an
      integer of more than `MaxStrDigits` digits. The text of floats, lists
      and dicts (their `repr`) is the library's business and is taken from
      `repr`. */
  function PyStr(v: Json, repr: Json -> string): Option<string> {
    match v
    case JStr(s) => Some(s)
    case JInt(i) => PyIntToString(i)
    case JBool(b) => Some(if b then "True" else "False")
    case JNull => Some("None")
    case _ => Some(repr(v))
  }

  /** `int(n) == n` for every Python integer `n`, and `int(str(n)) == n`
      whenever `str(n)` succeeds; `str` fails only on an integer too long to
      print. */
  lemma PyIntOfPrintedInt(n: int, repr: Json -> string)
    ensures PyInt(JInt(n)) == Some(n)
    ensures PyStr(JInt(n), repr).Some? ==> PyInt(JStr(PyStr(JInt(n), repr).value)) == Some(n)
    ensures PyStr(JInt(n), repr).None? <==> |NatToString(if n < 0 then -n else n)| > MaxStrDigits
  {
    ParseIntOfIntToString(n);
  }
}
