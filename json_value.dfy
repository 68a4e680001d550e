/** JSON-like values as the recommendation pipeline handles them (Python dicts, lists, strings,
    numbers, booleans and `None`), Python truthiness, and the two numeric conversions the
    pipeline applies to ratings: `float(s)` and `round(x, 1)`. */
module JsonValue {
  import opened Wrappers
  import opened Text

  /** A JSON value. Numbers are exact reals: the int/float distinction of Python is not kept. */
  datatype Value =
    | Null
    | Bool(b: bool)
    | Num(n: real)
    | Str(s: string)
    | Arr(items: seq<Value>)
    | Obj(fields: map<string, Value>)

  /** A recommendation record: a dict from field names to values. */
  type Record = map<string, Value>

  /** `rec.get(k)`: the value under `k`, or `None` when `k` is missing. */
  function Get(rec: Record, k: string): Value {
    if k in rec then rec[k] else Null
  }

  /** Python truthiness: `None`, `False`, zero, and empty strings, lists and dicts are false. */
  predicate Truthy(v: Value) {
    match v
    case Null => false
    case Bool(b) => b
    case Num(n) => n != 0.0
    case Str(s) => s != ""
    case Arr(items) => items != []
    case Obj(fields) => fields != map[]
  }

  /** The two JSON primitives the parser uses and that the model does not re-verify:
      `find` is the regex search for a JSON-looking substring (`None` when no pattern matches),
      `decode` is `json.loads` (`None` for a `JSONDecodeError`). */
  datatype JsonCodec = JsonCodec(find: string -> Option<string>, decode: string -> Option<Value>)

  // ---------------------------------------------------------------------------------------
  // Numbers

  function Pow10(k: nat): (p: nat)
    ensures p >= 1
  {
    if k == 0 then 1 else 10 * Pow10(k - 1)
  }

  /** `float(t)` for an unsigned decimal: digits with an optional fraction (`"8"`, `"8.5"`,
      `"8."`, `".5"`). */
  function ParseUnsigned(t: string): Option<real> {
    if '.' in t then
      var whole := BeforeChar(t, '.');
      var frac := AfterChar(t, '.');
      if AllDigits(whole) && AllDigits(frac) && |whole| + |frac| > 0
      then Some(DigitsValue(whole) as real + DigitsValue(frac) as real / Pow10(|frac|) as real)
      else None
    else if |t| > 0 && AllDigits(t) then Some(DigitsValue(t) as real)
    else None
  }

  /** Python's `float(s)`: surrounding white space is ignored and an optional sign is accepted;
      `None` stands for the `ValueError` it raises otherwise. */
  function ParseFloat(s: string): Option<real> {
    var t := Strip(s);
    if |t| > 0 && (t[0] == '+' || t[0] == '-') then
      match ParseUnsigned(t[1..])
      case Some(v) => Some(if t[0] == '-' then -v else v)
      case None => None
    else ParseUnsigned(t)
  }

  /** `round(x, 1)` counted in tenths: the nearest whole number of tenths, a tie going to the
      even neighbour as Python's `round` does. */
  function RoundTenths(x: real): (r: int)
    ensures -0.5 <= r as real - x * 10.0 <= 0.5
    ensures r as real - x * 10.0 == 0.5 ==> r % 2 == 0
    ensures r as real - x * 10.0 == -0.5 ==> r % 2 == 0
  {
    var y := x * 10.0;
    var f := y.Floor;
    var d := y - f as real;
    if d < 0.5 then f
    else if d > 0.5 then f + 1
    else if f % 2 == 0 then f
    else f + 1
  }

  /** `round(x, 1)`. */
  function Round1(x: real): real {
    RoundTenths(x) as real / 10.0
  }

  /** A value already rounded to one decimal is left alone by rounding again. */
  lemma Round1Idempotent(x: real)
    ensures Round1(Round1(x)) == Round1(x)
  {
    var n := RoundTenths(x);
    assert Round1(x) * 10.0 == n as real;
    assert (n as real).Floor == n;
    assert RoundTenths(Round1(x)) == n;
  }

  /** `round(float(n), 1)` of a whole number is the number itself. */
  lemma Round1Whole(n: int)
    ensures Round1(n as real) == n as real
  {
    assert (n as real * 10.0).Floor == 10 * n;
    assert RoundTenths(n as real) == 10 * n;
  }

  /** `float("8.5")` is 8.5 and `float("N")` fails. */
  lemma ParseFloatExamples()
    ensures ParseFloat("8.5") == Some(8.5)
    ensures ParseFloat("N") == None
  {
    assert Strip("8.5") == "8.5";
    assert BeforeChar("8.5", '.') == "8";
    assert AfterChar("8.5", '.') == "5";
    assert DigitsValue("8") == 8;
    assert DigitsValue("5") == 5;
    assert Strip("N") == "N";
    assert !IsDigit('N');
  }
}
