/** The slice of JavaScript values the gateway touches: the fields of a token
    record read back from the key/value store, the body data of a request,
    JavaScript truthiness, and the string conversions that `+` and the
    query-string encoder apply to a field value. */
module JsValues {

  datatype Option<+T> = None | Some(value: T)

  /** The largest integer a JavaScript number holds exactly, 2^53 - 1. */
  const MaxSafeInteger := 9007199254740991

  /** The integers a JavaScript number holds exactly. All of them lie below
      10^21, so `String(n)` spells them in plain decimal, never in exponent form. */
  type SafeInt = n: int | -MaxSafeInteger <= n <= MaxSafeInteger

  /** A JSON scalar as it appears in a token record or a refresh response.
      Numbers are safe integers here; fractional numbers are not modelled. */
  datatype Value = Str(s: string) | Num(n: SafeInt) | Bool(b: bool) | Null

  /** A plain object: a token record, a refresh response, an options bag. */
  type Record = map<string, Value>

  /** The `data` argument of a request: missing (`undefined`), a scalar,
      a JSON object, or a form body given by its textual fields. */
  datatype Data = Absent | Scalar(v: Value) | Obj(fields: Record) | Form(pairs: map<string, string>)

  /** `obj[key]`, with `None` for `undefined`. */
  function Get(r: Record, key: string): (v: Option<Value>)
    ensures v == None <==> key !in r
    ensures key in r ==> v == Some(r[key])
  {
    if key in r then Some(r[key]) else None
  }

  /** The falsy scalars are exactly `""`, `0`, `false` and `null`. */
  predicate Truthy(v: Value)
    ensures !Truthy(v) <==> v in {Str(""), Num(0), Bool(false), Null}
  {
    match v
    case Str(s) => s != ""
    case Num(n) => n != 0
    case Bool(b) => b
    case Null => false
  }

  /** Truthiness of a request's data. An object is always truthy; a form body
      is its encoded string, which is empty exactly when there are no fields. */
  predicate DataTruthy(d: Data)
    ensures !DataTruthy(d) <==>
      d in {Absent, Scalar(Str("")), Scalar(Num(0)), Scalar(Bool(false)), Scalar(Null), Form(map[])}
  {
    match d
    case Absent => false
    case Scalar(v) => Truthy(v)
    case Obj(_) => true
    case Form(pairs) => pairs != map[]
  }

  function DigitChar(d: nat): (c: char)
    requires d < 10
    ensures '0' <= c <= '9'
  {
    "0123456789"[d]
  }

  function DigitValue(c: char): nat
    requires '0' <= c <= '9'
  {
    (c as int) - ('0' as int)
  }

  predicate AllDigits(s: string) {
    forall i :: 0 <= i < |s| ==> '0' <= s[i] <= '9'
  }

  /** The decimal spelling of a natural number, as `String(n)` gives it for
      numbers below 10^21: digits only, and no leading zero unless the number
      is zero. */
  function Decimal(n: nat): (r: string)
    ensures |r| >= 1 && AllDigits(r)
    ensures r[0] == '0' ==> n == 0
  {
    if n < 10 then [DigitChar(n)] else Decimal(n / 10) + [DigitChar(n % 10)]
  }

  /** Reads a string of decimal digits back as a number. */
  function DecimalValue(s: string): nat
    requires AllDigits(s)
  {
    if s == [] then 0 else 10 * DecimalValue(s[..|s| - 1]) + DigitValue(s[|s| - 1])
  }

  lemma {:induction false} DecimalRoundTrip(n: nat)
    ensures DecimalValue(Decimal(n)) == n
  {
    var r := Decimal(n);
    if n >= 10 {
      DecimalRoundTrip(n / 10);
      assert r[..|r| - 1] == Decimal(n / 10);
    }
  }

  function Pow10(k: nat): (p: nat)
    ensures p >= 1
  {
    if k == 0 then 1 else 10 * Pow10(k - 1)
  }

  lemma Pow10Sixteen()
    ensures Pow10(16) == 10000000000000000
  {
    assert Pow10(2) == 100;
    assert Pow10(4) == 10000;
    assert Pow10(6) == 1000000;
    assert Pow10(8) == 100000000;
    assert Pow10(10) == 10000000000;
    assert Pow10(12) == 1000000000000;
    assert Pow10(14) == 100000000000000;
  }

  /** A number below 10^k (k >= 1) is spelt with at most k digits. */
  lemma {:induction false} DecimalLength(n: nat, k: nat)
    requires 1 <= k && n < Pow10(k)
    ensures |Decimal(n)| <= k
  {
    if n >= 10 {
      assert n / 10 < Pow10(k - 1);
      DecimalLength(n / 10, k - 1);
    }
  }

  /** `String(n)` for a safe integer: an optional minus sign and the decimal
      digits of its magnitude, at most 17 characters in all, so far from the
      21 digits at which JavaScript switches to exponent form. */
  function NumberText(n: SafeInt): (r: string)
    ensures 1 <= |r| <= 17
    ensures n >= 0 ==> AllDigits(r) && DecimalValue(r) == n
    ensures n < 0 ==> r[0] == '-' && AllDigits(r[1..]) && DecimalValue(r[1..]) == -n
  {
    var m: nat := if n < 0 then -n else n;
    Pow10Sixteen();
    DecimalLength(m, 16);
    DecimalRoundTrip(m);
    if n < 0 then
      var r := "-" + Decimal(m);
      assert r[1..] == Decimal(m);
      r
    else Decimal(m)
  }

  /** What `'...' + obj[key]` appends: `String(v)`, and `"undefined"` for a
      missing field. */
  function ValueText(v: Option<Value>): (r: string)
    ensures v == None ==> r == "undefined"
    ensures v == Some(Null) ==> r == "null"
    ensures v.Some? && v.value.Str? ==> r == v.value.s
    ensures v.Some? && v.value.Num? ==> r == NumberText(v.value.n)
    ensures v.Some? && v.value.Bool? ==> (r == "true" <==> v.value.b) && (r == "false" <==> !v.value.b)
  {
    match v
    case None => "undefined"
    case Some(Str(s)) => s
    case Some(Num(n)) => NumberText(n)
    case Some(Bool(b)) => if b then "true" else "false"
    case Some(Null) => "null"
  }

  /** What the query-string encoder writes for a field before percent-encoding:
      the same text as `String(v)`, except the empty string for `null` and
      `undefined`. */
  function FormText(v: Option<Value>): (r: string)
    ensures v == None || v == Some(Null) ==> r == ""
    ensures v != None && v != Some(Null) ==> r == ValueText(v)
  {
    match v
    case None => ""
    case Some(Str(s)) => s
    case Some(Num(n)) => NumberText(n)
    case Some(Bool(b)) => if b then "true" else "false"
    case Some(Null) => ""
  }
}
