/** The run-time values the soft-assertion checks receive, their strict
    equality (`===`) and their rendering as text (`String(v)` and `${v}`
    in a template literal). Numbers are modelled as mathematical integers. */
module JsValues {

  /** The closed set of primitive values a check can be handed. */
  datatype Value =
    | Str(s: string)
    | Num(n: int)
    | Bool(b: bool)
    | Null
    | Undefined

  /** The result of `typeof`, with `null` kept apart from objects. */
  datatype JsType = StringType | NumberType | BooleanType | NullType | UndefinedType

  function TypeOf(v: Value): JsType {
    match v
    case Str(_) => StringType
    case Num(_) => NumberType
    case Bool(_) => BooleanType
    case Null => NullType
    case Undefined => UndefinedType
  }

  /** `x === y`: values of different types are never equal (no coercion);
      values of the same type are compared by their content. The contract
      says that this is exactly identity of model values. */
  function StrictEquals(x: Value, y: Value): (r: bool)
    ensures r <==> x == y
  {
    TypeOf(x) == TypeOf(y) &&
    match x
    case Str(s) => s == y.s
    case Num(n) => n == y.n
    case Bool(b) => b == y.b
    case Null => true
    case Undefined => true
  }

  /** `String(v)`, which is also what `${v}` yields for a primitive. */
  function Render(v: Value): (r: string)
    ensures !v.Str? ==> r != []
    ensures v.Bool? ==> (r == "true" <==> v.b)
  {
    match v
    case Str(s) => s
    case Num(n) => NumberToString(n)
    case Bool(b) => BoolToString(b)
    case Null => "null"
    case Undefined => "undefined"
  }

  function BoolToString(b: bool): (r: string)
    ensures r == "true" <==> b
    ensures r == "true" || r == "false"
  {
    if b then "true" else "false"
  }

  predicate IsDigit(c: char) {
    '0' <= c <= '9'
  }

  predicate AllDigits(s: string) {
    forall i :: 0 <= i < |s| ==> IsDigit(s[i])
  }

  function DigitChar(d: nat): (c: char)
    requires d < 10
    ensures IsDigit(c)
  {
    ['0', '1', '2', '3', '4', '5', '6', '7', '8', '9'][d]
  }

  function DigitValue(c: char): (d: nat)
    requires IsDigit(c)
    ensures d < 10 && DigitChar(d) == c
  {
    (c as int - '0' as int) as nat
  }

  /** Decimal digits of a natural number, most significant first, with no
      leading zero. */
  function NatToDecimal(n: nat): (r: string)
    ensures |r| >= 1 && AllDigits(r)
    ensures r[0] == '0' ==> n == 0
    ensures n < 10 <==> |r| == 1
  {
    if n < 10 then [DigitChar(n)] else NatToDecimal(n / 10) + [DigitChar(n % 10)]
  }

  /** The text of an integral number: a minus sign, if any, then its digits. */
  function NumberToString(n: int): (r: string)
    ensures r != []
    ensures n < 0 <==> r[0] == '-'
  {
    if n < 0 then "-" + NatToDecimal(-n) else NatToDecimal(n)
  }

  /** Reads a string of decimal digits back as a number (the inverse of
      NatToDecimal). */
  function ParseDecimal(s: string): nat
    requires AllDigits(s)
  {
    if s == [] then 0 else 10 * ParseDecimal(s[..|s| - 1]) + DigitValue(s[|s| - 1])
  }

  /** The shape of NumberToString's text: digits, optionally after a minus sign. */
  predicate IsNumberText(s: string) {
    s != [] && (if s[0] == '-' then AllDigits(s[1..]) else AllDigits(s))
  }

  /** Reads the text of NumberToString back as a number. */
  function ParseNumber(s: string): int
    requires IsNumberText(s)
  {
    if s[0] == '-' then -(ParseDecimal(s[1..]) as int) else ParseDecimal(s)
  }

  lemma {:induction false} DecimalRoundTrip(n: nat)
    ensures ParseDecimal(NatToDecimal(n)) == n
  {
    var r := NatToDecimal(n);
    if n >= 10 {
      DecimalRoundTrip(n / 10);
      assert r[..|r| - 1] == NatToDecimal(n / 10);
    }
  }

  lemma NumberRoundTrip(n: int)
    ensures IsNumberText(NumberToString(n)) && ParseNumber(NumberToString(n)) == n
  {
    if n < 0 {
      var d := NatToDecimal(-n);
      assert NumberToString(n) == "-" + d;
      assert ("-" + d)[1..] == d;
      DecimalRoundTrip(-n);
    } else {
      var d := NatToDecimal(n);
      assert NumberToString(n) == d;
      assert IsDigit(d[0]);
      DecimalRoundTrip(n);
    }
  }

  /** Distinct numbers are rendered as distinct texts. */
  lemma NumberToStringInjective(m: int, n: int)
    requires NumberToString(m) == NumberToString(n)
    ensures m == n
  {
    NumberRoundTrip(m);
    NumberRoundTrip(n);
  }

  /** Rendering forgets the type: this is why a failing `assert(5, "5")`
      shows the same text on both sides. */
  lemma RenderForgetsType()
    ensures Render(Num(5)) == Render(Str("5")) && !StrictEquals(Num(5), Str("5"))
  {
    assert NumberToString(5) == "5";
  }
}
