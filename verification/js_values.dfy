/**
 * The two JavaScript primitives the pipeline inspects: numbers (with the
 * truthiness test the validation relies on) and strings, plus the
 * built-in `parseFloat` the SOAP mapper applies to the charge amount.
 */
module JsValues {

  /**
   * A JavaScript number. `Finite` holds the exact decimal value the
   * source text denotes; rounding to binary64 and the sign of zero are not
   * modelled (underflow to 0 does change truthiness, but no check reads a
   * parsed amount's truthiness and no arithmetic is done on them).
   */
  datatype Number = Finite(value: real) | Infinity(negative: bool) | NaN

  /** ToBoolean on a number: false exactly for 0, -0 and NaN. */
  predicate NumberTruthy(n: Number) {
    match n
    case Finite(v) => v != 0.0
    case Infinity(_) => true
    case NaN => false
  }

  /** ToBoolean on a string: false exactly for "". */
  predicate StringTruthy(s: string) {
    |s| > 0
  }

  predicate IsDigit(c: char) {
    '0' <= c <= '9'
  }

  predicate AllDigits(d: string) {
    forall i :: 0 <= i < |d| ==> IsDigit(d[i])
  }

  /** StrWhiteSpaceChar: the white space and line terminators parseFloat skips. */
  predicate IsStrWhiteSpace(c: char) {
    || c == '\t' || c == '\n' || c == '\U{000B}' || c == '\U{000C}' || c == '\r'
    || c == ' ' || c == '\U{00A0}' || c == '\U{1680}' || '\U{2000}' <= c <= '\U{200A}'
    || c == '\U{2028}' || c == '\U{2029}' || c == '\U{202F}' || c == '\U{205F}'
    || c == '\U{3000}' || c == '\U{FEFF}'
  }

  /** The input with its leading white space removed. */
  function TrimStart(s: string): (r: string)
    ensures |r| <= |s| && r == s[|s| - |r|..]
    ensures r == [] || !IsStrWhiteSpace(r[0])
    ensures forall i :: 0 <= i < |s| - |r| ==> IsStrWhiteSpace(s[i])
  {
    if |s| > 0 && IsStrWhiteSpace(s[0]) then TrimStart(s[1..]) else s
  }

  /** Length of the longest prefix of `s` made of decimal digits. */
  function DigitRun(s: string): (n: nat)
    ensures n <= |s|
    ensures forall i :: 0 <= i < n ==> IsDigit(s[i])
    ensures n == |s| || !IsDigit(s[n])
  {
    if |s| > 0 && IsDigit(s[0]) then 1 + DigitRun(s[1..]) else 0
  }

  /** The value of a string of decimal digits read in base ten. */
  function DigitsValue(d: string): nat
    requires AllDigits(d)
  {
    if d == [] then 0 else 10 * DigitsValue(d[..|d| - 1]) + (d[|d| - 1] as int - '0' as int)
  }

  function Pow10(n: nat): (r: real)
    ensures r >= 1.0
  {
    if n == 0 then 1.0 else 10.0 * Pow10(n - 1)
  }

  /** 10 raised to a possibly negative exponent. */
  function Scale(e: int): (r: real)
    ensures r > 0.0
  {
    if e >= 0 then Pow10(e) else 1.0 / Pow10(-e)
  }

  /** An ExponentPart (`e` or `E`, an optional sign, at least one digit) at the head of `s`; 0 when there is none. */
  function ExponentPart(s: string): int {
    if |s| >= 2 && (s[0] == 'e' || s[0] == 'E') then
      var signLen := if s[1] == '+' || s[1] == '-' then 1 else 0;
      var digits := DigitRun(s[1 + signLen..]);
      if digits == 0 then 0
      else
        var v := DigitsValue(s[1 + signLen..1 + signLen + digits]);
        if s[1] == '-' then -(v as int) else v
    else 0
  }

  /** The text after an optional leading `+` or `-`. */
  function Unsigned(s: string): (r: string)
    ensures r == s || (|s| > 0 && (s[0] == '+' || s[0] == '-') && r == s[1..])
  {
    if |s| > 0 && (s[0] == '+' || s[0] == '-') then s[1..] else s
  }

  /** Whether the text `Infinity` stands at the head of `b`. */
  predicate StartsInfinity(b: string) {
    |b| >= 8 && b[..8] == "Infinity"
  }

  /** Whether a StrUnsignedDecimalLiteral can begin at the head of `b`. */
  predicate StartsNumeric(b: string) {
    || StartsInfinity(b)
    || (|b| > 0 && IsDigit(b[0]))
    || (|b| > 1 && b[0] == '.' && IsDigit(b[1]))
  }

  /** The value of `intDigits.fracDigits` times ten to the power `exponent`. */
  function DecimalValue(intDigits: string, fracDigits: string, exponent: int): real
    requires AllDigits(intDigits) && AllDigits(fracDigits)
  {
    (DigitsValue(intDigits) as real + DigitsValue(fracDigits) as real / Pow10(|fracDigits|)) * Scale(exponent)
  }

  /**
   * The value of the longest prefix of `b` of the form `digits [. [digits]]
   * [exponent]` or `. digits [exponent]`, or NaN when there is none.
   */
  function UnsignedDecimal(b: string): (r: Number)
    ensures r.Finite? || r.NaN?
    ensures r.NaN? <==> !((|b| > 0 && IsDigit(b[0])) || (|b| > 1 && b[0] == '.' && IsDigit(b[1])))
  {
    var intLen := DigitRun(b);
    var afterInt := b[intLen..];
    var pointLen := if |afterInt| > 0 && afterInt[0] == '.' then 1 else 0;
    var fracLen := if pointLen == 1 then DigitRun(afterInt[1..]) else 0;
    if intLen == 0 && fracLen == 0 then NaN
    else
      Finite(DecimalValue(b[..intLen], afterInt[pointLen..pointLen + fracLen], ExponentPart(afterInt[pointLen + fracLen..])))
  }

  function Negate(n: Number): Number {
    match n
    case Finite(v) => Finite(-v)
    case Infinity(negative) => Infinity(!negative)
    case NaN => NaN
  }

  /**
   * JavaScript's global `parseFloat`: skip leading white space, read the
   * longest prefix that is a StrDecimalLiteral and return its value, or NaN
   * when no prefix is one.
   */
  function ParseFloat(input: string): (r: Number)
    ensures r.NaN? <==> !StartsNumeric(Unsigned(TrimStart(input)))
    ensures r.Infinity? <==> StartsInfinity(Unsigned(TrimStart(input)))
  {
    var s := TrimStart(input);
    var body := Unsigned(s);
    var magnitude := if StartsInfinity(body) then Infinity(false) else UnsignedDecimal(body);
    if |s| > 0 && s[0] == '-' then Negate(magnitude) else magnitude
  }

  /** A plain run of digits parses to its base-ten value. */
  lemma ParseFloatOfDigits(d: string)
    requires |d| > 0 && AllDigits(d)
    ensures ParseFloat(d) == Finite(DigitsValue(d) as real)
  {
    assert TrimStart(d) == d && Unsigned(d) == d by {
      assert IsDigit(d[0]);
      assert !IsStrWhiteSpace(d[0]);
    }
    assert !StartsInfinity(d) by {
      if |d| >= 8 { assert d[..8][0] == d[0]; }
    }
    assert d[0] != '-';
    DigitsDecimal(d);
  }

  lemma DigitsDecimal(d: string)
    requires |d| > 0 && AllDigits(d)
    ensures UnsignedDecimal(d) == Finite(DigitsValue(d) as real)
  {
    assert UnsignedDecimal(d) == Finite(DecimalValue(d, [], 0)) by {
      var n := DigitRun(d);
      assert n == |d|;
      assert d[..n] == d;
      assert d[n..] == [];
    }
    WholeDecimalValue(d);
  }

  lemma WholeDecimalValue(d: string)
    requires AllDigits(d)
    ensures DecimalValue(d, [], 0) == DigitsValue(d) as real
  {
  }

  /** The charge amount of the SOAP fixture: "0.05" parses to 0.05. */
  lemma ParseFloatFixtureAmount()
    ensures ParseFloat("0.05") == Finite(0.05)
  {
    var s := "0.05";
    assert !IsStrWhiteSpace(s[0]);
    assert TrimStart(s) == s;
    assert Unsigned(s) == s;
    assert !StartsInfinity(s);
    assert DigitRun(s[1..]) == 0;
    assert DigitRun(s) == 1;
    assert s[1..][1..] == "05";
    assert DigitRun("05"[1..][1..]) == 0;
    assert DigitRun("05") == 2;
    assert s[..1] == "0";
    assert s[1..][1..3] == "05";
    assert s[1..][3..] == [];
    assert DigitsValue("0"[..0]) == 0;
    assert DigitsValue("0") == 0;
    assert DigitsValue("05"[..1]) == 0;
    assert DigitsValue("05") == 5;
    assert UnsignedDecimal(s) == Finite(DecimalValue("0", "05", 0));
  }

  /** A string with no numeric text, such as "abc", parses to NaN, which is falsy. */
  lemma ParseFloatNonNumericIsFalsy(s: string)
    requires |s| > 0 && 'a' <= s[0] <= 'z'
    ensures ParseFloat(s) == NaN && !NumberTruthy(ParseFloat(s))
  {
    assert !IsStrWhiteSpace(s[0]);
    assert TrimStart(s) == s;
    assert Unsigned(s) == s;
    assert !StartsInfinity(s) by {
      if |s| >= 8 && s[..8] == "Infinity" { assert s[0] == 'I'; }
    }
    assert !StartsNumeric(s);
  }
}
