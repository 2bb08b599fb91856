/** The few JavaScript number operations the engine relies on: `Math.abs`, the truncating
    remainder `%`, `String(n)` for integral numbers and `Number(c)` for a one-character
    string. */
module JsNumbers {

  function Abs(n: int): nat
  {
    if n < 0 then -n else n
  }

  /** JavaScript's `a % b`: the remainder takes the sign of the dividend. */
  function JsRem(a: int, b: int): int
    requires b != 0
  {
    if a >= 0 then a % Abs(b) else -((-a) % Abs(b))
  }

  predicate IsDigit(c: char)
  {
    '0' <= c <= '9'
  }

  function DigitChar(d: int): (c: char)
    requires 0 <= d < 10
    ensures IsDigit(c)
  {
    ('0' as int + d) as char
  }

  function DigitValue(c: char): (d: int)
    requires IsDigit(c)
    ensures 0 <= d < 10 && DigitChar(d) == c
  {
    c as int - '0' as int
  }

  predicate AllDigits(s: string)
  {
    forall i | 0 <= i < |s| :: IsDigit(s[i])
  }

  /** Decimal digits of a natural number, most significant first. */
  function NatToString(n: nat): (s: string)
    ensures |s| >= 1 && AllDigits(s)
    decreases n
  {
    if n < 10 then [DigitChar(n)] else NatToString(n / 10) + [DigitChar(n % 10)]
  }

  /** `String(n)` for an integral number `n`. */
  function IntToString(n: int): (s: string)
    ensures |s| >= 1
    ensures forall i | 0 <= i < |s| :: IsDigit(s[i]) || (i == 0 && s[i] == '-')
  {
    if n < 0 then "-" + NatToString(-n) else NatToString(n)
  }

  /** Reads back a string of decimal digits; the partner of NatToString. */
  function ParseNat(s: string): nat
    requires AllDigits(s)
    decreases |s|
  {
    if s == [] then 0 else ParseNat(s[..|s| - 1]) * 10 + DigitValue(s[|s| - 1])
  }

  function ParseInt(s: string): int
    requires |s| >= 1
    requires forall i | 0 <= i < |s| :: IsDigit(s[i]) || (i == 0 && s[i] == '-')
  {
    if s[0] == '-' then 0 - ParseNat(s[1..]) as int else ParseNat(s) as int
  }

  lemma {:induction false} NatToStringRoundTrip(n: nat)
    ensures ParseNat(NatToString(n)) == n
    decreases n
  {
    if n >= 10 {
      var s := NatToString(n);
      NatToStringRoundTrip(n / 10);
      assert s[..|s| - 1] == NatToString(n / 10);
    }
  }

  /** `String(n)` loses nothing: the number can be read back from it. */
  lemma IntToStringRoundTrip(n: int)
    ensures ParseInt(IntToString(n)) == n
  {
    if n < 0 {
      NatToStringRoundTrip(-n);
      assert IntToString(n)[1..] == NatToString(-n);
    } else {
      NatToStringRoundTrip(n);
    }
  }

  /** A number below ten prints as exactly one digit. */
  lemma SingleDigitString(n: int)
    requires 0 <= n < 10
    ensures IntToString(n) == [DigitChar(n)]
  {
  }

  /** Result of JavaScript's `Number(...)`: an integral value or NaN. */
  datatype JsNumber = Finite(value: int) | NaN

  /** The characters that JavaScript's string-to-number conversion treats as white space. */
  predicate IsJsWhiteSpace(c: char)
  {
    var k := c as int;
    k == 9 || k == 10 || k == 11 || k == 12 || k == 13 || k == 32 || k == 0xA0 || k == 0x1680
    || (0x2000 <= k <= 0x200A) || k == 0x2028 || k == 0x2029 || k == 0x202F || k == 0x205F
    || k == 0x3000 || k == 0xFEFF
  }

  /** `Number(c)` for a one-character string: a digit gives its value, a white-space
      character gives 0 (it trims to the empty string), anything else gives NaN. */
  function NumberOfChar(c: char): (r: JsNumber)
    ensures r.Finite? <==> IsDigit(c) || IsJsWhiteSpace(c)
    ensures IsDigit(c) ==> r == Finite(c as int - '0' as int)
    ensures r.Finite? ==> 0 <= r.value <= 9
  {
    if IsDigit(c) then Finite(DigitValue(c)) else if IsJsWhiteSpace(c) then Finite(0) else NaN
  }

  /** `n - k`; NaN stays NaN. */
  function Minus(n: JsNumber, k: int): JsNumber
  {
    match n
    case Finite(v) => Finite(v - k)
    case NaN => NaN
  }
}
