/**
  JavaScript strings as the overlay sees them: sequences of UTF-16 code
  units (what `charCodeAt` returns), and the decimal rendering of an
  integer that a template literal such as `${n}` produces.
 */
module Text {

  /** One UTF-16 code unit, the value `String.prototype.charCodeAt` yields. */
  type CodeUnit = c: int | 0 <= c < 0x1_0000

  /** A JavaScript string. */
  type Utf16 = seq<CodeUnit>

  const Space: CodeUnit := 32
  const Percent: CodeUnit := 37
  const Minus: CodeUnit := 45
  const Zero: CodeUnit := 48

  predicate IsDigit(c: CodeUnit) {
    Zero <= c < Zero + 10
  }

  /** The decimal digits of `n`, most significant first. */
  function NatDigits(n: nat): Utf16
    decreases n
  {
    if n < 10 then [Zero + n] else NatDigits(n / 10) + [Zero + n % 10]
  }

  /** NatDigits writes at least one digit, nothing but digits, and no leading zero. */
  lemma {:induction false} NatDigitsShape(n: nat)
    ensures |NatDigits(n)| >= 1
    ensures forall i :: 0 <= i < |NatDigits(n)| ==> IsDigit(NatDigits(n)[i])
    ensures NatDigits(n)[0] == Zero ==> n == 0
    decreases n
  {
    if n >= 10 {
      NatDigitsShape(n / 10);
      assert NatDigits(n)[0] == NatDigits(n / 10)[0];
    }
  }

  /** The number a string of decimal digits denotes (the reading direction of NatDigits). */
  function DigitsValue(s: Utf16): nat
    requires forall i :: 0 <= i < |s| ==> IsDigit(s[i])
  {
    if s == [] then 0
    else
      assert IsDigit(s[|s| - 1]);
      DigitsValue(s[..|s| - 1]) * 10 + (s[|s| - 1] - Zero)
  }

  /** `${n}` for an integer `n`: a minus sign for negatives, then the digits. */
  function Decimal(n: int): Utf16 {
    if n < 0 then [Minus] + NatDigits(-n) else NatDigits(n)
  }

  /** `${n}` is never empty and holds neither a space nor a percent sign. */
  lemma DecimalShape(n: int)
    ensures |Decimal(n)| >= 1
    ensures Space !in Decimal(n) && Percent !in Decimal(n)
  {
    var digits := NatDigits(if n < 0 then -n else n);
    NatDigitsShape(if n < 0 then -n else n);
    assert Space !in digits && Percent !in digits by {
      forall i | 0 <= i < |digits| ensures digits[i] != Space && digits[i] != Percent {
        assert IsDigit(digits[i]);
      }
    }
  }

  /** Reading back the digits NatDigits writes gives the number again. */
  lemma {:induction false} DigitsRoundTrip(n: nat)
    ensures (NatDigitsShape(n); DigitsValue(NatDigits(n)) == n)
    decreases n
  {
    NatDigitsShape(n);
    if n >= 10 {
      var s := NatDigits(n);
      assert s[..|s| - 1] == NatDigits(n / 10);
      DigitsRoundTrip(n / 10);
    }
  }

  /** The text `${n}` determines `n`: its sign and digits read back to `n`. */
  lemma DecimalRoundTrip(n: int)
    ensures |Decimal(n)| >= 1
    ensures Decimal(n)[0] == Minus <==> n < 0
    ensures n >= 0 ==> (NatDigitsShape(n); DigitsValue(Decimal(n)) == n)
    ensures n < 0 ==> (NatDigitsShape(-n); DigitsValue(Decimal(n)[1..]) == -n)
  {
    NatDigitsShape(if n < 0 then -n else n);
    if n < 0 {
      assert Decimal(n)[1..] == NatDigits(-n);
      DigitsRoundTrip(-n);
    } else {
      DigitsRoundTrip(n);
    }
  }

  /** Decimal is injective: different integers never print alike. */
  lemma DecimalInjective(m: int, n: int)
    requires Decimal(m) == Decimal(n)
    ensures m == n
  {
    DecimalRoundTrip(m);
    DecimalRoundTrip(n);
  }
}
