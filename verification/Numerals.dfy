/** Decimal and hexadecimal numerals as text. */
module Numerals {
  import opened CodeUnits

  predicate IsDigit(u: CodeUnit) {
    0x30 <= u <= 0x39
  }

  predicate IsHexDigit(u: CodeUnit) {
    IsDigit(u) || 0x41 <= u <= 0x46 || 0x61 <= u <= 0x66
  }

  function HexDigitValue(u: CodeUnit): (v: nat)
    requires IsHexDigit(u)
    ensures v < 16
  {
    if IsDigit(u) then u - 0x30 else if u <= 0x46 then u - 0x41 + 10 else u - 0x61 + 10
  }

  predicate AllDigits(t: Text) {
    forall i | 0 <= i < |t| :: IsDigit(t[i])
  }

  predicate AllHex(t: Text) {
    forall i | 0 <= i < |t| :: IsHexDigit(t[i])
  }

  /** `String(n)` for a natural number. */
  function Decimal(n: nat): (t: Text)
    ensures |t| > 0 && AllDigits(t)
  {
    if n < 10 then [0x30 + n] else Decimal(n / 10) + [0x30 + n % 10]
  }

  function DecimalValue(t: Text): nat
    requires AllDigits(t)
  {
    if t == [] then 0 else 10 * DecimalValue(t[..|t| - 1]) + (t[|t| - 1] - 0x30)
  }

  function HexValue(t: Text): nat
    requires AllHex(t)
  {
    if t == [] then 0 else 16 * HexValue(t[..|t| - 1]) + HexDigitValue(t[|t| - 1])
  }

  /** A decimal numeral with no superfluous leading zero. */
  predicate IsCanonicalDecimal(t: Text) {
    |t| > 0 && AllDigits(t) && (|t| > 1 ==> t[0] != 0x30)
  }

  lemma {:induction false} DecimalRoundTrip(n: nat)
    ensures DecimalValue(Decimal(n)) == n && IsCanonicalDecimal(Decimal(n)) && (n > 0 ==> Decimal(n)[0] != 0x30)
  {
    if n >= 10 {
      DecimalRoundTrip(n / 10);
      var front := Decimal(n / 10);
      assert Decimal(n)[..|Decimal(n)| - 1] == front;
      assert Decimal(n)[0] == front[0];
    }
  }

  lemma {:induction false} LeadingDigit(t: Text)
    requires |t| > 0 && AllDigits(t) && t[0] != 0x30
    ensures DecimalValue(t) > 0
  {
    if |t| > 1 {
      LeadingDigit(t[..|t| - 1]);
    } else {
      assert t[..|t| - 1] == [];
    }
  }

  /** A canonical numeral is the one `String` gives its value. */
  lemma {:induction false} CanonicalRoundTrip(t: Text)
    requires IsCanonicalDecimal(t)
    ensures Decimal(DecimalValue(t)) == t
  {
    var front := t[..|t| - 1];
    assert t == front + [t[|t| - 1]];
    if |t| > 1 {
      LeadingDigit(front);
      CanonicalRoundTrip(front);
      var v := DecimalValue(t);
      assert v / 10 == DecimalValue(front) && v % 10 == t[|t| - 1] - 0x30;
    } else {
      assert front == [];
    }
  }
}
