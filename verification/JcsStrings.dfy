/** Strings as RFC 8785 prints them: refused when a surrogate stands alone, otherwise escaped as little as
    possible, and read back exactly by the scanner. */
module JcsStrings {
  import opened Wrappers
  import opened CodeUnits
  import opened Numerals
  import opened Grammar
  import opened Scanning
  import opened ScanCompleteness

  predicate IsHigh(u: CodeUnit) {
    0xD800 <= u <= 0xDBFF
  }

  predicate IsLow(u: CodeUnit) {
    0xDC00 <= u <= 0xDFFF
  }

  /** A surrogate without its other half: a high one not before a low one, or a low one not after a high one. */
  predicate IsLone(s: Text, i: nat)
    requires i < |s|
  {
    || (IsHigh(s[i]) && (i + 1 == |s| || !IsLow(s[i + 1])))
    || (IsLow(s[i]) && (i == 0 || !IsHigh(s[i - 1])))
  }

  predicate WellFormed(s: Text) {
    forall i | 0 <= i < |s| :: !IsLone(s, i)
  }

  /** The index of the first lone surrogate, as the error names it; none when the string is well formed. */
  method AssertWellFormed(s: Text) returns (lone: Option<nat>)
    ensures lone.None? <==> WellFormed(s)
    ensures lone.Some? ==> lone.value < |s| && IsLone(s, lone.value) && forall k | 0 <= k < lone.value :: !IsLone(s, k)
  {
    var i := 0;
    while i < |s|
      invariant 0 <= i <= |s|
      invariant forall k | 0 <= k < i :: !IsLone(s, k)
      invariant 0 < i < |s| && IsHigh(s[i - 1]) ==> !IsLow(s[i])
    {
      var c := s[i];
      if IsHigh(c) {
        if i + 1 >= |s| || !IsLow(s[i + 1]) {
          assert IsLone(s, i);
          return Some(i);
        }
        i := i + 1;
      } else if IsLow(c) {
        assert IsLone(s, i);
        return Some(i);
      }
      i := i + 1;
    }
    return None;
  }

  // ---------------------------------------------------------------- escapes

  function LowerHexDigit(v: nat): CodeUnit
    requires v < 16
  {
    if v < 10 then 0x30 + v else 0x61 + v - 10
  }

  /** `n.toString(16)`. */
  function Hexadecimal(n: nat): Text {
    if n < 16 then [LowerHexDigit(n)] else Hexadecimal(n / 16) + [LowerHexDigit(n % 16)]
  }

  /** `t.padStart(4, '0')`. */
  function PadStartFour(t: Text): Text
    decreases 4 - |t|
  {
    if |t| >= 4 then t else PadStartFour([0x30] + t)
  }

  /** The escape table: the letter after the backslash. */
  function EscapeLetter(u: CodeUnit): Option<CodeUnit> {
    if u == QUOTE || u == BACKSLASH then Some(u)
    else if u == 0x08 then Some(0x62)
    else if u == 0x0C then Some(0x66)
    else if u == 0x0A then Some(0x6E)
    else if u == 0x0D then Some(0x72)
    else if u == 0x09 then Some(0x74)
    else None
  }

  lemma ControlDigits(u: CodeUnit)
    requires u < 0x20
    ensures
      var digits := PadStartFour(Hexadecimal(u));
      |digits| == 4 && AllHex(digits) && FourHex(digits) == u && Lower(digits) == digits
  {
    var tail: Text := if u < 16 then [0x30, LowerHexDigit(u)] else [0x31, LowerHexDigit(u - 16)];
    if u < 16 {
      assert [0x30] + Hexadecimal(u) == tail;
    } else {
      assert Hexadecimal(u) == [LowerHexDigit(1)] + [LowerHexDigit(u % 16)] == tail;
    }
    var three: Text := [0x30] + tail;
    var four: Text := [0x30] + three;
    assert PadStartFour(tail) == PadStartFour(three) == PadStartFour(four) == four;
    assert four == [0x30, 0x30, tail[0], tail[1]];
  }

  /** How one code unit is printed. A supplementary character is two, each printed as itself. */
  function ItemOf(u: CodeUnit): (item: Item)
    ensures ItemUnit(item) == u
  {
    if EscapeLetter(u).Some? then Short(EscapeLetter(u).value)
    else if u < 0x20 then
      ControlDigits(u);
      Hex(PadStartFour(Hexadecimal(u)))
    else Plain(u)
  }

  /** No other way of writing a code unit in a string is shorter than the one printed, and a `\u` escape is
      printed with lower-case digits. */
  lemma ShortestEscape(u: CodeUnit, other: Item)
    requires ItemUnit(other) == u
    ensures |ItemText(ItemOf(u))| <= |ItemText(other)|
    ensures ItemOf(u).Hex? ==> Lower(ItemOf(u).digits) == ItemOf(u).digits
  {
    hide FourHex;
    if ItemOf(u).Hex? {
      ControlDigits(u);
    }
  }

  function ItemsOf(s: Text): (items: seq<Item>)
    ensures |items| == |s|
    ensures forall i | 0 <= i < |s| :: items[i] == ItemOf(s[i])
  {
    seq(|s|, i requires 0 <= i < |s| => ItemOf(s[i]))
  }

  lemma {:induction false} DecodedItem(items: seq<Item>, i: nat)
    requires i < |items|
    ensures |Decoded(items)| == |items| && Decoded(items)[i] == ItemUnit(items[i])
  {
    if |items| > 1 {
      DecodedItem(items[1..], if i > 0 then i - 1 else 0);
    } else {
      assert items[1..] == [];
    }
  }

  /** Printing a string and decoding its items gives the string back. */
  lemma ItemsDecode(s: Text)
    ensures Decoded(ItemsOf(s)) == s
  {
    var items := ItemsOf(s);
    if s != [] {
      DecodedItem(items, 0);
    }
    forall i | 0 <= i < |s| ensures |Decoded(items)| == |s| && Decoded(items)[i] == s[i] {
      DecodedItem(items, i);
    }
  }

  lemma {:induction false} ItemsTextSnoc(items: seq<Item>, item: Item)
    ensures ItemsText(items + [item]) == ItemsText(items) + ItemText(item)
  {
    hide ItemText;
    if items == [] {
      assert items + [item] == [item] && [item][1..] == [];
      assert ItemsText([]) + ItemText(item) == ItemText(item) + ItemsText([]);
    } else {
      ItemsTextSnoc(items[1..], item);
      assert (items + [item])[1..] == items[1..] + [item];
      assert ItemText(items[0]) + (ItemsText(items[1..]) + ItemText(item))
        == ItemText(items[0]) + ItemsText(items[1..]) + ItemText(item);
    }
  }

  /** The opening quote and the first `i` units as they are printed. */
  function Printed(s: Text, i: nat): Text
    requires i <= |s|
  {
    [QUOTE] + ItemsText(ItemsOf(s[..i]))
  }

  lemma PrintedOne(s: Text, i: nat)
    requires i < |s|
    ensures Printed(s, i + 1) == Printed(s, i) + UnitText(s[i])
  {
    hide ItemOf, ItemText, UnitText;
    UnitTextIsItems(s[i]);
    ItemsTextSnoc(ItemsOf(s[..i]), ItemOf(s[i]));
    assert ItemsOf(s[..i + 1]) == ItemsOf(s[..i]) + [ItemOf(s[i])];
  }

  /** One code unit as it is printed. */
  function UnitText(u: CodeUnit): Text {
    if EscapeLetter(u).Some? then [BACKSLASH, EscapeLetter(u).value]
    else if u < 0x20 then [BACKSLASH, LETTER_U] + PadStartFour(Hexadecimal(u))
    else [u]
  }

  lemma UnitTextIsItems(u: CodeUnit)
    ensures ItemText(ItemOf(u)) == UnitText(u)
  {
  }

  /** Prints a string, code point by code point; none when it is not well formed. */
  method SerializeString(s: Text) returns (out: Option<Text>)
    ensures out == if WellFormed(s) then Some(QuotedText(ItemsOf(s))) else None
  {
    var lone := AssertWellFormed(s);
    if lone.Some? {
      return None;
    }
    var t: Text := [QUOTE];
    var i := 0;
    while i < |s|
      invariant 0 <= i <= |s|
      invariant t == Printed(s, i)
    {
      hide Printed, PadStartFour, Hexadecimal;
      if EscapeLetter(s[i]).Some? {
        t := t + [BACKSLASH, EscapeLetter(s[i]).value];
      } else if s[i] < 0x20 {
        t := t + ([BACKSLASH, LETTER_U] + PadStartFour(Hexadecimal(s[i])));
      } else if IsHigh(s[i]) && i + 1 < |s| && IsLow(s[i + 1]) {
        t := t + s[i..i + 2];
        assert s[i..i + 2] == [s[i]] + [s[i + 1]];
        PrintedOne(s, i);
        i := i + 1;
      } else {
        t := t + [s[i]];
      }
      PrintedOne(s, i);
      i := i + 1;
    }
    assert s[..i] == s;
    return Some(t + [QUOTE]);
  }

  /** What is printed is read back: the scanner returns the string itself and stops after the closing quote,
      whatever follows. */
  lemma StringRoundTrip(s: Text, i: nat, text: Text, path: seq<Text>)
    requires At(text, i, QuotedText(ItemsOf(s)))
    ensures
      var r := ScanString(text, i, path);
      r.Scanned? && Decoded(r.value) == s && r.next == i + |QuotedText(ItemsOf(s))|
  {
    StringComplete(text, i, ItemsOf(s), path);
    ItemsDecode(s);
  }
}
