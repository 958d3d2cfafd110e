/** Text as JavaScript holds it, a sequence of UTF-16 code units, lone surrogates included; and bytes. */
module CodeUnits {

  type CodeUnit = u: int | 0 <= u < 0x1_0000
  type Text = seq<CodeUnit>

  type Byte = b: int | 0 <= b < 256
  type Bytes = seq<Byte>

  predicate IsAscii(s: string) {
    forall i | 0 <= i < |s| :: s[i] as int < 128
  }

  /** A literal of the source as code units. */
  function Lit(s: string): (t: Text)
    requires IsAscii(s)
    ensures |t| == |s|
    ensures forall i | 0 <= i < |s| :: t[i] == s[i] as int
  {
    seq(|s|, i requires 0 <= i < |s| => s[i] as int)
  }

  lemma LitInjective(s: string, t: string)
    requires IsAscii(s) && IsAscii(t)
    ensures Lit(s) == Lit(t) <==> s == t
  {
    if Lit(s) == Lit(t) {
      forall i | 0 <= i < |s| ensures s[i] == t[i] {
        assert Lit(s)[i] == Lit(t)[i];
      }
    }
  }

  predicate Spells(t: Text, s: string) {
    |t| == |s| && forall i | 0 <= i < |s| :: t[i] == s[i] as int
  }

  lemma SpelledApart(t: Text, s: string, t': Text, s': string)
    requires Spells(t, s) && Spells(t', s') && s != s'
    ensures t != t'
  {
    if |s| == |s'| {
      var i :| 0 <= i < |s| && s[i] != s'[i];
      assert t[i] == s[i] as int && t'[i] == s'[i] as int;
    }
  }

  lemma SpelledJoin(t: Text, s: string, t': Text, s': string)
    requires Spells(t, s) && Spells(t', s')
    ensures Spells(t + t', s + s')
  {
  }

  /** `toLowerCase` on ASCII letters; every other code unit is left alone. */
  function LowerUnit(u: CodeUnit): CodeUnit {
    if 0x41 <= u <= 0x5A then u + 0x20 else u
  }

  function Lower(t: Text): (r: Text)
    ensures |r| == |t|
    ensures forall i | 0 <= i < |t| :: r[i] == LowerUnit(t[i])
  {
    seq(|t|, i requires 0 <= i < |t| => LowerUnit(t[i]))
  }

  lemma LowerIdempotent(t: Text)
    ensures Lower(Lower(t)) == Lower(t)
  {
  }

  lemma LowerConcat(a: Text, b: Text)
    ensures Lower(a + b) == Lower(a) + Lower(b)
  {
  }
}
