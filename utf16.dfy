/** UTF-16 text as the .NET runtime stores it: a `char` is one 16-bit code
    unit, so lone surrogates (which `\uD83D` produces) are ordinary values. */
module Utf16 {

  /** One .NET `char`. */
  newtype CodeUnit = x: int | 0 <= x < 0x1_0000

  /** A .NET `string` (never null here; null is `Option.None` where it matters). */
  type Text = seq<CodeUnit>

  const SPACE: CodeUnit := ' ' as CodeUnit
  const TAB: CodeUnit := '\t' as CodeUnit
  const LF: CodeUnit := '\n' as CodeUnit
  const CR: CodeUnit := '\r' as CodeUnit
  const BACKSPACE: CodeUnit := 8
  const FORMFEED: CodeUnit := 12
  const QUOTE: CodeUnit := '"' as CodeUnit
  const BACKSLASH: CodeUnit := '\\' as CodeUnit
  const SLASH: CodeUnit := '/' as CodeUnit

  /** The code units of a Dafny string literal whose characters all lie in the BMP. */
  function FromString(s: string): (t: Text)
    requires forall i :: 0 <= i < |s| ==> s[i] as int < 0x1_0000
    ensures |t| == |s|
    ensures forall i :: 0 <= i < |s| ==> t[i] as int == s[i] as int
  {
    seq(|s|, i requires 0 <= i < |s| => s[i] as int as CodeUnit)
  }

  predicate IsAsciiDigit(c: CodeUnit) { '0' as CodeUnit <= c <= '9' as CodeUnit }

  /** Ordinal ordering of strings: code unit by code unit, a proper prefix first. */
  predicate OrdinalLe(a: Text, b: Text)
    decreases |a|
  {
    if a == [] then true
    else if b == [] then false
    else if a[0] != b[0] then a[0] < b[0]
    else OrdinalLe(a[1..], b[1..])
  }

  lemma {:induction false} OrdinalLeReflexive(a: Text)
    ensures OrdinalLe(a, a)
    decreases |a|
  {
    if a != [] {
      OrdinalLeReflexive(a[1..]);
    }
  }

  /** Any two strings are ordered one way or the other. */
  lemma {:induction false} OrdinalLeTotal(a: Text, b: Text)
    ensures OrdinalLe(a, b) || OrdinalLe(b, a)
    decreases |a|
  {
    if a != [] && b != [] && a[0] == b[0] {
      OrdinalLeTotal(a[1..], b[1..]);
    }
  }

  /** Strings ordered both ways are equal. */
  lemma {:induction false} OrdinalLeAntisymmetric(a: Text, b: Text)
    requires OrdinalLe(a, b) && OrdinalLe(b, a)
    ensures a == b
    decreases |a|
  {
    if a != [] && b != [] {
      OrdinalLeAntisymmetric(a[1..], b[1..]);
      assert a == [a[0]] + a[1..];
      assert b == [b[0]] + b[1..];
    }
  }

  lemma {:induction false} OrdinalLeTransitive(a: Text, b: Text, c: Text)
    requires OrdinalLe(a, b) && OrdinalLe(b, c)
    ensures OrdinalLe(a, c)
    decreases |a|
  {
    if a != [] && b != [] && c != [] && a[0] == b[0] && b[0] == c[0] {
      OrdinalLeTransitive(a[1..], b[1..], c[1..]);
    }
  }
}
