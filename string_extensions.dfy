/** `StringExtensions`: the JSON string escaper, property-name camel casing
    and indentation. Casing uses ASCII letters only (see README). */
module StringExtensions {
  import opened Utf16
  import opened Outcomes
  import opened JsonText

  // -------------------------------------------------------------- escaping

  /** `String.IndexOfAny(CharsToEscape, from)`: the first escapable unit at or after `from`, or -1. */
  function IndexOfEscapable(s: Text, from: nat): (r: int)
    requires from <= |s|
    ensures r == -1 || from <= r < |s|
    ensures r == -1 ==> forall k :: from <= k < |s| ==> !IsEscapable(s[k])
    ensures r != -1 ==> IsEscapable(s[r]) && forall k :: from <= k < r ==> !IsEscapable(s[k])
    decreases |s| - from
  {
    if from == |s| then -1
    else if IsEscapable(s[from]) then from
    else IndexOfEscapable(s, from + 1)
  }

  /** Copying a run with nothing to escape, then escaping the unit after it. */
  lemma EscapedRun(s: Text, lo: nat, hi: nat)
    requires lo <= hi < |s|
    requires forall k :: lo <= k < hi ==> !IsEscapable(s[k])
    ensures Escaped(s[..hi + 1]) == Escaped(s[..lo]) + s[lo..hi] + EscapeUnit(s[hi])
  {
    assert s[..hi + 1] == s[..lo] + s[lo..hi] + [s[hi]];
    EscapedConcat(s[..lo] + s[lo..hi], [s[hi]]);
    EscapedConcat(s[..lo], s[lo..hi]);
    EscapedPlain(s[lo..hi]);
    assert Escaped([s[hi]]) == EscapeUnit(s[hi]) + Escaped([]);
  }

  /** One turn of the escape loop extends the escaped prefix past the next escapable unit. */
  lemma EscapeLoopStep(s: Text, lastIndex: nat, index: int, sb: Text)
    requires lastIndex <= |s| && index == IndexOfEscapable(s, lastIndex) && index != -1
    requires sb == [QUOTE] + Escaped(s[..lastIndex])
    ensures sb + s[lastIndex..index] + EscapeUnit(s[index]) == [QUOTE] + Escaped(s[..index + 1])
  {
    EscapedRun(s, lastIndex, index);
    Associate([QUOTE], Escaped(s[..lastIndex]), s[lastIndex..index], EscapeUnit(s[index]));
  }

  lemma Associate(a: Text, b: Text, c: Text, d: Text)
    ensures a + b + c + d == a + (b + c + d)
  {
  }

  /** The escape loop's last step: the final run, then the closing quote. */
  lemma EscapeLoopEnd(s: Text, lastIndex: nat, sb: Text)
    requires lastIndex <= |s| && IndexOfEscapable(s, lastIndex) == -1
    requires sb == [QUOTE] + Escaped(s[..lastIndex])
    ensures sb + s[lastIndex..] + [QUOTE] == Quoted(s)
  {
    EscapedTail(s, lastIndex);
    Associate([QUOTE], Escaped(s[..lastIndex]), s[lastIndex..], [QUOTE]);
    assert sb + s[lastIndex..] + [QUOTE] == [QUOTE] + Escaped(s) + [QUOTE];
  }

  /** Copying the final run, which has nothing to escape. */
  lemma EscapedTail(s: Text, lo: nat)
    requires lo <= |s|
    requires forall k :: lo <= k < |s| ==> !IsEscapable(s[k])
    ensures Escaped(s) == Escaped(s[..lo]) + s[lo..]
  {
    assert s == s[..lo] + s[lo..];
    EscapedConcat(s[..lo], s[lo..]);
    EscapedPlain(s[lo..]);
  }

  /** `JsonEscapeString`: `null` for a null string; otherwise a quote, the
      runs between escapable units copied whole, each escapable unit as its
      two-unit escape, and a closing quote. */
  method JsonEscapeString(input: Option<Text>) returns (r: Text)
    ensures r == EscapedOrNull(input)
  {
    if input.None? {
      return Keyword(Null);
    }
    var s := input.value;
    var sb: Text := [QUOTE];
    var lastIndex := 0;
    var index := IndexOfEscapable(s, 0);
    assert s[..0] == [];
    while index != -1
      invariant lastIndex <= |s|
      invariant index == IndexOfEscapable(s, lastIndex)
      invariant sb == [QUOTE] + Escaped(s[..lastIndex])
      decreases |s| - lastIndex
    {
      var escape := EscapeOf(s[index]);
      EscapeLoopStep(s, lastIndex, index, sb);
      sb := sb + s[lastIndex..index] + escape;
      index := index + 1;
      lastIndex := index;
      index := IndexOfEscapable(s, index);
    }
    EscapeLoopEnd(s, lastIndex, sb);
    sb := sb + s[lastIndex..];
    r := sb + [QUOTE];
  }

  /** The if-chain that picks the two-unit escape of an escapable unit. */
  method EscapeOf(c: CodeUnit) returns (escape: Text)
    requires IsEscapable(c)
    ensures escape == EscapeUnit(c)
  {
    if c == QUOTE {
      escape := [BACKSLASH, QUOTE];
    } else if c == BACKSLASH {
      escape := [BACKSLASH, BACKSLASH];
    } else if c == CR {
      escape := [BACKSLASH, 'r' as CodeUnit];
    } else if c == LF {
      escape := [BACKSLASH, 'n' as CodeUnit];
    } else if c == TAB {
      escape := [BACKSLASH, 't' as CodeUnit];
    } else if c == SLASH {
      escape := [BACKSLASH, SLASH];
    } else if c == BACKSPACE {
      escape := [BACKSLASH, 'b' as CodeUnit];
    } else {
      escape := [BACKSLASH, 'f' as CodeUnit];
    }
  }

  /** The round trip: decoding what the escaper wrote for a non-null string,
      from just past the opening quote, gives the string back and stops just
      past the closing quote, whatever follows. */
  lemma EscapeThenDecode(s: Text, post: Text)
    ensures DecodeString(EscapedOrNull(Some(s)) + post, 1, []) == Ok((s, |EscapedOrNull(Some(s))|))
  {
    DecodeQuoted(s, post);
  }

  /** A string with none of the eight escapable units is written as itself between quotes. */
  lemma EscapePlainString(s: Text)
    requires forall k :: 0 <= k < |s| ==> s[k] !in CharsToEscape
    ensures EscapedOrNull(Some(s)) == [QUOTE] + s + [QUOTE]
  {
    forall k | 0 <= k < |s|
      ensures !IsEscapable(s[k])
    {
      EscapableListed(s[k]);
    }
    EscapedPlain(s);
  }

  // ----------------------------------------------------------- camel case

  /** `char.IsUpper`, `char.IsLower` and `char.ToLower`, over ASCII letters. */
  predicate IsUpper(c: CodeUnit) { 'A' as CodeUnit <= c <= 'Z' as CodeUnit }

  predicate IsLower(c: CodeUnit) { 'a' as CodeUnit <= c <= 'z' as CodeUnit }

  function ToLower(c: CodeUnit): (r: CodeUnit)
    ensures IsUpper(c) ==> IsLower(r)
    ensures !IsUpper(c) ==> r == c
  {
    if IsUpper(c) then c + 32 else c
  }

  /** The loop, still lowering at position `i`, lowers it and goes on lowering:
      an upper-case letter among the first four that is not a word start (an
      upper-case letter past the first followed by a lower-case one). */
  predicate KeepsLowering(text: Text, i: nat)
    requires i < |text|
  {
    IsUpper(text[i]) && i < 4 && !(i > 0 && |text| > i + 1 && IsLower(text[i + 1]))
  }

  /** The first position from `i` on where lowering stops, or `|text|`. */
  function LoweringEnd(text: Text, i: nat): (e: nat)
    requires i <= |text|
    ensures i <= e <= |text| && e <= (if i <= 4 then 4 else i)
    ensures forall k :: i <= k < e ==> KeepsLowering(text, k)
    ensures e < |text| ==> !KeepsLowering(text, e)
    decreases |text| - i
  {
    if i == |text| || !KeepsLowering(text, i) then i else LoweringEnd(text, i + 1)
  }

  /** The camel-cased name: the lowered prefix, then the rest copied verbatim. */
  function CamelCased(text: Text): (r: Text)
    ensures |r| == |text|
  {
    var e := LoweringEnd(text, 0);
    seq(|text|, k requires 0 <= k < |text| => if k < e then ToLower(text[k]) else text[k])
  }

  /** `CamelCase`: null stays null; otherwise a `lowering` flag walks the name. */
  method CamelCase(text: Option<Text>) returns (r: Option<Text>)
    ensures text.None? ==> r.None?
    ensures text.Some? ==> r == Some(CamelCased(text.value))
  {
    if text.None? {
      return None;
    }
    var t := text.value;
    ghost var e := LoweringEnd(t, 0);
    var sb: Text := [];
    var lowering := true;
    for i := 0 to |t|
      invariant lowering <==> i <= e
      invariant sb == CamelCased(t)[..i]
    {
      assert i < e ==> KeepsLowering(t, i);
      assert i == e ==> !KeepsLowering(t, i);
      if lowering && IsUpper(t[i]) && i < 4 {
        if i > 0 && |t| > i + 1 && IsLower(t[i + 1]) {
          lowering := false;
          sb := sb + [t[i]];
        } else {
          sb := sb + [ToLower(t[i])];
        }
      } else {
        lowering := false;
        sb := sb + [t[i]];
      }
    }
    assert CamelCased(t)[..|t|] == CamelCased(t);
    r := Some(sb);
  }

  /** At most the first four units change, each only by lowering an
      upper-case letter; from the end of lowering on, the name is copied. */
  lemma CamelCasedShape(text: Text)
    ensures forall k :: 4 <= k < |text| ==> CamelCased(text)[k] == text[k]
    ensures forall k :: LoweringEnd(text, 0) <= k < |text| ==> CamelCased(text)[k] == text[k]
    ensures forall k :: 0 <= k < LoweringEnd(text, 0) ==> IsUpper(text[k]) && CamelCased(text)[k] == ToLower(text[k])
  {
    var e := LoweringEnd(text, 0);
    forall k | 0 <= k < e
      ensures IsUpper(text[k])
    {
      assert KeepsLowering(text, k);
    }
  }

  /** A name that does not start with an upper-case letter is unchanged. */
  lemma CamelCasedLowerStart(text: Text)
    requires text == [] || !IsUpper(text[0])
    ensures CamelCased(text) == text
  {
    assert LoweringEnd(text, 0) == 0;
  }

  /** An upper-case letter at position 1 to 3 that starts a word (a lower-case
      letter follows) is kept, and only the capitals before it are lowered. */
  lemma CamelCasedWordStart(text: Text, i: nat)
    requires 0 < i < 4 && i + 1 < |text| && IsUpper(text[i]) && IsLower(text[i + 1])
    requires forall k :: 0 <= k < i ==> IsUpper(text[k])
    ensures CamelCased(text) == seq(i, k requires 0 <= k < i => ToLower(text[k])) + text[i..]
  {
    LoweringEndAt(text, 0, i);
    var lowered := seq(i, k requires 0 <= k < i => ToLower(text[k]));
    assert forall k :: 0 <= k < |text| ==> CamelCased(text)[k] == (lowered + text[i..])[k];
  }

  lemma {:induction false} LoweringEndAt(text: Text, j: nat, i: nat)
    requires j <= i < |text| && i < 4 && !KeepsLowering(text, i)
    requires forall k :: j <= k < i ==> KeepsLowering(text, k)
    ensures LoweringEnd(text, j) == i
    decreases i - j
  {
    if j < i {
      LoweringEndAt(text, j + 1, i);
    }
  }

  /** The library's own casing examples: an acronym is lowered up to the
      capital that starts the next word, an all-capital name entirely, a
      Pascal-cased name in its first letter, a camel-cased name not at all. */
  lemma CamelCasedAcronym()
    ensures CamelCased(['A' as CodeUnit, 'C' as CodeUnit, 'L' as CodeUnit, 'S' as CodeUnit, 'e' as CodeUnit, 't' as CodeUnit, 't' as CodeUnit, 'i' as CodeUnit, 'n' as CodeUnit, 'g' as CodeUnit, 's' as CodeUnit]) == ['a' as CodeUnit, 'c' as CodeUnit, 'l' as CodeUnit, 'S' as CodeUnit, 'e' as CodeUnit, 't' as CodeUnit, 't' as CodeUnit, 'i' as CodeUnit, 'n' as CodeUnit, 'g' as CodeUnit, 's' as CodeUnit]
  {
    CamelCasedWordStart(['A' as CodeUnit, 'C' as CodeUnit, 'L' as CodeUnit, 'S' as CodeUnit, 'e' as CodeUnit, 't' as CodeUnit, 't' as CodeUnit, 'i' as CodeUnit, 'n' as CodeUnit, 'g' as CodeUnit, 's' as CodeUnit], 3);
  }

  lemma CamelCasedAllCapitals()
    ensures CamelCased(['T' as CodeUnit, 'E' as CodeUnit, 'S' as CodeUnit, 'T' as CodeUnit]) == ['t' as CodeUnit, 'e' as CodeUnit, 's' as CodeUnit, 't' as CodeUnit]
  {
    assert LoweringEnd(['T' as CodeUnit, 'E' as CodeUnit, 'S' as CodeUnit, 'T' as CodeUnit], 0) == 4;
  }

  lemma CamelCasedPascal()
    ensures CamelCased(['P' as CodeUnit, 'a' as CodeUnit, 's' as CodeUnit, 'c' as CodeUnit, 'a' as CodeUnit, 'l' as CodeUnit, 'C' as CodeUnit, 'a' as CodeUnit, 's' as CodeUnit, 'i' as CodeUnit, 'n' as CodeUnit, 'g' as CodeUnit]) == ['p' as CodeUnit, 'a' as CodeUnit, 's' as CodeUnit, 'c' as CodeUnit, 'a' as CodeUnit, 'l' as CodeUnit, 'C' as CodeUnit, 'a' as CodeUnit, 's' as CodeUnit, 'i' as CodeUnit, 'n' as CodeUnit, 'g' as CodeUnit]
  {
    assert LoweringEnd(['P' as CodeUnit, 'a' as CodeUnit, 's' as CodeUnit, 'c' as CodeUnit, 'a' as CodeUnit, 'l' as CodeUnit, 'C' as CodeUnit, 'a' as CodeUnit, 's' as CodeUnit, 'i' as CodeUnit, 'n' as CodeUnit, 'g' as CodeUnit], 0) == 1;
  }

  lemma CamelCasedAlready()
    ensures CamelCased(['c' as CodeUnit, 'a' as CodeUnit, 'm' as CodeUnit, 'e' as CodeUnit, 'l' as CodeUnit, 'C' as CodeUnit, 'a' as CodeUnit, 's' as CodeUnit, 'i' as CodeUnit, 'n' as CodeUnit, 'g' as CodeUnit]) == ['c' as CodeUnit, 'a' as CodeUnit, 'm' as CodeUnit, 'e' as CodeUnit, 'l' as CodeUnit, 'C' as CodeUnit, 'a' as CodeUnit, 's' as CodeUnit, 'i' as CodeUnit, 'n' as CodeUnit, 'g' as CodeUnit]
  {
    CamelCasedLowerStart(['c' as CodeUnit, 'a' as CodeUnit, 'm' as CodeUnit, 'e' as CodeUnit, 'l' as CodeUnit, 'C' as CodeUnit, 'a' as CodeUnit, 's' as CodeUnit, 'i' as CodeUnit, 'n' as CodeUnit, 'g' as CodeUnit]);
  }

  // ----------------------------------------------------------- indentation

  /** .NET `int` multiplication, which wraps modulo 2^32 outside a checked context. */
  function WrapInt32(x: int): (r: int)
    ensures -0x8000_0000 <= r < 0x8000_0000
    ensures (r - x) % 0x1_0000_0000 == 0
    ensures -0x8000_0000 <= x < 0x8000_0000 ==> r == x
  {
    var m := x % 0x1_0000_0000;
    if m >= 0x8000_0000 then m - 0x1_0000_0000 else m
  }

  function Spaces(n: nat): (r: Text)
    ensures |r| == n && forall k :: 0 <= k < n ==> r[k] == SPACE
  {
    seq(n, _ => SPACE)
  }

  /** `Indent(depth)`: `new string(' ', depth * 2)`, which fails when the
      count, wrapped to 32 bits, is negative: for a negative depth down to
      -2^30 and for a depth of 2^30 or more; a depth below -2^30 wraps to a
      positive count. */
  function Indent(depth: int): (r: Result<Text>)
    requires -0x8000_0000 <= depth < 0x8000_0000
    ensures 0 <= depth < 0x4000_0000 ==> r == Ok(Spaces(2 * depth))
    ensures -0x4000_0000 <= depth < 0 ==> r == Err(ArgumentOutOfRange)
    ensures 0x4000_0000 <= depth ==> r == Err(ArgumentOutOfRange)
    ensures depth < -0x4000_0000 ==> r == Ok(Spaces(2 * depth + 0x1_0000_0000))
  {
    var count := WrapInt32(depth * 2);
    assert -0x4000_0000 <= depth < 0x4000_0000 ==> count == 2 * depth;
    assert depth < -0x4000_0000 ==> count == 2 * depth + 0x1_0000_0000;
    assert 0x4000_0000 <= depth ==> count == 2 * depth - 0x1_0000_0000;
    if count < 0 then Err(ArgumentOutOfRange) else Ok(Spaces(count))
  }

  /** `LineFeedIndent(depth)`: the newline text, then `Indent(depth)`. */
  function LineFeedIndent(newLine: Text, depth: int): (r: Result<Text>)
    requires -0x8000_0000 <= depth < 0x8000_0000
    ensures r.Ok? <==> Indent(depth).Ok?
    ensures r.Ok? ==> r.value == newLine + Indent(depth).value
  {
    match Indent(depth)
    case Err(e) => Err(e)
    case Ok(spaces) => Ok(newLine + spaces)
  }
}
