/** The JSON text the tokenizers read and the escaper writes, as specification
    functions over a buffer of code units. Both parser classes are proved to
    compute these, so the two classes agree with each other by construction. */
module JsonText {
  import opened Utf16
  import opened Outcomes

  /** The tokenizer's token kinds (`Token.None` is the empty lookahead, `Option.None`). */
  datatype Token =
    | CurlyOpen | CurlyClose | SquaredOpen | SquaredClose
    | Colon | Comma | String | Number | True | False | Null

  /** The tokenizer state a parser keeps: the next index and the lookahead cache. */
  datatype Lexer = Lexer(index: nat, look: Option<Token>)

  // ---------------------------------------------------------------- tokens

  /** The only code units the tokenizer skips. */
  predicate IsWhitespace(c: CodeUnit) {
    c == SPACE || c == TAB || c == LF || c == CR
  }

  /** The first index at or after `i` that is not whitespace, or `|json|`. */
  function SkipWhitespace(json: Text, i: nat): (j: nat)
    requires i <= |json|
    ensures i <= j <= |json|
    ensures forall k :: i <= k < j ==> IsWhitespace(json[k])
    ensures j < |json| ==> !IsWhitespace(json[j])
    decreases |json| - i
  {
    if i < |json| && IsWhitespace(json[i]) then SkipWhitespace(json, i + 1) else i
  }

  /** The token a single code unit makes on its own: punctuation, a quote, or the start of a number. */
  function SingleUnitToken(c: CodeUnit): Option<Token> {
    if c == '{' as CodeUnit then Some(CurlyOpen)
    else if c == '}' as CodeUnit then Some(CurlyClose)
    else if c == '[' as CodeUnit then Some(SquaredOpen)
    else if c == ']' as CodeUnit then Some(SquaredClose)
    else if c == ',' as CodeUnit then Some(Comma)
    else if c == QUOTE then Some(String)
    else if IsAsciiDigit(c) || c == '-' as CodeUnit || c == '+' as CodeUnit || c == '.' as CodeUnit then Some(Number)
    else if c == ':' as CodeUnit then Some(Colon)
    else None
  }

  predicate IsKeyword(t: Token) { t == True || t == False || t == Null }

  /** The full text of a keyword token. */
  function Keyword(t: Token): Text
    requires IsKeyword(t)
  {
    match t
    case True => ['t' as CodeUnit, 'r' as CodeUnit, 'u' as CodeUnit, 'e' as CodeUnit]
    case False => ['f' as CodeUnit, 'a' as CodeUnit, 'l' as CodeUnit, 's' as CodeUnit, 'e' as CodeUnit]
    case Null => ['n' as CodeUnit, 'u' as CodeUnit, 'l' as CodeUnit, 'l' as CodeUnit]
  }

  /** The keyword a first letter announces. */
  function KeywordStartingWith(c: CodeUnit): Option<Token> {
    if c == 'f' as CodeUnit then Some(False)
    else if c == 't' as CodeUnit then Some(True)
    else if c == 'n' as CodeUnit then Some(Null)
    else None
  }

  /** The token whose first significant unit is at `j`, and the index just past it. */
  function Classify(json: Text, j: nat): (r: Result<(Token, nat)>)
    requires j < |json|
    ensures r.Ok? ==> j < r.value.1 <= |json|
  {
    var c := json[j];
    match SingleUnitToken(c)
    case Some(t) => Ok((t, j + 1))
    case None =>
      match KeywordStartingWith(c)
      case Some(t) =>
        var n := |Keyword(t)|;
        if j + n <= |json| && json[j..j + n] == Keyword(t) then Ok((t, j + n)) else Err(NoTokenAt(j))
      case None => Err(NoTokenAt(j))
  }

  /** One scan of the tokenizer from index `i`: the token and the index after it. */
  function ScanToken(json: Text, i: nat): (r: Result<(Token, nat)>)
    ensures r.Ok? ==> i < r.value.1 <= |json|
  {
    if i >= |json| then Err(IndexOutOfRange)
    else
      var j := SkipWhitespace(json, i);
      if j == |json| then Err(EndOfInput) else Classify(json, j)
  }

  /** `t` is spelled by `json[j..k]`. */
  predicate Spells(json: Text, j: nat, t: Token, k: nat) {
    j < k <= |json| &&
    if IsKeyword(t) then json[j..k] == Keyword(t)
    else k == j + 1 && SingleUnitToken(json[j]) == Some(t)
  }

  predicate AllWhitespace(json: Text, i: nat, j: nat)
    requires i <= j <= |json|
  {
    forall k :: i <= k < j ==> IsWhitespace(json[k])
  }

  lemma {:induction false} SkipWhitespaceStopsAt(json: Text, i: nat, j: nat)
    requires i <= j < |json| && AllWhitespace(json, i, j) && !IsWhitespace(json[j])
    ensures SkipWhitespace(json, i) == j
    decreases j - i
  {
    if i < j {
      SkipWhitespaceStopsAt(json, i + 1, j);
    }
  }

  lemma KeywordLetters(t: Token)
    requires IsKeyword(t)
    ensures |Keyword(t)| >= 4
    ensures SingleUnitToken(Keyword(t)[0]) == None
    ensures KeywordStartingWith(Keyword(t)[0]) == Some(t)
  {
  }

  /** A successful scan spells its token at the first significant unit. */
  lemma ScanTokenSound(json: Text, i: nat)
    requires ScanToken(json, i).Ok?
    ensures var j := SkipWhitespace(json, i);
            j < |json| && AllWhitespace(json, i, j) &&
            Spells(json, j, ScanToken(json, i).value.0, ScanToken(json, i).value.1)
  {
    var j := SkipWhitespace(json, i);
    var t := ScanToken(json, i).value.0;
    if SingleUnitToken(json[j]).None? {
      assert IsKeyword(t);
    }
  }

  /** Whitespace followed by the spelling of a token scans as that token. */
  lemma ScanTokenComplete(json: Text, i: nat, j: nat, t: Token, k: nat)
    requires i <= j < |json| && AllWhitespace(json, i, j) && Spells(json, j, t, k)
    ensures ScanToken(json, i) == Ok((t, k))
  {
    if IsKeyword(t) {
      KeywordLetters(t);
      assert json[j] == json[j..k][0];
      assert k == j + |Keyword(t)|;
    }
    SkipWhitespaceStopsAt(json, i, j);
  }

  /** Only whitespace up to the end of input fails with "Reached end of string unexpectedly". */
  lemma ScanTokenEndOfInput(json: Text, i: nat)
    requires i < |json|
    ensures ScanToken(json, i) == Err(EndOfInput) <==> AllWhitespace(json, i, |json|)
  {
  }

  /** The error names the first significant unit, which starts no token. */
  lemma ScanTokenNoToken(json: Text, i: nat, j: nat)
    requires ScanToken(json, i) == Err(NoTokenAt(j))
    ensures i <= j < |json| && AllWhitespace(json, i, j) && !IsWhitespace(json[j])
    ensures SingleUnitToken(json[j]).None?
    ensures forall t :: IsKeyword(t) ==> !Spells(json, j, t, j + |Keyword(t)|)
  {
    forall t | IsKeyword(t)
      ensures !Spells(json, j, t, j + |Keyword(t)|)
    {
      KeywordLetters(t);
      if j + |Keyword(t)| <= |json| {
        assert json[j..j + |Keyword(t)|][0] == json[j];
      }
    }
  }

  /** Reading the lookahead: the cached token, or a fresh scan that is then cached. */
  function LookAheadSpec(json: Text, st: Lexer): Result<(Token, Lexer)> {
    match st.look
    case Some(t) => Ok((t, st))
    case None =>
      match ScanToken(json, st.index)
      case Err(e) => Err(e)
      case Ok((t, k)) => Ok((t, Lexer(k, Some(t))))
  }

  /** Taking the next token: the cached one if any, else a scan; the cache ends empty. */
  function NextTokenSpec(json: Text, st: Lexer): Result<(Token, Lexer)> {
    match st.look
    case Some(t) => Ok((t, Lexer(st.index, None)))
    case None =>
      match ScanToken(json, st.index)
      case Err(e) => Err(e)
      case Ok((t, k)) => Ok((t, Lexer(k, None)))
  }

  // --------------------------------------------------------------- strings

  /** The value of one hex digit; any other unit counts as 0. */
  function HexValue(c: CodeUnit): (d: nat)
    ensures d <= 15
  {
    if '0' as CodeUnit <= c <= '9' as CodeUnit then (c - '0' as CodeUnit) as nat
    else if 'A' as CodeUnit <= c <= 'F' as CodeUnit then (c - 'A' as CodeUnit) as nat + 10
    else if 'a' as CodeUnit <= c <= 'f' as CodeUnit then (c - 'a' as CodeUnit) as nat + 10
    else 0
  }

  /** The value of one hex digit times `multiplier`; any other unit counts as 0. */
  function ParseSingleChar(c: CodeUnit, multiplier: nat): (r: nat)
    ensures r <= 15 * multiplier
  {
    ScaleBound(HexValue(c), multiplier);
    HexValue(c) * multiplier
  }

  lemma ScaleBound(d: nat, multiplier: nat)
    requires d <= 15
    ensures d * multiplier <= 15 * multiplier
  {
    assert 15 * multiplier == d * multiplier + (15 - d) * multiplier;
  }

  /** The code point of a `\uXXXX` escape, most significant digit first. */
  function ParseUnicode(c1: CodeUnit, c2: CodeUnit, c3: CodeUnit, c4: CodeUnit): (r: CodeUnit)
  {
    var p := ParseSingleChar(c1, 0x1000) + ParseSingleChar(c2, 0x100)
           + ParseSingleChar(c3, 0x10) + ParseSingleChar(c4, 1);
    p as CodeUnit
  }

  /** The upper-case hex digit for `d`. */
  function HexDigit(d: nat): CodeUnit
    requires d < 16
  {
    if d < 10 then '0' as CodeUnit + d as CodeUnit else 'A' as CodeUnit + (d - 10) as CodeUnit
  }

  lemma HexDigitValue(d: nat, m: nat)
    requires d < 16
    ensures ParseSingleChar(HexDigit(d), m) == d * m
  {
  }

  /** Four hex digits decode to the number they spell: the `\uXXXX` escape is exact. */
  lemma ParseUnicodeOfHex(a: nat, b: nat, c: nat, d: nat)
    requires a < 16 && b < 16 && c < 16 && d < 16
    ensures ParseUnicode(HexDigit(a), HexDigit(b), HexDigit(c), HexDigit(d)) as int
            == 0x1000 * a + 0x100 * b + 0x10 * c + d
  {
    HexDigitValue(a, 0x1000);
    HexDigitValue(b, 0x100);
    HexDigitValue(c, 0x10);
    HexDigitValue(d, 1);
  }

  /** What the decoder appends for the letter after a backslash (other than `u`):
      the 8 escapes of section 7 of RFC 8259, nothing for an unknown letter. */
  function Unescape(e: CodeUnit): Text {
    if e == QUOTE then [QUOTE]
    else if e == BACKSLASH then [BACKSLASH]
    else if e == SLASH then [SLASH]
    else if e == 'b' as CodeUnit then [BACKSPACE]
    else if e == 'f' as CodeUnit then [FORMFEED]
    else if e == 'n' as CodeUnit then [LF]
    else if e == 'r' as CodeUnit then [CR]
    else if e == 't' as CodeUnit then [TAB]
    else []
  }

  /** Decoding a string body from index `i` (just past the opening quote), with
      `acc` already decoded: the decoded text and the index just past the closing quote. */
  function DecodeString(json: Text, i: nat, acc: Text): (r: Result<(Text, nat)>)
    ensures r.Ok? ==> i < r.value.1 <= |json| && json[r.value.1 - 1] == QUOTE
    ensures r.Ok? ==> acc <= r.value.0
    ensures r.Err? ==> r.error == UnterminatedString
    decreases |json| - i
  {
    if i >= |json| then Err(UnterminatedString)
    else
      var c := json[i];
      if c == QUOTE then Ok((acc, i + 1))
      else if c != BACKSLASH then DecodeString(json, i + 1, acc + [c])
      else if i + 1 == |json| then Err(UnterminatedString)
      else
        var e := json[i + 1];
        if e == 'u' as CodeUnit then
          if |json| - (i + 2) < 4 then DecodeString(json, i + 2, acc)
          else DecodeString(json, i + 6, acc + [ParseUnicode(json[i + 2], json[i + 3], json[i + 4], json[i + 5])])
        else DecodeString(json, i + 2, acc + Unescape(e))
  }

  /** What is decoded does not depend on what was decoded before it. */
  lemma {:induction false} DecodeStringAccumulates(json: Text, i: nat, acc: Text)
    ensures match DecodeString(json, i, [])
            case Ok((s, k)) => DecodeString(json, i, acc) == Ok((acc + s, k))
            case Err(e) => DecodeString(json, i, acc) == Err(e)
    decreases |json| - i, 0
  {
    if i < |json| {
      var c := json[i];
      if c == QUOTE {
        assert acc + [] == acc;
      } else if c != BACKSLASH {
        assert [] + [c] == [c];
        DecodeStringShifts(json, i + 1, acc, [c]);
      } else if i + 1 < |json| {
        var e := json[i + 1];
        if e == 'u' as CodeUnit {
          if |json| - (i + 2) < 4 {
            DecodeStringAccumulates(json, i + 2, acc);
          } else {
            var u := [ParseUnicode(json[i + 2], json[i + 3], json[i + 4], json[i + 5])];
            assert [] + u == u;
            DecodeStringShifts(json, i + 6, acc, u);
          }
        } else {
          assert [] + Unescape(e) == Unescape(e);
          DecodeStringShifts(json, i + 2, acc, Unescape(e));
        }
      }
    }
  }

  /** One step of `DecodeStringAccumulates`: decoding from `acc + u` and from `u` differ by `acc`. */
  lemma {:induction false} DecodeStringShifts(json: Text, i: nat, acc: Text, u: Text)
    ensures match DecodeString(json, i, u)
            case Ok((s, k)) => DecodeString(json, i, acc + u) == Ok((acc + s, k))
            case Err(e) => DecodeString(json, i, acc + u) == Err(e)
    decreases |json| - i, 1
  {
    DecodeStringAccumulates(json, i, acc + u);
    DecodeStringAccumulates(json, i, u);
    match DecodeString(json, i, [])
    case Ok((s, k)) =>
      assert acc + u + s == acc + (u + s);
    case Err(_) =>
  }

  /** The text of the escape whose letter is at `i` (its backslash at `i - 1`)
      appended to `s`, and the index after it. A `\u` with fewer than four
      units after it appends nothing and passes only the letter. */
  function EscapeStep(json: Text, i: nat, s: Text): (r: (Text, nat))
    requires i < |json|
    ensures i < r.1 <= |json| && s <= r.0
  {
    var e := json[i];
    if e == 'u' as CodeUnit then
      if |json| - (i + 1) < 4 then (s, i + 1)
      else (s + [ParseUnicode(json[i + 1], json[i + 2], json[i + 3], json[i + 4])], i + 5)
    else (s + Unescape(e), i + 1)
  }

  /** The string loop as both parsers write it, from index `i`, with `s` copied
      so far and a run of plain units pending from `runIndex` (-1 when none).
      A run is copied as one slice when a quote or a backslash ends it, and a
      string that is one run is returned as that slice. */
  function FastDecode(json: Text, i: nat, s: Text, runIndex: int): (r: Result<(Text, nat)>)
    requires -1 <= runIndex <= i
    decreases |json| - i
  {
    if i >= |json| then Err(UnterminatedString)
    else
      match FastStep(json, i, s, runIndex)
      case Finished(r) => r
      case Running(k, s', run) => FastDecode(json, k, s', run)
  }

  /** Where one turn of the string loop leaves it. */
  datatype FastState =
    | Running(i: nat, s: Text, runIndex: int)
    | Finished(r: Result<(Text, nat)>)

  /** One turn of the string loop at the unit `json[i]`. */
  function FastStep(json: Text, i: nat, s: Text, runIndex: int): (st: FastState)
    requires -1 <= runIndex <= i < |json|
    ensures st.Running? ==> i < st.i && -1 <= st.runIndex < st.i
  {
    var c := json[i];
    if c == QUOTE then
      if runIndex == -1 then Finished(Ok((s, i + 1)))
      else if |s| == 0 then Finished(Ok((json[runIndex..i], i + 1)))
      else Finished(Ok((s + json[runIndex..i], i + 1)))
    else if c != BACKSLASH then Running(i + 1, s, if runIndex == -1 then i else runIndex)
    else if i + 1 == |json| then Finished(Err(UnterminatedString))
    else
      var flushed := if runIndex == -1 then s else s + json[runIndex..i];
      var (s', k) := EscapeStep(json, i + 1, flushed);
      Running(k, s', -1)
  }

  /** The loop of `ParseString` from `start`, just past the opening quote:
      it returns the decoded text and the index just past the closing quote,
      or fails at the end of the buffer. */
  method ScanString(json: Text, start: nat) returns (r: Result<Text>, end: nat)
    requires start <= |json|
    ensures Outcome(r, end) == FastDecode(json, start, [], -1)
    ensures r.Err? ==> end == |json|
  {
    var s: Text := [];
    var runIndex: int := -1;
    var i := start;
    while i < |json|
      invariant start <= i <= |json| && -1 <= runIndex < i
      invariant FastDecode(json, start, [], -1) == FastDecode(json, i, s, runIndex)
      decreases |json| - i
    {
      var c := json[i];
      i := i + 1;
      if c == QUOTE {
        s := FinishString(json, s, runIndex, i - 1);
        return Ok(s), i;
      }
      if c != BACKSLASH {
        if runIndex == -1 {
          runIndex := i - 1;
        }
        continue;
      }
      if i == |json| {
        break;
      }
      if runIndex != -1 {
        s := s + json[runIndex..i - 1];
        runIndex := -1;
      }
      s, i := ReadEscape(json, s, i);
    }
    return Err(UnterminatedString), |json|;
  }

  /** The switch of `ParseString` on the escape letter at `i`. */
  method ReadEscape(json: Text, s: Text, i: nat) returns (s': Text, i': nat)
    requires i < |json|
    ensures (s', i') == EscapeStep(json, i, s)
  {
    var e := json[i];
    i' := i + 1;
    if e == 'u' as CodeUnit {
      s' := s;
      if |json| - i' >= 4 {
        var codePoint := ParseUnicode(json[i'], json[i' + 1], json[i' + 2], json[i' + 3]);
        s' := s + [codePoint];
        i' := i' + 4;
      }
    } else {
      // the eight escapes of the switch; any other letter appends nothing
      s' := s + Unescape(e);
    }
  }

  /** The closing quote of the string loop at `i`: the pending run is copied
      onto `s`, or returned as it is when nothing was copied before it. */
  method FinishString(json: Text, s: Text, runIndex: int, i: nat) returns (t: Text)
    requires -1 <= runIndex <= i < |json| && json[i] == QUOTE
    ensures FastDecode(json, i, s, runIndex) == Ok((t, i + 1))
  {
    t := s;
    if runIndex != -1 {
      if |s| == 0 {
        return json[runIndex..i];
      }
      t := s + json[runIndex..i];
    }
  }

  /** The fast path decodes what appending unit by unit decodes: the loop
      state `(s, runIndex)` stands for the text `s` followed by the pending run. */
  lemma {:induction false} FastDecodeAgrees(json: Text, i: nat, s: Text, runIndex: int)
    requires -1 <= runIndex <= i <= |json|
    ensures FastDecode(json, i, s, runIndex) ==
            DecodeString(json, i, s + (if runIndex == -1 then [] else json[runIndex..i]))
    decreases |json| - i
  {
    if i < |json| {
      var c := json[i];
      if c == QUOTE {
        FastQuoteAgrees(json, i, s, runIndex);
      } else if c != BACKSLASH {
        var r := if runIndex == -1 then i else runIndex;
        FastDecodeAgrees(json, i + 1, s, r);
        FastPlainAgrees(json, i, s, runIndex);
      } else if i + 1 < |json| {
        var flushed := if runIndex == -1 then s else s + json[runIndex..i];
        var (s', k) := EscapeStep(json, i + 1, flushed);
        FastDecodeAgrees(json, k, s', -1);
        FastEscapeAgrees(json, i, s, runIndex);
      }
    }
  }

  lemma FastQuoteAgrees(json: Text, i: nat, s: Text, runIndex: int)
    requires -1 <= runIndex <= i < |json| && json[i] == QUOTE
    ensures FastDecode(json, i, s, runIndex) ==
            DecodeString(json, i, s + (if runIndex == -1 then [] else json[runIndex..i]))
  {
    var acc := s + (if runIndex == -1 then [] else json[runIndex..i]);
    assert DecodeString(json, i, acc) == Ok((acc, i + 1));
    if runIndex == -1 {
      assert acc == s;
    } else if |s| == 0 {
      assert acc == json[runIndex..i];
    }
  }

  lemma FastPlainAgrees(json: Text, i: nat, s: Text, runIndex: int)
    requires -1 <= runIndex <= i < |json| && json[i] != QUOTE && json[i] != BACKSLASH
    requires var r := if runIndex == -1 then i else runIndex;
      FastDecode(json, i + 1, s, r) == DecodeString(json, i + 1, s + json[r..i + 1])
    ensures FastDecode(json, i, s, runIndex) ==
            DecodeString(json, i, s + (if runIndex == -1 then [] else json[runIndex..i]))
  {
    var acc := s + (if runIndex == -1 then [] else json[runIndex..i]);
    var r := if runIndex == -1 then i else runIndex;
    assert FastDecode(json, i, s, runIndex) == FastDecode(json, i + 1, s, r);
    assert DecodeString(json, i, acc) == DecodeString(json, i + 1, acc + [json[i]]);
    assert json[r..i + 1] == json[r..i] + [json[i]];
    assert s + json[r..i + 1] == acc + [json[i]];
  }

  lemma FastEscapeAgrees(json: Text, i: nat, s: Text, runIndex: int)
    requires -1 <= runIndex <= i && i + 1 < |json| && json[i] == BACKSLASH
    requires var flushed := if runIndex == -1 then s else s + json[runIndex..i];
      var (s', k) := EscapeStep(json, i + 1, flushed);
      FastDecode(json, k, s', -1) == DecodeString(json, k, s' + [])
    ensures FastDecode(json, i, s, runIndex) ==
            DecodeString(json, i, s + (if runIndex == -1 then [] else json[runIndex..i]))
  {
    var flushed := if runIndex == -1 then s else s + json[runIndex..i];
    var (s', k) := EscapeStep(json, i + 1, flushed);
    assert flushed == s + (if runIndex == -1 then [] else json[runIndex..i]);
    FastEscapeStep(json, i, s, runIndex);
    DecodeEscapeStep(json, i, flushed);
    assert s' + [] == s';
  }

  /** The string loop at a backslash flushes the pending run and takes one escape step. */
  lemma FastEscapeStep(json: Text, i: nat, s: Text, runIndex: int)
    requires -1 <= runIndex <= i && i + 1 < |json| && json[i] == BACKSLASH
    ensures var (s', k) := EscapeStep(json, i + 1, if runIndex == -1 then s else s + json[runIndex..i]);
      FastDecode(json, i, s, runIndex) == FastDecode(json, k, s', -1)
  {
  }

  /** Decoding at a backslash takes one escape step. */
  lemma DecodeEscapeStep(json: Text, i: nat, acc: Text)
    requires i + 1 < |json| && json[i] == BACKSLASH
    ensures var (s', k) := EscapeStep(json, i + 1, acc);
      DecodeString(json, i, acc) == DecodeString(json, k, s')
  {
  }

  // -------------------------------------------------------------- escaping

  /** The code units the serializer escapes, in the order the library lists them. */
  const CharsToEscape: Text := [QUOTE, BACKSLASH, CR, LF, TAB, SLASH, BACKSPACE, FORMFEED]

  predicate IsEscapable(c: CodeUnit) {
    c == QUOTE || c == BACKSLASH || c == CR || c == LF || c == TAB || c == SLASH
    || c == BACKSPACE || c == FORMFEED
  }

  lemma EscapableListed(c: CodeUnit)
    ensures IsEscapable(c) <==> c in CharsToEscape
  {
  }

  /** The letter written after the backslash for an escapable unit. */
  function EscapeLetter(c: CodeUnit): CodeUnit
    requires IsEscapable(c)
  {
    if c == QUOTE then QUOTE
    else if c == BACKSLASH then BACKSLASH
    else if c == CR then 'r' as CodeUnit
    else if c == LF then 'n' as CodeUnit
    else if c == TAB then 't' as CodeUnit
    else if c == SLASH then SLASH
    else if c == BACKSPACE then 'b' as CodeUnit
    else 'f' as CodeUnit
  }

  /** How one unit is written inside a quoted JSON string. */
  function EscapeUnit(c: CodeUnit): Text {
    if IsEscapable(c) then [BACKSLASH, EscapeLetter(c)] else [c]
  }

  /** The body of a quoted JSON string: each unit written through `EscapeUnit`, in order. */
  function Escaped(s: Text): Text {
    if s == [] then [] else EscapeUnit(s[0]) + Escaped(s[1..])
  }

  /** A quoted JSON string: the escaped body between two quotes. */
  function Quoted(s: Text): (q: Text)
    ensures |q| == |Escaped(s)| + 2 && q[0] == QUOTE && q[|q| - 1] == QUOTE
  {
    [QUOTE] + Escaped(s) + [QUOTE]
  }

  /** What the escapers write: the 4-unit text `null` for a null string, else the quoted string. */
  function EscapedOrNull(input: Option<Text>): (r: Text)
    ensures input.None? ==> r == Keyword(Null)
    ensures input.Some? ==> r == Quoted(input.value)
  {
    if input.None? then Keyword(Null) else Quoted(input.value)
  }

  lemma {:induction false} EscapedConcat(a: Text, b: Text)
    ensures Escaped(a + b) == Escaped(a) + Escaped(b)
    decreases |a|
  {
    if a == [] {
      assert a + b == b;
    } else {
      assert (a + b)[1..] == a[1..] + b;
      EscapedConcat(a[1..], b);
    }
  }

  /** Text with nothing to escape is written unchanged. */
  lemma {:induction false} EscapedPlain(s: Text)
    requires forall k :: 0 <= k < |s| ==> !IsEscapable(s[k])
    ensures Escaped(s) == s
  {
    if s != [] {
      EscapedPlain(s[1..]);
    }
  }

  /** Decoding undoes escaping: the letter the escaper writes decodes to the unit it stood for. */
  lemma UnescapeEscapeLetter(c: CodeUnit)
    requires IsEscapable(c)
    ensures EscapeLetter(c) != 'u' as CodeUnit
    ensures Unescape(EscapeLetter(c)) == [c]
  {
  }

  /** `json` holds `t` from index `i` on. */
  predicate At(json: Text, i: nat, t: Text) {
    i + |t| <= |json| && json[i..i + |t|] == t
  }

  lemma AtSplit(json: Text, i: nat, t: Text, u: Text)
    requires At(json, i, t + u)
    ensures At(json, i, t) && At(json, i + |t|, u)
  {
    assert json[i..i + |t|] == (t + u)[..|t|];
    assert json[i + |t|..i + |t| + |u|] == (t + u)[|t|..];
  }

  /** `AtSplit` for a text known to equal the concatenation. */
  lemma AtSplitEq(json: Text, i: nat, whole: Text, t: Text, u: Text)
    requires At(json, i, whole) && whole == t + u
    ensures At(json, i, t) && At(json, i + |t|, u) && |whole| == |t| + |u|
  {
    AtSplit(json, i, t, u);
  }

  /** One escaped unit, followed by more input, decodes to that unit. */
  lemma DecodeEscapedUnit(json: Text, i: nat, c: CodeUnit, acc: Text)
    requires At(json, i, EscapeUnit(c)) && i + |EscapeUnit(c)| < |json|
    ensures DecodeString(json, i, acc) == DecodeString(json, i + |EscapeUnit(c)|, acc + [c])
  {
    assert json[i] == EscapeUnit(c)[0];
    if IsEscapable(c) {
      UnescapeEscapeLetter(c);
      assert json[i + 1] == EscapeUnit(c)[1];
    }
  }

  /** The round trip: the decoder reads an escaped body followed by a quote back
      to the original text, and stops just past that quote, whatever surrounds it. */
  lemma {:induction false} DecodeEscaped(json: Text, i: nat, s: Text, acc: Text)
    requires At(json, i, Escaped(s) + [QUOTE])
    ensures DecodeString(json, i, acc) == Ok((acc + s, i + |Escaped(s)| + 1))
    decreases |s|
  {
    if s == [] {
      DecodeAtQuote(json, i, s, acc);
    } else {
      var n := DecodeEscapedFirst(json, i, s, acc);
      DecodeEscaped(json, i + n, s[1..], acc + [s[0]]);
      DecodeEscapedStep(json, i, n, s, acc);
    }
  }

  /** The decoding of a nonempty body is the decoding of its first unit followed by that of the rest. */
  lemma DecodeEscapedStep(json: Text, i: nat, n: nat, s: Text, acc: Text)
    requires s != [] && |Escaped(s)| == n + |Escaped(s[1..])|
    requires DecodeString(json, i, acc) == DecodeString(json, i + n, acc + [s[0]])
    requires DecodeString(json, i + n, acc + [s[0]]) == Ok((acc + [s[0]] + s[1..], i + n + |Escaped(s[1..])| + 1))
    ensures DecodeString(json, i, acc) == Ok((acc + s, i + |Escaped(s)| + 1))
  {
    AppendFirst(acc, s);
  }

  /** A closing quote ends the decoding with what was decoded so far. */
  lemma DecodeAtQuote(json: Text, i: nat, s: Text, acc: Text)
    requires s == [] && At(json, i, Escaped(s) + [QUOTE])
    ensures DecodeString(json, i, acc) == Ok((acc + s, i + |Escaped(s)| + 1))
  {
    assert json[i] == (Escaped(s) + [QUOTE])[0];
    assert acc + s == acc;
  }

  /** The first unit of an escaped body decodes to itself and leaves the rest
      of the body, still followed by its quote. */
  lemma DecodeEscapedFirst(json: Text, i: nat, s: Text, acc: Text) returns (n: nat)
    requires s != [] && At(json, i, Escaped(s) + [QUOTE])
    ensures n == |EscapeUnit(s[0])|
    ensures
      && At(json, i + n, Escaped(s[1..]) + [QUOTE])
      && |Escaped(s)| == n + |Escaped(s[1..])|
      && DecodeString(json, i, acc) == DecodeString(json, i + n, acc + [s[0]])
  {
    var c, tail := s[0], Escaped(s[1..]);
    assert Escaped(s) + [QUOTE] == EscapeUnit(c) + (tail + [QUOTE]);
    AtSplit(json, i, EscapeUnit(c), tail + [QUOTE]);
    DecodeEscapedUnit(json, i, c, acc);
    n := |EscapeUnit(c)|;
  }

  lemma AppendFirst(acc: Text, s: Text)
    requires s != []
    ensures acc + [s[0]] + s[1..] == acc + s
  {
  }

  /** A quoted string, whatever follows it, decodes from just past its opening
      quote to its original text and stops just past its closing quote. */
  lemma DecodeQuoted(s: Text, post: Text)
    ensures DecodeString(Quoted(s) + post, 1, []) == Ok((s, |Quoted(s)|))
  {
    var json := Quoted(s) + post;
    assert json[1..1 + |Escaped(s) + [QUOTE]|] == Escaped(s) + [QUOTE];
    DecodeEscaped(json, 1, s, []);
    assert [] + s == s;
  }

  // --------------------------------------------------------------- numbers

  /** The units a number span may contain. */
  predicate IsNumberUnit(c: CodeUnit) {
    IsAsciiDigit(c) || c == '.' as CodeUnit || c == '-' as CodeUnit || c == '+' as CodeUnit
    || c == 'e' as CodeUnit || c == 'E' as CodeUnit
  }

  /** The end of the run of number units starting at `i`, the first index that is not one. */
  function ScanNumber(json: Text, i: nat): (r: Result<nat>)
    ensures r.Ok? ==> i <= r.value < |json| && !IsNumberUnit(json[r.value])
    ensures r.Ok? ==> forall k :: i <= k < r.value ==> IsNumberUnit(json[k])
    ensures r == Err(UnterminatedNumber) ==> i < |json| && forall k :: i <= k < |json| ==> IsNumberUnit(json[k])
    ensures r.Err? ==> r.error == UnterminatedNumber || (r.error == IndexOutOfRange && i >= |json|)
    decreases |json| - i
  {
    if i >= |json| then Err(IndexOutOfRange)
    else if IsNumberUnit(json[i]) then
      if i + 1 == |json| then Err(UnterminatedNumber) else ScanNumber(json, i + 1)
    else Ok(i)
  }
}
