/** What decoding a value means, as specification functions over the JSON
    text: lists, objects, and the per-property read steps. The parser classes
    are proved to compute these. The lookahead cache is always empty at the
    head of a list or object loop, so the loops are stated over an index. */
module Decoding {
  import opened Utf16
  import opened Outcomes
  import opened JsonText
  import opened Dispatch
  import opened PropertyParsing

  /** A decoded value. Number conversion and date/time parsing are outside
      the model: a number is its raw span, a date or time its text. */
  datatype Value =
    | Str(text: Text)
    | Num(span: Text)
    | Arr(items: seq<Value>)
    | Obj(assignments: seq<(Text, Value)>)   // the property setters that ran, in order
    | Nullable(maybe: Option<Text>)

  /** The try-parse delegate `ParseNullable` is handed for the underlying type,
      reduced to whether the text converts; host conversion is outside the model. */
  type TryParse = (TypeDesc, Text) -> bool

  /** The parser class a decode runs on. The compiled property steps call its
      methods by name: `ChasonParser` has the readers of its 28-entry table and
      `ParseNullable` (given the try-parse delegates); `JsonParser` has only the
      readers of the 8-entry table and no `ParseNullable`. */
  datatype ParserClass = OnChasonParser(tryParse: TryParse) | OnJsonParser

  /** The class has a reader for the primitive and for arrays of it. */
  predicate HasReader(cls: ParserClass, p: Prim) {
    if cls.OnChasonParser? then InChasonTable(p) else InPropertyTable(p)
  }

  /** The parse-list registry: for each type with a built `PropertyParseList`, its dictionary. */
  type Registry = map<TypeDesc, map<Text, PropertyParser>>

  /** The dictionaries of the parse lists the decoder may consult. */
  function RegistryOf(plans: map<TypeDesc, PropertyParseList>): Registry {
    map t | t in plans :: plans[t].setters
  }

  /** Every parse list in the registry keeps its invariant. */
  ghost predicate ValidPlans(plans: map<TypeDesc, PropertyParseList>)
    reads plans.Values
  {
    forall p :: p in plans.Values ==> p.Valid()
  }

  /** `ParseNumber` from index `i` (cache consumed): the span from the unit that
      produced the `Number` token, `i - 1`, to the end of the run of number units. */
  function NumberSpan(json: Text, i: nat): (r: Result<(Text, nat)>)
    ensures r.Ok? ==> 0 < i <= r.value.1 < |json| && r.value.0 == json[i - 1..r.value.1]
    ensures r.Ok? ==> forall k :: i <= k < r.value.1 ==> IsNumberUnit(json[k])
    ensures r.Ok? ==> !IsNumberUnit(json[r.value.1])
  {
    match ScanNumber(json, i)
    case Err(e) => Err(e)
    case Ok(end) => if i == 0 then Err(ArgumentOutOfRange) else Ok((json[i - 1..end], end))
  }

  /** Reading one array element from index `i`, with the lookahead already consumed. */
  function ReadElement(json: Text, i: nat, reader: ElementReader): (r: Result<(Value, nat)>)
    ensures r.Ok? ==> i <= r.value.1 <= |json|
  {
    match reader
    case ReadText =>
      (match DecodeString(json, i, [])
       case Err(e) => Err(e)
       case Ok((s, k)) => Ok((Str(s), k)))
    case ReadNumber =>
      (match NumberSpan(json, i)
       case Err(e) => Err(e)
       case Ok((s, k)) => Ok((Num(s), k)))
    case ReadTimeZone => Err(NotSupported)
  }

  /** The loop of `ParseList` from index `i` with `acc` read so far: commas are
      skipped, `]` ends the list, any other token starts an element. */
  function ListLoop(json: Text, i: nat, reader: ElementReader, acc: seq<Value>): (r: Result<(seq<Value>, nat)>)
    ensures r.Ok? ==> i < r.value.1 <= |json| && acc <= r.value.0
    ensures r.Ok? ==> ClosedAt(json, r.value.1)
    decreases |json| - i
  {
    match ScanToken(json, i)
    case Err(e) => Err(e)
    case Ok((t, k)) =>
      if t == Comma then ListLoop(json, k, reader, acc)
      else if t == SquaredClose then
        ScanCloseEnds(json, i, k);
        Ok((acc, k))
      else
        match ReadElement(json, k, reader)
        case Err(e) => Err(e)
        case Ok((v, k2)) => ListLoop(json, k2, reader, acc + [v])
  }

  /** The unit just before index `k` is a `]`. */
  predicate ClosedAt(json: Text, k: nat) {
    0 < k <= |json| && json[k - 1] == ']' as CodeUnit
  }

  /** A scanned `]` is the unit just before the index the scan leaves. */
  lemma ScanCloseEnds(json: Text, i: nat, k: nat)
    requires ScanToken(json, i) == Ok((SquaredClose, k))
    ensures ClosedAt(json, k)
  {
    ScanTokenSound(json, i);
  }

  /** An empty list: whitespace, then `]`, ends the loop just past the `]`
      with nothing added to what was read. */
  lemma ListLoopStopsAtClose(json: Text, i: nat, j: nat, reader: ElementReader, acc: seq<Value>)
    requires i <= j < |json| && AllWhitespace(json, i, j) && json[j] == ']' as CodeUnit
    ensures ListLoop(json, i, reader, acc) == Ok((acc, j + 1))
  {
    ScanTokenComplete(json, i, j, SquaredClose, j + 1);
  }

  /** A `]` token ends the loop with nothing added to what was read. */
  lemma ListLoopScansClose(json: Text, i: nat, k: nat, reader: ElementReader, acc: seq<Value>)
    requires ScanToken(json, i) == Ok((SquaredClose, k))
    ensures ListLoop(json, i, reader, acc) == Ok((acc, k))
  {
  }

  /** The list loop reads one element after a token that neither separates
      nor closes, and goes on from where the element ends. */
  lemma ListLoopTakesElement(json: Text, i: nat, t: Token, k: nat, reader: ElementReader, v: Value, k2: nat, acc: seq<Value>)
    requires ScanToken(json, i) == Ok((t, k)) && t != Comma && t != SquaredClose
    requires ReadElement(json, k, reader) == Ok((v, k2))
    ensures ListLoop(json, i, reader, acc) == ListLoop(json, k2, reader, acc + [v])
  {
  }

  function Measure(json: Text, i: nat): nat {
    if i <= |json| then |json| - i else 0
  }

  /** `ParseObject<T>`: the parse list of `t` must exist, the lookahead must be
      `{`, then the member loop runs. */
  function ObjectSpec(json: Text, st: Lexer, t: TypeDesc, reg: Registry, cls: ParserClass): (r: Result<(Value, nat)>)
    requires st.index <= |json|
    ensures r.Ok? ==> st.index <= r.value.1 <= |json|
    decreases Measure(json, st.index), 1
  {
    if t !in reg then Err(TypeInitialization)
    else
      match LookAheadSpec(json, st)
      case Err(e) => Err(e)
      case Ok((tok, st1)) =>
        if tok != CurlyOpen then Err(ExpectedCurlyOpen(st1.index))
        else ObjectLoop(json, st1.index, t, reg, cls, [])
  }

  /** The member loop of `ParseObject<T>` from index `i`: commas are skipped,
      `}` ends the object, any other token starts a member. */
  function ObjectLoop(json: Text, i: nat, t: TypeDesc, reg: Registry, cls: ParserClass, acc: seq<(Text, Value)>): (r: Result<(Value, nat)>)
    requires t in reg
    ensures r.Ok? ==> i < r.value.1 <= |json|
    decreases Measure(json, i), 0
  {
    match ScanToken(json, i)
    case Err(e) => Err(e)
    case Ok((tok, k)) =>
      if tok == Comma then ObjectLoop(json, k, t, reg, cls, acc)
      else if tok == CurlyClose then Ok((Obj(acc), k))
      else
        match MemberSpec(json, k, t, reg, cls)
        case Err(e) => Err(e)
        case Ok((m, k2)) => ObjectLoop(json, k2, t, reg, cls, acc + [m])
  }

  /** One member from index `k`, just past its first token: the key is read
      as a string whatever that token was, a colon must follow, the value's
      first token is looked at, and the parser registered under the key runs. */
  function MemberSpec(json: Text, k: nat, t: TypeDesc, reg: Registry, cls: ParserClass): (r: Result<((Text, Value), nat)>)
    requires t in reg
    ensures r.Ok? ==> k < r.value.1 <= |json|
    decreases Measure(json, k), 3
  {
    match DecodeString(json, k, [])
    case Err(e) => Err(e)
    case Ok((name, k2)) =>
      match ScanToken(json, k2)
      case Err(e) => Err(e)
      case Ok((colon, k3)) =>
        if colon != Colon then Err(ExpectedColon(k3))
        else
          match ScanToken(json, k3)
          case Err(e) => Err(e)
          case Ok((vt, k4)) =>
            if name !in reg[t] then Err(KeyNotFound(name))
            else
              match RunStep(json, Lexer(k4, Some(vt)), reg[t][name].step, reg, cls)
              case Err(e) => Err(e)
              case Ok((v, k5)) => Ok(((name, v), k5))
  }

  /** Running a property's parse step with the value's first token in the lookahead. */
  function RunStep(json: Text, st: Lexer, m: ParseMethod, reg: Registry, cls: ParserClass): (r: Result<(Value, nat)>)
    requires st.index <= |json|
    ensures r.Ok? ==> st.index <= r.value.1 <= |json|
    decreases Measure(json, st.index), 2
  {
    match m
    case ParseScalar(p) =>
      if !HasReader(cls, p) then Err(InvalidOperation)
      else ReadElement(json, st.index, ReaderFor(p))
    case ParseScalarArray(p) =>
      if !HasReader(cls, p) then Err(InvalidOperation)
      else
        (match ListLoop(json, st.index, ReaderFor(p), [])
         case Err(e) => Err(e)
         case Ok((vs, k)) => Ok((Arr(vs), k)))
    case ParseNullable(u) =>
      (match cls
       case OnJsonParser => Err(InvalidOperation)
       case OnChasonParser(tryParse) => NullableSpec(json, st, u, tryParse))
    case ParseObject(ot) => ObjectSpec(json, st, ot, reg, cls)
  }

  /** What `ParseNullable` returns for the text it read: the value when the
      try-parse delegate accepts it, null otherwise. */
  function TryParsed(u: TypeDesc, s: Text, tryParse: TryParse): (v: Value)
    ensures v.Nullable? && (v.maybe.Some? <==> tryParse(u, s))
    ensures v.maybe.Some? ==> v.maybe.value == s
  {
    Nullable(if tryParse(u, s) then Some(s) else None)
  }

  /** `ParseNullable` as it should read: `null` gives null; a number's span,
      the word `true` or `false`, and a string's text go to the try-parse
      delegate. */
  function NullableSpec(json: Text, st: Lexer, u: TypeDesc, tryParse: TryParse): (r: Result<(Value, nat)>)
    requires st.index <= |json|
    ensures r.Ok? ==> st.index <= r.value.1 <= |json| && r.value.0.Nullable?
  {
    match LookAheadSpec(json, st)
    case Err(e) => Err(e)
    case Ok((tok, st1)) =>
      if tok == Null then Ok((Nullable(None), st1.index))
      else if tok == Number then
        (match NumberSpan(json, st1.index)
         case Err(e) => Err(e)
         case Ok((s, k)) => Ok((TryParsed(u, s, tryParse), k)))
      else if tok == True || tok == False then Ok((TryParsed(u, Keyword(tok), tryParse), st1.index))
      else
        (match DecodeString(json, st1.index, [])
         case Err(e) => Err(e)
         case Ok((s, k)) => Ok((TryParsed(u, s, tryParse), k)))
  }

  /** `ParseNullable` as written: whatever the token, the text is read by
      `ParseString` from the index the token scan left. */
  function NullableAsWritten(json: Text, st: Lexer, u: TypeDesc, tryParse: TryParse): (r: Result<(Value, nat)>)
    ensures r.Ok? ==> st.index < r.value.1 <= |json| && json[r.value.1 - 1] == QUOTE && r.value.0.Nullable?
    ensures r.Err? ==> r.error == UnterminatedString
  {
    match DecodeString(json, st.index, [])
    case Err(e) => Err(e)
    case Ok((s, k)) => Ok((TryParsed(u, s, tryParse), k))
  }

  /** The discrepancy: on `5}` with the `Number` token of the `5` in the
      lookahead, the code as written reads a string from the `}` and runs off
      the end, where the token-directed reading passes the span `5` to the
      try-parse delegate. */
  lemma NullableMisreadsNumber(u: TypeDesc, tryParse: TryParse)
    ensures NullableAsWritten(['5' as CodeUnit, '}' as CodeUnit], Lexer(1, Some(Number)), u, tryParse) == Err(UnterminatedString)
    ensures NullableSpec(['5' as CodeUnit, '}' as CodeUnit], Lexer(1, Some(Number)), u, tryParse) ==
            Ok((TryParsed(u, ['5' as CodeUnit], tryParse), 1))
  {
    var json: Text := ['5' as CodeUnit, '}' as CodeUnit];
    assert json[0..1] == ['5' as CodeUnit];
  }

  /** The same discrepancy for a boolean: on `true}` with the `True` token in
      the lookahead, the code as written reads a string from the `}` and runs
      off the end, where the token-directed reading passes the word `true`
      to the try-parse delegate and leaves the index after it. */
  lemma {:induction false} NullableMisreadsBoolean(u: TypeDesc, tryParse: TryParse)
    ensures NullableAsWritten(['t' as CodeUnit, 'r' as CodeUnit, 'u' as CodeUnit, 'e' as CodeUnit, '}' as CodeUnit],
                              Lexer(4, Some(True)), u, tryParse) == Err(UnterminatedString)
    ensures NullableSpec(['t' as CodeUnit, 'r' as CodeUnit, 'u' as CodeUnit, 'e' as CodeUnit, '}' as CodeUnit],
                         Lexer(4, Some(True)), u, tryParse) ==
            Ok((TryParsed(u, ['t' as CodeUnit, 'r' as CodeUnit, 'u' as CodeUnit, 'e' as CodeUnit], tryParse), 4))
  {
  }
}
