/** The writer half of `ChasonSerializer<T>`: the string escaper, the key
    text before each property, and the ordered list of writes `WriteObject`
    yields. The library compiles that list into a delegate; here the list is
    kept as data and `Render` gives the text the compiled delegate writes. */
module Serializing {
  import opened Utf16
  import opened Outcomes
  import opened JsonText
  import opened Dispatch
  import opened Reflect
  import opened StringExtensions
  import opened PropertyParsing
  import opened Decoding
  import Settings
  import ReadOnlyHashSets
  import ReadOnlyDictionaries
  import TypeNames

  const COMMA: CodeUnit := ',' as CodeUnit
  const COLON: CodeUnit := ':' as CodeUnit
  const OPEN_OBJECT: Text := ['{' as CodeUnit]
  const CLOSE_OBJECT: Text := ['}' as CodeUnit]

  /** `ChasonSerializer.EscapeString`, whose body is the same code as
      `StringExtensions.JsonEscapeString` over the same eight units. */
  method EscapeString(input: Option<Text>) returns (r: Text)
    ensures r == EscapedOrNull(input)
  {
    r := JsonEscapeString(input);
  }

  /** One write of the compiled writer. */
  datatype WriteStep =
    | WriteConstant(text: Text)           // a fixed text: a brace or a key
    | WriteString(property: MemberInfo)   // the property's string through `EscapeString`
    | WriteLiteral(property: MemberInfo)  // the property's value through `TextWriter.Write`

  /** The key text before a value: `"name":`, preceded by a comma unless the
      member is the first. The name is written as it is, unescaped. */
  function WriteStartProperty(m: MemberContractMap, first: bool): Text {
    Separator(first) + KeyText(ContractName(m))
  }

  function Separator(first: bool): Text {
    if first then [] else [COMMA]
  }

  function KeyText(name: Text): Text {
    [QUOTE] + name + [QUOTE, COLON]
  }

  /** The members the writer visits: public instance properties with a
      `[DataMember]`, ordered by name, then by order. */
  function WriterMembers(t: TypeInfo): seq<MemberContractMap> {
    Sort(ByNameThenOrder, DataMemberRows(t.properties))
  }

  /** Fields are never written and `[NonDataMember]` is not consulted: every
      property carrying `[DataMember]` is written, once per row, in name order. */
  lemma WriterMembersSpec(t: TypeInfo)
    ensures Sorted(ByNameThenOrder, WriterMembers(t))
    ensures multiset(WriterMembers(t)) == multiset(DataMemberRows(t.properties))
    ensures forall r :: r in WriterMembers(t) <==> r.member in t.properties && r.member.dataMember == Some(r.contract)
  {
    SortSorted(ByNameThenOrder, DataMemberRows(t.properties));
    forall r
      ensures r in WriterMembers(t) <==> r in DataMemberRows(t.properties)
    {
      assert r in WriterMembers(t) <==> r in multiset(WriterMembers(t));
    }
  }

  /** A string property is written through the escaper, any other through a literal write. */
  function ValueStep(p: MemberInfo): WriteStep {
    if MemberType(p) == Scalar(Prim.String) then WriteString(p) else WriteLiteral(p)
  }

  /** The key and value writes of the members in turn. */
  function MemberSteps(ms: seq<MemberContractMap>, first: bool): seq<WriteStep>
    decreases |ms|
  {
    if ms == [] then []
    else [WriteConstant(WriteStartProperty(ms[0], first)), ValueStep(ms[0].member)] + MemberSteps(ms[1..], false)
  }

  /** The writes of an object: an opening brace, the members, a closing brace. */
  function ObjectSteps(t: TypeInfo): seq<WriteStep> {
    [WriteConstant(OPEN_OBJECT)] + MemberSteps(WriterMembers(t), true) + [WriteConstant(CLOSE_OBJECT)]
  }

  lemma {:induction false} MemberStepsShape(ms: seq<MemberContractMap>, first: bool)
    ensures |MemberSteps(ms, first)| == 2 * |ms|
    ensures forall k :: 0 <= k < |ms| ==>
      MemberSteps(ms, first)[2 * k] == WriteConstant(WriteStartProperty(ms[k], first && k == 0)) &&
      MemberSteps(ms, first)[2 * k + 1] == ValueStep(ms[k].member)
    decreases |ms|
  {
    if ms != [] {
      MemberStepsShape(ms[1..], false);
      forall k | 1 <= k < |ms|
        ensures MemberSteps(ms, first)[2 * k] == MemberSteps(ms[1..], false)[2 * (k - 1)]
        ensures MemberSteps(ms, first)[2 * k + 1] == MemberSteps(ms[1..], false)[2 * (k - 1) + 1]
      {
      }
    }
  }

  /** The step list `WriteObject` yields, position by position: `{`, then for
      member k its key (comma-free only for the first) and its value write, then `}`. */
  lemma ObjectStepsShape(t: TypeInfo)
    ensures var ms, r := WriterMembers(t), ObjectSteps(t);
      && |r| == 2 * |ms| + 2
      && r[0] == WriteConstant(OPEN_OBJECT) && r[|r| - 1] == WriteConstant(CLOSE_OBJECT)
      && forall k :: 0 <= k < |ms| ==>
           r[2 * k + 1] == WriteConstant(WriteStartProperty(ms[k], k == 0)) && r[2 * k + 2] == ValueStep(ms[k].member)
  {
    var ms := WriterMembers(t);
    MemberStepsShape(ms, true);
    var r := ObjectSteps(t);
    forall k | 0 <= k < |ms|
      ensures r[2 * k + 1] == MemberSteps(ms, true)[2 * k] && r[2 * k + 2] == MemberSteps(ms, true)[2 * k + 1]
    {
    }
  }

  lemma {:induction false} MemberStepsSnoc(ms: seq<MemberContractMap>, m: MemberContractMap, first: bool)
    ensures MemberSteps(ms + [m], first) ==
      MemberSteps(ms, first) + [WriteConstant(WriteStartProperty(m, first && ms == [])), ValueStep(m.member)]
    decreases |ms|
  {
    if ms == [] {
      assert [m][1..] == [];
    } else {
      assert (ms + [m])[1..] == ms[1..] + [m];
      MemberStepsSnoc(ms[1..], m, false);
    }
  }

  /** `WriteObject`: yields `{`, then for each member its key write (with the
      `first` flag cleared after the first member) and its value write, then `}`. */
  method WriteObject(t: TypeInfo) returns (steps: seq<WriteStep>)
    ensures steps == ObjectSteps(t)
  {
    var members := WriterMembers(t);
    var first := true;
    steps := [WriteConstant(OPEN_OBJECT)];
    for i := 0 to |members|
      invariant first <==> i == 0
      invariant steps == [WriteConstant(OPEN_OBJECT)] + MemberSteps(members[..i], true)
    {
      var m := members[i];
      MemberStepsSnoc(members[..i], m, true);
      assert members[..i + 1] == members[..i] + [m];
      steps := steps + [WriteConstant(WriteStartProperty(m, first))];
      if MemberType(m.member) == Scalar(Prim.String) {
        steps := steps + [WriteString(m.member)];
      } else {
        steps := steps + [WriteLiteral(m.member)];
      }
      first := false;
    }
    assert members[..|members|] == members;
    steps := steps + [WriteConstant(CLOSE_OBJECT)];
  }

  // ------------------------------------------------------------- rendering

  /** What one write emits, given each property's string value (`None` for
      null) and the text `TextWriter.Write` gives each other property's value. */
  function RenderStep(s: WriteStep, strings: MemberInfo -> Option<Text>, literal: MemberInfo -> Text): Text {
    match s
    case WriteConstant(text) => text
    case WriteString(p) => EscapedOrNull(strings(p))
    case WriteLiteral(p) => literal(p)
  }

  /** The text the writes emit, in order. */
  function Render(steps: seq<WriteStep>, strings: MemberInfo -> Option<Text>, literal: MemberInfo -> Text): Text
    decreases |steps|
  {
    if steps == [] then [] else RenderStep(steps[0], strings, literal) + Render(steps[1..], strings, literal)
  }

  lemma RenderMemberSteps(ms: seq<MemberContractMap>, first: bool, strings: MemberInfo -> Option<Text>, literal: MemberInfo -> Text)
    requires ms != []
    ensures Render(MemberSteps(ms, first), strings, literal) ==
      WriteStartProperty(ms[0], first) + RenderStep(ValueStep(ms[0].member), strings, literal)
      + Render(MemberSteps(ms[1..], false), strings, literal)
  {
    var key := WriteConstant(WriteStartProperty(ms[0], first));
    var value := ValueStep(ms[0].member);
    var rest := MemberSteps(ms[1..], false);
    RenderTwo(key, value, rest, strings, literal);
  }

  lemma RenderTwo(a: WriteStep, b: WriteStep, rest: seq<WriteStep>, strings: MemberInfo -> Option<Text>, literal: MemberInfo -> Text)
    ensures Render([a, b] + rest, strings, literal) ==
      RenderStep(a, strings, literal) + RenderStep(b, strings, literal) + Render(rest, strings, literal)
  {
    var steps := [a, b] + rest;
    assert steps[1..] == [b] + rest;
    assert steps[1..][1..] == rest;
  }

  lemma RenderObjectSteps(t: TypeInfo, strings: MemberInfo -> Option<Text>, literal: MemberInfo -> Text)
    ensures Render(ObjectSteps(t), strings, literal) ==
      OPEN_OBJECT + Render(MemberSteps(WriterMembers(t), true), strings, literal) + CLOSE_OBJECT
  {
    var inner := MemberSteps(WriterMembers(t), true);
    var close := [WriteConstant(CLOSE_OBJECT)];
    var steps := ObjectSteps(t);
    assert steps == [WriteConstant(OPEN_OBJECT)] + (inner + close);
    assert steps[1..] == inner + close;
    RenderConcat(inner, close, strings, literal);
    assert Render(close, strings, literal) == CLOSE_OBJECT + Render(close[1..], strings, literal);
  }

  lemma {:induction false} RenderConcat(a: seq<WriteStep>, b: seq<WriteStep>, strings: MemberInfo -> Option<Text>, literal: MemberInfo -> Text)
    ensures Render(a + b, strings, literal) == Render(a, strings, literal) + Render(b, strings, literal)
    decreases |a|
  {
    if a == [] {
      assert a + b == b;
    } else {
      assert (a + b)[1..] == a[1..] + b;
      RenderConcat(a[1..], b, strings, literal);
    }
  }

  // ------------------------------------------------------------ round trip

  /** Members the reader can read back as written: non-null string properties
      whose names contain no unit the writer would have had to escape, each
      registered with the reader under its name as a string property. */
  predicate ReadableStrings(ms: seq<MemberContractMap>, strings: MemberInfo -> Option<Text>, td: TypeDesc, reg: Registry)
    requires td in reg
  {
    forall m :: m in ms ==>
      && MemberType(m.member) == Scalar(Prim.String)
      && strings(m.member).Some?
      && (forall k :: 0 <= k < |ContractName(m)| ==> !IsEscapable(ContractName(m)[k]))
      && ContractName(m) in reg[td]
      && reg[td][ContractName(m)].step == ParseScalar(Prim.String)
  }

  /** The property assignments the reader performs for the written members. */
  function Assignments(ms: seq<MemberContractMap>, strings: MemberInfo -> Option<Text>): seq<(Text, Value)>
    decreases |ms|
  {
    if ms == [] then [] else [(ContractName(ms[0]), Str(strings(ms[0].member).GetOr([])))] + Assignments(ms[1..], strings)
  }

  /** A single-unit token with no whitespace before it is scanned in place. */
  lemma ScanUnit(json: Text, i: nat, t: Token)
    requires i < |json| && SingleUnitToken(json[i]) == Some(t) && !IsWhitespace(json[i])
    ensures ScanToken(json, i) == Ok((t, i + 1))
  {
  }

  /** Where the parts of a key's text sit. */
  lemma KeyLayout(json: Text, j: nat, name: Text)
    requires At(json, j, KeyText(name))
    ensures json[j] == QUOTE && At(json, j + 1, name + [QUOTE]) && json[j + |name| + 2] == COLON
  {
    AtSplit(json, j, [QUOTE], name + [QUOTE, COLON]);
    assert json[j] == json[j..j + 1][0];
    assert name + [QUOTE, COLON] == (name + [QUOTE]) + [COLON];
    AtSplit(json, j + 1, name + [QUOTE], [COLON]);
    assert json[j + |name| + 2] == json[j + |name| + 2..j + |name| + 3][0];
  }

  /** Where the parts of a quoted string sit. */
  lemma QuotedLayout(json: Text, j: nat, v: Text)
    requires At(json, j, Quoted(v))
    ensures json[j] == QUOTE && At(json, j + 1, Escaped(v) + [QUOTE])
  {
    assert Quoted(v) == [QUOTE] + (Escaped(v) + [QUOTE]);
    AtSplit(json, j, [QUOTE], Escaped(v) + [QUOTE]);
    assert json[j] == json[j..j + 1][0];
  }

  /** A plain text followed by a quote decodes to itself. */
  lemma PlainReadsBack(json: Text, i: nat, s: Text)
    requires forall k :: 0 <= k < |s| ==> !IsEscapable(s[k])
    requires At(json, i, s + [QUOTE])
    ensures DecodeString(json, i, []) == Ok((s, i + |s| + 1))
  {
    EscapedPlain(s);
    DecodeEscaped(json, i, s, []);
    assert [] + s == s;
  }

  /** An escaped text followed by a quote decodes to the text, as a string property's value. */
  lemma ValueReadsBack(json: Text, i: nat, e: nat, v: Text, step: ParseMethod, reg: Registry, cls: ParserClass)
    requires At(json, i, Escaped(v) + [QUOTE]) && e == i + |Escaped(v)| + 1 && step == ParseScalar(Prim.String)
    ensures RunStep(json, Lexer(i, Some(Token.String)), step, reg, cls) == Ok((Str(v), e))
  {
    DecodeEscaped(json, i, v, []);
    assert [] + v == v;
  }

  /** The member reader's steps, each given by its outcome. */
  lemma MemberTakesSteps(json: Text, k: nat, k2: nat, k3: nat, k4: nat, e: nat, name: Text, v: Value,
                         td: TypeDesc, reg: Registry, cls: ParserClass)
    requires td in reg && name in reg[td]
    requires DecodeString(json, k, []) == Ok((name, k2))
    requires ScanToken(json, k2) == Ok((Colon, k3))
    requires ScanToken(json, k3) == Ok((Token.String, k4))
    requires RunStep(json, Lexer(k4, Some(Token.String)), reg[td][name].step, reg, cls) == Ok((v, e))
    ensures MemberSpec(json, k, td, reg, cls) == Ok(((name, v), e))
  {
  }

  /** The member reader, once the key and the colon are read, reads the written value. */
  lemma MemberValueReadsBack(json: Text, k: nat, k2: nat, j2: nat, e: nat, name: Text, v: Text,
                             td: TypeDesc, reg: Registry, cls: ParserClass)
    requires td in reg && name in reg[td] && reg[td][name].step == ParseScalar(Prim.String)
    requires DecodeString(json, k, []) == Ok((name, k2))
    requires ScanToken(json, k2) == Ok((Colon, j2))
    requires At(json, j2, Quoted(v)) && e == j2 + |Quoted(v)|
    ensures MemberSpec(json, k, td, reg, cls) == Ok(((name, Str(v)), e))
  {
    QuotedReadsBack(json, j2, e, v, reg[td][name].step, reg, cls);
    MemberTakesSteps(json, k, k2, j2, j2 + 1, e, name, Str(v), td, reg, cls);
  }

  /** One member as written, its key at `j` and its value at `j2`, is read
      back: the key token, the key, the colon, the value's token and the
      value, which the reader runs through its string step. */
  lemma MemberReadsBack(json: Text, j: nat, j2: nat, e: nat, name: Text, v: Text, td: TypeDesc, reg: Registry, cls: ParserClass)
    requires td in reg && name in reg[td] && reg[td][name].step == ParseScalar(Prim.String)
    requires forall k :: 0 <= k < |name| ==> !IsEscapable(name[k])
    requires At(json, j, KeyText(name)) && j2 == j + |KeyText(name)|
    requires At(json, j2, Quoted(v)) && e == j2 + |Quoted(v)|
    ensures ScanToken(json, j) == Ok((Token.String, j + 1))
    ensures MemberSpec(json, j + 1, td, reg, cls) == Ok(((name, Str(v)), e))
  {
    KeyReadsBack(json, j, j2, name);
    MemberValueReadsBack(json, j + 1, j + |name| + 2, j2, e, name, v, td, reg, cls);
  }

  /** A key as written is read as a string token, the name, and a colon. */
  lemma KeyReadsBack(json: Text, j: nat, j2: nat, name: Text)
    requires forall k :: 0 <= k < |name| ==> !IsEscapable(name[k])
    requires At(json, j, KeyText(name)) && j2 == j + |KeyText(name)|
    ensures ScanToken(json, j) == Ok((Token.String, j + 1))
    ensures DecodeString(json, j + 1, []) == Ok((name, j + |name| + 2))
    ensures ScanToken(json, j + |name| + 2) == Ok((Colon, j2))
  {
    KeyLayout(json, j, name);
    ScanUnit(json, j, Token.String);
    PlainReadsBack(json, j + 1, name);
    ScanUnit(json, j + |name| + 2, Colon);
  }

  /** A value as written is read as a string token and, by the string step, its text. */
  lemma QuotedReadsBack(json: Text, j2: nat, e: nat, v: Text, step: ParseMethod, reg: Registry, cls: ParserClass)
    requires At(json, j2, Quoted(v)) && e == j2 + |Quoted(v)| && step == ParseScalar(Prim.String)
    ensures ScanToken(json, j2) == Ok((Token.String, j2 + 1))
    ensures RunStep(json, Lexer(j2 + 1, Some(Token.String)), step, reg, cls) == Ok((Str(v), e))
  {
    QuotedLayout(json, j2, v);
    ScanUnit(json, j2, Token.String);
    ValueReadsBack(json, j2 + 1, e, v, step, reg, cls);
  }

  lemma AtParts(json: Text, i: nat, a: Text, b: Text, c: Text, d: Text)
    requires At(json, i, a + b + c + d)
    ensures At(json, i, a) && At(json, i + |a|, b) && At(json, i + |a| + |b|, c) && At(json, i + |a| + |b| + |c|, d)
  {
    AtSplit(json, i, a + b + c, d);
    AtSplit(json, i, a + b, c);
    AtSplit(json, i, a, b);
  }

  /** The member loop passes over a comma. */
  lemma LoopSkipsComma(json: Text, i: nat, j: nat, td: TypeDesc, reg: Registry, cls: ParserClass, acc: seq<(Text, Value)>)
    requires td in reg && At(json, i, [COMMA]) && j == i + 1
    ensures ObjectLoop(json, i, td, reg, cls, acc) == ObjectLoop(json, j, td, reg, cls, acc)
  {
    assert json[i] == json[i..i + 1][0];
    ScanUnit(json, i, Comma);
  }

  /** The member loop stops just past a closing brace. */
  lemma LoopStopsAtClose(json: Text, i: nat, td: TypeDesc, reg: Registry, cls: ParserClass, acc: seq<(Text, Value)>)
    requires td in reg && At(json, i, CLOSE_OBJECT)
    ensures ObjectLoop(json, i, td, reg, cls, acc) == Ok((Obj(acc), i + 1))
  {
    assert json[i] == json[i..i + 1][0];
    ScanUnit(json, i, CurlyClose);
  }

  /** The member loop takes one member the member reader reads. */
  lemma LoopTakesMember(json: Text, j: nat, e: nat, a: (Text, Value), td: TypeDesc, reg: Registry, cls: ParserClass, acc: seq<(Text, Value)>)
    requires td in reg
    requires ScanToken(json, j) == Ok((Token.String, j + 1))
    requires MemberSpec(json, j + 1, td, reg, cls) == Ok((a, e))
    ensures ObjectLoop(json, j, td, reg, cls, acc) == ObjectLoop(json, e, td, reg, cls, acc + [a])
  {
  }

  /** The first rendered member of readable members: its separator, key and value, then the rest. */
  lemma RenderFirstMember(ms: seq<MemberContractMap>, first: bool, strings: MemberInfo -> Option<Text>, literal: MemberInfo -> Text)
    requires ms != [] && MemberType(ms[0].member) == Scalar(Prim.String) && strings(ms[0].member).Some?
    ensures Render(MemberSteps(ms, first), strings, literal) ==
      WriteStartProperty(ms[0], first) + Quoted(strings(ms[0].member).value) + Render(MemberSteps(ms[1..], false), strings, literal)
  {
    RenderMemberSteps(ms, first, strings, literal);
  }

  /** What readability says of the first member, and that the rest stay readable. */
  lemma ReadableFirst(ms: seq<MemberContractMap>, strings: MemberInfo -> Option<Text>, td: TypeDesc, reg: Registry)
    requires ms != [] && td in reg && ReadableStrings(ms, strings, td, reg)
    ensures var name := ContractName(ms[0]);
      && MemberType(ms[0].member) == Scalar(Prim.String) && strings(ms[0].member).Some?
      && name in reg[td] && reg[td][name].step == ParseScalar(Prim.String)
      && (forall k :: 0 <= k < |name| ==> !IsEscapable(name[k]))
  {
    assert ms[0] in ms;
  }

  /** The members after the first stay readable. */
  lemma ReadableRest(ms: seq<MemberContractMap>, strings: MemberInfo -> Option<Text>, td: TypeDesc, reg: Registry)
    requires ms != [] && td in reg && ReadableStrings(ms, strings, td, reg)
    ensures ReadableStrings(ms[1..], strings, td, reg)
  {
    forall m' | m' in ms[1..]
      ensures m' in ms
    {
    }
  }

  lemma AppendOne<T>(acc: seq<T>, a: T, tail: seq<T>)
    ensures acc + [a] + tail == acc + ([a] + tail)
  {
  }

  /** The member loop passes over an optional comma and one key with its string value. */
  lemma LoopReadsMember(json: Text, i: nat, first: bool, name: Text, v: Text,
                        td: TypeDesc, reg: Registry, cls: ParserClass, acc: seq<(Text, Value)>, k: nat)
    requires td in reg && name in reg[td] && reg[td][name].step == ParseScalar(Prim.String)
    requires forall n :: 0 <= n < |name| ==> !IsEscapable(name[n])
    requires At(json, i, Separator(first) + KeyText(name) + Quoted(v))
    requires k == i + |Separator(first) + KeyText(name) + Quoted(v)|
    ensures ObjectLoop(json, i, td, reg, cls, acc) == ObjectLoop(json, k, td, reg, cls, acc + [(name, Str(v))])
  {
    var comma, key, quoted := Separator(first), KeyText(name), Quoted(v);
    AtSplitEq(json, i, comma + key + quoted, comma + key, quoted);
    AtSplitEq(json, i, comma + key, comma, key);
    var j := i + |comma|;
    var j2 := j + |key|;
    MemberReadsBack(json, j, j2, k, name, v, td, reg, cls);
    LoopTakesMember(json, j, k, (name, Str(v)), td, reg, cls, acc);
    if first {
      assert j == i;
    } else {
      LoopSkipsComma(json, i, j, td, reg, cls, acc);
    }
  }

  /** The first rendered member as written: its comma, if any, key and quoted
      value, then the rest of the members. */
  lemma FirstMemberLayout(json: Text, i: nat, ms: seq<MemberContractMap>, first: bool,
                          strings: MemberInfo -> Option<Text>, literal: MemberInfo -> Text, name: Text, v: Text)
    returns (k: nat)
    requires ms != [] && MemberType(ms[0].member) == Scalar(Prim.String) && strings(ms[0].member).Some?
    requires name == ContractName(ms[0]) && v == strings(ms[0].member).value
    requires At(json, i, Render(MemberSteps(ms, first), strings, literal))
    ensures At(json, i, Separator(first) + KeyText(name) + Quoted(v))
    ensures k == i + |Separator(first) + KeyText(name) + Quoted(v)|
    ensures At(json, k, Render(MemberSteps(ms[1..], false), strings, literal))
    ensures k + |Render(MemberSteps(ms[1..], false), strings, literal)| == i + |Render(MemberSteps(ms, first), strings, literal)|
  {
    var whole := Render(MemberSteps(ms, first), strings, literal);
    var head := Separator(first) + KeyText(name) + Quoted(v);
    var rest := Render(MemberSteps(ms[1..], false), strings, literal);
    FirstMemberSplits(ms, first, strings, literal, name, v);
    AtSplitEq(json, i, whole, head, rest);
    k := i + |head|;
  }

  /** The rendered members are the first one's comma, if any, key and quoted value, then the rest. */
  lemma FirstMemberSplits(ms: seq<MemberContractMap>, first: bool, strings: MemberInfo -> Option<Text>,
                          literal: MemberInfo -> Text, name: Text, v: Text)
    requires ms != [] && MemberType(ms[0].member) == Scalar(Prim.String) && strings(ms[0].member).Some?
    requires name == ContractName(ms[0]) && v == strings(ms[0].member).value
    ensures Render(MemberSteps(ms, first), strings, literal) ==
      (Separator(first) + KeyText(name) + Quoted(v)) + Render(MemberSteps(ms[1..], false), strings, literal)
  {
    RenderFirstMember(ms, first, strings, literal);
    assert WriteStartProperty(ms[0], first) + Quoted(v) == Separator(first) + KeyText(name) + Quoted(v);
  }

  /** The member loop reads the first rendered member, and what follows is the rest. */
  lemma FirstMemberReadsBack(json: Text, i: nat, ms: seq<MemberContractMap>, first: bool,
                             strings: MemberInfo -> Option<Text>, literal: MemberInfo -> Text,
                             td: TypeDesc, reg: Registry, cls: ParserClass, acc: seq<(Text, Value)>)
    returns (k: nat, a: (Text, Value))
    requires ms != [] && td in reg && ReadableStrings(ms, strings, td, reg)
    requires At(json, i, Render(MemberSteps(ms, first), strings, literal))
    ensures ObjectLoop(json, i, td, reg, cls, acc) == ObjectLoop(json, k, td, reg, cls, acc + [a])
    ensures At(json, k, Render(MemberSteps(ms[1..], false), strings, literal))
    ensures k + |Render(MemberSteps(ms[1..], false), strings, literal)| == i + |Render(MemberSteps(ms, first), strings, literal)|
    ensures a == (ContractName(ms[0]), Str(strings(ms[0].member).value))
  {
    ReadableFirst(ms, strings, td, reg);
    var name, v := ContractName(ms[0]), strings(ms[0].member).value;
    k := FirstMemberLayout(json, i, ms, first, strings, literal, name, v);
    a := (name, Str(v));
    LoopReadsMember(json, i, first, name, v, td, reg, cls, acc, k);
  }

  /** The member loop reads back the rendered members and stops just past the closing brace. */
  lemma {:induction false} MembersReadBack(json: Text, i: nat, ms: seq<MemberContractMap>, first: bool,
                                           strings: MemberInfo -> Option<Text>, literal: MemberInfo -> Text,
                                           td: TypeDesc, reg: Registry, cls: ParserClass, acc: seq<(Text, Value)>, end: nat)
    requires td in reg && ReadableStrings(ms, strings, td, reg)
    requires At(json, i, Render(MemberSteps(ms, first), strings, literal))
    requires end == i + |Render(MemberSteps(ms, first), strings, literal)| + 1 && At(json, end - 1, CLOSE_OBJECT)
    ensures ObjectLoop(json, i, td, reg, cls, acc) == Ok((Obj(acc + Assignments(ms, strings)), end))
    decreases |ms|
  {
    if ms == [] {
      LoopStopsAtClose(json, i, td, reg, cls, acc);
      assert acc + [] == acc;
    } else {
      var k, a := FirstMemberReadsBack(json, i, ms, first, strings, literal, td, reg, cls, acc);
      ReadableFirst(ms, strings, td, reg);
      ReadableRest(ms, strings, td, reg);
      assert Assignments(ms, strings) == [a] + Assignments(ms[1..], strings);
      MembersReadBack(json, k, ms[1..], false, strings, literal, td, reg, cls, acc + [a], end);
      AppendOne(acc, a, Assignments(ms[1..], strings));
    }
  }

  /** The round trip of the writer and the reader: the object written for
      non-null string properties with plain names, read by `ParseObject` for
      a type whose parse list registers each name as a string property,
      gives back every property's value in the written order, and the read
      stops just past the closing brace, whatever follows. */
  lemma WrittenObjectReadsBack(t: TypeInfo, strings: MemberInfo -> Option<Text>, literal: MemberInfo -> Text,
                               td: TypeDesc, reg: Registry, cls: ParserClass, post: Text)
    requires td in reg && ReadableStrings(WriterMembers(t), strings, td, reg)
    ensures var text := Render(ObjectSteps(t), strings, literal);
      ObjectSpec(text + post, Lexer(0, None), td, reg, cls) == Ok((Obj(Assignments(WriterMembers(t), strings)), |text|))
  {
    var text := Render(ObjectSteps(t), strings, literal);
    var json := text + post;
    var members := Render(MemberSteps(WriterMembers(t), true), strings, literal);
    RenderObjectSteps(t, strings, literal);
    assert json[..|text|] == text;
    AtSplit(json, 0, OPEN_OBJECT + members, CLOSE_OBJECT);
    AtSplit(json, 0, OPEN_OBJECT, members);
    assert json[0] == json[0..1][0];
    ScanUnit(json, 0, CurlyOpen);
    MembersReadBack(json, 1, WriterMembers(t), true, strings, literal, td, reg, cls, [], |text|);
    assert [] + Assignments(WriterMembers(t), strings) == Assignments(WriterMembers(t), strings);
  }

  // ------------------------------------------------------------- string lists

  /** Quoted strings separated by commas and closed by `]`: a list of strings
      as written after its `[`. `first` is false when a comma comes first. */
  function ListText(es: seq<Text>, first: bool): Text {
    if es == [] then [']' as CodeUnit]
    else Separator(first) + Quoted(es[0]) + ListText(es[1..], false)
  }

  /** The elements a string list reader yields for the texts `es`. */
  function Strs(es: seq<Text>): seq<Value> {
    if es == [] then [] else [Str(es[0])] + Strs(es[1..])
  }

  /** The first text's element followed by the rest's. */
  lemma StrsFirst(es: seq<Text>, v: Text, acc: seq<Value>)
    requires es != [] && v == es[0]
    ensures acc + [Str(v)] + Strs(es[1..]) == acc + Strs(es)
  {
    assert [Str(v)] + Strs(es[1..]) == Strs(es);
  }

  /** A quoted string scans as a string token, and the string reader reads
      its text back and stops just past the closing quote. */
  lemma QuotedElementReads(json: Text, i: nat, v: Text)
    requires At(json, i, Quoted(v))
    ensures ScanToken(json, i) == Ok((Token.String, i + 1))
    ensures ReadElement(json, i + 1, ReadText) == Ok((Str(v), i + |Quoted(v)|))
  {
    QuotedLayout(json, i, v);
    ScanUnit(json, i, Token.String);
    DecodeEscaped(json, i + 1, v, []);
    assert [] + v == v;
  }

  /** What the tokenizer and the string reader see of one element as written
      from `i` to `k`: a comma unless it is the first, then a string token
      whose text reads back as `v`. */
  predicate ElementScans(json: Text, i: nat, first: bool, v: Text, k: nat) {
    if first then
      ScanToken(json, i) == Ok((Token.String, i + 1)) && ReadElement(json, i + 1, ReadText) == Ok((Str(v), k))
    else
      ScanToken(json, i) == Ok((Comma, i + 1)) && ScanToken(json, i + 1) == Ok((Token.String, i + 2))
      && ReadElement(json, i + 2, ReadText) == Ok((Str(v), k))
  }

  /** The width of one element as written: its comma, if any, and its quoted text. */
  function ElementWidth(first: bool, v: Text): nat {
    |Separator(first) + Quoted(v)|
  }

  /** One element as written scans as such. */
  lemma ElementLayout(json: Text, i: nat, first: bool, v: Text, k: nat)
    requires At(json, i, Separator(first) + Quoted(v)) && k == i + |Separator(first) + Quoted(v)|
    ensures ElementScans(json, i, first, v, k)
  {
    if first {
      assert Separator(first) + Quoted(v) == Quoted(v);
      QuotedElementReads(json, i, v);
    } else {
      LaterElementLayout(json, i, v);
    }
  }

  /** An element after the first: a comma, then the quoted string. */
  lemma LaterElementLayout(json: Text, i: nat, v: Text)
    requires At(json, i, [COMMA] + Quoted(v))
    ensures ScanToken(json, i) == Ok((Comma, i + 1)) && ScanToken(json, i + 1) == Ok((Token.String, i + 2))
    ensures ReadElement(json, i + 2, ReadText) == Ok((Str(v), i + 1 + |Quoted(v)|))
  {
    AtSplit(json, i, [COMMA], Quoted(v));
    assert json[i] == json[i..i + 1][0];
    ScanUnit(json, i, Comma);
    QuotedElementReads(json, i + 1, v);
  }

  /** The list loop passes over the element's comma, if any, and reads the element. */
  lemma ListReadsElement(json: Text, i: nat, first: bool, v: Text, k: nat, acc: seq<Value>)
    requires ElementScans(json, i, first, v, k)
    ensures ListLoop(json, i, ReadText, acc) == ListLoop(json, k, ReadText, acc + [Str(v)])
  {
    if first {
      ListLoopTakesElement(json, i, Token.String, i + 1, ReadText, Str(v), k, acc);
    } else {
      ListLoopTakesElement(json, i + 1, Token.String, i + 2, ReadText, Str(v), k, acc);
    }
  }

  /** A list as written from `i` to `end`, seen one element at a time: each
      element passes `scans` with the width it is written with, then `]`. */
  predicate ListScans(json: Text, i: nat, es: seq<Text>, first: bool, end: nat, scans: (Text, nat, bool, Text, nat) -> bool)
    decreases |es|
  {
    if es == [] then ScanToken(json, i) == Ok((SquaredClose, end))
    else
      scans(json, i, first, es[0], i + ElementWidth(first, es[0]))
      && ListScans(json, i + ElementWidth(first, es[0]), es[1..], false, end, scans)
  }

  /** A nonempty list that scans as written: its first element, and the rest after it. */
  lemma ListScansFirst(json: Text, i: nat, es: seq<Text>, first: bool, end: nat, scans: (Text, nat, bool, Text, nat) -> bool) returns (k: nat, v: Text)
    requires es != [] && ListScans(json, i, es, first, end, scans)
    ensures v == es[0] && k == i + ElementWidth(first, v)
    ensures scans(json, i, first, v, k) && ListScans(json, k, es[1..], false, end, scans)
  {
    v, k := es[0], i + ElementWidth(first, es[0]);
  }

  /** A list as written scans as such. */
  lemma {:induction false} ListLayout(json: Text, i: nat, es: seq<Text>, first: bool, end: nat)
    requires At(json, i, ListText(es, first)) && end == i + |ListText(es, first)|
    ensures ListScans(json, i, es, first, end, ElementScans)
    decreases |es|
  {
    if es == [] {
      assert ListText(es, first) == [']' as CodeUnit];
      assert json[i] == json[i..i + 1][0];
      ScanUnit(json, i, SquaredClose);
    } else {
      var k, v := FirstElementLayout(json, i, es, first);
      ListLayout(json, k, es[1..], false, end);
      ListScansCons(json, i, es, first, v, k, end, ElementScans);
    }
  }

  /** The first written element scans as such, and what follows is the rest. */
  lemma FirstElementLayout(json: Text, i: nat, es: seq<Text>, first: bool) returns (k: nat, v: Text)
    requires es != [] && At(json, i, ListText(es, first))
    ensures v == es[0] && k == i + ElementWidth(first, v)
    ensures ElementScans(json, i, first, v, k)
    ensures At(json, k, ListText(es[1..], false))
    ensures k + |ListText(es[1..], false)| == i + |ListText(es, first)|
  {
    v := es[0];
    var head, rest := Separator(first) + Quoted(v), ListText(es[1..], false);
    assert ListText(es, first) == head + rest;
    AtSplitEq(json, i, ListText(es, first), head, rest);
    k := i + |head|;
    ElementLayout(json, i, first, v, k);
  }

  /** A first element that scans, followed by a rest that scans, is a list that scans. */
  lemma ListScansCons(json: Text, i: nat, es: seq<Text>, first: bool, v: Text, k: nat, end: nat, scans: (Text, nat, bool, Text, nat) -> bool)
    requires es != [] && v == es[0] && k == i + ElementWidth(first, v)
    requires scans(json, i, first, v, k) && ListScans(json, k, es[1..], false, end, scans)
    ensures ListScans(json, i, es, first, end, scans)
  {
  }

  /** The list loop with the string reader reads a list that scans as written
      back to its strings, in order, and stops where the `]` ends. */
  lemma {:induction false} ListScansReadBack(json: Text, i: nat, es: seq<Text>, first: bool, acc: seq<Value>, end: nat)
    requires ListScans(json, i, es, first, end, ElementScans)
    ensures ListLoop(json, i, ReadText, acc) == Ok((acc + Strs(es), end))
    decreases |es|
  {
    if es == [] {
      ListLoopScansClose(json, i, end, ReadText, acc);
      assert acc + Strs(es) == acc;
    } else {
      var k, v := ListScansFirst(json, i, es, first, end, ElementScans);
      ListReadsElement(json, i, first, v, k, acc);
      ListScansReadBack(json, k, es[1..], false, acc + [Str(v)], end);
      StrsFirst(es, v, acc);
    }
  }

  /** The round trip of `ParseList` with the string reader: the elements as
      written read back as those strings, in order, and the loop stops just
      past the `]`, whatever surrounds them. */
  lemma ListReadsBack(json: Text, i: nat, es: seq<Text>, acc: seq<Value>, end: nat)
    requires At(json, i, ListText(es, true)) && end == i + |ListText(es, true)|
    ensures ListLoop(json, i, ReadText, acc) == Ok((acc + Strs(es), end))
  {
    ListLayout(json, i, es, true, end);
    ListScansReadBack(json, i, es, true, acc, end);
  }

  /** A serializer for one type: it keeps the settings it was given, locked,
      and the text encoding and culture they held. `fullName` stands for
      `Reflect.GetDataContractFullName`, which `Lock()` applies to each known type. */
  class ChasonSerializer {
    const settings: Settings.ChasonSerializerSettings
    const encoding: Settings.Encoding
    var culture: Settings.Culture

    constructor (settings: Settings.ChasonSerializerSettings, fullName: TypeDesc -> Text)
      requires settings.Valid()
      modifies settings
      ensures this.settings == settings && settings.Valid() && settings.readOnly
      ensures old(settings.readOnly) ==> settings.State() == old(settings.State())
      ensures !old(settings.readOnly) ==>
        && settings.knownTypes == ReadOnlyHashSets.NewReadOnlyHashSet(old(settings.knownTypes))
        && settings.customStringReaders == ReadOnlyDictionaries.NewReadOnlyDictionary(old(settings.customStringReaders))
        && settings.customStringWriters == ReadOnlyDictionaries.NewReadOnlyDictionary(old(settings.customStringWriters))
        && settings.customNumberReaders == ReadOnlyDictionaries.NewReadOnlyDictionary(old(settings.customNumberReaders))
        && settings.customNumberWriters == ReadOnlyDictionaries.NewReadOnlyDictionary(old(settings.customNumberWriters))
        && TypeNames.TypesRegistered(old(settings.typeToNameMapping), settings.typeToNameMapping,
                                     ReadOnlyHashSets.Elements(old(settings.knownTypes)), fullName)
        && TypeNames.NamesRegistered(old(settings.nameToTypeMapping), settings.nameToTypeMapping,
                                     ReadOnlyHashSets.Elements(old(settings.knownTypes)), fullName)
        && settings.State() == old(settings.State()).(
             readOnly := true, knownTypes := settings.knownTypes,
             typeToNameMapping := settings.typeToNameMapping, nameToTypeMapping := settings.nameToTypeMapping,
             customStringReaders := settings.customStringReaders, customStringWriters := settings.customStringWriters,
             customNumberReaders := settings.customNumberReaders, customNumberWriters := settings.customNumberWriters)
      ensures encoding == old(settings.textEncoding) && culture == old(settings.cultureInfo)
      ensures encoding == settings.textEncoding && culture == settings.cultureInfo
      ensures settings.EnsureNotReadOnly() == Err(InvalidOperation)
    {
      settings.Lock(fullName);
      this.settings := settings;
      this.encoding := settings.textEncoding;
      this.culture := settings.cultureInfo;
    }
  }
}
