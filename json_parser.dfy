/** `JsonParser`: the older twin of `ChasonParser`. Its tokenizer, string and
    number readers are the same code, proved here against the same
    specification functions, so the two classes agree on every buffer. It
    has no `ParseNullable`, no `ParseTimeZoneInfo`, and readers only for the
    types of `PropertyParser`'s 8-entry table; its `Parse<T>` and
    `ParseObject<T>` also require `T` to be a class, which type descriptors
    here do not record (a struct-typed member is read like any other object). */
module JsonParsing {
  import opened Utf16
  import opened Outcomes
  import opened JsonText
  import opened Dispatch
  import opened PropertyParsing
  import opened Decoding

  class JsonParser {
    /** The text being decoded. */
    const json: Text
    /** The next unit to read. */
    var index: nat
    /** The one-token lookahead; `None` is `Token.None`. */
    var lookAheadToken: Option<Token>

    ghost predicate Valid()
      reads this
    {
      index <= |json|
    }

    function State(): Lexer
      reads this
    {
      Lexer(index, lookAheadToken)
    }

    constructor (json: Text)
      ensures this.json == json && index == 0 && lookAheadToken == None
      ensures Valid()
    {
      this.json := json;
      index := 0;
      lookAheadToken := None;
    }

    /** Skips whitespace and classifies the next significant unit. */
    method NextTokenCore() returns (r: Result<Token>)
      requires Valid()
      modifies this
      ensures Valid() && lookAheadToken == old(lookAheadToken)
      ensures Outcome(r, index) == ScanToken(json, old(index))
      ensures r == Err(EndOfInput) ==> index == |json|
      ensures r == Err(IndexOutOfRange) ==> index == old(index)
      ensures r.Err? && r.error.NoTokenAt? ==> index == r.error.index
    {
      if index >= |json| {
        // the first read of the skip loop is past the end
        return Err(IndexOutOfRange);
      }
      var i := index;
      while i < |json| && IsWhitespace(json[i])
        invariant index <= i <= |json|
        invariant SkipWhitespace(json, i) == SkipWhitespace(json, index)
        decreases |json| - i
      {
        i := i + 1;
      }
      assert SkipWhitespace(json, index) == i;
      index := i;
      if i == |json| {
        return Err(EndOfInput);
      }
      var c := json[i];
      // the single-unit cases of the switch
      var single := SingleUnitToken(c);
      if single.Some? {
        index := i + 1;
        return Ok(single.value);
      }
      var keyword := KeywordStartingWith(c);
      if keyword.Some? {
        var n := |Keyword(keyword.value)|;
        if i + n <= |json| && json[i..i + n] == Keyword(keyword.value) {
          index := i + n;
          return Ok(keyword.value);
        }
      }
      r := Err(NoTokenAt(i));
    }

    /** The cached token, or a fresh scan that is then cached. */
    method LookAhead() returns (r: Result<Token>)
      requires Valid()
      modifies this
      ensures Valid()
      ensures match LookAheadSpec(json, old(State()))
              case Ok((t, st)) => r == Ok(t) && State() == st
              case Err(e) => r == Err(e) && lookAheadToken == None
    {
      if lookAheadToken.Some? {
        return Ok(lookAheadToken.value);
      }
      r := NextTokenCore();
      if r.Ok? {
        lookAheadToken := Some(r.value);
      }
    }

    /** The cached token if any, else a scan; the cache ends empty. */
    method NextToken() returns (r: Result<Token>)
      requires Valid()
      modifies this
      ensures Valid()
      ensures match NextTokenSpec(json, old(State()))
              case Ok((t, st)) => r == Ok(t) && State() == st
              case Err(e) => r == Err(e) && lookAheadToken == None
    {
      if lookAheadToken.Some? {
        r := Ok(lookAheadToken.value);
      } else {
        r := NextTokenCore();
      }
      lookAheadToken := None;
    }

    /** Drops the cached token without moving `index`. */
    method ConsumeToken()
      modifies this
      ensures lookAheadToken == None && index == old(index)
    {
      lookAheadToken := None;
    }

    /** Decodes a string body from `index`, just past its opening quote. */
    method ParseString() returns (r: Result<Text>)
      requires Valid()
      modifies this
      ensures Valid() && lookAheadToken == None
      ensures Outcome(r, index) == DecodeString(json, old(index), [])
      ensures r.Err? ==> index == |json|
    {
      ConsumeToken();
      FastDecodeAgrees(json, index, [], -1);
      assert FastDecode(json, index, [], -1) == DecodeString(json, index, []) by {
        var none: Text := [];
        assert none + none == none;
      }
      r, index := ScanString(json, index);
    }

    /** Reads the raw span of a number whose first unit produced the `Number` token. */
    method ParseNumber() returns (r: Result<Text>)
      requires Valid()
      modifies this
      ensures Valid() && lookAheadToken == None
      ensures Outcome(r, index) == NumberSpan(json, old(index))
      ensures r.Err? && r.error != ArgumentOutOfRange ==> index == |json|
    {
      ConsumeToken();
      var startIndex := index - 1;
      while true
        invariant old(index) <= index <= |json| && lookAheadToken == None
        invariant ScanNumber(json, index) == ScanNumber(json, old(index))
        decreases |json| - index
      {
        if index >= |json| {
          return Err(IndexOutOfRange);
        }
        var c := json[index];
        if IsAsciiDigit(c) || c == '.' as CodeUnit || c == '-' as CodeUnit || c == '+' as CodeUnit
           || c == 'e' as CodeUnit || c == 'E' as CodeUnit {
          index := index + 1;
          if index == |json| {
            return Err(UnterminatedNumber);
          }
          continue;
        }
        break;
      }
      if startIndex < 0 {
        return Err(ArgumentOutOfRange);
      }
      r := Ok(json[startIndex..index]);
    }

    /** One array element through the reader the array type selects. */
    method ParseElement(reader: ElementReader) returns (r: Result<Value>)
      requires Valid() && reader != ReadTimeZone
      modifies this
      ensures Valid() && (r.Ok? ==> lookAheadToken == None)
      ensures Outcome(r, index) == ReadElement(json, old(index), reader)
    {
      match reader
      case ReadText =>
        var s := ParseString();
        r := if s.Ok? then Ok(Str(s.value)) else Err(s.error);
      case ReadNumber =>
        var s := ParseNumber();
        r := if s.Ok? then Ok(Num(s.value)) else Err(s.error);
    }

    /** `ParseList`: consumes the cached `[`, then reads elements in input order up to `]`. */
    method ParseList(reader: ElementReader) returns (r: Result<seq<Value>>)
      requires Valid() && reader != ReadTimeZone
      modifies this
      ensures Valid() && (r.Ok? ==> lookAheadToken == None)
      ensures Outcome(r, index) == ListLoop(json, old(index), reader, [])
    {
      ConsumeToken();
      var items: seq<Value> := [];
      while true
        invariant Valid() && lookAheadToken == None && old(index) <= index
        invariant ListLoop(json, old(index), reader, []) == ListLoop(json, index, reader, items)
        decreases |json| - index
      {
        var t := LookAhead();
        if t.Err? {
          return Err(t.error);
        }
        if t.value == Comma {
          ConsumeToken();
        } else if t.value == SquaredClose {
          ConsumeToken();
          return Ok(items);
        } else {
          var item := ParseElement(reader);
          if item.Err? {
            return Err(item.error);
          }
          items := items + [item.value];
        }
      }
    }

    /** Runs a property's parse step, the value's first token in the lookahead. */
    method RunStep(m: ParseMethod, plans: map<TypeDesc, PropertyParseList>) returns (r: Result<Value>)
      requires Valid() && ValidPlans(plans)
      modifies this, plans.Values
      ensures Valid() && ValidPlans(plans)
      ensures r.Ok? ==> lookAheadToken == None
      ensures Outcome(r, index) == Decoding.RunStep(json, old(State()), m, RegistryOf(plans), OnJsonParser)
      decreases Measure(json, index), 2
    {
      match m
      case ParseScalar(p) =>
        if !InPropertyTable(p) {
          return Err(InvalidOperation);
        }
        r := ParseElement(ReaderFor(p));
      case ParseScalarArray(p) =>
        if !InPropertyTable(p) {
          return Err(InvalidOperation);
        }
        var items := ParseList(ReaderFor(p));
        r := if items.Ok? then Ok(Arr(items.value)) else Err(items.error);
      case ParseNullable(_) =>
        // the class has no `ParseNullable` for the call to bind to
        r := Err(InvalidOperation);
      case ParseObject(ot) =>
        r := ParseObject(ot, plans);
    }

    /** `ParseObject<T>`: `{`, then members until `}`, each key dispatched
        through the parse list of `t`, whatever the state of its cursor. */
    method ParseObject(t: TypeDesc, plans: map<TypeDesc, PropertyParseList>) returns (r: Result<Value>)
      requires Valid() && ValidPlans(plans)
      modifies this, plans.Values
      ensures Valid() && ValidPlans(plans)
      ensures r.Ok? ==> lookAheadToken == None
      ensures Outcome(r, index) == ObjectSpec(json, old(State()), t, RegistryOf(plans), OnJsonParser)
      decreases Measure(json, index), 1
    {
      ghost var reg := RegistryOf(plans);
      ghost var goal := ObjectSpec(json, State(), t, reg, OnJsonParser);
      if t !in plans {
        return Err(TypeInitialization);
      }
      var open := LookAhead();
      if open.Err? {
        return Err(open.error);
      }
      if open.value != CurlyOpen {
        return Err(ExpectedCurlyOpen(index));
      }
      ConsumeToken();
      assert goal == ObjectLoop(json, index, t, reg, OnJsonParser, []);
      r := ParseMembers(t, plans);
    }

    /** The member loop of `ParseObject<T>`, entered just past the `{`. */
    method ParseMembers(t: TypeDesc, plans: map<TypeDesc, PropertyParseList>) returns (r: Result<Value>)
      requires Valid() && ValidPlans(plans) && t in plans && lookAheadToken == None
      modifies this, plans.Values
      ensures Valid() && ValidPlans(plans)
      ensures r.Ok? ==> lookAheadToken == None
      ensures Outcome(r, index) == ObjectLoop(json, old(index), t, RegistryOf(plans), OnJsonParser, [])
      decreases Measure(json, index), 0
    {
      ghost var reg := RegistryOf(plans);
      ghost var goal := ObjectLoop(json, index, t, reg, OnJsonParser, []);
      var assignments: seq<(Text, Value)> := [];
      while true
        invariant Valid() && ValidPlans(plans)
        invariant lookAheadToken == None && old(index) <= index
        invariant goal == ObjectLoop(json, index, t, reg, OnJsonParser, assignments)
        decreases |json| - index
      {
        ghost var i0 := index;
        var tok := LookAhead();
        if tok.Err? {
          return Err(tok.error);
        }
        assert ScanToken(json, i0) == Ok((tok.value, index));
        if tok.value == Comma {
          ConsumeToken();
        } else if tok.value == CurlyClose {
          ConsumeToken();
          return Ok(Obj(assignments));
        } else {
          var member := ParseMember(t, plans);
          if member.Err? {
            return Err(member.error);
          }
          assert goal == ObjectLoop(json, index, t, reg, OnJsonParser, assignments + [member.value]);
          assignments := assignments + [member.value];
        }
      }
    }

    /** The default branch of `ParseObject<T>`'s switch: the key, the colon,
        a look at the value's first token, then the parse list's `Parse`. */
    method ParseMember(t: TypeDesc, plans: map<TypeDesc, PropertyParseList>) returns (r: Result<(Text, Value)>)
      requires Valid() && ValidPlans(plans) && t in plans
      modifies this, plans.Values
      ensures Valid() && ValidPlans(plans)
      ensures r.Ok? ==> lookAheadToken == None
      ensures Outcome(r, index) == MemberSpec(json, old(index), t, RegistryOf(plans), OnJsonParser)
      decreases Measure(json, index), 3
    {
      ghost var reg := RegistryOf(plans);
      ghost var k := index;
      var name := ParseString();
      if name.Err? {
        return Err(name.error);
      }
      assert DecodeString(json, k, []) == Ok((name.value, index));
      ghost var k2 := index;
      var colon := NextToken();
      if colon.Err? {
        return Err(colon.error);
      }
      assert ScanToken(json, k2) == Ok((colon.value, index));
      if colon.value != Colon {
        return Err(ExpectedColon(index));
      }
      ghost var k3 := index;
      var valueToken := LookAhead();
      if valueToken.Err? {
        return Err(valueToken.error);
      }
      assert ScanToken(json, k3) == Ok((valueToken.value, index));
      assert State() == Lexer(index, Some(valueToken.value));
      var value := ParseNamedValue(t, name.value, plans);
      if value.Err? {
        return Err(value.error);
      }
      r := Ok((name.value, value.value));
    }

    /** The tail of the default branch: the parse list's `Parse` for `name`,
        then its step, with the value's first token already in the lookahead. */
    method ParseNamedValue(t: TypeDesc, name: Text, plans: map<TypeDesc, PropertyParseList>) returns (r: Result<Value>)
      requires Valid() && ValidPlans(plans) && t in plans
      modifies this, plans.Values
      ensures Valid() && ValidPlans(plans)
      ensures r.Ok? ==> lookAheadToken == None
      ensures Outcome(r, index) ==
        (if name !in RegistryOf(plans)[t] then Err(KeyNotFound(name))
         else Decoding.RunStep(json, old(State()), RegistryOf(plans)[t][name].step, RegistryOf(plans), OnJsonParser))
      decreases Measure(json, index), 3
    {
      ghost var reg := RegistryOf(plans);
      ghost var st := State();
      var instanceParser := plans[t];
      assert instanceParser.setters == reg[t];
      var parser := instanceParser.Parse(name);
      if parser.Err? {
        return Err(parser.error);
      }
      r := RunStep(parser.value.step, plans);
      assert Decoding.RunStep(json, st, reg[t][name].step, reg, OnJsonParser) == Outcome(r, index);
    }
  }
}
