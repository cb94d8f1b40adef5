/** The per-type table of property parsers the decoder consults for each key:
    the expected sequence, a name-to-parser dictionary, and a cursor that
    persists across calls. */
module PropertyParsing {
  import opened Utf16
  import opened Outcomes
  import opened Dispatch
  import opened Reflect
  import opened Cursors
  import opened NameTables

  /** Which `GetParseMethodCall` builds the parse step: `PropertyParser`'s own
      8-entry table, or `ChasonParser`'s, which the generic `PropertyParser<T>`
      of `PropertyParser{T}.cs` uses. */
  datatype DispatchTable = PropertyParserTable | ChasonParserTable

  function GetParseMethodCall(table: DispatchTable, t: TypeDesc): (r: Result<ParseMethod>)
    ensures r.Err? <==> IsGenericList(t)
    ensures r.Err? ==> r.error == InvalidOperation
  {
    match table
    case PropertyParserTable => PropertyGetParseMethodCall(t)
    case ChasonParserTable => ChasonGetParseMethodCall(t)
  }

  /** A property parser: the JSON name it answers to, its expected position,
      and the step that reads the value and assigns the property. */
  datatype PropertyParser = PropertyParser(name: Text, sequence: int, step: ParseMethod)

  function ParserName(p: PropertyParser): Text {
    p.name
  }

  /** `new PropertyParser<T>(dataMember, info, ...)`: the name and order come
      from the contract; building the parse call throws for a list property,
      and then calling `GetSetMethod(true)`, which is null for a property
      without a setter, throws. */
  function NewPropertyParser(table: DispatchTable, row: MemberContractMap): (r: Result<PropertyParser>)
    ensures r.Err? <==> !Buildable(row)
    ensures IsGenericList(MemberType(row.member)) ==> r == Err(InvalidOperation)
    ensures !IsGenericList(MemberType(row.member)) && !row.member.writable ==> r == Err(ArgumentNull)
    ensures r.Ok? ==> r.value.name == (if row.contract.name.Some? then row.contract.name.value else row.member.name)
    ensures r.Ok? ==> r.value.sequence == row.contract.order
    ensures r.Ok? ==> GetParseMethodCall(table, MemberType(row.member)) == Ok(r.value.step)
  {
    match GetParseMethodCall(table, MemberType(row.member))
    case Err(e) => Err(e)
    case Ok(step) =>
      if !row.member.writable then Err(ArgumentNull)
      else Ok(PropertyParser(ContractName(row), row.contract.order, step))
  }

  /** A row gets a parser: it is not a list property, and the property has a setter. */
  predicate Buildable(row: MemberContractMap) {
    !IsGenericList(MemberType(row.member)) && row.member.writable
  }

  /** The rows `PropertyParseList` iterates: properties with `[DataMember]`, by order then name. */
  function ParserRows(t: TypeInfo): seq<MemberContractMap> {
    Sort(ByOrderThenName, DataMemberRows(t.properties))
  }

  /** Every row gets a parser: none is a list property or a property without a setter. */
  predicate AllBuildable(rows: seq<MemberContractMap>) {
    forall i :: 0 <= i < |rows| ==> Buildable(rows[i])
  }

  function Parsers(table: DispatchTable, rows: seq<MemberContractMap>): (ps: seq<PropertyParser>)
    requires AllBuildable(rows)
    ensures |ps| == |rows|
    ensures forall i :: 0 <= i < |rows| ==> Ok(ps[i]) == NewPropertyParser(table, rows[i])
  {
    seq(|rows|, i requires 0 <= i < |rows| => NewPropertyParser(table, rows[i]).value)
  }

  /** One more row that gets a parser adds it at the end. */
  lemma ParsersSnoc(table: DispatchTable, rows: seq<MemberContractMap>, k: nat)
    requires k < |rows| && AllBuildable(rows[..k]) && Buildable(rows[k])
    ensures AllBuildable(rows[..k + 1])
    ensures Parsers(table, rows[..k + 1]) == Parsers(table, rows[..k]) + [NewPropertyParser(table, rows[k]).value]
  {
    assert rows[..k + 1] == rows[..k] + [rows[k]];
  }

  /** The constructor's loop stops at row `k` with error `e`: the rows before
      it were all added, and row `k` is a list property or a property without
      a setter, whose parser cannot be built, or its name was added before. */
  predicate FailsAt(table: DispatchTable, rows: seq<MemberContractMap>, k: nat, e: Error) {
    && k < |rows|
    && AllBuildable(rows[..k])
    && DistinctNames(Parsers(table, rows[..k]), ParserName)
    && if IsGenericList(MemberType(rows[k].member)) then e == InvalidOperation
       else if !rows[k].member.writable then e == ArgumentNull
       else e == DuplicateKey(ContractName(rows[k])) &&
            exists i :: 0 <= i < k && ContractName(rows[i]) == ContractName(rows[k])
  }

  /** `PropertyParseList<T>`: built once per type. */
  class PropertyParseList {
    /** The parsers in the order keys are expected. */
    const sequential: seq<PropertyParser>
    /** The fallback dictionary from name to parser. */
    const setters: map<Text, PropertyParser>
    /** The shared enumerator over `sequential`: `None` until first used, then the
        number of `MoveNext` calls that have succeeded. */
    var enumerator: Option<nat>

    ghost predicate Valid()
      reads this
    {
      DistinctNames(sequential, ParserName) && setters == SettersOf(sequential, ParserName) &&
      (enumerator.Some? ==> enumerator.value <= |sequential|)
    }

    constructor (sequential: seq<PropertyParser>)
      requires DistinctNames(sequential, ParserName)
      ensures this.sequential == sequential && setters == SettersOf(sequential, ParserName) && enumerator == None
      ensures Valid()
    {
      this.sequential := sequential;
      this.setters := SettersOf(sequential, ParserName);
      enumerator := None;
    }

    /** The cursor position, with a not yet created enumerator standing before the first parser. */
    function Cursor(): nat
      reads this
    {
      if enumerator.Some? then enumerator.value else 0
    }

    /** The parser registered under `name`, found by advancing the cursor to the
        first later parser with that name, else by the dictionary. */
    method Parse(name: Text) returns (r: Result<PropertyParser>)
      requires Valid()
      modifies this
      ensures Valid()
      ensures r == (if name in setters then Ok(setters[name]) else Err(KeyNotFound(name)))
      ensures enumerator == Some(CursorAfter(Names(sequential, ParserName), old(Cursor()), name))
    {
      if enumerator == None {
        enumerator := Some(0);
      }
      ghost var names := Names(sequential, ParserName);
      ghost var goal := CursorAfter(names, old(Cursor()), name);
      var p := enumerator.value;
      while p < |sequential|
        invariant old(Cursor()) <= p <= |sequential|
        invariant goal == CursorAfter(names, p, name)
        invariant enumerator == Some(p)
        decreases |sequential| - p
      {
        p := p + 1;
        enumerator := Some(p);
        assert names[p - 1] == sequential[p - 1].name;
        if sequential[p - 1].name == name {
          SettersOfFind(sequential, ParserName, p - 1);
          return Ok(sequential[p - 1]);
        }
      }
      if name in setters {
        r := Ok(setters[name]);
      } else {
        r := Err(KeyNotFound(name));
      }
    }
  }

  /** A row whose name an added row already holds stops the loop with `ArgumentException`. */
  lemma FailsAtDuplicate(table: DispatchTable, rows: seq<MemberContractMap>, k: nat)
    requires k < |rows| && AllBuildable(rows[..k]) && NewPropertyParser(table, rows[k]).Ok?
    requires DistinctNames(Parsers(table, rows[..k]), ParserName)
    requires NewPropertyParser(table, rows[k]).value.name in SettersOf(Parsers(table, rows[..k]), ParserName)
    ensures FailsAt(table, rows, k, DuplicateKey(NewPropertyParser(table, rows[k]).value.name))
  {
    var ps := Parsers(table, rows[..k]);
    var i :| 0 <= i < |ps| && ps[i].name == NewPropertyParser(table, rows[k]).value.name;
    assert rows[..k][i] == rows[i];
  }

  /** The `PropertyParseList<T>` constructor: fails with `ArgumentException` when
      the type has no public parameterless constructor; then, row by row in
      order then name order, with `InvalidOperationException` at a list
      property, `ArgumentNullException` at a property without a setter, and
      `ArgumentException` at `Dictionary.Add` of a name already present; otherwise one parser per data-member property, each
      registered under its name. */
  method Build(t: TypeInfo, table: DispatchTable) returns (r: Result<PropertyParseList>)
    ensures !t.hasDefaultConstructor ==> r == Err(MissingConstructor)
    ensures r.Ok? <==>
              t.hasDefaultConstructor && AllBuildable(ParserRows(t)) &&
              DistinctNames(Parsers(table, ParserRows(t)), ParserName)
    ensures (t.hasDefaultConstructor && r.Err?) ==> exists k :: FailsAt(table, ParserRows(t), k, r.error)
    ensures r.Ok? ==> (fresh(r.value) && r.value.Valid() && r.value.enumerator == None &&
                       r.value.sequential == Parsers(table, ParserRows(t)))
  {
    if !t.hasDefaultConstructor {
      return Err(MissingConstructor);
    }
    var rows := ParserRows(t);
    var built := BuildParsers(table, rows);
    match built
    case Err(e) =>
      r := Err(e);
    case Ok(sequential) =>
      var list := new PropertyParseList(sequential);
      r := Ok(list);
  }

  /** The constructor's loop: one parser per row, each added to the dictionary,
      which rejects a name already present; the first row that fails decides
      the error. */
  method BuildParsers(table: DispatchTable, rows: seq<MemberContractMap>) returns (r: Result<seq<PropertyParser>>)
    ensures r.Ok? <==> AllBuildable(rows) && DistinctNames(Parsers(table, rows), ParserName)
    ensures r.Err? ==> exists k :: FailsAt(table, rows, k, r.error)
    ensures r.Ok? ==> r.value == Parsers(table, rows)
  {
    var sequential: seq<PropertyParser> := [];
    var setters: map<Text, PropertyParser> := map[];
    var k := 0;
    while k < |rows|
      invariant k <= |rows| && AllBuildable(rows[..k])
      invariant sequential == Parsers(table, rows[..k])
      invariant setters == SettersOf(sequential, ParserName)
      invariant DistinctNames(sequential, ParserName)
    {
      var parser := NewPropertyParser(table, rows[k]);
      if parser.Err? {
        assert FailsAt(table, rows, k, parser.error);
        return Err(parser.error);
      }
      if parser.value.name in setters {
        FailsAtDuplicate(table, rows, k);
        return Err(DuplicateKey(parser.value.name));
      }
      AddEntry(sequential, parser.value, ParserName);
      ParsersSnoc(table, rows, k);
      sequential := sequential + [parser.value];
      setters := setters[parser.value.name := parser.value];
      k := k + 1;
    }
    assert rows[..k] == rows;
    r := Ok(sequential);
  }
}
