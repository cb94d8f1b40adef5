/** `MemberParseList<T>`: the member-based twin of `PropertyParseList<T>`.
    Its parsers cover fields as well as properties, take a custom reader from
    the settings when one is registered for the member's type, and an unknown
    key is skipped instead of failing. */
module MemberParsing {
  import opened Utf16
  import opened Outcomes
  import opened Dispatch
  import opened Reflect
  import opened Cursors
  import opened NameTables
  import opened ReadOnlyDictionaries
  import Settings

  /** How a member parser reads its value: through a custom string reader,
      a custom number reader, or the default parse step for the member's type. */
  datatype ReaderChoice =
    | CustomStringReader(reader: Settings.Expression)
    | CustomNumberReader(reader: Settings.Expression)
    | DefaultReader(step: ParseMethod)

  /** A member parser: the JSON name it answers to, the member it assigns,
      and how it reads the value. */
  datatype MemberParser = MemberParser(name: Text, member: MemberInfo, reader: ReaderChoice)

  /** What `Parse` does with a key: run a parser, or skip the value. */
  datatype MemberAction = Run(parser: MemberParser) | SkipValue

  /** The custom readers a settings object holds, as the constructor reads them. */
  datatype Readers = Readers(strings: map<TypeDesc, Settings.Expression>, numbers: map<TypeDesc, Settings.Expression>)

  /** The reader for a member of type `t`: a custom string reader wins over a
      custom number reader, which wins over the default step. A custom
      reader's parse call is built for the text or number type the reader
      takes, which always binds; the default step's call throws for a list
      member. */
  function ChooseReader(readers: Readers, t: TypeDesc): Result<ReaderChoice> {
    if t in readers.strings then Ok(CustomStringReader(readers.strings[t]))
    else if t in readers.numbers then Ok(CustomNumberReader(readers.numbers[t]))
    else
      match ChasonGetParseMethodCall(t)
      case Err(e) => Err(e)
      case Ok(step) => Ok(DefaultReader(step))
  }

  /** A member of type `t` gets a parser: a custom reader is registered for
      its type, or it is not a list. */
  predicate Readable(readers: Readers, t: TypeDesc) {
    t in readers.strings || t in readers.numbers || !IsGenericList(t)
  }

  /** Each kind of reader is chosen exactly when the rules above select it,
      a custom reader is the one registered for the member's type, and the
      choice fails, with `InvalidOperationException`, exactly for an
      unreadable member. */
  lemma ChooseReaderPriority(readers: Readers, t: TypeDesc)
    ensures ChooseReader(readers, t).Err? <==> !Readable(readers, t)
    ensures ChooseReader(readers, t).Err? ==> ChooseReader(readers, t).error == InvalidOperation
    ensures ChooseReader(readers, t).Ok? ==>
              (ChooseReader(readers, t).value.CustomStringReader? <==> t in readers.strings)
    ensures ChooseReader(readers, t).Ok? ==>
              (ChooseReader(readers, t).value.CustomNumberReader? <==> t !in readers.strings && t in readers.numbers)
    ensures ChooseReader(readers, t).Ok? ==>
              (ChooseReader(readers, t).value.DefaultReader? <==> t !in readers.strings && t !in readers.numbers)
    ensures t in readers.strings ==> ChooseReader(readers, t) == Ok(CustomStringReader(readers.strings[t]))
    ensures t !in readers.strings && t in readers.numbers ==>
              ChooseReader(readers, t) == Ok(CustomNumberReader(readers.numbers[t]))
    ensures ChooseReader(readers, t).Ok? && ChooseReader(readers, t).value.DefaultReader? ==>
              ChasonGetParseMethodCall(t) == Ok(ChooseReader(readers, t).value.step)
  {
  }

  function MemberName(p: MemberParser): Text {
    p.name
  }

  /** The parser the constructor builds for one row, registered under the
      contract name: the parse call is built first, then `Expression.Assign`
      to the member, which throws for a member that cannot be written. */
  function NewMemberParser(readers: Readers, row: MemberContractMap): (r: Result<MemberParser>)
    ensures r.Err? <==> !Buildable(readers, row)
    ensures !Readable(readers, MemberType(row.member)) ==> r == Err(InvalidOperation)
    ensures Readable(readers, MemberType(row.member)) && !row.member.writable ==> r == Err(NotWritable)
    ensures r.Ok? ==> r.value.name == (if row.contract.name.Some? then row.contract.name.value else row.member.name)
    ensures r.Ok? ==> r.value.member == row.member
    ensures r.Ok? ==> ChooseReader(readers, MemberType(row.member)) == Ok(r.value.reader)
  {
    match ChooseReader(readers, MemberType(row.member))
    case Err(e) => Err(e)
    case Ok(reader) =>
      if !row.member.writable then Err(NotWritable)
      else Ok(MemberParser(ContractName(row), row.member, reader))
  }

  /** A member gets a parser: a reader for its type, and it can be written. */
  predicate Buildable(readers: Readers, row: MemberContractMap) {
    Readable(readers, MemberType(row.member)) && row.member.writable
  }

  /** Every member gets a parser. */
  predicate AllBuildable(readers: Readers, rows: seq<MemberContractMap>) {
    forall i :: 0 <= i < |rows| ==> Buildable(readers, rows[i])
  }

  /** One parser per row, in row order. */
  function MemberParsers(readers: Readers, rows: seq<MemberContractMap>): (ps: seq<MemberParser>)
    requires AllBuildable(readers, rows)
    ensures |ps| == |rows|
    ensures forall i :: 0 <= i < |rows| ==> Ok(ps[i]) == NewMemberParser(readers, rows[i])
  {
    seq(|rows|, i requires 0 <= i < |rows| => NewMemberParser(readers, rows[i]).value)
  }

  /** One more row that gets a parser adds it at the end. */
  lemma MemberParsersSnoc(readers: Readers, rows: seq<MemberContractMap>, k: nat)
    requires k < |rows| && AllBuildable(readers, rows[..k]) && Buildable(readers, rows[k])
    ensures AllBuildable(readers, rows[..k + 1])
    ensures MemberParsers(readers, rows[..k + 1]) == MemberParsers(readers, rows[..k]) + [NewMemberParser(readers, rows[k]).value]
  {
    assert rows[..k + 1] == rows[..k] + [rows[k]];
  }

  /** The constructor's loop stops at row `k` with error `e`: the rows before
      it were all added, and row `k` gets no reader, cannot be written, or
      its name was added before. */
  predicate MemberFailsAt(readers: Readers, rows: seq<MemberContractMap>, k: nat, e: Error) {
    && k < |rows|
    && AllBuildable(readers, rows[..k])
    && DistinctNames(MemberParsers(readers, rows[..k]), MemberName)
    && if !Readable(readers, MemberType(rows[k].member)) then e == InvalidOperation
       else if !rows[k].member.writable then e == NotWritable
       else e == DuplicateKey(ContractName(rows[k])) &&
            exists i :: 0 <= i < k && ContractName(rows[i]) == ContractName(rows[k])
  }

  class MemberParseList {
    /** The settings the parsers took their custom readers from. */
    const settings: Settings.ChasonSerializerSettings
    /** The parsers in the order keys are expected. */
    const sequential: seq<MemberParser>
    /** The fallback dictionary from name to parser. */
    const setters: map<Text, MemberParser>
    /** The shared enumerator over `sequential`: `None` until first used, then the
        number of `MoveNext` calls that have succeeded. */
    var enumerator: Option<nat>

    ghost predicate Valid()
      reads this
    {
      DistinctNames(sequential, MemberName) && setters == SettersOf(sequential, MemberName) &&
      (enumerator.Some? ==> enumerator.value <= |sequential|)
    }

    constructor (settings: Settings.ChasonSerializerSettings, sequential: seq<MemberParser>)
      requires DistinctNames(sequential, MemberName)
      ensures this.settings == settings && this.sequential == sequential
      ensures setters == SettersOf(sequential, MemberName) && enumerator == None
      ensures Valid()
    {
      this.settings := settings;
      this.sequential := sequential;
      this.setters := SettersOf(sequential, MemberName);
      enumerator := None;
    }

    /** The cursor position, with a not yet created enumerator standing before the first parser. */
    function Cursor(): nat
      reads this
    {
      if enumerator.Some? then enumerator.value else 0
    }

    /** `Parse(parser, instance, name)`: the parser registered under `name`,
        found by advancing the cursor to the first later parser with that name,
        else by `TryGetValue`; an unknown key skips the value. */
    method Parse(name: Text) returns (r: MemberAction)
      requires Valid()
      modifies this
      ensures Valid()
      ensures r == (if name in setters then Run(setters[name]) else SkipValue)
      ensures enumerator == Some(CursorAfter(Names(sequential, MemberName), old(Cursor()), name))
    {
      if enumerator == None {
        enumerator := Some(0);
      }
      ghost var names := Names(sequential, MemberName);
      ghost var goal := CursorAfter(names, old(Cursor()), name);
      var p := enumerator.value;
      while p < |sequential|
        invariant old(Cursor()) <= p <= |sequential|
        invariant goal == CursorAfter(names, p, name)
        invariant enumerator == Some(p)
        decreases |sequential| - p
      {
        p := p + 1;
        enumerator := Some(p);
        assert names[p - 1] == sequential[p - 1].name;
        if sequential[p - 1].name == name {
          SettersOfFind(sequential, MemberName, p - 1);
          return Run(sequential[p - 1]);
        }
      }
      if name in setters {
        r := Run(setters[name]);
      } else {
        r := SkipValue;
      }
    }
  }

  /** The custom readers of a settings object. */
  function ReadersOf(settings: Settings.ChasonSerializerSettings): Readers
    reads settings
  {
    Readers(Entries(settings.customStringReaders), Entries(settings.customNumberReaders))
  }

  /** A row whose name an added row already holds stops the loop with `ArgumentException`. */
  lemma MemberFailsAtDuplicate(readers: Readers, rows: seq<MemberContractMap>, k: nat)
    requires k < |rows| && AllBuildable(readers, rows[..k]) && NewMemberParser(readers, rows[k]).Ok?
    requires DistinctNames(MemberParsers(readers, rows[..k]), MemberName)
    requires NewMemberParser(readers, rows[k]).value.name in SettersOf(MemberParsers(readers, rows[..k]), MemberName)
    ensures MemberFailsAt(readers, rows, k, DuplicateKey(NewMemberParser(readers, rows[k]).value.name))
  {
    var ps := MemberParsers(readers, rows[..k]);
    var i :| 0 <= i < |ps| && ps[i].name == NewMemberParser(readers, rows[k]).value.name;
    assert rows[..k][i] == rows[i];
  }

  /** The `MemberParseList<T>` constructor: fails with `ArgumentException` when
      the type has no public parameterless constructor; then, member by member
      of `GetObjectMemberContracts`, with `InvalidOperationException` at a
      list member without a custom reader, `ArgumentException` at a member
      that cannot be written, and `ArgumentException` at `Dictionary.Add` of
      a name already present; otherwise one parser per
      member, each with the reader the settings select. */
  method Build(t: TypeInfo, settings: Settings.ChasonSerializerSettings) returns (r: Result<MemberParseList>)
    ensures !t.hasDefaultConstructor ==> r == Err(MissingConstructor)
    ensures r.Ok? <==>
              t.hasDefaultConstructor && AllBuildable(ReadersOf(settings), GetObjectMemberContracts(t)) &&
              DistinctNames(MemberParsers(ReadersOf(settings), GetObjectMemberContracts(t)), MemberName)
    ensures (t.hasDefaultConstructor && r.Err?) ==>
              exists k :: MemberFailsAt(ReadersOf(settings), GetObjectMemberContracts(t), k, r.error)
    ensures r.Ok? ==> (fresh(r.value) && r.value.Valid() && r.value.enumerator == None &&
                       r.value.settings == settings &&
                       r.value.sequential == MemberParsers(ReadersOf(settings), GetObjectMemberContracts(t)))
  {
    if !t.hasDefaultConstructor {
      return Err(MissingConstructor);
    }
    var members := GetObjectMemberContracts(t);
    var built := BuildMemberParsers(ReadersOf(settings), members);
    match built
    case Err(e) =>
      r := Err(e);
    case Ok(sequential) =>
      var list := new MemberParseList(settings, sequential);
      r := Ok(list);
  }

  /** The constructor's loop: one parser per member, each added to the
      dictionary, which rejects a name already present; the first member
      that fails decides the error. */
  method BuildMemberParsers(readers: Readers, rows: seq<MemberContractMap>) returns (r: Result<seq<MemberParser>>)
    ensures r.Ok? <==> AllBuildable(readers, rows) && DistinctNames(MemberParsers(readers, rows), MemberName)
    ensures r.Err? ==> exists k :: MemberFailsAt(readers, rows, k, r.error)
    ensures r.Ok? ==> r.value == MemberParsers(readers, rows)
  {
    var sequential: seq<MemberParser> := [];
    var setters: map<Text, MemberParser> := map[];
    var k := 0;
    while k < |rows|
      invariant k <= |rows| && AllBuildable(readers, rows[..k])
      invariant sequential == MemberParsers(readers, rows[..k])
      invariant setters == SettersOf(sequential, MemberName)
      invariant DistinctNames(sequential, MemberName)
    {
      var parser := NewMemberParser(readers, rows[k]);
      if parser.Err? {
        assert MemberFailsAt(readers, rows, k, parser.error);
        return Err(parser.error);
      }
      if parser.value.name in setters {
        MemberFailsAtDuplicate(readers, rows, k);
        return Err(DuplicateKey(parser.value.name));
      }
      AddEntry(sequential, parser.value, MemberName);
      MemberParsersSnoc(readers, rows, k);
      sequential := sequential + [parser.value];
      setters := setters[parser.value.name := parser.value];
      k := k + 1;
    }
    assert rows[..k] == rows;
    r := Ok(sequential);
  }

  /** The readers of freshly constructed settings: the three string readers the
      format setters register, and no number reader. */
  function DefaultReaders(): Readers {
    Readers(map[Scalar(DateTime) := Settings.ParseExactDateTime,
                Scalar(DateTimeOffset) := Settings.ParseExactDateTimeOffset,
                Scalar(TimeSpan) := Settings.ParseExactTimeSpan],
            map[])
  }

  /** The static `ChasonSerializerSettings.Default`: one settings object in its
      constructed state, whose readers are the defaults. It is public and
      unlocked, so any caller may change it before a parse list reads it. */
  method NewDefaultSettings() returns (defaults: Settings.ChasonSerializerSettings)
    ensures fresh(defaults) && defaults.Valid() && !defaults.readOnly
    ensures ReadersOf(defaults) == DefaultReaders()
  {
    defaults := new Settings.ChasonSerializerSettings();
  }

  /** The shared `Instance`, built from the shared `defaults` object in
      whatever state it is in when the type initializer runs: its readers are
      those of that object, not of the settings any serializer was given. */
  method Instance(t: TypeInfo, defaults: Settings.ChasonSerializerSettings) returns (r: Result<MemberParseList>)
    ensures !t.hasDefaultConstructor ==> r == Err(MissingConstructor)
    ensures r.Ok? <==>
              t.hasDefaultConstructor && AllBuildable(ReadersOf(defaults), GetObjectMemberContracts(t)) &&
              DistinctNames(MemberParsers(ReadersOf(defaults), GetObjectMemberContracts(t)), MemberName)
    ensures r.Ok? ==> (fresh(r.value) && r.value.Valid() && r.value.enumerator == None &&
                       r.value.settings == defaults &&
                       r.value.sequential == MemberParsers(ReadersOf(defaults), GetObjectMemberContracts(t)))
  {
    r := Build(t, defaults);
  }

  /** Under the default readers, a writable `DateTime`, `DateTimeOffset` or
      `TimeSpan` member reads through its `ParseExact` reader, every other
      writable member through the default step; a list member gets no parser,
      nor does any other member that cannot be written. */
  lemma DefaultInstanceReaders(row: MemberContractMap)
    ensures MemberType(row.member) == Scalar(DateTime) ==>
              NewMemberParser(DefaultReaders(), row) ==
                WritableParser(row, CustomStringReader(Settings.ParseExactDateTime))
    ensures MemberType(row.member) == Scalar(DateTimeOffset) ==>
              NewMemberParser(DefaultReaders(), row) ==
                WritableParser(row, CustomStringReader(Settings.ParseExactDateTimeOffset))
    ensures MemberType(row.member) == Scalar(TimeSpan) ==>
              NewMemberParser(DefaultReaders(), row) ==
                WritableParser(row, CustomStringReader(Settings.ParseExactTimeSpan))
    ensures MemberType(row.member) !in {Scalar(DateTime), Scalar(DateTimeOffset), Scalar(TimeSpan)} ==>
              (match ChasonGetParseMethodCall(MemberType(row.member))
               case Ok(step) => NewMemberParser(DefaultReaders(), row) == WritableParser(row, DefaultReader(step))
               case Err(e) => NewMemberParser(DefaultReaders(), row) == Err(InvalidOperation))
  {
  }

  /** The parser for `row` with `reader`, if the member can be written. */
  function WritableParser(row: MemberContractMap, reader: ReaderChoice): Result<MemberParser> {
    if row.member.writable then Ok(MemberParser(ContractName(row), row.member, reader)) else Err(NotWritable)
  }

  /** Whatever the cursor state, a key runs the parser registered under it, and
      that parser answers to the key; a key no parser answers to is skipped. */
  lemma ParseActionNamed(list: seq<MemberParser>, name: Text)
    requires DistinctNames(list, MemberName)
    ensures name in SettersOf(list, MemberName) ==>
              SettersOf(list, MemberName)[name].name == name && SettersOf(list, MemberName)[name] in list
    ensures name !in SettersOf(list, MemberName) <==> forall i :: 0 <= i < |list| ==> list[i].name != name
  {
    EntryNamed(list, MemberName, name);
  }
}
