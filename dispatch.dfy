/** The decision of which parser method reads a value of a given .NET type.
    Types are described structurally; the expression trees the library
    compiles from the decision are not modelled. */
module Dispatch {
  import opened Utf16
  import opened Outcomes

  /** The primitive types the dispatch tables mention, plus two they omit. */
  datatype Prim =
    | String | Int16 | Int32 | Int64 | UInt16 | UInt32 | UInt64
    | Float | Double | Decimal | DateTime | DateTimeOffset | TimeSpan | TimeZoneInfo
    | Boolean | Byte

  /** A generic type definition such as `List<>`; `isIList` records whether
      `typeof(IList<>).IsAssignableFrom` holds for it. */
  datatype GenericDef = GenericDef(name: Text, isIList: bool)

  /** A .NET type as the dispatch sees it. */
  datatype TypeDesc =
    | Scalar(prim: Prim)
    | ArrayOf(elem: TypeDesc)
    | NullableOf(underlying: TypeDesc)
    | Generic(def: GenericDef, args: seq<TypeDesc>)
    | Named(name: Text)

  /** The parser method a dispatch decision names and binds to. */
  datatype ParseMethod =
    | ParseScalar(prim: Prim)          // ParseString, ParseInt32, ParseDateTime, ...
    | ParseScalarArray(prim: Prim)     // ParseStringArray, ParseInt32Array, ...
    | ParseNullable(underlying: TypeDesc)
    | ParseObject(objectType: TypeDesc)

  /** The primitives `ChasonParser.TypeParseMethods` lists, each with its array type. */
  predicate InChasonTable(p: Prim) {
    p != Boolean && p != Byte
  }

  /** The primitives `PropertyParser.TypeParseMethods` lists, each with its array type. */
  predicate InPropertyTable(p: Prim) {
    p == String || p == Int32 || p == Int64 || p == Decimal
  }

  /** A generic type whose definition is assignable to `IList<>`. */
  predicate IsGenericList(t: TypeDesc) {
    t.Generic? && t.def.isIList
  }

  /** The exact-type table lookup, given which primitives the table lists. */
  function TableEntry(t: TypeDesc, chasonTable: bool): (r: Option<ParseMethod>)
    ensures r.Some? ==> r.value.ParseScalar? || r.value.ParseScalarArray?
  {
    match t
    case Scalar(p) =>
      if (if chasonTable then InChasonTable(p) else InPropertyTable(p)) then Some(ParseScalar(p)) else None
    case ArrayOf(Scalar(p)) =>
      if (if chasonTable then InChasonTable(p) else InPropertyTable(p)) then Some(ParseScalarArray(p)) else None
    case _ => None
  }

  /** The decision of `ChasonParser.GetParseMethodCall`: nullable first, then the
      28-entry table, then lists, then objects. The list rule builds
      `Expression.Call(parser, "ParseList", new[] { t })`: one type argument
      and no argument, while the only `ParseList` takes two type arguments
      and an element reader. No method binds, so building the call throws
      `InvalidOperationException`. */
  function ChasonGetParseMethodCall(t: TypeDesc): (r: Result<ParseMethod>)
    ensures r.Err? <==> IsGenericList(t)
    ensures r.Err? ==> r.error == InvalidOperation
    ensures r.Ok? ==> (t.NullableOf? <==> r.value.ParseNullable?)
    ensures r.Ok? && r.value.ParseNullable? ==> r.value.underlying == t.underlying
    ensures r.Ok? ==> ((r.value.ParseScalar? || r.value.ParseScalarArray?) <==>
              ((t.Scalar? && InChasonTable(t.prim)) || (t.ArrayOf? && t.elem.Scalar? && InChasonTable(t.elem.prim))))
    ensures r.Ok? && r.value.ParseScalar? ==> t == Scalar(r.value.prim)
    ensures r.Ok? && r.value.ParseScalarArray? ==> t == ArrayOf(Scalar(r.value.prim))
    ensures r.Ok? && r.value.ParseObject? ==> r.value.objectType == t
  {
    if t.NullableOf? then Ok(ParseNullable(t.underlying))
    else if TableEntry(t, true).Some? then Ok(TableEntry(t, true).value)
    else if t.Generic? && t.def.isIList then Err(InvalidOperation)
    else Ok(ParseObject(t))
  }

  /** The decision of `PropertyParser.GetParseMethodCall`: the 8-entry table,
      then lists, whose call throws as above, then objects. It has no
      nullable rule. */
  function PropertyGetParseMethodCall(t: TypeDesc): (r: Result<ParseMethod>)
    ensures r.Err? <==> IsGenericList(t)
    ensures r.Err? ==> r.error == InvalidOperation
    ensures r.Ok? ==> !r.value.ParseNullable?
    ensures r.Ok? ==> ((r.value.ParseScalar? || r.value.ParseScalarArray?) <==>
              ((t.Scalar? && InPropertyTable(t.prim)) || (t.ArrayOf? && t.elem.Scalar? && InPropertyTable(t.elem.prim))))
    ensures r.Ok? && r.value.ParseScalar? ==> t == Scalar(r.value.prim)
    ensures r.Ok? && r.value.ParseScalarArray? ==> t == ArrayOf(Scalar(r.value.prim))
    ensures r.Ok? ==> (r.value.ParseObject? <==> r.value == ParseObject(t) && TableEntry(t, false).None?)
  {
    if TableEntry(t, false).Some? then Ok(TableEntry(t, false).value)
    else if t.Generic? && t.def.isIList then Err(InvalidOperation)
    else Ok(ParseObject(t))
  }

  /** The two decisions agree except on nullable types, which only the
      parser's own table handles, and on table types only it lists, which the
      other decision reads as objects; both fail alike on list types. */
  lemma DispatchersAgree(t: TypeDesc)
    ensures !t.NullableOf? && (TableEntry(t, true).Some? ==> TableEntry(t, false).Some?)
            ==> ChasonGetParseMethodCall(t) == PropertyGetParseMethodCall(t)
    ensures !t.NullableOf? && TableEntry(t, true).Some? && TableEntry(t, false).None?
            ==> PropertyGetParseMethodCall(t) == Ok(ParseObject(t))
  {
  }

  /** How one element of an array is read: through `ParseString` (strings, and
      date and time values parsed from their text), `ParseNumber`, or
      `ParseTimeZoneInfo`, which always fails. */
  datatype ElementReader = ReadText | ReadNumber | ReadTimeZone

  function ReaderFor(p: Prim): (r: ElementReader)
    ensures r == ReadText <==> p in {String, DateTime, DateTimeOffset, TimeSpan}
    ensures r == ReadTimeZone <==> p == TimeZoneInfo
  {
    match p
    case String => ReadText
    case DateTime => ReadText
    case DateTimeOffset => ReadText
    case TimeSpan => ReadText
    case TimeZoneInfo => ReadTimeZone
    case _ => ReadNumber
  }
}
