/** The two mappings between known types and their data-contract names that
    `ChasonSerializerSettings.Lock()` fills. */
module TypeNames {
  import opened Utf16
  import opened Dispatch

  /** The name mappings `Lock()` leaves: every entry there was is still there;
      every known type's name is present and maps to a known type of that
      name (the last one enumerated, when names repeat); every entry is
      either kept or such a mapping. */
  ghost predicate NamesRegistered(before: map<Text, TypeDesc>, after: map<Text, TypeDesc>, known: set<TypeDesc>, fullName: TypeDesc -> Text) {
    && (forall n :: n in before ==> n in after)
    && (forall t :: t in known ==> fullName(t) in after)
    && (forall t :: t in known ==> after[fullName(t)] in known && fullName(after[fullName(t)]) == fullName(t))
    && (forall n :: n in after ==> (n in before && after[n] == before[n]) || (after[n] in known && fullName(after[n]) == n))
  }

  /** The type-to-name mapping `Lock()` leaves: every known type maps to its
      name; every other entry is kept. */
  ghost predicate TypesRegistered(before: map<TypeDesc, Text>, after: map<TypeDesc, Text>, known: set<TypeDesc>, fullName: TypeDesc -> Text) {
    && (forall t :: t in after <==> t in before || t in known)
    && (forall t :: t in known ==> after[t] == fullName(t))
    && (forall t :: t in before && t !in known ==> after[t] == before[t])
  }

  /** When distinct known types have distinct names, the two mappings `Lock()`
      fills are inverse on the known types. */
  lemma LockedMappingsInverse(nameToType: map<Text, TypeDesc>, typeToName: map<TypeDesc, Text>,
                              before: map<Text, TypeDesc>, typesBefore: map<TypeDesc, Text>, known: set<TypeDesc>, fullName: TypeDesc -> Text)
    requires NamesRegistered(before, nameToType, known, fullName)
    requires TypesRegistered(typesBefore, typeToName, known, fullName)
    requires forall t, u :: t in known && u in known && fullName(t) == fullName(u) ==> t == u
    ensures forall t :: t in known ==> typeToName[t] in nameToType && nameToType[typeToName[t]] == t
  {
    forall t | t in known
      ensures typeToName[t] in nameToType && nameToType[typeToName[t]] == t
    {
      var u := nameToType[fullName(t)];
      assert u in known && fullName(u) == fullName(t);
    }
  }

  /** Registering one more known type keeps the mapping invariant. */
  lemma RegisterName(before: map<Text, TypeDesc>, now: map<Text, TypeDesc>, done: set<TypeDesc>, t: TypeDesc, fullName: TypeDesc -> Text)
    requires NamesRegistered(before, now, done, fullName)
    ensures NamesRegistered(before, now[fullName(t) := t], done + {t}, fullName)
  {
  }
}

/** `ChasonSerializerSettings`: options that stay mutable until `Lock()`, after
    which every setter throws `InvalidOperationException`, the collections
    are wrapped read-only and the known types are mapped to and from their
    data-contract names. */
module Settings {
  import opened Utf16
  import opened Outcomes
  import opened Dispatch
  import opened ReadOnlyHashSets
  import opened ReadOnlyDictionaries
  import opened TypeNames

  const DEFAULT_DATE_TIME_FORMAT: Text := FromString("yyyy-MM-dd\\THH:mm:ss")
  const DEFAULT_DATE_TIME_OFFSET_FORMAT: Text := FromString("yyyy-MM-dd\\THH:mm:ss.ffffffzzz")
  const DEFAULT_TYPE_MARKER_NAME: Text := FromString("$type")
  const JAVASCRIPT_DATE_OBJECT_FORMAT: Text := FromString("\\/Date(t)\\/")
  const DEFAULT_TIME_SPAN_FORMAT: Text := FromString("c")
  /** `DateTimeStyles.None` and `TimeSpanStyles.None`. */
  const STYLES_NONE: int := 0

  /** The expression trees kept as custom readers and writers: the ones the
      format setters register, and any a caller passes in. */
  datatype Expression =
    | FormatDateTime            // writes with DateTimeFormat under the culture
    | ParseExactDateTime        // reads exactly DateTimeFormat under the culture and styles
    | WriteJavascriptDateTime   // JavascriptDateFormat.WriteTicks
    | ReadJavascriptDateTime    // JavascriptDateFormat.ReadTicks
    | FormatDateTimeOffset
    | ParseExactDateTimeOffset
    | FormatTimeSpan
    | ParseExactTimeSpan
    | UserExpression(id: nat)

  datatype Encoding = UTF8 | OtherEncoding(name: Text)
  datatype Culture = InvariantCulture | OtherCulture(name: Text)
  datatype NameComparer = OrdinalComparer | OtherComparer(id: nat)

  /** A type-name resolver delegate: unset, the default that reads the
      mappings of the settings object that created it, or a caller's own. */
  datatype Resolver = NoResolver | MappingsOf(owner: ChasonSerializerSettings) | UserResolver(id: nat)

  /** Every field of a settings object, for stating what an operation changes. */
  datatype Snapshot = Snapshot(
    readOnly: bool,
    textEncoding: Encoding,
    cultureInfo: Culture,
    dateTimeFormat: Option<Text>,
    dateTimeStyles: int,
    timeSpanStyles: int,
    timeSpanFormat: Option<Text>,
    dateTimeOffsetFormat: Option<Text>,
    propertyNameComparer: NameComparer,
    typeMarkerName: Option<Text>,
    typeNameResolver: Resolver,
    typeResolver: Resolver,
    outputFormattedJson: bool,
    nameToTypeMapping: map<Text, TypeDesc>,
    typeToNameMapping: map<TypeDesc, Text>,
    omitNullValues: bool,
    outputCamelCasePropertyNames: bool,
    knownTypes: SetRef<TypeDesc>,
    customStringReaders: DictRef<TypeDesc, Expression>,
    customStringWriters: DictRef<TypeDesc, Expression>,
    customNumberReaders: DictRef<TypeDesc, Expression>,
    customNumberWriters: DictRef<TypeDesc, Expression>)

  /** A snapshot with one reader and one writer set under the same type key. */
  function WithStringFormatter(s: Snapshot, t: TypeDesc, toString: Expression, fromString: Expression): Snapshot {
    s.(customStringWriters := Dictionary(Entries(s.customStringWriters)[t := toString]),
       customStringReaders := Dictionary(Entries(s.customStringReaders)[t := fromString]))
  }

  /** The settings after the parameterless constructor's three format setters. */
  function DefaultFormats(s: Snapshot): Snapshot {
    var s1 := WithStringFormatter(s.(dateTimeFormat := Some(DEFAULT_DATE_TIME_FORMAT)), Scalar(DateTime), FormatDateTime, ParseExactDateTime);
    var s2 := WithStringFormatter(s1.(dateTimeOffsetFormat := Some(DEFAULT_DATE_TIME_OFFSET_FORMAT)), Scalar(DateTimeOffset), FormatDateTimeOffset, ParseExactDateTimeOffset);
    WithStringFormatter(s2.(timeSpanFormat := Some(DEFAULT_TIME_SPAN_FORMAT)), Scalar(TimeSpan), FormatTimeSpan, ParseExactTimeSpan)
  }

  class ChasonSerializerSettings {
    var readOnly: bool
    var textEncoding: Encoding
    var cultureInfo: Culture
    var dateTimeFormat: Option<Text>
    var dateTimeStyles: int
    var timeSpanStyles: int
    var timeSpanFormat: Option<Text>
    var dateTimeOffsetFormat: Option<Text>
    var propertyNameComparer: NameComparer
    var typeMarkerName: Option<Text>
    var typeNameResolver: Resolver
    var typeResolver: Resolver
    var outputFormattedJson: bool
    var nameToTypeMapping: map<Text, TypeDesc>
    var typeToNameMapping: map<TypeDesc, Text>
    var omitNullValues: bool
    var outputCamelCasePropertyNames: bool
    var knownTypes: SetRef<TypeDesc>
    var customStringReaders: DictRef<TypeDesc, Expression>
    var customStringWriters: DictRef<TypeDesc, Expression>
    var customNumberReaders: DictRef<TypeDesc, Expression>
    var customNumberWriters: DictRef<TypeDesc, Expression>

    function State(): Snapshot
      reads this
    {
      Snapshot(readOnly, textEncoding, cultureInfo, dateTimeFormat, dateTimeStyles, timeSpanStyles,
               timeSpanFormat, dateTimeOffsetFormat, propertyNameComparer, typeMarkerName,
               typeNameResolver, typeResolver, outputFormattedJson, nameToTypeMapping, typeToNameMapping,
               omitNullValues, outputCamelCasePropertyNames, knownTypes,
               customStringReaders, customStringWriters, customNumberReaders, customNumberWriters)
    }

    /** The collections are read-only wrappers exactly when the settings are locked. */
    predicate Valid()
      reads this
    {
      && ReadOnlyHashSets.IsReadOnly(knownTypes) == readOnly
      && ReadOnlyDictionaries.IsReadOnly(customStringReaders) == readOnly
      && ReadOnlyDictionaries.IsReadOnly(customStringWriters) == readOnly
      && ReadOnlyDictionaries.IsReadOnly(customNumberReaders) == readOnly
      && ReadOnlyDictionaries.IsReadOnly(customNumberWriters) == readOnly
    }

    /** `EnsureNotReadOnly`. */
    function EnsureNotReadOnly(): (r: Result<()>)
      reads this
      ensures r.Err? <==> readOnly
      ensures r.Err? ==> r.error == InvalidOperation
    {
      if readOnly then Err(InvalidOperation) else Ok(())
    }

    /** The parameterless constructor: defaults set through the setters, which
        register the string formatters for `DateTime`, `DateTimeOffset` and `TimeSpan`. */
    constructor ()
      ensures Valid() && !readOnly
      ensures typeNameResolver == MappingsOf(this) && typeResolver == MappingsOf(this)
      ensures Entries(customStringWriters) ==
        map[Scalar(DateTime) := FormatDateTime, Scalar(DateTimeOffset) := FormatDateTimeOffset, Scalar(TimeSpan) := FormatTimeSpan]
      ensures Entries(customStringReaders) ==
        map[Scalar(DateTime) := ParseExactDateTime, Scalar(DateTimeOffset) := ParseExactDateTimeOffset, Scalar(TimeSpan) := ParseExactTimeSpan]
      ensures Entries(customNumberReaders) == map[] && Entries(customNumberWriters) == map[]
      ensures dateTimeFormat == Some(DEFAULT_DATE_TIME_FORMAT)
      ensures dateTimeOffsetFormat == Some(DEFAULT_DATE_TIME_OFFSET_FORMAT)
      ensures timeSpanFormat == Some(DEFAULT_TIME_SPAN_FORMAT)
      ensures cultureInfo == InvariantCulture && textEncoding == UTF8
      ensures Elements(knownTypes) == {}
      ensures timeSpanStyles == STYLES_NONE && dateTimeStyles == STYLES_NONE
      ensures propertyNameComparer == OrdinalComparer
      ensures typeMarkerName == Some(DEFAULT_TYPE_MARKER_NAME)
      ensures nameToTypeMapping == map[] && typeToNameMapping == map[]
      ensures !outputFormattedJson && !omitNullValues && !outputCamelCasePropertyNames
    {
      readOnly := false;
      textEncoding := UTF8;
      cultureInfo := InvariantCulture;
      dateTimeFormat := None;
      dateTimeStyles := STYLES_NONE;
      timeSpanStyles := STYLES_NONE;
      timeSpanFormat := None;
      dateTimeOffsetFormat := None;
      propertyNameComparer := OrdinalComparer;
      typeMarkerName := None;
      typeNameResolver := NoResolver;
      typeResolver := NoResolver;
      outputFormattedJson := false;
      nameToTypeMapping := map[];
      typeToNameMapping := map[];
      omitNullValues := false;
      outputCamelCasePropertyNames := false;
      knownTypes := HashSet({});
      customStringReaders := Dictionary(map[]);
      customStringWriters := Dictionary(map[]);
      customNumberReaders := Dictionary(map[]);
      customNumberWriters := Dictionary(map[]);
      new;
      // The two resolvers close over this object; the remaining setters
      // store the values the fields already hold, except the three format
      // setters, which also register their formatters.
      typeNameResolver := MappingsOf(this);
      typeResolver := MappingsOf(this);
      SetDefaultFormats();
      typeMarkerName := Some(DEFAULT_TYPE_MARKER_NAME);
    }

    /** The three format setter calls of the parameterless constructor, on
        unlocked settings: each stores its default format and registers the
        string formatters of its type. */
    method SetDefaultFormats()
      requires Valid() && !readOnly
      modifies this
      ensures Valid()
      ensures State() == DefaultFormats(old(State()))
    {
      ghost var s0 := State();
      assert DEFAULT_DATE_TIME_FORMAT != JAVASCRIPT_DATE_OBJECT_FORMAT by {
        assert |DEFAULT_DATE_TIME_FORMAT| != |JAVASCRIPT_DATE_OBJECT_FORMAT|;
      }
      var done := SetDateTimeFormat(Some(DEFAULT_DATE_TIME_FORMAT));
      done := SetDateTimeOffsetFormat(Some(DEFAULT_DATE_TIME_OFFSET_FORMAT));
      done := SetTimeSpanFormat(Some(DEFAULT_TIME_SPAN_FORMAT));
    }

    /** The copy constructor: an unlocked copy with collections of its own. It
        leaves the two date formats, the type marker name and the two output
        flags at their defaults, and it shares the resolver delegates, which
        keep reading the mappings of the object they came from. */
    constructor CopyOf(other: ChasonSerializerSettings)
      ensures Valid() && !readOnly
      ensures typeNameResolver == old(other.typeNameResolver) && typeResolver == old(other.typeResolver)
      ensures nameToTypeMapping == old(other.nameToTypeMapping) && typeToNameMapping == old(other.typeToNameMapping)
      ensures knownTypes == HashSet(Elements(old(other.knownTypes)))
      ensures timeSpanFormat == old(other.timeSpanFormat) && cultureInfo == old(other.cultureInfo)
      ensures textEncoding == old(other.textEncoding)
      ensures timeSpanStyles == old(other.timeSpanStyles) && dateTimeStyles == old(other.dateTimeStyles)
      ensures propertyNameComparer == old(other.propertyNameComparer) && omitNullValues == old(other.omitNullValues)
      ensures customStringWriters == Dictionary(Entries(old(other.customStringWriters)))
      ensures customStringReaders == Dictionary(Entries(old(other.customStringReaders)))
      ensures customNumberWriters == Dictionary(Entries(old(other.customNumberWriters)))
      ensures customNumberReaders == Dictionary(Entries(old(other.customNumberReaders)))
      ensures dateTimeFormat == None && dateTimeOffsetFormat == None && typeMarkerName == None
      ensures !outputFormattedJson && !outputCamelCasePropertyNames
    {
      readOnly := false;
      typeNameResolver := other.typeNameResolver;
      typeResolver := other.typeResolver;
      nameToTypeMapping := other.nameToTypeMapping;
      typeToNameMapping := other.typeToNameMapping;
      knownTypes := HashSet(Elements(other.knownTypes));
      timeSpanFormat := other.timeSpanFormat;
      cultureInfo := other.cultureInfo;
      textEncoding := other.textEncoding;
      timeSpanStyles := other.timeSpanStyles;
      dateTimeStyles := other.dateTimeStyles;
      propertyNameComparer := other.propertyNameComparer;
      omitNullValues := other.omitNullValues;
      customStringWriters := Dictionary(Entries(other.customStringWriters));
      customStringReaders := Dictionary(Entries(other.customStringReaders));
      customNumberWriters := Dictionary(Entries(other.customNumberWriters));
      customNumberReaders := Dictionary(Entries(other.customNumberReaders));
      dateTimeFormat := None;
      dateTimeOffsetFormat := None;
      typeMarkerName := None;
      outputFormattedJson := false;
      outputCamelCasePropertyNames := false;
    }

    /** `Clone()`: a fresh unlocked copy; the original is left as it was. */
    method Clone() returns (c: ChasonSerializerSettings)
      ensures fresh(c) && c.Valid() && !c.readOnly
      ensures Elements(c.knownTypes) == Elements(knownTypes)
      ensures Entries(c.customStringReaders) == Entries(customStringReaders)
      ensures Entries(c.customStringWriters) == Entries(customStringWriters)
      ensures Entries(c.customNumberReaders) == Entries(customNumberReaders)
      ensures Entries(c.customNumberWriters) == Entries(customNumberWriters)
      ensures c.typeNameResolver == typeNameResolver && c.typeResolver == typeResolver
      ensures c.dateTimeFormat == None && c.typeMarkerName == None
    {
      c := new ChasonSerializerSettings.CopyOf(this);
    }

    method SetTypeNameResolver(value: Resolver) returns (r: Result<()>)
      requires Valid()
      modifies this
      ensures Valid() && r == old(EnsureNotReadOnly())
      ensures r.Err? ==> State() == old(State())
      ensures r.Ok? ==> State() == old(State()).(typeNameResolver := value)
    {
      r := EnsureNotReadOnly();
      if r.Ok? {
        typeNameResolver := value;
      }
    }

    method SetTypeResolver(value: Resolver) returns (r: Result<()>)
      requires Valid()
      modifies this
      ensures Valid() && r == old(EnsureNotReadOnly())
      ensures r.Err? ==> State() == old(State())
      ensures r.Ok? ==> State() == old(State()).(typeResolver := value)
    {
      r := EnsureNotReadOnly();
      if r.Ok? {
        typeResolver := value;
      }
    }

    method SetTextEncoding(value: Encoding) returns (r: Result<()>)
      requires Valid()
      modifies this
      ensures Valid() && r == old(EnsureNotReadOnly())
      ensures r.Err? ==> State() == old(State())
      ensures r.Ok? ==> State() == old(State()).(textEncoding := value)
    {
      r := EnsureNotReadOnly();
      if r.Ok? {
        textEncoding := value;
      }
    }

    method SetCultureInfo(value: Culture) returns (r: Result<()>)
      requires Valid()
      modifies this
      ensures Valid() && r == old(EnsureNotReadOnly())
      ensures r.Err? ==> State() == old(State())
      ensures r.Ok? ==> State() == old(State()).(cultureInfo := value)
    {
      r := EnsureNotReadOnly();
      if r.Ok? {
        cultureInfo := value;
      }
    }

    /** The `DateTimeFormat` setter: the Javascript format registers the
        `\/Date(ticks)\/` formatter pair, any other the format-string pair. */
    method SetDateTimeFormat(value: Option<Text>) returns (r: Result<()>)
      requires Valid()
      modifies this
      ensures Valid() && r == old(EnsureNotReadOnly())
      ensures r.Err? ==> State() == old(State())
      ensures r.Ok? && value == Some(JAVASCRIPT_DATE_OBJECT_FORMAT) ==>
        State() == WithStringFormatter(old(State()).(dateTimeFormat := value), Scalar(DateTime), WriteJavascriptDateTime, ReadJavascriptDateTime)
      ensures r.Ok? && value != Some(JAVASCRIPT_DATE_OBJECT_FORMAT) ==>
        State() == WithStringFormatter(old(State()).(dateTimeFormat := value), Scalar(DateTime), FormatDateTime, ParseExactDateTime)
    {
      r := EnsureNotReadOnly();
      if r.Ok? {
        dateTimeFormat := value;
        if value == Some(JAVASCRIPT_DATE_OBJECT_FORMAT) {
          r := SetStringFormatter(Scalar(DateTime), WriteJavascriptDateTime, ReadJavascriptDateTime);
        } else {
          r := SetStringFormatter(Scalar(DateTime), FormatDateTime, ParseExactDateTime);
        }
      }
    }

    method SetDateTimeOffsetFormat(value: Option<Text>) returns (r: Result<()>)
      requires Valid()
      modifies this
      ensures Valid() && r == old(EnsureNotReadOnly())
      ensures r.Err? ==> State() == old(State())
      ensures r.Ok? ==>
        State() == WithStringFormatter(old(State()).(dateTimeOffsetFormat := value), Scalar(DateTimeOffset), FormatDateTimeOffset, ParseExactDateTimeOffset)
    {
      r := EnsureNotReadOnly();
      if r.Ok? {
        dateTimeOffsetFormat := value;
        r := SetStringFormatter(Scalar(DateTimeOffset), FormatDateTimeOffset, ParseExactDateTimeOffset);
      }
    }

    method SetDateTimeStyles(value: int) returns (r: Result<()>)
      requires Valid()
      modifies this
      ensures Valid() && r == old(EnsureNotReadOnly())
      ensures r.Err? ==> State() == old(State())
      ensures r.Ok? ==> State() == old(State()).(dateTimeStyles := value)
    {
      r := EnsureNotReadOnly();
      if r.Ok? {
        dateTimeStyles := value;
      }
    }

    method SetTimeSpanStyles(value: int) returns (r: Result<()>)
      requires Valid()
      modifies this
      ensures Valid() && r == old(EnsureNotReadOnly())
      ensures r.Err? ==> State() == old(State())
      ensures r.Ok? ==> State() == old(State()).(timeSpanStyles := value)
    {
      r := EnsureNotReadOnly();
      if r.Ok? {
        timeSpanStyles := value;
      }
    }

    method SetTimeSpanFormat(value: Option<Text>) returns (r: Result<()>)
      requires Valid()
      modifies this
      ensures Valid() && r == old(EnsureNotReadOnly())
      ensures r.Err? ==> State() == old(State())
      ensures r.Ok? ==>
        State() == WithStringFormatter(old(State()).(timeSpanFormat := value), Scalar(TimeSpan), FormatTimeSpan, ParseExactTimeSpan)
    {
      r := EnsureNotReadOnly();
      if r.Ok? {
        timeSpanFormat := value;
        r := SetStringFormatter(Scalar(TimeSpan), FormatTimeSpan, ParseExactTimeSpan);
      }
    }

    method SetOmitNullValues(value: bool) returns (r: Result<()>)
      requires Valid()
      modifies this
      ensures Valid() && r == old(EnsureNotReadOnly())
      ensures r.Err? ==> State() == old(State())
      ensures r.Ok? ==> State() == old(State()).(omitNullValues := value)
    {
      r := EnsureNotReadOnly();
      if r.Ok? {
        omitNullValues := value;
      }
    }

    method SetPropertyNameComparer(value: NameComparer) returns (r: Result<()>)
      requires Valid()
      modifies this
      ensures Valid() && r == old(EnsureNotReadOnly())
      ensures r.Err? ==> State() == old(State())
      ensures r.Ok? ==> State() == old(State()).(propertyNameComparer := value)
    {
      r := EnsureNotReadOnly();
      if r.Ok? {
        propertyNameComparer := value;
      }
    }

    method SetTypeMarkerName(value: Option<Text>) returns (r: Result<()>)
      requires Valid()
      modifies this
      ensures Valid() && r == old(EnsureNotReadOnly())
      ensures r.Err? ==> State() == old(State())
      ensures r.Ok? ==> State() == old(State()).(typeMarkerName := value)
    {
      r := EnsureNotReadOnly();
      if r.Ok? {
        typeMarkerName := value;
      }
    }

    method SetOutputFormattedJson(value: bool) returns (r: Result<()>)
      requires Valid()
      modifies this
      ensures Valid() && r == old(EnsureNotReadOnly())
      ensures r.Err? ==> State() == old(State())
      ensures r.Ok? ==> State() == old(State()).(outputFormattedJson := value)
    {
      r := EnsureNotReadOnly();
      if r.Ok? {
        outputFormattedJson := value;
      }
    }

    method SetOutputCamelCasePropertyNames(value: bool) returns (r: Result<()>)
      requires Valid()
      modifies this
      ensures Valid() && r == old(EnsureNotReadOnly())
      ensures r.Err? ==> State() == old(State())
      ensures r.Ok? ==> State() == old(State()).(outputCamelCasePropertyNames := value)
    {
      r := EnsureNotReadOnly();
      if r.Ok? {
        outputCamelCasePropertyNames := value;
      }
    }

    /** `SetStringFormatter<T>`: the writer and the reader stored under the type `t`,
        replacing any earlier pair. */
    method SetStringFormatter(t: TypeDesc, toString: Expression, fromString: Expression) returns (r: Result<()>)
      requires Valid()
      modifies this
      ensures Valid() && r == old(EnsureNotReadOnly())
      ensures r.Err? ==> State() == old(State())
      ensures r.Ok? ==> State() == WithStringFormatter(old(State()), t, toString, fromString)
    {
      r := EnsureNotReadOnly();
      if r.Ok? {
        SetOverwrites(Entries(customStringWriters), t, toString);
        SetOverwrites(Entries(customStringReaders), t, fromString);
        var writers := ReadOnlyDictionaries.Mutate(customStringWriters, ReadOnlyDictionaries.Set(t, toString));
        var readers := ReadOnlyDictionaries.Mutate(customStringReaders, ReadOnlyDictionaries.Set(t, fromString));
        customStringWriters := writers.value;
        customStringReaders := readers.value;
      }
    }

    /** `SetNumberFormatter<T>`: the same, in the number maps. */
    method SetNumberFormatter(t: TypeDesc, toNumber: Expression, fromNumber: Expression) returns (r: Result<()>)
      requires Valid()
      modifies this
      ensures Valid() && r == old(EnsureNotReadOnly())
      ensures r.Err? ==> State() == old(State())
      ensures r.Ok? ==> State() == old(State()).(
        customNumberWriters := Dictionary(Entries(old(customNumberWriters))[t := toNumber]),
        customNumberReaders := Dictionary(Entries(old(customNumberReaders))[t := fromNumber]))
    {
      r := EnsureNotReadOnly();
      if r.Ok? {
        SetOverwrites(Entries(customNumberWriters), t, toNumber);
        SetOverwrites(Entries(customNumberReaders), t, fromNumber);
        var writers := ReadOnlyDictionaries.Mutate(customNumberWriters, ReadOnlyDictionaries.Set(t, toNumber));
        var readers := ReadOnlyDictionaries.Mutate(customNumberReaders, ReadOnlyDictionaries.Set(t, fromNumber));
        customNumberWriters := writers.value;
        customNumberReaders := readers.value;
      }
    }

    /** `SetDictionaryFormatter<T>`: stored in the string maps, like `SetStringFormatter`. */
    method SetDictionaryFormatter(t: TypeDesc, toDictionary: Expression, fromDictionary: Expression) returns (r: Result<()>)
      requires Valid()
      modifies this
      ensures Valid() && r == old(EnsureNotReadOnly())
      ensures r.Err? ==> State() == old(State())
      ensures r.Ok? ==> State() == WithStringFormatter(old(State()), t, toDictionary, fromDictionary)
    {
      r := EnsureNotReadOnly();
      if r.Ok? {
        SetOverwrites(Entries(customStringWriters), t, toDictionary);
        SetOverwrites(Entries(customStringReaders), t, fromDictionary);
        var writers := ReadOnlyDictionaries.Mutate(customStringWriters, ReadOnlyDictionaries.Set(t, toDictionary));
        var readers := ReadOnlyDictionaries.Mutate(customStringReaders, ReadOnlyDictionaries.Set(t, fromDictionary));
        customStringWriters := writers.value;
        customStringReaders := readers.value;
      }
    }

    /** The `foreach` of `Lock()` over the known types, in whatever order the
        set enumerates them: each type is mapped to its name and its name to it. */
    method RegisterKnownTypes(fullName: TypeDesc -> Text)
      modifies this
      ensures TypesRegistered(old(typeToNameMapping), typeToNameMapping, Elements(knownTypes), fullName)
      ensures NamesRegistered(old(nameToTypeMapping), nameToTypeMapping, Elements(knownTypes), fullName)
      ensures State() == old(State()).(typeToNameMapping := typeToNameMapping, nameToTypeMapping := nameToTypeMapping)
    {
      ghost var known := Elements(knownTypes);
      var types, names := typeToNameMapping, nameToTypeMapping;
      var remaining := Elements(knownTypes);
      while remaining != {}
        invariant remaining <= known
        invariant unchanged(this)
        invariant TypesRegistered(typeToNameMapping, types, known - remaining, fullName)
        invariant NamesRegistered(nameToTypeMapping, names, known - remaining, fullName)
        decreases remaining
      {
        var knownType :| knownType in remaining;
        var name := fullName(knownType);
        RegisterName(nameToTypeMapping, names, known - remaining, knownType, fullName);
        types := types[knownType := name];
        names := names[name := knownType];
        remaining := remaining - {knownType};
        assert known - remaining == (known - (remaining + {knownType})) + {knownType};
      }
      typeToNameMapping, nameToTypeMapping := types, names;
    }

    /** `Lock()`, with `Reflect.GetDataContractFullName` as `fullName`: the first
        call marks the settings read-only, wraps the known types, maps each
        known type to its name and back, and wraps the four custom maps; a
        later call changes nothing. */
    method Lock(fullName: TypeDesc -> Text)
      requires Valid()
      modifies this
      ensures Valid() && readOnly
      ensures old(readOnly) ==> State() == old(State())
      ensures !old(readOnly) ==>
        && knownTypes == NewReadOnlyHashSet(old(knownTypes))
        && customStringReaders == NewReadOnlyDictionary(old(customStringReaders))
        && customStringWriters == NewReadOnlyDictionary(old(customStringWriters))
        && customNumberReaders == NewReadOnlyDictionary(old(customNumberReaders))
        && customNumberWriters == NewReadOnlyDictionary(old(customNumberWriters))
        && TypesRegistered(old(typeToNameMapping), typeToNameMapping, Elements(old(knownTypes)), fullName)
        && NamesRegistered(old(nameToTypeMapping), nameToTypeMapping, Elements(old(knownTypes)), fullName)
        && State() == old(State()).(
             readOnly := true, knownTypes := knownTypes, typeToNameMapping := typeToNameMapping,
             nameToTypeMapping := nameToTypeMapping,
             customStringReaders := customStringReaders, customStringWriters := customStringWriters,
             customNumberReaders := customNumberReaders, customNumberWriters := customNumberWriters)
    {
      if !readOnly {
        readOnly := true;
        knownTypes := NewReadOnlyHashSet(knownTypes);
        RegisterKnownTypes(fullName);
        customStringReaders := NewReadOnlyDictionary(customStringReaders);
        customStringWriters := NewReadOnlyDictionary(customStringWriters);
        customNumberReaders := NewReadOnlyDictionary(customNumberReaders);
        customNumberWriters := NewReadOnlyDictionary(customNumberWriters);
      }
    }
  }

  /** The constructor taking the known types: the defaults, then a set of those types. */
  method WithKnownTypes(types: set<TypeDesc>) returns (s: ChasonSerializerSettings)
    ensures fresh(s) && s.Valid() && !s.readOnly
    ensures Elements(s.knownTypes) == types
    ensures s.typeNameResolver == MappingsOf(s) && s.typeResolver == MappingsOf(s)
    ensures Entries(s.customStringWriters) ==
      map[Scalar(DateTime) := FormatDateTime, Scalar(DateTimeOffset) := FormatDateTimeOffset, Scalar(TimeSpan) := FormatTimeSpan]
    ensures Entries(s.customStringReaders) ==
      map[Scalar(DateTime) := ParseExactDateTime, Scalar(DateTimeOffset) := ParseExactDateTimeOffset, Scalar(TimeSpan) := ParseExactTimeSpan]
  {
    s := new ChasonSerializerSettings();
    s.knownTypes := HashSet(types);
  }
}
