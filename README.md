# Chason core, modelled in Dafny

Chason is a strongly-typed JSON serializer for .NET. This project models the
parts of it that are plain sequential logic over character buffers, lookup
tables and flags, and proves what that logic promises:

- **The tokenizer and recursive-descent decoder** (`ChasonParser` and its
  near-twin `JsonParser`). Each parser is a class with the JSON text as a
  constant, a mutable `index` and a one-token lookahead cache. `NextTokenCore`,
  `LookAhead`, `NextToken`, `ConsumeToken`, `ParseString`, `ParseNumber`,
  `ParseList`, `ParseObject` and `ParseNullable` are methods with the source's
  loops. Each is proved against a specification function in the modules
  `JsonText` and `Decoding`:
  - `ScanToken`: which token comes next and where it ends;
  - `DecodeString`: the unescaped string body;
  - `NumberSpan`: the raw number text;
  - `ListLoop`, `ObjectSpec` and `ObjectLoop`: the two collection loops;
  - `NullableSpec`: a nullable value.

  Properties of those functions are proved as lemmas: the token scan is sound
  and complete, the fast path of `ParseString` agrees with the general path,
  and `\uXXXX` gives the code unit of its four hex digits.
- **String encoding and name formatting.**
  - `EscapeString` / `JsonEscapeString` quote a string and escape the eight
    characters `" \ CR LF TAB / BS FF`. The main theorem is that decoding
    the escaped text gives the original string back.
  - `CamelCase` is proved against a specification function, with the pinned
    examples proved as lemmas.
  - `Indent` / `LineFeedIndent` are modelled with 32-bit wrap-around.
  - `WriteObject` emits the step list: `{`, a key step and a value step per
    member, then `}`. Rendering those steps and reading them back with
    `ParseObject` gives back the written string members.
- **Member dispatch for decoding** (`PropertyParseList`, `MemberParseList`,
  `PropertyParser`, `Reflect`). Both parse lists are classes. Each holds:
  - the sorted `sequential` parsers;
  - the `setters` dictionary;
  - the persistent forward-only cursor.

  Whatever the cursor state, `Parse(name)` selects the parser registered under
  `name`. An unknown key is `KeyNotFoundException` in `PropertyParseList` and
  a skip in `MemberParseList`. Construction fails on a type without a
  parameterless constructor, on a list-typed member (without a custom reader,
  for `MemberParseList`), on a member that cannot be assigned (a property
  without a setter, or for `MemberParseList` also a `readonly` field), and on
  two members with the same name, whichever member fails first.
  `GetObjectMemberContracts` filters the data members and sorts them by
  `(Order, Name)`. The two `GetParseMethodCall` dispatchers pick a parse
  method by type, in priority order.
- **Settings lock state machine and read-only wrappers**
  (`ChasonSerializerSettings`, `ReadOnlyHashSet`, `ReadOnlyDictionary`). The
  settings are a class:
  - every setter throws `InvalidOperationException` once `Lock()` has run,
    and otherwise changes exactly its own field;
  - `Lock()` is idempotent, builds the name and type maps and wraps the
    collections read-only;
  - `Clone()` returns an unlocked copy without the fields the copy
    constructor forgets.

  The wrappers are values: queries answer as the wrapped collection does, and
  mutations fail with `NotSupportedException`.
- **Javascript-date tick arithmetic** (`DateTimeExtensions`) with C#'s
  truncating division and unchecked 64-bit arithmetic. The `\/Date(ticks)\/`
  string formatter the `DateTimeFormat` setter registers is the module
  `JavascriptDateFormat`.

C# `char` is `Utf16.CodeUnit`, a 16-bit newtype; a lone surrogate is a
legitimate value. Strings are sequences of code units. Each exception the
source throws is a constructor of `Outcomes.Error` carried in a `Result`.

Where the code and its comments disagree, the model follows the code:
- `GetObjectMemberContracts` ignores its `isOptOut` flag because the query
  flat-maps over the `DataMember` attributes (`Reflect.GetObjectMemberContractsSpec`);
- `ReadOnlyDictionary.Count` always reads 0 (see Findings);
- the list rule of both `GetParseMethodCall` dispatchers builds a `ParseList` call with one type argument and no argument, which no `ParseList` overload accepts. It therefore throws `InvalidOperationException`, and a type with an `IList<>` member has no parse list;
- `NextTokenCore` at the end of the buffer reads `json[index]` before any
  bounds check. It is modelled as `IndexOutOfRangeException`
  (`Err(IndexOutOfRange)`), not as a precondition, so that `ParseList` and
  `ParseObject` can run off the end of their input as the source does.

## Model

| member | source | states |
|---|---|---|
| ChasonParsing.ChasonParser.constructor | Chason/ChasonParser.cs:107-111 | the parser starts at index 0 with an empty lookahead cache, over the given text |
| ChasonParsing.ChasonParser.NextTokenCore | Chason/ChasonParser.cs:616-715 | the token and the new index are those of `ScanToken`: whitespace is only space/TAB/LF/CR, the first significant unit picks the token, keywords need the whole word; whitespace to the end fails with the index at the end, an unknown unit fails naming its own index, a start at the end is `IndexOutOfRange`; the cache is untouched |
| ChasonParsing.ChasonParser.LookAhead | Chason/ChasonParser.cs:589-597 | a cached token is returned with the state unchanged; otherwise the scanned token is cached and the index moves past it |
| ChasonParsing.ChasonParser.NextToken | Chason/ChasonParser.cs:603-608 | returns the cached token if there is one, else scans; the cache is empty afterwards |
| ChasonParsing.ChasonParser.ConsumeToken | Chason/ChasonParser.cs:580-583 | clears the cache and leaves the index where it is |
| ChasonParsing.ChasonParser.ParseString | Chason/ChasonParser.cs:841-944 | the result and the index just past the closing quote are `DecodeString` from the current index; unterminated input fails with the index at the end |
| ChasonParsing.ChasonParser.ParseNumber | Chason/ChasonParser.cs:723-749 | returns the maximal run of number units starting at the unit that produced the `Number` token, and stops on the first other unit; a run reaching the end of input fails |
| ChasonParsing.ChasonParser.ParseTimeZoneInfo | Chason/ChasonParser.cs:495-499 | always fails with `NotSupportedException` |
| ChasonParsing.ChasonParser.ParseElement | Chason/ChasonParser.cs:266-508 | one list element read by the reader its element type selects (string, number, or the time-zone reader), as `ReadElement` states |
| ChasonParsing.ChasonParser.ParseList | Chason/ChasonParser.cs:520-542 | outcome equals `ListLoop`: elements in input order, commas skipped, `]` ends the list |
| ChasonParsing.ChasonParser.ParseNullableAsWritten | Chason/ChasonParser.cs:552-567 | the code as written: whatever the lookahead token, the value is read by `ParseString` (`NullableAsWritten`) |
| ChasonParsing.ChasonParser.ParseNullable | Chason/ChasonParser.cs:552-567 | the corrected reading: a `null` token gives null; a number token's span, the word of a `true`/`false` token, or a string token's decoded text is handed to the try-parse delegate; the result is null exactly when the delegate fails (`NullableSpec`) |
| ChasonParsing.ChasonParser.RunStep | Chason/ChasonParser.cs:226-256 | runs the parse method the dispatcher bound for a member (a scalar, a scalar array, a nullable or an object), with the same outcome as `Decoding.RunStep` |
| ChasonParsing.ChasonParser.ParseObject | Chason/ChasonParser.cs:759-806 | outcome equals `ObjectSpec`: the lookahead must be `{`, then the member loop runs |
| ChasonParsing.ChasonParser.ParseMembers | Chason/ChasonParser.cs:769-805 | the member loop equals `ObjectLoop`: commas (repeated or leading too) are skipped, `}` ends the object with the members read, any other token starts a member |
| ChasonParsing.ChasonParser.ParseMember | Chason/ChasonParser.cs:784-803 | one member equals `MemberSpec`: the key is read as a string whatever its token was, then a colon must follow (otherwise `ExpectedColon` naming the index), then the value's token is looked at and its step runs |
| ChasonParsing.ChasonParser.ParseNamedValue | Chason/ChasonParser.cs:794-795 | the value runs the step registered under the key for the type being read; a key absent from the table fails with `KeyNotFoundException` |
| JsonParsing.JsonParser.constructor | Chason/JsonParser.cs:49-52 | starts at index 0 with an empty cache |
| JsonParsing.JsonParser.NextTokenCore | Chason/JsonParser.cs:390-500 | the same `ScanToken` specification as the Chason tokenizer: same whitespace set, classification, keyword matching and error index |
| JsonParsing.JsonParser.LookAhead | Chason/JsonParser.cs:371-376 | the same peek law as `ChasonParser.LookAhead` |
| JsonParsing.JsonParser.NextToken | Chason/JsonParser.cs:383-388 | the same next-token law; the cache is empty afterwards |
| JsonParsing.JsonParser.ConsumeToken | Chason/JsonParser.cs:378-381 | clears the cache without moving the index |
| JsonParsing.JsonParser.ParseString | Chason/JsonParser.cs:203-299 | the same `DecodeString` specification as `ChasonParser.ParseString`, so the two agree on every buffer and start index |
| JsonParsing.JsonParser.ParseNumber | Chason/JsonParser.cs:329-354 | the same maximal number span from the token's unit, failing at the end of input |
| JsonParsing.JsonParser.ParseElement | Chason/JsonParser.cs:119-142 | one list element read by the reader of its element type |
| JsonParsing.JsonParser.ParseList | Chason/JsonParser.cs:144-167 | outcome equals `ListLoop`: order kept, `]` ends |
| JsonParsing.JsonParser.RunStep | Chason/PropertyParser.cs:31-48 | runs the step the `PropertyParser` dispatcher chose, as `Decoding.RunStep` with the `JsonParser` readers |
| JsonParsing.JsonParser.ParseObject | Chason/JsonParser.cs:71-117 | outcome equals `ObjectSpec`: requires `{`, and a `:` after each key |
| JsonParsing.JsonParser.ParseMembers | Chason/JsonParser.cs:81-116 | the member loop equals `ObjectLoop`: commas skipped, `}` ends, any other token starts a member |
| JsonParsing.JsonParser.ParseMember | Chason/JsonParser.cs:96-112 | one member equals `MemberSpec`: key read as a string, a colon required, then the registered step |
| JsonParsing.JsonParser.ParseNamedValue | Chason/JsonParser.cs:106-107 | runs the registered step for the key, `KeyNotFoundException` otherwise |
| JsonText.SkipWhitespace | Chason/ChasonParser.cs:620-640 | stops at the first unit that is not space/TAB/LF/CR, having passed only such units |
| JsonText.Classify | Chason/ChasonParser.cs:642-714 | a recognised token ends after its first unit, or after its whole keyword |
| JsonText.ScanToken | Chason/ChasonParser.cs:616-715 | a scanned token always ends past the start |
| JsonText.SkipWhitespaceStopsAt | Chason/ChasonParser.cs:620-635 | whitespace up to a non-whitespace unit is skipped exactly to that unit |
| JsonText.KeywordLetters | Chason/ChasonParser.cs:686-711 | `true`/`false`/`null` start with a letter no single-unit token uses, and that letter selects the keyword |
| JsonText.ScanTokenSound | Chason/ChasonParser.cs:616-715 | a scanned token is preceded only by whitespace and is spelled at the first significant unit |
| JsonText.ScanTokenComplete | Chason/ChasonParser.cs:616-715 | whitespace followed by a spelled token always scans as that token, ending where the spelling ends |
| JsonText.ScanTokenEndOfInput | Chason/ChasonParser.cs:635-640 | "end of string" happens exactly when only whitespace remains |
| JsonText.ScanTokenNoToken | Chason/ChasonParser.cs:648-714 | the failing index names the first significant unit, which is neither a single-unit token nor the start of a complete keyword |
| JsonText.HexValue | Chason/ChasonParser.cs:816-833 | a hex digit's value is at most 15; other units count 0 |
| JsonText.ParseSingleChar | Chason/ChasonParser.cs:816-833 | the scaled nibble is at most 15 times the multiplier |
| JsonText.HexDigitValue | Chason/ChasonParser.cs:816-833 | the value of a hex digit scaled by the multiplier |
| JsonText.ParseUnicodeOfHex | Chason/ChasonParser.cs:958-965 | four hex digits give `0x1000a + 0x100b + 0x10c + d`, so the result fits a code unit |
| JsonText.DecodeString | Chason/ChasonParser.cs:841-944 | on success the text ends just past a quote and the accumulated prefix is kept; every failure is "unterminated string" |
| JsonText.DecodeStringAccumulates | Chason/ChasonParser.cs:869-940 | decoding with an accumulator prepends that accumulator to the result of decoding from empty |
| JsonText.DecodeStringShifts | Chason/ChasonParser.cs:869-940 | a prefix in front of the accumulator is carried through unchanged |
| JsonText.EscapeStep | Chason/ChasonParser.cs:889-940 | an escape always advances and only appends: the eight escapes give their unit, `\u` with four units left gives one unit, an unknown letter or a short `\u` appends nothing |
| JsonText.FastStep | Chason/ChasonParser.cs:855-887 | one step of the no-builder scan advances and keeps the run start behind the index |
| JsonText.ScanString | Chason/ChasonParser.cs:841-944 | the scan loop computes `FastDecode` from the start |
| JsonText.ReadEscape | Chason/ChasonParser.cs:889-940 | the escape branch chain computes `EscapeStep` |
| JsonText.FinishString | Chason/ChasonParser.cs:855-865 | at the closing quote the result is the pending run (the substring when nothing was escaped) |
| JsonText.FastDecodeAgrees | Chason/ChasonParser.cs:855-865 | the substring fast path and the builder path give the same string and end index |
| JsonText.EscapableListed | Chason/ChasonSerializer.cs:29 | the escapable units are exactly the `CharsToEscape` array |
| JsonText.Quoted | Chason/ChasonSerializer.cs:116-172 | a quoted string is two units longer than its escaped body and starts and ends with a quote |
| JsonText.EscapedOrNull | Chason/ChasonSerializer.cs:109-114 | null gives the unquoted `null`; any string gives its quoted form |
| JsonText.EscapedConcat | Chason/ChasonSerializer.cs:126-168 | escaping distributes over concatenation |
| JsonText.EscapedPlain | Chason/ChasonSerializer.cs:116-123 | a string free of escapable units escapes to itself |
| JsonText.UnescapeEscapeLetter | Chason/ChasonParser.cs:889-940 | each of the eight escape letters decodes to the unit it escapes, and none is `u` |
| JsonText.DecodeEscapedUnit | Chason/ChasonParser.cs:869-940 | decoding one escaped unit appends that unit and moves past its escape |
| JsonText.DecodeEscaped | Chason/ChasonParser.cs:841-944 | decoding escaped text followed by a quote returns the original text, ending past the quote |
| JsonText.DecodeQuoted | Chason/ChasonParser.cs:841-944 | `ParseString` just after the opening quote of `EscapeString(s)` returns `s`, ending at the end of the quoted text, whatever follows |
| JsonText.ScanNumber | Chason/ChasonParser.cs:728-743 | the end of the maximal run of `[0-9.+-eE]`; a run to the end of input fails |
| Decoding.NumberSpan | Chason/ChasonParser.cs:723-749 | the span starts at `index-1`, the unit that produced the `Number` token (not itself checked); every unit from `index` to the span's end is a number unit, and the unit after it is not one |
| Decoding.ReadElement | Chason/ChasonParser.cs:266-508 | an element read never moves the index backwards or past the end |
| Decoding.ListLoop | Chason/ChasonParser.cs:520-542 | a finished list extends the elements already read and ends just past its `]`: the unit before the end index is `]` |
| Decoding.ListLoopStopsAtClose | Chason/ChasonParser.cs:533-535 | whitespace then `]` ends the loop just past the `]`, with no element added |
| Decoding.ObjectSpec | Chason/ChasonParser.cs:759-806 | a parsed object ends within the text |
| Decoding.ObjectLoop | Chason/ChasonParser.cs:769-805 | a finished member loop ends past its start |
| Decoding.MemberSpec | Chason/ChasonParser.cs:784-803 | a member ends past its key |
| Decoding.RunStep | Chason/ChasonParser.cs:226-256 | a parse step ends within the text |
| Decoding.TryParsed | Chason/ChasonParser.cs:552-567 | the nullable value is present exactly when the try-parse delegate succeeds, and is then the parsed text |
| Decoding.NullableSpec | Chason/ChasonParser.cs:552-567 | a nullable read yields a nullable value and ends within the text; `true` and `false` reach the delegate as their words |
| Decoding.NullableAsWritten | Chason/ChasonParser.cs:552-567 | as written, a nullable value is read only if a closing quote follows; every failure is "unterminated string" |
| Decoding.NullableMisreadsNumber | Chason/ChasonParser.cs:552-567 | on `5}` with the `Number` token cached, the code as written fails and the corrected reading passes `5` to the delegate |
| Decoding.NullableMisreadsBoolean | Chason/ChasonParser.cs:552-567 | on `true}` with the `True` token cached, the code as written fails and the corrected reading passes `true` to the delegate, ending after the word |
| Dispatch.TableEntry | Chason/ChasonParser.cs:41-71 | the exact-type table yields only scalar and scalar-array readers |
| Dispatch.ChasonGetParseMethodCall | Chason/ChasonParser.cs:226-256 | `Nullable<T>` first, then the exact-type table (scalars and their arrays), else `ParseObject` of the type; an `IList<>` generic fails with `InvalidOperationException`, because the `ParseList` call it builds (one type argument, no argument) binds to no method |
| Dispatch.PropertyGetParseMethodCall | Chason/PropertyParser.cs:31-48 | table hit first (string, int, long, decimal and their arrays), otherwise `ParseObject`, never `ParseNullable`; an `IList<>` generic fails with `InvalidOperationException`, as its `ParseList` call cannot bind |
| Dispatch.DispatchersAgree | Chason/PropertyParser.cs:11-48 | the two dispatchers agree on every non-nullable type both tables cover or neither does, list types included; a type only the Chason table lists becomes `ParseObject` in the other |
| Dispatch.ReaderFor | Chason/ChasonParser.cs:437-508 | strings and the date/time types are read as text, `TimeZoneInfo` by the failing reader, every other primitive as a number |
| Serializing.EscapeString | Chason/ChasonSerializer.cs:109-173 | the output is `null` for null, otherwise the quoted text with each escapable unit replaced by its two-unit escape |
| Serializing.WriterMembersSpec | Chason/ChasonSerializer.cs:295 | the writer's members are sorted by `(Name, Order)`, are a permutation of the data-member rows, and are exactly the properties with a `DataMember` attribute |
| Serializing.MemberStepsShape | Chason/ChasonSerializer.cs:298-313 | two steps per member in order: the key text (comma-free for the first only), then the value step |
| Serializing.ObjectStepsShape | Chason/ChasonSerializer.cs:289-316 | `{`, then key and value steps per member, then `}`; string members through `EscapeString`, others literal |
| Serializing.MemberStepsSnoc | Chason/ChasonSerializer.cs:298-313 | appending a member appends its key and value steps, with a comma unless it is the first |
| Serializing.WriteObject | Chason/ChasonSerializer.cs:289-316 | the loop with its `first` flag emits exactly `ObjectSteps` |
| Serializing.RenderMemberSteps | Chason/ChasonSerializer.cs:370-379 | the rendered members are the first key text and value followed by the rest |
| Serializing.RenderObjectSteps | Chason/ChasonSerializer.cs:289-316 | the rendered object is the members between `{` and `}` |
| Serializing.RenderConcat | Chason/ChasonSerializer.cs:289-316 | rendering distributes over concatenation of step lists |
| Serializing.PlainReadsBack | Chason/ChasonParser.cs:855-865 | a plain key followed by a quote decodes to itself |
| Serializing.ValueReadsBack | Chason/ChasonParser.cs:841-944 | a written string value is read back as that string by the string step |
| Serializing.MemberTakesSteps | Chason/ChasonParser.cs:784-803 | key, colon and a string token followed by a successful step make a member |
| Serializing.MemberValueReadsBack | Chason/ChasonParser.cs:784-803 | a key, a colon and a written string value read back as that member |
| Serializing.MemberReadsBack | Chason/ChasonSerializer.cs:370-379 | the text `"name":` followed by a written string value reads back as the member `(name, value)` |
| Serializing.KeyReadsBack | Chason/ChasonSerializer.cs:370-379 | the key text scans as a string token, decodes to the name and is followed by a colon |
| Serializing.QuotedReadsBack | Chason/ChasonSerializer.cs:109-173 | a written string value scans as a string token and reads back |
| Serializing.LoopSkipsComma | Chason/ChasonParser.cs:775-777 | a comma is skipped by the member loop |
| Serializing.LoopStopsAtClose | Chason/ChasonParser.cs:779-781 | `}` ends the member loop with the members read so far |
| Serializing.LoopTakesMember | Chason/ChasonParser.cs:783-803 | a string token and a member advance the loop with that member appended |
| Serializing.RenderFirstMember | Chason/ChasonSerializer.cs:370-379 | the first rendered string member is its key text and its quoted value |
| Serializing.LoopReadsMember | Chason/ChasonSerializer.cs:300-313 | a written separator, key and string value advance the reader's loop by exactly that member |
| Serializing.FirstMemberReadsBack | Chason/ChasonSerializer.cs:300-313 | reading the first written member leaves the reader at the rest of the written members |
| Serializing.MembersReadBack | Chason/ChasonSerializer.cs:289-316 | the written members followed by `}` read back as the assignments of those members, in writer order |
| Serializing.WrittenObjectReadsBack | Chason/ChasonSerializer.cs:289-316 | an object written by `WriteObject` and read by `ParseObject` gives each string member's name and value, in writer order, ending at the end of the written text |
| Serializing.ListReadsBack | Chason/ChasonParser.cs:520-542 | with the string reader, the quoted strings `"e1","e2",…]` read back as `[Str(e1), Str(e2), …]` in order, appended to what was read, and the loop ends just past the `]`, whatever follows |
| Serializing.ChasonSerializer.constructor | Chason/ChasonSerializer.cs:89-97 | the settings it is given end up locked, so every later setter throws: if they already were, they are unchanged; otherwise, as `Lock()` does, the known types and custom reader/writer tables become read-only copies, each known type's full name is registered in both directions, and nothing else changes |
| StringExtensions.IndexOfEscapable | Chason/Extensions/StringExtensions.cs:77 | the first escapable unit from the given index, or -1 when there is none |
| StringExtensions.EscapedRun | Chason/Extensions/StringExtensions.cs:84-124 | a run of plain units and one escapable unit escape to the run and that unit's escape |
| StringExtensions.EscapeLoopStep | Chason/Extensions/StringExtensions.cs:84-124 | each loop turn keeps the builder equal to the quote and the escaped prefix |
| StringExtensions.EscapeLoopEnd | Chason/Extensions/StringExtensions.cs:126-130 | the tail and the closing quote complete the quoted text |
| StringExtensions.JsonEscapeString | Chason/Extensions/StringExtensions.cs:67-131 | the output is `null` for null, otherwise the quoted escaped text; the same as `ChasonSerializer.EscapeString` on every input |
| StringExtensions.EscapeOf | Chason/Extensions/StringExtensions.cs:88-119 | the eight-branch switch gives each escapable unit its two-unit escape, `/` becoming `\/` |
| StringExtensions.EscapeThenDecode | Chason/Extensions/StringExtensions.cs:67-131 | `ParseString` applied just past the opening quote of the escaped text returns the original string |
| StringExtensions.EscapePlainString | Chason/Extensions/StringExtensions.cs:67-131 | a string with no escapable unit is only quoted |
| StringExtensions.ToLower | Chason/Extensions/StringExtensions.cs:47-48 | an upper-case letter becomes lower case; anything else is unchanged |
| StringExtensions.LoweringEnd | Chason/Extensions/StringExtensions.cs:34-58 | where lowering stops: never past position 4, at the first unit that does not keep lowering |
| StringExtensions.CamelCased | Chason/Extensions/StringExtensions.cs:27-59 | the output has the input's length |
| StringExtensions.CamelCase | Chason/Extensions/StringExtensions.cs:27-59 | null stays null; otherwise the loop with its `lowering` flag computes `CamelCased` |
| StringExtensions.CamelCasedShape | Chason/Extensions/StringExtensions.cs:34-58 | positions 4 and beyond are copied, everything after lowering stops is copied, and everything before it was upper case and is lowered |
| StringExtensions.CamelCasedLowerStart | Chason/Extensions/StringExtensions.cs:38-55 | a string not starting upper-case is returned unchanged |
| StringExtensions.CamelCasedWordStart | Chason/Extensions/StringExtensions.cs:38-50 | an upper-case unit at 1..3 followed by lower case stays upper and ends lowering; the capitals before it are lowered |
| StringExtensions.CamelCasedAcronym | Chason/Extensions/StringExtensions.cs:38-50 | `ACLSettings` becomes `aclSettings` |
| StringExtensions.CamelCasedAllCapitals | Chason/Extensions/StringExtensions.cs:38-50 | `TEST` becomes `test` |
| StringExtensions.CamelCasedPascal | Chason/Extensions/StringExtensions.cs:38-50 | `PascalCasing` becomes `pascalCasing` |
| StringExtensions.CamelCasedAlready | Chason/Extensions/StringExtensions.cs:51-55 | `camelCasing` is unchanged |
| StringExtensions.WrapInt32 | Chason/Extensions/StringExtensions.cs:142 | `int` multiplication wraps modulo 2^32 into the signed range |
| StringExtensions.Spaces | Chason/Extensions/StringExtensions.cs:142 | `new string(' ', n)` is n spaces |
| StringExtensions.Indent | Chason/Extensions/StringExtensions.cs:140-143 | `2·depth` spaces for `0 <= depth < 2^30`; a depth whose wrapped double is negative throws `ArgumentOutOfRangeException`: every depth in `[-2^30, 0)` and every depth of `2^30` or more; a depth below -2^30 wraps to a positive count |
| StringExtensions.LineFeedIndent | Chason/Extensions/StringExtensions.cs:145-148 | the newline text followed by `Indent(depth)`, failing exactly when `Indent` does |
| Cursors.CursorAfter | Chason/PropertyParseList.cs:111-120 | the cursor moves forward only, passes over non-matching names, stops just past the first match, and runs to the end when there is none |
| Cursors.CursorFollowsSequence | Chason/PropertyParseList.cs:113-119 | the next expected name is matched by a single move |
| Cursors.CursorStaysExhausted | Chason/PropertyParseList.cs:113 | an exhausted cursor stays exhausted |
| PropertyParsing.GetParseMethodCall | Chason/PropertyParser.cs:31-48 | either dispatcher fails, with `InvalidOperationException`, exactly on an `IList<>` type |
| PropertyParsing.NewPropertyParser | Chason/PropertyParser.cs:53-61 | the constructor throws exactly for a list property (`InvalidOperationException`, from building the parse call) or, failing that, a property without a setter (`ArgumentNullException`, as `GetSetMethod(true)` is null); otherwise `Name` is the contract name or else the property name, `Sequence` is the order, and the step is the dispatcher's choice for the member type |
| PropertyParsing.Parsers | Chason/PropertyParseList.cs:66-81 | for rows that all get a parser (no list property, every property with a setter), one parser per sorted member row, in that order |
| PropertyParsing.PropertyParseList.constructor | Chason/PropertyParseList.cs:61-82 | holds the given parsers, their name table and an unstarted cursor |
| PropertyParsing.PropertyParseList.Parse | Chason/PropertyParseList.cs:109-125 | the parser selected is the one registered under the key, whether the cursor or the table finds it; an unknown key is `KeyNotFoundException`; the cursor ends just past the key's next occurrence or exhausted |
| PropertyParsing.Build | Chason/PropertyParseList.cs:61-82 | no parameterless constructor fails; otherwise it succeeds exactly when no data-member property is an `IList<>`, every one has a setter, and the sorted members' names are distinct; a failure is that of the first row that fails (`InvalidOperationException` for a list property, `ArgumentNullException` for a property without a setter, `ArgumentException` naming a key an earlier row holds); on success the list holds the sorted parsers with an unstarted cursor |
| PropertyParsing.BuildParsers | Chason/PropertyParseList.cs:76-81 | the loop succeeds exactly when no row is a list property, every row's property has a setter, and names are distinct; otherwise the error is that of the first failing row, whose predecessors were all added |
| NameTables.SettersOf | Chason/PropertyParseList.cs:76-81 | the dictionary's keys are exactly the parsers' names |
| NameTables.SettersOfFind | Chason/PropertyParseList.cs:76-81 | with distinct names, the dictionary maps each name to the same parser that `sequential` holds |
| NameTables.Names | Chason/PropertyParseList.cs:111-120 | the names the cursor walks, in `sequential` order |
| NameTables.AddEntry | Chason/PropertyParseList.cs:80 | adding a name not yet present extends the dictionary by that one entry and keeps names distinct |
| NameTables.EntryNamed | Chason/MemberParseList.cs:131-139 | a dictionary entry is a parser of the list with that very name; a key is absent exactly when no parser has that name |
| MemberParsing.ChooseReaderPriority | Chason/MemberParseList.cs:74-85 | a custom string reader wins, then a custom number reader, then the default parse method; the choice fails with `InvalidOperationException` exactly for a list member without a custom reader |
| MemberParsing.NewMemberParser | Chason/MemberParseList.cs:68-85 | a member parser is named by the contract name or else the member name, keeps the member and the chosen reader; it cannot be built exactly when the choice fails (`InvalidOperationException`) or, failing that, the member cannot be written, a `readonly` field or a property without a setter (`ArgumentException` from `Expression.Assign`, MemberParser.cs:32) |
| MemberParsing.MemberParsers | Chason/MemberParseList.cs:68-88 | for members that all get a reader and can all be written, one parser per member, in the order `GetObjectMemberContracts` returns |
| MemberParsing.MemberParseList.constructor | Chason/MemberParseList.cs:62-89 | holds the settings, the parsers, their table and an unstarted cursor |
| MemberParsing.MemberParseList.Parse | Chason/MemberParseList.cs:116-140 | runs the parser registered under the key whichever way it is found, skips the value of an unknown key, and moves the cursor forward only |
| MemberParsing.Build | Chason/MemberParseList.cs:62-89 | no parameterless constructor fails; otherwise it succeeds exactly when every member gets a reader (no list member without a custom reader), every member can be written, and names are distinct; a failure is that of the first failing member; the list holds one parser per member in reflection order with readers from these settings |
| MemberParsing.BuildMemberParsers | Chason/MemberParseList.cs:68-88 | the construction loop succeeds exactly when every member gets a reader, every member can be written, and names are distinct; otherwise the error is that of the first failing member |
| MemberParsing.NewDefaultSettings | Chason/ChasonSerializerSettings.cs:43 | the shared `Default` starts unlocked in its constructed state, with the date/time `ParseExact` readers and no number readers |
| MemberParsing.Instance | Chason/MemberParseList.cs:29 | the shared list is built from the shared `Default` settings object as it stands when the list is built, with that object's readers, whatever settings a serializer was given |
| MemberParsing.DefaultInstanceReaders | Chason/MemberParseList.cs:74-85 | with the default readers, writable DateTime, DateTimeOffset and TimeSpan members get the `ParseExact` readers, all other writable members the default parse; a list member gets no parser (`InvalidOperationException`), nor does a member that cannot be written (`ArgumentException`) |
| MemberParsing.ParseActionNamed | Chason/MemberParseList.cs:131-139 | for the member parsers: a dictionary entry is a parser of the list with that very name; a key is absent exactly when no parser has that name |
| Reflect.MemberType | Chason/Reflect.cs:39-42 | `PropertyType` for a property, `FieldType` for a field |
| Reflect.DataMemberRows | Chason/Reflect.cs:31-32 | a row exists exactly for a member carrying a `DataMember` attribute, paired with that attribute |
| Reflect.WithoutNonDataMembers | Chason/Reflect.cs:33 | exactly the members not marked `[NonDataMember]` |
| Reflect.KeyLeTotal | Chason/Reflect.cs:34 | the sort key order is total |
| Reflect.KeyLeTransitive | Chason/Reflect.cs:34 | the sort key order is transitive |
| Reflect.Insert | Chason/Reflect.cs:34 | insertion adds the element and keeps all others |
| Reflect.Sort | Chason/Reflect.cs:34 | the sort is a permutation |
| Reflect.InsertSorted | Chason/Reflect.cs:34 | insertion into a sorted sequence keeps it sorted |
| Reflect.SortSorted | Chason/Reflect.cs:34 | the sort's result is sorted |
| Reflect.GetObjectMemberContracts | Chason/Reflect.cs:25-37 | a permutation of the data-member rows of the fields followed by the properties, minus the `[NonDataMember]` ones |
| Reflect.GetObjectMemberContractsSpec | Chason/Reflect.cs:20-37 | sorted by `(Order, Name)`; exactly the fields and properties that carry `DataMember` and not `NonDataMember`; the `isOptOut` flag changes nothing |
| Reflect.SortAgrees | Chason/Reflect.cs:34 | two keys that order the members alike give the same sequence |
| Reflect.InsertAgrees | Chason/Reflect.cs:34 | insertion under two keys that agree on the element gives the same sequence |
| Reflect.SameOrderSameSequence | Chason/ChasonSerializer.cs:295 | when all members share one `Order`, the writer's `(Name, Order)` order and the reader's `(Order, Name)` order coincide |
| Reflect.DifferentOrdersDiffer | Chason/ChasonSerializer.cs:295 | members `A` (Order 2) and `B` (Order 1) are read as `[B, A]` and written as `[A, B]` |
| Settings.ChasonSerializerSettings.EnsureNotReadOnly | Chason/ChasonSerializerSettings.cs:545-551 | throws `InvalidOperationException` exactly when the settings are read-only |
| Settings.ChasonSerializerSettings.constructor | Chason/ChasonSerializerSettings.cs:121-139 | the defaults: formats `yyyy-MM-dd\THH:mm:ss`, `yyyy-MM-dd\THH:mm:ss.ffffffzzz` and `c`, string formatters for DateTime/DateTimeOffset/TimeSpan, invariant culture, UTF-8, ordinal comparer, marker `$type`, no known types, no number formatters, unlocked |
| Settings.ChasonSerializerSettings.SetDefaultFormats | Chason/ChasonSerializerSettings.cs:129-134 | setting the three default formats registers the three `ToString`/`ParseExact` string formatters |
| Settings.ChasonSerializerSettings.CopyOf | Chason/ChasonSerializerSettings.cs:155-174 | an unlocked copy with fresh collections holding the same entries; the DateTime/DateTimeOffset formats, marker name, `OutputFormattedJson` and `OutputCamelCasePropertyNames` are not copied |
| Settings.ChasonSerializerSettings.Clone | Chason/ChasonSerializerSettings.cs:537-540 | a fresh unlocked settings object with the same collection contents, so mutating it leaves this one unchanged |
| Settings.ChasonSerializerSettings.SetTypeNameResolver | Chason/ChasonSerializerSettings.cs:194-206 | throws when locked and changes nothing; otherwise changes exactly this field |
| Settings.ChasonSerializerSettings.SetTypeResolver | Chason/ChasonSerializerSettings.cs:211-223 | the same lock rule for `TypeResolver` |
| Settings.ChasonSerializerSettings.SetTextEncoding | Chason/ChasonSerializerSettings.cs:228-240 | the same lock rule for `TextEncoding` |
| Settings.ChasonSerializerSettings.SetCultureInfo | Chason/ChasonSerializerSettings.cs:245-257 | the same lock rule for `CultureInfo` |
| Settings.ChasonSerializerSettings.SetDateTimeFormat | Chason/ChasonSerializerSettings.cs:263-285 | the lock rule; the Javascript format registers the `\/Date(ticks)\/` formatter pair, any other format the `ToString`/`ParseExact` pair |
| Settings.ChasonSerializerSettings.SetDateTimeOffsetFormat | Chason/ChasonSerializerSettings.cs:291-306 | the lock rule; the `ToString`/`ParseExact` formatter pair is registered for DateTimeOffset |
| Settings.ChasonSerializerSettings.SetDateTimeStyles | Chason/ChasonSerializerSettings.cs:311-323 | the lock rule for `DateTimeStyles` |
| Settings.ChasonSerializerSettings.SetTimeSpanStyles | Chason/ChasonSerializerSettings.cs:328-340 | the lock rule for `TimeSpanStyles` |
| Settings.ChasonSerializerSettings.SetTimeSpanFormat | Chason/ChasonSerializerSettings.cs:345-360 | the lock rule; the TimeSpan formatter pair is registered |
| Settings.ChasonSerializerSettings.SetOmitNullValues | Chason/ChasonSerializerSettings.cs:366-378 | the lock rule for `OmitNullValues` |
| Settings.ChasonSerializerSettings.SetPropertyNameComparer | Chason/ChasonSerializerSettings.cs:383-395 | the lock rule for `PropertyNameComparer` |
| Settings.ChasonSerializerSettings.SetTypeMarkerName | Chason/ChasonSerializerSettings.cs:400-412 | the lock rule for `TypeMarkerName` |
| Settings.ChasonSerializerSettings.SetOutputFormattedJson | Chason/ChasonSerializerSettings.cs:477-489 | the lock rule for `OutputFormattedJson` |
| Settings.ChasonSerializerSettings.SetOutputCamelCasePropertyNames | Chason/ChasonSerializerSettings.cs:496-508 | the lock rule for `OutputCamelCasePropertyNames` |
| Settings.ChasonSerializerSettings.SetStringFormatter | Chason/ChasonSerializerSettings.cs:420-425 | the lock rule; writer and reader are stored under the same type, overwriting earlier entries |
| Settings.ChasonSerializerSettings.SetNumberFormatter | Chason/ChasonSerializerSettings.cs:433-438 | the lock rule; the pair goes to the number maps |
| Settings.ChasonSerializerSettings.SetDictionaryFormatter | Chason/ChasonSerializerSettings.cs:446-451 | the lock rule; the pair goes to the string maps |
| Settings.ChasonSerializerSettings.RegisterKnownTypes | Chason/ChasonSerializerSettings.cs:519-524 | every known type is mapped to its full name and that name back to a known type of the same name; earlier entries for other types stay |
| Settings.ChasonSerializerSettings.Lock | Chason/ChasonSerializerSettings.cs:513-531 | afterwards read-only; a second call changes nothing; the first wraps the known types and the four formatter maps read-only and registers the name and type maps; nothing else changes |
| Settings.WithKnownTypes | Chason/ChasonSerializerSettings.cs:145-149 | the defaults with the given known types |
| TypeNames.LockedMappingsInverse | Chason/ChasonSerializerSettings.cs:519-524 | after the registration loop, with distinct names, `nameToType[typeToName[t]] == t` for every known type |
| TypeNames.RegisterName | Chason/ChasonSerializerSettings.cs:523 | one loop turn keeps the name map's registration invariant |
| ReadOnlyDictionaries.NewReadOnlyDictionary | Chason/ReadOnlyDictionary.cs:11-17 | a read-only wrapper with the same entries, keys and values; wrapping a wrapper shares it |
| ReadOnlyDictionaries.TryGetValue | Chason/ReadOnlyDictionary.cs:79-82 | finds a value exactly for a present key, and it is that key's value |
| ReadOnlyDictionaries.Get | Chason/ReadOnlyDictionary.cs:84-89 | the indexer getter answers exactly for present keys, and otherwise throws `KeyNotFoundException` |
| ReadOnlyDictionaries.CountAsWritten | Chason/ReadOnlyDictionary.cs:54 | as written, a plain dictionary counts its keys and a wrapper always counts 0 |
| ReadOnlyDictionaries.CountAsWrittenReadsZero | Chason/ReadOnlyDictionary.cs:54 | a one-entry dictionary counts 1, its wrapper 0 |
| ReadOnlyDictionaries.Count | Chason/ReadOnlyDictionary.cs:54 | corrected: zero exactly for an empty dictionary, and a plain dictionary's count as before |
| ReadOnlyDictionaries.WrappedCount | Chason/ReadOnlyDictionary.cs:54 | the corrected wrapper counts what it wraps |
| ReadOnlyDictionaries.WrapperAnswersAsWrapped | Chason/ReadOnlyDictionary.cs:39-89 | `ContainsKey`, `Contains`, `TryGetValue` and the getter answer as the wrapped dictionary does |
| ReadOnlyDictionaries.Applied | Chason/ReadOnlyDictionary.cs:29-77 | on a plain dictionary, only an `Add` of a present key fails |
| ReadOnlyDictionaries.Mutate | Chason/ReadOnlyDictionary.cs:29-93 | every mutator of a wrapper throws `NotSupportedException`; a plain dictionary is updated |
| ReadOnlyDictionaries.SetOverwrites | Chason/ReadOnlyDictionary.cs:84-93 | setting a key on a plain dictionary overwrites it, and reading it back gives the new value |
| ReadOnlyHashSets.NewReadOnlyHashSet | Chason/ReadOnlyHashSet.cs:20-24 | a wrapper with the same elements; a wrapper is never wrapped twice |
| ReadOnlyHashSets.Query | Chason/ReadOnlyHashSet.cs:51-122 | `Count` and `Contains` answer for the elements; a wrapper gives the wrapped set's answer to every query |
| ReadOnlyHashSets.Mutate | Chason/ReadOnlyHashSet.cs:36-114 | a mutation fails with `NotSupportedException` exactly on a wrapper |
| ReadOnlyHashSets.WrapperAnswersAsWrapped | Chason/ReadOnlyHashSet.cs:51-122 | every query on the wrapper equals the query on the wrapped set |
| DateTimeExtensions.TruncDiv | Chason/Extensions/DateTimeExtensions.cs:22 | C# `long` division truncates toward zero |
| DateTimeExtensions.TruncRem | Chason/Extensions/DateTimeExtensions.cs:30-37 | the remainder has the dividend's sign and completes the truncated division |
| DateTimeExtensions.Wrap64 | Chason/Extensions/DateTimeExtensions.cs:53 | unchecked `long` arithmetic wraps into the signed 64-bit range and leaves in-range values alone |
| DateTimeExtensions.Hours | Chason/Extensions/DateTimeExtensions.cs:30 | `TimeSpan.Hours` lies strictly between -24 and 24 |
| DateTimeExtensions.Minutes | Chason/Extensions/DateTimeExtensions.cs:37 | `TimeSpan.Minutes` lies strictly between -60 and 60 |
| DateTimeExtensions.JavascriptDateText | Chason/Extensions/DateTimeExtensions.cs:21-47 | the text is eight units longer than its digits and zone part |
| DateTimeExtensions.OffsetDigits | Chason/Extensions/DateTimeExtensions.cs:28-43 | the zone part is four digits, with no sign |
| DateTimeExtensions.UniversalTicks | Chason/Extensions/DateTimeExtensions.cs:22 | `ToUniversalTime().Ticks`: a Utc value unchanged; otherwise the ticks less the local offset, clamped to `[0, DateTime.MaxValue.Ticks]` |
| DateTimeExtensions.DefaultDateEastOfUtc | Chason/Extensions/DateTimeExtensions.cs:22 | `default(DateTime)` one hour east of UTC clamps to tick 0 and writes -62135596800000 milliseconds |
| DateTimeExtensions.ToJavascriptDate | Chason/Extensions/DateTimeExtensions.cs:19-49 | `/Date(`, the milliseconds since the epoch (truncated toward zero) of the clamped universal ticks, for a non-Utc kind the two-digit absolute hours and minutes of the offset, then `)/` |
| DateTimeExtensions.ToJavascriptDateOffset | Chason/Extensions/DateTimeExtensions.cs:57-64 | `/Date(`, the UTC milliseconds, `)/` |
| DateTimeExtensions.JavascriptDateLayout | Chason/Extensions/DateTimeExtensions.cs:21-47 | the text starts with `/Date(`, ends with `)/`, and its digits read back as the milliseconds |
| DateTimeExtensions.JavascriptTicks | Chason/Extensions/DateTimeExtensions.cs:51-55 | a text shorter than 10 throws `ArgumentOutOfRangeException`; the ticks are a 64-bit value |
| DateTimeExtensions.FromJavascriptDate | Chason/Extensions/DateTimeExtensions.cs:51-55 | a Utc `DateTime` whose ticks are `epoch + 10000·n`, with `n` read from units `[7, len-3)`, when in range |
| DateTimeExtensions.FromJavascriptDateOffset | Chason/Extensions/DateTimeExtensions.cs:66-70 | the same ticks, at offset zero |
| DateTimeExtensions.FromJavascriptDateReads | Chason/Extensions/DateTimeExtensions.cs:51-55 | any 7-unit prefix and 3-unit suffix around `n` read back as the instant `n` milliseconds after the epoch |
| DateTimeExtensions.DirectTextDoesNotReadBack | Chason/Extensions/DateTimeExtensions.cs:57-70 | the writer strips 6+2 units' worth of markers but the reader strips 7+3: the epoch's own text fails to read back |
| DateTimeExtensions.EscapedOffsetTextReadsBack | Chason/Extensions/DateTimeExtensions.cs:57-70 | once JSON-escaped (`/` as `\/`), the written text reads back as the instant truncated to the millisecond |
| DateTimeExtensions.EscapedDateText | Chason/Extensions/DateTimeExtensions.cs:57-64 | the escaped text is `\/Date(`, the digits, `)\/` |
| DateTimeExtensions.TruncatedInRange | Chason/Extensions/DateTimeExtensions.cs:22 | truncating to the millisecond keeps an instant within the `DateTime` range |
| JavascriptDateFormat.WriteTicks | Chason/ChasonSerializerSettings.cs:277 | the writer puts the tick count between the 7-unit `\/Date(` and the 3-unit `)\/` |
| JavascriptDateFormat.TicksText | Chason/ChasonSerializerSettings.cs:278 | `Substring(7, len-10)` fails exactly below 10 units, and otherwise is what lies between the markers |
| JavascriptDateFormat.NewDateTime | Chason/ChasonSerializerSettings.cs:278 | `new DateTime(ticks)` succeeds exactly in the `DateTime` range, with kind Unspecified |
| JavascriptDateFormat.ReadTicksAsWritten | Chason/ChasonSerializerSettings.cs:278 | the reader as written: a result always has at most 2^31-1 ticks |
| JavascriptDateFormat.ReadTicks | Chason/ChasonSerializerSettings.cs:278 | the corrected reader: any `DateTime` tick count, kind Unspecified |
| JavascriptDateFormat.WrittenTicksText | Chason/ChasonSerializerSettings.cs:277-278 | the substring the reader takes is exactly the digits the writer wrote |
| JavascriptDateFormat.ReadTicksAsWrittenOverflows | Chason/ChasonSerializerSettings.cs:277-278 | as written, every `DateTime` past 2^31-1 ticks fails to read back with `OverflowException` |
| JavascriptDateFormat.ReadTicksRoundTrip | Chason/ChasonSerializerSettings.cs:277-278 | corrected, every `DateTime` reads back with its tick count |
| DecimalText.Digit | Chason/Extensions/DateTimeExtensions.cs:23 | a decimal digit unit with the given value |
| DecimalText.NaturalText | Chason/Extensions/DateTimeExtensions.cs:23 | `long.ToString` of a natural number: digits only, no leading zero |
| DecimalText.IntegerText | Chason/Extensions/DateTimeExtensions.cs:23 | `long.ToString`: never empty |
| DecimalText.NaturalTextValue | Chason/Extensions/DateTimeExtensions.cs:23 | the digits written for `n` have value `n` |
| DecimalText.ParseInteger | Chason/Extensions/DateTimeExtensions.cs:53 | `long.Parse`/`int.Parse` give a value within the type's range, or `FormatException`/`OverflowException` |
| DecimalText.IntegerTextReadsBack | Chason/Extensions/DateTimeExtensions.cs:23-53 | an in-range integer written out parses back to itself |
| DecimalText.IntegerTextOverflows | Chason/ChasonSerializerSettings.cs:278 | an out-of-range integer written out fails with `OverflowException` |
| DecimalText.TwoDigits | Chason/Extensions/DateTimeExtensions.cs:31-43 | two digits of value `n` |
| DecimalText.PaddedTwoDigits | Chason/Extensions/DateTimeExtensions.cs:31-43 | appending `0` below 10 and then the number gives two digits |
| Utf16.FromString | Chason/ChasonParser.cs:107-111 | a string's code units, one for one |
| Utf16.OrdinalLeReflexive | Chason/Reflect.cs:34 | ordinal string order is reflexive |
| Utf16.OrdinalLeTotal | Chason/Reflect.cs:34 | ordinal string order is total |
| Utf16.OrdinalLeAntisymmetric | Chason/Reflect.cs:34 | ordinal string order is antisymmetric |
| Utf16.OrdinalLeTransitive | Chason/Reflect.cs:34 | ordinal string order is transitive |

## Left out

- Expression-tree and reflection code generation (`Expression.Lambda(...).Compile()`, `MakeGenericMethod`, `WriteObjectBlock`, `WriteLiteral`, `WriteObjectAsString`, `WriteString`, `MemberParser.cs`): the generated code runs on the .NET JIT. The dispatch decision is modelled as a `ParseMethod` value, and a member setter as an opaque step.
- Formatter and parser closures (`SetStringFormatter` arguments, the date/time `ToString`/`ParseExact` lambdas) are opaque `Expression` tags: what they compute at run time is host formatting code.
- Host numeric conversion (`int.Parse`, `long.Parse`, `decimal.Parse`, `float.Parse`, `double.Parse` in the element and member readers): culture-aware and floating-point. A number value is its raw `ParseNumber` span, and nullable conversion is the `TryParse` parameter. `DecimalText.ParseInteger` models an optional `-` or `+` sign and digits: the surrounding whitespace and culture-specific signs `long.Parse` also accepts are not modelled.
- Date/time formatting and zones: `TimeZoneInfo.Local` and `ToUniversalTime` become a `localOffset` parameter of `ToJavascriptDate`; `ParseTimeZoneInfo` always fails as in the source.
- Culture (`CultureInfo`), text encodings and the stream and `TextWriter` overloads of `Serialize`/`Deserialize`: I/O and host globalisation.
- `Parse<T>`'s list branch in both parsers: it reflects on methods that do not exist in this code. A list-typed member never reaches a parser: its parse call cannot be built, so the parse list of its type fails to build (`Dispatch.ChasonGetParseMethodCall`).
- The cross-file wiring that does not compile in this snapshot: `MemberParser` constructors with argument lists that do not exist, and `parser.SkipValue()`, which the parser lacks. `MemberParseList.Parse` returns a `Run` or `SkipValue` action instead of running it, and skipping a value is not modelled further. `PropertyParser.Parse`'s parser type mismatch is modelled as the step run by whichever parser class reads the object.
- Process-wide singletons (`PropertyParseList<T>.Instance`, `MemberParseList<T>.Instance`, `ChasonSerializerSettings.Default`) are explicit objects passed to the members that use them: `MemberParsing.Instance` takes the shared `Default` object, whose setters any caller may have run first. When a type initializer runs, and thread safety, are out of scope. The persistent cursor is kept as the `enumerator` field, so it survives across calls.
- `JsonParser`'s `where T : class` on `Parse<T>` and `ParseObject<T>` (Chason/JsonParser.cs:54, 71): type descriptors do not tell classes from structs, so the failure to bind `ParseObject` for a struct-typed member is not modelled; such a member is read like any object.
- Unicode casing: `char.IsUpper`, `char.IsLower` and `char.ToLower` are modelled on ASCII letters only. `Environment.NewLine` is a parameter of `LineFeedIndent`.
- `ListLoop`/`ParseList`: the element readers are `ReadText`, `ReadNumber` and the failing `ReadTimeZone`; converting an element to its .NET type is not modelled.
- LINQ `orderby` on strings uses the culture-sensitive default comparer in .NET; the model sorts with ordinal (code-unit) order by a stable insertion sort.
- `GetDataContractFullName` (the name of a known type) is a function parameter `fullName` of `Lock`.
- Collections (`List`, `Dictionary`, `HashSet`) are Dafny values held in fields, not heap objects: aliasing between two holders of the same collection is not modelled, except that `Clone` and the copy constructor build fresh values.
- `ParseString` keeps its index in a local during the scan and writes the field once at the end, with the same final value as the source.
- Serializing.WrittenObjectReadsBack: the round trip is proved for objects whose members are all strings, with non-null values and names free of escapable units. The writer does not escape names, and other value kinds are written by host formatting code.
- ChasonParsing.ChasonParser.NextTokenCore: at the end of input the source's `IndexOutOfRangeException` is a result (`Err(IndexOutOfRange)`), not a precondition.

## Findings

| source | as written | input that shows it | evidently intended | confidence | as-written member | corrected member |
|---|---|---|---|---|---|---|
| Chason/ReadOnlyDictionary.cs:54 | `Count` has a private setter that is never called, so the wrapper always reports 0 | a dictionary with one entry, wrapped: `Count` is 0 | the wrapper reports the wrapped dictionary's count | high; not executed | ReadOnlyDictionaries.CountAsWritten (shown by ReadOnlyDictionaries.CountAsWrittenReadsZero) | ReadOnlyDictionaries.Count (proved by ReadOnlyDictionaries.WrappedCount) |
| Chason/ChasonSerializerSettings.cs:277-278 | the Javascript `DateTime` reader parses the tick count with `int.Parse` | any `DateTime` past 2^31-1 ticks, e.g. 0001-01-01 00:03:34.7483648, written and read back: `OverflowException` | the tick count is a `long` and reads back | high; not executed | JavascriptDateFormat.ReadTicksAsWritten (shown by JavascriptDateFormat.ReadTicksAsWrittenOverflows) | JavascriptDateFormat.ReadTicks (proved by JavascriptDateFormat.ReadTicksRoundTrip) |
| Chason/ChasonParser.cs:552-567 | `ParseNullable` reads every value with `ParseString`, even an unquoted number token | JSON `5}` with the `Number` token of `5` in the lookahead: "unterminated string" | a number token's span, or the word of a `true`/`false` token, is passed to the try-parse delegate | medium; not executed | ChasonParsing.ChasonParser.ParseNullableAsWritten (shown by Decoding.NullableMisreadsNumber and Decoding.NullableMisreadsBoolean) | ChasonParsing.ChasonParser.ParseNullable (specified by Decoding.NullableSpec) |
