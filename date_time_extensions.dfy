/** `DateTimeExtensions`: .NET tick counts written as and read from the
    Javascript date text `/Date(milliseconds)/`. Ticks are 100 ns units from
    0001-01-01; the Javascript epoch is 1970-01-01. */
module DateTimeExtensions {
  import opened Utf16
  import opened Outcomes
  import opened DecimalText
  import opened JsonText

  /** `JavascriptEpoch`: the tick count of 1970-01-01T00:00:00Z. */
  const JAVASCRIPT_EPOCH: int := 621355968000000000
  const TICKS_PER_MILLISECOND: int := 10000
  const TICKS_PER_MINUTE: int := 600000000
  const TICKS_PER_HOUR: int := 36000000000
  /** `DateTime.MaxValue.Ticks`. */
  const MAX_TICKS: int := 3155378975999999999

  datatype DateTimeKind = Unspecified | Utc | Local

  datatype DateTime = DateTime(ticks: int, kind: DateTimeKind)

  /** A clock reading and its offset from UTC, both in ticks. */
  datatype DateTimeOffset = DateTimeOffset(clockTicks: int, offset: int) {
    function UtcTicks(): int { clockTicks - offset }
  }

  /** C#'s `/` on `long`: the quotient truncated toward zero. */
  function TruncDiv(a: int, b: int): (q: int)
    requires b > 0
    ensures a >= 0 ==> q == a / b
    ensures a < 0 ==> q == -((-a) / b)
  {
    if a >= 0 then a / b else -((-a) / b)
  }

  /** C#'s `%` on `long`: the remainder takes the sign of the dividend. */
  function TruncRem(a: int, b: int): (r: int)
    requires b > 0
    ensures a == TruncDiv(a, b) * b + r
    ensures -b < r < b
  {
    a - TruncDiv(a, b) * b
  }

  function Abs(x: int): nat {
    if x < 0 then -x else x
  }

  /** Unchecked 64-bit arithmetic: the value taken modulo 2^64 into the signed range. */
  function Wrap64(x: int): (r: int)
    ensures INT64_MIN <= r <= INT64_MAX
    ensures INT64_MIN <= x <= INT64_MAX ==> r == x
  {
    var m := x % 0x1_0000_0000_0000_0000;
    if m > INT64_MAX then m - 0x1_0000_0000_0000_0000 else m
  }

  /** `TimeSpan.Hours` and `TimeSpan.Minutes` of a span of ticks. */
  function Hours(span: int): (h: int)
    ensures -24 < h < 24
  {
    TruncRem(TruncDiv(span, TICKS_PER_HOUR), 24)
  }

  function Minutes(span: int): (m: int)
    ensures -60 < m < 60
  {
    TruncRem(TruncDiv(span, TICKS_PER_MINUTE), 60)
  }

  /** `ToUniversalTime().Ticks`: a Utc value as it is; a Local or Unspecified
      one shifted back by the local offset, clamped to the `DateTime` range
      (`DateTime.MinValue` below it, `DateTime.MaxValue` above it). */
  function UniversalTicks(dateTime: DateTime, localOffset: int): (u: int)
    ensures dateTime.kind == Utc ==> u == dateTime.ticks
    ensures dateTime.kind != Utc ==> 0 <= u <= MAX_TICKS
    ensures dateTime.kind != Utc && 0 <= dateTime.ticks - localOffset <= MAX_TICKS ==>
              u == dateTime.ticks - localOffset
    ensures dateTime.kind != Utc && dateTime.ticks - localOffset < 0 ==> u == 0
    ensures dateTime.kind != Utc && dateTime.ticks - localOffset > MAX_TICKS ==> u == MAX_TICKS
  {
    if dateTime.kind == Utc then dateTime.ticks
    else
      var shifted := dateTime.ticks - localOffset;
      if shifted < 0 then 0 else if shifted > MAX_TICKS then MAX_TICKS else shifted
  }

  /** `default(DateTime)` east of UTC: the universal time clamps to
      `DateTime.MinValue`, so the written milliseconds are those of tick 0. */
  lemma DefaultDateEastOfUtc()
    ensures UniversalTicks(DateTime(0, Unspecified), TICKS_PER_HOUR) == 0
    ensures JavascriptMilliseconds(UniversalTicks(DateTime(0, Unspecified), TICKS_PER_HOUR)) == -62135596800000
  {
  }

  /** Milliseconds since the Javascript epoch, truncated toward zero. */
  function JavascriptMilliseconds(utcTicks: int): int {
    TruncDiv(utcTicks - JAVASCRIPT_EPOCH, TICKS_PER_MILLISECOND)
  }

  /** `/Date(` and `)/`. */
  const DATE_OPEN: Text := [SLASH, 'D' as CodeUnit, 'a' as CodeUnit, 't' as CodeUnit, 'e' as CodeUnit, '(' as CodeUnit]
  const DATE_CLOSE: Text := [')' as CodeUnit, SLASH]

  /** The Javascript date text: `/Date(`, the milliseconds, a zone part, `)/`. */
  function JavascriptDateText(milliseconds: int, zone: Text): (t: Text)
    ensures |t| == 8 + |IntegerText(milliseconds)| + |zone|
  {
    DATE_OPEN + IntegerText(milliseconds) + zone + DATE_CLOSE
  }

  /** The zone part for a Local or Unspecified value: the offset's hours and
      minutes, without their sign, two digits each. */
  function OffsetDigits(localOffset: int): (t: Text)
    ensures |t| == 4 && AllDigits(t)
  {
    TwoDigits(Abs(Hours(localOffset))) + TwoDigits(Abs(Minutes(localOffset)))
  }

  /** `ToJavascriptDate`, given the local offset `TimeZoneInfo.Local` would report. */
  method ToJavascriptDate(dateTime: DateTime, localOffset: int) returns (r: Text)
    ensures r == JavascriptDateText(JavascriptMilliseconds(UniversalTicks(dateTime, localOffset)),
                                    if dateTime.kind == Utc then [] else OffsetDigits(localOffset))
  {
    var sb := DATE_OPEN;
    var ticks := JavascriptMilliseconds(UniversalTicks(dateTime, localOffset));
    sb := sb + IntegerText(ticks);
    ghost var head := sb;
    ghost var zone: Text := [];
    if dateTime.kind == Local || dateTime.kind == Unspecified {
      var absHours := Abs(Hours(localOffset));
      if absHours < 10 {
        sb := sb + [ZERO];
      }
      sb := sb + NaturalText(absHours);
      PaddedTwoDigits(absHours);
      assert sb == head + TwoDigits(absHours);
      var absMinutes := Abs(Minutes(localOffset));
      ghost var withHours := sb;
      if absMinutes < 10 {
        sb := sb + [ZERO];
      }
      sb := sb + NaturalText(absMinutes);
      PaddedTwoDigits(absMinutes);
      assert sb == withHours + TwoDigits(absMinutes);
      zone := OffsetDigits(localOffset);
    }
    assert sb == head + zone;
    sb := sb + DATE_CLOSE;
    r := sb;
    assert zone == if dateTime.kind == Utc then [] else OffsetDigits(localOffset);
    assert r == JavascriptDateText(ticks, zone);
  }

  /** `ToJavascriptDateOffset`: the UTC instant's milliseconds, with no zone part. */
  method ToJavascriptDateOffset(dateTime: DateTimeOffset) returns (r: Text)
    ensures r == JavascriptDateText(JavascriptMilliseconds(dateTime.UtcTicks()), [])
  {
    var sb := DATE_OPEN;
    var ticks := JavascriptMilliseconds(dateTime.UtcTicks());
    sb := sb + IntegerText(ticks);
    sb := sb + DATE_CLOSE;
    r := sb;
  }

  /** The Javascript date text starts with `/Date(`, ends with `)/`, and what
      stands between them before the zone part reads back as the milliseconds. */
  lemma JavascriptDateLayout(milliseconds: int, zone: Text)
    requires INT64_MIN <= milliseconds <= INT64_MAX
    ensures var t := JavascriptDateText(milliseconds, zone);
      && t[..6] == DATE_OPEN && t[|t| - 2..] == DATE_CLOSE
      && ParseInteger(t[6..|t| - 2 - |zone|], INT64_MIN, INT64_MAX) == Ok(milliseconds)
  {
    var t := JavascriptDateText(milliseconds, zone);
    var digits := IntegerText(milliseconds);
    assert t == DATE_OPEN + digits + (zone + DATE_CLOSE);
    assert |DATE_OPEN| == 6 && |t| - 2 - |zone| == 6 + |digits|;
    assert t[6..6 + |digits|] == digits;
    IntegerTextReadsBack(milliseconds, INT64_MIN, INT64_MAX);
  }

  /** The tick count `FromJavascriptDate` and `FromJavascriptDateOffset` compute:
      the text between the first 7 and the last 3 units read as a `long`
      (`ArgumentOutOfRangeException` from `Substring` when the text is shorter
      than 10), times 10000, plus the epoch, in unchecked 64-bit arithmetic. */
  function JavascriptTicks(s: Text): (r: Result<int>)
    ensures |s| < 10 ==> r == Err(ArgumentOutOfRange)
    ensures r.Ok? ==> INT64_MIN <= r.value <= INT64_MAX
  {
    if |s| < 10 then Err(ArgumentOutOfRange)
    else
      match ParseInteger(s[7..|s| - 3], INT64_MIN, INT64_MAX)
      case Err(e) => Err(e)
      case Ok(n) => Ok(Wrap64(JAVASCRIPT_EPOCH + Wrap64(n * TICKS_PER_MILLISECOND)))
  }

  /** `FromJavascriptDate`: a Utc `DateTime`; ticks outside the `DateTime`
      range make its constructor throw `ArgumentOutOfRangeException`. */
  function FromJavascriptDate(s: Text): (r: Result<DateTime>)
    ensures r.Ok? ==> r.value.kind == Utc && 0 <= r.value.ticks <= MAX_TICKS
    ensures r.Ok? <==> JavascriptTicks(s).Ok? && 0 <= JavascriptTicks(s).value <= MAX_TICKS
    ensures r.Ok? ==> r.value.ticks == JavascriptTicks(s).value
  {
    match JavascriptTicks(s)
    case Err(e) => Err(e)
    case Ok(ticks) => if 0 <= ticks <= MAX_TICKS then Ok(DateTime(ticks, Utc)) else Err(ArgumentOutOfRange)
  }

  /** `FromJavascriptDateOffset`: the same ticks, at offset zero. */
  function FromJavascriptDateOffset(s: Text): (r: Result<DateTimeOffset>)
    ensures r.Ok? ==> r.value.offset == 0 && 0 <= r.value.clockTicks <= MAX_TICKS
    ensures r.Ok? <==> FromJavascriptDate(s).Ok?
    ensures r.Ok? ==> r.value.clockTicks == FromJavascriptDate(s).value.ticks
  {
    match JavascriptTicks(s)
    case Err(e) => Err(e)
    case Ok(ticks) => if 0 <= ticks <= MAX_TICKS then Ok(DateTimeOffset(ticks, 0)) else Err(ArgumentOutOfRange)
  }

  /** Any 7-unit prefix and 3-unit suffix around the text of `n` milliseconds
      read back as the instant `n` milliseconds after the epoch, when it is in range. */
  lemma FromJavascriptDateReads(prefix: Text, n: int, suffix: Text)
    requires |prefix| == 7 && |suffix| == 3
    requires 0 <= JAVASCRIPT_EPOCH + n * TICKS_PER_MILLISECOND <= MAX_TICKS
    ensures FromJavascriptDate(prefix + IntegerText(n) + suffix) == Ok(DateTime(JAVASCRIPT_EPOCH + n * TICKS_PER_MILLISECOND, Utc))
  {
    var s := prefix + IntegerText(n) + suffix;
    assert s[7..|s| - 3] == IntegerText(n);
    IntegerTextReadsBack(n, INT64_MIN, INT64_MAX);
  }

  /** Read straight back, the text `ToJavascriptDateOffset` writes is too short
      by one unit at each end: at the epoch it fails. */
  lemma DirectTextDoesNotReadBack()
    ensures JavascriptDateText(JavascriptMilliseconds(DateTimeOffset(JAVASCRIPT_EPOCH, 0).UtcTicks()), []) ==
            DATE_OPEN + [ZERO] + DATE_CLOSE
    ensures FromJavascriptDateOffset(DATE_OPEN + [ZERO] + DATE_CLOSE) == Err(ArgumentOutOfRange)
  {
    assert NaturalText(0) == [ZERO];
  }

  /** Once written as a JSON string body, where each `/` becomes `\/`, the text
      has the 7-unit prefix `\/Date(` and the 3-unit suffix `)\/` the readers
      strip, and reads back as the UTC instant truncated to the millisecond. */
  lemma EscapedOffsetTextReadsBack(dateTime: DateTimeOffset)
    requires 0 <= dateTime.UtcTicks() <= MAX_TICKS
    ensures var ms := JavascriptMilliseconds(dateTime.UtcTicks());
      FromJavascriptDateOffset(Escaped(JavascriptDateText(ms, []))) ==
        Ok(DateTimeOffset(JAVASCRIPT_EPOCH + ms * TICKS_PER_MILLISECOND, 0))
  {
    var ms := JavascriptMilliseconds(dateTime.UtcTicks());
    EscapedDateText(ms);
    TruncatedInRange(dateTime.UtcTicks());
    FromJavascriptDateReads([BACKSLASH] + DATE_OPEN, ms, [')' as CodeUnit, BACKSLASH, SLASH]);
  }

  /** The escaped date text with no zone part: `\/Date(`, the digits, `)\/`. */
  lemma EscapedDateText(ms: int)
    ensures Escaped(JavascriptDateText(ms, [])) ==
      [BACKSLASH] + DATE_OPEN + IntegerText(ms) + [')' as CodeUnit, BACKSLASH, SLASH]
  {
    var digits := IntegerText(ms);
    assert JavascriptDateText(ms, []) == DATE_OPEN + digits + DATE_CLOSE;
    EscapedConcat(DATE_OPEN + digits, DATE_CLOSE);
    EscapedConcat(DATE_OPEN, digits);
    PlainDigits(ms);
    EscapedPlain(digits);
    EscapedDateOpen();
    EscapedDateClose();
  }

  lemma PlainDigits(x: int)
    ensures forall k :: 0 <= k < |IntegerText(x)| ==> !IsEscapable(IntegerText(x)[k])
  {
    var t := IntegerText(x);
    if x < 0 {
      forall k | 1 <= k < |t|
        ensures IsDigit(t[k])
      {
        assert t[k] == NaturalText(-x)[k - 1];
      }
    }
  }

  lemma EscapedDateOpen()
    ensures Escaped(DATE_OPEN) == [BACKSLASH] + DATE_OPEN
  {
    EscapedConcat([SLASH], DATE_OPEN[1..]);
    assert DATE_OPEN == [SLASH] + DATE_OPEN[1..];
    EscapedPlain(DATE_OPEN[1..]);
    assert Escaped([SLASH]) == [BACKSLASH, SLASH] + Escaped([]);
  }

  lemma EscapedDateClose()
    ensures Escaped(DATE_CLOSE) == [')' as CodeUnit, BACKSLASH, SLASH]
  {
    assert DATE_CLOSE == [')' as CodeUnit] + [SLASH];
    EscapedConcat([')' as CodeUnit], [SLASH]);
    assert Escaped([SLASH]) == [BACKSLASH, SLASH] + Escaped([]);
    assert Escaped([')' as CodeUnit]) == [')' as CodeUnit] + Escaped([]);
  }

  /** Truncating toward the epoch keeps an instant within the `DateTime` range. */
  lemma TruncatedInRange(utcTicks: int)
    requires 0 <= utcTicks <= MAX_TICKS
    ensures var ms := JavascriptMilliseconds(utcTicks);
      0 <= JAVASCRIPT_EPOCH + ms * TICKS_PER_MILLISECOND <= MAX_TICKS
  {
    var d := utcTicks - JAVASCRIPT_EPOCH;
    if d < 0 {
      assert (-d) / TICKS_PER_MILLISECOND * TICKS_PER_MILLISECOND <= -d;
    } else {
      assert d / TICKS_PER_MILLISECOND * TICKS_PER_MILLISECOND <= d;
    }
  }
}

/** The `DateTime` string formatter the `DateTimeFormat` setter registers for
    the Javascript format: the writer puts the raw tick count between `\/Date(`
    and `)\/`, the reader takes the text between the two markers back. */
module JavascriptDateFormat {
  import opened Utf16
  import opened Outcomes
  import opened DecimalText
  import opened JsonText
  import opened DateTimeExtensions

  /** `\/Date(` and `)\/`. */
  const ESCAPED_DATE_OPEN: Text := [BACKSLASH] + DATE_OPEN
  const ESCAPED_DATE_CLOSE: Text := [')' as CodeUnit, BACKSLASH, SLASH]

  /** The writer: the tick count itself, not milliseconds, between the markers. */
  function WriteTicks(dateTime: DateTime): (t: Text)
    ensures |t| == 10 + |IntegerText(dateTime.ticks)|
    ensures t[..7] == ESCAPED_DATE_OPEN && t[|t| - 3..] == ESCAPED_DATE_CLOSE
  {
    ESCAPED_DATE_OPEN + IntegerText(dateTime.ticks) + ESCAPED_DATE_CLOSE
  }

  /** `Substring(7, Length - 10)`: `ArgumentOutOfRangeException` on a text of fewer than 10 units. */
  function TicksText(s: Text): (r: Result<Text>)
    ensures r.Ok? <==> |s| >= 10
    ensures r.Ok? ==> |r.value| + 10 == |s| && s == s[..7] + r.value + s[|s| - 3..]
  {
    if |s| < 10 then Err(ArgumentOutOfRange) else Ok(s[7..|s| - 3])
  }

  /** `new DateTime(ticks)`: kind Unspecified, `ArgumentOutOfRangeException` outside the `DateTime` range. */
  function NewDateTime(ticks: int): (r: Result<DateTime>)
    ensures r.Ok? <==> 0 <= ticks <= MAX_TICKS
    ensures r.Ok? ==> r.value == DateTime(ticks, Unspecified)
  {
    if 0 <= ticks <= MAX_TICKS then Ok(DateTime(ticks, Unspecified)) else Err(ArgumentOutOfRange)
  }

  /** The reader as written: the tick count goes through `int.Parse`, a 32-bit parse. */
  function ReadTicksAsWritten(s: Text): (r: Result<DateTime>)
    ensures |s| < 10 ==> r == Err(ArgumentOutOfRange)
    ensures r.Ok? ==> r.value.kind == Unspecified && 0 <= r.value.ticks <= INT32_MAX
  {
    match TicksText(s)
    case Err(e) => Err(e)
    case Ok(digits) =>
      match ParseInteger(digits, INT32_MIN, INT32_MAX)
      case Err(e) => Err(e)
      case Ok(ticks) => NewDateTime(ticks)
  }

  /** The reader as intended: the tick count is a `long`, parsed as 64 bits. */
  function ReadTicks(s: Text): (r: Result<DateTime>)
    ensures |s| < 10 ==> r == Err(ArgumentOutOfRange)
    ensures r.Ok? ==> r.value.kind == Unspecified && 0 <= r.value.ticks <= MAX_TICKS
  {
    match TicksText(s)
    case Err(e) => Err(e)
    case Ok(digits) =>
      match ParseInteger(digits, INT64_MIN, INT64_MAX)
      case Err(e) => Err(e)
      case Ok(ticks) => NewDateTime(ticks)
  }

  /** The text the writer produces holds exactly the tick count between the markers. */
  lemma WrittenTicksText(dateTime: DateTime)
    ensures TicksText(WriteTicks(dateTime)) == Ok(IntegerText(dateTime.ticks))
  {
    var t := WriteTicks(dateTime);
    assert t[7..|t| - 3] == IntegerText(dateTime.ticks);
  }

  /** As written, every `DateTime` past 2^31 - 1 ticks (00:03:34.7483647 on
      0001-01-01) fails to read back, with `OverflowException`. */
  lemma ReadTicksAsWrittenOverflows(dateTime: DateTime)
    requires INT32_MAX < dateTime.ticks
    ensures ReadTicksAsWritten(WriteTicks(dateTime)) == Err(Overflow)
  {
    WrittenTicksText(dateTime);
    IntegerTextOverflows(dateTime.ticks, INT32_MIN, INT32_MAX);
  }

  /** As intended, every `DateTime` reads back with its tick count, its kind
      becoming Unspecified. */
  lemma ReadTicksRoundTrip(dateTime: DateTime)
    requires 0 <= dateTime.ticks <= MAX_TICKS
    ensures ReadTicks(WriteTicks(dateTime)) == Ok(DateTime(dateTime.ticks, Unspecified))
  {
    WrittenTicksText(dateTime);
    IntegerTextReadsBack(dateTime.ticks, INT64_MIN, INT64_MAX);
  }
}
