/**
 * The column descriptor of the table view and its static helpers: the epoch
 * and date formatters, the type hint shown for a column, and the description
 * of the input widget a column is edited with.
 *
 * The descriptor is never changed after construction, so it is a datatype.
 * The widget is described as data (its kind, value, bounds, step, default
 * and element ids) rather than rendered markup.
 */
module TableAttributes {
  import opened Wrappers
  import opened JsText
  import opened TableAttributeType

  // ===========================================================================
  // The column descriptor
  // ===========================================================================

  /**
   * The type tag a descriptor carries: one of the enumeration members this
   * module names, or any other value the enumeration may hold (shown by the
   * text it prints as).
   */
  datatype TypeTag = Known(kind: AttributeType) | Unknown(code: string)

  /**
   * One table column. Each optional field is None where the constructor's
   * argument was left undefined; only the fields that fit the column's type
   * are expected to be set.
   */
  datatype TableAttribute = TableAttribute(
    attributeName: string,
    attributeType: TypeTag,
    stringTypeAttributeLengthInfo: Option<int>,
    enumOptions: Option<seq<string>>,
    decimalNumDigits: Option<int>,
    decimalNumDecimalDigits: Option<int>)

  // ===========================================================================
  // Epoch and date formatting
  // ===========================================================================

  /** What every formatter returns for a null raw value. */
  const NullMarker: string := "=NULL="

  /** The largest magnitude, in milliseconds, of a time value a JavaScript Date accepts. */
  const MaxTimeValue: int := 8_640_000_000_000_000

  /** Whether `new Date(seconds * 1000)` is a valid date rather than an Invalid Date. */
  predicate ValidEpochSeconds(seconds: int) {
    -MaxTimeValue <= seconds * 1000 <= MaxTimeValue
  }

  /** `getUTCHours()` of the date at `seconds` after the epoch: whole hours, modulo a day. */
  function UtcHours(seconds: int): (h: int)
    ensures 0 <= h < 24
  {
    (seconds / 3600) % 24
  }

  /** `getUTCMinutes()` of the date at `seconds` after the epoch. */
  function UtcMinutes(seconds: int): (m: int)
    ensures 0 <= m < 60
  {
    (seconds / 60) % 60
  }

  /** `getUTCSeconds()` of the date at `seconds` after the epoch. */
  function UtcSeconds(seconds: int): (sec: int)
    ensures 0 <= sec < 60
  {
    seconds % 60
  }

  /**
   * The time-column formatter: epoch seconds (None for null) to `H:MM:SS`,
   * where H counts whole hours since the epoch, with the minutes and seconds
   * padded to two digits. An instant a Date cannot hold prints as NaN.
   */
  function ParseTimeString(timeString: Option<int>): (r: string)
    ensures timeString.None? <==> r == NullMarker
    ensures timeString.Some? && !ValidEpochSeconds(timeString.value) ==> r == "NaN:NaN:NaN"
  {
    if timeString.None? then NullMarker
    else
      var t := timeString.value;
      if !ValidEpochSeconds(t) then "NaN:NaN:NaN"
      else
        var text :=
          IntToString((t / 86400) * 24 + UtcHours(t)) + ":" +
          PadStart(IntToString(UtcMinutes(t)), 2, '0') + ":" +
          PadStart(IntToString(UtcSeconds(t)), 2, '0');
        text
  }

  /** Reads `H:MM:SS` (any signed H, two-digit MM and SS) back into seconds. */
  function ReadDuration(text: string): Option<int> {
    if |text| < 7 || text[|text| - 6] != ':' || text[|text| - 3] != ':' then None
    else
      match (ReadInt(text[..|text| - 6]), ReadNat(text[|text| - 5..|text| - 3]), ReadNat(text[|text| - 2..]))
      case (Some(h), Some(m), Some(s)) => Some(h * 3600 + m * 60 + s)
      case _ => None
  }

  /** Division by a day's seconds, from a quotient and remainder. */
  lemma DaysOf(t: int, q: int, r: int)
    requires t == 86400 * q + r && 0 <= r < 86400
    ensures t / 86400 == q
  {
  }

  /** Division by an hour's seconds, from a quotient and remainder. */
  lemma HoursOf(t: int, q: int, r: int)
    requires t == 3600 * q + r && 0 <= r < 3600
    ensures t / 3600 == q
  {
  }

  /** Division by a minute's seconds, from a quotient and remainder. */
  lemma MinutesOf(t: int, q: int, r: int)
    requires t == 60 * q + r && 0 <= r < 60
    ensures t / 60 == q && t % 60 == r
  {
  }

  /** The hour field of ParseTimeString is the number of whole hours since the epoch, rounded down. */
  lemma HoursSinceEpoch(t: int)
    ensures (t / 86400) * 24 + UtcHours(t) == t / 3600
    ensures t == (t / 3600) * 3600 + UtcMinutes(t) * 60 + UtcSeconds(t)
    ensures 0 <= UtcMinutes(t) < 60 && 0 <= UtcSeconds(t) < 60
  {
    var h, r := t / 3600, t % 3600;
    var q, hr := h / 24, h % 24;
    assert t == 3600 * h + r && 0 <= r < 3600;
    assert h == 24 * q + hr && 0 <= hr < 24;
    DaysOf(t, q, 3600 * hr + r);
    var m, sec := t / 60, t % 60;
    var mq, mr := m / 60, m % 60;
    assert t == 60 * m + sec && 0 <= sec < 60;
    assert m == 60 * mq + mr && 0 <= mr < 60;
    HoursOf(t, mq, 60 * mr + sec);
  }

  /** Where the three fields of `H:MM:SS` sit, for any H and two-character MM and SS. */
  lemma DurationFields(hh: string, mm: string, ss: string)
    requires |hh| >= 1 && |mm| == 2 && |ss| == 2
    ensures var text := hh + ":" + mm + ":" + ss;
      |text| >= 7 && text[..|text| - 6] == hh && text[|text| - 6] == ':' &&
      text[|text| - 5..|text| - 3] == mm && text[|text| - 3] == ':' && text[|text| - 2..] == ss
  {
  }

  /** Reading `H:MM:SS` combines the three fields into seconds. */
  lemma ReadDurationOfFields(hh: string, mm: string, ss: string, h: int, m: nat, sec: nat)
    requires |hh| >= 1 && |mm| == 2 && |ss| == 2
    requires ReadInt(hh) == Some(h) && ReadNat(mm) == Some(m) && ReadNat(ss) == Some(sec)
    ensures ReadDuration(hh + ":" + mm + ":" + ss) == Some(h * 3600 + m * 60 + sec)
  {
    DurationFields(hh, mm, ss);
  }

  /** ParseTimeString of a valid instant, field by field. */
  lemma TimeStringParts(t: int)
    requires ValidEpochSeconds(t)
    ensures var mm := PadStart(IntToString(UtcMinutes(t)), 2, '0');
      var ss := PadStart(IntToString(UtcSeconds(t)), 2, '0');
      ParseTimeString(Some(t)) == IntToString(t / 3600) + ":" + mm + ":" + ss
      && |mm| == 2 && ReadNat(mm) == Some(UtcMinutes(t))
      && |ss| == 2 && ReadNat(ss) == Some(UtcSeconds(t))
  {
    HoursSinceEpoch(t);
    PaddedTwoDigits(UtcMinutes(t));
    PaddedTwoDigits(UtcSeconds(t));
  }

  /** Round trip: reading back the text of a valid instant gives the epoch seconds it came from. */
  lemma ParseTimeStringRoundTrip(t: int)
    requires ValidEpochSeconds(t)
    ensures ReadDuration(ParseTimeString(Some(t))) == Some(t)
  {
    TimeStringParts(t);
    HoursSinceEpoch(t);
    var hh := IntToString(t / 3600);
    var mm := PadStart(IntToString(UtcMinutes(t)), 2, '0');
    var ss := PadStart(IntToString(UtcSeconds(t)), 2, '0');
    var h, m, sec := t / 3600, UtcMinutes(t), UtcSeconds(t);
    assert t == h * 3600 + m * 60 + sec;
    ReadIntToString(h);
    ReadDurationOfFields(hh, mm, ss, h, m, sec);
    assert ReadDuration(hh + ":" + mm + ":" + ss) == Some(t);
  }

  /**
   * The fields of a valid instant's text: the whole hours since the epoch
   * (rounded down), then the minutes and the seconds, two digits each.
   */
  lemma ParseTimeStringFields(t: int)
    requires ValidEpochSeconds(t)
    ensures var r := ParseTimeString(Some(t));
      |r| >= 7 && r[..|r| - 6] == IntToString(t / 3600) && r[|r| - 6] == ':' && r[|r| - 3] == ':'
      && ReadNat(r[|r| - 5..|r| - 3]) == Some((t / 60) % 60)
      && ReadNat(r[|r| - 2..]) == Some(t % 60)
  {
    var hh := IntToString(t / 3600);
    var mm := PadStart(IntToString(UtcMinutes(t)), 2, '0');
    var ss := PadStart(IntToString(UtcSeconds(t)), 2, '0');
    TimeStringParts(t);
    assert ParseTimeString(Some(t)) == hh + ":" + mm + ":" + ss;
    DurationFields(hh, mm, ss);
  }

  // ---------------------------------------------------------------------------
  // Negative time values: the clock reading
  // ---------------------------------------------------------------------------

  /** Reads unsigned `H:MM:SS` (one or more hour digits, two-digit MM and SS) into seconds. */
  function ReadClockMagnitude(text: string): Option<int> {
    if |text| >= 1 && IsDigit(text[0]) then ReadDuration(text) else None
  }

  /**
   * The usual reading of a time value `[-]H:MM:SS`, as a database TIME
   * column writes it: the sign applies to the whole duration.
   */
  function ReadClock(text: string): Option<int> {
    if |text| >= 1 && text[0] == '-' then
      match ReadClockMagnitude(text[1..])
      case Some(d) => Some(-d)
      case None => None
    else
      ReadClockMagnitude(text)
  }

  /** Reading unsigned `H:MM:SS` combines the three fields into seconds. */
  lemma ReadClockMagnitudeOfFields(hh: string, mm: string, ss: string, h: nat, m: nat, sec: nat)
    requires |hh| >= 1 && |mm| == 2 && |ss| == 2
    requires ReadNat(hh) == Some(h) && ReadNat(mm) == Some(m) && ReadNat(ss) == Some(sec)
    ensures ReadClockMagnitude(hh + ":" + mm + ":" + ss) == Some(h * 3600 + m * 60 + sec)
  {
    assert IsDigit(hh[0]);
    assert ReadInt(hh) == Some(h);
    ReadDurationOfFields(hh, mm, ss, h, m, sec);
    assert (hh + ":" + mm + ":" + ss)[0] == hh[0];
  }

  /** A non-negative duration as `H:MM:SS`: whole hours, then minutes and seconds padded to two digits. */
  function ClockMagnitude(a: nat): (r: string)
    ensures |r| >= 1 && IsDigit(r[0])
  {
    var hh := NatToString(a / 3600);
    assert IsDigit(hh[0]);
    hh + ":" + PadStart(IntToString(UtcMinutes(a)), 2, '0') + ":" + PadStart(IntToString(UtcSeconds(a)), 2, '0')
  }

  /** Reading ClockMagnitude back gives the duration it came from. */
  lemma ClockMagnitudeRoundTrip(a: nat)
    ensures ReadClockMagnitude(ClockMagnitude(a)) == Some(a as int)
  {
    var h, m, sec := a / 3600, UtcMinutes(a), UtcSeconds(a);
    assert a == h * 3600 + m * 60 + sec by {
      HoursSinceEpoch(a);
    }
    var r := ClockMagnitude(a);
    assert r == NatToString(h) + ":" + PadStart(NatToString(m), 2, '0') + ":" + PadStart(NatToString(sec), 2, '0');
    ReadClockFields(r, h, m, sec);
  }

  /** Reading a text built from whole hours, minutes and seconds gives back their total in seconds. */
  lemma ReadClockFields(r: string, h: nat, m: nat, sec: nat)
    requires m < 60 && sec < 60
    requires r == NatToString(h) + ":" + PadStart(NatToString(m), 2, '0') + ":" + PadStart(NatToString(sec), 2, '0')
    ensures ReadClockMagnitude(r) == Some(h * 3600 + m * 60 + sec)
  {
    PaddedTwoDigits(m);
    PaddedTwoDigits(sec);
    ReadNatToString(h);
    ReadClockMagnitudeOfFields(NatToString(h), PadStart(NatToString(m), 2, '0'), PadStart(NatToString(sec), 2, '0'), h, m, sec);
  }

  /** A text with a minus sign in front when `negative` holds. */
  function Signed(negative: bool, text: string): (r: string)
    ensures negative ==> |r| == |text| + 1 && r[0] == '-' && r[1..] == text
    ensures !negative ==> r == text
  {
    if negative then "-" + text else text
  }

  /** An instant as a signed duration: its sign, then its magnitude as `H:MM:SS`. */
  function ClockText(t: int): (r: string)
    ensures |r| >= 1 && (r[0] == '-' <==> t < 0)
  {
    Signed(t < 0, ClockMagnitude(if t < 0 then -t else t))
  }

  /**
   * The time formatter as a time column means it: the sign of the instant,
   * then its magnitude as hours, two-digit minutes and two-digit seconds.
   * It agrees with ParseTimeString on instants at or after the epoch.
   */
  function ClockTimeString(timeString: Option<int>): (r: string)
    ensures timeString.None? <==> r == NullMarker
    ensures timeString.Some? && !ValidEpochSeconds(timeString.value) ==> r == "NaN:NaN:NaN"
    ensures timeString.Some? && ValidEpochSeconds(timeString.value) ==>
      (|r| >= 1 && r[0] == '-' <==> timeString.value < 0)
  {
    if timeString.None? then NullMarker
    else
      var t := timeString.value;
      if !ValidEpochSeconds(t) then "NaN:NaN:NaN"
      else ClockText(t)
  }

  /** Round trip: the clock reading of ClockTimeString gives back every valid instant, negative ones included. */
  lemma ClockTimeStringRoundTrip(t: int)
    requires ValidEpochSeconds(t)
    ensures ReadClock(ClockTimeString(Some(t))) == Some(t)
  {
    ClockTextRoundTrip(t);
  }

  /** The clock reading of a signed magnitude applies the sign to the whole duration. */
  lemma SignedClockReading(negative: bool, m: string, d: int)
    requires |m| >= 1 && IsDigit(m[0]) && ReadClockMagnitude(m) == Some(d)
    ensures ReadClock(Signed(negative, m)) == Some(if negative then -d else d)
  {
    var r := Signed(negative, m);
    if negative {
      assert r[0] == '-' && r[1..] == m;
    } else {
      assert r[0] != '-';
    }
  }

  /** The clock reading of ClockText gives back the instant. */
  lemma ClockTextRoundTrip(t: int)
    ensures ReadClock(ClockText(t)) == Some(t)
  {
    var a: nat := if t < 0 then -t else t;
    ClockMagnitudeRoundTrip(a);
    SignedClockReading(t < 0, ClockMagnitude(a), a);
  }

  /** From the epoch on, the formatter of the code and the clock formatter print the same text. */
  lemma ParseTimeStringMatchesClock(t: int)
    requires ValidEpochSeconds(t) && t >= 0
    ensures ParseTimeString(Some(t)) == ClockTimeString(Some(t))
  {
    HoursSinceEpoch(t);
    assert ParseTimeString(Some(t)) == ClockMagnitude(t);
  }

  /** Round trip under the clock reading, for every valid instant at or after the epoch. */
  lemma ParseTimeStringClockRoundTrip(t: int)
    requires ValidEpochSeconds(t) && t >= 0
    ensures ReadClock(ParseTimeString(Some(t))) == Some(t)
  {
    ParseTimeStringMatchesClock(t);
    ClockTimeStringRoundTrip(t);
  }

  /** "59" is how String writes 59. */
  lemma FiftyNineText()
    ensures NatToString(59) == "59" && IntToString(59) == "59"
  {
    assert NatToString(5) == [Digit(5)] && Digit(5) == '5';
    assert Digit(9) == '9';
    assert NatToString(59) == NatToString(5) + [Digit(9)];
  }

  /** "-1" is how String writes -1. */
  lemma MinusOneText()
    ensures IntToString(-1) == "-1"
  {
    assert Digit(1) == '1';
    assert NatToString(1) == "1";
  }

  /** ParseTimeString of a valid instant whose three fields are known. */
  lemma TimeStringOfFields(t: int, hh: string, mm: string, ss: string)
    requires ValidEpochSeconds(t)
    requires IntToString(t / 3600) == hh
    requires PadStart(IntToString(UtcMinutes(t)), 2, '0') == mm
    requires PadStart(IntToString(UtcSeconds(t)), 2, '0') == ss
    ensures ParseTimeString(Some(t)) == hh + ":" + mm + ":" + ss
  {
    TimeStringParts(t);
  }

  /** The fields of one second before the epoch: hour -1, then 59 minutes and 59 seconds. */
  lemma OneSecondBeforeEpochFields(t: int)
    requires t == -1
    ensures IntToString(t / 3600) == "-1"
    ensures PadStart(IntToString(UtcMinutes(t)), 2, '0') == "59"
    ensures PadStart(IntToString(UtcSeconds(t)), 2, '0') == "59"
  {
    HoursOf(t, -1, 3599);
    MinusOneText();
    MinutesOf(t, -1, 59);
    FiftyNineText();
  }

  /** The text of one second before the epoch, as its three fields. */
  lemma OneSecondBeforeEpochParts(t: int)
    requires t == -1
    ensures ParseTimeString(Some(t)) == "-1" + ":" + "59" + ":" + "59"
  {
    OneSecondBeforeEpochFields(t);
    TimeStringOfFields(t, "-1", "59", "59");
  }

  /** The text of one second before the epoch. */
  lemma OneSecondBeforeEpochText(t: int)
    requires t == -1
    ensures ParseTimeString(Some(t)) == "-1:59:59"
  {
    var r := ParseTimeString(Some(t));
    OneSecondBeforeEpochParts(t);
    JoinedFields(r);
  }

  /** A text equal to the fields "-1", "59" and "59" joined by colons is "-1:59:59". */
  lemma JoinedFields(r: string)
    requires r == "-1" + ":" + "59" + ":" + "59"
    ensures r == "-1:59:59"
  {
  }

  /** The clock reading of "-1:59:59" is 7199 seconds before the epoch. */
  lemma OneSecondBeforeEpochReading()
    ensures ReadClock("-1:59:59") == Some(-7199)
  {
    assert ReadNat("59") == Some(59) by {
      FiftyNineText();
      ReadNatToString(59);
    }
    assert ReadNat("1") == Some(1);
    assert ReadClockMagnitude("1:59:59") == Some(7199) by {
      ReadClockMagnitudeOfFields("1", "59", "59", 1, 59, 59);
      assert "1" + ":" + "59" + ":" + "59" == "1:59:59";
    }
    SignedClockReading(true, "1:59:59", 7199);
    assert Signed(true, "1:59:59") == "-1:59:59";
  }

  /** The clock text of one second before the epoch. */
  lemma OneSecondBeforeEpochClock()
    ensures ClockTimeString(Some(-1)) == "-0:00:01"
  {
    assert UtcMinutes(1) == 0 && UtcSeconds(1) == 1;
    assert IntToString(0) == "0" && IntToString(1) == "1";
    assert ClockMagnitude(1) == "0" + ":" + "00" + ":" + "01";
    assert ClockText(-1) == Signed(true, ClockMagnitude(1));
  }

  /**
   * One second before the epoch the code prints "-1:59:59": the hour field
   * is rounded down while minutes and seconds count up from it. Read as a
   * time value that is -7199 seconds, not -1; the clock formatter prints
   * "-0:00:01".
   */
  lemma NegativeTimeMisread()
    ensures ParseTimeString(Some(-1)) == "-1:59:59"
    ensures ReadClock(ParseTimeString(Some(-1))) == Some(-7199)
    ensures ClockTimeString(Some(-1)) == "-0:00:01"
  {
    OneSecondBeforeEpochText(-1);
    OneSecondBeforeEpochReading();
    OneSecondBeforeEpochClock();
  }

  /**
   * The datetime-column formatter: epoch seconds (None for null) to the text
   * `toUTCString` gives for that instant. The Date library's formatting is
   * passed in as `utcString`, a function of the time value in milliseconds.
   */
  function ParseDateTime(dateTimeString: Option<int>, utcString: int -> string): (r: string)
    ensures dateTimeString.None? ==> r == NullMarker
    ensures dateTimeString.Some? && ValidEpochSeconds(dateTimeString.value) ==>
      r == utcString(dateTimeString.value * 1000)
    ensures dateTimeString.Some? && !ValidEpochSeconds(dateTimeString.value) ==> r == "Invalid Date"
  {
    if dateTimeString.None? then NullMarker
    else if !ValidEpochSeconds(dateTimeString.value) then "Invalid Date"
    else utcString(dateTimeString.value * 1000)
  }

  /** A calendar date as the Date getters give it: full year, month counted from 0, day of the month. */
  datatype CalendarDate = CalendarDate(year: int, month: int, day: int)

  /**
   * The date-column formatter: epoch seconds (None for null) to `M-D-YYYY`
   * with the month counted from 1. The Date library's calendar is passed in
   * as `calendar`, a function of the time value in milliseconds.
   */
  function ParseDate(dateString: Option<int>, calendar: int -> CalendarDate): (r: string)
    ensures dateString.None? <==> r == NullMarker
    ensures dateString.Some? && !ValidEpochSeconds(dateString.value) ==> r == "NaN-NaN-NaN"
  {
    if dateString.None? then NullMarker
    else if !ValidEpochSeconds(dateString.value) then "NaN-NaN-NaN"
    else
      var date := calendar(dateString.value * 1000);
      var month := IntToString(date.month + 1);
      var text := month + "-" + IntToString(date.day) + "-" + IntToString(date.year);
      assert text[|month|] == '-';
      text
  }

  /**
   * For a valid instant whose calendar fields are not negative, the date
   * text splits at its dashes into three numbers: the month counted from 1,
   * the day and the year.
   */
  lemma ParseDateFields(raw: int, calendar: int -> CalendarDate)
    requires ValidEpochSeconds(raw)
    requires calendar(raw * 1000).month >= 0 && calendar(raw * 1000).day >= 0 && calendar(raw * 1000).year >= 0
    ensures var date := calendar(raw * 1000);
      var parts := Split(ParseDate(Some(raw), calendar), '-');
      |parts| == 3 && ReadNat(parts[0]) == Some(date.month + 1)
      && ReadNat(parts[1]) == Some(date.day) && ReadNat(parts[2]) == Some(date.year)
  {
    var date := calendar(raw * 1000);
    var m, d, y := NatToString(date.month + 1), NatToString(date.day), NatToString(date.year);
    assert '-' !in m && '-' !in d && '-' !in y by {
      assert !IsDigit('-');
    }
    var parts := [m, d, y];
    assert Join(parts, '-') == m + "-" + d + "-" + y by {
      assert Join(parts[1..], '-') == d + "-" + y by {
        assert Join(parts[2..], '-') == y;
      }
    }
    SplitJoin(parts, '-');
    ReadNatToString(date.month + 1);
    ReadNatToString(date.day);
    ReadNatToString(date.year);
  }

  // ===========================================================================
  // Type hints
  // ===========================================================================

  /** A number optional in the descriptor, concatenated into a string: `String(n)`, or "undefined". */
  function NumberText(n: Option<int>): string {
    match n
    case None => "undefined"
    case Some(v) => IntToString(v)
  }

  /** The type hint shown for a column: one hint per tag, as the source's branches assign it. */
  function TypeLabel(a: TableAttribute): string {
    match a.attributeType
    case Unknown(_) => ""
    case Known(t) =>
      match t
      case Tiny => "tiny"
      case TinyUnsigned => "tiny unsigned"
      case Small => "small"
      case SmallUnsigned => "small unsigned"
      case Medium => "medium"
      case MediumUnsigned => "medium unsigned"
      case Big => "big"
      case BigUnsigned => "big unsigned"
      case Int => "tiny"
      case IntUnsigned => "tiny"
      case Float => "float"
      case FloatUnsigned => "float unsigned"
      case Double => "double"
      case Decimal =>
        "decimal(" + NumberText(a.decimalNumDigits) + ", " + NumberText(a.decimalNumDecimalDigits) + ")"
      case Bool => "bool"
      case Char => "char(" + NumberText(a.stringTypeAttributeLengthInfo) + ")"
      case VarChar => "varchar(" + NumberText(a.stringTypeAttributeLengthInfo) + ")"
      case Uuid => "UUID"
      case Date => "date"
      case DateTime => "datetime"
      case Time => "HH:MM:SS"
      case Timestamp => "timestamp"
      case Enum => "enum"
      case Blob => ""
  }

  /**
   * getTypeString: starts from the empty hint and assigns the hint of the
   * first branch whose tag matches.
   */
  method GetTypeString(a: TableAttribute) returns (typeString: string)
    ensures typeString == TypeLabel(a)
  {
    typeString := "";
    var t := a.attributeType;
    if t == Known(Tiny) {
      typeString := "tiny";
    } else if t == Known(TinyUnsigned) {
      typeString := "tiny unsigned";
    } else if t == Known(Small) {
      typeString := "small";
    } else if t == Known(SmallUnsigned) {
      typeString := "small unsigned";
    } else if t == Known(Medium) {
      typeString := "medium";
    } else if t == Known(MediumUnsigned) {
      typeString := "medium unsigned";
    } else if t == Known(Big) {
      typeString := "big";
    } else if t == Known(BigUnsigned) {
      typeString := "big unsigned";
    } else if t == Known(Int) {
      typeString := "tiny";
    } else if t == Known(IntUnsigned) {
      typeString := "tiny";
    } else if t == Known(Float) {
      typeString := "float";
    } else if t == Known(FloatUnsigned) {
      typeString := "float unsigned";
    } else if t == Known(Double) {
      typeString := "double";
    } else if t == Known(Decimal) {
      typeString := "decimal(" + NumberText(a.decimalNumDigits) + ", " + NumberText(a.decimalNumDecimalDigits) + ")";
    } else if t == Known(Bool) {
      typeString := "bool";
    } else if t == Known(Char) {
      typeString := "char(" + NumberText(a.stringTypeAttributeLengthInfo) + ")";
    } else if t == Known(VarChar) {
      typeString := "varchar(" + NumberText(a.stringTypeAttributeLengthInfo) + ")";
    } else if t == Known(Uuid) {
      typeString := "UUID";
    } else if t == Known(Date) {
      typeString := "date";
    } else if t == Known(DateTime) {
      typeString := "datetime";
    } else if t == Known(Time) {
      typeString := "HH:MM:SS";
    } else if t == Known(Timestamp) {
      typeString := "timestamp";
    } else if t == Known(Enum) {
      typeString := "enum";
    }
  }

  /** Only a blob column and a tag outside the enumeration get no type hint. */
  lemma TypeLabelEmpty(a: TableAttribute)
    ensures TypeLabel(a) == "" <==> a.attributeType == Known(Blob) || a.attributeType.Unknown?
  {
  }

  /** Three tags share the hint "tiny": the tiny, int and unsigned int columns. */
  lemma TypeLabelTiny(a: TableAttribute)
    ensures TypeLabel(a) == "tiny" <==> a.attributeType in {Known(Tiny), Known(Int), Known(IntUnsigned)}
  {
    if a.attributeType.Known? && a.attributeType.kind in {Decimal, Char, VarChar} {
      assert TypeLabel(a)[0] in "dcv";
    }
  }

  /**
   * Recognises a type hint: the tag whose hint it is, for every hint
   * other than "" and "tiny". The parametrised labels are recognised by
   * their opening text.
   */
  function ClassifyLabel(hint: string): Option<AttributeType> {
    if '(' in hint then
      if |hint| >= 8 && hint[..8] == "decimal(" then Some(Decimal)
      else if |hint| >= 8 && hint[..8] == "varchar(" then Some(VarChar)
      else if |hint| >= 5 && hint[..5] == "char(" then Some(Char)
      else None
    else if hint == "tiny unsigned" then Some(TinyUnsigned)
    else if hint == "small" then Some(Small)
    else if hint == "small unsigned" then Some(SmallUnsigned)
    else if hint == "medium" then Some(Medium)
    else if hint == "medium unsigned" then Some(MediumUnsigned)
    else if hint == "big" then Some(Big)
    else if hint == "big unsigned" then Some(BigUnsigned)
    else if hint == "float" then Some(Float)
    else if hint == "float unsigned" then Some(FloatUnsigned)
    else if hint == "double" then Some(Double)
    else if hint == "bool" then Some(Bool)
    else if hint == "UUID" then Some(Uuid)
    else if hint == "date" then Some(Date)
    else if hint == "datetime" then Some(DateTime)
    else if hint == "HH:MM:SS" then Some(Time)
    else if hint == "timestamp" then Some(Timestamp)
    else if hint == "enum" then Some(Enum)
    else None
  }

  /** Every hint other than "" and "tiny" is recognised as the tag it was made from. */
  lemma ClassifyTypeLabel(a: TableAttribute)
    requires TypeLabel(a) != "" && TypeLabel(a) != "tiny"
    ensures a.attributeType.Known? && ClassifyLabel(TypeLabel(a)) == Some(a.attributeType.kind)
  {
    var hint := TypeLabel(a);
    match a.attributeType.kind
    case Decimal =>
      assert hint[7] == '(' && hint[..8] == "decimal(";
    case VarChar =>
      assert hint[7] == '(' && hint[..8] == "varchar(";
    case Char =>
      assert hint[4] == '(' && hint[..5] == "char(";
      assert |hint| >= 8 ==> hint[..8] != "decimal(" && hint[..8] != "varchar(" by {
        if |hint| >= 8 { assert hint[0] == 'c'; }
      }
    case _ =>
  }

  /** The text of an optional number reads back as that number; "undefined" stands for None. */
  lemma NumberTextInjective(m: Option<int>, n: Option<int>)
    requires NumberText(m) == NumberText(n)
    ensures m == n
  {
    if m.Some? && n.Some? {
      IntToStringInjective(m.value, n.value);
    }
  }

  /** No digit, minus sign or "undefined" contains a comma. */
  lemma NumberTextHasNoComma(n: Option<int>)
    ensures ',' !in NumberText(n)
  {
    if n.Some? {
      var v := n.value;
      assert NatToString(if v < 0 then -v else v) == (if v < 0 then NumberText(n)[1..] else NumberText(n));
    }
  }

  /**
   * The type hint identifies the column's type: two columns with the same
   * hint, other than "" and "tiny", have the same tag, and the same length
   * (char, varchar) or precision and scale (decimal).
   */
  lemma TypeLabelDeterminesType(a: TableAttribute, b: TableAttribute)
    requires TypeLabel(a) == TypeLabel(b)
    requires TypeLabel(a) != "" && TypeLabel(a) != "tiny"
    ensures a.attributeType == b.attributeType
    ensures a.attributeType in {Known(Char), Known(VarChar)} ==>
      a.stringTypeAttributeLengthInfo == b.stringTypeAttributeLengthInfo
    ensures a.attributeType == Known(Decimal) ==>
      a.decimalNumDigits == b.decimalNumDigits && a.decimalNumDecimalDigits == b.decimalNumDecimalDigits
  {
    ClassifyTypeLabel(a);
    ClassifyTypeLabel(b);
    var hint := TypeLabel(a);
    match a.attributeType.kind
    case Char =>
      assert hint[5..|hint| - 1] == NumberText(a.stringTypeAttributeLengthInfo);
      assert TypeLabel(b)[5..|hint| - 1] == NumberText(b.stringTypeAttributeLengthInfo);
      NumberTextInjective(a.stringTypeAttributeLengthInfo, b.stringTypeAttributeLengthInfo);
    case VarChar =>
      assert hint[8..|hint| - 1] == NumberText(a.stringTypeAttributeLengthInfo);
      assert TypeLabel(b)[8..|hint| - 1] == NumberText(b.stringTypeAttributeLengthInfo);
      NumberTextInjective(a.stringTypeAttributeLengthInfo, b.stringTypeAttributeLengthInfo);
    case Decimal =>
      DecimalLabelParts(a);
      DecimalLabelParts(b);
      var sa, sb := NumberText(a.decimalNumDecimalDigits), NumberText(b.decimalNumDecimalDigits);
      assert (" " + sa)[1..] == sa && (" " + sb)[1..] == sb;
      NumberTextInjective(a.decimalNumDigits, b.decimalNumDigits);
      NumberTextInjective(a.decimalNumDecimalDigits, b.decimalNumDecimalDigits);
    case _ =>
  }

  /** The precision and scale can be cut back out of a decimal hint at its comma. */
  lemma DecimalLabelParts(a: TableAttribute)
    requires a.attributeType == Known(Decimal)
    ensures var hint := TypeLabel(a);
      |hint| >= 9 &&
      Split(hint[8..|hint| - 1], ',') ==
        [NumberText(a.decimalNumDigits), " " + NumberText(a.decimalNumDecimalDigits)]
  {
    var p := NumberText(a.decimalNumDigits);
    var s := NumberText(a.decimalNumDecimalDigits);
    var hint := TypeLabel(a);
    assert hint[8..|hint| - 1] == p + ", " + s;
    NumberTextHasNoComma(a.decimalNumDigits);
    NumberTextHasNoComma(a.decimalNumDecimalDigits);
    assert ',' !in " " + s;
    var pieces := [p, " " + s];
    assert Join(pieces, ',') == p + [','] + (" " + s);
    assert p + ", " + s == p + [','] + (" " + s);
    SplitJoin(pieces, ',');
  }

  // ===========================================================================
  // Input widgets
  // ===========================================================================

  /** The current value bound to a widget: whatever JavaScript value the caller holds. */
  datatype JsValue =
    | Undefined
    | Null
    | Boolean(b: bool)
    | Number(n: int)
    | Text(s: string)
    | List(items: seq<JsValue>)

  /** JavaScript truthiness, as `!currentValue` and `if (currentValue)` test it. */
  predicate Truthy(v: JsValue)
    ensures Truthy(v) <==> v !in {Undefined, Null, Boolean(false), Number(0), Text("")}
  {
    match v
    case Undefined => false
    case Null => false
    case Boolean(b) => b
    case Number(n) => n != 0
    case Text(s) => s != ""
    case List(_) => true
  }

  /** The `type` attribute of an input element. */
  datatype InputKind = NumberInput | TextInput | DateInput | TimeInput

  /** One input element; a None attribute is one the element leaves out (or sets to undefined). */
  datatype Input = Input(
    kind: InputKind,
    value: JsValue,
    step: Option<string>,
    min: Option<string>,
    max: Option<string>,
    defaultValue: Option<string>,
    id: string)

  /** One option of a select element. */
  datatype SelectOption = SelectOption(value: string, selected: bool)

  /** The widget a column is edited with. */
  datatype Widget =
    | Single(input: Input)
    | DateTimeFields(date: Input, time: Input)
    | Select(selectDefault: JsValue, options: seq<SelectOption>)
    | Disabled(shown: string)

  /** What getAttributeInputBlock throws. */
  datatype InputBlockError =
    | DecimalParamsUndefined
    | UnsupportedType(attributeName: string, typeCode: string)
    | NotSplittable(currentValue: JsValue)

  /**
   * The message each thrown error carries. For the TypeError of a value
   * without `split` it is the V8 engine's wording, which differs between
   * null and a boolean or number.
   */
  function Message(e: InputBlockError): (m: string)
    ensures e.UnsupportedType? ==>
      |m| >= 38 + |e.attributeName| + |e.typeCode|
      && m[38..38 + |e.attributeName|] == e.attributeName
      && m[|m| - |e.typeCode|..] == e.typeCode
  {
    match e
    case DecimalParamsUndefined =>
      "Decimal attributes of decimalNumDigits or decimalNumDecimalDigits are undefined"
    case UnsupportedType(name, code) =>
      "Unsupported Type found for attribute: " + name + " of type " + code
    case NotSplittable(v) =>
      if v.Null? then "Cannot read properties of null (reading 'split')"
      else "currentValue.split is not a function"
  }

  // ---------------------------------------------------------------------------
  // Integer bounds
  // ---------------------------------------------------------------------------

  /** The min and max text of a number input. */
  datatype Bounds = Bounds(min: string, max: string)

  /** The min/max literals each integer branch assigns. */
  function IntegerBounds(t: AttributeType): (b: Bounds)
    requires IsInteger(t)
    ensures b.min == "0" <==> IsUnsigned(t)
    ensures !IsUnsigned(t) ==> |b.min| >= 2 && b.min[0] == '-'
    ensures |b.max| >= 1 && b.max[0] != '-'
  {
    match t
    case Tiny => Bounds("-127", "128")
    case TinyUnsigned => Bounds("0", "255")
    case Small => Bounds("-32768", "32767")
    case SmallUnsigned => Bounds("0", "65535")
    case Medium => Bounds("-8388608", "8388607")
    case MediumUnsigned => Bounds("0", "16777215")
    case Big => Bounds("-9223372036854775808", "9223372036854775807")
    case BigUnsigned => Bounds("0", "18446744073709551615")
    case Int => Bounds("-2147483648", "2147483647")
    case IntUnsigned => Bounds("0", "4294967295")
  }

  /**
   * Reference for the integer column types: half the number of values their
   * storage holds (2 to the power of bits minus one), for 8, 16, 24, 32 and 64
   * bits of storage.
   */
  function HalfSpan(t: AttributeType): nat
    requires IsInteger(t)
  {
    match t
    case Tiny | TinyUnsigned => 0x80
    case Small | SmallUnsigned => 0x8000
    case Medium | MediumUnsigned => 0x80_0000
    case Int | IntUnsigned => 0x8000_0000
    case Big | BigUnsigned => 0x8000_0000_0000_0000
  }

  /** The least value of a column of type t: zero when unsigned, else minus HalfSpan(t). */
  function StorageMin(t: AttributeType): int
    requires IsInteger(t)
  {
    if IsUnsigned(t) then 0 else -(HalfSpan(t) as int)
  }

  /** The greatest value of a column of type t. */
  function StorageMax(t: AttributeType): int
    requires IsInteger(t)
  {
    if IsUnsigned(t) then 2 * HalfSpan(t) - 1 else HalfSpan(t) - 1
  }

  /** The Tiny bounds read as the storage limits moved up by one. */
  lemma TinyBoundsRead()
    ensures ReadInt("-127") == Some(StorageMin(Tiny) + 1) && ReadInt("128") == Some(StorageMax(Tiny) + 1)
  {
    ReadNatAppend("1", '2', "12"); ReadNatAppend("12", '7', "127");
    assert "-127"[1..] == "127";
    ReadNatAppend("1", '2', "12"); ReadNatAppend("12", '8', "128");
  }

  /** The TinyUnsigned bounds read as its storage limits. */
  lemma TinyUnsignedBoundsRead()
    ensures ReadInt("0") == Some(StorageMin(TinyUnsigned)) && ReadInt("255") == Some(StorageMax(TinyUnsigned))
  {
    ReadNatAppend("2", '5', "25"); ReadNatAppend("25", '5', "255");
  }

  /** The Small bounds read as its storage limits. */
  lemma SmallBoundsRead()
    ensures ReadInt("-32768") == Some(StorageMin(Small)) && ReadInt("32767") == Some(StorageMax(Small))
  {
    ReadNatAppend("3", '2', "32"); ReadNatAppend("32", '7', "327"); ReadNatAppend("327", '6', "3276");
    ReadNatAppend("3276", '8', "32768");
    assert "-32768"[1..] == "32768";
    ReadNatAppend("3", '2', "32"); ReadNatAppend("32", '7', "327"); ReadNatAppend("327", '6', "3276");
    ReadNatAppend("3276", '7', "32767");
  }

  /** The SmallUnsigned bounds read as its storage limits. */
  lemma SmallUnsignedBoundsRead()
    ensures ReadInt("0") == Some(StorageMin(SmallUnsigned)) && ReadInt("65535") == Some(StorageMax(SmallUnsigned))
  {
    ReadNatAppend("6", '5', "65"); ReadNatAppend("65", '5', "655"); ReadNatAppend("655", '3', "6553");
    ReadNatAppend("6553", '5', "65535");
  }

  /** The Medium bounds read as its storage limits. */
  lemma MediumBoundsRead()
    ensures ReadInt("-8388608") == Some(StorageMin(Medium)) && ReadInt("8388607") == Some(StorageMax(Medium))
  {
    ReadNatAppend("8", '3', "83"); ReadNatAppend("83", '8', "838"); ReadNatAppend("838", '8', "8388");
    ReadNatAppend("8388", '6', "83886"); ReadNatAppend("83886", '0', "838860"); ReadNatAppend("838860", '8', "8388608");
    assert "-8388608"[1..] == "8388608";
    ReadNatAppend("8", '3', "83"); ReadNatAppend("83", '8', "838"); ReadNatAppend("838", '8', "8388");
    ReadNatAppend("8388", '6', "83886"); ReadNatAppend("83886", '0', "838860"); ReadNatAppend("838860", '7', "8388607");
  }

  /** The MediumUnsigned bounds read as its storage limits. */
  lemma MediumUnsignedBoundsRead()
    ensures ReadInt("0") == Some(StorageMin(MediumUnsigned)) && ReadInt("16777215") == Some(StorageMax(MediumUnsigned))
  {
    ReadNatAppend("1", '6', "16"); ReadNatAppend("16", '7', "167"); ReadNatAppend("167", '7', "1677");
    ReadNatAppend("1677", '7', "16777"); ReadNatAppend("16777", '2', "167772"); ReadNatAppend("167772", '1', "1677721");
    ReadNatAppend("1677721", '5', "16777215");
  }

  /** The first nine digits shared by both 64-bit signed limits. */
  lemma ReadBigPrefix9()
    ensures ReadNat("922337203") == Some(922337203)
  {
    ReadNatAppend("9", '2', "92"); ReadNatAppend("92", '2', "922"); ReadNatAppend("922", '3', "9223");
    ReadNatAppend("9223", '3', "92233"); ReadNatAppend("92233", '7', "922337"); ReadNatAppend("922337", '2', "9223372");
    ReadNatAppend("9223372", '0', "92233720"); ReadNatAppend("92233720", '3', "922337203");
  }

  /** The first eighteen digits shared by both 64-bit signed limits. */
  lemma ReadBigPrefix18()
    ensures ReadNat("922337203685477580") == Some(922337203685477580)
  {
    ReadBigPrefix9();
    ReadNatAppend("922337203", '6', "9223372036"); ReadNatAppend("9223372036", '8', "92233720368"); ReadNatAppend("92233720368", '5', "922337203685");
    ReadNatAppend("922337203685", '4', "9223372036854"); ReadNatAppend("9223372036854", '7', "92233720368547"); ReadNatAppend("92233720368547", '7', "922337203685477");
    ReadNatAppend("922337203685477", '5', "9223372036854775"); ReadNatAppend("9223372036854775", '8', "92233720368547758"); ReadNatAppend("92233720368547758", '0', "922337203685477580");
  }

  /** The Big bounds read as its storage limits. */
  lemma BigBoundsRead()
    ensures ReadInt("-9223372036854775808") == Some(StorageMin(Big)) && ReadInt("9223372036854775807") == Some(StorageMax(Big))
  {
    ReadBigPrefix18();
    ReadNatAppend("922337203685477580", '8', "9223372036854775808");
    assert "-9223372036854775808"[1..] == "9223372036854775808";
    ReadNatAppend("922337203685477580", '7', "9223372036854775807");
  }

  /** The first ten digits of the 64-bit unsigned limit. */
  lemma ReadBigUnsignedPrefix10()
    ensures ReadNat("1844674407") == Some(1844674407)
  {
    ReadNatAppend("1", '8', "18"); ReadNatAppend("18", '4', "184"); ReadNatAppend("184", '4', "1844");
    ReadNatAppend("1844", '6', "18446"); ReadNatAppend("18446", '7', "184467"); ReadNatAppend("184467", '4', "1844674");
    ReadNatAppend("1844674", '4', "18446744"); ReadNatAppend("18446744", '0', "184467440"); ReadNatAppend("184467440", '7', "1844674407");
  }

  /** The BigUnsigned bounds read as its storage limits. */
  lemma BigUnsignedBoundsRead()
    ensures ReadInt("0") == Some(StorageMin(BigUnsigned)) && ReadInt("18446744073709551615") == Some(StorageMax(BigUnsigned))
  {
    ReadBigUnsignedPrefix10();
    ReadNatAppend("1844674407", '3', "18446744073"); ReadNatAppend("18446744073", '7', "184467440737"); ReadNatAppend("184467440737", '0', "1844674407370");
    ReadNatAppend("1844674407370", '9', "18446744073709"); ReadNatAppend("18446744073709", '5', "184467440737095"); ReadNatAppend("184467440737095", '5', "1844674407370955");
    ReadNatAppend("1844674407370955", '1', "18446744073709551"); ReadNatAppend("18446744073709551", '6', "184467440737095516"); ReadNatAppend("184467440737095516", '1', "1844674407370955161");
    ReadNatAppend("1844674407370955161", '5', "18446744073709551615");
  }

  /** The Int bounds read as its storage limits. */
  lemma IntBoundsRead()
    ensures ReadInt("-2147483648") == Some(StorageMin(Int)) && ReadInt("2147483647") == Some(StorageMax(Int))
  {
    ReadNatAppend("2", '1', "21"); ReadNatAppend("21", '4', "214"); ReadNatAppend("214", '7', "2147");
    ReadNatAppend("2147", '4', "21474"); ReadNatAppend("21474", '8', "214748"); ReadNatAppend("214748", '3', "2147483");
    ReadNatAppend("2147483", '6', "21474836"); ReadNatAppend("21474836", '4', "214748364"); ReadNatAppend("214748364", '8', "2147483648");
    assert "-2147483648"[1..] == "2147483648";
    ReadNatAppend("2", '1', "21"); ReadNatAppend("21", '4', "214"); ReadNatAppend("214", '7', "2147");
    ReadNatAppend("2147", '4', "21474"); ReadNatAppend("21474", '8', "214748"); ReadNatAppend("214748", '3', "2147483");
    ReadNatAppend("2147483", '6', "21474836"); ReadNatAppend("21474836", '4', "214748364"); ReadNatAppend("214748364", '7', "2147483647");
  }

  /** The IntUnsigned bounds read as its storage limits. */
  lemma IntUnsignedBoundsRead()
    ensures ReadInt("0") == Some(StorageMin(IntUnsigned)) && ReadInt("4294967295") == Some(StorageMax(IntUnsigned))
  {
    ReadNatAppend("4", '2', "42"); ReadNatAppend("42", '9', "429"); ReadNatAppend("429", '4', "4294");
    ReadNatAppend("4294", '9', "42949"); ReadNatAppend("42949", '6', "429496"); ReadNatAppend("429496", '7', "4294967");
    ReadNatAppend("4294967", '2', "42949672"); ReadNatAppend("42949672", '9', "429496729"); ReadNatAppend("429496729", '5', "4294967295");
  }

  /**
   * The integer bounds denote the storage limits of each type, except for
   * tiny, whose range is the signed 8-bit range moved up by one.
   */
  lemma IntegerBoundsMatchStorage(t: AttributeType)
    requires IsInteger(t)
    ensures var shift := if t == Tiny then 1 else 0;
      ReadInt(IntegerBounds(t).min) == Some(StorageMin(t) + shift)
      && ReadInt(IntegerBounds(t).max) == Some(StorageMax(t) + shift)
  {
    match t
    case Tiny => TinyBoundsRead();
    case TinyUnsigned => TinyUnsignedBoundsRead();
    case Small => SmallBoundsRead();
    case SmallUnsigned => SmallUnsignedBoundsRead();
    case Medium => MediumBoundsRead();
    case MediumUnsigned => MediumUnsignedBoundsRead();
    case Big => BigBoundsRead();
    case BigUnsigned => BigUnsignedBoundsRead();
    case Int => IntBoundsRead();
    case IntUnsigned => IntUnsignedBoundsRead();
  }

  /**
   * Every integer widget's bounds read as numbers with min <= max, and every
   * unsigned type's min is "0".
   */
  lemma IntegerBoundsOrdered(t: AttributeType)
    requires IsInteger(t)
    ensures var b := IntegerBounds(t);
      ReadInt(b.min).Some? && ReadInt(b.max).Some? && ReadInt(b.min).value <= ReadInt(b.max).value
    ensures IsUnsigned(t) ==> IntegerBounds(t).min == "0"
  {
    IntegerBoundsMatchStorage(t);
  }

  // ---------------------------------------------------------------------------
  // Decimal bounds and step
  // ---------------------------------------------------------------------------

  /**
   * The max text of a decimal(p, s) widget: p - s nines, the point, s nines.
   * The min text is this with a minus sign in front.
   */
  function DecimalMax(p: int, s: int): string {
    Repeat('9', p - s) + "." + Repeat('9', s)
  }

  /** The step text of a decimal widget with scale s: "0.", s - 1 zeros, "1". */
  function DecimalStep(s: int): string {
    "0." + Repeat('0', s - 1) + "1"
  }

  /**
   * For 0 <= s <= p the max text has p + 1 characters: a point after p - s
   * nines and nines everywhere else.
   */
  lemma DecimalMaxShape(p: int, s: int)
    requires 0 <= s <= p
    ensures var m := DecimalMax(p, s);
      |m| == p + 1 && m[p - s] == '.'
      && (forall i :: 0 <= i < |m| && i != p - s ==> m[i] == '9')
  {
    var left, right := Repeat('9', p - s), Repeat('9', s);
    var m := DecimalMax(p, s);
    assert m == left + "." + right;
    forall i | 0 <= i < |m| && i != p - s
      ensures m[i] == '9'
    {
      if i < p - s {
        assert m[i] == left[i];
      } else {
        assert m[i] == right[i - (p - s) - 1];
      }
    }
  }

  /**
   * With the point taken out, the max text is p nines: the largest p-digit
   * number, scaled by s places.
   */
  lemma DecimalMaxDigits(p: int, s: int)
    requires 0 <= s <= p
    ensures RemoveAll(DecimalMax(p, s), '.') == Repeat('9', p)
  {
    var left, right := Repeat('9', p - s), Repeat('9', s);
    assert DecimalMax(p, s) == (left + ".") + right;
    assert '.' !in left && '.' !in right;
    var dot := RemoveAll(".", '.');
    assert dot == [];
    RemoveAllConcat(left, ".", '.');
    assert RemoveAll(left + ".", '.') == left + dot;
    RemoveAllConcat(left + ".", right, '.');
    assert RemoveAll(DecimalMax(p, s), '.') == left + right;
    NinesConcat(p - s, s);
    assert (p - s) + s == p;
  }

  /** Two runs of nines make one. */
  lemma {:induction false} NinesConcat(a: nat, b: nat)
    ensures Repeat('9', a) + Repeat('9', b) == Repeat('9', a + b)
  {
    if b > 0 {
      NinesConcat(a, b - 1);
      assert Repeat('9', a) + Repeat('9', b) == (Repeat('9', a) + Repeat('9', b - 1)) + ['9'];
    }
  }

  /**
   * For scale s >= 1 the step is one unit in the last place of the max
   * text: a point after one zero, then s digits of which only the last is 1,
   * so step and max have the same number of digits after the point.
   */
  lemma DecimalStepIsLastPlace(p: int, s: int)
    requires 1 <= s <= p
    ensures var st := DecimalStep(s);
      var m := DecimalMax(p, s);
      |st| == s + 2 && st[..2] == "0." && st[|st| - 1] == '1'
      && (forall i :: 2 <= i < |st| - 1 ==> st[i] == '0')
      && |st| - 2 == |m| - (p - s) - 1
  {
    DecimalMaxShape(p, s);
  }

  /** With scale 0 (or less) the zero loop does not run: the step is "0.1" though max has no fraction digits. */
  lemma DecimalStepScaleZero(p: int, s: int)
    requires s <= 0 <= p
    ensures DecimalStep(s) == "0.1"
    ensures DecimalMax(p, s) == Repeat('9', p - s) + "."
  {
  }

  // ---------------------------------------------------------------------------
  // Date and datetime values
  // ---------------------------------------------------------------------------

  /** The pieces of a text value split on spaces, as JavaScript strings. */
  function TextPieces(pieces: seq<string>): (vs: seq<JsValue>)
    ensures |vs| == |pieces| && forall i :: 0 <= i < |vs| ==> vs[i] == Text(pieces[i])
  {
    seq(|pieces|, i requires 0 <= i < |pieces| => Text(pieces[i]))
  }

  /** `array[i]`: the element, or undefined past the end. */
  function ValueAt(vs: seq<JsValue>, i: nat): JsValue {
    if i < |vs| then vs[i] else Undefined
  }

  /** `array[i]` of an array of strings. */
  function TextAt(ss: seq<string>, i: nat): Option<string> {
    if i < |ss| then Some(ss[i]) else None
  }

  /**
   * The date and time parts of a datetime column's current value: left
   * undefined for undefined or "undefined undefined", taken as they are from
   * an array, split on spaces from any other text; None where the value has
   * no `split` (calling it throws).
   */
  function CurrentValueParts(currentValue: JsValue): (r: Option<seq<JsValue>>)
    ensures r.None? <==> currentValue.Null? || currentValue.Boolean? || currentValue.Number?
    ensures currentValue.Text? && currentValue.s != "undefined undefined" ==>
      r.Some? && |r.value| >= 1 && forall i :: 0 <= i < |r.value| ==> r.value[i].Text? && ' ' !in r.value[i].s
  {
    if currentValue == Text("undefined undefined") || currentValue == Undefined then
      Some([Undefined, Undefined])
    else if currentValue.List? then Some(currentValue.items)
    else if currentValue.Text? then Some(TextPieces(Split(currentValue.s, ' ')))
    else None
  }

  /** The options of an enum select: one per option text, selected when it is the current value. */
  function EnumSelectOptions(options: Option<seq<string>>, currentValue: JsValue): (r: seq<SelectOption>)
    ensures options.None? ==> r == []
    ensures options.Some? ==> |r| == |options.value|
    ensures options.Some? ==> forall i :: 0 <= i < |r| ==>
      r[i].value == options.value[i] && (r[i].selected <==> currentValue == Text(options.value[i]))
  {
    match options
    case None => []
    case Some(os) => seq(|os|, i requires 0 <= i < |os| => SelectOption(os[i], currentValue == Text(os[i])))
  }

  /**
   * The date and time inputs of a datetime or timestamp column: the parts of
   * the current value, the default text with its quotes removed split on
   * spaces, and ids suffixed "__date" and "__time"; the error when the
   * current value cannot be split.
   */
  function DateTimeWidget(name: string, currentValue: JsValue, defaultValue: string): (r: Result<Widget, InputBlockError>)
    ensures r.Failure? <==> CurrentValueParts(currentValue).None?
    ensures r.Failure? ==> r.error == NotSplittable(currentValue)
    ensures r.Success? ==>
      r.value.DateTimeFields? && r.value.date.kind == DateInput && r.value.time.kind == TimeInput
  {
    match CurrentValueParts(currentValue)
    case None => Failure(NotSplittable(currentValue))
    case Some(parts) =>
      var defaults := Split(RemoveAll(defaultValue, '"'), ' ');
      Success(DateTimeFields(
        Input(DateInput, ValueAt(parts, 0), None, None, None, TextAt(defaults, 0), name + "__date"),
        Input(TimeInput, ValueAt(parts, 1), Some("1"), None, None, TextAt(defaults, 1), name + "__time")))
  }

  // ---------------------------------------------------------------------------
  // The widget of each column type
  // ---------------------------------------------------------------------------

  /**
   * The widget for a column, given its current value and default text (the
   * empty text when the caller gives none), or the error thrown.
   */
  function InputBlock(a: TableAttribute, currentValue: JsValue, defaultValue: string): (r: Result<Widget, InputBlockError>)
    ensures r.Failure? <==>
      a.attributeType.Unknown?
      || (a.attributeType == Known(Decimal) && (a.decimalNumDigits.None? || a.decimalNumDecimalDigits.None?))
      || (a.attributeType in {Known(DateTime), Known(Timestamp)} && CurrentValueParts(currentValue).None?)
    ensures a.attributeType.Unknown? ==> r == Failure(UnsupportedType(a.attributeName, a.attributeType.code))
    ensures a.attributeType == Known(Decimal) && (a.decimalNumDigits.None? || a.decimalNumDecimalDigits.None?) ==>
      r == Failure(DecimalParamsUndefined)
    ensures r.Success? && r.value.Single? ==> r.value.input.id == a.attributeName
    ensures r.Success? && r.value.Single? ==>
      r.value.input.value == currentValue
      && (r.value.input.kind == NumberInput <==>
          a.attributeType.kind in {Tiny, TinyUnsigned, Small, SmallUnsigned, Medium, MediumUnsigned,
                                   Big, BigUnsigned, Int, IntUnsigned, Float, FloatUnsigned, Double, Decimal})
  {
    var name := a.attributeName;
    match a.attributeType
    case Unknown(code) => Failure(UnsupportedType(name, code))
    case Known(t) =>
      if IsInteger(t) then
        var b := IntegerBounds(t);
        Success(Single(Input(NumberInput, currentValue, None, Some(b.min), Some(b.max), Some(defaultValue), name)))
      else
        match t
        case Float | Double =>
          Success(Single(Input(NumberInput, currentValue, Some("any"), None, None, Some(defaultValue), name)))
        case FloatUnsigned =>
          Success(Single(Input(NumberInput, currentValue, Some("any"), Some("0"), None, Some(defaultValue), name)))
        case Decimal =>
          if a.decimalNumDigits.None? || a.decimalNumDecimalDigits.None? then Failure(DecimalParamsUndefined)
          else
            var max := DecimalMax(a.decimalNumDigits.value, a.decimalNumDecimalDigits.value);
            var step := DecimalStep(a.decimalNumDecimalDigits.value);
            Success(Single(Input(NumberInput, currentValue, Some(step), Some("-" + max), Some(max), Some(defaultValue), name)))
        case Bool =>
          var selectDefault := if defaultValue == "" then "false" else defaultValue;
          Success(Select(Text(selectDefault),
            [SelectOption("false", !Truthy(currentValue)), SelectOption("true", Truthy(currentValue))]))
        case Char | VarChar | Uuid | Time =>
          Success(Single(Input(TextInput, currentValue, None, None, None, Some(defaultValue), name)))
        case Date =>
          var dateDefault := if defaultValue == "" then None else Some(RemoveAll(defaultValue, '"'));
          Success(Single(Input(DateInput, currentValue, None, None, None, dateDefault, name)))
        case DateTime | Timestamp =>
          DateTimeWidget(name, currentValue, defaultValue)
        case Enum =>
          var selectDefault := if Truthy(currentValue) then currentValue else Text(defaultValue);
          Success(Select(selectDefault, EnumSelectOptions(a.enumOptions, currentValue)))
        case Blob =>
          Success(Disabled(NullMarker))
  }

  /**
   * The max and step texts of a decimal widget with the given digit count
   * and scale, built by the three counting loops of the widget helper.
   */
  method DecimalBounds(digits: int, scale: int) returns (maxValue: string, stepValue: string)
    ensures maxValue == DecimalMax(digits, scale)
    ensures stepValue == DecimalStep(scale)
  {
    maxValue := "";
    stepValue := "0.";
    // the digits before the point
    var i := 0;
    while i < digits - scale
      invariant 0 <= i && (i <= digits - scale || i == 0)
      invariant maxValue == Repeat('9', i)
    {
      maxValue := maxValue + "9";
      i := i + 1;
    }
    maxValue := maxValue + ".";
    // the digits after the point
    var intPart := maxValue;
    var j := 0;
    while j < scale
      invariant 0 <= j && (j <= scale || j == 0)
      invariant maxValue == intPart + Repeat('9', j)
    {
      maxValue := maxValue + "9";
      j := j + 1;
    }
    // the zeros of the step before its final 1
    var k := 0;
    while k < scale - 1
      invariant 0 <= k && (k <= scale - 1 || k == 0)
      invariant stepValue == "0." + Repeat('0', k)
    {
      stepValue := stepValue + "0";
      k := k + 1;
    }
    stepValue := stepValue + "1";
  }

  /**
   * Builds the widget step by step as the component helper does: integer
   * types only set the input kind and bounds and fall through to the shared
   * number input at the end; every other known type returns its own widget;
   * a type code no branch handles reaches the error at the end. The chain of
   * equality tests on the type is written as a match on it.
   */
  method GetAttributeInputBlock(a: TableAttribute, currentValue: JsValue, defaultValue: string)
    returns (r: Result<Widget, InputBlockError>)
    ensures r == InputBlock(a, currentValue, defaultValue)
  {
    var name := a.attributeName;
    var kind := "";
    var min := "0";
    var max := "0";

    match a.attributeType {
      case Known(Tiny) =>
        kind, min, max := "number", "-127", "128";
      case Known(TinyUnsigned) =>
        kind, min, max := "number", "0", "255";
      case Known(Small) =>
        kind, min, max := "number", "-32768", "32767";
      case Known(SmallUnsigned) =>
        kind, min, max := "number", "0", "65535";
      case Known(Medium) =>
        kind, min, max := "number", "-8388608", "8388607";
      case Known(MediumUnsigned) =>
        kind, min, max := "number", "0", "16777215";
      case Known(Big) =>
        kind, min, max := "number", "-9223372036854775808", "9223372036854775807";
      case Known(BigUnsigned) =>
        kind, min, max := "number", "0", "18446744073709551615";
      case Known(Int) =>
        kind, min, max := "number", "-2147483648", "2147483647";
      case Known(IntUnsigned) =>
        kind, min, max := "number", "0", "4294967295";
      case Known(Float) =>
        return Success(Single(Input(NumberInput, currentValue, Some("any"), None, None, Some(defaultValue), name)));
      case Known(FloatUnsigned) =>
        return Success(Single(Input(NumberInput, currentValue, Some("any"), Some("0"), None, Some(defaultValue), name)));
      case Known(Double) =>
        return Success(Single(Input(NumberInput, currentValue, Some("any"), None, None, Some(defaultValue), name)));
      case Known(Decimal) =>
        if a.decimalNumDigits.None? || a.decimalNumDecimalDigits.None? {
          return Failure(DecimalParamsUndefined);
        }
        var maxValue, stepValue := DecimalBounds(a.decimalNumDigits.value, a.decimalNumDecimalDigits.value);
        return Success(Single(Input(NumberInput, currentValue, Some(stepValue), Some("-" + maxValue), Some(maxValue),
          Some(defaultValue), name)));
      case Known(Bool) =>
        var selectDefault := defaultValue;
        if selectDefault == "" {
          selectDefault := "false";
        }
        return Success(Select(Text(selectDefault),
          [SelectOption("false", !Truthy(currentValue)), SelectOption("true", Truthy(currentValue))]));
      case Known(Char) =>
        return Success(Single(Input(TextInput, currentValue, None, None, None, Some(defaultValue), name)));
      case Known(VarChar) =>
        return Success(Single(Input(TextInput, currentValue, None, None, None, Some(defaultValue), name)));
      case Known(Uuid) =>
        return Success(Single(Input(TextInput, currentValue, None, None, None, Some(defaultValue), name)));
      case Known(Date) =>
        var dateDefault := if defaultValue == "" then None else Some(RemoveAll(defaultValue, '"'));
        return Success(Single(Input(DateInput, currentValue, None, None, None, dateDefault, name)));
      case Known(DateTime) =>
        r := DateTimeBlock(name, currentValue, defaultValue);
        return;
      case Known(Timestamp) =>
        r := DateTimeBlock(name, currentValue, defaultValue);
        return;
      case Known(Time) =>
        return Success(Single(Input(TextInput, currentValue, None, None, None, Some(defaultValue), name)));
      case Known(Enum) =>
        if Truthy(currentValue) {
          return Success(Select(currentValue, EnumSelectOptions(a.enumOptions, currentValue)));
        } else {
          return Success(Select(Text(defaultValue), EnumSelectOptions(a.enumOptions, currentValue)));
        }
      case Known(Blob) =>
        return Success(Disabled(NullMarker));
      case Unknown(code) =>
        // no branch sets the kind, so the number input below is skipped
        return Failure(UnsupportedType(name, code));
    }

    // only the integer types reach this point, all with kind "number"
    if kind == "number" {
      return Success(Single(Input(NumberInput, currentValue, None, Some(min), Some(max), Some(defaultValue), name)));
    }
  }

  /**
   * The datetime branch of the widget helper: splits the current value
   * unless it is undefined or "undefined undefined", then splits the
   * default text with its quotes removed.
   */
  method DateTimeBlock(name: string, currentValue: JsValue, defaultValue: string)
    returns (r: Result<Widget, InputBlockError>)
    ensures r == DateTimeWidget(name, currentValue, defaultValue)
  {
    var splitResult := [Undefined, Undefined];
    if currentValue != Text("undefined undefined") && currentValue != Undefined {
      if currentValue.List? {
        splitResult := currentValue.items;
      } else if currentValue.Text? {
        splitResult := TextPieces(Split(currentValue.s, ' '));
      } else {
        return Failure(NotSplittable(currentValue));
      }
    }
    // the default text is always defined here, so its split replaces the two empty pieces
    var defaultSplit := Split(RemoveAll(defaultValue, '"'), ' ');
    return Success(DateTimeFields(
      Input(DateInput, ValueAt(splitResult, 0), None, None, None, TextAt(defaultSplit, 0), name + "__date"),
      Input(TimeInput, ValueAt(splitResult, 1), Some("1"), None, None, TextAt(defaultSplit, 1), name + "__time")));
  }
}
