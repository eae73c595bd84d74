# TableAttribute: column descriptors of the DataJoint LabBook table view

This project models the column descriptor of the LabBook table view and its
static helpers, written in Dafny:

- the descriptor itself: a column's name, its type tag, and the optional
  string length, enum options and decimal precision and scale;
- the three formatters that turn raw epoch seconds into the text the table
  shows: `parseTimeString`, `parseDateTime` and `parseDate`, each giving
  `=NULL=` for a null value;
- `getTypeString`, the type hint shown for a column;
- `getAttributeInputBlock`, the input widget a column is edited with. The
  widget is described as data: its input kind, value, step, min, max,
  default and element id, the pair of date and time inputs, the select
  options, or a disabled input. The errors the helper throws are values.

The descriptor is never changed after construction, so it is a datatype whose
constructor is the source's constructor. The two helpers that work step by
step are methods: `GetTypeString` and `GetAttributeInputBlock`, with the
decimal counting loops in `DecimalBounds`. Each is proved equal to a
specification function (`TypeLabel`, `InputBlock`, `DecimalMax` and
`DecimalStep`), and the properties are proved about those functions. The
JavaScript string built-ins the helpers use live in `JsText`: `String(n)`,
`padStart`, `split` and `replaceAll`. Each comes with a partner it is
checked against: a reader that inverts `String(n)` and `padStart`, a join
that inverts `split`, and for `replaceAll` lemmas saying that every other
character is kept, as often as it occurs and in its order.

Behaviour of the code that is kept as written:

- The tiny number input is bounded by "-127" and "128". That is the signed
  8-bit range moved up by one; `IntegerBoundsMatchStorage` states this shift.
- The int and unsigned int columns get the type hint "tiny"
  (`TypeLabelTiny`).
- A blob column gets the empty hint (`TypeLabelEmpty`).
- A decimal column with scale 0 gets the step "0.1", although its max has no
  fraction digits (`DecimalStepScaleZero`).
- A datetime value equal to the text "undefined undefined" is treated as
  undefined.
- `parseTimeString` writes the hour field as the whole hours since the epoch
  rounded down, and the minutes and seconds as counted up from that hour. So
  its text reads back under the convention that only the hour carries the
  sign, and `ReadDuration` reads it that way: "-1:59:59" is -1 h + 59 min +
  59 s. The usual reading of a time value applies the sign to the whole
  duration (`ReadClock`). The two readings agree from the epoch on, and
  differ for a negative value that is not a whole number of hours; see
  "## Findings".

Module layout: `Wrappers` (Option, Result), `TableAttributeType` (the type
tags), `JsText` (string built-ins), `TableAttributes` (descriptor,
formatters, type hint, widget), `InputBlockProperties` (what each widget
promises).

## Model

| member | source | states |
|---|---|---|
| JsText.NatToString | src/Components/MainTableView/DataStorageClasses/TableAttribute.tsx:52 | `String(n)` of a non-negative integer is a non-empty run of digits that starts with '0' only for zero |
| JsText.IntToString | src/Components/MainTableView/DataStorageClasses/TableAttribute.tsx:52-53 | `String(i)` is non-empty and starts with a minus sign exactly when i is negative |
| JsText.ReadNatToString | src/Components/MainTableView/DataStorageClasses/TableAttribute.tsx:52 | reading the digits of n back gives n |
| JsText.ReadIntToString | src/Components/MainTableView/DataStorageClasses/TableAttribute.tsx:53 | reading `String(i)` back gives i, for every integer |
| JsText.IntToStringInjective | src/Components/MainTableView/DataStorageClasses/TableAttribute.tsx:170 | two integers with the same text are equal |
| JsText.Repeat | src/Components/MainTableView/DataStorageClasses/TableAttribute.tsx:292-299 | a counting loop that appends c n times gives n copies of c, and nothing when n <= 0 |
| JsText.PadStart | src/Components/MainTableView/DataStorageClasses/TableAttribute.tsx:52 | `padStart` keeps the text as a suffix, fills the front with the fill character, and has length max(|s|, width) |
| JsText.PaddedTwoDigits | src/Components/MainTableView/DataStorageClasses/TableAttribute.tsx:52-53 | a number below 100 padded to two places is two characters that read back as the number |
| JsText.Split | src/Components/MainTableView/DataStorageClasses/TableAttribute.tsx:344 | `split` on a one-character separator gives at least one piece, and no piece holds the separator |
| JsText.JoinSplit | src/Components/MainTableView/DataStorageClasses/TableAttribute.tsx:344 | joining the pieces of a split gives back the text |
| JsText.SplitJoin | src/Components/MainTableView/DataStorageClasses/TableAttribute.tsx:349 | splitting the join of separator-free pieces gives back the pieces |
| JsText.RemoveAll | src/Components/MainTableView/DataStorageClasses/TableAttribute.tsx:333 | `replaceAll(c, '')` leaves no c, and leaves text without c unchanged |
| JsText.RemoveAllCounts | src/Components/MainTableView/DataStorageClasses/TableAttribute.tsx:349 | removal drops every c and keeps every other character as often as it occurs |
| JsText.RemoveAllConcat | src/Components/MainTableView/DataStorageClasses/TableAttribute.tsx:349 | removal works piece by piece on a concatenation, so the order of what remains is kept |
| TableAttributes.ParseTimeString | src/Components/MainTableView/DataStorageClasses/TableAttribute.tsx:44-54 | the result is `=NULL=` exactly for a null value; an instant a Date cannot hold prints as "NaN:NaN:NaN" |
| TableAttributes.HoursSinceEpoch | src/Components/MainTableView/DataStorageClasses/TableAttribute.tsx:53 | whole days times 24 plus the UTC hour is the whole number of hours since the epoch; hours, minutes and seconds add back up to the instant; minutes and seconds are below 60 |
| TableAttributes.TimeStringParts | src/Components/MainTableView/DataStorageClasses/TableAttribute.tsx:52-53 | a valid instant prints as hours since the epoch, ':', two-digit minutes, ':', two-digit seconds, and each two-digit field reads back as its value |
| TableAttributes.ParseTimeStringRoundTrip | src/Components/MainTableView/DataStorageClasses/TableAttribute.tsx:44-54 | reading the `H:MM:SS` text of a valid instant back with `ReadDuration`, where only the hour carries the sign, gives the epoch seconds it came from |
| TableAttributes.ParseTimeStringFields | src/Components/MainTableView/DataStorageClasses/TableAttribute.tsx:53 | the text's hour field is the rounded-down hours since the epoch, and its minute and second fields read as (t/60)%60 and t%60 |
| TableAttributes.UtcHours | src/Components/MainTableView/DataStorageClasses/TableAttribute.tsx:53 | `getUTCHours()` is an hour of the day, 0 to 23 |
| TableAttributes.UtcMinutes | src/Components/MainTableView/DataStorageClasses/TableAttribute.tsx:53 | `getUTCMinutes()` is a minute of the hour, 0 to 59 |
| TableAttributes.UtcSeconds | src/Components/MainTableView/DataStorageClasses/TableAttribute.tsx:53 | `getUTCSeconds()` is a second of the minute, 0 to 59 |
| TableAttributes.ClockTimeString | src/Components/MainTableView/DataStorageClasses/TableAttribute.tsx:44-54 | the time text with the sign applied to the whole duration: `=NULL=` exactly for null, "NaN:NaN:NaN" for an instant a Date cannot hold, and a leading minus exactly for an instant before the epoch |
| TableAttributes.ClockTimeStringRoundTrip | src/Components/MainTableView/DataStorageClasses/TableAttribute.tsx:44-54 | the usual reading of a time value gives back every valid instant from ClockTimeString, negative ones included |
| TableAttributes.ParseTimeStringMatchesClock | src/Components/MainTableView/DataStorageClasses/TableAttribute.tsx:53 | from the epoch on, the code's text is the text ClockTimeString gives |
| TableAttributes.ParseTimeStringClockRoundTrip | src/Components/MainTableView/DataStorageClasses/TableAttribute.tsx:44-54 | from the epoch on, the usual reading of the code's text gives back the instant |
| TableAttributes.NegativeTimeMisread | src/Components/MainTableView/DataStorageClasses/TableAttribute.tsx:53 | one second before the epoch the code prints "-1:59:59", which the usual reading takes as -7199 seconds; ClockTimeString prints "-0:00:01" |
| TableAttributes.ParseDateTime | src/Components/MainTableView/DataStorageClasses/TableAttribute.tsx:60-68 | null gives `=NULL=`; a valid instant gives the library's UTC text of t*1000 ms; any other instant gives "Invalid Date" |
| TableAttributes.ParseDate | src/Components/MainTableView/DataStorageClasses/TableAttribute.tsx:74-82 | the result is `=NULL=` exactly for a null value; an instant a Date cannot hold prints as "NaN-NaN-NaN" |
| TableAttributes.ParseDateFields | src/Components/MainTableView/DataStorageClasses/TableAttribute.tsx:81 | with non-negative calendar fields, the date text splits at its dashes into the month counted from 1, the day and the year |
| TableAttributes.GetTypeString | src/Components/MainTableView/DataStorageClasses/TableAttribute.tsx:127-200 | the if-chain yields the hint `TypeLabel` gives for the column |
| TableAttributes.TypeLabelEmpty | src/Components/MainTableView/DataStorageClasses/TableAttribute.tsx:127-200 | the hint is empty exactly for a blob column or a tag no branch tests |
| TableAttributes.TypeLabelTiny | src/Components/MainTableView/DataStorageClasses/TableAttribute.tsx:131-160 | the hint is "tiny" exactly for the tiny, int and unsigned int columns |
| TableAttributes.ClassifyTypeLabel | src/Components/MainTableView/DataStorageClasses/TableAttribute.tsx:127-200 | every hint other than "" and "tiny" is recognised as the tag it was made from |
| TableAttributes.NumberTextInjective | src/Components/MainTableView/DataStorageClasses/TableAttribute.tsx:170-181 | an optional number concatenated into the hint determines the number ("undefined" only for none) |
| TableAttributes.NumberTextHasNoComma | src/Components/MainTableView/DataStorageClasses/TableAttribute.tsx:170 | an optional number concatenated into the hint holds no comma |
| TableAttributes.DecimalLabelParts | src/Components/MainTableView/DataStorageClasses/TableAttribute.tsx:170 | the decimal hint splits at its comma into the precision and the scale |
| TableAttributes.TypeLabelDeterminesType | src/Components/MainTableView/DataStorageClasses/TableAttribute.tsx:127-200 | two columns with the same hint, other than "" and "tiny", have the same tag, and the same length (char, varchar) or precision and scale (decimal) |
| TableAttributes.IntegerBounds | src/Components/MainTableView/DataStorageClasses/TableAttribute.tsx:217-266 | an integer type's min is "0" exactly when the type is unsigned, and otherwise a minus sign and digits; its max never has a minus sign |
| TableAttributes.TinyBoundsRead | src/Components/MainTableView/DataStorageClasses/TableAttribute.tsx:217-221 | the tiny bounds read as the signed 8-bit limits plus one |
| TableAttributes.TinyUnsignedBoundsRead | src/Components/MainTableView/DataStorageClasses/TableAttribute.tsx:222-226 | the bounds read as 0 and 2^8 - 1 |
| TableAttributes.SmallBoundsRead | src/Components/MainTableView/DataStorageClasses/TableAttribute.tsx:227-231 | the bounds read as -2^15 and 2^15 - 1 |
| TableAttributes.SmallUnsignedBoundsRead | src/Components/MainTableView/DataStorageClasses/TableAttribute.tsx:232-236 | the bounds read as 0 and 2^16 - 1 |
| TableAttributes.MediumBoundsRead | src/Components/MainTableView/DataStorageClasses/TableAttribute.tsx:237-241 | the bounds read as -2^23 and 2^23 - 1 |
| TableAttributes.MediumUnsignedBoundsRead | src/Components/MainTableView/DataStorageClasses/TableAttribute.tsx:242-246 | the bounds read as 0 and 2^24 - 1 |
| TableAttributes.BigBoundsRead | src/Components/MainTableView/DataStorageClasses/TableAttribute.tsx:247-251 | the bounds read as -2^63 and 2^63 - 1 |
| TableAttributes.BigUnsignedBoundsRead | src/Components/MainTableView/DataStorageClasses/TableAttribute.tsx:252-256 | the bounds read as 0 and 2^64 - 1 |
| TableAttributes.IntBoundsRead | src/Components/MainTableView/DataStorageClasses/TableAttribute.tsx:257-261 | the bounds read as -2^31 and 2^31 - 1 |
| TableAttributes.IntUnsignedBoundsRead | src/Components/MainTableView/DataStorageClasses/TableAttribute.tsx:262-266 | the bounds read as 0 and 2^32 - 1 |
| TableAttributes.IntegerBoundsMatchStorage | src/Components/MainTableView/DataStorageClasses/TableAttribute.tsx:217-266 | every integer type's min and max read as the least and greatest value of its storage, shifted up by one for tiny only |
| TableAttributes.IntegerBoundsOrdered | src/Components/MainTableView/DataStorageClasses/TableAttribute.tsx:217-266 | every integer type's bounds are numbers with min <= max, and every unsigned type's min is "0" |
| TableAttributes.DecimalMaxShape | src/Components/MainTableView/DataStorageClasses/TableAttribute.tsx:289-298 | for 0 <= s <= p the max text has p + 1 characters: a point after p - s nines, and nines everywhere else |
| TableAttributes.DecimalMaxDigits | src/Components/MainTableView/DataStorageClasses/TableAttribute.tsx:289-298 | with the point removed, the max text is p nines |
| TableAttributes.DecimalStepIsLastPlace | src/Components/MainTableView/DataStorageClasses/TableAttribute.tsx:288-304 | for scale >= 1 the step is "0.", zeros, then a final 1, with as many fraction digits as the max |
| TableAttributes.DecimalStepScaleZero | src/Components/MainTableView/DataStorageClasses/TableAttribute.tsx:301-304 | with scale 0 the step is "0.1" while the max ends in a bare point |
| TableAttributes.DecimalBounds | src/Components/MainTableView/DataStorageClasses/TableAttribute.tsx:288-304 | the three counting loops build exactly `DecimalMax` and `DecimalStep` |
| TableAttributes.CurrentValueParts | src/Components/MainTableView/DataStorageClasses/TableAttribute.tsx:339-346 | the value cannot be split exactly when it is null, a boolean or a number; a text other than "undefined undefined" splits into one or more text pieces without spaces |
| TableAttributes.Truthy | src/Components/MainTableView/DataStorageClasses/TableAttribute.tsx:316-317 | a value is truthy exactly when it is not undefined, null, false, 0 or the empty text |
| TableAttributes.Message | src/Components/MainTableView/DataStorageClasses/TableAttribute.tsx:392 | the unsupported-type message holds the column name at a fixed place after its fixed prefix, and ends with the type tag's text |
| TableAttributes.DateTimeWidget | src/Components/MainTableView/DataStorageClasses/TableAttribute.tsx:335-358 | the datetime widget fails exactly when the current value cannot be split, with that error; otherwise it is a date input and a time input |
| TableAttributes.DateTimeBlock | src/Components/MainTableView/DataStorageClasses/TableAttribute.tsx:335-358 | the datetime branch's statements produce `DateTimeWidget` |
| TableAttributes.InputBlock | src/Components/MainTableView/DataStorageClasses/TableAttribute.tsx:211-393 | the helper throws exactly for a tag no branch handles, a decimal with an undefined precision or scale, or an unsplittable datetime value, each with its own error; a single input has the column name as id and the current value as value, and is a number input exactly for the numeric types |
| TableAttributes.GetAttributeInputBlock | src/Components/MainTableView/DataStorageClasses/TableAttribute.tsx:211-393 | the branch-by-branch construction, with the integer fall-through to the shared number input, produces `InputBlock` |
| InputBlockProperties.IntegerWidgetBounds | src/Components/MainTableView/DataStorageClasses/TableAttribute.tsx:388-390 | an integer column's number input has min and max that read as its storage limits (plus one for tiny), and the given default |
| InputBlockProperties.DecimalWidgetBounds | src/Components/MainTableView/DataStorageClasses/TableAttribute.tsx:282-309 | for 0 <= s <= p the decimal input's max is p nines with the point before the last s, its min is the negated max, and its step is "0.", zeros, then a final 1 with as many fraction digits as the max ("0.1" for s = 0) |
| InputBlockProperties.DateTimeValueSplits | src/Components/MainTableView/DataStorageClasses/TableAttribute.tsx:339-356 | a value "date time" puts the date in the date input and the time in the time input, with ids name + "__date" and name + "__time" |
| InputBlockProperties.DateTimeDefaultSplits | src/Components/MainTableView/DataStorageClasses/TableAttribute.tsx:348-356 | a default that is "date time" once its quotes are removed gives the date input the date and the time input the time |
| InputBlockProperties.UnquoteDefault | src/Components/MainTableView/DataStorageClasses/TableAttribute.tsx:349 | a quoted default loses exactly its two quotes |
| InputBlockProperties.DateTimeUndefinedValue | src/Components/MainTableView/DataStorageClasses/TableAttribute.tsx:336-339 | undefined or "undefined undefined" leaves both inputs undefined whatever the default; an empty default reaches only the date input |
| InputBlockProperties.DateTimeArrayValue | src/Components/MainTableView/DataStorageClasses/TableAttribute.tsx:340-342 | an array value supplies the date and time values as they are |
| InputBlockProperties.DateTimeNotSplittable | src/Components/MainTableView/DataStorageClasses/TableAttribute.tsx:343-345 | null, a boolean or a number as a datetime value makes the helper throw |
| InputBlockProperties.DateWidgetDefault | src/Components/MainTableView/DataStorageClasses/TableAttribute.tsx:332-334 | a date input's default is absent exactly when the given one is empty, and otherwise is the given text with every quote removed, so it never holds a quote and is the given text when that has none |
| InputBlockProperties.BoolWidgetSelect | src/Components/MainTableView/DataStorageClasses/TableAttribute.tsx:310-320 | a boolean column gets the options "false" and "true", exactly one selected ("true" when the value is truthy), and default "false" in place of an empty one |
| InputBlockProperties.EnumWidgetSelect | src/Components/MainTableView/DataStorageClasses/TableAttribute.tsx:362-380 | with distinct enum values at most one option is selected, and one is selected exactly when the current value is one of them; the select's default is the value when truthy, else the given default |
| InputBlockProperties.BlobWidget | src/Components/MainTableView/DataStorageClasses/TableAttribute.tsx:381-385 | a blob column is a disabled input showing the same null marker the formatters print |

## Left out

- The React rendering of the widgets and the `handleChange` callbacks are not modelled. A widget is its description as data, and the text of the boolean select's options is not part of it.
- `parseDateTimeToDJFormat`, `parseDateToDJFormat`, `covertRawDateToInputFieldFormat` and `convertRawDateTimeInputFieldFormat` are not modelled. They only call the Date library's parsing and `toISOString`.
- TableAttributes.ParseDateTime: the UTC text is a function passed in, because the Date library's formatting of a valid instant is not modelled. Only the null and invalid-instant results are fixed.
- TableAttributes.ParseDate: the calendar fields come from a function passed in, because the Date library's calendar is not modelled. Only the null result, the invalid-instant result and the layout of the text are stated.
- `parseInt` of the raw text is not modelled. The formatters take the already-parsed seconds, or None for null; text that parses to NaN is not covered.
- The current value of a number input is any JavaScript value, and floating-point numbers are not modelled. Number values are integers, and float and double columns only get their fixed descriptor.
- The check `defaultValue !== undefined` in the datetime branch always holds here. The caller's missing default becomes the empty text, as the parameter's default value makes it.
- The message of the TypeError thrown when a datetime value has no `split` comes from the JavaScript engine, not from the code. `Message` gives V8's wording, which differs for null and for other values; other engines word it differently.
- The TableAttributeType enumeration file is not part of this model. Its members are the tags the helpers test for, and any other value is an unknown tag shown by its text.
- The TableListLoading component is not part of this model. It only renders a loading animation.

## Findings

| source | as written | input that shows it | evidently intended | confidence | as-written member | corrected member |
|---|---|---|---|---|---|---|
| src/Components/MainTableView/DataStorageClasses/TableAttribute.tsx:53 | the hour field is `Math.floor(t / 86400) * 24 + getUTCHours()`, the hours rounded down, while the minutes and seconds count up from that hour | t = -1, one second before the epoch, prints "-1:59:59", which as a time value is -7199 seconds | "-0:00:01", the sign applying to the whole duration as in a negative TIME value | not executed; matters only for negative time values that are not whole hours | TableAttributes.NegativeTimeMisread | TableAttributes.ClockTimeString (proved by TableAttributes.ClockTimeStringRoundTrip) |
