/**
 * What the input widget of a column promises, stated over the widget
 * description: integer bounds that read back as the column's storage
 * limits, decimal bounds and step that fit the declared precision and
 * scale, datetime values and defaults that split into their date and time
 * parts, and select elements that mark the right option.
 */
module InputBlockProperties {
  import opened Wrappers
  import opened JsText
  import opened TableAttributeType
  import opened TableAttributes

  /**
   * An integer column gets a number input whose min and max read as the
   * least and greatest value the column stores; for tiny both are one too
   * high.
   */
  lemma IntegerWidgetBounds(a: TableAttribute, currentValue: JsValue, defaultValue: string)
    requires a.attributeType.Known? && IsInteger(a.attributeType.kind)
    ensures var r := InputBlock(a, currentValue, defaultValue);
      var t := a.attributeType.kind;
      var shift := if t == Tiny then 1 else 0;
      r.Success? && r.value.Single? && r.value.input.kind == NumberInput
      && r.value.input.min.Some? && r.value.input.max.Some?
      && ReadInt(r.value.input.min.value) == Some(StorageMin(t) + shift)
      && ReadInt(r.value.input.max.value) == Some(StorageMax(t) + shift)
      && r.value.input.defaultValue == Some(defaultValue)
  {
    IntegerBoundsMatchStorage(a.attributeType.kind);
  }

  /**
   * A decimal column with precision p and scale s, 0 <= s <= p, gets a
   * number input whose max is p nines with a point before the last s, whose
   * min is that text negated, and whose step is one unit in the last place
   * ("0.1" when s is 0).
   */
  lemma DecimalWidgetBounds(a: TableAttribute, currentValue: JsValue, defaultValue: string)
    requires a.attributeType == Known(Decimal)
    requires a.decimalNumDigits.Some? && a.decimalNumDecimalDigits.Some?
    requires 0 <= a.decimalNumDecimalDigits.value <= a.decimalNumDigits.value
    ensures var r := InputBlock(a, currentValue, defaultValue);
      var p, s := a.decimalNumDigits.value, a.decimalNumDecimalDigits.value;
      r.Success? && r.value.Single? && r.value.input.max.Some? && r.value.input.step.Some?
      && var max := r.value.input.max.value;
      var step := r.value.input.step.value;
      r.value.input.min == Some("-" + max)
      && |max| == p + 1 && max[p - s] == '.'
      && RemoveAll(max, '.') == Repeat('9', p)
      && (s == 0 ==> step == "0.1")
      && (s >= 1 ==> |step| == s + 2 && step[..2] == "0." && step[|step| - 1] == '1'
                     && (forall i :: 2 <= i < |step| - 1 ==> step[i] == '0')
                     && |step| - 2 == |max| - (p - s) - 1)
  {
    var p, s := a.decimalNumDigits.value, a.decimalNumDecimalDigits.value;
    DecimalMaxShape(p, s);
    DecimalMaxDigits(p, s);
    if s >= 1 {
      DecimalStepIsLastPlace(p, s);
    }
  }

  // ---------------------------------------------------------------------------
  // Datetime and timestamp columns
  // ---------------------------------------------------------------------------

  /**
   * A datetime value "date time", with no spaces inside either part, puts
   * its date in the date input and its time in the time input, under ids
   * that extend the column name.
   */
  lemma {:induction false} DateTimeValueSplits(name: string, date: string, time: string, defaultValue: string)
    requires ' ' !in date && ' ' !in time
    requires date + " " + time != "undefined undefined"
    ensures var r := DateTimeWidget(name, Text(date + " " + time), defaultValue);
      r.Success?
      && r.value.date.value == Text(date) && r.value.time.value == Text(time)
      && r.value.date.id == name + "__date" && r.value.time.id == name + "__time"
  {
    var text := date + " " + time;
    assert Join([date, time], ' ') == text by {
      assert Join([date, time][1..], ' ') == time;
    }
    SplitJoin([date, time], ' ');
  }

  /**
   * A default "date time", once its quotes are removed, gives the date
   * input the date and the time input the time.
   */
  lemma {:induction false} DateTimeDefaultSplits(name: string, currentValue: JsValue, defaultValue: string,
                                                 date: string, time: string)
    requires CurrentValueParts(currentValue).Some?
    requires ' ' !in date && ' ' !in time
    requires RemoveAll(defaultValue, '"') == date + " " + time
    ensures var r := DateTimeWidget(name, currentValue, defaultValue);
      r.Success? && r.value.date.defaultValue == Some(date) && r.value.time.defaultValue == Some(time)
  {
    assert Join([date, time], ' ') == date + " " + time by {
      assert Join([date, time][1..], ' ') == time;
    }
    SplitJoin([date, time], ' ');
  }

  /** A quoted default loses exactly its two quotes. */
  lemma {:induction false} UnquoteDefault(text: string)
    requires '"' !in text
    ensures RemoveAll("\"" + text + "\"", '"') == text
  {
    RemoveAllConcat("\"" + text, "\"", '"');
    RemoveAllConcat("\"", text, '"');
    assert RemoveAll("\"", '"') == [];
  }

  /**
   * Undefined, or the text "undefined undefined", leaves both inputs
   * without a value, whatever the default; an empty default gives the date
   * input the empty default and the time input none.
   */
  lemma DateTimeUndefinedValue(name: string, currentValue: JsValue, defaultValue: string)
    requires currentValue == Undefined || currentValue == Text("undefined undefined")
    ensures var r := DateTimeWidget(name, currentValue, defaultValue);
      r.Success? && r.value.date.value == Undefined && r.value.time.value == Undefined
      && (defaultValue == "" ==> r.value.date.defaultValue == Some("") && r.value.time.defaultValue == None)
  {
    assert Split("", ' ') == [""];
  }

  /** An array value is used as the two parts as it is. */
  lemma DateTimeArrayValue(name: string, items: seq<JsValue>, defaultValue: string)
    requires |items| >= 2
    ensures var r := DateTimeWidget(name, List(items), defaultValue);
      r.Success? && r.value.date.value == items[0] && r.value.time.value == items[1]
  {
  }

  /** A value that is neither undefined, text nor an array cannot be split: the helper throws. */
  lemma DateTimeNotSplittable(a: TableAttribute, currentValue: JsValue, defaultValue: string)
    requires a.attributeType in {Known(DateTime), Known(Timestamp)}
    requires currentValue.Null? || currentValue.Boolean? || currentValue.Number?
    ensures InputBlock(a, currentValue, defaultValue) == Failure(NotSplittable(currentValue))
  {
  }

  // ---------------------------------------------------------------------------
  // Date, boolean and enum columns
  // ---------------------------------------------------------------------------

  /**
   * A date column's default is left out when empty and otherwise is the
   * given text with its quotes removed (RemoveAllCounts and RemoveAllConcat
   * say what that keeps, and in which order); a default without quotes is
   * kept as it is.
   */
  lemma DateWidgetDefault(a: TableAttribute, currentValue: JsValue, defaultValue: string)
    requires a.attributeType == Known(Date)
    ensures var r := InputBlock(a, currentValue, defaultValue);
      r.Success? && r.value.Single? && r.value.input.kind == DateInput
      && (r.value.input.defaultValue.None? <==> defaultValue == "")
      && (r.value.input.defaultValue.Some? ==> '"' !in r.value.input.defaultValue.value)
      && (defaultValue != "" ==> r.value.input.defaultValue == Some(RemoveAll(defaultValue, '"')))
      && (defaultValue != "" && '"' !in defaultValue ==> r.value.input.defaultValue == Some(defaultValue))
  {
  }

  /**
   * A boolean column gets a select of two options, "false" then "true",
   * exactly one of them selected, "true" when the current value is truthy;
   * its default is the given text, "false" when that is empty.
   */
  lemma BoolWidgetSelect(a: TableAttribute, currentValue: JsValue, defaultValue: string)
    requires a.attributeType == Known(Bool)
    ensures var r := InputBlock(a, currentValue, defaultValue);
      r.Success? && r.value.Select? && |r.value.options| == 2
      && r.value.options[0].value == "false" && r.value.options[1].value == "true"
      && r.value.options[0].selected != r.value.options[1].selected
      && (r.value.options[1].selected <==> Truthy(currentValue))
      && r.value.selectDefault == Text(if defaultValue == "" then "false" else defaultValue)
  {
  }

  /**
   * An enum select has one option per enum value, in order; with distinct
   * values at most one is selected, and one is selected exactly when the
   * current value is the text of one of them.
   */
  lemma {:induction false} EnumWidgetSelect(a: TableAttribute, currentValue: JsValue, defaultValue: string)
    requires a.attributeType == Known(Enum) && a.enumOptions.Some?
    requires forall i, j :: 0 <= i < j < |a.enumOptions.value| ==> a.enumOptions.value[i] != a.enumOptions.value[j]
    ensures var r := InputBlock(a, currentValue, defaultValue);
      var os := a.enumOptions.value;
      r.Success? && r.value.Select? && |r.value.options| == |os|
      && (forall i :: 0 <= i < |os| ==> r.value.options[i].value == os[i])
      && (forall i, j :: 0 <= i < |os| && 0 <= j < |os| && r.value.options[i].selected && r.value.options[j].selected ==> i == j)
      && ((exists i :: 0 <= i < |os| && r.value.options[i].selected) <==> currentValue.Text? && currentValue.s in os)
      && r.value.selectDefault == (if Truthy(currentValue) then currentValue else Text(defaultValue))
  {
    var os := a.enumOptions.value;
    var options := EnumSelectOptions(a.enumOptions, currentValue);
    forall i, j | 0 <= i < |os| && 0 <= j < |os| && options[i].selected && options[j].selected
      ensures i == j
    {
      assert os[i] == os[j];
    }
    if currentValue.Text? && currentValue.s in os {
      var k :| 0 <= k < |os| && os[k] == currentValue.s;
      assert options[k].selected;
    }
  }

  /** A blob column is shown as a disabled input holding the null marker. */
  lemma BlobWidget(a: TableAttribute, currentValue: JsValue, defaultValue: string)
    requires a.attributeType == Known(Blob)
    ensures InputBlock(a, currentValue, defaultValue) == Success(Disabled(ParseTimeString(None)))
  {
  }
}
