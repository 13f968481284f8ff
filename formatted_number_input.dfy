/**
 * The cost form's number field: it shows what the user types with
 * thousands separators, accepts only digits with at most one decimal
 * point, and reports the comma-free text and its numeric value.
 */
module FormattedNumberInput {
  import opened Wrappers
  import opened Text
  import opened Js

  /** The index of the first '.', if any. */
  function DotIndex(s: string): Option<nat> {
    IndexOf(s, ".")
  }

  /** `s.split('.')[1]`: the text between the first '.' and the next (or the end). */
  function DecimalPart(s: string): string {
    match DotIndex(s)
    case None => []
    case Some(d) => Before(s[d + 1..], '.')
  }

  /** `formatNumber(num)`, the value already as a string. */
  function FormatNumber(num: string): string {
    if num == "" then ""
    else
      var numStr := RemoveCommas(num);
      if numStr == "" || StringToNumber(numStr).NaN? then numStr
      else if Contains(numStr, ".") then
        ToLocaleString(StringToNumber(Before(numStr, '.'))) + "." + DecimalPart(numStr)
      else ToLocaleString(StringToNumber(numStr))
  }

  /** The change handler accepts empty text or the shape `^\d*\.?\d*$` once the commas are gone. */
  predicate Accepts(raw: string) {
    raw == "" || DigitsDotDigits(raw)
  }

  /** The display text after an accepted change. */
  function DisplayAfter(inputValue: string): string {
    var raw := RemoveCommas(inputValue);
    if EndsWith(inputValue, ".") then FormatNumber(RemoveFirst(raw, '.')) + "."
    else if Contains(inputValue, ".") then
      ToLocaleString(StringToNumber(Before(raw, '.'))) + "." + DecimalPart(raw)
    else FormatNumber(raw)
  }

  /** The number passed to `onValueChange`: 0 for empty text, else `Number(raw)`. */
  function NumericValue(raw: string): Number {
    if raw == "" then Finite(0.0) else StringToNumber(raw)
  }

  class NumberInput {
    var displayValue: string
    /** The arguments of the `onChange` calls so far. */
    var changes: seq<string>
    /** The arguments of the `onValueChange` calls so far. */
    var values: seq<real>

    constructor()
      ensures displayValue == "" && changes == [] && values == []
    {
      displayValue := "";
      changes := [];
      values := [];
    }

    /** `handleChange`: a rejected text changes nothing and calls nothing. */
    method HandleChange(inputValue: string)
      modifies this
      ensures var raw := RemoveCommas(inputValue);
        Accepts(raw) ==>
          displayValue == DisplayAfter(inputValue) && changes == old(changes) + [raw]
          && values == old(values) + (if NumericValue(raw).Finite? then [NumericValue(raw).value] else [])
      ensures !Accepts(RemoveCommas(inputValue)) ==>
        displayValue == old(displayValue) && changes == old(changes) && values == old(values)
    {
      var raw := RemoveCommas(inputValue);
      if raw == "" || DigitsDotDigits(raw) {
        if EndsWith(inputValue, ".") {
          displayValue := FormatNumber(RemoveFirst(raw, '.')) + ".";
        } else if Contains(inputValue, ".") {
          displayValue := ToLocaleString(StringToNumber(Before(raw, '.'))) + "." + DecimalPart(raw);
        } else {
          displayValue := FormatNumber(raw);
        }
        changes := changes + [raw];
        var n := NumericValue(raw);
        if n.Finite? {
          values := values + [n.value];
        }
      }
    }

    /** The effect on a new `value` prop (`None` for undefined or null): "" clears, other text is formatted. */
    method ValuePropChanged(value: Option<string>)
      modifies this
      ensures value.None? ==> displayValue == old(displayValue)
      ensures value == Some("") ==> displayValue == ""
      ensures value.Some? && value.value != "" ==> displayValue == FormatNumber(value.value)
      ensures changes == old(changes) && values == old(values)
    {
      if value.Some? && value.value != "" {
        displayValue := FormatNumber(value.value);
      } else if value == Some("") {
        displayValue := "";
      }
    }
  }

  // ---------------------------------------------------------------------
  // what the display and the callbacks mean

  /** `formatNumber` on empty text, and on text that is not a number once the commas are gone. */
  lemma FormatNumberPassThrough(num: string)
    ensures num == "" ==> FormatNumber(num) == ""
    ensures StringToNumber(RemoveCommas(num)).NaN? ==> FormatNumber(num) == RemoveCommas(num)
  {
  }

  /** An accepted text reports no number only for a lone ".", and otherwise its exact decimal value. */
  lemma AcceptedValue(raw: string)
    requires Accepts(raw)
    ensures NumericValue(raw).NaN? <==> raw == "."
    ensures raw != "." ==> NumericValue(raw) == Finite(if raw == "" then 0.0 else DecimalValue(raw))
  {
    if raw != "" && raw != "." {
      NumberOfDecimalLiteral(raw);
    } else if raw == "." {
      assert Trim(raw) == raw by { TrimOfTrimmed(raw); }
      assert !IsDecimalLiteral(raw);
    }
  }

  /** The value reported to `onChange` has no commas, and keeps every other character typed. */
  lemma ReportedText(inputValue: string)
    ensures ',' !in RemoveCommas(inputValue)
    ensures forall c :: c != ',' ==> (c in RemoveCommas(inputValue) <==> c in inputValue)
    ensures ',' !in inputValue ==> RemoveCommas(inputValue) == inputValue
  {
    if ',' !in inputValue {
      RemoveCommasNoop(inputValue);
    }
  }

  /** A trailing '.' typed by the user stays at the end of the display. */
  lemma TrailingDotKept(inputValue: string)
    requires EndsWith(inputValue, ".")
    ensures EndsWith(DisplayAfter(inputValue), ".")
  {
    var d := DisplayAfter(inputValue);
    assert d[|d| - 1..] == ".";
  }

  /** Text with a '.' that is not the last character takes the branch that keeps the decimal part. */
  lemma DecimalBranch(inputValue: string)
    requires Contains(inputValue, ".") && !EndsWith(inputValue, ".")
    ensures var raw := RemoveCommas(inputValue);
      DisplayAfter(inputValue) == ToLocaleString(StringToNumber(Before(raw, '.'))) + ("." + DecimalPart(raw))
  {
    var raw := RemoveCommas(inputValue);
    AppendAssociative(ToLocaleString(StringToNumber(Before(raw, '.'))), ".", DecimalPart(raw));
  }

  /** The digits typed after the decimal point are shown as typed. */
  lemma DecimalsKept(inputValue: string)
    requires Contains(inputValue, ".") && !EndsWith(inputValue, ".")
    ensures var raw := RemoveCommas(inputValue);
      EndsWith(DisplayAfter(inputValue), "." + DecimalPart(raw))
  {
    var raw := RemoveCommas(inputValue);
    DecimalBranch(inputValue);
    EndsWithAppend(ToLocaleString(StringToNumber(Before(raw, '.'))), "." + DecimalPart(raw));
  }

  /** A whole number is shown grouped in threes, and the display with its commas removed reads back as the same number. */
  lemma WholeNumberDisplay(inputValue: string)
    requires var raw := RemoveCommas(inputValue); AllDigits(raw) && raw != []
    requires !Contains(inputValue, ".")
    ensures var raw := RemoveCommas(inputValue);
      var n := DigitsValue(raw);
      DisplayAfter(inputValue) == GroupThousands(NatToString(n))
      && RemoveCommas(DisplayAfter(inputValue)) == NatToString(n)
      && StringToNumber(RemoveCommas(DisplayAfter(inputValue))) == StringToNumber(raw)
  {
    var raw := RemoveCommas(inputValue);
    if EndsWith(inputValue, ".") {
      assert OccursAt(inputValue, ".", |inputValue| - 1);
    }
    assert ',' !in raw;
    RemoveCommasNoop(raw);
    NoDotInDigits(raw);
    LocaleOfDigits(raw);
  }
}
