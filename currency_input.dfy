/**
 * The shared currency field: a text input for an amount in yuan, dong or
 * dollars that shows whole numbers with thousands separators, keeps text
 * with a decimal point as typed, and reports the comma-free text.
 */
module CurrencyInput {
  import opened Wrappers
  import opened Text
  import opened Js

  datatype Currency = CNY | VND | USD

  /** The per-currency settings the field reads (its colour classes are not modelled). */
  datatype CurrencyConfig = CurrencyConfig(symbol: string, name: string, locale: string)

  /** `currencyConfig[currency]`. */
  function Config(c: Currency): CurrencyConfig {
    match c
    case CNY => CurrencyConfig("¥", "Chinese Yuan", "zh-CN")
    case VND => CurrencyConfig("₫", "Vietnamese Dong", "vi-VN")
    case USD => CurrencyConfig("$", "US Dollar", "en-US")
  }

  /** Each currency has its own one-character symbol and its own locale. */
  lemma ConfigsDistinct(c: Currency, d: Currency)
    ensures |Config(c).symbol| == 1
    ensures c != d ==> Config(c).symbol != Config(d).symbol && Config(c).locale != Config(d).locale
  {
  }

  /** `formatNumber(num)` on a string value: the whole number in en-US grouping, or the text unchanged if it is not a number. */
  function FormatNumber(num: string): string {
    if num == "" then ""
    else
      var numStr := RemoveCommas(num);
      if numStr == "" || StringToNumber(numStr).NaN? then numStr
      else ToLocaleString(StringToNumber(numStr))
  }

  /** The change handler accepts empty text or the shape `^\d*\.?\d*$` once the commas are gone. */
  predicate Accepts(raw: string) {
    raw == "" || DigitsDotDigits(raw)
  }

  /** The display text after an accepted change. */
  function DisplayAfter(inputValue: string): string {
    if Contains(inputValue, ".") then inputValue else FormatNumber(RemoveCommas(inputValue))
  }

  class CurrencyField {
    var displayValue: string
    /** The `target.value` of every `onChange` event passed on so far. */
    var events: seq<string>

    constructor()
      ensures displayValue == "" && events == []
    {
      displayValue := "";
      events := [];
    }

    /** `handleChange`: a rejected text changes nothing and emits nothing. */
    method HandleChange(inputValue: string)
      modifies this
      ensures Accepts(RemoveCommas(inputValue)) ==>
        displayValue == DisplayAfter(inputValue) && events == old(events) + [RemoveCommas(inputValue)]
      ensures !Accepts(RemoveCommas(inputValue)) ==>
        displayValue == old(displayValue) && events == old(events)
    {
      var rawValue := RemoveCommas(inputValue);
      if rawValue == "" || DigitsDotDigits(rawValue) {
        if Contains(inputValue, ".") {
          displayValue := inputValue;
        } else {
          displayValue := FormatNumber(rawValue);
        }
        events := events + [rawValue];
      }
    }

    /** The effect of a new `value` prop (`None` for undefined or null). */
    method ValuePropChanged(value: Option<string>)
      modifies this
      ensures value.Some? ==> displayValue == FormatNumber(value.value)
      ensures value.None? ==> displayValue == old(displayValue)
      ensures events == old(events)
    {
      if value.Some? {
        displayValue := FormatNumber(value.value);
      }
    }
  }

  // ---------------------------------------------------------------------
  // what the display and the events mean

  /** Commas in the text do not matter to `formatNumber`. */
  lemma FormatIgnoresCommas(num: string)
    ensures FormatNumber(RemoveCommas(num)) == FormatNumber(num)
  {
    RemoveCommasNoop(RemoveCommas(num));
  }

  /** Accepted text holding a decimal point is shown exactly as typed. */
  lemma DecimalTextKept(inputValue: string)
    requires Accepts(RemoveCommas(inputValue)) && Contains(inputValue, ".")
    ensures DisplayAfter(inputValue) == inputValue
  {
  }

  /** An accepted whole number is shown grouped in threes, and reads back, commas removed, as the number that was typed. */
  lemma WholeNumberGrouped(inputValue: string)
    requires var raw := RemoveCommas(inputValue); AllDigits(raw) && raw != []
    requires !Contains(inputValue, ".")
    ensures var raw := RemoveCommas(inputValue);
      var n := DigitsValue(raw);
      Accepts(raw)
      && DisplayAfter(inputValue) == GroupThousands(NatToString(n))
      && StringToNumber(RemoveCommas(DisplayAfter(inputValue))) == StringToNumber(raw)
  {
    var raw := RemoveCommas(inputValue);
    NoDotInDigits(raw);
    assert ',' !in raw;
    RemoveCommasNoop(raw);
    LocaleOfDigits(raw);
  }

  /** Formatting a whole number twice gives what formatting it once gives. */
  lemma ReformatStable(raw: string)
    requires AllDigits(raw) && raw != []
    ensures FormatNumber(FormatNumber(raw)) == FormatNumber(raw)
  {
    var n := DigitsValue(raw);
    assert ',' !in raw;
    RemoveCommasNoop(raw);
    LocaleOfDigits(raw);
    LocaleOfDigits(NatToString(n));
  }
}
