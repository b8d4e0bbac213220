/** The year/month/day picker of the sign-up form. */
module DateButton {
  import JsText

  const FirstYear: nat := 1920
  const LastYear: nat := 2024

  /** `generateOptions()`: the option values the picker lists for its label. */
  function Options(labelText: string): (r: seq<string>)
    ensures labelText == "년" ==>
      |r| == LastYear - FirstYear + 1 && forall i :: 0 <= i < |r| ==> r[i] == JsText.NatToString(LastYear - i)
    ensures labelText == "월" ==> |r| == 12 && forall i :: 0 <= i < |r| ==> r[i] == JsText.NatToString(i + 1)
    ensures labelText == "일" ==> |r| == 31 && forall i :: 0 <= i < |r| ==> r[i] == JsText.NatToString(i + 1)
    ensures labelText != "년" && labelText != "월" && labelText != "일" ==> r == []
  {
    if labelText == "년" then
      seq(LastYear - FirstYear + 1, i requires 0 <= i < LastYear - FirstYear + 1 => JsText.NatToString(LastYear - i))
    else if labelText == "월" then
      seq(12, i requires 0 <= i < 12 => JsText.NatToString(i + 1))
    else if labelText == "일" then
      seq(31, i requires 0 <= i < 31 => JsText.NatToString(i + 1))
    else []
  }

  /** Years run from 2024 down to 1920, one less each step. */
  lemma YearsDescend()
    ensures var years := Options("년");
      && |years| == 105
      && (forall i :: 0 <= i < |years| ==> JsText.AllDigits(years[i]) && JsText.ParseDigits(years[i]) == 2024 - i)
      && JsText.ParseDigits(years[0]) == 2024 && JsText.ParseDigits(years[104]) == 1920
  {
    var years := Options("년");
    forall i | 0 <= i < |years|
      ensures JsText.AllDigits(years[i]) && JsText.ParseDigits(years[i]) == 2024 - i
    {
      JsText.ParseNatToString(2024 - i);
    }
  }

  /** Months and days are numbered from 1 in order. */
  lemma MonthsAndDaysAscend(labelText: string)
    requires labelText == "월" || labelText == "일"
    ensures var days := Options(labelText);
      && |days| == (if labelText == "월" then 12 else 31)
      && forall i :: 0 <= i < |days| ==> JsText.AllDigits(days[i]) && JsText.ParseDigits(days[i]) == i + 1
  {
    var days := Options(labelText);
    forall i | 0 <= i < |days|
      ensures JsText.AllDigits(days[i]) && JsText.ParseDigits(days[i]) == i + 1
    {
      JsText.ParseNatToString(i + 1);
    }
  }

  class DateButton {
    const labelText: string
    var selectedValue: string
    /** The values handed to the `onChange` callback, oldest first. */
    var changes: seq<string>

    constructor (labelText: string)
      ensures this.labelText == labelText && selectedValue == "" && changes == []
    {
      this.labelText := labelText;
      selectedValue, changes := "", [];
    }

    /** Show the picked value and pass exactly it to `onChange`. */
    method HandleSelect(value: string)
      modifies this
      ensures selectedValue == value && changes == old(changes) + [value]
    {
      selectedValue := value;
      changes := changes + [value];
    }
  }
}
