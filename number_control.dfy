// A control holding an unsigned number as a decimal string.  Input is read
// as hexadecimal after a leading "0x" and as decimal otherwise, and accepted
// values within [MinValue, MaxValue] are stored in decimal.
module NumberControl {
  import opened Ints
  import opened ArduinoString
  import opened ControlCommon

  /** StringToNumber: strtol in base 16 of what follows a "0x" at index 0,
      otherwise toInt; either way narrowed to uint32_t. */
  function StringToNumber(value: string): (r: uint32)
  {
    if IndexOf(value, "0x") == 0 then ToU32(Strtol(SubstringFrom(value, 2), 16))
    else ToU32(ToInt(value))
  }

  function OutOfRangeMessage(title: string, value: string): string
  {
    title + ": BAD_VALUE: Value Out of Range: " + value
  }

  /** validate: a value numerically equal to the current one is accepted
      and nothing changes; otherwise it must lie in [min, max], and it is
      stored as a decimal string. */
  function NumberValidate(title: string, min: uint32, max: uint32, current: string, value: string): (r: Validation)
  {
    var OldNumberControlValue := StringToNumber(current);
    var NewNumberControlValue := StringToNumber(value);
    if NewNumberControlValue == OldNumberControlValue then Validation(true, current, "")
    else if NewNumberControlValue < min || NewNumberControlValue > max then
      Validation(false, current, OutOfRangeMessage(title, value))
    else Validation(true, DecString(NewNumberControlValue), "")
  }

  class NumberControl {
    const Title: string
    const MinValue: uint32
    const MaxValue: uint32
    var DataValueStr: string
    var Booting: bool
    var UiValue: string
    var SaveWarning: bool

    /** The default is stored the way String(uint32_t) prints it. */
    constructor(title: string, defaultValue: uint32, minValue: uint32, maxValue: uint32)
      ensures Title == title && MinValue == minValue && MaxValue == maxValue
      ensures DataValueStr == DecString(defaultValue) && Booting && UiValue == "" && !SaveWarning
    {
      Title := title;
      MinValue := minValue;
      MaxValue := maxValue;
      DataValueStr := DecString(defaultValue);
      Booting := true;
      UiValue := "";
      SaveWarning := false;
    }

    function get32(): uint32
      reads this
    {
      StringToNumber(DataValueStr)
    }

    /** set, with the number validate. */
    method Set(value: string, forced: bool) returns (ok: bool, message: string)
      modifies this
      ensures var r := SetWith(Title, old(DataValueStr), value,
                               NumberValidate(Title, MinValue, MaxValue, old(DataValueStr), value), forced);
        ok == r.ok && message == r.message && DataValueStr == r.dataValue
        && UiValue == (if r.uiWritten then r.dataValue else old(UiValue))
        && SaveWarning == (old(SaveWarning) || (r.uiWritten && !Booting))
      ensures Booting == old(Booting)
    {
      var r := SetWith(Title, DataValueStr, value, NumberValidate(Title, MinValue, MaxValue, DataValueStr, value), forced);
      ok, message := r.ok, r.message;
      UiValue := if r.uiWritten then r.dataValue else UiValue;
      SaveWarning := SaveWarning || (r.uiWritten && !Booting);
      DataValueStr := r.dataValue;
    }
  }

  // ---------------------------------------------------------------------
  // Properties
  // ---------------------------------------------------------------------

  /** indexOf("0x") is 0 exactly when the string starts with "0x". */
  lemma IndexOfHexPrefix(s: string)
    ensures (IndexOf(s, "0x") == 0) == (|s| >= 2 && s[0] == '0' && s[1] == 'x')
  {
    if |s| >= 2 {
      assert s[0..2] == [s[0], s[1]];
    }
  }

  /** The text after a leading "0x". */
  lemma AfterPrefix(s: string)
    requires |s| >= 2
    ensures SubstringFrom(s, 2) == s[2..]
  {
  }

  /** A "0x" at index 0 means hexadecimal; anything else is decimal. */
  lemma HexPrefix(value: string)
    ensures |value| >= 2 && value[..2] == "0x" ==> StringToNumber(value) == ToU32(Strtol(value[2..], 16))
    ensures !(|value| >= 2 && value[..2] == "0x") ==> StringToNumber(value) == ToU32(ToInt(value))
  {
    IndexOfHexPrefix(value);
    if |value| >= 2 {
      assert value[..2] == [value[0], value[1]];
      AfterPrefix(value);
    }
  }

  /** The decision: equal values are accepted without change, values out of
      range are refused with the current value kept, and the rest are
      stored in decimal. */
  lemma ValidateRules(title: string, min: uint32, max: uint32, current: string, value: string)
    ensures var r := NumberValidate(title, min, max, current, value);
      var n := StringToNumber(value);
      (n == StringToNumber(current) ==> r.ok && r.dataValue == current)
      && (n != StringToNumber(current) ==>
            (r.ok <==> min <= n <= max)
            && (r.ok ==> r.dataValue == DecString(n))
            && (!r.ok ==> r.dataValue == current && r.message == OutOfRangeMessage(title, value)))
  {
  }

  /** What is stored reads back as the number accepted, for every value a
      long can hold. */
  lemma StoredReadsBack(title: string, min: uint32, max: uint32, current: string, value: string)
    requires NumberValidate(title, min, max, current, value).ok
    requires StringToNumber(value) <= 0x7FFF_FFFF
    ensures StringToNumber(NumberValidate(title, min, max, current, value).dataValue) == StringToNumber(value)
  {
    var n := StringToNumber(value);
    if n != StringToNumber(current) {
      DecimalReadsBack(n);
    }
  }

  /** A number printed in decimal reads back as itself. */
  lemma DecimalReadsBack(n: nat)
    requires n <= 0x7FFF_FFFF
    ensures StringToNumber(DecString(n)) == n
  {
    var d := DecString(n);
    IndexOfHexPrefix(d);
    assert |d| >= 2 ==> IsDigit(d[1]);
    DecStringRoundTrip(n);
  }

  /** A hexadecimal input "0x..." of a value a long can hold is read as
      that value. */
  lemma HexInput(n: nat)
    requires n <= 0x7FFF_FFFF
    ensures StringToNumber("0x" + HexString(n)) == n
  {
    var s := "0x" + HexString(n);
    IndexOfHexPrefix(s);
    AfterPrefix(s);
    assert s[2..] == HexString(n);
    HexStringRoundTrip(n);
  }
}
