// The RDS programme identification (PI) code control.  Input is trimmed and
// read as hexadecimal; a code within [0x00FF, 0xFFFF] is stored, shown as
// "0x" and lowercase hex digits, and sent to the transmitter.
module PiCode {
  import opened Ints
  import opened ArduinoString

  const RDS_PI_CODE_DEF: uint32 := 0x6400
  const RDS_PI_CODE_MAX: uint32 := 0xFFFF
  const RDS_PI_CODE_MIN: uint32 := 0x00FF

  /** String(F("0x")) + String(code, HEX). */
  function PiString(code: nat): string
  {
    "0x" + HexString(code)
  }

  /** strtol(value, NULL, HEX) of the trimmed input, narrowed to uint32_t. */
  function ParsePi(value: string): uint32
  {
    ToU32(Strtol(Trim(value), 16))
  }

  function OutOfRangeMessage(value: string): string
  {
    "Value Out of Range: " + Trim(value)
  }

  /** set: verdict, message and the code held afterwards.  A code equal to
      the current one is accepted with nothing done; one outside the range
      is refused. */
  function PiSet(current: uint32, value: string): (r: (bool, string, uint32))
  {
    var NewPiCodeValue := ParsePi(value);
    if NewPiCodeValue == current then (true, "", current)
    else if NewPiCodeValue < RDS_PI_CODE_MIN || NewPiCodeValue > RDS_PI_CODE_MAX then
      (false, OutOfRangeMessage(value), current)
    else (true, "", NewPiCodeValue)
  }

  class PiCode {
    var DataValue: uint32
    var DataValueStr: string
    /** The code last sent to the transmitter. */
    var RadioPiCode: uint32
    var SaveWarning: bool

    predicate Valid()
      reads this
    {
      DataValueStr == PiString(DataValue as nat)
    }

    constructor()
      ensures Valid() && DataValue == RDS_PI_CODE_DEF && DataValueStr == "0x6400"
      ensures RadioPiCode == 0 && !SaveWarning
    {
      DataValue := RDS_PI_CODE_DEF;
      DataValueStr := PiString(RDS_PI_CODE_DEF as nat);
      RadioPiCode := 0;
      SaveWarning := false;
    }

    /** set: a new code in range is stored, printed, sent to the radio and
        raises the save warning; anything else leaves all of it alone.  The
        caller's String is trimmed in place; `trimmed` is what it then holds. */
    method Set(value: string) returns (ok: bool, message: string, trimmed: string)
      requires Valid()
      modifies this
      ensures Valid()
      ensures trimmed == Trim(value)
      ensures (ok, message, DataValue) == PiSet(old(DataValue), value)
      ensures DataValue == old(DataValue) ==> RadioPiCode == old(RadioPiCode) && SaveWarning == old(SaveWarning)
      ensures DataValue != old(DataValue) ==> RadioPiCode == DataValue && SaveWarning
    {
      var r := PiSet(DataValue, value);
      ok, message := r.0, r.1;
      if r.2 != DataValue {
        DataValue := r.2;
        DataValueStr := PiString(r.2 as nat);
        RadioPiCode := r.2;
        SaveWarning := true;
      }
      trimmed := Trim(value);
    }
  }

  // ---------------------------------------------------------------------
  // Properties
  // ---------------------------------------------------------------------

  /** The decision: the current code is accepted unchanged, otherwise a code
      is accepted exactly when it is in range, and a refusal keeps the
      current code. */
  lemma SetRules(current: uint32, value: string)
    ensures var r := PiSet(current, value);
      var n := ParsePi(value);
      (r.0 <==> n == current || RDS_PI_CODE_MIN <= n <= RDS_PI_CODE_MAX)
      && (r.0 ==> r.2 == n && r.1 == "")
      && (!r.0 ==> r.2 == current && r.1 == OutOfRangeMessage(value))
  {
  }

  /** The text shown for a code reads back as that code. */
  lemma PiStringReadsBack(code: uint32)
    requires code <= RDS_PI_CODE_MAX
    ensures ParsePi(PiString(code as nat)) == code
  {
    var s := PiString(code as nat);
    assert s[0] == '0';
    assert !IsSpace(s[0]);
    assert TrimStart(s) == s;
    assert !IsSpace(s[|s| - 1]) by {
      assert s[|s| - 1] == HexString(code as nat)[|HexString(code as nat)| - 1];
    }
    assert TrimEnd(s) == s;
    HexStringRoundTrip(code as nat);
  }

  /** Setting a code to the text it is shown as changes nothing. */
  lemma ShownCodeIsNoChange(code: uint32)
    requires code <= RDS_PI_CODE_MAX
    ensures PiSet(code, PiString(code as nat)) == (true, "", code)
  {
    PiStringReadsBack(code);
  }

  /** Every code in range can be entered as "0x" and its hex digits, and is
      then the code held. */
  lemma EveryCodeInRangeSettable(current: uint32, code: uint32)
    requires RDS_PI_CODE_MIN <= code <= RDS_PI_CODE_MAX
    ensures PiSet(current, PiString(code as nat)) == (true, "", code)
  {
    PiStringReadsBack(code);
  }

  /** A negative input wraps to a huge code, which is refused. */
  lemma NegativeRefused(current: uint32)
    requires current != 0xFFFF_FFFF
    ensures !PiSet(current, "-1").0
  {
    assert Trim("-1") == "-1";
    assert TrimStart("-1") == "-1";
    var u := "1";
    assert "-1"[1..] == u;
    assert DigitRun(u, 16) == 1;
    assert u[..1] == u;
  }
}
