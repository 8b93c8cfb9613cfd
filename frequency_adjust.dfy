// The FM frequency control.  Frequencies are whole tenths of a MHz; the pad
// control steps the frequency by 0.1 or 1 MHz and clamps it into the band,
// and set refuses anything outside the band.  The text the control shows is
// "<MHz>.<tenth> MHz".  The float conversion between the pad and set is
// taken to be exact.
module FrequencyAdjust {
  import opened Ints
  import opened ArduinoString
  import opened EspUi

  const FM_FREQ_MIN_X10: uint32 := 881
  const FM_FREQ_MAX_X10: uint32 := 1079
  const FM_FREQ_SKP_KHZ: uint32 := 1
  const FM_FREQ_SKP_MHZ: uint32 := 10

  const TooHighMessage: string := "RF Frequency Set failed: Frequency is too high"
  const TooLowMessage: string := "RF Frequency Set failed: Frequency is too low"

  predicate InBand(f: int)
  {
    FM_FREQ_MIN_X10 as int <= f <= FM_FREQ_MAX_X10 as int
  }

  /** String(float(f) / 10.0f, 1) + " MHz" for a frequency in tenths. */
  function FrequencyString(f: nat): string
  {
    DecString(f / 10) + "." + DecString(f % 10) + " MHz"
  }

  /** The step a pad press applies, in uint32_t arithmetic; None for an
      event that is not a pad press. */
  function Step(eventType: int, current: uint32): (r: Option<uint32>)
  {
    if eventType == P_LEFT_DOWN then Some(SubU32(current, FM_FREQ_SKP_KHZ))
    else if eventType == P_RIGHT_DOWN then Some(AddU32(current, FM_FREQ_SKP_KHZ))
    else if eventType == P_BACK_DOWN then Some(SubU32(current, FM_FREQ_SKP_MHZ))
    else if eventType == P_FOR_DOWN then Some(AddU32(current, FM_FREQ_SKP_MHZ))
    else None
  }

  /** Values above the band become its top, values below it its bottom. */
  function Clamp(f: uint32): (r: uint32)
    ensures InBand(r)
    ensures InBand(f) ==> r == f
    ensures f > FM_FREQ_MAX_X10 ==> r == FM_FREQ_MAX_X10
    ensures f < FM_FREQ_MIN_X10 ==> r == FM_FREQ_MIN_X10
  {
    if f > FM_FREQ_MAX_X10 then FM_FREQ_MAX_X10
    else if f < FM_FREQ_MIN_X10 then FM_FREQ_MIN_X10
    else f
  }

  /** The outcome of set: verdict, message, and the frequency held after. */
  function FrequencySet(current: uint32, NewData: uint32): (r: (bool, string, uint32))
  {
    if NewData > FM_FREQ_MAX_X10 then (false, TooHighMessage, current)
    else if NewData < FM_FREQ_MIN_X10 then (false, TooLowMessage, current)
    else (true, "", NewData)
  }

  class FrequencyAdjust {
    var DataValue: uint32
    var DataValueStr: string
    /** The frequency last sent to the transmitter. */
    var RadioFrequency: uint32
    var SaveWarning: bool

    predicate Valid()
      reads this
    {
      InBand(DataValue)
    }

    /** The constructor's 88.1 MHz, shown without its unit until the first
        change; the radio has not been tuned yet. */
    constructor()
      ensures Valid() && DataValue == 881 && DataValueStr == "88.1" && RadioFrequency == 0 && !SaveWarning
    {
      DataValue := 881;
      DataValueStr := "88.1";
      RadioFrequency := 0;
      SaveWarning := false;
    }

    /** set with the input already read as tenths of a MHz: a frequency
        outside the band is refused; the current frequency is accepted with
        nothing done; a new one is stored, shown, sent to the radio and
        raises the save warning. */
    method Set(NewData: uint32) returns (ok: bool, message: string)
      requires Valid()
      modifies this
      ensures Valid()
      ensures (ok, message, DataValue) == FrequencySet(old(DataValue), NewData)
      ensures NewData == old(DataValue) || !ok ==>
        DataValueStr == old(DataValueStr) && RadioFrequency == old(RadioFrequency) && SaveWarning == old(SaveWarning)
      ensures ok && NewData != old(DataValue) ==>
        DataValueStr == FrequencyString(NewData as nat) && RadioFrequency == NewData && SaveWarning
    {
      ok, message := true, "";
      if NewData > FM_FREQ_MAX_X10 {
        ok, message := false, TooHighMessage;
      } else if NewData < FM_FREQ_MIN_X10 {
        ok, message := false, TooLowMessage;
      } else if NewData != DataValue {
        DataValueStr := FrequencyString(NewData as nat);
        DataValue := NewData;
        RadioFrequency := NewData;
        SaveWarning := true;
      }
    }

    /** Callback: only pad presses (negative event types) step the
        frequency; the stepped value is clamped into the band and set, so
        the set never fails and acts only when the frequency moved. */
    method Callback(eventType: int)
      requires Valid()
      modifies this
      ensures Valid()
      ensures Step(eventType, old(DataValue)).None? ==>
        DataValue == old(DataValue) && DataValueStr == old(DataValueStr)
        && RadioFrequency == old(RadioFrequency) && SaveWarning == old(SaveWarning)
      ensures Step(eventType, old(DataValue)).Some? ==>
        var n := Clamp(Step(eventType, old(DataValue)).value);
        DataValue == n
        && (n == old(DataValue) ==>
              DataValueStr == old(DataValueStr) && RadioFrequency == old(RadioFrequency) && SaveWarning == old(SaveWarning))
        && (n != old(DataValue) ==>
              DataValueStr == FrequencyString(n as nat) && RadioFrequency == n && SaveWarning)
    {
      if 0 <= eventType {
        return;
      }
      var NewData := Step(eventType, DataValue);
      if NewData.None? {
        return;
      }
      var ok, msg := Set(Clamp(NewData.value));
    }
  }

  // ---------------------------------------------------------------------
  // Properties
  // ---------------------------------------------------------------------

  /** set accepts exactly the frequencies of the band, stores what it
      accepts and keeps the current value otherwise. */
  lemma SetRules(current: uint32, NewData: uint32)
    ensures var r := FrequencySet(current, NewData);
      (r.0 <==> InBand(NewData))
      && (r.0 ==> r.2 == NewData && r.1 == "")
      && (!r.0 ==> r.2 == current)
      && (NewData > FM_FREQ_MAX_X10 ==> r.1 == TooHighMessage)
      && (NewData < FM_FREQ_MIN_X10 ==> r.1 == TooLowMessage)
  {
  }

  /** Within the band the pad moves by exactly 0.1 or 1 MHz unless that
      would leave the band, in which case it stops at the edge. */
  lemma PadSteps(current: uint32)
    requires InBand(current)
    ensures Step(P_RIGHT_DOWN, current).value == current + 1
    ensures Step(P_LEFT_DOWN, current).value == current - 1
    ensures Step(P_FOR_DOWN, current).value == current + 10
    ensures Step(P_BACK_DOWN, current).value == current - 10
    ensures Clamp(Step(P_FOR_DOWN, current).value) == if current + 10 > 1079 then 1079 else current + 10
    ensures Clamp(Step(P_BACK_DOWN, current).value) == if current - 10 < 881 then 881 else current - 10
  {
  }

  /** Only the four pad presses step; the button, slider, centre and
      release events do not. */
  lemma OnlyPadPressesStep(current: uint32)
    ensures Step(B_DOWN, current).None? && Step(P_CENTER_DOWN, current).None? && Step(S_ACTIVE, current).None?
    ensures forall t :: t >= 0 ==> Step(t, current).None?
  {
  }

  /** Stepping up and then down again returns to the start, away from the
      band edges. */
  lemma StepUpDown(current: uint32)
    requires FM_FREQ_MIN_X10 as int + 10 <= current as int <= FM_FREQ_MAX_X10 as int - 10
    ensures Clamp(Step(P_BACK_DOWN, Clamp(Step(P_FOR_DOWN, current).value)).value) == current
    ensures Clamp(Step(P_LEFT_DOWN, Clamp(Step(P_RIGHT_DOWN, current).value)).value) == current
  {
  }

  /** The band edges shown as the control prints them. */
  lemma BandEdgeStrings()
    ensures FrequencyString(881) == "88.1 MHz"
    ensures FrequencyString(1079) == "107.9 MHz"
  {
    assert DecString(88) == "88" && DecString(1) == "1";
    assert DecString(107) == "107" && DecString(9) == "9";
  }
}
