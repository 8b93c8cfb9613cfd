// The RDS programme service (PS) name: a station name of 4 to 8
// characters.  The common set runs this validate and, when it succeeds,
// the name is sent to the transmitter.
module ProgramServiceName {
  import opened ArduinoString
  import opened ControlCommon

  const RDS_PSN_DEF_STR: string := "PixeyFM"
  const MaxLength: nat := 8
  const MinLength: nat := 4

  function NamePrefix(title: string, value: string): string
  {
    title + ": '" + value
  }

  /** validate: the current name is accepted with nothing changed; otherwise
      a name shorter than 4 or longer than 8 characters is refused and any
      other is taken. */
  function PsnValidate(title: string, current: string, value: string): (r: Validation)
  {
    if current == value then Validation(true, current, "")
    else if |value| < MinLength then Validation(false, current, NamePrefix(title, value) + "' is too short. BAD_VALUE")
    else if |value| > MaxLength then Validation(false, current, NamePrefix(title, value) + "' is too long. BAD_VALUE")
    else Validation(true, value, NamePrefix(title, value) + "' Accepted")
  }

  predicate NameLengthOk(s: string)
  {
    MinLength <= |s| <= MaxLength
  }

  class ProgramServiceName {
    const Title: string
    var DataValueStr: string
    var Booting: bool
    var UiValue: string
    var SaveWarning: bool
    /** The name last sent to the transmitter. */
    var RadioName: string

    /** The stored name always has an acceptable length. */
    predicate Valid()
      reads this
    {
      NameLengthOk(DataValueStr)
    }

    constructor(title: string)
      ensures Valid() && Title == title && DataValueStr == RDS_PSN_DEF_STR
      ensures Booting && UiValue == "" && !SaveWarning && RadioName == ""
    {
      Title := title;
      DataValueStr := RDS_PSN_DEF_STR;
      Booting := true;
      UiValue := "";
      SaveWarning := false;
      RadioName := "";
    }

    /** set: the common set with this validate; on success the stored name
        goes to the radio, even when it did not change. */
    method Set(value: string, forced: bool) returns (ok: bool, message: string)
      requires Valid()
      modifies this
      ensures Valid() && Booting == old(Booting)
      ensures var r := SetWith(Title, old(DataValueStr), value, PsnValidate(Title, old(DataValueStr), value), forced);
        ok == r.ok && message == r.message && DataValueStr == r.dataValue
        && UiValue == (if r.uiWritten then r.dataValue else old(UiValue))
        && SaveWarning == (old(SaveWarning) || (r.uiWritten && !Booting))
        && RadioName == (if ok then DataValueStr else old(RadioName))
    {
      var r := SetWith(Title, DataValueStr, value, PsnValidate(Title, DataValueStr, value), forced);
      ok, message := r.ok, r.message;
      UiValue := if r.uiWritten then r.dataValue else UiValue;
      SaveWarning := SaveWarning || (r.uiWritten && !Booting);
      DataValueStr := r.dataValue;
      RadioName := if ok then r.dataValue else RadioName;
    }
  }

  // ---------------------------------------------------------------------
  // Properties
  // ---------------------------------------------------------------------

  /** The decision: a new name is accepted exactly when it has 4 to 8
      characters and is then stored; the current name is always accepted;
      a refusal keeps the current name and says why. */
  lemma ValidateRules(title: string, current: string, value: string)
    ensures var r := PsnValidate(title, current, value);
      (r.ok <==> value == current || NameLengthOk(value))
      && (r.ok ==> r.dataValue == value)
      && (!r.ok ==> r.dataValue == current)
      && (value != current && |value| < 4 ==> r.message == NamePrefix(title, value) + "' is too short. BAD_VALUE")
      && (value != current && |value| > 8 ==> r.message == NamePrefix(title, value) + "' is too long. BAD_VALUE")
  {
  }

  /** Whatever is set, a name of acceptable length stays stored. */
  lemma LengthKept(title: string, current: string, value: string)
    requires NameLengthOk(current)
    ensures NameLengthOk(PsnValidate(title, current, value).dataValue)
  {
  }

  /** The default name fits, and the names at the two limits are taken. */
  lemma Limits(title: string)
    ensures NameLengthOk(RDS_PSN_DEF_STR)
    ensures PsnValidate(title, RDS_PSN_DEF_STR, "ABCD").ok
    ensures PsnValidate(title, RDS_PSN_DEF_STR, "ABCDEFGH").ok
    ensures !PsnValidate(title, RDS_PSN_DEF_STR, "ABC").ok
    ensures !PsnValidate(title, RDS_PSN_DEF_STR, "ABCDEFGHI").ok
  {
  }
}
