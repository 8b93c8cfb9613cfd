// An on/off control.  Its input is looked up, lowercased, in a table of
// accepted words shared by every binary control; the value is kept both as
// a bool and as the string "1" or "0", and a successful set answers with the
// control's on or off text.  The saved configuration holds the bool.
module BinaryControl {
  import opened ArduinoString
  import opened ControlCommon

  const EnabledStr: string := "Enabled"
  const DisabledStr: string := "Disabled"

  /** The accepted words and the value each stands for. */
  const DefaultInputs: map<string, bool> := map[
    "enable" := true, "disable" := false, "enabled" := true, "disabled" := false,
    "1" := true, "0" := false, "on" := true, "off" := false, "true" := true, "false" := false]

  /** `String(bool)`: a bool prints as the digit 1 or 0. */
  function BoolString(b: bool): string
  {
    if b then "1" else "0"
  }

  function InvalidMessage(title: string, value: string): string
  {
    title + ": BAD_VALUE: Invalid Binary Value '" + value + "'"
  }

  /** validate: the lowercased input must be in the table; its value
      becomes the control's value. */
  function BinaryValidate(table: map<string, bool>, title: string, current: bool, value: string): (r: (Validation, bool))
  {
    var temp := ToLower(value);
    if temp !in table then (Validation(false, BoolString(current), InvalidMessage(title, value)), current)
    else (Validation(true, BoolString(table[temp]), ""), table[temp])
  }

  /** The fields set changes.  The string form of the value is derived
      from the bool. */
  datatype BinaryState = BinaryState(
    value: bool, onString: string, offString: string, uiValue: string, saveWarning: bool, message: string)

  /** set on a binary control: empty on / off texts get their defaults;
      the input is validated; on success the value is printed if it changed
      (or the update is forced), and the on or off text is the answer and the
      message shown; a failure answers with the validator's message. */
  function BinarySet(s: BinaryState, booting: bool, table: map<string, bool>, title: string, value: string, forced: bool)
    : (r: (BinaryState, bool, string))
    ensures var b := BinaryValidate(table, title, s.value, value);
      r.1 == b.0.ok && r.0.value == b.1
    ensures r.0.onString == (if s.onString == "" then EnabledStr else s.onString)
    ensures r.0.offString == (if s.offString == "" then DisabledStr else s.offString)
    ensures r.1 ==> r.2 == (if r.0.value then r.0.onString else r.0.offString) && r.0.message == r.2
    ensures !r.1 ==> r.2 == InvalidMessage(title, value) && r.0.message == s.message && r.0.value == s.value
    ensures var written := r.1 && (forced || r.0.value != s.value);
      r.0.uiValue == (if written then BoolString(r.0.value) else s.uiValue)
      && r.0.saveWarning == (s.saveWarning || (written && !booting))
  {
    var on := if s.onString == "" then EnabledStr else s.onString;
    var off := if s.offString == "" then DisabledStr else s.offString;
    var b := BinaryValidate(table, title, s.value, value);
    var written := b.0.ok && (forced || b.1 != s.value);
    var message := if !b.0.ok then b.0.message else if b.1 then on else off;
    (BinaryState(b.1, on, off, if written then b.0.dataValue else s.uiValue,
                 s.saveWarning || (written && !booting), if b.0.ok then message else s.message),
     b.0.ok, message)
  }

  /** The table still reads "1" as on and "0" as off. */
  predicate DigitsIntact(table: map<string, bool>)
  {
    "1" in table && table["1"] && "0" in table && !table["0"]
  }

  /** The table every binary control reads. */
  class InputConditions {
    var ValidInputValues: map<string, bool>

    constructor()
      ensures ValidInputValues == DefaultInputs
    {
      ValidInputValues := DefaultInputs;
    }

    /** addInputCondition as written: the name goes in as given, not the
        lowercased copy made of it. */
    method AddInputCondition(Name: string, value: bool)
      modifies this
      ensures ValidInputValues == old(ValidInputValues)[Name := value]
    {
      var Temp := ToLower(Name);
      ValidInputValues := ValidInputValues[Name := value];
    }
  }

  class BinaryControl {
    const ConfigName: string
    const Title: string
    var DataValue: bool
    var DataValueStr: string
    var OnString: string
    var OffString: string
    var Booting: bool
    var UiValue: string
    var SaveWarning: bool
    /** The text shown in the control's message line. */
    var Message: string

    constructor(configName: string, title: string, defaultValue: bool)
      ensures ConfigName == configName && Title == title
      ensures DataValue == defaultValue && DataValueStr == BoolString(defaultValue)
      ensures OnString == EnabledStr && OffString == DisabledStr
      ensures Booting && UiValue == "" && !SaveWarning && Message == "" && Valid()
    {
      ConfigName := configName;
      Title := title;
      DataValue := defaultValue;
      DataValueStr := BoolString(defaultValue);
      OnString := EnabledStr;
      OffString := DisabledStr;
      Booting := true;
      UiValue := "";
      SaveWarning := false;
      Message := "";
    }

    function getBool(): bool
      reads this
    {
      DataValue
    }

    /** The string form always matches the bool. */
    predicate Valid()
      reads this
    {
      DataValueStr == BoolString(DataValue)
    }

    function State(): BinaryState
      reads this
    {
      BinaryState(DataValue, OnString, OffString, UiValue, SaveWarning, Message)
    }

    /** set: the common set with this validate; on success the answer is
        the on or off text, which is also shown as the message. */
    method Set(table: map<string, bool>, value: string, forced: bool) returns (ok: bool, message: string)
      requires Valid()
      modifies this
      ensures Valid() && Booting == old(Booting)
      ensures (State(), ok, message) == BinarySet(old(State()), Booting, table, Title, value, forced)
    {
      var r := BinarySet(State(), Booting, table, Title, value, forced);
      DataValue, OnString, OffString := r.0.value, r.0.onString, r.0.offString;
      UiValue, SaveWarning, Message := r.0.uiValue, r.0.saveWarning, r.0.message;
      DataValueStr := BoolString(DataValue);
      ok, message := r.1, r.2;
    }

    method SaveConfiguration(config: map<string, bool>) returns (r: map<string, bool>)
      ensures r == if ConfigName == "" then config else config[ConfigName := DataValue]
    {
      r := config;
      if ConfigName != "" {
        r := r[ConfigName := DataValue];
      }
    }

    /** restoreConfiguration as written: the stored value is read into a
        local, but the current value is what gets set. */
    method RestoreConfiguration(table: map<string, bool>, config: map<string, bool>)
      modifies this
      requires Valid()
      ensures Valid() && Booting == old(Booting)
      ensures ConfigName != "" ==>
        State() == BinarySet(old(State()), Booting, table, Title, BoolString(old(DataValue)), false).0
      ensures ConfigName == "" ==> State() == old(State())
      ensures ConfigName == "" || DigitsIntact(table) ==> DataValue == old(DataValue)
    {
      if ConfigName != "" {
        var NewValue := if ConfigName in config then config[ConfigName] else DataValue;
        var NewValueStr := BoolString(DataValue);
        assert ToLower("1") == "1" && ToLower("0") == "0";
        var ok, msg := Set(table, NewValueStr, false);
      }
    }
  }

  // ---------------------------------------------------------------------
  // Properties
  // ---------------------------------------------------------------------

  /** Exactly the ten words of the table are accepted, in any case. */
  lemma TokenTable(title: string, current: bool, value: string)
    ensures var r := BinaryValidate(DefaultInputs, title, current, value);
      (r.0.ok <==> ToLower(value) in {"enable", "disable", "enabled", "disabled", "1", "0", "on", "off", "true", "false"})
      && (r.0.ok ==> r.1 == (ToLower(value) in {"enable", "enabled", "1", "on", "true"}))
      && (!r.0.ok ==> r.1 == current && r.0.message == InvalidMessage(title, value))
      && r.0.dataValue == BoolString(r.1)
  {
  }

  /** The stored string always agrees with the stored bool. */
  lemma BoolStringRoundTrip(b: bool)
    ensures BinaryValidate(DefaultInputs, "", !b, BoolString(b)).1 == b
  {
    assert ToLower("1") == "1" && ToLower("0") == "0";
  }

  /** Lowercasing twice is lowercasing once, and leaves no capital letter. */
  lemma ToLowerIdempotent(s: string)
    ensures ToLower(ToLower(s)) == ToLower(s)
    ensures forall i :: 0 <= i < |s| ==> !('A' <= ToLower(s)[i] <= 'Z')
  {
  }

  // ---------------------------------------------------------------------
  // addInputCondition never matches a name with a capital letter
  // ---------------------------------------------------------------------

  /** A condition added under a name with a capital letter is never looked
      up, since validate only ever looks up lowercased input. */
  lemma AddedCapitalNeverMatches(table: map<string, bool>, Name: string, b: bool, title: string, current: bool, value: string)
    requires exists i :: 0 <= i < |Name| && 'A' <= Name[i] <= 'Z'
    requires Name !in table
    ensures BinaryValidate(table[Name := b], title, current, value) == BinaryValidate(table, title, current, value)
  {
    ToLowerIdempotent(value);
    var i :| 0 <= i < |Name| && 'A' <= Name[i] <= 'Z';
    if |ToLower(value)| == |Name| {
      assert ToLower(value)[i] != Name[i];
    }
  }

  /** addInputCondition storing the lowercased name. */
  function AddedIntended(table: map<string, bool>, Name: string, b: bool): map<string, bool>
  {
    table[ToLower(Name) := b]
  }

  /** With the lowercased name stored, the name itself, in any case, is
      accepted with the value given. */
  lemma AddedIntendedMatches(table: map<string, bool>, Name: string, b: bool, title: string, current: bool)
    ensures var r := BinaryValidate(AddedIntended(table, Name, b), title, current, Name);
      r.0.ok && r.1 == b
  {
  }

  // ---------------------------------------------------------------------
  // restoreConfiguration discards the value it reads
  // ---------------------------------------------------------------------

  /** The value restoreConfiguration sets, as written: the current one. */
  function RestoredAsWritten(current: bool, config: map<string, bool>, name: string): bool
  {
    var NewValue := if name in config then config[name] else current;
    BinaryValidate(DefaultInputs, "", current, BoolString(current)).1
  }

  /** A saved "off" is not restored into a control that is "on". */
  lemma RestoreLosesSavedValue(name: string)
    requires name != ""
    ensures RestoredAsWritten(true, map[name := false], name) == true
  {
    assert ToLower("1") == "1";
  }

  /** restoreConfiguration setting the value it read. */
  function RestoredIntended(current: bool, config: map<string, bool>, name: string): bool
  {
    var NewValue := if name in config then config[name] else current;
    BinaryValidate(DefaultInputs, "", current, BoolString(NewValue)).1
  }

  /** Saving then restoring gives back the value saved. */
  lemma SaveRestoreIntended(name: string, saved: bool, current: bool, config: map<string, bool>)
    requires name != ""
    ensures RestoredIntended(current, config[name := saved], name) == saved
  {
    BoolStringRoundTrip(saved);
  }
}
