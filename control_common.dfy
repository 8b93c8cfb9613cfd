// The common part of every UI control: a string value, a validate step that
// may accept, reject or rewrite a new value, and a set that wraps validate
// with the response message, the UI update and the save warning.  The
// derived controls reuse SetWith with their own validate outcome.  The ESPUI
// control the value is shown in is a field holding the last value printed
// to it; a saved configuration is a JSON object of strings.
module ControlCommon {
  import opened Ints
  import opened ArduinoString
  import opened EspUi

  /** What validate leaves behind: its verdict, the data value after it and
      the response message it wrote ("" when it wrote none). */
  datatype Validation = Validation(ok: bool, dataValue: string, message: string)

  /** What set leaves behind: its verdict, the data value, the response
      message, and whether the value was printed to the UI (which is also
      when the save warning is shown, once the control has booted). */
  datatype SetResult = SetResult(ok: bool, dataValue: string, message: string, uiWritten: bool)

  function BadValueMessage(title: string, value: string): string
  {
    title + ": Set: BAD VALUE: '" + value + "'"
  }

  function SetToMessage(title: string, value: string): string
  {
    title + ": Set To '" + value + "'"
  }

  /** set around a validate outcome: a rejection keeps the validator's
      message or gets a BAD VALUE one; an acceptance reports the new value
      and prints it when it differs from the original or the update is
      forced. */
  function SetWith(title: string, original: string, value: string, v: Validation, forced: bool): (r: SetResult)
    ensures r.ok == v.ok && r.dataValue == v.dataValue
    ensures !r.ok ==> !r.uiWritten && r.message == (if v.message == "" then BadValueMessage(title, value) else v.message)
    ensures r.ok ==> r.message == SetToMessage(title, v.dataValue)
    ensures r.uiWritten <==> r.ok && (forced || original != v.dataValue)
  {
    if !v.ok then
      SetResult(false, v.dataValue, if v.message == "" then BadValueMessage(title, value) else v.message, false)
    else
      SetResult(true, v.dataValue, SetToMessage(title, v.dataValue), !(original == v.dataValue && !forced))
  }

  /** The base validate: with a nonzero limit, a longer value is refused and
      the current value kept; otherwise the value is taken. */
  function LengthValidate(maxLen: uint32, current: string, value: string): (r: Validation)
  {
    if maxLen != 0 && |value| > maxLen then Validation(false, current, "")
    else Validation(true, value, "")
  }

  /** Button-release and pad-release events, which Callback ignores. */
  predicate IsRelease(eventType: int)
  {
    B_UP <= eventType <= P_CENTER_UP
  }

  /** saveConfiguration: the value is stored under the configuration name,
      when there is one. */
  function SavedConfig(name: string, value: string, config: map<string, string>): (r: map<string, string>)
  {
    if name == "" then config else config[name := value]
  }

  /** ReadFromJSON: the value under the name, or the current one when the
      object has none. */
  function ReadFromJson(current: string, config: map<string, string>, name: string): (r: string)
  {
    if name in config then config[name] else current
  }

  class Control {
    const ConfigName: string
    const DefaultValue: string
    const Title: string
    const MaxDataLength: uint32
    var DataValueStr: string
    var Booting: bool
    /** The value last printed to the ESPUI control. */
    var UiValue: string
    /** Whether the "save needed" warning has been shown. */
    var SaveWarning: bool

    constructor(configName: string, title: string, defaultValue: string, maxDataLength: uint32)
      ensures ConfigName == configName && Title == title && DefaultValue == defaultValue
      ensures MaxDataLength == maxDataLength
      ensures DataValueStr == defaultValue && Booting && UiValue == "" && !SaveWarning
    {
      ConfigName := configName;
      Title := title;
      DefaultValue := defaultValue;
      MaxDataLength := maxDataLength;
      DataValueStr := defaultValue;
      Booting := true;
      UiValue := "";
      SaveWarning := false;
    }

    /** set(value, ResponseMessage, ForceUpdate). */
    method Set(value: string, forced: bool) returns (ok: bool, message: string)
      modifies this
      ensures var r := SetWith(Title, old(DataValueStr), value, LengthValidate(MaxDataLength, old(DataValueStr), value), forced);
        ok == r.ok && message == r.message && DataValueStr == r.dataValue
        && UiValue == (if r.uiWritten then r.dataValue else old(UiValue))
        && SaveWarning == (old(SaveWarning) || (r.uiWritten && !Booting))
      ensures Booting == old(Booting)
    {
      var original := DataValueStr;
      var v := LengthValidate(MaxDataLength, DataValueStr, value);
      DataValueStr := v.dataValue;
      if !v.ok {
        ok := false;
        message := if v.message == "" then BadValueMessage(Title, value) else v.message;
        return;
      }
      ok := true;
      message := SetToMessage(Title, DataValueStr);
      if original == DataValueStr && !forced {
        return;
      }
      UiValue := DataValueStr;
      if !Booting {
        SaveWarning := true;
      }
    }

    /** AddControls: the value is printed with a forced set, and the control
        has then booted. */
    method AddControls()
      modifies this
      ensures DataValueStr == old(DataValueStr) && !Booting
      ensures old(Booting) ==> SaveWarning == old(SaveWarning)
      ensures MaxDataLength == 0 || |DataValueStr| <= MaxDataLength ==> UiValue == DataValueStr
      ensures MaxDataLength != 0 && |DataValueStr| > MaxDataLength ==> UiValue == old(UiValue)
    {
      var ok, msg := Set(DataValueStr, true);
      Booting := false;
    }

    /** Callback: release events are ignored; anything else sets the value
        the UI sent. */
    method Callback(eventType: int, senderValue: string)
      modifies this
      ensures IsRelease(eventType) ==>
        DataValueStr == old(DataValueStr) && UiValue == old(UiValue) && SaveWarning == old(SaveWarning)
      ensures !IsRelease(eventType) ==>
        var r := SetWith(Title, old(DataValueStr), senderValue, LengthValidate(MaxDataLength, old(DataValueStr), senderValue), false);
        DataValueStr == r.dataValue
        && UiValue == (if r.uiWritten then r.dataValue else old(UiValue))
        && SaveWarning == (old(SaveWarning) || (r.uiWritten && !Booting))
      ensures Booting == old(Booting)
    {
      if !IsRelease(eventType) {
        var ok, msg := Set(senderValue, false);
      }
    }

    /** ResetToDefaults: the default value is set like any other. */
    method ResetToDefaults()
      modifies this
      ensures var r := SetWith(Title, old(DataValueStr), DefaultValue, LengthValidate(MaxDataLength, old(DataValueStr), DefaultValue), false);
        DataValueStr == r.dataValue
        && UiValue == (if r.uiWritten then r.dataValue else old(UiValue))
        && SaveWarning == (old(SaveWarning) || (r.uiWritten && !Booting))
      ensures Booting == old(Booting)
    {
      var ok, msg := Set(DefaultValue, false);
    }

    method SaveConfiguration(config: map<string, string>) returns (r: map<string, string>)
      ensures r == SavedConfig(ConfigName, DataValueStr, config)
    {
      r := config;
      if ConfigName != "" {
        r := r[ConfigName := DataValueStr];
      }
    }

    /** restoreConfiguration: with a configuration name, the stored value
        (or the current one) is set. */
    method RestoreConfiguration(config: map<string, string>)
      modifies this
      ensures ConfigName == "" ==>
        DataValueStr == old(DataValueStr) && UiValue == old(UiValue) && SaveWarning == old(SaveWarning)
      ensures ConfigName != "" ==>
        var value := ReadFromJson(old(DataValueStr), config, ConfigName);
        var r := SetWith(Title, old(DataValueStr), value, LengthValidate(MaxDataLength, old(DataValueStr), value), false);
        DataValueStr == r.dataValue
        && UiValue == (if r.uiWritten then r.dataValue else old(UiValue))
        && SaveWarning == (old(SaveWarning) || (r.uiWritten && !Booting))
      ensures Booting == old(Booting)
    {
      if ConfigName != "" {
        var NewValue := ReadFromJson(DataValueStr, config, ConfigName);
        var ok, msg := Set(NewValue, false);
      }
    }
  }

  // ---------------------------------------------------------------------
  // Properties
  // ---------------------------------------------------------------------

  /** The length limit: with a nonzero limit a longer value is refused, with
      a BAD VALUE message, and the stored value is kept; a value within the
      limit, or any value with a limit of 0, is stored. */
  lemma LengthLimit(title: string, maxLen: uint32, current: string, value: string, forced: bool)
    ensures var r := SetWith(title, current, value, LengthValidate(maxLen, current, value), forced);
      (r.ok <==> maxLen == 0 || |value| <= maxLen)
      && (r.ok ==> r.dataValue == value)
      && (!r.ok ==> r.dataValue == current && r.message == BadValueMessage(title, value))
  {
  }

  /** The UI is printed exactly when an accepted value differs from the old
      one or the update is forced. */
  lemma UiWrittenOnChange(title: string, maxLen: uint32, current: string, value: string, forced: bool)
    requires maxLen == 0 || |value| <= maxLen
    ensures SetWith(title, current, value, LengthValidate(maxLen, current, value), forced).uiWritten
      <==> forced || value != current
  {
  }

  /** Saving and then restoring a control gives back the value saved, when
      the control has a configuration name and the value fits the limit. */
  lemma SaveRestoreRoundTrip(name: string, maxLen: uint32, saved: string, current: string, config: map<string, string>)
    requires name != ""
    requires maxLen == 0 || |saved| <= maxLen
    ensures LengthValidate(maxLen, current, ReadFromJson(current, SavedConfig(name, saved, config), name)).dataValue == saved
  {
  }

  /** Without a configuration name, saving leaves the object untouched. */
  lemma UnnamedNotSaved(value: string, config: map<string, string>)
    ensures SavedConfig("", value, config) == config
  {
  }

  /** Release events are exactly the positive codes from B_UP to P_CENTER_UP. */
  lemma ReleaseEvents()
    ensures IsRelease(B_UP) && IsRelease(P_LEFT_UP) && IsRelease(P_CENTER_UP)
    ensures !IsRelease(B_DOWN) && !IsRelease(P_CENTER_DOWN) && !IsRelease(S_ACTIVE) && !IsRelease(S_INACTIVE)
  {
  }
}
