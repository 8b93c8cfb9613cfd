// A general-purpose I/O pin exposed as a choice list.  Each option names a
// pin configuration and carries an action "<level>, <mode>" that is applied
// with pinMode and digitalWrite; the commands "read", "outhigh" and "outlow"
// (in any case) are translated to options, and "read" answers with the pin
// level.  The pin is represented by the mode and level last written to it
// and by the level read, which is a parameter.  The pin-mode numbers are
// those of the ESP32 Arduino core (esp32-hal-gpio.h is not part of this
// model).
module GpioCommon {
  import opened Ints
  import opened ArduinoString
  import opened ControlCommon
  import opened ChoiceListControl

  const INPUT: nat := 0x01
  const OUTPUT: nat := 0x03
  const INPUT_PULLUP: nat := 0x05
  const INPUT_PULLDOWN: nat := 0x09

  /** String(level) + ", " + String(mode). */
  function ActionString(level: nat, mode: nat): string
  {
    DecString(level) + ", " + DecString(mode)
  }

  const ListOfOptions: ChoiceList := [
    ("DIGITAL INPUT = FLOAT", ActionString(0, INPUT)),
    ("DIGITAL INPUT = PULLUP", ActionString(0, INPUT_PULLUP)),
    ("DIGITAL INPUT = PULLDOWN", ActionString(0, INPUT_PULLDOWN)),
    ("DIGITAL OUTPUT = LOW", ActionString(0, OUTPUT)),
    ("DIGITAL OUTPUT = HIGH", ActionString(1, OUTPUT))]

  const DefaultOption: string := "DIGITAL INPUT = PULLDOWN"

  const CommandTranslation: map<string, string> := map[
    "read" := "read", "outhigh" := "DIGITAL OUTPUT = HIGH", "outlow" := "DIGITAL OUTPUT = LOW"]

  /** The key map the choice list builds from the options. */
  function Keys(): map<string, nat>
  {
    IndexMap(ListOfOptions)
  }

  /** The action of set: the level is what precedes the comma and the mode
      what follows ", ", each read with toInt.  The comma's position is a
      uint32_t. */
  function ParseAction(Action: string): (r: (int32, int32))
  {
    var position := ToU32(IndexOf(Action, ","));
    (ToInt(Substring(Action, 0, position)), ToInt(SubstringFrom(Action, ToU32(position + 2))))
  }

  /** validate: a command is looked up lowercased and replaced by the option
      it stands for; anything else goes to the choice-list validate. */
  function GpioValidate(title: string, current: string, value: string, forced: bool): (r: Validation)
  {
    var temp := ToLower(value);
    if temp in CommandTranslation then Validation(true, CommandTranslation[temp], "")
    else ChoiceValidate(title, Keys(), current, value, forced)
  }

  /** The level and mode set applies for an option. */
  function ActionOf(key: string): (int32, int32)
    requires key in Keys()
  {
    ParseAction(ListOfOptions[Keys()[key]].1)
  }

  /** String(digitalRead(pin)). */
  function LevelString(high: bool): string
  {
    if high then "1" else "0"
  }

  /** What set changes: the value, the switch display, the save warning,
      and the mode and level last written to the pin. */
  datatype GpioState = GpioState(value: string, uiValue: string, saveWarning: bool, mode: int32, level: int32)

  /** set: the common set with this validate.  When the value is then
      "read", the answer is the pin level and the set succeeds whatever
      validate said; otherwise a successful set applies the chosen option's
      action to the pin. */
  function GpioSet(s: GpioState, booting: bool, title: string, value: string, forced: bool, pinHigh: bool)
    : (GpioState, bool, string)
  {
    var v := GpioValidate(title, s.value, value, forced);
    var r := SetWith(title, s.value, value, v, forced);
    var s1 := s.(value := r.dataValue, uiValue := if r.uiWritten then r.dataValue else s.uiValue,
                 saveWarning := s.saveWarning || (r.uiWritten && !booting));
    if r.dataValue == "read" then (s1, true, LevelString(pinHigh))
    else if !r.ok then (s1, false, r.message)
    else
      ValidatedIsKey(title, s.value, value, forced);
      var action := ActionOf(r.dataValue);
      (s1.(mode := action.1, level := action.0), true, r.message)
  }

  class GpioCommon {
    const Title: string
    var DataValueStr: string
    var Booting: bool
    var UiValue: string
    var SaveWarning: bool
    /** The mode and level last written to the pin. */
    var PinMode: int32
    var PinLevel: int32

    constructor(pinId: nat)
      ensures Title == "GPIO PIN " + DecString(pinId) && DataValueStr == DefaultOption
      ensures Booting && UiValue == "" && !SaveWarning && PinMode == 0 && PinLevel == 0
    {
      Title := "GPIO PIN " + DecString(pinId);
      DataValueStr := DefaultOption;
      Booting := true;
      UiValue := "";
      SaveWarning := false;
      PinMode := 0;
      PinLevel := 0;
    }

    function State(): GpioState
      reads this
    {
      GpioState(DataValueStr, UiValue, SaveWarning, PinMode, PinLevel)
    }

    method Set(value: string, forced: bool, pinHigh: bool) returns (ok: bool, message: string)
      modifies this
      ensures (State(), ok, message) == GpioSet(old(State()), Booting, Title, value, forced, pinHigh)
      ensures Booting == old(Booting)
    {
      var r := GpioSet(State(), Booting, Title, value, forced, pinHigh);
      DataValueStr, UiValue, SaveWarning := r.0.value, r.0.uiValue, r.0.saveWarning;
      PinMode, PinLevel := r.0.mode, r.0.level;
      ok, message := r.1, r.2;
    }
  }

  // ---------------------------------------------------------------------
  // Properties
  // ---------------------------------------------------------------------

  /** The outcome of set: the value and display follow the common set;
      "read" always succeeds and answers with the pin level; otherwise the
      verdict and message are the common set's, and a success writes the
      option's action to the pin while a failure leaves the pin alone. */
  lemma SetRules(s: GpioState, booting: bool, title: string, value: string, forced: bool, pinHigh: bool)
    ensures var g := GpioSet(s, booting, title, value, forced, pinHigh);
      var r := SetWith(title, s.value, value, GpioValidate(title, s.value, value, forced), forced);
      g.0.value == r.dataValue
      && g.0.uiValue == (if r.uiWritten then r.dataValue else s.uiValue)
      && g.0.saveWarning == (s.saveWarning || (r.uiWritten && !booting))
      && (g.0.value == "read" ==> g.1 && g.2 == LevelString(pinHigh))
      && (g.0.value != "read" ==> g.1 == r.ok && g.2 == r.message)
      && (g.1 && g.0.value != "read" ==> g.0.value in Keys() && (g.0.level, g.0.mode) == ActionOf(g.0.value))
      && (!g.1 || g.0.value == "read" ==> g.0.mode == s.mode && g.0.level == s.level)
  {
    ValidatedIsKey(title, s.value, value, forced);
  }

  /** The two output commands translate to options of the list, at the
      positions of those options. */
  lemma TranslatedAreKeys()
    ensures "DIGITAL OUTPUT = LOW" in Keys() && "DIGITAL OUTPUT = HIGH" in Keys()
    ensures forall k :: k in CommandTranslation && k != "read" ==> CommandTranslation[k] in Keys()
  {
    assert ListOfOptions[3].0 == "DIGITAL OUTPUT = LOW";
    assert ListOfOptions[4].0 == "DIGITAL OUTPUT = HIGH";
  }

  /** Whatever validate accepts, other than "read", is an option. */
  lemma ValidatedIsKey(title: string, current: string, value: string, forced: bool)
    ensures var r := GpioValidate(title, current, value, forced);
      r.ok && r.dataValue != "read" ==> r.dataValue in Keys()
  {
    TranslatedAreKeys();
  }

  /** An action "<digit>, <mode>" is split into that digit and that mode. */
  lemma ActionParses(level: nat, mode: nat)
    requires level < 10 && mode <= 0x7FFF_FFFF
    ensures ParseAction(ActionString(level, mode)) == (level, mode)
  {
    var a := ActionString(level, mode);
    assert a[0] == DecString(level)[0] && a[1] == ',';
    assert OccursAt(a, ",", 1) by { assert a[1..2] == [a[1]]; }
    assert !OccursAt(a, ",", 0) by { assert a[0..1] == [a[0]]; }
    assert IndexOf(a, ",") == 1;
    assert Substring(a, 0, 1) == DecString(level);
    assert SubstringFrom(a, 3) == DecString(mode);
    DecStringRoundTrip(level);
    DecStringRoundTrip(mode);
  }

  /** "outhigh" and "outlow", in any case, select the output options. */
  lemma OutputCommands(title: string, current: string, value: string, forced: bool)
    ensures ToLower(value) == "outhigh" ==>
      GpioValidate(title, current, value, forced) == Validation(true, "DIGITAL OUTPUT = HIGH", "")
    ensures ToLower(value) == "outlow" ==>
      GpioValidate(title, current, value, forced) == Validation(true, "DIGITAL OUTPUT = LOW", "")
  {
  }

  /** The action of the option at position i, when it is "<level>, <mode>". */
  lemma ListedAction(i: nat, level: nat, mode: nat)
    requires i < |ListOfOptions| && level < 10 && mode <= 0x7FFF_FFFF
    requires ListOfOptions[i].1 == ActionString(level, mode)
    ensures ParseAction(ListOfOptions[i].1) == (level, mode)
  {
    ActionParses(level, mode);
  }

  /** The output options drive the pin high and low. */
  lemma OutputActions()
    ensures ParseAction(ListOfOptions[4].1) == (1, OUTPUT as int32)
    ensures ParseAction(ListOfOptions[3].1) == (0, OUTPUT as int32)
  {
    ListedAction(4, 1, OUTPUT);
    ListedAction(3, 0, OUTPUT);
  }

  /** The floating-input option writes level 0 in input mode. */
  lemma FloatInputAction()
    ensures ParseAction(ListOfOptions[0].1) == (0, INPUT as int32)
  {
    ListedAction(0, 0, INPUT);
  }

  /** The pull-up option writes level 0 in pull-up input mode. */
  lemma PullupInputAction()
    ensures ParseAction(ListOfOptions[1].1) == (0, INPUT_PULLUP as int32)
  {
    ListedAction(1, 0, INPUT_PULLUP);
  }

  /** The pull-down option, the default, writes level 0 in pull-down input mode. */
  lemma PulldownInputAction()
    ensures ParseAction(ListOfOptions[2].1) == (0, INPUT_PULLDOWN as int32)
    ensures ListOfOptions[2].0 == DefaultOption
  {
    ListedAction(2, 0, INPUT_PULLDOWN);
  }

  /** A value that is not a command is left to the choice list. */
  lemma OtherValues(title: string, current: string, value: string, forced: bool)
    requires ToLower(value) !in CommandTranslation
    ensures GpioValidate(title, current, value, forced) == ChoiceValidate(title, Keys(), current, value, forced)
  {
  }

  // ---------------------------------------------------------------------
  // A command typed with a capital letter stores ""
  // ---------------------------------------------------------------------

  /** validate as written: the lowercased copy is looked up, but the
      original is used as the key of std::map::operator[], which inserts it
      with an empty value when it is not there. */
  function GpioValidateAsWritten(translation: map<string, string>, title: string, current: string, value: string, forced: bool)
    : (Validation, map<string, string>)
  {
    var temp := ToLower(value);
    if temp in translation then
      if value in translation then (Validation(true, translation[value], ""), translation)
      else (Validation(true, "", ""), translation[value := ""])
    else (ChoiceValidate(title, Keys(), current, value, forced), translation)
  }

  /** "OutHigh" is accepted but stores "", which is no option: set then
      reads ListOfOptions at index 0xFFFFFFFF of a 5-entry list. */
  lemma MixedCaseIndexOutOfRange(title: string, current: string, forced: bool)
    ensures var v := GpioValidateAsWritten(CommandTranslation, title, current, "OutHigh", forced).0;
      v.ok && v.dataValue == "" && v.dataValue != "read"
      && GetIndex(Keys(), v.dataValue) == UINT32_MAX && UINT32_MAX >= |ListOfOptions|
  {
    assert ToLower("OutHigh") == "outhigh";
    assert forall i :: 0 <= i < |ListOfOptions| ==> ListOfOptions[i].0 != "";
  }

  /** The lookup by the lowercased value, which GpioCommon.Set uses, gives
      the same as the original for lowercase commands and a real option for
      every command. */
  lemma IntendedAgreesOnLowercase(title: string, current: string, value: string, forced: bool)
    requires value in CommandTranslation
    ensures ToLower(value) == value
    ensures GpioValidate(title, current, value, forced) == GpioValidateAsWritten(CommandTranslation, title, current, value, forced).0
  {
  }
}
