// The audio test mode.  A switch turns it on; a two-state machine then plays
// a fixed cycle of tones, two seconds each, and once a second sends a
// RadioText with an elapsed-time clock and the tone.  The tone generator,
// the audio multiplexer and the clock are represented by what they are set
// to; the time is a parameter.
module TestTone {
  import opened Ints
  import opened ArduinoString

  const TEST_TONE_TIME: uint32 := 2000
  const AUDIO_TEST_STR: string := "PIXELRADIO AUDIO TEST"
  const AUDIO_PSN_STR: string := "TestTone"

  /** The tones in the order they are played, in Hz; 0 is silence. */
  const ToneList: seq<uint16> := [0, 220, 330, 220, 262, 523, 349, 349, 440]

  datatype ToneState = Idle | SendingTone

  /** The elapsed-time clock of the RadioText: three uint8_t counters. */
  datatype Clock = Clock(hours: uint8, minutes: uint8, seconds: uint8)

  /** Everything the poll of the tone machine changes.  `cursor` is the
      position of the next tone in ToneList; `playing` is the frequency the
      tone generator was last set to (0 when off). */
  datatype ToneMachine = ToneMachine(
    state: ToneState, clock: Clock,
    toneExpiration: uint32, cursor: nat, playing: uint16,
    rdsText: string, psn: string, statusMessage: string)

  /** The clock as sprintf("[ %02u:%02u:%02u ]") prints it. */
  function ClockText(h: nat, m: nat, s: nat): string
    requires h < 100 && m < 100 && s < 100
  {
    "[ " + Pad2(h) + ":" + Pad2(m) + ":" + Pad2(s) + " ]"
  }

  function ToneMessage(freq: nat): string
  {
    "Current Tone: " + DecString(freq) + " hz"
  }

  predicate ClockValid(c: Clock)
  {
    c.hours < 100 && c.minutes < 60 && c.seconds < 60
  }

  predicate CursorValid(m: ToneMachine)
  {
    m.cursor < |ToneList|
  }

  /** The clock as a count of seconds. */
  function TotalSeconds(c: Clock): nat
  {
    c.hours as nat * 3600 + c.minutes as nat * 60 + c.seconds as nat
  }

  /** The clock of UpdateRdsTimeMsg: the seconds go up and then wrap into
      minutes, minutes into hours, and hours at 100. */
  function TickClock(c: Clock): Clock
    requires ClockValid(c)
  {
    if c.seconds + 1 < 60 then c.(seconds := c.seconds + 1)
    else if c.minutes + 1 < 60 then Clock(c.hours, c.minutes + 1, 0)
    else if c.hours + 1 < 100 then Clock(c.hours + 1, 0, 0)
    else Clock(0, 0, 0)
  }

  /** The RadioText of UpdateRdsTimeMsg, built after the seconds went up
      and before they wrap. */
  function RdsTimeText(c: Clock, freq: nat): string
    requires ClockValid(c)
  {
    AUDIO_TEST_STR + ClockText(c.hours as nat, c.minutes as nat, c.seconds as nat + 1) + "<br>" + ToneMessage(freq)
  }

  /** UpdateRdsTimeMsg: the clock ticks, the RadioText with the clock and
      the tone is sent, and the PS name is set to "TestTone". */
  function UpdateRdsTimeMsg(m: ToneMachine): ToneMachine
    requires ClockValid(m.clock) && CursorValid(m)
  {
    m.(clock := TickClock(m.clock), statusMessage := ToneMessage(ToneList[m.cursor] as nat),
       rdsText := RdsTimeText(m.clock, ToneList[m.cursor] as nat), psn := AUDIO_PSN_STR)
  }

  /** fsm_Tone_state_Idle::Init: the tone is switched off. */
  function IdleInit(m: ToneMachine): ToneMachine
  {
    m.(state := Idle, playing := 0, statusMessage := "")
  }

  /** fsm_Tone_state_SendingTone::Init: the clock is zeroed, the tone is
      off, the cursor is at the first tone and the first change is due in
      two seconds. */
  function SendingInit(m: ToneMachine, now: uint32): ToneMachine
  {
    m.(state := SendingTone, clock := Clock(0, 0, 0), playing := 0,
       cursor := 0, toneExpiration := AddU32(now, TEST_TONE_TIME))
  }

  /** The poll of the current state. */
  function StatePoll(m: ToneMachine, enabled: bool, now: uint32): (r: ToneMachine)
    requires ClockValid(m.clock) && CursorValid(m)
  {
    match m.state
    case Idle => if enabled then SendingInit(m, now) else m
    case SendingTone =>
      if !enabled then IdleInit(m)
      else
        var m1 := UpdateRdsTimeMsg(m);
        if now < m1.toneExpiration then m1
        else
          var next := if m1.cursor + 1 == |ToneList| then 0 else m1.cursor + 1;
          m1.(toneExpiration := AddU32(m1.toneExpiration, TEST_TONE_TIME),
              playing := ToneList[m1.cursor], cursor := next)
  }

  /** set: "0" or "off" turn test mode off, "1" or "on" turn it on, and
      anything else is refused. */
  function ParseSwitch(value: string): Option<bool>
  {
    if value == "0" || value == "off" then Some(false)
    else if value == "1" || value == "on" then Some(true)
    else None
  }

  function BadValueMessage(value: string): string
  {
    "Test Tone: BAD_VALUE: " + value
  }

  class TestTone {
    var DataValue: bool
    var DataValueStr: string
    /** The value last written to the switch. */
    var UiValue: string
    var FsmTimerExpirationTime: uint32
    var hours: uint8
    var minutes: uint8
    var seconds: uint8
    var FsmState: ToneState
    var ToneExpirationTime: uint32
    var CurrentTone: nat
    var PlayingTone: uint16
    var RdsText: string
    var ProgramServiceName: string
    var StatusMessage: string

    function Machine(): ToneMachine
      reads this
    {
      ToneMachine(FsmState, Clock(hours, minutes, seconds), ToneExpirationTime, CurrentTone,
                  PlayingTone, RdsText, ProgramServiceName, StatusMessage)
    }

    predicate Valid()
      reads this
    {
      ClockValid(Machine().clock) && CursorValid(Machine())
    }

    /** The constructor followed by Init at time now: test mode off, the
        machine idle, and the first poll due a second later. */
    constructor(now: uint32)
      ensures Valid() && !DataValue && DataValueStr == "off" && UiValue == ""
      ensures FsmState == Idle && FsmTimerExpirationTime == AddU32(now, 1000)
      ensures hours == 0 && minutes == 0 && seconds == 0 && PlayingTone == 0
    {
      DataValue, DataValueStr, UiValue := false, "off", "";
      FsmTimerExpirationTime := AddU32(now, 1000);
      hours, minutes, seconds := 0, 0, 0;
      FsmState, ToneExpirationTime, CurrentTone := Idle, 0, 0;
      PlayingTone, RdsText, ProgramServiceName, StatusMessage := 0, "", "", "";
    }

    method SetMachine(m: ToneMachine)
      modifies this`FsmState, this`hours, this`minutes, this`seconds, this`ToneExpirationTime
      modifies this`CurrentTone, this`PlayingTone, this`RdsText, this`ProgramServiceName, this`StatusMessage
      ensures Machine() == m
    {
      FsmState := m.state;
      hours := m.clock.hours;
      minutes := m.clock.minutes;
      seconds := m.clock.seconds;
      ToneExpirationTime := m.toneExpiration;
      CurrentTone := m.cursor;
      PlayingTone := m.playing;
      RdsText := m.rdsText;
      ProgramServiceName := m.psn;
      StatusMessage := m.statusMessage;
    }

    /** set: an unknown word is refused and nothing changes; the current
        value is accepted with nothing done; a new value is stored as "1"
        or "0" and written to the switch. */
    method Set(value: string) returns (ok: bool, message: string)
      modifies this
      ensures ParseSwitch(value).None? ==>
        !ok && message == BadValueMessage(value)
        && DataValue == old(DataValue) && DataValueStr == old(DataValueStr) && UiValue == old(UiValue)
      ensures ParseSwitch(value).Some? ==> ok && message == "" && DataValue == ParseSwitch(value).value
      ensures ParseSwitch(value).Some? && ParseSwitch(value).value != old(DataValue) ==>
        DataValueStr == (if DataValue then "1" else "0") && UiValue == DataValueStr
      ensures ParseSwitch(value).Some? && ParseSwitch(value).value == old(DataValue) ==>
        DataValueStr == old(DataValueStr) && UiValue == old(UiValue)
      ensures Machine() == old(Machine()) && FsmTimerExpirationTime == old(FsmTimerExpirationTime)
    {
      var NewDataValue := ParseSwitch(value);
      if NewDataValue.None? {
        ok, message := false, BadValueMessage(value);
        return;
      }
      ok, message := true, "";
      if NewDataValue.value != DataValue {
        DataValue := NewDataValue.value;
        DataValueStr := if DataValue then "1" else "0";
        UiValue := DataValueStr;
      }
    }

    /** poll: before the timer expires nothing happens; then the timer moves
        on by one second (not to now) and the current state is polled. */
    method Poll(now: uint32)
      requires Valid()
      modifies this
      ensures Valid()
      ensures now < old(FsmTimerExpirationTime) ==>
        Machine() == old(Machine()) && FsmTimerExpirationTime == old(FsmTimerExpirationTime)
      ensures now >= old(FsmTimerExpirationTime) ==>
        Machine() == StatePoll(old(Machine()), DataValue, now)
        && FsmTimerExpirationTime == AddU32(old(FsmTimerExpirationTime), 1000)
      ensures DataValue == old(DataValue) && DataValueStr == old(DataValueStr) && UiValue == old(UiValue)
    {
      if now < FsmTimerExpirationTime {
        return;
      }
      FsmTimerExpirationTime := AddU32(FsmTimerExpirationTime, 1000);
      var m := StatePoll(Machine(), DataValue, now);
      StatePollValid(Machine(), DataValue, now);
      SetMachine(m);
    }
  }

  // ---------------------------------------------------------------------
  // Properties
  // ---------------------------------------------------------------------

  /** set accepts exactly "0", "off", "1" and "on". */
  lemma SetWords(value: string)
    ensures ParseSwitch(value).Some? <==> value in {"0", "off", "1", "on"}
    ensures ParseSwitch(value) == Some(true) <==> value in {"1", "on"}
  {
  }

  /** The clock keeps seconds and minutes below 60 and hours below 100, and
      each tick moves it on by one second, wrapping at 100 hours. */
  lemma ClockTicks(c: Clock)
    requires ClockValid(c)
    ensures ClockValid(TickClock(c))
    ensures TotalSeconds(TickClock(c)) == if TotalSeconds(c) + 1 == 100 * 3600 then 0 else TotalSeconds(c) + 1
  {
    var h, m, s := c.hours as nat, c.minutes as nat, c.seconds as nat;
    assert h * 3600 <= 99 * 3600 && m * 60 <= 59 * 60;
    if s + 1 < 60 {
      assert TotalSeconds(c) + 1 < 360000;
    } else if m + 1 < 60 {
      assert TotalSeconds(TickClock(c)) == h * 3600 + (m + 1) * 60;
      assert TotalSeconds(c) + 1 == h * 3600 + (m + 1) * 60 < 360000;
    } else if h + 1 < 100 {
      assert TotalSeconds(TickClock(c)) == (h + 1) * 3600;
      assert TotalSeconds(c) + 1 == (h + 1) * 3600 < 360000;
    } else {
      assert TotalSeconds(c) + 1 == 360000;
    }
  }

  /** The clock is printed before the seconds wrap, so a minute boundary
      is shown as 60 seconds. */
  lemma SixtySecondsShown(c: Clock, freq: nat)
    requires ClockValid(c) && c.seconds == 59
    ensures RdsTimeText(c, freq) ==
      AUDIO_TEST_STR + "[ " + Pad2(c.hours as nat) + ":" + Pad2(c.minutes as nat) + ":60 ]<br>" + ToneMessage(freq)
    ensures TickClock(c).seconds == 0
  {
    assert Pad2(60) == "60";
  }

  /** Idle starts sending when test mode is on and stays otherwise;
      SendingTone goes back to Idle, with the tone off, when it is off. */
  lemma Transitions(m: ToneMachine, enabled: bool, now: uint32)
    requires ClockValid(m.clock) && CursorValid(m)
    ensures var r := StatePoll(m, enabled, now);
      (m.state == Idle ==> (r.state == SendingTone <==> enabled))
      && (m.state == SendingTone ==> (r.state == Idle <==> !enabled))
      && (m.state == SendingTone && !enabled ==> r.playing == 0)
      && (m.state == Idle && enabled ==> r.cursor == 0 && TotalSeconds(r.clock) == 0)
  {
  }

  /** A poll keeps the clock and the tone cursor valid. */
  lemma StatePollValid(m: ToneMachine, enabled: bool, now: uint32)
    requires ClockValid(m.clock) && CursorValid(m)
    ensures ClockValid(StatePoll(m, enabled, now).clock) && CursorValid(StatePoll(m, enabled, now))
  {
    if m.state == SendingTone && enabled {
      ClockTicks(m.clock);
    }
  }

  /** When the tone time is up, the tone under the cursor is played and the
      cursor moves to the next one, wrapping back to the start of the list. */
  lemma ToneCycles(m: ToneMachine, now: uint32)
    requires ClockValid(m.clock) && CursorValid(m) && m.state == SendingTone
    requires now >= m.toneExpiration
    ensures var r := StatePoll(m, true, now);
      r.playing == ToneList[m.cursor]
      && r.cursor == (m.cursor + 1) % |ToneList|
      && r.toneExpiration == AddU32(m.toneExpiration, TEST_TONE_TIME)
  {
  }
}
