// The RadioText control of the home tab.  Once a second (and never while the
// test tone is on) it checks whether the message on air has run its time;
// if so it asks the controllers for the next message, sends its text to the
// transmitter if it differs from the text last sent, and shows a countdown
// of the seconds left.  The clock, the test-tone and carrier switches and the
// message the controllers hand out are parameters.
module RdsText {
  import opened Ints
  import opened ArduinoString

  const HOME_RDS_WAIT_STR: string := "Waiting for RDS RadioText ..."
  const RDS_RF_DISABLED_STR: string := "{ RADIO CARRIER OFF }"
  const RDS_DISABLED_STR: string := "{ DISABLED }"
  const RDS_EXPIRED_STR: string := "{ EXPIRED }"
  const TestModeStr: string := "Test Mode"
  const UpdateIntervalMs: uint32 := 1000

  /** The message the controller manager hands out: text, time on air and
      the controller it came from.  A duration of 0 means none. */
  datatype MsgInfo = MsgInfo(Text: string, DurationMilliSec: uint32, ControllerName: string)

  /** Everything poll changes, including what the three labels show. */
  datatype RdsState = RdsState(
    info: MsgInfo, endTime: uint32, lastUpdate: uint32, lastSent: string,
    radioText: string, controlText: string, statusText: string, timerText: string)

  /** The seconds left, rounded up: ((end - now) + 999) / 1000 in
      uint32_t. */
  function RemainingSeconds(endTime: uint32, now: uint32): uint32
  {
    AddU32(SubU32(endTime, now), 999) / 1000
  }

  /** updateRdsMsgRemainingTime: test mode, no carrier, no message and an
      expired message are reported in that order; otherwise the seconds
      left. */
  function RemainingText(testTone: bool, carrier: bool, info: MsgInfo, endTime: uint32, now: uint32): string
  {
    if testTone then TestModeStr
    else if !carrier then RDS_DISABLED_STR
    else if info.DurationMilliSec == 0 then HOME_RDS_WAIT_STR
    else if now > endTime then RDS_EXPIRED_STR
    else DecString(RemainingSeconds(endTime, now)) + " Secs"
  }

  /** UpdateStatus: the text label and the status line. */
  function WithStatus(s: RdsState, testTone: bool, carrier: bool): RdsState
  {
    if testTone then s.(controlText := s.lastSent, statusText := "")
    else s.(controlText := if carrier then s.lastSent else RDS_RF_DISABLED_STR,
            statusText := if s.info.DurationMilliSec != 0 then "Controller: " + s.info.ControllerName
                          else HOME_RDS_WAIT_STR)
  }

  /** set: the text is remembered as sent and goes to the transmitter. */
  function Sent(s: RdsState, value: string, testTone: bool, carrier: bool): RdsState
  {
    WithStatus(s.(lastSent := value, radioText := value), testTone, carrier)
  }

  /** poll at time now. */
  function PollStep(s: RdsState, now: uint32, testTone: bool, carrier: bool, next: MsgInfo): (r: RdsState)
  {
    if testTone then s
    else if UpdateIntervalMs > SubU32(now, s.lastUpdate) then s
    else
      var s1 := WithStatus(s.(lastUpdate := now), testTone, carrier);
      if now < s1.endTime then s1.(timerText := RemainingText(testTone, carrier, s1.info, s1.endTime, now))
      else
        var s2 := s1.(info := next, endTime := AddU32(now, next.DurationMilliSec));
        var s3 := if s2.lastSent != next.Text then Sent(s2, next.Text, testTone, carrier) else s2;
        s3.(timerText := RemainingText(testTone, carrier, s3.info, s3.endTime, now))
  }

  class RdsText {
    var RdsMsgInfo: MsgInfo
    var CurrentMsgEndTime: uint32
    var CurrentMsgLastUpdateTime: uint32
    var LastMessageSent: string
    /** The text last sent to the transmitter. */
    var RadioText: string
    var ControlText: string
    var StatusText: string
    var TimerText: string

    function State(): RdsState
      reads this
    {
      RdsState(RdsMsgInfo, CurrentMsgEndTime, CurrentMsgLastUpdateTime, LastMessageSent,
               RadioText, ControlText, StatusText, TimerText)
    }

    constructor()
      ensures State() == RdsState(MsgInfo("", 0, ""), 0, 0, "", "", "", "", "")
    {
      RdsMsgInfo := MsgInfo("", 0, "");
      CurrentMsgEndTime, CurrentMsgLastUpdateTime := 0, 0;
      LastMessageSent, RadioText := "", "";
      ControlText, StatusText, TimerText := "", "", "";
    }

    method SetState(s: RdsState)
      modifies this
      ensures State() == s
    {
      RdsMsgInfo, CurrentMsgEndTime, CurrentMsgLastUpdateTime := s.info, s.endTime, s.lastUpdate;
      LastMessageSent, RadioText := s.lastSent, s.radioText;
      ControlText, StatusText, TimerText := s.controlText, s.statusText, s.timerText;
    }

    /** set(value): always succeeds. */
    method Set(value: string, testTone: bool, carrier: bool) returns (ok: bool)
      modifies this
      ensures ok && State() == Sent(old(State()), value, testTone, carrier)
    {
      SetState(Sent(State(), value, testTone, carrier));
      ok := true;
    }

    method Poll(now: uint32, testTone: bool, carrier: bool, next: MsgInfo)
      modifies this
      ensures State() == PollStep(old(State()), now, testTone, carrier, next)
    {
      SetState(PollStep(State(), now, testTone, carrier, next));
    }
  }

  // ---------------------------------------------------------------------
  // Properties
  // ---------------------------------------------------------------------

  /** poll does nothing while the test tone is on, nor within a second of
      its last update. */
  lemma PollGated(s: RdsState, now: uint32, testTone: bool, carrier: bool, next: MsgInfo)
    requires testTone || SubU32(now, s.lastUpdate) < 1000
    ensures PollStep(s, now, testTone, carrier, next) == s
  {
  }

  /** When poll acts, it records the time, and a new message is fetched
      only once the current one has run its time; its end is now plus its
      duration. */
  lemma PollSchedules(s: RdsState, now: uint32, carrier: bool, next: MsgInfo)
    requires SubU32(now, s.lastUpdate) >= 1000
    ensures var r := PollStep(s, now, false, carrier, next);
      r.lastUpdate == now
      && (now < s.endTime ==> r.info == s.info && r.endTime == s.endTime
                              && r.lastSent == s.lastSent && r.radioText == s.radioText)
      && (now >= s.endTime ==> r.info == next && r.endTime == AddU32(now, next.DurationMilliSec))
  {
  }

  /** The transmitter is sent a text only when it differs from the text
      last sent, and then it is sent the new message's text. */
  lemma ResentOnlyOnChange(s: RdsState, now: uint32, testTone: bool, carrier: bool, next: MsgInfo)
    ensures var r := PollStep(s, now, testTone, carrier, next);
      ((r.radioText != s.radioText || r.lastSent != s.lastSent) ==>
        r.radioText == next.Text && r.lastSent == next.Text && s.lastSent != next.Text)
      && (s.lastSent == next.Text ==> r.radioText == s.radioText)
  {
  }

  /** The countdown is the time left in whole seconds, rounded up, as long
      as adding 999 does not wrap. */
  lemma RemainingRoundsUp(endTime: uint32, now: uint32)
    requires now <= endTime && endTime - now + 999 <= UINT32_MAX
    ensures var t := RemainingSeconds(endTime, now);
      t * 1000 >= endTime - now && (t == 0 || (t - 1) * 1000 < endTime - now)
  {
  }

  /** The countdown's checks come in order: test mode first, then the
      carrier, then a missing message, then expiry. */
  lemma RemainingOrder(info: MsgInfo, endTime: uint32, now: uint32, carrier: bool)
    ensures RemainingText(true, carrier, info, endTime, now) == TestModeStr
    ensures RemainingText(false, false, info, endTime, now) == RDS_DISABLED_STR
    ensures info.DurationMilliSec == 0 ==> RemainingText(false, true, info, endTime, now) == HOME_RDS_WAIT_STR
    ensures info.DurationMilliSec != 0 && now > endTime ==> RemainingText(false, true, info, endTime, now) == RDS_EXPIRED_STR
  {
  }
}
