// The payload handlers shared by the serial, MQTT and HTTP controllers.
// Each handler cuts its payload to the command's length limit (the caller's
// String is changed in place, so the cut payload is part of the result),
// then accepts or rejects it.  Log lines and UI updates are not modelled.
// The result records the value a handler computes (a frequency, a pin
// level, a mute or carrier state, a display time).  Most handlers only show
// it in the UI: the calls that would pass it on to the radio or to the
// controllers are commented out in the firmware, so nothing further happens
// with it here either.
module Commands {
  import opened Ints
  import opened ArduinoString
  import Misc

  /** Length limits of the payloads.  CMD_GPIO_MAX_SZ, CMD_SYS_MAX_SZ and
      CMD_TIME_MAX_SZ are the firmware's; the others come from a header that
      is not part of this model and are the lengths of the longest valid
      payload ("1079", "off", "0xffff", "rds"). */
  const CMD_FREQ_MAX_SZ: nat := 4
  const CMD_GPIO_MAX_SZ: nat := 7
  const CMD_SYS_MAX_SZ: nat := 6
  const CMD_TIME_MAX_SZ: nat := 4
  const CMD_MUTE_MAX_SZ: nat := 3
  const CMD_RF_MAX_SZ: nat := 3
  const CMD_PI_MAX_SZ: nat := 6
  const CMD_RDS_MAX_SZ: nat := 3
  const CMD_RT_MAX_SZ: nat := 64
  const CMD_PTY_MAX_SZ: nat := 2
  const CMD_PSN_MAX_SZ: nat := 8
  const CMD_LOG_MAX_SZ: nat := 7

  /** FM band in tenths of a MHz. */
  const FM_FREQ_MIN_X10: int := 881
  const FM_FREQ_MAX_X10: int := 1079

  /** RadioText display time in seconds ("5-900"). */
  const RDS_DSP_TM_MIN: int := 5
  const RDS_DSP_TM_MAX: int := 900

  /** Programme type range (the five-bit PTY field of an RDS group). */
  const RDS_PTY_CODE_MIN: int := 0
  const RDS_PTY_CODE_MAX: int := 31

  /** PI code range. */
  const RDS_PI_CODE_MIN: int := 0x00FF
  const RDS_PI_CODE_MAX: int := 0xFFFF

  /** What a handler returns: its boolean result, the payload after the cut,
      and the value it hands on when it accepts. */
  datatype Outcome<T> = Outcome(ok: bool, payload: string, value: Option<T>)

  /** Cuts the payload as `payloadStr.substring(0, n)` does when it is longer
      than n. */
  function Cut(payloadStr: string, n: nat): string
  {
    if |payloadStr| > n then Substring(payloadStr, 0, n) else payloadStr
  }

  lemma CutIsTruncate(payloadStr: string, n: nat)
    ensures Cut(payloadStr, n) == Truncate(payloadStr, n)
  {
  }

  /** audioMode: "stereo" or "mono"; the value is the stereo flag. */
  function AudioMode(payloadStr: string): (r: Outcome<bool>)
  {
    if payloadStr == "stereo" then Outcome(true, payloadStr, Some(true))
    else if payloadStr == "mono" then Outcome(true, payloadStr, Some(false))
    else Outcome(false, payloadStr, None)
  }

  lemma AudioModeAccepts(payloadStr: string)
    ensures AudioMode(payloadStr).ok <==> payloadStr == "stereo" || payloadStr == "mono"
    ensures AudioMode(payloadStr).ok ==> AudioMode(payloadStr).value == Some(payloadStr == "stereo")
    ensures AudioMode(payloadStr).payload == payloadStr
  {
  }

  /** frequency: the cut payload must be an unsigned decimal number in the FM
      band; the value is the frequency in tenths of a MHz. */
  function Frequency(payloadStr: string): (r: Outcome<int>)
    ensures r.ok ==> r.value.Some? && FM_FREQ_MIN_X10 <= r.value.value <= FM_FREQ_MAX_X10
    ensures r.payload == Truncate(payloadStr, CMD_FREQ_MAX_SZ)
  {
    var p := Cut(payloadStr, CMD_FREQ_MAX_SZ);
    var freq := ToInt(p);
    if Misc.StrIsUintResult(p) != Some(true) || freq < FM_FREQ_MIN_X10 || freq > FM_FREQ_MAX_X10 then
      Outcome(false, p, None)
    else
      Outcome(true, p, Some(freq as int))
  }

  /** frequency accepts exactly the cut payloads made of digits only whose
      value is in the band. */
  lemma FrequencyAccepts(payloadStr: string)
    ensures var p := Truncate(payloadStr, CMD_FREQ_MAX_SZ);
      Frequency(payloadStr).ok <==>
        |p| > 0 && (forall j :: 0 <= j < |p| ==> IsDigit(p[j]))
        && FM_FREQ_MIN_X10 <= ToInt(p) <= FM_FREQ_MAX_X10
  {
    var p := Truncate(payloadStr, CMD_FREQ_MAX_SZ);
    Misc.StrIsUintDigits(p);
  }

  /** Every frequency of the band, written in decimal, is accepted as itself. */
  lemma FrequencyRoundTrip(n: nat)
    requires FM_FREQ_MIN_X10 <= n <= FM_FREQ_MAX_X10
    ensures Frequency(DecString(n)) == Outcome(true, DecString(n), Some(n))
  {
    DecStringRoundTrip(n);
    DecStringWithin(n, 4);
    Misc.StrIsUintDigits(DecString(n));
  }

  /** b to the power k. */
  function Power(b: nat, k: nat): nat
  {
    if k == 0 then 1 else b * Power(b, k - 1)
  }

  /** A number below 10^k prints in at most k decimal digits. */
  lemma {:induction false} DecStringWithin(n: nat, k: nat)
    requires 1 <= k && n < Power(10, k)
    ensures |DecString(n)| <= k
  {
    if n >= 10 {
      if k == 1 {
        assert false;
      }
      var q := n / 10;
      assert n == 10 * q + n % 10;
      DecStringWithin(q, k - 1);
    }
  }

  /** A number below 16^k prints in at most k hex digits. */
  lemma {:induction false} HexStringWithin(n: nat, k: nat)
    requires 1 <= k && n < Power(16, k)
    ensures |HexString(n)| <= k
  {
    if n >= 16 {
      if k == 1 {
        assert false;
      }
      var q := n / 16;
      assert n == 16 * q + n % 16;
      HexStringWithin(q, k - 1);
    }
  }

  /** The pin action a gpio payload asks for. */
  datatype PinAction = ReadPin | WritePin(high: bool)

  /** gpio: "read" only reads the pin, "outhigh"/"outlow" write it, anything
      else is rejected. */
  function Gpio(payloadStr: string): (r: Outcome<PinAction>)
    ensures r.payload == Truncate(payloadStr, CMD_GPIO_MAX_SZ)
  {
    var p := Cut(payloadStr, CMD_GPIO_MAX_SZ);
    if p == "read" then Outcome(true, p, Some(ReadPin))
    else if p != "outhigh" && p != "outlow" then Outcome(false, p, None)
    else Outcome(true, p, Some(WritePin(p == "outhigh")))
  }

  lemma GpioAccepts(payloadStr: string)
    ensures var p := Truncate(payloadStr, CMD_GPIO_MAX_SZ); var r := Gpio(payloadStr);
      && (r.ok <==> p == "read" || p == "outhigh" || p == "outlow")
      && (r.value == Some(ReadPin) <==> p == "read")
      && (r.value == Some(WritePin(true)) <==> p == "outhigh")
      && (r.value == Some(WritePin(false)) <==> p == "outlow")
  {
  }

  /** info: false exactly when the cut payload is "system". */
  function Info(payloadStr: string): (r: Outcome<bool>)
    ensures r.payload == Truncate(payloadStr, CMD_SYS_MAX_SZ)
  {
    var p := Cut(payloadStr, CMD_SYS_MAX_SZ);
    Outcome(p != "system", p, None)
  }

  /** Because of the cut, every payload that starts with "system" is refused,
      and every other payload is accepted. */
  lemma InfoRejectsSystem(payloadStr: string)
    ensures !Info(payloadStr).ok <==> StartsWith(payloadStr, "system")
  {
    if StartsWith(payloadStr, "system") {
      assert Truncate(payloadStr, CMD_SYS_MAX_SZ) == payloadStr[..6];
    }
  }

  /** A command with an on/off payload: the value is true for "on". */
  function OnOff(payloadStr: string, maxSize: nat): (r: Outcome<bool>)
    ensures r.payload == Truncate(payloadStr, maxSize)
  {
    var p := Cut(payloadStr, maxSize);
    if p == "on" then Outcome(true, p, Some(true))
    else if p == "off" then Outcome(true, p, Some(false))
    else Outcome(false, p, None)
  }

  /** mute: "on" or "off"; the value records which, and the UI mute
      indicator is updated with it. */
  function Mute(payloadStr: string): (r: Outcome<bool>)
    ensures r.ok <==> r.payload == "on" || r.payload == "off"
    ensures r.ok ==> r.value == Some(r.payload == "on")
  {
    OnOff(payloadStr, CMD_MUTE_MAX_SZ)
  }

  /** rfCarrier: "on" or "off"; the value records which.  The firmware only
      refreshes the UI: its call that would switch the carrier is commented
      out. */
  function RfCarrier(payloadStr: string): (r: Outcome<bool>)
    ensures r.ok <==> r.payload == "on" || r.payload == "off"
    ensures r.ok ==> r.value == Some(r.payload == "on")
  {
    OnOff(payloadStr, CMD_RF_MAX_SZ)
  }

  /** mute accepts a payload exactly when it is "on" or "off" (a longer one
      is cut to three characters first, so "offx" is also accepted). */
  lemma MuteAccepts(payloadStr: string)
    ensures Mute(payloadStr).ok <==> payloadStr == "on" || (|payloadStr| >= 3 && payloadStr[..3] == "off")
  {
    var p := Truncate(payloadStr, CMD_MUTE_MAX_SZ);
    if |payloadStr| >= 3 {
      assert p == payloadStr[..3];
      if payloadStr == "on" { assert false; }
    }
  }

  /** piCode: strtol in base 16 of the cut payload, stored in a uint32_t, must
      lie in [0x00FF, 0xFFFF]; the value is the code. */
  function PiCode(payloadStr: string): (r: Outcome<uint32>)
    ensures r.ok <==> RDS_PI_CODE_MIN <= ToU32(Strtol(r.payload, 16)) <= RDS_PI_CODE_MAX
    ensures r.ok ==> r.value == Some(ToU32(Strtol(r.payload, 16)))
    ensures r.payload == Truncate(payloadStr, CMD_PI_MAX_SZ)
  {
    var p := Cut(payloadStr, CMD_PI_MAX_SZ);
    var tempPiCode := ToU32(Strtol(p, 16));
    if tempPiCode < RDS_PI_CODE_MIN || tempPiCode > RDS_PI_CODE_MAX then Outcome(false, p, None)
    else Outcome(true, p, Some(tempPiCode))
  }

  /** A negative number wraps to a large uint32_t and is refused. */
  lemma PiCodeRejectsNegative(payloadStr: string)
    requires Strtol(Truncate(payloadStr, CMD_PI_MAX_SZ), 16) < 0
    ensures !PiCode(payloadStr).ok
  {
  }

  /** Every valid code written as "0x" and hex digits is accepted as itself. */
  lemma PiCodeRoundTrip(n: nat)
    requires RDS_PI_CODE_MIN <= n <= RDS_PI_CODE_MAX
    ensures PiCode("0x" + HexString(n)) == Outcome(true, "0x" + HexString(n), Some(n))
  {
    var p := "0x" + HexString(n);
    HexStringRoundTrip(n);
    HexStringWithin(n, 4);
    assert Cut(p, CMD_PI_MAX_SZ) == p;
    assert ToU32(Strtol(p, 16)) == n;
  }

  /** rdsTimePeriod: the payload is cut to CMD_RT_MAX_SZ, and it is refused
      when it is still longer than CMD_TIME_MAX_SZ or its strtol value is not
      positive; otherwise the value is clamped into [RDS_DSP_TM_MIN,
      RDS_DSP_TM_MAX] seconds. */
  function RdsTimePeriod(payloadStr: string): (r: Outcome<int>)
    ensures r.payload == Truncate(payloadStr, CMD_RT_MAX_SZ)
  {
    var p := Cut(payloadStr, CMD_RT_MAX_SZ);
    var rtTime := Strtol(p, 10) as int;
    if |p| > CMD_TIME_MAX_SZ || rtTime <= 0 then Outcome(false, p, None)
    else if rtTime > RDS_DSP_TM_MAX then Outcome(true, p, Some(RDS_DSP_TM_MAX))
    else if rtTime < RDS_DSP_TM_MIN then Outcome(true, p, Some(RDS_DSP_TM_MIN))
    else Outcome(true, p, Some(rtTime))
  }

  /** Accepted exactly for short payloads with a positive value, which is
      then clamped into the display-time range and kept when inside it. */
  lemma RdsTimePeriodClamps(payloadStr: string)
    ensures var r := RdsTimePeriod(payloadStr); var v := Strtol(r.payload, 10) as int;
      && (r.ok <==> |payloadStr| <= CMD_TIME_MAX_SZ && v > 0)
      && (r.ok ==> r.value == Some(Max(RDS_DSP_TM_MIN, Min(v, RDS_DSP_TM_MAX))))
      && (r.ok && RDS_DSP_TM_MIN <= v <= RDS_DSP_TM_MAX ==> r.value == Some(v))
  {
  }

  /** reboot: accepted exactly when the cut payload is "system". */
  function Reboot(payloadStr: string): (r: Outcome<bool>)
    ensures r.ok <==> r.payload == "system"
    ensures r.payload == Truncate(payloadStr, CMD_SYS_MAX_SZ)
  {
    var p := Cut(payloadStr, CMD_SYS_MAX_SZ);
    Outcome(p == "system", p, None)
  }

  /** start: accepted exactly when the cut payload is "rds". */
  function Start(payloadStr: string): (r: Outcome<bool>)
    ensures r.ok <==> r.payload == "rds"
    ensures r.payload == Truncate(payloadStr, CMD_RDS_MAX_SZ)
  {
    var p := Cut(payloadStr, CMD_RDS_MAX_SZ);
    Outcome(p == "rds", p, None)
  }

  /** stop: logs whether the cut payload is "rds" but returns true either way;
      the value records whether it was.  The call that would raise the stop
      flag is commented out, so nothing is stopped. */
  function Stop(payloadStr: string): (r: Outcome<bool>)
    ensures r.ok
    ensures r.value == Some(r.payload == "rds")
    ensures r.payload == Truncate(payloadStr, CMD_RDS_MAX_SZ)
  {
    var p := Cut(payloadStr, CMD_RDS_MAX_SZ);
    Outcome(true, p, Some(p == "rds"))
  }

  /** The serial log level a log payload asks for. */
  datatype LogLevel = Silent | Restore

  /** log: "silent" or "restore" after the cut; anything else is refused. */
  function Log(payloadStr: string): (r: Outcome<LogLevel>)
    ensures r.payload == Truncate(payloadStr, CMD_LOG_MAX_SZ)
    ensures r.ok <==> r.payload == "silent" || r.payload == "restore"
    ensures r.ok ==> r.value == Some(if r.payload == "silent" then Silent else Restore)
  {
    var p := Cut(payloadStr, CMD_LOG_MAX_SZ);
    if p == "silent" then Outcome(true, p, Some(Silent))
    else if p == "restore" then Outcome(true, p, Some(Restore))
    else Outcome(false, p, None)
  }

  /** ptyCode: toInt of the cut payload, stored in a uint32_t, must lie in
      the programme type range; the value is the code. */
  function PtyCode(payloadStr: string): (r: Outcome<uint32>)
    ensures r.payload == Truncate(payloadStr, CMD_PTY_MAX_SZ)
  {
    var p := Cut(payloadStr, CMD_PTY_MAX_SZ);
    var tempPtyCode := ToU32(ToInt(p));
    if tempPtyCode < RDS_PTY_CODE_MIN || tempPtyCode > RDS_PTY_CODE_MAX then Outcome(false, p, None)
    else Outcome(true, p, Some(tempPtyCode))
  }

  /** Every programme type written in decimal is accepted as itself. */
  lemma PtyCodeRoundTrip(n: nat)
    requires n <= RDS_PTY_CODE_MAX
    ensures PtyCode(DecString(n)) == Outcome(true, DecString(n), Some(n))
  {
    DecStringRoundTrip(n);
    DecStringWithin(n, 2);
  }

  /** A negative number wraps to a large uint32_t and is refused; an accepted
      code is the value of the cut payload. */
  lemma PtyCodeAccepts(payloadStr: string)
    ensures var v := ToInt(Truncate(payloadStr, CMD_PTY_MAX_SZ)) as int;
      && (PtyCode(payloadStr).ok <==> RDS_PTY_CODE_MIN <= v <= RDS_PTY_CODE_MAX)
      && (PtyCode(payloadStr).ok ==> PtyCode(payloadStr).value == Some(v))
  {
  }

  /** programServiceName and radioText only cut the payload and always
      succeed. */
  function ProgramServiceName(payloadStr: string): (r: Outcome<string>)
    ensures r.ok && r.value == Some(r.payload)
    ensures |r.payload| <= CMD_PSN_MAX_SZ && |r.payload| <= |payloadStr| && r.payload == payloadStr[..|r.payload|]
    ensures |payloadStr| <= CMD_PSN_MAX_SZ ==> r.payload == payloadStr
  {
    var p := Cut(payloadStr, CMD_PSN_MAX_SZ);
    Outcome(true, p, Some(p))
  }

  function RadioText(payloadStr: string): (r: Outcome<string>)
    ensures r.ok && r.value == Some(r.payload)
    ensures |r.payload| <= CMD_RT_MAX_SZ && |r.payload| <= |payloadStr| && r.payload == payloadStr[..|r.payload|]
    ensures |payloadStr| <= CMD_RT_MAX_SZ ==> r.payload == payloadStr
  {
    var p := Cut(payloadStr, CMD_RT_MAX_SZ);
    Outcome(true, p, Some(p))
  }

  /** The commands ProcessCommand recognises. */
  datatype Handler = Aud | Freq | Gpio19 | Gpio23 | Gpio33 | MuteCmd | Pic | RtPer | Psn | Pty
                   | Rfc | Rtm | StartCmd | StopCmd

  /** The do-once chain of ProcessCommand, as a lookup of the command name. */
  function HandlerOf(cmd: string): (h: Option<Handler>)
  {
    if cmd == "aud" then Some(Aud)
    else if cmd == "freq" then Some(Freq)
    else if cmd == "gpio19" then Some(Gpio19)
    else if cmd == "gpio23" then Some(Gpio23)
    else if cmd == "gpio33" then Some(Gpio33)
    else if cmd == "mute" then Some(MuteCmd)
    else if cmd == "pic" then Some(Pic)
    else if cmd == "rtper" then Some(RtPer)
    else if cmd == "psn" then Some(Psn)
    else if cmd == "pty" then Some(Pty)
    else if cmd == "rfc" then Some(Rfc)
    else if cmd == "rtm" then Some(Rtm)
    else if cmd == "start" then Some(StartCmd)
    else if cmd == "stop" then Some(StopCmd)
    else None
  }

  /** ProcessCommand(RawCommand, ControllerName): the command and payload it
      dispatches on are fresh, empty Strings that RawCommand never reaches, so
      no handler runs and the result is false whatever the input. */
  function ProcessCommand(RawCommand: string, ControllerName: string): (response: bool)
    ensures !response
  {
    var cmd := "";
    var payloadStr := ToLower(Trim(""));
    // The empty command matches none of the fourteen names, so the loop
    // body falls through with the response still false.
    assert HandlerOf(cmd).None?;
    false
  }
}
