// The serial command controller's baud-rate setting.  A label chosen in the
// UI selects one of four rates and enables the controller, "OFF" disables
// it and returns the port to the default log rate, and anything else is
// refused and disables it.  The serial port itself is modelled by the list
// of rates it has been (re)opened at.
module ControllerSerial {
  import opened Ints
  import opened ArduinoString

  const SERIAL_OFF_STR: string := "OFF"
  const SERIAL_096_STR: string := "9600 Baud"
  const SERIAL_192_STR: string := "19.2K Baud"
  const SERIAL_576_STR: string := "57.6K Baud"
  const SERIAL_115_STR: string := "115.2K Baud"
  const SERIAL_DEF_STR: string := SERIAL_115_STR
  /** Default rate of the serial log port. */
  const ESP_BAUD_DEF: uint32 := 115200

  /** The rate a label enabling the controller selects; None for "OFF" and
      for anything that is not a label. */
  function RateOf(name: string): Option<uint32>
  {
    if name == SERIAL_096_STR then Some(9600)
    else if name == SERIAL_192_STR then Some(19200)
    else if name == SERIAL_576_STR then Some(57600)
    else if name == SERIAL_115_STR then Some(115200)
    else None
  }

  /** The label shown for one of the four selectable rates. */
  function LabelOf(rate: uint32): string
  {
    if rate == 9600 then SERIAL_096_STR
    else if rate == 19200 then SERIAL_192_STR
    else if rate == 57600 then SERIAL_576_STR
    else SERIAL_115_STR
  }

  predicate Selectable(rate: uint32)
  {
    rate == 9600 || rate == 19200 || rate == 57600 || rate == 115200
  }

  /** Controller enable flag, label, rate, and the rates the port was opened at. */
  datatype SerialState = SerialState(enabled: bool, rateStr: string, rate: uint32, openings: seq<uint32>)

  /** The port is closed and begun again at the new rate when the rate
      changed and the controller is left enabled. */
  function Reopened(before: SerialState, after: SerialState): SerialState
  {
    if before.rate != after.rate && after.enabled then after.(openings := after.openings + [after.rate])
    else after
  }

  /** SetBaudrate: the verdict and the state afterwards. */
  function BaudrateSet(s: SerialState, NewRate: string): (bool, SerialState)
  {
    if NewRate == SERIAL_OFF_STR then
      (true, Reopened(s, s.(enabled := false, rateStr := SERIAL_OFF_STR, rate := ESP_BAUD_DEF)))
    else match RateOf(NewRate)
      case Some(rate) => (true, Reopened(s, s.(enabled := true, rateStr := NewRate, rate := rate)))
      case None => (false, Reopened(s, s.(enabled := false)))
  }

  class ControllerSerial {
    var ControllerEnabled: bool
    var BaudRateStr: string
    var BaudRate: uint32
    /** The rates the serial port has been begun at, oldest first. */
    var PortOpenings: seq<uint32>
    var SaveWarning: bool

    function State(): SerialState
      reads this
    {
      SerialState(ControllerEnabled, BaudRateStr, BaudRate, PortOpenings)
    }

    constructor(enabled: bool, openings: seq<uint32>)
      ensures State() == SerialState(enabled, SERIAL_DEF_STR, 0, openings) && !SaveWarning
    {
      ControllerEnabled := enabled;
      BaudRateStr := SERIAL_DEF_STR;
      BaudRate := 0;
      PortOpenings := openings;
      SaveWarning := false;
    }

    method SetBaudrate(NewRate: string) returns (Response: bool)
      modifies this`ControllerEnabled, this`BaudRateStr, this`BaudRate, this`PortOpenings
      ensures (Response, State()) == BaudrateSet(old(State()), NewRate)
    {
      Response := true;
      var OriginalBaudrate := BaudRate;
      if NewRate == SERIAL_OFF_STR {
        ControllerEnabled := false;
        BaudRateStr := SERIAL_OFF_STR;
        BaudRate := ESP_BAUD_DEF;
      } else if NewRate == SERIAL_096_STR {
        ControllerEnabled := true;
        BaudRateStr := SERIAL_096_STR;
        BaudRate := 9600;
      } else if NewRate == SERIAL_192_STR {
        ControllerEnabled := true;
        BaudRateStr := SERIAL_192_STR;
        BaudRate := 19200;
      } else if NewRate == SERIAL_576_STR {
        ControllerEnabled := true;
        BaudRateStr := SERIAL_576_STR;
        BaudRate := 57600;
      } else if NewRate == SERIAL_115_STR {
        ControllerEnabled := true;
        BaudRateStr := SERIAL_115_STR;
        BaudRate := 115200;
      } else {
        Response := false;
        ControllerEnabled := false;
      }
      if OriginalBaudrate != BaudRate && ControllerEnabled {
        PortOpenings := PortOpenings + [BaudRate];
      }
    }

    /** serialCallback: a value from the controller's own selector is
        applied; afterwards the port is begun again whenever the rate
        changed and is not zero, and the save warning is shown. */
    method Callback(fromSelector: bool, value: string)
      modifies this
      ensures var mid := if fromSelector then BaudrateSet(old(State()), value).1 else old(State());
        State() == (if mid.rate != old(BaudRate) && mid.rate != 0 then mid.(openings := mid.openings + [mid.rate]) else mid)
      ensures SaveWarning
    {
      var OriginalBaudrate := BaudRate;
      if fromSelector {
        var ok := SetBaudrate(value);
      }
      if OriginalBaudrate != BaudRate && 0 != BaudRate {
        PortOpenings := PortOpenings + [BaudRate];
      }
      SaveWarning := true;
    }
  }

  /** Each of the four labels selects its rate and enables the controller;
      "OFF" disables it at the default rate; every other value is refused,
      disables the controller, and keeps the rate and its label. */
  lemma SetRules(s: SerialState, NewRate: string)
    ensures var (ok, t) := BaudrateSet(s, NewRate);
      && (NewRate == SERIAL_096_STR ==> ok && t.enabled && t.rate == 9600 && t.rateStr == NewRate)
      && (NewRate == SERIAL_192_STR ==> ok && t.enabled && t.rate == 19200 && t.rateStr == NewRate)
      && (NewRate == SERIAL_576_STR ==> ok && t.enabled && t.rate == 57600 && t.rateStr == NewRate)
      && (NewRate == SERIAL_115_STR ==> ok && t.enabled && t.rate == 115200 && t.rateStr == NewRate)
      && (NewRate == SERIAL_OFF_STR ==> ok && !t.enabled && t.rate == ESP_BAUD_DEF && t.rateStr == SERIAL_OFF_STR)
      && (ok <==> (NewRate == SERIAL_OFF_STR || RateOf(NewRate).Some?))
      && (!ok ==> !t.enabled && t.rate == s.rate && t.rateStr == s.rateStr && t.openings == s.openings)
  {
  }

  /** The controller ends up enabled exactly when a rate label was chosen,
      and then at a selectable rate. */
  lemma EnabledIffRateLabel(s: SerialState, NewRate: string)
    ensures var t := BaudrateSet(s, NewRate).1;
      (t.enabled <==> RateOf(NewRate).Some?) && (t.enabled ==> Selectable(t.rate))
  {
  }

  /** The port is begun again, at the new rate, exactly when the rate
      changed and the controller is enabled; otherwise it is left alone. */
  lemma ReopenRule(s: SerialState, NewRate: string)
    ensures var t := BaudrateSet(s, NewRate).1;
      && (t.openings == s.openings + [t.rate] <==> (t.rate != s.rate && t.enabled))
      && (t.openings == s.openings <==> !(t.rate != s.rate && t.enabled))
  {
  }

  /** The label of a selectable rate selects that rate again, and the label
      a rate selection stores reads back as that rate. */
  lemma LabelRoundTrip(rate: uint32, name: string)
    ensures Selectable(rate) ==> RateOf(LabelOf(rate)) == Some(rate)
    ensures RateOf(name).Some? ==> LabelOf(RateOf(name).value) == name
  {
  }

  /** Choosing the same label twice changes nothing the second time and
      does not reopen the port. */
  lemma SetIdempotent(s: SerialState, NewRate: string)
    ensures var t := BaudrateSet(s, NewRate).1;
      BaudrateSet(t, NewRate) == (BaudrateSet(s, NewRate).0, t)
  {
  }
}
