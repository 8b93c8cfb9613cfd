// The WiFi driver's connection state machine.  Each state has an Init that
// makes it current (and may chain on to another state's Init), a Poll run
// once per poll interval, and OnConnect / OnDisconnect handlers for the WiFi
// events.  The settings the states read (SSID, AP fallback, AP reboot), the
// link status they test (station connected, stations joined to the AP) and
// the millisecond clock are parameters.
module WiFiDriver {
  import opened Ints

  datatype WiFiState =
    | Boot | ConnectingUsingConfig | ConnectingUsingDefaults | ConnectingAsAP
    | ConnectedToAP | ConnectedToSta | ConnectionFailed | Disabled

  /** The settings controls the states read. */
  datatype Settings = Settings(ssid: string, apFallback: bool, apReboot: bool)

  /** What WiFi.status() and WiFi.softAPgetStationNum() report. */
  datatype Link = Link(staConnected: bool, stationNum: nat)

  /** The driver fields the states change: the current state, the time the
      current connection attempt started, and the reported connection flag. */
  datatype Machine = Machine(state: WiFiState, startTime: uint32, connected: bool)

  /** Defaults of sta_timeout and ap_timeout, in seconds. */
  const CLIENT_TIMEOUT: uint32 := 500
  const AP_TIMEOUT: uint32 := 60
  const PollInterval: uint32 := 1000

  // ---------------------------------------------------------------------
  // The states' Init functions
  // ---------------------------------------------------------------------

  function InitBoot(m: Machine): Machine
  {
    m.(state := Boot)
  }

  function InitDefaults(m: Machine, now: uint32): Machine
  {
    m.(state := ConnectingUsingDefaults, startTime := now)
  }

  /** With no SSID configured the default credentials are tried at once. */
  function InitConfig(m: Machine, s: Settings, now: uint32): Machine
  {
    if s.ssid == "" then InitDefaults(m, now)
    else m.(state := ConnectingUsingConfig, startTime := now)
  }

  /** ConnectionFailed.Init as written: a set connection flag is cleared and
      nothing else happens; otherwise the driver starts over at Boot unless
      a reboot on failure is configured. */
  function InitFailed(m: Machine, s: Settings): Machine
  {
    var f := m.(state := ConnectionFailed);
    if m.connected then f.(connected := false)
    else if s.apReboot then f
    else InitBoot(f)
  }

  /** ConnectingAsAP.Init as written: the start time is left as it was. */
  function InitAsAP(m: Machine, s: Settings): Machine
  {
    if s.apFallback then m.(state := ConnectingAsAP)
    else InitFailed(m.(state := ConnectingAsAP), s)
  }

  function InitConnectedToAP(m: Machine): Machine
  {
    m.(state := ConnectedToAP, connected := true)
  }

  function InitConnectedToSta(m: Machine): Machine
  {
    m.(state := ConnectedToSta, connected := true)
  }

  function InitDisabled(m: Machine): Machine
  {
    m.(state := Disabled, connected := false)
  }

  /** `millis() - start > 1000 * timeout`, both sides in uint32_t. */
  predicate TimedOut(now: uint32, start: uint32, timeout: uint32)
  {
    SubU32(now, start) > ToU32(1000 * timeout)
  }

  // ---------------------------------------------------------------------
  // Poll and the WiFi events
  // ---------------------------------------------------------------------

  /** The current state's Poll. */
  function PollState(m: Machine, s: Settings, l: Link, now: uint32, sta: uint32, ap: uint32): Machine
  {
    match m.state
    case Boot => InitConfig(m, s, now)
    case ConnectingUsingConfig =>
      if !l.staConnected && TimedOut(now, m.startTime, sta) then InitDefaults(m, now) else m
    case ConnectingUsingDefaults =>
      if !l.staConnected && TimedOut(now, m.startTime, sta) then InitAsAP(m, s) else m
    case ConnectingAsAP =>
      if l.stationNum != 0 then InitConnectedToSta(m)
      else if TimedOut(now, m.startTime, ap) then InitFailed(m, s)
      else m
    case ConnectedToAP => m
    case ConnectedToSta => if l.stationNum == 0 then InitFailed(m, s) else m
    case ConnectionFailed => m
    case Disabled => m
  }

  /** The station got an IP address. */
  function OnConnect(m: Machine): Machine
  {
    match m.state
    case ConnectingUsingConfig => InitConnectedToAP(m)
    case ConnectingUsingDefaults => InitConnectedToAP(m)
    case ConnectingAsAP => InitConnectedToSta(m)
    case _ => m
  }

  /** The station lost its connection. */
  function OnDisconnect(m: Machine, s: Settings): Machine
  {
    match m.state
    case ConnectedToAP => InitFailed(m, s)
    case ConnectedToSta => InitFailed(m, s)
    case _ => m
  }

  /** ValidateConfig: too short timeouts are replaced by the defaults, and
      the number replaced is returned. */
  function ValidatedTimeouts(sta: uint32, ap: uint32): (r: (uint32, uint32, int))
    ensures r.0 >= 5 && r.1 >= 15
    ensures sta >= 5 ==> r.0 == sta
    ensures ap >= 15 ==> r.1 == ap
    ensures r.2 == (if sta < 5 then 1 else 0) + (if ap < 15 then 1 else 0)
  {
    (if sta < 5 then CLIENT_TIMEOUT else sta,
     if ap < 15 then AP_TIMEOUT else ap,
     (if sta < 5 then 1 else 0) + (if ap < 15 then 1 else 0))
  }

  class Driver {
    var FsmState: WiFiState
    var FsmTimerWiFiStartTime: uint32
    var ReportedIsWiFiConnected: bool
    var ResetWiFi: bool
    var sta_timeout: uint32
    var ap_timeout: uint32
    var NextPollTime: uint32

    function Fsm(): Machine
      reads this
    {
      Machine(FsmState, FsmTimerWiFiStartTime, ReportedIsWiFiConnected)
    }

    /** The driver after Begin: in Boot, with the default timeouts and the
        first poll one interval away. */
    constructor(now: uint32)
      ensures Fsm() == Machine(Boot, 0, false) && !ResetWiFi
      ensures sta_timeout == CLIENT_TIMEOUT && ap_timeout == AP_TIMEOUT
      ensures NextPollTime == AddU32(now, PollInterval)
    {
      FsmState := Boot;
      FsmTimerWiFiStartTime := 0;
      ReportedIsWiFiConnected := false;
      ResetWiFi := false;
      sta_timeout := CLIENT_TIMEOUT;
      ap_timeout := AP_TIMEOUT;
      NextPollTime := AddU32(now, PollInterval);
    }

    method SetFsm(m: Machine)
      modifies this
      ensures Fsm() == m
      ensures ResetWiFi == old(ResetWiFi) && sta_timeout == old(sta_timeout)
      ensures ap_timeout == old(ap_timeout) && NextPollTime == old(NextPollTime)
    {
      FsmState, FsmTimerWiFiStartTime, ReportedIsWiFiConnected := m.state, m.startTime, m.connected;
    }

    /** Disable: any state but Disabled is left for Disabled. */
    method Disable()
      modifies this
      ensures Fsm() == (if old(FsmState) == Disabled then old(Fsm()) else InitDisabled(old(Fsm())))
      ensures ResetWiFi == old(ResetWiFi) && sta_timeout == old(sta_timeout)
      ensures ap_timeout == old(ap_timeout) && NextPollTime == old(NextPollTime)
    {
      if FsmState != Disabled {
        SetFsm(InitDisabled(Fsm()));
      }
    }

    /** Enable: only Disabled is left, for ConnectionFailed. */
    method Enable(s: Settings)
      modifies this
      ensures Fsm() == (if old(FsmState) == Disabled then InitFailed(old(Fsm()), s) else old(Fsm()))
      ensures ResetWiFi == old(ResetWiFi) && sta_timeout == old(sta_timeout)
      ensures ap_timeout == old(ap_timeout) && NextPollTime == old(NextPollTime)
    {
      if FsmState == Disabled {
        SetFsm(InitFailed(Fsm(), s));
      }
    }

    method ValidateConfig() returns (response: int)
      modifies this
      ensures (sta_timeout, ap_timeout, response) == ValidatedTimeouts(old(sta_timeout), old(ap_timeout))
      ensures Fsm() == old(Fsm()) && ResetWiFi == old(ResetWiFi) && NextPollTime == old(NextPollTime)
    {
      response := 0;
      if sta_timeout < 5 {
        sta_timeout := CLIENT_TIMEOUT;
        response := response + 1;
      }
      if ap_timeout < 15 {
        ap_timeout := AP_TIMEOUT;
        response := response + 1;
      }
    }

    /** WiFiReset: a restart is requested for the next Poll. */
    method WiFiReset()
      modifies this
      ensures ResetWiFi && Fsm() == old(Fsm())
      ensures sta_timeout == old(sta_timeout) && ap_timeout == old(ap_timeout) && NextPollTime == old(NextPollTime)
    {
      ResetWiFi := true;
    }

    method OnWiFiConnect()
      modifies this
      ensures Fsm() == OnConnect(old(Fsm()))
      ensures ResetWiFi == old(ResetWiFi) && sta_timeout == old(sta_timeout)
      ensures ap_timeout == old(ap_timeout) && NextPollTime == old(NextPollTime)
    {
      SetFsm(OnConnect(Fsm()));
    }

    method OnWiFiDisconnect(s: Settings)
      modifies this
      ensures Fsm() == OnDisconnect(old(Fsm()), s)
      ensures ResetWiFi == old(ResetWiFi) && sta_timeout == old(sta_timeout)
      ensures ap_timeout == old(ap_timeout) && NextPollTime == old(NextPollTime)
    {
      SetFsm(OnDisconnect(Fsm(), s));
    }

    /** Poll: once the poll time has passed it moves on by one interval and
        the current state is polled; then a pending reset request restarts
        the machine at Boot. */
    method Poll(now: uint32, s: Settings, l: Link)
      modifies this
      ensures !ResetWiFi
      ensures sta_timeout == old(sta_timeout) && ap_timeout == old(ap_timeout)
      ensures NextPollTime == if now > old(NextPollTime) then AddU32(old(NextPollTime), PollInterval) else old(NextPollTime)
      ensures var polled := if now > old(NextPollTime) then PollState(old(Fsm()), s, l, now, sta_timeout, ap_timeout) else old(Fsm());
        Fsm() == if old(ResetWiFi) then InitBoot(polled) else polled
    {
      if now > NextPollTime {
        NextPollTime := AddU32(NextPollTime, PollInterval);
        SetFsm(PollState(Fsm(), s, l, now, sta_timeout, ap_timeout));
      }
      if ResetWiFi {
        ResetWiFi := false;
        SetFsm(InitBoot(Fsm()));
      }
    }
  }

  // ---------------------------------------------------------------------
  // Properties
  // ---------------------------------------------------------------------

  /** Boot goes on to the configured credentials, or to the defaults when
      no SSID is set; either way the attempt's clock starts now. */
  lemma BootStarts(m: Machine, s: Settings, l: Link, now: uint32, sta: uint32, ap: uint32)
    requires m.state == Boot
    ensures var r := PollState(m, s, l, now, sta, ap);
      r.state == (if s.ssid == "" then ConnectingUsingDefaults else ConnectingUsingConfig)
      && r.startTime == now && r.connected == m.connected
  {
  }

  /** The configured credentials give way to the defaults, and the defaults
      to AP mode, once 1000 * sta_timeout ms have passed without a
      connection; until then, or once connected, the state is kept. */
  lemma ConnectingTimesOut(m: Machine, s: Settings, l: Link, now: uint32, sta: uint32, ap: uint32)
    requires m.state == ConnectingUsingConfig || m.state == ConnectingUsingDefaults
    ensures var r := PollState(m, s, l, now, sta, ap);
      if !l.staConnected && TimedOut(now, m.startTime, sta) then
        (m.state == ConnectingUsingConfig ==> r == m.(state := ConnectingUsingDefaults, startTime := now))
        && (m.state == ConnectingUsingDefaults ==> r == InitAsAP(m, s))
      else r == m
  {
  }

  /** AP mode: a joined station wins; otherwise the AP timeout or a
      disabled fallback leads to ConnectionFailed's Init. */
  lemma AsApMoves(m: Machine, s: Settings, l: Link, now: uint32, sta: uint32, ap: uint32)
    requires m.state == ConnectingAsAP
    ensures var r := PollState(m, s, l, now, sta, ap);
      (l.stationNum != 0 ==> r.state == ConnectedToSta && r.connected)
      && (l.stationNum == 0 && TimedOut(now, m.startTime, ap) ==> r == InitFailed(m, s))
      && (l.stationNum == 0 && !TimedOut(now, m.startTime, ap) ==> r == m)
    ensures !s.apFallback ==> InitAsAP(m, s) == InitFailed(m, s)
  {
  }

  /** ConnectionFailed's Init: a set connection flag is only cleared;
      otherwise the driver starts over at Boot unless AP reboot is set. */
  lemma FailedInit(m: Machine, s: Settings)
    ensures var r := InitFailed(m, s);
      !r.connected && r.startTime == m.startTime
      && r.state == (if m.connected || s.apReboot then ConnectionFailed else Boot)
  {
  }

  /** ConnectionFailed and Disabled ignore polls and WiFi events. */
  lemma IdleStates(m: Machine, s: Settings, l: Link, now: uint32, sta: uint32, ap: uint32)
    requires m.state == ConnectionFailed || m.state == Disabled
    ensures PollState(m, s, l, now, sta, ap) == m
    ensures OnConnect(m) == m && OnDisconnect(m, s) == m
  {
  }

  /** Disabling twice is disabling once, and Enable leaves Disabled. */
  lemma EnableDisable(m: Machine, s: Settings)
    ensures InitDisabled(InitDisabled(m)) == InitDisabled(m)
    ensures InitFailed(InitDisabled(m), s).state != Disabled
  {
  }

  /** ValidateConfig repairs everything in one call: a second call finds
      nothing to fix. */
  lemma ValidateConfigIdempotent(sta: uint32, ap: uint32)
    ensures var r := ValidatedTimeouts(sta, ap);
      ValidatedTimeouts(r.0, r.1) == (r.0, r.1, 0)
  {
  }

  // ---------------------------------------------------------------------
  // The AP timeout is measured from the start of the default attempt
  // ---------------------------------------------------------------------

  /** With the default timeouts, AP mode gives up at its first poll without
      a station: the clock it reads was started by the default-credentials
      attempt, which ran for more than 500 s, past the 60 s AP timeout. */
  lemma ApTimeoutAlreadyExpired()
    ensures var s := Settings("home", true, false);
      var m := Machine(ConnectingUsingDefaults, 0, false);
      var ap := PollState(m, s, Link(false, 0), 500_001, CLIENT_TIMEOUT, AP_TIMEOUT);
      ap.state == ConnectingAsAP
      && PollState(ap, s, Link(false, 0), 501_001, CLIENT_TIMEOUT, AP_TIMEOUT).state == Boot
  {
  }

  /** ConnectingAsAP.Init with its own clock start. */
  function InitAsAPIntended(m: Machine, s: Settings, now: uint32): Machine
  {
    if s.apFallback then m.(state := ConnectingAsAP, startTime := now)
    else InitFailed(m.(state := ConnectingAsAP), s)
  }

  /** With its own clock, AP mode waits the full AP timeout however long
      the default attempt took. */
  lemma ApTimeoutIntended(m: Machine, s: Settings, now: uint32, later: uint32, sta: uint32, ap: uint32)
    requires s.apFallback && now <= later && later - now <= 1000 * ap <= UINT32_MAX
    ensures var r := InitAsAPIntended(m, s, now);
      r.state == ConnectingAsAP
      && PollState(r, s, Link(false, 0), later, sta, ap) == r
  {
  }

  // ---------------------------------------------------------------------
  // A lost connection is never retried
  // ---------------------------------------------------------------------

  /** Once a connection to the access point is lost, the driver rests in
      ConnectionFailed: no poll and no WiFi event moves it on. */
  lemma LostConnectionStays(m: Machine, s: Settings, l: Link, now: uint32, sta: uint32, ap: uint32)
    requires m.state == ConnectedToAP && m.connected
    ensures var f := OnDisconnect(m, s);
      f.state == ConnectionFailed && !f.connected
      && PollState(f, s, l, now, sta, ap) == f && OnConnect(f) == f
  {
    IdleStates(OnDisconnect(m, s), s, l, now, sta, ap);
  }

  /** ConnectionFailed.Init clearing the flag and then starting over (or
      waiting for the reboot) in every case. */
  function InitFailedIntended(m: Machine, s: Settings): (r: Machine)
  {
    var f := m.(state := ConnectionFailed, connected := false);
    if s.apReboot then f else InitBoot(f)
  }

  /** Starting over after a lost connection reaches Boot, whose next poll
      starts a new connection attempt. */
  lemma LostConnectionRetriedIntended(m: Machine, s: Settings, l: Link, now: uint32, sta: uint32, ap: uint32)
    requires m.state == ConnectedToAP && !s.apReboot
    ensures var f := InitFailedIntended(m, s);
      f.state == Boot && !f.connected
      && PollState(f, s, l, now, sta, ap).state in {ConnectingUsingConfig, ConnectingUsingDefaults}
  {
  }
}
