// The MQTT controller's connection state machine: six states, each with an
// Init that makes it current and a Poll that may move to another, driven by
// a 1-second poll timer.  The inputs the states test (the controller's
// enable switch, the WiFi link, the broker connection, the subscribe result
// and the broker settings) are parameters of each poll.  The settings
// controls' "value changed" flags are a field the poll reads and resets.
module ControllerMqtt {
  import opened Ints
  import opened ArduinoString

  datatype MqttState = Disabled | ValidateConfig | WaitForWiFi | Connecting | Connected | Disconnecting

  /** The broker settings, with the defaults of the user and password
      controls. */
  datatype MqttConfig = MqttConfig(
    name: string, brokerIp: uint32, user: string, userDefault: string,
    password: string, passwordDefault: string)

  /** What a poll sees of the outside world. */
  datatype Env = Env(enabled: bool, wifiConnected: bool, brokerConnected: bool, subscribeOk: bool, config: MqttConfig)

  const NameNotSet: string := "Broker Subscriber Name is not set"
  const IpNotSet: string := "Broker IP Address is not set"
  const UserNotSet: string := "Broker Username Name is not set"
  const PasswordNotSet: string := "Broker Password is not set"

  /** The number of settings controls whose flags ConfigHasChanged visits:
      name, broker IP, port, user and password. */
  const ControlCount: nat := 5

  /** ValidateConfiguration: the first missing setting gives the message. */
  function ValidateConfiguration(c: MqttConfig): (r: (bool, string))
  {
    if c.name == "" then (false, NameNotSet)
    else if c.brokerIp == 0 then (false, IpNotSet)
    else if c.user == "" || c.user == c.userDefault then (false, UserNotSet)
    else if c.password == "" || c.password == c.passwordDefault then (false, PasswordNotSet)
    else (true, "")
  }

  predicate ConfigValid(c: MqttConfig)
  {
    ValidateConfiguration(c).0
  }

  /** Is any flag set? */
  function AnySet(flags: seq<bool>): (r: bool)
    ensures r <==> exists i :: 0 <= i < |flags| && flags[i]
  {
    if |flags| == 0 then false
    else
      assert forall i :: 0 <= i < |flags| - 1 ==> flags[..|flags| - 1][i] == flags[i];
      AnySet(flags[..|flags| - 1]) || flags[|flags| - 1]
  }

  function Cleared(n: nat): (r: seq<bool>)
    ensures |r| == n && forall i :: 0 <= i < n ==> !r[i]
  {
    seq(n, i => false)
  }

  /** A poll of the current state: the next state and the flags after it.
      The conditions are checked left to right and stop at the first that
      holds, so the flags are only read (and reset) when the tests before
      them pass. */
  function Next(s: MqttState, flags: seq<bool>, e: Env): (r: (MqttState, seq<bool>))
  {
    var changed := AnySet(flags);
    var cleared := Cleared(|flags|);
    var valid := ConfigValid(e.config);
    match s
    case Disabled => (if e.enabled then ValidateConfig else Disabled, flags)
    case ValidateConfig =>
      (if !e.enabled then Disconnecting else if valid then WaitForWiFi else ValidateConfig, flags)
    case WaitForWiFi =>
      if !e.enabled then (Disconnecting, flags)
      else if changed || !valid then (Disconnecting, cleared)
      else (if e.wifiConnected then Connecting else WaitForWiFi, cleared)
    case Connecting =>
      if !e.enabled || !e.wifiConnected then (Disconnecting, flags)
      else if changed || !valid then (Disconnecting, cleared)
      else if e.brokerConnected then (if e.subscribeOk then Connected else Disconnecting, cleared)
      else (Connecting, cleared)
    case Connected =>
      if !e.enabled then (Disconnecting, flags)
      else if changed || !e.wifiConnected || !valid || !e.brokerConnected then (Disconnecting, cleared)
      else (Connected, cleared)
    case Disconnecting => (Disabled, flags)
  }

  /** returnClientCode: the PubSubClient state code by name. */
  function ReturnClientCode(code: int): (r: string)
  {
    if code == -4 then "MQTT_CONNECTION_TIMEOUT"
    else if code == -3 then "MQTT_CONNECTION_LOST"
    else if code == -2 then "MQTT_CONNECT_FAILED"
    else if code == -1 then "MQTT_DISCONNECTED"
    else if code == 0 then "MQTT_CONNECTED"
    else if code == 1 then "MQTT_CONNECT_BAD_PROTOCOL"
    else if code == 2 then "MQTT_CONNECT_BAD_CLIENT_ID"
    else if code == 3 then "MQTT_CONNECT_UNAVAILABLE"
    else if code == 4 then "MQTT_CONNECT_BAD_CREDENTIALS"
    else if code == 5 then "MQTT_CONNECT_UNAUTHORIZED"
    else "Undefined"
  }

  class ControllerMqtt {
    /** None until begin() has run. */
    var pCurrentFsmState: Option<MqttState>
    var FsmTimerExpirationTime: uint32
    /** The settings controls' "value changed" flags. */
    var ValueChanged: seq<bool>

    constructor()
      ensures pCurrentFsmState == None && FsmTimerExpirationTime == 1000
      ensures ValueChanged == Cleared(ControlCount)
    {
      pCurrentFsmState := None;
      FsmTimerExpirationTime := 1000;
      ValueChanged := Cleared(ControlCount);
    }

    method Begin()
      modifies this
      ensures pCurrentFsmState == Some(Disabled)
      ensures FsmTimerExpirationTime == old(FsmTimerExpirationTime) && ValueChanged == old(ValueChanged)
    {
      pCurrentFsmState := Some(Disabled);
    }

    /** ConfigHasChanged: every flag is read and reset, none is skipped. */
    method ConfigHasChanged() returns (Response: bool)
      modifies this
      ensures Response == AnySet(old(ValueChanged))
      ensures ValueChanged == Cleared(|old(ValueChanged)|)
      ensures pCurrentFsmState == old(pCurrentFsmState) && FsmTimerExpirationTime == old(FsmTimerExpirationTime)
    {
      Response := false;
      var flags := ValueChanged;
      var i := 0;
      while i < |flags|
        invariant 0 <= i <= |flags| && |flags| == |ValueChanged|
        invariant Response == AnySet(ValueChanged[..i])
        invariant forall j :: 0 <= j < i ==> !flags[j]
        invariant forall j :: i <= j < |flags| ==> flags[j] == ValueChanged[j]
      {
        assert ValueChanged[..i + 1][..i] == ValueChanged[..i];
        Response := Response || flags[i];
        flags := flags[i := false];
        i := i + 1;
      }
      assert ValueChanged[..i] == ValueChanged;
      ValueChanged := flags;
    }

    /** The current state's Poll. */
    method PollState(e: Env)
      requires pCurrentFsmState.Some?
      modifies this
      ensures pCurrentFsmState.Some?
      ensures (pCurrentFsmState.value, ValueChanged) == Next(old(pCurrentFsmState.value), old(ValueChanged), e)
      ensures FsmTimerExpirationTime == old(FsmTimerExpirationTime)
    {
      var valid := ValidateConfiguration(e.config).0;
      match pCurrentFsmState.value
      case Disabled =>
        if e.enabled {
          pCurrentFsmState := Some(ValidateConfig);
        }
      case ValidateConfig =>
        if !e.enabled {
          pCurrentFsmState := Some(Disconnecting);
        } else if valid {
          pCurrentFsmState := Some(WaitForWiFi);
        }
      case WaitForWiFi =>
        if !e.enabled {
          pCurrentFsmState := Some(Disconnecting);
        } else {
          var changed := ConfigHasChanged();
          if changed || !valid {
            pCurrentFsmState := Some(Disconnecting);
          } else if e.wifiConnected {
            pCurrentFsmState := Some(Connecting);
          }
        }
      case Connecting =>
        if !e.enabled || !e.wifiConnected {
          pCurrentFsmState := Some(Disconnecting);
        } else {
          var changed := ConfigHasChanged();
          if changed || !valid {
            pCurrentFsmState := Some(Disconnecting);
          } else if e.brokerConnected {
            pCurrentFsmState := Some(Connected);
            if !e.subscribeOk {
              pCurrentFsmState := Some(Disconnecting);
            }
          }
        }
      case Connected =>
        if !e.enabled {
          pCurrentFsmState := Some(Disconnecting);
        } else {
          var changed := ConfigHasChanged();
          if changed || !e.wifiConnected || !valid || !e.brokerConnected {
            pCurrentFsmState := Some(Disconnecting);
          }
        }
      case Disconnecting =>
        pCurrentFsmState := Some(Disabled);
    }

    /** poll: once the timer has passed, it moves on by one second and the
        current state is polled. */
    method Poll(Now: uint32, e: Env)
      modifies this
      ensures Now <= old(FsmTimerExpirationTime) ==>
        pCurrentFsmState == old(pCurrentFsmState) && FsmTimerExpirationTime == old(FsmTimerExpirationTime)
        && ValueChanged == old(ValueChanged)
      ensures Now > old(FsmTimerExpirationTime) ==>
        FsmTimerExpirationTime == AddU32(old(FsmTimerExpirationTime), 1000)
        && (old(pCurrentFsmState).None? ==> pCurrentFsmState == None && ValueChanged == old(ValueChanged))
        && (old(pCurrentFsmState).Some? ==>
              pCurrentFsmState.Some?
              && (pCurrentFsmState.value, ValueChanged) == Next(old(pCurrentFsmState).value, old(ValueChanged), e))
    {
      if Now > FsmTimerExpirationTime {
        FsmTimerExpirationTime := AddU32(FsmTimerExpirationTime, 1000);
        if pCurrentFsmState.Some? {
          PollState(e);
        }
      }
    }
  }

  // ---------------------------------------------------------------------
  // Properties
  // ---------------------------------------------------------------------

  /** Disabled leaves only for ValidateConfig, and only when enabled;
      Disconnecting always goes to Disabled. */
  lemma DisabledAndDisconnecting(flags: seq<bool>, e: Env)
    ensures Next(Disabled, flags, e).0 == (if e.enabled then ValidateConfig else Disabled)
    ensures Next(Disconnecting, flags, e).0 == Disabled
    ensures Next(Disabled, flags, e).1 == flags && Next(Disconnecting, flags, e).1 == flags
  {
  }

  /** ValidateConfig goes to Disconnecting when disabled, to WaitForWiFi
      with valid settings, and otherwise stays. */
  lemma ValidateConfigMoves(flags: seq<bool>, e: Env)
    ensures Next(ValidateConfig, flags, e).0 ==
      if !e.enabled then Disconnecting else if ConfigValid(e.config) then WaitForWiFi else ValidateConfig
  {
  }

  /** The three working states drop to Disconnecting on disable, a changed
      setting or invalid settings; Connecting and Connected also on a lost
      WiFi link, Connected also on a lost broker. */
  lemma WorkingStatesDrop(s: MqttState, flags: seq<bool>, e: Env)
    requires s == WaitForWiFi || s == Connecting || s == Connected
    requires !e.enabled || AnySet(flags) || !ConfigValid(e.config)
      || (s != WaitForWiFi && !e.wifiConnected) || (s == Connected && !e.brokerConnected)
    ensures Next(s, flags, e).0 == Disconnecting
  {
  }

  /** A connected broker whose subscribe fails never reaches Connected. */
  lemma SubscribeFailureDisconnects(flags: seq<bool>, e: Env)
    requires !e.subscribeOk
    ensures Next(Connecting, flags, e).0 != Connected
  {
  }

  /** Connected is reached or kept only with everything in order. */
  lemma ConnectedNeedsAll(s: MqttState, flags: seq<bool>, e: Env)
    requires Next(s, flags, e).0 == Connected
    ensures e.enabled && e.wifiConnected && e.brokerConnected && ConfigValid(e.config) && !AnySet(flags)
    ensures s == Connected || (s == Connecting && e.subscribeOk)
  {
  }

  /** The flags are reset exactly when a poll gets as far as reading them;
      a change seen while disabled is kept for later. */
  lemma FlagsResetWhenRead(s: MqttState, flags: seq<bool>, e: Env)
    ensures Next(s, flags, e).1 == flags || Next(s, flags, e).1 == Cleared(|flags|)
    ensures !e.enabled ==> Next(s, flags, e).1 == flags
    ensures e.enabled && (s == WaitForWiFi || s == Connected || (s == Connecting && e.wifiConnected)) ==>
      Next(s, flags, e).1 == Cleared(|flags|)
  {
  }

  /** The settings check: a name, a broker address, and a user and password
      that are neither empty nor the defaults; the first failure names the
      setting. */
  lemma ValidateConfigurationRules(c: MqttConfig)
    ensures ConfigValid(c) <==> (c.name != "" && c.brokerIp != 0
      && c.user != "" && c.user != c.userDefault && c.password != "" && c.password != c.passwordDefault)
    ensures c.name == "" ==> ValidateConfiguration(c).1 == NameNotSet
    ensures c.name != "" && c.brokerIp == 0 ==> ValidateConfiguration(c).1 == IpNotSet
  {
  }

  /** The ten PubSubClient codes have ten distinct names; every other code
      is "Undefined". */
  lemma ClientCodeNames(a: int, b: int)
    ensures (-4 <= a <= 5) <==> ReturnClientCode(a) != "Undefined"
    ensures -4 <= a <= 5 && -4 <= b <= 5 && a != b ==> ReturnClientCode(a) != ReturnClientCode(b)
  {
  }
}
