// The DHCP switch of the WiFi settings.  It is a binary control whose value
// says whether DHCP is wanted; the mode actually used is DHCP unless the
// static settings (address, netmask, gateway, DNS server) are all filled in.
// A set that changes the mode actually used asks the WiFi driver to
// reconnect.  The four static-address controls are reduced to their values.
module Dhcp {
  import opened Ints
  import opened ArduinoString
  import opened BinaryControl
  import opened WiFiDriver

  const DHCP_LOCKED_STR: string := "INCOMPLETE STATIC WIFI SETTINGS.<br>DHCP settings will be used."
  const UsingStaticMessage: string := "Using Static Settings"

  /** The four static addresses, as 32-bit values; 0 means empty. */
  datatype StaticSettings = StaticSettings(ip: uint32, netmask: uint32, gateway: uint32, dns: uint32)

  predicate StaticComplete(s: StaticSettings)
  {
    s.ip != 0 && s.netmask != 0 && s.gateway != 0 && s.dns != 0
  }

  /** ValidateStaticSettings: with DHCP wanted there is nothing to check;
      otherwise the address, netmask, gateway and DNS server are checked in
      that order, and the first empty one fails. */
  function ValidateStaticSettings(dhcp: bool, s: StaticSettings): bool
  {
    if dhcp then true
    else if s.ip == 0 then false
    else if s.netmask == 0 then false
    else if s.gateway == 0 then false
    else if s.dns == 0 then false
    else true
  }

  /** The response message after ValidateStaticSettings: replaced by the
      locked text when static settings are wanted but incomplete. */
  function ValidatedMessage(dhcp: bool, s: StaticSettings, message: string): string
  {
    if !ValidateStaticSettings(dhcp, s) && !dhcp then DHCP_LOCKED_STR else message
  }

  /** getBool: the mode in use — DHCP whenever the static settings do not
      validate, otherwise the control's value. */
  function GetBool(dhcp: bool, s: StaticSettings): bool
  {
    if !ValidateStaticSettings(dhcp, s) then true else dhcp
  }

  /** SetControlMessage: the message line under the switch.  In DHCP mode it
      is left alone. */
  function ControlMessage(dhcp: bool, s: StaticSettings, shown: string): string
  {
    if dhcp then shown
    else if !ValidateStaticSettings(dhcp, s) then DHCP_LOCKED_STR
    else UsingStaticMessage
  }

  class Dhcp {
    const Binary: BinaryControl
    var Static: StaticSettings

    /** DHCP is wanted by default, and nothing static is filled in. */
    constructor()
      ensures Binary.Valid() && Binary.DataValue && Binary.Booting
      ensures Static == StaticSettings(0, 0, 0, 0)
    {
      Binary := new BinaryControl("WIFI_DHCP_FLAG", "WEBSERVER DHCP", true);
      Static := StaticSettings(0, 0, 0, 0);
    }

    function getBool(): bool
      reads this, Binary
    {
      GetBool(Binary.DataValue, Static)
    }

    /** set: the binary set; then, when it succeeded and changed the value
        (or the update is forced), the message line is refreshed and a
        change of the mode in use asks the WiFi driver to reset. */
    method Set(table: map<string, bool>, value: string, forced: bool, wifi: Driver)
      returns (ok: bool, message: string)
      requires Binary.Valid()
      modifies Binary, wifi
      ensures Binary.Valid() && Binary.Booting == old(Binary.Booting)
      ensures var r := BinarySet(old(Binary.State()), Binary.Booting, table, Binary.Title, value, forced);
        var changed := r.1 && (forced || old(Binary.DataValue) != r.0.value);
        ok == r.1 && Binary.DataValue == r.0.value
        && Binary.UiValue == r.0.uiValue && Binary.SaveWarning == r.0.saveWarning
        && Binary.OnString == r.0.onString && Binary.OffString == r.0.offString
        && message == (if changed then ValidatedMessage(r.0.value, Static, r.2) else r.2)
        && Binary.Message == (if changed then ControlMessage(r.0.value, Static, r.0.message) else r.0.message)
        && wifi.ResetWiFi == (old(wifi.ResetWiFi) || (changed && old(getBool()) != getBool()))
      ensures wifi.Fsm() == old(wifi.Fsm())
      ensures wifi.sta_timeout == old(wifi.sta_timeout) && wifi.ap_timeout == old(wifi.ap_timeout)
      ensures wifi.NextPollTime == old(wifi.NextPollTime)
    {
      var OldState := getBool();
      var OldDataValue := Binary.DataValue;
      ok, message := Binary.Set(table, value, forced);
      if !ok || (!forced && OldDataValue == Binary.DataValue) {
        return;
      }
      message := ValidatedMessage(Binary.DataValue, Static, message);
      Binary.Message := ControlMessage(Binary.DataValue, Static, Binary.Message);
      if OldState != getBool() {
        wifi.WiFiReset();
      }
    }
  }

  // ---------------------------------------------------------------------
  // Properties
  // ---------------------------------------------------------------------

  /** With DHCP wanted the static settings always validate; without it,
      they validate exactly when all four addresses are filled in. */
  lemma ValidateRules(dhcp: bool, s: StaticSettings)
    ensures dhcp ==> ValidateStaticSettings(dhcp, s)
    ensures !dhcp ==> (ValidateStaticSettings(dhcp, s) <==> StaticComplete(s))
  {
  }

  /** The mode in use is static only when static is wanted and complete. */
  lemma ModeInUse(dhcp: bool, s: StaticSettings)
    ensures !GetBool(dhcp, s) <==> !dhcp && StaticComplete(s)
  {
  }

  /** With incomplete static settings the switch cannot change the mode in
      use, so no set asks for a WiFi reset; with complete ones every change
      of the switch does. */
  lemma ResetOnlyOnModeChange(s: StaticSettings)
    ensures !StaticComplete(s) ==> GetBool(true, s) == GetBool(false, s)
    ensures StaticComplete(s) ==> GetBool(true, s) != GetBool(false, s)
  {
  }

  /** The locked text is shown exactly when static is wanted but cannot be
      used. */
  lemma LockedMessageShown(dhcp: bool, s: StaticSettings, shown: string)
    requires shown != DHCP_LOCKED_STR
    ensures ControlMessage(dhcp, s, shown) == DHCP_LOCKED_STR <==> !dhcp && !StaticComplete(s)
  {
  }
}
