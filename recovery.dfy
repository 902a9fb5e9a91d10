// The decision resetTimerCb() in cgiwifi.c takes each time the reset timer
// fires: from the low two bits of the operating mode, whether the station
// holds an IP address and the CHANGE_TO_STA build flag, which mode to set,
// whether to push the AP configuration again and whether to re-arm the timer.
module Recovery {
  import opened ApConfig

  // Operating modes, as the low two bits of the driver's opmode.
  const MODE_STA: nat := 1
  const MODE_AP: nat := 2
  const MODE_AP_STA: nat := 3

  /** wifi_get_opmode() & 0x3 */
  function MaskMode(opmode: nat): (m: nat)
    ensures m < 4
  {
    opmode % 4
  }

  /** What one run of the callback does to the radio and to the timer. */
  datatype RecoveryAction = RecoveryAction(setMode: Option<nat>, pushApConfig: bool, rearm: bool)

  const NoAction := RecoveryAction(None, false, false)

  function RecoveryDecision(m: nat, gotIP: bool, changeToSta: bool): (a: RecoveryAction)
    requires m < 4
    // the AP config is only pushed together with the switch to AP+STA
    ensures a.pushApConfig ==> a.setMode == Some(MODE_AP_STA)
    // every mode change is followed by one more check
    ensures a.setMode.Some? ==> a.rearm && a.setMode.value != m
  {
    if m == MODE_AP then NoAction
    else if gotIP then
      if m != MODE_STA && changeToSta then RecoveryAction(Some(MODE_STA), false, true)
      else NoAction
    else
      RecoveryAction(if m != MODE_AP_STA then Some(MODE_AP_STA) else None, m != MODE_AP_STA, true)
  }

  /** The driver's opmode once the action has been carried out. */
  function ModeAfter(opmode: nat, a: RecoveryAction): (mode: nat)
    ensures mode == opmode || a.setMode == Some(mode)
  {
    if a.setMode.Some? then a.setMode.value else opmode
  }

  /** In AP-only mode the callback sets nothing, pushes nothing and does not re-arm. */
  lemma ApOnlyIsIdle(opmode: nat, gotIP: bool, changeToSta: bool)
    requires MaskMode(opmode) == MODE_AP
    ensures RecoveryDecision(MaskMode(opmode), gotIP, changeToSta) == NoAction
  {
  }

  /** Without an IP (and not AP-only) the device ends in AP+STA with the timer re-armed;
      the mode is set and the AP config pushed only when it was not AP+STA already. */
  lemma NoIpFallsBackToApSta(opmode: nat, changeToSta: bool)
    requires MaskMode(opmode) != MODE_AP
    ensures var a := RecoveryDecision(MaskMode(opmode), false, changeToSta);
      && MaskMode(ModeAfter(opmode, a)) == MODE_AP_STA
      && a.rearm
      && (a.setMode.Some? <==> MaskMode(opmode) != MODE_AP_STA)
      && (a.pushApConfig <==> MaskMode(opmode) != MODE_AP_STA)
  {
  }

  /** With an IP (and not AP-only): CHANGE_TO_STA moves a non-STA mode to STA and checks once
      more; otherwise nothing happens and no further check is scheduled. */
  lemma GotIpGoesToSta(opmode: nat, changeToSta: bool)
    requires MaskMode(opmode) != MODE_AP
    ensures var a := RecoveryDecision(MaskMode(opmode), true, changeToSta);
      && (changeToSta && MaskMode(opmode) != MODE_STA ==>
            a == RecoveryAction(Some(MODE_STA), false, true))
      && (!(changeToSta && MaskMode(opmode) != MODE_STA) ==> a == NoAction)
  {
  }

  /** The device is left in STA-only mode only while the station holds an IP address. */
  lemma StaOnlyOnlyWithIp(opmode: nat, gotIP: bool, changeToSta: bool)
    ensures var a := RecoveryDecision(MaskMode(opmode), gotIP, changeToSta);
      MaskMode(ModeAfter(opmode, a)) == MODE_STA ==> gotIP
  {
  }

  /** The checks stop (no re-arm) only in AP-only mode or once the station holds an IP. */
  lemma StopsOnlyWhenSettled(opmode: nat, gotIP: bool, changeToSta: bool)
    ensures var a := RecoveryDecision(MaskMode(opmode), gotIP, changeToSta);
      !a.rearm <==> MaskMode(opmode) == MODE_AP || (gotIP && !(changeToSta && MaskMode(opmode) != MODE_STA))
  {
  }

  /** A second check with the same station status reconfigures nothing. */
  lemma DecisionSettles(opmode: nat, gotIP: bool, changeToSta: bool)
    ensures var a := RecoveryDecision(MaskMode(opmode), gotIP, changeToSta);
      var b := RecoveryDecision(MaskMode(ModeAfter(opmode, a)), gotIP, changeToSta);
      b.setMode.None? && !b.pushApConfig
  {
  }
}
