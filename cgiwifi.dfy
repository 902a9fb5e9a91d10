// The WiFi supervisor of esp-link/cgiwifi.c: wifiInit() and the reset-timer
// callback resetTimerCb(), over an abstract view of the vendor driver.
// Every effectful SDK call is also recorded, in order, in `sdkCalls`.
module CgiWifi {
  import opened CLib
  import opened ApConfig
  import opened Recovery

  /** RESET_TIMEOUT, in milliseconds. */
  const RESET_TIMEOUT: nat := 15000
  // Vendor SDK values.
  const SOFTAP_MODE: nat := 2
  const MODEM_SLEEP_T: nat := 2

  /** The effectful SDK calls the supervisor makes. */
  datatype SdkCall =
    | SetOpmode(mode: nat)                          // wifi_set_opmode
    | SoftapSetConfig(conf: SoftapConfigValue)      // wifi_softap_set_config
    | SetSleepType(sleepType: nat)                  // wifi_set_sleep_type
    | SetEventHandler                               // wifi_set_event_handler_cb(wifiHandleEventCb)
    | TimerDisarm                                   // os_timer_disarm(&resetTimer)
    | TimerSetFn                                    // os_timer_setfn(&resetTimer, resetTimerCb, NULL)
    | TimerArm(delayMs: nat, repeat: bool)          // os_timer_arm(&resetTimer, delay, repeat)

  /** The state of the static ETSTimer resetTimer. */
  datatype TimerState = TimerState(armed: bool, delayMs: nat, repeat: bool, callbackSet: bool)

  /** The timer after os_timer_arm(&resetTimer, delayMs, repeat). */
  function Armed(t: TimerState, delayMs: nat, repeat: bool): (armedTimer: TimerState)
    ensures armedTimer.armed && armedTimer.callbackSet == t.callbackSet
  {
    t.(armed := true, delayMs := delayMs, repeat := repeat)
  }

  /** The calls resetTimerCb() makes for a decision. */
  function ActionCalls(a: RecoveryAction, apconf: SoftapConfigValue): (calls: seq<SdkCall>)
    ensures calls == [] <==> (a.setMode.None? && !a.pushApConfig && !a.rearm)
    ensures a.rearm ==> calls[|calls| - 1] == TimerArm(RESET_TIMEOUT, false)
  {
    (if a.setMode.Some? then [SetOpmode(a.setMode.value)] else [])
    + (if a.pushApConfig then [SoftapSetConfig(apconf)] else [])
    + (if a.rearm then [TimerArm(RESET_TIMEOUT, false)] else [])
  }

  /** The calls wifiInit() makes. */
  function InitCalls(b: BuildOptions, def: SoftapConfigValue): (calls: seq<SdkCall>)
    ensures |calls| == 2 + (if b.apSsid.Some? then 1 else 0) + (if b.debug then 4 else 0)
    ensures calls[0] == SetOpmode(SOFTAP_MODE)
    // in debug builds the reset timer is disarmed, given its function, and then armed last
    ensures b.debug ==> calls[|calls| - 3..] == [TimerDisarm, TimerSetFn, TimerArm(RESET_TIMEOUT, false)]
    ensures !b.debug ==> calls[|calls| - 1] == SetSleepType(MODEM_SLEEP_T)
  {
    [SetOpmode(SOFTAP_MODE)]
    + (if b.apSsid.Some? then [SoftapSetConfig(BuildApConfig(def, b))] else [])
    + [SetSleepType(MODEM_SLEEP_T)]
    + (if b.debug then [SetEventHandler, TimerDisarm, TimerSetFn, TimerArm(RESET_TIMEOUT, false)] else [])
  }

  class Wifi {
    /** The build-time options the firmware was compiled with. */
    const build: BuildOptions
    /** What wifi_softap_get_config_default() yields. */
    const defaultSoftapConf: SoftapConfigValue

    /** The driver's operating mode. */
    var opmode: nat
    /** wifi_station_get_connect_status() == STATION_GOT_IP */
    var stationGotIP: bool
    /** The AP configuration the driver currently applies. */
    var softapConf: SoftapConfigValue
    /** The file-scope AP configuration resetTimerCb() pushes back to the driver. */
    var apconf: SoftapConfigValue
    var resetTimer: TimerState
    var sdkCalls: seq<SdkCall>

    ghost predicate Valid()
      reads this
    {
      && defaultSoftapConf.WellFormed()
      && softapConf.WellFormed()
      && apconf.WellFormed()
      // resetTimerCb() exists only in CGIWIFI_DBG builds
      && (resetTimer.callbackSet ==> build.debug)
    }

    /** The state at boot, before wifiInit(). */
    constructor (build: BuildOptions, defaultSoftapConf: SoftapConfigValue, opmode: nat,
                 stationGotIP: bool, softapConf: SoftapConfigValue, apconf: SoftapConfigValue)
      requires defaultSoftapConf.WellFormed() && softapConf.WellFormed() && apconf.WellFormed()
      ensures Valid()
      ensures this.build == build && this.defaultSoftapConf == defaultSoftapConf
      ensures this.opmode == opmode && this.stationGotIP == stationGotIP
      ensures this.softapConf == softapConf && this.apconf == apconf
      ensures resetTimer == TimerState(false, 0, false, false) && sdkCalls == []
    {
      this.build, this.defaultSoftapConf := build, defaultSoftapConf;
      this.opmode, this.stationGotIP := opmode, stationGotIP;
      this.softapConf, this.apconf := softapConf, apconf;
      resetTimer := TimerState(false, 0, false, false);
      sdkCalls := [];
    }

    method SdkSetOpmode(m: nat)
      modifies this
      ensures opmode == m && sdkCalls == old(sdkCalls) + [SetOpmode(m)]
      ensures softapConf == old(softapConf) && resetTimer == old(resetTimer)
      ensures stationGotIP == old(stationGotIP) && apconf == old(apconf)
    {
      opmode := m;
      sdkCalls := sdkCalls + [SetOpmode(m)];
    }

    method SdkSoftapSetConfig(c: SoftapConfigValue)
      modifies this
      ensures softapConf == c && sdkCalls == old(sdkCalls) + [SoftapSetConfig(c)]
      ensures opmode == old(opmode) && resetTimer == old(resetTimer)
      ensures stationGotIP == old(stationGotIP) && apconf == old(apconf)
    {
      softapConf := c;
      sdkCalls := sdkCalls + [SoftapSetConfig(c)];
    }

    method SdkTimerArm(delayMs: nat, repeat: bool)
      modifies this
      ensures resetTimer == Armed(old(resetTimer), delayMs, repeat)
      ensures sdkCalls == old(sdkCalls) + [TimerArm(delayMs, repeat)]
      ensures opmode == old(opmode) && softapConf == old(softapConf)
      ensures stationGotIP == old(stationGotIP) && apconf == old(apconf)
    {
      resetTimer := Armed(resetTimer, delayMs, repeat);
      sdkCalls := sdkCalls + [TimerArm(delayMs, repeat)];
    }

    /** resetTimerCb(): the periodic check that recovers from a failed association. */
    method ResetTimerCb()
      requires Valid()
      modifies this
      ensures Valid()
      ensures var a := RecoveryDecision(MaskMode(old(opmode)), old(stationGotIP), build.changeToSta);
        && opmode == ModeAfter(old(opmode), a)
        && softapConf == (if a.pushApConfig then apconf else old(softapConf))
        && resetTimer == (if a.rearm then Armed(old(resetTimer), RESET_TIMEOUT, false) else old(resetTimer))
        && sdkCalls == old(sdkCalls) + ActionCalls(a, apconf)
      ensures stationGotIP == old(stationGotIP) && apconf == old(apconf)
    {
      var x := stationGotIP;
      var m := MaskMode(opmode);
      if m != MODE_AP {
        if x {
          if m != MODE_STA {
            if build.changeToSta {
              SdkSetOpmode(MODE_STA);
              SdkTimerArm(RESET_TIMEOUT, false);
            }
          }
        } else {
          if m != MODE_AP_STA {
            SdkSetOpmode(MODE_AP_STA);
            SdkSoftapSetConfig(apconf);
          }
          SdkTimerArm(RESET_TIMEOUT, false);
        }
      }
    }

    /** The timer service running resetTimerCb(): a one-shot timer is disarmed as it fires. */
    method FireResetTimer()
      requires Valid() && resetTimer.armed && resetTimer.callbackSet
      modifies this
      ensures Valid()
      ensures var fired := old(resetTimer).(armed := old(resetTimer).repeat);
        var a := RecoveryDecision(MaskMode(old(opmode)), old(stationGotIP), build.changeToSta);
        && opmode == ModeAfter(old(opmode), a)
        && softapConf == (if a.pushApConfig then apconf else old(softapConf))
        && resetTimer == (if a.rearm then Armed(fired, RESET_TIMEOUT, false) else fired)
        && sdkCalls == old(sdkCalls) + ActionCalls(a, apconf)
      ensures stationGotIP == old(stationGotIP) && apconf == old(apconf)
    {
      resetTimer := resetTimer.(armed := resetTimer.repeat);
      ResetTimerCb();
    }

    /** wifiInit(): AP-only mode, the AP configuration from the build options, modem sleep,
        and in debug builds the event handler and one pending reset check. */
    method WifiInit()
      requires Valid()
      modifies this
      ensures Valid()
      ensures opmode == SOFTAP_MODE
      ensures softapConf == if build.apSsid.Some? then BuildApConfig(defaultSoftapConf, build) else old(softapConf)
      ensures resetTimer == if build.debug then TimerState(true, RESET_TIMEOUT, false, true) else old(resetTimer)
      ensures sdkCalls == old(sdkCalls) + InitCalls(build, defaultSoftapConf)
      ensures stationGotIP == old(stationGotIP) && apconf == old(apconf)
    {
      SdkSetOpmode(SOFTAP_MODE);
      if build.apSsid.Some? {
        PushBuildApConfig();
      }
      sdkCalls := sdkCalls + [SetSleepType(MODEM_SLEEP_T)];
      if build.debug {
        StartResetChecks();
      }
    }

    /** The AP_SSID block of wifiInit(): start from the default AP configuration, store the
        build's credentials and overrides in it, and hand it to the driver. */
    method PushBuildApConfig()
      requires Valid() && build.apSsid.Some?
      modifies this
      ensures Valid()
      ensures softapConf == BuildApConfig(defaultSoftapConf, build)
      ensures sdkCalls == old(sdkCalls) + [SoftapSetConfig(BuildApConfig(defaultSoftapConf, build))]
      ensures opmode == old(opmode) && resetTimer == old(resetTimer)
      ensures stationGotIP == old(stationGotIP) && apconf == old(apconf)
    {
      var conf := new SoftapConfig.GetConfigDefault(defaultSoftapConf);
      conf.StoreCredentials(build);
      conf.StoreOverrides(build);
      SdkSoftapSetConfig(conf.Value());
    }

    /** The CGIWIFI_DBG tail of wifiInit(): install the event handler, then disarm the reset
        timer, give it resetTimerCb() and arm it once. */
    method StartResetChecks()
      requires Valid() && build.debug
      modifies this
      ensures Valid()
      ensures resetTimer == TimerState(true, RESET_TIMEOUT, false, true)
      ensures sdkCalls == old(sdkCalls) + [SetEventHandler, TimerDisarm, TimerSetFn, TimerArm(RESET_TIMEOUT, false)]
      ensures opmode == old(opmode) && softapConf == old(softapConf)
      ensures stationGotIP == old(stationGotIP) && apconf == old(apconf)
    {
      sdkCalls := sdkCalls + [SetEventHandler];
      resetTimer := resetTimer.(armed := false);
      sdkCalls := sdkCalls + [TimerDisarm];
      resetTimer := resetTimer.(callbackSet := true);
      sdkCalls := sdkCalls + [TimerSetFn];
      SdkTimerArm(RESET_TIMEOUT, false);
    }

    /** Boot followed by the first reset check: since wifiInit() leaves the radio AP-only,
        that check changes nothing and no further check is pending. */
    method InitThenFirstCheck()
      requires Valid() && build.debug
      modifies this
      ensures Valid()
      ensures opmode == SOFTAP_MODE && !resetTimer.armed
      ensures sdkCalls == old(sdkCalls) + InitCalls(build, defaultSoftapConf)
    {
      WifiInit();
      FireResetTimer();
    }
  }
}
