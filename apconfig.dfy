// The soft-AP configuration that wifiInit() builds in cgiwifi.c: the
// character check on build-time strings, the vendor's softap_config struct
// (as a value and as the in-place buffer the code fills), the optional
// build-time overrides, and the configuration they produce.
module ApConfig {
  import opened CLib

  datatype Option<T> = None | Some(value: T)

  const SSID_SIZE: nat := 32
  const PASSWORD_SIZE: nat := 64
  const UNDERSCORE: byte := 95

  // AUTH_MODE values of the vendor SDK.
  const AUTH_OPEN: nat := 0
  const AUTH_WPA_WPA2_PSK: nat := 4
  /** The largest AP_AUTH_MODE wifiInit() accepts (its own literal bound). */
  const AP_AUTH_MODE_LIMIT: nat := 4

  predicate IsIdentChar(c: byte) {
    IsAlnum(c) || c == UNDERSCORE
  }

  /** Every byte is an ASCII letter, a digit or '_' (the empty string qualifies). */
  predicate IsIdentifier(s: seq<byte>) {
    forall i :: 0 <= i < |s| ==> IsIdentChar(s[i])
  }

  /** checkString(): scans the string and stops at the first byte that is not allowed. */
  method CheckString(str: seq<byte>) returns (ok: bool)
    ensures ok <==> IsIdentifier(str)
  {
    var i := 0;
    while i < |str|
      invariant 0 <= i <= |str|
      invariant forall k :: 0 <= k < i ==> IsIdentChar(str[k])
    {
      if !(IsAlnum(str[i]) || str[i] == UNDERSCORE) {
        return false;
      }
      i := i + 1;
    }
    return true;
  }

  lemma IdentifierHasNoNul(s: seq<byte>)
    requires IsIdentifier(s)
    ensures NoNul(s)
  {
  }

  /** A snapshot of struct softap_config. */
  datatype SoftapConfigValue = SoftapConfigValue(
    ssid: seq<byte>,
    password: seq<byte>,
    ssidLen: nat,
    channel: nat,
    authmode: nat,
    ssidHidden: nat,
    maxConnection: nat,
    beaconInterval: nat)
  {
    /** The two name buffers have their fixed sizes. */
    predicate WellFormed() {
      |ssid| == SSID_SIZE && |password| == PASSWORD_SIZE
    }
  }

  /** The build-time options; None stands for a macro that is not defined. */
  datatype BuildOptions = BuildOptions(
    debug: bool,                     // CGIWIFI_DBG
    changeToSta: bool,               // CHANGE_TO_STA
    apSsid: Option<seq<byte>>,       // AP_SSID, stringified
    apPass: Option<seq<byte>>,       // AP_PASS, stringified
    apAuthMode: Option<int>,         // AP_AUTH_MODE
    apSsidHidden: Option<int>,       // AP_SSID_HIDDEN
    apMaxConn: Option<int>,          // AP_MAX_CONN
    apBeaconInterval: Option<int>)   // AP_BEACON_INTERVAL

  predicate SsidAcceptable(s: seq<byte>) {
    IsIdentifier(s) && 7 < |s| < 32
  }

  predicate PasswordAcceptable(p: seq<byte>) {
    IsIdentifier(p) && 7 < |p| < 64
  }

  /** The authentication mode set once a valid password has been stored. */
  function AuthModeFor(apAuthMode: Option<int>, current: nat): (mode: nat)
    ensures mode <= AP_AUTH_MODE_LIMIT || mode == current
  {
    match apAuthMode
    case None => AUTH_WPA_WPA2_PSK
    case Some(a) => if 0 <= a <= AP_AUTH_MODE_LIMIT then a as nat else current
  }

  /** The password step (AP_PASS defined), run after an acceptable SSID has been stored. */
  function WithPassword(c: SoftapConfigValue, p: seq<byte>, apAuthMode: Option<int>): (r: SoftapConfigValue)
    ensures c.WellFormed() ==> r.WellFormed()
    ensures r.(password := c.password, authmode := c.authmode) == c
  {
    if PasswordAcceptable(p) then
      c.(password := Pad(p, PASSWORD_SIZE), authmode := AuthModeFor(apAuthMode, c.authmode))
    else if |p| == 0 then
      c.(authmode := AUTH_OPEN, password := Fill(NUL, PASSWORD_SIZE))
    else
      c
  }

  /** The SSID and, when AP_PASS is defined, the password step; only run for an acceptable SSID. */
  function WithCredentials(c: SoftapConfigValue, s: seq<byte>, b: BuildOptions): (r: SoftapConfigValue)
    requires SsidAcceptable(s)
    ensures c.WellFormed() ==> r.WellFormed()
    ensures r.ssidLen == |s| && |r.ssid| == SSID_SIZE
    ensures r.(ssid := c.ssid, ssidLen := c.ssidLen, password := c.password, authmode := c.authmode) == c
  {
    var named := c.(ssid := Pad(s, SSID_SIZE), ssidLen := |s|);
    match b.apPass
    case None => named
    case Some(p) => WithPassword(named, p, b.apAuthMode)
  }

  /** The hidden, max_connection and beacon_interval overrides, each applied only when in range. */
  function WithOverrides(c: SoftapConfigValue, b: BuildOptions): (r: SoftapConfigValue)
    ensures r.(ssidHidden := c.ssidHidden, maxConnection := c.maxConnection, beaconInterval := c.beaconInterval) == c
  {
    var h := if b.apSsidHidden.Some? && (b.apSsidHidden.value == 0 || b.apSsidHidden.value == 1)
             then b.apSsidHidden.value as nat else c.ssidHidden;
    var m := if b.apMaxConn.Some? && 0 < b.apMaxConn.value < 5
             then b.apMaxConn.value as nat else c.maxConnection;
    var bi := if b.apBeaconInterval.Some? && 100 <= b.apBeaconInterval.value <= 60000
              then b.apBeaconInterval.value as nat else c.beaconInterval;
    c.(ssidHidden := h, maxConnection := m, beaconInterval := bi)
  }

  /** The configuration wifiInit() hands to the driver when AP_SSID is defined. */
  function BuildApConfig(def: SoftapConfigValue, b: BuildOptions): (r: SoftapConfigValue)
    requires b.apSsid.Some?
    ensures def.WellFormed() ==> r.WellFormed()
    ensures r.channel == def.channel
  {
    var s := b.apSsid.value;
    WithOverrides(if SsidAcceptable(s) then WithCredentials(def, s, b) else def, b)
  }

  /** The SSID is taken iff it passes the character and length checks; then the buffer holds it, zero-padded. */
  lemma BuildApConfigSsid(def: SoftapConfigValue, b: BuildOptions)
    requires def.WellFormed() && b.apSsid.Some?
    ensures var r := BuildApConfig(def, b); var s := b.apSsid.value;
      && r.WellFormed()
      && r.channel == def.channel
      && (SsidAcceptable(s) ==>
            r.ssid[..|s|] == s && (forall i :: |s| <= i < SSID_SIZE ==> r.ssid[i] == NUL)
            && r.ssidLen == |s| && CStringOf(r.ssid) == s)
      && (!SsidAcceptable(s) ==>
            r.ssid == def.ssid && r.ssidLen == def.ssidLen
            && r.password == def.password && r.authmode == def.authmode)
  {
    var s := b.apSsid.value;
    if SsidAcceptable(s) {
      IdentifierHasNoNul(s);
      CStringOfPad(s, SSID_SIZE);
    }
  }

  /** With an acceptable SSID: what the password step leaves in the password buffer and the auth mode. */
  lemma BuildApConfigPassword(def: SoftapConfigValue, b: BuildOptions)
    requires def.WellFormed() && b.apSsid.Some? && SsidAcceptable(b.apSsid.value)
    ensures var r := BuildApConfig(def, b);
      && (b.apPass.None? ==> r.password == def.password && r.authmode == def.authmode)
      && (b.apPass.Some? && PasswordAcceptable(b.apPass.value) ==>
            var p := b.apPass.value;
            && r.password[..|p|] == p && (forall i :: |p| <= i < PASSWORD_SIZE ==> r.password[i] == NUL)
            && CStringOf(r.password) == p
            && (b.apAuthMode.None? ==> r.authmode == AUTH_WPA_WPA2_PSK)
            && (b.apAuthMode.Some? && 0 <= b.apAuthMode.value <= AP_AUTH_MODE_LIMIT ==> r.authmode == b.apAuthMode.value)
            && (b.apAuthMode.Some? && !(0 <= b.apAuthMode.value <= AP_AUTH_MODE_LIMIT) ==> r.authmode == def.authmode))
      && (b.apPass == Some([]) ==>
            r.authmode == AUTH_OPEN && (forall i :: 0 <= i < PASSWORD_SIZE ==> r.password[i] == NUL))
      && (b.apPass.Some? && |b.apPass.value| != 0 && !PasswordAcceptable(b.apPass.value) ==>
            r.password == def.password && r.authmode == def.authmode)
  {
    if b.apPass.Some? && PasswordAcceptable(b.apPass.value) {
      IdentifierHasNoNul(b.apPass.value);
      CStringOfPad(b.apPass.value, PASSWORD_SIZE);
    }
  }

  /** Each override is applied iff it is defined and in range, whatever happened to the SSID. */
  lemma BuildApConfigOverrides(def: SoftapConfigValue, b: BuildOptions)
    requires b.apSsid.Some?
    ensures var r := BuildApConfig(def, b);
      && r.ssidHidden == (if b.apSsidHidden.Some? && 0 <= b.apSsidHidden.value <= 1
                          then b.apSsidHidden.value else def.ssidHidden)
      && r.maxConnection == (if b.apMaxConn.Some? && 1 <= b.apMaxConn.value <= 4
                             then b.apMaxConn.value else def.maxConnection)
      && r.beaconInterval == (if b.apBeaconInterval.Some? && 100 <= b.apBeaconInterval.value <= 60000
                              then b.apBeaconInterval.value else def.beaconInterval)
  {
  }

  /** Defaults that are already in the SDK's ranges stay in range after the overrides. */
  lemma BuildApConfigInRange(def: SoftapConfigValue, b: BuildOptions)
    requires b.apSsid.Some?
    requires def.authmode <= AP_AUTH_MODE_LIMIT && def.ssidHidden <= 1
    requires 1 <= def.maxConnection <= 4 && 100 <= def.beaconInterval <= 60000
    ensures var r := BuildApConfig(def, b);
      && r.authmode <= AP_AUTH_MODE_LIMIT && r.ssidHidden <= 1
      && 1 <= r.maxConnection <= 4 && 100 <= r.beaconInterval <= 60000
  {
  }

  /** struct softap_config as the in-place buffer wifiInit() declares and fills. */
  class SoftapConfig {
    const ssid: array<byte>
    const password: array<byte>
    var ssidLen: nat
    var channel: nat
    var authmode: nat
    var ssidHidden: nat
    var maxConnection: nat
    var beaconInterval: nat

    ghost predicate Valid() {
      ssid.Length == SSID_SIZE && password.Length == PASSWORD_SIZE && ssid != password
    }

    /** The struct's current content. */
    function Value(): (v: SoftapConfigValue)
      reads this, ssid, password
      ensures Valid() ==> v.WellFormed()
    {
      SoftapConfigValue(ssid[..], password[..], ssidLen, channel, authmode,
                        ssidHidden, maxConnection, beaconInterval)
    }

    /** wifi_softap_get_config_default(): a fresh struct holding the driver's default. */
    constructor GetConfigDefault(v: SoftapConfigValue)
      requires v.WellFormed()
      ensures Valid() && Value() == v
      ensures fresh(ssid) && fresh(password)
    {
      var s := new byte[SSID_SIZE](i => if 0 <= i < |v.ssid| then v.ssid[i] else NUL);
      var p := new byte[PASSWORD_SIZE](i => if 0 <= i < |v.password| then v.password[i] else NUL);
      ssid, password := s, p;
      ssidLen, channel, authmode := v.ssidLen, v.channel, v.authmode;
      ssidHidden, maxConnection, beaconInterval := v.ssidHidden, v.maxConnection, v.beaconInterval;
      new;
      assert ssid[..] == v.ssid;
      assert password[..] == v.password;
    }

    /** The password branch of wifiInit() for a defined AP_PASS. */
    method StorePassword(p: seq<byte>, apAuthMode: Option<int>)
      requires Valid()
      modifies this, password
      ensures Valid()
      ensures Value() == WithPassword(old(Value()), p, apAuthMode)
    {
      var passlen := |p|;
      var passOk := CheckString(p);
      if passOk && passlen > 7 && passlen < 64 {
        Memset(password, NUL, PASSWORD_SIZE);
        Memcpy(password, p, passlen);
        assert password[..] == Pad(p, PASSWORD_SIZE);
        match apAuthMode {
          case Some(mode) =>
            if 0 <= mode <= AP_AUTH_MODE_LIMIT {
              authmode := mode as nat;
            }
          case None =>
            authmode := AUTH_WPA_WPA2_PSK;
        }
      } else if passlen == 0 {
        authmode := AUTH_OPEN;
        Memset(password, NUL, PASSWORD_SIZE);
        assert password[..] == Fill(NUL, PASSWORD_SIZE);
      }
    }

    /** The SSID check of wifiInit() and, for an accepted SSID, the password branch. */
    method StoreCredentials(b: BuildOptions)
      requires Valid() && b.apSsid.Some?
      modifies this, ssid, password
      ensures Valid()
      ensures var s := b.apSsid.value;
        Value() == if SsidAcceptable(s) then WithCredentials(old(Value()), s, b) else old(Value())
    {
      var s := b.apSsid.value;
      var ssidlen := |s|;
      var ssidOk := CheckString(s);
      if ssidOk && ssidlen > 7 && ssidlen < 32 {
        Memset(ssid, NUL, SSID_SIZE);
        Memcpy(ssid, s, |s|);
        ssidLen := ssidlen;
        assert ssid[..] == Pad(s, SSID_SIZE);
        if b.apPass.Some? {
          StorePassword(b.apPass.value, b.apAuthMode);
        }
      }
    }

    /** The AP_SSID_HIDDEN, AP_MAX_CONN and AP_BEACON_INTERVAL overrides of wifiInit(). */
    method StoreOverrides(b: BuildOptions)
      requires Valid()
      modifies this
      ensures Valid()
      ensures Value() == WithOverrides(old(Value()), b)
    {
      if b.apSsidHidden.Some? {
        var hidden := b.apSsidHidden.value;
        if hidden == 0 || hidden == 1 {
          ssidHidden := hidden as nat;
        }
      }
      if b.apMaxConn.Some? {
        var maxConn := b.apMaxConn.value;
        if maxConn > 0 && maxConn < 5 {
          maxConnection := maxConn as nat;
        }
      }
      if b.apBeaconInterval.Some? {
        var interval := b.apBeaconInterval.value;
        if interval >= 100 && interval <= 60000 {
          beaconInterval := interval as nat;
        }
      }
    }
  }
}
