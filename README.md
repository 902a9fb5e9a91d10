# esp-link WiFi supervisor, modelled in Dafny

This project models the WiFi supervisor in `esp-link/cgiwifi.c` of an ESP8266
WiFi-to-serial bridge. It has four parts:

- **Disconnect-reason lookup.** `wifiGetReason` turns the driver's disconnect
  reason into an index of the 26-entry `wifiReasons` table. Codes 0..24 index
  the table directly. Codes 200..201 map to entries 24..25. Every other code
  gets "unspecified".
- **Identifier check.** `checkString` accepts a build-time string when every
  byte is an ASCII letter, a digit or `_`.
- **Soft-AP configuration.** `wifiInit` puts the radio in AP-only mode
  (`SOFTAP_MODE`). When `AP_SSID` is defined, it fills a `softap_config`
  struct, starting from the driver's default. The optional build-time values
  overwrite the SSID, password, auth mode, hidden flag, connection limit and
  beacon interval, each only when it passes its check. The struct is then
  pushed to the driver. `wifiInit` also selects modem sleep. In debug builds
  it installs the event handler and arms the 15000 ms one-shot reset timer,
  disarming it first.
- **Recovery timer.** `resetTimerCb` runs when the reset timer fires. It reads
  the low two bits of the operating mode (1 = STA, 2 = AP, 3 = AP+STA) and
  whether the station has an IP address. In AP-only mode it does nothing.
  Without an IP it forces AP+STA, pushes the AP config again if the mode
  changed, and re-arms the timer. With an IP and the `CHANGE_TO_STA` build
  flag set, it switches to STA-only and checks one more time. In every other
  case it stops re-arming.

Modules:

- `CLib` (`clib.dfy`): bytes, `isalnum`, zero-padded buffers, NUL-terminated
  strings, and `os_memset`/`os_memcpy` on arrays.
- `WifiReasons` (`wifi_reasons.dfy`): the reason table and the lookup.
- `ApConfig` (`apconfig.dfy`): `checkString` as a loop, `softap_config` in two
  forms, the build options, and the reference function `BuildApConfig` with
  its lemmas. `SoftapConfigValue` is the struct as a value. The class
  `SoftapConfig` is the in-place struct with its fixed 32- and 64-byte arrays.
- `Recovery` (`recovery.dfy`): the decision `resetTimerCb` takes, as a pure
  function, with its lemmas.
- `CgiWifi` (`cgiwifi.dfy`): the class `Wifi`. It holds the driver state
  (operating mode, station status, applied AP config, the file-scope `apconf`,
  the reset timer) and a log of every SDK call that has an effect, in order.
  Its methods `WifiInit`, `ResetTimerCb` and `FireResetTimer` are proved
  against `BuildApConfig`, `RecoveryDecision` and the call sequences
  `InitCalls`/`ActionCalls`.

The build-time macros are the fields of `BuildOptions`, and a macro that is
not defined is `None`. Vendor SDK calls are represented by their effects on
the fields of `Wifi` and by entries in `Wifi.sdkCalls`. A stringified macro
such as `VERS_STR(AP_SSID)` is a byte sequence: the bytes before its NUL
terminator.

Choices where the code and its comments disagree:

- The comment above `wifiInit` (cgiwifi.c:135-141) says the mode is set to
  STA+AP. The code at cgiwifi.c:149 sets `SOFTAP_MODE`. The model follows the
  code. As a result, the first reset check after boot sees AP-only mode and does
  nothing: `Wifi.InitThenFirstCheck` ends with no check pending.
- The `wifiReasons` table (cgiwifi.c:31-37) has no entry for code 12, so the
  labels at indices 12 through 23 are each shifted by one: code 12 prints
  "ie_invalid" and code 13 prints "mic_failure". The table is modelled as
  written. One visible effect: codes 24 and 200 both print
  "beacon_timeout" (`ReasonLabelsCollideOnlyAt24And200`).
- `resetTimerCb` pushes `apconf` (cgiwifi.c:109). Under C scoping this is not
  the local `apconf` that `wifiInit` fills (cgiwifi.c:154). The model keeps it
  as the field `Wifi.apconf`. `WifiInit` never writes that field, and its
  initial value is a constructor parameter.

## Model

| member | source | states |
|---|---|---|
| `WifiReasons.WifiGetReason` | esp-link/cgiwifi.c:41-45 | the returned label is always one of the table's 26 entries; its value per code is stated by `WifiGetReasonMatchesCodes`, `UnspecifiedIff` and `ReasonLabelsCollideOnlyAt24And200` |
| `WifiReasons.ReasonIndex` | esp-link/cgiwifi.c:41-45 | the index read for any reason code lies inside the 26-entry table |
| `WifiReasons.WifiGetReasonMatchesCodes` | esp-link/cgiwifi.c:31-45 | codes 0..24 and 200..201 are exactly the listed codes, each gets its listed label (200, 201 get entries 24, 25), and every other code gets "unspecified" |
| `WifiReasons.ReasonTableDistinct` | esp-link/cgiwifi.c:31-37 | the 26 labels of the table are pairwise different |
| `WifiReasons.UnspecifiedIff` | esp-link/cgiwifi.c:42-44 | the label is "unspecified" iff the code is 1 or the table does not cover it |
| `WifiReasons.ReasonLabelsCollideOnlyAt24And200` | esp-link/cgiwifi.c:31-43 | two different covered codes print the same label iff they are 24 and 200 |
| `ApConfig.CheckString` | esp-link/cgiwifi.c:120-132 | returns true iff every byte is a letter, a digit or `_`; so the empty string passes and any other byte fails |
| `ApConfig.IdentifierHasNoNul` | esp-link/cgiwifi.c:122-125 | a string that passes the check contains no NUL byte |
| `CLib.CStringOfPad` | esp-link/cgiwifi.c:162-163 | a NUL-free string copied into a zeroed, larger buffer reads back as exactly that string |
| `CLib.Memset` | esp-link/cgiwifi.c:162 | the first n bytes are set to the value and the rest of the buffer is unchanged |
| `CLib.Memcpy` | esp-link/cgiwifi.c:163 | the first n bytes are the source's first n bytes and the rest of the buffer is unchanged |
| `ApConfig.SoftapConfig.GetConfigDefault` | esp-link/cgiwifi.c:154-156 | a fresh struct whose content is the driver's default configuration |
| `ApConfig.SoftapConfig.StoreCredentials` | esp-link/cgiwifi.c:158-189 | the struct is updated by the SSID and password steps exactly when the SSID passes `checkString` and 7 < length < 32, and is left unchanged otherwise |
| `ApConfig.SoftapConfig.StorePassword` | esp-link/cgiwifi.c:166-188 | the struct after the password branch is the password step applied to the struct before it |
| `ApConfig.SoftapConfig.StoreOverrides` | esp-link/cgiwifi.c:190-204 | the struct after the three overrides is the override step applied to the struct before it |
| `ApConfig.AuthModeFor` | esp-link/cgiwifi.c:174-181 | the auth mode set after a valid password is either in 0..4 or the current one; its cases are stated by `BuildApConfigPassword` |
| `ApConfig.WithPassword` | esp-link/cgiwifi.c:167-187 | the password step of the reference configuration changes only password and authmode and keeps the buffers at their sizes; its cases are stated by `BuildApConfigPassword` |
| `ApConfig.WithCredentials` | esp-link/cgiwifi.c:160-189 | the SSID step sets `ssid_len` to the SSID's length, keeps the buffers at their sizes and changes only ssid, ssid_len, password and authmode; see `BuildApConfigSsid` |
| `ApConfig.WithOverrides` | esp-link/cgiwifi.c:190-204 | the override step changes only ssid_hidden, max_connection and beacon_interval; see `BuildApConfigOverrides` |
| `ApConfig.BuildApConfig` | esp-link/cgiwifi.c:152-204 | the configuration wifiInit pushes keeps the buffer sizes and the default channel; see `BuildApConfigSsid`, `BuildApConfigPassword`, `BuildApConfigOverrides` and `BuildApConfigInRange` |
| `ApConfig.BuildApConfigSsid` | esp-link/cgiwifi.c:159-166 | with an acceptable SSID, the 32-byte buffer is the SSID followed by zeros, `ssid_len` is its length, and the buffer reads back as the SSID; without one, ssid, ssid_len, password and authmode keep their defaults; channel never changes |
| `ApConfig.BuildApConfigPassword` | esp-link/cgiwifi.c:167-187 | after an accepted SSID: a valid password (8..63 bytes, allowed characters) is stored zero-padded, and authmode becomes `AP_AUTH_MODE` if it is in 0..4, stays unchanged if it is out of range, or becomes WPA/WPA2-PSK if it is undefined; an empty password gives open auth with a zeroed password; any other password, or no `AP_PASS`, leaves password and authmode unchanged |
| `ApConfig.BuildApConfigOverrides` | esp-link/cgiwifi.c:190-204 | hidden, max_connection and beacon_interval take the build value iff it is defined and in {0,1}, 1..4 and 100..60000 respectively, whether or not the SSID was accepted |
| `ApConfig.BuildApConfigInRange` | esp-link/cgiwifi.c:174-203 | defaults inside the SDK's ranges stay inside them, because no out-of-range build value is ever stored |
| `Recovery.MaskMode` | esp-link/cgiwifi.c:91 | the masked mode is one of 0..3 |
| `Recovery.RecoveryDecision` | esp-link/cgiwifi.c:94-114 | the AP config is pushed only together with the switch to AP+STA, and every mode change is to a different mode and is followed by a re-arm; see also `ApOnlyIsIdle`, `NoIpFallsBackToApSta`, `GotIpGoesToSta`, `StaOnlyOnlyWithIp`, `StopsOnlyWhenSettled` and `DecisionSettles` |
| `Recovery.ModeAfter` | esp-link/cgiwifi.c:100-108 | the mode after a check is the old mode or the one the decision sets |
| `Recovery.ApOnlyIsIdle` | esp-link/cgiwifi.c:91-94 | with masked mode 2 the check sets no mode, pushes no AP config and does not re-arm the timer |
| `Recovery.NoIpFallsBackToApSta` | esp-link/cgiwifi.c:105-113 | without an IP (mode not 2), the mode afterwards is 3 and the timer is re-armed; the mode is set and the AP config pushed iff the mode was not already 3 |
| `Recovery.GotIpGoesToSta` | esp-link/cgiwifi.c:95-104 | with an IP (mode not 2), `CHANGE_TO_STA` and a mode other than 1 set mode 1 and re-arm the timer once more, with no AP config push; otherwise nothing is set and nothing is re-armed |
| `Recovery.StaOnlyOnlyWithIp` | esp-link/cgiwifi.c:86-88 | a check leaves the device in STA-only mode only while the station holds an IP address |
| `Recovery.StopsOnlyWhenSettled` | esp-link/cgiwifi.c:94-114 | the check stops re-arming iff the mode is AP-only, or the station has an IP and no switch to STA is due |
| `Recovery.DecisionSettles` | esp-link/cgiwifi.c:94-114 | a second check with the same station status sets no mode and pushes no AP config |
| `CgiWifi.Wifi.SdkSetOpmode` | esp-link/cgiwifi.c:108 | `wifi_set_opmode` sets the driver's mode, is logged, and changes nothing else |
| `CgiWifi.Wifi.SdkSoftapSetConfig` | esp-link/cgiwifi.c:109 | `wifi_softap_set_config` makes the pushed configuration the applied one, is logged, and changes nothing else |
| `CgiWifi.Wifi.SdkTimerArm` | esp-link/cgiwifi.c:112 | `os_timer_arm` arms the reset timer with the given delay and repeat flag, keeps its callback, is logged, and changes nothing else |
| `CgiWifi.ActionCalls` | esp-link/cgiwifi.c:94-114 | a check makes no SDK call at all exactly when it sets no mode, pushes nothing and does not re-arm; a re-arm is its last call |
| `CgiWifi.InitCalls` | esp-link/cgiwifi.c:149-222 | wifiInit's first call sets `SOFTAP_MODE`; in debug builds its last three calls disarm the reset timer, set its function and arm it, so one check is pending; otherwise the sleep-type call is last |
| `CgiWifi.Wifi.ResetTimerCb` | esp-link/cgiwifi.c:89-115 | the new mode, applied AP config, timer and SDK call sequence are those of the recovery decision for the masked mode, the station status and `CHANGE_TO_STA`; the calls come in the source's order (set mode, push config, arm); nothing else changes |
| `CgiWifi.Wifi.FireResetTimer` | esp-link/cgiwifi.c:220-222 | when the timer fires, a one-shot timer is disarmed and the callback's effects follow, so only a re-arm inside the callback leaves a check pending |
| `CgiWifi.Wifi.WifiInit` | esp-link/cgiwifi.c:142-224 | the mode is `SOFTAP_MODE`; with `AP_SSID` the driver gets `BuildApConfig` of its default config; in debug builds exactly one one-shot check is pending, at 15000 ms; the SDK calls are, in order, set mode, push config (with `AP_SSID`), set sleep type, then event handler, disarm, set function and arm (in debug builds) |
| `CgiWifi.Wifi.PushBuildApConfig` | esp-link/cgiwifi.c:152-206 | the driver's applied AP configuration becomes `BuildApConfig` of its default one, in a single `wifi_softap_set_config` call, and nothing else changes |
| `CgiWifi.Wifi.StartResetChecks` | esp-link/cgiwifi.c:217-222 | in debug builds the event handler is installed and the reset timer ends armed once for 15000 ms with `resetTimerCb` as its function, through exactly the calls disarm, set function and arm |
| `CgiWifi.Wifi.InitThenFirstCheck` | esp-link/cgiwifi.c:149 | after `wifiInit` and the first reset check, the radio is still AP-only and no further check is pending |

## Left out

- `wifiHandleEventCb` (cgiwifi.c:48-78) only prints debug output. Its registration is recorded as the `SetEventHandler` call.
- `DBG`/`os_printf` output, the `wifiMode` names and the debug-only mode read at cgiwifi.c:145-146 are logging only.
- The value `wifi_softap_set_config` returns is only printed. The model has the driver apply every pushed configuration.
- The effect of `wifi_set_sleep_type` appears only as an entry in the call log. No driver field models it.
- The declaration of `wifiReason` is not part of this model. Reason codes are modelled as unbounded non-negative integers, which covers an unsigned 8-bit code.
- Station status: valid values are set by the driver. The model only tells "got IP" apart from every other status.
- Timer service: arming the reset timer replaces any pending instance, and firing is modelled by `FireResetTimer`. The SDK's timer list is not modelled.
- Integer widths of `softap_config` (`uint8` ssid_len, max_connection, `uint16` beacon_interval, …): every value the code stores passes a range check and fits its field. Default values are taken as given.
- State-change subscribers, `wifiState` and `configWifiIP` are declared at cgiwifi.h:9-14 but have no bodies in this source. A subscriber registry, a connect request and a reassociation timer are not part of this model.
- `serial/uart.c`, `esp-link/main.c`, `esp-link/cgi.c` and `esp-link/cgiflash.h` are hardware setup, boot and HTTP plumbing. They are not part of this model.
