// Disconnect-reason labels of cgiwifi.c: the wifiReasons table and the lookup
// wifiGetReason() that turns the driver's reason code into an index of it.
module WifiReasons {

  /** The 26 labels, in the order the source lists them. */
  const WifiReasons: seq<string> := [
    "", "unspecified", "auth_expire", "auth_leave", "assoc_expire", "assoc_toomany", "not_authed",
    "not_assoced", "assoc_leave", "assoc_not_authed", "disassoc_pwrcap_bad", "disassoc_supchan_bad",
    "ie_invalid", "mic_failure", "4way_handshake_timeout", "group_key_update_timeout",
    "ie_in_4way_differs", "group_cipher_invalid", "pairwise_cipher_invalid", "akmp_invalid",
    "unsupp_rsn_ie_version", "invalid_rsn_ie_cap", "802_1x_auth_failed", "cipher_suite_rejected",
    "beacon_timeout", "no_ap_found"]

  const UNSPECIFIED := 1

  /** The table index wifiGetReason() reads for a reason code. */
  function ReasonIndex(reason: nat): (i: nat)
    ensures i < |WifiReasons|
  {
    if reason <= 24 then reason
    else if 200 <= reason <= 201 then reason - 200 + 24
    else UNSPECIFIED
  }

  /** wifiGetReason(): the label printed for a disconnect reason. */
  function WifiGetReason(reason: nat): (name: string)
    ensures name in WifiReasons
  {
    WifiReasons[ReasonIndex(reason)]
  }

  /** The lookup as a list of code/label pairs: every code the table covers, with its label. */
  const ReasonCodes: map<nat, string> := map[
    0 := "", 1 := "unspecified", 2 := "auth_expire", 3 := "auth_leave", 4 := "assoc_expire",
    5 := "assoc_toomany", 6 := "not_authed", 7 := "not_assoced", 8 := "assoc_leave",
    9 := "assoc_not_authed", 10 := "disassoc_pwrcap_bad", 11 := "disassoc_supchan_bad",
    12 := "ie_invalid", 13 := "mic_failure", 14 := "4way_handshake_timeout",
    15 := "group_key_update_timeout", 16 := "ie_in_4way_differs", 17 := "group_cipher_invalid",
    18 := "pairwise_cipher_invalid", 19 := "akmp_invalid", 20 := "unsupp_rsn_ie_version",
    21 := "invalid_rsn_ie_cap", 22 := "802_1x_auth_failed", 23 := "cipher_suite_rejected",
    24 := "beacon_timeout", 200 := "beacon_timeout", 201 := "no_ap_found"]

  /** A code the table covers: 0..24 directly, 200..201 through the second range. */
  predicate IsKnownReason(reason: nat) {
    reason <= 24 || 200 <= reason <= 201
  }

  lemma ReasonCodesCoverKnown(reason: nat)
    ensures IsKnownReason(reason) <==> reason in ReasonCodes
  {
  }

  lemma ReasonCodesDirectRange(reason: nat)
    requires reason <= 24
    ensures ReasonCodes[reason] == WifiReasons[reason]
  {
  }

  /** Every code gets the label listed for it, and every other code "unspecified". */
  lemma WifiGetReasonMatchesCodes(reason: nat)
    ensures IsKnownReason(reason) <==> reason in ReasonCodes
    ensures WifiGetReason(reason) == if reason in ReasonCodes then ReasonCodes[reason] else "unspecified"
  {
    ReasonCodesCoverKnown(reason);
    if reason <= 24 {
      ReasonCodesDirectRange(reason);
    }
  }

  /** No two entries of the table are equal. */
  lemma ReasonTableDistinct()
    ensures forall i, j :: 0 <= i < j < |WifiReasons| ==> WifiReasons[i] != WifiReasons[j]
  {
  }

  /** "unspecified" is printed exactly for code 1 and for the codes the table does not cover. */
  lemma UnspecifiedIff(reason: nat)
    ensures WifiGetReason(reason) == "unspecified" <==> reason == UNSPECIFIED || !IsKnownReason(reason)
  {
    ReasonTableDistinct();
  }

  /** Two different covered codes share a label only for the pair 24 and 200. */
  lemma ReasonLabelsCollideOnlyAt24And200(r1: nat, r2: nat)
    requires IsKnownReason(r1) && IsKnownReason(r2) && r1 < r2
    ensures WifiGetReason(r1) == WifiGetReason(r2) <==> r1 == 24 && r2 == 200
  {
    ReasonTableDistinct();
  }
}
