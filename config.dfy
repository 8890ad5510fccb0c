/** Configuration: the display constants, the subnet to scan and the
    management-API password. The host-name lookup and the environment are
    inputs: a lookup that fails is `None`, an unset variable is `None`. */
module Config {
  import opened Wrappers

  const SCREEN_WIDTH := 480
  const SCREEN_HEIGHT := 320
  /** Smallest touch target, in pixels. */
  const MIN_TOUCH_TARGET := 44

  const FALLBACK_SUBNET := "192.168.1.0/24"
  const LOOPBACK := "127.0.0.1"
  const SUBNET_SUFFIX := ".0/24"
  const DEFAULT_WHATSMINER_PASSWORD := "admin"

  predicate EndsWith(s: string, suffix: string) {
    |suffix| <= |s| && s[|s| - |suffix|..] == suffix
  }

  /** `k` is the position of the last '.' in `s`. */
  predicate IsLastDot(s: string, k: int) {
    0 <= k < |s| && s[k] == '.' && forall j :: k < j < |s| ==> s[j] != '.'
  }

  predicate HasNoDot(s: string) {
    forall j :: 0 <= j < |s| ==> s[j] != '.'
  }

  /** Position of the last '.' in `s`, searching from the right. */
  function LastDot(s: string): (r: Option<nat>)
    ensures r.Some? ==> IsLastDot(s, r.value)
    ensures r.None? ==> HasNoDot(s)
  {
    if s == [] then None
    else if s[|s| - 1] == '.' then Some(|s| - 1)
    else LastDot(s[..|s| - 1])
  }

  /** `s.rsplit(".", 1)`: the text before and after the last dot, or `[s]`
      when there is none. */
  function RSplitLastDot(s: string): (parts: seq<string>)
    ensures 1 <= |parts| <= 2
    ensures |parts| == 1 <==> HasNoDot(s)
    ensures |parts| == 1 ==> parts[0] == s
    ensures |parts| == 2 ==> parts[0] + "." + parts[1] == s && HasNoDot(parts[1])
  {
    match LastDot(s)
    case Some(k) => [s[..k], s[k + 1..]]
    case None => [s]
  }

  /** `get_default_subnet()`: `resolved` is the address the host name resolved
      to, or `None` when the lookup raised. */
  function DefaultSubnet(resolved: Option<string>): (r: string)
    ensures EndsWith(r, SUBNET_SUFFIX)
    ensures resolved.None? ==> r == FALLBACK_SUBNET
    ensures resolved == Some("") || resolved == Some(LOOPBACK) ==> r == FALLBACK_SUBNET
    ensures resolved.Some? && HasNoDot(resolved.value) ==> r == FALLBACK_SUBNET
  {
    match resolved
    case None => FALLBACK_SUBNET
    case Some(ip) =>
      if ip != "" && ip != LOOPBACK then
        var parts := RSplitLastDot(ip);
        if |parts| == 2 then parts[0] + SUBNET_SUFFIX else FALLBACK_SUBNET
      else FALLBACK_SUBNET
  }

  /** A dotted address other than the loopback one gives everything before its
      last dot followed by ".0/24". */
  lemma DottedAddressSubnet(ip: string, k: int)
    requires ip != LOOPBACK && IsLastDot(ip, k)
    ensures DefaultSubnet(Some(ip)) == ip[..k] + SUBNET_SUFFIX
  {
    var found := LastDot(ip);
    assert found == Some(k) by {
      if found.None? {
        assert false;
      } else if found.value < k {
        assert false;
      } else if found.value > k {
        assert false;
      }
    }
  }

  /** `SUBNET`: the environment override when it is set (even to the empty
      string), otherwise the derived default. */
  function Subnet(env: Option<string>, resolved: Option<string>): (r: string)
    ensures env.Some? ==> r == env.value
    ensures env.None? ==> r == DefaultSubnet(resolved)
  {
    env.GetOr(DefaultSubnet(resolved))
  }

  /** `WHATSMINER_PASSWORD`: the environment override, otherwise "admin". */
  function WhatsminerPassword(env: Option<string>): (r: string)
    ensures env.Some? ==> r == env.value
    ensures env.None? ==> r == DEFAULT_WHATSMINER_PASSWORD
  {
    env.GetOr(DEFAULT_WHATSMINER_PASSWORD)
  }
}
