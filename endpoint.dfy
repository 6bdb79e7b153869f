/**
 * The address the client connects to:
 *   wss://ws.rtlayer.com/<org>/<service>/?token=<token>
 * built by plain string interpolation, with a parser that recovers the three
 * parts when the organisation and service names contain no '/'.
 */
module Endpoint {
  import opened Wrappers

  const BaseUrl: string := "wss://ws.rtlayer.com"
  const TokenKey: string := "?token="

  /** The URL the constructor stores and every connection attempt dials. */
  function ConnectUrl(org: string, service: string, token: string): (url: string)
  {
    BaseUrl + "/" + org + "/" + service + "/" + TokenKey + token
  }

  /** The index of the first '/' in `s`. */
  function FirstSlash(s: string): (r: Option<nat>)
    ensures r.Some? ==> r.value < |s| && s[r.value] == '/' && '/' !in s[..r.value]
    ensures r.None? ==> '/' !in s
  {
    if s == [] then None
    else if s[0] == '/' then Some(0)
    else match FirstSlash(s[1..])
      case None => None
      case Some(i) => Some(i + 1)
  }

  /** Splits `s` at its first '/' into what comes before and what comes after. */
  function SplitAtSlash(s: string): (r: Option<(string, string)>)
  {
    match FirstSlash(s)
    case None => None
    case Some(i) => Some((s[..i], s[i + 1..]))
  }

  /** Splits a URL of the shape above back into organisation, service and token. */
  function ParseUrl(u: string): (r: Option<(string, string, string)>)
  {
    if !(BaseUrl + "/" <= u) then None
    else match SplitAtSlash(u[|BaseUrl| + 1..])
      case None => None
      case Some((org, r)) =>
        match SplitAtSlash(r)
        case None => None
        case Some((service, query)) =>
          if TokenKey <= query then Some((org, service, query[|TokenKey|..])) else None
  }

  /** The first '/' of `a + "/" + b` is the one after `a` when `a` has none. */
  lemma {:induction false} FirstSlashAfter(a: string, b: string)
    requires '/' !in a
    ensures FirstSlash(a + "/" + b) == Some(|a|)
  {
    if a != [] {
      assert (a + "/" + b)[1..] == a[1..] + "/" + b;
      FirstSlashAfter(a[1..], b);
    }
  }

  lemma SplitAtSlashOf(a: string, b: string)
    requires '/' !in a
    ensures SplitAtSlash(a + "/" + b) == Some((a, b))
  {
    FirstSlashAfter(a, b);
    assert (a + "/" + b)[..|a|] == a;
    assert (a + "/" + b)[|a| + 1..] == b;
  }

  /** The URL determines organisation, service and token when the names contain no '/'. */
  lemma ParseConnectUrl(org: string, service: string, token: string)
    requires '/' !in org && '/' !in service
    ensures ParseUrl(ConnectUrl(org, service, token)) == Some((org, service, token))
  {
    var query := TokenKey + token;
    var r := service + "/" + query;
    var rest := org + "/" + r;
    var u := ConnectUrl(org, service, token);
    assert u == BaseUrl + "/" + rest;
    assert u[|BaseUrl| + 1..] == rest;
    SplitAtSlashOf(org, r);
    SplitAtSlashOf(service, query);
    assert query[|TokenKey|..] == token;
  }

  /**
   * The parts are interpolated without encoding, so a '/' inside a name moves
   * the boundary between organisation and service without changing the URL.
   */
  lemma SlashMovesBoundary(x: string, y: string, z: string, token: string)
    ensures ConnectUrl(x + "/" + y, z, token) == ConnectUrl(x, y + "/" + z, token)
  {
    assert x + "/" + y + "/" + z == x + "/" + (y + "/" + z);
  }

  /** Two different destinations, one URL. */
  lemma DistinctDestinationsShareUrl(token: string)
    ensures ("a/b", "c") != ("a", "b/c")
    ensures ConnectUrl("a/b", "c", token) == ConnectUrl("a", "b/c", token)
  {
    SlashMovesBoundary("a", "b", "c", token);
  }
}
