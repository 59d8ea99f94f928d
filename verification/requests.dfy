/** The requests the controller client sends, as abstract values, and the
    zone and WLAN operations of `Ruckus` that issue one request and classify
    the reply's status code. Sessions, TLS and JSON are not modelled: an
    operation is a function from the data it read and the reply's status to
    the request it sends and the verdict it prints. */
module Requests {
  import opened Records
  import opened Lookup

  /** The AP login credential a zone's APs share. */
  datatype Credential = Credential(apLoginName: string, apLoginPassword: string)

  /** The sub-resource of a zone a PATCH is sent to. */
  datatype Target =
    | ZoneConfig                  // rkszones/{id}
    | ApLogin                     // rkszones/{id}/login
    | AutoChannel24               // rkszones/{id}/autoChannelSelection24
    | AutoChannel50               // rkszones/{id}/autoChannelSelection50
    | Wifi24                      // rkszones/{id}/wifi24
    | Wifi50                      // rkszones/{id}/wifi50
    | WlanAuth(wlanId: string)    // rkszones/{id}/wlans/{wlanId}/authServiceOrProfile

  /** The JSON bodies the client sends. */
  datatype Body =
    | NewZone(domainId: string, name: string, login: Credential, description: string,
              version: string, countryCode: string)
    | DfsChannels(enabled: bool)
    | ChannelSelect(mode: string)
    | Channelfly(mode: string, mtbc: int)
    | Login(credential: Credential)
    | Radio24(txPower: string, channelRange: seq<int>)
    | Radio50(txPower: string, indoorChannelRange: seq<int>, outdoorChannelRange: seq<int>)
    | AuthProfile(name: string)

  /** One request a client operation sends. */
  datatype Request =
    | Post(body: Body)
    | Delete(zoneId: string)
    | Patch(zoneId: string, target: Target, body: Body)

  /** A request sent and the verdict printed for its reply. */
  datatype Outcome = Outcome(request: Request, succeeded: bool)

  /** Fixed values of `create_zone`, and the authentication profile
      `modify_wlan_auth` sets by default. */
  const ControllerVersion := "3.5.1.0.1026"
  const CountryCode := "US"
  const DefaultAuthService := "F5-VIP-ISE-Radius"

  /** The status codes the client reports as success. */
  const DeletedStatus := 200
  const PatchedStatus := 204

  /** `create_zone(zone_name, ap_login, domain_id, description)` on a client
      whose login gave `sessionDomain`: the zone is created in the session's
      domain exactly when no domain is passed, and success is printed
      whatever the reply. */
  function CreateZone(sessionDomain: string, zoneName: string, login: Credential,
                      domainId: Option<string>, description: string): (r: Outcome)
    ensures r.request.Post? && r.request.body.NewZone?
    ensures domainId.None? ==> r.request.body.domainId == sessionDomain
    ensures domainId.Some? ==> r.request.body.domainId == domainId.value
    ensures r.request.body.name == zoneName && r.request.body.login == login
    ensures r.request.body.description == description
    ensures r.request.body.version == ControllerVersion && r.request.body.countryCode == CountryCode
    ensures r.succeeded
  {
    var domain := if domainId.None? then sessionDomain else domainId.value;
    Outcome(Post(NewZone(domain, zoneName, login, description, ControllerVersion, CountryCode)), true)
  }

  /** `delete_zone(zone)`: look the zone up by name, DELETE it, and report
      success only on status 200. */
  function DeleteZone(zones: seq<Zone>, name: string, status: int): (r: Result<Outcome>)
    ensures r.Err? <==> forall i :: 0 <= i < |zones| ==> zones[i].name != name
    ensures r.Err? ==> r.error == ZoneIdUnbound(name)
    ensures r.Ok? ==> r.value.request.Delete?
                      && exists i :: 0 <= i < |zones| && zones[i].name == name
                                     && r.value.request.zoneId == zones[i].id
                                     && forall j :: i < j < |zones| ==> zones[j].name != name
    ensures r.Ok? ==> (r.value.succeeded <==> status == 200)
  {
    match ZoneId(zones, name)
    case Ok(id) => Ok(Outcome(Delete(id), status == DeletedStatus))
    case Err(e) => Err(e)
  }

  /** `modify_zone(zone)`: look the zone up by name, PATCH it to enable DFS
      channels, and report success only on status 204. */
  function ModifyZone(zones: seq<Zone>, name: string, status: int): (r: Result<Outcome>)
    ensures r.Err? <==> forall i :: 0 <= i < |zones| ==> zones[i].name != name
    ensures r.Err? ==> r.error == ZoneIdUnbound(name)
    ensures r.Ok? ==> r.value.request.Patch? && r.value.request.target == ZoneConfig
                      && r.value.request.body == DfsChannels(true)
                      && exists i :: 0 <= i < |zones| && zones[i].name == name
                                     && r.value.request.zoneId == zones[i].id
                                     && forall j :: i < j < |zones| ==> zones[j].name != name
    ensures r.Ok? ==> (r.value.succeeded <==> status == 204)
  {
    match ZoneId(zones, name)
    case Ok(id) => Ok(Outcome(Patch(id, ZoneConfig, DfsChannels(true)), status == PatchedStatus))
    case Err(e) => Err(e)
  }

  /** `update_ap_login(zone, aplogin)`: look the zone up by name and PATCH
      its login sub-resource with the credential; nothing is reported. */
  function UpdateApLogin(zones: seq<Zone>, name: string, login: Credential): (r: Result<Request>)
    ensures r.Err? <==> forall i :: 0 <= i < |zones| ==> zones[i].name != name
    ensures r.Err? ==> r.error == ZoneIdUnbound(name)
    ensures r.Ok? ==> r.value.Patch? && r.value.target == ApLogin && r.value.body == Login(login)
                      && exists i :: 0 <= i < |zones| && zones[i].name == name
                                     && r.value.zoneId == zones[i].id
                                     && forall j :: i < j < |zones| ==> zones[j].name != name
  {
    match ZoneId(zones, name)
    case Ok(id) => Ok(Patch(id, ApLogin, Login(login)))
    case Err(e) => Err(e)
  }

  /** `modify_wlan_auth(zone_id, wlan_id, auth_service_name)`: no lookup;
      PATCH the WLAN's authentication profile by name and report success
      only on status 204. */
  function ModifyWlanAuth(zoneId: string, wlanId: string, authServiceName: string, status: int): (r: Outcome)
    ensures r.request == Patch(zoneId, WlanAuth(wlanId), AuthProfile(authServiceName))
    ensures r.succeeded <==> status == 204
  {
    Outcome(Patch(zoneId, WlanAuth(wlanId), AuthProfile(authServiceName)), status == PatchedStatus)
  }

  /** A reply of 403 to the WLAN change is reported as a failure and one of
      204 as a success; neither raises. */
  lemma WlanAuthScenario(zoneId: string, wlanId: string)
    ensures ModifyWlanAuth(zoneId, wlanId, DefaultAuthService, 204).succeeded
    ensures !ModifyWlanAuth(zoneId, wlanId, DefaultAuthService, 403).succeeded
  {
  }

  /** The two PATCH operations that classify their reply agree on every
      status: the WLAN profile change succeeds exactly when the zone
      modification would. */
  lemma PatchVerdictsAgree(zones: seq<Zone>, name: string, zoneId: string, wlanId: string,
                           authServiceName: string, status: int)
    requires ModifyZone(zones, name, status).Ok?
    ensures ModifyWlanAuth(zoneId, wlanId, authServiceName, status).succeeded
            == ModifyZone(zones, name, status).value.succeeded
  {
  }

  /** Leaving the domain out is the same as passing the session's own
      domain. */
  lemma CreateZoneDefaultDomain(sessionDomain: string, zoneName: string, login: Credential, description: string)
    ensures CreateZone(sessionDomain, zoneName, login, None, description)
            == CreateZone(sessionDomain, zoneName, login, Some(sessionDomain), description)
  {
  }

  /** A passed domain overrides the session's: the zone is created there
      and the request differs from the default one. */
  lemma CreateZonePassedDomainWins(sessionDomain: string, domain: string, zoneName: string,
                                   login: Credential, description: string)
    requires domain != sessionDomain
    ensures CreateZone(sessionDomain, zoneName, login, Some(domain), description).request.body.domainId == domain
    ensures CreateZone(sessionDomain, zoneName, login, Some(domain), description)
            != CreateZone(sessionDomain, zoneName, login, None, description)
  {
  }

  /** Runs of spaces the source's backslash-continued f-strings carry into
      three URLs: the next line's indentation becomes part of the string. */
  function Spaces(n: nat): (s: string)
    ensures |s| == n && forall i :: 0 <= i < n ==> s[i] == ' '
  {
    if n == 0 then "" else " " + Spaces(n - 1)
  }

  /** The URL of a zone sub-resource below `/v5_0/`, as the source writes it:
      the login URL has 12 spaces before the zone id, the channel-selection
      URLs 20 before the resource name, the WLAN-profile URL 12 before the
      WLAN id's slash. */
  function TargetPathAsWritten(zoneId: string, t: Target): (p: string)
    ensures WithoutSpaces(p) == WithoutSpaces(TargetPath(zoneId, t))
  {
    match t
    case ZoneConfig => "rkszones/" + zoneId
    case ApLogin =>
      LoginPathParts(zoneId);
      Continued("rkszones/", 12, zoneId + "/login")
    case AutoChannel24 =>
      ChannelSelection24PathParts(zoneId);
      Continued("rkszones/" + zoneId + "/", 20, "autoChannelSelection24")
    case AutoChannel50 =>
      ChannelSelection50PathParts(zoneId);
      Continued("rkszones/" + zoneId + "/", 20, "autoChannelSelection50")
    case Wifi24 => "rkszones/" + zoneId + "/wifi24"
    case Wifi50 => "rkszones/" + zoneId + "/wifi50"
    case WlanAuth(w) =>
      WlanPathParts(zoneId, w);
      Continued("rkszones/" + zoneId + "/wlans", 12, "/" + w + "/authServiceOrProfile")
  }

  /** The intended URLs, split where the source continues their literals. */
  lemma LoginPathParts(zoneId: string)
    ensures TargetPath(zoneId, ApLogin) == "rkszones/" + (zoneId + "/login")
  {
  }

  lemma ChannelSelection24PathParts(zoneId: string)
    ensures TargetPath(zoneId, AutoChannel24) == "rkszones/" + zoneId + "/" + "autoChannelSelection24"
  {
  }

  lemma ChannelSelection50PathParts(zoneId: string)
    ensures TargetPath(zoneId, AutoChannel50) == "rkszones/" + zoneId + "/" + "autoChannelSelection50"
  {
  }

  lemma WlanPathParts(zoneId: string, w: string)
    ensures TargetPath(zoneId, WlanAuth(w)) == "rkszones/" + zoneId + "/wlans" + ("/" + w + "/authServiceOrProfile")
  {
  }

  /** A string literal continued by a backslash after `pre`, whose next line
      is indented by `n` spaces before `post`: the spaces vanish once spaces
      are removed. */
  function Continued(pre: string, n: nat, post: string): (s: string)
    ensures |s| == |pre| + n + |post|
    ensures WithoutSpaces(s) == WithoutSpaces(pre + post)
  {
    WithoutSpacesGap(pre, n, post);
    pre + Spaces(n) + post
  }

  lemma WithoutSpacesGap(pre: string, n: nat, post: string)
    ensures WithoutSpaces(pre + Spaces(n) + post) == WithoutSpaces(pre + post)
  {
    calc {
      WithoutSpaces(pre + Spaces(n) + post);
    == { WithoutSpacesAppend(pre + Spaces(n), post); }
      WithoutSpaces(pre + Spaces(n)) + WithoutSpaces(post);
    == { WithoutSpacesAppend(pre, Spaces(n)); WithoutSpacesOfSpaces(n); }
      WithoutSpaces(pre) + WithoutSpaces(post);
    == { WithoutSpacesAppend(pre, post); }
      WithoutSpaces(pre + post);
    }
  }

  /** Whatever the zone id, the login, channel-selection and WLAN-profile
      URLs as written contain a space. */
  lemma PathAsWrittenHasSpaces(zoneId: string, t: Target)
    requires t.ApLogin? || t.AutoChannel24? || t.AutoChannel50? || t.WlanAuth?
    ensures ' ' in TargetPathAsWritten(zoneId, t)
  {
    var p := TargetPathAsWritten(zoneId, t);
    match t
    case ApLogin => assert p[9] == ' ';
    case AutoChannel24 => assert p[10 + |zoneId|] == ' ';
    case AutoChannel50 => assert p[10 + |zoneId|] == ' ';
    case WlanAuth(w) => assert p[15 + |zoneId|] == ' ';
  }

  /** The path of a zone sub-resource's own name, after the zone id. */
  function TargetSuffix(t: Target): string
  {
    match t
    case ZoneConfig => ""
    case ApLogin => "/login"
    case AutoChannel24 => "/autoChannelSelection24"
    case AutoChannel50 => "/autoChannelSelection50"
    case Wifi24 => "/wifi24"
    case Wifi50 => "/wifi50"
    case WlanAuth(w) => "/wlans/" + w + "/authServiceOrProfile"
  }

  /** The URL of a zone sub-resource below `/v5_0/`, as the controller's API
      names it: the zone path, the zone id, and the resource's own path,
      with no space of its own. */
  function TargetPath(zoneId: string, t: Target): (p: string)
    ensures p == "rkszones/" + zoneId + TargetSuffix(t)
    ensures ' ' !in zoneId && (t.WlanAuth? ==> ' ' !in t.wlanId) ==> ' ' !in p
  {
    match t
    case ZoneConfig => "rkszones/" + zoneId
    case ApLogin => "rkszones/" + zoneId + "/login"
    case AutoChannel24 => "rkszones/" + zoneId + "/autoChannelSelection24"
    case AutoChannel50 => "rkszones/" + zoneId + "/autoChannelSelection50"
    case Wifi24 => "rkszones/" + zoneId + "/wifi24"
    case Wifi50 => "rkszones/" + zoneId + "/wifi50"
    case WlanAuth(w) => "rkszones/" + zoneId + "/wlans/" + w + "/authServiceOrProfile"
  }

  /** The characters of `s` other than spaces, in order. */
  function WithoutSpaces(s: string): (r: string)
    ensures ' ' !in r
    ensures |r| <= |s|
  {
    if |s| == 0 then ""
    else (if s[0] == ' ' then "" else [s[0]]) + WithoutSpaces(s[1..])
  }

  lemma {:induction false} WithoutSpacesAppend(a: string, b: string)
    ensures WithoutSpaces(a + b) == WithoutSpaces(a) + WithoutSpaces(b)
  {
    if |a| == 0 {
      assert a + b == b;
    } else {
      var h := if a[0] == ' ' then "" else [a[0]];
      assert (a + b)[0] == a[0] && (a + b)[1..] == a[1..] + b;
      assert WithoutSpaces(a + b) == h + WithoutSpaces(a[1..] + b);
      WithoutSpacesAppend(a[1..], b);
      assert WithoutSpaces(a) == h + WithoutSpaces(a[1..]);
      assert h + (WithoutSpaces(a[1..]) + WithoutSpaces(b)) == h + WithoutSpaces(a[1..]) + WithoutSpaces(b);
    }
  }

  lemma {:induction false} WithoutSpacesOfSpaces(n: nat)
    ensures WithoutSpaces(Spaces(n)) == ""
  {
    if n > 0 {
      assert Spaces(n)[1..] == Spaces(n - 1);
      WithoutSpacesOfSpaces(n - 1);
    }
  }

  lemma {:induction false} WithoutSpacesKeeps(s: string)
    requires ' ' !in s
    ensures WithoutSpaces(s) == s
  {
    if |s| > 0 {
      assert s == [s[0]] + s[1..];
      WithoutSpacesKeeps(s[1..]);
    }
  }

  /** The inserted indentation is the whole difference: with ids free of
      spaces, removing the spaces from a URL as written gives the intended
      URL, for every sub-resource. */
  lemma ContinuationOnlyAddsSpaces(zoneId: string, t: Target)
    requires ' ' !in zoneId && (t.WlanAuth? ==> ' ' !in t.wlanId)
    ensures WithoutSpaces(TargetPathAsWritten(zoneId, t)) == TargetPath(zoneId, t)
  {
    WithoutSpacesKeeps(TargetPath(zoneId, t));
  }

  /** On the zone, radio and zone-configuration URLs, which are not
      continued, the two renderings agree. */
  lemma PathsAgreeWithoutContinuation(zoneId: string, t: Target)
    requires t.ZoneConfig? || t.Wifi24? || t.Wifi50?
    ensures TargetPathAsWritten(zoneId, t) == TargetPath(zoneId, t)
  {
  }
}
