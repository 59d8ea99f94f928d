/** The two lookups of the controller client: a zone's id by its name
    (`Ruckus.get_zone_id`) and the id of a zone's "SFUSD" WLAN
    (`Ruckus.get_wlan_id`). The lists are what the controller returned; the
    requests that fetch them are not modelled. */
module Lookup {
  import opened Records

  /** The loop of `get_zone_id` over the zones still to visit, with `found`
      the value of `zone_id` so far: every match overwrites it. */
  function ScanZoneId(zones: seq<Zone>, name: string, found: Option<string>): (r: Option<string>)
    ensures (forall i :: 0 <= i < |zones| ==> zones[i].name != name) ==> r == found
    ensures forall i :: 0 <= i < |zones| && zones[i].name == name
                        && (forall j :: i < j < |zones| ==> zones[j].name != name)
                        ==> r == Some(zones[i].id)
    decreases |zones|
  {
    if |zones| == 0 then found
    else
      var r := ScanZoneId(zones[1..], name, if zones[0].name == name then Some(zones[0].id) else found);
      assert forall i :: 0 < i < |zones| ==> zones[i] == zones[1..][i - 1];
      r
  }

  /** `get_zone_id(name)` over the controller's zone list: the id of the LAST
      zone with that name, or the unbound-variable fault when there is none
      (the `except ValueError` does not catch it). */
  function ZoneId(zones: seq<Zone>, name: string): (r: Result<string>)
    ensures r.Ok? <==> exists i :: 0 <= i < |zones| && zones[i].name == name
    ensures r.Ok? ==> exists i :: 0 <= i < |zones| && zones[i].name == name && zones[i].id == r.value
                                  && forall j :: i < j < |zones| ==> zones[j].name != name
    ensures r.Err? ==> r.error == ZoneIdUnbound(name)
  {
    var found := ScanZoneId(zones, name, None);
    LastMatchFound(zones, name);
    if found.Some? then Ok(found.value) else Err(ZoneIdUnbound(name))
  }

  /** The scan from an unbound `zone_id` ends bound exactly when some zone
      has the name, and then to the last such zone's id. */
  lemma LastMatchFound(zones: seq<Zone>, name: string)
    ensures ScanZoneId(zones, name, None).Some? <==> exists i :: 0 <= i < |zones| && zones[i].name == name
    ensures ScanZoneId(zones, name, None).Some? ==>
              exists i :: 0 <= i < |zones| && zones[i].name == name
                          && zones[i].id == ScanZoneId(zones, name, None).value
                          && forall j :: i < j < |zones| ==> zones[j].name != name
  {
    if exists i :: 0 <= i < |zones| && zones[i].name == name {
      var i := LastMatch(zones, name);
      assert ScanZoneId(zones, name, None) == Some(zones[i].id);
    }
  }

  /** The index of the last zone named `name`. */
  lemma LastMatch(zones: seq<Zone>, name: string) returns (i: int)
    requires exists k :: 0 <= k < |zones| && zones[k].name == name
    ensures 0 <= i < |zones| && zones[i].name == name
    ensures forall j :: i < j < |zones| ==> zones[j].name != name
  {
    i := |zones| - 1;
    while zones[i].name != name
      invariant 0 <= i < |zones|
      invariant forall j :: i < j < |zones| ==> zones[j].name != name
      invariant exists k :: 0 <= k <= i && zones[k].name == name
      decreases i
    {
      i := i - 1;
    }
  }

  /** The SSID whose WLAN the scripts act on. */
  const TargetSsid := "SFUSD"

  /** The id `get_wlan_id` returns when no WLAN has the target SSID. */
  const NoWlan := "0"

  /** The loop of `get_wlan_id` from index `i`: `range(0, totalCount)`
      with a break on the first target SSID; indexing past the list's end
      raises. */
  function ScanWlanId(wlans: seq<Wlan>, totalCount: int, i: nat): (r: Result<string>)
    requires i <= |wlans|
    ensures forall k :: i <= k < |wlans| && k < totalCount && wlans[k].ssid == TargetSsid
                        && (forall j :: i <= j < k ==> wlans[j].ssid != TargetSsid)
                        ==> r == Ok(wlans[k].id)
    ensures (forall k :: i <= k < |wlans| && k < totalCount ==> wlans[k].ssid != TargetSsid)
            ==> r == if totalCount <= |wlans| then Ok(NoWlan) else Err(WlanIndexOutOfRange(|wlans|))
    decreases |wlans| - i
  {
    if i >= totalCount then Ok(NoWlan)
    else if i == |wlans| then Err(WlanIndexOutOfRange(i))
    else if wlans[i].ssid == TargetSsid then Ok(wlans[i].id)
    else ScanWlanId(wlans, totalCount, i + 1)
  }

  /** `get_wlan_id(zone_id)` over the zone's WLAN list and its `totalCount`:
      the id of the first of the first `totalCount` entries whose SSID is the
      target, "0" when there is none, and an index fault when `totalCount`
      runs past the list before a match. */
  function WlanId(wlans: seq<Wlan>, totalCount: int): (r: Result<string>)
    ensures forall k :: 0 <= k < |wlans| && k < totalCount && wlans[k].ssid == TargetSsid
                        && (forall j :: 0 <= j < k ==> wlans[j].ssid != TargetSsid)
                        ==> r == Ok(wlans[k].id)
    ensures (forall k :: 0 <= k < |wlans| && k < totalCount ==> wlans[k].ssid != TargetSsid)
            ==> r == if totalCount <= |wlans| then Ok(NoWlan) else Err(WlanIndexOutOfRange(|wlans|))
  {
    ScanWlanId(wlans, totalCount, 0)
  }

  /** A zone appended to the list overrides every earlier zone of the same
      name, and leaves the lookup of other names alone. */
  lemma ZoneIdAppend(zones: seq<Zone>, z: Zone, name: string)
    ensures ZoneId(zones + [z], name) == if z.name == name then Ok(z.id) else ZoneId(zones, name)
  {
    var all := zones + [z];
    var r := ZoneId(all, name);
    if z.name == name {
      assert all[|zones|].name == name;
    } else {
      var q := ZoneId(zones, name);
      if q.Ok? {
        var i :| 0 <= i < |zones| && zones[i].name == name && zones[i].id == q.value
                 && forall j :: i < j < |zones| ==> zones[j].name != name;
        assert all[i] == zones[i];
        assert r.Ok?;
        var i' :| 0 <= i' < |all| && all[i'].name == name && all[i'].id == r.value
                  && forall j :: i' < j < |all| ==> all[j].name != name;
        assert i' == i;
      } else {
        assert forall i :: 0 <= i < |all| ==> all[i].name != name by {
          forall i | 0 <= i < |all| ensures all[i].name != name {
            if i < |zones| {
              assert all[i] == zones[i];
            }
          }
        }
      }
    }
  }

  /** Two zones share a name: the later one's id is returned. */
  lemma DuplicateNameLastWins()
    ensures ZoneId([Zone("a", "ES-Lincoln"), Zone("b", "ES-Lincoln")], "ES-Lincoln") == Ok("b")
  {
    ZoneIdAppend([Zone("a", "ES-Lincoln")], Zone("b", "ES-Lincoln"), "ES-Lincoln");
    assert [Zone("a", "ES-Lincoln")] + [Zone("b", "ES-Lincoln")]
           == [Zone("a", "ES-Lincoln"), Zone("b", "ES-Lincoln")];
  }

  /** Entries past `totalCount` are never looked at. */
  lemma {:induction false} ScanWlanIdIgnoresTail(wlans: seq<Wlan>, extra: seq<Wlan>, totalCount: int, i: nat)
    requires i <= |wlans|
    requires totalCount <= |wlans|
    ensures ScanWlanId(wlans + extra, totalCount, i) == ScanWlanId(wlans, totalCount, i)
    decreases |wlans| - i
  {
    if i < totalCount {
      assert (wlans + extra)[i] == wlans[i];
      ScanWlanIdIgnoresTail(wlans, extra, totalCount, i + 1);
    }
  }

  /** When `totalCount` does not exceed the list, WLANs appended after it do
      not change the answer. */
  lemma WlanIdIgnoresTail(wlans: seq<Wlan>, extra: seq<Wlan>, totalCount: int)
    requires totalCount <= |wlans|
    ensures WlanId(wlans + extra, totalCount) == WlanId(wlans, totalCount)
  {
    ScanWlanIdIgnoresTail(wlans, extra, totalCount, 0);
  }

  /** A guest SSID followed by the target SSID: the target's id is returned. */
  lemma WlanScenario()
    ensures WlanId([Wlan("g1", "Guest"), Wlan("s1", "SFUSD")], 2) == Ok("s1")
  {
    var wlans := [Wlan("g1", "Guest"), Wlan("s1", "SFUSD")];
    assert wlans[0].ssid != TargetSsid;
  }
}
