/** The radio operations of the controller client: `channelfly` (turn
    ChannelFly dynamic channel selection off on one or both bands) and
    `update_radio` (set transmit power and channel ranges). Each is a plan:
    the zone lookup, then the ordered requests the call issues. The
    operator's answers to the prompts inside the calls are parameters. */
module Radio {
  import opened Text
  import opened Records
  import opened Lookup
  import opened Requests

  /** The 2.4 GHz channels `update_radio` allows: the three that do not
      overlap. */
  const Range24: seq<int> := [1, 6, 11]

  /** The 5 GHz indoor channels, DFS channels included. */
  const Range50Indoor: seq<int> := [36, 44, 52, 60, 100, 108, 132, 149, 157]

  /** The 5 GHz outdoor channels. */
  const Range50Outdoor: seq<int> := [36, 44, 149, 157]

  /** The payload sent to turn ChannelFly off. */
  const ChannelflyOff := ChannelSelect("None")

  /** The payload the "N" answer builds: ChannelFly on, with a mean time
      between channel changes of 300. */
  const ChannelflyOn := Channelfly("channelfly", 300)

  predicate Increasing(s: seq<int>)
  {
    forall i, j :: 0 <= i < j < |s| ==> s[i] < s[j]
  }

  /** The ranges hold 3, 9 and 4 distinct channels in increasing order, the
      2.4 GHz channels are 5 apart, and every outdoor channel is an indoor
      one. */
  lemma ChannelRanges()
    ensures |Range24| == 3 && |Range50Indoor| == 9 && |Range50Outdoor| == 4
    ensures Increasing(Range24) && Increasing(Range50Indoor) && Increasing(Range50Outdoor)
    ensures forall i :: 0 < i < |Range24| ==> Range24[i] - Range24[i - 1] == 5
    ensures forall c :: c in Range50Outdoor ==> c in Range50Indoor
  {
  }

  /** The targets of a plan's PATCH requests, in order. */
  function Targets(plan: seq<Request>): (ts: seq<Target>)
    ensures |ts| <= |plan|
  {
    if |plan| == 0 then []
    else (if plan[0].Patch? then [plan[0].target] else []) + Targets(plan[1..])
  }

  /** The sub-resources `channelfly` patches for a `channel` argument. */
  function ChannelflyTargets(channel: string): seq<Target>
  {
    if channel == "both" then [AutoChannel24, AutoChannel50]
    else if channel == "2.4" then [AutoChannel24]
    else if channel == "5.0" then [AutoChannel50]
    else []
  }

  /** `channelfly(zone, channel)` with `answer` the reply to "disable
      channelfly (Y/N)": the lookup, then nothing when the answer is "N" in
      any case, and otherwise one PATCH with the off payload per band
      `channel` names; the channel word is matched exactly. */
  function ChannelflyPlan(zones: seq<Zone>, zone: string, answer: string, channel: string): (r: Result<seq<Request>>)
    ensures r.Err? <==> ZoneId(zones, zone).Err?
    ensures r.Err? ==> r.error == ZoneIdUnbound(zone)
    ensures r.Ok? ==> forall q :: q in r.value ==>
                        q.Patch? && q.zoneId == ZoneId(zones, zone).value && q.body == ChannelflyOff
    ensures r.Ok? && Upper(answer) == "N" ==> r.value == []
    ensures r.Ok? && Upper(answer) != "N" ==> Targets(r.value) == ChannelflyTargets(channel)
  {
    match ZoneId(zones, zone)
    case Err(e) => Err(e)
    case Ok(id) =>
      if Upper(answer) == "N" then Ok([])
      else if channel == "both" then Ok([Patch(id, AutoChannel24, ChannelflyOff), Patch(id, AutoChannel50, ChannelflyOff)])
      else if channel == "2.4" then Ok([Patch(id, AutoChannel24, ChannelflyOff)])
      else if channel == "5.0" then Ok([Patch(id, AutoChannel50, ChannelflyOff)])
      else Ok([])
  }

  /** The answer is case-insensitive: an answer and its upper case give the
      same plan. */
  lemma ChannelflyAnswerCaseInsensitive(zones: seq<Zone>, zone: string, answer: string, channel: string)
    ensures ChannelflyPlan(zones, zone, answer, channel) == ChannelflyPlan(zones, zone, Upper(answer), channel)
  {
    UpperIdempotent(answer);
  }

  /** "both" patches exactly what "2.4" and then "5.0" patch. */
  lemma ChannelflyBothIsBands(zones: seq<Zone>, zone: string, answer: string)
    requires ZoneId(zones, zone).Ok?
    ensures ChannelflyPlan(zones, zone, answer, "both").value
            == ChannelflyPlan(zones, zone, answer, "2.4").value + ChannelflyPlan(zones, zone, answer, "5.0").value
  {
  }

  /** Whatever the answers, a channelfly plan patches each band at most
      once. */
  lemma ChannelflyPatchesEachBandOnce(zones: seq<Zone>, zone: string, answer: string, channel: string)
    ensures var r := ChannelflyPlan(zones, zone, answer, channel);
            r.Ok? ==> |r.value| <= 2 && var ts := Targets(r.value);
                      forall i, j :: 0 <= i < j < |ts| ==> ts[i] != ts[j]
  {
    var r := ChannelflyPlan(zones, zone, answer, channel);
    if r.Err? {
      return;
    }
    var plan := r.value;
    TargetsOfPatches(plan);
    if Upper(answer) != "N" {
      assert Targets(plan) == ChannelflyTargets(channel);
    }
  }

  /** A plan made only of PATCH requests has one target per request. */
  lemma {:induction false} TargetsOfPatches(plan: seq<Request>)
    requires forall q :: q in plan ==> q.Patch?
    ensures |Targets(plan)| == |plan|
    ensures forall i :: 0 <= i < |plan| ==> Targets(plan)[i] == plan[i].target
  {
    if |plan| > 0 {
      assert forall q :: q in plan[1..] ==> q in plan;
      TargetsOfPatches(plan[1..]);
    }
  }

  predicate IsWifi50(q: Request)
  {
    q.Patch? && q.target == Wifi50
  }

  /** The sub-resources `update_radio` patches for a `channel` argument. */
  function RadioTargets(channel: string): seq<Target>
  {
    if channel == "both" then [Wifi24, Wifi50]
    else if channel == "2.4" then [Wifi24]
    else if channel == "5.0" then [Wifi50]
    else []
  }

  /** The requests of an `update_radio` plan, by sub-resource: the DFS
      step's zone configuration before the 5 GHz band, then the bands. */
  function RadioPlanTargets(channel: string): seq<Target>
  {
    (if Wifi50 in RadioTargets(channel) then [ZoneConfig] else []) + RadioTargets(channel)
  }

  /** The DFS step's request: DFS channels enabled on zone `dfsId`. */
  function DfsPatch(dfsId: string): Request
  {
    Patch(dfsId, ZoneConfig, DfsChannels(true))
  }

  /** The band PATCHes with the operator's power and the fixed ranges. */
  function Wifi24Patch(id: string, txPower24: string): Request
  {
    Patch(id, Wifi24, Radio24(txPower24, Range24))
  }

  function Wifi50Patch(id: string, txPower50: string): Request
  {
    Patch(id, Wifi50, Radio50(txPower50, Range50Indoor, Range50Outdoor))
  }

  /** What an `update_radio` plan for the zone with id `id` sends when the
      DFS step's lookup gave `dfsZone`: one request per entry of
      `RadioPlanTargets(channel)`, in that order, so the DFS step first
      whenever the 5 GHz band is patched; the DFS step enables DFS channels
      on the zone that lookup found, and each band PATCH carries its power
      and ranges. */
  predicate RadioPlanShape(plan: seq<Request>, id: string, dfsZone: Result<string>, channel: string,
                           txPower24: string, txPower50: string)
  {
    && |plan| == |RadioPlanTargets(channel)|
    && Targets(plan) == RadioPlanTargets(channel)
    && (forall q :: q in plan ==> q.Patch?)
    && (Wifi50 in RadioTargets(channel) ==> plan[0].target == ZoneConfig)
    && (forall q :: q in plan && q.target == ZoneConfig ==> dfsZone.Ok? && q == DfsPatch(dfsZone.value))
    && (forall q :: q in plan && q.target == Wifi24 ==> q == Wifi24Patch(id, txPower24))
    && (forall q :: q in plan && q.target == Wifi50 ==> q == Wifi50Patch(id, txPower50))
  }

  lemma BothPlanShape(id: string, dfsId: string, txPower24: string, txPower50: string)
    ensures var plan := [DfsPatch(dfsId), Wifi24Patch(id, txPower24), Wifi50Patch(id, txPower50)];
            RadioPlanShape(plan, id, Ok(dfsId), "both", txPower24, txPower50)
  {
    var plan := [DfsPatch(dfsId), Wifi24Patch(id, txPower24), Wifi50Patch(id, txPower50)];
    assert plan[1..] == [Wifi24Patch(id, txPower24), Wifi50Patch(id, txPower50)];
    assert plan[1..][1..] == [Wifi50Patch(id, txPower50)];
    assert Targets(plan[1..][1..]) == [Wifi50];
    assert Targets(plan[1..]) == [Wifi24, Wifi50];
  }

  lemma FiveOnlyPlanShape(id: string, dfsId: string, txPower24: string, txPower50: string)
    ensures var plan := [DfsPatch(dfsId), Wifi50Patch(id, txPower50)];
            RadioPlanShape(plan, id, Ok(dfsId), "5.0", txPower24, txPower50)
  {
    var plan := [DfsPatch(dfsId), Wifi50Patch(id, txPower50)];
    assert plan[1..] == [Wifi50Patch(id, txPower50)];
    assert Targets(plan[1..]) == [Wifi50];
  }

  lemma TwoFourOnlyPlanShape(id: string, dfsZone: Result<string>, txPower24: string, txPower50: string)
    ensures RadioPlanShape([Wifi24Patch(id, txPower24)], id, dfsZone, "2.4", txPower24, txPower50)
  {
    assert [Wifi24Patch(id, txPower24)][1..] == [];
  }

  /** The requests of `update_radio` once the zone's id `id` is known, with
      `dfsZone` the outcome of the nested `modify_zone`'s lookup: per band
      named by `channel` a PATCH of that band's radio, the 5 GHz band
      preceded by the DFS step; a fault in the DFS lookup ends the call
      before any band is patched. */
  function RadioRequests(id: string, dfsZone: Result<string>, channel: string,
                         txPower24: string, txPower50: string): (r: Result<seq<Request>>)
    ensures r.Err? <==> Wifi50 in RadioTargets(channel) && dfsZone.Err?
    ensures r.Err? ==> r.error == dfsZone.error
    ensures r.Ok? ==> RadioPlanShape(r.value, id, dfsZone, channel, txPower24, txPower50)
    ensures r.Ok? ==> forall q :: q in r.value ==> q.zoneId == id || (dfsZone.Ok? && q.zoneId == dfsZone.value)
  {
    if channel == "both" then
      match dfsZone
      case Err(e) => Err(e)
      case Ok(dfsId) =>
        BothPlanShape(id, dfsId, txPower24, txPower50);
        Ok([DfsPatch(dfsId), Wifi24Patch(id, txPower24), Wifi50Patch(id, txPower50)])
    else if channel == "2.4" then
      TwoFourOnlyPlanShape(id, dfsZone, txPower24, txPower50);
      Ok([Wifi24Patch(id, txPower24)])
    else if channel == "5.0" then
      match dfsZone
      case Err(e) => Err(e)
      case Ok(dfsId) =>
        FiveOnlyPlanShape(id, dfsId, txPower24, txPower50);
        Ok([DfsPatch(dfsId), Wifi50Patch(id, txPower50)])
    else Ok([])
  }

  /** `update_radio(zone, channel)` with the operator's transmit powers, as
      written: the lookup of `zone`, then for "both" and "5.0" the nested
      `modify_zone(zone_id)`, which looks the zone's ID up as a zone NAME,
      then the band PATCHes. */
  function UpdateRadioPlan(zones: seq<Zone>, zone: string, channel: string,
                           txPower24: string, txPower50: string): (r: Result<seq<Request>>)
    ensures ZoneId(zones, zone).Err? ==> r == Err(ZoneIdUnbound(zone))
    ensures ZoneId(zones, zone).Ok? ==>
              var id := ZoneId(zones, zone).value;
              && (r.Err? <==> Wifi50 in RadioTargets(channel)
                              && forall i :: 0 <= i < |zones| ==> zones[i].name != id)
              && (r.Err? ==> r.error == ZoneIdUnbound(id))
              && (r.Ok? ==> |r.value| == |RadioTargets(channel)| + (if Wifi50 in RadioTargets(channel) then 1 else 0))
              && (r.Ok? ==> RadioPlanShape(r.value, id, ZoneId(zones, id), channel, txPower24, txPower50))
  {
    match ZoneId(zones, zone)
    case Err(e) => Err(e)
    case Ok(id) => RadioRequests(id, ZoneId(zones, id), channel, txPower24, txPower50)
  }

  /** The DFS step of a plan is the request `modify_zone` sends for the
      zone's id, whatever status its reply then carries. */
  lemma UpdateRadioDfsIsModifyZone(zones: seq<Zone>, zone: string, channel: string,
                                   txPower24: string, txPower50: string, status: int)
    requires UpdateRadioPlan(zones, zone, channel, txPower24, txPower50).Ok?
    requires Wifi50 in RadioTargets(channel)
    ensures var id := ZoneId(zones, zone).value;
            ModifyZone(zones, id, status).Ok?
            && UpdateRadioPlan(zones, zone, channel, txPower24, txPower50).value[0]
               == ModifyZone(zones, id, status).value.request
  {
    var plan := UpdateRadioPlan(zones, zone, channel, txPower24, txPower50).value;
    assert plan[0] in plan;
  }

  /** The DFS step runs exactly when the 5 GHz band is patched: never for
      "2.4", always for "both" and "5.0". */
  lemma DfsStepOnlyWith5GHz(zones: seq<Zone>, zone: string, channel: string, txPower24: string, txPower50: string)
    requires UpdateRadioPlan(zones, zone, channel, txPower24, txPower50).Ok?
    ensures var plan := UpdateRadioPlan(zones, zone, channel, txPower24, txPower50).value;
            (exists i :: 0 <= i < |plan| && plan[i].Patch? && plan[i].target == ZoneConfig)
            <==> Wifi50 in RadioTargets(channel)
  {
    var plan := UpdateRadioPlan(zones, zone, channel, txPower24, txPower50).value;
    TargetsOfPatches(plan);
    if Wifi50 in RadioTargets(channel) {
      assert plan[0] in plan;
    }
  }

  /** `channelfly` as its "N" branch evidently means it: "N" turns ChannelFly
      on, any other answer turns it off, and either payload is sent to the
      bands `channel` names. */
  function ChannelflyPlanIntended(zones: seq<Zone>, zone: string, answer: string, channel: string): (r: Result<seq<Request>>)
    ensures r.Err? <==> ZoneId(zones, zone).Err?
    ensures r.Ok? ==> Targets(r.value) == ChannelflyTargets(channel)
    ensures r.Ok? ==> forall q :: q in r.value ==>
                        q.Patch? && q.zoneId == ZoneId(zones, zone).value
                        && (q.body == ChannelflyOn <==> Upper(answer) == "N")
                        && (q.body == ChannelflyOff <==> Upper(answer) != "N")
  {
    match ZoneId(zones, zone)
    case Err(e) => Err(e)
    case Ok(id) =>
      var body := if Upper(answer) == "N" then ChannelflyOn else ChannelflyOff;
      if channel == "both" then Ok([Patch(id, AutoChannel24, body), Patch(id, AutoChannel50, body)])
      else if channel == "2.4" then Ok([Patch(id, AutoChannel24, body)])
      else if channel == "5.0" then Ok([Patch(id, AutoChannel50, body)])
      else Ok([])
  }

  /** The "N" answer as written: for a zone that exists, the on payload is
      built and no request is sent, where the intended plan sends it to
      both bands. */
  lemma ChannelflyNeverTurnsOn(zones: seq<Zone>, zone: string)
    requires ZoneId(zones, zone).Ok?
    ensures ChannelflyPlan(zones, zone, "N", "both") == Ok([])
    ensures var id := ZoneId(zones, zone).value;
            ChannelflyPlanIntended(zones, zone, "N", "both")
            == Ok([Patch(id, AutoChannel24, ChannelflyOn), Patch(id, AutoChannel50, ChannelflyOn)])
  {
    UpperOfCapitals("N");
  }

  /** For every answer other than "N" the intended plan is the plan as
      written. */
  lemma ChannelflyIntendedAgreesOff(zones: seq<Zone>, zone: string, answer: string, channel: string)
    requires Upper(answer) != "N"
    ensures ChannelflyPlanIntended(zones, zone, answer, channel) == ChannelflyPlan(zones, zone, answer, channel)
  {
  }

  /** `update_radio` as its DFS step evidently means it, with
      `modify_zone(zone)` given the zone's NAME: the DFS step then always
      finds the zone just looked up, and every request goes to it. */
  function UpdateRadioPlanIntended(zones: seq<Zone>, zone: string, channel: string,
                                   txPower24: string, txPower50: string): (r: Result<seq<Request>>)
    ensures r.Err? <==> ZoneId(zones, zone).Err?
    ensures r.Err? ==> r.error == ZoneIdUnbound(zone)
    ensures r.Ok? ==> |r.value| == |RadioTargets(channel)| + (if Wifi50 in RadioTargets(channel) then 1 else 0)
    ensures r.Ok? ==> var id := ZoneId(zones, zone).value;
                      RadioPlanShape(r.value, id, Ok(id), channel, txPower24, txPower50)
                      && forall q :: q in r.value ==> q.zoneId == id
  {
    match ZoneId(zones, zone)
    case Err(e) => Err(e)
    case Ok(id) => RadioRequests(id, ZoneId(zones, zone), channel, txPower24, txPower50)
  }

  /** As written, a zone whose id names no zone makes "both" fail in the
      DFS step's lookup before any band is patched, where the intended plan
      enables DFS and patches both bands. */
  lemma UpdateRadioLooksUpIdAsName()
    ensures UpdateRadioPlan([Zone("z1", "ES-A")], "ES-A", "both", "Full", "Full") == Err(ZoneIdUnbound("z1"))
    ensures UpdateRadioPlanIntended([Zone("z1", "ES-A")], "ES-A", "both", "Full", "Full")
            == Ok([Patch("z1", ZoneConfig, DfsChannels(true)),
                   Patch("z1", Wifi24, Radio24("Full", Range24)),
                   Patch("z1", Wifi50, Radio50("Full", Range50Indoor, Range50Outdoor))])
  {
    var zones := [Zone("z1", "ES-A")];
    assert zones[0].name == "ES-A";
    assert zones[0].name != "z1";
  }

  /** The two plans agree whenever the DFS step is not taken, or its lookup
      of the id happens to find the same zone. */
  lemma UpdateRadioIntendedAgrees(zones: seq<Zone>, zone: string, channel: string,
                                  txPower24: string, txPower50: string)
    requires ZoneId(zones, zone).Ok?
    ensures Wifi50 !in RadioTargets(channel) || ZoneId(zones, ZoneId(zones, zone).value) == ZoneId(zones, zone)
            ==> UpdateRadioPlan(zones, zone, channel, txPower24, txPower50)
                == UpdateRadioPlanIntended(zones, zone, channel, txPower24, txPower50)
  {
  }
}
