# Ruckus SCG200 automation: zone grouping and client decision logic

This project models in Dafny the decision logic of a small set of
command-line tools that make bulk changes on a Ruckus SCG200 wireless LAN
controller through its REST API. Two parts carry logic:

- **The zone grouper** (`group_zones`). Zones are put into buckets by name
  prefix: `CDC-`, `ES-`, `MS-`, `HS-`, `OFC-`, and `00` for test zones. The
  operator's key, in any case, then picks one bucket. A key that names no
  bucket, `ALL` included, returns every zone.
- **The controller client** (`Ruckus`):
  - the zone-id and WLAN-id lookups;
  - the requests that `channelfly` and `update_radio` issue, in order;
  - the fixed channel ranges;
  - the domain default of `create_zone`;
  - the status codes that `delete_zone`, `modify_zone` and
    `modify_wlan_auth` report as success.

Network calls are not modelled. Each operation is a pure function. It takes
the lists the controller returned, the operator's answers and the reply's
status code. It returns the abstract requests it would send (`Requests.Request`)
or the uncaught Python exception it would end in (`Records.Fault`).

Files:

- `text.dfy`: Python's `str.upper` as far as it matters here, and the
  subsequence relation.
- `records.dfy`: zone and WLAN records, faults, `Result`, `Option`.
- `grouper.dfy`: the zone grouper.
- `lookup.dfy`: `get_zone_id` and `get_wlan_id`.
- `requests.dfy`: requests, bodies, URL paths, and the single-request
  operations.
- `radio.dfy`: channel ranges, `channelfly` and `update_radio`.

## Model

| member | source | states |
|---|---|---|
| `Text.Upper` | mm_common_funcs.py:69 | The upper-cased key is at least as long as the key and at most three times as long, because the sharp s and the ligatures expand. |
| `Text.UpperIdempotent` | mm_common_funcs.py:69-80 | Upper-casing an upper-cased key changes nothing. The case-insensitivity of the key rests on this. |
| `ZoneGrouper.WithPrefix` | mm_common_funcs.py:53-66 | The reference bucket is a subsequence of the input. It holds every occurrence of each zone with the prefix and no other zone. |
| `ZoneGrouper.Place` | mm_common_funcs.py:54-66 | One loop iteration is a standalone CDC `if` followed by the ES/MS/HS/OFC/00 `elif` chain. Even so, the zone is appended to exactly the buckets whose prefix starts its name. |
| `ZoneGrouper.PrefixesExclusive` | mm_common_funcs.py:55-66 | No name starts with two of the six prefixes, since they begin with distinct characters. So the separate CDC `if` never puts a zone in two buckets. |
| `ZoneGrouper.SplitFrom` | mm_common_funcs.py:53-66 | Running the loop over the remaining zones extends each bucket by exactly the remaining zones with that bucket's prefix, in input order. |
| `ZoneGrouper.Split` | mm_common_funcs.py:44-66 | After the loop, starting from six empty lists, each bucket equals the reference filter of the input by its prefix. |
| `ZoneGrouper.KeyGroup` | mm_common_funcs.py:68-82 | The key names a group exactly when its upper case is one of CDC, ES, MS, HS, OFC, TEST, and it then names that group. |
| `ZoneGrouper.GroupZones` | mm_common_funcs.py:32-85 | For a recognised key, the result is exactly the input zones with that group's prefix, in order. For any other key it is the input unchanged. It is always a subsequence of the input. |
| `ZoneGrouper.GroupZonesCaseInsensitive` | mm_common_funcs.py:69-80 | A key and its upper case select the same zones. |
| `ZoneGrouper.GroupMembership` | mm_common_funcs.py:53-80 | Under a recognised key, a zone is selected iff it is in the input and its name has the group's prefix. It is selected as many times as it occurs in the input. |
| `ZoneGrouper.GroupZonesBounded` | mm_common_funcs.py:53-85 | The result is never longer than the input and contains no zone the input lacks. |
| `ZoneGrouper.KeySelectsGroup` | mm_common_funcs.py:69-80 | Each of CDC, ES, MS, HS, OFC, TEST is its own upper case and names its group. |
| `ZoneGrouper.KeyCaseInsensitive` | mm_common_funcs.py:69-80 | The group a key names depends only on the key's upper case. |
| `ZoneGrouper.BucketsDisjoint` | mm_common_funcs.py:55-80 | No zone is selected by the keys of two different groups. Together with case-insensitivity, this covers every spelling of the keys. |
| `ZoneGrouper.UnclassifiedOnlyViaFallback` | mm_common_funcs.py:55-82 | An input zone whose name has none of the six prefixes is selected exactly when the key names no group. |
| `ZoneGrouper.AllKeySelectsEverything` | mm_common_funcs.py:81-82 | The keys `ALL` and `all` return the input list unchanged. |
| `ZoneGrouper.CdcScenario` | mm_common_funcs.py:53-80 | The key `cdc` on the zones CDC-A, ES-B, XX-C selects the CDC-A zone alone. |
| `Lookup.ScanZoneId` | ruckus.py:117-121 | The scan leaves `zone_id` as it was when no remaining zone has the name. Otherwise it leaves the id of the last such zone, because every match overwrites it. |
| `Lookup.ZoneId` | ruckus.py:103-126 | The lookup succeeds iff some zone has the name, and then returns the id of the last such zone. With no match it ends in the unbound-variable fault, which the `except ValueError` does not catch. |
| `Lookup.LastMatchFound` | ruckus.py:117-126 | The scan from an unbound `zone_id` ends bound iff some zone has the name, and then holds the id of the last match. |
| `Lookup.ZoneIdAppend` | ruckus.py:118-120 | A zone added at the end of the list overrides every earlier zone with the same name. It leaves the lookup of other names unchanged. |
| `Lookup.DuplicateNameLastWins` | ruckus.py:117-126 | When two zones share a name, the lookup returns the later zone's id. |
| `Lookup.ScanWlanId` | ruckus.py:369-375 | From any index of the scan, the result is the id of the first target-SSID entry below `totalCount`, if there is one. Otherwise it is "0" when `totalCount` fits the list, and the index fault at the list's length when it does not. |
| `Lookup.WlanId` | ruckus.py:351-378 | Returns the id of the first `SFUSD` WLAN among the first `totalCount` entries. Returns "0" when there is none and `totalCount` fits the list; a negative `totalCount` gives "0". When `totalCount` runs past the list before a match, it ends in IndexError. |
| `Lookup.ScanWlanIdIgnoresTail` | ruckus.py:371-375 | From any index, entries at or past `totalCount` never affect the scan. |
| `Lookup.WlanIdIgnoresTail` | ruckus.py:371-375 | When `totalCount` does not exceed the list, WLANs appended after it do not change the result. |
| `Lookup.WlanScenario` | ruckus.py:369-378 | SSIDs Guest then SFUSD, with ids g1 and s1, give "s1". |
| `Requests.CreateZone` | ruckus.py:131-156 | The zone is created in the session's domain when no domain is passed, and in the passed domain otherwise. The body carries the name, the login, the description, version 3.5.1.0.1026 and country US. Success is printed whatever the reply. |
| `Requests.DeleteZone` | ruckus.py:160-179 | Fails with the lookup's fault iff no zone has the name. Otherwise it sends a DELETE for the last such zone's id and reports success iff the status is 200. |
| `Requests.ModifyZone` | ruckus.py:183-203 | Fails with the lookup's fault iff no zone has the name. Otherwise it PATCHes that zone with DFS channels enabled and reports success iff the status is 204. |
| `Requests.UpdateApLogin` | ruckus.py:259-278 | Fails with the lookup's fault iff no zone has the name. Otherwise it PATCHes that zone's login sub-resource with the given credential. |
| `Requests.ModifyWlanAuth` | ruckus.py:382-404 | PATCHes the WLAN's authentication profile by name, with no lookup, and reports success iff the status is 204. |
| `Requests.WlanAuthScenario` | ruckus.py:400-404 | A 204 reply to the WLAN profile change is reported as success. A 403 reply is reported as failure, without an exception. |
| `Requests.PatchVerdictsAgree` | ruckus.py:200-203 | The WLAN profile change and the zone modification give the same verdict on every status code, because both PATCHes succeed exactly on 204 (lines 400-404). |
| `Requests.CreateZoneDefaultDomain` | ruckus.py:147-154 | Leaving the domain out sends the same request as passing the session's own domain. |
| `Requests.CreateZonePassedDomainWins` | ruckus.py:147-154 | A passed domain other than the session's is the one the zone is created in, so the request differs from the default one. |
| `Requests.TargetPathAsWritten` | ruckus.py:232-235 | The URLs as the source writes them, with the continuation indentation at lines 242-243, 249-250, 275-276 and 397-398. Removing the spaces from one gives the intended URL with its spaces removed. |
| `Requests.PathAsWrittenHasSpaces` | ruckus.py:232-233 | For every zone id, the written login, channel-selection and WLAN-profile URLs contain a space. The login URL is at lines 275-276 and the WLAN URL at lines 397-398. |
| `Requests.TargetPath` | ruckus.py:317-320 | A sub-resource URL is the zone path, the zone id and the resource's own path. It has no space unless the ids do. |
| `Requests.ContinuationOnlyAddsSpaces` | ruckus.py:232-235 | For every sub-resource, when the ids have no space, removing the spaces from the URL as written gives exactly the intended URL. So the inserted indentation is the only difference. |
| `Requests.PathsAgreeWithoutContinuation` | ruckus.py:317-320 | On the zone, `wifi24` and `wifi50` URLs, whose strings are not continued, the two URL renderings agree. |
| `Radio.ChannelRanges` | ruckus.py:296-298 | The 2.4 GHz range is [1,6,11], with channels 5 apart. The 5 GHz indoor range has 9 increasing channels. The outdoor range [36,44,149,157] is a subset of the indoor range. |
| `Radio.ChannelflyPlan` | ruckus.py:207-255 | Fails iff the zone lookup fails. An answer whose upper case is "N" sends nothing. Any other answer sends one PATCH with channelSelectMode None per band `channel` names: "both" gives 24 then 50, "2.4" gives 24, "5.0" gives 50, and any other word gives nothing. |
| `Radio.ChannelflyAnswerCaseInsensitive` | ruckus.py:225 | An answer and its upper case give the same plan. |
| `Radio.ChannelflyBothIsBands` | ruckus.py:230-252 | For a zone that exists, "both" sends exactly the "2.4" requests followed by the "5.0" requests. |
| `Radio.ChannelflyPatchesEachBandOnce` | ruckus.py:230-255 | Whatever the answers, a plan has at most two requests and patches no band twice. |
| `Radio.TargetsOfPatches` | ruckus.py:230-252 | A plan made only of PATCH requests lists one target per request, in order. |
| `Radio.RadioRequests` | ruckus.py:305-343 | Once the zone's id is known, the plan fails exactly when the 5 GHz band is named and the DFS step's lookup failed. Otherwise it has the shape below. |
| `Radio.UpdateRadioPlan` | ruckus.py:281-343 | Fails with the lookup's fault iff no zone has the name. For "both" and "5.0" it also fails, with the fault for the zone's id, iff no zone is NAMED by that id: the nested `modify_zone(zone_id)` looks its argument up by name (lines 194, 119). Otherwise it sends one request per band named, plus one for the DFS step. The order is exactly DFS, `wifi24`, `wifi50` for "both"; `wifi24` for "2.4"; DFS, `wifi50` for "5.0"; nothing for any other word. The DFS step enables DFS channels on the zone that lookup found. Each band PATCH carries its power and ranges. |
| `Radio.UpdateRadioDfsIsModifyZone` | ruckus.py:194-197 | The DFS step of a plan is the request `modify_zone` sends for the zone's id, whatever status its reply carries. |
| `Radio.DfsStepOnlyWith5GHz` | ruckus.py:305-341 | The plan has a DFS step iff `wifi50` is patched: for "both" and "5.0", never for "2.4". |
| `Radio.UpdateRadioPlanIntended` | ruckus.py:305-341 | The plan with `modify_zone` given the zone's name. It fails iff the zone lookup fails, has the same order and bodies, and sends every request to the zone looked up. |
| `Radio.UpdateRadioLooksUpIdAsName` | ruckus.py:315 | As written, a zone `ES-A` with id `z1` and channel "both" ends in the unbound-variable fault for `z1` before any band is patched. The intended plan enables DFS and patches both bands of `z1`. |
| `Radio.UpdateRadioIntendedAgrees` | ruckus.py:315-337 | The two plans are equal when the 5 GHz band is not named, or when looking the id up as a name finds the same zone. |
| `Radio.ChannelflyPlanIntended` | ruckus.py:222-228 | The channelfly plan with the "N" payload actually sent. The bands follow `channel` whatever the answer. Every request carries the on payload iff the answer's upper case is "N", and the off payload otherwise. |
| `Radio.ChannelflyNeverTurnsOn` | ruckus.py:225-228 | As written, "N" with "both" sends nothing for a zone that exists. The intended plan sends the on payload to both bands. |
| `Radio.ChannelflyIntendedAgreesOff` | ruckus.py:227-255 | For every answer other than "N", the intended plan is the plan as written. |

## Findings

| source | as written | input that shows it | evidently intended | confidence | as-written member | corrected member |
|---|---|---|---|---|---|---|
| ruckus.py:232-233 | The URL f-string continues with a backslash inside the literal, so the next line's 20 spaces of indentation become part of the URL before `autoChannelSelection24`. The same happens at lines 234-235, 242-243 and 249-250. At lines 275-276 (AP login) and 397-398 (WLAN profile) it is 12 spaces. | Any zone id, e.g. `z1`: the path becomes `rkszones/z1/` + 20 spaces + `autoChannelSelection24` | `rkszones/z1/autoChannelSelection24` | high that the string carries the spaces; what the controller answers is unknown; not executed | `Requests.PathAsWrittenHasSpaces` | `Requests.TargetPath` |
| ruckus.py:315 | `update_radio` passes the zone's id to `modify_zone`, which looks its argument up as a zone name (lines 194 and 119). Unless some zone is named by that id, the lookup leaves `zone_id` unbound and the call ends in UnboundLocalError. No band is patched. The same call is at line 337. | Zone `ES-A` with id `z1`, channel `both` | Enable DFS on `z1`, then PATCH `wifi24` and `wifi50` | high that the lookup compares the id with zone names; not executed | `Radio.UpdateRadioLooksUpIdAsName` | `Radio.UpdateRadioPlanIntended` |
| ruckus.py:225-228 | Answer "N" builds the ChannelFly-on payload (mode channelfly, MTBC 300). Every PATCH sits in the `else` branch, so that payload is never sent and the method can only turn ChannelFly off. | Answer `N`, channel `both`, for an existing zone | PATCH both channel-selection resources with the on payload | medium: the docstring says "Turn ON/OFF", and the payload is built and then dropped; not executed | `Radio.ChannelflyNeverTurnsOn` | `Radio.ChannelflyPlanIntended` |

The plans are abstract, so they use no URL text. `Requests.TargetPath` is the
URL rendering the model offers, and `Requests.TargetPathAsWritten` shows the
code's strings. `Radio.ChannelflyPlan` and `Radio.UpdateRadioPlan` model the code as written,
because that is the behaviour the controller sees.
`Radio.ChannelflyPlanIntended` and `Radio.UpdateRadioPlanIntended` sit beside
them.

## Left out

- HTTP sessions, login, TLS (`verify=False`), JSON encoding and decoding, and
  the real REST calls. Requests are values, and the replies the logic reads
  are parameters: the zone list, the WLAN list with its `totalCount`, and
  status codes.
- The prompts inside `channelfly` and `update_radio`, and the
  `get_credentials` prompts. The answers are parameters.
- Printed messages. Where the source classifies a reply, the verdict is a
  boolean (`Outcome.succeeded`). Where it only prints the codes
  (`channelfly`, `update_radio`), the codes are not modelled.
- `get_zones` and its page size of 200. The zone list is an input, and a
  controller with more than 200 zones is not modelled.
- `get_wlan_auth`: it only extracts a JSON field. Its URL (ruckus.py:420-421)
  has the same continuation spaces as the finding above.
- The auxiliary calls `system_summary`, `get_ap_count`, `ap_models`,
  `apgroup_info`, `ap_info`, `ap_reboot`, `ap_support_log`, `ap_blink_led`
  and `log_out`. They send a request and print the reply, with no decision
  logic.
- The driver scripts (mm_ruckus_auth_modify.py,
  mm_ruckus_channelfly_modify.py, mm_ruckus_ap_login_modify.py). They are
  terminal and report-file loops, and they call the client with signatures it
  does not have: three constructor arguments, `channelfly` with three
  arguments, and the result of `update_ap_login` compared to 204. So no
  contract can be stated for them.
- The status report of the nested `modify_zone` call inside `update_radio`
  is only printed, so it is not modelled. Its lookup and its request are.
- Default arguments: `channel='both'` (lines 207 and 281),
  `description='Test'` (line 131) and `auth_service_name='F5-VIP-ISE-Radius'`
  (line 383). They are parameters the caller always supplies.
  `Requests.DefaultAuthService` names the last one.
- Lookup failures other than the ones modelled: a reply without `list`,
  `name`, `id`, `ssid` or `totalCount` raises KeyError. The records always
  have those fields.
- `create_zone` calls `.json()` on the reply, and an undecodable reply would
  raise. This is not modelled; the model reports success, as the print does.
- Text.Upper: models Python's Unicode `str.upper` only for ASCII letters and
  the non-ASCII characters whose upper case is pure ASCII (dotless i, long s,
  sharp s, ligatures U+FB00-U+FB06). It keeps every other character. The
  result of comparing a key with CDC, ES, MS, HS, OFC, TEST or N is the same
  as in Python, but other upper-cased strings can differ.
