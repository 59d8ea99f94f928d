/** The zone grouper of `mm_common_funcs.group_zones`: zones are sorted into
    buckets by the prefix of their name, and the operator's key picks one
    bucket, or every zone when the key names none. */
module ZoneGrouper {
  import opened Text
  import opened Records

  /** The six zone groups: CDC (early education), elementary, middle and high
      schools, offices, and test zones. */
  datatype Group = Cdc | Es | Ms | Hs | Office | Test

  /** The name prefix that puts a zone in a group. */
  function Prefix(g: Group): string
  {
    match g
    case Cdc => "CDC-"
    case Es => "ES-"
    case Ms => "MS-"
    case Hs => "HS-"
    case Office => "OFC-"
    case Test => "00"
  }

  /** The upper-case key that selects a group. */
  function Key(g: Group): string
  {
    match g
    case Cdc => "CDC"
    case Es => "ES"
    case Ms => "MS"
    case Hs => "HS"
    case Office => "OFC"
    case Test => "TEST"
  }

  /** Reference definition of a bucket: the zones whose name starts with
      `prefix`, every occurrence kept, in input order. */
  function WithPrefix(zones: seq<Zone>, prefix: string): (r: seq<Zone>)
    ensures IsSubsequence(r, zones)
    ensures forall z :: multiset(r)[z] == (if prefix <= z.name then multiset(zones)[z] else 0)
  {
    if |zones| == 0 then []
    else
      assert zones == [zones[0]] + zones[1..];
      if prefix <= zones[0].name then [zones[0]] + WithPrefix(zones[1..], prefix)
      else WithPrefix(zones[1..], prefix)
  }

  /** The six lists the loop fills. */
  datatype Buckets = Buckets(cdc: seq<Zone>, es: seq<Zone>, ms: seq<Zone>,
                             hs: seq<Zone>, office: seq<Zone>, test: seq<Zone>)
  {
    function Of(g: Group): seq<Zone>
    {
      match g
      case Cdc => cdc
      case Es => es
      case Ms => ms
      case Hs => hs
      case Office => office
      case Test => test
    }
  }

  const NoBuckets := Buckets([], [], [], [], [], [])

  /** One iteration of the loop: the CDC test stands alone, the other five
      prefixes form one first-match chain. Either way the zone joins exactly
      the buckets whose prefix starts its name. */
  function Place(b: Buckets, site: Zone): (r: Buckets)
    ensures forall g :: r.Of(g) == b.Of(g) + (if Prefix(g) <= site.name then [site] else [])
  {
    var name := site.name;
    var c := if "CDC-" <= name then b.(cdc := b.cdc + [site]) else b;
    var r :=
      if "ES-" <= name then c.(es := c.es + [site])
      else if "MS-" <= name then c.(ms := c.ms + [site])
      else if "HS-" <= name then c.(hs := c.hs + [site])
      else if "OFC-" <= name then c.(office := c.office + [site])
      else if "00" <= name then c.(test := c.test + [site])
      else c;
    forall g | Prefix(g) <= name ensures name[0] == Prefix(g)[0] {
      assert name[0] == name[..|Prefix(g)|][0];
    }
    r
  }

  /** Two group prefixes never both start the same name: they begin with
      distinct characters. */
  lemma PrefixesExclusive(name: string, g: Group, h: Group)
    requires Prefix(g) <= name && Prefix(h) <= name
    ensures g == h
  {
    assert Prefix(g)[0] == name[0] == Prefix(h)[0];
  }


  /** The loop over the remaining `zones`, continuing from buckets `b`: each
      bucket grows by exactly the remaining zones with its prefix, although
      only the CDC test is outside the first-match chain. */
  function SplitFrom(b: Buckets, zones: seq<Zone>): (r: Buckets)
    ensures forall g :: r.Of(g) == b.Of(g) + WithPrefix(zones, Prefix(g))
    decreases |zones|
  {
    if |zones| == 0 then b
    else
      SplitStep(b, zones);
      SplitFrom(Place(b, zones[0]), zones[1..])
  }

  /** Placing the first zone and then the rest fills each bucket as the
      reference filter of all zones does. */
  lemma SplitStep(b: Buckets, zones: seq<Zone>)
    requires |zones| > 0
    ensures forall g :: Place(b, zones[0]).Of(g) + WithPrefix(zones[1..], Prefix(g))
                        == b.Of(g) + WithPrefix(zones, Prefix(g))
  {
    forall g ensures Place(b, zones[0]).Of(g) + WithPrefix(zones[1..], Prefix(g))
                     == b.Of(g) + WithPrefix(zones, Prefix(g)) {
      SplitStepAt(b, zones, g);
    }
  }

  lemma SplitStepAt(b: Buckets, zones: seq<Zone>, g: Group)
    requires |zones| > 0
    ensures Place(b, zones[0]).Of(g) + WithPrefix(zones[1..], Prefix(g))
            == b.Of(g) + WithPrefix(zones, Prefix(g))
  {
    var extra := if Prefix(g) <= zones[0].name then [zones[0]] else [];
    var rest := WithPrefix(zones[1..], Prefix(g));
    assert Place(b, zones[0]).Of(g) == b.Of(g) + extra;
    assert WithPrefix(zones, Prefix(g)) == extra + rest by {
      WithPrefixCons(zones, Prefix(g));
    }
    ConcatAssociative(b.Of(g), extra, rest);
  }

  /** The reference filter, one zone at a time. */
  lemma WithPrefixCons(zones: seq<Zone>, prefix: string)
    requires |zones| > 0
    ensures WithPrefix(zones, prefix)
            == (if prefix <= zones[0].name then [zones[0]] else []) + WithPrefix(zones[1..], prefix)
  {
  }

  lemma ConcatAssociative<T>(a: seq<T>, b: seq<T>, c: seq<T>)
    ensures a + b + c == a + (b + c)
  {
  }

  /** The buckets after the loop over all zones. */
  function Split(zones: seq<Zone>): (r: Buckets)
    ensures forall g :: r.Of(g) == WithPrefix(zones, Prefix(g))
  {
    SplitFromNothing(zones);
    SplitFrom(NoBuckets, zones)
  }

  lemma SplitFromNothing(zones: seq<Zone>)
    ensures forall g :: SplitFrom(NoBuckets, zones).Of(g) == WithPrefix(zones, Prefix(g))
  {
    forall g ensures SplitFrom(NoBuckets, zones).Of(g) == WithPrefix(zones, Prefix(g)) {
      var rest := WithPrefix(zones, Prefix(g));
      assert NoBuckets.Of(g) == [];
      assert SplitFrom(NoBuckets, zones).Of(g) == NoBuckets.Of(g) + rest;
      assert [] + rest == rest;
    }
  }

  /** The group an operator's key names, compared in upper case in the
      order of the source's chain; `None` for any other key. */
  function KeyGroup(key: string): (r: Option<Group>)
    ensures r.Some? <==> exists g :: Upper(key) == Key(g)
    ensures r.Some? ==> Upper(key) == Key(r.value)
  {
    var k := Upper(key);
    if k == "CDC" then assert k == Key(Cdc); Some(Cdc)
    else if k == "ES" then assert k == Key(Es); Some(Es)
    else if k == "MS" then assert k == Key(Ms); Some(Ms)
    else if k == "HS" then assert k == Key(Hs); Some(Hs)
    else if k == "OFC" then assert k == Key(Office); Some(Office)
    else if k == "TEST" then assert k == Key(Test); Some(Test)
    else None
  }

  /** `group_zones(all_zones, zone_grp)`: the bucket of the group the key
      names, or every zone when it names none. */
  function GroupZones(zones: seq<Zone>, key: string): (r: seq<Zone>)
    ensures KeyGroup(key).Some? ==> r == WithPrefix(zones, Prefix(KeyGroup(key).value))
    ensures KeyGroup(key).None? ==> r == zones
    ensures IsSubsequence(r, zones)
  {
    match KeyGroup(key)
    case Some(g) => Split(zones).Of(g)
    case None => SubsequenceReflexive(zones); zones
  }

  /** The key is case-insensitive: a key and its upper case select the same
      zones. */
  lemma GroupZonesCaseInsensitive(zones: seq<Zone>, key: string)
    ensures GroupZones(zones, key) == GroupZones(zones, Upper(key))
  {
    KeyCaseInsensitive(key);
  }

  /** A recognised key selects exactly the zones with its group's prefix,
      counted with multiplicity. */
  lemma GroupMembership(zones: seq<Zone>, key: string, g: Group, z: Zone)
    requires Upper(key) == Key(g)
    ensures z in GroupZones(zones, key) <==> z in zones && Prefix(g) <= z.name
    ensures multiset(GroupZones(zones, key))[z] == (if Prefix(g) <= z.name then multiset(zones)[z] else 0)
  {
    KeyCaseInsensitive(key);
    KeySelectsGroup(g);
    assert KeyGroup(key) == Some(g);
    var r := GroupZones(zones, key);
    assert r == WithPrefix(zones, Prefix(g));
    assert z in r <==> multiset(r)[z] > 0;
    assert z in zones <==> multiset(zones)[z] > 0;
  }

  /** The result never has more zones than the input, nor a zone it lacks. */
  lemma GroupZonesBounded(zones: seq<Zone>, key: string)
    ensures |GroupZones(zones, key)| <= |zones|
    ensures forall z :: z in GroupZones(zones, key) ==> z in zones
  {
    SubsequenceBounds(GroupZones(zones, key), zones);
  }

  /** Each group's key is its own upper case, so it selects its group. */
  lemma KeySelectsGroup(g: Group)
    ensures Upper(Key(g)) == Key(g)
    ensures KeyGroup(Key(g)) == Some(g)
  {
    UpperOfCapitals(Key(g));
  }

  /** No zone is selected by the keys of two different groups. With
      `GroupZonesCaseInsensitive` this covers every spelling of the keys. */
  lemma BucketsDisjoint(zones: seq<Zone>, g: Group, h: Group, z: Zone)
    requires g != h
    ensures !(z in GroupZones(zones, Key(g)) && z in GroupZones(zones, Key(h)))
  {
    KeySelectsGroup(g);
    KeySelectsGroup(h);
    GroupMembership(zones, Key(g), g, z);
    GroupMembership(zones, Key(h), h, z);
    if z in GroupZones(zones, Key(g)) && z in GroupZones(zones, Key(h)) {
      PrefixesExclusive(z.name, g, h);
    }
  }

  /** The group a key names depends only on its upper case. */
  lemma KeyCaseInsensitive(key: string)
    ensures KeyGroup(key) == KeyGroup(Upper(key))
  {
    UpperIdempotent(key);
  }

  /** A zone whose name has none of the six prefixes is selected exactly when
      the key names no group, that is, only through the fallback. */
  lemma UnclassifiedOnlyViaFallback(zones: seq<Zone>, key: string, z: Zone)
    requires z in zones
    requires forall g :: !(Prefix(g) <= z.name)
    ensures z in GroupZones(zones, key) <==> KeyGroup(key).None?
  {
    match KeyGroup(key)
    case Some(g) => GroupMembership(zones, key, g, z);
    case None =>
  }

  /** "ALL", in upper or lower case, returns the input list unchanged. */
  lemma AllKeySelectsEverything(zones: seq<Zone>)
    ensures GroupZones(zones, "ALL") == zones
    ensures GroupZones(zones, "all") == zones
  {
    assert Upper("L") == "L" && Upper("l") == "L";
    assert Upper("LL") == "LL" && Upper("ll") == "LL";
    assert Upper("ALL") == "ALL" && Upper("all") == "ALL";
    forall g ensures Key(g) != "ALL" {
      assert Key(g)[0] != 'A';
    }
  }

  /** The lower-case key "cdc" on a CDC, an elementary and an unclassified
      zone selects the CDC zone alone. */
  lemma CdcScenario()
    ensures GroupZones([Zone("1", "CDC-A"), Zone("2", "ES-B"), Zone("3", "XX-C")], "cdc")
            == [Zone("1", "CDC-A")]
  {
    var zones := [Zone("1", "CDC-A"), Zone("2", "ES-B"), Zone("3", "XX-C")];
    assert Upper("c") == "C";
    assert Upper("dc") == "DC";
    assert Upper("cdc") == "CDC" == Key(Cdc);
    assert KeyGroup("cdc") == Some(Cdc);
    assert zones[1..][1..] == [zones[2]];
    assert WithPrefix([zones[2]], "CDC-") == [] by {
      assert zones[2].name[0] != 'C';
      assert [zones[2]][1..] == [];
    }
    assert WithPrefix(zones[1..], "CDC-") == [] by {
      assert zones[1].name[0] != 'C';
    }
    assert WithPrefix(zones, "CDC-") == [zones[0]] by {
      assert "CDC-" <= zones[0].name;
    }
  }
}
