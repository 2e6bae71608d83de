/**
 * The updater: it turns the server's records into the object graph. Each
 * raw sample becomes a reading normalised to the system's units, or is
 * dropped. Sites and zones are built with their ideals, and zones are keyed
 * by site and zone id. A run builds a fresh generation of maps and publishes
 * it only when the whole build completed.
 */
module DataUpdaters {
  import opened Wrappers
  import opened Types
  import opened Readings
  import opened Ideals
  import opened Idealator
  import opened OrderedMaps
  import opened Graph
  import DisplayScale

  /** The Fahrenheit intake factor: the quotient 5/9 taken on integers, which is zero. */
  const FAHRENHEIT_FACTOR: int := 5 / 9

  /** The value standing for a missing sample; a JSON null becomes it too. */
  const MISSING: real := -1.0

  // ---------------------------------------------------------------- intake

  /** A temperature in the server's scale, converted to Kelvin; an unknown scale is taken to be Felsius. */
  function Kelvin(value: real, scale: string): real
  {
    if scale == "C" then value + 273.15
    else if scale == "F" then (value + 459.67) * (FAHRENHEIT_FACTOR as real)
    else if scale == "K" then value
    else (((value + 16.0) * 5.0) / 7.0) + 273.15
  }

  /** Celsius and Kelvin samples come back unchanged when shown in their own scale. */
  lemma KelvinRoundTrip(v: real)
    ensures DisplayScale.ConvertTemperature(DisplayScale.TEMP_CELCIUS, Kelvin(v, "C")) == v
    ensures DisplayScale.ConvertTemperature(DisplayScale.TEMP_KELVIN, Kelvin(v, "K")) == v
  {
  }

  /** Every Fahrenheit sample is converted to 0 K, whatever its value. */
  lemma FahrenheitCollapses(v: real, w: real)
    ensures Kelvin(v, "F") == 0.0 && Kelvin(v, "F") == Kelvin(w, "F")
  {
    assert FAHRENHEIT_FACTOR == 0;
  }

  /**
   * The Felsius intake and the Felsius display are not inverse of each other:
   * a sample of an unknown scale shown in Felsius gives back its own value
   * only at -16.
   */
  lemma FelsiusRoundTripOnlyAt(v: real, scale: string)
    requires scale != "C" && scale != "F" && scale != "K"
    ensures DisplayScale.ConvertTemperature(DisplayScale.TEMP_FELCIUS, Kelvin(v, scale)) == v <==> v == -16.0
  {
  }

  /** A temperature reading, in Kelvin; none when the conversion lands below absolute zero. */
  function MakeTempReading(ts: int, value: real, scale: string): (r: Option<Reading>)
    ensures r.Some? <==> Kelvin(value, scale) >= 0.0
    ensures r.Some? ==> r.value.timestamp == ts && r.value.raw == Kelvin(value, scale) && r.value.dataType == TEMPERATURE
  {
    var kelvin := Kelvin(value, scale);
    if kelvin < 0.0 then None else Some(Reading(ts, kelvin, TEMPERATURE))
  }

  /** A light reading, unconverted; none when it reports negative lux. The scale is not consulted. */
  function MakeLuxReading(ts: int, value: real, scale: string): (r: Option<Reading>)
    ensures r.Some? <==> value >= 0.0
    ensures r.Some? ==> r.value.timestamp == ts && r.value.raw == value && r.value.dataType == LUMOSITY
  {
    if value < 0.0 then None else Some(Reading(ts, value, LUMOSITY))
  }

  /**
   * The reading made from one sample. It is dropped exactly when the sample is
   * missing, a temperature falls below absolute zero, or a light level is
   * negative. A kept reading has the sample's time and the requested type. Its
   * value is in Kelvin for a temperature and unchanged for every other type.
   */
  function MakeReading(ts: int, value: real, t: DataType, scale: string): (r: Option<Reading>)
    ensures r.None? <==> value == MISSING || (t == TEMPERATURE && Kelvin(value, scale) < 0.0) || (t == LUMOSITY && value < 0.0)
    ensures r.Some? ==> r.value.timestamp == ts && r.value.dataType == t
    ensures r.Some? ==> r.value.raw == (if t == TEMPERATURE then Kelvin(value, scale) else value)
  {
    if value == MISSING then None
    else if t == TEMPERATURE then MakeTempReading(ts, value, scale)
    else if t == LUMOSITY then MakeLuxReading(ts, value, scale)
    else Some(Reading(ts, value, t))
  }

  /** One `[time, value]` pair of a value array; a null value is `None`. */
  datatype Sample = Sample(timestamp: int, value: Option<real>)

  /** The value a sample carries into `makeReading`. */
  function SampleValue(s: Sample): real
  {
    match s.value
    case None => MISSING
    case Some(v) => v
  }

  /** The reading made from one sample, if any. */
  function SampleReading(s: Sample, t: DataType, scale: string): Option<Reading>
  {
    MakeReading(s.timestamp, SampleValue(s), t, scale)
  }

  /** The reading of one sample as a list of zero or one element. */
  function Kept(s: Sample, t: DataType, scale: string): seq<Reading>
  {
    match SampleReading(s, t, scale)
    case None => []
    case Some(r) => [r]
  }

  /** The readings kept from a value array, in array order. */
  function Normalised(ss: seq<Sample>, t: DataType, scale: string): seq<Reading>
    decreases |ss|
  {
    if ss == [] then []
    else
      var n := |ss| - 1;
      Normalised(ss[..n], t, scale) + Kept(ss[n], t, scale)
  }

  /** Some sample of the array yields this reading. */
  predicate FromSample(p: Reading, ss: seq<Sample>, t: DataType, scale: string)
  {
    exists i :: 0 <= i < |ss| && SampleReading(ss[i], t, scale) == Some(p)
  }

  /** A witness in a prefix is a witness in the whole array. */
  lemma FromSamplePrefix(p: Reading, ss: seq<Sample>, n: nat, t: DataType, scale: string)
    requires n <= |ss| && FromSample(p, ss[..n], t, scale)
    ensures FromSample(p, ss, t, scale)
  {
    var i :| 0 <= i < n && SampleReading(ss[..n][i], t, scale) == Some(p);
    assert ss[i] == ss[..n][i];
  }

  /** Every kept reading is the reading of some sample, and there are no more readings than samples. */
  lemma {:induction false} NormalisedFrom(ss: seq<Sample>, t: DataType, scale: string)
    ensures |Normalised(ss, t, scale)| <= |ss|
    ensures forall k :: 0 <= k < |Normalised(ss, t, scale)| ==> FromSample(Normalised(ss, t, scale)[k], ss, t, scale)
    decreases |ss|
  {
    if ss != [] {
      var n := |ss| - 1;
      var front := Normalised(ss[..n], t, scale);
      NormalisedFrom(ss[..n], t, scale);
      assert Normalised(ss, t, scale) == front + Kept(ss[n], t, scale);
      forall k | 0 <= k < |Normalised(ss, t, scale)| ensures FromSample(Normalised(ss, t, scale)[k], ss, t, scale) {
        if k < |front| {
          FromSamplePrefix(front[k], ss, n, t, scale);
        } else {
          assert SampleReading(ss[n], t, scale) == Some(Normalised(ss, t, scale)[k]);
        }
      }
    }
  }

  /** Every sample that yields a reading has that reading kept. */
  lemma {:induction false} NormalisedCovers(ss: seq<Sample>, t: DataType, scale: string)
    ensures forall i :: 0 <= i < |ss| && SampleReading(ss[i], t, scale).Some? ==>
      SampleReading(ss[i], t, scale).value in Normalised(ss, t, scale)
    decreases |ss|
  {
    if ss != [] {
      var n := |ss| - 1;
      var front := Normalised(ss[..n], t, scale);
      NormalisedCovers(ss[..n], t, scale);
      assert Normalised(ss, t, scale) == front + Kept(ss[n], t, scale);
      forall i | 0 <= i < |ss| && SampleReading(ss[i], t, scale).Some?
        ensures SampleReading(ss[i], t, scale).value in Normalised(ss, t, scale)
      {
        if i < n {
          assert ss[..n][i] == ss[i];
        }
      }
    }
  }

  /**
   * Every kept reading has the array's type, and no kept temperature or
   * light level is negative.
   */
  lemma {:induction false} NormalisedPlausible(ss: seq<Sample>, t: DataType, scale: string)
    ensures forall k :: 0 <= k < |Normalised(ss, t, scale)| ==>
      Normalised(ss, t, scale)[k].dataType == t &&
      ((t == TEMPERATURE || t == LUMOSITY) ==> Normalised(ss, t, scale)[k].raw >= 0.0)
    decreases |ss|
  {
    if ss != [] {
      var n := |ss| - 1;
      NormalisedPlausible(ss[..n], t, scale);
      assert Normalised(ss, t, scale) == Normalised(ss[..n], t, scale) + Kept(ss[n], t, scale);
    }
  }

  /** A Fahrenheit temperature array keeps every present sample, each as 0 K. */
  lemma {:induction false} NormalisedFahrenheit(ss: seq<Sample>)
    ensures |Normalised(ss, TEMPERATURE, "F")| == |Present(ss)|
    ensures forall k :: 0 <= k < |Normalised(ss, TEMPERATURE, "F")| ==> Normalised(ss, TEMPERATURE, "F")[k].raw == 0.0
    decreases |ss|
  {
    if ss != [] {
      var n := |ss| - 1;
      NormalisedFahrenheit(ss[..n]);
      FahrenheitCollapses(SampleValue(ss[n]), 0.0);
      assert Normalised(ss, TEMPERATURE, "F") == Normalised(ss[..n], TEMPERATURE, "F") + Kept(ss[n], TEMPERATURE, "F");
    }
  }

  /** The samples that are not missing, in order. */
  function Present(ss: seq<Sample>): seq<Sample>
    decreases |ss|
  {
    if ss == [] then []
    else
      var n := |ss| - 1;
      Present(ss[..n]) + (if SampleValue(ss[n]) == MISSING then [] else [ss[n]])
  }

  lemma NormalisedStep(ss: seq<Sample>, i: nat, t: DataType, scale: string)
    requires i < |ss|
    ensures Normalised(ss[..i + 1], t, scale) == Normalised(ss[..i], t, scale) + Kept(ss[i], t, scale)
  {
    assert ss[..i + 1][..i] == ss[..i];
  }

  /** Extending a prefix by the next element gives the next prefix. */
  lemma SnocPrefix<T>(s: seq<T>, j: nat)
    requires j < |s|
    ensures s[..j] + [s[j]] == s[..j + 1]
  {
  }

  lemma ReadingsAssociate(a: seq<Reading>, b: seq<Reading>, c: seq<Reading>)
    ensures a + (b + c) == (a + b) + c
  {
  }

  /** `makeReadings`: the kept readings of a value array, appended to the series in array order. */
  method MakeReadings(data: DeviceData, t: DataType, scale: string, ss: seq<Sample>)
    modifies data
    ensures data.readings == old(data.readings) + Normalised(ss, t, scale)
  {
    var i := 0;
    while i < |ss|
      invariant 0 <= i <= |ss|
      invariant data.readings == old(data.readings) + Normalised(ss[..i], t, scale)
    {
      var reading := MakeReading(ss[i].timestamp, SampleValue(ss[i]), t, scale);
      if reading.Some? {
        data.AddReading(reading.value);
      }
      NormalisedStep(ss, i, t, scale);
      ReadingsAssociate(old(data.readings), Normalised(ss[..i], t, scale), Kept(ss[i], t, scale));
      i := i + 1;
    }
    assert ss[..|ss|] == ss;
  }

  // ---------------------------------------------------------------- zone keys

  /** The key of a zone in the updater's zone map: site id, a slash, zone id. */
  function ZoneKey(siteId: string, zoneId: string): string
  {
    siteId + "/" + zoneId
  }

  /** A key cut at its first slash, or nothing when it holds none. */
  function SplitKey(k: string): (r: Option<(string, string)>)
    ensures r.Some? ==> '/' !in r.value.0
    decreases |k|
  {
    if k == [] then None
    else if k[0] == '/' then Some(([], k[1..]))
    else match SplitKey(k[1..])
      case None => None
      case Some(p) => Some(([k[0]] + p.0, p.1))
  }

  /** Cutting a zone key at its first slash gives back the site and zone ids, when the site id has no slash. */
  lemma {:induction false} SplitZoneKey(siteId: string, zoneId: string)
    requires '/' !in siteId
    ensures SplitKey(ZoneKey(siteId, zoneId)) == Some((siteId, zoneId))
    decreases |siteId|
  {
    if siteId == [] {
      assert ZoneKey(siteId, zoneId)[1..] == zoneId;
    } else {
      SplitZoneKey(siteId[1..], zoneId);
      assert ZoneKey(siteId, zoneId)[1..] == ZoneKey(siteId[1..], zoneId);
      assert [siteId[0]] + siteId[1..] == siteId;
    }
  }

  /** Zone keys of slash-free site ids identify their site and zone. */
  lemma ZoneKeyInjective(s1: string, z1: string, s2: string, z2: string)
    requires '/' !in s1 && '/' !in s2 && ZoneKey(s1, z1) == ZoneKey(s2, z2)
    ensures s1 == s2 && z1 == z2
  {
    SplitZoneKey(s1, z1);
    SplitZoneKey(s2, z2);
  }

  /** Under one site, zone keys identify their zone. */
  lemma ZoneKeySameSite(siteId: string, z1: string, z2: string)
    requires ZoneKey(siteId, z1) == ZoneKey(siteId, z2)
    ensures z1 == z2
  {
    assert z1 == ZoneKey(siteId, z1)[|siteId| + 1..];
    assert z2 == ZoneKey(siteId, z2)[|siteId| + 1..];
  }

  /** Without that condition two different zones can share a key. */
  lemma ZoneKeyCollision()
    ensures ZoneKey("a/b", "c") == ZoneKey("a", "b/c")
  {
  }

  // ---------------------------------------------------------------- ideals

  /**
   * The ideals set by a loop over the types in declaration order, when the
   * lookup for the i-th type gave `found[i]`: each found ideal under its type.
   */
  function Resolved(found: seq<Option<Ideal>>): map<DataType, Ideal>
    requires |found| <= |AllTypes|
    decreases |found|
  {
    if found == [] then map[]
    else
      var n := |found| - 1;
      var m := Resolved(found[..n]);
      if found[n].Some? then m[AllTypes[n] := found[n].value] else m
  }

  /** A type has an ideal exactly when its lookup was made and found one, and it is that one. */
  lemma {:induction false} ResolvedLookup(found: seq<Option<Ideal>>, t: DataType)
    requires |found| <= |AllTypes|
    ensures t in Resolved(found) <==> Ordinal(t) < |found| && found[Ordinal(t)].Some?
    ensures t in Resolved(found) ==> Resolved(found)[t] == found[Ordinal(t)].value
    decreases |found|
  {
    AllTypesEnumerates();
    if found != [] {
      var n := |found| - 1;
      ResolvedLookup(found[..n], t);
      assert AllTypes[Ordinal(t)] == t;
    }
  }

  /** The idealator's answers for a site, type by type in declaration order. */
  function SiteLookups(siteId: string, hour: int, month: int, n: nat): (r: seq<Option<Ideal>>)
    requires n <= |AllTypes|
    ensures |r| == n
  {
    if n == 0 then [] else SiteLookups(siteId, hour, month, n - 1) + [GetSiteIdeal(siteId, AllTypes[n - 1], hour, month)]
  }

  /** The k-th answer is the idealator's answer for the k-th type. */
  lemma {:induction false} SiteLookupsAt(siteId: string, hour: int, month: int, n: nat, k: nat)
    requires k < n <= |AllTypes|
    ensures SiteLookups(siteId, hour, month, n)[k] == GetSiteIdeal(siteId, AllTypes[k], hour, month)
  {
    var prev := SiteLookups(siteId, hour, month, n - 1);
    assert SiteLookups(siteId, hour, month, n) == prev + [GetSiteIdeal(siteId, AllTypes[n - 1], hour, month)];
    if k < n - 1 {
      SiteLookupsAt(siteId, hour, month, n - 1, k);
    }
  }

  /** The idealator's answers for a zone, type by type in declaration order. */
  function ZoneLookups(siteId: string, zoneId: string, hour: int, month: int, n: nat): (r: seq<Option<Ideal>>)
    requires n <= |AllTypes|
    ensures |r| == n
  {
    if n == 0 then [] else ZoneLookups(siteId, zoneId, hour, month, n - 1) + [GetZoneIdeal(siteId, zoneId, AllTypes[n - 1], hour, month)]
  }

  /** The k-th answer is the idealator's answer for the k-th type. */
  lemma {:induction false} ZoneLookupsAt(siteId: string, zoneId: string, hour: int, month: int, n: nat, k: nat)
    requires k < n <= |AllTypes|
    ensures ZoneLookups(siteId, zoneId, hour, month, n)[k] == GetZoneIdeal(siteId, zoneId, AllTypes[k], hour, month)
  {
    var prev := ZoneLookups(siteId, zoneId, hour, month, n - 1);
    assert ZoneLookups(siteId, zoneId, hour, month, n) == prev + [GetZoneIdeal(siteId, zoneId, AllTypes[n - 1], hour, month)];
    if k < n - 1 {
      ZoneLookupsAt(siteId, zoneId, hour, month, n - 1, k);
    }
  }

  /** The ideals `makeSite` gives a site. */
  function SiteIdeals(siteId: string, hour: int, month: int): map<DataType, Ideal>
  {
    Resolved(SiteLookups(siteId, hour, month, |AllTypes|))
  }

  /** The ideals `makeSite` gives a zone of that site. */
  function ZoneIdeals(siteId: string, zoneId: string, hour: int, month: int): map<DataType, Ideal>
  {
    Resolved(ZoneLookups(siteId, zoneId, hour, month, |AllTypes|))
  }

  /** A site holds an ideal exactly for the types the idealator resolves for it, and it is that ideal. */
  lemma SiteIdealsResolved(siteId: string, hour: int, month: int, t: DataType)
    ensures t in SiteIdeals(siteId, hour, month) <==> GetSiteIdeal(siteId, t, hour, month).Some?
    ensures t in SiteIdeals(siteId, hour, month) ==> SiteIdeals(siteId, hour, month)[t] == GetSiteIdeal(siteId, t, hour, month).value
  {
    AllTypesEnumerates();
    ResolvedLookup(SiteLookups(siteId, hour, month, |AllTypes|), t);
    SiteLookupsAt(siteId, hour, month, |AllTypes|, Ordinal(t));
  }

  /** A map holds an ideal exactly for the types the idealator resolves for a site, and it is that ideal. */
  predicate HoldsSiteIdeals(m: map<DataType, Ideal>, siteId: string, hour: int, month: int)
  {
    forall t :: (t in m <==> GetSiteIdeal(siteId, t, hour, month).Some?) &&
                (t in m ==> m[t] == GetSiteIdeal(siteId, t, hour, month).value)
  }

  /** The ideals `makeSite` gives a site are the resolved ones, type by type. */
  lemma SiteIdealsHeld(siteId: string, hour: int, month: int)
    ensures HoldsSiteIdeals(SiteIdeals(siteId, hour, month), siteId, hour, month)
  {
    forall t ensures (t in SiteIdeals(siteId, hour, month) <==> GetSiteIdeal(siteId, t, hour, month).Some?) &&
                     (t in SiteIdeals(siteId, hour, month) ==> SiteIdeals(siteId, hour, month)[t] == GetSiteIdeal(siteId, t, hour, month).value)
    {
      SiteIdealsResolved(siteId, hour, month, t);
    }
  }

  /** A zone holds an ideal exactly for the types the idealator resolves for it, and it is that ideal. */
  lemma ZoneIdealsResolved(siteId: string, zoneId: string, hour: int, month: int, t: DataType)
    ensures t in ZoneIdeals(siteId, zoneId, hour, month) <==> GetZoneIdeal(siteId, zoneId, t, hour, month).Some?
    ensures t in ZoneIdeals(siteId, zoneId, hour, month) ==>
      ZoneIdeals(siteId, zoneId, hour, month)[t] == GetZoneIdeal(siteId, zoneId, t, hour, month).value
  {
    AllTypesEnumerates();
    ResolvedLookup(ZoneLookups(siteId, zoneId, hour, month, |AllTypes|), t);
    ZoneLookupsAt(siteId, zoneId, hour, month, |AllTypes|, Ordinal(t));
  }

  /** Where no zone rule applies, a zone's ideal for a type is its site's ideal, or both are absent. */
  lemma ZoneIdealsFallBack(siteId: string, zoneId: string, hour: int, month: int, t: DataType)
    requires Lookup(ZoneQuery(siteId, zoneId, t), hour, month).None?
    ensures t in ZoneIdeals(siteId, zoneId, hour, month) <==> t in SiteIdeals(siteId, hour, month)
    ensures t in SiteIdeals(siteId, hour, month) ==>
      ZoneIdeals(siteId, zoneId, hour, month)[t] == SiteIdeals(siteId, hour, month)[t]
  {
    SiteIdealsResolved(siteId, hour, month, t);
    ZoneIdealsResolved(siteId, zoneId, hour, month, t);
  }

  lemma ResolvedStep(m: map<DataType, Ideal>, found: seq<Option<Ideal>>, i: nat)
    requires i < |found| <= |AllTypes|
    ensures found[i].None? ==> m + Resolved(found[..i + 1]) == m + Resolved(found[..i])
    ensures found[i].Some? ==> m + Resolved(found[..i + 1]) == (m + Resolved(found[..i]))[AllTypes[i] := found[i].value]
  {
    assert found[..i + 1][..i] == found[..i];
  }

  /** The site-ideal loop of `makeSite`: each type the idealator resolves gets its ideal; the rest keep theirs. */
  method SetSiteIdeals(site: Site, hour: int, month: int)
    modifies site
    ensures site.ideals == old(site.ideals) + SiteIdeals(site.id, hour, month)
    ensures site.devices == old(site.devices) && site.zones == old(site.zones)
  {
    var found := SiteLookups(site.id, hour, month, |AllTypes|);
    var i := 0;
    while i < |AllTypes|
      invariant 0 <= i <= |AllTypes|
      invariant site.ideals == old(site.ideals) + Resolved(found[..i])
      invariant site.devices == old(site.devices) && site.zones == old(site.zones)
    {
      ResolvedStep(old(site.ideals), found, i);
      var ideal := found[i];
      if ideal.Some? {
        site.SetIdeal(AllTypes[i], ideal.value);
      }
      i := i + 1;
    }
    assert found[..|AllTypes|] == found;
  }

  /** The zone-ideal loop of `makeSite`, looked up through the zone's site. */
  method SetZoneIdeals(zone: Zone, hour: int, month: int)
    requires zone.site != null
    modifies zone
    ensures zone.site == old(zone.site) && zone.devices == old(zone.devices)
    ensures zone.ideals == old(zone.ideals) + ZoneIdeals(zone.site.id, zone.id, hour, month)
  {
    var siteId := zone.site.id;
    var found := ZoneLookups(siteId, zone.id, hour, month, |AllTypes|);
    var i := 0;
    while i < |AllTypes|
      invariant 0 <= i <= |AllTypes|
      invariant zone.ideals == old(zone.ideals) + Resolved(found[..i])
      invariant zone.site == old(zone.site) && zone.devices == old(zone.devices)
    {
      ResolvedStep(old(zone.ideals), found, i);
      var ideal := found[i];
      if ideal.Some? {
        zone.SetIdeal(AllTypes[i], ideal.value);
      }
      i := i + 1;
    }
    assert found[..|AllTypes|] == found;
  }

  // ---------------------------------------------------------------- records

  /** A zone entry of a site record. */
  datatype ZoneRecord = ZoneRecord(id: string, name: string)

  /** A site record; a missing coordinate is `None` and reads as -1. */
  datatype SiteRecord = SiteRecord(id: string, name: string, countryCode: string, timezone: string,
                                   lat: Option<real>, lon: Option<real>, al: Option<real>, zones: seq<ZoneRecord>)

  /** A numeric field's value, or -1 when the record lacks it. */
  function Coordinate(x: Option<real>): real
  {
    match x
    case None => -1.0
    case Some(v) => v
  }

  /** A field of a device's data record: a string or a value array. */
  datatype Field = Text(text: string) | Samples(samples: seq<Sample>)

  /** A device's data record at one resolution: its identifying strings and its other fields by name. */
  datatype DataRecord = DataRecord(id: string, name: string, siteId: string, zoneId: string, softwareVersion: string,
                                   fields: map<string, Field>)

  /** The value field of the type, if present, is an array and its scale field, if present, a string. */
  predicate WellTyped(rec: DataRecord, t: DataType)
  {
    (ValueName(t) in rec.fields ==> rec.fields[ValueName(t)].Samples?) &&
    (ScaleName(t) in rec.fields ==> rec.fields[ScaleName(t)].Text?)
  }

  /** `makeZone`: a new zone with the record's id and name. */
  method MakeZone(rec: ZoneRecord) returns (z: Zone)
    ensures fresh(z) && z.id == rec.id && z.name == rec.name
    ensures z.site == null && z.devices == [] && z.ideals == map[]
  {
    z := new Zone(rec.id, rec.name);
  }

  /** Zones stored in a site's zone map by zone id, in list order. */
  function PutZones(m: OrderedMap<Zone>, zs: seq<Zone>): OrderedMap<Zone>
    decreases |zs|
  {
    if zs == [] then m
    else
      var n := |zs| - 1;
      PutZones(m, zs[..n]).Put(zs[n].id, zs[n])
  }

  /** Zones stored in the updater's zone map under their zone keys, in list order. */
  function StoreZones(m: map<string, Zone>, siteId: string, zs: seq<Zone>): map<string, Zone>
    decreases |zs|
  {
    if zs == [] then m
    else
      var n := |zs| - 1;
      StoreZones(m, siteId, zs[..n])[ZoneKey(siteId, zs[n].id) := zs[n]]
  }

  /** A zone stored under a key that no later zone reuses is what the key yields. */
  lemma {:induction false} StoreZonesLast(m: map<string, Zone>, siteId: string, zs: seq<Zone>, j: nat)
    requires j < |zs| && forall l :: j < l < |zs| ==> zs[l].id != zs[j].id
    ensures ZoneKey(siteId, zs[j].id) in StoreZones(m, siteId, zs)
    ensures StoreZones(m, siteId, zs)[ZoneKey(siteId, zs[j].id)] == zs[j]
    decreases |zs|
  {
    var n := |zs| - 1;
    if j < n {
      assert zs[..n][j] == zs[j];
      StoreZonesLast(m, siteId, zs[..n], j);
      if ZoneKey(siteId, zs[n].id) == ZoneKey(siteId, zs[j].id) {
        ZoneKeySameSite(siteId, zs[n].id, zs[j].id);
      }
    }
  }

  /** A key that none of the zones' keys equals is left as it was. */
  lemma {:induction false} StoreZonesElsewhere(m: map<string, Zone>, siteId: string, zs: seq<Zone>, k: string)
    requires forall j :: 0 <= j < |zs| ==> ZoneKey(siteId, zs[j].id) != k
    ensures k in StoreZones(m, siteId, zs) <==> k in m
    ensures k in m ==> StoreZones(m, siteId, zs)[k] == m[k]
    decreases |zs|
  {
    if zs != [] {
      var n := |zs| - 1;
      assert ZoneKey(siteId, zs[n].id) != k;
      forall j | 0 <= j < n ensures ZoneKey(siteId, zs[..n][j].id) != k {
        assert zs[..n][j] == zs[j];
      }
      StoreZonesElsewhere(m, siteId, zs[..n], k);
    }
  }

  /** Storing one site's zones never disturbs the zones of another slash-free site id. */
  lemma StoreZonesOtherSite(m: map<string, Zone>, siteId: string, zs: seq<Zone>, other: string, zoneId: string)
    requires '/' !in siteId && '/' !in other && siteId != other
    ensures ZoneKey(other, zoneId) in StoreZones(m, siteId, zs) <==> ZoneKey(other, zoneId) in m
    ensures ZoneKey(other, zoneId) in m ==> StoreZones(m, siteId, zs)[ZoneKey(other, zoneId)] == m[ZoneKey(other, zoneId)]
  {
    forall j | 0 <= j < |zs| ensures ZoneKey(siteId, zs[j].id) != ZoneKey(other, zoneId) {
      if ZoneKey(siteId, zs[j].id) == ZoneKey(other, zoneId) {
        ZoneKeyInjective(siteId, zs[j].id, other, zoneId);
      }
    }
    StoreZonesElsewhere(m, siteId, zs, ZoneKey(other, zoneId));
  }

  /** A zone put under an id that no later zone reuses is what the site's map yields for that id. */
  lemma {:induction false} PutZonesLast(m: OrderedMap<Zone>, zs: seq<Zone>, j: nat)
    requires j < |zs| && forall l :: j < l < |zs| ==> zs[l].id != zs[j].id
    ensures PutZones(m, zs).Get(zs[j].id) == Some(zs[j])
    decreases |zs|
  {
    var n := |zs| - 1;
    var before := PutZones(m, zs[..n]);
    assert PutZones(m, zs).entries == before.entries[zs[n].id := zs[n]];
    if j < n {
      assert zs[..n][j] == zs[j];
      PutZonesLast(m, zs[..n], j);
    }
  }

  /** Sites stored in the updater's site map by id, in list order. */
  function PutSites(m: map<string, Site>, ss: seq<Site>): map<string, Site>
    decreases |ss|
  {
    if ss == [] then m
    else
      var n := |ss| - 1;
      PutSites(m, ss[..n])[ss[n].id := ss[n]]
  }

  /** A site put under an id that no later site reuses is what the site map yields for that id. */
  lemma {:induction false} PutSitesLast(m: map<string, Site>, ss: seq<Site>, j: nat)
    requires j < |ss| && forall l :: j < l < |ss| ==> ss[l].id != ss[j].id
    ensures ss[j].id in PutSites(m, ss) && PutSites(m, ss)[ss[j].id] == ss[j]
    decreases |ss|
  {
    var n := |ss| - 1;
    if j < n {
      assert ss[..n][j] == ss[j];
      PutSitesLast(m, ss[..n], j);
    }
  }

  /** The zones of every site stored in the updater's zone map, site by site. */
  function StoreAll(m: map<string, Zone>, recs: seq<SiteRecord>, zss: seq<seq<Zone>>): map<string, Zone>
    requires |recs| == |zss|
    decreases |recs|
  {
    if recs == [] then m
    else
      var n := |recs| - 1;
      StoreZones(StoreAll(m, recs[..n], zss[..n]), recs[n].id, zss[n])
  }

  lemma PutZonesStep(m: OrderedMap<Zone>, zs: seq<Zone>, z: Zone)
    ensures PutZones(m, zs + [z]) == PutZones(m, zs).Put(z.id, z)
  {
    assert (zs + [z])[..|zs|] == zs;
  }

  lemma PutSitesStep(m: map<string, Site>, ss: seq<Site>, s: Site)
    ensures PutSites(m, ss + [s]) == PutSites(m, ss)[s.id := s]
  {
    assert (ss + [s])[..|ss|] == ss;
  }

  lemma StoreAllStep(m: map<string, Zone>, recs: seq<SiteRecord>, zss: seq<seq<Zone>>, rec: SiteRecord, zs: seq<Zone>)
    requires |recs| == |zss|
    ensures StoreAll(m, recs + [rec], zss + [zs]) == StoreZones(StoreAll(m, recs, zss), rec.id, zs)
  {
    assert (recs + [rec])[..|recs|] == recs;
    assert (zss + [zs])[..|zss|] == zss;
  }

  /** A zone built by `makeSite` from its record: placed at the site, no device, its resolved ideals. */
  predicate ZoneBuilt(z: Zone, rec: ZoneRecord, site: Site, hour: int, month: int)
    reads z
  {
    z.id == rec.id && z.name == rec.name && z.site == site && z.devices == [] &&
    z.ideals == ZoneIdeals(site.id, rec.id, hour, month)
  }

  /** Zones built by `makeSite` from the zone records, one per record in order. */
  predicate ZonesBuilt(zs: seq<Zone>, recs: seq<ZoneRecord>, site: Site, hour: int, month: int)
    reads zs
  {
    |zs| == |recs| && forall l :: 0 <= l < |zs| ==> ZoneBuilt(zs[l], recs[l], site, hour, month)
  }

  lemma ZonesBuiltSnoc(zs: seq<Zone>, recs: seq<ZoneRecord>, z: Zone, rec: ZoneRecord, site: Site, hour: int, month: int)
    requires ZonesBuilt(zs, recs, site, hour, month) && ZoneBuilt(z, rec, site, hour, month)
    ensures ZonesBuilt(zs + [z], recs + [rec], site, hour, month)
  {
    forall l | 0 <= l < |zs| + 1 ensures ZoneBuilt((zs + [z])[l], (recs + [rec])[l], site, hour, month) {
      if l < |zs| {
        assert (zs + [z])[l] == zs[l] && (recs + [rec])[l] == recs[l];
      }
    }
  }

  /**
   * A site built by `makeSite` from its record: the record's fields (a missing
   * coordinate as -1), no device of its own, its resolved ideals, and its
   * zones built from the zone records and stored under their ids.
   */
  predicate SiteBuilt(site: Site, made: seq<Zone>, rec: SiteRecord, hour: int, month: int)
    reads site, made
  {
    site.id == rec.id && site.name == rec.name &&
    site.countryCode == rec.countryCode && site.timezone == rec.timezone &&
    site.latitude == Coordinate(rec.lat) && site.longitude == Coordinate(rec.lon) && site.altitude == Coordinate(rec.al) &&
    site.devices == [] && HoldsSiteIdeals(site.ideals, rec.id, hour, month) &&
    site.zones == PutZones(Empty(), made) && ZonesBuilt(made, rec.zones, site, hour, month)
  }

  /** One turn of the zone loop of `makeSite`: the new zone, placed at the site and stored in it under its id. */
  method MakeSiteZone(site: Site, rec: ZoneRecord, hour: int, month: int) returns (zone: Zone)
    modifies site
    ensures fresh(zone) && ZoneBuilt(zone, rec, site, hour, month)
    ensures site.zones == old(site.zones).Put(zone.id, zone)
    ensures site.devices == old(site.devices) && site.ideals == old(site.ideals)
  {
    zone := MakeZone(rec);
    zone.SetSite(site);
    SetZoneIdeals(zone, hour, month);
    site.AddZone(zone.id, zone);
  }

  /** The first half of `makeSite`: a new site with the record's fields, no zone and its resolved ideals. */
  method NewSite(rec: SiteRecord, hour: int, month: int) returns (site: Site)
    ensures fresh(site) && site.id == rec.id && site.name == rec.name
    ensures site.countryCode == rec.countryCode && site.timezone == rec.timezone
    ensures site.latitude == Coordinate(rec.lat) && site.longitude == Coordinate(rec.lon) && site.altitude == Coordinate(rec.al)
    ensures site.devices == [] && site.zones == Empty() && site.ideals == SiteIdeals(rec.id, hour, month)
  {
    site := new Site(rec.id, rec.name, Coordinate(rec.lon), Coordinate(rec.lat), Coordinate(rec.al),
                     rec.countryCode, rec.timezone);
    SetSiteIdeals(site, hour, month);
  }

  /**
   * The zone loop of `makeSite`: each zone record becomes a new zone placed at
   * the site with its resolved ideals and stored in the site under its id.
   */
  method AddZones(site: Site, recs: seq<ZoneRecord>, hour: int, month: int) returns (made: seq<Zone>)
    modifies site
    ensures ZonesBuilt(made, recs, site, hour, month)
    ensures site.zones == PutZones(old(site.zones), made)
    ensures site.devices == old(site.devices) && site.ideals == old(site.ideals)
  {
    made := [];
    var j := 0;
    while j < |recs|
      invariant 0 <= j <= |recs|
      invariant site.devices == old(site.devices) && site.ideals == old(site.ideals)
      invariant site.zones == PutZones(old(site.zones), made)
      invariant ZonesBuilt(made, recs[..j], site, hour, month)
    {
      var zone := AddZonesTurn(site, made, recs, j, hour, month);
      PutZonesStep(old(site.zones), made, zone);
      made := made + [zone];
      j := j + 1;
    }
    assert recs[..|recs|] == recs;
  }

  /** A turn of the zone loop, seen from the loop: the zones built so far stay built, and one more is. */
  method AddZonesTurn(site: Site, made: seq<Zone>, recs: seq<ZoneRecord>, j: nat, hour: int, month: int)
    returns (zone: Zone)
    requires j < |recs| && ZonesBuilt(made, recs[..j], site, hour, month)
    modifies site
    ensures ZonesBuilt(made + [zone], recs[..j + 1], site, hour, month)
    ensures site.zones == old(site.zones).Put(zone.id, zone)
    ensures site.devices == old(site.devices) && site.ideals == old(site.ideals)
  {
    zone := MakeSiteZone(site, recs[j], hour, month);
    ZonesBuiltSnoc(made, recs[..j], zone, recs[j], site, hour, month);
    SnocPrefix(recs, j);
  }

  /**
   * `makeSite`: a new site with the record's fields and its resolved
   * ideals. Each zone of the record is a new zone placed at the site with its
   * own resolved ideals and stored in the site under its id; `made` lists
   * them in record order for the caller, which stores them in the working
   * zone map under their zone keys in that same order.
   */
  method MakeSite(rec: SiteRecord, hour: int, month: int) returns (site: Site, made: seq<Zone>)
    ensures fresh(site) && site.id == rec.id && SiteBuilt(site, made, rec, hour, month)
  {
    site := NewSite(rec, hour, month);
    made := AddZones(site, rec.zones, hour, month);
    SiteIdealsHeld(rec.id, hour, month);
  }

  // ---------------------------------------------------------------- the updater

  /** One generation of the updater's maps: devices, zones by zone key, sites by id, expected device ids. */
  datatype Generation = Generation(devices: map<string, Device>, zones: map<string, Zone>,
                                   sites: map<string, Site>, expected: set<string>)

  /** The maps a run starts from. */
  const EmptyGeneration: Generation := Generation(map[], map[], map[], {})

  /**
   * The updater: the published maps that readers see, the working maps a run
   * builds, whether a run is in progress and when the last one finished.
   */
  class DataUpdater {
    var published: Generation
    var working: Generation
    var updating: bool
    var lastUpdateTime: Option<int>

    /** Outside a run, the published maps are the ones the last run built. */
    predicate Valid()
      reads this
    {
      !updating ==> published == working
    }

    /** All maps empty, no run in progress, no run finished yet. */
    constructor ()
      ensures Valid() && !updating && lastUpdateTime.None?
      ensures published == EmptyGeneration && working == EmptyGeneration
    {
      published := EmptyGeneration;
      working := EmptyGeneration;
      updating := false;
      lastUpdateTime := None;
    }

    /** The published device map: during a run, and after a failed one, the previous generation's. */
    function GetDevices(): (r: map<string, Device>)
      reads this
      requires Valid()
      ensures r == published.devices
      ensures !updating ==> r == working.devices
    {
      published.devices
    }

    /** The published zone map: during a run, and after a failed one, the previous generation's. */
    function GetZones(): (r: map<string, Zone>)
      reads this
      requires Valid()
      ensures r == published.zones
      ensures !updating ==> r == working.zones
    {
      published.zones
    }

    /** The published site map: during a run, and after a failed one, the previous generation's. */
    function GetSites(): (r: map<string, Site>)
      reads this
      requires Valid()
      ensures r == published.sites
      ensures !updating ==> r == working.sites
    {
      published.sites
    }

    /** The published set of expected device ids: during a run, and after a failed one, the previous generation's. */
    function GetExpectedDevices(): (r: set<string>)
      reads this
      requires Valid()
      ensures r == published.expected
      ensures !updating ==> r == working.expected
    {
      published.expected
    }

    /** Whether a run is in progress. */
    function IsUpdating(): (r: bool)
      reads this
      requires Valid()
      ensures r == updating
      ensures !r ==> GetSites() == working.sites && GetZones() == working.zones
    {
      updating
    }

    /**
     * `makeDeviceData`: none unless the record has this type's value and
     * scale fields and names a known site and a zone known under that site.
     * Otherwise a new series of that type and resolution, placed at that site
     * and zone, holding the readings kept from the value array.
     */
    method MakeDeviceData(rec: DataRecord, t: DataType, res: DataResolution) returns (r: DeviceData?)
      requires WellTyped(rec, t)
      ensures r == null <==>
        !(ValueName(t) in rec.fields && ScaleName(t) in rec.fields &&
          rec.siteId in working.sites && ZoneKey(rec.siteId, rec.zoneId) in working.zones)
      ensures r != null ==> fresh(r) && r.id == rec.id && r.name == rec.name && r.softwareVersion == rec.softwareVersion
      ensures r != null ==> r.site == working.sites[rec.siteId] && r.zone == working.zones[ZoneKey(rec.siteId, rec.zoneId)]
      ensures r != null ==> r.dataType == t && r.resolution == res && r.scale == rec.fields[ScaleName(t)].text
      ensures r != null ==> r.readings == Normalised(rec.fields[ValueName(t)].samples, t, r.scale)
    {
      if ValueName(t) !in rec.fields || ScaleName(t) !in rec.fields {
        return null;
      }
      var scale := rec.fields[ScaleName(t)].text;
      var key := ZoneKey(rec.siteId, rec.zoneId);
      if rec.siteId !in working.sites || key !in working.zones {
        return null;
      }
      r := new DeviceData(rec.id, rec.name, working.sites[rec.siteId], working.zones[key], rec.softwareVersion, t, res, scale);
      MakeReadings(r, t, scale, rec.fields[ValueName(t)].samples);
    }

    /**
     * One turn of the loop of `makeSites`: the site built from the record
     * stored in the working site map by id, and its zones in the working zone
     * map under their zone keys.
     */
    method AddSite(rec: SiteRecord, hour: int, month: int) returns (site: Site, made: seq<Zone>)
      requires updating
      modifies this
      ensures Valid()
      ensures fresh(site) && site.id == rec.id && SiteBuilt(site, made, rec, hour, month)
      ensures working == old(working).(sites := old(working).sites[site.id := site],
                                        zones := StoreZones(old(working).zones, rec.id, made))
      ensures published == old(published) && updating == old(updating) && lastUpdateTime == old(lastUpdateTime)
    {
      site, made := MakeSite(rec, hour, month);
      working := working.(zones := StoreZones(working.zones, rec.id, made), sites := working.sites[site.id := site]);
    }

    /** A turn of the site loop, seen from the loop: the sites built so far stay built, and one more is. */
    method AddSiteTurn(made: seq<Site>, zonesMade: seq<seq<Zone>>, recs: seq<SiteRecord>, i: nat, hour: int, month: int)
      returns (site: Site, zs: seq<Zone>)
      requires updating && i < |recs| && |made| == i && |zonesMade| == i
      requires forall j {:trigger SiteBuilt(made[j], zonesMade[j], recs[j], hour, month)} ::
        0 <= j < i ==> SiteBuilt(made[j], zonesMade[j], recs[j], hour, month)
      modifies this
      ensures Valid()
      ensures fresh(site)
      ensures forall j {:trigger SiteBuilt((made + [site])[j], (zonesMade + [zs])[j], recs[j], hour, month)} ::
        0 <= j < i + 1 ==> SiteBuilt((made + [site])[j], (zonesMade + [zs])[j], recs[j], hour, month)
      ensures working == old(working).(sites := old(working).sites[site.id := site],
                                        zones := StoreZones(old(working).zones, recs[i].id, zs))
      ensures published == old(published) && updating == old(updating) && lastUpdateTime == old(lastUpdateTime)
    {
      site, zs := AddSite(recs[i], hour, month);
    }

    /**
     * `makeSites`: every site record built in order and stored in the working
     * site map by id; the zones of each go into the working zone map under
     * their zone keys.
     */
    method MakeSites(recs: seq<SiteRecord>, hour: int, month: int) returns (made: seq<Site>, zonesMade: seq<seq<Zone>>)
      requires updating
      modifies this
      ensures Valid()
      ensures |made| == |recs| && |zonesMade| == |recs|
      ensures forall j :: 0 <= j < |made| ==> fresh(made[j]) && made[j].id == recs[j].id
      ensures forall j :: 0 <= j < |made| ==> SiteBuilt(made[j], zonesMade[j], recs[j], hour, month)
      ensures working == old(working).(sites := PutSites(old(working).sites, made),
                                        zones := StoreAll(old(working).zones, recs, zonesMade))
      ensures published == old(published) && updating == old(updating) && lastUpdateTime == old(lastUpdateTime)
    {
      made := [];
      zonesMade := [];
      var i := 0;
      while i < |recs|
        invariant 0 <= i <= |recs| && |made| == i && |zonesMade| == i
        invariant forall j :: 0 <= j < i ==> fresh(made[j])
        invariant forall j {:trigger SiteBuilt(made[j], zonesMade[j], recs[j], hour, month)} :: 0 <= j < i ==> SiteBuilt(made[j], zonesMade[j], recs[j], hour, month)
        invariant working == old(working).(sites := PutSites(old(working).sites, made),
                                           zones := StoreAll(old(working).zones, recs[..i], zonesMade))
        invariant published == old(published) && updating == old(updating) && lastUpdateTime == old(lastUpdateTime)
      {
        var site, zs := AddSiteTurn(made, zonesMade, recs, i, hour, month);
        PutSitesStep(old(working).sites, made, site);
        StoreAllStep(old(working).zones, recs[..i], zonesMade, recs[i], zs);
        SnocPrefix(recs, i);
        made := made + [site];
        zonesMade := zonesMade + [zs];
        i := i + 1;
      }
      assert recs[..|recs|] == recs;
      forall j | 0 <= j < |made| ensures made[j].id == recs[j].id {
        assert SiteBuilt(made[j], zonesMade[j], recs[j], hour, month);
      }
    }

    /**
     * `run`: marks a run in progress, starts from empty working maps and
     * builds the sites from their records; the devices built from the device
     * records and their expected ids are given. When the build completes, the
     * run records the finishing time, publishes the working maps and clears
     * the flag. When it fails, the published maps and time stay as they were
     * and the flag stays set.
     */
    method Run(recs: seq<SiteRecord>, builtDevices: map<string, Device>, expected: set<string>,
               completed: bool, hour: int, month: int, now: int)
      returns (made: seq<Site>, zonesMade: seq<seq<Zone>>)
      modifies this
      ensures Valid()
      ensures updating == !completed
      ensures |made| == |recs| && |zonesMade| == |recs|
      ensures forall j :: 0 <= j < |made| ==> fresh(made[j]) && made[j].id == recs[j].id
      ensures working == Generation(builtDevices, StoreAll(map[], recs, zonesMade), PutSites(map[], made), expected)
      ensures completed ==> published == working && lastUpdateTime == Some(now)
      ensures !completed ==> published == old(published) && lastUpdateTime == old(lastUpdateTime)
    {
      updating := true;
      working := EmptyGeneration;
      made, zonesMade := MakeSites(recs, hour, month);
      working := working.(devices := builtDevices, expected := expected);
      if completed {
        lastUpdateTime := Some(now);
        published := working;
        updating := false;
      }
    }
  }
}
