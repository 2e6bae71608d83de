/**
 * Resolution of ideal ranges from the fixed rule table: the first rule in
 * table order that fits wins; a zone falls back to its site and a device to
 * its zone. The wall clock is replaced by explicit `hour` and `month`
 * parameters.
 */
module Idealator {
  import opened Wrappers
  import opened Types
  import opened Ideals

  const HOUR_DAY_START: int := 7
  const HOUR_DAY_END: int := 19
  const MONTH_SUMMER_START: int := 5
  const MONTH_SUMMER_END: int := 10

  /** The rule table, in the order it is searched: the site rules, then the zone rules. */
  const Rules: seq<Ideal> := SiteRules + ZoneRules

  /** The site rules of the table: gh1, gh2 and gh3. */
  const SiteRules: seq<Ideal> := [
    Scoped(TYPE_SITE, "gh1", GAS, 0.0, 1.0),
    Scoped(TYPE_SITE, "gh1", HUMIDITY, 30.0, 40.0),
    ScopedWhen(TYPE_SITE, "gh1", TEMPERATURE, 280.15, 302.15, DONT_CARE, MUST_BE_SUMMER),
    ScopedWhen(TYPE_SITE, "gh1", TEMPERATURE, 280.15, 302.15, MUST_BE_DAY, MUST_BE_WINTER),
    ScopedWhen(TYPE_SITE, "gh1", TEMPERATURE, 281.15, 283.15, MUST_BE_NIGHT, MUST_BE_WINTER),
    Scoped(TYPE_SITE, "gh1", MOISTURE, 10.0, 60.0),
    Scoped(TYPE_SITE, "gh1", LUMOSITY, 0.0, 350.0),
    Scoped(TYPE_SITE, "gh2", GAS, 0.0, 1.0),
    Scoped(TYPE_SITE, "gh2", HUMIDITY, 30.0, 40.0),
    Scoped(TYPE_SITE, "gh2", TEMPERATURE, 280.15, 291.15),
    Scoped(TYPE_SITE, "gh2", MOISTURE, 8.0, 53.0),
    Scoped(TYPE_SITE, "gh2", LUMOSITY, 0.0, 350.0),
    Scoped(TYPE_SITE, "gh3", GAS, 0.0, 1.0),
    Scoped(TYPE_SITE, "gh3", HUMIDITY, 30.0, 40.0),
    Scoped(TYPE_SITE, "gh3", TEMPERATURE, 285.15, 300.15),
    Scoped(TYPE_SITE, "gh3", MOISTURE, 10.0, 60.0),
    Scoped(TYPE_SITE, "gh3", LUMOSITY, 0.0, 200.0)
  ]

  /** The zone rules of the table, after all site rules. */
  const ZoneRules: seq<Ideal> := [
    ForZone("house", "store", TEMPERATURE, 283.0, 295.0),
    ForZoneWhen("house", "store", LUMOSITY, 0.0, 195.0, MUST_BE_DAY, DONT_CARE),
    ForZoneWhen("house", "store", LUMOSITY, 0.0, 5.0, MUST_BE_NIGHT, DONT_CARE),
    ForZone("outside", "heap", TEMPERATURE, 290.0, 320.0),
    ForZone("outside", "field", TEMPERATURE, 268.0, 305.0),
    ForZone("outside", "field", MOISTURE, 65.0, 73.0)
  ]

  /** Daytime is strictly between 07:00 and 19:00 hours: hours 7 and 19 count as night. */
  predicate IsDaytime(hour: int)
  {
    hour > HOUR_DAY_START && hour < HOUR_DAY_END
  }

  /** Summer is strictly between May and October: months 6 to 9. */
  predicate IsSummer(month: int)
  {
    month > MONTH_SUMMER_START && month < MONTH_SUMMER_END
  }

  /** What a lookup searches for. */
  datatype Query =
    | SiteQuery(siteId: string, dataType: DataType)
    | ZoneQuery(siteId: string, zoneId: string, dataType: DataType)
    | DeviceQuery(deviceId: string, dataType: DataType)

  /** The filters of one lookup: scope, identity, data type and period. */
  predicate Fits(rule: Ideal, q: Query, isDay: bool, isSummer: bool)
  {
    rule.dataType == q.dataType && rule.RequirementsMatch(isDay, isSummer) &&
    match q
    case SiteQuery(s, _) => rule.kind == TYPE_SITE && rule.id == Some(s)
    case ZoneQuery(s, z, _) => rule.kind == TYPE_ZONE && rule.siteId == Some(s) && rule.zoneId == Some(z)
    case DeviceQuery(d, _) => rule.kind == TYPE_DEVICE && rule.id == Some(d)
  }

  /** Index of the first rule at or after `from` that fits, if any. */
  function FirstFrom(q: Query, isDay: bool, isSummer: bool, from: nat): (r: Option<nat>)
    requires from <= |Rules|
    decreases |Rules| - from
    ensures r.None? ==> forall k :: from <= k < |Rules| ==> !Fits(Rules[k], q, isDay, isSummer)
    ensures r.Some? ==> from <= r.value < |Rules| && Fits(Rules[r.value], q, isDay, isSummer)
    ensures r.Some? ==> forall k :: from <= k < r.value ==> !Fits(Rules[k], q, isDay, isSummer)
  {
    if from == |Rules| then None
    else if Fits(Rules[from], q, isDay, isSummer) then Some(from)
    else FirstFrom(q, isDay, isSummer, from + 1)
  }

  /** The first fitting rule of the whole table (`filter(...).findFirst()`), or null. */
  function Lookup(q: Query, hour: int, month: int): (r: Option<Ideal>)
  {
    match FirstFrom(q, IsDaytime(hour), IsSummer(month), 0)
    case None => None
    case Some(k) => Some(Rules[k])
  }

  /** The first site rule for this site and type that applies now, or null. */
  function GetSiteIdeal(siteId: string, t: DataType, hour: int, month: int): (r: Option<Ideal>)
    ensures r.None? <==> forall k :: 0 <= k < |Rules| ==> !Fits(Rules[k], SiteQuery(siteId, t), IsDaytime(hour), IsSummer(month))
    ensures r.Some? ==> exists k :: (0 <= k < |Rules| && r.value == Rules[k] &&
      Fits(Rules[k], SiteQuery(siteId, t), IsDaytime(hour), IsSummer(month)) &&
      forall j :: 0 <= j < k ==> !Fits(Rules[j], SiteQuery(siteId, t), IsDaytime(hour), IsSummer(month)))
  {
    Lookup(SiteQuery(siteId, t), hour, month)
  }

  /** The first zone rule for this zone and type that applies now; failing that, the site's ideal. */
  function GetZoneIdeal(siteId: string, zoneId: string, t: DataType, hour: int, month: int): (r: Option<Ideal>)
    ensures (forall k :: 0 <= k < |Rules| ==> !Fits(Rules[k], ZoneQuery(siteId, zoneId, t), IsDaytime(hour), IsSummer(month))) ==>
      r == GetSiteIdeal(siteId, t, hour, month)
    ensures (exists k :: 0 <= k < |Rules| && Fits(Rules[k], ZoneQuery(siteId, zoneId, t), IsDaytime(hour), IsSummer(month))) ==>
      r.Some? && exists k :: (0 <= k < |Rules| && r.value == Rules[k] &&
        Fits(Rules[k], ZoneQuery(siteId, zoneId, t), IsDaytime(hour), IsSummer(month)) &&
        forall j :: 0 <= j < k ==> !Fits(Rules[j], ZoneQuery(siteId, zoneId, t), IsDaytime(hour), IsSummer(month)))
  {
    match Lookup(ZoneQuery(siteId, zoneId, t), hour, month)
    case Some(i) => Some(i)
    case None => GetSiteIdeal(siteId, t, hour, month)
  }

  /** The first device rule for this device and type that applies now; failing that, the zone's ideal. */
  function GetDeviceIdeal(deviceId: string, siteId: string, zoneId: string, t: DataType, hour: int, month: int): (r: Option<Ideal>)
    ensures (forall k :: 0 <= k < |Rules| ==> !Fits(Rules[k], DeviceQuery(deviceId, t), IsDaytime(hour), IsSummer(month))) ==>
      r == GetZoneIdeal(siteId, zoneId, t, hour, month)
    ensures (exists k :: 0 <= k < |Rules| && Fits(Rules[k], DeviceQuery(deviceId, t), IsDaytime(hour), IsSummer(month))) ==>
      r.Some? && exists k :: (0 <= k < |Rules| && r.value == Rules[k] &&
        Fits(Rules[k], DeviceQuery(deviceId, t), IsDaytime(hour), IsSummer(month)) &&
        forall j :: 0 <= j < k ==> !Fits(Rules[j], DeviceQuery(deviceId, t), IsDaytime(hour), IsSummer(month)))
  {
    match Lookup(DeviceQuery(deviceId, t), hour, month)
    case Some(i) => Some(i)
    case None => GetZoneIdeal(siteId, zoneId, t, hour, month)
  }

  /** The table holds no device rules, so a device's ideal is always its zone's ideal. */
  lemma DeviceIdealIsZoneIdeal(deviceId: string, siteId: string, zoneId: string, t: DataType, hour: int, month: int)
    ensures GetDeviceIdeal(deviceId, siteId, zoneId, t, hour, month) == GetZoneIdeal(siteId, zoneId, t, hour, month)
  {
    var q := DeviceQuery(deviceId, t);
    forall k | 0 <= k < |Rules| ensures Rules[k].kind != TYPE_DEVICE {
    }
    assert FirstFrom(q, IsDaytime(hour), IsSummer(month), 0).None?;
  }

  /** gh1 temperature: the summer rule (table line 3) whenever it is summer. */
  lemma Gh1TemperatureInSummer(hour: int, month: int)
    requires IsSummer(month)
    ensures GetSiteIdeal("gh1", TEMPERATURE, hour, month) == Some(Rules[2])
  {
    var q, isDay, isSummer := SiteQuery("gh1", TEMPERATURE), IsDaytime(hour), IsSummer(month);
    assert !Fits(Rules[0], q, isDay, isSummer);
    assert !Fits(Rules[1], q, isDay, isSummer);
    assert Fits(Rules[2], q, isDay, isSummer);
    SkipUnfitting(q, isDay, isSummer, 0, 2);
  }

  /** gh1 temperature: the winter day rule on a winter day. */
  lemma Gh1TemperatureOnWinterDay(hour: int, month: int)
    requires !IsSummer(month) && IsDaytime(hour)
    ensures GetSiteIdeal("gh1", TEMPERATURE, hour, month) == Some(Rules[3])
  {
    var q, isDay, isSummer := SiteQuery("gh1", TEMPERATURE), IsDaytime(hour), IsSummer(month);
    assert !Fits(Rules[0], q, isDay, isSummer);
    assert !Fits(Rules[1], q, isDay, isSummer);
    assert !Fits(Rules[2], q, isDay, isSummer);
    assert Fits(Rules[3], q, isDay, isSummer);
    SkipUnfitting(q, isDay, isSummer, 0, 3);
  }

  /** gh1 temperature: the winter night rule on a winter night. */
  lemma Gh1TemperatureOnWinterNight(hour: int, month: int)
    requires !IsSummer(month) && !IsDaytime(hour)
    ensures GetSiteIdeal("gh1", TEMPERATURE, hour, month) == Some(Rules[4])
  {
    var q, isDay, isSummer := SiteQuery("gh1", TEMPERATURE), IsDaytime(hour), IsSummer(month);
    assert !Fits(Rules[0], q, isDay, isSummer);
    assert !Fits(Rules[1], q, isDay, isSummer);
    assert !Fits(Rules[2], q, isDay, isSummer);
    assert !Fits(Rules[3], q, isDay, isSummer);
    assert Fits(Rules[4], q, isDay, isSummer);
    SkipUnfitting(q, isDay, isSummer, 0, 4);
  }

  /** Rules that do not fit are skipped: the search from `from` ends where the search from `to` does. */
  lemma {:induction false} SkipUnfitting(q: Query, isDay: bool, isSummer: bool, from: nat, to: nat)
    requires from <= to <= |Rules|
    requires forall k :: from <= k < to ==> !Fits(Rules[k], q, isDay, isSummer)
    ensures FirstFrom(q, isDay, isSummer, from) == FirstFrom(q, isDay, isSummer, to)
    decreases |Rules| - from
  {
    if from < to {
      SkipUnfitting(q, isDay, isSummer, from + 1, to);
    }
  }

  /** The first seventeen rules are the site rules; the zone rules come after them. */
  lemma SiteRulesFirst()
    ensures forall k :: 0 <= k < 17 ==> Rules[k].kind == TYPE_SITE
    ensures forall k :: 17 <= k < |Rules| ==> Rules[k].kind == TYPE_ZONE
  {
  }

  /** A zone query never fits a site rule, so its search starts at the zone rules. */
  lemma ZoneSearchSkipsSiteRules(q: Query, isDay: bool, isSummer: bool)
    requires q.ZoneQuery?
    ensures FirstFrom(q, isDay, isSummer, 0) == FirstFrom(q, isDay, isSummer, 17)
  {
    SiteRulesFirst();
    SkipUnfitting(q, isDay, isSummer, 0, 17);
  }

  /** By day the house store uses its day light rule (table line 19). */
  lemma HouseStoreLightByDay(hour: int, month: int)
    requires IsDaytime(hour)
    ensures GetZoneIdeal("house", "store", LUMOSITY, hour, month) == Some(Rules[18])
  {
    var q := ZoneQuery("house", "store", LUMOSITY);
    ZoneSearchSkipsSiteRules(q, true, IsSummer(month));
    assert !Fits(Rules[17], q, true, IsSummer(month));
    assert Fits(Rules[18], q, true, IsSummer(month));
    assert FirstFrom(q, true, IsSummer(month), 17) == Some(18);
  }

  /** At night the house store uses its night light rule (table line 20). */
  lemma HouseStoreLightAtNight(hour: int, month: int)
    requires !IsDaytime(hour)
    ensures GetZoneIdeal("house", "store", LUMOSITY, hour, month) == Some(Rules[19])
  {
    var q := ZoneQuery("house", "store", LUMOSITY);
    ZoneSearchSkipsSiteRules(q, false, IsSummer(month));
    assert !Fits(Rules[17], q, false, IsSummer(month));
    assert !Fits(Rules[18], q, false, IsSummer(month));
    assert Fits(Rules[19], q, false, IsSummer(month));
    assert FirstFrom(q, false, IsSummer(month), 17) == Some(19);
  }

  /** The two house store light rules: up to 195 lux by day, up to 5 lux at night. */
  lemma HouseStoreLightLimits()
    ensures Rules[18].min == 0.0 && Rules[18].max == 195.0 && Rules[18].requiredTime == MUST_BE_DAY
    ensures Rules[19].min == 0.0 && Rules[19].max == 5.0 && Rules[19].requiredTime == MUST_BE_NIGHT
  {
  }

  /** No zone rule names gh2, so every gh2 zone resolves to the gh2 site ideal. */
  lemma Gh2ZonesUseSiteIdeal(zoneId: string, t: DataType, hour: int, month: int)
    ensures GetZoneIdeal("gh2", zoneId, t, hour, month) == GetSiteIdeal("gh2", t, hour, month)
  {
    var q := ZoneQuery("gh2", zoneId, t);
    forall k | 0 <= k < |Rules| ensures !Fits(Rules[k], q, IsDaytime(hour), IsSummer(month)) {
    }
    assert FirstFrom(q, IsDaytime(hour), IsSummer(month), 0).None?;
  }
}
