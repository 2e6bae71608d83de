/**
 * The problem finder: a top-down walk over sites, data types, zones and
 * devices that records a problem for every OVER, UNDER, EXTREME or LATE
 * status, skipping the zones and devices of a type the site already failed
 * on, and the devices of a zone that failed; then one problem per device of
 * the site that has not connected for five minutes.
 *
 * The walk reads the survey taken when it starts; the functions below say
 * what each step records, the lemmas say what the whole walk records, and
 * the methods of `ProblemFinder` are proved to append exactly that.
 */
module ProblemFinders {
  import opened Wrappers
  import opened Types
  import opened Statuses
  import opened Graph
  import opened Problems
  import opened Surveys

  /**
   * What one average check records for a status: OVER and UNDER against the
   * checked entity, EXTREME and LATE against its site, and nothing for
   * OKAY, UNKNOWN and DOES_NOT_SERVE.
   */
  function Recorded(status: IdealStatus, own: Problem, siteWide: Problem): (r: seq<Problem>)
    ensures status.IsReported() <==> |r| == 1
    ensures !status.IsReported() <==> r == []
    ensures (status == OVER || status == UNDER) ==> r == [own]
    ensures (status == EXTREME || status == LATE) ==> r == [siteWide]
  {
    if status == OVER || status == UNDER then [own]
    else if status == EXTREME || status == LATE then [siteWide]
    else []
  }

  /** The type code of the entity a check of the given level is about. */
  function KindOf(level: Level): int
  {
    match level
    case SiteLevel => TYPE_SITE
    case ZoneLevel => TYPE_ZONE
    case DeviceLevel => TYPE_DEVICE
  }

  /**
   * Scope attribution: a disconnection names a device; an OVER or UNDER
   * reading names the entity checked; an EXTREME or LATE reading names the
   * site.
   */
  predicate Attributed(p: Problem)
  {
    match p.message
    case Disconnected => p.kind == TYPE_DEVICE
    case Reading(level, _, status) =>
      status.IsReported() &&
      ((status == OVER || status == UNDER) ==> p.kind == KindOf(level)) &&
      ((status == EXTREME || status == LATE) ==> p.kind == TYPE_SITE)
  }

  /** A reading problem about type `t` raised by a check of the given level, attributed as above. */
  predicate ReadingOn(p: Problem, t: DataType, level: Level)
  {
    p.message.Reading? && p.message.dataType == t && p.message.level == level && Attributed(p)
  }

  /** `checkDeviceAverage`: what the device's own status for the type records. */
  function DeviceAverage(d: DeviceSurvey, t: DataType): (r: seq<Problem>)
    ensures r == [] <==> !d.status.Get(t).IsReported()
    ensures r != [] ==> |r| == 1 && ReadingOn(r[0], t, DeviceLevel) && r[0].message.status == d.status.Get(t)
    ensures r != [] ==> r[0] == ForDevice(d.device, r[0].message) || r[0] == ForSite(d.site, r[0].message)
    ensures r != [] && d.site != null ==> r[0].WellScoped()
  {
    var m := Reading(DeviceLevel, t, d.status.Get(t));
    Recorded(d.status.Get(t), ForDevice(d.device, m), ForSite(d.site, m))
  }

  /** `checkZoneAverage`: what the zone's own status for the type records. */
  function ZoneAverage(z: ZoneSurvey, t: DataType): (r: seq<Problem>)
    ensures r == [] <==> !z.status.Get(t).IsReported()
    ensures r != [] ==> |r| == 1 && ReadingOn(r[0], t, ZoneLevel) && r[0].message.status == z.status.Get(t)
    ensures r != [] ==> r[0] == ForZone(z.zone, r[0].message) || r[0] == ForSite(z.site, r[0].message)
    ensures r != [] && z.site != null ==> r[0].WellScoped()
  {
    var m := Reading(ZoneLevel, t, z.status.Get(t));
    Recorded(z.status.Get(t), ForZone(z.zone, m), ForSite(z.site, m))
  }

  /** `checkSiteAverage`: nothing for a type the site has no data of, else what the site's own status records. */
  function SiteAverage(s: SiteSurvey, t: DataType): (r: seq<Problem>)
    ensures r == [] <==> !s.hasData.Get(t) || !s.status.Get(t).IsReported()
    ensures r != [] ==> r == [ForSite(s.site, Reading(SiteLevel, t, s.status.Get(t)))]
    ensures r != [] ==> ReadingOn(r[0], t, SiteLevel) && r[0].WellScoped()
  {
    if !s.hasData.Get(t) then []
    else
      var m := Reading(SiteLevel, t, s.status.Get(t));
      Recorded(s.status.Get(t), ForSite(s.site, m), ForSite(s.site, m))
  }

  /** The device checks of a zone that passed: only the devices with data of the type, in list order. */
  function DevicesChecked(ds: seq<DeviceSurvey>, t: DataType): seq<Problem>
  {
    if ds == [] then []
    else
      var n := |ds| - 1;
      DevicesChecked(ds[..n], t) + (if ds[n].hasData.Get(t) then DeviceAverage(ds[n], t) else [])
  }

  /** `checkZone`: the zone's own check, then, only if it passed, its devices' checks. */
  function ZoneCheck(z: ZoneSurvey, t: DataType): seq<Problem>
  {
    var own := ZoneAverage(z, t);
    if own == [] then DevicesChecked(z.devices, t) else own
  }

  /** The zone checks of a site that passed: only the zones with data of the type, in key order. */
  function ZonesChecked(zs: seq<ZoneSurvey>, t: DataType): seq<Problem>
  {
    if zs == [] then []
    else
      var n := |zs| - 1;
      ZonesChecked(zs[..n], t) + (if zs[n].hasData.Get(t) then ZoneCheck(zs[n], t) else [])
  }

  /** One pass of the type loop of `checkSite`: the site's own check, then, only if it passed, its zones' checks. */
  function SiteTypeCheck(s: SiteSurvey, t: DataType): seq<Problem>
  {
    var own := SiteAverage(s, t);
    if own == [] then ZonesChecked(s.zones, t) else own
  }

  /** The type loop of `checkSite` over the given types, in order. */
  function TypesChecked(s: SiteSurvey, ts: seq<DataType>): seq<Problem>
  {
    if ts == [] then []
    else
      var n := |ts| - 1;
      TypesChecked(s, ts[..n]) + SiteTypeCheck(s, ts[n])
  }

  /** `checkDevice`: one device-scope problem when the last connection is more than five minutes old. */
  function Disconnection(d: DeviceSurvey, env: Env): (r: seq<Problem>)
    requires d.lastConnection.Some?
    ensures r == [] <==> !IsLate(d.lastConnection.value, env.now)
    ensures r != [] ==> r == [ForDevice(d.device, Disconnected)] && Attributed(r[0]) && r[0].WellScoped()
  {
    if IsLate(d.lastConnection.value, env.now) then [ForDevice(d.device, Disconnected)] else []
  }

  /** Every device of the list has connected at least once: `checkDevice` dereferences the time. */
  predicate Connected(ds: seq<DeviceSurvey>)
  {
    forall i :: 0 <= i < |ds| ==> ds[i].lastConnection.Some?
  }

  /** The connectivity loop of `checkSite`, over the site's own devices in list order. */
  function Disconnections(ds: seq<DeviceSurvey>, env: Env): seq<Problem>
    requires Connected(ds)
  {
    if ds == [] then []
    else
      var n := |ds| - 1;
      Disconnections(ds[..n], env) + Disconnection(ds[n], env)
  }

  /** `checkSite`: the type loop in declaration order, then the connectivity loop. */
  function SiteCheck(s: SiteSurvey, env: Env): seq<Problem>
    requires Connected(s.devices)
  {
    TypesChecked(s, AllTypes) + Disconnections(s.devices, env)
  }

  /** Every site's own devices have connected at least once. */
  predicate AllConnected(sites: seq<SiteSurvey>)
  {
    forall i :: 0 <= i < |sites| ==> Connected(sites[i].devices)
  }

  /** `update`, after clearing: the site checks in input order. */
  function SitesChecked(sites: seq<SiteSurvey>, env: Env): seq<Problem>
    requires AllConnected(sites)
  {
    if sites == [] then []
    else
      var n := |sites| - 1;
      SitesChecked(sites[..n], env) + SiteCheck(sites[n], env)
  }

  // What the walk records, as a whole.

  /** Every problem of the list is a reading of type `t` raised at one of the two levels. */
  predicate ReadingsAt(r: seq<Problem>, t: DataType, a: Level, b: Level)
  {
    forall k :: 0 <= k < |r| ==> ReadingOn(r[k], t, a) || ReadingOn(r[k], t, b)
  }

  /** Every problem of the list names exactly one entity. */
  predicate AllScoped(r: seq<Problem>)
  {
    forall k :: 0 <= k < |r| ==> r[k].WellScoped()
  }

  /** Every problem of the list is attributed. */
  predicate AllAttributed(r: seq<Problem>)
  {
    forall k :: 0 <= k < |r| ==> Attributed(r[k])
  }

  /** Appending two lists keeps both properties above. */
  lemma AppendKeeps(a: seq<Problem>, b: seq<Problem>)
    ensures AllAttributed(a) && AllAttributed(b) ==> AllAttributed(a + b)
    ensures AllScoped(a) && AllScoped(b) ==> AllScoped(a + b)
  {
    forall k | 0 <= k < |a + b| ensures (a + b)[k] == if k < |a| then a[k] else b[k - |a|] {
    }
  }

  /** Every listed device knows its site. */
  predicate DevicesLinked(ds: seq<DeviceSurvey>)
  {
    forall i :: 0 <= i < |ds| ==> ds[i].site != null
  }

  /** The zone and each of its devices know their site. */
  predicate ZoneLinked(z: ZoneSurvey)
  {
    z.site != null && DevicesLinked(z.devices)
  }

  /** Every zone of the site, and every device of those zones, knows its site. */
  predicate SiteLinked(s: SiteSurvey)
  {
    forall i :: 0 <= i < |s.zones| ==> ZoneLinked(s.zones[i])
  }

  /** `p` is the one problem of a device of `ds` with data of the type. */
  predicate FromDevice(p: Problem, ds: seq<DeviceSurvey>, t: DataType)
  {
    exists i :: 0 <= i < |ds| && ds[i].hasData.Get(t) && DeviceAverage(ds[i], t) == [p]
  }

  /** What comes from a device of a prefix comes from a device of the list. */
  lemma FromDevicePrefix(p: Problem, ds: seq<DeviceSurvey>, t: DataType, n: nat)
    requires n <= |ds| && FromDevice(p, ds[..n], t)
    ensures FromDevice(p, ds, t)
  {
    var i :| 0 <= i < n && ds[..n][i].hasData.Get(t) && DeviceAverage(ds[..n][i], t) == [p];
    assert ds[i] == ds[..n][i];
  }

  /** Each problem of `r` is the one problem of a device of `ds` with data of the type. */
  predicate FromDevices(r: seq<Problem>, ds: seq<DeviceSurvey>, t: DataType)
  {
    forall k :: 0 <= k < |r| ==> FromDevice(r[k], ds, t)
  }

  /** `r` holds the problem of every device of `ds` with data of the type whose status is reported. */
  predicate CoversDevices(r: seq<Problem>, ds: seq<DeviceSurvey>, t: DataType)
  {
    forall i :: 0 <= i < |ds| && ds[i].hasData.Get(t) && ds[i].status.Get(t).IsReported() ==> DeviceAverage(ds[i], t)[0] in r
  }

  /** The devices' checks record only problems of devices with data of the type, at most one each. */
  lemma {:induction false} DevicesCheckedFrom(ds: seq<DeviceSurvey>, t: DataType)
    ensures FromDevices(DevicesChecked(ds, t), ds, t)
    ensures |DevicesChecked(ds, t)| <= |ds|
  {
    if ds != [] {
      var n := |ds| - 1;
      var front := DevicesChecked(ds[..n], t);
      var last := if ds[n].hasData.Get(t) then DeviceAverage(ds[n], t) else [];
      DevicesCheckedFrom(ds[..n], t);
      var r := front + last;
      assert DevicesChecked(ds, t) == r;
      forall k | 0 <= k < |r| ensures FromDevice(r[k], ds, t) {
        if k < |front| {
          FromDevicePrefix(front[k], ds, t, n);
        } else {
          assert ds[n].hasData.Get(t) && DeviceAverage(ds[n], t) == [r[k]];
        }
      }
    }
  }

  /** The devices' checks record the problem of every device with data of the type whose status is reported. */
  lemma {:induction false} DevicesCheckedCovers(ds: seq<DeviceSurvey>, t: DataType)
    ensures CoversDevices(DevicesChecked(ds, t), ds, t)
  {
    if ds != [] {
      var n := |ds| - 1;
      var front := DevicesChecked(ds[..n], t);
      var last := if ds[n].hasData.Get(t) then DeviceAverage(ds[n], t) else [];
      DevicesCheckedCovers(ds[..n], t);
      var r := front + last;
      assert DevicesChecked(ds, t) == r;
      forall i | 0 <= i < |ds| && ds[i].hasData.Get(t) && ds[i].status.Get(t).IsReported()
        ensures DeviceAverage(ds[i], t)[0] in r
      {
        if i < n {
          assert ds[..n][i] == ds[i];
          assert DeviceAverage(ds[i], t)[0] in front;
        } else {
          assert r[|front|] == last[0];
        }
      }
    }
  }

  /** The devices' checks record readings of the type at device level, each naming one entity when every device knows its site. */
  lemma DevicesCheckedReadings(ds: seq<DeviceSurvey>, t: DataType)
    ensures ReadingsAt(DevicesChecked(ds, t), t, DeviceLevel, DeviceLevel)
    ensures DevicesLinked(ds) ==> AllScoped(DevicesChecked(ds, t))
  {
    var r := DevicesChecked(ds, t);
    DevicesCheckedFrom(ds, t);
    forall k | 0 <= k < |r| ensures ReadingOn(r[k], t, DeviceLevel) && (DevicesLinked(ds) ==> r[k].WellScoped()) {
      assert FromDevice(r[k], ds, t);
      var i :| 0 <= i < |ds| && ds[i].hasData.Get(t) && DeviceAverage(ds[i], t) == [r[k]];
    }
  }

  /**
   * A zone check records the zone's own problem alone when its status is
   * reported, and otherwise exactly the problems of its devices with data;
   * each is a reading of the type, naming one entity when the zone is linked.
   */
  lemma ZoneCheckSources(z: ZoneSurvey, t: DataType)
    ensures z.status.Get(t).IsReported() ==> ZoneCheck(z, t) == ZoneAverage(z, t) && |ZoneCheck(z, t)| == 1
    ensures !z.status.Get(t).IsReported() ==>
      FromDevices(ZoneCheck(z, t), z.devices, t) && CoversDevices(ZoneCheck(z, t), z.devices, t)
    ensures ReadingsAt(ZoneCheck(z, t), t, ZoneLevel, DeviceLevel)
    ensures ZoneLinked(z) ==> AllScoped(ZoneCheck(z, t))
  {
    DevicesCheckedFrom(z.devices, t);
    DevicesCheckedCovers(z.devices, t);
    DevicesCheckedReadings(z.devices, t);
  }

  /** `p` is a problem of the check of a zone of `zs` with data of the type. */
  predicate FromZone(p: Problem, zs: seq<ZoneSurvey>, t: DataType)
  {
    exists i :: 0 <= i < |zs| && zs[i].hasData.Get(t) && p in ZoneCheck(zs[i], t)
  }

  /** What comes from a zone of a prefix comes from a zone of the list. */
  lemma FromZonePrefix(p: Problem, zs: seq<ZoneSurvey>, t: DataType, n: nat)
    requires n <= |zs| && FromZone(p, zs[..n], t)
    ensures FromZone(p, zs, t)
  {
    var i :| 0 <= i < n && zs[..n][i].hasData.Get(t) && p in ZoneCheck(zs[..n][i], t);
    assert zs[i] == zs[..n][i];
  }

  /** Each problem of `r` is a problem of the check of a zone of `zs` with data of the type. */
  predicate FromZones(r: seq<Problem>, zs: seq<ZoneSurvey>, t: DataType)
  {
    forall k :: 0 <= k < |r| ==> FromZone(r[k], zs, t)
  }

  /** `r` holds every problem of the check of every zone of `zs` with data of the type. */
  predicate CoversZones(r: seq<Problem>, zs: seq<ZoneSurvey>, t: DataType)
  {
    forall i, j :: 0 <= i < |zs| && zs[i].hasData.Get(t) && 0 <= j < |ZoneCheck(zs[i], t)| ==> ZoneCheck(zs[i], t)[j] in r
  }

  /** The zones' checks record only problems of the zones with data of the type. */
  lemma {:induction false} ZonesCheckedFrom(zs: seq<ZoneSurvey>, t: DataType)
    ensures FromZones(ZonesChecked(zs, t), zs, t)
  {
    if zs != [] {
      var n := |zs| - 1;
      var front := ZonesChecked(zs[..n], t);
      var last := if zs[n].hasData.Get(t) then ZoneCheck(zs[n], t) else [];
      ZonesCheckedFrom(zs[..n], t);
      var r := front + last;
      assert ZonesChecked(zs, t) == r;
      forall k | 0 <= k < |r| ensures FromZone(r[k], zs, t) {
        if k < |front| {
          FromZonePrefix(front[k], zs, t, n);
        } else {
          assert r[k] == last[k - |front|];
          assert zs[n].hasData.Get(t) && r[k] in ZoneCheck(zs[n], t);
        }
      }
    }
  }

  /** The zones' checks record every problem of the zones with data of the type. */
  lemma {:induction false} ZonesCheckedCovers(zs: seq<ZoneSurvey>, t: DataType)
    ensures CoversZones(ZonesChecked(zs, t), zs, t)
  {
    if zs != [] {
      var n := |zs| - 1;
      var front := ZonesChecked(zs[..n], t);
      var last := if zs[n].hasData.Get(t) then ZoneCheck(zs[n], t) else [];
      ZonesCheckedCovers(zs[..n], t);
      var r := front + last;
      assert ZonesChecked(zs, t) == r;
      forall i, j | 0 <= i < |zs| && zs[i].hasData.Get(t) && 0 <= j < |ZoneCheck(zs[i], t)|
        ensures ZoneCheck(zs[i], t)[j] in r
      {
        if i < n {
          assert zs[..n][i] == zs[i];
          assert ZoneCheck(zs[i], t)[j] in front;
        } else {
          assert r[|front| + j] == last[j];
        }
      }
    }
  }

  /**
   * Suppression at the site: a site with data whose status for the type is
   * reported records its own problem alone; otherwise the pass records
   * exactly the problems of its zones with data.
   */
  lemma SiteTypeCheckSources(s: SiteSurvey, t: DataType)
    ensures s.hasData.Get(t) && s.status.Get(t).IsReported() ==>
      SiteTypeCheck(s, t) == [ForSite(s.site, Reading(SiteLevel, t, s.status.Get(t)))]
    ensures !(s.hasData.Get(t) && s.status.Get(t).IsReported()) ==>
      FromZones(SiteTypeCheck(s, t), s.zones, t) && CoversZones(SiteTypeCheck(s, t), s.zones, t)
  {
    ZonesCheckedFrom(s.zones, t);
    ZonesCheckedCovers(s.zones, t);
  }

  /** Every problem of the list is a reading of one of the listed types. */
  predicate ReadingsOf(r: seq<Problem>, ts: seq<DataType>)
  {
    forall k :: 0 <= k < |r| ==> r[k].message.Reading? && r[k].message.dataType in ts
  }

  /**
   * Every problem of one type pass is an attributed reading of that type,
   * naming one entity when the site is linked.
   */
  lemma SiteTypeCheckReadings(s: SiteSurvey, t: DataType)
    ensures ReadingsOf(SiteTypeCheck(s, t), [t]) && AllAttributed(SiteTypeCheck(s, t))
    ensures SiteLinked(s) ==> AllScoped(SiteTypeCheck(s, t))
  {
    var r := SiteTypeCheck(s, t);
    if SiteAverage(s, t) == [] {
      ZonesCheckedFrom(s.zones, t);
      forall k | 0 <= k < |r|
        ensures r[k].message.Reading? && r[k].message.dataType == t && Attributed(r[k])
        ensures SiteLinked(s) ==> r[k].WellScoped()
      {
        assert FromZone(r[k], s.zones, t);
        var i :| 0 <= i < |s.zones| && s.zones[i].hasData.Get(t) && r[k] in ZoneCheck(s.zones[i], t);
        ZoneCheckSources(s.zones[i], t);
        var j :| 0 <= j < |ZoneCheck(s.zones[i], t)| && ZoneCheck(s.zones[i], t)[j] == r[k];
      }
    }
  }

  /** The types are listed in strictly increasing declaration order. */
  predicate Increasing(ts: seq<DataType>)
  {
    forall i, j :: 0 <= i < j < |ts| ==> Ordinal(ts[i]) < Ordinal(ts[j])
  }

  /** The type loop of `checkSite` goes through the types in declaration order. */
  lemma DeclarationOrder()
    ensures Increasing(AllTypes)
  {
    AllTypesEnumerates();
  }

  /** The problems of the list are readings, grouped by type in declaration order. */
  predicate GroupedByType(r: seq<Problem>)
  {
    forall i, j :: 0 <= i < j < |r| ==>
      r[i].message.Reading? && r[j].message.Reading? && Ordinal(r[i].message.dataType) <= Ordinal(r[j].message.dataType)
  }

  /** Readings of the first `n` listed types are of types declared before the `n`th. */
  lemma EarlierTypes(r: seq<Problem>, ts: seq<DataType>, n: nat)
    requires Increasing(ts) && n < |ts| && ReadingsOf(r, ts[..n])
    ensures ReadingsOf(r, ts)
    ensures forall k :: 0 <= k < |r| ==> Ordinal(r[k].message.dataType) < Ordinal(ts[n])
  {
    forall k | 0 <= k < |r| ensures r[k].message.dataType in ts && Ordinal(r[k].message.dataType) < Ordinal(ts[n]) {
      var x :| 0 <= x < n && ts[..n][x] == r[k].message.dataType;
      assert ts[x] == ts[..n][x];
    }
  }

  /** Grouped readings followed by readings of one later type stay grouped. */
  lemma GroupedAppend(a: seq<Problem>, b: seq<Problem>, ts: seq<DataType>, t: DataType)
    requires GroupedByType(a) && ReadingsOf(a, ts) && ReadingsOf(b, [t]) && t in ts
    requires forall k :: 0 <= k < |a| ==> Ordinal(a[k].message.dataType) < Ordinal(t)
    ensures GroupedByType(a + b) && ReadingsOf(a + b, ts)
  {
    var r := a + b;
    forall i, j | 0 <= i < j < |r|
      ensures r[i].message.Reading? && r[j].message.Reading? && Ordinal(r[i].message.dataType) <= Ordinal(r[j].message.dataType)
    {
      if j < |a| {
        assert r[i] == a[i] && r[j] == a[j];
      } else if i < |a| {
        assert r[i] == a[i] && r[j] == b[j - |a|];
      } else {
        assert r[i] == b[i - |a|] && r[j] == b[j - |a|];
      }
    }
    forall k | 0 <= k < |r| ensures r[k].message.Reading? && r[k].message.dataType in ts {
      if k < |a| {
        assert r[k] == a[k];
      } else {
        assert r[k] == b[k - |a|];
      }
    }
  }

  /**
   * The type loop records only attributed readings of the listed types,
   * grouped by type in the order the types are listed, each naming one
   * entity when the site is linked.
   */
  lemma {:induction false} TypesCheckedOrdered(s: SiteSurvey, ts: seq<DataType>)
    requires Increasing(ts)
    ensures ReadingsOf(TypesChecked(s, ts), ts) && AllAttributed(TypesChecked(s, ts))
    ensures GroupedByType(TypesChecked(s, ts))
    ensures SiteLinked(s) ==> AllScoped(TypesChecked(s, ts))
  {
    if ts != [] {
      var n := |ts| - 1;
      var front, last := TypesChecked(s, ts[..n]), SiteTypeCheck(s, ts[n]);
      assert TypesChecked(s, ts) == front + last;
      assert Increasing(ts[..n]);
      TypesCheckedOrdered(s, ts[..n]);
      SiteTypeCheckReadings(s, ts[n]);
      EarlierTypes(front, ts, n);
      GroupedAppend(front, last, ts, ts[n]);
      AppendKeeps(front, last);
    }
  }

  /** Each problem of `r` is the disconnection of a late device of `ds`. */
  predicate FromLateDevices(r: seq<Problem>, ds: seq<DeviceSurvey>, env: Env)
    requires Connected(ds)
  {
    forall k :: 0 <= k < |r| ==> FromLateDevice(r[k], ds, env)
  }

  /** `p` is the disconnection of a late device of `ds`. */
  predicate FromLateDevice(p: Problem, ds: seq<DeviceSurvey>, env: Env)
    requires Connected(ds)
  {
    exists i :: 0 <= i < |ds| && IsLate(ds[i].lastConnection.value, env.now) && p == ForDevice(ds[i].device, Disconnected)
  }

  /** `r` holds the disconnection of every late device of `ds`. */
  predicate CoversLateDevices(r: seq<Problem>, ds: seq<DeviceSurvey>, env: Env)
    requires Connected(ds)
  {
    forall i :: 0 <= i < |ds| && IsLate(ds[i].lastConnection.value, env.now) ==> ForDevice(ds[i].device, Disconnected) in r
  }

  /** The connectivity loop records one problem for each late device of the list, and nothing else. */
  lemma {:induction false} DisconnectionsMembers(ds: seq<DeviceSurvey>, env: Env)
    requires Connected(ds)
    ensures FromLateDevices(Disconnections(ds, env), ds, env)
    ensures CoversLateDevices(Disconnections(ds, env), ds, env)
    ensures |Disconnections(ds, env)| <= |ds|
  {
    if ds != [] {
      var n := |ds| - 1;
      assert Connected(ds[..n]);
      var front, last := Disconnections(ds[..n], env), Disconnection(ds[n], env);
      DisconnectionsMembers(ds[..n], env);
      var r := front + last;
      assert Disconnections(ds, env) == r;
      forall k | 0 <= k < |r| ensures FromLateDevice(r[k], ds, env) {
        if k < |front| {
          assert FromLateDevice(front[k], ds[..n], env);
          var i :| 0 <= i < |ds[..n]| && IsLate(ds[..n][i].lastConnection.value, env.now) && front[k] == ForDevice(ds[..n][i].device, Disconnected);
          assert ds[i] == ds[..n][i] && r[k] == front[k];
        } else {
          assert r[k] == last[0];
          assert IsLate(ds[n].lastConnection.value, env.now) && r[k] == ForDevice(ds[n].device, Disconnected);
        }
      }
      forall i | 0 <= i < |ds| && IsLate(ds[i].lastConnection.value, env.now) ensures ForDevice(ds[i].device, Disconnected) in r {
        if i < n {
          assert ds[..n][i] == ds[i];
        } else {
          assert r[|front|] == last[0];
        }
      }
    }
  }

  /** Every problem of the list reports a disconnection. */
  predicate AllDisconnections(r: seq<Problem>)
  {
    forall k :: 0 <= k < |r| ==> r[k].message.Disconnected?
  }

  /** The connectivity loop records attributed disconnections, each naming one device. */
  lemma DisconnectionsAttributed(ds: seq<DeviceSurvey>, env: Env)
    requires Connected(ds)
    ensures AllDisconnections(Disconnections(ds, env))
    ensures AllAttributed(Disconnections(ds, env)) && AllScoped(Disconnections(ds, env))
  {
    var r := Disconnections(ds, env);
    DisconnectionsMembers(ds, env);
    forall k | 0 <= k < |r| ensures r[k].message.Disconnected? && Attributed(r[k]) && r[k].WellScoped() {
      assert FromLateDevice(r[k], ds, env);
    }
  }

  /** The first `n` problems of the list are readings and the rest are disconnections. */
  predicate ReadingsThenDisconnections(r: seq<Problem>, n: nat)
  {
    n <= |r| && forall i :: 0 <= i < |r| ==> (r[i].message.Disconnected? <==> n <= i)
  }

  /** Readings followed by disconnections split where the readings end. */
  lemma ThenDisconnections(a: seq<Problem>, b: seq<Problem>, ts: seq<DataType>)
    requires ReadingsOf(a, ts) && AllDisconnections(b)
    ensures ReadingsThenDisconnections(a + b, |a|) && (a + b)[..|a|] == a
  {
    var r := a + b;
    forall i | 0 <= i < |r| ensures r[i].message.Disconnected? <==> |a| <= i {
      if i < |a| {
        assert r[i] == a[i];
      } else {
        assert r[i] == b[i - |a|];
      }
    }
    assert r[..|a|] == a;
  }

  /**
   * A site check records the reading problems first, grouped by type in
   * declaration order, then the disconnections; every problem is
   * attributed, and names one entity when the site is linked.
   */
  lemma SiteCheckShape(s: SiteSurvey, env: Env)
    requires Connected(s.devices)
    ensures ReadingsThenDisconnections(SiteCheck(s, env), |TypesChecked(s, AllTypes)|)
    ensures SiteCheck(s, env)[..|TypesChecked(s, AllTypes)|] == TypesChecked(s, AllTypes)
    ensures GroupedByType(TypesChecked(s, AllTypes))
    ensures AllAttributed(SiteCheck(s, env))
    ensures SiteLinked(s) ==> AllScoped(SiteCheck(s, env))
  {
    var front, back := TypesChecked(s, AllTypes), Disconnections(s.devices, env);
    assert SiteCheck(s, env) == front + back;
    DeclarationOrder();
    TypesCheckedOrdered(s, AllTypes);
    DisconnectionsAttributed(s.devices, env);
    ThenDisconnections(front, back, AllTypes);
    AppendKeeps(front, back);
  }

  /** Every site, and every zone and device of it, knows its site. */
  predicate SitesLinked(sites: seq<SiteSurvey>)
  {
    forall i :: 0 <= i < |sites| ==> SiteLinked(sites[i])
  }

  /** Every problem an update records is attributed, and names one entity when every site is linked. */
  lemma {:induction false} SitesCheckedAttributed(sites: seq<SiteSurvey>, env: Env)
    requires AllConnected(sites)
    ensures AllAttributed(SitesChecked(sites, env))
    ensures SitesLinked(sites) ==> AllScoped(SitesChecked(sites, env))
  {
    if sites != [] {
      var n := |sites| - 1;
      assert AllConnected(sites[..n]);
      assert SitesLinked(sites) ==> SitesLinked(sites[..n]) by {
        if SitesLinked(sites) {
          forall i | 0 <= i < n ensures SiteLinked(sites[..n][i]) {
            assert sites[..n][i] == sites[i];
          }
        }
      }
      var front, last := SitesChecked(sites[..n], env), SiteCheck(sites[n], env);
      assert SitesChecked(sites, env) == front + last;
      SitesCheckedAttributed(sites[..n], env);
      SiteCheckShape(sites[n], env);
      AppendKeeps(front, last);
    }
  }

  // Each loop of the walk extends what it has recorded by the part of the next element.

  lemma AppendAssociates(a: seq<Problem>, b: seq<Problem>, c: seq<Problem>)
    ensures (a + b) + c == a + (b + c)
  {
  }

  lemma DevicesCheckedStep(ds: seq<DeviceSurvey>, t: DataType, i: nat)
    requires i < |ds|
    ensures DevicesChecked(ds[..i + 1], t) == DevicesChecked(ds[..i], t) + (if ds[i].hasData.Get(t) then DeviceAverage(ds[i], t) else [])
  {
    assert ds[..i + 1][..i] == ds[..i];
  }

  lemma ZonesCheckedStep(zs: seq<ZoneSurvey>, t: DataType, j: nat)
    requires j < |zs|
    ensures ZonesChecked(zs[..j + 1], t) == ZonesChecked(zs[..j], t) + (if zs[j].hasData.Get(t) then ZoneCheck(zs[j], t) else [])
  {
    assert zs[..j + 1][..j] == zs[..j];
  }

  lemma TypesCheckedStep(s: SiteSurvey, ts: seq<DataType>, k: nat)
    requires k < |ts|
    ensures TypesChecked(s, ts[..k + 1]) == TypesChecked(s, ts[..k]) + SiteTypeCheck(s, ts[k])
  {
    assert ts[..k + 1][..k] == ts[..k];
  }

  lemma DisconnectionsStep(ds: seq<DeviceSurvey>, env: Env, i: nat)
    requires Connected(ds) && i < |ds|
    ensures Connected(ds[..i]) && Connected(ds[..i + 1])
    ensures Disconnections(ds[..i + 1], env) == Disconnections(ds[..i], env) + Disconnection(ds[i], env)
  {
    assert ds[..i + 1][..i] == ds[..i];
  }

  lemma SitesCheckedStep(sites: seq<SiteSurvey>, env: Env, i: nat)
    requires AllConnected(sites) && i < |sites|
    ensures AllConnected(sites[..i]) && AllConnected(sites[..i + 1])
    ensures SitesChecked(sites[..i + 1], env) == SitesChecked(sites[..i], env) + SiteCheck(sites[i], env)
  {
    assert sites[..i + 1][..i] == sites[..i];
  }

  /** The registry of problems. */
  class ProblemFinder {
    var problems: seq<Problem>

    /** A new finder holds no problem. */
    constructor ()
      ensures problems == []
    {
      problems := [];
    }

    /** `getProblems`: the problems recorded by the last update. */
    function GetProblems(): (r: seq<Problem>)
      reads this
      ensures r == problems
    {
      problems
    }

    /** `checkDevice`: appends the disconnection problem of the device, if any. */
    method CheckDevice(d: DeviceSurvey, env: Env)
      modifies this
      requires d.lastConnection.Some?
      ensures problems == old(problems) + Disconnection(d, env)
    {
      if IsLate(d.lastConnection.value, env.now) {
        problems := problems + [ForDevice(d.device, Disconnected)];
      }
    }

    /** `checkDeviceAverage`: appends what the device's status records; true when it records nothing. */
    method CheckDeviceAverage(d: DeviceSurvey, t: DataType) returns (ok: bool)
      modifies this
      ensures problems == old(problems) + DeviceAverage(d, t)
      ensures ok <==> !d.status.Get(t).IsReported()
    {
      var status := d.status.Get(t);
      var m := Reading(DeviceLevel, t, status);
      if status == OVER || status == UNDER {
        problems := problems + [ForDevice(d.device, m)];
        return false;
      } else if status == EXTREME || status == LATE {
        problems := problems + [ForSite(d.site, m)];
        return false;
      }
      return true;
    }

    /** `checkZoneAverage`: appends what the zone's status records; true when it records nothing. */
    method CheckZoneAverage(z: ZoneSurvey, t: DataType) returns (ok: bool)
      modifies this
      ensures problems == old(problems) + ZoneAverage(z, t)
      ensures ok <==> !z.status.Get(t).IsReported()
    {
      var status := z.status.Get(t);
      var m := Reading(ZoneLevel, t, status);
      if status == OVER || status == UNDER {
        problems := problems + [ForZone(z.zone, m)];
        return false;
      } else if status == EXTREME || status == LATE {
        problems := problems + [ForSite(z.site, m)];
        return false;
      }
      return true;
    }

    /** `checkSiteAverage`: true at once for a type without data; otherwise appends what the site's status records. */
    method CheckSiteAverage(s: SiteSurvey, t: DataType) returns (ok: bool)
      modifies this
      ensures problems == old(problems) + SiteAverage(s, t)
      ensures ok <==> !s.hasData.Get(t) || !s.status.Get(t).IsReported()
    {
      if !s.hasData.Get(t) {
        return true;
      }
      var status := s.status.Get(t);
      var m := Reading(SiteLevel, t, status);
      if status == OVER || status == UNDER || status == EXTREME || status == LATE {
        problems := problems + [ForSite(s.site, m)];
        return false;
      }
      return true;
    }

    /** `checkZone`: the zone's check, then the checks of its devices with data, only if the zone passed. */
    method CheckZone(z: ZoneSurvey, t: DataType)
      modifies this
      ensures problems == old(problems) + ZoneCheck(z, t)
    {
      var ok := CheckZoneAverage(z, t);
      if ok {
        var ds := z.devices;
        var i := 0;
        while i < |ds|
          invariant 0 <= i <= |ds|
          invariant problems == old(problems) + DevicesChecked(ds[..i], t)
        {
          if ds[i].hasData.Get(t) {
            ok := CheckDeviceAverage(ds[i], t);
          }
          DevicesCheckedStep(ds, t, i);
          AppendAssociates(old(problems), DevicesChecked(ds[..i], t), if ds[i].hasData.Get(t) then DeviceAverage(ds[i], t) else []);
          i := i + 1;
        }
        assert ds[..i] == ds;
      }
    }

    /** The zone loop of one type pass of `checkSite`: the zones with data of the type, in key order. */
    method CheckZones(zs: seq<ZoneSurvey>, t: DataType)
      modifies this
      ensures problems == old(problems) + ZonesChecked(zs, t)
    {
      var j := 0;
      while j < |zs|
        invariant 0 <= j <= |zs|
        invariant problems == old(problems) + ZonesChecked(zs[..j], t)
      {
        if zs[j].hasData.Get(t) {
          CheckZone(zs[j], t);
        }
        ZonesCheckedStep(zs, t, j);
        AppendAssociates(old(problems), ZonesChecked(zs[..j], t), if zs[j].hasData.Get(t) then ZoneCheck(zs[j], t) else []);
        j := j + 1;
      }
      assert zs[..j] == zs;
    }

    /** One pass of the type loop of `checkSite`: the site's check for the type and, if it passed, its zones'. */
    method CheckType(s: SiteSurvey, t: DataType)
      modifies this
      ensures problems == old(problems) + SiteTypeCheck(s, t)
    {
      var ok := CheckSiteAverage(s, t);
      if ok {
        CheckZones(s.zones, t);
      }
    }

    /** The type loop of `checkSite`, over the listed types in order. */
    method CheckTypes(s: SiteSurvey, ts: seq<DataType>)
      modifies this
      ensures problems == old(problems) + TypesChecked(s, ts)
    {
      var k := 0;
      while k < |ts|
        invariant 0 <= k <= |ts|
        invariant problems == old(problems) + TypesChecked(s, ts[..k])
      {
        CheckType(s, ts[k]);
        TypesCheckedStep(s, ts, k);
        AppendAssociates(old(problems), TypesChecked(s, ts[..k]), SiteTypeCheck(s, ts[k]));
        k := k + 1;
      }
      assert ts[..k] == ts;
    }

    /** The connectivity loop of `checkSite`, over the site's own devices in list order. */
    method CheckDevices(ds: seq<DeviceSurvey>, env: Env)
      modifies this
      requires Connected(ds)
      ensures problems == old(problems) + Disconnections(ds, env)
    {
      var i := 0;
      while i < |ds|
        invariant 0 <= i <= |ds|
        invariant Connected(ds[..i])
        invariant problems == old(problems) + Disconnections(ds[..i], env)
      {
        CheckDevice(ds[i], env);
        DisconnectionsStep(ds, env, i);
        AppendAssociates(old(problems), Disconnections(ds[..i], env), Disconnection(ds[i], env));
        i := i + 1;
      }
      assert ds[..i] == ds;
    }

    /** `checkSite`: for each type in order, the site's check and, if it passed, its zones'; then every device's connection. */
    method CheckSite(s: SiteSurvey, env: Env)
      modifies this
      requires Connected(s.devices)
      ensures problems == old(problems) + SiteCheck(s, env)
    {
      CheckTypes(s, AllTypes);
      CheckDevices(s.devices, env);
      AppendAssociates(old(problems), TypesChecked(s, AllTypes), Disconnections(s.devices, env));
    }

    /**
     * `update`: clears the registry, then checks every site in order. The
     * device list it is also given is not used.
     */
    method Update(sites: seq<SiteSurvey>, devices: seq<DeviceSurvey>, env: Env)
      modifies this
      requires AllConnected(sites)
      ensures problems == SitesChecked(sites, env)
    {
      problems := [];
      var i := 0;
      while i < |sites|
        invariant 0 <= i <= |sites|
        invariant AllConnected(sites[..i])
        invariant problems == SitesChecked(sites[..i], env)
      {
        CheckSite(sites[i], env);
        SitesCheckedStep(sites, env, i);
        i := i + 1;
      }
      assert sites[..i] == sites;
    }
  }
}
