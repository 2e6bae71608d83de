/**
 * What a site's queries see: the states of its zones (in the zone map's
 * iteration order), of its own device list and its ideal ranges. The site
 * averages are means of the zone values other than the `-1` sentinel; the
 * deviation and the time of last reading are taken over the site's own
 * devices instead.
 */
module SiteStates {
  import opened Wrappers
  import opened Types
  import opened Readings
  import opened Ideals
  import opened Statuses
  import opened DeviceStates
  import opened ZoneStates

  /** The zones with data of the given type, in order. */
  function ZonesWithData(zs: seq<ZoneState>, t: DataType): (r: seq<ZoneState>)
    ensures forall i :: 0 <= i < |r| ==> r[i] in zs && r[i].HasData(t)
    ensures forall i :: 0 <= i < |zs| && zs[i].HasData(t) ==> zs[i] in r
  {
    if zs == [] then []
    else
      var n := |zs| - 1;
      var front := ZonesWithData(zs[..n], t);
      if zs[n].HasData(t) then front + [zs[n]] else front
  }

  /** The raw averages of the zones, in order. */
  function ZoneRawAverages(zs: seq<ZoneState>, t: DataType): (r: seq<real>)
    ensures |r| == |zs| && forall i :: 0 <= i < |zs| ==> r[i] == zs[i].AverageReadingRaw(t)
  {
    seq(|zs|, i requires 0 <= i < |zs| => zs[i].AverageReadingRaw(t))
  }

  /** The display averages of the zones, in order. */
  function ZoneDisplayAverages(zs: seq<ZoneState>, t: DataType, tempType: int): (r: seq<real>)
    ensures |r| == |zs| && forall i :: 0 <= i < |zs| ==> r[i] == zs[i].AverageReading(t, tempType)
  {
    seq(|zs|, i requires 0 <= i < |zs| => zs[i].AverageReading(t, tempType))
  }

  /** The raw current readings of the zones, in order. */
  function ZoneCurrents(zs: seq<ZoneState>, t: DataType, now: int): (r: seq<real>)
    requires forall i :: 0 <= i < |zs| ==> zs[i].Ready(t)
    ensures |r| == |zs| && forall i :: 0 <= i < |zs| ==> r[i] == zs[i].CurrentReadingRaw(t, now)
  {
    seq(|zs|, i requires 0 <= i < |zs| => zs[i].CurrentReadingRaw(t, now))
  }

  /** The mean of the values other than -1 lies within bounds of those values, once there is one. */
  lemma SentinelFreeBounds(xs: seq<real>, lo: real, hi: real)
    requires exists i :: 0 <= i < |xs| && xs[i] != -1.0
    requires forall i :: 0 <= i < |xs| && xs[i] != -1.0 ==> lo <= xs[i] <= hi
    ensures lo <= Mean(WithoutSentinel(xs)) <= hi
  {
    var kept := WithoutSentinel(xs);
    var i :| 0 <= i < |xs| && xs[i] != -1.0;
    assert xs[i] in kept;
    forall j | 0 <= j < |kept| ensures lo <= kept[j] <= hi {
      assert kept[j] in xs;
    }
    MeanBounds(kept, lo, hi);
  }

  /** Bounds on the sentinel-free mean of the zone averages. */
  lemma ZoneAveragesBounds(zs: seq<ZoneState>, t: DataType, lo: real, hi: real)
    requires exists i :: 0 <= i < |zs| && zs[i].AverageReadingRaw(t) != -1.0
    requires forall i :: 0 <= i < |zs| && zs[i].AverageReadingRaw(t) != -1.0 ==> lo <= zs[i].AverageReadingRaw(t) <= hi
    ensures lo <= Mean(WithoutSentinel(ZoneRawAverages(zs, t))) <= hi
  {
    SentinelFreeBounds(ZoneRawAverages(zs, t), lo, hi);
  }

  /** Zone averages that are all the sentinel give the sentinel. */
  lemma ZoneAveragesNone(zs: seq<ZoneState>, t: DataType)
    requires forall i :: 0 <= i < |zs| ==> zs[i].AverageReadingRaw(t) == -1.0
    ensures Mean(WithoutSentinel(ZoneRawAverages(zs, t))) == -1.0
  {
    assert WithoutSentinel(ZoneRawAverages(zs, t)) == [];
  }

  /** Bounds on the sentinel-free mean of the zone current readings. */
  lemma ZoneCurrentsBounds(zs: seq<ZoneState>, t: DataType, now: int, lo: real, hi: real)
    requires forall i :: 0 <= i < |zs| ==> zs[i].Ready(t)
    requires exists i :: 0 <= i < |zs| && zs[i].CurrentReadingRaw(t, now) != -1.0
    requires forall i :: 0 <= i < |zs| && zs[i].CurrentReadingRaw(t, now) != -1.0 ==> lo <= zs[i].CurrentReadingRaw(t, now) <= hi
    ensures lo <= Mean(WithoutSentinel(ZoneCurrents(zs, t, now))) <= hi
  {
    SentinelFreeBounds(ZoneCurrents(zs, t, now), lo, hi);
  }

  /** A site: its zones, its own device list and its ideal ranges. */
  datatype SiteState = SiteState(zones: seq<ZoneState>, devices: seq<DeviceState>, ideals: map<DataType, Ideal>)
  {
    function GetIdeal(t: DataType): (r: Option<Ideal>)
      ensures r.Some? <==> t in ideals
      ensures r.Some? ==> r.value == ideals[t]
    {
      if t in ideals then Some(ideals[t]) else None
    }

    /** Whether some zone of the site has data of the given type. */
    predicate HasData(t: DataType)
    {
      exists i :: 0 <= i < |zones| && zones[i].HasData(t)
    }

    /** The types with data, in declaration order. */
    function Types(): (r: seq<DataType>)
      ensures forall t :: t in r <==> HasData(t)
      ensures forall i, j :: 0 <= i < j < |r| ==> Ordinal(r[i]) < Ordinal(r[j])
    {
      Select(seq(|AllTypes|, i requires 0 <= i < |AllTypes| => HasData(AllTypes[i])))
    }

    /** The zones with data of the given type, in order. */
    function ActiveZones(t: DataType): (r: seq<ZoneState>)
      ensures forall i :: 0 <= i < |r| ==> r[i] in zones && r[i].HasData(t)
      ensures forall z :: z in zones && z.HasData(t) ==> z in r
      ensures r == [] <==> !HasData(t)
    {
      var r := ZonesWithData(zones, t);
      assert r != [] ==> r[0] in zones;
      r
    }

    /** Whether some device of the site's own list has data of the given type. */
    predicate DevicesHaveData(t: DataType)
    {
      exists i :: 0 <= i < |devices| && devices[i].HasData(t)
    }

    /** The site's own devices with data of the given type, in list order. */
    function ActiveDevices(t: DataType): (r: seq<DeviceState>)
      ensures forall i :: 0 <= i < |r| ==> r[i] in devices && r[i].HasData(t)
      ensures forall i :: 0 <= i < |devices| && devices[i].HasData(t) ==> devices[i] in r
      ensures r == [] <==> !DevicesHaveData(t)
    {
      var r := WithData(devices, t);
      assert r != [] ==> r[0] in devices;
      r
    }

    /**
     * The status of the type can be computed without a null dereference:
     * every zone and every site device can select its latest reading, and
     * when a zone has data some site device has data too (otherwise the time
     * of last reading is null and the lateness test fails on it).
     */
    predicate Ready(t: DataType)
    {
      (forall i :: 0 <= i < |zones| ==> zones[i].Ready(t)) &&
      (forall i :: 0 <= i < |devices| ==> devices[i].Ready(t)) &&
      (HasData(t) ==> DevicesHaveData(t))
    }

    /** A zone of a site whose zones are all ready for the type is ready for it. */
    lemma ZoneReady(z: ZoneState, t: DataType)
      requires forall i :: 0 <= i < |zones| ==> zones[i].Ready(t)
      requires z in zones
      ensures z.Ready(t)
    {
    }

    /** The zones with data of a type the site is ready for are all ready. */
    lemma ActiveZonesReady(t: DataType)
      requires forall i :: 0 <= i < |zones| ==> zones[i].Ready(t)
      ensures forall i :: 0 <= i < |ActiveZones(t)| ==> ActiveZones(t)[i].Ready(t)
    {
      var ws := ActiveZones(t);
      forall i | 0 <= i < |ws| ensures ws[i].Ready(t) {
        var k :| 0 <= k < |zones| && zones[k] == ws[i];
      }
    }

    /** Mean of the raw averages of the zones with data, leaving out -1; -1 when none remains. */
    function AverageReadingRaw(t: DataType): (r: real)
      ensures !HasData(t) ==> r == -1.0
      ensures IsMeanOf(r, WithoutSentinel(ZoneRawAverages(ActiveZones(t), t)))
    {
      Mean(WithoutSentinel(ZoneRawAverages(ActiveZones(t), t)))
    }

    /** Mean of the display averages of the zones with data, leaving out -1; -1 when none remains. */
    function AverageReading(t: DataType, tempType: int): (r: real)
      ensures !HasData(t) ==> r == -1.0
      ensures IsMeanOf(r, WithoutSentinel(ZoneDisplayAverages(ActiveZones(t), t, tempType)))
    {
      Mean(WithoutSentinel(ZoneDisplayAverages(ActiveZones(t), t, tempType)))
    }

    /** Mean of the raw current readings of the zones with data, leaving out -1; -1 when none remains. */
    function CurrentReadingRaw(t: DataType, now: int): (r: real)
      requires forall i :: 0 <= i < |zones| ==> zones[i].Ready(t)
      ensures !HasData(t) ==> r == -1.0
      ensures (ActiveZonesReady(t); IsMeanOf(r, WithoutSentinel(ZoneCurrents(ActiveZones(t), t, now))))
    {
      ActiveZonesReady(t);
      Mean(WithoutSentinel(ZoneCurrents(ActiveZones(t), t, now)))
    }

    /**
     * The "raw" standard deviation: -1 when the display-scale site average is
     * -1, otherwise the mean of the raw deviations of the site's own devices
     * with data (-1 when there is none).
     */
    function StandardDeviationRaw(t: DataType, env: Env): (r: real)
      ensures AverageReading(t, env.tempType) == -1.0 ==> r == -1.0
      ensures !HasData(t) ==> r == -1.0
      ensures AverageReading(t, env.tempType) != -1.0 ==> IsMeanOf(r, RawDeviations(ActiveDevices(t), t, env))
    {
      if AverageReading(t, env.tempType) == -1.0 then -1.0
      else Mean(RawDeviations(ActiveDevices(t), t, env))
    }

    /** The latest time of last reading over the site's own devices with data, or null when there is none. */
    function TimeOfLastReading(t: DataType): (r: Option<int>)
      requires forall i :: 0 <= i < |devices| ==> devices[i].Ready(t)
      ensures r.None? <==> !DevicesHaveData(t)
    {
      var ws := ActiveDevices(t);
      assert AllReady(ws, t) by {
        forall i | 0 <= i < |ws| ensures ws[i].Ready(t) {
          var k :| 0 <= k < |devices| && devices[k] == ws[i];
        }
      }
      if ws == [] then None else Some(MaxOf(LastTimes(ws, t)))
    }

    /** The site averages ignore zones whose average is the -1 sentinel, and lie within bounds of the rest. */
    lemma AverageRawBounds(t: DataType, lo: real, hi: real)
      requires exists i :: 0 <= i < |ActiveZones(t)| && ActiveZones(t)[i].AverageReadingRaw(t) != -1.0
      requires forall i :: 0 <= i < |ActiveZones(t)| && ActiveZones(t)[i].AverageReadingRaw(t) != -1.0 ==>
                 lo <= ActiveZones(t)[i].AverageReadingRaw(t) <= hi
      ensures lo <= AverageReadingRaw(t) <= hi
    {
      ZoneAveragesBounds(ActiveZones(t), t, lo, hi);
    }

    /** When every zone with data has no average, neither has the site. */
    lemma AverageRawNone(t: DataType)
      requires forall i :: 0 <= i < |ActiveZones(t)| ==> ActiveZones(t)[i].AverageReadingRaw(t) == -1.0
      ensures AverageReadingRaw(t) == -1.0
    {
      ZoneAveragesNone(ActiveZones(t), t);
    }

    /** The site current reading ignores zones without a current reading, and lies within bounds of the rest. */
    lemma CurrentBounds(t: DataType, now: int, lo: real, hi: real)
      requires forall i :: 0 <= i < |zones| ==> zones[i].Ready(t)
      requires (ActiveZonesReady(t); exists i :: 0 <= i < |ActiveZones(t)| && ActiveZones(t)[i].CurrentReadingRaw(t, now) != -1.0)
      requires (ActiveZonesReady(t);
                forall i :: 0 <= i < |ActiveZones(t)| && ActiveZones(t)[i].CurrentReadingRaw(t, now) != -1.0 ==>
                  lo <= ActiveZones(t)[i].CurrentReadingRaw(t, now) <= hi)
      ensures lo <= CurrentReadingRaw(t, now) <= hi
    {
      ActiveZonesReady(t);
      ZoneCurrentsBounds(ActiveZones(t), t, now, lo, hi);
    }

    /** The time of last reading bounds that of every site device with data and is attained by one of them. */
    lemma TimeOfLastIsMax(t: DataType)
      requires forall i :: 0 <= i < |devices| ==> devices[i].Ready(t)
      requires DevicesHaveData(t)
      ensures forall d :: d in devices && d.HasData(t) ==> d.TimeOfLastReading(t).value <= TimeOfLastReading(t).value
      ensures exists d :: d in devices && d.HasData(t) && d.TimeOfLastReading(t).value == TimeOfLastReading(t).value
    {
      var ws := ActiveDevices(t);
      assert AllReady(ws, t) by {
        forall i | 0 <= i < |ws| ensures ws[i].Ready(t) {
          var k :| 0 <= k < |devices| && devices[k] == ws[i];
        }
      }
      var times := LastTimes(ws, t);
      assert TimeOfLastReading(t).value == MaxOf(times);
      forall d | d in devices && d.HasData(t) ensures d.TimeOfLastReading(t).value <= TimeOfLastReading(t).value {
        var k :| 0 <= k < |devices| && devices[k] == d;
        var i :| 0 <= i < |ws| && ws[i] == d;
        assert times[i] == d.TimeOfLastReading(t).value;
      }
      var i :| 0 <= i < |times| && times[i] == MaxOf(times);
      assert ws[i] in devices && ws[i].HasData(t);
    }

    /** The seven-step status of the site for one type, on the site aggregates. */
    function Status(t: DataType, env: Env): (r: IdealStatus)
      requires Ready(t)
      ensures r == DOES_NOT_SERVE <==> !HasData(t)
      ensures r == LATE <==> HasData(t) && IsLate(TimeOfLastReading(t).value, env.now)
      ensures HasData(t) && !IsLate(TimeOfLastReading(t).value, env.now) ==>
                r == Judge(CurrentReadingRaw(t, env.now), AverageReadingRaw(t), StandardDeviationRaw(t, env),
                           SDMultiplier(t), GetIdeal(t))
    {
      if !HasData(t) then DOES_NOT_SERVE
      else if IsLate(TimeOfLastReading(t).value, env.now) then LATE
      else Judge(CurrentReadingRaw(t, env.now), AverageReadingRaw(t), StandardDeviationRaw(t, env), SDMultiplier(t), GetIdeal(t))
    }

    /** The statuses of the given types, in the given order. */
    function StatusesOf(ts: seq<DataType>, env: Env): (r: seq<IdealStatus>)
      requires forall t :: Ready(t)
      ensures |r| == |ts| && forall i :: 0 <= i < |ts| ==> r[i] == Status(ts[i], env)
    {
      if ts == [] then [] else StatusesOf(ts[..|ts| - 1], env) + [Status(ts[|ts| - 1], env)]
    }

    /** Whether no type is OVER, UNDER or LATE; EXTREME and UNKNOWN do not count against it. */
    function IsOkay(env: Env): (r: bool)
      requires forall t :: Ready(t)
      ensures r <==> forall i :: 0 <= i < |AllTypes| ==> !Status(AllTypes[i], env).IsFailing()
    {
      NoFailure(StatusesOf(AllTypes, env))
    }
  }
}
