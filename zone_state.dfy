/**
 * What a zone's queries see: the states of its devices and its ideal
 * ranges. The zone aggregates are means of per-device values over the
 * devices with data of the type, with `-1` when there is none.
 */
module ZoneStates {
  import opened Wrappers
  import opened Types
  import opened Readings
  import opened Ideals
  import opened Statuses
  import opened DeviceStates

  /** The devices with data of the given type, in list order (a `filter` on `hasData`). */
  function WithData(ds: seq<DeviceState>, t: DataType): (r: seq<DeviceState>)
    ensures forall i :: 0 <= i < |r| ==> r[i] in ds && r[i].HasData(t)
    ensures forall i :: 0 <= i < |ds| && ds[i].HasData(t) ==> ds[i] in r
  {
    if ds == [] then []
    else
      var n := |ds| - 1;
      var front := WithData(ds[..n], t);
      if ds[n].HasData(t) then front + [ds[n]] else front
  }

  /** Every listed device has data of the type and can select its latest reading. */
  predicate AllReady(ds: seq<DeviceState>, t: DataType)
  {
    forall i :: 0 <= i < |ds| ==> ds[i].HasData(t) && ds[i].Ready(t)
  }

  /** The latest readings of the devices, in order. */
  function LatestReadings(ds: seq<DeviceState>, t: DataType): (r: seq<Reading>)
    requires AllReady(ds, t)
    ensures |r| == |ds| && forall i :: 0 <= i < |ds| ==> r[i] == ds[i].LatestReading(t).value
  {
    seq(|ds|, i requires 0 <= i < |ds| => ds[i].LatestReading(t).value)
  }

  /** The times of last reading of the devices, in order. */
  function LastTimes(ds: seq<DeviceState>, t: DataType): (r: seq<int>)
    requires AllReady(ds, t)
    ensures |r| == |ds| && forall i :: 0 <= i < |ds| ==> r[i] == ds[i].TimeOfLastReading(t).value
  {
    seq(|ds|, i requires 0 <= i < |ds| => ds[i].TimeOfLastReading(t).value)
  }

  /** The raw averages of the devices, in order. */
  function RawAverages(ds: seq<DeviceState>, t: DataType): (r: seq<real>)
    ensures |r| == |ds| && forall i :: 0 <= i < |ds| ==> r[i] == ds[i].RawAverageReading(t)
  {
    seq(|ds|, i requires 0 <= i < |ds| => ds[i].RawAverageReading(t))
  }

  /** The display averages of the devices, in order. */
  function DisplayAverages(ds: seq<DeviceState>, t: DataType, tempType: int): (r: seq<real>)
    ensures |r| == |ds| && forall i :: 0 <= i < |ds| ==> r[i] == ds[i].AverageReading(t, tempType)
  {
    seq(|ds|, i requires 0 <= i < |ds| => ds[i].AverageReading(t, tempType))
  }

  /** The raw standard deviations of the devices, in order. */
  function RawDeviations(ds: seq<DeviceState>, t: DataType, env: Env): (r: seq<real>)
    ensures |r| == |ds| && forall i :: 0 <= i < |ds| ==> r[i] == ds[i].StandardDeviationRaw(t, env)
  {
    seq(|ds|, i requires 0 <= i < |ds| => ds[i].StandardDeviationRaw(t, env))
  }

  /** Readings taken after `now` minus five minutes, in order. */
  function CurrentOnes(rs: seq<Reading>, now: int): (r: seq<Reading>)
    ensures forall i :: 0 <= i < |r| ==> r[i] in rs && IsCurrent(r[i].timestamp, now)
    ensures forall i :: 0 <= i < |rs| && IsCurrent(rs[i].timestamp, now) ==> rs[i] in r
    ensures (forall i :: 0 <= i < |rs| ==> !IsCurrent(rs[i].timestamp, now)) ==> r == []
  {
    if rs == [] then []
    else
      var n := |rs| - 1;
      var front := CurrentOnes(rs[..n], now);
      if IsCurrent(rs[n].timestamp, now) then front + [rs[n]] else front
  }

  /** The mean raw value of the current readings lies within bounds of the current raw values, once one is current. */
  lemma CurrentMeanBounds(rs: seq<Reading>, now: int, lo: real, hi: real)
    requires exists i :: 0 <= i < |rs| && IsCurrent(rs[i].timestamp, now)
    requires forall i :: 0 <= i < |rs| && IsCurrent(rs[i].timestamp, now) ==> lo <= rs[i].raw <= hi
    ensures lo <= Mean(Raws(CurrentOnes(rs, now))) <= hi
  {
    var current := CurrentOnes(rs, now);
    var i :| 0 <= i < |rs| && IsCurrent(rs[i].timestamp, now);
    assert rs[i] in current;
    forall j | 0 <= j < |current| ensures lo <= current[j].raw <= hi {
      var k :| 0 <= k < |rs| && rs[k] == current[j];
    }
    MeanBounds(Raws(current), lo, hi);
  }

  /** A device of the list has a time of last reading no later than the latest of them. */
  lemma BoundedByLatest(ws: seq<DeviceState>, t: DataType, d: DeviceState)
    requires AllReady(ws, t) && d in ws
    ensures d.TimeOfLastReading(t).value <= MaxOf(LastTimes(ws, t))
  {
    var i :| 0 <= i < |ws| && ws[i] == d;
    assert LastTimes(ws, t)[i] == d.TimeOfLastReading(t).value;
  }

  /** The position of a device of a non-empty list whose time of last reading is the latest. */
  lemma LatestDevice(ws: seq<DeviceState>, t: DataType) returns (i: nat)
    requires AllReady(ws, t) && ws != []
    ensures i < |ws| && ws[i].TimeOfLastReading(t).value == MaxOf(LastTimes(ws, t))
  {
    var times := LastTimes(ws, t);
    i :| 0 <= i < |times| && times[i] == MaxOf(times);
  }

  /** Bounds on the mean raw value of the latest readings of a device list that are current. */
  lemma CurrentOfListBounds(ws: seq<DeviceState>, t: DataType, now: int, lo: real, hi: real)
    requires AllReady(ws, t)
    requires exists i :: 0 <= i < |ws| && IsCurrent(ws[i].LatestReading(t).value.timestamp, now)
    requires forall i :: 0 <= i < |ws| && IsCurrent(ws[i].LatestReading(t).value.timestamp, now) ==>
               lo <= ws[i].LatestReading(t).value.raw <= hi
    ensures lo <= Mean(Raws(CurrentOnes(LatestReadings(ws, t), now))) <= hi
  {
    CurrentMeanBounds(LatestReadings(ws, t), now, lo, hi);
  }

  /** A zone: the states of its devices, in list order, and its ideal ranges. */
  datatype ZoneState = ZoneState(devices: seq<DeviceState>, ideals: map<DataType, Ideal>)
  {
    function GetIdeal(t: DataType): (r: Option<Ideal>)
      ensures r.Some? <==> t in ideals
      ensures r.Some? ==> r.value == ideals[t]
    {
      if t in ideals then Some(ideals[t]) else None
    }

    /** Whether some device of the zone has data of the given type. */
    predicate HasData(t: DataType)
    {
      exists i :: 0 <= i < |devices| && devices[i].HasData(t)
    }

    /** The types with data, in declaration order. */
    function Types(): (r: seq<DataType>)
      ensures forall t :: t in r <==> HasData(t)
      ensures forall i, j :: 0 <= i < j < |r| ==> Ordinal(r[i]) < Ordinal(r[j])
    {
      Select(seq(|AllTypes|, i requires 0 <= i < |AllTypes| => HasData(AllTypes[i])))
    }

    /** The devices with data of the given type, in list order. */
    function Active(t: DataType): (r: seq<DeviceState>)
      ensures forall i :: 0 <= i < |r| ==> r[i] in devices && r[i].HasData(t)
      ensures forall i :: 0 <= i < |devices| && devices[i].HasData(t) ==> devices[i] in r
      ensures r == [] <==> !HasData(t)
    {
      var r := WithData(devices, t);
      assert r != [] ==> r[0] in devices;
      r
    }

    /** Every device can select its latest reading of the type. */
    predicate Ready(t: DataType)
    {
      forall i :: 0 <= i < |devices| ==> devices[i].Ready(t)
    }

    /** The devices with data of a type the zone is ready for are all ready. */
    lemma ActiveReady(t: DataType)
      requires Ready(t)
      ensures AllReady(Active(t), t)
    {
      var ws := Active(t);
      forall i | 0 <= i < |ws| ensures ws[i].Ready(t) {
        var k :| 0 <= k < |devices| && devices[k] == ws[i];
      }
    }

    /**
     * Mean of the raw latest readings of the devices with data whose latest
     * reading is current, or -1 when there is none.
     */
    function CurrentReadingRaw(t: DataType, now: int): (r: real)
      requires Ready(t)
      ensures !HasData(t) ==> r == -1.0
      ensures (ActiveReady(t); IsMeanOf(r, Raws(CurrentOnes(LatestReadings(Active(t), t), now))))
    {
      ActiveReady(t);
      Mean(Raws(CurrentOnes(LatestReadings(Active(t), t), now)))
    }

    /** Mean of the raw averages of the devices with data, or -1 when there is none. */
    function AverageReadingRaw(t: DataType): (r: real)
      ensures !HasData(t) ==> r == -1.0
      ensures IsMeanOf(r, RawAverages(Active(t), t))
    {
      Mean(RawAverages(Active(t), t))
    }

    /** Mean of the display averages of the devices with data, or -1 when there is none. */
    function AverageReading(t: DataType, tempType: int): (r: real)
      ensures !HasData(t) ==> r == -1.0
      ensures IsMeanOf(r, DisplayAverages(Active(t), t, tempType))
    {
      Mean(DisplayAverages(Active(t), t, tempType))
    }

    /** Mean of the raw standard deviations of the devices with data, or -1 when there is none. */
    function RawStandardDeviation(t: DataType, env: Env): (r: real)
      ensures !HasData(t) ==> r == -1.0
      ensures IsMeanOf(r, RawDeviations(Active(t), t, env))
    {
      Mean(RawDeviations(Active(t), t, env))
    }

    /** The latest time of last reading over the devices with data, or null when there is none. */
    function TimeOfLastReading(t: DataType): (r: Option<int>)
      requires Ready(t)
      ensures r.None? <==> !HasData(t)
    {
      ActiveReady(t);
      var ws := Active(t);
      if ws == [] then None else Some(MaxOf(LastTimes(ws, t)))
    }

    /** With no device's latest reading current, the current reading is the -1 sentinel. */
    lemma CurrentNone(t: DataType, now: int)
      requires Ready(t)
      requires forall d :: d in devices && d.HasData(t) ==> !IsCurrent(d.LatestReading(t).value.timestamp, now)
      ensures CurrentReadingRaw(t, now) == -1.0
    {
      ActiveReady(t);
      var latest := LatestReadings(Active(t), t);
      forall i | 0 <= i < |latest| ensures !IsCurrent(latest[i].timestamp, now) {
        assert Active(t)[i] in devices;
      }
    }

    /**
     * The current reading lies within any bounds of the raw latest readings
     * that are current, once at least one is.
     */
    lemma CurrentBounds(t: DataType, now: int, lo: real, hi: real)
      requires Ready(t)
      requires exists d :: d in devices && d.HasData(t) && IsCurrent(d.LatestReading(t).value.timestamp, now)
      requires forall d :: d in devices && d.HasData(t) && IsCurrent(d.LatestReading(t).value.timestamp, now) ==>
                 lo <= d.LatestReading(t).value.raw <= hi
      ensures lo <= CurrentReadingRaw(t, now) <= hi
    {
      ActiveReady(t);
      var ws := Active(t);
      assert exists i :: 0 <= i < |ws| && IsCurrent(ws[i].LatestReading(t).value.timestamp, now) by {
        var d :| d in devices && d.HasData(t) && IsCurrent(d.LatestReading(t).value.timestamp, now);
        var k :| 0 <= k < |devices| && devices[k] == d;
        var i :| 0 <= i < |ws| && ws[i] == d;
      }
      assert forall i :: 0 <= i < |ws| && IsCurrent(ws[i].LatestReading(t).value.timestamp, now) ==>
               lo <= ws[i].LatestReading(t).value.raw <= hi by {
        forall i | 0 <= i < |ws| && IsCurrent(ws[i].LatestReading(t).value.timestamp, now)
          ensures lo <= ws[i].LatestReading(t).value.raw <= hi
        {
          assert ws[i] in devices && ws[i].HasData(t);
        }
      }
      CurrentOfListBounds(ws, t, now, lo, hi);
    }

    /** The raw average lies within any bounds of the raw averages of the devices with data. */
    lemma AverageRawBounds(t: DataType, lo: real, hi: real)
      requires HasData(t)
      requires forall d :: d in devices && d.HasData(t) ==> lo <= d.RawAverageReading(t) <= hi
      ensures lo <= AverageReadingRaw(t) <= hi
    {
      var ws := Active(t);
      MeanBounds(RawAverages(ws, t), lo, hi);
    }

    /** The time of last reading bounds that of every device with data and is attained by one of them. */
    lemma TimeOfLastIsMax(t: DataType)
      requires Ready(t) && HasData(t)
      ensures forall d :: d in devices && d.HasData(t) ==> d.TimeOfLastReading(t).value <= TimeOfLastReading(t).value
      ensures exists d :: d in devices && d.HasData(t) && d.TimeOfLastReading(t).value == TimeOfLastReading(t).value
    {
      ActiveReady(t);
      var ws := Active(t);
      assert TimeOfLastReading(t).value == MaxOf(LastTimes(ws, t));
      forall d | d in devices && d.HasData(t) ensures d.TimeOfLastReading(t).value <= MaxOf(LastTimes(ws, t)) {
        var k :| 0 <= k < |devices| && devices[k] == d;
        BoundedByLatest(ws, t, d);
      }
      var i := LatestDevice(ws, t);
      assert ws[i] in devices && ws[i].HasData(t);
    }

    /** The seven-step status of the zone for one type, on the zone aggregates. */
    function Status(t: DataType, env: Env): (r: IdealStatus)
      requires Ready(t)
      ensures r == DOES_NOT_SERVE <==> !HasData(t)
      ensures r == LATE <==> HasData(t) && IsLate(TimeOfLastReading(t).value, env.now)
      ensures HasData(t) && !IsLate(TimeOfLastReading(t).value, env.now) ==>
                r == Judge(CurrentReadingRaw(t, env.now), AverageReadingRaw(t), RawStandardDeviation(t, env),
                           SDMultiplier(t), GetIdeal(t))
    {
      if !HasData(t) then DOES_NOT_SERVE
      else if IsLate(TimeOfLastReading(t).value, env.now) then LATE
      else Judge(CurrentReadingRaw(t, env.now), AverageReadingRaw(t), RawStandardDeviation(t, env), SDMultiplier(t), GetIdeal(t))
    }

    /** The statuses of the given types, in the given order. */
    function StatusesOf(ts: seq<DataType>, env: Env): (r: seq<IdealStatus>)
      requires forall t :: Ready(t)
      ensures |r| == |ts| && forall i :: 0 <= i < |ts| ==> r[i] == Status(ts[i], env)
    {
      if ts == [] then [] else StatusesOf(ts[..|ts| - 1], env) + [Status(ts[|ts| - 1], env)]
    }

    /** Whether no type is OVER, UNDER or LATE; EXTREME and UNKNOWN do not count against it. */
    function IsOkay(env: Env): (r: bool)
      requires forall t :: Ready(t)
      ensures r <==> forall i :: 0 <= i < |AllTypes| ==> !Status(AllTypes[i], env).IsFailing()
    {
      NoFailure(StatusesOf(AllTypes, env))
    }
  }
}
