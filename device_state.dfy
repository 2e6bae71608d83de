/**
 * What a device's queries see: its series of readings and its ideal ranges,
 * as a value. Every query of `Device` and `DeviceData` that only reads is a
 * function of this state; the classes in `Graph` build it from their fields.
 */
module DeviceStates {
  import opened Wrappers
  import opened Types
  import opened Readings
  import opened Ideals
  import opened Statuses
  import Times

  /** One `DeviceData` series: readings of one type at one resolution, in insertion order. */
  datatype SeriesState = SeriesState(dataType: DataType, resolution: DataResolution, readings: seq<Reading>)
  {
    /**
     * The latest reading, or null when there is none. Among readings tied on
     * the latest timestamp the earliest inserted is chosen.
     */
    function LatestReading(): (r: Option<Reading>)
      ensures r.None? <==> readings == []
      ensures r.Some? ==> forall j :: 0 <= j < |readings| ==> readings[j].timestamp <= r.value.timestamp
      ensures r.Some? ==> (exists k :: 0 <= k < |readings| && readings[k] == r.value &&
                                     forall j :: 0 <= j < k ==> readings[j].timestamp < r.value.timestamp)
    {
      if readings == [] then None else Some(readings[LatestIndex(readings)])
    }
  }

  /** The series of the given type, in list order (a `filter` on the type). */
  function OfType(ss: seq<SeriesState>, t: DataType): (r: seq<SeriesState>)
    ensures forall i :: 0 <= i < |r| ==> r[i].dataType == t && r[i] in ss
    ensures forall i :: 0 <= i < |ss| && ss[i].dataType == t ==> ss[i] in r
  {
    if ss == [] then []
    else
      var n := |ss| - 1;
      var front := OfType(ss[..n], t);
      if ss[n].dataType == t then front + [ss[n]] else front
  }

  /** The readings of each series. */
  function ReadingsOf(ss: seq<SeriesState>): (r: seq<seq<Reading>>)
    ensures |r| == |ss| && forall i :: 0 <= i < |ss| ==> r[i] == ss[i].readings
  {
    seq(|ss|, i requires 0 <= i < |ss| => ss[i].readings)
  }

  /** Taking one more series appends its readings to the concatenation. */
  lemma FlattenSnoc(ss: seq<SeriesState>, j: nat)
    requires j < |ss|
    ensures Flatten(ReadingsOf(ss[..j + 1])) == Flatten(ReadingsOf(ss[..j])) + ss[j].readings
  {
    assert ReadingsOf(ss[..j + 1])[..j] == ReadingsOf(ss[..j]);
  }

  /** Index of the first series of the given type and resolution. */
  function FindSeries(ss: seq<SeriesState>, t: DataType, res: DataResolution): (r: Option<nat>)
    ensures r.None? ==> forall k :: 0 <= k < |ss| ==> !(ss[k].dataType == t && ss[k].resolution == res)
    ensures r.Some? ==> r.value < |ss| && ss[r.value].dataType == t && ss[r.value].resolution == res
    ensures r.Some? ==> forall k :: 0 <= k < r.value ==> !(ss[k].dataType == t && ss[k].resolution == res)
  {
    if ss == [] then None
    else if ss[0].dataType == t && ss[0].resolution == res then Some(0)
    else match FindSeries(ss[1..], t, res)
      case None => None
      case Some(k) => Some(k + 1)
  }

  /** Index of the first reading strictly inside the window (time - margin, time + margin). */
  function FirstWithin(rs: seq<Reading>, time: int, margin: int): (r: Option<nat>)
    ensures r.None? ==> forall k :: 0 <= k < |rs| ==> !(time - margin < rs[k].timestamp < time + margin)
    ensures r.Some? ==> r.value < |rs| && time - margin < rs[r.value].timestamp < time + margin
    ensures r.Some? ==> forall k :: 0 <= k < r.value ==> !(time - margin < rs[k].timestamp < time + margin)
  {
    if rs == [] then None
    else if time - margin < rs[0].timestamp < time + margin then Some(0)
    else match FirstWithin(rs[1..], time, margin)
      case None => None
      case Some(k) => Some(k + 1)
  }

  /** Raw values of readings, in order. */
  function Raws(rs: seq<Reading>): (r: seq<real>)
    ensures |r| == |rs| && forall i :: 0 <= i < |rs| ==> r[i] == rs[i].raw
  {
    seq(|rs|, i requires 0 <= i < |rs| => rs[i].raw)
  }

  /** Display values of readings, in order. */
  function Values(rs: seq<Reading>, tempType: int): (r: seq<real>)
    ensures |r| == |rs| && forall i :: 0 <= i < |rs| ==> r[i] == rs[i].Value(tempType)
  {
    seq(|rs|, i requires 0 <= i < |rs| => rs[i].Value(tempType))
  }

  /** Squared deviations of raw values from a centre, in order. */
  function SquaredDeviations(rs: seq<Reading>, centre: real): (r: seq<real>)
    ensures |r| == |rs| && forall i :: 0 <= i < |rs| ==> r[i] == (rs[i].raw - centre) * (rs[i].raw - centre)
    ensures forall i :: 0 <= i < |r| ==> r[i] >= 0.0
  {
    seq(|rs|, i requires 0 <= i < |rs| => (rs[i].raw - centre) * (rs[i].raw - centre))
  }

  /**
   * The latest reading over the latest readings of the given series, in list
   * order: a strictly later one replaces the choice so far, so a tie keeps
   * the earlier series' reading (a stable sort by descending timestamp
   * followed by `findFirst`).
   */
  function LatestAcross(ss: seq<SeriesState>): Reading
    requires ss != [] && forall i :: 0 <= i < |ss| ==> ss[i].readings != []
  {
    var last := ss[|ss| - 1].LatestReading().value;
    if |ss| == 1 then last
    else
      var front := LatestAcross(ss[..|ss| - 1]);
      if last.timestamp > front.timestamp then last else front
  }

  /** The largest timestamp among the latest readings of the given series. */
  function LatestTime(ss: seq<SeriesState>): int
    requires ss != [] && forall i :: 0 <= i < |ss| ==> ss[i].readings != []
  {
    var last := ss[|ss| - 1].LatestReading().value.timestamp;
    if |ss| == 1 then last
    else
      var front := LatestTime(ss[..|ss| - 1]);
      if last > front then last else front
  }

  /** The chosen reading is at least as late as every reading of every series. */
  lemma {:induction false} LatestAcrossBound(ss: seq<SeriesState>)
    requires ss != [] && forall i :: 0 <= i < |ss| ==> ss[i].readings != []
    ensures forall i, j :: 0 <= i < |ss| && 0 <= j < |ss[i].readings| ==>
              ss[i].readings[j].timestamp <= LatestAcross(ss).timestamp
  {
    if |ss| > 1 {
      LatestAcrossBound(ss[..|ss| - 1]);
    }
  }

  /** The chosen reading is the latest reading of the first series whose latest reading is that late. */
  lemma {:induction false} LatestAcrossFirst(ss: seq<SeriesState>)
    requires ss != [] && forall i :: 0 <= i < |ss| ==> ss[i].readings != []
    ensures exists k :: 0 <= k < |ss| && LatestAcross(ss) == ss[k].LatestReading().value &&
              forall j :: 0 <= j < k ==> ss[j].LatestReading().value.timestamp < LatestAcross(ss).timestamp
  {
    var n := |ss| - 1;
    if n > 0 {
      var front := ss[..n];
      LatestAcrossFirst(front);
      var k :| 0 <= k < |front| && LatestAcross(front) == front[k].LatestReading().value &&
               forall j :: 0 <= j < k ==> front[j].LatestReading().value.timestamp < LatestAcross(front).timestamp;
      var last := ss[n].LatestReading().value;
      if last.timestamp > LatestAcross(front).timestamp {
        LatestAcrossBound(front);
        forall j | 0 <= j < n ensures ss[j].LatestReading().value.timestamp < last.timestamp {
          var m :| 0 <= m < |ss[j].readings| && ss[j].readings[m] == ss[j].LatestReading().value;
          assert front[j].readings[m].timestamp <= LatestAcross(front).timestamp;
        }
        assert LatestAcross(ss) == ss[n].LatestReading().value;
      } else {
        assert LatestAcross(ss) == ss[k].LatestReading().value;
        assert forall j :: 0 <= j < k ==> ss[j] == front[j];
      }
    } else {
      assert LatestAcross(ss) == ss[0].LatestReading().value;
    }
  }

  /** The largest latest timestamp is the timestamp of the chosen reading. */
  lemma {:induction false} LatestTimeIsLatest(ss: seq<SeriesState>)
    requires ss != [] && forall i :: 0 <= i < |ss| ==> ss[i].readings != []
    ensures LatestTime(ss) == LatestAcross(ss).timestamp
  {
    if |ss| > 1 {
      LatestTimeIsLatest(ss[..|ss| - 1]);
    }
  }

  /** The instants of the readings, each rounded to the nearest minute. */
  function RoundedTimes(rs: seq<Reading>): set<int>
  {
    set k | 0 <= k < |rs| :: Times.ToNearestMinute(rs[k].timestamp)
  }

  /** A rounded instant of the readings is the rounding of one of their timestamps. */
  lemma RoundedFrom(rs: seq<Reading>, x: int) returns (ts: int)
    requires x in RoundedTimes(rs)
    ensures ts in TimestampsOf(rs) && Times.ToNearestMinute(ts) == x
  {
    var m :| 0 <= m < |rs| && Times.ToNearestMinute(rs[m].timestamp) == x;
    ts := rs[m].timestamp;
  }

  /** A device: its series, one per (data type, resolution), and its ideal ranges. */
  datatype DeviceState = DeviceState(series: seq<SeriesState>, ideals: map<DataType, Ideal>)
  {
    function GetIdeal(t: DataType): (r: Option<Ideal>)
      ensures r.Some? <==> t in ideals
      ensures r.Some? ==> r.value == ideals[t]
    {
      if t in ideals then Some(ideals[t]) else None
    }

    /** Whether some series has the given type. */
    predicate HasData(t: DataType)
    {
      exists i :: 0 <= i < |series| && series[i].dataType == t
    }

    /** The series of the given type, in list order. */
    function Series(t: DataType): (r: seq<SeriesState>)
      ensures forall i :: 0 <= i < |r| ==> r[i].dataType == t && r[i] in series
      ensures forall i :: 0 <= i < |series| && series[i].dataType == t ==> series[i] in r
      ensures r == [] <==> !HasData(t)
    {
      var r := OfType(series, t);
      assert r != [] ==> r[0] in series;
      r
    }

    /** The types with data, in declaration order. */
    function Types(): (r: seq<DataType>)
      ensures forall t :: t in r <==> HasData(t)
      ensures forall i, j :: 0 <= i < j < |r| ==> Ordinal(r[i]) < Ordinal(r[j])
    {
      Select(seq(|AllTypes|, i requires 0 <= i < |AllTypes| => HasData(AllTypes[i])))
    }

    /**
     * Every series of the given type holds a reading. The source dereferences
     * the latest reading of each such series, so an empty one fails there.
     */
    predicate Ready(t: DataType)
    {
      forall i :: 0 <= i < |series| && series[i].dataType == t ==> series[i].readings != []
    }

    /** Every series holds a reading: `Ready` for every type at once. */
    predicate Populated()
      ensures Populated() ==> forall t :: Ready(t)
    {
      forall i :: 0 <= i < |series| ==> series[i].readings != []
    }

    /** The series of the given type, concatenated in list order. */
    function Concatenated(t: DataType): seq<Reading>
    {
      Flatten(ReadingsOf(Series(t)))
    }

    /**
     * All readings of one type across resolutions: the series in list order,
     * each in reading order, keeping the first reading seen for each timestamp.
     */
    function AllReadings(t: DataType): seq<Reading>
    {
      Dedup(Concatenated(t))
    }

    /** The merged readings have pairwise distinct timestamps. */
    lemma AllReadingsDistinct(t: DataType)
      ensures DistinctTimestamps(AllReadings(t))
    {
      DedupDistinct(Concatenated(t));
    }

    /** The merge keeps exactly the first reading of each timestamp, in concatenation order. */
    lemma AllReadingsFirstSeen(t: DataType)
      ensures AllReadings(t) == FirstOccurrences(Concatenated(t), |Concatenated(t)|)
    {
      DedupIsFirstOccurrences(Concatenated(t));
    }

    /** No timestamp of a series of the type is lost by the merge, and none is invented. */
    lemma AllReadingsCover(t: DataType, i: nat)
      requires i < |series| && series[i].dataType == t
      ensures TimestampsOf(series[i].readings) <= TimestampsOf(AllReadings(t))
      ensures TimestampsOf(AllReadings(t)) == TimestampsOf(Concatenated(t))
    {
      var ss := Series(t);
      var k :| 0 <= k < |ss| && ss[k] == series[i];
      FlattenTimestamps(ReadingsOf(ss), k);
      DedupTimestamps(Concatenated(t));
    }

    /** The rounded instants of the merged readings of each of the given types, together. */
    function RoundedOver(ts: seq<DataType>): set<int>
    {
      if ts == [] then {} else RoundedOver(ts[..|ts| - 1]) + RoundedTimes(AllReadings(ts[|ts| - 1]))
    }

    /** Taking one more type adds the rounded instants of its merged readings. */
    lemma RoundedOverSnoc(ts: seq<DataType>, i: nat)
      requires i < |ts|
      ensures RoundedOver(ts[..i + 1]) == RoundedOver(ts[..i]) + RoundedTimes(AllReadings(ts[i]))
    {
      assert ts[..i + 1][..i] == ts[..i];
    }

    /** The rounded instants of each listed type are among those of the list. */
    lemma {:induction false} RoundedOverHas(ts: seq<DataType>, k: nat)
      requires k < |ts|
      ensures RoundedTimes(AllReadings(ts[k])) <= RoundedOver(ts)
    {
      var n := |ts| - 1;
      if k < n {
        RoundedOverHas(ts[..n], k);
        assert ts[..n][k] == ts[k];
      }
    }

    /** Every rounded instant of the list comes from one listed type. */
    lemma {:induction false} RoundedOverFrom(ts: seq<DataType>, x: int)
      requires x in RoundedOver(ts)
      ensures exists k :: 0 <= k < |ts| && x in RoundedTimes(AllReadings(ts[k]))
    {
      var n := |ts| - 1;
      if x !in RoundedTimes(AllReadings(ts[n])) {
        RoundedOverFrom(ts[..n], x);
        var k :| 0 <= k < n && x in RoundedTimes(AllReadings(ts[..n][k]));
        assert ts[..n][k] == ts[k];
      }
    }

    /**
     * The instants for which the device has data, each rounded to the
     * nearest minute, without repeats and latest first.
     */
    function Timestamps(): (r: seq<int>)
      ensures forall i, j :: 0 <= i < j < |r| ==> r[i] > r[j]
    {
      Descending(RoundedOver(Types()))
    }

    /** The rounded instant of every reading of every series is listed. */
    lemma TimestampsCover(i: nat, j: nat)
      requires i < |series| && j < |series[i].readings|
      ensures Times.ToNearestMinute(series[i].readings[j].timestamp) in Timestamps()
    {
      var t := series[i].dataType;
      assert HasData(t);
      var k :| 0 <= k < |Types()| && Types()[k] == t;
      AllReadingsCover(t, i);
      var ts := series[i].readings[j].timestamp;
      assert ts in TimestampsOf(series[i].readings);
      var rs := AllReadings(t);
      assert ts in TimestampsOf(rs);
      var m :| 0 <= m < |rs| && rs[m].timestamp == ts;
      assert Times.ToNearestMinute(ts) in RoundedTimes(rs);
      RoundedOverHas(Types(), k);
    }

    /** Every timestamp of the merged readings is the timestamp of a reading of some series. */
    lemma AllReadingsFrom(t: DataType, ts: int)
      requires ts in TimestampsOf(AllReadings(t))
      ensures exists i, j :: 0 <= i < |series| && 0 <= j < |series[i].readings| &&
                             series[i].readings[j].timestamp == ts
    {
      DedupTimestamps(Concatenated(t));
      var r :| r in Concatenated(t) && r.timestamp == ts;
      var ss := Series(t);
      FlattenFrom(ReadingsOf(ss), r);
      var a, b :| 0 <= a < |ss| && 0 <= b < |ss[a].readings| && ss[a].readings[b] == r;
      var i :| 0 <= i < |series| && series[i] == ss[a];
      assert series[i].readings[b] == r;
    }

    /** Every listed instant is the rounded instant of some reading of some series. */
    lemma TimestampsFrom(x: int)
      requires x in Timestamps()
      ensures exists i, j :: 0 <= i < |series| && 0 <= j < |series[i].readings| &&
                             Times.ToNearestMinute(series[i].readings[j].timestamp) == x
    {
      var types := Types();
      RoundedOverFrom(types, x);
      var k :| 0 <= k < |types| && x in RoundedTimes(AllReadings(types[k]));
      var ts := RoundedFrom(AllReadings(types[k]), x);
      AllReadingsFrom(types[k], ts);
      var i, j :| 0 <= i < |series| && 0 <= j < |series[i].readings| && series[i].readings[j].timestamp == ts;
      assert Times.ToNearestMinute(series[i].readings[j].timestamp) == x;
    }

    /**
     * The latest reading of the given type across all its series, or null
     * when there is no such series. Ties go to the earliest series in list order.
     */
    function LatestReading(t: DataType): (r: Option<Reading>)
      requires Ready(t)
      ensures r.None? <==> !HasData(t)
    {
      var ss := Series(t);
      if ss == [] then None else Some(LatestAcross(ss))
    }

    /**
     * The latest reading is at least as late as every reading of the type,
     * and it is the latest reading of the first series attaining that time.
     */
    lemma LatestReadingIsLatest(t: DataType)
      requires Ready(t) && HasData(t)
      ensures forall i, j :: 0 <= i < |series| && series[i].dataType == t && 0 <= j < |series[i].readings| ==>
                series[i].readings[j].timestamp <= LatestReading(t).value.timestamp
      ensures exists k :: 0 <= k < |Series(t)| && LatestReading(t).value == Series(t)[k].LatestReading().value &&
                forall j :: 0 <= j < k ==> Series(t)[j].LatestReading().value.timestamp < LatestReading(t).value.timestamp
    {
      var ss := Series(t);
      LatestAcrossBound(ss);
      LatestAcrossFirst(ss);
      forall i, j | 0 <= i < |series| && series[i].dataType == t && 0 <= j < |series[i].readings|
        ensures series[i].readings[j].timestamp <= LatestReading(t).value.timestamp
      {
        var m :| 0 <= m < |ss| && ss[m] == series[i];
      }
    }

    /** The largest latest-reading timestamp over the series of the given type, or null when there is no such series. */
    function TimeOfLastReading(t: DataType): (r: Option<int>)
      requires Ready(t)
      ensures r.None? <==> !HasData(t)
    {
      var ss := Series(t);
      if ss == [] then None else Some(LatestTime(ss))
    }

    /** The time of the last reading is the timestamp of the latest reading. */
    lemma TimeOfLastIsLatest(t: DataType)
      requires Ready(t) && HasData(t)
      ensures TimeOfLastReading(t).value == LatestReading(t).value.timestamp
    {
      LatestTimeIsLatest(Series(t));
    }

    /** The time of the last reading bounds every reading of the type and is the latest time of some series. */
    lemma TimeOfLastIsMax(t: DataType)
      requires Ready(t) && HasData(t)
      ensures forall i, j :: 0 <= i < |series| && series[i].dataType == t && 0 <= j < |series[i].readings| ==>
                series[i].readings[j].timestamp <= TimeOfLastReading(t).value
      ensures exists k :: 0 <= k < |Series(t)| && TimeOfLastReading(t).value == Series(t)[k].LatestReading().value.timestamp
    {
      TimeOfLastIsLatest(t);
      LatestReadingIsLatest(t);
    }

    /**
     * The first reading of the given series strictly within the resolution's
     * margin of `time`, or null. The source dereferences the series, so it must exist.
     */
    function ReadingClosestToDateTime(t: DataType, time: int, res: DataResolution): (r: Option<Reading>)
      requires FindSeries(series, t, res).Some?
      ensures var rs := series[FindSeries(series, t, res).value].readings;
        r.None? <==> forall k :: 0 <= k < |rs| ==> !(time - Margin(res) < rs[k].timestamp < time + Margin(res))
      ensures var rs := series[FindSeries(series, t, res).value].readings;
        r.Some? ==> (exists k :: 0 <= k < |rs| && rs[k] == r.value &&
                                time - Margin(res) < rs[k].timestamp < time + Margin(res) &&
                                forall j :: 0 <= j < k ==> !(time - Margin(res) < rs[j].timestamp < time + Margin(res)))
    {
      var rs := series[FindSeries(series, t, res).value].readings;
      match FirstWithin(rs, time, Margin(res))
      case None => None
      case Some(k) => Some(rs[k])
    }

    /** Mean of the merged readings in display units, or -1 when there are none. */
    function AverageReading(t: DataType, tempType: int): (r: real)
      ensures AllReadings(t) == [] ==> r == -1.0
      ensures IsMeanOf(r, Values(AllReadings(t), tempType))
    {
      Mean(Values(AllReadings(t), tempType))
    }

    /** Mean of the merged raw readings, or -1 when there are none. */
    function RawAverageReading(t: DataType): (r: real)
      ensures AllReadings(t) == [] ==> r == -1.0
      ensures IsMeanOf(r, Raws(AllReadings(t)))
    {
      Mean(Raws(AllReadings(t)))
    }

    /** The raw average lies within any bounds of the merged raw readings. */
    lemma RawAverageBounds(t: DataType, lo: real, hi: real)
      requires AllReadings(t) != []
      requires forall i :: 0 <= i < |AllReadings(t)| ==> lo <= AllReadings(t)[i].raw <= hi
      ensures lo <= RawAverageReading(t) <= hi
    {
      MeanBounds(Raws(AllReadings(t)), lo, hi);
    }

    /** Mean squared distance of the merged raw readings from `centre`, or -1 when there are none. */
    function RawVariance(t: DataType, centre: real): (v: real)
      ensures AllReadings(t) == [] <==> v == -1.0
      ensures AllReadings(t) != [] ==> v >= 0.0
      ensures IsMeanOf(v, SquaredDeviations(AllReadings(t), centre))
    {
      var squares := SquaredDeviations(AllReadings(t), centre);
      if squares == [] then Mean(squares)
      else
        MeanNonNegative(squares);
        Mean(squares)
    }

    /**
     * The "raw" standard deviation. The spread of the raw readings is taken
     * around the display-scale average, and the result is -1 when that average
     * is -1. The source tests the variance for -1 as well; past the first test
     * the readings are non-empty, so the variance is non-negative
     * (`DeviationSentinel`) and that second test is left out.
     */
    function StandardDeviationRaw(t: DataType, env: Env): (r: real)
      ensures AverageReading(t, env.tempType) == -1.0 ==> r == -1.0
      ensures AverageReading(t, env.tempType) != -1.0 ==> r == env.Sqrt(RawVariance(t, AverageReading(t, env.tempType)))
    {
      var average := AverageReading(t, env.tempType);
      if average == -1.0 then -1.0 else env.Sqrt(RawVariance(t, average))
    }

    /**
     * Past the display-average test the variance is a genuine, non-negative
     * value, so with a square root that keeps non-negative numbers
     * non-negative the deviation is -1 exactly when the average is.
     */
    lemma DeviationSentinel(t: DataType, env: Env)
      requires forall x :: x >= 0.0 ==> env.sqrt(x) >= 0.0
      ensures AverageReading(t, env.tempType) != -1.0 ==> RawVariance(t, AverageReading(t, env.tempType)) >= 0.0
      ensures StandardDeviationRaw(t, env) == -1.0 <==> AverageReading(t, env.tempType) == -1.0
    {
      var average := AverageReading(t, env.tempType);
      if average != -1.0 {
        assert RawVariance(t, average) >= 0.0;
        assert StandardDeviationRaw(t, env) == env.sqrt(RawVariance(t, average));
      }
    }

    /** The seven-step status of the device for one type. */
    function Status(t: DataType, env: Env): (r: IdealStatus)
      requires Ready(t)
      ensures r == DOES_NOT_SERVE <==> !HasData(t)
      ensures r == LATE <==> HasData(t) && IsLate(TimeOfLastReading(t).value, env.now)
      ensures HasData(t) && !IsLate(TimeOfLastReading(t).value, env.now) ==>
                r == Judge(LatestReading(t).value.raw, RawAverageReading(t), StandardDeviationRaw(t, env),
                           SDMultiplier(t), GetIdeal(t))
    {
      if !HasData(t) then DOES_NOT_SERVE
      else if IsLate(TimeOfLastReading(t).value, env.now) then LATE
      else Judge(LatestReading(t).value.raw, RawAverageReading(t), StandardDeviationRaw(t, env), SDMultiplier(t), GetIdeal(t))
    }

    /** The statuses of the given types, in the given order. */
    function StatusesOf(ts: seq<DataType>, env: Env): (r: seq<IdealStatus>)
      requires Populated()
      ensures |r| == |ts| && forall i :: 0 <= i < |ts| ==> r[i] == Status(ts[i], env)
    {
      if ts == [] then [] else StatusesOf(ts[..|ts| - 1], env) + [Status(ts[|ts| - 1], env)]
    }

    /** Whether no type is OVER, UNDER or LATE; EXTREME and UNKNOWN do not count against it. */
    function IsOkay(env: Env): (r: bool)
      requires Populated()
      ensures r <==> forall i :: 0 <= i < |AllTypes| ==> !Status(AllTypes[i], env).IsFailing()
    {
      NoFailure(StatusesOf(AllTypes, env))
    }
  }
}
