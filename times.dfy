/**
 * Time helpers of the display layer. An instant is a whole number of
 * seconds; a calendar date-time is a record of its six fields.
 */
module Times {
  /** Seconds in a minute, an hour and a day. */
  const MINUTE: int := 60
  const HOUR: int := 3600
  const DAY: int := 86400

  /**
   * Rounds an instant to a whole minute: up when the second-of-minute is
   * above 30, down otherwise (so :30 rounds down).
   */
  function ToNearestMinute(ts: int): (r: int)
    ensures r % MINUTE == 0
    ensures ts - 30 <= r < ts + 30
  {
    var truncated := ts - ts % MINUTE;
    if ts % MINUTE > 30 then truncated + MINUTE else truncated
  }

  /** Rounding is idempotent. */
  lemma ToNearestMinuteIdempotent(ts: int)
    ensures ToNearestMinute(ToNearestMinute(ts)) == ToNearestMinute(ts)
  {
    var r := ToNearestMinute(ts);
    assert r % MINUTE == 0;
    assert r - r % MINUTE == r;
  }

  /** The only whole minute in the half-open window [ts - 30, ts + 30) is the rounded one. */
  lemma ToNearestMinuteUnique(ts: int, m: int)
    requires m % MINUTE == 0 && ts - 30 <= m < ts + 30
    ensures m == ToNearestMinute(ts)
  {
    var r := ToNearestMinute(ts);
    assert (m - r) % MINUTE == 0;
    assert -60 < m - r < 60;
  }

  /** The relative age shown for an instant, before formatting. */
  datatype Age = SecondsAgo(seconds: int) | MinutesAgo(minutes: int) | HoursAgo(hours: int) | OnDate(instant: int)

  /**
   * How long ago an instant was, bucketed into seconds, minutes, hours or a
   * date. Complete units elapsed are counted as `LocalDateTime.until` does;
   * the minute and hour counts are only formed for a non-negative age, where
   * truncating and Euclidean division agree.
   */
  function TimeSince(ts: int, now: int): (r: Age)
    ensures now - ts < MINUTE <==> r.SecondsAgo?
    ensures r.SecondsAgo? ==> r.seconds == now - ts
    ensures r.MinutesAgo? ==> MINUTE <= now - ts < HOUR && r.minutes * MINUTE <= now - ts < (r.minutes + 1) * MINUTE
    ensures r.HoursAgo? ==> HOUR <= now - ts < DAY && r.hours * HOUR <= now - ts < (r.hours + 1) * HOUR
    ensures r.OnDate? <==> now - ts >= DAY
    ensures r.OnDate? ==> r.instant == ts
  {
    var seconds := now - ts;
    if seconds < MINUTE then SecondsAgo(seconds)
    else if seconds / MINUTE < 60 then MinutesAgo(seconds / MINUTE)
    else if seconds / HOUR < 24 then HoursAgo(seconds / HOUR)
    else OnDate(ts)
  }

  /** The six calendar fields of a local date-time; `month` runs from 1 to 12. */
  datatype DateTime = DateTime(year: int, month: int, day: int, hour: int, minute: int, second: int)

  /** The fields in the order a JavaScript `Date` takes them, with a zero-based month. */
  function DateToSillyDate(d: DateTime): (r: seq<int>)
    ensures |r| == 6
    ensures r[1] == d.month - 1
    ensures r[0] == d.year && r[2] == d.day && r[3] == d.hour && r[4] == d.minute && r[5] == d.second
  {
    [d.year, d.month - 1, d.day, d.hour, d.minute, d.second]
  }

  /** The conversion loses nothing: the date-time can be read back from the six numbers. */
  function SillyDateToDate(s: seq<int>): (d: DateTime)
    requires |s| == 6
    ensures DateToSillyDate(d) == s
  {
    DateTime(s[0], s[1] + 1, s[2], s[3], s[4], s[5])
  }

  lemma SillyDateRoundTrip(d: DateTime)
    ensures SillyDateToDate(DateToSillyDate(d)) == d
  {
  }
}
