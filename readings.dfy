/**
 * Readings and the sequence computations the domain graph is built on:
 * de-duplication by timestamp, first-maximum selection, and means with the
 * `-1` "no value" sentinel. Timestamps are whole seconds.
 */
module Readings {
  import opened Types
  import DisplayScale

  /** One immutable reading: when it was taken, its raw value (Kelvin for temperatures) and its type. */
  datatype Reading = Reading(timestamp: int, raw: real, dataType: DataType)
  {
    /** The reading in display units under the given temperature display scale. */
    function Value(tempType: int): (r: real)
      ensures dataType != TEMPERATURE ==> r == raw
      ensures dataType == TEMPERATURE ==> r == DisplayScale.ConvertTemperature(tempType, raw)
    {
      DisplayScale.ReadingValue(tempType, raw, dataType)
    }
  }

  /** The timestamps occurring in a sequence of readings. */
  function TimestampsOf(rs: seq<Reading>): set<int>
  {
    set r | r in rs :: r.timestamp
  }

  /** Concatenation of a sequence of series, in order. */
  function Flatten(ss: seq<seq<Reading>>): seq<Reading>
  {
    if ss == [] then [] else Flatten(ss[..|ss| - 1]) + ss[|ss| - 1]
  }

  /** Every timestamp of every series occurs in their concatenation. */
  lemma {:induction false} FlattenTimestamps(ss: seq<seq<Reading>>, i: nat)
    requires i < |ss|
    ensures TimestampsOf(ss[i]) <= TimestampsOf(Flatten(ss))
  {
    var n := |ss| - 1;
    assert Flatten(ss) == Flatten(ss[..n]) + ss[n];
    if i < n {
      FlattenTimestamps(ss[..n], i);
      assert ss[..n][i] == ss[i];
    }
  }

  /** Every reading of the concatenation comes from one of the series. */
  lemma {:induction false} FlattenFrom(ss: seq<seq<Reading>>, x: Reading)
    requires x in Flatten(ss)
    ensures exists i, j :: 0 <= i < |ss| && 0 <= j < |ss[i]| && ss[i][j] == x
  {
    var n := |ss| - 1;
    assert Flatten(ss) == Flatten(ss[..n]) + ss[n];
    if x in Flatten(ss[..n]) {
      FlattenFrom(ss[..n], x);
      var i, j :| 0 <= i < |ss[..n]| && 0 <= j < |ss[..n][i]| && ss[..n][i][j] == x;
      assert ss[i][j] == x;
    } else {
      var j :| 0 <= j < |ss[n]| && ss[n][j] == x;
    }
  }

  /**
   * Left-to-right de-duplication: a reading is kept when no reading kept
   * before it has the same timestamp.
   */
  function Dedup(rs: seq<Reading>): seq<Reading>
  {
    if rs == [] then []
    else
      var kept := Dedup(rs[..|rs| - 1]);
      var last := rs[|rs| - 1];
      if last.timestamp in TimestampsOf(kept) then kept else kept + [last]
  }

  /** One more reading: it is kept exactly when its timestamp is new. */
  lemma DedupSnoc(rs: seq<Reading>, r: Reading)
    ensures Dedup(rs + [r]) == if r.timestamp in TimestampsOf(Dedup(rs)) then Dedup(rs) else Dedup(rs) + [r]
  {
    assert (rs + [r])[..|rs|] == rs;
  }

  lemma TimestampsSnoc(rs: seq<Reading>, r: Reading)
    ensures TimestampsOf(rs + [r]) == TimestampsOf(rs) + {r.timestamp}
  {
  }

  /** No two readings share a timestamp. */
  predicate DistinctTimestamps(rs: seq<Reading>)
  {
    forall i, j :: 0 <= i < j < |rs| ==> rs[i].timestamp != rs[j].timestamp
  }

  /** Reading `i` is the first one in `rs` with its timestamp. */
  predicate IsFirstOccurrence(rs: seq<Reading>, i: nat)
    requires i < |rs|
  {
    forall j :: 0 <= j < i ==> rs[j].timestamp != rs[i].timestamp
  }

  /** Reference definition: the first occurrences among `rs[..n]`, in order. */
  function FirstOccurrences(rs: seq<Reading>, n: nat): seq<Reading>
    requires n <= |rs|
  {
    if n == 0 then []
    else FirstOccurrences(rs, n - 1) + (if IsFirstOccurrence(rs, n - 1) then [rs[n - 1]] else [])
  }

  /** De-duplication keeps every timestamp of its input, and no other. */
  lemma {:induction false} DedupTimestamps(rs: seq<Reading>)
    ensures TimestampsOf(Dedup(rs)) == TimestampsOf(rs)
  {
    if rs != [] {
      var front, last := rs[..|rs| - 1], rs[|rs| - 1];
      assert rs == front + [last];
      DedupTimestamps(front);
      assert TimestampsOf(rs) == TimestampsOf(front) + {last.timestamp};
      var kept := Dedup(front);
      if last.timestamp !in TimestampsOf(kept) {
        assert TimestampsOf(kept + [last]) == TimestampsOf(kept) + {last.timestamp};
      }
    }
  }

  /** De-duplication leaves pairwise-distinct timestamps. */
  lemma {:induction false} DedupDistinct(rs: seq<Reading>)
    ensures DistinctTimestamps(Dedup(rs))
  {
    if rs != [] {
      var front, last := rs[..|rs| - 1], rs[|rs| - 1];
      DedupDistinct(front);
      var kept := Dedup(front);
      if last.timestamp !in TimestampsOf(kept) {
        var out := kept + [last];
        forall i, j | 0 <= i < j < |out| ensures out[i].timestamp != out[j].timestamp {
          if j == |kept| {
            assert out[i] in kept;
          }
        }
      }
    }
  }

  /**
   * De-duplication is exactly "keep the first reading per timestamp, in input
   * order": whenever timestamps collide the earliest reading wins.
   */
  lemma {:induction false} DedupIsFirstOccurrences(rs: seq<Reading>)
    ensures Dedup(rs) == FirstOccurrences(rs, |rs|)
  {
    if rs != [] {
      var n := |rs|;
      var front, last := rs[..n - 1], rs[n - 1];
      DedupIsFirstOccurrences(front);
      FirstOccurrencesPrefix(rs, n - 1, n - 1);
      DedupTimestamps(front);
      assert last.timestamp in TimestampsOf(front) <==> !IsFirstOccurrence(rs, n - 1) by {
        if last.timestamp in TimestampsOf(front) {
          var r :| r in front && r.timestamp == last.timestamp;
          var j :| 0 <= j < n - 1 && front[j] == r;
          assert rs[j].timestamp == rs[n - 1].timestamp;
        }
        if !IsFirstOccurrence(rs, n - 1) {
          var j :| 0 <= j < n - 1 && rs[j].timestamp == rs[n - 1].timestamp;
          assert front[j] in front;
        }
      }
    }
  }

  /** The first occurrences among `rs[..m]` do not depend on what follows position `n >= m`. */
  lemma {:induction false} FirstOccurrencesPrefix(rs: seq<Reading>, n: nat, m: nat)
    requires m <= n <= |rs|
    ensures FirstOccurrences(rs[..n], m) == FirstOccurrences(rs, m)
  {
    if m > 0 {
      FirstOccurrencesPrefix(rs, n, m - 1);
      assert IsFirstOccurrence(rs[..n], m - 1) == IsFirstOccurrence(rs, m - 1);
    }
  }

  /**
   * Index of the latest reading: the first one, in sequence order, whose
   * timestamp is maximal. This is what a stable sort by descending timestamp
   * followed by taking the first element selects.
   */
  function LatestIndex(rs: seq<Reading>): (k: nat)
    requires |rs| > 0
    ensures k < |rs|
    ensures forall j :: 0 <= j < |rs| ==> rs[j].timestamp <= rs[k].timestamp
    ensures forall j :: 0 <= j < k ==> rs[j].timestamp < rs[k].timestamp
  {
    if |rs| == 1 then 0
    else
      var k := LatestIndex(rs[..|rs| - 1]);
      if rs[|rs| - 1].timestamp > rs[k].timestamp then |rs| - 1 else k
  }

  /** The latest reading of a non-empty sequence. */
  function Latest(rs: seq<Reading>): (r: Reading)
    requires |rs| > 0
    ensures r in rs
    ensures forall x :: x in rs ==> x.timestamp <= r.timestamp
  {
    rs[LatestIndex(rs)]
  }

  /** A set that is not empty has a member. */
  lemma NonEmptyHas(s: set<int>)
    requires s != {}
    ensures exists x :: x in s
  {
    if forall x :: x !in s {
      assert false;
    }
  }

  /** A non-empty finite set of instants has a largest element. */
  lemma {:induction false} SetMaxExists(s: set<int>)
    requires s != {}
    ensures exists m :: m in s && forall x :: x in s ==> x <= m
    decreases |s|
  {
    NonEmptyHas(s);
    var x :| x in s;
    var rest := s - {x};
    if rest == {} {
      forall y | y in s
        ensures y <= x
      {
        assert y !in rest;
      }
    } else {
      SetMaxExists(rest);
      var m :| m in rest && forall y :: y in rest ==> y <= m;
      var big := if x > m then x else m;
      forall y | y in s
        ensures y <= big
      {
        if y != x {
          assert y in rest;
        }
      }
      assert big in s;
    }
  }

  /** The elements of a finite set of instants, latest first. */
  function Descending(s: set<int>): (r: seq<int>)
    ensures forall x :: x in r <==> x in s
    ensures forall i, j :: 0 <= i < j < |r| ==> r[i] > r[j]
    decreases |s|
  {
    if s == {} then []
    else
      SetMaxExists(s);
      var m :| m in s && forall x :: x in s ==> x <= m;
      var rest := Descending(s - {m});
      DescendingCons(s, m, rest);
      [m] + rest
  }

  /** Putting the largest element in front of the rest, listed latest first, lists the whole set latest first. */
  lemma DescendingCons(s: set<int>, m: int, rest: seq<int>)
    requires m in s && forall x :: x in s ==> x <= m
    requires forall x :: x in rest <==> x in s - {m}
    requires forall i, j :: 0 <= i < j < |rest| ==> rest[i] > rest[j]
    ensures forall x :: x in [m] + rest <==> x in s
    ensures forall i, j :: 0 <= i < j < |[m] + rest| ==> ([m] + rest)[i] > ([m] + rest)[j]
  {
    var r := [m] + rest;
    forall i, j | 0 <= i < j < |r|
      ensures r[i] > r[j]
    {
      if i == 0 {
        assert r[j] == rest[j - 1];
        assert r[j] in s - {m};
      } else {
        assert r[i] == rest[i - 1] && r[j] == rest[j - 1];
      }
    }
  }

  /** Largest element of a non-empty sequence of timestamps. */
  function MaxOf(xs: seq<int>): (m: int)
    requires |xs| > 0
    ensures exists i :: 0 <= i < |xs| && xs[i] == m
    ensures forall i :: 0 <= i < |xs| ==> xs[i] <= m
  {
    if |xs| == 1 then xs[0]
    else
      var m := MaxOf(xs[..|xs| - 1]);
      if xs[|xs| - 1] > m then xs[|xs| - 1] else m
  }

  function Sum(xs: seq<real>): real
  {
    if xs == [] then 0.0 else Sum(xs[..|xs| - 1]) + xs[|xs| - 1]
  }

  /** `r` is the arithmetic mean of `xs`, or the sentinel `-1` when `xs` is empty. */
  predicate IsMeanOf(r: real, xs: seq<real>)
  {
    (xs == [] ==> r == -1.0) && (xs != [] ==> r * (|xs| as real) == Sum(xs))
  }

  /** Arithmetic mean, or the sentinel `-1` for an empty sequence. */
  function Mean(xs: seq<real>): (r: real)
    ensures IsMeanOf(r, xs)
  {
    if xs == [] then -1.0 else Sum(xs) / (|xs| as real)
  }

  /** The values other than the sentinel `-1`, in order. */
  function WithoutSentinel(xs: seq<real>): (r: seq<real>)
    ensures forall x :: x in r <==> x in xs && x != -1.0
    ensures (forall i :: 0 <= i < |xs| ==> xs[i] == -1.0) ==> r == []
    ensures multiset(r) == multiset(xs)[-1.0 := 0]
  {
    if xs == [] then []
    else
      var rest := WithoutSentinel(xs[..|xs| - 1]);
      assert xs == xs[..|xs| - 1] + [xs[|xs| - 1]];
      if xs[|xs| - 1] == -1.0 then rest else rest + [xs[|xs| - 1]]
  }

  /** A sum of values bounded by `lo` and `hi` lies between `n * lo` and `n * hi`. */
  lemma {:induction false} SumBounds(xs: seq<real>, lo: real, hi: real)
    requires forall i :: 0 <= i < |xs| ==> lo <= xs[i] <= hi
    ensures (|xs| as real) * lo <= Sum(xs) <= (|xs| as real) * hi
  {
    if xs != [] {
      var n := |xs| - 1;
      SumBounds(xs[..n], lo, hi);
      assert (|xs| as real) * lo == (n as real) * lo + lo;
      assert (|xs| as real) * hi == (n as real) * hi + hi;
    }
  }

  /** The mean of a non-empty sequence lies between bounds of its elements. */
  lemma MeanBounds(xs: seq<real>, lo: real, hi: real)
    requires xs != []
    requires forall i :: 0 <= i < |xs| ==> lo <= xs[i] <= hi
    ensures lo <= Mean(xs) <= hi
  {
    SumBounds(xs, lo, hi);
    var n := |xs| as real;
    assert Mean(xs) == Sum(xs) / n;
    assert (n * lo) / n == lo && (n * hi) / n == hi;
    DivMonotone(n * lo, Sum(xs), n);
    DivMonotone(Sum(xs), n * hi, n);
  }

  /** A sum of non-negative values is non-negative. */
  lemma {:induction false} SumNonNegative(xs: seq<real>)
    requires forall i :: 0 <= i < |xs| ==> xs[i] >= 0.0
    ensures Sum(xs) >= 0.0
  {
    if xs != [] {
      SumNonNegative(xs[..|xs| - 1]);
    }
  }

  /** The mean of non-empty non-negative values is non-negative, so never the sentinel. */
  lemma MeanNonNegative(xs: seq<real>)
    requires xs != []
    requires forall i :: 0 <= i < |xs| ==> xs[i] >= 0.0
    ensures Mean(xs) >= 0.0
  {
    SumNonNegative(xs);
    DivMonotone(0.0, Sum(xs), |xs| as real);
  }

  /** The mean of equal values is that value. */
  lemma MeanOfConstant(xs: seq<real>, c: real)
    requires xs != []
    requires forall i :: 0 <= i < |xs| ==> xs[i] == c
    ensures Mean(xs) == c
  {
    MeanBounds(xs, c, c);
  }

  lemma DivMonotone(a: real, b: real, n: real)
    requires a <= b && n > 0.0
    ensures a / n <= b / n
  {
  }
}
