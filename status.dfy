/**
 * The status decision shared by devices, zones and sites, and what it reads
 * from its environment: the wall clock, the temperature display scale and
 * `Math.sqrt`.
 */
module Statuses {
  import opened Wrappers
  import opened Types
  import opened Ideals

  /** What the source reads from its environment: the current instant, the display scale and the square root. */
  datatype Env = Env(now: int, tempType: int, sqrt: real -> real)
  {
    /** `Math.sqrt`. */
    function Sqrt(x: real): real
    {
      sqrt(x)
    }
  }

  /** Five minutes, in seconds. */
  const STALE_AFTER: int := 300

  /** A last reading taken before `now` minus five minutes is late (`isBefore`). */
  predicate IsLate(last: int, now: int)
  {
    last < now - STALE_AFTER
  }

  /** A reading taken after `now` minus five minutes is current (`isAfter`). */
  predicate IsCurrent(timestamp: int, now: int)
  {
    timestamp > now - STALE_AFTER
  }

  /**
   * Steps 3 to 7 of the status decision list, shared by devices, zones and
   * sites: an extreme reading, then a missing ideal, then over, under, okay.
   */
  function Judge(current: real, average: real, sd: real, multiplier: real, ideal: Option<Ideal>): (r: IdealStatus)
    ensures r == EXTREME <==> (current > average + multiplier * sd || current < average - multiplier * sd)
    ensures r == UNKNOWN <==> (average - multiplier * sd <= current <= average + multiplier * sd && ideal.None?)
    ensures r == OVER <==> (average - multiplier * sd <= current <= average + multiplier * sd &&
                            ideal.Some? && current > ideal.value.max)
    ensures r == UNDER <==> (average - multiplier * sd <= current <= average + multiplier * sd &&
                             ideal.Some? && current <= ideal.value.max && current < ideal.value.min)
    ensures r == OKAY <==> (average - multiplier * sd <= current <= average + multiplier * sd &&
                            ideal.Some? && ideal.value.min <= current <= ideal.value.max)
    ensures r != DOES_NOT_SERVE && r != LATE
  {
    if current > average + multiplier * sd || current < average - multiplier * sd then EXTREME
    else if ideal.None? then UNKNOWN
    else if current > ideal.value.max then OVER
    else if current < ideal.value.min then UNDER
    else OKAY
  }

  /** The `isOkay` loop: false at the first OVER, UNDER or LATE status, true otherwise. */
  function NoFailure(statuses: seq<IdealStatus>): (r: bool)
    ensures r <==> forall i :: 0 <= i < |statuses| ==> !statuses[i].IsFailing()
  {
    if statuses == [] then true
    else if statuses[0].IsFailing() then false
    else NoFailure(statuses[1..])
  }

  /** The `isOkay` loop itself: walks the statuses in order and stops at the first OVER, UNDER or LATE. */
  method CheckStatuses(statuses: seq<IdealStatus>) returns (r: bool)
    ensures r == NoFailure(statuses)
  {
    var i := 0;
    while i < |statuses|
      invariant 0 <= i <= |statuses|
      invariant forall k :: 0 <= k < i ==> !statuses[k].IsFailing()
    {
      if statuses[i].IsFailing() {
        return false;
      }
      i := i + 1;
    }
    return true;
  }

  /**
   * The data types whose flag is set, in declaration order: the
   * `values()`-stream filtered by `hasData`.
   */
  function Select(flags: seq<bool>): (r: seq<DataType>)
    requires |flags| <= |AllTypes|
    ensures forall t :: t in r <==> Ordinal(t) < |flags| && flags[Ordinal(t)]
    ensures forall i, j :: 0 <= i < j < |r| ==> Ordinal(r[i]) < Ordinal(r[j])
  {
    if flags == [] then []
    else
      var n := |flags| - 1;
      var front := Select(flags[..n]);
      if flags[n] then front + [AllTypes[n]] else front
  }

}
