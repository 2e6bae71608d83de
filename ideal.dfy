/**
 * An ideal range: the minimum and maximum a reading of one data type should
 * keep to, for one site, zone or device, possibly only by day or night and
 * only in summer or winter.
 */
module Ideals {
  import opened Wrappers
  import opened Types

  /** Scope codes. */
  const TYPE_SITE: int := 0
  const TYPE_ZONE: int := 1
  const TYPE_DEVICE: int := 2
  /** Time and season requirement codes; any other code imposes nothing. */
  const DONT_CARE: int := 0
  const MUST_BE_DAY: int := 1
  const MUST_BE_NIGHT: int := 2
  const MUST_BE_SUMMER: int := 1
  const MUST_BE_WINTER: int := 2

  /**
   * An ideal. Site and device ideals carry an `id`; zone ideals carry a
   * `siteId` and a `zoneId`; the unset ones are `None` (null).
   */
  datatype Ideal = Ideal(
    kind: int,
    id: Option<string>,
    siteId: Option<string>,
    zoneId: Option<string>,
    dataType: DataType,
    min: real,
    max: real,
    requiredTime: int,
    requiredSeason: int)
  {
    /**
     * The guard chain deciding whether this ideal applies now. Its contract
     * is the declarative reading: the time requirement and the season
     * requirement must both be satisfied.
     */
    function RequirementsMatch(isDay: bool, isSummer: bool): (r: bool)
      ensures r == (TimeSatisfied(requiredTime, isDay) && SeasonSatisfied(requiredSeason, isSummer))
    {
      if requiredTime == DONT_CARE && requiredSeason == DONT_CARE then true
      else if requiredTime == MUST_BE_DAY && !isDay then false
      else if requiredTime == MUST_BE_NIGHT && isDay then false
      else if requiredSeason == MUST_BE_SUMMER && !isSummer then false
      else if requiredSeason == MUST_BE_WINTER && isSummer then false
      else true
    }
  }

  /** A time requirement is met: day rules need day, night rules need night, other codes need nothing. */
  predicate TimeSatisfied(requiredTime: int, isDay: bool)
  {
    (requiredTime == MUST_BE_DAY ==> isDay) && (requiredTime == MUST_BE_NIGHT ==> !isDay)
  }

  /** A season requirement is met: summer rules need summer, winter rules need winter, other codes need nothing. */
  predicate SeasonSatisfied(requiredSeason: int, isSummer: bool)
  {
    (requiredSeason == MUST_BE_SUMMER ==> isSummer) && (requiredSeason == MUST_BE_WINTER ==> !isSummer)
  }

  /** The (type, id, ...) constructor with explicit requirements: no site or zone id. */
  function ScopedWhen(kind: int, id: string, dataType: DataType, min: real, max: real,
                      requiredTime: int, requiredSeason: int): (r: Ideal)
    ensures r.kind == kind && r.id == Some(id) && r.siteId.None? && r.zoneId.None?
    ensures r.dataType == dataType && r.min == min && r.max == max
    ensures r.requiredTime == requiredTime && r.requiredSeason == requiredSeason
  {
    Ideal(kind, Some(id), None, None, dataType, min, max, requiredTime, requiredSeason)
  }

  /** The (type, id, ...) constructor without requirements: both default to DONT_CARE. */
  function Scoped(kind: int, id: string, dataType: DataType, min: real, max: real): (r: Ideal)
    ensures r == ScopedWhen(kind, id, dataType, min, max, DONT_CARE, DONT_CARE)
    ensures forall isDay, isSummer :: r.RequirementsMatch(isDay, isSummer)
  {
    Ideal(kind, Some(id), None, None, dataType, min, max, DONT_CARE, DONT_CARE)
  }

  /** The (siteId, zoneId, ...) constructor with explicit requirements: always a zone ideal, no `id`. */
  function ForZoneWhen(siteId: string, zoneId: string, dataType: DataType, min: real, max: real,
                       requiredTime: int, requiredSeason: int): (r: Ideal)
    ensures r.kind == TYPE_ZONE && r.id.None? && r.siteId == Some(siteId) && r.zoneId == Some(zoneId)
    ensures r.dataType == dataType && r.min == min && r.max == max
    ensures r.requiredTime == requiredTime && r.requiredSeason == requiredSeason
  {
    Ideal(TYPE_ZONE, None, Some(siteId), Some(zoneId), dataType, min, max, requiredTime, requiredSeason)
  }

  /** The (siteId, zoneId, ...) constructor without requirements: both default to DONT_CARE. */
  function ForZone(siteId: string, zoneId: string, dataType: DataType, min: real, max: real): (r: Ideal)
    ensures r == ForZoneWhen(siteId, zoneId, dataType, min, max, DONT_CARE, DONT_CARE)
    ensures forall isDay, isSummer :: r.RequirementsMatch(isDay, isSummer)
  {
    Ideal(TYPE_ZONE, None, Some(siteId), Some(zoneId), dataType, min, max, DONT_CARE, DONT_CARE)
  }

  /** The individual guards of the chain: each requirement is refused in the wrong period. */
  lemma RequirementGuards(i: Ideal, isDay: bool, isSummer: bool)
    ensures i.requiredTime == DONT_CARE && i.requiredSeason == DONT_CARE ==> i.RequirementsMatch(isDay, isSummer)
    ensures i.requiredTime == MUST_BE_DAY && !isDay ==> !i.RequirementsMatch(isDay, isSummer)
    ensures i.requiredTime == MUST_BE_NIGHT && isDay ==> !i.RequirementsMatch(isDay, isSummer)
    ensures i.requiredSeason == MUST_BE_SUMMER && !isSummer ==> !i.RequirementsMatch(isDay, isSummer)
    ensures i.requiredSeason == MUST_BE_WINTER && isSummer ==> !i.RequirementsMatch(isDay, isSummer)
    ensures i.requiredTime !in {MUST_BE_DAY, MUST_BE_NIGHT} && i.requiredSeason !in {MUST_BE_SUMMER, MUST_BE_WINTER}
            ==> i.RequirementsMatch(isDay, isSummer)
  {
  }
}
