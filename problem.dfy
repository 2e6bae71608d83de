/**
 * A problem somewhere on the farm: it names exactly one site, zone or
 * device, carries a message, and a type code telling which of the three it
 * names. The message text is abstracted to what it reports.
 */
module Problems {
  import opened Types
  import opened Graph

  /** Type codes. */
  const TYPE_SITE: int := 1
  const TYPE_ZONE: int := 2
  const TYPE_DEVICE: int := 3

  /** The check that raised a reading problem. */
  datatype Level = SiteLevel | ZoneLevel | DeviceLevel

  /**
   * What a message reports: a device that has not connected lately, or a
   * status (OVER, UNDER, EXTREME or LATE) of one data type found by the
   * site, zone or device check.
   */
  datatype Message =
    | Disconnected
    | Reading(level: Level, dataType: DataType, status: IdealStatus)

  /** A problem; the two references that do not apply are null. */
  datatype Problem = Problem(site: Site?, zone: Zone?, device: Device?, message: Message, kind: int)
  {
    /** The problem names exactly one entity, and the type code says which. */
    predicate WellScoped()
    {
      (kind == TYPE_SITE && site != null && zone == null && device == null) ||
      (kind == TYPE_ZONE && site == null && zone != null && device == null) ||
      (kind == TYPE_DEVICE && site == null && zone == null && device != null)
    }
  }

  /** The device constructor: type 3, only the device set. */
  function ForDevice(device: Device?, message: Message): (r: Problem)
    ensures r.kind == TYPE_DEVICE && r.device == device && r.site == null && r.zone == null
    ensures r.message == message
  {
    Problem(null, null, device, message, TYPE_DEVICE)
  }

  /** The zone constructor: type 2, only the zone set. */
  function ForZone(zone: Zone?, message: Message): (r: Problem)
    ensures r.kind == TYPE_ZONE && r.zone == zone && r.site == null && r.device == null
    ensures r.message == message
  {
    Problem(null, zone, null, message, TYPE_ZONE)
  }

  /** The site constructor: type 1, only the site set. */
  function ForSite(site: Site?, message: Message): (r: Problem)
    ensures r.kind == TYPE_SITE && r.site == site && r.zone == null && r.device == null
    ensures r.message == message
  {
    Problem(site, null, null, message, TYPE_SITE)
  }

  /** A problem built from a non-null entity names that entity alone; a null one names nothing. */
  lemma ConstructorsScope(s: Site?, z: Zone?, d: Device?, m: Message)
    ensures ForSite(s, m).WellScoped() <==> s != null
    ensures ForZone(z, m).WellScoped() <==> z != null
    ensures ForDevice(d, m).WellScoped() <==> d != null
  {
  }

  /** The three constructors never agree: their type codes differ. */
  lemma ConstructorsDistinct(s: Site?, z: Zone?, d: Device?, m: Message, n: Message)
    ensures ForSite(s, m) != ForZone(z, n) && ForZone(z, n) != ForDevice(d, m) && ForSite(s, m) != ForDevice(d, n)
  {
  }
}
