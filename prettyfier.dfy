/**
 * The display helpers of the web pages: the selected temperature scale, the
 * links to the site, zone and device pages, the target column of a problem
 * row, the map positions of the known devices and their marker icons.
 */
module Prettyfiers {
  import opened Wrappers
  import opened Types
  import opened Statuses
  import opened Graph
  import opened Problems
  import opened DisplayScale

  // ---------------------------------------------------------------- the display scale

  /** The display settings; the selected temperature scale is shared by every page. */
  class Prettyfier {
    var tempType: int

    /** Pages start in degrees Celsius. */
    constructor ()
      ensures tempType == DefaultTempType
    {
      tempType := DefaultTempType;
    }

    /** Selects a display scale; any code is accepted, even one with no scale behind it. */
    method SetTempType(t: int)
      modifies this
      ensures tempType == t
    {
      tempType := t;
    }

    /** The environment a status query sees: the selected scale at the instant `now`. */
    function EnvAt(now: int, sqrt: real -> real): (e: Env)
      reads this
      ensures e.tempType == tempType && e.now == now && e.sqrt == sqrt
    {
      Env(now, tempType, sqrt)
    }

    /** A raw value in display units under the selected scale. */
    function GetReadingValue(raw: real, t: DataType): (r: real)
      reads this
      ensures t != TEMPERATURE ==> r == raw
      ensures t == TEMPERATURE && tempType == TEMP_CELCIUS ==> r + 273.15 == raw
      ensures t == TEMPERATURE && tempType == TEMP_FAHRENHEIT ==> r * 9.0 == (raw + 459.67) * 5.0
      ensures t == TEMPERATURE && tempType == TEMP_FELCIUS ==> (r + 16.0) / 5.0 + 273.15 == raw
      ensures t == TEMPERATURE && tempType !in {TEMP_CELCIUS, TEMP_FAHRENHEIT, TEMP_FELCIUS} ==> r == raw
    {
      ReadingValue(tempType, raw, t)
    }

    /**
     * The unit suffix of a data type under the selected scale, or nothing
     * for a temperature when the selected code has no suffix (the lookup
     * fails there).
     */
    function GetReadingScale(t: DataType): (r: Option<string>)
      reads this
      ensures r.None? <==> t == TEMPERATURE && !(0 <= tempType < |TempChar|)
      ensures r.Some? && t == TEMPERATURE ==> r.value == TempChar[tempType]
      ensures t != TEMPERATURE ==> r.Some? && r.value != [] && r.value !in TempChar
      ensures t == GAS ==> r == Some("ppm")
      ensures t == HUMIDITY ==> r == Some("%")
      ensures t == LUMOSITY ==> r == Some("lux")
      ensures t == MOISTURE ==> r == Some("% vwc")
      ensures t == SOLAR ==> r == Some("W")
    {
      if t == TEMPERATURE && !(0 <= tempType < |TempChar|) then None
      else Some(ReadingScale(tempType, t))
    }
  }

  /** Shown in Celsius, Kelvin or Felsius, a larger raw temperature never reads smaller; so does Fahrenheit. */
  lemma ConvertMonotone(tempType: int, a: real, b: real)
    requires a <= b
    ensures ConvertTemperature(tempType, a) <= ConvertTemperature(tempType, b)
  {
  }

  // ---------------------------------------------------------------- links

  const SITE_PAGE: string := "/site/"
  const ZONE_PAGE: string := "/zone?site="
  const ZONE_PARAM: string := "&zone="
  const DEVICE_PAGE: string := "/device/"

  /** The page of a site. */
  function SiteLink(siteId: string): (r: string)
    ensures |r| == |SITE_PAGE| + |siteId| && r[..|SITE_PAGE|] == SITE_PAGE
  {
    SITE_PAGE + siteId
  }

  /** The page of a zone, which names its site and itself as query parameters. */
  function ZoneLink(siteId: string, zoneId: string): (r: string)
    ensures |r| == |ZONE_PAGE| + |siteId| + |ZONE_PARAM| + |zoneId| && r[..|ZONE_PAGE|] == ZONE_PAGE
  {
    ZONE_PAGE + siteId + ZONE_PARAM + zoneId
  }

  /** The page of a device. */
  function DeviceLink(deviceId: string): (r: string)
    ensures |r| == |DEVICE_PAGE| + |deviceId| && r[..|DEVICE_PAGE|] == DEVICE_PAGE
  {
    DEVICE_PAGE + deviceId
  }

  /** Different sites have different pages, and so do different devices. */
  lemma LinksInjective(s1: string, s2: string, d1: string, d2: string)
    ensures SiteLink(s1) == SiteLink(s2) ==> s1 == s2
    ensures DeviceLink(d1) == DeviceLink(d2) ==> d1 == d2
  {
    assert SiteLink(s1)[|SITE_PAGE|..] == s1 && SiteLink(s2)[|SITE_PAGE|..] == s2;
    assert DeviceLink(d1)[|DEVICE_PAGE|..] == d1 && DeviceLink(d2)[|DEVICE_PAGE|..] == d2;
  }

  /** Site, zone and device pages never coincide: their paths differ in their second character. */
  lemma LinksDistinct(s: string, zs: string, z: string, d: string)
    ensures SiteLink(s) != ZoneLink(zs, z) && ZoneLink(zs, z) != DeviceLink(d) && SiteLink(s) != DeviceLink(d)
  {
    assert SiteLink(s)[1] == 's' && ZoneLink(zs, z)[1] == 'z' && DeviceLink(d)[1] == 'd';
  }

  /** Zone pages of sites whose ids hold no '&' identify their site and zone. */
  lemma ZoneLinkInjective(s1: string, z1: string, s2: string, z2: string)
    requires '&' !in s1 && '&' !in s2 && ZoneLink(s1, z1) == ZoneLink(s2, z2)
    ensures s1 == s2 && z1 == z2
  {
    var l := ZoneLink(s1, z1);
    var p := |ZONE_PAGE|;
    AmpersandAt(s1, z1);
    AmpersandAt(s2, z2);
    assert s1 == l[p..p + |s1|] && s2 == ZoneLink(s2, z2)[p..p + |s2|];
    assert z1 == l[p + |s1| + |ZONE_PARAM|..] && z2 == ZoneLink(s2, z2)[p + |s2| + |ZONE_PARAM|..];
  }

  /** In the page of a zone whose site id holds no '&', the first '&' after the path ends the site id. */
  lemma AmpersandAt(siteId: string, zoneId: string)
    requires '&' !in siteId
    ensures ZoneLink(siteId, zoneId)[|ZONE_PAGE| + |siteId|] == '&'
    ensures forall i :: |ZONE_PAGE| <= i < |ZONE_PAGE| + |siteId| ==> ZoneLink(siteId, zoneId)[i] != '&'
  {
    forall i | |ZONE_PAGE| <= i < |ZONE_PAGE| + |siteId| ensures ZoneLink(siteId, zoneId)[i] != '&' {
      assert ZoneLink(siteId, zoneId)[i] == siteId[i - |ZONE_PAGE|];
    }
  }

  /** Without that condition two different zones can share a page. */
  lemma ZoneLinkCollision()
    ensures ZoneLink("a&zone=b", "c") == ZoneLink("a", "b&zone=c")
  {
  }

  // ---------------------------------------------------------------- problem rows

  /** A problem table row: the kind of target, its name and page, and the problem's message. */
  datatype ProblemRow = ProblemRow(kind: string, name: string, link: string, message: Message)

  /**
   * The row of a problem: it shows the device when one is set, else the
   * zone, else the site. A row needs that target, and a zone target needs
   * its site for the page.
   */
  function GetProblemRow(p: Problem): (r: ProblemRow)
    reads p.zone
    requires p.device != null || p.zone != null || p.site != null
    requires p.device == null && p.zone != null ==> p.zone.site != null
    ensures r.message == p.message
    ensures r.kind == "Device" <==> p.device != null
    ensures r.kind == "Zone" <==> p.device == null && p.zone != null
    ensures r.kind == "Site" <==> p.device == null && p.zone == null
  {
    if p.device != null then
      ProblemRow("Device", p.device.name, DeviceLink(p.device.id), p.message)
    else if p.zone != null then
      ProblemRow("Zone", p.zone.name, ZoneLink(p.zone.site.id, p.zone.id), p.message)
    else
      ProblemRow("Site", p.site.name, SiteLink(p.site.id), p.message)
  }

  /**
   * A problem that names exactly one entity gets a row for that entity: the
   * row's kind agrees with the problem's type code, and its name and page
   * are that entity's.
   */
  lemma ProblemRowNamesTarget(p: Problem)
    requires p.WellScoped()
    requires p.zone != null ==> p.zone.site != null
    ensures GetProblemRow(p).kind == "Device" <==> p.kind == TYPE_DEVICE
    ensures GetProblemRow(p).kind == "Zone" <==> p.kind == TYPE_ZONE
    ensures GetProblemRow(p).kind == "Site" <==> p.kind == TYPE_SITE
    ensures p.kind == TYPE_DEVICE ==> GetProblemRow(p).name == p.device.name && GetProblemRow(p).link == DeviceLink(p.device.id)
    ensures p.kind == TYPE_ZONE ==> GetProblemRow(p).name == p.zone.name && GetProblemRow(p).link == ZoneLink(p.zone.site.id, p.zone.id)
    ensures p.kind == TYPE_SITE ==> GetProblemRow(p).name == p.site.name && GetProblemRow(p).link == SiteLink(p.site.id)
  {
  }

  // ---------------------------------------------------------------- map markers

  /** A known device: its id, the longitude and the latitude of its place on the map. */
  datatype Marker = Marker(deviceId: string, longitude: real, latitude: real)

  /** The devices with a known place, in table order. */
  const MarkerPositions: seq<Marker> := [
    Marker("gh3_seed_temp", 1.1037076, 51.3092622),
    Marker("gh3_east_door_temp", 1.1049897, 51.3095137),
    Marker("gh3_west_door_temp", 1.1029941, 51.3088598),
    Marker("gh1_north_door_temp", 1.102699, 51.3079142),
    Marker("gh1_south_door_temp", 1.1034608, 51.3072972),
    Marker("gh1_co2Production_gas", 1.1027312, 51.3072032),
    Marker("gh3_seed_lux", 1.1035842, 51.3093695),
    Marker("gh3_west_door_lux", 1.1028868, 51.3089571),
    Marker("gh3_east_door_lux", 1.1048717, 51.3096143),
    Marker("gh1_north_door_lux", 1.1028814, 51.3079745),
    Marker("gh1_south_door_lux", 1.1032033, 51.3072569),
    Marker("gh1_plantzone_1_temp", 1.1032059, 51.3076375),
    Marker("gh1_plantzone_1_lux", 1.1029619, 51.3076023),
    Marker("gh3_co2Production_gas", 1.1035788, 51.309896),
    Marker("outside_field_moisture", 1.1061537, 51.3074715),
    Marker("outside_heap_temp", 1.1058989, 51.3078924),
    Marker("outside_field_lux", 1.1058426, 51.3074044),
    Marker("outside_field_temp", 1.1064756, 51.3075386),
    Marker("gh2_co2Production_gas", 1.0991156, 51.3081959),
    Marker("gh2_south_door_temp", 1.100277, 51.3079259),
    Marker("gh2_south_door_lux", 1.100505, 51.3080282),
    Marker("gh2_north_door_temp", 1.0997272, 51.308444),
    Marker("gh2_north_door_lux", 1.0999632, 51.3085513),
    Marker("gh2_plantzone_1_temp", 1.0996333, 51.3080215),
    Marker("gh2_plantzone_1_moisture", 1.0998398, 51.3081036),
    Marker("gh2_plantzone_1_lux", 1.1000517, 51.3081959),
    Marker("gh2_mains_temp", 1.1006767, 51.3086117),
    Marker("gh2_mains_moisture", 1.100843, 51.3084775),
    Marker("gh2_mains_lux", 1.1009985, 51.3083635),
    Marker("gh3_seed_moisture", 1.1038417, 51.3091482),
    Marker("house_store_temp", 1.1066566, 51.3084985),
    Marker("house_store_lux", 1.1068001, 51.3083669),
    Marker("gh1_plantzone_1_moisture", 1.1034286, 51.3076727),
    Marker("gh1_co2Production_temp", 1.102581, 51.3072502)
  ]

  /** The index of the first marker of the device, or nothing when it has none. */
  function FindMarker(ms: seq<Marker>, deviceId: string): (r: Option<nat>)
    ensures r.Some? ==> r.value < |ms| && ms[r.value].deviceId == deviceId
    ensures r.Some? ==> forall j :: 0 <= j < r.value ==> ms[j].deviceId != deviceId
    ensures r.None? <==> forall j :: 0 <= j < |ms| ==> ms[j].deviceId != deviceId
  {
    if ms == [] then None
    else if ms[0].deviceId == deviceId then Some(0)
    else match FindMarker(ms[1..], deviceId)
      case None => None
      case Some(i) => Some(i + 1)
  }

  /**
   * The (latitude, longitude) of a device on a marker table: from its first
   * marker, or (-1, -1) when the table does not know it. Note the order: a
   * marker lists the longitude first.
   */
  function MarkerPos(ms: seq<Marker>, deviceId: string): (r: (real, real))
    ensures (forall j :: 0 <= j < |ms| ==> ms[j].deviceId != deviceId) ==> r == (-1.0, -1.0)
    ensures forall i :: 0 <= i < |ms| && ms[i].deviceId == deviceId && (forall j :: 0 <= j < i ==> ms[j].deviceId != deviceId) ==>
      r == (ms[i].latitude, ms[i].longitude)
  {
    match FindMarker(ms, deviceId)
    case None => (-1.0, -1.0)
    case Some(i) => (ms[i].latitude, ms[i].longitude)
  }

  /** The map position of a device, from the table of known devices. */
  function GetMarkerPos(deviceId: string): (real, real)
  {
    MarkerPos(MarkerPositions, deviceId)
  }

  /** The first device of the table is placed by its own marker, latitude first. */
  lemma FirstMarkerPos()
    ensures GetMarkerPos("gh3_seed_temp") == (51.3092622, 1.1037076)
  {
    assert MarkerPositions[0] == Marker("gh3_seed_temp", 1.1037076, 51.3092622);
  }

  // ---------------------------------------------------------------- marker icons

  /** The marker icon of a device of the given kind: its kind's picture, in the okay or the attention variant. */
  function IconUrl(t: DeviceType, okay: bool): string
  {
    match t
    case DSOLAR => if okay then "/img/elec_okay.png" else "/img/elec_attention.png"
    case DGAS => if okay then "/img/gas_okay.png" else "/img/gas_attention.png"
    case HYDROMETER => if okay then "/img/tap_okay.png" else "/img/tap_attention.png"
    case DLUMOSITY => if okay then "/img/sun_okay.png" else "/img/sun_attention.png"
    case TEMPHUMID => if okay then "/img/thermo_okay.png" else "/img/thermo_attention.png"
  }

  /** Different kinds or different verdicts give different icons. */
  lemma IconUrlInjective(t1: DeviceType, o1: bool, t2: DeviceType, o2: bool)
    requires IconUrl(t1, o1) == IconUrl(t2, o2)
    ensures t1 == t2 && o1 == o2
  {
  }

  /** The marker icon of a device, chosen by whether the device is okay at the instant of `env`. */
  method GetIconUrl(device: Device, env: Env) returns (url: string)
    requires device.State().Populated()
    ensures url == IconUrl(device.deviceType, old(device.State()).IsOkay(env))
  {
    var okay := device.IsOkay(env);
    url := IconUrl(device.deviceType, okay);
  }
}
