/**
 * The domain graph as objects: sites hold zones (by key) and devices, zones
 * hold devices, devices hold one `DeviceData` series per (data type,
 * resolution), and series hold readings. The classes keep the fields the
 * system updates in place; every read-only query is a function of the value
 * `State()` built from those fields (see `DeviceStates`, `ZoneStates`,
 * `SiteStates`). The loops of the system are methods here, each proved to
 * compute the corresponding function of the state.
 */
module Graph {
  import opened Wrappers
  import opened Types
  import opened Readings
  import opened Ideals
  import opened Statuses
  import opened OrderedMaps
  import opened DeviceStates
  import opened ZoneStates
  import opened SiteStates
  import Times

  /** One series of readings of one type at one resolution. */
  class DeviceData {
    const id: string
    const name: string
    const site: Site?
    const zone: Zone?
    const softwareVersion: string
    const dataType: DataType
    const resolution: DataResolution
    const scale: string
    var readings: seq<Reading>

    /** A new series holds no reading. */
    constructor (id: string, name: string, site: Site?, zone: Zone?, softwareVersion: string,
                 dataType: DataType, resolution: DataResolution, scale: string)
      ensures this.id == id && this.name == name && this.site == site && this.zone == zone
      ensures this.softwareVersion == softwareVersion && this.dataType == dataType
      ensures this.resolution == resolution && this.scale == scale
      ensures readings == []
    {
      this.id := id;
      this.name := name;
      this.site := site;
      this.zone := zone;
      this.softwareVersion := softwareVersion;
      this.dataType := dataType;
      this.resolution := resolution;
      this.scale := scale;
      readings := [];
    }

    /** The series as a value. */
    function State(): SeriesState
      reads this
    {
      SeriesState(dataType, resolution, readings)
    }

    /** Appends one reading at the end; the earlier readings, the type and the resolution are unchanged. */
    method AddReading(reading: Reading)
      modifies this
      ensures readings == old(readings) + [reading]
      ensures State() == old(State()).(readings := old(State()).readings + [reading])
    {
      readings := readings + [reading];
    }
  }

  /** The values of the first `n` series. */
  function SeriesStates(ds: seq<DeviceData>, n: nat): (r: seq<SeriesState>)
    reads ds
    requires n <= |ds|
    ensures |r| == n && forall i :: 0 <= i < n ==> r[i] == ds[i].State()
  {
    if n == 0 then [] else SeriesStates(ds, n - 1) + [ds[n - 1].State()]
  }

  /**
   * The inner loop of the merge: each reading of `rs` whose timestamp has not
   * been seen is appended and its timestamp marked as seen.
   */
  method MergeSeries(ghost before: seq<Reading>, results: seq<Reading>, seen: set<int>, rs: seq<Reading>)
    returns (out: seq<Reading>, outSeen: set<int>)
    requires results == Dedup(before) && seen == TimestampsOf(results)
    ensures out == Dedup(before + rs) && outSeen == TimestampsOf(out)
  {
    out, outSeen := results, seen;
    var i := 0;
    assert before + rs[..0] == before;
    while i < |rs|
      invariant 0 <= i <= |rs|
      invariant out == Dedup(before + rs[..i])
      invariant outSeen == TimestampsOf(out)
    {
      assert before + rs[..i + 1] == (before + rs[..i]) + [rs[i]];
      DedupSnoc(before + rs[..i], rs[i]);
      TimestampsSnoc(out, rs[i]);
      if rs[i].timestamp !in outSeen {
        out := out + [rs[i]];
        outSeen := outSeen + {rs[i].timestamp};
      }
      i := i + 1;
    }
    assert rs[..i] == rs;
  }

  /** A device: its series, one per (data type, resolution), and its ideal ranges. */
  class Device {
    const id: string
    const name: string
    const deviceType: DeviceType
    const site: Site?
    const zone: Zone?
    const lastConnection: Option<int>
    const softwareVersion: string
    var data: seq<DeviceData>
    var ideals: map<DataType, Ideal>

    /** A new device has no series and no ideal. */
    constructor (id: string, name: string, deviceType: DeviceType, site: Site?, zone: Zone?,
                 lastConnection: Option<int>, softwareVersion: string)
      ensures this.id == id && this.name == name && this.deviceType == deviceType
      ensures this.site == site && this.zone == zone
      ensures this.lastConnection == lastConnection && this.softwareVersion == softwareVersion
      ensures data == [] && ideals == map[]
    {
      this.id := id;
      this.name := name;
      this.deviceType := deviceType;
      this.site := site;
      this.zone := zone;
      this.lastConnection := lastConnection;
      this.softwareVersion := softwareVersion;
      data := [];
      ideals := map[];
    }

    /** The device as a value: the values of its series, in list order, and its ideals. */
    function State(): DeviceState
      reads this, data
    {
      DeviceState(SeriesStates(data, |data|), ideals)
    }

    /** Appends one series; the ideals are unchanged. */
    method AddData(d: DeviceData)
      modifies this
      ensures data == old(data) + [d] && ideals == old(ideals)
    {
      data := data + [d];
    }

    /** Sets the ideal of one type; the other types keep theirs and the series are unchanged. */
    method SetIdeal(t: DataType, ideal: Ideal)
      modifies this
      ensures ideals == old(ideals)[t := ideal] && data == old(data)
      ensures State().GetIdeal(t) == Some(ideal)
      ensures forall u :: u != t ==> State().GetIdeal(u) == old(State().GetIdeal(u))
    {
      ideals := ideals[t := ideal];
    }

    /** The `hasData` loop: true at the first series of the type. */
    method HasData(t: DataType) returns (r: bool)
      ensures r == State().HasData(t)
    {
      var i := 0;
      while i < |data|
        invariant 0 <= i <= |data|
        invariant forall k :: 0 <= k < i ==> data[k].dataType != t
      {
        if data[i].dataType == t {
          assert State().series[i].dataType == t;
          return true;
        }
        i := i + 1;
      }
      return false;
    }

    /** The first series with the given type and resolution, or null. */
    function GetDeviceData(t: DataType, res: DataResolution): (r: Option<DeviceData>)
      reads this
      ensures r.None? <==> forall k :: 0 <= k < |data| ==> !(data[k].dataType == t && data[k].resolution == res)
      ensures r.Some? ==> (exists k :: 0 <= k < |data| && data[k] == r.value &&
                                     data[k].dataType == t && data[k].resolution == res &&
                                     forall j :: 0 <= j < k ==> !(data[j].dataType == t && data[j].resolution == res))
    {
      SeriesIndexOf(data, t, res, 0)
    }

    /**
     * The merge loop of `getAllReadings`: the series of the type in list
     * order, each in reading order, into a `seen` set of timestamps and a
     * result list.
     */
    method GetAllReadings(t: DataType) returns (results: seq<Reading>)
      ensures results == State().AllReadings(t)
    {
      results := [];
      var seen: set<int> := {};
      var contributors := State().Series(t);
      var j := 0;
      while j < |contributors|
        invariant 0 <= j <= |contributors|
        invariant results == Dedup(Flatten(ReadingsOf(contributors[..j])))
        invariant seen == TimestampsOf(results)
      {
        results, seen := MergeSeries(Flatten(ReadingsOf(contributors[..j])), results, seen, contributors[j].readings);
        FlattenSnoc(contributors, j);
        j := j + 1;
      }
      assert contributors[..j] == contributors;
    }

    /**
     * The `getTimestamps` loop: for each type with data, the merged readings'
     * instants rounded to the nearest minute go into one set, which is then
     * listed latest first.
     */
    method GetTimestamps() returns (results: seq<int>)
      ensures results == State().Timestamps()
    {
      var s := State();
      var types := s.Types();
      var timestamps: set<int> := {};
      var i := 0;
      while i < |types|
        invariant 0 <= i <= |types|
        invariant timestamps == s.RoundedOver(types[..i])
      {
        var readings := GetAllReadings(types[i]);
        s.RoundedOverSnoc(types, i);
        timestamps := timestamps + RoundedTimes(readings);
        i := i + 1;
      }
      assert types[..i] == types;
      results := Descending(timestamps);
    }

    /** The `isOkay` loop over the types in declaration order, on the state the call starts from. */
    method IsOkay(env: Env) returns (r: bool)
      requires State().Populated()
      ensures r == old(State()).IsOkay(env)
    {
      var s := State();
      r := CheckStatuses(s.StatusesOf(AllTypes, env));
    }
  }

  /** The first series of `ds` from position `from` on with the given type and resolution. */
  function SeriesIndexOf(ds: seq<DeviceData>, t: DataType, res: DataResolution, from: nat): (r: Option<DeviceData>)
    requires from <= |ds|
    ensures r.None? <==> forall k :: from <= k < |ds| ==> !(ds[k].dataType == t && ds[k].resolution == res)
    ensures r.Some? ==> (exists k :: from <= k < |ds| && ds[k] == r.value &&
                                   ds[k].dataType == t && ds[k].resolution == res &&
                                   forall j :: from <= j < k ==> !(ds[j].dataType == t && ds[j].resolution == res))
    decreases |ds| - from
  {
    if from == |ds| then None
    else if ds[from].dataType == t && ds[from].resolution == res then Some(ds[from])
    else SeriesIndexOf(ds, t, res, from + 1)
  }

  /** All series held by the given devices. */
  function DataOf(ds: seq<Device>): set<DeviceData>
    reads ds
  {
    set i, j | 0 <= i < |ds| && 0 <= j < |ds[i].data| :: ds[i].data[j]
  }

  /** The series of one device lie in the frame of a list holding it. */
  lemma DataOfCovers(ds: seq<Device>, i: nat)
    requires i < |ds|
    ensures forall x :: x in ds[i].data ==> x in DataOf(ds)
  {
    forall x | x in ds[i].data ensures x in DataOf(ds) {
      var j :| 0 <= j < |ds[i].data| && ds[i].data[j] == x;
    }
  }

  /** The values of the first `n` devices. */
  function DeviceStatesOf(ds: seq<Device>, n: nat): (r: seq<DeviceState>)
    reads ds, DataOf(ds)
    requires n <= |ds|
    ensures |r| == n && forall i :: 0 <= i < n ==> r[i] == ds[i].State()
  {
    if n == 0 then []
    else
      DataOfCovers(ds, n - 1);
      DeviceStatesOf(ds, n - 1) + [ds[n - 1].State()]
  }

  /** All devices held by the given zones. */
  function DevicesOf(zs: seq<Zone>): set<Device>
    reads zs
  {
    set i, j | 0 <= i < |zs| && 0 <= j < |zs[i].devices| :: zs[i].devices[j]
  }

  /** All series held by the devices of the given zones. */
  function ZoneDataOf(zs: seq<Zone>): set<DeviceData>
    reads zs, DevicesOf(zs)
  {
    set d, x | d in DevicesOf(zs) && x in d.data :: x
  }

  /** The devices and series of one zone lie in the frame of a list holding it. */
  lemma ZoneCovers(zs: seq<Zone>, i: nat)
    requires i < |zs|
    ensures forall d :: d in zs[i].devices ==> d in DevicesOf(zs)
    ensures DataOf(zs[i].devices) <= ZoneDataOf(zs)
  {
    forall d | d in zs[i].devices ensures d in DevicesOf(zs) {
      var j :| 0 <= j < |zs[i].devices| && zs[i].devices[j] == d;
    }
    forall x | x in DataOf(zs[i].devices) ensures x in ZoneDataOf(zs) {
      var j, k :| 0 <= j < |zs[i].devices| && 0 <= k < |zs[i].devices[j].data| && x == zs[i].devices[j].data[k];
      assert zs[i].devices[j] in DevicesOf(zs) && x in zs[i].devices[j].data;
    }
  }

  /** The values of the first `n` zones. */
  function ZoneStatesOf(zs: seq<Zone>, n: nat): (r: seq<ZoneState>)
    reads zs, DevicesOf(zs), ZoneDataOf(zs)
    requires n <= |zs|
    ensures |r| == n && forall i :: 0 <= i < n ==> r[i] == zs[i].State()
  {
    if n == 0 then []
    else
      ZoneCovers(zs, n - 1);
      ZoneStatesOf(zs, n - 1) + [zs[n - 1].State()]
  }

  /** A zone: a named group of devices within a site, with its own ideal ranges. */
  class Zone {
    const id: string
    const name: string
    var site: Site?
    var devices: seq<Device>
    var ideals: map<DataType, Ideal>

    /** A new zone belongs to no site yet and has no device and no ideal. */
    constructor (id: string, name: string)
      ensures this.id == id && this.name == name
      ensures site == null && devices == [] && ideals == map[]
    {
      this.id := id;
      this.name := name;
      site := null;
      devices := [];
      ideals := map[];
    }

    /** The zone as a value: the values of its devices, in list order, and its ideals. */
    function State(): ZoneState
      reads this, devices, DataOf(devices)
    {
      ZoneState(DeviceStatesOf(devices, |devices|), ideals)
    }

    /** Sets the owning site; the devices and ideals are unchanged. */
    method SetSite(s: Site?)
      modifies this
      ensures site == s && devices == old(devices) && ideals == old(ideals)
    {
      site := s;
    }

    /** Appends one device; the site and the ideals are unchanged. */
    method AddDevice(d: Device)
      modifies this
      ensures devices == old(devices) + [d] && site == old(site) && ideals == old(ideals)
    {
      devices := devices + [d];
    }

    /** Sets the ideal of one type; the other types keep theirs. */
    method SetIdeal(t: DataType, ideal: Ideal)
      modifies this
      ensures ideals == old(ideals)[t := ideal] && site == old(site) && devices == old(devices)
      ensures State().GetIdeal(t) == Some(ideal)
      ensures forall u :: u != t ==> State().GetIdeal(u) == old(State().GetIdeal(u))
    {
      ideals := ideals[t := ideal];
    }

    /** The `isOkay` loop over the types in declaration order, on the state the call starts from. */
    method IsOkay(env: Env) returns (r: bool)
      requires forall t :: State().Ready(t)
      ensures r == old(State()).IsOkay(env)
    {
      var s := State();
      r := CheckStatuses(s.StatusesOf(AllTypes, env));
    }
  }

  /** A site: a location with its zones, keyed by zone id, its own device list and its ideal ranges. */
  class Site {
    const id: string
    const name: string
    const longitude: real
    const latitude: real
    const altitude: real
    const countryCode: string
    const timezone: string
    var devices: seq<Device>
    var zones: OrderedMap<Zone>
    var ideals: map<DataType, Ideal>

    /** A new site has no device, no zone and no ideal. */
    constructor (id: string, name: string, longitude: real, latitude: real, altitude: real,
                 countryCode: string, timezone: string)
      ensures this.id == id && this.name == name
      ensures this.longitude == longitude && this.latitude == latitude && this.altitude == altitude
      ensures this.countryCode == countryCode && this.timezone == timezone
      ensures devices == [] && zones.keys == [] && ideals == map[]
    {
      this.id := id;
      this.name := name;
      this.longitude := longitude;
      this.latitude := latitude;
      this.altitude := altitude;
      this.countryCode := countryCode;
      this.timezone := timezone;
      devices := [];
      zones := Empty();
      ideals := map[];
    }

    /** The zones in key order (`getZones`): one per key, each the zone stored under its key. */
    function Zones(): (r: seq<Zone>)
      reads this
      ensures |r| == |zones.keys|
      ensures forall i :: 0 <= i < |r| ==> zones.Get(zones.keys[i]) == Some(r[i])
    {
      zones.Values()
    }

    /** The zone stored under a key, or null. */
    function GetZone(key: string): (r: Option<Zone>)
      reads this
      ensures r.Some? <==> key in zones.entries
      ensures r.Some? ==> r.value == zones.entries[key]
    {
      zones.Get(key)
    }

    /** The site as a value: its zones in key order, its own devices in list order, and its ideals. */
    function State(): SiteState
      reads this, Zones(), DevicesOf(Zones()), ZoneDataOf(Zones()), devices, DataOf(devices)
    {
      SiteState(ZoneStatesOf(Zones(), |Zones()|), DeviceStatesOf(devices, |devices|), ideals)
    }

    /** Appends one device to the site's own list. */
    method AddDevice(d: Device)
      modifies this
      ensures devices == old(devices) + [d] && zones == old(zones) && ideals == old(ideals)
    {
      devices := devices + [d];
    }

    /**
     * Stores a zone under a key (`put`): the key then yields that zone, every
     * other key yields what it did before, and a new key goes last in the
     * iteration order.
     */
    method AddZone(key: string, z: Zone)
      modifies this
      ensures zones == old(zones).Put(key, z) && devices == old(devices) && ideals == old(ideals)
      ensures GetZone(key) == Some(z)
      ensures forall k :: k != key ==> GetZone(k) == old(GetZone(k))
    {
      zones := zones.Put(key, z);
    }

    /** Sets the ideal of one type; the other types keep theirs. */
    method SetIdeal(t: DataType, ideal: Ideal)
      modifies this
      ensures ideals == old(ideals)[t := ideal] && devices == old(devices) && zones == old(zones)
    {
      ideals := ideals[t := ideal];
    }

    /** The `isOkay` loop over the types in declaration order, on the state the call starts from. */
    method IsOkay(env: Env) returns (r: bool)
      requires forall t :: State().Ready(t)
      ensures r == old(State()).IsOkay(env)
    {
      var s := State();
      r := CheckStatuses(s.StatusesOf(AllTypes, env));
    }
  }
}
