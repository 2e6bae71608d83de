/**
 * What the problem finder sees of the graph: each site, zone and device
 * together with the references a problem names and the value its queries
 * are answered from. A view is taken from the objects when a walk starts;
 * the walk itself then only reads values.
 */
module Views {
  import opened Wrappers
  import opened Types
  import opened Ideals
  import opened DeviceStates
  import opened ZoneStates
  import opened SiteStates
  import opened Graph

  /** A device, its site, its last connection time and its value. */
  datatype DeviceView = DeviceView(device: Device, site: Site?, lastConnection: Option<int>, state: DeviceState)

  /** The values of the listed device views, in order. */
  function StatesOf(ds: seq<DeviceView>): (r: seq<DeviceState>)
    ensures |r| == |ds| && forall i :: 0 <= i < |ds| ==> r[i] == ds[i].state
  {
    seq(|ds|, i requires 0 <= i < |ds| => ds[i].state)
  }

  /** A zone, its site, the views of its devices in list order, and its ideals. */
  datatype ZoneView = ZoneView(zone: Zone, site: Site?, devices: seq<DeviceView>, ideals: map<DataType, Ideal>)
  {
    /** The zone's value, rebuilt from the device views. */
    function State(): (r: ZoneState)
      ensures r.devices == StatesOf(devices) && r.ideals == ideals
    {
      ZoneState(StatesOf(devices), ideals)
    }
  }

  /** The values of the listed zone views, in order. */
  function ZoneStatesOfViews(zs: seq<ZoneView>): (r: seq<ZoneState>)
    ensures |r| == |zs| && forall i :: 0 <= i < |zs| ==> r[i] == zs[i].State()
  {
    seq(|zs|, i requires 0 <= i < |zs| => zs[i].State())
  }

  /** A site, the views of its zones in key order and of its own devices in list order, and its ideals. */
  datatype SiteView = SiteView(site: Site, zones: seq<ZoneView>, devices: seq<DeviceView>, ideals: map<DataType, Ideal>)
  {
    /** The site's value, rebuilt from the zone and device views. */
    function State(): (r: SiteState)
      ensures r.zones == ZoneStatesOfViews(zones) && r.devices == StatesOf(devices) && r.ideals == ideals
    {
      SiteState(ZoneStatesOfViews(zones), StatesOf(devices), ideals)
    }
  }

  /** The view of one device. */
  function DeviceViewOf(d: Device): (r: DeviceView)
    reads d, d.data
    ensures r.device == d && r.site == d.site && r.lastConnection == d.lastConnection && r.state == d.State()
  {
    DeviceView(d, d.site, d.lastConnection, d.State())
  }

  /** The views of the first `n` devices. */
  function DeviceViewsOf(ds: seq<Device>, n: nat): (r: seq<DeviceView>)
    reads ds, DataOf(ds)
    requires n <= |ds|
    ensures |r| == n && forall i :: 0 <= i < n ==> r[i] == DeviceViewOf(ds[i])
  {
    if n == 0 then []
    else
      DataOfCovers(ds, n - 1);
      DeviceViewsOf(ds, n - 1) + [DeviceViewOf(ds[n - 1])]
  }

  /** The states of device views taken from a list are the states of the devices. */
  lemma DeviceViewStates(ds: seq<Device>)
    ensures StatesOf(DeviceViewsOf(ds, |ds|)) == DeviceStatesOf(ds, |ds|)
  {
  }

  /** The view of one zone: it rebuilds the zone's value. */
  function ZoneViewOf(z: Zone): (r: ZoneView)
    reads z, z.devices, DataOf(z.devices)
    ensures r.zone == z && r.site == z.site && r.State() == z.State()
  {
    DeviceViewStates(z.devices);
    ZoneView(z, z.site, DeviceViewsOf(z.devices, |z.devices|), z.ideals)
  }

  /** The views of the first `n` zones. */
  function ZoneViewsOf(zs: seq<Zone>, n: nat): (r: seq<ZoneView>)
    reads zs, DevicesOf(zs), ZoneDataOf(zs)
    requires n <= |zs|
    ensures |r| == n && forall i :: 0 <= i < n ==> r[i] == ZoneViewOf(zs[i])
  {
    if n == 0 then []
    else
      ZoneCovers(zs, n - 1);
      ZoneViewsOf(zs, n - 1) + [ZoneViewOf(zs[n - 1])]
  }

  /** The states of zone views taken from a list are the states of the zones. */
  lemma ZoneViewStates(zs: seq<Zone>)
    ensures ZoneStatesOfViews(ZoneViewsOf(zs, |zs|)) == ZoneStatesOf(zs, |zs|)
  {
  }

  /** The view of one site: zones in key order, then its own devices; it rebuilds the site's value. */
  function SiteViewOf(s: Site): (r: SiteView)
    reads s, s.Zones(), DevicesOf(s.Zones()), ZoneDataOf(s.Zones()), s.devices, DataOf(s.devices)
    ensures r.site == s && |r.zones| == |s.Zones()| && |r.devices| == |s.devices|
    ensures r.State() == s.State()
  {
    ZoneViewStates(s.Zones());
    DeviceViewStates(s.devices);
    SiteView(s, ZoneViewsOf(s.Zones(), |s.Zones()|), DeviceViewsOf(s.devices, |s.devices|), s.ideals)
  }
}
