/**
 * A survey records, for every site, zone and device of a view, whether it
 * has data of each type and its status for each type at one instant. The
 * problem finder's checks only look these up.
 */
module Surveys {
  import opened Wrappers
  import opened Types
  import opened Statuses
  import opened DeviceStates
  import opened ZoneStates
  import opened SiteStates
  import opened Graph
  import opened Views

  /** A device, its site, its last connection time, and its data flags and statuses by type. */
  datatype DeviceSurvey = DeviceSurvey(device: Device, site: Site?, lastConnection: Option<int>,
                                       hasData: PerType<bool>, status: PerType<IdealStatus>)

  /** A zone, its site, its devices' surveys in list order, and its data flags and statuses by type. */
  datatype ZoneSurvey = ZoneSurvey(zone: Zone, site: Site?, devices: seq<DeviceSurvey>,
                                   hasData: PerType<bool>, status: PerType<IdealStatus>)

  /** A site, its zones' surveys in key order, its own devices' surveys in list order, and its data flags and statuses by type. */
  datatype SiteSurvey = SiteSurvey(site: Site, zones: seq<ZoneSurvey>, devices: seq<DeviceSurvey>,
                                   hasData: PerType<bool>, status: PerType<IdealStatus>)

  /** Every type a device is ready for means every series holds a reading. */
  lemma ReadyPopulated(st: DeviceState)
    requires forall t :: st.Ready(t)
    ensures st.Populated()
  {
    forall i | 0 <= i < |st.series| ensures st.series[i].readings != [] {
      assert st.Ready(st.series[i].dataType);
    }
  }

  /** The data flags and statuses of a device value, at the instant of `env`. */
  function DeviceTables(st: DeviceState, env: Env): (r: (PerType<bool>, PerType<IdealStatus>))
    requires forall t :: st.Ready(t)
    ensures forall t :: r.0.Get(t) == st.HasData(t) && r.1.Get(t) == st.Status(t, env)
  {
    ReadyPopulated(st);
    (Tabled(seq(|AllTypes|, i requires 0 <= i < |AllTypes| => st.HasData(AllTypes[i]))),
     Tabled(st.StatusesOf(AllTypes, env)))
  }

  /** The data flags and statuses of a zone value, at the instant of `env`. */
  function ZoneTables(st: ZoneState, env: Env): (r: (PerType<bool>, PerType<IdealStatus>))
    requires forall t :: st.Ready(t)
    ensures forall t :: r.0.Get(t) == st.HasData(t) && r.1.Get(t) == st.Status(t, env)
  {
    (Tabled(seq(|AllTypes|, i requires 0 <= i < |AllTypes| => st.HasData(AllTypes[i]))),
     Tabled(st.StatusesOf(AllTypes, env)))
  }

  /** The data flags and statuses of a site value, at the instant of `env`. */
  function SiteTables(st: SiteState, env: Env): (r: (PerType<bool>, PerType<IdealStatus>))
    requires forall t :: st.Ready(t)
    ensures forall t :: r.0.Get(t) == st.HasData(t) && r.1.Get(t) == st.Status(t, env)
  {
    (Tabled(seq(|AllTypes|, i requires 0 <= i < |AllTypes| => st.HasData(AllTypes[i]))),
     Tabled(st.StatusesOf(AllTypes, env)))
  }

  /** The survey of a device view. */
  function DeviceSurveyOf(v: DeviceView, env: Env): (r: DeviceSurvey)
    requires forall t :: v.state.Ready(t)
    ensures r.device == v.device && r.site == v.site && r.lastConnection == v.lastConnection
    ensures forall t :: r.hasData.Get(t) == v.state.HasData(t) && r.status.Get(t) == v.state.Status(t, env)
  {
    var tables := DeviceTables(v.state, env);
    DeviceSurvey(v.device, v.site, v.lastConnection, tables.0, tables.1)
  }

  /** Every listed device view is ready for every type. */
  predicate DeviceViewsReady(vs: seq<DeviceView>)
  {
    forall i, t :: 0 <= i < |vs| ==> vs[i].state.Ready(t)
  }

  /** The surveys of the listed device views, in order. */
  function DeviceSurveysOf(vs: seq<DeviceView>, env: Env): (r: seq<DeviceSurvey>)
    requires DeviceViewsReady(vs)
    ensures |r| == |vs| && forall i :: 0 <= i < |vs| ==> r[i] == DeviceSurveyOf(vs[i], env)
  {
    seq(|vs|, i requires 0 <= i < |vs| => DeviceSurveyOf(vs[i], env))
  }

  /** A zone view ready for every type has device views that are. */
  lemma ZoneViewReady(v: ZoneView)
    requires forall t :: v.State().Ready(t)
    ensures DeviceViewsReady(v.devices)
  {
    forall i, t | 0 <= i < |v.devices| ensures v.devices[i].state.Ready(t) {
      assert v.State().Ready(t) && v.State().devices[i] == v.devices[i].state;
    }
  }

  /** The survey of a zone view. */
  function ZoneSurveyOf(v: ZoneView, env: Env): (r: ZoneSurvey)
    requires forall t :: v.State().Ready(t)
    ensures r.zone == v.zone && r.site == v.site
    ensures (ZoneViewReady(v); r.devices == DeviceSurveysOf(v.devices, env))
    ensures forall t :: r.hasData.Get(t) == v.State().HasData(t) && r.status.Get(t) == v.State().Status(t, env)
  {
    ZoneViewReady(v);
    var tables := ZoneTables(v.State(), env);
    ZoneSurvey(v.zone, v.site, DeviceSurveysOf(v.devices, env), tables.0, tables.1)
  }

  /** Every listed zone view is ready for every type. */
  predicate ZoneViewsReady(vs: seq<ZoneView>)
  {
    forall i, t :: 0 <= i < |vs| ==> vs[i].State().Ready(t)
  }

  /** The surveys of the listed zone views, in order. */
  function ZoneSurveysOf(vs: seq<ZoneView>, env: Env): (r: seq<ZoneSurvey>)
    requires ZoneViewsReady(vs)
    ensures |r| == |vs| && forall i :: 0 <= i < |vs| ==> r[i] == ZoneSurveyOf(vs[i], env)
  {
    seq(|vs|, i requires 0 <= i < |vs| => ZoneSurveyOf(vs[i], env))
  }

  /** A site view ready for every type has zone and device views that are. */
  lemma SiteViewReady(v: SiteView)
    requires forall t :: v.State().Ready(t)
    ensures ZoneViewsReady(v.zones) && DeviceViewsReady(v.devices)
  {
    forall i, t | 0 <= i < |v.zones| ensures v.zones[i].State().Ready(t) {
      assert v.State().Ready(t) && v.State().zones[i] == v.zones[i].State();
    }
    forall i, t | 0 <= i < |v.devices| ensures v.devices[i].state.Ready(t) {
      assert v.State().Ready(t) && v.State().devices[i] == v.devices[i].state;
    }
  }

  /** The survey of a site view. */
  function SiteSurveyOf(v: SiteView, env: Env): (r: SiteSurvey)
    requires forall t :: v.State().Ready(t)
    ensures r.site == v.site
    ensures (SiteViewReady(v); r.zones == ZoneSurveysOf(v.zones, env) && r.devices == DeviceSurveysOf(v.devices, env))
    ensures forall t :: r.hasData.Get(t) == v.State().HasData(t) && r.status.Get(t) == v.State().Status(t, env)
  {
    SiteViewReady(v);
    var tables := SiteTables(v.State(), env);
    SiteSurvey(v.site, ZoneSurveysOf(v.zones, env), DeviceSurveysOf(v.devices, env), tables.0, tables.1)
  }
}
