# Environment telemetry core, modelled in Dafny

This project models the core of a small environment-monitoring web
application. A farm has **sites**; a site has **zones** (keyed by id) and
**devices**; a device holds one **series** (`DeviceData`) per pair of data
type and resolution, and each series holds timestamped **readings**. Raw
temperatures are stored in Kelvin. Each site, zone and device may carry an
**ideal** range per data type, resolved from a fixed rule table by the
**idealator** according to the hour (day is 7 < h < 19) and the month
(summer is 5 < m < 10), falling back from device to zone to site. Each
entity has a **status** per data type, from an ordered list: DOES_NOT_SERVE,
LATE, EXTREME, UNKNOWN, OVER, UNDER, OKAY. The **problem finder** walks the
sites top-down and records problems, suppressing the checks below a failing
one. The **data updater** turns server records into readings (normalising
units and dropping impossible values), builds sites and zones with their
ideals in working maps, and publishes those maps only when a run completes.
A few **display helpers** (temperature display scale, minute rounding,
relative ages, links, problem rows, map markers, icons) complete the core.

Modules, in dependency order:

- `Wrappers`, `Types` (data types, resolutions, statuses, device types),
  `Readings` (readings and the pure sequence helpers: merge, latest, means),
  `DisplayScale`, `Times`, `OrderedMaps` (a map with insertion order, for the
  source's hash maps).
- `Ideals`, `Idealator` (the rule table and the three lookups).
- `Statuses` (the shared tail of the status list and the `isOkay` test).
- `DeviceStates`, `ZoneStates`, `SiteStates`: every read-only query of a
  series, device, zone or site, as functions of an immutable value.
- `Graph`: the classes `DeviceData`, `Device`, `Zone` and `Site`, with their
  fields, their mutators and the source's loops as methods, each proved to
  compute the corresponding function of its `State()` value.
- `Problems`, `Views`, `Surveys`, `ProblemFinders`: problems, the snapshot
  of statuses the finder reads, and the `ProblemFinder` class.
- `DataUpdaters`: reading normalisation, zone keys, site building and the
  `DataUpdater` class with its two generations of maps.
- `Prettyfiers`: the `Prettyfier` class holding the display scale, and the
  pure display helpers.

Representation choices:

- Instants are whole seconds (`int`); `now`, the hour and the month are
  parameters. Readings, ideal bounds and averages are `real`.
- The square root used for standard deviations is a parameter
  (`Env.sqrt`), so nothing about floating point or `Math.sqrt` is assumed.
- The hash maps whose iteration order the code depends on (a site's zones)
  are modelled with a fixed insertion order; any order the runtime picks is
  one of these.
- Paths the source reaches only through a null dereference are excluded by
  preconditions: an empty series asked for its latest reading; a zone row
  without a site; a problem row for a problem that names no entity
  (`Prettyfiers.GetProblemRow` requires one, since `getProblemRow` reads the
  site's name at line 162 of `Prettyfier.java`); a device whose last connection is null, which happens when
  its `last_connection` field does not parse (`parseDateTime` in
  `DataUpdater.java` returns null and `checkDevice` then fails at line 31 of
  `ProblemFinder.java`; `ProblemFinders.Connected` requires a last
  connection of every device); and a site with data of a type whose own
  devices have none, where the LATE step of `Site.getStatus` would compare a
  null time (`SiteState.Ready` requires them). The last holds for sites the
  updater builds, because every device is added both to its zone and to its
  site.
- Four further null dereferences are not excluded by a precondition. They
  cannot arise in a graph built by a completed run, and the model does not
  follow them:
  - A zone whose status is OVER, UNDER, EXTREME or LATE has its site's name
    formatted into the message (lines 100, 113, 118 and 124 of
    `ProblemFinder.java`), which fails for a zone without a site.
    `ProblemFinders.ZoneAverage` and `CheckZoneAverage` accept such a zone and
    record the problem (for EXTREME and LATE against a null site), since a
    problem's message is kept as its level, type and status rather than as
    text. `makeSite` sets the site of every zone it builds
    (`DataUpdater.java`, line 123).
  - A device whose status is EXTREME or LATE is reported against its site
    (lines 41, 70 and 76 of `ProblemFinder.java`); for a device without a
    site that problem names no entity, and showing it fails at line 162 of
    `Prettyfier.java`. `ProblemFinders.DeviceAverage` records it against the
    null site in the same way. Every device of a completed run has a site,
    since `makeDeviceObject` fails for an unknown site id
    (`DataUpdater.java`, line 238).
  - A device whose status is OVER has its zone's name formatted into the
    message (line 53 of `ProblemFinder.java`). `DeviceSurvey` holds no zone.
    `makeDevice` adds every device to its zone (`DataUpdater.java`, line
    268), which fails for an unknown zone, so every device of a completed run
    has one.
  - A reading whose time does not parse is kept with a null timestamp
    (`DataUpdater.java`, lines 185-191), and a later comparison of times
    fails on it (for instance line 134 of `Device.java`). A `Sample` carries
    an integer instant, so every reading in the model has a time.
- Error paths the source handles (null results, missing fields, unknown
  keys, an exception during a run) are modelled as `Option` results or flags.

Where the code and its documentation disagree, the model follows the code:

- The Fahrenheit intake multiplies by the integer quotient `5/9`, which is
  0, so every Fahrenheit reading is stored as 0 K and never dropped
  (`DataUpdaters.FahrenheitCollapses`).
- An unknown intake scale is read as "Felsius" with ((v + 16) * 5) / 7 +
  273.15, which the Felsius display formula ((k - 273.15) * 5) - 16 does not
  invert: only -16 comes back unchanged
  (`DataUpdaters.FelsiusRoundTripOnlyAt`).
- The Fahrenheit display applies the Fahrenheit-to-Kelvin formula
  (k + 459.67) * 5/9 to the stored Kelvin value.
- A device's "raw" standard deviation is -1 when its display-scale average
  is -1 (source line 270 of `Device.java`), not its raw average; the same
  holds for a site.
- A site's time of last reading is taken over the site's own devices, not
  over its zones.
- The problem finder records EXTREME and LATE from zone and device checks
  against the site, not the zone or device.

## Model

| member | source | states |
|---|---|---|
| Types.Ordinal | src/main/java/uk/co/johngabriel/co657a3/model/json/DataType.java:7-13 | Every data type has a position in the declaration order GAS, MOISTURE, LUMOSITY, TEMPERATURE, HUMIDITY, SOLAR, and the type at that position is itself. |
| Types.AllTypesEnumerates | src/main/java/uk/co/johngabriel/co657a3/model/json/DataType.java:7-13 | The declaration order lists each of the six types exactly once, at its own position; every `values()` loop walks this list. |
| Types.LabelsDistinct | src/main/java/uk/co/johngabriel/co657a3/model/json/DataType.java:8-13 | The labels gas, moisture, light, temperature, humidity and solar are pairwise distinct: equal labels mean equal types. |
| Types.ValueNameShape | src/main/java/uk/co/johngabriel/co657a3/model/json/DataType.java:8-13 | The value field is "gas_values" exactly for GAS; every other type uses its label followed by "_value". |
| Types.ScaleNameShape | src/main/java/uk/co/johngabriel/co657a3/model/json/DataType.java:8-13 | The scale field is "temp_scale" for TEMPERATURE and the label followed by "_scale" otherwise. |
| Readings.Reading.Value | src/main/java/uk/co/johngabriel/co657a3/model/json/Reading.java:24 | The display value of a reading is its raw value for every type but TEMPERATURE, and the temperature conversion under the current display scale for TEMPERATURE. |
| Readings.FlattenTimestamps | src/main/java/uk/co/johngabriel/co657a3/model/json/Device.java:197-206 | Every timestamp of any series occurs in the concatenation of the series. |
| Readings.FlattenFrom | src/main/java/uk/co/johngabriel/co657a3/model/json/Device.java:197-206 | Every reading of the concatenation is a reading of one of the series. |
| Readings.DedupSnoc | src/main/java/uk/co/johngabriel/co657a3/model/json/Device.java:199-204 | One more reading in the merge is kept exactly when its timestamp has not been seen yet. |
| Readings.DedupTimestamps | src/main/java/uk/co/johngabriel/co657a3/model/json/Device.java:190-208 | De-duplication keeps every timestamp of its input and invents none. |
| Readings.DedupDistinct | src/main/java/uk/co/johngabriel/co657a3/model/json/Device.java:190-208 | The de-duplicated readings have pairwise distinct timestamps. |
| Readings.DedupIsFirstOccurrences | src/main/java/uk/co/johngabriel/co657a3/model/json/Device.java:197-206 | De-duplication equals the independent definition "the readings that are the first with their timestamp, in input order", so the first reading seen wins and the result is a subsequence of the input. |
| Readings.LatestIndex | src/main/java/uk/co/johngabriel/co657a3/model/json/DeviceData.java:48-53 | The chosen index holds a latest timestamp, and every earlier reading is strictly earlier, so of tied readings the earliest inserted is chosen (stable sort, then `findFirst`). |
| Readings.Latest | src/main/java/uk/co/johngabriel/co657a3/model/json/DeviceData.java:48-53 | The latest reading of a non-empty list is one of its members and no member is later. |
| Readings.SetMaxExists | src/main/java/uk/co/johngabriel/co657a3/model/json/Device.java:103-104 | A non-empty set of instants has a largest member, which is what sorting it latest first starts from. |
| Readings.Descending | src/main/java/uk/co/johngabriel/co657a3/model/json/Device.java:101-104 | Listing a set of instants latest first gives exactly its members, in strictly decreasing order (so with no repeats). |
| Readings.MaxOf | src/main/java/uk/co/johngabriel/co657a3/model/json/Zone.java:231-238 | The maximum of a non-empty list of times is one of them and bounds them all. |
| Readings.Mean | src/main/java/uk/co/johngabriel/co657a3/model/json/Zone.java:198-204 | An empty average is the sentinel -1; otherwise the result is the arithmetic mean: times the count it is the sum (`IsMeanOf`). |
| Readings.WithoutSentinel | src/main/java/uk/co/johngabriel/co657a3/model/json/Site.java:108-115 | Filtering out the sentinel -1 keeps exactly the other values, and nothing when all values are -1. |
| Readings.MeanBounds | src/main/java/uk/co/johngabriel/co657a3/model/json/Zone.java:198-204 | The mean of a non-empty list lies within any bounds of its elements. |
| Readings.MeanNonNegative | src/main/java/uk/co/johngabriel/co657a3/model/json/Device.java:269-280 | The mean of non-empty non-negative values is non-negative, so it is never the sentinel -1. |
| Readings.MeanOfConstant | src/main/java/uk/co/johngabriel/co657a3/model/json/Zone.java:198-204 | The mean of equal values is that value. |
| Ideals.RequirementsMatch | src/main/java/uk/co/johngabriel/co657a3/model/Ideal.java:82-89 | A rule applies exactly when its time requirement and its season requirement are both satisfied; codes other than 1 and 2 impose nothing. |
| Ideals.RequirementGuards | src/main/java/uk/co/johngabriel/co657a3/model/Ideal.java:82-89 | DONT_CARE for both always matches; MUST_BE_DAY fails at night, MUST_BE_NIGHT by day, MUST_BE_SUMMER in winter, MUST_BE_WINTER in summer; unknown codes never exclude. |
| Ideals.ScopedWhen | src/main/java/uk/co/johngabriel/co657a3/model/Ideal.java:51-59 | The (type, id, ...) constructor with requirements stores its arguments and leaves the site and zone ids unset. |
| Ideals.Scoped | src/main/java/uk/co/johngabriel/co657a3/model/Ideal.java:30-38 | The five-argument (type, id, ...) constructor defaults both requirements to DONT_CARE, so the rule matches at every hour and month. |
| Ideals.ForZoneWhen | src/main/java/uk/co/johngabriel/co657a3/model/Ideal.java:61-70 | The (siteId, zoneId, ...) constructor with requirements always gives kind TYPE_ZONE, stores the ids and bounds, and leaves `id` unset. |
| Ideals.ForZone | src/main/java/uk/co/johngabriel/co657a3/model/Ideal.java:40-49 | The five-argument zone constructor defaults both requirements to DONT_CARE, so the rule matches always. |
| Idealator.FirstFrom | src/main/java/uk/co/johngabriel/co657a3/things/Idealator.java:68-75 | The table search returns the first rule from a position on that fits the query and the day and season, or nothing when none fits. |
| Idealator.GetSiteIdeal | src/main/java/uk/co/johngabriel/co657a3/things/Idealator.java:68-75 | The site ideal is the first TYPE_SITE rule for that site id and type whose requirements match the hour and month, or null when there is none. |
| Idealator.GetZoneIdeal | src/main/java/uk/co/johngabriel/co657a3/things/Idealator.java:80-92 | When no TYPE_ZONE rule fits the (site, zone, type) now, the zone ideal is the site ideal; otherwise it is the first rule of the table that fits (`findFirst`). |
| Idealator.GetDeviceIdeal | src/main/java/uk/co/johngabriel/co657a3/things/Idealator.java:97-108 | When no TYPE_DEVICE rule fits the (device, type) now, the device ideal is the zone ideal; otherwise it is the first rule of the table that fits. |
| Idealator.DeviceIdealIsZoneIdeal | src/main/java/uk/co/johngabriel/co657a3/things/Idealator.java:23-47 | The shipped table has no device rules, so a device ideal always equals its zone ideal. |
| Idealator.Gh1TemperatureInSummer | src/main/java/uk/co/johngabriel/co657a3/things/Idealator.java:26 | In summer, gh1 temperature resolves to the rule at line 26. |
| Idealator.Gh1TemperatureOnWinterDay | src/main/java/uk/co/johngabriel/co657a3/things/Idealator.java:27 | On a winter day, gh1 temperature resolves to the rule at line 27. |
| Idealator.Gh1TemperatureOnWinterNight | src/main/java/uk/co/johngabriel/co657a3/things/Idealator.java:28 | On a winter night, gh1 temperature resolves to the rule at line 28. |
| Idealator.SkipUnfitting | src/main/java/uk/co/johngabriel/co657a3/things/Idealator.java:70-74 | A run of rules that do not fit can be skipped without changing the first match. |
| Idealator.SiteRulesFirst | src/main/java/uk/co/johngabriel/co657a3/things/Idealator.java:23-47 | The table holds 17 site rules followed only by zone rules. |
| Idealator.ZoneSearchSkipsSiteRules | src/main/java/uk/co/johngabriel/co657a3/things/Idealator.java:80-92 | A zone search finds the same first match whether or not it starts past the site rules. |
| Idealator.HouseStoreLightByDay | src/main/java/uk/co/johngabriel/co657a3/things/Idealator.java:42 | By day the house/store light ideal is the rule at line 42. |
| Idealator.HouseStoreLightAtNight | src/main/java/uk/co/johngabriel/co657a3/things/Idealator.java:43 | At night the house/store light ideal is the rule at line 43. |
| Idealator.HouseStoreLightLimits | src/main/java/uk/co/johngabriel/co657a3/things/Idealator.java:42-43 | Those two rules allow 0 to 195 lux by day and 0 to 5 lux at night. |
| Idealator.Gh2ZonesUseSiteIdeal | src/main/java/uk/co/johngabriel/co657a3/things/Idealator.java:31-35 | Every gh2 zone, for every type, falls back to the gh2 site ideal. |
| DisplayScale.ConvertTemperature | src/main/java/uk/co/johngabriel/co657a3/things/Prettyfier.java:84-92 | Celsius display is Kelvin minus 273.15, Fahrenheit display satisfies r * 9 = (k + 459.67) * 5, Felsius inverts to (r + 16) / 5 + 273.15, and Kelvin or any other code shows the raw value. |
| DisplayScale.ReadingValue | src/main/java/uk/co/johngabriel/co657a3/things/Prettyfier.java:108-113 | Only TEMPERATURE values are converted; every other type is shown as-is. |
| DisplayScale.ReadingScale | src/main/java/uk/co/johngabriel/co657a3/things/Prettyfier.java:115-125 | The temperature unit is the display scale's entry of the unit table; gas is "ppm", humidity "%", light "lux", moisture "% vwc" and solar "W". |
| Times.ToNearestMinute | src/main/java/uk/co/johngabriel/co657a3/things/Prettyfier.java:69-74 | The rounded instant is a whole minute within [t - 30, t + 30). |
| Times.ToNearestMinuteIdempotent | src/main/java/uk/co/johngabriel/co657a3/things/Prettyfier.java:69-74 | Rounding an already rounded instant changes nothing. |
| Times.ToNearestMinuteUnique | src/main/java/uk/co/johngabriel/co657a3/things/Prettyfier.java:69-74 | Any whole minute in [t - 30, t + 30) is the rounded instant, so second 30 rounds down and second 31 up. |
| Times.TimeSince | src/main/java/uk/co/johngabriel/co657a3/things/Prettyfier.java:46-54 | Under a minute gives seconds; under an hour, the whole minutes elapsed; under a day, the whole hours elapsed; otherwise the date; each bucket exactly on its range. |
| Times.DateToSillyDate | src/main/java/uk/co/johngabriel/co657a3/things/Prettyfier.java:496-505 | The six fields come out in order, with the month made zero-based and the other five unchanged. |
| Times.SillyDateToDate | src/main/java/uk/co/johngabriel/co657a3/things/Prettyfier.java:496-505 | Every six-field array is the zero-based form of some date-time. |
| Times.SillyDateRoundTrip | src/main/java/uk/co/johngabriel/co657a3/things/Prettyfier.java:496-505 | Going to the zero-based form and back gives the original date-time. |
| OrderedMaps.Entries.Get | src/main/java/uk/co/johngabriel/co657a3/model/json/Site.java:57 | A lookup finds a value exactly for a stored key, and that key's value. |
| OrderedMaps.Entries.Put | src/main/java/uk/co/johngabriel/co657a3/model/json/Site.java:61 | Putting a key updates its entry; a new key is appended to the iteration order, an existing one keeps its place. |
| OrderedMaps.Entries.Values | src/main/java/uk/co/johngabriel/co657a3/model/json/Site.java:56 | The values are listed one per key, in the iteration order. |
| OrderedMaps.GetAfterPut | src/main/java/uk/co/johngabriel/co657a3/model/json/Site.java:57-61 | After `put(k, v)`, `get(k)` is v and every other key keeps its value. |
| Statuses.Judge | src/main/java/uk/co/johngabriel/co657a3/model/json/Device.java:325-334 | Steps 3 to 7 of the status list: EXTREME outside average plus or minus multiplier times SD; else UNKNOWN without an ideal; else OVER above the maximum; else UNDER below the minimum; else OKAY; never DOES_NOT_SERVE or LATE. |
| Statuses.NoFailure | src/main/java/uk/co/johngabriel/co657a3/model/json/Device.java:340-347 | A list of statuses is okay exactly when none of them is OVER, UNDER or LATE. |
| Statuses.CheckStatuses | src/main/java/uk/co/johngabriel/co657a3/model/json/Device.java:340-347 | The `isOkay` loop returns false at the first OVER, UNDER or LATE and true otherwise. |
| Statuses.Select | src/main/java/uk/co/johngabriel/co657a3/model/json/Device.java:72-76 | Filtering the declaration order keeps exactly the types whose flag is set, in declaration order. |
| DeviceStates.SeriesState.LatestReading | src/main/java/uk/co/johngabriel/co657a3/model/json/DeviceData.java:48-53 | Null exactly for an empty series; otherwise a reading no other reading is later than, the earliest inserted among ties. |
| DeviceStates.OfType | src/main/java/uk/co/johngabriel/co657a3/model/json/Device.java:194-196 | The series of a type are exactly the series of the list with that type. |
| DeviceStates.FindSeries | src/main/java/uk/co/johngabriel/co657a3/model/json/Device.java:81-87 | The first series with the given type and resolution, or none. |
| DeviceStates.FirstWithin | src/main/java/uk/co/johngabriel/co657a3/model/json/Device.java:170-175 | The first reading strictly inside (time - margin, time + margin), or none. |
| DeviceStates.SquaredDeviations | src/main/java/uk/co/johngabriel/co657a3/model/json/Device.java:269-280 | One squared distance from the centre per reading, each non-negative. |
| DeviceStates.LatestAcrossBound | src/main/java/uk/co/johngabriel/co657a3/model/json/Device.java:130-137 | The latest reading across series is at least as late as every reading of every series. |
| DeviceStates.LatestAcrossFirst | src/main/java/uk/co/johngabriel/co657a3/model/json/Device.java:130-137 | It is the latest reading of the first series whose latest reading is that late. |
| DeviceStates.LatestTimeIsLatest | src/main/java/uk/co/johngabriel/co657a3/model/json/Device.java:303-310 | The largest latest-reading time is the timestamp of the latest reading. |
| DeviceStates.DeviceState.GetIdeal | src/main/java/uk/co/johngabriel/co657a3/model/json/Device.java:54 | The ideal of a type is present exactly when one was set for it. |
| DeviceStates.DeviceState.Series | src/main/java/uk/co/johngabriel/co657a3/model/json/Device.java:194-196 | The series of a type are those of the device with that type, and there are none exactly when the device has no data of it. |
| DeviceStates.DeviceState.Types | src/main/java/uk/co/johngabriel/co657a3/model/json/Device.java:72-76 | The types listed are exactly those with data, in declaration order. |
| DeviceStates.DeviceState.AllReadingsDistinct | src/main/java/uk/co/johngabriel/co657a3/model/json/Device.java:190-208 | The merged readings of a type have pairwise distinct timestamps. |
| DeviceStates.DeviceState.AllReadingsFirstSeen | src/main/java/uk/co/johngabriel/co657a3/model/json/Device.java:197-206 | The merge keeps exactly the first reading of each timestamp in (series order, reading order). |
| DeviceStates.DeviceState.AllReadingsCover | src/main/java/uk/co/johngabriel/co657a3/model/json/Device.java:190-208 | Every timestamp of every series of the type survives the merge, and the merge has no other timestamp. |
| DeviceStates.DeviceState.AllReadingsFrom | src/main/java/uk/co/johngabriel/co657a3/model/json/Device.java:190-208 | Every merged timestamp is that of a reading of some series. |
| DeviceStates.DeviceState.RoundedOverHas | src/main/java/uk/co/johngabriel/co657a3/model/json/Device.java:93-100 | The rounded instants of each listed type are in the gathered set. |
| DeviceStates.DeviceState.RoundedOverFrom | src/main/java/uk/co/johngabriel/co657a3/model/json/Device.java:93-100 | Every gathered instant comes from one listed type. |
| DeviceStates.DeviceState.Timestamps | src/main/java/uk/co/johngabriel/co657a3/model/json/Device.java:92-106 | The device's timestamps are listed latest first, strictly decreasing, so without repeats. |
| DeviceStates.DeviceState.TimestampsCover | src/main/java/uk/co/johngabriel/co657a3/model/json/Device.java:92-106 | The minute-rounded instant of every reading of every series is listed. |
| DeviceStates.DeviceState.TimestampsFrom | src/main/java/uk/co/johngabriel/co657a3/model/json/Device.java:92-106 | Every listed instant is the minute-rounded instant of some reading. |
| DeviceStates.DeviceState.LatestReading | src/main/java/uk/co/johngabriel/co657a3/model/json/Device.java:130-137 | Null exactly when the device has no data of the type. |
| DeviceStates.DeviceState.LatestReadingIsLatest | src/main/java/uk/co/johngabriel/co657a3/model/json/Device.java:130-137 | The latest reading is at least as late as every reading of the type, and is the latest reading of the first series that reaches that time. |
| DeviceStates.DeviceState.TimeOfLastReading | src/main/java/uk/co/johngabriel/co657a3/model/json/Device.java:303-310 | Null exactly when the device has no data of the type. |
| DeviceStates.DeviceState.TimeOfLastIsLatest | src/main/java/uk/co/johngabriel/co657a3/model/json/Device.java:303-310 | The time of the last reading is the timestamp of the latest reading. |
| DeviceStates.DeviceState.TimeOfLastIsMax | src/main/java/uk/co/johngabriel/co657a3/model/json/Device.java:303-310 | It bounds every reading of the type and is the latest time of some series of it. |
| DeviceStates.DeviceState.ReadingClosestToDateTime | src/main/java/uk/co/johngabriel/co657a3/model/json/Device.java:170-175 | In the first series of that type and resolution: null exactly when no reading lies strictly inside the resolution's margin around the time, otherwise the first that does. |
| DeviceStates.DeviceState.AverageReading | src/main/java/uk/co/johngabriel/co657a3/model/json/Device.java:213-218 | The display average is the arithmetic mean of the display values of the merged readings, and the sentinel -1 when there are none. |
| DeviceStates.DeviceState.RawAverageReading | src/main/java/uk/co/johngabriel/co657a3/model/json/Device.java:223-228 | The raw average is the arithmetic mean of the raw values of the merged readings, and the sentinel -1 when there are none. |
| DeviceStates.DeviceState.RawAverageBounds | src/main/java/uk/co/johngabriel/co657a3/model/json/Device.java:223-228 | Otherwise it lies within any bounds of the merged raw readings. |
| DeviceStates.DeviceState.RawVariance | src/main/java/uk/co/johngabriel/co657a3/model/json/Device.java:269-280 | The variance is the mean of the squared distances of the raw readings from the centre: -1 exactly when there are no readings, and non-negative otherwise. |
| DeviceStates.DeviceState.StandardDeviationRaw | src/main/java/uk/co/johngabriel/co657a3/model/json/Device.java:269-280 | The raw SD is -1 whenever the display-scale average is -1 (the source tests the display average at line 270), and otherwise the square root of the raw variance around that display average. |
| DeviceStates.DeviceState.DeviationSentinel | src/main/java/uk/co/johngabriel/co657a3/model/json/Device.java:269-280 | For a square root that keeps non-negative values non-negative, the raw SD is -1 exactly when the display average is. |
| DeviceStates.DeviceState.Status | src/main/java/uk/co/johngabriel/co657a3/model/json/Device.java:315-335 | DOES_NOT_SERVE exactly without data; LATE exactly when the last reading is more than 300 s old; otherwise the judgement of the latest raw reading against the raw average, raw SD, multiplier and ideal. |
| DeviceStates.DeviceState.StatusesOf | src/main/java/uk/co/johngabriel/co657a3/model/json/Device.java:341-342 | One status per listed type, in order. |
| DeviceStates.DeviceState.IsOkay | src/main/java/uk/co/johngabriel/co657a3/model/json/Device.java:340-347 | A device is okay exactly when no type's status is OVER, UNDER or LATE. |
| ZoneStates.WithData | src/main/java/uk/co/johngabriel/co657a3/model/json/Zone.java:106-114 | The devices kept are exactly those with data of the type. |
| ZoneStates.CurrentOnes | src/main/java/uk/co/johngabriel/co657a3/model/json/Zone.java:106-114 | The readings kept are exactly those taken after now - 300 s. |
| ZoneStates.CurrentMeanBounds | src/main/java/uk/co/johngabriel/co657a3/model/json/Zone.java:106-114 | The mean of the current readings lies within any bounds of them. |
| ZoneStates.BoundedByLatest | src/main/java/uk/co/johngabriel/co657a3/model/json/Zone.java:231-238 | Every device's last time is at most the maximum. |
| ZoneStates.LatestDevice | src/main/java/uk/co/johngabriel/co657a3/model/json/Zone.java:231-238 | Some device reaches the maximum. |
| ZoneStates.ZoneState.GetIdeal | src/main/java/uk/co/johngabriel/co657a3/model/json/Zone.java:40 | The ideal of a type is present exactly when one was set for it. |
| ZoneStates.ZoneState.Types | src/main/java/uk/co/johngabriel/co657a3/model/json/Zone.java:57-61 | The types listed are exactly those some device has data of, in declaration order. |
| ZoneStates.ZoneState.Active | src/main/java/uk/co/johngabriel/co657a3/model/json/Zone.java:49-52 | The devices with data of the type, empty exactly when the zone has no data of it. |
| ZoneStates.ZoneState.CurrentReadingRaw | src/main/java/uk/co/johngabriel/co657a3/model/json/Zone.java:106-114 | The current reading is the mean of the raw latest readings of the devices with data whose latest reading is under five minutes old, and -1 when there is none (so also when no device has data). |
| ZoneStates.ZoneState.CurrentNone | src/main/java/uk/co/johngabriel/co657a3/model/json/Zone.java:106-114 | It is -1 also when no device's latest reading is recent. |
| ZoneStates.ZoneState.CurrentBounds | src/main/java/uk/co/johngabriel/co657a3/model/json/Zone.java:106-114 | Otherwise it lies within any bounds of the recent latest raw readings. |
| ZoneStates.ZoneState.AverageReadingRaw | src/main/java/uk/co/johngabriel/co657a3/model/json/Zone.java:198-204 | The raw average is the mean of the raw averages of the devices with data of the type, and -1 when no device has data. |
| ZoneStates.ZoneState.AverageRawBounds | src/main/java/uk/co/johngabriel/co657a3/model/json/Zone.java:198-204 | Otherwise it lies within any bounds of the devices' raw averages. |
| ZoneStates.ZoneState.AverageReading | src/main/java/uk/co/johngabriel/co657a3/model/json/Zone.java:187-193 | The display average is the mean of the display averages of the devices with data of the type, and -1 when no device has data. |
| ZoneStates.ZoneState.RawStandardDeviation | src/main/java/uk/co/johngabriel/co657a3/model/json/Zone.java:220-226 | The raw SD is the mean of the raw SDs of the devices with data of the type, and -1 when no device has data. |
| ZoneStates.ZoneState.TimeOfLastReading | src/main/java/uk/co/johngabriel/co657a3/model/json/Zone.java:231-238 | Null exactly when no device has data of the type. |
| ZoneStates.ZoneState.TimeOfLastIsMax | src/main/java/uk/co/johngabriel/co657a3/model/json/Zone.java:231-238 | Otherwise it is at least every device's last time and equal to one of them. |
| ZoneStates.ZoneState.Status | src/main/java/uk/co/johngabriel/co657a3/model/json/Zone.java:243-263 | The same seven-step order as a device, on the zone's current reading, raw average and raw SD. |
| ZoneStates.ZoneState.StatusesOf | src/main/java/uk/co/johngabriel/co657a3/model/json/Zone.java:269-270 | One status per listed type, in order. |
| ZoneStates.ZoneState.IsOkay | src/main/java/uk/co/johngabriel/co657a3/model/json/Zone.java:268-275 | A zone is okay exactly when no type's status is OVER, UNDER or LATE. |
| SiteStates.ZonesWithData | src/main/java/uk/co/johngabriel/co657a3/model/json/Site.java:108-115 | The zones kept are exactly those with data of the type. |
| SiteStates.SentinelFreeBounds | src/main/java/uk/co/johngabriel/co657a3/model/json/Site.java:108-115 | The mean of the non-sentinel values lies within any bounds of them. |
| SiteStates.ZoneAveragesBounds | src/main/java/uk/co/johngabriel/co657a3/model/json/Site.java:108-115 | The mean of the zones' non-sentinel raw averages lies within their bounds. |
| SiteStates.ZoneAveragesNone | src/main/java/uk/co/johngabriel/co657a3/model/json/Site.java:108-115 | When every zone average is -1, so is their filtered mean. |
| SiteStates.ZoneCurrentsBounds | src/main/java/uk/co/johngabriel/co657a3/model/json/Site.java:132-139 | The mean of the zones' non-sentinel current readings lies within their bounds. |
| SiteStates.SiteState.GetIdeal | src/main/java/uk/co/johngabriel/co657a3/model/json/Site.java:58 | The ideal of a type is present exactly when one was set for it. |
| SiteStates.SiteState.Types | src/main/java/uk/co/johngabriel/co657a3/model/json/Site.java:75-79 | The types listed are exactly those some zone has data of, in declaration order. |
| SiteStates.SiteState.ActiveZones | src/main/java/uk/co/johngabriel/co657a3/model/json/Site.java:67-70 | The zones with data of the type, empty exactly when the site has no data of it. |
| SiteStates.SiteState.ActiveDevices | src/main/java/uk/co/johngabriel/co657a3/model/json/Site.java:185-192 | The site's own devices with data of the type. |
| SiteStates.SiteState.AverageReadingRaw | src/main/java/uk/co/johngabriel/co657a3/model/json/Site.java:108-115 | The raw average is the mean of the raw averages of the zones with data other than -1, and -1 when none remains (so also when no zone has data). |
| SiteStates.SiteState.AverageRawBounds | src/main/java/uk/co/johngabriel/co657a3/model/json/Site.java:108-115 | Otherwise it lies within any bounds of the zones' non-sentinel raw averages. |
| SiteStates.SiteState.AverageRawNone | src/main/java/uk/co/johngabriel/co657a3/model/json/Site.java:108-115 | It is -1 when every zone average is -1. |
| SiteStates.SiteState.AverageReading | src/main/java/uk/co/johngabriel/co657a3/model/json/Site.java:96-103 | The display average is the mean of the display averages of the zones with data other than -1, and -1 when none remains. |
| SiteStates.SiteState.CurrentReadingRaw | src/main/java/uk/co/johngabriel/co657a3/model/json/Site.java:132-139 | The current reading is the mean of the current readings of the zones with data other than -1, and -1 when none remains. |
| SiteStates.SiteState.CurrentBounds | src/main/java/uk/co/johngabriel/co657a3/model/json/Site.java:132-139 | Otherwise it lies within any bounds of the zones' non-sentinel current readings. |
| SiteStates.SiteState.StandardDeviationRaw | src/main/java/uk/co/johngabriel/co657a3/model/json/Site.java:172-180 | The raw SD is -1 when the display-scale average is -1 and when no zone has data; otherwise it is the mean of the raw SDs of the site's own devices with data (-1 when there are none). |
| SiteStates.SiteState.TimeOfLastReading | src/main/java/uk/co/johngabriel/co657a3/model/json/Site.java:185-192 | Taken over the site's devices, not its zones: null exactly when none of them has data of the type. |
| SiteStates.SiteState.TimeOfLastIsMax | src/main/java/uk/co/johngabriel/co657a3/model/json/Site.java:185-192 | Otherwise it is at least every such device's last time and equal to one of them. |
| SiteStates.SiteState.Status | src/main/java/uk/co/johngabriel/co657a3/model/json/Site.java:197-217 | The same seven-step order, on the site aggregates, with lateness judged on the site devices' last time. |
| SiteStates.SiteState.StatusesOf | src/main/java/uk/co/johngabriel/co657a3/model/json/Site.java:223-224 | One status per listed type, in order. |
| SiteStates.SiteState.IsOkay | src/main/java/uk/co/johngabriel/co657a3/model/json/Site.java:222-229 | A site is okay exactly when no type's status is OVER, UNDER or LATE. |
| Graph.DeviceData.constructor | src/main/java/uk/co/johngabriel/co657a3/model/json/DeviceData.java:20-31 | A new series stores its arguments and has no readings. |
| Graph.DeviceData.AddReading | src/main/java/uk/co/johngabriel/co657a3/model/json/DeviceData.java:43 | Appends exactly one reading at the end; earlier readings, type, resolution and scale are unchanged. |
| Graph.MergeSeries | src/main/java/uk/co/johngabriel/co657a3/model/json/Device.java:198-205 | Merging one more series into (results, seen) gives the de-duplication of everything merged so far, with `seen` its timestamps. |
| Graph.Device.constructor | src/main/java/uk/co/johngabriel/co657a3/model/json/Device.java:34-44 | A new device stores its arguments and has no series and no ideals. |
| Graph.Device.AddData | src/main/java/uk/co/johngabriel/co657a3/model/json/Device.java:56 | Appends one series; the ideals are unchanged. |
| Graph.Device.SetIdeal | src/main/java/uk/co/johngabriel/co657a3/model/json/Device.java:57 | Sets the ideal of one type; other types keep theirs. |
| Graph.Device.HasData | src/main/java/uk/co/johngabriel/co657a3/model/json/Device.java:62-67 | True exactly when some series has the type. |
| Graph.Device.GetDeviceData | src/main/java/uk/co/johngabriel/co657a3/model/json/Device.java:81-87 | The first series with that type and resolution, or null exactly when there is none. |
| Graph.Device.GetAllReadings | src/main/java/uk/co/johngabriel/co657a3/model/json/Device.java:190-208 | The merge loop computes the merged readings: first-seen timestamp wins, in series order then reading order. |
| Graph.Device.GetTimestamps | src/main/java/uk/co/johngabriel/co657a3/model/json/Device.java:92-106 | The loop over the types with data gathers the minute-rounded instants of their merged readings and lists them latest first. |
| Graph.Device.IsOkay | src/main/java/uk/co/johngabriel/co657a3/model/json/Device.java:340-347 | The loop returns whether no type's status is OVER, UNDER or LATE. |
| Graph.SeriesIndexOf | src/main/java/uk/co/johngabriel/co657a3/model/json/Device.java:81-87 | The first series from a position on with the type and resolution. |
| Graph.Zone.constructor | src/main/java/uk/co/johngabriel/co657a3/model/json/Zone.java:29-34 | A new zone has its id and name, no site, no devices and no ideals. |
| Graph.Zone.SetSite | src/main/java/uk/co/johngabriel/co657a3/model/json/Zone.java:42 | Sets the site; devices and ideals are unchanged. |
| Graph.Zone.AddDevice | src/main/java/uk/co/johngabriel/co657a3/model/json/Zone.java:43 | Appends one device; site and ideals are unchanged. |
| Graph.Zone.SetIdeal | src/main/java/uk/co/johngabriel/co657a3/model/json/Zone.java:44 | Changes only the ideal of the given type. |
| Graph.Zone.IsOkay | src/main/java/uk/co/johngabriel/co657a3/model/json/Zone.java:268-275 | The loop returns whether no type's status is OVER, UNDER or LATE. |
| Graph.Site.constructor | src/main/java/uk/co/johngabriel/co657a3/model/json/Site.java:34-46 | A new site stores its arguments and has no devices, zones or ideals. |
| Graph.Site.Zones | src/main/java/uk/co/johngabriel/co657a3/model/json/Site.java:56 | The zones, one per key, in the map's iteration order. |
| Graph.Site.GetZone | src/main/java/uk/co/johngabriel/co657a3/model/json/Site.java:57 | The zone stored under the key, or null exactly when there is none. |
| Graph.Site.AddDevice | src/main/java/uk/co/johngabriel/co657a3/model/json/Site.java:60 | Appends one device; zones and ideals are unchanged. |
| Graph.Site.AddZone | src/main/java/uk/co/johngabriel/co657a3/model/json/Site.java:61 | Afterwards `getZone(key)` is the zone and every other key keeps its zone. |
| Graph.Site.SetIdeal | src/main/java/uk/co/johngabriel/co657a3/model/json/Site.java:62 | Changes only the ideal of the given type. |
| Graph.Site.IsOkay | src/main/java/uk/co/johngabriel/co657a3/model/json/Site.java:222-229 | The loop returns whether no type's status is OVER, UNDER or LATE. |
| Views.DeviceViewOf | src/main/java/uk/co/johngabriel/co657a3/things/ProblemFinder.java:30-35 | A device view holds the device, its site, its last connection time and its state. |
| Views.ZoneViewOf | src/main/java/uk/co/johngabriel/co657a3/things/ProblemFinder.java:180-188 | A zone view has the same state as the zone. |
| Views.SiteViewOf | src/main/java/uk/co/johngabriel/co657a3/things/ProblemFinder.java:190-203 | A site view has the same state as the site. |
| Surveys.DeviceSurveyOf | src/main/java/uk/co/johngabriel/co657a3/things/ProblemFinder.java:40-82 | The survey of a device records its data flag and status of every type. |
| Surveys.ZoneSurveyOf | src/main/java/uk/co/johngabriel/co657a3/things/ProblemFinder.java:87-129 | The survey of a zone records its devices' surveys and its own flag and status of every type. |
| Surveys.SiteSurveyOf | src/main/java/uk/co/johngabriel/co657a3/things/ProblemFinder.java:134-178 | The survey of a site records its zones' and devices' surveys and its own flag and status of every type. |
| Problems.ForDevice | src/main/java/uk/co/johngabriel/co657a3/model/Problem.java:22-26 | The device constructor sets type 3, the device and the message, and nothing else. |
| Problems.ForZone | src/main/java/uk/co/johngabriel/co657a3/model/Problem.java:28-32 | The zone constructor sets type 2, the zone and the message, and nothing else. |
| Problems.ForSite | src/main/java/uk/co/johngabriel/co657a3/model/Problem.java:34-38 | The site constructor sets type 1, the site and the message, and nothing else. |
| Problems.ConstructorsScope | src/main/java/uk/co/johngabriel/co657a3/model/Problem.java:12-38 | Exactly one target is set and it matches the type code exactly when the argument is non-null. |
| Problems.ConstructorsDistinct | src/main/java/uk/co/johngabriel/co657a3/model/Problem.java:12-38 | Problems from different constructors never coincide. |
| ProblemFinders.Recorded | src/main/java/uk/co/johngabriel/co657a3/things/ProblemFinder.java:40-82 | OVER and UNDER give one problem at the checked scope; EXTREME and LATE give one problem against the site; other statuses give none. |
| ProblemFinders.DeviceAverage | src/main/java/uk/co/johngabriel/co657a3/things/ProblemFinder.java:40-82 | A device check adds exactly one problem for a reported status, at device scope or against the site, on that type and status, and none otherwise. |
| ProblemFinders.ZoneAverage | src/main/java/uk/co/johngabriel/co657a3/things/ProblemFinder.java:87-129 | A zone check adds exactly one problem for a reported status, at zone scope or against the site, and none otherwise. |
| ProblemFinders.SiteAverage | src/main/java/uk/co/johngabriel/co657a3/things/ProblemFinder.java:134-178 | A site check adds nothing without data or for a non-reported status, and otherwise exactly one site-scope problem. |
| ProblemFinders.Disconnection | src/main/java/uk/co/johngabriel/co657a3/things/ProblemFinder.java:30-35 | A device whose last connection is more than 300 s old gets one device-scope disconnection problem, any other none. |
| ProblemFinders.DevicesCheckedFrom | src/main/java/uk/co/johngabriel/co657a3/things/ProblemFinder.java:184-187 | Every problem from a zone's device checks comes from a device with data of the type, at most one each. |
| ProblemFinders.DevicesCheckedCovers | src/main/java/uk/co/johngabriel/co657a3/things/ProblemFinder.java:184-187 | Every device with data and a reported status contributes its problem. |
| ProblemFinders.DevicesCheckedReadings | src/main/java/uk/co/johngabriel/co657a3/things/ProblemFinder.java:184-187 | All of them are reading problems of that type at device level, well scoped when devices know their site. |
| ProblemFinders.ZoneCheckSources | src/main/java/uk/co/johngabriel/co657a3/things/ProblemFinder.java:180-188 | A failing zone check suppresses its device checks; a passing one checks exactly its devices with data. |
| ProblemFinders.ZonesCheckedFrom | src/main/java/uk/co/johngabriel/co657a3/things/ProblemFinder.java:195-197 | Problems of the zone loop come only from zones with data of the type. |
| ProblemFinders.ZonesCheckedCovers | src/main/java/uk/co/johngabriel/co657a3/things/ProblemFinder.java:195-197 | Every zone with data contributes its zone check. |
| ProblemFinders.SiteTypeCheckSources | src/main/java/uk/co/johngabriel/co657a3/things/ProblemFinder.java:192-198 | A failing site check for a type suppresses every zone and device check of that type in the site; otherwise exactly the zones with data are checked. |
| ProblemFinders.SiteTypeCheckReadings | src/main/java/uk/co/johngabriel/co657a3/things/ProblemFinder.java:192-198 | The problems of one type are reading problems of that type, attributed as the source does. |
| ProblemFinders.DeclarationOrder | src/main/java/uk/co/johngabriel/co657a3/model/json/DataType.java:7-13 | The declaration order of the types is strictly increasing in position. |
| ProblemFinders.TypesCheckedOrdered | src/main/java/uk/co/johngabriel/co657a3/things/ProblemFinder.java:191-199 | Within a site, problems follow the type declaration order, grouped by type. |
| ProblemFinders.DisconnectionsMembers | src/main/java/uk/co/johngabriel/co657a3/things/ProblemFinder.java:200-202 | Exactly one disconnection problem per late site device, and no others. |
| ProblemFinders.DisconnectionsAttributed | src/main/java/uk/co/johngabriel/co657a3/things/ProblemFinder.java:200-202 | All disconnection problems are device-scope and well scoped. |
| ProblemFinders.ThenDisconnections | src/main/java/uk/co/johngabriel/co657a3/things/ProblemFinder.java:191-202 | Reading problems come before disconnection problems. |
| ProblemFinders.SiteCheckShape | src/main/java/uk/co/johngabriel/co657a3/things/ProblemFinder.java:190-203 | A site's problems are its type checks in declaration order, then its disconnections. |
| ProblemFinders.SitesCheckedAttributed | src/main/java/uk/co/johngabriel/co657a3/things/ProblemFinder.java:205-211 | Every problem of a walk is attributed as the source does, and well scoped when every entity knows its site. |
| ProblemFinders.ProblemFinder.constructor | src/main/java/uk/co/johngabriel/co657a3/things/ProblemFinder.java:24-26 | A new finder has no problems. |
| ProblemFinders.ProblemFinder.GetProblems | src/main/java/uk/co/johngabriel/co657a3/things/ProblemFinder.java:28 | Returns the problem list. |
| ProblemFinders.ProblemFinder.CheckDevice | src/main/java/uk/co/johngabriel/co657a3/things/ProblemFinder.java:30-35 | Appends the device's disconnection problem, if any. |
| ProblemFinders.ProblemFinder.CheckDeviceAverage | src/main/java/uk/co/johngabriel/co657a3/things/ProblemFinder.java:40-82 | Appends the device check's problem and returns false exactly for OVER, UNDER, EXTREME or LATE. |
| ProblemFinders.ProblemFinder.CheckZoneAverage | src/main/java/uk/co/johngabriel/co657a3/things/ProblemFinder.java:87-129 | Appends the zone check's problem and returns false exactly for a reported status. |
| ProblemFinders.ProblemFinder.CheckSiteAverage | src/main/java/uk/co/johngabriel/co657a3/things/ProblemFinder.java:134-178 | Appends the site check's problem; returns true without data or for a non-reported status. |
| ProblemFinders.ProblemFinder.CheckZone | src/main/java/uk/co/johngabriel/co657a3/things/ProblemFinder.java:180-188 | Appends the zone check and, when it passes, the checks of its devices with data. |
| ProblemFinders.ProblemFinder.CheckZones | src/main/java/uk/co/johngabriel/co657a3/things/ProblemFinder.java:195-197 | Appends the checks of the zones with data, in order. |
| ProblemFinders.ProblemFinder.CheckType | src/main/java/uk/co/johngabriel/co657a3/things/ProblemFinder.java:192-198 | Appends the site check and, when it passes, the zone loop, for one type. |
| ProblemFinders.ProblemFinder.CheckTypes | src/main/java/uk/co/johngabriel/co657a3/things/ProblemFinder.java:191-199 | Appends the checks of the types in order. |
| ProblemFinders.ProblemFinder.CheckDevices | src/main/java/uk/co/johngabriel/co657a3/things/ProblemFinder.java:200-202 | Appends the disconnection problems of the site devices, in order. |
| ProblemFinders.ProblemFinder.CheckSite | src/main/java/uk/co/johngabriel/co657a3/things/ProblemFinder.java:190-203 | Appends all types' checks and then the disconnections. |
| ProblemFinders.ProblemFinder.Update | src/main/java/uk/co/johngabriel/co657a3/things/ProblemFinder.java:205-211 | Clears the list first, so afterwards it holds exactly the problems of this walk over the sites in order; the device list is unused. |
| DataUpdaters.KelvinRoundTrip | src/main/java/uk/co/johngabriel/co657a3/things/DataUpdater.java:139-155 | A Celsius intake shown in Celsius, and a Kelvin intake shown in Kelvin, give back the value taken in. |
| DataUpdaters.FahrenheitCollapses | src/main/java/uk/co/johngabriel/co657a3/things/DataUpdater.java:145 | The Fahrenheit branch multiplies by the integer 5/9 = 0, so every Fahrenheit value becomes 0 K. |
| DataUpdaters.FelsiusRoundTripOnlyAt | src/main/java/uk/co/johngabriel/co657a3/things/DataUpdater.java:148-151 | The intake formula for other scales and the Felsius display formula agree only at -16. |
| DataUpdaters.MakeTempReading | src/main/java/uk/co/johngabriel/co657a3/things/DataUpdater.java:139-155 | A reading exists exactly when the Kelvin value is non-negative, and holds that value for TEMPERATURE at the given time. |
| DataUpdaters.MakeLuxReading | src/main/java/uk/co/johngabriel/co657a3/things/DataUpdater.java:160-165 | Negative light values are dropped; others pass through unchanged. |
| DataUpdaters.MakeReading | src/main/java/uk/co/johngabriel/co657a3/things/DataUpdater.java:170-177 | No reading exactly for the missing value -1, a negative Kelvin temperature or a negative light value; otherwise the (converted) value at the given time and type. |
| DataUpdaters.NormalisedFrom | src/main/java/uk/co/johngabriel/co657a3/things/DataUpdater.java:179-193 | Every kept reading comes from one sample, at most one per sample. |
| DataUpdaters.NormalisedCovers | src/main/java/uk/co/johngabriel/co657a3/things/DataUpdater.java:179-193 | Every sample that yields a reading contributes it. |
| DataUpdaters.NormalisedPlausible | src/main/java/uk/co/johngabriel/co657a3/things/DataUpdater.java:179-193 | Every kept reading has the series type, and kept temperatures and light values are non-negative. |
| DataUpdaters.NormalisedFahrenheit | src/main/java/uk/co/johngabriel/co657a3/things/DataUpdater.java:145 | A Fahrenheit series keeps one 0 K reading per present sample. |
| DataUpdaters.MakeReadings | src/main/java/uk/co/johngabriel/co657a3/things/DataUpdater.java:179-193 | The loop appends the normalised readings, in input order, skipping the dropped ones. |
| DataUpdaters.SplitKey | src/main/java/uk/co/johngabriel/co657a3/things/DataUpdater.java:131 | A zone key splits at its first slash, and the site part holds no slash. |
| DataUpdaters.SplitZoneKey | src/main/java/uk/co/johngabriel/co657a3/things/DataUpdater.java:131 | For a site id without a slash, the zone key splits back into site id and zone id. |
| DataUpdaters.ZoneKeyInjective | src/main/java/uk/co/johngabriel/co657a3/things/DataUpdater.java:131 | For site ids without a slash, distinct (site, zone) pairs get distinct keys. |
| DataUpdaters.ZoneKeySameSite | src/main/java/uk/co/johngabriel/co657a3/things/DataUpdater.java:131 | Within one site, distinct zone ids get distinct keys. |
| DataUpdaters.ZoneKeyCollision | src/main/java/uk/co/johngabriel/co657a3/things/DataUpdater.java:131 | With a slash in the site id, two different pairs share a key. |
| DataUpdaters.ResolvedLookup | src/main/java/uk/co/johngabriel/co657a3/things/DataUpdater.java:113-117 | The resolved ideals hold a type exactly when its lookup found an ideal, and then hold that ideal. |
| DataUpdaters.SiteLookupsAt | src/main/java/uk/co/johngabriel/co657a3/things/DataUpdater.java:113-117 | The site lookup of each type is the site ideal of that type. |
| DataUpdaters.ZoneLookupsAt | src/main/java/uk/co/johngabriel/co657a3/things/DataUpdater.java:125-128 | The zone lookup of each type is the zone ideal of that type. |
| DataUpdaters.SiteIdealsHeld | src/main/java/uk/co/johngabriel/co657a3/things/DataUpdater.java:113-117 | The ideals a site is given hold, for every type, exactly the ideal the idealator resolves for that site, if any. |
| DataUpdaters.SiteIdealsResolved | src/main/java/uk/co/johngabriel/co657a3/things/DataUpdater.java:113-117 | A site gets an ideal for a type exactly when one resolves, and gets that one. |
| DataUpdaters.ZoneIdealsResolved | src/main/java/uk/co/johngabriel/co657a3/things/DataUpdater.java:125-128 | A zone gets an ideal for a type exactly when one resolves, and gets that one. |
| DataUpdaters.ZoneIdealsFallBack | src/main/java/uk/co/johngabriel/co657a3/things/DataUpdater.java:125-128 | Without a zone rule, the zone gets the same ideal as its site. |
| DataUpdaters.SetSiteIdeals | src/main/java/uk/co/johngabriel/co657a3/things/DataUpdater.java:113-117 | Sets exactly the resolved site ideals; devices and zones are unchanged. |
| DataUpdaters.SetZoneIdeals | src/main/java/uk/co/johngabriel/co657a3/things/DataUpdater.java:125-128 | Sets exactly the resolved zone ideals; site and devices are unchanged. |
| DataUpdaters.MakeZone | src/main/java/uk/co/johngabriel/co657a3/things/DataUpdater.java:93-99 | A new zone with the record's id and name, no site, devices or ideals. |
| DataUpdaters.StoreZonesLast | src/main/java/uk/co/johngabriel/co657a3/things/DataUpdater.java:131 | Each zone is stored under siteId/zoneId, the last zone of that id winning. |
| DataUpdaters.StoreZonesElsewhere | src/main/java/uk/co/johngabriel/co657a3/things/DataUpdater.java:131 | Keys not of the form siteId/zoneId for the site's zones are unchanged. |
| DataUpdaters.StoreZonesOtherSite | src/main/java/uk/co/johngabriel/co657a3/things/DataUpdater.java:131 | Another site's zone keys are unchanged. |
| DataUpdaters.PutZonesLast | src/main/java/uk/co/johngabriel/co657a3/things/DataUpdater.java:130 | The site finds each zone under its id, the last zone of that id winning. |
| DataUpdaters.PutSitesLast | src/main/java/uk/co/johngabriel/co657a3/things/DataUpdater.java:314-315 | Each site is published under its id, the last site of that id winning. |
| DataUpdaters.MakeSiteZone | src/main/java/uk/co/johngabriel/co657a3/things/DataUpdater.java:121-130 | One zone of the loop: made from its record, given the site and its resolved ideals, and added to the site. |
| DataUpdaters.NewSite | src/main/java/uk/co/johngabriel/co657a3/things/DataUpdater.java:102-117 | A new site carries the record's fields, coordinates (-1 when missing, as `extractDouble` gives) and its resolved ideals, and no devices or zones. |
| DataUpdaters.AddZones | src/main/java/uk/co/johngabriel/co657a3/things/DataUpdater.java:119-132 | The zone loop builds one zone per record, in order, and adds each to the site. |
| DataUpdaters.AddZonesTurn | src/main/java/uk/co/johngabriel/co657a3/things/DataUpdater.java:121-131 | One turn of that loop builds the next zone and adds it. |
| DataUpdaters.MakeSite | src/main/java/uk/co/johngabriel/co657a3/things/DataUpdater.java:101-134 | The site carries the record's id and fields, its resolved ideals, and one zone per record with its resolved ideals, keyed by zone id. |
| DataUpdaters.DataUpdater.constructor | src/main/java/uk/co/johngabriel/co657a3/things/DataUpdater.java:54-66 | A new updater has empty maps, is not updating and has no update time. |
| DataUpdaters.DataUpdater.GetDevices | src/main/java/uk/co/johngabriel/co657a3/things/DataUpdater.java:371 | Always the published device map: during a run, and after a failed one, the previous generation's; outside a run, the one the last run built. |
| DataUpdaters.DataUpdater.GetZones | src/main/java/uk/co/johngabriel/co657a3/things/DataUpdater.java:372 | Always the published zone map: during a run, and after a failed one, the previous generation's; outside a run, the one the last run built. |
| DataUpdaters.DataUpdater.GetSites | src/main/java/uk/co/johngabriel/co657a3/things/DataUpdater.java:373 | Always the published site map: during a run, and after a failed one, the previous generation's; outside a run, the one the last run built. |
| DataUpdaters.DataUpdater.GetExpectedDevices | src/main/java/uk/co/johngabriel/co657a3/things/DataUpdater.java:374 | Always the published expected-device set: during a run, and after a failed one, the previous generation's; outside a run, the one the last run built. |
| DataUpdaters.DataUpdater.IsUpdating | src/main/java/uk/co/johngabriel/co657a3/things/DataUpdater.java:376 | Exactly the `updating` flag; when it is false, the published sites and zones are the last run's. |
| DataUpdaters.DataUpdater.MakeDeviceData | src/main/java/uk/co/johngabriel/co657a3/things/DataUpdater.java:198-228 | Null exactly when the value or scale field is missing, the site is unknown or siteId/zoneId is unknown; otherwise a new series of that type and resolution at that site and zone holding the normalised readings. |
| DataUpdaters.DataUpdater.AddSite | src/main/java/uk/co/johngabriel/co657a3/things/DataUpdater.java:313-315 | One site of the loop: built from its record as `makeSite` builds it (fields, ideals, zones), put into the working sites under its id, its zones into the working zones under their zone keys; called only during a run, and it keeps the updater valid. |
| DataUpdaters.DataUpdater.MakeSites | src/main/java/uk/co/johngabriel/co657a3/things/DataUpdater.java:307-318 | One new site per record, in order, each built from its own record as `makeSite` builds it, stored in the working maps; called only during a run (as from `run`), and the published maps are untouched. |
| DataUpdaters.DataUpdater.Run | src/main/java/uk/co/johngabriel/co657a3/things/DataUpdater.java:349-369 | Builds fresh working maps; only on success publishes them, records the time and clears `updating`; on failure the published maps and time stay and `updating` stays true. |
| Prettyfiers.Prettyfier.constructor | src/main/java/uk/co/johngabriel/co657a3/things/Prettyfier.java:81 | The display scale starts as Celsius. |
| Prettyfiers.Prettyfier.SetTempType | src/main/java/uk/co/johngabriel/co657a3/things/Prettyfier.java:132-134 | Overwrites the display scale. |
| Prettyfiers.Prettyfier.GetReadingValue | src/main/java/uk/co/johngabriel/co657a3/things/Prettyfier.java:108-113 | Non-temperature values are shown as-is; a temperature is shown in the selected scale: Celsius 273.15 below the raw Kelvin, Fahrenheit with r * 9 = (k + 459.67) * 5, Felsius inverting to (r + 16) / 5 + 273.15, unknown scales as the raw value. |
| Prettyfiers.Prettyfier.GetReadingScale | src/main/java/uk/co/johngabriel/co657a3/things/Prettyfier.java:115-125 | The unit of a temperature is the scale's symbol, failing exactly for an out-of-range scale; gas is "ppm", humidity "%", light "lux", moisture "% vwc" and solar "W". |
| Prettyfiers.ConvertMonotone | src/main/java/uk/co/johngabriel/co657a3/things/Prettyfier.java:84-92 | Every display scale keeps the order of temperatures. |
| Prettyfiers.SiteLink | src/main/java/uk/co/johngabriel/co657a3/things/Prettyfier.java:276-278 | The site link starts with "/site/" and then the id. |
| Prettyfiers.ZoneLink | src/main/java/uk/co/johngabriel/co657a3/things/Prettyfier.java:385-387 | The zone link starts with "/zone?site=" and carries the site id, "&zone=" and the zone id. |
| Prettyfiers.DeviceLink | src/main/java/uk/co/johngabriel/co657a3/things/Prettyfier.java:674-676 | The device link starts with "/device/" and then the id. |
| Prettyfiers.LinksInjective | src/main/java/uk/co/johngabriel/co657a3/things/Prettyfier.java:276-278 | Distinct site ids, and distinct device ids, give distinct links. |
| Prettyfiers.LinksDistinct | src/main/java/uk/co/johngabriel/co657a3/things/Prettyfier.java:276-278 | Site, zone and device links never coincide. |
| Prettyfiers.ZoneLinkInjective | src/main/java/uk/co/johngabriel/co657a3/things/Prettyfier.java:385-387 | For site ids without "&", distinct (site, zone) pairs give distinct links. |
| Prettyfiers.ZoneLinkCollision | src/main/java/uk/co/johngabriel/co657a3/things/Prettyfier.java:385-387 | With "&zone=" inside an id, two different pairs share a link. |
| Prettyfiers.GetProblemRow | src/main/java/uk/co/johngabriel/co657a3/things/Prettyfier.java:142-170 | The row keeps the message and targets the device if set, else the zone if set, else the site. |
| Prettyfiers.ProblemRowNamesTarget | src/main/java/uk/co/johngabriel/co657a3/things/Prettyfier.java:147-164 | For a well-scoped problem the row's kind matches the type code, and its name and link are that entity's. |
| Prettyfiers.FindMarker | src/main/java/uk/co/johngabriel/co657a3/things/Prettyfier.java:625-631 | The first marker with the device id, or none exactly when no marker has it. |
| Prettyfiers.MarkerPos | src/main/java/uk/co/johngabriel/co657a3/things/Prettyfier.java:625-631 | (-1, -1) when no marker has the id, otherwise (entry[2], entry[1]) of the first that does. |
| Prettyfiers.FirstMarkerPos | src/main/java/uk/co/johngabriel/co657a3/things/Prettyfier.java:589 | gh3_seed_temp is placed at the first entry's latitude and longitude. |
| Prettyfiers.IconUrlInjective | src/main/java/uk/co/johngabriel/co657a3/things/Prettyfier.java:633-654 | Distinct (device type, okay) pairs get distinct icons. |
| Prettyfiers.GetIconUrl | src/main/java/uk/co/johngabriel/co657a3/things/Prettyfier.java:633-654 | The icon is chosen from the device type and whether the device is okay. |

## Left out

- The clock: the source reads `LocalDateTime.now()` afresh in every status check, every
  current-reading filter, every disconnection check and every idealator lookup, so readings
  near the 300-second boundary can be judged against slightly different instants within one
  pass; the model takes one instant (`Env.now`, and one hour and month) for the whole pass.
- Network access (`InternetGetterThing`) and JSON parsing: server records come in as datatypes (`SiteRecord`, `ZoneRecord`, `DataRecord`); a missing value, scale or coordinate field is an absent map entry or `None`. A missing id, name, site id or zone id string becomes null in the source (`extractString`, `DataUpdater.java` lines 68-73), so a site without an id stores its zones under keys starting `null/`; the records carry these as plain strings, so a record lacking one is not modelled.
- `makeDevices`, `makeDevice`, `makeDeviceObject` and `fillDeviceWithData`: they fan out over `parallelStream` and fetch per-device data over the network; `Run` takes the finished device map and expected-device set as inputs.
- DataUpdaters.DataUpdater.Run: the calls to the data manager and to the problem finder inside a run are not modelled (the finder is modelled on its own); an exception during the run is the `completed` flag, and the run does not restate each built site's content, which `MakeSite` states.
- DataUpdaters.DataUpdater.MakeDeviceData: requires `WellTyped`, because a field of the wrong JSON type throws in the source rather than returning null.
- Timestamp parsing and formatting with `DateTimeFormatter`: instants are integers.
- `String.format` outputs and problem message wording: problem messages are (level, data type, status) triples or `Disconnected`; `getReadingString`, `getIdealReadout`, `ldtToString` and the connection readout are left out for the same reason.
- Logging.
- `Math.sqrt` and IEEE arithmetic: the square root is a parameter and values are exact reals.
- Concurrency: the updater's scheduler (`DataManager`), the shared static display scale, and parallel streams; everything is sequential.
- Web layer and charts (`WebController`, `WebApplication`, the chart and table builders of `Prettyfier`, `getDeviceMapMarkers`, the JavaScript files): presentation with no logic to prove.
- `Cell` and `Table`: presentation holders with no logic.
- Zone and site `getTimestamps`, the resolution-filtered `getTimestamps(resolution)` variants, `getReadingAtDateTime`, `getRawReadingAtDateTime` and the zone and site `getReadingClosestToDateTime`, and the display-scale `getCurrentReading` and `getStandardDeviation` of zones and sites: chart helpers outside the status logic; the device versions they are built from are modelled.
- Prettyfiers.IconUrl and Prettyfiers.GetMarkerPos: the icon name table and the 34-entry marker table are stated by their definitions; their contracts are `IconUrlInjective`, `GetIconUrl`, `MarkerPos` (over any table) and `FirstMarkerPos`.
- `HashMap` iteration order of the updater maps and a site's zones: a fixed insertion order stands for the unspecified one.
