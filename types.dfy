/**
 * The enumerations of the telemetry model: what is measured (DataType),
 * how often (DataResolution), by which kind of device (DeviceType), and the
 * verdict about a reading (IdealStatus).
 */
module Types {

  /** Measured quantity; the constructors are declared in the order of `DataType.values()`. */
  datatype DataType = GAS | MOISTURE | LUMOSITY | TEMPERATURE | HUMIDITY | SOLAR

  /** Every data type, in declaration order: the order of every `values()` loop. */
  const AllTypes: seq<DataType> := [GAS, MOISTURE, LUMOSITY, TEMPERATURE, HUMIDITY, SOLAR]

  /** Position of a data type in declaration order. */
  function Ordinal(t: DataType): (r: nat)
    ensures r < |AllTypes| && AllTypes[r] == t
  {
    match t
    case GAS => 0
    case MOISTURE => 1
    case LUMOSITY => 2
    case TEMPERATURE => 3
    case HUMIDITY => 4
    case SOLAR => 5
  }

  /** One value for each data type. */
  datatype PerType<T> = PerType(gas: T, moisture: T, lumosity: T, temperature: T, humidity: T, solar: T)
  {
    /** The value kept for a type. */
    function Get(t: DataType): T
    {
      match t
      case GAS => gas
      case MOISTURE => moisture
      case LUMOSITY => lumosity
      case TEMPERATURE => temperature
      case HUMIDITY => humidity
      case SOLAR => solar
    }
  }

  /** The table whose value for each type is the entry at that type's position. */
  function Tabled<T>(xs: seq<T>): (r: PerType<T>)
    requires |xs| == |AllTypes|
    ensures forall t :: r.Get(t) == xs[Ordinal(t)]
  {
    PerType(xs[0], xs[1], xs[2], xs[3], xs[4], xs[5])
  }

  /** Human-readable label of a data type. */
  function Label(t: DataType): string
  {
    match t
    case GAS => "gas"
    case MOISTURE => "moisture"
    case LUMOSITY => "light"
    case TEMPERATURE => "temperature"
    case HUMIDITY => "humidity"
    case SOLAR => "solar"
  }

  /** Name of the JSON field holding the values of a data type. */
  function ValueName(t: DataType): string
  {
    match t
    case GAS => "gas_values"
    case MOISTURE => "moisture_value"
    case LUMOSITY => "light_value"
    case TEMPERATURE => "temperature_value"
    case HUMIDITY => "humidity_value"
    case SOLAR => "solar_value"
  }

  /** Name of the JSON field holding the scale of a data type. */
  function ScaleName(t: DataType): string
  {
    match t
    case GAS => "gas_scale"
    case MOISTURE => "moisture_scale"
    case LUMOSITY => "light_scale"
    case TEMPERATURE => "temp_scale"
    case HUMIDITY => "humidity_scale"
    case SOLAR => "solar_scale"
  }

  /** How many standard deviations a reading may stray before it counts as extreme. */
  function SDMultiplier(t: DataType): real
  {
    match t
    case GAS => 1.0
    case MOISTURE => 2.0
    case LUMOSITY => 10.0
    case TEMPERATURE => 2.0
    case HUMIDITY => 2.0
    case SOLAR => 10.0
  }

  /** The declaration-order list holds every data type exactly once. */
  lemma AllTypesEnumerates()
    ensures |AllTypes| == 6
    ensures forall t: DataType :: t in AllTypes
    ensures forall i, j :: 0 <= i < j < |AllTypes| ==> AllTypes[i] != AllTypes[j]
    ensures forall i :: 0 <= i < |AllTypes| ==> Ordinal(AllTypes[i]) == i
  {
    forall t: DataType ensures t in AllTypes {
      assert AllTypes[Ordinal(t)] == t;
    }
  }

  /** Labels identify their data type. */
  lemma LabelsDistinct(t: DataType, u: DataType)
    requires Label(t) == Label(u)
    ensures t == u
  {
  }

  /** Only GAS uses a plural value field; every other value field is the label followed by "_value". */
  lemma ValueNameShape(t: DataType)
    ensures t == GAS <==> ValueName(t) == "gas_values"
    ensures t != GAS ==> ValueName(t) == Label(t) + "_value"
  {
    match t
    case GAS =>
    case MOISTURE =>
    case LUMOSITY =>
    case TEMPERATURE =>
    case HUMIDITY =>
    case SOLAR =>
  }

  /** Only TEMPERATURE abbreviates its scale field; every other scale field is the label followed by "_scale". */
  lemma ScaleNameShape(t: DataType)
    ensures ScaleName(t) == (if t == TEMPERATURE then "temp_scale" else Label(t) + "_scale")
  {
    match t
    case GAS =>
    case MOISTURE =>
    case LUMOSITY =>
    case TEMPERATURE =>
    case HUMIDITY =>
    case SOLAR =>
  }

  /** Resolution of a device's readings; the margin (seconds) is half the sampling period used for matching. */
  datatype DataResolution = EVERY_MINUTE | EVERY_10MINUTES | EVERY_HOUR

  const AllResolutions: seq<DataResolution> := [EVERY_MINUTE, EVERY_10MINUTES, EVERY_HOUR]

  function Margin(r: DataResolution): int
  {
    match r
    case EVERY_MINUTE => 30
    case EVERY_10MINUTES => 300
    case EVERY_HOUR => 30 * 60
  }

  function ResolutionLabel(r: DataResolution): string
  {
    match r
    case EVERY_MINUTE => "every minute"
    case EVERY_10MINUTES => "every 10 minutes"
    case EVERY_HOUR => "every hour"
  }

  /** Kind of device; the label is the key of its id list in the device listing. */
  datatype DeviceType = DGAS | DSOLAR | HYDROMETER | TEMPHUMID | DLUMOSITY

  const AllDeviceTypes: seq<DeviceType> := [DGAS, DSOLAR, HYDROMETER, TEMPHUMID, DLUMOSITY]

  function DeviceTypeLabel(t: DeviceType): string
  {
    match t
    case DGAS => "gas"
    case DSOLAR => "solar"
    case HYDROMETER => "hydrometer"
    case TEMPHUMID => "tempHumid"
    case DLUMOSITY => "lumosity"
  }

  /** Verdict about a device, zone or site with regard to one data type. */
  datatype IdealStatus = OKAY | EXTREME | OVER | UNDER | DOES_NOT_SERVE | LATE | UNKNOWN
  {
    /** The statuses that make `isOkay` false: EXTREME and UNKNOWN do not. */
    predicate IsFailing() { this == OVER || this == UNDER || this == LATE }
    /** The statuses the problem finder reports. */
    predicate IsReported() { this == OVER || this == UNDER || this == EXTREME || this == LATE }
  }
}
