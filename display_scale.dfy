/**
 * The temperature display scales and the display conversion of raw values.
 * Raw temperatures are stored in Kelvin; the selected display scale
 * (`tempType`) decides what a user sees.
 */
module DisplayScale {
  import opened Types

  const TEMP_KELVIN: int := 0
  const TEMP_CELCIUS: int := 1
  const TEMP_FAHRENHEIT: int := 2
  const TEMP_FELCIUS: int := 3

  /** The scale selected when the application starts. */
  const DefaultTempType: int := TEMP_CELCIUS

  /** Unit suffixes indexed by display scale. */
  const TempChar: seq<string> := ["°K", "°C", "°F", "°⋲"]

  /**
   * A Kelvin value shown in the given display scale. The Fahrenheit branch
   * applies the Fahrenheit-to-Kelvin formula, as the system does.
   */
  function ConvertTemperature(tempType: int, reading: real): (r: real)
    ensures tempType == TEMP_CELCIUS ==> r + 273.15 == reading
    ensures tempType == TEMP_FAHRENHEIT ==> r * 9.0 == (reading + 459.67) * 5.0
    ensures tempType == TEMP_FELCIUS ==> (r + 16.0) / 5.0 + 273.15 == reading
    ensures tempType !in {TEMP_CELCIUS, TEMP_FAHRENHEIT, TEMP_FELCIUS} ==> r == reading
  {
    if tempType == TEMP_KELVIN then reading
    else if tempType == TEMP_CELCIUS then reading - 273.15
    else if tempType == TEMP_FAHRENHEIT then (reading + 459.67) * (5.0 / 9.0)
    else if tempType == TEMP_FELCIUS then (reading - 273.15) * 5.0 - 16.0
    else reading
  }

  /** A raw value of the given type in display units: only temperatures are converted. */
  function ReadingValue(tempType: int, raw: real, t: DataType): (r: real)
    ensures t != TEMPERATURE ==> r == raw
    ensures t == TEMPERATURE ==> r == ConvertTemperature(tempType, raw)
  {
    match t
    case TEMPERATURE => ConvertTemperature(tempType, raw)
    case _ => raw
  }

  /**
   * The unit suffix of a data type. An out-of-range display scale has no
   * suffix: the source indexes its array there and fails.
   */
  function ReadingScale(tempType: int, t: DataType): (r: string)
    requires t == TEMPERATURE ==> 0 <= tempType < |TempChar|
    ensures t == TEMPERATURE ==> r == TempChar[tempType]
    ensures t == GAS ==> r == "ppm"
    ensures t == HUMIDITY ==> r == "%"
    ensures t == LUMOSITY ==> r == "lux"
    ensures t == MOISTURE ==> r == "% vwc"
    ensures t == SOLAR ==> r == "W"
  {
    match t
    case TEMPERATURE => TempChar[tempType]
    case GAS => "ppm"
    case HUMIDITY => "%"
    case LUMOSITY => "lux"
    case MOISTURE => "% vwc"
    case SOLAR => "W"
  }
}
