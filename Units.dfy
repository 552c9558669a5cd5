/**
 * The temperature unit: the radio group's value, the units flag it puts
 * in the forecast request, and the suffix printed after a temperature.
 * The radio values keep the page's own spellings.
 */
module Units {

  const Fahrenheit: string := "farenheit"
  const Celsius: string := "celcius"

  /** The unit the page starts with. */
  const InitialUnit: string := Fahrenheit

  /** The `units` query parameter of the forecast request. */
  datatype UnitsFlag = Metric | Imperial

  function FlagName(f: UnitsFlag): string
  {
    match f
    case Metric => "metric"
    case Imperial => "imperial"
  }

  /** `unit === 'celcius' ? 'metric' : 'imperial'` */
  function RequestUnits(unit: string): (r: UnitsFlag)
    ensures r == Metric ==> Suffix(unit) == "C"
  {
    if unit == Celsius then Metric else Imperial
  }

  /** `unit === 'farenheit' ? 'F' : 'C'` */
  function Suffix(unit: string): (r: string)
    ensures r == "F" || r == "C"
    ensures r == "F" ==> unit != Celsius
  {
    if unit == Fahrenheit then "F" else "C"
  }

  /**
   * For the two values the radio group offers, the suffix names the unit
   * the temperatures were requested in.
   */
  lemma RadioUnitsAgree(unit: string)
    requires unit == Fahrenheit || unit == Celsius
    ensures RequestUnits(unit) == Metric <==> Suffix(unit) == "C"
    ensures RequestUnits(unit) == Imperial <==> Suffix(unit) == "F"
  {
  }

  /** The page starts by requesting imperial units and printing "F". */
  lemma InitialUnitIsImperial()
    ensures FlagName(RequestUnits(InitialUnit)) == "imperial" && Suffix(InitialUnit) == "F"
  {
  }

  /**
   * The two tests disagree on any other value: it requests imperial
   * units but prints "C".
   */
  lemma OtherUnitsDisagree(unit: string)
    requires unit != Fahrenheit && unit != Celsius
    ensures FlagName(RequestUnits(unit)) == "imperial" && Suffix(unit) == "C"
  {
  }
}
