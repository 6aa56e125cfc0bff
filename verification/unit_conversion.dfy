/** Metric/imperial conversion of the current application (src/shared/utils/units.ts). */
module UnitConversion {
  import opened Types

  const FeetInMeter: real := 3.28084

  /** A stored length in the session's units, expressed in metres. */
  function ToMeters(value: real, units: Units): (r: real)
    ensures units == Metric ==> r == value
    ensures units == Imperial ==> r * FeetInMeter == value
  {
    if units == Imperial then value / FeetInMeter else value
  }

  /** A length in metres or feet, expressed in feet. */
  function ToFeet(value: real, units: Units): (r: real)
    ensures units == Imperial ==> r == value
    ensures units == Metric ==> r / FeetInMeter == value
  {
    if units == Metric then value * FeetInMeter else value
  }

  /** An area in the session's units, expressed in square metres. */
  function SquareValue(value: real, units: Units): (r: real)
    ensures units == Metric ==> r == value
    ensures units == Imperial ==> r * FeetInMeter * FeetInMeter == value
  {
    if units == Imperial then value / (FeetInMeter * FeetInMeter) else value
  }

  /** The unit suffix `formatArea` prints after the rounded number. */
  function AreaSuffix(units: Units): (s: string)
    ensures s == "ft²" <==> units == Imperial
    ensures s == "m²" <==> units == Metric
  {
    match units
    case Imperial => "ft²"
    case Metric => assert |"m²"| != |"ft²"|; "m²"
  }

  /** Converting metres to feet and reading the feet back as metres is the identity. */
  lemma MetersFeetRoundTrip(v: real)
    ensures ToMeters(ToFeet(v, Metric), Imperial) == v
    ensures ToFeet(ToMeters(v, Imperial), Metric) == v
  {
  }

  /** Converting an area is converting both of its sides. */
  lemma SquareValueIsProductOfLengths(a: real, b: real, units: Units)
    ensures SquareValue(a * b, units) == ToMeters(a, units) * ToMeters(b, units)
  {
    if units == Imperial {
      calc {
        ToMeters(a, units) * ToMeters(b, units);
        (a / FeetInMeter) * (b / FeetInMeter);
        (a * b) / (FeetInMeter * FeetInMeter);
      }
    }
  }
}
