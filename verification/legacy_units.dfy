/** Display-unit conversion of the legacy prototype (legacy/blocks-prototype/src/lib/units.ts).
    Stored values are metres; the display shows metres or feet. */
module LegacyUnits {
  import opened Types

  const MetersToFeet: real := 3.28084
  const SquareMetersToFeet: real := MetersToFeet * MetersToFeet

  /** The length suffix of each unit system. */
  function LengthLabel(units: Units): (l: string)
    ensures units == Metric <==> l == "m"
    ensures units == Imperial <==> l == "ft"
  {
    match units
    case Metric => "m"
    case Imperial => "ft"
  }

  /** The area suffix of each unit system. */
  function AreaLabel(units: Units): (l: string)
    ensures units == Metric <==> l == "m²"
    ensures units == Imperial <==> l == "ft²"
  {
    match units
    case Metric => "m²"
    case Imperial => assert |"ft²"| != |"m²"|; "ft²"
  }

  /** A stored length in metres, as shown. */
  function ToDisplayUnits(valueInMeters: real, units: Units): (r: real)
    ensures units == Metric ==> r == valueInMeters
    ensures units == Imperial ==> r / MetersToFeet == valueInMeters
  {
    if units == Imperial then valueInMeters * MetersToFeet else valueInMeters
  }

  /** A shown length, as stored in metres. */
  function FromDisplayUnits(value: real, units: Units): (r: real)
    ensures units == Metric ==> r == value
    ensures units == Imperial ==> r * MetersToFeet == value
  {
    if units == Imperial then value / MetersToFeet else value
  }

  /** A stored area in square metres, as shown. */
  function ToDisplayArea(valueInSquareMeters: real, units: Units): (r: real)
    ensures units == Metric ==> r == valueInSquareMeters
    ensures units == Imperial ==> r / MetersToFeet / MetersToFeet == valueInSquareMeters
  {
    if units == Imperial then valueInSquareMeters * SquareMetersToFeet else valueInSquareMeters
  }

  /** Reading back what is shown gives the stored value, and showing what is read back gives the entry. */
  lemma DisplayRoundTrip(v: real, units: Units)
    ensures FromDisplayUnits(ToDisplayUnits(v, units), units) == v
    ensures ToDisplayUnits(FromDisplayUnits(v, units), units) == v
  {
  }

  /** The area factor is the length factor squared, so the shown area of a
      rectangle is the product of its shown sides. */
  lemma DisplayAreaIsProductOfLengths(a: real, b: real, units: Units)
    ensures ToDisplayArea(a * b, units) == ToDisplayUnits(a, units) * ToDisplayUnits(b, units)
  {
    if units == Imperial {
      calc {
        ToDisplayUnits(a, units) * ToDisplayUnits(b, units);
        (a * MetersToFeet) * (b * MetersToFeet);
        (a * b) * (MetersToFeet * MetersToFeet);
      }
    }
  }
}
