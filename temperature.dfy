/**
 * Temperature conversion: an affine map into Celsius, the pivot scale, and
 * one out of it. The scale is recognised by the word the unit label
 * contains, tested in the order Celsius, Fahrenheit, Kelvin.
 */
module Temperature {
  import opened Wrappers
  import opened Text
  import opened Units

  datatype Scale = Celsius | Fahrenheit | Kelvin

  /** The labels the temperature category offers, in order. */
  const TEMP_UNITS: seq<string> := ["Celsius (°C)", "Fahrenheit (°F)", "Kelvin (K)"]

  /** The scale a label names: the first of "Celsius", "Fahrenheit", "Kelvin" it contains. */
  function ScaleOf(unitLabel: string): Option<Scale> {
    if Contains(unitLabel, "Celsius") then Some(Celsius)
    else if Contains(unitLabel, "Fahrenheit") then Some(Fahrenheit)
    else if Contains(unitLabel, "Kelvin") then Some(Kelvin)
    else None
  }

  /**
   * The dispatch in terms of where the words occur: a label naming Celsius
   * anywhere is Celsius whatever else it names, Fahrenheit wins over Kelvin,
   * and a label naming none of the three is no scale at all.
   */
  lemma ScaleOfDispatch(unitLabel: string)
    ensures ScaleOf(unitLabel) == Some(Celsius) <==> OccursIn("Celsius", unitLabel)
    ensures ScaleOf(unitLabel) == Some(Fahrenheit)
        <==> !OccursIn("Celsius", unitLabel) && OccursIn("Fahrenheit", unitLabel)
    ensures ScaleOf(unitLabel) == Some(Kelvin)
        <==> !OccursIn("Celsius", unitLabel) && !OccursIn("Fahrenheit", unitLabel) && OccursIn("Kelvin", unitLabel)
    ensures ScaleOf(unitLabel) == None
        <==> !OccursIn("Celsius", unitLabel) && !OccursIn("Fahrenheit", unitLabel) && !OccursIn("Kelvin", unitLabel)
  {
    ContainsMeansOccurs(unitLabel, "Celsius");
    ContainsMeansOccurs(unitLabel, "Fahrenheit");
    ContainsMeansOccurs(unitLabel, "Kelvin");
  }

  /** `temp_to_celsius`: the temperature `v` given in `fromUnit`, in degrees Celsius. */
  function TempToCelsius(v: real, fromUnit: string): (r: Result<real, ConvError>)
    ensures r.Failure? <==> ScaleOf(fromUnit).None?
    ensures r.Failure? ==> r.error == UnknownTemperatureUnit
  {
    match ScaleOf(fromUnit)
    case Some(Celsius) => Success(v)
    case Some(Fahrenheit) => Success((v - 32.0) * 5.0 / 9.0)
    case Some(Kelvin) => Success(v - 273.15)
    case None => Failure(UnknownTemperatureUnit)
  }

  /** `celsius_to_target`: the temperature `vc` degrees Celsius, in `toUnit`. */
  function CelsiusToTarget(vc: real, toUnit: string): (r: Result<real, ConvError>)
    ensures r.Failure? <==> ScaleOf(toUnit).None?
    ensures r.Failure? ==> r.error == UnknownTemperatureUnit
  {
    match ScaleOf(toUnit)
    case Some(Celsius) => Success(vc)
    case Some(Fahrenheit) => Success(vc * 9.0 / 5.0 + 32.0)
    case Some(Kelvin) => Success(vc + 273.15)
    case None => Failure(UnknownTemperatureUnit)
  }

  /** The temperature branch of `convert`: into Celsius from `fromUnit`, then out to `toUnit`. */
  function ConvertTemperature(fromUnit: string, toUnit: string, value: real): (r: Result<real, ConvError>)
    ensures r.Success? <==> ScaleOf(fromUnit).Some? && ScaleOf(toUnit).Some?
    ensures r.Failure? ==> r.error == UnknownTemperatureUnit
  {
    match TempToCelsius(value, fromUnit)
    case Failure(e) => Failure(e)
    case Success(c) => CelsiusToTarget(c, toUnit)
  }

  /** Leaving Celsius undoes entering it: each scale's two affine maps are inverse. */
  lemma ToThenFromCelsius(v: real, u: string)
    requires ScaleOf(u).Some?
    ensures CelsiusToTarget(TempToCelsius(v, u).value, u) == Success(v)
  {
  }

  /** Entering Celsius undoes leaving it. */
  lemma FromThenToCelsius(c: real, u: string)
    requires ScaleOf(u).Some?
    ensures TempToCelsius(CelsiusToTarget(c, u).value, u) == Success(c)
  {
  }

  /** Converting a temperature unit to itself gives back the input exactly. */
  lemma TemperatureIdentity(u: string, value: real)
    requires ScaleOf(u).Some?
    ensures ConvertTemperature(u, u, value) == Success(value)
  {
    ToThenFromCelsius(value, u);
  }

  /** Converting from a to b and back gives back the input exactly. */
  lemma TemperatureRoundTrip(a: string, b: string, value: real)
    requires ScaleOf(a).Some? && ScaleOf(b).Some?
    ensures ConvertTemperature(b, a, ConvertTemperature(a, b, value).value) == Success(value)
  {
    var c := TempToCelsius(value, a).value;
    FromThenToCelsius(c, b);
    ToThenFromCelsius(value, a);
  }

  /** Converting a to b and then b to c is the same as converting a to c directly. */
  lemma TemperatureCompose(a: string, b: string, c: string, value: real)
    requires ScaleOf(a).Some? && ScaleOf(b).Some? && ScaleOf(c).Some?
    ensures ConvertTemperature(b, c, ConvertTemperature(a, b, value).value) == ConvertTemperature(a, c, value)
  {
    FromThenToCelsius(TempToCelsius(value, a).value, b);
  }

  /** Every conversion between scales is strictly increasing: a warmer input stays warmer. */
  lemma TemperatureMonotone(a: string, b: string, v: real, w: real)
    requires ScaleOf(a).Some? && ScaleOf(b).Some?
    requires v < w
    ensures ConvertTemperature(a, b, v).value < ConvertTemperature(a, b, w).value
  {
  }

  /** Each offered label names the scale it is listed as. */
  lemma TempUnitsScales()
    ensures ScaleOf(TEMP_UNITS[0]) == Some(Celsius)
    ensures ScaleOf(TEMP_UNITS[1]) == Some(Fahrenheit)
    ensures ScaleOf(TEMP_UNITS[2]) == Some(Kelvin)
  {
    CelsiusLabel();
    FahrenheitLabel();
    KelvinLabel();
  }

  /** The three offered labels are pairwise distinct. */
  lemma TempUnitsDistinct()
    ensures forall i, j :: 0 <= i < j < |TEMP_UNITS| ==> TEMP_UNITS[i] != TEMP_UNITS[j]
  {
  }

  lemma CelsiusLabel()
    ensures ScaleOf("Celsius (°C)") == Some(Celsius)
  {
    assert "Celsius" <= "Celsius (°C)";
  }

  lemma FahrenheitLabel()
    ensures ScaleOf("Fahrenheit (°F)") == Some(Fahrenheit)
  {
    assert "Fahrenheit" <= "Fahrenheit (°F)";
    FirstLetterAbsent("Fahrenheit (°F)", "Celsius");
  }

  lemma KelvinLabel()
    ensures ScaleOf("Kelvin (K)") == Some(Kelvin)
  {
    assert "Kelvin" <= "Kelvin (K)";
    FirstLetterAbsent("Kelvin (K)", "Celsius");
    FirstLetterAbsent("Kelvin (K)", "Fahrenheit");
  }
}
