/**
 * The converter's entry points: `convert`, which never raises and reports
 * every outcome as a display string, and the helpers that list the units of
 * a category and choose the default pair of units.
 */
module Converter {
  import opened Wrappers
  import opened Units
  import Linear
  import Temperature

  const INVALID_VALUE_TEXT: string := "Please enter a valid numeric value."

  /**
   * The text of the exception `convert` catches. For an unknown category
   * it is the text of the dictionary's KeyError: the key between quotes.
   */
  function Message(e: ConvError): (r: string)
    ensures |r| > 0 && (r[0] == '\'' <==> e.UnknownCategory?)
  {
    match e
    case UnknownCategory(category) => "'" + category + "'"
    case UnsupportedUnit => "Unsupported unit for selected category."
    case UnknownTemperatureUnit => "Unknown temperature unit."
  }

  /** A unit label that `convert` accepts in `category`. */
  predicate Accepts(category: string, unitLabel: string) {
    if category == TEMPERATURE then Temperature.ScaleOf(unitLabel).Some?
    else FactorIn(category, unitLabel).Some?
  }

  /** The error a failed conversion in `category` reports. */
  function ExpectedError(category: string): ConvError {
    if category == TEMPERATURE then UnknownTemperatureUnit
    else if category in Names(LINEAR_UNITS) then UnsupportedUnit
    else UnknownCategory(category)
  }

  /**
   * What the guarded part of `convert` computes from an already parsed
   * value: the temperature path for "temperature", the linear path for
   * every other name. It succeeds exactly when both labels are accepted,
   * and a failure names its cause.
   */
  function Evaluate(category: string, fromUnit: string, toUnit: string, value: real): (r: Result<real, ConvError>)
    ensures r.Success? <==> Accepts(category, fromUnit) && Accepts(category, toUnit)
    ensures r.Failure? ==> r.error == ExpectedError(category)
  {
    if category == TEMPERATURE then Temperature.ConvertTemperature(fromUnit, toUnit, value)
    else Linear.ConvertLinear(category, fromUnit, toUnit, value)
  }

  /**
   * `convert`. `parse` stands for Python's float() on the input (None where
   * it raises) and `fmt` for the six-significant-digit formatting. A value
   * that does not parse gives the invalid-value text, any other failure
   * "Error: " and its message, and a success echoes the parsed input and the
   * result with both unit labels.
   */
  function Convert(
    parse: string -> Option<real>, fmt: real -> string,
    category: string, fromUnit: string, toUnit: string, rawValue: string): (s: string)
    ensures parse(rawValue).None? ==> s == INVALID_VALUE_TEXT
    ensures parse(rawValue).Some? && !(Accepts(category, fromUnit) && Accepts(category, toUnit)) ==>
      s == "Error: " + Message(ExpectedError(category))
    ensures parse(rawValue).Some? && Accepts(category, fromUnit) && Accepts(category, toUnit) ==>
      s == fmt(parse(rawValue).value) + " " + fromUnit + " = "
        + fmt(Evaluate(category, fromUnit, toUnit, parse(rawValue).value).value) + " " + toUnit
  {
    match parse(rawValue)
    case None => INVALID_VALUE_TEXT
    case Some(value) =>
      match Evaluate(category, fromUnit, toUnit, value)
      case Failure(e) => "Error: " + Message(e)
      case Success(out) => fmt(value) + " " + fromUnit + " = " + fmt(out) + " " + toUnit
  }

  /**
   * `units_for_category`: the three temperature labels for "temperature",
   * the keys of the category's table in declaration order otherwise, and a
   * KeyError for a name that is no category. Every category offers at
   * least two distinct units, and `convert` accepts each of them.
   */
  function UnitsForCategory(category: string): (r: Result<seq<string>, ConvError>)
    ensures r.Success? <==> category in ALL_CATEGORIES
    ensures r.Failure? ==> r.error == UnknownCategory(category)
    ensures category == TEMPERATURE ==> r == Success(Temperature.TEMP_UNITS)
    ensures category != TEMPERATURE && UnitsOf(category).Some? ==> r == Success(Labels(UnitsOf(category).value))
    ensures r.Success? ==> |r.value| >= 2
    ensures r.Success? ==> forall i, j :: 0 <= i < j < |r.value| ==> r.value[i] != r.value[j]
    ensures r.Success? ==> forall u :: u in r.value ==> Accepts(category, u)
  {
    CategoryListed(category);
    if category == TEMPERATURE then
      TemperatureUnitsOffered();
      Success(Temperature.TEMP_UNITS)
    else
      match UnitsOf(category)
      case None => Failure(UnknownCategory(category))
      case Some(units) =>
        LinearUnitsOffered(category, units);
        Success(Labels(units))
  }

  lemma CategoryListed(category: string)
    ensures category in ALL_CATEGORIES <==> category == TEMPERATURE || category in Names(LINEAR_UNITS)
  {
  }

  lemma TemperatureUnitsOffered()
    ensures |Temperature.TEMP_UNITS| >= 2
    ensures forall i, j :: 0 <= i < j < |Temperature.TEMP_UNITS| ==> Temperature.TEMP_UNITS[i] != Temperature.TEMP_UNITS[j]
    ensures forall u :: u in Temperature.TEMP_UNITS ==> Accepts(TEMPERATURE, u)
  {
    Temperature.TempUnitsDistinct();
    Temperature.TempUnitsScales();
  }

  lemma LinearUnitsOffered(category: string, units: seq<Unit>)
    requires category != TEMPERATURE && UnitsOf(category) == Some(units)
    ensures |Labels(units)| >= 2
    ensures forall i, j :: 0 <= i < j < |Labels(units)| ==> Labels(units)[i] != Labels(units)[j]
    ensures forall u :: u in Labels(units) ==> Accepts(category, u)
  {
    TablesWellFormed();
  }

  /**
   * The default pair chosen when the category changes: the first unit as
   * source, and the second as target when there is one, else the first.
   */
  function PickDefaults(units: seq<string>): (r: (string, string))
    requires |units| > 0
    ensures r.0 == units[0]
    ensures r.1 == if |units| > 1 then units[1] else units[0]
    ensures r.0 != r.1 <==> |units| > 1 && units[0] != units[1]
  {
    var defaultFrom := units[0];
    var defaultTo := if |units| > 1 then units[1] else units[0];
    (defaultFrom, defaultTo)
  }

  /**
   * The choice of default units in `on_category_change`: for every category
   * two different units, both accepted by `convert`.
   */
  function DefaultUnits(category: string): (r: Result<(string, string), ConvError>)
    ensures r.Success? <==> category in ALL_CATEGORIES
    ensures r.Failure? ==> r.error == UnknownCategory(category)
    ensures r.Success? ==> r.value == PickDefaults(UnitsForCategory(category).value)
    ensures r.Success? ==> r.value.0 != r.value.1
    ensures r.Success? ==> Accepts(category, r.value.0) && Accepts(category, r.value.1)
  {
    match UnitsForCategory(category)
    case Failure(e) => Failure(e)
    case Success(units) => Success(PickDefaults(units))
  }

  /** Converting any accepted unit to itself gives back the input exactly. */
  lemma EvaluateIdentity(category: string, u: string, value: real)
    requires Accepts(category, u)
    ensures Evaluate(category, u, u, value) == Success(value)
  {
    if category == TEMPERATURE {
      Temperature.TemperatureIdentity(u, value);
    } else {
      Linear.LinearIdentity(UnitsOf(category).value, u, value);
    }
  }

  /** Converting from a to b and back to a gives back the input exactly, in every category. */
  lemma EvaluateRoundTrip(category: string, a: string, b: string, value: real)
    requires Accepts(category, a) && Accepts(category, b)
    ensures Evaluate(category, b, a, Evaluate(category, a, b, value).value) == Success(value)
  {
    if category == TEMPERATURE {
      Temperature.TemperatureRoundTrip(a, b, value);
    } else {
      Linear.LinearRoundTrip(UnitsOf(category).value, a, b, value);
    }
  }

  /** Converting a to b and then b to c is converting a to c, in every category. */
  lemma EvaluateCompose(category: string, a: string, b: string, c: string, value: real)
    requires Accepts(category, a) && Accepts(category, b) && Accepts(category, c)
    ensures Evaluate(category, b, c, Evaluate(category, a, b, value).value) == Evaluate(category, a, c, value)
  {
    if category == TEMPERATURE {
      Temperature.TemperatureCompose(a, b, c, value);
    } else {
      Linear.LinearCompose(UnitsOf(category).value, a, b, c, value);
    }
  }

  /** A same-unit conversion reports the parsed value on both sides. */
  lemma ConvertSameUnit(
    parse: string -> Option<real>, fmt: real -> string,
    category: string, u: string, rawValue: string)
    requires parse(rawValue).Some? && Accepts(category, u)
    ensures Convert(parse, fmt, category, u, u, rawValue)
         == fmt(parse(rawValue).value) + " " + u + " = " + fmt(parse(rawValue).value) + " " + u
  {
    EvaluateIdentity(category, u, parse(rawValue).value);
  }

  // Worked examples, exact over the reals.

  /** 1 meter is 0.001 kilometer. */
  lemma MeterToKilometer()
    ensures Evaluate("length", "meter (m)", "kilometer (km)", 1.0) == Success(0.001)
  {
    DeclaredFactor(0, 0);
    DeclaredFactor(0, 1);
  }

  /** 2 pound is 0.90718474 kilogram. */
  lemma PoundToKilogram()
    ensures Evaluate("mass", "pound (lb)", "kilogram (kg)", 2.0) == Success(0.90718474)
  {
    DeclaredFactor(1, 4);
    DeclaredFactor(1, 0);
  }

  /** 98.6 degrees Fahrenheit is exactly 37 degrees Celsius. */
  lemma BodyTemperature()
    ensures Evaluate("temperature", "Fahrenheit (°F)", "Celsius (°C)", 98.6) == Success(37.0)
  {
    Temperature.TempUnitsDistinct();
    Temperature.TempUnitsScales();
  }

  /** 1073741824 bytes is exactly one binary gigabyte. */
  lemma BytesToGigabyte()
    ensures Evaluate("data", "byte (B)", "gigabyte (GB, 1024)", 1073741824.0) == Success(1.0)
  {
    DeclaredFactor(5, 0);
    DeclaredFactor(5, 3);
  }

  /** An unknown category is reported with the KeyError's text, not raised. */
  lemma UnknownCategoryReported(parse: string -> Option<real>, fmt: real -> string)
    requires parse("1") == Some(1.0)
    ensures Convert(parse, fmt, "weight", "kg", "lb", "1") == "Error: 'weight'"
  {
    assert "weight" !in Names(LINEAR_UNITS);
  }

  /** Input that does not parse is reported, not raised. */
  lemma InvalidValueReported(parse: string -> Option<real>, fmt: real -> string)
    requires parse("not-a-number") == None
    ensures Convert(parse, fmt, "length", "meter (m)", "meter (m)", "not-a-number") == INVALID_VALUE_TEXT
  {
  }
}
