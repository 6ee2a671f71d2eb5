/**
 * Conversion within a linear category: a change of basis through the
 * category's implicit base unit.
 */
module Linear {
  import opened Wrappers
  import opened Units

  /** The value in base units, divided by the target unit's factor. */
  function ChangeOfBasis(value: real, fFrom: PositiveReal, fTo: PositiveReal): real {
    var valueInBase := value * fFrom;
    valueInBase / fTo
  }

  // The laws of the change of basis, over the reals.

  lemma BasisSameQuantity(v: real, fa: PositiveReal, fb: PositiveReal)
    ensures ChangeOfBasis(v, fa, fb) * fb == v * fa
  {
  }

  lemma BasisIdentity(v: real, f: PositiveReal)
    ensures ChangeOfBasis(v, f, f) == v
  {
  }

  lemma BasisThereAndBack(v: real, fa: PositiveReal, fb: PositiveReal)
    ensures ChangeOfBasis(ChangeOfBasis(v, fa, fb), fb, fa) == v
  {
  }

  lemma BasisThroughMiddle(v: real, fa: PositiveReal, fb: PositiveReal, fc: PositiveReal)
    ensures ChangeOfBasis(ChangeOfBasis(v, fa, fb), fb, fc) == ChangeOfBasis(v, fa, fc)
  {
  }

  lemma BasisScaling(k: real, v: real, fa: PositiveReal, fb: PositiveReal)
    ensures ChangeOfBasis(k * v, fa, fb) == k * ChangeOfBasis(v, fa, fb)
  {
  }

  /**
   * Converts `value` between two units of one unit table: a label that is not
   * a key of the table fails with UnsupportedUnit; otherwise the value goes to
   * base units and from there to the target unit.
   */
  function ConvertIn(factors: seq<Unit>, fromUnit: string, toUnit: string, value: real): (r: Result<real, ConvError>)
    ensures r.Success? <==> fromUnit in Labels(factors) && toUnit in Labels(factors)
    ensures r.Failure? ==> r.error == UnsupportedUnit
  {
    var fFrom := FactorOf(factors, fromUnit);
    var fTo := FactorOf(factors, toUnit);
    if fFrom.None? || fTo.None? then Failure(UnsupportedUnit)
    else Success(ChangeOfBasis(value, fFrom.value, fTo.value))
  }

  /**
   * `convert_linear`: looks the category's table up (an unknown category
   * fails as the dictionary lookup would) and converts within it.
   */
  function ConvertLinear(category: string, fromUnit: string, toUnit: string, value: real): (r: Result<real, ConvError>)
    ensures r.Success? <==> FactorIn(category, fromUnit).Some? && FactorIn(category, toUnit).Some?
    ensures r.Failure? ==> r.error == if category in Names(LINEAR_UNITS) then UnsupportedUnit else UnknownCategory(category)
  {
    match UnitsOf(category)
    case None => Failure(UnknownCategory(category))
    case Some(factors) => ConvertIn(factors, fromUnit, toUnit, value)
  }

  /** How many base units `value` of `unitLabel` is worth. */
  function InBase(factors: seq<Unit>, unitLabel: string, value: real): real
    requires unitLabel in Labels(factors)
  {
    value * FactorOf(factors, unitLabel).value
  }

  /** A successful conversion is worth the same number of base units as its input. */
  lemma SameBaseQuantity(factors: seq<Unit>, fromUnit: string, toUnit: string, value: real)
    requires fromUnit in Labels(factors) && toUnit in Labels(factors)
    ensures InBase(factors, toUnit, ConvertIn(factors, fromUnit, toUnit, value).value) == InBase(factors, fromUnit, value)
  {
    var fFrom, fTo := FactorOf(factors, fromUnit).value, FactorOf(factors, toUnit).value;
    BasisSameQuantity(value, fFrom, fTo);
  }

  /** Converting a unit to itself gives back the input exactly. */
  lemma LinearIdentity(factors: seq<Unit>, u: string, value: real)
    requires u in Labels(factors)
    ensures ConvertIn(factors, u, u, value) == Success(value)
  {
    BasisIdentity(value, FactorOf(factors, u).value);
  }

  /** Converting from a to b and back from b to a gives back the input exactly. */
  lemma LinearRoundTrip(factors: seq<Unit>, a: string, b: string, value: real)
    requires a in Labels(factors) && b in Labels(factors)
    ensures ConvertIn(factors, b, a, ConvertIn(factors, a, b, value).value) == Success(value)
  {
    BasisThereAndBack(value, FactorOf(factors, a).value, FactorOf(factors, b).value);
  }

  /** Converting a to b and then b to c is the same as converting a to c directly. */
  lemma LinearCompose(factors: seq<Unit>, a: string, b: string, c: string, value: real)
    requires a in Labels(factors) && b in Labels(factors) && c in Labels(factors)
    ensures ConvertIn(factors, b, c, ConvertIn(factors, a, b, value).value) == ConvertIn(factors, a, c, value)
  {
    BasisThroughMiddle(value, FactorOf(factors, a).value, FactorOf(factors, b).value, FactorOf(factors, c).value);
  }

  /** The conversion is linear: scaling the input scales the output by the same amount. */
  lemma LinearScaling(factors: seq<Unit>, a: string, b: string, k: real, value: real)
    requires a in Labels(factors) && b in Labels(factors)
    ensures ConvertIn(factors, a, b, k * value).value == k * ConvertIn(factors, a, b, value).value
  {
    BasisScaling(k, value, FactorOf(factors, a).value, FactorOf(factors, b).value);
  }
}
