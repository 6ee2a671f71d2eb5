/**
 * The unit table of the converter: six linear categories, each a table of
 * unit labels with the number of base units one such unit is worth, in the
 * order the table declares them, plus the temperature category, which has no
 * table of factors.
 */
module Units {
  import opened Wrappers

  /** Scale factors are strictly positive, so dividing by one is always defined. */
  type PositiveReal = r: real | r > 0.0 witness 1.0

  /** One of this unit equals `factor` base units of its category. */
  datatype Unit = Unit(name: string, factor: PositiveReal)

  /** A linear category and its unit table in declaration order. */
  datatype Category = Category(name: string, units: seq<Unit>)

  /** What the conversion engine reports instead of a result. */
  datatype ConvError =
    | UnknownCategory(category: string)  // the table has no such category
    | UnsupportedUnit                    // a label outside the category's table
    | UnknownTemperatureUnit             // a label naming none of the three scales

  const LINEAR_UNITS: seq<Category> := [
    Category("length", [               // base: meter
      Unit("meter (m)", 1.0),
      Unit("kilometer (km)", 1000.0),
      Unit("centimeter (cm)", 0.01),
      Unit("millimeter (mm)", 0.001),
      Unit("mile (mi)", 1609.344),
      Unit("yard (yd)", 0.9144),
      Unit("foot (ft)", 0.3048),
      Unit("inch (in)", 0.0254)
    ]),
    Category("mass", [                 // base: kilogram
      Unit("kilogram (kg)", 1.0),
      Unit("gram (g)", 0.001),
      Unit("milligram (mg)", 0.000001),
      Unit("metric ton (t)", 1000.0),
      Unit("pound (lb)", 0.45359237),
      Unit("ounce (oz)", 0.028349523125)
    ]),
    Category("volume", [               // base: liter
      Unit("liter (L)", 1.0),
      Unit("milliliter (mL)", 0.001),
      Unit("US gallon (gal)", 3.785411784),
      Unit("US quart (qt)", 0.946352946),
      Unit("US pint (pt)", 0.473176473),
      Unit("cup (US)", 0.2365882365),
      Unit("tablespoon (tbsp)", 0.01478676478),
      Unit("teaspoon (tsp)", 0.00492892159)
    ]),
    Category("time", [                 // base: second
      Unit("second (s)", 1.0),
      Unit("minute (min)", 60.0),
      Unit("hour (h)", 3600.0),
      Unit("day (d)", 86400.0)
    ]),
    Category("speed", [                // base: meter per second
      Unit("meter/second (m/s)", 1.0),
      Unit("kilometer/hour (km/h)", 1000.0 / 3600.0),
      Unit("mile/hour (mph)", 1609.344 / 3600.0),
      Unit("knot (kn)", 1852.0 / 3600.0)
    ]),
    Category("data", [                 // base: byte, binary multiples
      Unit("byte (B)", 1.0),
      Unit("kilobyte (KB, 1024)", 1024.0),
      Unit("megabyte (MB, 1024)", 1024.0 * 1024.0),
      Unit("gigabyte (GB, 1024)", 1024.0 * 1024.0 * 1024.0),
      Unit("terabyte (TB, 1024)", 1024.0 * 1024.0 * 1024.0 * 1024.0)
    ])
  ]

  /** The one category outside the linear table. */
  const TEMPERATURE: string := "temperature"

  /** The labels of a unit table, in declaration order (a dictionary's keys). */
  function Labels(units: seq<Unit>): (r: seq<string>)
    ensures |r| == |units|
    ensures forall i :: 0 <= i < |units| ==> r[i] == units[i].name
  {
    if units == [] then [] else [units[0].name] + Labels(units[1..])
  }

  /** The category names of a table, in declaration order. */
  function Names(table: seq<Category>): seq<string> {
    if table == [] then [] else [table[0].name] + Names(table[1..])
  }

  /** Every category offered: the linear ones in table order, then temperature. */
  const ALL_CATEGORIES: seq<string> := Names(LINEAR_UNITS) + [TEMPERATURE]

  ghost predicate DistinctLabels(units: seq<Unit>) {
    forall i, j :: 0 <= i < j < |units| ==> units[i].name != units[j].name
  }

  ghost predicate DistinctNames(table: seq<Category>) {
    forall i, j :: 0 <= i < j < |table| ==> table[i].name != table[j].name
  }

  /** Dictionary lookup of a category by name; None plays the part of a KeyError. */
  function FindCategory(table: seq<Category>, name: string): (r: Option<seq<Unit>>)
    ensures r.Some? <==> name in Names(table)
    ensures r.Some? ==> Category(name, r.value) in table
  {
    if table == [] then None
    else if table[0].name == name then Some(table[0].units)
    else FindCategory(table[1..], name)
  }

  /** Dictionary lookup of a unit's factor by label; None when the label is not a key. */
  function FactorOf(units: seq<Unit>, unitLabel: string): (r: Option<PositiveReal>)
    ensures r.Some? <==> unitLabel in Labels(units)
    ensures r.Some? ==> Unit(unitLabel, r.value) in units
  {
    if units == [] then None
    else if units[0].name == unitLabel then Some(units[0].factor)
    else FactorOf(units[1..], unitLabel)
  }

  /** With distinct keys, looking a declared label up gives back the factor declared with it. */
  lemma {:induction false} FactorOfDeclared(units: seq<Unit>, i: nat)
    requires DistinctLabels(units)
    requires i < |units|
    ensures FactorOf(units, units[i].name) == Some(units[i].factor)
  {
    if i > 0 {
      assert units[0].name != units[i].name;
      assert DistinctLabels(units[1..]) by {
        forall j, k | 0 <= j < k < |units[1..]|
          ensures units[1..][j].name != units[1..][k].name
        {
          assert units[1..][j] == units[j + 1] && units[1..][k] == units[k + 1];
        }
      }
      FactorOfDeclared(units[1..], i - 1);
    }
  }

  /** With distinct names, looking a declared category up gives back the table declared with it. */
  lemma {:induction false} FindCategoryDeclared(table: seq<Category>, k: nat)
    requires DistinctNames(table)
    requires k < |table|
    ensures FindCategory(table, table[k].name) == Some(table[k].units)
  {
    if k > 0 {
      assert table[0].name != table[k].name;
      assert DistinctNames(table[1..]) by {
        forall j, m | 0 <= j < m < |table[1..]|
          ensures table[1..][j].name != table[1..][m].name
        {
          assert table[1..][j] == table[j + 1] && table[1..][m] == table[m + 1];
        }
      }
      FindCategoryDeclared(table[1..], k - 1);
    }
  }

  /** The unit table of a linear category, or None for a name the table lacks. */
  function UnitsOf(category: string): Option<seq<Unit>> {
    FindCategory(LINEAR_UNITS, category)
  }

  /** The factor of `unitLabel` in `category`'s table, when both exist. */
  function FactorIn(category: string, unitLabel: string): Option<PositiveReal> {
    match UnitsOf(category)
    case None => None
    case Some(units) => FactorOf(units, unitLabel)
  }

  /** Every linear table offers at least two units, with distinct labels. */
  lemma TablesWellFormed()
    ensures forall c :: c in LINEAR_UNITS ==> |c.units| >= 2 && DistinctLabels(c.units)
  {
    forall k | 0 <= k < |LINEAR_UNITS|
      ensures DistinctLabels(LINEAR_UNITS[k].units)
    {
      DistinctInTable(k);
    }
  }

  // One lemma per table, so that each proof compares only that table's labels.

  lemma DistinctInTable(k: nat)
    requires k < |LINEAR_UNITS|
    ensures DistinctLabels(LINEAR_UNITS[k].units)
  {
    match k
    case 0 => DistinctLength();
    case 1 => DistinctMass();
    case 2 => DistinctVolume();
    case 3 => DistinctTime();
    case 4 => DistinctSpeed();
    case _ => DistinctData();
  }

  lemma DistinctLength()
    ensures DistinctLabels(LINEAR_UNITS[0].units)
  {
  }

  lemma DistinctMass()
    ensures DistinctLabels(LINEAR_UNITS[1].units)
  {
  }

  lemma DistinctVolume()
    ensures DistinctLabels(LINEAR_UNITS[2].units)
  {
  }

  lemma DistinctTime()
    ensures DistinctLabels(LINEAR_UNITS[3].units)
  {
  }

  lemma DistinctSpeed()
    ensures DistinctLabels(LINEAR_UNITS[4].units)
  {
  }

  lemma DistinctData()
    ensures DistinctLabels(LINEAR_UNITS[5].units)
  {
  }

  /** Category names are distinct and none is "temperature", so the temperature branch shadows no table. */
  lemma NamesWellFormed()
    ensures DistinctNames(LINEAR_UNITS)
    ensures TEMPERATURE !in Names(LINEAR_UNITS)
  {
  }

  /** The `i`-th unit of the `k`-th category has the factor declared with it. */
  lemma DeclaredFactor(k: nat, i: nat)
    requires k < |LINEAR_UNITS| && i < |LINEAR_UNITS[k].units|
    ensures FactorIn(LINEAR_UNITS[k].name, LINEAR_UNITS[k].units[i].name) == Some(LINEAR_UNITS[k].units[i].factor)
  {
    NamesWellFormed();
    TablesWellFormed();
    FindCategoryDeclared(LINEAR_UNITS, k);
    FactorOfDeclared(LINEAR_UNITS[k].units, i);
  }
}
