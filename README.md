# Unit converter engine, modelled in Dafny

This project models the conversion engine of a small unit converter
(`app.py`). The engine converts a value between two units of one category
and reports the outcome as a display string:

- six **linear** categories (length, mass, volume, time, speed, data), each a
  table of unit labels with the number of base units one unit is worth,
  converted by a change of basis through the implicit base unit;
- the **temperature** category, converted by an affine map into Celsius and
  one out of it, the scale being recognised by the word "Celsius",
  "Fahrenheit" or "Kelvin" in the label, tested in that order;
- `convert`, which parses the value, picks the temperature or the linear
  path, and turns every failure into a string instead of raising;
- `units_for_category` and the default pair of units chosen when the
  category changes.

`streamlit_app.py` is a line-for-line copy of `app.py` (the
same definitions at the same line numbers), so the one model covers
both files: every row below citing `app.py:N` describes
`streamlit_app.py:N` equally.

Modules, one per part of the engine:

- `Wrappers` (wrappers.dfy): `Option` and `Result`.
- `Text` (text.dfy): the substring test behind `"Celsius" in label`.
- `Units` (units.dfy): the unit table `LINEAR_UNITS`, `TEMPERATURE`,
  `ALL_CATEGORIES`, the dictionary lookups and the error kinds. Scale
  factors have the type `PositiveReal`, so the table itself is checked to
  hold only strictly positive factors and every division by a factor is
  defined.
- `Linear` (linear.dfy): `convert_linear` and its laws.
- `Temperature` (temperature.dfy): `temp_to_celsius`, `celsius_to_target`,
  the scale dispatch and their laws.
- `Converter` (converter.dfy): `convert`, `units_for_category`, the default
  selection, the laws of the whole engine and worked examples.

Values are Dafny `real`s. Every factor in the table is a decimal literal or
a ratio or power of them, hence an exact rational, so identity, inverse and
round-trip hold as equalities. Parsing (`float(value)`) and number
formatting (`f"{x:.6g}"`) are parameters of `Convert`: `parse` returns
`None` where `float` raises, and `fmt` is any function from reals to
strings.

Points of the code the model keeps as they are:

- The code raises two different unit errors: "Unsupported unit for
  selected category." for a linear label (app.py:71) and "Unknown
  temperature unit." for a temperature label (app.py:84, 94). `ConvError`
  has both.
- In both files an unrecognised temperature label raises (app.py:83-84,
  93-94); it is never passed through unconverted. The model fails the same
  way.
- `convert` reports failures as strings ("Please enter a valid numeric
  value." or "Error: " and the exception's text), and `Convert` does the
  same.

## Model

| member | source | states |
|---|---|---|
| `Text.ContainsMeansOccurs` | app.py:77-81 | the left-to-right scan behind `word in label` is true exactly when the word occurs at some position of the label |
| `Units.Labels` | app.py:126 | a table's keys in declaration order: one per unit, the i-th being the i-th unit's label |
| `Units.FindCategory` | app.py:69 | the category lookup succeeds exactly for a declared category name and then yields a table declared under that name |
| `Units.FactorOf` | app.py:70-74 | the unit lookup succeeds exactly when the label is a key of the table and then yields a factor declared with that label |
| `Units.FactorOfDeclared` | app.py:11-59 | with distinct keys, looking up a declared label gives back exactly the factor written beside it |
| `Units.FindCategoryDeclared` | app.py:11-59 | with distinct category names, looking up a declared name gives back exactly the table written under it |
| `Units.TablesWellFormed` | app.py:11-59 | every linear table has at least two units and no label twice |
| `Units.NamesWellFormed` | app.py:11-63 | the category names are distinct and none is "temperature", so the temperature branch of `convert` hides no table |
| `Units.DeclaredFactor` | app.py:11-59 | for every category and unit written in the table, the lookups of `convert_linear` find the factor written for it |
| `Linear.ConvertIn` | app.py:70-74 | converting within one table succeeds exactly when both labels are keys of it, and otherwise fails with the unsupported-unit error |
| `Linear.ConvertLinear` | app.py:68-74 | `convert_linear` succeeds exactly when both labels are in the category's table; it fails with the unsupported-unit error for a known category and with the category's KeyError otherwise |
| `Linear.SameBaseQuantity` | app.py:73-74 | input and result are worth the same number of base units: `result * f_to == value * f_from` |
| `Linear.LinearIdentity` | app.py:73-74 | converting a unit to itself returns the input exactly |
| `Linear.LinearRoundTrip` | app.py:73-74 | converting a to b and back to a returns the input exactly |
| `Linear.LinearCompose` | app.py:73-74 | converting a to b then b to c equals converting a to c |
| `Linear.LinearScaling` | app.py:73-74 | the conversion is linear: k times the input gives k times the output |
| `Temperature.ScaleOfDispatch` | app.py:77-94 | a label naming Celsius anywhere is Celsius, else one naming Fahrenheit is Fahrenheit, else one naming Kelvin is Kelvin, and a label naming none of the three has no scale |
| `Temperature.TempToCelsius` | app.py:76-84 | `temp_to_celsius` succeeds exactly for a label naming a scale and otherwise fails with "Unknown temperature unit." |
| `Temperature.CelsiusToTarget` | app.py:86-94 | `celsius_to_target` succeeds exactly for a label naming a scale and otherwise fails with "Unknown temperature unit." |
| `Temperature.ConvertTemperature` | app.py:104-106 | the temperature path succeeds exactly when both labels name a scale, and otherwise fails with "Unknown temperature unit." |
| `Temperature.ToThenFromCelsius` | app.py:76-94 | `celsius_to_target(temp_to_celsius(v, u), u) == v` for every label naming a scale |
| `Temperature.FromThenToCelsius` | app.py:76-94 | `temp_to_celsius(celsius_to_target(c, u), u) == c` for every label naming a scale |
| `Temperature.TemperatureIdentity` | app.py:104-106 | converting a temperature unit to itself returns the input exactly |
| `Temperature.TemperatureRoundTrip` | app.py:104-106 | converting a to b and back to a returns the input exactly |
| `Temperature.TemperatureCompose` | app.py:104-106 | converting a to b then b to c equals converting a to c |
| `Temperature.TemperatureMonotone` | app.py:76-94 | every conversion between scales is strictly increasing |
| `Temperature.TempUnitsScales` | app.py:61 | the three offered labels name Celsius, Fahrenheit and Kelvin respectively |
| `Temperature.TempUnitsDistinct` | app.py:61 | the three offered temperature labels are pairwise distinct |
| `Temperature.CelsiusLabel` | app.py:77-78 | "Celsius (°C)" dispatches to Celsius |
| `Temperature.FahrenheitLabel` | app.py:79-80 | "Fahrenheit (°F)" dispatches to Fahrenheit |
| `Temperature.KelvinLabel` | app.py:81-82 | "Kelvin (K)" dispatches to Kelvin |
| `Converter.Evaluate` | app.py:103-109 | the guarded computation of `convert` succeeds exactly when both labels are accepted in the category, and a failure carries the error of its cause |
| `Converter.Convert` | app.py:96-118 | never raises: an unparsable value gives "Please enter a valid numeric value.", any other failure "Error: " and the message, and success `fmt(value) from = fmt(out) to` |
| `Converter.Message` | app.py:69-118 | the text after "Error: ": the ValueError messages of app.py:71, 84 and 94, and the KeyError text of app.py:69 (the key between quotes); a message starts with a quote exactly when it reports an unknown category |
| `Converter.UnitsForCategory` | app.py:123-126 | succeeds exactly for the listed categories: the three temperature labels for "temperature", the table's keys in declaration order otherwise; at least two pairwise distinct units, each accepted by `convert` |
| `Converter.PickDefaults` | app.py:130-131 | the default source is the first unit and the default target the second when there are two or more, else the first; they differ exactly when there is a second unit different from the first |
| `Converter.DefaultUnits` | app.py:128-131 | for every listed category the pair is the first and second units of `units_for_category`, two different units both accepted by `convert`; an unknown category fails with its KeyError |
| `Converter.CategoryListed` | app.py:63 | the listed categories are the linear table's names and "temperature" |
| `Converter.TemperatureUnitsOffered` | app.py:124-125 | the temperature labels are at least two, pairwise distinct, and all accepted |
| `Converter.LinearUnitsOffered` | app.py:126 | a linear category's keys are at least two, pairwise distinct, and all accepted |
| `Converter.EvaluateIdentity` | app.py:103-109 | in every category, converting an accepted unit to itself returns the input exactly |
| `Converter.EvaluateRoundTrip` | app.py:103-109 | in every category, converting a to b and back returns the input exactly |
| `Converter.EvaluateCompose` | app.py:103-109 | in every category, converting a to b then b to c equals converting a to c |
| `Converter.ConvertSameUnit` | app.py:96-116 | a same-unit conversion shows the parsed value on both sides |
| `Converter.MeterToKilometer` | app.py:13-14 | 1 meter is 0.001 kilometer |
| `Converter.PoundToKilogram` | app.py:23-27 | 2 pound is 0.90718474 kilogram |
| `Converter.BodyTemperature` | app.py:79-80 | 98.6 degrees Fahrenheit is exactly 37 degrees Celsius |
| `Converter.BytesToGigabyte` | app.py:53-56 | 1073741824 bytes is exactly one gigabyte of 1024³ bytes |
| `Converter.UnknownCategoryReported` | app.py:117-118 | an unknown category "weight" gives "Error: 'weight'" |
| `Converter.InvalidValueReported` | app.py:98-101 | an unparsable value gives "Please enter a valid numeric value." |

## Left out

- The Gradio interface (app.py:139-172): the widgets, the event wiring and `swap_units`; presentation code over a library outside this model.
- The `gr.update(...)` objects returned by `on_category_change` (app.py:133-134): only the choice of default units is modelled, by `Converter.DefaultUnits`.
- Server launch and the `PORT` environment variable (app.py:175-176): process configuration and I/O.
- IEEE-754 arithmetic: the model computes over exact reals, so the rounding of `5.0/9.0`, of the decimal factors and the drift of a float round trip are not modelled; the laws are stated for the reals.
- Converter.Convert: `float(value)` is the parameter `parse`, so which strings Python accepts, and that it accepts "nan" and "inf" and converts them, is not modelled; `fmt` is the parameter standing for `f"{x:.6g}"`.
- Converter.Convert: for an unknown category the text after "Error: " is the key between single quotes; Python's `repr` escaping of quotes, backslashes and unprintable characters in the key is not modelled.
- Converter.UnitsForCategory: Python returns the very `TEMP_UNITS` list object, so a caller mutating it would change the constant; the model returns a value.
