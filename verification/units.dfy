/** Conversion between the calculator's display units and the SI units the
    property engine works in.

    Temperature is shown in degrees Celsius and handed to the engine in kelvin,
    pressure in bar against pascal, enthalpy and entropy in kJ-based units
    against J-based ones. Every other property code (quality, density,
    viscosity, conductivity, specific heats, and any code the table does not
    know) is passed through unchanged. Codes are the engine's own strings.
 */
module Units {

  /** Kelvin at zero degrees Celsius. */
  const CelsiusOffset: real := 273.15

  /** Pascal per bar. */
  const PascalPerBar: real := 100000.0

  /** Joule per kilojoule. */
  const JoulePerKilojoule: real := 1000.0

  /** The codes whose display unit differs from the engine's unit. */
  const ConvertedCodes: set<string> := {"T", "P", "H", "S"}

  /** Display units to engine (SI) units. Total: an unknown code falls through. */
  function ConvertInput(name: string, value: real): (r: real)
    ensures ConvertOutput(name, r) == value
    ensures name !in ConvertedCodes ==> r == value
  {
    if name == "T" then value + CelsiusOffset
    else if name == "P" then value * PascalPerBar
    else if name in ["H", "S"] then value * JoulePerKilojoule
    else value
  }

  /** Engine (SI) units back to display units. Total: an unknown code falls through. */
  function ConvertOutput(name: string, value: real): (r: real)
    ensures name !in ConvertedCodes ==> r == value
  {
    if name == "T" then value - CelsiusOffset
    else if name == "P" then value / PascalPerBar
    else if name in ["H", "S"] then value / JoulePerKilojoule
    else value
  }

  /** The two conversions are mutually inverse bijections on the reals, for
      every code: a display value and an engine value correspond exactly when
      either conversion takes one to the other. */
  lemma ConversionsInverse(name: string, display: real, engine: real)
    ensures ConvertInput(name, display) == engine <==> ConvertOutput(name, engine) == display
    ensures ConvertOutput(name, ConvertInput(name, display)) == display
    ensures ConvertInput(name, ConvertOutput(name, engine)) == engine
  {
  }

  /** The slope of the display-to-engine conversion: one display unit is this
      many engine units. */
  function UnitsPerDisplayUnit(name: string): (k: real)
    ensures k > 0.0
    ensures name !in ConvertedCodes ==> k == 1.0
  {
    if name == "P" then PascalPerBar
    else if name in ["H", "S"] then JoulePerKilojoule
    else 1.0
  }

  /** Both conversions are affine with a positive slope: differences scale by
      the unit ratio (a temperature difference is the same in Celsius and in
      kelvin), so the order of values is preserved in both directions. */
  lemma ConversionsAffine(name: string, x: real, y: real)
    ensures ConvertInput(name, x) - ConvertInput(name, y) == UnitsPerDisplayUnit(name) * (x - y)
    ensures ConvertOutput(name, x) - ConvertOutput(name, y) == (x - y) / UnitsPerDisplayUnit(name)
    ensures x < y <==> ConvertInput(name, x) < ConvertInput(name, y)
    ensures x < y <==> ConvertOutput(name, x) < ConvertOutput(name, y)
  {
    var k := UnitsPerDisplayUnit(name);
    assert ConvertInput(name, x) - ConvertInput(name, y) == k * (x - y);
    assert ConvertOutput(name, x) - ConvertOutput(name, y) == (x - y) / k;
  }

  /** Zero is fixed by every conversion except temperature's offset; this is
      why a quality of 0 reaches the engine as 0. */
  lemma ZeroFixedUnlessTemperature(name: string)
    ensures ConvertInput(name, 0.0) == 0.0 <==> name != "T"
    ensures ConvertOutput(name, 0.0) == 0.0 <==> name != "T"
  {
  }

  /** Reference values: the freezing and boiling points of water, one bar,
      one kJ/kg, and one standard atmosphere. */
  lemma ReferenceValues()
    ensures ConvertInput("T", 0.0) == 273.15
    ensures ConvertInput("P", 1.0) == 100000.0
    ensures ConvertInput("H", 1.0) == 1000.0
    ensures ConvertInput("S", 1.0) == 1000.0
    ensures ConvertOutput("T", 373.15) == 100.0
    ensures ConvertOutput("P", 101325.0) == 1.01325
  {
  }
}
