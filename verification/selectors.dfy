/** The calculator's closed table of property codes: the label shown for each
    code, and the codes each form offers in its selectors.

    Every selector renders its options through the label table, so an option
    without a label would make the page fail to render; the lemmas below show
    that no offered option lacks one.
 */
module Selectors {
  import opened Results
  import opened Units

  /** Human-readable label, with display unit, for each property code. */
  function PropertyLabels(): (labels: map<string, string>)
    ensures forall a, b :: a in labels && b in labels && a != b ==> labels[a] != labels[b]
  {
    map[
      "T" := "temperature [°C]",
      "P" := "pressure [bar]",
      "H" := "enthalpy [kJ/kg]",
      "S" := "entropy [kJ/(kg K)]",
      "Q" := "vapour mass frac. [-]",
      "D" := "density [kg/m3]",
      "V" := "viscosity [Pa s]",
      "L" := "thermal cond. [W/(m K)]",
      "C" := "spec. heat at const. p [J/(kg K)]",
      "CVMASS" := "spec. heat at const. V [J/(kg K)]"
    ]
  }

  /** A selector's options are fit to offer: each has a label and none repeats. */
  ghost predicate Offerable(options: seq<string>) {
    && (forall i :: 0 <= i < |options| ==> options[i] in PropertyLabels())
    && (forall i, j :: 0 <= i < j < |options| ==> options[i] != options[j])
  }

  /** Renders a selector's options through the label table, the way each
      selector's format function does; None when some option has no label. */
  function OptionLabels(options: seq<string>): (shown: Option<seq<string>>)
    ensures shown.Some? <==> forall i :: 0 <= i < |options| ==> options[i] in PropertyLabels()
    ensures shown.Some? ==> |shown.value| == |options|
    ensures shown.Some? ==> forall i :: 0 <= i < |options| ==> shown.value[i] == PropertyLabels()[options[i]]
  {
    if |options| == 0 then Some([])
    else if options[0] !in PropertyLabels() then None
    else
      match OptionLabels(options[1..])
      case None => None
      case Some(rest) => Some([PropertyLabels()[options[0]]] + rest)
  }

  /** Two different options of a selector are never shown under the same label. */
  lemma ShownLabelsDistinct(options: seq<string>)
    requires Offerable(options)
    ensures OptionLabels(options).Some?
    ensures forall i, j :: 0 <= i < j < |options| ==>
              OptionLabels(options).value[i] != OptionLabels(options).value[j]
  {
    var shown := OptionLabels(options).value;
    forall i, j | 0 <= i < j < |options|
      ensures shown[i] != shown[j]
    {
      assert options[i] != options[j];
      assert shown[i] == PropertyLabels()[options[i]];
    }
  }

  // ---- Block 1: subcooled liquid / superheated vapour ----

  function SinglePhaseFirstInputs(): (options: seq<string>)
    ensures Offerable(options)
    ensures "Q" !in options
  {
    ["T", "P", "H", "S"]
  }

  function SinglePhaseSecondInputs(): (options: seq<string>)
    ensures Offerable(options)
    ensures "Q" !in options
  {
    ["P", "T", "S", "H"]
  }

  function SinglePhaseOutputs(): (options: seq<string>)
    ensures Offerable(options)
    ensures "Q" !in options
  {
    ["H", "S", "T", "P", "D", "V", "L", "C", "CVMASS"]
  }

  // ---- Block 2: multiphase / mixture region ----

  function MultiphaseFirstInputs(): (options: seq<string>)
    ensures Offerable(options)
    ensures "Q" in options
  {
    ["T", "P", "H", "S", "Q"]
  }

  function MultiphaseSecondInputs(): (options: seq<string>)
    ensures Offerable(options)
    ensures "Q" in options
  {
    ["P", "T", "S", "H", "Q"]
  }

  function MultiphaseOutputs(): (options: seq<string>)
    ensures Offerable(options)
    ensures "Q" in options
  {
    ["H", "S", "T", "P", "Q", "D", "V", "L", "C", "CVMASS"]
  }

  // ---- Block 3: saturation conditions ----

  function SaturationKnown(): (options: seq<string>)
    ensures Offerable(options)
    ensures forall c :: c in options ==> c in ConvertedCodes
  {
    ["P", "T"]
  }

  /** The multiphase form offers exactly the single-phase form's codes with the
      vapour quality Q added, in the same order, in every selector. */
  lemma MultiphaseAddsQuality()
    ensures MultiphaseFirstInputs() == SinglePhaseFirstInputs() + ["Q"]
    ensures MultiphaseSecondInputs() == SinglePhaseSecondInputs() + ["Q"]
    ensures MultiphaseOutputs() == SinglePhaseOutputs()[..4] + ["Q"] + SinglePhaseOutputs()[4..]
  {
  }

  /** The offered codes, taken together, are exactly the label table's keys;
      of these, all but temperature, pressure, enthalpy and entropy are
      passed through both conversions unchanged. */
  lemma OfferedCodesAreLabelled()
    ensures forall c :: c in PropertyLabels() <==> c in MultiphaseOutputs()
    ensures forall c ::
              (|| c in SinglePhaseFirstInputs() || c in SinglePhaseSecondInputs()
               || c in MultiphaseFirstInputs() || c in MultiphaseSecondInputs()
               || c in SaturationKnown()) ==> c in MultiphaseOutputs()
    ensures PropertyLabels().Keys - ConvertedCodes == {"Q", "D", "V", "L", "C", "CVMASS"}
    ensures forall c, v :: c in PropertyLabels() && c !in ConvertedCodes ==>
              ConvertInput(c, v) == v && ConvertOutput(c, v) == v
  {
  }

  /** Every selector of every form renders without a missing label (and, as
      each is Offerable, ShownLabelsDistinct applies to all of them). */
  lemma EverySelectorRenders()
    ensures OptionLabels(SinglePhaseFirstInputs()).Some?
    ensures OptionLabels(SinglePhaseSecondInputs()).Some?
    ensures OptionLabels(SinglePhaseOutputs()).Some?
    ensures OptionLabels(MultiphaseFirstInputs()).Some?
    ensures OptionLabels(MultiphaseSecondInputs()).Some?
    ensures OptionLabels(MultiphaseOutputs()).Some?
    ensures OptionLabels(SaturationKnown()).Some?
  {
  }
}
