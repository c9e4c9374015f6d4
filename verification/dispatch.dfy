/** The calculator's four query forms, stripped of their rendering: each one
    converts its display-unit inputs to SI units, asks the property engine,
    and converts the answer back, or surfaces the engine's diagnostic.

    The property engine is a parameter: it is an equation-of-state library
    whose answers this model makes no claim about.
 */
module Dispatch {
  import opened Results
  import opened Units
  import opened Selectors

  /** The property engine, in SI units. `propsSI(output, name1, value1,
      name2, value2, fluid)` fixes a state by two properties and returns a
      third; `constant(name, fluid)` returns a fluid constant such as the
      critical temperature. Either may fail with a diagnostic text. */
  datatype Engine = Engine(
    propsSI: (string, string, real, string, real, string) -> Result<real, string>,
    constant: (string, string) -> Result<real, string>)

  /** One submission of a state form: the requested output code, two
      (code, display value) inputs and the fluid name, all as the user chose. */
  datatype StateQuery = StateQuery(
    output: string,
    input1: string, value1: real,
    input2: string, value2: real,
    fluid: string)

  /** What a state form shows after a submission: the output's label and its
      value in display units, or the diagnostic of the failure. */
  datatype Banner = Shown(caption: string, value: real) | Error(diagnostic: string)

  /** The engine's own answer to a query, both inputs in SI units. */
  function EngineAnswer(engine: Engine, q: StateQuery): Result<real, string> {
    engine.propsSI(q.output, q.input1, ConvertInput(q.input1, q.value1),
                   q.input2, ConvertInput(q.input2, q.value2), q.fluid)
  }

  /** Converts both inputs, asks the engine, converts the answer back. The
      engine's failure is forwarded verbatim. */
  function QueryProperty(engine: Engine, q: StateQuery): (r: Result<real, string>)
    ensures r.Success? <==> EngineAnswer(engine, q).Success?
    ensures r.Success? ==> ConvertInput(q.output, r.value) == EngineAnswer(engine, q).value
    ensures r.Failure? ==> r.error == EngineAnswer(engine, q).error
  {
    var v1 := ConvertInput(q.input1, q.value1);
    var v2 := ConvertInput(q.input2, q.value2);
    match engine.propsSI(q.output, q.input1, v1, q.input2, v2, q.fluid)
    case Success(si) => Success(ConvertOutput(q.output, si))
    case Failure(e) => Failure(e)
  }

  /** The diagnostic a dictionary lookup of a missing key raises: the key, quoted. */
  function MissingKey(key: string): string {
    "'" + key + "'"
  }

  /** The submission of a state form (the single-phase and the multiphase form
      share it): the query, then the label lookup of the output code. A failure
      of either is shown as an error. */
  function SubmitStateForm(engine: Engine, q: StateQuery): (b: Banner)
    ensures b.Shown? ==> QueryProperty(engine, q) == Success(b.value)
    ensures QueryProperty(engine, q).Failure? ==> b == Error(QueryProperty(engine, q).error)
  {
    match QueryProperty(engine, q)
    case Failure(e) => Error(e)
    case Success(v) =>
      if q.output in PropertyLabels() then Shown(PropertyLabels()[q.output], v)
      else Error(MissingKey(q.output))
  }

  /** The choices the single-phase form's selectors allow. */
  ghost predicate SinglePhaseSelection(q: StateQuery) {
    && q.input1 in SinglePhaseFirstInputs()
    && q.input2 in SinglePhaseSecondInputs()
    && q.output in SinglePhaseOutputs()
  }

  /** The choices the multiphase form's selectors allow. */
  ghost predicate MultiphaseSelection(q: StateQuery) {
    && q.input1 in MultiphaseFirstInputs()
    && q.input2 in MultiphaseSecondInputs()
    && q.output in MultiphaseOutputs()
  }

  /** A selection is a single-phase one exactly when it is a multiphase one
      that uses the vapour quality Q nowhere. */
  lemma SinglePhaseIsMultiphaseWithoutQuality(q: StateQuery)
    ensures SinglePhaseSelection(q) <==>
              MultiphaseSelection(q) && q.input1 != "Q" && q.input2 != "Q" && q.output != "Q"
  {
    MultiphaseAddsQuality();
  }

  /** On any selection the forms allow, the label lookup cannot fail: the form
      shows the output's label exactly when the engine answers, and otherwise
      the engine's diagnostic, verbatim. */
  lemma FormsShowLabelOrEngineError(engine: Engine, q: StateQuery)
    requires SinglePhaseSelection(q) || MultiphaseSelection(q)
    ensures SubmitStateForm(engine, q).Shown? <==> EngineAnswer(engine, q).Success?
    ensures SubmitStateForm(engine, q).Shown? ==>
              SubmitStateForm(engine, q).caption == PropertyLabels()[q.output]
    ensures SubmitStateForm(engine, q).Error? ==>
              SubmitStateForm(engine, q).diagnostic == EngineAnswer(engine, q).error
  {
    SinglePhaseIsMultiphaseWithoutQuality(q);
    OfferedCodesAreLabelled();
  }

  /** The saturation form: the known temperature or pressure, with the vapour
      quality pinned to 0 (saturated liquid), gives the other one. The answer
      is converted back with the inline constants of the form. */
  function QuerySaturation(engine: Engine, known: string, value: real, fluid: string): (r: Result<real, string>)
    ensures var other := if known == "T" then "P" else "T";
            var raw := engine.propsSI(other, if known == "T" then "T" else "P",
                                      ConvertInput(known, value), "Q", 0.0, fluid);
            && (r.Success? <==> raw.Success?)
            && (r.Success? ==> ConvertInput(other, r.value) == raw.value)
            && (r.Failure? ==> r.error == raw.error)
  {
    var v1 := ConvertInput(known, value);
    if known == "T" then
      match engine.propsSI("P", "T", v1, "Q", 0.0, fluid)
      case Success(p) => Success(p / 100000.0)
      case Failure(e) => Failure(e)
    else
      match engine.propsSI("T", "P", v1, "Q", 0.0, fluid)
      case Success(t) => Success(t - 273.15)
      case Failure(e) => Failure(e)
  }

  /** The saturation form is the general query with the second input pinned to
      quality 0 and the complementary property requested: known temperature
      gives pressure, known pressure gives temperature. In particular its
      inline conversions agree with ConvertOutput. */
  lemma SaturationIsPinnedQuery(engine: Engine, known: string, value: real, fluid: string)
    requires known in SaturationKnown()
    ensures QuerySaturation(engine, known, value, fluid)
         == QueryProperty(engine, StateQuery(if known == "T" then "P" else "T", known, value, "Q", 0.0, fluid))
  {
    assert ConvertInput("Q", 0.0) == 0.0;
  }

  /** The critical-point form: two constant lookups, each converted back on
      its own; the first failure aborts the whole query. */
  function QueryCritical(engine: Engine, fluid: string): (r: Result<(real, real), string>)
    ensures r.Success? <==> engine.constant("Tcrit", fluid).Success? && engine.constant("Pcrit", fluid).Success?
    ensures r.Success? ==>
              && ConvertInput("T", r.value.0) == engine.constant("Tcrit", fluid).value
              && ConvertInput("P", r.value.1) == engine.constant("Pcrit", fluid).value
    ensures engine.constant("Tcrit", fluid).Failure? ==>
              r == Failure(engine.constant("Tcrit", fluid).error)
    ensures engine.constant("Tcrit", fluid).Success? && engine.constant("Pcrit", fluid).Failure? ==>
              r == Failure(engine.constant("Pcrit", fluid).error)
  {
    match engine.constant("Tcrit", fluid)
    case Failure(e) => Failure(e)
    case Success(tc) =>
      match engine.constant("Pcrit", fluid)
      case Failure(e) => Failure(e)
      case Success(pc) => Success((tc - 273.15, pc / 100000.0))
  }

  /** The critical-point form's inline conversions are ConvertOutput's. */
  lemma CriticalUsesConvertOutput(engine: Engine, fluid: string)
    requires engine.constant("Tcrit", fluid).Success? && engine.constant("Pcrit", fluid).Success?
    ensures QueryCritical(engine, fluid)
         == Success((ConvertOutput("T", engine.constant("Tcrit", fluid).value),
                     ConvertOutput("P", engine.constant("Pcrit", fluid).value)))
  {
  }
}
