# Pure fluid property calculator — unit conversion and dispatch model

The calculator is a web form in front of the CoolProp property engine. A
user names a fluid, picks one or two known properties with values in
display units (°C, bar, kJ/kg, kJ/(kg K)), and asks for another property.
The calculator converts the inputs to the SI units the engine expects,
calls the engine, converts the answer back, and shows it under the
property's label, or shows the engine's error text.

This project models that layer in Dafny:

- `units.dfy` (module `Units`): `convert_input` / `convert_output` over
  exact reals, with codes as the engine's strings. Any code other than
  T, P, H and S falls through unchanged, as in the source.
- `selectors.dfy` (module `Selectors`): the `property_labels` table, the
  option list of every selector of the four forms, and the rendering of
  a selector's options through the label table.
- `dispatch.dfy` (module `Dispatch`): the dispatch of the four forms.
  - Single-phase and multiphase state queries.
  - Saturation with the quality pinned to 0.
  - The critical point.
  The engine is a parameter (`Engine`): two total functions that return
  a value or a diagnostic string, standing in for the two call forms of
  `PropsSI`. The source's `try/except` becomes a `Result`.
- `results.dfy` (module `Results`): `Option` and `Result`.

Property codes are strings, not an enumeration. The source compares
strings and hands them to the engine, and the fall-through of the
conversions applies to every string. The closed table of codes is the key
set of `PropertyLabels`.

## Model

| member | source | states |
|---|---|---|
| Units.ConvertInput | app.py:21-28 | Converting to SI and back gives the display value again, for every code. Codes other than T, P, H and S are passed through unchanged. |
| Units.ConvertOutput | app.py:30-37 | Codes other than T, P, H and S are passed through unchanged by the SI-to-display conversion. |
| Units.ConversionsInverse | app.py:21-37 | For every code, the two conversions are mutually inverse bijections: a display value maps to an engine value exactly when the engine value maps back to it. |
| Units.ConversionsAffine | app.py:21-37 | Both conversions scale differences by the unit ratio: 1 for temperature offsets, 1e5 for pressure, 1e3 for enthalpy and entropy. Both preserve strict order in both directions. |
| Units.ZeroFixedUnlessTemperature | app.py:21-37 | Zero is a fixed point of both conversions exactly for the codes other than T. |
| Units.ReferenceValues | app.py:22-25 | 0 °C is 273.15 K; 1 bar is 1e5 Pa; 1 kJ is 1e3 J; 373.15 K is 100 °C; 101325 Pa is 1.01325 bar. |
| Selectors.PropertyLabels | app.py:40-51 | No two codes share a label. |
| Selectors.OptionLabels | app.py:59 | Rendering a selector through the label table fails exactly when some option has no label. Otherwise it shows, position by position, the label of each option. |
| Selectors.ShownLabelsDistinct | app.py:40-51 | A selector whose options are labelled and distinct renders, and shows pairwise distinct labels. |
| Selectors.SinglePhaseFirstInputs | app.py:59 | Block 1's first input selector offers only labelled, distinct codes and never Q. |
| Selectors.SinglePhaseSecondInputs | app.py:62 | Block 1's second input selector offers only labelled, distinct codes and never Q. |
| Selectors.SinglePhaseOutputs | app.py:64 | Block 1's output selector offers only labelled, distinct codes and never Q. |
| Selectors.MultiphaseFirstInputs | app.py:82 | Block 2's first input selector offers only labelled, distinct codes, Q among them. |
| Selectors.MultiphaseSecondInputs | app.py:85 | Block 2's second input selector offers only labelled, distinct codes, Q among them. |
| Selectors.MultiphaseOutputs | app.py:87 | Block 2's output selector offers only labelled, distinct codes, Q among them. |
| Selectors.SaturationKnown | app.py:103 | Block 3's known-property selector offers only labelled, distinct codes, each one with a unit conversion. |
| Selectors.MultiphaseAddsQuality | app.py:59-87 | Each block-2 selector is the matching block-1 selector with Q inserted and the order otherwise kept. |
| Selectors.OfferedCodesAreLabelled | app.py:40-103 | The codes offered anywhere are exactly the label table's keys. The keys without a unit conversion are exactly Q, D, V, L, C and CVMASS, and both conversions leave them unchanged. |
| Selectors.EverySelectorRenders | app.py:59-103 | The label lookup of every selector of blocks 1 to 3 succeeds for every option. |
| Dispatch.QueryProperty | app.py:68-71 | The query succeeds exactly when the engine answers the SI-converted inputs. The result, converted back to SI, is the engine's answer. The engine's diagnostic is forwarded verbatim. |
| Dispatch.SubmitStateForm | app.py:67-74 | A shown value is the query's result. A failed query is shown as its diagnostic. |
| Dispatch.SinglePhaseIsMultiphaseWithoutQuality | app.py:59-87 | A selection is allowed by block 1 exactly when block 2 allows it and it uses Q nowhere. |
| Dispatch.FormsShowLabelOrEngineError | app.py:66-97 | For every selection that block 1 or block 2 allows, the label lookup cannot fail. The form shows the output's label exactly when the engine answers, and otherwise the engine's diagnostic verbatim. |
| Dispatch.QuerySaturation | app.py:107-116 | The engine is asked for the complementary property at quality 0. Success and failure follow the engine's answer. The result, converted back to SI, is that answer. |
| Dispatch.SaturationIsPinnedQuery | app.py:108-113 | For a known T or P, the saturation form equals the general query with input 2 pinned to ("Q", 0) and the complementary output. So its inline `/1e5` and `- 273.15` agree with `convert_output`. |
| Dispatch.QueryCritical | app.py:124-126 | The query succeeds exactly when both constant lookups do, and each value converts back to the engine's. The first failing lookup's diagnostic is returned, and no partial result. |
| Dispatch.CriticalUsesConvertOutput | app.py:125-126 | The inline conversions of the critical temperature and pressure are `convert_output` for T and P. |

## Left out

- Streamlit rendering: page setup, HTML, expanders, forms, columns, number inputs, buttons, banners. It is presentation; the model keeps only the choices the selectors allow and what a form would show.
- The text formatting of results (`:.5f`, `:.3f`, `:.2f`), the `"Error: "` prefix and the saturation and critical-point sentences. Results are modelled as values and diagnostics.
- The logo image loading at app.py:143-144, because it is file I/O.
- CoolProp's `PropsSI`, because it is a foreign equation-of-state engine. It is the `Engine` parameter, and the model makes no claim about the values it returns.
- IEEE-754 arithmetic, because values are exact reals. The round trip of the conversions is exact here, while in the source it holds only up to float rounding.
- Exception messages from the engine, because the source stringifies them. They are opaque strings forwarded unchanged.
- Dispatch.SubmitStateForm: the diagnostic of a missing label is modelled as the quoted key, as a Python `KeyError` prints. No selection the forms allow reaches it.
