# Physiotherapy treatment validator: verified model of the validation core

The application is a teaching simulator for electro- and thermotherapy. A
student picks a clinical case from a fixed catalog, picks a device (TENS, TIF,
Rusa, Farádica with a sub-mode, Ultrasonido, Onda Corta, Infrarrojo), sets its
parameters and submits. A deterministic check then compares the selection with
the case's reference solution. It produces an ordered list of feedback lines
and a separate technical-correctness flag.

This project models that check:

- **Catalog** (`catalog.dfy`) is the case table: 21 cases plus the placeholder
  entry "Seleccionar Caso...". Each case has a solution with its accepted
  devices, its objectives and one optional rule record per device. Each record
  key is an `Option` field. Descriptions are kept in a separate table.
- **PowerReadout** (`mean_power.dfy`) is the shortwave screen's live mean-power
  readout, computed from emission mode, pulse width, pulse frequency and peak
  power. Empty fields count as 0. Continuous mode shows the peak. Pulsed mode
  shows the product rounded to one decimal, with ties going to the even tenth.
- **Text** (`text.dfy`) is substring containment, the `in` test the validation uses
  on strings.
- **Validator** (`validator.dfy`) is the validation itself:
  - `Evaluate` is the specification, as a value.
  - `Validate` is the imperative body: a growing feedback sequence and a flag
    that starts true and is cleared by some branches. It is proved equal to
    `Evaluate`.
  - `ScanAccepted` is the accepted-devices loop with its early exit.
  - `CheckParameters` and the five `Check…` methods are the per-device
    branches.
- **ValidatorProps** (`validator_props.dfy`) proves properties of the validation for
  *any* catalog:
  - the findings come in a fixed order;
  - the flag is true exactly when no flag-clearing finding appears;
  - warnings never change the verdict;
  - a bound is violated only strictly;
  - at most one dose or TENS-frequency finding appears;
  - the faradic rules are looked up under the raw device name.
- **Scenarios** (`scenarios.dfy`) plays concrete cases of the bundled catalog
  through the validation. Each scenario holds for any catalog that lists the entry
  it uses, and `Catalog.Case…Listed` shows that the bundled catalog does.

The validation behaves as follows:

- The case must be in the catalog and must not be the placeholder. Otherwise
  the result is a fixed error and nothing else.
- A device name containing "Farádica" is replaced by "Farádica (<sub-mode>)"
  for matching. A device is accepted when some accepted entry is a substring of
  that normalized name. There is also a redundant clause for "Onda Corta".
- A rejected device adds one finding, clears the flag and skips the parameter checks.
- An accepted device runs at most one parameter branch.
- The ultrasound duty-cycle or frequency label, and the shortwave mean power
  outside its bounds, clear the flag.
- Everything else only adds a line: the ultrasound intensity warning, the
  shortwave method suggestion, and all TENS, TIF and faradic findings (although
  they are rendered with a cross).
- The "busqueda_tiempo" key is looked at for presence only.
- The faradic branch looks for the raw device name in the solution, while the
  catalog keys faradic records by the full sub-mode name. This branch
  therefore finds a record only when the device name itself is that full name.
  Given the bare "Farádica", the device is accepted only when
  "Farádica (<sub-mode>)" contains an accepted entry (case 9 with
  "Rectangular"; case 1 rejects it), and even then no faradic record is
  consulted (`Scenarios.BareFaradicSkipsRules`,
  `ValidatorProps.FaradicRulesUseRawName`).
- The correctness flag is separate state. It starts true and only the
  conditions above clear it; it is not computed from the findings. All six
  TENS, TIF and faradic findings are marked with a cross but none of them
  lowers the flag. The model follows the code here and does not treat every
  cross-marked finding as a failure.

## Model

| member | source | states |
|---|---|---|
| Catalog.Solutions | app.py:58-241 | the 22 entries of the case table, keyed by the menu names: accepted devices, objectives, extra explanation and one rule record per device key |
| Catalog.Descriptions | app.py:58-241 | the clinical vignette of each of the 22 entries, under the same names |
| Catalog.Case1Listed | app.py:61-69 | the catalog lists case 1 under its name, with Rusa, TIF and TENS accepted and TENS requiring at least 20 Hz |
| Catalog.Case9Listed | app.py:133-139 | the catalog lists case 9 with only "Farádica (Rectangular)" accepted and a chronaxie rule under that name |
| Catalog.Case14Listed | app.py:175-181 | the catalog lists case 14 with only ultrasound accepted, a 20% duty cycle, 1 MHz and a 0.5 ceiling |
| Catalog.Case18Listed | app.py:208-215 | the catalog lists case 18 with a shortwave maximum of 15 W and no minimum |
| Catalog.Case19Listed | app.py:217-223 | the catalog lists case 19 with a shortwave minimum of 8 W and the inductive method |
| PowerReadout.RoundTenths | app.py:251 | one-decimal rounding: the result is a whole number of tenths, is the nearest tenth to the input (no tenth is closer), and on an exact tie has an even count of tenths |
| PowerReadout.MeanPower | app.py:246-251 | continuous mode gives the peak (0 when empty); otherwise the product peak × width·10⁻⁶ × frequency, with empty fields as 0, rounded to one decimal: a whole number of tenths, no tenth closer to the product, and on an exact tie an even count of tenths |
| PowerReadout.EmptyFieldsAreZero | app.py:247-249 | an empty field and a field holding 0 give the same readout |
| PowerReadout.ContinuousIgnoresPulse | app.py:250 | in continuous mode the readout does not depend on pulse width or frequency, and equals the peak |
| PowerReadout.TiesGoToEven | app.py:251 | 0.25 rounds to 0.2 and 0.75 to 0.8; both are exact binary ties, so Python's `round` agrees |
| PowerReadout.PulsedExample | app.py:251 | pulsed, 100 W peak, 200 µs, 50 Hz gives 1.0 W |
| PowerReadout.RoundTenthsOfTenth | app.py:251 | rounding leaves a value that already is a whole number of tenths unchanged |
| Text.ContainsSelf | app.py:289 | every string contains itself, so a device whose exact name is accepted is accepted when that name does not contain "Farádica" (a faradic name is first normalized to the sub-mode) |
| Text.ContainsPrefix | app.py:285 | a string contains each of its prefixes, so a normalized faradic name still contains "Farádica" |
| Text.ShorterDoesNotContain | app.py:289 | a string shorter than the pattern does not contain it |
| Text.MissingCharDoesNotContain | app.py:289 | a string lacking a character of the pattern does not contain it |
| Validator.Normalize | app.py:284-285 | the normalized name contains "Farádica" exactly when the device name does; any other name is left unchanged |
| Validator.ScanAccepted | app.py:287-291 | the loop with its early exit reports true exactly when some accepted entry is a substring of the normalized name, or the device and the entry are both "Onda Corta" |
| Validator.CheckUltrasound | app.py:300-310 | appends the duty-cycle and frequency mismatches and the intensity warning, in that order; clears the flag exactly on a label mismatch |
| Validator.CheckShortwave | app.py:312-322 | an empty readout counts as 0; appends the method suggestion, then at most one of "too low" and "too high"; clears the flag exactly when the mean is outside a bound |
| Validator.CheckTens | app.py:324-327 | appends at most one of "too low" and "too high"; the flag is untouched |
| Validator.CheckTif | app.py:329-332 | appends the carrier mismatch and the carrier-too-low finding independently; the flag is untouched |
| Validator.CheckFaradic | app.py:334-337 | appends the polarity finding and the phase-time finding (key presence only, limit 100); the flag is untouched |
| Validator.CheckParameters | app.py:300-337 | runs only the first branch whose device name and record both match; the faradic record is looked up under the raw device name; the result is the parameter findings and the flag conjoined with "no hard failure" |
| Validator.Validate | app.py:270-337 | the whole check, step by step, equals `Evaluate`: the fixed error for a missing or placeholder case; otherwise the header, the device finding and, for an accepted device only, the parameter findings, with the flag |
| ValidatorProps.UnselectedCase | app.py:274-275 | the fixed error is returned exactly when the case is missing or is the placeholder |
| ValidatorProps.FindingsOrder | app.py:280-300 | a checked result is the header, then exactly one device finding, then only parameter findings; a rejected device gives exactly header and rejection and a false flag |
| ValidatorProps.ParameterFindingsKinds | app.py:298-337 | no parameter finding is a header or a device finding |
| ValidatorProps.VerdictMatchesClearingFindings | app.py:271-322 | the separately kept flag is true exactly when no finding of a flag-clearing kind (device rejected, label mismatch, dose out of range) appears |
| ValidatorProps.ClearingParameterFindings | app.py:300-322 | the hard-failure condition holds exactly when some parameter finding clears the flag |
| ValidatorProps.WarningsNeverFlipVerdict | app.py:298-337 | two selections that agree on the ultrasound labels and the mean power get the same verdict, whatever the intensity, method, TENS, TIF or faradic values |
| ValidatorProps.OnlyDeviceDecidesElectrotherapy | app.py:324-337 | for any device other than ultrasound and shortwave, the flag is the device check alone |
| ValidatorProps.AtMostOneDoseAndTensParameter | app.py:318-327 | the parameter findings hold at most one dose finding and at most one TENS-frequency finding |
| ValidatorProps.AtMostOneDoseAndTensFinding | app.py:318-327 | the same holds for the whole finding list |
| ValidatorProps.FindingsNeedStrictViolation | app.py:303-337 | every parameter finding needs the record key it reports: bound findings carry the record's bound and the submitted value (intensity, mean readout with an empty one as 0), which strictly violates it, so a submitted value equal to its bound raises nothing; the duty-cycle, frequency, method, carrier and polarity findings carry or compare against the record's own value and a differing submitted value; a key the record lacks raises nothing |
| ValidatorProps.AbsentRulesRaiseNothing | app.py:298-337 | a device with no record, or an empty record, gives only header and device finding, and the flag is the device check |
| ValidatorProps.NoBranchForRusaOrInfrared | app.py:298-337 | Rusa and Infrarrojo have no parameter branch: their records are never consulted |
| ValidatorProps.EmptyEquipmentRejectsAll | app.py:283-295 | a solution without accepted devices rejects every device |
| ValidatorProps.ShortwaveClauseIsRedundant | app.py:289 | the extra "Onda Corta" clause accepts nothing the substring test would not |
| ValidatorProps.NormalizeIdempotent | app.py:284-285 | normalizing twice is normalizing once |
| ValidatorProps.NormalizeFaradic | app.py:285 | any name containing "Farádica" becomes "Farádica (<sub-mode>)" |
| ValidatorProps.FaradicIsNoOtherFamily | app.py:298-334 | a faradic name is none of the ultrasound, shortwave, TENS or TIF names, so only the last branch can apply to it |
| ValidatorProps.FaradicRulesUseRawName | app.py:334-335 | a faradic device whose raw name has no record gets no parameter finding, even when the normalized name has one |
| ValidatorProps.ReferenceConfigurationPasses | app.py:287-322 | an accepted non-faradic device configured with the record's own labels and a mean power at its dose bound passes: bounds are inclusive and warnings do not count |
| ValidatorProps.FaradicSubModePasses | app.py:284-291 | a faradic selection whose sub-mode is accepted passes, whatever its values |
| ValidatorProps.EvaluateAccepted | app.py:293-337 | for an accepted device the result is header, acceptance and the parameter findings, and the flag is "no hard failure" |
| Scenarios.WrongDeviceScaphoid | app.py:293-295 | case 14 with TENS is rejected: header and rejection, flag false |
| Scenarios.ScaphoidAcceptsUltrasound | app.py:287-291 | case 14 accepts ultrasound |
| Scenarios.ScaphoidRule | app.py:301-310 | case 14's record yields the duty-cycle, frequency and intensity findings as functions of the submitted values, and a hard failure exactly on a label mismatch |
| Scenarios.IntensityOnlyWarns | app.py:309-310 | case 14 with the right labels and intensity 0.8 gives one warning and a true flag |
| Scenarios.DutyCycleMismatchFails | app.py:303-305 | case 14 with the continuous duty cycle gives a duty-cycle finding and a false flag |
| Scenarios.RectangularNormalizes | app.py:285 | the bare faradic name and "Farádica (Rectangular)" both normalize to "Farádica (Rectangular)" with the Rectangular sub-mode |
| Scenarios.ChronaxieAcceptsRectangular | app.py:287-291 | case 9 accepts both of those names |
| Scenarios.ChronaxieRuleApplies | app.py:334-337 | under its full name, case 9's rule gives the phase-time finding exactly above 100 |
| Scenarios.ChronaxieShortPhase | app.py:334-337 | case 9 under the full name with phase time 50: no parameter finding, flag true |
| Scenarios.ChronaxieLongPhase | app.py:337 | with phase time 150: the cross-marked phase-time finding, and the flag stays true |
| Scenarios.BareFaradicSkipsRules | app.py:334-335 | case 9 given the bare faradic name is accepted, but its record is never consulted |
| Scenarios.LigamentTearAcceptsTens | app.py:287-291 | case 1 accepts TENS |
| Scenarios.TensAtMinimum | app.py:326 | case 1 with TENS at exactly 20 Hz raises nothing |
| Scenarios.TensBelowMinimum | app.py:326 | at 19 Hz the cross-marked finding appears, yet the flag stays true |
| Scenarios.ShortwaveMatchesItself | app.py:284-289 | "Onda Corta" normalizes to itself and matches its own entry |
| Scenarios.HamstringAcceptsShortwave | app.py:287-291 | case 19 accepts shortwave |
| Scenarios.TorticollisAcceptsShortwave | app.py:287-291 | case 18 accepts shortwave |
| Scenarios.PulsedDoseTooLow | app.py:317-319 | case 19 with the readout of 100 W, 200 µs, 50 Hz pulsed (1.0 W) is under the 8 W minimum: one finding, flag false |
| Scenarios.TorticollisDose | app.py:312-322 | case 18's record gives "too high" exactly above 15 W, and never a method or minimum finding |
| Scenarios.ShortwaveWithinMaximum | app.py:314-322 | case 18 with any mean power up to 15 W passes, including an empty readout counted as 0 W |
| Scenarios.ShortwaveOverMaximum | app.py:320-322 | above 15 W the stop-marked finding appears and the flag is false |

## Left out

- The generative-AI call (`consultar_ia_profesor`) and the free-text answer it grades are not modelled. They are a network call to an external model, and its answer does not affect the flag.
- The HTML assembly of the result and the report text are not modelled. Findings are datatype values; their wording and emoji are reduced to the `Mark` each is rendered with.
- The Gradio user interface, the panels and their event wiring, the `config_alumno` summary string and the launch code are not modelled. They hold no decision logic.
- The device name and the sub-mode are free inputs of `Evaluate` and `Validate`. Which names the user interface stores is not modelled. `Scenarios.BareFaradicSkipsRules` shows what the validation does with the bare "Farádica"; it does not claim that the menu stores that name.
- Form fields no rule reads are not parameters of the model: session times, waveform, modulation and ramp settings, Rusa and infrared values, the shortwave technique, mode, phase, frequency and power, and the `era_ratio` value. Only the nine values some rule consults are in `Params`.
- Case descriptions, objectives and the extra explanation are kept in the catalog, but nothing in the validation reads them. Descriptions are shown in the interface and sent to the AI prompt, objectives go only to the prompt, and the extra explanation is read by nothing.
- Rule keys that no branch consults are kept in `RuleSet` but play no part in any contract: Rusa carriers, bursts and ratios, TIF `portadora_max`, modulation bounds and vectors, pulse durations, phase and pause lists, infrared distance and time, and the TENS duration.
- PowerReadout.MeanPower: computed on exact reals, so binary floating-point effects of the product and of Python's `round` on a float (for example a value just below a tie) are not modelled.
- Numeric form fields are `real`. An empty field (Python `None`) other than the mean-power readout raises an error where it meets `<` or `>` (TENS frequency, ultrasound intensity, TIF carrier minimum, faradic phase time). The model does not represent that error. Where an empty field meets `!=` instead (the TIF carrier against `portadora`), Python gives a finding without error; the model's `real` field cannot be empty, so that case is not represented either.
- The full catalog is the argument `db` of the validation. The application passes the whole table. Only the entries used by the scenarios have a `Listed` lemma, because a lookup in the 22-entry table is expensive to prove.
