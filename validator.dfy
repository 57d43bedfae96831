/** The deterministic treatment check: given a case, the selected device (and
    sub-mode) and the submitted parameters, it lists findings in order and keeps a
    separate correctness flag. */
module Validator {
  import opened Wrappers
  import opened Text
  import opened Catalog

  const Faradic := "Farádica"
  const Ultrasound := "Ultrasonido"
  const Shortwave := "Onda Corta"
  const Tens := "TENS"
  const Tif := "TIF"

  /** The submitted values that some rule consults; every other form field of
      the validation is read by no rule. */
  datatype Params = Params(
    uFrecuencia: string,               // ultrasound frequency label
    uCiclo: string,                    // ultrasound duty-cycle label
    uIntensidad: real,                 // ultrasound intensity, W/cm2
    ocMetodo: string,                  // shortwave application method
    ocMediaResultante: Option<real>,   // shortwave mean-power readout, may be empty
    tFreq: real,                       // TENS frequency
    iPortadora: real,                  // interferential carrier
    fPolaridad: string,                // faradic polarity
    fTiempoFase: real                  // faradic phase time
  )

  /** The glyph a finding is rendered with. */
  datatype Mark = Folder | Tick | Cross | Caution | Stop

  /** One line of feedback, in the order the validation appends them. */
  datatype Finding =
    | Evaluating(caseName: string)
    | DeviceCorrect(device: string)
    | DeviceIncorrect(device: string, accepted: seq<string>)
    | DutyCycleMismatch(used: string, required: string)
    | FrequencyMismatch(used: string, required: string)
    | IntensityHigh(intensity: real, suggestedMax: real)
    | MethodSuggestion(suggested: string)
    | DoseInsufficient(mean: real, minimum: real)
    | DoseExcessive(mean: real, maximum: real)
    | TensFrequencyLow
    | TensFrequencyHigh
    | CarrierIncorrect
    | CarrierLow
    | PolarityIncorrect
    | PhaseTimeTooLong
  {
    function Glyph(): Mark
    {
      match this
      case Evaluating(_) => Folder
      case DeviceCorrect(_) => Tick
      case IntensityHigh(_, _) => Caution
      case MethodSuggestion(_) => Caution
      case DoseExcessive(_, _) => Stop
      case _ => Cross
    }

    /** The findings whose branch also clears the correctness flag. */
    predicate ClearsVerdict()
    {
      DeviceIncorrect? || DutyCycleMismatch? || FrequencyMismatch? || DoseInsufficient? || DoseExcessive?
    }

    predicate IsDeviceCheck()
    {
      DeviceCorrect? || DeviceIncorrect?
    }

    predicate IsDoseFinding()
    {
      DoseInsufficient? || DoseExcessive?
    }

    predicate IsTensFrequencyFinding()
    {
      TensFrequencyLow? || TensFrequencyHigh?
    }
  }

  /** The outcome: the fixed "select a case first" error, or the flag and the
      findings. */
  datatype Verdict = CaseNotSelected | Checked(correct: bool, findings: seq<Finding>)

  predicate IsCorrect(v: Verdict)
  {
    v.Checked? && v.correct
  }

  /** The device name matched against the accepted list: any faradic selection
      becomes "Farádica (<sub-mode>)". */
  function Normalize(device: string, subtype: string): (r: string)
    ensures Contains(r, Faradic) <==> Contains(device, Faradic)
    ensures !Contains(device, Faradic) ==> r == device
  {
    if Contains(device, Faradic) then
      var n := "Farádica (" + subtype + ")";
      ContainsPrefix(Faradic, n[|Faradic|..]);
      assert Faradic + n[|Faradic|..] == n;
      n
    else device
  }

  /** One accepted-list entry admits the selection. */
  predicate Matches(entry: string, device: string, normalized: string)
  {
    Contains(normalized, entry) || (device == Shortwave && entry == Shortwave)
  }

  predicate DeviceAccepted(equipment: seq<string>, device: string, normalized: string)
  {
    exists entry :: entry in equipment && Matches(entry, device, normalized)
  }

  /** The scan of the accepted list, stopping at the first entry that admits
      the selection. */
  method ScanAccepted(equipment: seq<string>, device: string, normalized: string) returns (valid: bool)
    ensures valid <==> DeviceAccepted(equipment, device, normalized)
  {
    valid := false;
    for i := 0 to |equipment|
      invariant !valid
      invariant forall j :: 0 <= j < i ==> !Matches(equipment[j], device, normalized)
    {
      if Matches(equipment[i], device, normalized) {
        valid := true;
        break;
      }
    }
  }

  function UltrasoundFindings(r: RuleSet, p: Params): seq<Finding>
  {
    (if r.ciclo.Some? && p.uCiclo != r.ciclo.value then [DutyCycleMismatch(p.uCiclo, r.ciclo.value)] else [])
    + (if r.frecuencia.Some? && p.uFrecuencia != r.frecuencia.value then [FrequencyMismatch(p.uFrecuencia, r.frecuencia.value)] else [])
    + (if r.intensidadMax.Some? && p.uIntensidad > r.intensidadMax.value then [IntensityHigh(p.uIntensidad, r.intensidadMax.value)] else [])
  }

  function ShortwaveFindings(r: RuleSet, p: Params): seq<Finding>
  {
    var mean := p.ocMediaResultante.GetOr(0.0);
    (if r.metodo.Some? && p.ocMetodo != r.metodo.value then [MethodSuggestion(r.metodo.value)] else [])
    + (if r.dosisMinPotencia.Some? && mean < r.dosisMinPotencia.value then [DoseInsufficient(mean, r.dosisMinPotencia.value)]
       else if r.dosisMaxPotencia.Some? && mean > r.dosisMaxPotencia.value then [DoseExcessive(mean, r.dosisMaxPotencia.value)]
       else [])
  }

  function TensFindings(r: RuleSet, p: Params): seq<Finding>
  {
    if r.freqMin.Some? && p.tFreq < r.freqMin.value then [TensFrequencyLow]
    else if r.freqMax.Some? && p.tFreq > r.freqMax.value then [TensFrequencyHigh]
    else []
  }

  function TifFindings(r: RuleSet, p: Params): seq<Finding>
  {
    (if r.portadora.Some? && p.iPortadora != r.portadora.value then [CarrierIncorrect] else [])
    + (if r.portadoraMin.Some? && p.iPortadora < r.portadoraMin.value then [CarrierLow] else [])
  }

  function FaradicFindings(r: RuleSet, p: Params): seq<Finding>
  {
    (if r.polaridad.Some? && p.fPolaridad != r.polaridad.value then [PolarityIncorrect] else [])
    + (if r.busquedaTiempo.Some? && p.fTiempoFase > 100.0 then [PhaseTimeTooLong] else [])
  }

  /** The parameter findings for an accepted device. The faradic branch looks
      its record up under the raw device name, not the normalized one. */
  function ParameterFindings(rules: map<string, RuleSet>, device: string, p: Params): seq<Finding>
  {
    if device == Ultrasound && Ultrasound in rules then UltrasoundFindings(rules[Ultrasound], p)
    else if device == Shortwave && Shortwave in rules then ShortwaveFindings(rules[Shortwave], p)
    else if device == Tens && Tens in rules then TensFindings(rules[Tens], p)
    else if device == Tif && Tif in rules then TifFindings(rules[Tif], p)
    else if Contains(device, Faradic) && device in rules then FaradicFindings(rules[device], p)
    else []
  }

  /** The ultrasound checks that clear the flag: a duty-cycle or frequency
      label that differs from the record's. */
  predicate UltrasoundMismatch(r: RuleSet, p: Params)
  {
    (r.ciclo.Some? && p.uCiclo != r.ciclo.value) || (r.frecuencia.Some? && p.uFrecuencia != r.frecuencia.value)
  }

  /** The shortwave checks that clear the flag: a mean power outside a bound. */
  predicate DoseOutOfRange(r: RuleSet, mean: real)
  {
    (r.dosisMinPotencia.Some? && mean < r.dosisMinPotencia.value)
    || (r.dosisMaxPotencia.Some? && mean > r.dosisMaxPotencia.value)
  }

  /** The parameter checks that clear the flag, for an accepted device. */
  predicate HardFailure(rules: map<string, RuleSet>, device: string, p: Params)
  {
    (device == Ultrasound && Ultrasound in rules && UltrasoundMismatch(rules[Ultrasound], p))
    || (device == Shortwave && Shortwave in rules && DoseOutOfRange(rules[Shortwave], p.ocMediaResultante.GetOr(0.0)))
  }

  /** The whole check against the catalog `db`, as a value. */
  function Evaluate(db: map<string, Solution>, caseName: string, device: string, subtype: string, p: Params): Verdict
  {
    if caseName !in db || caseName == NoCaseSelected then CaseNotSelected
    else
      var sol := db[caseName];
      var ok := DeviceAccepted(sol.Accepted(), device, Normalize(device, subtype));
      Checked(ok && !HardFailure(sol.rules, device, p),
              [Evaluating(caseName), if ok then DeviceCorrect(device) else DeviceIncorrect(device, sol.Accepted())]
              + (if ok then ParameterFindings(sol.rules, device, p) else []))
  }

  /** The ultrasound branch: appends its findings and clears the flag on a
      label mismatch. */
  method CheckUltrasound(r: RuleSet, p: Params, feedback: seq<Finding>, correct: bool)
    returns (feedback': seq<Finding>, correct': bool)
    ensures feedback' == feedback + UltrasoundFindings(r, p)
    ensures correct' == (correct && !UltrasoundMismatch(r, p))
  {
    feedback', correct' := feedback, correct;
    if r.ciclo.Some? && p.uCiclo != r.ciclo.value {
      correct' := false;
      feedback' := feedback' + [DutyCycleMismatch(p.uCiclo, r.ciclo.value)];
    }
    if r.frecuencia.Some? && p.uFrecuencia != r.frecuencia.value {
      correct' := false;
      feedback' := feedback' + [FrequencyMismatch(p.uFrecuencia, r.frecuencia.value)];
    }
    if r.intensidadMax.Some? && p.uIntensidad > r.intensidadMax.value {
      feedback' := feedback' + [IntensityHigh(p.uIntensidad, r.intensidadMax.value)];
    }
  }

  /** The shortwave branch: an empty mean-power readout counts as 0; at most
      one of the two dose checks fires. */
  method CheckShortwave(r: RuleSet, p: Params, feedback: seq<Finding>, correct: bool)
    returns (feedback': seq<Finding>, correct': bool)
    ensures feedback' == feedback + ShortwaveFindings(r, p)
    ensures correct' == (correct && !DoseOutOfRange(r, p.ocMediaResultante.GetOr(0.0)))
  {
    feedback', correct' := feedback, correct;
    var mean := p.ocMediaResultante.GetOr(0.0);
    if r.metodo.Some? && p.ocMetodo != r.metodo.value {
      feedback' := feedback' + [MethodSuggestion(r.metodo.value)];
    }
    if r.dosisMinPotencia.Some? && mean < r.dosisMinPotencia.value {
      correct' := false;
      feedback' := feedback' + [DoseInsufficient(mean, r.dosisMinPotencia.value)];
    } else if r.dosisMaxPotencia.Some? && mean > r.dosisMaxPotencia.value {
      correct' := false;
      feedback' := feedback' + [DoseExcessive(mean, r.dosisMaxPotencia.value)];
    }
  }

  /** The TENS branch: at most one frequency finding; the flag is untouched. */
  method CheckTens(r: RuleSet, p: Params, feedback: seq<Finding>) returns (feedback': seq<Finding>)
    ensures feedback' == feedback + TensFindings(r, p)
  {
    feedback' := feedback;
    if r.freqMin.Some? && p.tFreq < r.freqMin.value {
      feedback' := feedback' + [TensFrequencyLow];
    } else if r.freqMax.Some? && p.tFreq > r.freqMax.value {
      feedback' := feedback' + [TensFrequencyHigh];
    }
  }

  /** The interferential branch; the flag is untouched. */
  method CheckTif(r: RuleSet, p: Params, feedback: seq<Finding>) returns (feedback': seq<Finding>)
    ensures feedback' == feedback + TifFindings(r, p)
  {
    feedback' := feedback;
    if r.portadora.Some? && p.iPortadora != r.portadora.value {
      feedback' := feedback' + [CarrierIncorrect];
    }
    if r.portadoraMin.Some? && p.iPortadora < r.portadoraMin.value {
      feedback' := feedback' + [CarrierLow];
    }
  }

  /** The faradic branch; the flag is untouched. */
  method CheckFaradic(r: RuleSet, p: Params, feedback: seq<Finding>) returns (feedback': seq<Finding>)
    ensures feedback' == feedback + FaradicFindings(r, p)
  {
    feedback' := feedback;
    if r.polaridad.Some? && p.fPolaridad != r.polaridad.value {
      feedback' := feedback' + [PolarityIncorrect];
    }
    if r.busquedaTiempo.Some? && p.fTiempoFase > 100.0 {
      feedback' := feedback' + [PhaseTimeTooLong];
    }
  }

  /** The device-specific parameter checks for an accepted device: at most one
      branch runs, chosen by the device name. */
  method CheckParameters(rules: map<string, RuleSet>, device: string, p: Params, feedback: seq<Finding>, correct: bool)
    returns (feedback': seq<Finding>, correct': bool)
    ensures feedback' == feedback + ParameterFindings(rules, device, p)
    ensures correct' == (correct && !HardFailure(rules, device, p))
  {
    feedback', correct' := feedback, correct;
    if device == Ultrasound && Ultrasound in rules {
      feedback', correct' := CheckUltrasound(rules[Ultrasound], p, feedback, correct);
    } else if device == Shortwave && Shortwave in rules {
      feedback', correct' := CheckShortwave(rules[Shortwave], p, feedback, correct);
    } else if device == Tens && Tens in rules {
      feedback' := CheckTens(rules[Tens], p, feedback);
    } else if device == Tif && Tif in rules {
      feedback' := CheckTif(rules[Tif], p, feedback);
    } else if Contains(device, Faradic) && device in rules {
      feedback' := CheckFaradic(rules[device], p, feedback);
    }
  }

  /** The validation as the application runs it: feedback appended step by step and
      the correctness flag cleared by the branches that clear it. */
  method Validate(db: map<string, Solution>, caseName: string, device: string, subtype: string, p: Params)
    returns (v: Verdict)
    ensures v == Evaluate(db, caseName, device, subtype, p)
  {
    var feedback: seq<Finding> := [];
    var correct := true;
    if caseName !in db || caseName == NoCaseSelected {
      return CaseNotSelected;
    }
    var sol := db[caseName];
    feedback := feedback + [Evaluating(caseName)];

    var accepted := sol.Accepted();
    var normalized := device;
    if Contains(device, Faradic) {
      normalized := "Farádica (" + subtype + ")";
    }
    assert normalized == Normalize(device, subtype);
    var valid := ScanAccepted(accepted, device, normalized);
    if !valid {
      correct := false;
      feedback := feedback + [DeviceIncorrect(device, accepted)];
    } else {
      feedback := feedback + [DeviceCorrect(device)];
    }

    if valid {
      feedback, correct := CheckParameters(sol.rules, device, p, feedback, correct);
    }
    v := Checked(correct, feedback);
  }
}
