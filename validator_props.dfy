/** Properties of the treatment check, stated over `Evaluate` (which `Validate`
    is proved to compute) for an arbitrary catalog. */
module ValidatorProps {
  import opened Wrappers
  import opened Text
  import opened Catalog
  import opened Validator

  /** The parameter findings are never a header or a device finding. */
  lemma ParameterFindingsKinds(rules: map<string, RuleSet>, device: string, p: Params)
    ensures forall f :: f in ParameterFindings(rules, device, p) ==> !f.IsDeviceCheck() && !f.Evaluating?
  {
  }

  /** A missing case, or the placeholder entry, gives the fixed error and
      nothing else; any other catalog entry is checked. */
  lemma UnselectedCase(db: map<string, Solution>, caseName: string, device: string, subtype: string, p: Params)
    ensures Evaluate(db, caseName, device, subtype, p).CaseNotSelected?
        <==> (caseName !in db || caseName == NoCaseSelected)
  {
  }

  /** The layout of a checked finding list: header, one device finding, then a
      tail with neither. */
  ghost predicate WellOrdered(caseName: string, fs: seq<Finding>)
  {
    && |fs| >= 2
    && fs[0] == Evaluating(caseName)
    && (forall i :: 1 <= i < |fs| ==> !fs[i].Evaluating?)
    && fs[1].IsDeviceCheck()
    && (forall i :: 0 <= i < |fs| && i != 1 ==> !fs[i].IsDeviceCheck())
  }

  lemma WellOrderedOf(caseName: string, second: Finding, rest: seq<Finding>)
    requires second.IsDeviceCheck()
    requires forall f :: f in rest ==> !f.IsDeviceCheck() && !f.Evaluating?
    ensures WellOrdered(caseName, [Evaluating(caseName), second] + rest)
  {
    var fs := [Evaluating(caseName), second] + rest;
    forall i | 2 <= i < |fs| ensures !fs[i].IsDeviceCheck() && !fs[i].Evaluating? {
      assert fs[i] == rest[i - 2];
    }
  }

  /** Findings order: the header, then exactly one device finding, then only
      parameter findings; a rejected device gives exactly header and rejection. */
  lemma FindingsOrder(db: map<string, Solution>, caseName: string, device: string, subtype: string, p: Params)
    requires caseName in db && caseName != NoCaseSelected
    ensures var v := Evaluate(db, caseName, device, subtype, p);
      var sol := db[caseName];
      var ok := DeviceAccepted(sol.Accepted(), device, Normalize(device, subtype));
      && v.Checked?
      && WellOrdered(caseName, v.findings)
      && v.findings[1] == (if ok then DeviceCorrect(device) else DeviceIncorrect(device, sol.Accepted()))
      && (!ok ==> v.findings == [Evaluating(caseName), DeviceIncorrect(device, sol.Accepted())] && !v.correct)
  {
    var sol := db[caseName];
    var ok := DeviceAccepted(sol.Accepted(), device, Normalize(device, subtype));
    ParameterFindingsKinds(sol.rules, device, p);
    WellOrderedOf(caseName, if ok then DeviceCorrect(device) else DeviceIncorrect(device, sol.Accepted()),
                  if ok then ParameterFindings(sol.rules, device, p) else []);
  }

  /** No finding of `[header, second] + rest` clears the flag exactly when
      neither `second` nor any finding of `rest` does, for a header that does
      not clear it. */
  lemma {:induction false} NoClearingOf(header: Finding, second: Finding, rest: seq<Finding>)
    requires !header.ClearsVerdict()
    ensures var fs := [header, second] + rest;
      (forall i :: 0 <= i < |fs| ==> !fs[i].ClearsVerdict())
      <==> !second.ClearsVerdict() && forall j :: 0 <= j < |rest| ==> !rest[j].ClearsVerdict()
  {
    var fs := [header, second] + rest;
    if !second.ClearsVerdict() && forall j :: 0 <= j < |rest| ==> !rest[j].ClearsVerdict() {
      forall i | 0 <= i < |fs| ensures !fs[i].ClearsVerdict() {
        if i >= 2 { assert fs[i] == rest[i - 2]; }
      }
    } else if second.ClearsVerdict() {
      assert fs[1] == second;
    } else {
      var j :| 0 <= j < |rest| && rest[j].ClearsVerdict();
      assert fs[j + 2] == rest[j];
    }
  }

  /** The flag, kept apart from the findings, is true exactly when no finding
      of a flag-clearing kind was produced. */
  lemma {:induction false} VerdictMatchesClearingFindings(db: map<string, Solution>, caseName: string, device: string, subtype: string, p: Params)
    requires Evaluate(db, caseName, device, subtype, p).Checked?
    ensures var v := Evaluate(db, caseName, device, subtype, p);
      v.correct <==> forall i :: 0 <= i < |v.findings| ==> !v.findings[i].ClearsVerdict()
  {
    var sol := db[caseName];
    var ok := DeviceAccepted(sol.Accepted(), device, Normalize(device, subtype));
    var second := if ok then DeviceCorrect(device) else DeviceIncorrect(device, sol.Accepted());
    var rest := if ok then ParameterFindings(sol.rules, device, p) else [];
    NoClearingOf(Evaluating(caseName), second, rest);
    ClearingParameterFindings(sol.rules, device, p);
  }

  /** A parameter finding that clears the flag appears exactly when the flag
      conditions hold. */
  lemma ClearingParameterFindings(rules: map<string, RuleSet>, device: string, p: Params)
    ensures HardFailure(rules, device, p)
        <==> exists j :: 0 <= j < |ParameterFindings(rules, device, p)| && ParameterFindings(rules, device, p)[j].ClearsVerdict()
  {
    var ps := ParameterFindings(rules, device, p);
    if device == Ultrasound && Ultrasound in rules {
      var r := rules[Ultrasound];
      if r.ciclo.Some? && p.uCiclo != r.ciclo.value {
        assert ps[0].ClearsVerdict();
      } else if r.frecuencia.Some? && p.uFrecuencia != r.frecuencia.value {
        assert ps[0].ClearsVerdict();
      }
    } else if device == Shortwave && Shortwave in rules {
      var r := rules[Shortwave];
      if DoseOutOfRange(r, p.ocMediaResultante.GetOr(0.0)) {
        assert ps[|ps| - 1].ClearsVerdict();
      }
    }
  }

  /** Warnings never flip the verdict: only the ultrasound labels and the
      shortwave mean power can change it, never the ultrasound intensity, the
      shortwave method, or any TENS, interferential or faradic value. */
  lemma WarningsNeverFlipVerdict(db: map<string, Solution>, caseName: string, device: string, subtype: string, p: Params, q: Params)
    requires p.uCiclo == q.uCiclo && p.uFrecuencia == q.uFrecuencia && p.ocMediaResultante == q.ocMediaResultante
    ensures IsCorrect(Evaluate(db, caseName, device, subtype, p)) == IsCorrect(Evaluate(db, caseName, device, subtype, q))
  {
  }

  /** Outside ultrasound and shortwave, the verdict is the device check alone,
      whatever findings the TENS, interferential or faradic rules produce. */
  lemma OnlyDeviceDecidesElectrotherapy(db: map<string, Solution>, caseName: string, device: string, subtype: string, p: Params)
    requires caseName in db && caseName != NoCaseSelected
    requires device != Ultrasound && device != Shortwave
    ensures Evaluate(db, caseName, device, subtype, p).correct
        == DeviceAccepted(db[caseName].Accepted(), device, Normalize(device, subtype))
  {
  }

  ghost predicate AtMostOneDoseAndTens(fs: seq<Finding>)
  {
    forall i, j :: 0 <= i < j < |fs| ==>
      !(fs[i].IsDoseFinding() && fs[j].IsDoseFinding()) && !(fs[i].IsTensFrequencyFinding() && fs[j].IsTensFrequencyFinding())
  }

  lemma AtMostOneDoseAndTensParameter(rules: map<string, RuleSet>, device: string, p: Params)
    ensures AtMostOneDoseAndTens(ParameterFindings(rules, device, p))
  {
  }

  lemma AtMostOneDoseAndTensOf(first: seq<Finding>, rest: seq<Finding>)
    requires forall f :: f in first ==> !f.IsDoseFinding() && !f.IsTensFrequencyFinding()
    requires AtMostOneDoseAndTens(rest)
    ensures AtMostOneDoseAndTens(first + rest)
  {
    var fs := first + rest;
    forall i, j | 0 <= i < j < |fs|
      ensures !(fs[i].IsDoseFinding() && fs[j].IsDoseFinding()) && !(fs[i].IsTensFrequencyFinding() && fs[j].IsTensFrequencyFinding())
    {
      if i < |first| {
        assert fs[i] == first[i];
      } else {
        assert fs[i] == rest[i - |first|] && fs[j] == rest[j - |first|];
      }
    }
  }

  /** The shortwave dose and the TENS frequency each give at most one finding. */
  lemma AtMostOneDoseAndTensFinding(db: map<string, Solution>, caseName: string, device: string, subtype: string, p: Params)
    requires Evaluate(db, caseName, device, subtype, p).Checked?
    ensures AtMostOneDoseAndTens(Evaluate(db, caseName, device, subtype, p).findings)
  {
    var sol := db[caseName];
    var ok := DeviceAccepted(sol.Accepted(), device, Normalize(device, subtype));
    AtMostOneDoseAndTensParameter(sol.rules, device, p);
    AtMostOneDoseAndTensOf([Evaluating(caseName), if ok then DeviceCorrect(device) else DeviceIncorrect(device, sol.Accepted())],
                           if ok then ParameterFindings(sol.rules, device, p) else []);
  }

  /** Every parameter finding needs the record key it reports: a bound finding
      a strict violation, by the submitted value, of a bound the record carries
      (so a submitted value equal to its bound raises nothing), a label or value finding the record's own value and
      a submitted value that differs from it. A key the record lacks raises
      nothing. */
  lemma FindingsNeedStrictViolation(rules: map<string, RuleSet>, device: string, p: Params)
    ensures forall f :: f in ParameterFindings(rules, device, p) ==>
      match f
      case IntensityHigh(u, m) => u == p.uIntensidad && u > m && rules[Ultrasound].intensidadMax == Some(m)
      case DoseInsufficient(mean, m) => mean == p.ocMediaResultante.GetOr(0.0) && mean < m && rules[Shortwave].dosisMinPotencia == Some(m)
      case DoseExcessive(mean, m) => mean == p.ocMediaResultante.GetOr(0.0) && mean > m && rules[Shortwave].dosisMaxPotencia == Some(m)
      case TensFrequencyLow => rules[Tens].freqMin.Some? && p.tFreq < rules[Tens].freqMin.value
      case TensFrequencyHigh => rules[Tens].freqMax.Some? && p.tFreq > rules[Tens].freqMax.value
      case CarrierLow => rules[Tif].portadoraMin.Some? && p.iPortadora < rules[Tif].portadoraMin.value
      case PhaseTimeTooLong => rules[device].busquedaTiempo.Some? && p.fTiempoFase > 100.0
      case DutyCycleMismatch(u, m) => u == p.uCiclo && u != m && rules[Ultrasound].ciclo == Some(m)
      case FrequencyMismatch(u, m) => u == p.uFrecuencia && u != m && rules[Ultrasound].frecuencia == Some(m)
      case MethodSuggestion(m) => rules[Shortwave].metodo == Some(m) && p.ocMetodo != m
      case CarrierIncorrect => rules[Tif].portadora.Some? && p.iPortadora != rules[Tif].portadora.value
      case PolarityIncorrect => rules[device].polaridad.Some? && p.fPolaridad != rules[device].polaridad.value
      case _ => true
  {
  }

  /** A record that carries no key, or a device with no record, gives no
      parameter finding and leaves the verdict to the device check. */
  lemma AbsentRulesRaiseNothing(db: map<string, Solution>, caseName: string, device: string, subtype: string, p: Params)
    requires caseName in db && caseName != NoCaseSelected
    requires device !in db[caseName].rules || db[caseName].rules[device] == NoRules
    ensures var v := Evaluate(db, caseName, device, subtype, p);
      |v.findings| == 2 && v.correct == DeviceAccepted(db[caseName].Accepted(), device, Normalize(device, subtype))
  {
  }

  /** Rusa and Infrarrojo have no parameter branch: whatever their records say,
      only the device check is reported. */
  lemma NoBranchForRusaOrInfrared(db: map<string, Solution>, caseName: string, device: string, subtype: string, p: Params)
    requires caseName in db && caseName != NoCaseSelected
    requires device == "Rusa" || device == "Infrarrojo"
    ensures var v := Evaluate(db, caseName, device, subtype, p);
      |v.findings| == 2 && v.correct == DeviceAccepted(db[caseName].Accepted(), device, Normalize(device, subtype))
  {
    MissingCharDoesNotContain(device, Faradic, 'á');
  }

  /** A case without accepted devices rejects every selection. */
  lemma EmptyEquipmentRejectsAll(db: map<string, Solution>, caseName: string, device: string, subtype: string, p: Params)
    requires caseName in db && caseName != NoCaseSelected
    requires db[caseName].Accepted() == []
    ensures Evaluate(db, caseName, device, subtype, p) == Checked(false, [Evaluating(caseName), DeviceIncorrect(device, [])])
  {
  }

  /** The "Onda Corta" clause of the scan admits nothing the substring test
      would not: acceptance is plain substring containment. */
  lemma ShortwaveClauseIsRedundant(equipment: seq<string>, device: string, subtype: string)
    ensures DeviceAccepted(equipment, device, Normalize(device, subtype))
        <==> exists entry :: entry in equipment && Contains(Normalize(device, subtype), entry)
  {
    if device == Shortwave {
      MissingCharDoesNotContain(device, Faradic, 'á');
      ContainsSelf(device);
    }
  }

  /** Normalizing twice changes nothing. */
  lemma NormalizeIdempotent(device: string, subtype: string)
    ensures Normalize(Normalize(device, subtype), subtype) == Normalize(device, subtype)
  {
  }

  /** A faradic selection is normalized to the sub-mode's name. */
  lemma NormalizeFaradic(device: string, subtype: string)
    requires Contains(device, Faradic)
    ensures Normalize(device, subtype) == "Farádica (" + subtype + ")"
  {
  }

  /** A faradic selection is none of the other families' device names. */
  lemma FaradicIsNoOtherFamily(device: string)
    requires Contains(device, Faradic)
    ensures device != Tens && device != Tif && device != Ultrasound && device != Shortwave
  {
    MissingCharDoesNotContain(Ultrasound, Faradic, 'á');
    MissingCharDoesNotContain(Shortwave, Faradic, 'á');
    ShorterDoesNotContain(Tens, Faradic);
    ShorterDoesNotContain(Tif, Faradic);
  }

  /** The faradic rules are looked up under the raw device name: when that name
      has no record, no faradic finding appears, even if the normalized name has
      one and is accepted. */
  lemma FaradicRulesUseRawName(db: map<string, Solution>, caseName: string, device: string, subtype: string, p: Params)
    requires caseName in db && caseName != NoCaseSelected
    requires Contains(device, Faradic) && device !in db[caseName].rules
    ensures var v := Evaluate(db, caseName, device, subtype, p);
      |v.findings| == 2 && v.correct == DeviceAccepted(db[caseName].Accepted(), device, Normalize(device, subtype))
  {
    FaradicIsNoOtherFamily(device);
    assert ParameterFindings(db[caseName].rules, device, p) == [];
  }

  /** A selection built from the case's own rule labels and dose bound. */
  function ReferenceParams(rules: map<string, RuleSet>, base: Params): Params
  {
    var us := if Ultrasound in rules then rules[Ultrasound] else NoRules;
    var sw := if Shortwave in rules then rules[Shortwave] else NoRules;
    base.(uCiclo := us.ciclo.GetOr(base.uCiclo),
          uFrecuencia := us.frecuencia.GetOr(base.uFrecuencia),
          ocMediaResultante := Some(sw.dosisMinPotencia.GetOr(sw.dosisMaxPotencia.GetOr(0.0))))
  }

  /** Any accepted device other than a faradic one, configured with the case's
      own labels and a mean power at its dose bound, passes: bounds are
      inclusive and warnings do not count. */
  lemma ReferenceConfigurationPasses(db: map<string, Solution>, caseName: string, entry: string, subtype: string, base: Params)
    requires caseName in db && caseName != NoCaseSelected
    requires entry in db[caseName].Accepted() && !Contains(entry, Faradic)
    requires Shortwave in db[caseName].rules && db[caseName].rules[Shortwave].dosisMinPotencia.Some?
             && db[caseName].rules[Shortwave].dosisMaxPotencia.Some?
             ==> db[caseName].rules[Shortwave].dosisMinPotencia.value <= db[caseName].rules[Shortwave].dosisMaxPotencia.value
    ensures IsCorrect(Evaluate(db, caseName, entry, subtype, ReferenceParams(db[caseName].rules, base)))
  {
    ContainsSelf(entry);
    assert Matches(entry, entry, Normalize(entry, subtype));
  }

  /** A faradic sub-mode listed for the case is accepted when selected as the
      faradic device with that sub-mode, and then passes whatever its values. */
  lemma FaradicSubModePasses(db: map<string, Solution>, caseName: string, device: string, subtype: string, p: Params)
    requires caseName in db && caseName != NoCaseSelected
    requires Contains(device, Faradic) && "Farádica (" + subtype + ")" in db[caseName].Accepted()
    ensures IsCorrect(Evaluate(db, caseName, device, subtype, p))
  {
    var n := "Farádica (" + subtype + ")";
    ContainsSelf(n);
    assert Matches(n, device, Normalize(device, subtype));
    FaradicIsNoOtherFamily(device);
  }

  /** An accepted selection: header, acceptance, then the parameter findings,
      with the flag cleared only by a hard failure. */
  lemma EvaluateAccepted(db: map<string, Solution>, caseName: string, device: string, subtype: string, p: Params)
    requires caseName in db && caseName != NoCaseSelected
    requires DeviceAccepted(db[caseName].Accepted(), device, Normalize(device, subtype))
    ensures Evaluate(db, caseName, device, subtype, p)
         == Checked(!HardFailure(db[caseName].rules, device, p),
                    [Evaluating(caseName), DeviceCorrect(device)] + ParameterFindings(db[caseName].rules, device, p))
  {
  }
}
