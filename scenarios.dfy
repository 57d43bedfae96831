/** The validation run on entries of the bundled catalog. */
module Scenarios {
  import opened Wrappers
  import opened Text
  import opened Catalog
  import opened PowerReadout
  import opened Validator
  import opened ValidatorProps

  /** An all-zero, all-empty selection to vary from. */
  const Blank := Params("", "", 0.0, "", None, 0.0, 0.0, "", 0.0)

  const Scaphoid := "14. Fractura Escafoides (No consolidada)"
  const Chronaxie := "9. Monitoreo Reinervación (Cronaxia)"
  const LigamentTear := "1. Ruptura LCA (Debilidad M3)"
  const Hamstring := "19. Desgarro Isquiotibial (10 días)"
  const Torticollis := "18. Tortícolis Aguda"

  /** The scenarios below hold for every catalog that lists the entry they
      use; `Catalog.Case14Listed` and its siblings show that the catalog of the
      application lists each of them. */

  /** Case 14 treated with TENS: rejected, header and rejection only. */
  lemma WrongDeviceScaphoid(db: map<string, Solution>, p: Params)
    requires Lists(db, Scaphoid, Case14())
    ensures Evaluate(db, Scaphoid, Tens, "", p)
         == Checked(false, [Evaluating(Scaphoid), DeviceIncorrect(Tens, [Ultrasound])])
  {
    ShorterDoesNotContain(Tens, Ultrasound);
    ShorterDoesNotContain(Tens, Faradic);
  }

  /** The ultrasound device is accepted by case 14. */
  lemma ScaphoidAcceptsUltrasound()
    ensures DeviceAccepted(Case14().Accepted(), Ultrasound, Normalize(Ultrasound, ""))
  {
    MissingCharDoesNotContain(Ultrasound, Faradic, 'á');
    ContainsSelf(Ultrasound);
    assert Matches(Ultrasound, Ultrasound, Ultrasound);
  }

  /** Case 14's ultrasound record: a 20% duty cycle and 1 MHz are required,
      0.5 W/cm2 is the suggested ceiling. */
  lemma ScaphoidRule(p: Params)
    ensures ParameterFindings(Case14().rules, Ultrasound, p)
         == (if p.uCiclo != "20% (1:4)" then [DutyCycleMismatch(p.uCiclo, "20% (1:4)")] else [])
          + (if p.uFrecuencia != "1 MHz" then [FrequencyMismatch(p.uFrecuencia, "1 MHz")] else [])
          + (if p.uIntensidad > 0.5 then [IntensityHigh(p.uIntensidad, 0.5)] else [])
    ensures HardFailure(Case14().rules, Ultrasound, p) <==> p.uCiclo != "20% (1:4)" || p.uFrecuencia != "1 MHz"
  {
    var r := Case14().rules[Ultrasound];
    assert r.ciclo == Some("20% (1:4)") && r.frecuencia == Some("1 MHz") && r.intensidadMax == Some(0.5);
  }

  /** Case 14 with the right labels but too strong an intensity: one warning,
      verdict still correct. */
  lemma IntensityOnlyWarns(db: map<string, Solution>)
    requires Lists(db, Scaphoid, Case14())
    ensures Evaluate(db, Scaphoid, Ultrasound, "",
                     Blank.(uCiclo := "20% (1:4)", uFrecuencia := "1 MHz", uIntensidad := 0.8))
         == Checked(true, [Evaluating(Scaphoid), DeviceCorrect(Ultrasound), IntensityHigh(0.8, 0.5)])
  {
    var p := Blank.(uCiclo := "20% (1:4)", uFrecuencia := "1 MHz", uIntensidad := 0.8);
    ScaphoidAcceptsUltrasound();
    EvaluateAccepted(db, Scaphoid, Ultrasound, "", p);
    ScaphoidRule(p);
  }

  /** Case 14 with the continuous duty cycle: the flag is cleared. */
  lemma DutyCycleMismatchFails(db: map<string, Solution>)
    requires Lists(db, Scaphoid, Case14())
    ensures Evaluate(db, Scaphoid, Ultrasound, "",
                     Blank.(uCiclo := "100% (Continuo)", uFrecuencia := "1 MHz", uIntensidad := 0.5))
         == Checked(false, [Evaluating(Scaphoid), DeviceCorrect(Ultrasound), DutyCycleMismatch("100% (Continuo)", "20% (1:4)")])
  {
    var p := Blank.(uCiclo := "100% (Continuo)", uFrecuencia := "1 MHz", uIntensidad := 0.5);
    ScaphoidAcceptsUltrasound();
    EvaluateAccepted(db, Scaphoid, Ultrasound, "", p);
    ScaphoidRule(p);
  }

  /** The bare faradic device and its full rectangular name both normalize to
      the rectangular sub-mode. */
  lemma RectangularNormalizes(device: string)
    requires device == Faradic || device == "Farádica (Rectangular)"
    ensures Normalize(device, "Rectangular") == "Farádica (Rectangular)"
    ensures device != Ultrasound && device != Shortwave && device != Tens && device != Tif
    ensures Contains(device, Faradic)
  {
    ContainsPrefix(Faradic, " (Rectangular)");
    assert Faradic + " (Rectangular)" == "Farádica (Rectangular)";
    ContainsSelf(Faradic);
    FaradicIsNoOtherFamily(device);
  }

  /** Case 9 accepts the rectangular faradic sub-mode. */
  lemma ChronaxieAcceptsRectangular(device: string)
    requires device == Faradic || device == "Farádica (Rectangular)"
    ensures DeviceAccepted(Case9().Accepted(), device, Normalize(device, "Rectangular"))
  {
    var n := "Farádica (Rectangular)";
    RectangularNormalizes(device);
    ContainsSelf(n);
    assert Matches(n, device, n);
  }

  /** Under its full name the device reaches case 9's chronaxie rule record. */
  lemma ChronaxieRuleApplies(p: Params)
    ensures ParameterFindings(Case9().rules, "Farádica (Rectangular)", p)
         == (if p.fTiempoFase > 100.0 then [PhaseTimeTooLong] else [])
  {
    var d := "Farádica (Rectangular)";
    RectangularNormalizes(d);
    assert d in Case9().rules;
    assert Case9().rules[d].polaridad == None;
  }

  /** Case 9's chronaxie rule, selected under its full name: a phase time of 50
      raises nothing. */
  lemma ChronaxieShortPhase(db: map<string, Solution>)
    requires Lists(db, Chronaxie, Case9())
    ensures Evaluate(db, Chronaxie, "Farádica (Rectangular)", "Rectangular", Blank.(fTiempoFase := 50.0))
         == Checked(true, [Evaluating(Chronaxie), DeviceCorrect("Farádica (Rectangular)")])
  {
    var d := "Farádica (Rectangular)";
    var p := Blank.(fTiempoFase := 50.0);
    ChronaxieAcceptsRectangular(d);
    RectangularNormalizes(d);
    EvaluateAccepted(db, Chronaxie, d, "Rectangular", p);
    ChronaxieRuleApplies(p);
  }

  /** The same rule with a phase time of 150: the cross-marked strategy finding
      appears, and the flag stays set. */
  lemma ChronaxieLongPhase(db: map<string, Solution>)
    requires Lists(db, Chronaxie, Case9())
    ensures Evaluate(db, Chronaxie, "Farádica (Rectangular)", "Rectangular", Blank.(fTiempoFase := 150.0))
         == Checked(true, [Evaluating(Chronaxie), DeviceCorrect("Farádica (Rectangular)"), PhaseTimeTooLong])
    ensures PhaseTimeTooLong.Glyph() == Cross
  {
    var d := "Farádica (Rectangular)";
    var p := Blank.(fTiempoFase := 150.0);
    ChronaxieAcceptsRectangular(d);
    RectangularNormalizes(d);
    EvaluateAccepted(db, Chronaxie, d, "Rectangular", p);
    ChronaxieRuleApplies(p);
  }

  /** Given the bare faradic device name, case 9 is accepted (the name is
      normalized to the sub-mode) but its rule record, keyed by the full name,
      is never consulted. */
  lemma BareFaradicSkipsRules(db: map<string, Solution>)
    requires Lists(db, Chronaxie, Case9())
    ensures Evaluate(db, Chronaxie, Faradic, "Rectangular", Blank.(fTiempoFase := 150.0))
         == Checked(true, [Evaluating(Chronaxie), DeviceCorrect(Faradic)])
  {
    var p := Blank.(fTiempoFase := 150.0);
    ChronaxieAcceptsRectangular(Faradic);
    RectangularNormalizes(Faradic);
    EvaluateAccepted(db, Chronaxie, Faradic, "Rectangular", p);
    assert Faradic !in Case9().rules;
    assert ParameterFindings(Case9().rules, Faradic, p) == [];
  }

  /** TENS is accepted by case 1. */
  lemma LigamentTearAcceptsTens()
    ensures DeviceAccepted(Case1().Accepted(), Tens, Normalize(Tens, ""))
    ensures Tens != Ultrasound && Tens != Shortwave
  {
    ShorterDoesNotContain(Tens, Faradic);
    ContainsSelf(Tens);
    assert Matches(Tens, Tens, Tens);
  }

  /** Case 1 with TENS: a frequency equal to the 20 Hz minimum passes. */
  lemma TensAtMinimum(db: map<string, Solution>)
    requires Lists(db, LigamentTear, Case1())
    ensures Evaluate(db, LigamentTear, Tens, "", Blank.(tFreq := 20.0))
         == Checked(true, [Evaluating(LigamentTear), DeviceCorrect(Tens)])
  {
    var p := Blank.(tFreq := 20.0);
    LigamentTearAcceptsTens();
    EvaluateAccepted(db, LigamentTear, Tens, "", p);
    assert ParameterFindings(Case1().rules, Tens, p) == [];
  }

  /** Below the minimum the cross-marked finding appears, yet the verdict
      stays correct. */
  lemma TensBelowMinimum(db: map<string, Solution>)
    requires Lists(db, LigamentTear, Case1())
    ensures Evaluate(db, LigamentTear, Tens, "", Blank.(tFreq := 19.0))
         == Checked(true, [Evaluating(LigamentTear), DeviceCorrect(Tens), TensFrequencyLow])
    ensures TensFrequencyLow.Glyph() == Cross
  {
    var p := Blank.(tFreq := 19.0);
    LigamentTearAcceptsTens();
    EvaluateAccepted(db, LigamentTear, Tens, "", p);
    assert ParameterFindings(Case1().rules, Tens, p) == [TensFrequencyLow];
  }

  /** The shortwave device normalizes to itself and matches its own entry. */
  lemma ShortwaveMatchesItself()
    ensures Normalize(Shortwave, "") == Shortwave
    ensures Matches(Shortwave, Shortwave, Shortwave)
  {
    MissingCharDoesNotContain(Shortwave, Faradic, 'á');
    ContainsSelf(Shortwave);
  }

  /** Shortwave is accepted by case 19. */
  lemma HamstringAcceptsShortwave()
    ensures DeviceAccepted(Case19().Accepted(), Shortwave, Normalize(Shortwave, ""))
  {
    ShortwaveMatchesItself();
    assert Case19().Accepted()[0] == Shortwave;
  }

  /** Shortwave is accepted by case 18. */
  lemma TorticollisAcceptsShortwave()
    ensures DeviceAccepted(Case18().Accepted(), Shortwave, Normalize(Shortwave, ""))
  {
    ShortwaveMatchesItself();
    assert Case18().Accepted()[0] == Shortwave;
  }

  /** Case 19 with pulsed shortwave at 100 W peak, 200 microseconds, 50 Hz: the
      readout is 1.0 W, under the 8 W minimum, and the verdict is false. */
  lemma PulsedDoseTooLow(db: map<string, Solution>)
    requires Lists(db, Hamstring, Case19())
    ensures var mean := MeanPower("Pulsado (PSWD)", Some(200.0), Some(50.0), Some(100.0));
      Evaluate(db, Hamstring, Shortwave, "", Blank.(ocMetodo := "Inductivo (Campo Magnético)", ocMediaResultante := Some(mean)))
      == Checked(false, [Evaluating(Hamstring), DeviceCorrect(Shortwave), DoseInsufficient(1.0, 8.0)])
  {
    PulsedExample();
    var p := Blank.(ocMetodo := "Inductivo (Campo Magnético)", ocMediaResultante := Some(1.0));
    HamstringAcceptsShortwave();
    EvaluateAccepted(db, Hamstring, Shortwave, "", p);
    assert ParameterFindings(Case19().rules, Shortwave, p) == [DoseInsufficient(1.0, 8.0)];
    assert HardFailure(Case19().rules, Shortwave, p);
  }

  /** Case 18 sets only a maximum dose of 15 W, whatever the method. */
  lemma TorticollisDose(p: Params)
    ensures var mean := p.ocMediaResultante.GetOr(0.0);
      ParameterFindings(Case18().rules, Shortwave, p) == (if mean > 15.0 then [DoseExcessive(mean, 15.0)] else [])
    ensures HardFailure(Case18().rules, Shortwave, p) <==> p.ocMediaResultante.GetOr(0.0) > 15.0
  {
    var r := Case18().rules[Shortwave];
    assert r.metodo == None && r.dosisMinPotencia == None && r.dosisMaxPotencia == Some(15.0);
  }

  /** Case 18 with shortwave: any readout up to the 15 W maximum passes,
      whatever the method, an empty readout (counted as 0 W) included. */
  lemma ShortwaveWithinMaximum(db: map<string, Solution>, p: Params)
    requires Lists(db, Torticollis, Case18())
    requires p.ocMediaResultante == None || p.ocMediaResultante.value <= 15.0
    ensures Evaluate(db, Torticollis, Shortwave, "", p)
         == Checked(true, [Evaluating(Torticollis), DeviceCorrect(Shortwave)])
  {
    TorticollisAcceptsShortwave();
    EvaluateAccepted(db, Torticollis, Shortwave, "", p);
    TorticollisDose(p);
  }

  /** Above the maximum the stop-marked finding appears and the verdict is
      false. */
  lemma ShortwaveOverMaximum(db: map<string, Solution>, p: Params)
    requires Lists(db, Torticollis, Case18())
    requires p.ocMediaResultante.Some? && p.ocMediaResultante.value > 15.0
    ensures Evaluate(db, Torticollis, Shortwave, "", p)
         == Checked(false, [Evaluating(Torticollis), DeviceCorrect(Shortwave), DoseExcessive(p.ocMediaResultante.value, 15.0)])
    ensures DoseExcessive(p.ocMediaResultante.value, 15.0).Glyph() == Stop
  {
    TorticollisAcceptsShortwave();
    EvaluateAccepted(db, Torticollis, Shortwave, "", p);
    TorticollisDose(p);
  }
}
