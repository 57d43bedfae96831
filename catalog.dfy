/** The case catalog: the fixed table of clinical cases, each with its description
    and its reference solution (accepted devices and per-device rule records). */
module Catalog {
  import opened Wrappers

  /** One device's rule record. Every key is optional, as in the dictionaries of
      the catalog; a `None` field is a key the record does not carry. Numbers are
      reals so that integer and decimal thresholds compare alike. */
  datatype RuleSet = RuleSet(
    portadora: Option<real> := None,        // carrier, exact value
    burstMin: Option<real> := None,
    burstMax: Option<real> := None,
    ratio: Option<seq<string>> := None,     // accepted on:off ratios
    portadoraMin: Option<real> := None,
    portadoraMax: Option<real> := None,
    amfMin: Option<real> := None,           // amplitude-modulation frequency bounds
    amfMax: Option<real> := None,
    vector: Option<string> := None,
    freqMin: Option<real> := None,
    freqMax: Option<real> := None,
    duracionMin: Option<real> := None,      // pulse-duration bounds
    duracionMax: Option<real> := None,
    polaridad: Option<string> := None,      // polarity
    fase: Option<seq<real>> := None,        // phase times
    pausa: Option<seq<real>> := None,       // pause times
    busquedaTiempo: Option<bool> := None,   // "search low phase times" (chronaxie)
    ciclo: Option<string> := None,          // ultrasound duty-cycle label
    intensidadMax: Option<real> := None,
    frecuencia: Option<string> := None,     // ultrasound frequency label
    metodo: Option<string> := None,         // shortwave application method
    dosisMinPotencia: Option<real> := None, // shortwave mean-power bounds
    dosisMaxPotencia: Option<real> := None,
    distanciaMin: Option<real> := None,     // infrared lamp distance
    tiempoMin: Option<real> := None
  )

  /** The record that carries no key at all. */
  const NoRules := RuleSet()

  /** A case's reference solution. `equipment` is `None` for a solution that has
      no "equipos" key; `rules` maps a device name to its rule record. */
  datatype Solution = Solution(
    equipment: Option<seq<string>>,
    objectives: Option<seq<string>>,
    extraExplanation: Option<string>,
    rules: map<string, RuleSet>
  ) {
    /** The accepted devices, the empty list when the key is absent. */
    function Accepted(): seq<string>
    {
      equipment.GetOr([])
    }
  }

  /** The placeholder entry the case menu starts on. */
  const NoCaseSelected := "Seleccionar Caso..."

  function Sol(equipment: seq<string>, objectives: seq<string>, rules: map<string, RuleSet>): Solution
  {
    Solution(Some(equipment), Some(objectives), None, rules)
  }

  /** The reference solutions, keyed by the names the case menu shows. */
  function Solutions(): map<string, Solution>
  {
    map[
      NoCaseSelected := NoCase(),
      "1. Ruptura LCA (Debilidad M3)" := Case1(),
      "2. Esguince Tobillo Agudo (24h)" := Case2(),
      "3. Denervación Radial (M1)" := Case3(),
      "4. Lumbalgia Crónica (8 meses)" := Case4(),
      "5. Atrofia Cuádriceps (Encamado)" := Case5(),
      "6. Edema Pantorrilla Post-Traumático" := Case6(),
      "7. Úlcera Talón (No cicatriza)" := Case7(),
      "8. Epicondilitis Crónica (4 meses)" := Case8(),
      "9. Monitoreo Reinervación (Cronaxia)" := Case9(),
      "10. Dolor Post-Qx Meniscos (Inmediato)" := Case10(),
      "11. Lesión Nervio Ulnar (Reobase)" := Case11(),
      "12. Tendinopatía Rotuliana Subaguda" := Case12(),
      "13. Úlcera Sacro (Post-op Cadera)" := Case13(),
      "14. Fractura Escafoides (No consolidada)" := Case14(),
      "15. Acortamiento Banda Iliotibial" := Case15(),
      "16. Artritis Reumatoide (Manos)" := Case16(),
      "17. Esguince Talofibular Anterior (1 día)" := Case17(),
      "18. Tortícolis Aguda" := Case18(),
      "19. Desgarro Isquiotibial (10 días)" := Case19(),
      "20. Cicatriz Adherida Muñeca" := Case20(),
      "21. Espasmo Dorsal Crónico" := Case21()
    ]
  }

  /** The clinical vignettes, under the same names. They are shown to the
      student and passed to the tutor prompt; no rule reads them. */
  function Descriptions(): map<string, string>
  {
    map[
      NoCaseSelected :=
        "Por favor, selecciona un caso clínico para comenzar la simulación.",
      "1. Ruptura LCA (Debilidad M3)" :=
        "Paciente de 24 años, deportista, 6ta semana postop LCA. Debilidad en extensores de rodilla por desuso (M3).",
      "2. Esguince Tobillo Agudo (24h)" :=
        "Paciente de 19 años, esguince hace 24 hrs. Edema en zona articular y dolor intenso (EVA 8/10).",
      "3. Denervación Radial (M1)" :=
        "Paciente herido con arma blanca en brazo. Debilidad extensores muñeca (M1) y parestesia. Realice prueba UGT.",
      "4. Lumbalgia Crónica (8 meses)" :=
        "Paciente de 55 años, dolor lumbar sordo de 8 meses. No responde a analgésicos comunes.",
      "5. Atrofia Cuádriceps (Encamado)" :=
        "Paciente 70 años, encamado por neumonía. Debilidad generalizada, predominio cuádriceps (M2).",
      "6. Edema Pantorrilla Post-Traumático" :=
        "Edema importante en gastrocnemios tras desgarro cicatrizado. Dolor 6/10.",
      "7. Úlcera Talón (No cicatriza)" :=
        "Úlcera en talón de 3 semanas. Dolor y debilidad.",
      "8. Epicondilitis Crónica (4 meses)" :=
        "Tenista de 40 años, dolor epicóndilo lateral de 4 meses.",
      "9. Monitoreo Reinervación (Cronaxia)" :=
        "Post-op hernia lumbar. Dificultad para elevar talones. Comprobar Cronaxia (Reobase 30mA).",
      "10. Dolor Post-Qx Meniscos (Inmediato)" :=
        "Operado hace 6 horas. Dolor agudo (EVA 9/10).",
      "11. Lesión Nervio Ulnar (Reobase)" :=
        "Fractura consolidada húmero. Hormigueo mano medial. Obtener Reobase.",
      "12. Tendinopatía Rotuliana Subaguda" :=
        "Dolor tendón rotuliano, 3 semanas evolución. EVA 8/10.",
      "13. Úlcera Sacro (Post-op Cadera)" :=
        "UPP en zona sacra, 2 semanas, no cicatriza.",
      "14. Fractura Escafoides (No consolidada)" :=
        "Fractura 4 meses, falta de consolidación.",
      "15. Acortamiento Banda Iliotibial" :=
        "Corredora, dolor lateral rodilla. Banda tensa y acortada.",
      "16. Artritis Reumatoide (Manos)" :=
        "AR larga data, rigidez matutina. Piel delgada.",
      "17. Esguince Talofibular Anterior (1 día)" :=
        "Esguince agudo hace 1 día. Dolor 4/10. Sin edema importante.",
      "18. Tortícolis Aguda" :=
        "Espasmo severo hace 48 hrs. Dolor trapecio/elevador.",
      "19. Desgarro Isquiotibial (10 días)" :=
        "Desgarro grado 1, hace 10 días. Sin edema.",
      "20. Cicatriz Adherida Muñeca" :=
        "Post fractura radio. Cicatriz fibrosa adherida.",
      "21. Espasmo Dorsal Crónico" :=
        "Obrero, espasmo crónico dorsal extenso."
    ]
  }

  function NoCase(): Solution
  {
    Solution(None, None, None, map[])
  }

  function Case1(): Solution
  {
    Sol(["Rusa", "TIF", "TENS"], ["fortalec", "tetaniz", "fuerza", "atrofia"],
        map["Rusa" := RuleSet(portadora := Some(2500.0), burstMin := Some(20.0), ratio := Some(["1:4", "1:5"])),
        "TIF" := RuleSet(portadoraMin := Some(2000.0), portadoraMax := Some(2500.0), amfMin := Some(20.0)),
        "TENS" := RuleSet(freqMin := Some(20.0), duracionMin := Some(200.0))])
  }

  function Case2(): Solution
  {
    Sol(["TIF", "TENS", "Farádica (Träbert)"], ["analgesia", "edema", "gate control", "drenaje"],
        map["TIF" := RuleSet(portadora := Some(4000.0), amfMin := Some(80.0), vector := Some("6:6")),
        "TENS" := RuleSet(freqMin := Some(50.0), duracionMax := Some(150.0)),
        "Farádica (Träbert)" := RuleSet(polaridad := Some("Normal"))])
  }

  function Case3(): Solution
  {
    Sol(["Farádica (Triangular)"], ["ugt", "curva", "acomodacion", "triangular"],
        map["Farádica (Triangular)" := RuleSet(fase := Some([1000.0, 500.0]), pausa := Some([2000.0]))])
  }

  function Case4(): Solution
  {
    Sol(["TENS"], ["endorfinas", "descendente", "cronico", "analgesia", "burst"],
        map["TENS" := RuleSet(freqMax := Some(10.0), duracionMin := Some(150.0))])
  }

  function Case5(): Solution
  {
    Sol(["Rusa", "TIF", "TENS"], ["fortalec", "tetaniz", "atrofia"],
        map["Rusa" := RuleSet(portadora := Some(2500.0), burstMin := Some(20.0), ratio := Some(["1:4", "1:5"])),
        "TIF" := RuleSet(portadoraMin := Some(2000.0), portadoraMax := Some(2500.0)),
        "TENS" := RuleSet(freqMin := Some(20.0), duracionMin := Some(200.0))])
  }

  function Case6(): Solution
  {
    Sol(["Rusa", "TIF"], ["bombeo", "drenaje", "edema", "fasciculacion"],
        map["Rusa" := RuleSet(burstMax := Some(10.0)),
        "TIF" := RuleSet(amfMax := Some(15.0))])
  }

  function Case7(): Solution
  {
    Solution(Some(["Microcorriente", "Alto Voltaje", "TENS"]),
        Some(["cicatriz", "reparacion", "ulcera", "microcorriente"]),
        Some("Se recomienda Microcorrientes (MENS) o Alto Voltaje."), map[])
  }

  function Case8(): Solution
  {
    Sol(["TIF", "TENS"], ["analgesia", "dolor", "gate control"],
        map["TIF" := RuleSet(portadora := Some(4000.0), amfMin := Some(80.0), vector := Some("6:6")),
        "TENS" := RuleSet(freqMin := Some(50.0))])
  }

  function Case9(): Solution
  {
    Sol(["Farádica (Rectangular)"], ["cronaxia", "evaluacion", "diagnostico", "tiempo"],
        map["Farádica (Rectangular)" := RuleSet(busquedaTiempo := Some(true))])
  }

  function Case10(): Solution
  {
    Sol(["TIF", "TENS"], ["analgesia", "agudo", "gate control"],
        map["TIF" := RuleSet(portadora := Some(4000.0), amfMin := Some(80.0), vector := Some("6:6")),
        "TENS" := RuleSet(freqMin := Some(80.0), duracionMax := Some(100.0))])
  }

  function Case11(): Solution
  {
    Sol(["Farádica (Rectangular)"], ["reobase", "umbral", "diagnostico"],
        map["Farádica (Rectangular)" := RuleSet(fase := Some([1000.0, 500.0]))])
  }

  function Case12(): Solution
  {
    Sol(["TIF", "TENS"], ["analgesia", "dolor", "gate control"],
        map["TIF" := RuleSet(portadora := Some(4000.0), amfMin := Some(80.0)),
        "TENS" := RuleSet(freqMin := Some(50.0))])
  }

  function Case13(): Solution
  {
    Solution(Some(["Microcorriente", "Alto Voltaje"]),
        Some(["cicatriz", "ulcera", "reparacion"]),
        Some("Requiere corrientes de reparación tisular (Microcorriente/Alto Voltaje)."), map[])
  }

  function Case14(): Solution
  {
    Sol(["Ultrasonido"], ["lipus", "consolidacion", "oseo", "fractura"],
        map["Ultrasonido" := RuleSet(ciclo := Some("20% (1:4)"), intensidadMax := Some(0.5), frecuencia := Some("1 MHz"))])
  }

  function Case15(): Solution
  {
    Sol(["Onda Corta", "Infrarrojo"], ["calor", "termico", "elongacion", "relajacion"],
        map["Onda Corta" := RuleSet(metodo := Some("Capacitivo (Campo Eléctrico)"), dosisMinPotencia := Some(6.0)),
        "Infrarrojo" := RuleSet(distanciaMin := Some(40.0))])
  }

  function Case16(): Solution
  {
    Sol(["Infrarrojo"], ["rigidez", "dolor", "calor superficial"],
        map["Infrarrojo" := RuleSet(distanciaMin := Some(30.0), tiempoMin := Some(20.0))])
  }

  function Case17(): Solution
  {
    Sol(["Ultrasonido"], ["reparacion", "regeneracion", "agudo", "lipus"],
        map["Ultrasonido" := RuleSet(ciclo := Some("20% (1:4)"), intensidadMax := Some(0.5))])
  }

  function Case18(): Solution
  {
    Sol(["Onda Corta", "Infrarrojo"], ["relaja", "espasmo", "calor suave"],
        map["Onda Corta" := RuleSet(dosisMaxPotencia := Some(15.0)),
        "Infrarrojo" := RuleSet(distanciaMin := Some(40.0))])
  }

  function Case19(): Solution
  {
    Sol(["Onda Corta"], ["regeneracion", "flujo", "reparacion"],
        map["Onda Corta" := RuleSet(metodo := Some("Inductivo (Campo Magnético)"), dosisMinPotencia := Some(8.0))])
  }

  function Case20(): Solution
  {
    Sol(["Ultrasonido"], ["adherencia", "fibrosis", "cicatriz"],
        map["Ultrasonido" := RuleSet(frecuencia := Some("3 MHz"), ciclo := Some("100% (Continuo)"))])
  }

  function Case21(): Solution
  {
    Sol(["Onda Corta"], ["termico", "calor profundo", "relajacion"],
        map["Onda Corta" := RuleSet(metodo := Some("Inductivo (Campo Magnético)"), dosisMinPotencia := Some(30.0))])
  }

  /** `db` lists `sol` under `name`. */
  predicate Lists(db: map<string, Solution>, name: string, sol: Solution)
  {
    name in db && db[name] == sol
  }

  lemma Case1Listed() ensures Lists(Solutions(), "1. Ruptura LCA (Debilidad M3)", Case1()) {}
  lemma Case9Listed() ensures Lists(Solutions(), "9. Monitoreo Reinervación (Cronaxia)", Case9()) {}
  lemma Case14Listed() ensures Lists(Solutions(), "14. Fractura Escafoides (No consolidada)", Case14()) {}
  lemma Case18Listed() ensures Lists(Solutions(), "18. Tortícolis Aguda", Case18()) {}
  lemma Case19Listed() ensures Lists(Solutions(), "19. Desgarro Isquiotibial (10 días)", Case19()) {}
}
