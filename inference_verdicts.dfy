/**
 * What `evaluar_proveedor` returns for a fact, stated against the rules that
 * match it: the score, the count of firings, the verdict and its gates, the
 * independence from the agenda order, and the fixed error result.
 */
module InferenceVerdicts {
  import opened Wrappers
  import opened InferenceRules
  import opened InferenceProperties
  import Knowledge

  /** The record of every firing of a run, field by field. */
  lemma AfterRulesEffects(f: Facts)
    ensures AfterRules(f).explicaciones == Explains(Activations(f), f)
    ensures AfterRules(f).puntuacionTotal == 100 - RuleImpacts(Activations(f))
    ensures AfterRules(f).alertas == AlertsOf(Activations(f))
    ensures AfterRules(f).factoresCriticos == FactorsOf(Activations(f))
    ensures AfterRules(f).conclusiones == DeclaredBy(Activations(f))
    ensures AfterRules(f).riesgoFinal == NO_DETERMINADO
    ensures AfterRules(f).recomendacion == ""
  {
    var acts := Activations(f);
    FireAllExplains(Initial(), acts, f);
    FireAllScore(Initial(), acts, f);
    FireAllAlerts(Initial(), acts, f);
    FireAllFactors(Initial(), acts, f);
    FireAllConclusions(Initial(), acts, f);
    FireAllVerdict(Initial(), acts, f);
  }

  /** A high conclusion is declared exactly when RF-001 or RL-001 matches. */
  lemma HighConclusionIff(rs: seq<RuleId>)
    ensures HighConclusion(DeclaredBy(rs)) <==> RF001 in rs || RL001 in rs
  {
    DeclaredByMembers(rs, Conclusion(Financiero, Alto));
    DeclaredByMembers(rs, Conclusion(Legal, Alto));
  }

  /** An operational-medium conclusion is declared exactly when RO-001 matches. */
  lemma OperationalMediumIff(rs: seq<RuleId>)
    ensures OperationalMedium(DeclaredBy(rs)) <==> RO001 in rs
  {
    DeclaredByMembers(rs, Conclusion(Operacional, Medio));
  }

  predicate HighMatched(f: Facts) {
    Matches(RF001, f) || Matches(RL001, f)
  }

  /** The score before clamping: 100 minus the impacts of the rules that matched. */
  function RawScore(f: Facts): int {
    100 - RuleImpacts(Activations(f))
  }

  lemma GatesOfRun(f: Facts)
    ensures HighConclusion(AfterRules(f).conclusiones) <==> HighMatched(f)
    ensures OperationalMedium(AfterRules(f).conclusiones) <==> Matches(RO001, f)
  {
    AfterRulesEffects(f);
    ActivationsExact(f);
    HighConclusionIff(Activations(f));
    OperationalMediumIff(Activations(f));
  }

  /**
   * The reported score is the baseline minus every recorded impact, clamped at
   * 0; every impact being non-negative, it lies in [0, 100].
   */
  lemma ScoreIsClampedSum(f: Facts)
    ensures Evaluate(f).puntuacion == if RawScore(f) < 0 then 0 else RawScore(f)
    ensures Evaluate(f).puntuacion == Max0(100 - SumImpacts(Evaluate(f).explicaciones))
    ensures 0 <= Evaluate(f).puntuacion <= 100
  {
    AfterRulesEffects(f);
    RuleImpactsIsSum(Activations(f), f);
  }

  function Max0(n: int): int {
    if n < 0 then 0 else n
  }

  /** `total_reglas_activadas` counts the explanations, one per matching rule in declaration order. */
  lemma OneExplanationPerRule(f: Facts)
    ensures Evaluate(f).totalReglasActivadas == |Evaluate(f).explicaciones| == |Activations(f)|
    ensures forall i :: 0 <= i < |Activations(f)| ==>
      Evaluate(f).explicaciones[i].regla == Label(Activations(f)[i])
  {
    AfterRulesEffects(f);
    ExplainsShape(Activations(f), f);
  }

  /** A rule's label appears among the explanations exactly when its pattern matches. */
  lemma ExplainedIffMatched(f: Facts, r: RuleId)
    ensures Matches(r, f) <==> exists e :: e in Evaluate(f).explicaciones && e.regla == Label(r)
  {
    var acts := Activations(f);
    var es := Evaluate(f).explicaciones;
    OneExplanationPerRule(f);
    ActivationsExact(f);
    if Matches(r, f) {
      var i :| 0 <= i < |acts| && acts[i] == r;
      assert es[i] in es;
    }
    if e :| e in es && e.regla == Label(r) {
      var i :| 0 <= i < |es| && es[i] == e;
      LabelInjective(acts[i], r);
    }
  }

  /** No rule is explained twice: the labels of a run are pairwise distinct. */
  lemma ExplanationsDistinct(f: Facts)
    ensures forall i, j :: 0 <= i < j < |Evaluate(f).explicaciones| ==>
      Evaluate(f).explicaciones[i].regla != Evaluate(f).explicaciones[j].regla
  {
    var acts := Activations(f);
    var es := Evaluate(f).explicaciones;
    OneExplanationPerRule(f);
    ActivationsExact(f);
    forall i, j | 0 <= i < j < |es| ensures es[i].regla != es[j].regla {
      if es[i].regla == es[j].regla {
        LabelInjective(acts[i], acts[j]);
      }
    }
  }

  /** RF-001 or RL-001 settles the verdict at ALTO, whatever the score or the other rules. */
  lemma HighRiskGate(f: Facts)
    ensures HighMatched(f) ==> Evaluate(f).riesgoFinal == ALTO
    ensures Evaluate(f).recomendacion == NO_APROBAR_CONTRATACION <==> HighMatched(f)
  {
    AfterRulesEffects(f);
    GatesOfRun(f);
  }

  /** Without a high conclusion, RO-001 settles the verdict at MEDIO with quarterly monitoring. */
  lemma MediumRiskGate(f: Facts)
    ensures !HighMatched(f) && Matches(RO001, f) ==> Evaluate(f).riesgoFinal == MEDIO
    ensures Evaluate(f).recomendacion == APROBAR_CONDICIONES_TRIMESTRAL <==> !HighMatched(f) && Matches(RO001, f)
  {
    AfterRulesEffects(f);
    GatesOfRun(f);
  }

  /** Otherwise the unclamped score decides: 80 and up BAJO, 60 and up MEDIO, else ALTO. */
  lemma ScoreFallbackVerdict(f: Facts)
    requires !HighMatched(f) && !Matches(RO001, f)
    ensures RawScore(f) >= 80 ==> Evaluate(f).riesgoFinal == BAJO && Evaluate(f).recomendacion == APROBAR
    ensures 60 <= RawScore(f) < 80 ==>
      Evaluate(f).riesgoFinal == MEDIO && Evaluate(f).recomendacion == APROBAR_CONDICIONES
    ensures RawScore(f) < 60 ==> Evaluate(f).riesgoFinal == ALTO && Evaluate(f).recomendacion == NO_APROBAR
  {
    AfterRulesEffects(f);
    GatesOfRun(f);
  }

  /** A run always settles on BAJO, MEDIO or ALTO. */
  lemma VerdictSettled(f: Facts)
    ensures Evaluate(f).riesgoFinal in {BAJO, MEDIO, ALTO}
  {
    AfterRulesEffects(f);
  }

  // ------------------------------------------------------------ the agenda order

  /** A run that fires the matching rules in the order `agenda`. */
  function EvaluateInOrder(f: Facts, agenda: seq<RuleId>): Resultado {
    Result(PuntuacionFinal(Decide(FireAll(Initial(), agenda, f))))
  }

  /** The verdict and score depend only on the score, the conclusions and the verdict so far. */
  lemma VerdictDependsOnSummary(s1: State, s2: State)
    requires s1.puntuacionTotal == s2.puntuacionTotal && s1.conclusiones == s2.conclusiones
    requires s1.riesgoFinal == s2.riesgoFinal && s1.recomendacion == s2.recomendacion
    ensures Result(PuntuacionFinal(Decide(s1))).riesgoFinal == Result(PuntuacionFinal(Decide(s2))).riesgoFinal
    ensures Result(PuntuacionFinal(Decide(s1))).recomendacion == Result(PuntuacionFinal(Decide(s2))).recomendacion
    ensures Result(PuntuacionFinal(Decide(s1))).puntuacion == Result(PuntuacionFinal(Decide(s2))).puntuacion
  {
  }

  /** Deciding and scoring keep the recorded lists. */
  lemma DecideKeepsRecords(s: State)
    ensures Result(PuntuacionFinal(Decide(s))).explicaciones == s.explicaciones
    ensures Result(PuntuacionFinal(Decide(s))).alertas == s.alertas
    ensures Result(PuntuacionFinal(Decide(s))).factoresCriticos == s.factoresCriticos
    ensures Result(PuntuacionFinal(Decide(s))).totalReglasActivadas == |s.explicaciones|
  {
  }

  /**
   * Whatever order the agenda fires the matching rules in, the verdict, the
   * score, the count and the recorded explanations, alerts and factors (as
   * multisets) are those of `Evaluate`.
   */
  lemma AgendaOrderIrrelevant(f: Facts, agenda: seq<RuleId>)
    requires multiset(agenda) == multiset(Activations(f))
    ensures EvaluateInOrder(f, agenda).riesgoFinal == Evaluate(f).riesgoFinal
    ensures EvaluateInOrder(f, agenda).recomendacion == Evaluate(f).recomendacion
    ensures EvaluateInOrder(f, agenda).puntuacion == Evaluate(f).puntuacion
    ensures EvaluateInOrder(f, agenda).totalReglasActivadas == Evaluate(f).totalReglasActivadas
    ensures multiset(EvaluateInOrder(f, agenda).explicaciones) == multiset(Evaluate(f).explicaciones)
    ensures multiset(EvaluateInOrder(f, agenda).alertas) == multiset(Evaluate(f).alertas)
    ensures multiset(EvaluateInOrder(f, agenda).factoresCriticos) == multiset(Evaluate(f).factoresCriticos)
  {
    var acts := Activations(f);
    var s1, s2 := FireAll(Initial(), agenda, f), AfterRules(f);
    FireAllExplains(Initial(), agenda, f);
    FireAllScore(Initial(), agenda, f);
    FireAllAlerts(Initial(), agenda, f);
    FireAllFactors(Initial(), agenda, f);
    FireAllConclusions(Initial(), agenda, f);
    FireAllVerdict(Initial(), agenda, f);
    AfterRulesEffects(f);
    RuleImpactsPermutation(agenda, acts);
    ExplainsPermutation(agenda, acts, f);
    AlertsPermutation(agenda, acts);
    FactorsPermutation(agenda, acts);
    DeclaredByPermutation(agenda, acts);
    VerdictDependsOnSummary(s1, s2);
    DecideKeepsRecords(s1);
    DecideKeepsRecords(s2);
    assert |s1.explicaciones| == |multiset(s1.explicaciones)| == |multiset(s2.explicaciones)| == |s2.explicaciones|;
  }

  // ------------------------------------------------------------ the decision rules

  /** One firing of a decision rule, as the agenda schedules it. */
  datatype DecisionFiring = AltoFires | MedioFires

  function ApplyDecision(s: State, d: DecisionFiring): State {
    match d
    case AltoFires => DecisionAlto(s)
    case MedioFires => DecisionMedio(s)
  }

  /** Fires the decision rules in the order `ds`. */
  function ApplyDecisions(s: State, ds: seq<DecisionFiring>): State {
    if ds == [] then s else ApplyDecision(ApplyDecisions(s, ds[..|ds| - 1]), ds[|ds| - 1])
  }

  /** The decision rules write only the verdict and the recommendation. */
  lemma {:induction false} DecisionsKeepRecords(s: State, ds: seq<DecisionFiring>)
    ensures ApplyDecisions(s, ds).(riesgoFinal := s.riesgoFinal, recomendacion := s.recomendacion) == s
  {
    if ds != [] {
      DecisionsKeepRecords(s, ds[..|ds| - 1]);
    }
  }

  /** Once `decision_riesgo_alto` has fired, the verdict stays ALTO whatever fires after it. */
  lemma {:induction false} AltoAbsorbs(s: State, ds: seq<DecisionFiring>)
    requires AltoFires in ds
    ensures ApplyDecisions(s, ds) == DecisionAlto(s)
  {
    var init, last := ds[..|ds| - 1], ds[|ds| - 1];
    assert ds == init + [last];
    DecisionsKeepRecords(s, init);
    if last == MedioFires {
      AltoAbsorbs(s, init);
    }
  }

  /** Without `decision_riesgo_alto`, the first firing of `decision_riesgo_medio` sets the verdict. */
  lemma {:induction false} MedioOnly(s: State, ds: seq<DecisionFiring>)
    requires s.riesgoFinal == NO_DETERMINADO && AltoFires !in ds
    ensures ApplyDecisions(s, ds) == if MedioFires in ds then DecisionMedio(s) else s
  {
    if ds != [] {
      var init, last := ds[..|ds| - 1], ds[|ds| - 1];
      assert ds == init + [last];
      MedioOnly(s, init);
    }
  }

  /**
   * However the agenda interleaves the decision rules, they end where `Decide`
   * does: each rule fires (at least once) exactly when its pattern holds over
   * the conclusions, with `decision_riesgo_medio` free to fire early while a
   * high conclusion is still to come.
   */
  lemma DecisionScheduleIrrelevant(s: State, ds: seq<DecisionFiring>)
    requires s.riesgoFinal == NO_DETERMINADO
    requires AltoFires in ds <==> HighConclusion(s.conclusiones)
    requires !HighConclusion(s.conclusiones) ==> (MedioFires in ds <==> OperationalMedium(s.conclusiones))
    ensures ApplyDecisions(s, ds) == Decide(s)
  {
    if AltoFires in ds {
      AltoAbsorbs(s, ds);
    } else {
      MedioOnly(s, ds);
    }
  }

  // ------------------------------------------------------------ what the rules record

  lemma FactorOfInjective(r1: RuleId, r2: RuleId)
    requires FactorOf(r1).Some? && FactorOf(r1) == FactorOf(r2)
    ensures r1 == r2
  {
  }

  lemma {:induction false} FactorsOfMembers(rs: seq<RuleId>, x: string)
    ensures x in FactorsOf(rs) <==> exists r :: r in rs && FactorOf(r) == Some(x)
  {
    if rs != [] {
      var init, last := rs[..|rs| - 1], rs[|rs| - 1];
      FactorsOfMembers(init, x);
      assert rs == init + [last];
    }
  }

  /** Rules fired at most once each append pairwise distinct critical factors. */
  lemma {:induction false} FactorsOfDistinct(rs: seq<RuleId>)
    requires Distinct(rs)
    ensures Distinct(FactorsOf(rs))
  {
    if rs != [] {
      var init, last := rs[..|rs| - 1], rs[|rs| - 1];
      FactorsOfDistinct(init);
      if FactorOf(last).Some? {
        var x := FactorOf(last).value;
        FactorsOfMembers(init, x);
        if r :| r in init && FactorOf(r) == Some(x) {
          FactorOfInjective(r, last);
        }
      }
    }
  }

  /** The critical factors of a run are pairwise distinct. */
  lemma CriticalFactorsDistinct(f: Facts)
    ensures Distinct(Evaluate(f).factoresCriticos)
  {
    AfterRulesEffects(f);
    ActivationsExact(f);
    FactorsOfDistinct(Activations(f));
  }

  /** Every alert a rule registers is CRÍTICO, ALTO or MEDIO. */
  lemma {:induction false} AlertLevels(rs: seq<RuleId>)
    ensures forall a :: a in AlertsOf(rs) ==> a.nivel in {CRITICO, ALTO, MEDIO}
  {
    if rs != [] {
      AlertLevels(rs[..|rs| - 1]);
    }
  }

  /** The records of a run reach the result untouched by the decision steps. */
  lemma EvaluateRecords(f: Facts)
    ensures Evaluate(f).explicaciones == Explains(Activations(f), f)
    ensures Evaluate(f).alertas == AlertsOf(Activations(f))
    ensures Evaluate(f).factoresCriticos == FactorsOf(Activations(f))
  {
    AfterRulesEffects(f);
    DecideKeepsRecords(AfterRules(f));
  }

  lemma RunAlertLevels(f: Facts)
    ensures forall a :: a in Evaluate(f).alertas ==> a.nivel in {CRITICO, ALTO, MEDIO}
  {
    EvaluateRecords(f);
    AlertLevels(Activations(f));
  }

  // ------------------------------------------------------------ thresholds

  /** For a present liquidity ratio exactly one of RF-001, RF-002 and RF-003 fires; for an absent one none. */
  lemma LiquidityPartition(f: Facts)
    ensures f.liquidezCorriente.Some? ==>
      Knowledge.ExactlyOneOf3(RF001 in Activations(f), RF002 in Activations(f), RF003 in Activations(f))
    ensures f.liquidezCorriente.None? ==>
      RF001 !in Activations(f) && RF002 !in Activations(f) && RF003 !in Activations(f)
    ensures f.liquidezCorriente == Some(1.0) ==> RF002 in Activations(f) && RF001 !in Activations(f)
  {
    ActivationsExact(f);
  }

  /** The financial comparisons are strict where the source writes them so. */
  lemma StrictFinancialThresholds(f: Facts)
    ensures f.endeudamiento == Some(0.7) ==> RF004 !in Activations(f)
    ensures f.rentabilidad == Some(0.0) ==> RF005 !in Activations(f)
    ensures f.historialPagos == Some(60.0) ==> RF006 !in Activations(f)
  {
    ActivationsExact(f);
  }

  /** The operational comparisons are strict where the source writes them so. */
  lemma StrictOperationalThresholds(f: Facts)
    ensures f.tiempoMercado == Some(2.0) ==> RO002 !in Activations(f)
    ensures f.capacidadProduccion == Some(50.0) ==> RO003 !in Activations(f)
    ensures f.tasaDefectos == Some(5.0) ==> RO004 !in Activations(f)
    ensures f.cumplimientoEntregas == Some(70.0) ==> RO005 !in Activations(f)
  {
    ActivationsExact(f);
  }

  /** The reputational comparisons are strict where the source writes them so. */
  lemma StrictReputationalThresholds(f: Facts)
    ensures f.calificacionMercado == Some(3.0) ==> RR001 !in Activations(f)
    ensures f.quejasClientes == Some(10.0) ==> RR002 !in Activations(f)
    ensures f.referenciasPositivas == Some(2.0) ==> RR003 !in Activations(f)
  {
    ActivationsExact(f);
  }

  /** RL-002 needs both a false environmental certification and the industry "manufactura". */
  lemma EnvironmentalRuleIff(f: Facts)
    ensures RL002 in Activations(f) <==>
      f.certificacionAmbiental == Some(false) && f.industria == Some("manufactura")
  {
    ActivationsExact(f);
  }

  // ------------------------------------------------------------ whole runs

  /** Rules that take off no points leave the score untouched. */
  lemma {:induction false} RuleImpactsZero(rs: seq<RuleId>)
    requires forall r :: r in rs ==> Impact(r) == 0
    ensures RuleImpacts(rs) == 0
  {
    if rs != [] {
      var init := rs[..|rs| - 1];
      assert forall r :: r in init ==> r in rs;
      RuleImpactsZero(init);
      assert rs[|rs| - 1] in rs;
    }
  }

  /** A fact with no keys matches no rule and is approved with the full score. */
  lemma EmptyFactsApproved()
    ensures Evaluate(NoFacts()).riesgoFinal == BAJO
    ensures Evaluate(NoFacts()).recomendacion == APROBAR
    ensures Evaluate(NoFacts()).puntuacion == 100
    ensures Evaluate(NoFacts()).explicaciones == []
  {
    ActivationsExact(NoFacts());
    if Activations(NoFacts()) != [] {
      assert Matches(Activations(NoFacts())[0], NoFacts());
    }
  }

  function NoFacts(): Facts {
    Facts(None, None, None, None, None, None, None, None, None, None, None, None, None, None, None, None)
  }

  /** The excellent supplier of the engine's first test case. */
  function ExcellentSupplier(): Facts {
    Facts(Some(2.5), Some(0.30), Some(0.18), Some(90.0), Some(true), Some(5.0), Some(80.0), Some(2.0),
          Some(98.0), Some(true), Some(true), Some("servicios"), Some(true), Some(4.8), Some(3.0), Some(5.0))
  }

  /** Of the whole catalogue only RF-003 (healthy liquidity) matches this supplier. */
  lemma ExcellentSupplierMatchesOnlyRF003()
    ensures forall r :: r in Activations(ExcellentSupplier()) <==> r == RF003
  {
    ActivationsExact(ExcellentSupplier());
  }

  /** RF-003 takes off no points, so the supplier is BAJO with 100 points. */
  lemma ExcellentSupplierLowRisk()
    ensures Evaluate(ExcellentSupplier()).riesgoFinal == BAJO
    ensures Evaluate(ExcellentSupplier()).recomendacion == APROBAR
    ensures Evaluate(ExcellentSupplier()).puntuacion == 100
  {
    var f := ExcellentSupplier();
    ExcellentSupplierMatchesOnlyRF003();
    ActivationsExact(f);
    RuleImpactsZero(Activations(f));
    ScoreIsClampedSum(f);
    ScoreFallbackVerdict(f);
  }
}
