/**
 * `MotorEvaluacionRiesgo` as an object: its fields are updated in place by one
 * method per rule, by the two decision rules and by the final scoring, and
 * `EvaluarProveedor` drives one run or returns the fixed error result.
 */
module InferenceEngine {
  import opened Wrappers
  import opened InferenceRules
  import opened InferenceProperties
  import opened InferenceVerdicts

  class Motor {
    var explicaciones: seq<Explanation>
    var alertas: seq<Alert>
    var puntuacionTotal: int
    var riesgoFinal: string
    var recomendacion: string
    var factoresCriticos: seq<string>
    /** The `Conclusion` facts in working memory (a set: a repeated declaration adds nothing). */
    var conclusiones: set<Conclusion>

    /** The engine's fields as one value. */
    function View(): State
      reads this
    {
      State(explicaciones, alertas, puntuacionTotal, riesgoFinal, recomendacion, factoresCriticos, conclusiones)
    }

    /**
     * The score is always the baseline minus the impacts recorded so far, and
     * every recorded impact is non-negative.
     */
    ghost predicate Valid()
      reads this
    {
      ScoreConsistent(View()) && forall i :: 0 <= i < |explicaciones| ==> explicaciones[i].impacto >= 0
    }

    constructor ()
      ensures Valid() && View() == Initial()
    {
      explicaciones := [];
      alertas := [];
      puntuacionTotal := 100;
      riesgoFinal := NO_DETERMINADO;
      recomendacion := "";
      factoresCriticos := [];
      conclusiones := {};
    }

    /** Records one firing and subtracts its impact from the score. */
    method RegistrarExplicacion(regla: string, razonamiento: Reason, impacto: int)
      requires Valid() && impacto >= 0
      modifies this
      ensures Valid()
      ensures View() == old(View()).(explicaciones := old(explicaciones) + [Explanation(regla, razonamiento, impacto)],
                                     puntuacionTotal := old(puntuacionTotal) - impacto)
    {
      var e := Explanation(regla, razonamiento, impacto);
      assert (explicaciones + [e])[..|explicaciones|] == explicaciones;
      explicaciones := explicaciones + [e];
      puntuacionTotal := puntuacionTotal - impacto;
    }

    method RegistrarAlerta(nivel: string, mensaje: string)
      requires Valid()
      modifies this
      ensures Valid()
      ensures View() == old(View()).(alertas := old(alertas) + [Alert(nivel, mensaje)])
    {
      alertas := alertas + [Alert(nivel, mensaje)];
    }

    /** `self.declare(Conclusion(...))`. */
    method Declare(c: Conclusion)
      requires Valid()
      modifies this
      ensures Valid()
      ensures View() == old(View()).(conclusiones := old(conclusiones) + {c})
    {
      conclusiones := conclusiones + {c};
    }

    method AgregarFactor(factor: string)
      requires Valid()
      modifies this
      ensures Valid()
      ensures View() == old(View()).(factoresCriticos := old(factoresCriticos) + [factor])
    {
      factoresCriticos := factoresCriticos + [factor];
    }

    // ------------------------------------------------------------ financial rules

    method LiquidezCritica(lc: real)
      requires Valid()
      modifies this
      ensures Valid() && View() == Fire(old(View()), RF001, Some(lc))
    {
      RegistrarExplicacion(Label(RF001), Reason(RF001, Some(lc)), 25);
      RegistrarAlerta("CRÍTICO", "Liquidez insuficiente - Alto riesgo de incumplimiento");
      Declare(Conclusion(Financiero, Alto));
      AgregarFactor("Liquidez crítica");
    }

    method LiquidezModerada(lc: real)
      requires Valid()
      modifies this
      ensures Valid() && View() == Fire(old(View()), RF002, Some(lc))
    {
      RegistrarExplicacion(Label(RF002), Reason(RF002, Some(lc)), 10);
      Declare(Conclusion(Financiero, Medio));
    }

    method LiquidezSaludable(lc: real)
      requires Valid()
      modifies this
      ensures Valid() && View() == Fire(old(View()), RF003, Some(lc))
    {
      RegistrarExplicacion(Label(RF003), Reason(RF003, Some(lc)), 0);
      Declare(Conclusion(Financiero, Bajo));
    }

    method EndeudamientoAlto(end: real)
      requires Valid()
      modifies this
      ensures Valid() && View() == Fire(old(View()), RF004, Some(end))
    {
      RegistrarExplicacion(Label(RF004), Reason(RF004, Some(end)), 20);
      RegistrarAlerta("ALTO", "Endeudamiento excesivo - Riesgo de insolvencia");
      AgregarFactor("Endeudamiento excesivo");
    }

    method RentabilidadNegativa(rent: real)
      requires Valid()
      modifies this
      ensures Valid() && View() == Fire(old(View()), RF005, Some(rent))
    {
      RegistrarExplicacion(Label(RF005), Reason(RF005, Some(rent)), 30);
      RegistrarAlerta("CRÍTICO", "Proveedor operando con pérdidas");
      AgregarFactor("Pérdidas operativas");
    }

    method MorosidadAlta(hp: real)
      requires Valid()
      modifies this
      ensures Valid() && View() == Fire(old(View()), RF006, Some(hp))
    {
      RegistrarExplicacion(Label(RF006), Reason(RF006, Some(hp)), 25);
      RegistrarAlerta("ALTO", "Historial de morosidad significativo");
      AgregarFactor("Morosidad recurrente");
    }

    // ------------------------------------------------------------ operational rules

    method SinCertificacionCalidad()
      requires Valid()
      modifies this
      ensures Valid() && View() == Fire(old(View()), RO001, None)
    {
      RegistrarExplicacion(Label(RO001), Reason(RO001, None), 15);
      Declare(Conclusion(Operacional, Medio));
    }

    method ProveedorNuevo(tm: real)
      requires Valid()
      modifies this
      ensures Valid() && View() == Fire(old(View()), RO002, Some(tm))
    {
      RegistrarExplicacion(Label(RO002), Reason(RO002, Some(tm)), 15);
      RegistrarAlerta("MEDIO", "Proveedor con experiencia limitada");
    }

    method CapacidadLimitada(cp: real)
      requires Valid()
      modifies this
      ensures Valid() && View() == Fire(old(View()), RO003, Some(cp))
    {
      RegistrarExplicacion(Label(RO003), Reason(RO003, Some(cp)), 20);
      RegistrarAlerta("ALTO", "Capacidad insuficiente para escalar");
      AgregarFactor("Capacidad limitada");
    }

    method AltaTasaDefectos(td: real)
      requires Valid()
      modifies this
      ensures Valid() && View() == Fire(old(View()), RO004, Some(td))
    {
      RegistrarExplicacion(Label(RO004), Reason(RO004, Some(td)), 25);
      RegistrarAlerta("CRÍTICO", "Control de calidad deficiente");
      AgregarFactor("Problemas de calidad");
    }

    method IncumplimientoEntregas(ce: real)
      requires Valid()
      modifies this
      ensures Valid() && View() == Fire(old(View()), RO005, Some(ce))
    {
      RegistrarExplicacion(Label(RO005), Reason(RO005, Some(ce)), 25);
      RegistrarAlerta("CRÍTICO", "Retrasos frecuentes en entregas");
      AgregarFactor("Incumplimiento de plazos");
    }

    // ------------------------------------------------------------ legal rules

    method IncumplimientoLegal()
      requires Valid()
      modifies this
      ensures Valid() && View() == Fire(old(View()), RL001, None)
    {
      RegistrarExplicacion(Label(RL001), Reason(RL001, None), 30);
      RegistrarAlerta("CRÍTICO", "Antecedentes legales problemáticos");
      Declare(Conclusion(Legal, Alto));
      AgregarFactor("Problemas legales");
    }

    method SinCertificacionAmbiental()
      requires Valid()
      modifies this
      ensures Valid() && View() == Fire(old(View()), RL002, None)
    {
      RegistrarExplicacion(Label(RL002), Reason(RL002, None), 15);
      RegistrarAlerta("MEDIO", "Falta certificación ambiental");
    }

    method SinSeguros()
      requires Valid()
      modifies this
      ensures Valid() && View() == Fire(old(View()), RL003, None)
    {
      RegistrarExplicacion(Label(RL003), Reason(RL003, None), 20);
      RegistrarAlerta("ALTO", "Sin cobertura de seguros adecuada");
      AgregarFactor("Sin seguros");
    }

    // ------------------------------------------------------------ reputational rules

    method MalaReputacion(cm: real)
      requires Valid()
      modifies this
      ensures Valid() && View() == Fire(old(View()), RR001, Some(cm))
    {
      RegistrarExplicacion(Label(RR001), Reason(RR001, Some(cm)), 20);
      RegistrarAlerta("ALTO", "Reputación de mercado deficiente");
      Declare(Conclusion(Reputacional, Alto));
    }

    method MuchasQuejas(qc: real)
      requires Valid()
      modifies this
      ensures Valid() && View() == Fire(old(View()), RR002, Some(qc))
    {
      RegistrarExplicacion(Label(RR002), Reason(RR002, Some(qc)), 15);
      RegistrarAlerta("MEDIO", "Múltiples quejas de clientes");
    }

    method PocasReferencias(rp: real)
      requires Valid()
      modifies this
      ensures Valid() && View() == Fire(old(View()), RR003, Some(rp))
    {
      RegistrarExplicacion(Label(RR003), Reason(RR003, Some(rp)), 10);
    }

    // ------------------------------------------------------------ running the agenda

    /** Fires one activated rule with the value its pattern bound. */
    method FireRule(r: RuleId, f: Facts)
      requires Valid() && Matches(r, f)
      modifies this
      ensures Valid() && View() == Fire(old(View()), r, Cited(r, f))
    {
      match r
      case RF001 => LiquidezCritica(f.liquidezCorriente.value);
      case RF002 => LiquidezModerada(f.liquidezCorriente.value);
      case RF003 => LiquidezSaludable(f.liquidezCorriente.value);
      case RF004 => EndeudamientoAlto(f.endeudamiento.value);
      case RF005 => RentabilidadNegativa(f.rentabilidad.value);
      case RF006 => MorosidadAlta(f.historialPagos.value);
      case RO001 => SinCertificacionCalidad();
      case RO002 => ProveedorNuevo(f.tiempoMercado.value);
      case RO003 => CapacidadLimitada(f.capacidadProduccion.value);
      case RO004 => AltaTasaDefectos(f.tasaDefectos.value);
      case RO005 => IncumplimientoEntregas(f.cumplimientoEntregas.value);
      case RL001 => IncumplimientoLegal();
      case RL002 => SinCertificacionAmbiental();
      case RL003 => SinSeguros();
      case RR001 => MalaReputacion(f.calificacionMercado.value);
      case RR002 => MuchasQuejas(f.quejasClientes.value);
      case RR003 => PocasReferencias(f.referenciasPositivas.value);
    }

    /** `run()`: fires the activated rules in the order the agenda chose. */
    method Run(f: Facts, agenda: seq<RuleId>)
      requires Valid()
      requires forall r :: r in agenda ==> Matches(r, f)
      modifies this
      ensures Valid() && View() == FireAll(old(View()), agenda, f)
    {
      for i := 0 to |agenda|
        invariant Valid() && View() == FireAll(old(View()), agenda[..i], f)
      {
        assert agenda[..i + 1][..i] == agenda[..i];
        FireRule(agenda[i], f);
      }
      assert agenda[..|agenda|] == agenda;
    }

    // ------------------------------------------------------------ decisions

    method DecisionRiesgoAlto()
      requires Valid()
      modifies this
      ensures Valid()
      ensures View() == DecisionAlto(old(View()))
    {
      riesgoFinal := "ALTO";
      recomendacion := "NO APROBAR al proveedor para contratación";
    }

    method DecisionRiesgoMedio()
      requires Valid()
      modifies this
      ensures Valid()
      ensures View() == DecisionMedio(old(View()))
    {
      if riesgoFinal == "NO DETERMINADO" {
        riesgoFinal := "MEDIO";
        recomendacion := "APROBAR CON CONDICIONES: Requiere plan de mitigación y monitoreo trimestral";
      }
    }

    /** Fires the decision rules in the order the agenda scheduled them. */
    method Decidir(ds: seq<DecisionFiring>)
      requires Valid()
      modifies this
      ensures Valid()
      ensures View() == ApplyDecisions(old(View()), ds)
    {
      for i := 0 to |ds|
        invariant Valid() && View() == ApplyDecisions(old(View()), ds[..i])
      {
        assert ds[..i + 1][..i] == ds[..i];
        match ds[i]
        case AltoFires => DecisionRiesgoAlto();
        case MedioFires => DecisionRiesgoMedio();
      }
      assert ds[..|ds|] == ds;
    }

    method EvaluarPuntuacionFinal()
      requires Valid()
      modifies this
      ensures Valid()
      ensures View() == PuntuacionFinal(old(View()))
      ensures old(riesgoFinal) == NO_DETERMINADO ==> riesgoFinal in {BAJO, MEDIO, ALTO}
    {
      if riesgoFinal == "NO DETERMINADO" {
        if puntuacionTotal >= 80 {
          riesgoFinal := "BAJO";
          recomendacion := "APROBAR al proveedor para contratación";
        } else if puntuacionTotal >= 60 {
          riesgoFinal := "MEDIO";
          recomendacion := "APROBAR CON CONDICIONES: Requiere plan de mitigación";
        } else {
          riesgoFinal := "ALTO";
          recomendacion := "NO APROBAR al proveedor";
        }
      }
    }

    /** Settles the verdict and reports the score clamped at 0 and the count of firings. */
    method ObtenerResultado() returns (r: Resultado)
      requires Valid()
      modifies this
      ensures Valid()
      ensures View() == PuntuacionFinal(old(View()))
      ensures r == Result(View())
      ensures r.puntuacion == Max0(100 - SumImpacts(r.explicaciones))
      ensures 0 <= r.puntuacion <= 100
      ensures r.totalReglasActivadas == |r.explicaciones| && r.explicaciones == old(explicaciones)
    {
      SumImpactsNonNegative(explicaciones);
      EvaluarPuntuacionFinal();
      r := Resultado(riesgoFinal, if puntuacionTotal < 0 then 0 else puntuacionTotal, recomendacion,
                     explicaciones, alertas, factoresCriticos, |explicaciones|);
    }
  }

  /**
   * `evaluar_proveedor`: one run over the fact `datos`, with the agenda firing
   * the matching rules in the order `agenda` and the decision rules in the
   * order `decisiones`. `raised` is the message of an exception some step
   * raised, if any; the result is then the fixed error result.
   */
  method EvaluarProveedor(datos: Facts, agenda: seq<RuleId>, decisiones: seq<DecisionFiring>, raised: Option<string>)
    returns (r: Resultado)
    requires multiset(agenda) == multiset(Activations(datos))
    requires AltoFires in decisiones <==> HighMatched(datos)
    requires !HighMatched(datos) ==> (MedioFires in decisiones <==> Matches(RO001, datos))
    ensures raised.Some? ==> r == ErrorResult(raised.value)
    ensures raised.Some? ==> (r.riesgoFinal == ERROR && r.puntuacion == 0 && r.explicaciones == []
                              && r.totalReglasActivadas == 0 && |r.alertas| == 1 && r.alertas[0].nivel == CRITICO)
    ensures raised.None? ==> r == EvaluateInOrder(datos, agenda)
    ensures raised.None? ==> (r.riesgoFinal == Evaluate(datos).riesgoFinal
                              && r.recomendacion == Evaluate(datos).recomendacion
                              && r.puntuacion == Evaluate(datos).puntuacion
                              && r.totalReglasActivadas == Evaluate(datos).totalReglasActivadas
                              && multiset(r.explicaciones) == multiset(Evaluate(datos).explicaciones))
  {
    if raised.Some? {
      return ErrorResult(raised.value);
    }
    var acts := Activations(datos);
    ActivationsExact(datos);
    forall x | x in agenda ensures Matches(x, datos) {
      assert x in multiset(agenda);
    }
    var motor := new Motor();
    motor.Run(datos, agenda);
    var s := motor.View();
    FireAllConclusions(Initial(), agenda, datos);
    FireAllVerdict(Initial(), agenda, datos);
    DeclaredByPermutation(agenda, acts);
    GatesOfRun(datos);
    AfterRulesEffects(datos);
    DecisionScheduleIrrelevant(s, decisiones);
    motor.Decidir(decisiones);
    r := motor.ObtenerResultado();
    AgendaOrderIrrelevant(datos, agenda);
  }
}
