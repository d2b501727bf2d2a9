/**
 * The inference engine's rules as values: the supplier fact, the seventeen
 * hard-coded rules with what each records when it fires, the engine state,
 * and the specification of a whole run (`Evaluate`).
 */
module InferenceRules {
  import opened Wrappers

  /** The single `DatosProveedor` fact; `None` is a key the input does not carry. */
  datatype Facts = Facts(
    liquidezCorriente: Option<real>,
    endeudamiento: Option<real>,            // a ratio, e.g. 0.55
    rentabilidad: Option<real>,
    historialPagos: Option<real>,
    certificacionCalidad: Option<bool>,
    tiempoMercado: Option<real>,
    capacidadProduccion: Option<real>,
    tasaDefectos: Option<real>,
    cumplimientoEntregas: Option<real>,
    cumplimientoLegal: Option<bool>,
    certificacionAmbiental: Option<bool>,
    industria: Option<string>,
    segurosVigentes: Option<bool>,
    calificacionMercado: Option<real>,
    quejasClientes: Option<real>,
    referenciasPositivas: Option<real>)

  /** The seventeen data rules, in declaration order. */
  datatype RuleId =
    | RF001 | RF002 | RF003 | RF004 | RF005 | RF006
    | RO001 | RO002 | RO003 | RO004 | RO005
    | RL001 | RL002 | RL003
    | RR001 | RR002 | RR003

  const AllRules: seq<RuleId> :=
    [RF001, RF002, RF003, RF004, RF005, RF006,
     RO001, RO002, RO003, RO004, RO005,
     RL001, RL002, RL003,
     RR001, RR002, RR003]

  // Verdicts, recommendations and alert levels as the engine spells them.
  const NO_DETERMINADO := "NO DETERMINADO"
  const BAJO := "BAJO"
  const MEDIO := "MEDIO"
  const ALTO := "ALTO"
  const ERROR := "ERROR"
  const CRITICO := "CRÍTICO"
  const NO_APROBAR_CONTRATACION := "NO APROBAR al proveedor para contratación"
  const APROBAR_CONDICIONES_TRIMESTRAL := "APROBAR CON CONDICIONES: Requiere plan de mitigación y monitoreo trimestral"
  const APROBAR := "APROBAR al proveedor para contratación"
  const APROBAR_CONDICIONES := "APROBAR CON CONDICIONES: Requiere plan de mitigación"
  const NO_APROBAR := "NO APROBAR al proveedor"

  /** The justification of a firing: keyed by rule, citing the value the pattern bound. */
  datatype Reason = Reason(rule: RuleId, cited: Option<real>)

  /** One entry of `explicaciones` (the wall-clock timestamp is not modelled). */
  datatype Explanation = Explanation(regla: string, razonamiento: Reason, impacto: int)

  datatype Alert = Alert(nivel: string, mensaje: string)

  datatype Dimension = Financiero | Operacional | Legal | Reputacional
  datatype Level = Bajo | Medio | Alto

  /** A `Conclusion` fact, e.g. `Conclusion(riesgo_financiero="ALTO")`. */
  datatype Conclusion = Conclusion(dimension: Dimension, level: Level)

  predicate Below(v: Option<real>, t: real) {
    v.Some? && v.value < t
  }

  predicate Above(v: Option<real>, t: real) {
    v.Some? && v.value > t
  }

  /** The rule's pattern over the fact: an absent key never matches. */
  predicate Matches(r: RuleId, f: Facts) {
    match r
    case RF001 => Below(f.liquidezCorriente, 1.0)
    case RF002 => f.liquidezCorriente.Some? && 1.0 <= f.liquidezCorriente.value < 1.5
    case RF003 => f.liquidezCorriente.Some? && f.liquidezCorriente.value >= 1.5
    case RF004 => Above(f.endeudamiento, 0.7)
    case RF005 => Below(f.rentabilidad, 0.0)
    case RF006 => Below(f.historialPagos, 60.0)
    case RO001 => f.certificacionCalidad == Some(false)
    case RO002 => Below(f.tiempoMercado, 2.0)
    case RO003 => Below(f.capacidadProduccion, 50.0)
    case RO004 => Above(f.tasaDefectos, 5.0)
    case RO005 => Below(f.cumplimientoEntregas, 70.0)
    case RL001 => f.cumplimientoLegal == Some(false)
    case RL002 => f.certificacionAmbiental == Some(false) && f.industria == Some("manufactura")
    case RL003 => f.segurosVigentes == Some(false)
    case RR001 => Below(f.calificacionMercado, 3.0)
    case RR002 => Above(f.quejasClientes, 10.0)
    case RR003 => Below(f.referenciasPositivas, 2.0)
  }

  /** The value the rule's pattern binds with `MATCH`, if any. */
  function Cited(r: RuleId, f: Facts): Option<real> {
    match r
    case RF001 | RF002 | RF003 => f.liquidezCorriente
    case RF004 => f.endeudamiento
    case RF005 => f.rentabilidad
    case RF006 => f.historialPagos
    case RO002 => f.tiempoMercado
    case RO003 => f.capacidadProduccion
    case RO004 => f.tasaDefectos
    case RO005 => f.cumplimientoEntregas
    case RR001 => f.calificacionMercado
    case RR002 => f.quejasClientes
    case RR003 => f.referenciasPositivas
    case RO001 | RL001 | RL002 | RL003 => None
  }

  /**
   * The `regla` field of the rule's explanation: its code and its title. Each
   * label is written as the code joined to the title so that the verifier sees
   * the six-character code directly, which keeps the label lemmas cheap.
   */
  function Label(r: RuleId): string {
    match r
    case RF001 => "RF-001" + ": Liquidez Crítica"
    case RF002 => "RF-002" + ": Liquidez Moderada"
    case RF003 => "RF-003" + ": Liquidez Saludable"
    case RF004 => "RF-004" + ": Endeudamiento Excesivo"
    case RF005 => "RF-005" + ": Pérdidas Operativas"
    case RF006 => "RF-006" + ": Historial de Pagos Deficiente"
    case RO001 => "RO-001" + ": Sin Certificación de Calidad"
    case RO002 => "RO-002" + ": Proveedor Nuevo en el Mercado"
    case RO003 => "RO-003" + ": Capacidad de Producción Limitada"
    case RO004 => "RO-004" + ": Alta Tasa de Defectos"
    case RO005 => "RO-005" + ": Incumplimiento Sistemático de Entregas"
    case RL001 => "RL-001" + ": Incumplimiento Legal"
    case RL002 => "RL-002" + ": Sin Certificación Ambiental"
    case RL003 => "RL-003" + ": Seguros No Vigentes"
    case RR001 => "RR-001" + ": Reputación Deficiente"
    case RR002 => "RR-002" + ": Alto Número de Quejas"
    case RR003 => "RR-003" + ": Referencias Insuficientes"
  }

  /** The points the rule subtracts from the score. */
  function Impact(r: RuleId): (n: int)
    ensures n >= 0
  {
    match r
    case RF001 => 25 case RF002 => 10 case RF003 => 0
    case RF004 => 20 case RF005 => 30 case RF006 => 25
    case RO001 => 15 case RO002 => 15 case RO003 => 20
    case RO004 => 25 case RO005 => 25
    case RL001 => 30 case RL002 => 15 case RL003 => 20
    case RR001 => 20 case RR002 => 15 case RR003 => 10
  }

  // Alert messages and critical-factor labels, each used by one rule.
  const MSG_RF001 := "Liquidez insuficiente - Alto riesgo de incumplimiento"
  const MSG_RF004 := "Endeudamiento excesivo - Riesgo de insolvencia"
  const MSG_RF005 := "Proveedor operando con pérdidas"
  const MSG_RF006 := "Historial de morosidad significativo"
  const MSG_RO002 := "Proveedor con experiencia limitada"
  const MSG_RO003 := "Capacidad insuficiente para escalar"
  const MSG_RO004 := "Control de calidad deficiente"
  const MSG_RO005 := "Retrasos frecuentes en entregas"
  const MSG_RL001 := "Antecedentes legales problemáticos"
  const MSG_RL002 := "Falta certificación ambiental"
  const MSG_RL003 := "Sin cobertura de seguros adecuada"
  const MSG_RR001 := "Reputación de mercado deficiente"
  const MSG_RR002 := "Múltiples quejas de clientes"

  const FACTOR_LIQUIDEZ := "Liquidez crítica"
  const FACTOR_ENDEUDAMIENTO := "Endeudamiento excesivo"
  const FACTOR_PERDIDAS := "Pérdidas operativas"
  const FACTOR_MOROSIDAD := "Morosidad recurrente"
  const FACTOR_CAPACIDAD := "Capacidad limitada"
  const FACTOR_CALIDAD := "Problemas de calidad"
  const FACTOR_PLAZOS := "Incumplimiento de plazos"
  const FACTOR_LEGAL := "Problemas legales"
  const FACTOR_SEGUROS := "Sin seguros"

  /** The alert the rule registers, if any. */
  function AlertOf(r: RuleId): Option<Alert> {
    match r
    case RF001 => Some(Alert(CRITICO, MSG_RF001))
    case RF004 => Some(Alert(ALTO, MSG_RF004))
    case RF005 => Some(Alert(CRITICO, MSG_RF005))
    case RF006 => Some(Alert(ALTO, MSG_RF006))
    case RO002 => Some(Alert(MEDIO, MSG_RO002))
    case RO003 => Some(Alert(ALTO, MSG_RO003))
    case RO004 => Some(Alert(CRITICO, MSG_RO004))
    case RO005 => Some(Alert(CRITICO, MSG_RO005))
    case RL001 => Some(Alert(CRITICO, MSG_RL001))
    case RL002 => Some(Alert(MEDIO, MSG_RL002))
    case RL003 => Some(Alert(ALTO, MSG_RL003))
    case RR001 => Some(Alert(ALTO, MSG_RR001))
    case RR002 => Some(Alert(MEDIO, MSG_RR002))
    case RF002 | RF003 | RO001 | RR003 => None
  }

  /** The `Conclusion` fact the rule declares, if any. */
  function ConclusionOf(r: RuleId): Option<Conclusion> {
    match r
    case RF001 => Some(Conclusion(Financiero, Alto))
    case RF002 => Some(Conclusion(Financiero, Medio))
    case RF003 => Some(Conclusion(Financiero, Bajo))
    case RO001 => Some(Conclusion(Operacional, Medio))
    case RL001 => Some(Conclusion(Legal, Alto))
    case RR001 => Some(Conclusion(Reputacional, Alto))
    case _ => None
  }

  /** The facts the rule adds to working memory: its conclusion, if it has one. */
  function Declares(r: RuleId): (cs: set<Conclusion>)
    ensures forall c :: c in cs <==> ConclusionOf(r) == Some(c)
  {
    if ConclusionOf(r).Some? then {ConclusionOf(r).value} else {}
  }

  /** The critical-factor label the rule appends, if any. */
  function FactorOf(r: RuleId): Option<string> {
    match r
    case RF001 => Some(FACTOR_LIQUIDEZ)
    case RF004 => Some(FACTOR_ENDEUDAMIENTO)
    case RF005 => Some(FACTOR_PERDIDAS)
    case RF006 => Some(FACTOR_MOROSIDAD)
    case RO003 => Some(FACTOR_CAPACIDAD)
    case RO004 => Some(FACTOR_CALIDAD)
    case RO005 => Some(FACTOR_PLAZOS)
    case RL001 => Some(FACTOR_LEGAL)
    case RL003 => Some(FACTOR_SEGUROS)
    case _ => None
  }

  /** The fields of `MotorEvaluacionRiesgo`, plus the `Conclusion` facts in working memory. */
  datatype State = State(
    explicaciones: seq<Explanation>,
    alertas: seq<Alert>,
    puntuacionTotal: int,
    riesgoFinal: string,
    recomendacion: string,
    factoresCriticos: seq<string>,
    conclusiones: set<Conclusion>)

  function Initial(): State {
    State([], [], 100, NO_DETERMINADO, "", [], {})
  }

  /** The sum of the impacts recorded in `es`. */
  function SumImpacts(es: seq<Explanation>): int {
    if es == [] then 0 else SumImpacts(es[..|es| - 1]) + es[|es| - 1].impacto
  }

  /** The score is the baseline of 100 minus every impact recorded so far. */
  predicate ScoreConsistent(s: State) {
    s.puntuacionTotal == 100 - SumImpacts(s.explicaciones)
  }

  /** The effect of one firing of rule `r`, its pattern having bound `cited`. */
  function Fire(s: State, r: RuleId, cited: Option<real>): State {
    s.(explicaciones := s.explicaciones + [Explanation(Label(r), Reason(r, cited), Impact(r))],
       puntuacionTotal := s.puntuacionTotal - Impact(r),
       alertas := s.alertas + ToSeq(AlertOf(r)),
       factoresCriticos := s.factoresCriticos + ToSeq(FactorOf(r)),
       conclusiones := s.conclusiones + Declares(r))
  }

  /** Fires `rs` one after the other against `f`. */
  function FireAll(s: State, rs: seq<RuleId>, f: Facts): State {
    if rs == [] then s
    else
      var last := rs[|rs| - 1];
      Fire(FireAll(s, rs[..|rs| - 1], f), last, Cited(last, f))
  }

  /** The rules of `rs` whose pattern matches `f`, in the order of `rs`. */
  function Filter(rs: seq<RuleId>, f: Facts): seq<RuleId> {
    if rs == [] then []
    else Filter(rs[..|rs| - 1], f) + (if Matches(rs[|rs| - 1], f) then [rs[|rs| - 1]] else [])
  }

  /** The agenda: every rule whose pattern matches the fact, each once. */
  function Activations(f: Facts): seq<RuleId> {
    Filter(AllRules, f)
  }

  /** The state after every matching rule has fired once. */
  function AfterRules(f: Facts): State {
    FireAll(Initial(), Activations(f), f)
  }

  predicate HighConclusion(cs: set<Conclusion>) {
    Conclusion(Financiero, Alto) in cs || Conclusion(Legal, Alto) in cs
  }

  predicate OperationalMedium(cs: set<Conclusion>) {
    Conclusion(Operacional, Medio) in cs
  }

  /** `decision_riesgo_alto`: overwrites the verdict unconditionally. */
  function DecisionAlto(s: State): State {
    s.(riesgoFinal := ALTO, recomendacion := NO_APROBAR_CONTRATACION)
  }

  /** `decision_riesgo_medio`: writes only while no verdict has been set. */
  function DecisionMedio(s: State): State {
    if s.riesgoFinal == NO_DETERMINADO
    then s.(riesgoFinal := MEDIO, recomendacion := APROBAR_CONDICIONES_TRIMESTRAL)
    else s
  }

  /** The decision rules, each fired when its pattern matches the conclusions declared. */
  function Decide(s: State): State {
    var s1 := if HighConclusion(s.conclusiones) then DecisionAlto(s) else s;
    if !HighConclusion(s.conclusiones) && OperationalMedium(s.conclusiones) then DecisionMedio(s1) else s1
  }

  /** `evaluar_puntuacion_final`: the unclamped score decides a still-undetermined verdict. */
  function PuntuacionFinal(s: State): State {
    if s.riesgoFinal != NO_DETERMINADO then s
    else if s.puntuacionTotal >= 80 then s.(riesgoFinal := BAJO, recomendacion := APROBAR)
    else if s.puntuacionTotal >= 60 then s.(riesgoFinal := MEDIO, recomendacion := APROBAR_CONDICIONES)
    else s.(riesgoFinal := ALTO, recomendacion := NO_APROBAR)
  }

  /** The dictionary `obtener_resultado` and `evaluar_proveedor` return. */
  datatype Resultado = Resultado(
    riesgoFinal: string,
    puntuacion: int,
    recomendacion: string,
    explicaciones: seq<Explanation>,
    alertas: seq<Alert>,
    factoresCriticos: seq<string>,
    totalReglasActivadas: int)

  /** The result built from a state whose verdict is settled, with the score clamped at 0. */
  function Result(s: State): Resultado {
    Resultado(s.riesgoFinal, if s.puntuacionTotal < 0 then 0 else s.puntuacionTotal, s.recomendacion,
              s.explicaciones, s.alertas, s.factoresCriticos, |s.explicaciones|)
  }

  /** The result of evaluating one fact, no step raising. */
  function Evaluate(f: Facts): Resultado {
    Result(PuntuacionFinal(Decide(AfterRules(f))))
  }

  /** The result `evaluar_proveedor` returns once any step has raised with message `msg`. */
  function ErrorResult(msg: string): Resultado {
    Resultado(ERROR, 0, "Error en el motor de inferencia", [],
              [Alert(CRITICO, "Error interno del motor: " + msg)], ["Error de ejecución"], 0)
  }
}
