/** The reputational rule catalog (`REGLAS_REPUTACIONALES` over `UMBRALES_REPUTACIONALES`). */
module ReputationalRules {
  import opened Wrappers
  import opened Knowledge

  // UMBRALES_REPUTACIONALES
  const CALIFICACION_EXCELENTE: real := 4.5
  const CALIFICACION_BUENA: real := 3.5
  const CALIFICACION_REGULAR: real := 2.5
  const CALIFICACION_DEFICIENTE: real := 2.5
  const SIN_INCIDENTES: int := 0
  const INCIDENTES_MENORES: int := 1
  const INCIDENTES_GRAVES: int := 2

  datatype ReglaReputacional =
    | ReputacionExcelente | ReputacionBuena | ReputacionRegular | ReputacionDeficiente
    | SinIncidentesSeguridad | IncidentesSeguridadMenores | IncidentesSeguridadGraves
    | PracticasEticasVerificadas | EticaCuestionable
    | ResponsabilidadAmbiental | SinResponsabilidadAmbiental
    | EsgPositivo | CrisisReputacional | ProveedorConfiable

  /** The rule's `condicion`, with each rule's own default. */
  predicate Condicion(r: ReglaReputacional, d: Datos) {
    match r
    case ReputacionExcelente =>
      d.calificacionMercado.GetOr(0.0) >= CALIFICACION_EXCELENTE
    case ReputacionBuena =>
      CALIFICACION_BUENA <= d.calificacionMercado.GetOr(0.0) < CALIFICACION_EXCELENTE
    case ReputacionRegular =>
      CALIFICACION_REGULAR <= d.calificacionMercado.GetOr(0.0) < CALIFICACION_BUENA
    case ReputacionDeficiente =>
      d.calificacionMercado.GetOr(5.0) < CALIFICACION_DEFICIENTE
    case SinIncidentesSeguridad =>
      d.incidentesSeguridad.GetOr(1) == SIN_INCIDENTES
    case IncidentesSeguridadMenores =>
      d.incidentesSeguridad.GetOr(0) == INCIDENTES_MENORES
    case IncidentesSeguridadGraves =>
      d.incidentesSeguridad.GetOr(0) >= INCIDENTES_GRAVES
    case PracticasEticasVerificadas =>
      d.practicasEticas.GetOr(false) == true
    case EticaCuestionable =>
      d.practicasEticas.GetOr(true) == false
    case ResponsabilidadAmbiental =>
      d.responsabilidadAmbiental.GetOr(false) == true
    case SinResponsabilidadAmbiental =>
      d.responsabilidadAmbiental.GetOr(true) == false
    case EsgPositivo =>
      d.practicasEticas.GetOr(false) == true &&
      d.responsabilidadAmbiental.GetOr(false) == true
    case CrisisReputacional =>
      d.calificacionMercado.GetOr(5.0) < CALIFICACION_DEFICIENTE &&
      d.incidentesSeguridad.GetOr(0) >= INCIDENTES_GRAVES &&
      d.practicasEticas.GetOr(true) == false
    case ProveedorConfiable =>
      d.calificacionMercado.GetOr(0.0) >= CALIFICACION_EXCELENTE &&
      d.incidentesSeguridad.GetOr(1) == 0 &&
      d.practicasEticas.GetOr(false) == true &&
      d.responsabilidadAmbiental.GetOr(false) == true
  }

  /** The rule's `impacto`, `categoria` and `severidad`. */
  function Definicion(r: ReglaReputacional): (def: Regla)
    ensures def.categoria == Reputacional
    ensures SignoCoherente(def)
  {
    match r
    case ReputacionExcelente => Regla(-12, Reputacional, Positivo)
    case ReputacionBuena => Regla(-5, Reputacional, Bajo)
    case ReputacionRegular => Regla(8, Reputacional, Moderado)
    case ReputacionDeficiente => Regla(18, Reputacional, Alto)
    case SinIncidentesSeguridad => Regla(-8, Reputacional, Positivo)
    case IncidentesSeguridadMenores => Regla(10, Reputacional, Moderado)
    case IncidentesSeguridadGraves => Regla(25, Reputacional, Critico)
    case PracticasEticasVerificadas => Regla(-6, Reputacional, Positivo)
    case EticaCuestionable => Regla(22, Reputacional, Alto)
    case ResponsabilidadAmbiental => Regla(-5, Reputacional, Positivo)
    case SinResponsabilidadAmbiental => Regla(8, Reputacional, Moderado)
    case EsgPositivo => Regla(-10, Reputacional, Positivo)
    case CrisisReputacional => Regla(35, Reputacional, Critico)
    case ProveedorConfiable => Regla(-18, Reputacional, Positivo)
  }

  /** A present market rating falls in exactly one of the four bands; a missing one in none. */
  lemma CalificacionParticion(d: Datos)
    ensures d.calificacionMercado.Some? ==>
      ExactlyOneOf4(Condicion(ReputacionExcelente, d), Condicion(ReputacionBuena, d),
                    Condicion(ReputacionRegular, d), Condicion(ReputacionDeficiente, d))
    ensures d.calificacionMercado.None? ==>
      !Condicion(ReputacionExcelente, d) && !Condicion(ReputacionBuena, d) &&
      !Condicion(ReputacionRegular, d) && !Condicion(ReputacionDeficiente, d)
  {
  }

  /** A present non-negative incident count fires exactly one incident rule; a missing one none. */
  lemma IncidentesParticion(d: Datos)
    ensures d.incidentesSeguridad.Some? && d.incidentesSeguridad.value >= 0 ==>
      ExactlyOneOf3(Condicion(SinIncidentesSeguridad, d), Condicion(IncidentesSeguridadMenores, d),
                    Condicion(IncidentesSeguridadGraves, d))
    ensures d.incidentesSeguridad.None? ==>
      !Condicion(SinIncidentesSeguridad, d) && !Condicion(IncidentesSeguridadMenores, d) &&
      !Condicion(IncidentesSeguridadGraves, d)
  {
  }

  /** The ESG composite holds exactly when both of its components hold. */
  lemma EsgSiYSoloSi(d: Datos)
    ensures Condicion(EsgPositivo, d) <==>
      Condicion(PracticasEticasVerificadas, d) && Condicion(ResponsabilidadAmbiental, d)
  {
  }

  /** A reputational crisis implies its three components. */
  lemma CrisisImplicaComponentes(d: Datos)
    requires Condicion(CrisisReputacional, d)
    ensures Condicion(ReputacionDeficiente, d)
    ensures Condicion(IncidentesSeguridadGraves, d)
    ensures Condicion(EticaCuestionable, d)
  {
  }

  /** A reliable supplier meets its three components and is never in crisis. */
  lemma ConfiableImplicaComponentes(d: Datos)
    requires Condicion(ProveedorConfiable, d)
    ensures Condicion(ReputacionExcelente, d)
    ensures Condicion(SinIncidentesSeguridad, d)
    ensures Condicion(EsgPositivo, d)
    ensures !Condicion(CrisisReputacional, d)
  {
  }
}
