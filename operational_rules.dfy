/** The operational rule catalog (`REGLAS_OPERACIONALES` over `UMBRALES_OPERACIONALES`). */
module OperationalRules {
  import opened Wrappers
  import opened Knowledge

  // UMBRALES_OPERACIONALES
  const EXPERIENCIA_CONSOLIDADO: real := 10.0
  const EXPERIENCIA_ESTABLECIDO: real := 5.0   // declared, read by no rule
  const EXPERIENCIA_NUEVO: real := 2.0
  const CUMPLIMIENTO_EXCELENTE: real := 95.0
  const CUMPLIMIENTO_ACEPTABLE: real := 85.0
  const CUMPLIMIENTO_DEFICIENTE: real := 80.0
  const CAPACIDAD_HOLGADA: real := 1.5

  datatype ReglaOperacional =
    | ExperienciaConsolidada | ExperienciaEstablecida | ProveedorNuevo
    | CumplimientoExcelente | CumplimientoAceptable | CumplimientoDeficiente
    | CapacidadSobrada | CapacidadJusta | CapacidadInsuficiente
    | CertificacionesMultiples | CertificacionUnica | SinCertificaciones
    | ProveedorMaduroConfiable | RiesgoOperacionalCritico

  /** `isinstance(datos.get('certificaciones_calidad', []), list)` together with its `len`. */
  predicate ListaConAlMenos(c: Option<Certificaciones>, n: nat) {
    match c
    case None => 0 >= n
    case Some(Lista(ns)) => |ns| >= n
    case Some(Texto(_)) => false
  }

  predicate ListaDeLargo(c: Option<Certificaciones>, n: nat) {
    match c
    case None => n == 0
    case Some(Lista(ns)) => |ns| == n
    case Some(Texto(_)) => false
  }

  /** `len(datos.get('certificaciones_calidad', []))`, with no type test. */
  function LargoCertificaciones(c: Option<Certificaciones>): nat {
    match c
    case None => 0
    case Some(v) => v.Len()
  }

  /**
   * The rule's `condicion`. `capacidad_insuficiente` defaults the demand to
   * `float('inf')`, so with no demand it compares a finite capacity with
   * infinity, which always holds.
   */
  predicate Condicion(r: ReglaOperacional, d: Datos) {
    match r
    case ExperienciaConsolidada =>
      d.anosOperacion.GetOr(0.0) >= EXPERIENCIA_CONSOLIDADO
    case ExperienciaEstablecida =>
      EXPERIENCIA_NUEVO <= d.anosOperacion.GetOr(0.0) < EXPERIENCIA_CONSOLIDADO
    case ProveedorNuevo =>
      d.anosOperacion.GetOr(0.0) < EXPERIENCIA_NUEVO
    case CumplimientoExcelente =>
      d.cumplimientoEntregas.GetOr(0.0) >= CUMPLIMIENTO_EXCELENTE
    case CumplimientoAceptable =>
      CUMPLIMIENTO_ACEPTABLE <= d.cumplimientoEntregas.GetOr(0.0) < CUMPLIMIENTO_EXCELENTE
    case CumplimientoDeficiente =>
      d.cumplimientoEntregas.GetOr(100.0) < CUMPLIMIENTO_DEFICIENTE
    case CapacidadSobrada =>
      d.capacidadProduccion.GetOr(0.0) >= d.demandaEstimada.GetOr(1.0) * CAPACIDAD_HOLGADA
    case CapacidadJusta =>
      d.demandaEstimada.GetOr(0.0) <= d.capacidadProduccion.GetOr(0.0) < d.demandaEstimada.GetOr(0.0) * CAPACIDAD_HOLGADA
    case CapacidadInsuficiente =>
      (match d.demandaEstimada
       case None => true
       case Some(demanda) => d.capacidadProduccion.GetOr(0.0) < demanda)
    case CertificacionesMultiples =>
      ListaConAlMenos(d.certificacionesCalidad, 2)
    case CertificacionUnica =>
      ListaDeLargo(d.certificacionesCalidad, 1)
    case SinCertificaciones =>
      d.certificacionesCalidad.None? || !d.certificacionesCalidad.value.Truthy()
      || LargoCertificaciones(d.certificacionesCalidad) == 0
    case ProveedorMaduroConfiable =>
      d.anosOperacion.GetOr(0.0) >= EXPERIENCIA_CONSOLIDADO &&
      d.cumplimientoEntregas.GetOr(0.0) >= CUMPLIMIENTO_EXCELENTE &&
      LargoCertificaciones(d.certificacionesCalidad) >= 2
    case RiesgoOperacionalCritico =>
      d.anosOperacion.GetOr(0.0) < EXPERIENCIA_NUEVO &&
      d.cumplimientoEntregas.GetOr(100.0) < CUMPLIMIENTO_DEFICIENTE &&
      d.capacidadProduccion.GetOr(0.0) < d.demandaEstimada.GetOr(0.0)
  }

  /** The rule's `impacto`, `categoria` and `severidad`. */
  function Definicion(r: ReglaOperacional): (def: Regla)
    ensures def.categoria == Operacional
    ensures SignoCoherente(def)
  {
    match r
    case ExperienciaConsolidada => Regla(-10, Operacional, Positivo)
    case ExperienciaEstablecida => Regla(-3, Operacional, Bajo)
    case ProveedorNuevo => Regla(15, Operacional, Alto)
    case CumplimientoExcelente => Regla(-15, Operacional, Positivo)
    case CumplimientoAceptable => Regla(-5, Operacional, Bajo)
    case CumplimientoDeficiente => Regla(20, Operacional, Alto)
    case CapacidadSobrada => Regla(-8, Operacional, Positivo)
    case CapacidadJusta => Regla(0, Operacional, Neutro)
    case CapacidadInsuficiente => Regla(22, Operacional, Alto)
    case CertificacionesMultiples => Regla(-12, Operacional, Positivo)
    case CertificacionUnica => Regla(-5, Operacional, Bajo)
    case SinCertificaciones => Regla(10, Operacional, Moderado)
    case ProveedorMaduroConfiable => Regla(-15, Operacional, Positivo)
    case RiesgoOperacionalCritico => Regla(25, Operacional, Critico)
  }

  /** A present number of years falls in exactly one experience band; a missing one reads as new. */
  lemma ExperienciaParticion(d: Datos)
    ensures d.anosOperacion.Some? ==>
      ExactlyOneOf3(Condicion(ExperienciaConsolidada, d), Condicion(ExperienciaEstablecida, d), Condicion(ProveedorNuevo, d))
    ensures d.anosOperacion.None? ==>
      Condicion(ProveedorNuevo, d) && !Condicion(ExperienciaConsolidada, d) && !Condicion(ExperienciaEstablecida, d)
  {
  }

  /** The delivery bands leave [80, 85) uncovered, and a missing value matches none. */
  lemma CumplimientoHueco(d: Datos)
    requires d.cumplimientoEntregas.None? || 80.0 <= d.cumplimientoEntregas.value < 85.0
    ensures !Condicion(CumplimientoExcelente, d)
    ensures !Condicion(CumplimientoAceptable, d)
    ensures !Condicion(CumplimientoDeficiente, d)
  {
  }

  /** Outside that gap a present delivery rate matches exactly one band. */
  lemma CumplimientoParticion(d: Datos)
    requires d.cumplimientoEntregas.Some? && !(80.0 <= d.cumplimientoEntregas.value < 85.0)
    ensures ExactlyOneOf3(Condicion(CumplimientoExcelente, d), Condicion(CumplimientoAceptable, d), Condicion(CumplimientoDeficiente, d))
  {
  }

  /**
   * With no estimated demand the infinite default makes `capacidad_insuficiente`
   * hold for every capacity, while `capacidad_justa` (default demand 0) never holds.
   */
  lemma CapacidadSinDemanda(d: Datos)
    requires d.demandaEstimada.None?
    ensures Condicion(CapacidadInsuficiente, d)
    ensures !Condicion(CapacidadJusta, d)
    ensures Condicion(CapacidadSobrada, d) <==> d.capacidadProduccion.GetOr(0.0) >= 1.5
  {
  }

  /** With capacity and a non-negative demand present, exactly one capacity rule holds. */
  lemma CapacidadParticion(d: Datos)
    requires d.capacidadProduccion.Some? && d.demandaEstimada.Some? && d.demandaEstimada.value >= 0.0
    ensures ExactlyOneOf3(Condicion(CapacidadSobrada, d), Condicion(CapacidadJusta, d), Condicion(CapacidadInsuficiente, d))
  {
  }

  /** A negative demand breaks that partition: ample and insufficient capacity hold together. */
  lemma CapacidadDemandaNegativa()
    ensures var d := SinDatos().(capacidadProduccion := Some(-2.5), demandaEstimada := Some(-2.0));
      Condicion(CapacidadSobrada, d) && Condicion(CapacidadInsuficiente, d)
  {
  }

  /** For a list or a missing key, exactly one of the certification rules holds. */
  lemma CertificacionesParticion(d: Datos)
    requires d.certificacionesCalidad.None? || d.certificacionesCalidad.value.Lista?
    ensures ExactlyOneOf3(Condicion(CertificacionesMultiples, d), Condicion(CertificacionUnica, d), Condicion(SinCertificaciones, d))
  {
  }

  /** For a list or a missing key, the mature-supplier composite implies its three components. */
  lemma MaduroImplicaComponentes(d: Datos)
    requires d.certificacionesCalidad.None? || d.certificacionesCalidad.value.Lista?
    requires Condicion(ProveedorMaduroConfiable, d)
    ensures Condicion(ExperienciaConsolidada, d)
    ensures Condicion(CumplimientoExcelente, d)
    ensures Condicion(CertificacionesMultiples, d)
  {
  }

  /**
   * The composite measures `len` without the list test, so a text value of two
   * or more characters counts as "multiple certifications" there only.
   */
  lemma MaduroConTexto()
    ensures var d := SinDatos().(anosOperacion := Some(12.0), cumplimientoEntregas := Some(97.0),
                                 certificacionesCalidad := Some(Texto("ISO 9001")));
      Condicion(ProveedorMaduroConfiable, d) && !Condicion(CertificacionesMultiples, d)
  {
  }

  /** The critical composite implies its three components. */
  lemma CriticoImplicaComponentes(d: Datos)
    requires Condicion(RiesgoOperacionalCritico, d)
    ensures Condicion(ProveedorNuevo, d)
    ensures Condicion(CumplimientoDeficiente, d)
    ensures Condicion(CapacidadInsuficiente, d)
  {
  }

  /** The two composites never hold together. */
  lemma MaduroExcluyeCritico(d: Datos)
    ensures !(Condicion(ProveedorMaduroConfiable, d) && Condicion(RiesgoOperacionalCritico, d))
  {
  }
}
