/** The legal rule catalog (`REGLAS_LEGALES` over `CRITERIOS_LEGALES`). */
module LegalRules {
  import opened Wrappers
  import opened Knowledge

  // CRITERIOS_LEGALES['demandas']
  const SIN_DEMANDAS: int := 0
  const DEMANDAS_MENORES: int := 1
  const DEMANDAS_MODERADAS: int := 2
  const DEMANDAS_CRITICAS: int := 3

  datatype ReglaLegal =
    | LicenciasVigentes | LicenciasVencidas
    | CertificadoTributarioVigente | ProblemasTributarios
    | CumplimientoLaboralOk | IncumplimientoLaboral
    | SinDemandas | DemandasMenores | DemandasModeradas | MultiplesDemandas
    | CumplimientoLegalTotal | CrisisLegal | RiesgoLegalModerado

  /** The rule's `condicion`; `== True` / `== False` against the rule's own default. */
  predicate Condicion(r: ReglaLegal, d: Datos) {
    match r
    case LicenciasVigentes => d.licenciasVigentes.GetOr(false) == true
    case LicenciasVencidas => d.licenciasVigentes.GetOr(true) == false
    case CertificadoTributarioVigente => d.certificadoTributario.GetOr(false) == true
    case ProblemasTributarios => d.certificadoTributario.GetOr(true) == false
    case CumplimientoLaboralOk => d.cumplimientoLaboral.GetOr(false) == true
    case IncumplimientoLaboral => d.cumplimientoLaboral.GetOr(true) == false
    case SinDemandas => d.demandasLegales.GetOr(1) == SIN_DEMANDAS
    case DemandasMenores => d.demandasLegales.GetOr(0) == DEMANDAS_MENORES
    case DemandasModeradas => d.demandasLegales.GetOr(0) == DEMANDAS_MODERADAS
    case MultiplesDemandas => d.demandasLegales.GetOr(0) >= DEMANDAS_CRITICAS
    case CumplimientoLegalTotal =>
      d.licenciasVigentes.GetOr(false) == true &&
      d.certificadoTributario.GetOr(false) == true &&
      d.cumplimientoLaboral.GetOr(false) == true &&
      d.demandasLegales.GetOr(1) == 0
    case CrisisLegal =>
      d.licenciasVigentes.GetOr(true) == false &&
      d.certificadoTributario.GetOr(true) == false &&
      d.demandasLegales.GetOr(0) >= DEMANDAS_CRITICAS
    case RiesgoLegalModerado =>
      (d.licenciasVigentes.GetOr(true) == false ||
       d.certificadoTributario.GetOr(true) == false ||
       d.cumplimientoLaboral.GetOr(true) == false) &&
      d.demandasLegales.GetOr(0) <= 1
  }

  /** The rule's `impacto`, `categoria` and `severidad`. */
  function Definicion(r: ReglaLegal): (def: Regla)
    ensures def.categoria == Legal
    ensures SignoCoherente(def)
  {
    match r
    case LicenciasVigentes => Regla(-5, Legal, Positivo)
    case LicenciasVencidas => Regla(35, Legal, Critico)
    case CertificadoTributarioVigente => Regla(-5, Legal, Positivo)
    case ProblemasTributarios => Regla(20, Legal, Alto)
    case CumplimientoLaboralOk => Regla(-5, Legal, Positivo)
    case IncumplimientoLaboral => Regla(28, Legal, Alto)
    case SinDemandas => Regla(-10, Legal, Positivo)
    case DemandasMenores => Regla(8, Legal, Moderado)
    case DemandasModeradas => Regla(15, Legal, Alto)
    case MultiplesDemandas => Regla(25, Legal, Critico)
    case CumplimientoLegalTotal => Regla(-15, Legal, Positivo)
    case CrisisLegal => Regla(40, Legal, Critico)
    case RiesgoLegalModerado => Regla(12, Legal, Moderado)
  }

  /** A present flag fires exactly one rule of its pair; a missing one fires neither. */
  lemma ParesBooleanos(d: Datos)
    ensures d.licenciasVigentes.Some? <==> Condicion(LicenciasVigentes, d) || Condicion(LicenciasVencidas, d)
    ensures !(Condicion(LicenciasVigentes, d) && Condicion(LicenciasVencidas, d))
    ensures d.certificadoTributario.Some? <==> Condicion(CertificadoTributarioVigente, d) || Condicion(ProblemasTributarios, d)
    ensures !(Condicion(CertificadoTributarioVigente, d) && Condicion(ProblemasTributarios, d))
    ensures d.cumplimientoLaboral.Some? <==> Condicion(CumplimientoLaboralOk, d) || Condicion(IncumplimientoLaboral, d)
    ensures !(Condicion(CumplimientoLaboralOk, d) && Condicion(IncumplimientoLaboral, d))
  {
  }

  /** A present non-negative lawsuit count fires exactly one count rule; a missing one none. */
  lemma DemandasParticion(d: Datos)
    ensures d.demandasLegales.Some? && d.demandasLegales.value >= 0 ==>
      ExactlyOneOf4(Condicion(SinDemandas, d), Condicion(DemandasMenores, d),
                    Condicion(DemandasModeradas, d), Condicion(MultiplesDemandas, d))
    ensures d.demandasLegales.None? ==>
      !Condicion(SinDemandas, d) && !Condicion(DemandasMenores, d) &&
      !Condicion(DemandasModeradas, d) && !Condicion(MultiplesDemandas, d)
  {
  }

  /** Full legal compliance implies its four components. */
  lemma CumplimientoTotalImplicaComponentes(d: Datos)
    requires Condicion(CumplimientoLegalTotal, d)
    ensures Condicion(LicenciasVigentes, d) && Condicion(CertificadoTributarioVigente, d)
    ensures Condicion(CumplimientoLaboralOk, d) && Condicion(SinDemandas, d)
  {
  }

  /** A legal crisis implies its three components. */
  lemma CrisisLegalImplicaComponentes(d: Datos)
    requires Condicion(CrisisLegal, d)
    ensures Condicion(LicenciasVencidas, d) && Condicion(ProblemasTributarios, d) && Condicion(MultiplesDemandas, d)
  {
  }

  /** Moderate legal risk excludes both a crisis (3+ versus at most 1 lawsuit) and full compliance. */
  lemma ModeradoExcluyente(d: Datos)
    ensures !(Condicion(CrisisLegal, d) && Condicion(RiesgoLegalModerado, d))
    ensures !(Condicion(CumplimientoLegalTotal, d) && Condicion(RiesgoLegalModerado, d))
    ensures !(Condicion(CumplimientoLegalTotal, d) && Condicion(CrisisLegal, d))
  {
  }
}
