/** The financial rule catalog (`REGLAS_FINANCIERAS` over `UMBRALES_FINANCIEROS`). */
module FinancialRules {
  import opened Wrappers
  import opened Knowledge

  // UMBRALES_FINANCIEROS
  const LIQUIDEZ_EXCELENTE: real := 2.0
  const LIQUIDEZ_ACEPTABLE: real := 1.0
  const LIQUIDEZ_RIESGOSA: real := 1.0
  const ENDEUDAMIENTO_BAJO: real := 40.0
  const ENDEUDAMIENTO_MODERADO: real := 70.0
  const ENDEUDAMIENTO_ALTO: real := 70.0
  const RENTABILIDAD_EXCELENTE: real := 15.0
  const RENTABILIDAD_ACEPTABLE: real := 5.0
  const RENTABILIDAD_NEGATIVA: real := 0.0

  datatype ReglaFinanciera =
    | LiquidezExcelente | LiquidezAceptable | LiquidezRiesgosa
    | EndeudamientoBajo | EndeudamientoModerado | EndeudamientoAlto
    | RentabilidadExcelente | RentabilidadAceptable | RentabilidadNegativa
    | CrisisFinanciera | SaludFinancieraRobusta

  /** The rule's `condicion`; each `datos.get(key, default)` keeps the rule's own default. */
  predicate Condicion(r: ReglaFinanciera, d: Datos) {
    match r
    case LiquidezExcelente =>
      d.liquidezCorriente.GetOr(0.0) >= LIQUIDEZ_EXCELENTE
    case LiquidezAceptable =>
      LIQUIDEZ_ACEPTABLE <= d.liquidezCorriente.GetOr(0.0) < LIQUIDEZ_EXCELENTE
    case LiquidezRiesgosa =>
      d.liquidezCorriente.GetOr(0.0) < LIQUIDEZ_RIESGOSA
    case EndeudamientoBajo =>
      d.endeudamiento.GetOr(100.0) < ENDEUDAMIENTO_BAJO
    case EndeudamientoModerado =>
      ENDEUDAMIENTO_BAJO <= d.endeudamiento.GetOr(100.0) <= ENDEUDAMIENTO_MODERADO
    case EndeudamientoAlto =>
      d.endeudamiento.GetOr(0.0) > ENDEUDAMIENTO_ALTO
    case RentabilidadExcelente =>
      d.rentabilidad.GetOr(-100.0) >= RENTABILIDAD_EXCELENTE
    case RentabilidadAceptable =>
      RENTABILIDAD_ACEPTABLE <= d.rentabilidad.GetOr(-100.0) < RENTABILIDAD_EXCELENTE
    case RentabilidadNegativa =>
      d.rentabilidad.GetOr(0.0) < RENTABILIDAD_NEGATIVA
    case CrisisFinanciera =>
      d.liquidezCorriente.GetOr(10.0) < LIQUIDEZ_RIESGOSA &&
      d.endeudamiento.GetOr(0.0) > ENDEUDAMIENTO_ALTO
    case SaludFinancieraRobusta =>
      d.liquidezCorriente.GetOr(0.0) >= LIQUIDEZ_EXCELENTE &&
      d.endeudamiento.GetOr(100.0) < ENDEUDAMIENTO_BAJO &&
      d.rentabilidad.GetOr(-100.0) >= RENTABILIDAD_EXCELENTE
  }

  /** The rule's `impacto`, `categoria` and `severidad`. */
  function Definicion(r: ReglaFinanciera): (def: Regla)
    ensures def.categoria == Financiero
    ensures SignoCoherente(def)
  {
    match r
    case LiquidezExcelente => Regla(-15, Financiero, Positivo)
    case LiquidezAceptable => Regla(-5, Financiero, Bajo)
    case LiquidezRiesgosa => Regla(25, Financiero, Alto)
    case EndeudamientoBajo => Regla(-10, Financiero, Positivo)
    case EndeudamientoModerado => Regla(5, Financiero, Bajo)
    case EndeudamientoAlto => Regla(20, Financiero, Alto)
    case RentabilidadExcelente => Regla(-12, Financiero, Positivo)
    case RentabilidadAceptable => Regla(-5, Financiero, Bajo)
    case RentabilidadNegativa => Regla(18, Financiero, Alto)
    case CrisisFinanciera => Regla(30, Financiero, Critico)
    case SaludFinancieraRobusta => Regla(-20, Financiero, Positivo)
  }

  /** A present liquidity ratio falls in exactly one band. */
  lemma LiquidezParticion(d: Datos)
    requires d.liquidezCorriente.Some?
    ensures ExactlyOneOf3(Condicion(LiquidezExcelente, d), Condicion(LiquidezAceptable, d), Condicion(LiquidezRiesgosa, d))
  {
  }

  /** A missing liquidity ratio reads as 0 (risky) but as 10 in the crisis rule. */
  lemma LiquidezAusente(d: Datos)
    requires d.liquidezCorriente.None?
    ensures Condicion(LiquidezRiesgosa, d)
    ensures !Condicion(LiquidezExcelente, d) && !Condicion(LiquidezAceptable, d)
    ensures !Condicion(CrisisFinanciera, d)
  {
  }

  /** A present debt level falls in exactly one band, 70 being moderate; a missing one in none. */
  lemma EndeudamientoParticion(d: Datos)
    ensures d.endeudamiento.Some? ==>
      ExactlyOneOf3(Condicion(EndeudamientoBajo, d), Condicion(EndeudamientoModerado, d), Condicion(EndeudamientoAlto, d))
    ensures d.endeudamiento == Some(70.0) ==> Condicion(EndeudamientoModerado, d) && !Condicion(EndeudamientoAlto, d)
    ensures d.endeudamiento.None? ==>
      !Condicion(EndeudamientoBajo, d) && !Condicion(EndeudamientoModerado, d) && !Condicion(EndeudamientoAlto, d)
  {
  }

  /** The profitability bands leave [0, 5) uncovered, and a missing value matches none. */
  lemma RentabilidadHueco(d: Datos)
    requires d.rentabilidad.None? || 0.0 <= d.rentabilidad.value < 5.0
    ensures !Condicion(RentabilidadExcelente, d)
    ensures !Condicion(RentabilidadAceptable, d)
    ensures !Condicion(RentabilidadNegativa, d)
  {
  }

  /** Outside that gap a present profitability matches exactly one band. */
  lemma RentabilidadParticion(d: Datos)
    requires d.rentabilidad.Some? && !(0.0 <= d.rentabilidad.value < 5.0)
    ensures ExactlyOneOf3(Condicion(RentabilidadExcelente, d), Condicion(RentabilidadAceptable, d), Condicion(RentabilidadNegativa, d))
  {
  }

  /** The crisis composite implies both of its components. */
  lemma CrisisImplicaComponentes(d: Datos)
    requires Condicion(CrisisFinanciera, d)
    ensures Condicion(LiquidezRiesgosa, d) && Condicion(EndeudamientoAlto, d)
  {
  }

  /** The robust-health composite implies its three components. */
  lemma SaludRobustaImplicaComponentes(d: Datos)
    requires Condicion(SaludFinancieraRobusta, d)
    ensures Condicion(LiquidezExcelente, d) && Condicion(EndeudamientoBajo, d) && Condicion(RentabilidadExcelente, d)
  {
  }

  /** The two composites never hold together. */
  lemma CrisisExcluyeSalud(d: Datos)
    ensures !(Condicion(CrisisFinanciera, d) && Condicion(SaludFinancieraRobusta, d))
  {
  }
}
