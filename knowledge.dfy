/**
 * The supplier record read by the four declarative rule catalogs, and the
 * metadata (impact, category, severity) every catalog rule carries.
 */
module Knowledge {
  import opened Wrappers

  /** A value of `certificaciones_calidad`: a list of certificate names, or plain text. */
  datatype Certificaciones = Lista(nombres: seq<string>) | Texto(texto: string) {

    /** Python's `len` of the value. */
    function Len(): nat {
      match this
      case Lista(ns) => |ns|
      case Texto(t) => |t|
    }

    /** Python's truthiness of the value (an empty list or text is false). */
    predicate Truthy() {
      Len() > 0
    }
  }

  /**
   * The indicators the catalogs read. `None` is a key missing from the input
   * dictionary; each rule then compares the default it passes to `get`.
   */
  datatype Datos = Datos(
    liquidezCorriente: Option<real>,
    endeudamiento: Option<real>,            // a percentage, e.g. 55.0
    rentabilidad: Option<real>,             // a percentage
    anosOperacion: Option<real>,
    cumplimientoEntregas: Option<real>,     // a percentage
    capacidadProduccion: Option<real>,
    demandaEstimada: Option<real>,
    certificacionesCalidad: Option<Certificaciones>,
    licenciasVigentes: Option<bool>,
    certificadoTributario: Option<bool>,
    cumplimientoLaboral: Option<bool>,
    demandasLegales: Option<int>,
    calificacionMercado: Option<real>,      // out of 5.0
    incidentesSeguridad: Option<int>,
    practicasEticas: Option<bool>,
    responsabilidadAmbiental: Option<bool>)

  /** The record with no key at all. */
  function SinDatos(): Datos {
    Datos(None, None, None, None, None, None, None, None, None, None, None, None, None, None, None, None)
  }

  datatype Categoria = Financiero | Operacional | Legal | Reputacional

  datatype Severidad = Positivo | Bajo | Neutro | Moderado | Alto | Critico

  /** The metadata of one catalog rule: `impacto`, `categoria` and `severidad`. */
  datatype Regla = Regla(impacto: int, categoria: Categoria, severidad: Severidad)

  /**
   * Severity agrees with the sign of the impact: a 'positivo' rule lowers the
   * risk, 'moderado', 'alto' and 'critico' rules raise it, 'neutro' leaves it.
   */
  predicate SignoCoherente(r: Regla) {
    (r.severidad == Positivo ==> r.impacto < 0) &&
    (r.severidad == Neutro ==> r.impacto == 0) &&
    (r.severidad == Moderado || r.severidad == Alto || r.severidad == Critico ==> r.impacto > 0)
  }

  predicate ExactlyOneOf3(a: bool, b: bool, c: bool) {
    (a || b || c) && !(a && b) && !(a && c) && !(b && c)
  }

  predicate ExactlyOneOf4(a: bool, b: bool, c: bool, d: bool) {
    (a || b || c || d) && !(a && b) && !(a && c) && !(a && d) && !(b && c) && !(b && d) && !(c && d)
  }
}
