/**
 * `ExplicadorDecisiones` without its text formatting: the per-category impact
 * totals and alert counts of `generar_metricas_visuales`, the section choice of
 * `generar_plan_mitigacion`, the numbering of `generar_cadena_razonamiento` and
 * the ordering of `generar_explicacion_detallada`.
 */
module Explainer {
  import opened Wrappers
  import opened InferenceRules
  import opened InferenceProperties
  import opened InferenceVerdicts

  predicate StartsWith(s: string, p: string) {
    |p| <= |s| && s[..|p|] == p
  }

  // ------------------------------------------------------------ category totals

  /** The four entries of the `categorias` dictionary. */
  datatype Categorias = Categorias(financiero: int, operacional: int, legal: int, reputacional: int)

  function Total(c: Categorias): int {
    c.financiero + c.operacional + c.legal + c.reputacional
  }

  /** The sum of the impacts of the explanations whose rule label starts with `p`. */
  function SumWithPrefix(es: seq<Explanation>, p: string): int {
    if es == [] then 0
    else SumWithPrefix(es[..|es| - 1], p) + (if StartsWith(es[|es| - 1].regla, p) then es[|es| - 1].impacto else 0)
  }

  /** What the four totals must be: each category sums the impacts of its own prefix. */
  function CategoryTotals(es: seq<Explanation>): Categorias {
    Categorias(SumWithPrefix(es, "RF"), SumWithPrefix(es, "RO"), SumWithPrefix(es, "RL"), SumWithPrefix(es, "RR"))
  }

  predicate HasCategoryPrefix(regla: string) {
    StartsWith(regla, "RF") || StartsWith(regla, "RO") || StartsWith(regla, "RL") || StartsWith(regla, "RR")
  }

  /** The sum of the impacts of the explanations that carry one of the four prefixes. */
  function PrefixedSum(es: seq<Explanation>): int {
    if es == [] then 0
    else PrefixedSum(es[..|es| - 1]) + (if HasCategoryPrefix(es[|es| - 1].regla) then es[|es| - 1].impacto else 0)
  }

  /** The four prefixes exclude one another. */
  lemma PrefixesExclusive(regla: string)
    ensures StartsWith(regla, "RF") ==> !StartsWith(regla, "RO") && !StartsWith(regla, "RL") && !StartsWith(regla, "RR")
    ensures StartsWith(regla, "RO") ==> !StartsWith(regla, "RL") && !StartsWith(regla, "RR")
    ensures StartsWith(regla, "RL") ==> !StartsWith(regla, "RR")
  {
  }

  /** Every prefixed impact is counted in exactly one category; other labels are ignored. */
  lemma {:induction false} CategoriesPartitionPrefixed(es: seq<Explanation>)
    ensures Total(CategoryTotals(es)) == PrefixedSum(es)
  {
    if es != [] {
      CategoriesPartitionPrefixed(es[..|es| - 1]);
      PrefixesExclusive(es[|es| - 1].regla);
    }
  }

  /** The entries of `alertas_por_nivel`. */
  datatype AlertasPorNivel = AlertasPorNivel(critico: nat, alto: nat, medio: nat)

  datatype Metricas = Metricas(categorias: Categorias, puntuacionFinal: int, alertasPorNivel: AlertasPorNivel)

  /** `len([a for a in alertas if a['nivel'] == nivel])`. */
  function CountLevel(alertas: seq<Alert>, nivel: string): (n: nat)
    ensures n <= |alertas|
  {
    if alertas == [] then 0
    else CountLevel(alertas[..|alertas| - 1], nivel) + (if alertas[|alertas| - 1].nivel == nivel then 1 else 0)
  }

  /**
   * The three counts never exceed the number of alerts, and they add up to it
   * when every alert is CRÍTICO, ALTO or MEDIO.
   */
  lemma {:induction false} LevelCountsBound(alertas: seq<Alert>)
    ensures CountLevel(alertas, CRITICO) + CountLevel(alertas, ALTO) + CountLevel(alertas, MEDIO) <= |alertas|
    ensures (forall a :: a in alertas ==> a.nivel in {CRITICO, ALTO, MEDIO}) ==>
      CountLevel(alertas, CRITICO) + CountLevel(alertas, ALTO) + CountLevel(alertas, MEDIO) == |alertas|
  {
    if alertas != [] {
      var init := alertas[..|alertas| - 1];
      LevelCountsBound(init);
      assert forall a :: a in init ==> a in alertas;
    }
  }

  /** `generar_metricas_visuales`: one pass over the explanations, adding each impact to its category. */
  method GenerarMetricasVisuales(resultado: Resultado) returns (m: Metricas)
    ensures m.categorias == CategoryTotals(resultado.explicaciones)
    ensures m.puntuacionFinal == resultado.puntuacion
    ensures m.alertasPorNivel == AlertasPorNivel(CountLevel(resultado.alertas, CRITICO),
                                                 CountLevel(resultado.alertas, ALTO),
                                                 CountLevel(resultado.alertas, MEDIO))
  {
    var es := resultado.explicaciones;
    var categorias := Categorias(0, 0, 0, 0);
    for i := 0 to |es|
      invariant categorias == CategoryTotals(es[..i])
    {
      assert es[..i + 1][..i] == es[..i];
      var regla, impacto := es[i].regla, es[i].impacto;
      PrefixesExclusive(regla);
      if StartsWith(regla, "RF") {
        categorias := categorias.(financiero := categorias.financiero + impacto);
      } else if StartsWith(regla, "RO") {
        categorias := categorias.(operacional := categorias.operacional + impacto);
      } else if StartsWith(regla, "RL") {
        categorias := categorias.(legal := categorias.legal + impacto);
      } else if StartsWith(regla, "RR") {
        categorias := categorias.(reputacional := categorias.reputacional + impacto);
      }
    }
    assert es[..|es|] == es;
    m := Metricas(categorias, resultado.puntuacion,
                  AlertasPorNivel(CountLevel(resultado.alertas, CRITICO),
                                  CountLevel(resultado.alertas, ALTO),
                                  CountLevel(resultado.alertas, MEDIO)));
  }

  /** Every engine label starts with its category's prefix. */
  lemma LabelPrefixed(r: RuleId)
    ensures HasCategoryPrefix(Label(r))
  {
    LabelNamesRule(r);
    var l := Label(r);
    assert l[..2] == [l[0], l[1]];
  }

  lemma {:induction false} PrefixedSumOfRun(rs: seq<RuleId>, f: Facts)
    ensures PrefixedSum(Explains(rs, f)) == RuleImpacts(rs)
  {
    if rs != [] {
      PrefixedSumOfRun(rs[..|rs| - 1], f);
      LabelPrefixed(rs[|rs| - 1]);
      var es := Explains(rs, f);
      assert es[..|es| - 1] == Explains(rs[..|rs| - 1], f);
    }
  }

  /** The explanations of any sequence of firings split their impacts over the four categories. */
  lemma RunCategoriesTotal(rs: seq<RuleId>, f: Facts)
    ensures Total(CategoryTotals(Explains(rs, f))) == RuleImpacts(rs)
  {
    PrefixedSumOfRun(rs, f);
    CategoriesPartitionPrefixed(Explains(rs, f));
  }

  /**
   * For an engine result the four category totals account for every point the
   * rules took off, and, with the score not clamped, add up with it to 100.
   */
  lemma EngineCategoriesTotal(f: Facts)
    ensures Total(CategoryTotals(Evaluate(f).explicaciones)) == 100 - RawScore(f)
    ensures RawScore(f) >= 0 ==> Total(CategoryTotals(Evaluate(f).explicaciones)) + Evaluate(f).puntuacion == 100
  {
    EvaluateRecords(f);
    RunCategoriesTotal(Activations(f), f);
    ScoreIsClampedSum(f);
  }

  /** For an engine result the three alert counts add up to the number of alerts. */
  lemma EngineLevelCounts(f: Facts)
    ensures CountLevel(Evaluate(f).alertas, CRITICO) + CountLevel(Evaluate(f).alertas, ALTO)
          + CountLevel(Evaluate(f).alertas, MEDIO) == |Evaluate(f).alertas|
  {
    RunAlertLevels(f);
    LevelCountsBound(Evaluate(f).alertas);
  }

  // ------------------------------------------------------------ mitigation plan

  /** The action lists of the `mitigaciones` table, one per critical factor. */
  datatype Mitigacion =
    | AnteLiquidezCritica
    | AnteEndeudamientoExcesivo
    | AntePerdidasOperativas
    | AnteMorosidadRecurrente
    | AnteCapacidadLimitada
    | AnteProblemasDeCalidad
    | AnteIncumplimientoDePlazos
    | AnteProblemasLegales
    | AnteSinSeguros

  /** The text of an action list. */
  function Acciones(m: Mitigacion): string {
    match m
    case AnteLiquidezCritica =>
      "- Solicitar garantías financieras o pagos anticipados\n- Establecer límites de crédito más bajos\n- Revisión financiera trimestral"
    case AnteEndeudamientoExcesivo =>
      "- Requerir carta de solvencia bancaria actualizada\n- Considerar proveedores alternativos\n- Cláusula de rescisión por insolvencia"
    case AntePerdidasOperativas =>
      "- Evaluación urgente de viabilidad del negocio\n- Plan de contingencia con proveedor alternativo\n- Pagos contra entrega únicamente"
    case AnteMorosidadRecurrente =>
      "- Pagos anticipados obligatorios\n- Garantías bancarias\n- Cláusulas penales por retrasos"
    case AnteCapacidadLimitada =>
      "- Auditoría de capacidad instalada\n- Acuerdos de nivel de servicio (SLA) estrictos\n- Desarrollo de proveedores de respaldo"
    case AnteProblemasDeCalidad =>
      "- Implementar inspecciones de calidad en sitio\n- Certificación de calidad obligatoria\n- Penalizaciones por defectos"
    case AnteIncumplimientoDePlazos =>
      "- Buffer de tiempo en planificación\n- Penalizaciones por retrasos\n- Proveedor secundario activo"
    case AnteProblemasLegales =>
      "- Auditoría legal completa\n- Seguro de responsabilidad exigido\n- Cláusulas de indemnización"
    case AnteSinSeguros =>
      "- Exigir pólizas de seguro antes de contratación\n- Verificación anual de vigencia\n- Cláusulas de responsabilidad"
  }

  /** The `mitigaciones` table: the critical factors it knows and their action lists. */
  const MITIGACIONES: map<string, Mitigacion> := map[
    "Liquidez crítica" := AnteLiquidezCritica,
    "Endeudamiento excesivo" := AnteEndeudamientoExcesivo,
    "Pérdidas operativas" := AntePerdidasOperativas,
    "Morosidad recurrente" := AnteMorosidadRecurrente,
    "Capacidad limitada" := AnteCapacidadLimitada,
    "Problemas de calidad" := AnteProblemasDeCalidad,
    "Incumplimiento de plazos" := AnteIncumplimientoDePlazos,
    "Problemas legales" := AnteProblemasLegales,
    "Sin seguros" := AnteSinSeguros
  ]

  /** A block of the required plan: its heading, one section per factor, the closing monitoring line. */
  datatype Bloque = Encabezado | Seccion(factor: string, acciones: Mitigacion) | MonitoreoMensual

  /** The three plans: the fixed low-risk text, the fixed generic text, or a required plan. */
  datatype Plan = PlanBajo | PlanGenerico | PlanRequerido(bloques: seq<Bloque>)

  /** The sections for `factores`: one per factor the table knows, in input order. */
  function Secciones(factores: seq<string>): seq<Bloque> {
    if factores == [] then []
    else
      var last := factores[|factores| - 1];
      Secciones(factores[..|factores| - 1]) + (if last in MITIGACIONES then [Seccion(last, MITIGACIONES[last])] else [])
  }

  /** `generar_plan_mitigacion`. */
  method GenerarPlanMitigacion(resultado: Resultado) returns (plan: Plan)
    ensures resultado.riesgoFinal == BAJO ==> plan == PlanBajo
    ensures resultado.riesgoFinal != BAJO && resultado.factoresCriticos == [] ==> plan == PlanGenerico
    ensures resultado.riesgoFinal != BAJO && resultado.factoresCriticos != [] ==>
      plan == PlanRequerido([Encabezado] + Secciones(resultado.factoresCriticos) + [MonitoreoMensual])
  {
    if resultado.riesgoFinal == "BAJO" {
      return PlanBajo;
    }
    var factores := resultado.factoresCriticos;
    if factores == [] {
      return PlanGenerico;
    }
    var bloques := [Encabezado];
    for i := 0 to |factores|
      invariant bloques == [Encabezado] + Secciones(factores[..i])
    {
      assert factores[..i + 1][..i] == factores[..i];
      var factor := factores[i];
      if factor in MITIGACIONES {
        bloques := bloques + [Seccion(factor, MITIGACIONES[factor])];
      }
    }
    assert factores[..|factores|] == factores;
    plan := PlanRequerido(bloques + [MonitoreoMensual]);
  }

  /**
   * A factor gets a section exactly when the table knows it, and the section
   * carries the table's actions; unknown factors are skipped.
   */
  lemma {:induction false} SeccionesSelect(factores: seq<string>)
    ensures |Secciones(factores)| <= |factores|
    ensures forall b :: b in Secciones(factores) ==>
      b.Seccion? && b.factor in factores && b.factor in MITIGACIONES && b.acciones == MITIGACIONES[b.factor]
    ensures forall x :: x in factores && x in MITIGACIONES ==> Seccion(x, MITIGACIONES[x]) in Secciones(factores)
  {
    if factores != [] {
      var init := factores[..|factores| - 1];
      SeccionesSelect(init);
      assert factores == init + [factores[|factores| - 1]];
    }
  }

  /** When the table knows every factor, there is one section per factor, in the same order. */
  lemma {:induction false} SeccionesInOrder(factores: seq<string>)
    requires forall x :: x in factores ==> x in MITIGACIONES
    ensures |Secciones(factores)| == |factores|
    ensures forall i :: 0 <= i < |factores| ==> Secciones(factores)[i] == Seccion(factores[i], MITIGACIONES[factores[i]])
  {
    if factores != [] {
      var init := factores[..|factores| - 1];
      assert forall x :: x in init ==> x in factores;
      SeccionesInOrder(init);
    }
  }

  /** The sections of two factor lists in a row are the sections of each, in the same order. */
  lemma {:induction false} SeccionesAppend(a: seq<string>, b: seq<string>)
    ensures Secciones(a + b) == Secciones(a) + Secciones(b)
    decreases |b|
  {
    if b == [] {
      assert a + b == a;
    } else {
      var init := b[..|b| - 1];
      SeccionesAppend(a, init);
      assert (a + b)[..|a + b| - 1] == a + init;
      assert (a + b)[|a + b| - 1] == b[|b| - 1];
    }
  }

  /**
   * Wherever a known factor stands in the input, its section stands between the
   * sections of the factors before it and those of the factors after it.
   */
  lemma SeccionesAt(factores: seq<string>, i: nat)
    requires i < |factores| && factores[i] in MITIGACIONES
    ensures Secciones(factores) ==
      Secciones(factores[..i]) + [Seccion(factores[i], MITIGACIONES[factores[i]])] + Secciones(factores[i + 1..])
  {
    assert factores == factores[..i] + [factores[i]] + factores[i + 1..];
    SeccionesAppend(factores[..i] + [factores[i]], factores[i + 1..]);
    SeccionesAppend(factores[..i], [factores[i]]);
    assert Secciones([factores[i]]) == Secciones([]) + [Seccion(factores[i], MITIGACIONES[factores[i]])];
  }

  /** Every critical factor a rule can append has a mitigation entry. */
  lemma FactorsHaveMitigation(r: RuleId)
    ensures FactorOf(r).Some? ==> FactorOf(r).value in MITIGACIONES
  {
  }

  lemma EngineFactorsKnown(f: Facts)
    ensures forall x :: x in Evaluate(f).factoresCriticos ==> x in MITIGACIONES
  {
    AfterRulesEffects(f);
    forall x | x in Evaluate(f).factoresCriticos ensures x in MITIGACIONES {
      FactorsOfMembers(Activations(f), x);
      var r :| r in Activations(f) && FactorOf(r) == Some(x);
      FactorsHaveMitigation(r);
    }
  }

  // ------------------------------------------------------------ reasoning chain

  /** One numbered step of the narrative. */
  datatype Paso = Paso(numero: nat, regla: string, impacto: int, razonamiento: Reason)

  /** The fixed sentence for no firings, or the numbered steps. */
  datatype Cadena = SinReglas | Narrativa(pasos: seq<Paso>)

  /** `generar_cadena_razonamiento`: the i-th explanation becomes step i, counting from 1. */
  method GenerarCadenaRazonamiento(explicaciones: seq<Explanation>) returns (c: Cadena)
    ensures explicaciones == [] <==> c == SinReglas
    ensures c.Narrativa? ==> |c.pasos| == |explicaciones| && forall i :: 0 <= i < |explicaciones| ==>
      c.pasos[i] == Paso(i + 1, explicaciones[i].regla, explicaciones[i].impacto, explicaciones[i].razonamiento)
  {
    if explicaciones == [] {
      return SinReglas;
    }
    var pasos: seq<Paso> := [];
    for i := 0 to |explicaciones|
      invariant |pasos| == i
      invariant forall k :: 0 <= k < i ==>
        pasos[k] == Paso(k + 1, explicaciones[k].regla, explicaciones[k].impacto, explicaciones[k].razonamiento)
    {
      var e := explicaciones[i];
      pasos := pasos + [Paso(i + 1, e.regla, e.impacto, e.razonamiento)];
    }
    c := Narrativa(pasos);
  }

  // ------------------------------------------------------------ detailed table

  predicate DescendingImpact(es: seq<Explanation>) {
    forall i, j :: 0 <= i < j < |es| ==> es[i].impacto >= es[j].impacto
  }

  /** Inserts `e` into a table, ahead of the first entry whose impact it reaches. */
  function Insert(e: Explanation, sorted: seq<Explanation>): seq<Explanation> {
    if sorted == [] || e.impacto >= sorted[0].impacto then [e] + sorted
    else [sorted[0]] + Insert(e, sorted[1..])
  }

  lemma {:induction false} InsertPermutation(e: Explanation, sorted: seq<Explanation>)
    ensures multiset(Insert(e, sorted)) == multiset(sorted) + multiset{e}
  {
    if sorted != [] && e.impacto < sorted[0].impacto {
      InsertPermutation(e, sorted[1..]);
      assert sorted == [sorted[0]] + sorted[1..];
    }
  }

  lemma {:induction false} InsertDescending(e: Explanation, sorted: seq<Explanation>)
    requires DescendingImpact(sorted)
    ensures DescendingImpact(Insert(e, sorted))
  {
    if sorted != [] && e.impacto < sorted[0].impacto {
      var rest := Insert(e, sorted[1..]);
      InsertDescending(e, sorted[1..]);
      InsertPermutation(e, sorted[1..]);
      forall j | 0 <= j < |rest| ensures rest[j].impacto <= sorted[0].impacto {
        assert rest[j] in multiset(rest);
        if rest[j] != e {
          assert rest[j] in multiset(sorted[1..]);
        }
      }
    }
  }

  /** One step of the sort: inserting the last explanation into the sorted rest. */
  lemma InsertLast(es: seq<Explanation>, tabla: seq<Explanation>)
    requires es != []
    requires DescendingImpact(tabla) && multiset(tabla) == multiset(es[..|es| - 1])
    ensures DescendingImpact(Insert(es[|es| - 1], tabla))
    ensures multiset(Insert(es[|es| - 1], tabla)) == multiset(es)
  {
    var init, last := es[..|es| - 1], es[|es| - 1];
    InsertPermutation(last, tabla);
    InsertDescending(last, tabla);
    assert es == init + [last];
  }

  /**
   * `generar_explicacion_detallada`: the explanations reordered by descending
   * impact; an empty list gives an empty table.
   */
  function ExplicacionDetallada(es: seq<Explanation>): (tabla: seq<Explanation>)
    ensures DescendingImpact(tabla)
    ensures multiset(tabla) == multiset(es)
    ensures es == [] ==> tabla == []
  {
    if es == [] then []
    else
      var tabla := ExplicacionDetallada(es[..|es| - 1]);
      InsertLast(es, tabla);
      Insert(es[|es| - 1], tabla)
  }
}
