# Supplier risk evaluation: a verified model

This project models the rule core of a supplier-risk expert system. The system takes one record of supplier data, fires hard-coded rules against it, and returns a verdict. The model covers four parts of the system.

- **The inference engine** (`MotorEvaluacionRiesgo`).
  - Seventeen data rules (RF-001…RF-006, RO-001…RO-005, RL-001…RL-003, RR-001…RR-003) are matched against a single supplier fact.
  - Each firing appends an explanation and subtracts the rule's non-negative impact from a score that starts at 100. Some firings also append an alert, append a critical-factor label, or declare a `Conclusion`.
  - Two decision rules and a score-threshold fallback then set `riesgo_final` and `recomendacion`. `obtener_resultado` clamps the score at 0.
  - The wrapper `evaluar_proveedor` turns any exception into a fixed ERROR result.
- **The four rule catalogs**: financial, operational, legal and reputational. Each rule is a condition over `datos.get(key, default)` together with an impact, a category and a severity.
- **The explanation builder** (`ExplicadorDecisiones`), without its text formatting: per-category impact totals, alert counts per level, the choice of mitigation-plan sections, the numbering of the reasoning chain, and the ordering of the detailed table.

Module layout:

| module | role |
|---|---|
| `Wrappers` | `Option` |
| `Knowledge` | The catalog record `Datos`, with one `Option` per key. Also rule metadata (`Regla`, categories, severities) and the severity/impact sign agreement. |
| `FinancialRules`, `OperationalRules`, `LegalRules`, `ReputationalRules` | The catalogs, as pure predicates `Condicion(rule, datos)` and metadata `Definicion(rule)`. Each module also holds the lemmas about its catalog. |
| `InferenceRules` | The engine as values: `Facts`, `RuleId`, each rule's match condition and effects, the engine `State`, one firing (`Fire`), a run (`FireAll`), the decisions (`Decide`, `PuntuacionFinal`), the result dictionary (`Result`) and a whole evaluation (`Evaluate`). |
| `InferenceProperties` | Compositional facts about runs: append and permutation laws, and the fact that labels name their rules. |
| `InferenceVerdicts` | What an evaluation returns: score, verdict gates, explanations, alerts and factors, thresholds, and order independence. |
| `InferenceEngine` | The class `Motor`. Its fields are the engine's mutable lists and scalars, and it has one method per rule and per decision. Every method is proved to move the state exactly as the matching `InferenceRules` function says. Also the top-level `EvaluarProveedor`. |
| `Explainer` | The explanation builder, with methods for its loops and functions as their specifications. |

Modelling choices:

- **Agenda order.** The order in which the rule library fires matching rules is a parameter (`agenda`). So is the order in which the two decision rules fire (`decisiones`). `AgendaOrderIrrelevant` and `DecisionScheduleIrrelevant` prove that the verdict and the score do not depend on either.
- **Exceptions.** Exceptions raised inside a run are the parameter `raised` of `EvaluarProveedor`.
- **Justification text.** Each explanation's justification is abstracted as `Reason(rule, cited value)`.

The model follows the code where the code and its documentation disagree:

- **Seventeen data rules.** The engine has seventeen data rules, not eighteen.
- **`capacidad_insuficiente` without demand.** The default for a missing demand is infinity, so `capacidad_insuficiente` always holds when the demand is absent (`OperationalRules.CapacidadSinDemanda`).
- **Capacity bands and negative demand.** The three capacity bands partition only non-negative demands. `OperationalRules.CapacidadDemandaNegativa` exhibits a record in two bands.
- **`proveedor_maduro_confiable` with text.** This rule uses `len` without a type test, so a certification given as text satisfies it without satisfying `certificaciones_multiples` (`OperationalRules.MaduroConTexto`).
- **Debt units.** The financial catalog measures debt in percent (threshold 70), while the engine uses a ratio (threshold 0.7).
- **Verdict values.** The engine only emits BAJO, MEDIO, ALTO or ERROR, never MODERADO or CRÍTICO as a verdict.

## Model

| member | source | states |
|---|---|---|
| FinancialRules.Condicion | knowledge/reglas_financieras.py:29-126 | the `condicion` lambda of each financial rule, with each `datos.get` default written out |
| FinancialRules.Definicion | knowledge/reglas_financieras.py:26-132 | every financial rule has categoria 'financiero'; positive-severity rules have negative impact, alto/critico rules positive impact |
| FinancialRules.LiquidezParticion | knowledge/reglas_financieras.py:27-53 | for a present liquidity exactly one of excelente, aceptable, riesgosa holds |
| FinancialRules.LiquidezAusente | knowledge/reglas_financieras.py:27-118 | a missing liquidity makes liquidez_riesgosa hold (default 0), the other bands fail, and crisis_financiera does not hold (default 10) |
| FinancialRules.EndeudamientoParticion | knowledge/reglas_financieras.py:54-80 | a present debt is in exactly one band, 70 is moderado not alto, and a missing debt is in none |
| FinancialRules.RentabilidadHueco | knowledge/reglas_financieras.py:81-107 | a profitability in [0,5) or missing satisfies none of the three profitability rules |
| FinancialRules.RentabilidadParticion | knowledge/reglas_financieras.py:81-107 | outside that gap a present profitability satisfies exactly one of them |
| FinancialRules.CrisisImplicaComponentes | knowledge/reglas_financieras.py:108-118 | crisis_financiera implies liquidez_riesgosa and endeudamiento_alto |
| FinancialRules.SaludRobustaImplicaComponentes | knowledge/reglas_financieras.py:120-131 | salud_financiera_robusta implies liquidez_excelente, endeudamiento_bajo and rentabilidad_excelente |
| FinancialRules.CrisisExcluyeSalud | knowledge/reglas_financieras.py:108-131 | crisis and robust health never hold together |
| OperationalRules.Condicion | knowledge/reglas_operacionales.py:43-186 | the `condicion` lambda of each operational rule, including the infinite demand default and `len` on text or lists |
| OperationalRules.Definicion | knowledge/reglas_operacionales.py:40-192 | every operational rule has categoria 'operacional' and severity agreeing with the sign of its impact |
| OperationalRules.ExperienciaParticion | knowledge/reglas_operacionales.py:41-67 | a present age is in exactly one experience band; a missing one makes proveedor_nuevo hold and the others fail |
| OperationalRules.CumplimientoHueco | knowledge/reglas_operacionales.py:68-94 | delivery compliance in [80,85) or missing satisfies none of the three compliance rules |
| OperationalRules.CumplimientoParticion | knowledge/reglas_operacionales.py:68-94 | outside that gap a present compliance satisfies exactly one |
| OperationalRules.CapacidadSinDemanda | knowledge/reglas_operacionales.py:95-127 | with demand missing capacidad_insuficiente holds, capacidad_justa fails, and capacidad_sobrada holds iff capacity is at least 1.5 |
| OperationalRules.CapacidadParticion | knowledge/reglas_operacionales.py:95-127 | with capacity and a non-negative demand present exactly one capacity band holds |
| OperationalRules.CapacidadDemandaNegativa | knowledge/reglas_operacionales.py:97-124 | a negative demand can place a record in both capacidad_sobrada and capacidad_insuficiente |
| OperationalRules.CertificacionesParticion | knowledge/reglas_operacionales.py:131-163 | for a list-valued or missing certification field exactly one of multiples, unica, sin_certificaciones holds |
| OperationalRules.MaduroImplicaComponentes | knowledge/reglas_operacionales.py:167-176 | for list-valued or missing certifications, proveedor_maduro_confiable implies consolidated experience, excellent compliance and multiple certifications |
| OperationalRules.MaduroConTexto | knowledge/reglas_operacionales.py:131-176 | a certification given as text can satisfy proveedor_maduro_confiable without certificaciones_multiples |
| OperationalRules.CriticoImplicaComponentes | knowledge/reglas_operacionales.py:180-189 | riesgo_operacional_critico implies proveedor_nuevo, cumplimiento_deficiente and capacidad_insuficiente |
| OperationalRules.MaduroExcluyeCritico | knowledge/reglas_operacionales.py:167-189 | the mature and the critical composite rules never hold together |
| LegalRules.Condicion | knowledge/reglas_legales.py:50-172 | the `condicion` lambda of each legal rule, with its boolean and count defaults |
| LegalRules.Definicion | knowledge/reglas_legales.py:47-178 | every legal rule has categoria 'legal' and severity agreeing with the sign of its impact |
| LegalRules.ParesBooleanos | knowledge/reglas_legales.py:48-101 | for licences, tax certificate and labour compliance, a present flag fires exactly one rule of its pair and a missing one fires neither |
| LegalRules.DemandasParticion | knowledge/reglas_legales.py:102-137 | a present lawsuit count n >= 0 fires exactly one of the four lawsuit bands; a missing count fires none |
| LegalRules.CumplimientoTotalImplicaComponentes | knowledge/reglas_legales.py:138-149 | cumplimiento_legal_total implies valid licences, valid tax certificate, labour compliance and no lawsuits |
| LegalRules.CrisisLegalImplicaComponentes | knowledge/reglas_legales.py:152-161 | crisis_legal implies expired licences, tax problems and multiple lawsuits |
| LegalRules.ModeradoExcluyente | knowledge/reglas_legales.py:138-175 | crisis_legal, cumplimiento_legal_total and riesgo_legal_moderado are pairwise exclusive |
| ReputationalRules.Condicion | knowledge/reglas_reputacionales.py:54-191 | the `condicion` lambda of each reputational rule, with its defaults |
| ReputationalRules.Definicion | knowledge/reglas_reputacionales.py:51-197 | every reputational rule has categoria 'reputacional' and severity agreeing with the sign of its impact |
| ReputationalRules.CalificacionParticion | knowledge/reglas_reputacionales.py:52-95 | a present market rating is in exactly one of four bands; a missing one in none |
| ReputationalRules.IncidentesParticion | knowledge/reglas_reputacionales.py:96-122 | a present incident count n >= 0 is in exactly one of three bands; a missing one in none |
| ReputationalRules.EsgSiYSoloSi | knowledge/reglas_reputacionales.py:123-167 | esg_positivo holds iff verified ethics and environmental responsibility both hold |
| ReputationalRules.CrisisImplicaComponentes | knowledge/reglas_reputacionales.py:171-180 | crisis_reputacional implies poor reputation, serious incidents and questionable ethics |
| ReputationalRules.ConfiableImplicaComponentes | knowledge/reglas_reputacionales.py:173-194 | proveedor_confiable implies excellent reputation, no incidents and positive ESG, and excludes crisis_reputacional |
| InferenceRules.Matches | engine/inference_engine.py:55-252 | the `@Rule` pattern of each data rule: the key is present and its value passes the test |
| InferenceRules.Fire | engine/inference_engine.py:36-252 | one firing: the rule's explanation and impact, then its alert, conclusion and factor, if any |
| InferenceRules.FireAll | engine/inference_engine.py:55-252 | the firings of a sequence of rules, one after another |
| InferenceRules.Activations | engine/inference_engine.py:55-252 | the rules whose pattern matches the fact, in declaration order |
| InferenceRules.DecisionAlto | engine/inference_engine.py:256-263 | the high decision: overwrite verdict and recommendation |
| InferenceRules.DecisionMedio | engine/inference_engine.py:265-276 | the medium decision: write only from "NO DETERMINADO" |
| InferenceRules.Decide | engine/inference_engine.py:256-276 | the high decision when its pattern holds, otherwise the medium one when its pattern holds |
| InferenceRules.PuntuacionFinal | engine/inference_engine.py:278-289 | the 80/60 score thresholds applied from "NO DETERMINADO" |
| InferenceRules.Result | engine/inference_engine.py:291-303 | the result dictionary: verdict, clamped score, recommendation, records and their count |
| InferenceRules.Evaluate | engine/inference_engine.py:306-328 | a whole evaluation: the activated rules in declaration order, the decisions, the scoring, the result |
| InferenceRules.ErrorResult | engine/inference_engine.py:330-340 | the fixed ERROR dictionary with the exception message in its one CRÍTICO alert |
| InferenceRules.Impact | engine/inference_engine.py:55-252 | every engine rule's impact is non-negative |
| InferenceRules.Declares | engine/inference_engine.py:65-231 | a rule declares exactly the conclusion (if any) attached to it |
| InferenceProperties.FilterSound | engine/inference_engine.py:55-252 | the rules selected from a list are exactly those of the list whose condition holds |
| InferenceProperties.FilterDistinct | engine/inference_engine.py:55-252 | selecting from a duplicate-free list yields a duplicate-free list |
| InferenceProperties.ActivationsExact | engine/inference_engine.py:55-252 | a rule is activated iff its condition holds on the fact, and each at most once |
| InferenceProperties.DeclaredByMembers | engine/inference_engine.py:65-231 | a conclusion is declared by a run iff some fired rule carries it |
| InferenceProperties.FireAllExplains | engine/inference_engine.py:36-44 | a run appends exactly the fired rules' explanations, in firing order |
| InferenceProperties.FireAllScore | engine/inference_engine.py:36-44 | a run lowers the score by exactly the sum of the fired rules' impacts |
| InferenceProperties.FireAllAlerts | engine/inference_engine.py:46-51 | a run appends exactly the fired rules' alerts, in firing order |
| InferenceProperties.FireAllFactors | engine/inference_engine.py:66-217 | a run appends exactly the fired rules' critical factors, in firing order |
| InferenceProperties.FireAllConclusions | engine/inference_engine.py:65-231 | a run adds exactly the fired rules' conclusions |
| InferenceProperties.FireAllVerdict | engine/inference_engine.py:55-252 | data rules never touch riesgo_final or recomendacion |
| InferenceProperties.ExplainsShape | engine/inference_engine.py:36-44 | the i-th explanation of a run belongs to the i-th fired rule, with its label, cited value and impact |
| InferenceProperties.RuleImpactsIsSum | engine/inference_engine.py:36-44 | the impacts subtracted equal the sum of the recorded explanations' impacts, and are non-negative |
| InferenceProperties.SumImpactsNonNegative | engine/inference_engine.py:36-44 | recorded impacts that are each non-negative add up to a non-negative total |
| InferenceProperties.LabelNamesRule | engine/inference_engine.py:59-246 | every explanation label can be read back to the rule that wrote it |
| InferenceProperties.LabelInjective | engine/inference_engine.py:59-246 | distinct rules write distinct labels |
| InferenceProperties.RuleImpactsAppend | engine/inference_engine.py:36-44 | impacts of two consecutive runs add up |
| InferenceProperties.RuleImpactsPermutation | engine/inference_engine.py:36-44 | the total impact does not depend on firing order |
| InferenceProperties.ExplainsAppend | engine/inference_engine.py:36-44 | explanations of two consecutive runs concatenate |
| InferenceProperties.ExplainsPermutation | engine/inference_engine.py:36-44 | reordering the firings permutes the explanations |
| InferenceProperties.AlertsAppend | engine/inference_engine.py:46-51 | alerts of two consecutive runs concatenate |
| InferenceProperties.AlertsPermutation | engine/inference_engine.py:46-51 | reordering the firings permutes the alerts |
| InferenceProperties.FactorsAppend | engine/inference_engine.py:66-217 | critical factors of two consecutive runs concatenate |
| InferenceProperties.FactorsPermutation | engine/inference_engine.py:66-217 | reordering the firings permutes the critical factors |
| InferenceProperties.DeclaredByPermutation | engine/inference_engine.py:65-231 | the set of declared conclusions does not depend on firing order |
| InferenceVerdicts.AfterRulesEffects | engine/inference_engine.py:27-252 | after the data rules the state holds the activated rules' explanations, alerts, factors, conclusions, 100 minus their impacts, and no verdict yet |
| InferenceVerdicts.HighConclusionIff | engine/inference_engine.py:256-259 | a high financial or legal conclusion is declared iff RF-001 or RL-001 fired |
| InferenceVerdicts.OperationalMediumIff | engine/inference_engine.py:265-271 | a medium operational conclusion is declared iff RO-001 fired |
| InferenceVerdicts.GatesOfRun | engine/inference_engine.py:256-271 | the two decision rules' patterns hold after a run iff RF-001/RL-001 resp. RO-001 match the fact |
| InferenceVerdicts.ScoreIsClampedSum | engine/inference_engine.py:291-303 | puntuacion is max(0, 100 − Σ impacts of the recorded explanations) and lies in [0,100] |
| InferenceVerdicts.OneExplanationPerRule | engine/inference_engine.py:291-303 | total_reglas_activadas equals the number of explanations, one per activated rule, labelled by it |
| InferenceVerdicts.ExplainedIffMatched | engine/inference_engine.py:55-252 | a rule's label appears among the explanations iff its condition holds |
| InferenceVerdicts.ExplanationsDistinct | engine/inference_engine.py:36-44 | no rule label is recorded twice in one evaluation |
| InferenceVerdicts.HighRiskGate | engine/inference_engine.py:256-263 | if RF-001 or RL-001 matches the verdict is ALTO, and the recommendation is "do not approve for contracting" exactly then |
| InferenceVerdicts.MediumRiskGate | engine/inference_engine.py:265-276 | without a high conclusion, RO-001 yields MEDIO, with the quarterly-monitoring recommendation exactly then |
| InferenceVerdicts.ScoreFallbackVerdict | engine/inference_engine.py:278-289 | otherwise the unclamped score decides: ≥80 BAJO/APROBAR, ≥60 MEDIO/conditional, else ALTO/NO APROBAR |
| InferenceVerdicts.VerdictSettled | engine/inference_engine.py:278-289 | an evaluation always ends in BAJO, MEDIO or ALTO |
| InferenceVerdicts.VerdictDependsOnSummary | engine/inference_engine.py:256-303 | the verdict, recommendation and score depend only on score, conclusions and the verdict so far |
| InferenceVerdicts.DecideKeepsRecords | engine/inference_engine.py:256-303 | deciding and scoring never change explanations, alerts or factors, and the count is the number of explanations |
| InferenceVerdicts.AgendaOrderIrrelevant | engine/inference_engine.py:55-303 | firing the activated rules in any order gives the same verdict, recommendation, score and count, and the same explanations, alerts and factors up to order |
| InferenceVerdicts.ApplyDecisions | engine/inference_engine.py:256-276 | a schedule of decision firings applied in order |
| InferenceVerdicts.DecisionsKeepRecords | engine/inference_engine.py:256-276 | decision rules change only riesgo_final and recomendacion |
| InferenceVerdicts.AltoAbsorbs | engine/inference_engine.py:256-263 | once the high decision fires, in any schedule, its verdict is final |
| InferenceVerdicts.MedioOnly | engine/inference_engine.py:265-276 | without the high decision the medium one sets MEDIO from "NO DETERMINADO", however often it fires |
| InferenceVerdicts.DecisionScheduleIrrelevant | engine/inference_engine.py:256-276 | any schedule of decision firings allowed by their patterns gives the same state as the reference decision |
| InferenceVerdicts.FactorOfInjective | engine/inference_engine.py:66-217 | distinct rules append distinct critical-factor labels |
| InferenceVerdicts.FactorsOfMembers | engine/inference_engine.py:66-217 | a label is among a run's factors iff some fired rule appends it |
| InferenceVerdicts.FactorsOfDistinct | engine/inference_engine.py:66-217 | a run of distinct rules yields distinct factors |
| InferenceVerdicts.CriticalFactorsDistinct | engine/inference_engine.py:66-217 | the critical factors of an evaluation are pairwise distinct |
| InferenceVerdicts.AlertLevels | engine/inference_engine.py:64-242 | every alert a rule raises is CRÍTICO, ALTO or MEDIO |
| InferenceVerdicts.EvaluateRecords | engine/inference_engine.py:291-303 | the result carries exactly the activated rules' explanations, alerts and factors |
| InferenceVerdicts.RunAlertLevels | engine/inference_engine.py:64-242 | every alert of an evaluation is CRÍTICO, ALTO or MEDIO |
| InferenceVerdicts.LiquidityPartition | engine/inference_engine.py:55-86 | a present liquidity fires exactly one of RF-001/002/003, 1.0 fires RF-002 not RF-001, a missing one fires none |
| InferenceVerdicts.StrictFinancialThresholds | engine/inference_engine.py:88-121 | debt 0.7, profitability 0.0 and payment history 60 do not fire RF-004, RF-005, RF-006 |
| InferenceVerdicts.StrictOperationalThresholds | engine/inference_engine.py:136-178 | time 2, capacity 50, defects 5 and compliance 70 do not fire RO-002..RO-005 |
| InferenceVerdicts.StrictReputationalThresholds | engine/inference_engine.py:221-252 | rating 3.0, complaints 10 and references 2 do not fire RR-001..RR-003 |
| InferenceVerdicts.EnvironmentalRuleIff | engine/inference_engine.py:195-205 | RL-002 fires iff the environmental certificate is False and the industry is exactly "manufactura" |
| InferenceVerdicts.RuleImpactsZero | engine/inference_engine.py:36-44 | rules with zero impact leave the score unchanged |
| InferenceVerdicts.EmptyFactsApproved | engine/inference_engine.py:278-303 | a fact with no keys fires nothing and is BAJO/APROBAR with score 100 |
| InferenceVerdicts.ExcellentSupplierMatchesOnlyRF003 | tests/test_inferencia.py:10-31 | the excellent supplier of the test fires RF-003 and nothing else |
| InferenceVerdicts.ExcellentSupplierLowRisk | tests/test_inferencia.py:10-36 | the excellent supplier is BAJO, APROBAR, score 100 |
| InferenceEngine.Motor.constructor | engine/inference_engine.py:27-34 | a new engine is the initial state: no records, score 100, "NO DETERMINADO", empty recommendation; the score invariant (100 minus the recorded non-negative impacts) holds |
| InferenceEngine.Motor.RegistrarExplicacion | engine/inference_engine.py:36-44 | appends the explanation and subtracts its non-negative impact, nothing else, keeping the score equal to 100 minus the recorded impacts |
| InferenceEngine.Motor.RegistrarAlerta | engine/inference_engine.py:46-51 | appends the alert, nothing else; the score invariant is kept |
| InferenceEngine.Motor.Declare | engine/inference_engine.py:65 | adds the conclusion to the declared set, nothing else; the score invariant is kept |
| InferenceEngine.Motor.AgregarFactor | engine/inference_engine.py:66 | appends the critical factor, nothing else; the score invariant is kept |
| InferenceEngine.Motor.LiquidezCritica | engine/inference_engine.py:55-66 | RF-001's firing: explanation, impact 25, CRÍTICO alert, high financial conclusion, factor |
| InferenceEngine.Motor.LiquidezModerada | engine/inference_engine.py:68-76 | RF-002's firing as specified by `Fire` |
| InferenceEngine.Motor.LiquidezSaludable | engine/inference_engine.py:78-86 | RF-003's firing as specified by `Fire` |
| InferenceEngine.Motor.EndeudamientoAlto | engine/inference_engine.py:88-98 | RF-004's firing as specified by `Fire` |
| InferenceEngine.Motor.RentabilidadNegativa | engine/inference_engine.py:100-110 | RF-005's firing as specified by `Fire` |
| InferenceEngine.Motor.MorosidadAlta | engine/inference_engine.py:112-121 | RF-006's firing as specified by `Fire` |
| InferenceEngine.Motor.SinCertificacionCalidad | engine/inference_engine.py:125-134 | RO-001's firing as specified by `Fire` |
| InferenceEngine.Motor.ProveedorNuevo | engine/inference_engine.py:136-144 | RO-002's firing as specified by `Fire` |
| InferenceEngine.Motor.CapacidadLimitada | engine/inference_engine.py:146-155 | RO-003's firing as specified by `Fire` |
| InferenceEngine.Motor.AltaTasaDefectos | engine/inference_engine.py:157-167 | RO-004's firing as specified by `Fire` |
| InferenceEngine.Motor.IncumplimientoEntregas | engine/inference_engine.py:169-178 | RO-005's firing as specified by `Fire` |
| InferenceEngine.Motor.IncumplimientoLegal | engine/inference_engine.py:182-193 | RL-001's firing as specified by `Fire` |
| InferenceEngine.Motor.SinCertificacionAmbiental | engine/inference_engine.py:195-205 | RL-002's firing as specified by `Fire` |
| InferenceEngine.Motor.SinSeguros | engine/inference_engine.py:207-217 | RL-003's firing as specified by `Fire` |
| InferenceEngine.Motor.MalaReputacion | engine/inference_engine.py:221-231 | RR-001's firing as specified by `Fire` |
| InferenceEngine.Motor.MuchasQuejas | engine/inference_engine.py:233-242 | RR-002's firing as specified by `Fire` |
| InferenceEngine.Motor.PocasReferencias | engine/inference_engine.py:244-252 | RR-003's firing as specified by `Fire` |
| InferenceEngine.Motor.FireRule | engine/inference_engine.py:55-252 | dispatches a matching rule to its method, with the value the rule's pattern binds |
| InferenceEngine.Motor.Run | engine/inference_engine.py:55-252 | firing an agenda of matching rules leaves the state `FireAll` specifies |
| InferenceEngine.Motor.DecisionRiesgoAlto | engine/inference_engine.py:256-263 | overwrites the verdict with ALTO and the no-contract recommendation |
| InferenceEngine.Motor.DecisionRiesgoMedio | engine/inference_engine.py:265-276 | sets MEDIO with the quarterly recommendation only from "NO DETERMINADO" |
| InferenceEngine.Motor.Decidir | engine/inference_engine.py:256-276 | a schedule of decision firings leaves the state `ApplyDecisions` specifies |
| InferenceEngine.Motor.EvaluarPuntuacionFinal | engine/inference_engine.py:278-289 | applies the score thresholds from "NO DETERMINADO", which always ends in BAJO, MEDIO or ALTO |
| InferenceEngine.Motor.ObtenerResultado | engine/inference_engine.py:291-303 | scores, then returns max(0, 100 − Σ recorded impacts), which lies in [0,100], the records, and their count |
| InferenceEngine.EvaluarProveedor | engine/inference_engine.py:306-340 | an exception gives ERROR, score 0, no explanations, count 0 and one CRÍTICO alert; otherwise the same verdict, score, count and explanations (up to order) as the reference evaluation |
| Explainer.CategoryTotals | engine/explicador.py:163-176 | the four `categorias` entries: each sums the impacts of the labels with its prefix |
| Explainer.PrefixesExclusive | engine/explicador.py:169-176 | a label starts with at most one of RF, RO, RL, RR |
| Explainer.CategoriesPartitionPrefixed | engine/explicador.py:163-176 | the four category totals sum to the impacts of the prefixed explanations; other labels are ignored |
| Explainer.CountLevel | engine/explicador.py:182-184 | a per-level count is at most the number of alerts |
| Explainer.LevelCountsBound | engine/explicador.py:181-185 | the three level counts sum to at most the number of alerts, exactly when every alert has one of those levels |
| Explainer.GenerarMetricasVisuales | engine/explicador.py:151-186 | category totals by label prefix, the result's score, and per-level alert counts |
| Explainer.LabelPrefixed | engine/explicador.py:169-176 | every engine label carries one of the four category prefixes |
| Explainer.PrefixedSumOfRun | engine/explicador.py:163-176 | on a run's explanations the prefixed sum is the run's total impact |
| Explainer.RunCategoriesTotal | engine/explicador.py:163-176 | the category totals of a run sum to its total impact |
| Explainer.EngineCategoriesTotal | engine/explicador.py:163-180 | for an evaluation the totals equal 100 minus the unclamped score, and totals plus score is 100 when the score is non-negative |
| Explainer.EngineLevelCounts | engine/explicador.py:181-185 | on an evaluation the three level counts sum to the number of alerts |
| Explainer.Secciones | engine/explicador.py:143-145 | the plan sections: one per factor the table knows, in input order |
| Explainer.GenerarPlanMitigacion | engine/explicador.py:97-149 | BAJO gives the fixed plan; no factors gives the generic plan; otherwise heading, sections of known factors in order, monitoring line |
| Explainer.SeccionesSelect | engine/explicador.py:143-145 | a factor gets a section iff the table knows it, with the table's actions |
| Explainer.SeccionesInOrder | engine/explicador.py:143-145 | when all factors are known there is one section per factor in input order |
| Explainer.SeccionesAppend | engine/explicador.py:143-145 | the sections of two factor lists in a row are the sections of each, in order |
| Explainer.SeccionesAt | engine/explicador.py:143-145 | for any input, a known factor's section stands after the sections of the factors before it and before those of the factors after it |
| Explainer.FactorsHaveMitigation | engine/explicador.py:131-141 | every factor label a rule can append is a key of the mitigation table |
| Explainer.EngineFactorsKnown | engine/explicador.py:131-141 | every critical factor of an evaluation has a mitigation entry |
| Explainer.GenerarCadenaRazonamiento | engine/explicador.py:74-95 | no explanations gives the fixed sentence; otherwise one step per explanation in order, the i-th numbered i |
| Explainer.Insert | engine/explicador.py:70 | one insertion step of the descending sort on impact |
| Explainer.InsertPermutation | engine/explicador.py:70 | inserting an explanation adds exactly it to the table |
| Explainer.InsertDescending | engine/explicador.py:70 | inserting into a descending table keeps it descending |
| Explainer.ExplicacionDetallada | engine/explicador.py:47-72 | the detailed table is a permutation of the explanations in descending impact, empty for no explanations |

## Left out

- Timestamps from the clock (`datetime.now()`) in each explanation are not modelled.
- Justification strings and their float formatting are not modelled. Each is the value `Reason(rule, cited value)`.
- The experta Rete network, salience and fact deduplication are not modelled. The order of rule firings (`agenda`) and decision firings (`decisiones`) are parameters of `EvaluarProveedor`, and the order-independence lemmas cover every choice of either order.
- The model fires every data rule before any decision rule. The rule library may fire `decision_riesgo_medio` between data-rule firings. The outcome is the same: data rules never write the verdict (`FireAllVerdict`), decisions never touch the records (`DecisionsKeepRecords`), and the `decisiones` schedule already lets the medium decision fire before the high one.
- Python runtime failures (for example, a string compared with a float) are not modelled one by one. Any of them is the parameter `raised` of `EvaluarProveedor`.
- InferenceVerdicts.AgendaOrderIrrelevant: states explanations, alerts and factors equal only as multisets. Their order is the firing order, which the rule library chooses.
- InferenceEngine.EvaluarProveedor: states the explanations up to order only, for the same reason.
- InferenceVerdicts.ExcellentSupplierLowRisk: states the exact score 100 where the test only asks for at least 80.
- Explainer.ExplicacionDetallada: does not fix the relative order of explanations with equal impact. The library sort used there is not stable, and the model's insertion places later entries first.
- The pandas column renaming of the detailed table is not modelled.
- The markdown text of `generar_resumen_ejecutivo`, `generar_informe_completo`, the plan and the chain is not modelled. The plan and the chain are datatypes (`Plan`, `Cadena`).
- The user interface (`ui/`, `app.py`) and the `collections` patch in `fix_collections.py` are not modelled. They are presentation and library set-up.
- The static documentation tables of the catalogs are not modelled (`DOCUMENTACION_*`, `RED_FLAGS_*`, `CRITERIOS_ESG`, `FUENTES_INFORMACION`, `NPS_INTERPRETACION`, `DUE_DILIGENCE_LEGAL`, `MEJORES_PRACTICAS`, and the `AJUSTES_POR_INDUSTRIA` multipliers). They are not read by any rule.
- The catalogs are not connected to the engine. The engine itself does not consult them.
