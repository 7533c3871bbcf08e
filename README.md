# Green-Efficiency-Calculator: a verified model of the deterministic core

Green-Efficiency-Calculator estimates the energy, money and CO2 savings of household and small-business efficiency actions. A
language model proposes the actions. Deterministic code then validates them, filters them against a policy (disruption
ceiling, payback threshold, budget), estimates their impact, checks the plan for consistency and steers the retry loops of
the planner and the coordinator. This project models that deterministic code in Dafny and proves what it promises.

Python values are modelled by `Values.Value` (None, bool, int, finite float, str, list, dict), with `float()`, `int()` and
truthiness written out. Dicts are finite maps. Pydantic models are datatypes with a `Valid()` predicate, a parse function that
is None where validation fails, and a dump function, with round-trip lemmas. Exceptions are modelled as `None` results.
Collaborators the core calls but does not define are function parameters:
- the language model and the intake, audit, compose and estimate agents;
- the bill parser;
- the `StructuredAction` and `PlannerCriteria` validation;
- `str()` of floats, lists and dicts (the parameter `show`).

Module by module:
- `Models`: field validators and bounds of `PolicyGoals`, `Recommendation` and `Finding`.
- `PolicyAgent`: the three-stage `enforce_policy` filter.
- `Constraints`: `apply_policy`, the policy agent's twin that mutates items in place, modelled on an `array`; the stages
  take a flag that selects the code as written or a corrected variant that clamps the cost at 0 (see Findings).
- `Sorting`: the stable sort and the greedy budget pass.
- `ImpactEstimator`: `estimate_impact`.
- `CriteriaCheck`: the default check step.
- `Planner` and `PlanDefault`: the planner loop and its default plan step.
- `Autofix` and `Validation`: the action autofix and the row report.
- `Checks`: the plan consistency checks.
- `Guardrails`, `Tariff`, `JsonTools` and `JsonRepair`: the small utilities.
- `Composer`: the recommendation composer's formatting, prompt placeholders and reply shaping.
- `Coordinator`: the agentic coordinator's step list, step dispatcher and error-budget loop.

## Model

| member | source | states |
|---|---|---|
| Models.LevelRank | utils/models.py:25 | the order none < low < medium < high, with unknown labels ranked as medium |
| Models.NormalizeDisruption | utils/models.py:35-43 | None and every value that is not a level once trimmed and lower-cased become "medium", else the level; the result is always a level |
| Models.NormalizeDisruptionKeeps | utils/models.py:40-42 | a level in any case, with blanks around it, normalises to that level |
| Models.DisruptionOfLevel | utils/models.py:41-42 | each of the four levels normalises to itself |
| Models.NormalizeDisruptionIdempotent | utils/models.py:35-43 | normalising a disruption twice is normalising it once |
| Models.LowBecomesLow | test/intake_test.py:11-20 | "Low" normalises to "low" |
| Models.NoneIfEmpty | utils/models.py:28-33 | "" and None read as None; every other value passes unchanged |
| Models.FloatField | utils/models.py:14 | a float field accepts ints, floats, bools and numeric strings, and rejects None, lists and dicts |
| Models.IntField | utils/models.py:17 | an int field accepts ints, bools, integral floats and digit strings, and rejects fractional floats |
| Models.OptRealInRange | utils/models.py:14-22 | an optional bounded float is None when absent, a value within its bounds when present, and a validation error otherwise |
| Models.ParsePolicyGoals | utils/models.py:7-43 | a validated PolicyGoals satisfies every field bound, and a missing ceiling defaults to "medium" |
| Models.DumpPolicyGoals | utils/models.py:7-26 | the dump has exactly the four field keys |
| Models.PolicyGoalsRoundTrip | utils/models.py:7-43 | validating the dump of valid goals gives the same goals back |
| Models.IntakePolicyExample | test/intake_test.py:7-20 | "150000" reads as 150000.0, "12" as 12, 20 as 20.0 and "Low" as "low" |
| Models.StringList | utils/models.py:134 | a List[str] field is a list whose items are all strings, the same length as the list |
| Models.ParseRecommendation | utils/models.py:132-152 | a parsed recommendation is valid and carries the dict's action and steps; a missing required field fails |
| Models.DumpRecommendation | utils/models.py:132-144 | the dump has exactly the nine field keys |
| Models.RecommendationRoundTrip | utils/models.py:132-152 | validating the dump of a valid recommendation gives it back |
| Models.AreaAlias | utils/models.py:81-99 | the alias table of areas: every entry maps to a canonical area |
| Models.NormalizeArea | utils/models.py:75-100 | None gives "other", an alias gives its area, and anything else comes back unchanged |
| Models.AreaCanonicalFixed | utils/models.py:81-99 | each canonical area maps to itself |
| Models.NormalizeAreaIdempotent | utils/models.py:75-100 | normalising an area twice is normalising it once |
| Models.SeverityAlias | utils/models.py:108-123 | the alias table of severities: every entry maps to low, med or high |
| Models.NormalizeSeverity | utils/models.py:102-124 | None gives "low", an alias gives its severity, and anything else comes back unchanged |
| Models.SeverityCanonicalFixed | utils/models.py:108-123 | each canonical severity maps to itself |
| Models.NormalizeSeverityIdempotent | utils/models.py:102-124 | normalising a severity twice is normalising it once |
| Models.ParseFinding | utils/models.py:69-124 | a parsed finding is valid, with its area and severity normalised; a missing field fails |
| PolicyAgent.RankOf | agents/policy_agent.py:15-20 | a falsy level ranks as medium, an unknown one as 2, and a level by its index, with no stripping |
| PolicyAgent.EstKwhSaved | agents/policy_agent.py:24-28 | a declared saving wins, clamped at 0; otherwise the baseline times the clamped minimum percentage; never negative on a non-negative baseline |
| PolicyAgent.PctFraction | agents/policy_agent.py:27 | the minimum reduction as a fraction in [0, 1] |
| PolicyAgent.MonthlySavings | agents/policy_agent.py:31-32 | kWh saved times the tariff clamped at 0 |
| PolicyAgent.Capex | agents/policy_agent.py:38 | the cost clamped at 0 |
| PolicyAgent.PaybackMonths | agents/policy_agent.py:35-40 | a declared payback of at least 0 is trusted; otherwise cost over positive savings; otherwise undefined; never negative |
| PolicyAgent.ValuePerLkr | agents/policy_agent.py:43-48 | kWh per LKR of clamped cost; a free action ranks 1e12 when it saves anything and 0 otherwise |
| PolicyAgent.Annotate | agents/policy_agent.py:84-91 | a copy of the action with only `payback_months` set |
| PolicyAgent.PaybackKeep | agents/policy_agent.py:81-94 | an action is kept iff its payback is defined and within the threshold, or undefined with a cost of at most 5000 |
| PolicyAgent.PaybackStage | agents/policy_agent.py:79-97 | the kept actions plus the number dropped equals the number of inputs |
| PolicyAgent.FilterPayback | agents/policy_agent.py:79-97 | the payback loop computes `PaybackStage` |
| PolicyAgent.ApplyDisruption | agents/policy_agent.py:71-75 | the disruption stage computes `DisruptionStep` |
| PolicyAgent.ApplyPayback | agents/policy_agent.py:77-97 | the payback stage computes `PaybackStep` |
| PolicyAgent.ApplyBudget | agents/policy_agent.py:99-111 | the budget stage computes `BudgetStep` |
| PolicyAgent.EnforcePolicy | agents/policy_agent.py:51-113 | `enforce_policy` computes `Enforce` |
| PolicyAgent.NoPolicy | agents/policy_agent.py:64-69 | with a falsy policy the dict entries come back in their order and the report has no notes |
| PolicyAgent.DictsMembers | agents/policy_agent.py:65 | exactly the dicts of the list are kept |
| PolicyAgent.AnnotateKeepsInputs | agents/policy_agent.py:84-92 | annotating a copy changes nothing the estimates or the filters read |
| PolicyAgent.PaybackOfAnnotated | agents/policy_agent.py:89-91 | the payback written into the copy is the one recomputed from the copy |
| PolicyAgent.PaybackKeepFixed | agents/policy_agent.py:81-92 | a kept copy passes the rule again and is its own annotation |
| PolicyAgent.PaybackStageSound | agents/policy_agent.py:79-97 | every kept action passes the payback rule and carries its payback |
| PolicyAgent.PaybackStageDropsNone | agents/policy_agent.py:79-97 | nothing is dropped iff every action passes the rule |
| PolicyAgent.PaybackStageFixed | agents/policy_agent.py:79-97 | on actions that already pass and carry their payback the stage changes nothing |
| PolicyAgent.PaybackStageIdempotent | agents/policy_agent.py:79-97 | the payback stage is idempotent |
| PolicyAgent.PaybackStageKeepsDisruption | agents/policy_agent.py:71-97 | the payback stage keeps every disruption level it is given |
| PolicyAgent.WithinCapSound | agents/policy_agent.py:71-75 | every survivor of the disruption filter ranks at most the cap's rank, and nothing is dropped iff every action already does |
| PolicyAgent.BudgetStepBound | agents/policy_agent.py:99-111 | the chosen actions are a sub-multiset of the input, in descending kWh per LKR, with clamped costs summing to the reported spend, which is within the budget |
| PolicyAgent.BudgetStepPreserves | agents/policy_agent.py:99-108 | the budget stage keeps any property all its inputs have |
| PolicyAgent.EnforceRespectsDisruption | agents/policy_agent.py:71-75 | every action returned under a ceiling respects it |
| PolicyAgent.EnforceRespectsPayback | agents/policy_agent.py:77-97 | every action returned under a threshold passes the payback rule and carries its payback |
| PolicyAgent.EnforceRespectsBudget | agents/policy_agent.py:99-111 | under a budget the summed clamped costs fit `max(budget, 0)`, in rank order, and the last note reports the spend |
| PolicyAgent.EnforceIdempotent | agents/policy_agent.py:51-113 | enforcing the same policy again returns the same actions |
| PolicyAgent.EnforceDisruptionNote | agents/policy_agent.py:71-75 | the disruption note is issued iff a ceiling is set and some action exceeds it |
| PolicyAgent.EnforcePaybackNote | agents/policy_agent.py:77-96 | the payback note is issued iff a threshold is set and some remaining action fails the rule |
| PolicyAgent.PaybackStepSubMultiset | agents/policy_agent.py:77-97 | under a threshold the payback stage returns annotated copies of its inputs, none more often than its original |
| PolicyAgent.BudgetStepSubMultiset | agents/policy_agent.py:99-111 | the budget stage returns a sub-multiset of its input |
| PolicyAgent.EnforceSubMultiset | agents/policy_agent.py:64-113 | `enforce_policy` invents nothing: with no threshold its result is a sub-multiset of the disruption survivors; under a threshold, of those survivors each annotated with its own payback |
| Sorting.Insert | agents/policy_agent.py:101 | inserting into a list adds exactly that element |
| Sorting.SortBy | agents/policy_agent.py:101 | the sort returns a permutation of its input |
| Sorting.SortBySorted | agents/policy_agent.py:101 | the result is ordered by the key |
| Sorting.SortByStable | agents/policy_agent.py:101 | elements with equal keys keep their input order |
| Sorting.SortBySortedIdentity | agents/policy_agent.py:101 | sorting a sorted list changes nothing |
| Sorting.GreedySubMultiset | agents/policy_agent.py:102-107 | the greedy choice is a sub-multiset of the input |
| Sorting.GreedyWithinBudget | agents/policy_agent.py:102-107 | the chosen elements cost exactly what was spent, and that is within budget |
| Sorting.GreedyPass | agents/policy_agent.py:102-107 | the budget loop computes the greedy choice and its spend |
| Sorting.GreedySnoc | agents/policy_agent.py:103-107 | one more element joins the choice iff it fits in what is left |
| Sorting.GreedyTakesAllThatFit | agents/policy_agent.py:102-107 | when everything fits, everything is taken |
| Sorting.GreedyKeepsOrder | agents/policy_agent.py:102-107 | the chosen elements keep the rank order |
| Sorting.RankedGreedy | agents/policy_agent.py:101-107 | rank then walk: the choice comes from the input, in rank order, costs what was spent, and is within budget |
| Sorting.RankedGreedyPreserves | agents/policy_agent.py:101-108 | rank then walk keeps any property every input has |
| Sorting.GreedySkipsNotStops | agents/policy_agent.py:103-107 | with budget 5 and ranked costs 10 then 1, the second one is chosen |
| Sorting.TotalPointwise | agents/policy_agent.py:104-107 | lists with equal costs position by position have equal totals |
| Constraints.RankOf | utils/constraints.py:7-14 | a level is trimmed and lower-cased before ranking, and None or "" ranks as medium |
| Constraints.EstKwhSaved | utils/constraints.py:25-30 | a declared saving wins, clamped at 0, else baseline times clamped minimum percent |
| Constraints.PctFraction | utils/constraints.py:28-30 | the minimum reduction as a fraction in [0, 1] |
| Constraints.MonthlySavings | utils/constraints.py:33-35 | monthly savings clamped at 0 |
| Constraints.Capex | utils/constraints.py:68 | the cost clamped at 0 |
| Constraints.PaybackAsWritten | utils/constraints.py:38-46 | as written: a declared payback below 0 reads as None, and an undeclared one is the raw cost over positive savings, which can be negative |
| Constraints.PaybackMonths | utils/constraints.py:38-46 | the corrected payback, with the cost clamped at 0: never negative, defined exactly where the payback as written is, and equal to it raised to 0 |
| Constraints.ValuePerLkr | utils/constraints.py:67-72 | kWh per LKR of clamped cost, 1e12 for a free action that saves anything |
| Constraints.AnnotateFields | utils/constraints.py:94-95 | the item with only `payback_months` overwritten by its computed payback, as written or clamped |
| Constraints.KeepsClamped | utils/constraints.py:96-105 | for a threshold of at least 0 the keep rule decides the same on the clamped payback as on the payback as written |
| Constraints.ToModels | utils/constraints.py:123 | one rebuilt model per item, or failure when some item fails |
| Constraints.Baseline | utils/constraints.py:78 | the baseline clamped at 0 |
| Constraints.TariffOf | utils/constraints.py:79 | the tariff clamped at 0 |
| Constraints.Apply | utils/constraints.py:75-125 | `apply_policy` (`clamp` false) and its corrected variant (`clamp` true): None exactly where rebuilding a selected item fails; the returned report is the one stored on the output, with no unmet constraints |
| Constraints.AnnotatePayback | utils/constraints.py:91-108 | every array item is overwritten in place with its payback as written, and the kept items are those same dicts |
| Constraints.ApplyPayback | utils/constraints.py:89-108 | the payback stage as written computes `PaybackStep` with `clamp` false |
| Constraints.ApplyBudget | utils/constraints.py:110-121 | the budget stage computes `BudgetStep` |
| Constraints.ApplyPolicy | utils/constraints.py:75-125 | `apply_policy` as written computes `Apply` with `clamp` false |
| Constraints.ToModelOfDump | utils/constraints.py:53-64 | rebuilding a dump of a valid recommendation succeeds and gives back its fields, with empty notes filled in |
| Constraints.AnnotateDump | utils/constraints.py:94-95 | in the corrected variant, recording the clamped payback on a dump gives a dump of a valid recommendation |
| Constraints.SelectedAreDumps | utils/constraints.py:81-120 | in the corrected variant, every item the stages leave is a dump of a valid recommendation |
| Constraints.ApplyRebuilds | utils/constraints.py:75-125 | for valid input the corrected variant always returns; the code as written does not (`RebateRaises`) |
| Constraints.ApplyNoPolicy | utils/constraints.py:81-125 | without a policy, as written or corrected, the recommendations come back in order, with empty notes filled in, and the report is empty |
| Constraints.OutputOfItem | utils/constraints.py:123 | each recommendation the corrected variant returns is the rebuilt form of the item at its position |
| Constraints.ApplyRespectsDisruption | utils/constraints.py:83-87 | under a ceiling every recommendation the corrected variant returns is within it |
| Constraints.ApplyRespectsPayback | utils/constraints.py:89-108 | under a threshold every recommendation the corrected variant returns has no payback and costs at most 5000, or pays back within the threshold |
| Constraints.ApplyRespectsBudget | utils/constraints.py:110-121 | under a budget the clamped costs the corrected variant returns fit it, and the last note reports what they cost |
| Constraints.AnnotateClamps | utils/constraints.py:94-95 | the clamped annotation is the annotation as written with a negative payback raised to 0 |
| Constraints.ClampKeepsRank | utils/constraints.py:112-116 | raising a payback changes neither the ranking value nor the clamped cost |
| Constraints.BudgetClamps | utils/constraints.py:110-121 | the budget stage commutes with raising negative paybacks to 0, and issues the same note |
| Constraints.SelectedClamps | utils/constraints.py:81-120 | the corrected stages issue the notes of the stages as written and leave the same items, each with a negative payback raised to 0 |
| Constraints.RebuildRejectsNegative | utils/constraints.py:123 | the rebuild fails on a recorded negative payback |
| Constraints.RebuiltNotNegative | utils/constraints.py:123 | an item that rebuilds carries no negative payback |
| Constraints.AsWrittenAgrees | utils/constraints.py:75-125 | wherever `apply_policy` as written returns, it returns what the corrected variant returns |
| Constraints.AsWrittenRaisesIff | utils/constraints.py:75-125 | for valid input `apply_policy` as written raises exactly when an item it keeps carries a negative payback |
| Constraints.AsWrittenRespects | utils/constraints.py:83-121 | wherever `apply_policy` as written returns, its recommendations respect the ceiling, the threshold and the budget, and the last note reports the spend |
| Constraints.TwinsAgreeOnEstimates | utils/constraints.py:25-72 | savings, costs and ranking values agree with the policy agent's on a non-negative baseline |
| Constraints.TwinsAgreeOnPayback | utils/constraints.py:38-46 | unless a negative payback is declared, the clamped payback agrees with the policy agent's; the payback as written agrees when the cost is not negative, and differs when an undeclared payback has a negative cost and positive savings |
| Constraints.DeclaredNegativePayback | utils/constraints.py:39-41 | a declared negative payback reads as undefined here, where the policy agent computes one |
| Constraints.RankStripsBlanks | utils/constraints.py:12-14 | " low" ranks as low here and as medium in the policy agent |
| Constraints.NegativeCostBreaksRebuild | utils/constraints.py:42-123 | as written, a valid recommendation with a negative cost gets a negative payback, passes any threshold, and rebuilding it fails; clamped, its payback is 0, as in the policy agent, and it rebuilds |
| Constraints.KeptNegativeRaises | utils/constraints.py:93-123 | a kept item with a negative payback makes `apply_policy` as written raise, where the corrected variant returns |
| Constraints.RebateRaises | utils/constraints.py:75-125 | on the single rebate recommendation under a threshold and a "low" ceiling, `apply_policy` as written raises and the corrected variant returns |
| ImpactEstimator.EstKwhSaved | agents/impact_estimator.py:16-22 | a declared saving wins, clamped at 0; otherwise the baseline times the clamped minimum percentage |
| ImpactEstimator.MonthlySavings | agents/impact_estimator.py:25-26 | savings in money, never negative |
| ImpactEstimator.PaybackMonths | agents/impact_estimator.py:29-34 | a declared payback of at least 0 is trusted, else cost over positive savings, else undefined |
| ImpactEstimator.MkActionValid | agents/impact_estimator.py:37-52 | an action built from a valid recommendation meets the ImpactAction bounds, with every quantity at least 0 |
| ImpactEstimator.PctMaxUnused | agents/impact_estimator.py:16-22 | the maximum reduction percentage plays no part in the estimate |
| ImpactEstimator.SavingsMatchPolicy | agents/impact_estimator.py:16-22 | the estimate agrees with the policy filter's on the dump of the same recommendation |
| ImpactEstimator.WorkedExamples | agents/impact_estimator.py:16-34 | on 320 kWh at 62 LKR/kWh, 10% free saves 32 kWh and 1984 LKR; 5% at 50000 saves 16 kWh and pays back in about 50.4 months |
| ImpactEstimator.Actions | agents/impact_estimator.py:61-66 | one action per recommendation, in order |
| ImpactEstimator.BuildActions | agents/impact_estimator.py:61-66 | the action loop computes `Actions` |
| ImpactEstimator.Achieved | agents/impact_estimator.py:93-94 | the achieved percentages: 0 on a zero baseline, and a division by zero where the emission factor is 0 |
| ImpactEstimator.QuickWinLines | agents/impact_estimator.py:102-108 | one line per quick win under the heading |
| ImpactEstimator.BuildLines | agents/impact_estimator.py:96-118 | the line loop computes `Lines` |
| ImpactEstimator.EstimateImpact | agents/impact_estimator.py:54-129 | `estimate_impact` computes `Estimate` |
| ImpactEstimator.EstimateShape | agents/impact_estimator.py:54-129 | the plan raises iff the baseline is positive and the emission factor 0; otherwise one action per recommendation, policy carried through |
| ImpactEstimator.TotalsNonNegative | agents/impact_estimator.py:68-76 | with valid recommendations every total is at least 0 |
| ImpactEstimator.QuickWinsSpec | agents/impact_estimator.py:78-91 | the quick wins are exactly the cheap or fast actions, each as often as in the full list, sorted by cost, payback and kWh, stable |
| ImpactEstimator.ZeroBaseline | agents/impact_estimator.py:93-94 | both achieved percentages are 0 on a zero baseline |
| ImpactEstimator.QuickWinLinesShape | agents/impact_estimator.py:102-108 | the heading appears iff there are quick wins, followed by one line each in order |
| ImpactEstimator.GoalWarning | agents/impact_estimator.py:110-118 | the goal warning is the last line iff a goal is set and missed by more than 1e-9 |
| CriteriaCheck.DisrRank | agents/steps/check_default.py:16-18 | the lower-cased label's rank, 2 when unknown |
| CriteriaCheck.ItemRank | agents/steps/check_default.py:28-29 | a string disruption by its rank; "medium" for a dict without one and for non-dicts |
| CriteriaCheck.MaxRank | agents/steps/check_default.py:26-30 | the highest rank in the list, 0 for the empty list |
| CriteriaCheck.Chars | agents/steps/check_default.py:27 | a string iterates to its characters |
| CriteriaCheck.CollectDisruption | agents/steps/check_default.py:20-30 | the loop computes the maximum rank; None where iterating raises |
| CriteriaCheck.DataCriterion | agents/steps/check_default.py:70-78 | a reason when completeness is required and data is missing, never a patch entry |
| CriteriaCheck.BudgetCriterion | agents/steps/check_default.py:80-85 | the budget criterion's reason and patch setting |
| CriteriaCheck.PaybackCriterion | agents/steps/check_default.py:87-92 | the payback criterion's reason and patch setting |
| CriteriaCheck.Co2Criterion | agents/steps/check_default.py:94-100 | the reduction criterion's reason and patch setting |
| CriteriaCheck.DisruptionCriterion | agents/steps/check_default.py:102-109 | the disruption criterion's reason and patch setting |
| CriteriaCheck.CheckAgainstCriteria | agents/steps/check_default.py:32-112 | the check computes `Check`, each criterion in turn with no short-circuit |
| CriteriaCheck.CheckRaises | agents/steps/check_default.py:45-104 | the check raises only where reading inputs raises or the recommendations cannot be iterated |
| CriteriaCheck.OkMeansNoReasons | agents/steps/check_default.py:68-111 | a passing check has no reasons and an empty patch; a failing one has at least one reason |
| CriteriaCheck.ReasonsInOrder | agents/steps/check_default.py:70-109 | the reasons come in the criteria's order, each kind at most once |
| CriteriaCheck.BudgetVerdict | agents/steps/check_default.py:80-85 | the budget fails iff capex exceeds it, and the patch then caps the budget |
| CriteriaCheck.PaybackVerdict | agents/steps/check_default.py:87-92 | the payback applies only with a known blended payback and fails iff it exceeds the threshold |
| CriteriaCheck.Co2Verdict | agents/steps/check_default.py:94-100 | the goal applies only to a positive baseline and fails iff missed by more than 1e-9 |
| CriteriaCheck.DisruptionVerdict | agents/steps/check_default.py:102-109 | the cap fails iff some recommendation ranks above it, and the patch carries the lower-cased cap |
| CriteriaCheck.DataVerdict | agents/steps/check_default.py:70-78 | missing inputs are reported only when required, and never patched |
| CriteriaCheck.EstimatorTotalsUnread | agents/steps/check_default.py:59-63 | on an estimator plan, capex and kWh saved read as 0 and the blended payback as unknown |
| CriteriaCheck.EstimatorBudgetUnread | agents/steps/check_default.py:80-84 | on an estimator plan the budget criterion fails exactly when a budget below 0 is given |
| Planner.MergeCovers | agents/planner.py:9-16 | after the merge everything the patch says holds |
| Planner.MergeCovered | agents/planner.py:9-16 | merging a patch that already holds changes nothing |
| Planner.MergeEmpty | agents/planner.py:9-16 | merging the empty patch returns the base |
| Planner.MergeIdempotent | agents/planner.py:9-16 | merging the same patch twice is merging it once |
| Planner.NextPayload | agents/planner.py:61-62 | the payload is merged with a non-empty patch, else kept |
| Planner.ClampIters | agents/planner.py:26 | the cap is in [1, 3], equal to the request when it is in range |
| Planner.RunShape | agents/planner.py:40-67 | between one and n attempts, numbered consecutively, each recording its check; all but the last failed |
| Planner.RunPayloads | agents/planner.py:43-62 | each attempt's payload is the previous one merged with its failed check's patch |
| Planner.TinyPlanner.constructor | agents/planner.py:19-29 | the cap is clamped into [1, 3] and the steps are stored |
| Planner.TinyPlanner.Run | agents/planner.py:40-67 | `run` computes the run of the trace |
| PlanDefault.CriteriaDump | agents/steps/plan_default.py:11 | exactly the five criteria keys, each given value or None |
| PlanDefault.DefaultPlan | agents/steps/plan_default.py:5-16 | the plan has name "full_pipeline", the raw payload as inputs and the dumped criteria; it raises iff the criteria are not a valid dict |
| PlanDefault.NoPlannerNoCriteria | agents/steps/plan_default.py:10 | with no or a falsy planner entry every criterion is None |
| PlanDefault.DefaultCriteria | agents/steps/plan_default.py:5-16 | every attempt plans as "full_pipeline" with exactly the criteria keys |
| PlanDefault.DefaultCheckOutcome | agents/steps/check_default.py:111-112 | the default check passes the verdict through, and a pass carries no patch |
| Autofix.ToFloat | utils/autofix.py:20-37 | None stays None, numbers as they are, strings without blanks and commas with a k/m suffix scaled; other types give None |
| Autofix.Scaled | utils/autofix.py:33-36 | only a finite parse scales |
| Autofix.SuffixScales | utils/autofix.py:29-34 | a clean string ending in k/K or m/M reads as its prefix times a thousand or a million |
| Autofix.ToFloatClean | utils/autofix.py:25-36 | a string with nothing to strip parses through the suffix split |
| Autofix.PlainDigits | utils/autofix.py:25-34 | plain digits read as their number |
| Autofix.OpexChange | utils/autofix.py:44-51 | minus kWh saved times tariff; None when either is missing |
| Autofix.Co2e | utils/autofix.py:54-57 | kWh saved times grid factor; None when either is missing |
| Autofix.PaybackMonths | utils/autofix.py:60-71 | cost over monthly savings when the change is a saving, the 1e9 sentinel otherwise, None when either is missing |
| Autofix.PaybackFromSavings | utils/autofix.py:44-71 | deriving on a saving at a positive tariff gives cost over monthly money saved |
| Autofix.CoerceField | utils/autofix.py:89-96 | a present field is replaced by its coerced value unless it fails to coerce and is not None |
| Autofix.CoerceAllValues | utils/autofix.py:88-96 | after the loop each field holds its coerced value and every other entry is untouched |
| Autofix.ClampConfidence | utils/autofix.py:98-102 | a present confidence is clamped into [0, 1]; None where `float()` raises |
| Autofix.ZeroField | utils/autofix.py:105-108 | a negative present field becomes 0.0 |
| Autofix.ZeroAll | utils/autofix.py:104-108 | after the loop the zeroed fields are not negative |
| Autofix.DeriveOpex | utils/autofix.py:111-115 | opex_change is filled only while it is missing or None |
| Autofix.DeriveCo2e | utils/autofix.py:117-121 | CO2e_saved is filled only while it is missing or None |
| Autofix.DerivePayback | utils/autofix.py:123-130 | payback_months is filled only while it is missing or None |
| Autofix.DeriveOpexFills | utils/autofix.py:111-115 | a missing or None opex_change becomes minus the annual kWh saved times the tariff, with its note, when both are known; otherwise nothing changes |
| Autofix.DeriveCo2eFills | utils/autofix.py:117-121 | a missing or None CO2e_saved becomes the annual kWh saved times the grid factor, with its note, when both are known; otherwise nothing changes |
| Autofix.DerivePaybackFills | utils/autofix.py:123-130 | a missing or None payback_months becomes the derived payback when capex and opex_change are known, with the no-savings note at 1e9 and the derivation note below it; otherwise nothing changes |
| Autofix.Derive | utils/autofix.py:110-130 | the derivations in order keep every supplied entry |
| Autofix.Stages | utils/autofix.py:84-130 | a fix-up that reached validation went through coercion, clamping and, outside strict mode, zeroing and derivation |
| Autofix.ConfidenceInRange | utils/autofix.py:98-102 | a present confidence ends up a number in [0, 1] |
| Autofix.StrictOnlyCoerces | utils/autofix.py:82-110 | strict mode only coerces and clamps, and adds nothing |
| Autofix.NonStrictNotNegative | utils/autofix.py:104-108 | outside strict mode a present capex or kWh saving ends up not negative |
| Autofix.SuppliedValuesKept | utils/autofix.py:86-130 | other entries are untouched, none is dropped, and a supplied numeric cost change or payback is never overwritten |
| Autofix.FixUp | utils/autofix.py:84-130 | the fix-up computes `Prepare` |
| Autofix.CoerceFields | utils/autofix.py:88-96 | the coercion loop computes `CoerceAll` |
| Autofix.ZeroNegatives | utils/autofix.py:104-108 | the zeroing loop computes `ZeroAll` |
| Autofix.ValidateAndAutofixAction | utils/autofix.py:74-136 | the fix-up, then validation, computes `Autofix` |
| Autofix.AutofixAll | utils/autofix.py:139-151 | one object and note list per item, each the item's fix-up; None iff some item raises |
| Autofix.ValidateAndAutofixActions | utils/autofix.py:139-151 | the batch loop computes `AutofixAll` |
| Validation.IssueField | utils/validation.py:38 | the location joined with ".", or "unknown" when that is empty |
| Validation.IssuesOf | utils/validation.py:37-40 | one error issue per validation error, all for the row |
| Validation.ReportOf | utils/validation.py:21-42 | None iff some row's fix-up raises; objects and notes align; every issue names a row in range, in row order |
| Validation.IssueRows | utils/validation.py:31-40 | row i has an issue iff its fixed-up dict fails validation |
| Validation.ReportMatchesBatch | utils/validation.py:31-42 | a report without issues is the batch fix-up's result, and the batch fails iff the report has an issue |
| Validation.ValidateActionsReport | utils/validation.py:21-42 | the row loop computes `ReportOf` |
| Checks.ReadValue | utils/checks.py:8-11 | a falsy value reads as 0, numbers as themselves; None where `float()` raises |
| Checks.ReviewNeeded | utils/checks.py:28 | a falsy percentage needs no review, a number needs one iff above 50; None where comparing raises |
| Checks.ClampPct | utils/checks.py:22 | the percentage moves to the nearer end of [0, 100] |
| Checks.Flags | utils/checks.py:16-29 | each flag is raised iff its check fails, in the fixed order |
| Checks.ConsistencyChecks | utils/checks.py:3-31 | the step-by-step checks compute `Consistency` |
| Checks.Raises | utils/checks.py:8-28 | the checks raise iff a reading raises or the percentage left is a truthy non-number |
| Checks.BillCheck | utils/checks.py:14-18 | savings above a positive bill are flagged and capped at the bill, else kept |
| Checks.PctCheck | utils/checks.py:20-22 | a percentage outside [0, 100] is flagged and clamped, else kept |
| Checks.PaybackCheck | utils/checks.py:24-26 | a payback that is a number at most 0 is flagged and cleared, else kept |
| Checks.ReviewCheck | utils/checks.py:28-29 | review is flagged iff the percentage left is above 50; an out-of-range one iff it was above 100 |
| Checks.OthersUnchanged | utils/checks.py:6 | all other entries are those of the plan passed in, and none is removed |
| Checks.FlagOrder | utils/checks.py:4-29 | each flag at most once, in the order bill, percentage, payback, review |
| Checks.SecondPass | utils/checks.py:3-31 | rechecking the result leaves it unchanged and raises only the review flag, iff the first pass did |
| Checks.StringPctRaises | utils/checks.py:11-28 | a numeric-string percentage in [0, 100] reads as its number, and then the review comparison raises |
| Guardrails.Clamp | utils/guardrails.py:1-6 | the number pulled into [lo, hi], lo when `float()` raises; a number already inside the range is unchanged |
| Guardrails.ClampIdempotent | utils/guardrails.py:1-6 | clamping twice is clamping once |
| Guardrails.ClampHours | utils/guardrails.py:8 | hours in [0, 24] |
| Guardrails.ClampWatts | utils/guardrails.py:9 | watts in [0, 10000] |
| Guardrails.ClampCount | utils/guardrails.py:10 | a whole count in [0, 1000] |
| Guardrails.ClampKwh | utils/guardrails.py:11 | kWh in [0, 1e7] |
| Tariff.GetTariff | tools/tariff_retriever.py:14-35 | always a positive table value; 60 for None or ""; an exact code wins |
| Tariff.DependsOnlyOnKey | tools/tariff_retriever.py:24 | inputs with the same stripped upper-cased key get the same tariff |
| Tariff.KeywordPriority | tools/tariff_retriever.py:28-35 | for a key that is not a code, the keyword buckets in priority order: COMM gives 75, else SME/SHOP/SMALL 60, else RES/HOME/HOUSE 65, else the default 60 |
| Tariff.ExactCodeBeatsKeyword | tools/tariff_retriever.py:25-33 | "LK:RES_LOW" gives 52, not the RES bucket's 65 |
| Tariff.CodeIsNormalised | tools/tariff_retriever.py:24-26 | any casing of any of the five codes, padded with whitespace, gets that code's tariff |
| Tariff.PaddedLowerCase | tools/tariff_retriever.py:24-26 | " lk:res_low " gets 52 |
| JsonTools.ExtractJsonBlock | utils/json_tools.py:4-23 | the block from the first `{` to the first top-level `}`, else the stripped text; a non-string comes back unchanged |
| JsonTools.BlockIsBalanced | utils/json_tools.py:13-21 | the block starts with `{`, ends with `}`, is balanced, and reaches depth 0 only at its end |
| JsonTools.DepthNeverZeroBeforeClose | utils/json_tools.py:13-21 | the depth stays positive from the first `{` to the close |
| JsonTools.LeadingCloseIgnored | utils/json_tools.py:18-19 | a stray `}` at depth 0 does not change the block found |
| JsonTools.DepthAfterRestart | utils/json_tools.py:13-21 | depth counting is memoryless once back at 0 |
| JsonRepair.StripTrailingCommas | utils/llm.py:40 | the trailing-comma substitution |
| JsonRepair.OnlyCommasRemoved | utils/llm.py:40 | only commas are removed; everything else survives in order |
| JsonRepair.NoTrailingCommaUnchanged | utils/llm.py:40 | text with no trailing comma is left alone |
| JsonRepair.TrailingCommaRemoved | utils/llm.py:40 | a comma before optional blanks and `}` or `]` is removed, and the rest stays |
| JsonRepair.Repair | utils/llm.py:39-45 | the span from the first `{` to the last `}` when there is one, else the comma-stripped text |
| JsonRepair.RepairCutsToBraces | utils/llm.py:41-44 | with a `{` before the last `}` the result is that inclusive span |
| JsonRepair.RepairWithoutBraces | utils/llm.py:43-45 | otherwise the comma-stripped text is the result |
| JsonRepair.RepairIdentity | utils/llm.py:39-45 | clean text without braces to cut to is unchanged |
| Composer.PyStr | agents/recommendation_composer.py:27-33 | `str()` is exact on strings and ints |
| Composer.Fmt | agents/recommendation_composer.py:9-17 | None, lists and dicts give the default; ints and bools as ints; integral floats as their int; other floats and numeric strings as `str(float(v))`; rejected strings give the default |
| Composer.FmtIntegral | agents/recommendation_composer.py:13-14 | an integral float renders like the int it equals, as a sign and digits |
| Composer.BudgetText | agents/recommendation_composer.py:26-27 | an integral budget renders as its int, another as `str()`; lists and dicts raise |
| Composer.PaybackText | agents/recommendation_composer.py:28-29 | the threshold renders as its truncated int |
| Composer.PromptValues | agents/recommendation_composer.py:21-33 | no or an empty policy keeps the four defaults, and each absent entry keeps its own default |
| Composer.PolicyPlaceholders | agents/recommendation_composer.py:21-33 | valid goals never raise: the budget renders as an int when integral, the threshold as its int, the ceiling as the level |
| Composer.BuildSystemPrompt | agents/recommendation_composer.py:20-53 | a prompt is built iff the placeholder values do not raise |
| Composer.PlaceholderFree | agents/recommendation_composer.py:46-52 | a template holding none of the four placeholders is the prompt |
| Composer.SelfPlaceholders | agents/recommendation_composer.py:46-52 | placeholders that are their own values leave the template unchanged |
| Composer.RecsList | agents/recommendation_composer.py:57-59 | no items unless the reply is a dict and its entry a list |
| Composer.StrOnly | agents/recommendation_composer.py:76 | only the string items are kept, never more than given |
| Composer.CharStrings | agents/recommendation_composer.py:76 | a steps string iterates to its characters |
| Composer.Rebuild | agents/recommendation_composer.py:67-85 | a rebuilt recommendation is valid |
| Composer.RebuildSteps | agents/recommendation_composer.py:72-76 | a rebuild has action, both percentages and the cost, and keeps exactly the string steps in order |
| Composer.ShapeItem | agents/recommendation_composer.py:62-85 | non-dicts are skipped, and every kept recommendation is valid |
| Composer.ShapeAll | agents/recommendation_composer.py:61-86 | at most one per item, each the shape of some item; None iff some item raises |
| Composer.Shape | agents/recommendation_composer.py:56-86 | a non-dict reply gives no recommendations, and every one returned is valid |
| Composer.ShapeRecommendations | agents/recommendation_composer.py:56-86 | the loop computes `Shape` |
| Composer.ShapeOfDumps | agents/recommendation_composer.py:65-66 | dumps of valid recommendations come back as the same list |
| Composer.NonDictsSkipped | agents/recommendation_composer.py:63-64 | items that are not dicts contribute nothing |
| Coordinator.InitialPlan | coordinator.py:24-40 | a bill parse first iff the bill text is truthy, then normalize, lookup_tariff, audit, recommend, estimate |
| Coordinator.PlanFor | coordinator.py:24-40 | every planned step is known, and the bill parse is planned iff the bill text is truthy |
| Coordinator.UnknownStep | coordinator.py:103-105 | an unknown step ends with an error and leaves the state unchanged, and only an unknown step ends with an error |
| Coordinator.RaisedKeepsState | coordinator.py:42-127 | a step that raises leaves the state unchanged |
| Coordinator.TariffKept | coordinator.py:64-65 | a truthy tariff is kept and the lookup changes nothing |
| Coordinator.TariffFilled | coordinator.py:64-68 | a missing or zero tariff becomes a positive table tariff, and nothing else changes |
| Coordinator.LookupIdempotent | coordinator.py:64-71 | looking the tariff up twice is looking it up once |
| Coordinator.PassCount | coordinator.py:119-130 | a pass never lowers the count, adds at most one per step, ends at most at 3 from at most 2, and at most one higher from above 2 |
| Coordinator.PassStopsAtFirstError | coordinator.py:122-130 | above the budget a pass stops right after its first error |
| Coordinator.CleanPass | coordinator.py:119-121 | a pass with no error applies every step in turn |
| Coordinator.WithinBudgetOnePass | coordinator.py:131-132 | a first pass that ends within the budget is the only pass |
| Coordinator.PassesCount | coordinator.py:117-132 | over the passes the count never decreases, and each pass after the first adds at most one |
| Coordinator.ResultOf | coordinator.py:134-142 | the result echoes the input and defaults `flags` to [] |
| Coordinator.Run.constructor | coordinator.py:112-117 | the state is a copy of the input or {}, the plan is made from it, and the count is 0 |
| Coordinator.Run.ApplyStep | coordinator.py:42-105 | the step updates the shared state as `Apply` says |
| Coordinator.Run.LookupStep | coordinator.py:64-71 | the tariff step computes `LookupBranch` |
| Coordinator.Run.EstimateStep | coordinator.py:91-101 | the estimate step computes `EstimateBranch` |
| Coordinator.Run.RunPass | coordinator.py:119-130 | the inner loop computes `Pass` |
| Coordinator.Run.RunPasses | coordinator.py:118-132 | the outer loop computes `Passes` |
| Coordinator.RunAgentic | coordinator.py:107-142 | `run_agentic` computes `Agentic` |

## Left out

- Language-model calls, prompt and YAML file reading, logging, uuid and time are not modelled. The composer's template is a
  parameter. The coordinator's trace id is a parameter. The estimator's emission factor is a parameter.
- The intake, audit, compose and estimate agents and the bill parser are parameters: they involve regular expressions, PDF
  extraction and the language model. `utils/messages.py` is not part of this model beyond a step's status.
- `StructuredAction` and `PlannerCriteria` are not defined in the models file. Their validation is a parameter (`accepts`,
  `errors`). `PlannerCriteria` is read as its five fields with None defaults.
- Pydantic type coercion is modelled only for the field types the core uses: float, int, str, list of str and the literals.
  Validation error locations are taken as already rendered by `str()`.
- Python `str()` of floats, lists and dicts, and `round()` and number formatting in notes, reasons and plan lines, are the
  parameter `show` or structured data. Their wording is not modelled.
- Floats are finite reals. `float()` of the strings "inf" and "nan" is modelled. Where the code guards with `isfinite`, a
  non-finite value falls back to its default; elsewhere it counts as a failed conversion. `float()` literal forms beyond
  sign, digits, a decimal point, infinity and nan (exponents, underscores) are not modelled.
- Dict key order is not modelled. Dicts are maps, so `model_dump()` key order and `list(state.keys())` are not either.
- Objects are values. The policy agent's copies cannot alias. The in-place twin in `utils/constraints.py` is modelled on an
  array of dicts.
- Composer.StepsOf: iterating a dict-valued `steps` in the composer's rebuild is modelled as raising, rather than as iterating
  its keys, because key order is not modelled.
- ImpactEstimator.EstimateShape: the `except Exception: continue` of the action loop is not reachable for valid
  recommendations (see `MkActionValid`), so no action is skipped.
- Planner.TinyPlanner.Run: the `plan`, `act` and `check` delegations are folded into `Run`.
- Coordinator.Run.ApplyStep: the messages a step sends are reduced to their status, and the normalize, audit, recommend and
  estimate branches treat model validation as part of their agent parameter.
- Text.Strip, Text.Lower and Text.Upper handle ASCII whitespace and ASCII letters only. Python's `str.strip()`, `lower()`
  and `upper()` also act on Unicode whitespace and letters. So the model gives `"\u00a0LK:RES_LOW"` (a no-break space in
  front) the RES bucket's 65 where Python strips it and gives 52, and `_json_repair` keeps a comma that only a no-break space separates from a closing `}` or `]`.
- Checks.ReadValue: a string that `float()` reads as inf or nan is read as 0, an exception to the fallback rule for non-finite floats above. Python keeps
  the non-finite value, and the later comparisons and products then follow IEEE rules, which the model's numbers, being
  finite reals, cannot express.

Three observations that are not findings:
- `coordinator.py:8` imports `compose_recs` from `agents/recommendation_composer.py`, which defines only
  `compose_recommendations` (line 90). As written the import fails when the module loads. The model takes the composer
  as a parameter of the coordinator, so it does not depend on that name.
- `CriteriaCheck.EstimatorTotalsUnread`: the default criteria check reads totals keys (`total_capex_LKR`,
  `blended_payback_months`, `total_monthly_kwh_saved`) that the impact estimator never writes. Against an estimator plan the
  payback criterion therefore never fails, and the budget criterion fails only for a negative `max_budget_LKR`
  (`CriteriaCheck.EstimatorBudgetUnread`).
- In `run_agentic`, a pass that ends with at most two errors stops the loop even when errors occurred. A pass that ends above
  the budget is followed by another pass, which stops at its own first error (`Coordinator.PassStopsAtFirstError`). Which
  retry behaviour was meant cannot be told from the code, so `Coordinator.Passes` models it as written.

## Findings

| source | as written | input that shows it | evidently intended | confidence | as-written member | corrected member |
|---|---|---|---|---|---|---|
| utils/constraints.py:42-45 | the payback is the unclamped cost over monthly savings, so a negative cost gives a negative payback; it passes any threshold, is written into the item, and rebuilding then fails the `ge=0` bound of `payback_months` | a valid recommendation with `est_cost` -100, no declared saving, `pct_kwh_reduction_min` 10, baseline 320 kWh, tariff 62 and any threshold of at least 0: the monthly savings are 1984 LKR and the payback is -100/1984, about -0.05 months | the cost clamped at 0, as in `_value_per_LKR` (utils/constraints.py:68) and the policy agent (agents/policy_agent.py:38), so the payback is never negative | not executed | Constraints.RebateRaises | Constraints.ApplyRebuilds |
