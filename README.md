# DBGuardian-AI analysis engine — Dafny model

DBGuardian-AI reads an Oracle AWR report, with its ASH (Active Session History)
export and snapshot metadata, and turns it into a diagnosis:
- high-load periods;
- the SQL statements a DBA should look at, with a root-cause label, allowed and
  blocked tuning actions, and load-reduction and fix plans.

This project models the deterministic core of that Python engine, one Dafny module
per source file:

| module | source file | what it holds |
|---|---|---|
| `DecisionEngine` | engine/decision_engine.py | signal normalisation; the first-match category gates; the allowed and blocked action lists |
| `RcaEngine` | engine/rca_engine.py | primary and secondary root-cause labels; analysis window and CPU share; ASH recommendations |
| `SqlIntelligence` | engine/sql_intelligence_engine.py | text patterns; metric flags; query type; primary condition ("brain"); the risk rules of each handler |
| `SqlAgent` | agent/sql_agent.py | signal normalisation; the category and strict risk levels; RMAN detection; intelligent risk points |
| `LoadReduction` | engine/load_reduction_engine.py | root-cause detection; one action per cause; stable priority sort; summary |
| `FixFormatter` | engine/fix_recommendation_formatter.py | section selection; priority tags; numbered steps; stable sort; summary |
| `DbaExpert` | engine/dba_expert_engine.py | DBA score; severity; the shortlist of at most three statements; workload pattern; `analyze_workload` |
| `DynamicSql` | engine/dynamic_sql_generator.py | duplicate-free format options; the order table; advisor parameters; the generation log; action plans |
| `TimeWindow` | engine/time_window_detector.py | half-hour rounding; cross-midnight windows; CPU share; ASH and AWR period detection and merging |
| `SnapshotMetadata` | parsers/snapshot_metadata_parser.py | timestamp forms; value parsers; `parse` success and elapsed logic; core and busy-CPU bounds |
| `UnifiedMetrics` | engine/unified_metrics.py | the metrics record, updated field by field; the calculator cache and module cache; derived percentages |
| `AshAnalyzer` | engine/ash_analyzer.py | the event classifier; the CPU/IO breakdown; the time filter; spikes |
| `AwrAnalyzer` | engine/awr_analyzer.py | `top_sql` and `top_wait_events` (filter, sort, take); the risk rule; column lookup |
| `DbaFormatter` | engine/dba_formatter.py | API, summary and console reshaping of the DBA findings |
| `AwrHtmlParser` | parsers/awr_html_parser.py | column-name normaliser; generic table reader; heading lookup; pipeline file names; required-CSV check |

`Common` (common.dfy) holds the shared vocabulary:
- `Option`;
- ASCII case mapping and substring search;
- `Min`/`Max`;
- duplicate-free lists;
- a stable insertion sort with its sortedness, permutation and stability lemmas;
- prefix `Take`.

The model follows the code's conventions:
- Percentages and seconds are `real`.
- Clock times are minutes or seconds since midnight, plus a day count.
- Dictionaries read with Python's `a or b or 0` idiom become `Option` fields.
- Regular-expression, BeautifulSoup and pandas results are inputs: booleans,
  numbers, pre-split rows of cell strings.
- Generated SQL and Markdown text is opaque. Only the selection, order and count
  of items is modelled, through labels.

Where the source updates state step by step, the model is imperative:
- a class with fields and `modifies` (the unified-metrics record and caches, the
  SQL generator's log);
- or a method with a loop (the filters, merges, shortlists and accumulators).

Each loop is proved to compute a specification function (the merges, filters,
shortlists and accumulators), and the properties are proved about that function.
Methods that only build a short list state, for each item, the condition under
which it is listed.

## Model

| member | source | states |
|---|---|---|
| DecisionEngine.AverageExecTime | engine/decision_engine.py:164-168 | the average is total elapsed divided by executions when both are positive, otherwise the supplied elapsed-per-exec (0 when missing) |
| DecisionEngine.CpuPercent | engine/decision_engine.py:171-173 | a truthy pctcpu is kept; otherwise cpu/elapsed·100 only when both times are positive; otherwise 0 |
| DecisionEngine.IoWaitPercent | engine/decision_engine.py:176-182 | a truthy pctio is kept; otherwise, when elapsed > 0 and cpu ≥ 0, max(0, elapsed−cpu)/elapsed·100, which lies in [0, 100]; otherwise 0 |
| DecisionEngine.FirstHeavyWait | engine/decision_engine.py:193-197 | the index of the first wait event above 20 % of DB time, and none exists before it; none means no event is above 20 % |
| DecisionEngine.NormalizeFromRca | engine/decision_engine.py:140-211 | the signal block: sql_id defaults to "UNKNOWN"; elapsed and cpu come from the first truthy alias; the three derived fields follow the rules above; a truthy wait class is kept; without one, the class of the first wait event above 20 % of DB time is taken, and the record's own value stays when no event is that heavy |
| DecisionEngine.ConcerningTraits | engine/decision_engine.py:314-332 | the count of concerning traits is at most five (the mixed gate is "at least three of them") |
| DecisionEngine.MixedAllowedDistinct | engine/decision_engine.py:544-557 | the mixed profile's allowed-list extensions never repeat an action |
| DecisionEngine.MixedDecision | engine/decision_engine.py:539-588 | the allowed list always holds PLAN_ANALYSIS and SQL_TUNING_ADVISOR, is duplicate-free, holds each optional pair iff its threshold holds (io > 40, cpu > 40, executions > 500), and the blocked list is empty |
| DecisionEngine.Evaluate | engine/decision_engine.py:240-267 | the category is batch, chatty, IO, CPU or mixed by the first gate that holds, else LOW_PRIORITY (each category iff its gate holds and every earlier one fails); allowed and blocked actions are disjoint |
| DecisionEngine.EvaluateFromRca | engine/decision_engine.py:269-281 | evaluation runs on the normalised signals; no action is both allowed and blocked (`is_action_allowed` excludes `is_action_blocked`, lines 644-650) |
| RcaEngine.DerivePrimaryRca | engine/rca_engine.py:14-32 | CPU_BOUND_SQL iff cpu ≥ 80 and io ≤ 5; else IO_BOUND_WORKLOAD iff io ≥ 40; else MIXED_WORKLOAD |
| RcaEngine.RcaConfidence | engine/rca_engine.py:270 | confidence is HIGH iff the CPU or the IO share is positive |
| RcaEngine.NoActivityIsLowConfidenceMixed | engine/rca_engine.py:14-32 | zero CPU and zero IO give a mixed workload with LOW confidence |
| RcaEngine.SecondaryRcas | engine/rca_engine.py:248-264 | the secondary list is duplicate-free; MISSING_INDEX (resp. FULL_TABLE_SCAN) is present iff some finding type mentions INDEX (resp. FULL_TABLE_SCAN or FTS); CONCURRENCY_CONTENTION is present iff the concurrency share exceeds 20, and then it is last |
| RcaEngine.AnalysisLists | engine/dba_expert_engine.py:189-196 | the DBA stage publishes its findings under the single list key problematic_sql_findings |
| RcaEngine.FindingTypesUnder | engine/rca_engine.py:251-253 | an absent key yields no types; otherwise one type per finding, and a DBA finding carries no `type`, so each is "" |
| RcaEngine.ProblematicSqlForUi | engine/rca_engine.py:183-195 | an absent key yields the empty list; otherwise one UI entry per finding, in order |
| RcaEngine.ProblematicSqlCorrected | engine/rca_engine.py:183-195 | read under the key the DBA stage publishes, the UI list has one entry per finding, with its sql_id, severity and elapsed copied |
| RcaEngine.ProblematicSqlOfShortlist | engine/rca_engine.py:186-193 | the UI entry of a DBA finding carries the candidate's own elapsed time and executions |
| RcaEngine.AuthoritativeAnalysisWindow | engine/rca_engine.py:107-125 | the snapshot display window iff the metadata yields one; else the request's time_window iff it is truthy; else "--" |
| RcaEngine.SnapshotWindowWins | engine/rca_engine.py:107-118 | parsed metadata with both times always wins, and its ends lie on half-hour marks |
| RcaEngine.CpuPercentageFromMetadata | engine/rca_engine.py:127-154 | none unless the metadata parsed and carries host idle or instance busy; host 100 − idle comes first and lies in [0, 100]; otherwise min(100, busy); always ≤ 100 |
| RcaEngine.FilterPeriodsByTime | engine/rca_engine.py:410-420 | without a filter the list is returned as is; with one, same length and order, and each entry is a copy flagged filtered_by_time |
| RcaEngine.TopEventRecs | engine/rca_engine.py:334-363 | at most one item: CPU iff the top event is CPU above 20 %, IO iff IO above 15 %, concurrency iff the top event is a concurrency event |
| RcaEngine.HighSpikes | engine/rca_engine.py:367 | exactly the spikes above 10 % |
| RcaEngine.SpikeRecs | engine/rca_engine.py:366-375 | one spike item iff some spike exceeds 10 %, carrying the first three such spikes |
| RcaEngine.WorkloadRecs | engine/rca_engine.py:378-403 | no item for an empty breakdown; otherwise at most one: CPU > 50, else IO > 40, else concurrency > 30 |
| RcaEngine.GenerateAshRecommendations | engine/rca_engine.py:322-405 | a single low-priority info item without dominant events; otherwise the top-event, spike and workload items in that order, at most three and never an info item |
| RcaEngine.Run | engine/rca_engine.py:155-274 | primary label and confidence come from the breakdown's CPU and IO shares; time filter flag and ASH/AWR source as written; window and CPU share by the rules above; the findings are read under "findings", so the UI list is empty and the only secondary cause is concurrency |
| SqlIntelligence.DetectSqlPatterns | engine/sql_intelligence_engine.py:63-140 | plsql_blocks holds iff the upper-cased text contains DECLARE or BEGIN; the other keys combine substring tests with the regex counts given as inputs |
| SqlIntelligence.DistinctAndSortingNeedCompanions | engine/sql_intelligence_engine.py:91-101 | heavy_distinct needs DISTINCT plus ORDER BY or GROUP BY when there is no join keyword; heavy_sorting with at most one join keyword needs both ORDER BY and GROUP BY |
| SqlIntelligence.PlsqlByContains | engine/sql_intelligence_engine.py:127-132 | the `startswith` tests on the stripped text add nothing to the two substring tests |
| SqlIntelligence.PatternsDetected | engine/sql_intelligence_engine.py:276 | exactly the pattern keys whose flag is set, without duplicates, at most ten |
| SqlIntelligence.AnalyzeMetricsContext | engine/sql_intelligence_engine.py:142-177 | each flag iff its threshold (high CPU: cpu > 20 or pctcpu > 90; high elapsed > 50; high frequency > 800 executions; ...); query type by first match: high-frequency/low-impact, low-frequency/high-impact, CPU, IO, else stable |
| SqlIntelligence.DeterminePrimaryCondition | engine/sql_intelligence_engine.py:202-225 | RMAN background first, then high CPU with high elapsed, then high frequency, then IO-bound/full scan/many joins, then stable, else general; each condition iff its gate holds and every earlier one fails |
| SqlIntelligence.GeneralMeansLowFrequencyHighImpact | engine/sql_intelligence_engine.py:202-225 | the general condition is reached only by a low-frequency/high-impact statement, so elapsed > 50 and executions < 200 |
| SqlIntelligence.CpuBottleneckIsHighCpuCondition | engine/sql_intelligence_engine.py:202-225 | a CPU-bottleneck query type without RMAN markers always gets the high-CPU/high-elapsed condition |
| SqlIntelligence.CpuIndexRecs | engine/sql_intelligence_engine.py:236-244 | each index advice iff its pattern; the rebuild advice alone iff no pattern applies |
| SqlIntelligence.CpuRewriteRecs | engine/sql_intelligence_engine.py:247-257 | each rewrite advice iff its pattern; the plan-review advice alone iff no pattern applies |
| SqlIntelligence.HandleCpuBottleneck | engine/sql_intelligence_engine.py:227-277 | condition HIGH_CPU_HIGH_ELAPSED, risk HIGH; function-based, selective and join index advice each iff its pattern, the rebuild advice alone otherwise; correlated-subquery, DISTINCT, function-move and sorting rewrites each iff its pattern, the plan review alone otherwise; the three fixed DBA items; the detected patterns |
| SqlIntelligence.HandleFrequencyLoad | engine/sql_intelligence_engine.py:279-315 | condition HIGH_FREQUENCY_LOW_ELAPSED, risk MEDIUM; bind-variable advice iff literals, then the three fixed rewrites |
| SqlIntelligence.IoIndexRecs | engine/sql_intelligence_engine.py:326-331 | selective-index advice iff full table scans, composite-index advice iff too many joins, and the Access Advisor run always last |
| SqlIntelligence.IoRewriteRecs | engine/sql_intelligence_engine.py:334-340 | join-order advice iff too many joins, EXISTS/JOIN advice iff correlated subqueries, and the plan review alone iff neither |
| SqlIntelligence.HandleIoBottleneck | engine/sql_intelligence_engine.py:317-360 | condition HIGH_IO_PATTERN; risk HIGH iff elapsed > 50, else MEDIUM; the index list always ends with the Access Advisor run; pattern-driven index and rewrite advice |
| SqlIntelligence.HandleBackgroundLoad | engine/sql_intelligence_engine.py:362-392 | condition RMAN_SYSTEM_SQL, risk HIGH, no index or rewrite advice, the two fixed DBA items |
| SqlIntelligence.HandleStableQuery | engine/sql_intelligence_engine.py:394-423 | condition STABLE_PERFORMANCE, risk LOW, fixed advice |
| SqlIntelligence.GeneralRisk | engine/sql_intelligence_engine.py:451 | HIGH iff elapsed > 30, MEDIUM iff 10 < elapsed ≤ 30, LOW iff elapsed ≤ 10 |
| SqlIntelligence.GeneralIndexRecs | engine/sql_intelligence_engine.py:434-440 | index advice iff full scan or joins; monitoring alone iff neither |
| SqlIntelligence.GeneralRewriteRecs | engine/sql_intelligence_engine.py:442-448 | bind-variable advice iff literals, subquery rewrite iff correlated subqueries; plan review alone iff neither |
| SqlIntelligence.GeneralDbaRecs | engine/sql_intelligence_engine.py:455-461 | tuning advice iff elapsed > 20, statistics iff cpu > 10; monitoring alone iff neither |
| SqlIntelligence.HandleGeneralOptimization | engine/sql_intelligence_engine.py:425-471 | condition GENERAL_OPTIMIZATION with the three-band risk; WHERE-column and join index advice each iff full scan or joins, monitoring alone otherwise; bind-variable and subquery rewrites each iff its pattern, plan review alone otherwise; tuning iff elapsed > 20, statistics iff cpu > 10, standard monitoring alone otherwise; the detected patterns |
| SqlIntelligence.ApplyIntelligenceBrain | engine/sql_intelligence_engine.py:179-200 | the returned condition is the primary condition and the patterns are those detected; each condition carries its handler's risk |
| SqlIntelligence.DefaultAnalysis | engine/sql_intelligence_engine.py:473-483 | LIMITED_DATA, risk LOW, no patterns |
| SqlIntelligence.AnalyzeSqlPatterns | engine/sql_intelligence_engine.py:42-61 | empty or missing text gives the default analysis, and only then LIMITED_DATA; otherwise the condition is the primary condition of the detected patterns and metrics; the general condition always carries HIGH risk |
| SqlIntelligence.RmanMarkerWins | engine/sql_intelligence_engine.py:117-124 | text containing RMAN@ is always RMAN_SYSTEM_SQL, and rman_background is listed among the patterns |
| SqlAgent.FixRisk | agent/sql_agent.py:146-153 | HIGH iff elapsed > 50, pctcpu > 90 or pcttotal > 30; LOW iff not HIGH, not the "elapsed < 50 and executions > 500" case, and elapsed < 5, cpu < 5, executions < 500; MEDIUM otherwise; never CRITICAL |
| SqlAgent.FixRiskExecutionsFloor | agent/sql_agent.py:146-153 | 500 or more executions never give LOW |
| SqlAgent.NormalizeSignalsFromQueryData | agent/sql_agent.py:229-278 | elapsed and cpu from the first truthy alias; the per-exec time is replaced by elapsed/executions only when it was 0 and both are positive; the pctio and pctcpu fallbacks apply only under their guards, and a zero pctio outside its guard stays 0 |
| SqlAgent.IoFallback | agent/sql_agent.py:252-254 | the derived IO share max(0, elapsed−cpu)/elapsed·100 lies in [0, 100] |
| SqlAgent.MapCategoryToRiskLevel | agent/sql_agent.py:371-395 | batch/IO: HIGH iff elapsed > 50 or io > 90, MEDIUM iff elapsed > 20 or io > 70, else falls through to LOW; CPU: HIGH iff cpu% > 90 or cpu > 50, else MEDIUM; chatty: HIGH iff executions > 5000, else MEDIUM; mixed: MEDIUM; low priority: LOW |
| SqlAgent.GatedRiskNeverLow | agent/sql_agent.py:371-395 | after the decision engine's gates, a LOW level can only come from a batch or low-priority statement (an IO-bound statement always has io > 70) |
| SqlAgent.StrictScore | agent/sql_agent.py:524-556 | the sum of the four exclusive band points lies in [0, 130] |
| SqlAgent.StrictLevel | agent/sql_agent.py:558-565 | CRITICAL iff score ≥ 60; HIGH iff 40 ≤ score < 60; MEDIUM iff score < 40 and (score ≥ 20 or executions > 500); LOW otherwise |
| SqlAgent.AddBand | agent/sql_agent.py:528-555 | one band adds its points and at most one factor |
| SqlAgent.CalculateStrictRiskLevel | agent/sql_agent.py:521-576 | the accumulated score is the band sum, the level is the strict level of it, and the factors list one entry per contributing band in order, at most four |
| SqlAgent.StrictFactorsMatchScore | agent/sql_agent.py:524-556 | no factor iff the score is 0; the very-high-elapsed and critical-CPU factors appear iff their bands hold; no factor repeats |
| SqlAgent.StrictLevelFloors | agent/sql_agent.py:528-565 | elapsed > 50 is at least HIGH, with pctcpu > 90 as well it is CRITICAL, and more than 500 executions are never LOW |
| SqlAgent.DetectRmanMaintenanceStrict | agent/sql_agent.py:502-519 | true iff the module contains a module keyword, or the text is non-empty and its upper-cased form contains a text keyword |
| SqlAgent.TextKeywordsReduce | agent/sql_agent.py:512-516 | the six text keywords reduce to X$K, KSXM:TAKE_SNPSHOT, BACKUP and RESTORE, since the others contain BACKUP |
| SqlAgent.IntelligentPoints | agent/sql_agent.py:848-893 | the accumulated risk points lie in [0, 160] |
| SqlAgent.IntelligentLevel | agent/sql_agent.py:896-910 | the high-frequency/low-impact profile is always MEDIUM; otherwise HIGH iff points ≥ 60, MEDIUM iff 25 ≤ points < 60, LOW iff points < 25 |
| SqlAgent.CalculateIntelligentRiskScore | agent/sql_agent.py:839-923 | the accumulated points and level are those above; the frequency factors appear iff the profile holds, and then they come last; the IO-wait factor appears iff cpu > 0 and elapsed > 3·cpu; no factor iff no points |
| SqlAgent.HighFrequencyOverrideLowers | agent/sql_agent.py:887-910 | 1001 runs, 14 s elapsed and 1 s CPU collect 65 points yet are MEDIUM: the override can lower a high score |
| LoadReduction.CauseName | engine/load_reduction_engine.py:29-39 | every root-cause category has a non-empty value string |
| LoadReduction.CauseNameInjective | engine/load_reduction_engine.py:29-39 | two categories share a value string iff they are the same category |
| LoadReduction.ActionFor | engine/load_reduction_engine.py:184-517 | each builder's action carries its own category; priority 1 iff IO_DOMINANT or MISSING_INDEX (the advisor), 3 iff BAD_EXECUTION_PLAN, otherwise 2 (lines 255, 311, 374, 433, 512) |
| LoadReduction.ActionsOf | engine/load_reduction_engine.py:112-146 | one action per cause, in the causes' order, each built for its cause |
| LoadReduction.ActionsOfAppend | engine/load_reduction_engine.py:121-146 | appending a cause appends exactly its action |
| LoadReduction.CauseSelection | engine/load_reduction_engine.py:120-146 | IO_DOMINANT iff io > 60 or a full table scan, and MISSING_INDEX iff IO_DOMINANT; PX_INEFFECTIVE iff avg > 5 and executions < 50; BAD_EXECUTION_PLAN iff plan instability; HIGH_CPU iff cpu > 50; MIXED never; no cause repeats |
| LoadReduction.GenerateSummary | engine/load_reduction_engine.py:518-566 | the "no significant opportunities" sentence iff there are no causes; otherwise one cause name per cause, and each metric and gain line iff its cause is present |
| LoadReduction.SummaryMetrics | engine/load_reduction_engine.py:540-547 | the IO line iff IO_DOMINANT or MISSING_INDEX; the CPU line iff HIGH_CPU; the average-exec line iff PX_INEFFECTIVE |
| LoadReduction.SummaryGains | engine/load_reduction_engine.py:554-564 | the indexing, parallel, CPU and plan-stability gain lines iff their causes are present |
| LoadReduction.AddCause | engine/load_reduction_engine.py:121-146 | recording a cause appends it and keeps causes and actions paired |
| LoadReduction.DetectCauses | engine/load_reduction_engine.py:112-146 | the appended causes are exactly the detected causes, each paired with its action |
| LoadReduction.AnalyzeAndGenerateActions | engine/load_reduction_engine.py:85-160 | the result equals the specification, which takes no total_elapsed argument, so total_elapsed cannot influence causes, actions or summary |
| LoadReduction.ActionsOfResult | engine/load_reduction_engine.py:112-159 | len(causes) = len(actions) = total_actions; the actions are sorted by priority, are a permutation of one action per cause, and keep the causes' order among equal priorities (stable sort) |
| LoadReduction.AllCausesOrder | engine/load_reduction_engine.py:120-149 | with every cause detected, the causes keep detection order while the sorted actions put CPU before plan stability |
| LoadReduction.SortFiveActions | engine/load_reduction_engine.py:149 | the stable sort of the five actions by priority |
| LoadReduction.NoCauseSummary | engine/load_reduction_engine.py:528-529 | below every threshold, the summary is the "no opportunities" sentence and there are no actions |
| LoadReduction.ToDict | engine/load_reduction_engine.py:568-586 | the dictionary copies id, summary and total, names each cause by its value, and lists one entry per action with its category value and priority, in order |
| LoadReduction.ToDictNames | engine/load_reduction_engine.py:572 | a cause's name is listed iff the cause was detected |
| LoadReduction.PatternNumbers | engine/dba_expert_engine.py:851-860 | a finding's execution pattern carries only `executions` and `avg_time_per_exec` |
| LoadReduction.LoadReductionForFindingAsWritten | engine/load_reduction_engine.py:592-630 | as written, the metrics are read from execution-pattern keys that are never present, so IO_DOMINANT appears iff the interpretation mentions a full or table scan, plan instability iff "plan" with "unstable" or "regression", and HIGH_CPU and PX_INEFFECTIVE never |
| LoadReduction.LoadReductionForFinding | engine/load_reduction_engine.py:592-630 | with the metrics read from the finding's technical parameters, each cause follows its threshold or interpretation test |
| LoadReduction.FindingMetricsIgnored | engine/load_reduction_engine.py:606-612 | a finding with io 95 % and cpu 80 % gets no cause as written, but IO_DOMINANT and HIGH_CPU when corrected |
| FixFormatter.TagRank | engine/fix_recommendation_formatter.py:170-171 | the sort rank: CRITICAL is 0, HIGH 1, MEDIUM 2 |
| FixFormatter.StepsOf | engine/fix_recommendation_formatter.py:192-691 | each section's steps are numbered 1..n consecutively; the advisor section has four steps, the general one two, the others three |
| FixFormatter.IoReductionSection | engine/fix_recommendation_formatter.py:186-271 | category IO_REDUCTION, tag CRITICAL iff io > 80, else HIGH (line 263) |
| FixFormatter.SqlAccessAdvisorSection | engine/fix_recommendation_formatter.py:272-375 | category SQL_ACCESS_ADVISOR, always CRITICAL (line 367) |
| FixFormatter.ParallelExecutionSection | engine/fix_recommendation_formatter.py:376-451 | category PARALLEL_EXECUTION, HIGH (line 443) |
| FixFormatter.PlanStabilitySection | engine/fix_recommendation_formatter.py:452-542 | category PLAN_STABILITY, HIGH (line 534) |
| FixFormatter.CpuReductionSection | engine/fix_recommendation_formatter.py:543-627 | category CPU_REDUCTION, HIGH iff cpu > 70, else MEDIUM (line 619) |
| FixFormatter.GeneralOptimizationSection | engine/fix_recommendation_formatter.py:628-705 | MEDIUM (line 696), filed under the IO_REDUCTION category as written |
| FixFormatter.KindsOfSectionsFor | engine/fix_recommendation_formatter.py:140-162 | the threshold-driven sections come in checking order: IO, advisor, parallel, plan, CPU |
| FixFormatter.KindsForProps | engine/fix_recommendation_formatter.py:140-162 | each section kind is present iff its condition holds, the general section never, no kind repeats, and the list is empty iff no condition holds |
| FixFormatter.IssuesForMembers | engine/fix_recommendation_formatter.py:142-161 | each issue label iff its condition; HIGH_IMPACT never among them; the IO label stands for two sections |
| FixFormatter.IssuesForAscending | engine/fix_recommendation_formatter.py:142-161 | the labels come in detection order |
| FixFormatter.SectionSelection | engine/fix_recommendation_formatter.py:140-167 | IO Reduction and SQL Access Advisor both present iff io > 60, a full scan or high IO; parallel iff avg > 5 and executions < 50; plan iff plan instability; CPU iff cpu > 50; General iff no other section and total_elapsed > 30; no section repeats |
| FixFormatter.IssueLabels | engine/fix_recommendation_formatter.py:142-166 | one label per triggered condition in detection order, HIGH_IMPACT iff the general section is chosen, and as many sections as labels plus one for the IO pair |
| FixFormatter.SummaryOf | engine/fix_recommendation_formatter.py:706-728 | the monitoring sentence iff there are no sections; otherwise the issue names, the section count and one improvement line per section |
| FixFormatter.GenerateSummary | engine/fix_recommendation_formatter.py:706-728 | the improvement loop builds exactly the summary above |
| FixFormatter.SelectSpecific | engine/fix_recommendation_formatter.py:132-162 | the appended issues and sections are exactly the detected ones, before the fallback |
| FixFormatter.GenerateFixRecommendations | engine/fix_recommendation_formatter.py:100-181 | the result equals the specification: selection, fallback, stable sort by tag, summary |
| FixFormatter.SectionsSorted | engine/fix_recommendation_formatter.py:170-171 | the sections are ordered CRITICAL, HIGH, MEDIUM, are a permutation of the selected ones, and keep selection order among equal tags |
| FixFormatter.CriticalFirst | engine/fix_recommendation_formatter.py:170-171 | sorting a list that holds the advisor section puts a CRITICAL section first |
| FixFormatter.IoDominantLeadsWithCritical | engine/fix_recommendation_formatter.py:140-171 | an IO-dominant statement's recommendation opens with a CRITICAL section |
| FixFormatter.CauseKinds | engine/load_reduction_engine.py:29-39 | each load-reduction cause maps to the formatter section of the same concern |
| FixFormatter.SameThresholdsAsLoadReduction | engine/fix_recommendation_formatter.py:140-162 | without the high-IO flag, the formatter selects exactly the sections matching the load-reduction causes (engine/load_reduction_engine.py:76-79,120-146), in the same order |
| FixFormatter.SectionToDict | engine/fix_recommendation_formatter.py:737-756 | a section's entry carries its category value, its tag and one entry per step with its number and priority |
| FixFormatter.ToDict | engine/fix_recommendation_formatter.py:730-758 | the dictionary copies id and summary, total_sections = len(fix_sections), one entry per section and one name per issue, in order |
| FixFormatter.MonitoringSentenceIffNoSection | engine/fix_recommendation_formatter.py:713-736 | the summary is the monitoring sentence exactly when total_sections is 0 |
| FixFormatter.FixRecommendationsForFinding | engine/fix_recommendation_formatter.py:820-864 | the IO issue iff io_percentage > 60 or the interpretation mentions a scan or heavy IO; HIGH_CPU iff cpu_percentage > 50; plan instability iff the interpretation mentions it |
| FixFormatter.PlanKeywordSetsDiffer | engine/fix_recommendation_formatter.py:848 | an interpretation opening with "plan instab" and without the letters u and g selects the plan section here but no plan action in the load-reduction helper (engine/load_reduction_engine.py:616) |
| FixFormatter.IssueNamesIn | engine/fix_recommendation_formatter.py:734 | an issue's name is listed iff the issue was detected |
| DbaExpert.ClassifyWorkloadPattern | engine/dba_expert_engine.py:257-272 | never NO_SIGNIFICANT_WORKLOAD; CPU-intensive heavy load iff elapsed > 500 and cpu > 200; IO-intensive iff elapsed > 500 and cpu ≤ 200; high frequency iff not heavy and executions > 10000; wait-event dominated iff neither and the dominant wait exceeds 30 % of DB time; moderate otherwise |
| DbaExpert.DominantWaitOf | engine/dba_expert_engine.py:234-240 | no dominant wait iff there are no wait events; otherwise the first event's time and share |
| DbaExpert.AnalyzeWorkloadPatterns | engine/dba_expert_engine.py:211-255 | empty top SQL gives NO_SIGNIFICANT_WORKLOAD with zero totals; otherwise the three sums over the statements, the first wait event, the statement count and the classified pattern |
| DbaExpert.WorkloadSummaryOrderIndependent | engine/dba_expert_engine.py:228-244 | the workload summary depends only on the multiset of statements, not on their order |
| DbaExpert.ElapsedReasons | engine/dba_expert_engine.py:307-316 | an elapsed reason iff elapsed ≥ the high threshold |
| DbaExpert.FrequencyReasons | engine/dba_expert_engine.py:318-327 | a frequency reason iff executions reach the critical count, or the medium count with elapsed > 10 |
| DbaExpert.PerExecReasons | engine/dba_expert_engine.py:330-339 | a per-execution reason iff per-exec reaches the critical time, or the medium time with more than 50 executions |
| DbaExpert.CpuPctReasons | engine/dba_expert_engine.py:342-352 | a CPU-share reason iff pctcpu reaches the medium share |
| DbaExpert.WorkloadReasons | engine/dba_expert_engine.py:355-363 | a workload reason iff pcttotal reaches the high share |
| DbaExpert.IoReasons | engine/dba_expert_engine.py:366-370 | an IO reason iff pctio ≥ 40 |
| DbaExpert.CpuTimeReasons | engine/dba_expert_engine.py:373-381 | a CPU-time reason iff cpu reaches the critical time, or the high time with elapsed > 30 |
| DbaExpert.ReasonsOf | engine/dba_expert_engine.py:300-381 | some reason iff the statement is problematic; at most seven reasons |
| DbaExpert.ApplyCriterion | engine/dba_expert_engine.py:307-381 | one criterion: the flag is set iff either band hits; the high label takes precedence over the medium one; the severity update follows the band |
| DbaExpert.AssessSql | engine/dba_expert_engine.py:300-381 | the loop body's flag, reasons and severity equal their specifications; problematic iff the severity is not NONE; any critical band (elapsed, per-exec, pctcpu, pcttotal, cpu) gives HIGH |
| DbaExpert.DbaScore | engine/dba_expert_engine.py:421-444 | the score is 0.4·elapsed + 0.5·cpu + pcttotal + min(executions/500, 10) + min(2.5·per_exec, 5), so the last two terms add at most 15 |
| DbaExpert.DbaScoreMonotone | engine/dba_expert_engine.py:421-444 | the score never drops when any input grows |
| DbaExpert.CandidatesUpTo | engine/dba_expert_engine.py:283-392 | every candidate met some criterion, has reasons and a HIGH or MEDIUM severity; there are none iff no statement is problematic |
| DbaExpert.ComputeKeepCount | engine/dba_expert_engine.py:404-414 | the number kept is min(3, n), lowered to 2 when the third score is below 0.4 × the first (the lowering to 1 is dead, because every candidate is HIGH or MEDIUM) |
| DbaExpert.CollectCandidates | engine/dba_expert_engine.py:283-392 | the scoring loop appends exactly the candidates of the specification, in input order |
| DbaExpert.ScoreRow | engine/dba_expert_engine.py:285-392 | a row is appended iff it is problematic, and then as its candidate record |
| DbaExpert.SortedCandidates | engine/dba_expert_engine.py:395 | the sort returns a permutation of the candidates in descending score order |
| DbaExpert.DescendingScores | engine/dba_expert_engine.py:395 | sorted by negated score means scores never increase along the list |
| DbaExpert.ShortlistOf | engine/dba_expert_engine.py:398-419 | at most 3 entries; the shortlist followed by the ignored list is the full sorted list; empty iff there are no candidates; with three or more candidates only 2 are kept iff the third score is < 0.4 × the first; scores descend; every kept severity is HIGH or MEDIUM |
| DbaExpert.ShortlistProps | engine/dba_expert_engine.py:274-419 | at most three statements, all problematic, and none only when no statement is problematic |
| DbaExpert.AnalyzeExecutionPattern | engine/dba_expert_engine.py:804-861 | pattern by first match: more than 5000 executions, more than 1000, sustained slow, bursty, moderate sustained, else frequent light; bursty and sustained exclude each other; high frequency needs more than 500 executions |
| DbaExpert.EffectiveCpuPercent | engine/dba_expert_engine.py:560-561 | the reported pctcpu when positive, else cpu/elapsed·100, else 0 |
| DbaExpert.TechnicalParameters | engine/dba_expert_engine.py:564-578 | the numeric technical parameters: elapsed and cpu under both names, executions, per-exec, and the IO share from ASH when positive, else pctio |
| DbaExpert.DeepAnalysis | engine/dba_expert_engine.py:521-673 | a finding keeps the candidate's id, severity and score, and carries its technical parameters |
| DbaExpert.MapSeverityToPriority | engine/dba_expert_engine.py:1217-1226 | CRITICAL, HIGH and MEDIUM map to themselves; every other string maps to LOW |
| DbaExpert.ShortlistPriority | engine/dba_expert_engine.py:1217-1226 | a shortlisted statement's priority is HIGH or MEDIUM, as its severity |
| DbaExpert.DbaExpertEngine.constructor | engine/dba_expert_engine.py:90-115 | the engine starts with empty problematic and ignored lists |
| DbaExpert.DbaExpertEngine.FilterProblematicSql | engine/dba_expert_engine.py:274-419 | returns and stores the shortlist of the sorted candidates, and stores the rest as ignored, so the two fields together form the sorted candidate list |
| DbaExpert.DbaExpertEngine.AnalyzeWorkload | engine/dba_expert_engine.py:117-209 | a validator failure gives the INVALID result with zero counts and no findings, leaving the fields alone; otherwise SUCCESS, the workload summary with sql_count = len(raw_sql), problematic_count = len(findings), total_analyzed = len(raw_sql), one deep analysis per shortlisted statement |
| DbaExpert.AnalyzeEach | engine/dba_expert_engine.py:183-186 | one deep analysis per shortlisted statement, in order |
| DynamicSql.IndexOf | engine/dynamic_sql_generator.py:828-832 | `order.index`: the first position holding the item, or the table length when absent |
| DynamicSql.OrderKeyUnknown | engine/dynamic_sql_generator.py:828-832 | an item gets the key len(order) iff it is not in the order table |
| DynamicSql.OrderedParts | engine/dynamic_sql_generator.py:820-834 | the sorted parts are a permutation of the parts, ordered by their index in the order table, with unknown parts last |
| DynamicSql.OrderedPartsStable | engine/dynamic_sql_generator.py:834 | `sorted` is stable: parts with equal keys keep their relative order |
| DynamicSql.AssembleFormatString | engine/dynamic_sql_generator.py:814-835 | the format string opens with the first part in table order |
| DynamicSql.BaseFormat | engine/dynamic_sql_generator.py:779-807 | a non-empty, duplicate-free base: "BASIC" for CHATTY and LOW_PRIORITY, "ALLSTATS LAST" first for every other category |
| DynamicSql.AddUnique | engine/dynamic_sql_generator.py:809-812 | the item is appended only when absent: the old elements keep their places and order, the new list holds exactly the old items and the item, and a duplicate-free list stays duplicate-free |
| DynamicSql.AddAll | engine/dynamic_sql_generator.py:667-747 | repeated `_add_unique` calls keep the prefix, add exactly the given items and keep the list duplicate-free |
| DynamicSql.XplanParts | engine/dynamic_sql_generator.py:659-747 | the format parts start with the category base, hold exactly the base and the band options, and have no duplicates |
| DynamicSql.AddIoOptions | engine/dynamic_sql_generator.py:667-683 | the IO block adds exactly the IO band's options |
| DynamicSql.AddCpuOptions | engine/dynamic_sql_generator.py:686-702 | the CPU block adds exactly the CPU band's options |
| DynamicSql.AddExecOptions | engine/dynamic_sql_generator.py:705-722 | the executions block adds exactly the executions band's options |
| DynamicSql.AddElapsedOptions | engine/dynamic_sql_generator.py:725-736 | the elapsed block adds exactly the elapsed band's options |
| DynamicSql.AddAvgOptions | engine/dynamic_sql_generator.py:739-747 | the average-time block adds OUTLINE at 10 s or more, nothing otherwise |
| DynamicSql.GenerateXplanFormat | engine/dynamic_sql_generator.py:645-750 | the step-by-step assembly yields the specified format string |
| DynamicSql.XplanPartsMembers | engine/dynamic_sql_generator.py:659-747 | a part is present iff it is in the base or its band condition holds |
| DynamicSql.IoOptionsMember | engine/dynamic_sql_generator.py:667-683 | exclusive IO bands: io ≥ 90 adds IOSTATS, PARALLEL and PARTITION; ≥ 70 IOSTATS and PARALLEL; ≥ 50 IOSTATS; ≥ 30 IOSTATS only for batch |
| DynamicSql.CpuOptionsMember | engine/dynamic_sql_generator.py:686-702 | exclusive CPU bands: cpu ≥ 90 adds COST, PREDICATE and PROJECTION; ≥ 70 COST and PREDICATE; ≥ 50 COST; ≥ 30 COST only for batch or CPU-bound |
| DynamicSql.ExecOptionsMember | engine/dynamic_sql_generator.py:705-722 | exclusive execution bands: ≥ 5000 adds PEEKED_BINDS, ADAPTIVE and BIND_AWARE; ≥ 1000 the first two; ≥ 500 PEEKED_BINDS; fewer than 50 runs with avg ≥ 5 add OUTLINE and ALIAS |
| DynamicSql.ElapsedOptionsMember | engine/dynamic_sql_generator.py:725-736 | MEMSTATS iff total ≥ 50; PARALLEL iff total ≥ 500, or ≥ 100 for batch |
| DynamicSql.XplanIoOptions | engine/dynamic_sql_generator.py:667-683 | PARTITION iff io ≥ 90; IOSTATS iff IO-bound or io ≥ 50 or (io ≥ 30 and batch) |
| DynamicSql.XplanElapsedOptions | engine/dynamic_sql_generator.py:667-736 | PARALLEL iff io ≥ 70 or total ≥ 500 or (total ≥ 100 and batch); MEMSTATS iff total ≥ 50 |
| DynamicSql.XplanCpuOptions | engine/dynamic_sql_generator.py:686-702 | PROJECTION iff cpu ≥ 90; PREDICATE iff CPU-bound or cpu ≥ 70; COST iff CPU-bound, mixed, cpu ≥ 50, or cpu ≥ 30 in batch |
| DynamicSql.XplanExecOptions | engine/dynamic_sql_generator.py:705-716 | BIND_AWARE iff ≥ 5000 executions, ADAPTIVE iff ≥ 1000, PEEKED_BINDS iff ≥ 500 |
| DynamicSql.XplanOutlineOptions | engine/dynamic_sql_generator.py:717-744 | ALIAS iff fewer than 50 runs with avg ≥ 5; OUTLINE iff that or avg ≥ 10 |
| DynamicSql.XplanBase | engine/dynamic_sql_generator.py:779-807 | BASIC iff CHATTY or LOW_PRIORITY; ALLSTATS LAST iff any other category |
| DynamicSql.XplanFormatLead | engine/dynamic_sql_generator.py:814-835 | the assembled format opens with BASIC for CHATTY and LOW_PRIORITY, else with ALLSTATS LAST |
| DynamicSql.AdvisorTimeLimit | engine/dynamic_sql_generator.py:1662-1672 | the limit is one of 600, 300, 180, 60 by first match: 600 iff elapsed > 500 or io > 90; at least 300 iff elapsed > 100 or io > 70; 60 iff no band holds |
| DynamicSql.AdvisorTimeLimitMonotone | engine/dynamic_sql_generator.py:1662-1672 | heavier signals never get a shorter advisor time limit |
| DynamicSql.AnalysisScopeOf | engine/dynamic_sql_generator.py:1674-1683 | FULL iff io > 80; INDEX_ONLY iff 50 < io ≤ 80; PARTITION_ONLY iff io ≤ 50 and cpu > 70; else COMPREHENSIVE |
| DynamicSql.WorkloadScopeOf | engine/dynamic_sql_generator.py:1685-1692 | LIMITED iff executions < 10; COMPREHENSIVE iff executions > 100; else STANDARD |
| DynamicSql.WorkloadScopeMonotone | engine/dynamic_sql_generator.py:1685-1692 | more executions never narrow the workload scope |
| DynamicSql.PlanStep | engine/dynamic_sql_generator.py:645-777 | one plan-analysis step exactly when the decision allows plan analysis, carrying the assembled format; nothing otherwise |
| DynamicSql.IoBoundCommands | engine/dynamic_sql_generator.py:845-991 | opens with the object IO analysis and the segment statistics; every plan step is allowed and carries the format; every command is labelled IO-bound |
| DynamicSql.IoBoundContents | engine/dynamic_sql_generator.py:845-991 | the IO-bound list holds the plan iff plan analysis is allowed, the IO-focused advisor iff IO wait is above 90 % with under 10 executions and the advisor is allowed, and the deferral note iff it is not that case and IO wait is above 70 % |
| DynamicSql.IoBoundAdvisor | engine/dynamic_sql_generator.py:961-970 | the closing step is the IO-focused advisor exactly when IO wait is above 90 % with under 10 executions and the advisor is allowed, the deferral note exactly when it is not that case and IO wait is above 70 %, and nothing otherwise |
| DynamicSql.CpuBoundCommands | engine/dynamic_sql_generator.py:993-1154 | opens with the CPU cost analysis and the join method analysis; every plan step is allowed and carries the format |
| DynamicSql.CpuBoundContents | engine/dynamic_sql_generator.py:993-1154 | the CPU-bound list holds Cartesian detection iff CPU is above 80 %, the plan iff plan analysis is allowed, and the tuning advisor iff it is allowed, in which case it comes last |
| DynamicSql.ChattyCommands | engine/dynamic_sql_generator.py:1156-1329 | exactly the four steps: execution frequency, cursor efficiency, application pattern, and the DBA decision notice; no plan, no advisor |
| DynamicSql.BatchCommands | engine/dynamic_sql_generator.py:1331-1452 | opens with the parallel effectiveness check and the batch wait analysis; every plan step is allowed and carries the format |
| DynamicSql.BatchContents | engine/dynamic_sql_generator.py:1331-1452 | the batch list holds the plan iff plan analysis is allowed; the full advisor iff an advisor is allowed and IO wait is above 90 % with under 10 executions; the IO-focused one iff an advisor is allowed, not that case, and IO wait above 70 %; the limited one iff an advisor is allowed and IO wait is at most 70 % |
| DynamicSql.BatchAdvisor | engine/dynamic_sql_generator.py:1436-1452 | an advisor iff the access advisor or an index review is allowed: full for IO above 90 % with under 10 executions, IO-focused above 70 % otherwise, limited at or below 70 % |
| DynamicSql.MixedProfileCommands | engine/dynamic_sql_generator.py:2949-2963 | opens with the comprehensive analysis; holds the index usage check iff IO is above 40 % and the join analysis iff CPU is above 40 %; no plan step; each labelled mixed, batch or CPU-bound (the helpers label themselves) |
| DynamicSql.CommandsFor | engine/dynamic_sql_generator.py:188-211 | the category's command list is never empty and never opens with the plan; plan steps only when allowed; a chatty statement gets no plan, tuning or access advisor commands |
| DynamicSql.EvaluatedIoBoundHasNoPlan | engine/dynamic_sql_generator.py:845-991 | for an IO-bound decision from the engine's gates, no plan step is generated (the IO-bound allowed list lacks PLAN_ANALYSIS) |
| DynamicSql.IoBoundAdvisorTime | engine/dynamic_sql_generator.py:2383-2502 | the IO-focused advisor of an IO-bound statement always has the 600-second limit |
| DynamicSql.BatchFullAdvisorSettings | engine/dynamic_sql_generator.py:1546-1652 | a full advisor issued for batch SQL runs for 600 s with FULL analysis and LIMITED workload scope |
| DynamicSql.BatchActionPlan | engine/dynamic_sql_generator.py:312-369 | category BATCH_SQL; every horizon has at least two items; the immediate list holds 2 base items, plus URGENT iff io > 80, plus a blocking check iff total_elapsed > 100; the short and medium lists grow with their thresholds |
| DynamicSql.ChattyActionPlan | engine/dynamic_sql_generator.py:371-424 | category CHATTY_SQL; the immediate list escalates CRITICAL iff executions > 5000 |
| DynamicSql.IoBoundActionPlan | engine/dynamic_sql_generator.py:426-479 | category IO_BOUND_SQL; CRITICAL iff io > 90; one more short-term item iff total_elapsed > 50 |
| DynamicSql.CpuBoundActionPlan | engine/dynamic_sql_generator.py:481-534 | category CPU_BOUND_SQL; CRITICAL iff cpu > 90 and a high-CPU-consumption item iff cpu_time > 100 |
| DynamicSql.MixedActionPlan | engine/dynamic_sql_generator.py:536-580 | category MIXED_PROFILE_SQL; two immediate items, no escalation |
| DynamicSql.LowPriorityActionPlan | engine/dynamic_sql_generator.py:582-623 | category LOW_PRIORITY; two immediate items, no escalation |
| DynamicSql.GenerateActionPlan | engine/dynamic_sql_generator.py:283-310 | the plan's category equals the decision's, with the statement's id and signal fingerprint; it is complete and escalates as designed |
| DynamicSql.EscalationTriggers | engine/dynamic_sql_generator.py:312-534 | each escalation marker has exactly one trigger: URGENT only for batch with io > 80; CRITICAL for chatty > 5000 runs, IO-bound io > 90 or CPU-bound cpu > 90; high CPU consumption only for CPU-bound cpu_time > 100 |
| DynamicSql.ActionNames | engine/dynamic_sql_generator.py:266-281 | the log lists one action name per generated command, in order |
| DynamicSql.DynamicSqlGenerator.constructor | engine/dynamic_sql_generator.py:159-161 | the generation log starts empty |
| DynamicSql.DynamicSqlGenerator.LogGeneration | engine/dynamic_sql_generator.py:266-281 | exactly one entry is appended, nothing else changes |
| DynamicSql.DynamicSqlGenerator.GenerateAll | engine/dynamic_sql_generator.py:163-215 | returns the category's command list; the log grows by exactly one entry whose commands_generated equals the returned length; earlier entries are unchanged |
| TimeWindow.RoundToHalfHour | engine/time_window_detector.py:97-118 | the displayed time is a half-hour mark within 15 minutes of the time truncated to the minute |
| TimeWindow.HalfHourMarkUnique | engine/time_window_detector.py:97-118 | at most one half-hour mark lies in that window, so the rounding is determined by its contract |
| TimeWindow.RoundToHalfHourIdempotent | engine/time_window_detector.py:97-118 | rounding a rounded time changes nothing |
| TimeWindow.CpuPercentage | engine/time_window_detector.py:133-163 | within 0..100; 0 for a missing or non-positive DB CPU or elapsed time; otherwise DB CPU over elapsed times cores (8 when unknown or not positive), in percent, capped at 100 |
| TimeWindow.WindowFromMetadata | engine/time_window_detector.py:21-95 | no window (the "--" placeholder) iff the metadata is missing, unparsed or lacks a begin or end; otherwise an end before the begin moves to the next day, both ends are shown rounded, the elapsed time is the metadata's or the computed difference, and CPU figures pass through |
| TimeWindow.PointPeriod | engine/time_window_detector.py:380-445 | windows under 10 minutes are skipped; a long window is reported iff one of the four rules fires; a reported window keeps its times, is never LOW, and is HIGH iff critical AAS, high AAS with high CPU, or critical CPU with at least five sessions |
| TimeWindow.DetectedPeriods | engine/time_window_detector.py:371-445 | at most one period per sample, none LOW and none under 10 minutes |
| TimeWindow.FuseAsh | engine/time_window_detector.py:468-483 | a fused pair spans from the first start to the second end, sums durations, keeps the peak sessions, AAS and CPU, and is HIGH iff either was HIGH, LOW iff both were |
| TimeWindow.MergeAshFromStep | engine/time_window_detector.py:464-487 | one pass of the loop: a next period within 5 minutes of the running one is fused into it, a farther one closes the running period |
| TimeWindow.MergeAshFromSpan | engine/time_window_detector.py:461-490 | the merge from a running period is non-empty, never longer than its inputs, starts at the running period's start and ends at the last input's end |
| TimeWindow.MergeAshFromDuration | engine/time_window_detector.py:470-471 | the merge keeps the total duration in minutes |
| TimeWindow.MergeAshFromSeparation | engine/time_window_detector.py:464-490 | merged periods are more than 5 minutes apart, and none is LOW when no input is |
| TimeWindow.MergeAshProps | engine/time_window_detector.py:456-492 | for every input: no more periods than inputs, the same first start and last end, the same total duration, gaps above 5 minutes, and no LOW period when no input is LOW |
| TimeWindow.MergeAshFromCount | engine/time_window_detector.py:464-490 | the merge from a running period yields one period more than there are gaps above 5 minutes between consecutive inputs |
| TimeWindow.MergeAshCount | engine/time_window_detector.py:456-492 | neighbours within 5 minutes are fused and farther ones stay apart: the result has one period per gap above 5 minutes plus one, because a fused period ends where its last input ends |
| TimeWindow.MergeAshFromSeparated | engine/time_window_detector.py:484-490 | a running period and inputs already more than 5 minutes apart are closed one by one, unchanged |
| TimeWindow.MergeAshSeparated | engine/time_window_detector.py:456-492 | periods already more than 5 minutes apart are returned as they are |
| TimeWindow.MergeAshFromCovers | engine/time_window_detector.py:464-490 | when starts and ends never go backwards, every period from the running one on lies inside some merged period |
| TimeWindow.MergeAshCovers | engine/time_window_detector.py:456-492 | for chronological input (each period starts and ends no earlier than the one before), every input period lies inside some merged period |
| TimeWindow.MergeAshFromProper | engine/time_window_detector.py:464-490 | when every period starts no later than it ends, so does every merged period |
| TimeWindow.MergeAshCoversOnce | engine/time_window_detector.py:456-492 | for chronological, well-formed input, no input period lies inside two different merged periods, so each lies in exactly one |
| TimeWindow.MergeContinuousAshPeriods | engine/time_window_detector.py:456-492 | the loop returns exactly the left-to-right merge MergeAsh of its input; hence zero or one period is returned as is, the result is no longer, spans the same first start and last end, keeps the total duration, has every gap above 5 minutes and keeps no-LOW |
| TimeWindow.FuseAshLoop | engine/time_window_detector.py:458-490 | the single pass that carries the period being extended and appends it at each gap above 5 minutes returns exactly MergeAsh of its input |
| TimeWindow.DetectAshHighLoadPeriods | engine/time_window_detector.py:355-454 | the result is exactly the merge of the periods the rules report, in sample order; empty input gives no periods; some period iff some sample window is reported; no LOW period, the reported total duration, and gaps above 5 minutes |
| TimeWindow.FuseAwr | engine/time_window_detector.py:599-617 | a fused pair keeps the first start, reaches both ends, sums elapsed time and executions, keeps the peak sessions and gets a combined reason |
| TimeWindow.AwrPush | engine/time_window_detector.py:593-619 | appending a far enough period keeps the merge invariant and adds its elapsed time and executions |
| TimeWindow.AwrReplaceLast | engine/time_window_detector.py:599-617 | fusing into the last period keeps the merge invariant and adds the period's totals |
| TimeWindow.SortedByStart | engine/time_window_detector.py:590 | the start-sorted list is ordered, has the same length and members and the same totals |
| TimeWindow.MergeAwrSortedLastStart | engine/time_window_detector.py:593-619 | for start-ordered input the merge is empty iff the input is, starts at the first input's start, and its last period starts no later than the last input |
| TimeWindow.CoversAfterStep | engine/time_window_detector.py:597-619 | a period spanned by a merged period before a step is still spanned after it (a fusion keeps the start and never shortens the end) |
| TimeWindow.CoversStepped | engine/time_window_detector.py:593-619 | the period a step takes in is spanned afterwards, either by itself or by the fusion it joined |
| TimeWindow.MergeAwrSortedCovers | engine/time_window_detector.py:593-621 | every start-ordered input period lies inside one of the merged periods |
| TimeWindow.MergeAwrStepProps | engine/time_window_detector.py:594-619 | one step of the merge (append when nothing is kept or the gap exceeds 10 minutes, otherwise fuse into the last kept period) keeps the gaps above 10 minutes and only inputs and fusions, grows by at most one, and adds the new period's elapsed time and executions to the totals |
| TimeWindow.MergeAwrSortedProps | engine/time_window_detector.py:593-621 | the merge of start-ordered input is no longer than it, has non-decreasing starts and gaps above 10 minutes, holds only inputs and fusions, and keeps total elapsed time and executions |
| TimeWindow.MergeAwrSortedSeparated | engine/time_window_detector.py:593-621 | start-ordered periods already more than 10 minutes apart are returned as they are |
| TimeWindow.MergeAwrCovers | engine/time_window_detector.py:584-621 | for every input, each period lies inside one of the merged periods |
| TimeWindow.MergeAwrSortedProper | engine/time_window_detector.py:593-621 | when every period starts no later than it ends, so does every merged period |
| TimeWindow.MergeAwrCoversOnce | engine/time_window_detector.py:584-621 | for well-formed input, no input period lies inside two different merged periods, so with MergeAwrCovers each lies in exactly one |
| TimeWindow.MergeContinuousPeriods | engine/time_window_detector.py:584-621 | the loop returns exactly MergeAwr, the left-to-right fold of the start-sorted input that fuses a period into the last kept one when the gap is at most 10 minutes; hence empty iff the input is, no longer, gaps above 10 minutes, every period an input or a fusion, totals kept |
| TimeWindow.HighLoadBlocks | engine/time_window_detector.py:993-1045 | AWR files alone give exactly the AWR block and ASH files alone exactly the ASH block (nothing when that block was not built); both give ASH then AWR; neither gives only the "No Data" entry |
| TimeWindow.BuiltBlocksShown | engine/time_window_detector.py:993-1045 | every built block of an uploaded kind is shown, one entry per such block, or the single "No Data" entry when nothing was uploaded |
| SnapshotMetadata.FullYear | parsers/snapshot_metadata_parser.py:490-497 | a two-digit year maps into 1950..2049 keeping its last two digits; below 50 means the 2000s |
| SnapshotMetadata.IndexOfName | parsers/snapshot_metadata_parser.py:485-489 | the first position of a month name in the table, or none iff absent |
| SnapshotMetadata.MonthNumber | parsers/snapshot_metadata_parser.py:485-489 | always a month 1..12: the abbreviation's month when the lower-cased name is one, January otherwise |
| SnapshotMetadata.MonthNumberIgnoresCase | parsers/snapshot_metadata_parser.py:489 | the month lookup ignores letter case |
| SnapshotMetadata.MakeDateTime | parsers/snapshot_metadata_parser.py:491-505 | `datetime(...)` succeeds iff the fields form a valid calendar date and time, and then keeps them |
| SnapshotMetadata.ParseOracleTimestamp | parsers/snapshot_metadata_parser.py:468-510 | no match gives none; a dated match gives a result iff the widened year, the month (by name or number), the captured day and clock fields form a valid date, and then keeps them all; a bare clock time takes today's date and gives a result iff the clock time is valid |
| SnapshotMetadata.TwoDigitYear | parsers/snapshot_metadata_parser.py:490 | a year of 1950..2049 written with two digits widens back to itself |
| SnapshotMetadata.MonthNumberOfAbbreviation | parsers/snapshot_metadata_parser.py:485-489 | each month abbreviation maps to its own month number |
| SnapshotMetadata.MonthsDistinct | parsers/snapshot_metadata_parser.py:485-488 | the twelve month abbreviations are distinct |
| SnapshotMetadata.ParseOracleTimestampRoundTrip | parsers/snapshot_metadata_parser.py:482-498 | a valid timestamp of 1950..2049 written in either dated form parses back to itself |
| SnapshotMetadata.RunPrefix | parsers/snapshot_metadata_parser.py:522-557 | the longest prefix of digit (or digit-and-dot) characters |
| SnapshotMetadata.RunStart | parsers/snapshot_metadata_parser.py:544 | the position of the first run character, with none before it, or the text's length when there is none |
| SnapshotMetadata.FirstRun | parsers/snapshot_metadata_parser.py:544-546 | `re.search` of a digit run: the match starts at the first run character, is a slice of the text made only of run characters, and stops at the end or before a non-run character (the leftmost maximal run) |
| SnapshotMetadata.FirstRunEmpty | parsers/snapshot_metadata_parser.py:544-546 | the search finds nothing iff the text has no run character |
| SnapshotMetadata.FirstRunWhole | parsers/snapshot_metadata_parser.py:544-546 | text made only of run characters is matched whole |
| SnapshotMetadata.FirstRunFromStart | parsers/snapshot_metadata_parser.py:544-546 | text that opens with a run character is matched from its first character |
| SnapshotMetadata.RunPrefixWhole | parsers/snapshot_metadata_parser.py:531 | an all-run text is its own run |
| SnapshotMetadata.ParseFloat | parsers/snapshot_metadata_parser.py:524-546 | `float` of a matched run is never negative; for plain digits it is their value; dots alone fail |
| SnapshotMetadata.ParseFloatOneDot | parsers/snapshot_metadata_parser.py:524-546 | a run with one dot and a digit reads as the whole part plus the fraction over its power of ten |
| SnapshotMetadata.ParseFloatTwoDots | parsers/snapshot_metadata_parser.py:524-546 | a run with two dots or more is no number (`float` raises, the parser answers none) |
| SnapshotMetadata.ParseNumericValue | parsers/snapshot_metadata_parser.py:538-549 | the value is `float` of the first digit-and-dot run of the stripped, comma-free text (none when there is no run or it is not a number); never negative; an empty text gives none |
| SnapshotMetadata.ParseNumericRoundTrip | parsers/snapshot_metadata_parser.py:538-549 | the decimal text of n parses to n |
| SnapshotMetadata.ParseIntegerValue | parsers/snapshot_metadata_parser.py:551-562 | the value of the first digit run of the cleaned text; none iff that text has no digit |
| SnapshotMetadata.ParseTimeValue | parsers/snapshot_metadata_parser.py:512-536 | a text mentioning "min" gives its first run times 60 (none when the run does not parse); otherwise one mentioning "sec" or ending in "s" gives its first run; otherwise only a text made entirely of digits and dots is read; never negative |
| SnapshotMetadata.DigitsValueOfNat | parsers/snapshot_metadata_parser.py:559 | reading back the decimal digits of a number gives the number |
| SnapshotMetadata.ParseIntegerRoundTrip | parsers/snapshot_metadata_parser.py:551-562 | parsing the decimal text of n gives n |
| SnapshotMetadata.ParseTimeBareNumber | parsers/snapshot_metadata_parser.py:529-533 | a bare number of seconds parses to itself |
| SnapshotMetadata.ParseTimeMinutes | parsers/snapshot_metadata_parser.py:521-524 | "n min" parses to n times 60 seconds |
| SnapshotMetadata.FloatOfDigits | parsers/snapshot_metadata_parser.py:524 | `float` of the decimal text of n is n |
| SnapshotMetadata.MinutesRead | parsers/snapshot_metadata_parser.py:521-524 | a text mentioning "min" whose first run parses to v yields v times 60 |
| SnapshotMetadata.FirstPlausible | parsers/snapshot_metadata_parser.py:294-310 | the first value in 1..1024 (none before it is), or none iff there is none |
| SnapshotMetadata.ExtractCpuCores | parsers/snapshot_metadata_parser.py:280-320 | the first plausible table cell; else the first plausible pattern match; else the summary match, unchecked; only that fallback can be out of range |
| SnapshotMetadata.CapBusyCpu | parsers/snapshot_metadata_parser.py:363-388 | %Busy CPU is capped at 100, unchanged when at most 100, present iff found |
| SnapshotMetadata.SpanSeconds | parsers/snapshot_metadata_parser.py:90-95 | end minus begin, plus one day when negative; non-negative iff the end lies at most a day before the begin |
| SnapshotMetadata.Parse | parsers/snapshot_metadata_parser.py:45-130 | parse_success iff both snapshot times were found; elapsed time is the report's or the computed span; CPU fields pass through; each error is recorded exactly when its value is missing, once |
| UnifiedMetrics.WithSqlStats | engine/unified_metrics.py:162-188 | each present column (elapsed, executions, CPU time) sets its total to the column sum; absent columns and every other figure are unchanged |
| UnifiedMetrics.BucketOf | engine/unified_metrics.py:205-220 | an event counts as DB CPU iff it mentions "db cpu"; as DB time iff it does not and mentions "db time"; as IO wait iff neither and it names one of the six IO events |
| UnifiedMetrics.WaitRowChangesOneValue | engine/unified_metrics.py:204-220 | a row changes only the total of its own bucket |
| UnifiedMetrics.IoWaitIsSum | engine/unified_metrics.py:212-220 | IO wait time is the sum of the IO-event rows' times |
| UnifiedMetrics.DbCpuIsLast | engine/unified_metrics.py:208-209 | DB CPU time is the last DB CPU row's time, 0 when there is none (assignment, not a sum) |
| UnifiedMetrics.DbTimeIsLast | engine/unified_metrics.py:210-211 | DB time is the last DB time row's time, 0 when there is none |
| UnifiedMetrics.MergedDbCpu | engine/unified_metrics.py:259-263 | a missing or zero report value keeps the CSV's DB CPU time |
| UnifiedMetrics.MergedDbCpuIsMax | engine/unified_metrics.py:259-263 | a positive report value gives the larger of the two DB CPU times |
| UnifiedMetrics.WindowText | engine/unified_metrics.py:277-282 | the window text starts with the begin and ends with the end |
| UnifiedMetrics.WithHtmlMetadata | engine/unified_metrics.py:241-288 | an unparsed report changes nothing; otherwise DB CPU is merged, the busy and idle readings are taken when present, and only the report-derived figures change |
| UnifiedMetrics.Clamp | engine/unified_metrics.py:308-322 | within 0..100, identity inside that range |
| UnifiedMetrics.CpuPercentageOf | engine/unified_metrics.py:308-322 | workload CPU percentage within 0..100 |
| UnifiedMetrics.IoWaitPercentageOf | engine/unified_metrics.py:328-336 | IO wait percentage capped at 100 |
| UnifiedMetrics.WithDerived | engine/unified_metrics.py:290-338 | only the two percentages change, within their bounds |
| UnifiedMetrics.CpuSourcePriority | engine/unified_metrics.py:308-322 | %Busy CPU wins, then 100 minus %Idle; with either present DB CPU and elapsed time do not matter; with neither and no positive DB CPU or elapsed time the result is 0 |
| UnifiedMetrics.HostIdleComplement | engine/unified_metrics.py:312-314 | from an idle reading within 0..100, CPU usage plus idle is 100 |
| UnifiedMetrics.IoWaitPercentageBounds | engine/unified_metrics.py:328-336 | a non-negative IO wait gives 0..100; no IO wait, or no DB time and no elapsed time, gives 0 |
| UnifiedMetrics.ComputedMetrics | engine/unified_metrics.py:90-137 | valid iff some CSV was found; without CSVs the defaults; the CSV names are recorded; percentages in bounds |
| UnifiedMetrics.NoReportNoCpu | engine/unified_metrics.py:124-125 | without the AWR report no CPU figure is read, so CPU usage is 0 |
| UnifiedMetrics.SplitOn | engine/unified_metrics.py:366 | a split always yields at least one piece (the reference for the "; " join) |
| UnifiedMetrics.SplitJoined | engine/unified_metrics.py:366 | splitting a join of separator-free parts on the separator gives the parts back (after the first, prefixed by the rest of the separator) |
| UnifiedMetrics.DetailsParts | engine/unified_metrics.py:352-364 | always four parts, labelled elapsed time, executions, CPU usage and IO wait, in that order |
| UnifiedMetrics.DetailsHaveFourParts | engine/unified_metrics.py:340-366 | the details string splits on ';' into exactly the four labelled parts |
| UnifiedMetrics.NoSemicolonInLabelled | engine/unified_metrics.py:352-364 | no labelled part contains ';' when the number renderers produce none |
| UnifiedMetrics.AwrMetrics.constructor | engine/unified_metrics.py:28-64 | a new container holds the default figures |
| UnifiedMetrics.UnifiedMetricsCalculator.constructor | engine/unified_metrics.py:78-88 | keeps the directory and report path; nothing cached |
| UnifiedMetrics.UnifiedMetricsCalculator.ExtractSqlStatsMetrics | engine/unified_metrics.py:162-188 | updates the container in place to the column sums |
| UnifiedMetrics.UnifiedMetricsCalculator.ExtractWaitEventsMetrics | engine/unified_metrics.py:190-229 | the loop leaves the bucket totals in the container; IO wait is the IO rows' sum |
| UnifiedMetrics.UnifiedMetricsCalculator.ExtractHtmlMetadata | engine/unified_metrics.py:241-288 | updates the container in place to the report-merged figures |
| UnifiedMetrics.UnifiedMetricsCalculator.ComputeDerivedMetrics | engine/unified_metrics.py:290-338 | updates the two percentages in place |
| UnifiedMetrics.UnifiedMetricsCalculator.ComputeMetrics | engine/unified_metrics.py:90-137 | a cached result is returned unchanged unless refreshed; otherwise a fresh container with the computed figures, cached only when CSVs were found |
| UnifiedMetrics.UnifiedMetricsCalculator.GetHighLoadDetailsString | engine/unified_metrics.py:340-366 | the details of the cached figures, or of freshly computed ones |
| UnifiedMetrics.MetricsCache.constructor | engine/unified_metrics.py:389 | the module cache starts empty, with one calculator per directory |
| UnifiedMetrics.MetricsCache.GetUnifiedMetrics | engine/unified_metrics.py:392-411 | the directory gets a calculator, a new one when absent or refreshed, which computes the figures from the caller's report path; a kept calculator returns its cached figures or computes them from its own path; with CSV input the returned figures are what the calculator caches, so the next call without a refresh returns them; other directories keep their calculators and what those have cached |
| UnifiedMetrics.MetricsCache.ClearMetricsCache | engine/unified_metrics.py:414-426 | a non-empty directory name drops that entry only; otherwise the cache is emptied; one calculator per directory is kept |
| UnifiedMetrics.UnifiedMetricsCalculator.TakeSnapshotFigures | engine/unified_metrics.py:251-263 | elapsed time and cores from the report, then the DB CPU merge, updated in place |
| UnifiedMetrics.UnifiedMetricsCalculator.TakeCpuReadingsAndWindow | engine/unified_metrics.py:267-282 | the busy and idle readings and the window text, updated in place |
| AshAnalyzer.Classify | engine/ash_analyzer.py:120-131 | first match on the lower-cased name: CPU iff it mentions "cpu"; IO iff not and an IO keyword; Concurrency, then Network likewise; Other iff none |
| AshAnalyzer.ClassifyIgnoresCase | engine/ash_analyzer.py:121 | the class does not depend on letter case |
| AshAnalyzer.BucketOf | engine/ash_analyzer.py:249-256 | a class bucket counts exactly the events it lists, no more than there are events |
| AshAnalyzer.BucketStep | engine/ash_analyzer.py:249-256 | one event adds one to its own class's count, its impact to the total and its entry at the end of the list; other classes are unchanged |
| AshAnalyzer.CpuVsIoBreakdown | engine/ash_analyzer.py:236-261 | no events give {}; otherwise all five classes are present and each holds its bucket of the events in input order |
| AshAnalyzer.BreakdownPartition | engine/ash_analyzer.py:249-256 | the five counts add up to the number of events and the five totals to the sum of all impacts |
| AshAnalyzer.KeyOrDefault | engine/ash_analyzer.py:49-52 | `dict.get(key, d)`: the default for a left-out key, the number for a given one, and None exactly for a key present with None |
| AshAnalyzer.CreateTimeFilterRange | engine/ash_analyzer.py:44-63 | no filter gives no range; left-out keys default to 00:00 and 23:59; a key present with None or an impossible clock time gives no range (the raised error is caught); a range lies within one day |
| AshAnalyzer.NullKeyGivesNoRange | engine/ash_analyzer.py:44-63 | a filter with any clock key present as None, as the request route builds it for a field the client left out, gives no range; a filter with all four keys left out covers 00:00 to 23:59 |
| AshAnalyzer.RowsInRange | engine/ash_analyzer.py:77-81 | exactly the rows with a parsed time inside the inclusive range |
| AshAnalyzer.FilterAshDataByTime | engine/ash_analyzer.py:68-88 | without a range the rows are returned unchanged, in particular for a filter with a key present as None; with one, exactly the rows inside it, in order |
| AshAnalyzer.RowsAtLeast | engine/ash_analyzer.py:163 | exactly the rows with %_event at or above the threshold |
| AshAnalyzer.DetectActivitySpikes | engine/ash_analyzer.py:151-176 | a permutation of the rows at or above the threshold, in descending %_event order |
| AwrAnalyzer.Columns | engine/awr_analyzer.py:47 | every header stripped and lower-cased, one per header |
| AwrAnalyzer.FindCol | engine/awr_analyzer.py:31-35 | the first candidate that is a column; none iff no candidate is |
| AwrAnalyzer.ColumnIndex | engine/awr_analyzer.py:31-35 | the first position of a present column |
| AwrAnalyzer.Head | engine/awr_analyzer.py:107 | `head(n)`: the first n rows, or all but the last -n for negative n |
| AwrAnalyzer.HeadOfSorted | engine/awr_analyzer.py:107 | the head of a sorted list is sorted, drawn from the input, and no left-out row ranks above a kept one |
| AwrAnalyzer.SqlColumnsOf | engine/awr_analyzer.py:49-60 | none iff sql_id or both elapsed columns are missing; elapsed__time_s is preferred over elapsed_time_s; each optional column (pctcpu, executions, per-exec elapsed, pcttotal, pctio) is looked up iff the file has it, so a missing one reads as 0 |
| AwrAnalyzer.PositiveElapsed | engine/awr_analyzer.py:98 | exactly the rows with elapsed time above 0 |
| AwrAnalyzer.SqlRowsOf | engine/awr_analyzer.py:62-96 | one row per CSV row |
| AwrAnalyzer.RiskOf | engine/awr_analyzer.py:136-140 | HIGH iff elapsed ≥ 100; MEDIUM iff 50 ≤ elapsed < 100; LOW iff elapsed < 50 |
| AwrAnalyzer.RiskMonotone | engine/awr_analyzer.py:136-140 | more elapsed time never lowers the risk |
| AwrAnalyzer.TopSqlEntryOf | engine/awr_analyzer.py:112-152 | keeps the id and elapsed time; CPU time is elapsed times pctcpu over 100, between 0 and elapsed for a percentage in 0..100 |
| AwrAnalyzer.CpuShareBounds | engine/awr_analyzer.py:132 | a percentage share of a non-negative time lies between 0 and the time |
| AwrAnalyzer.TopRowsProps | engine/awr_analyzer.py:107 | at most `limit` rows (exactly min(limit, rows) for non-negative limits), descending elapsed, drawn from the kept rows, and no left-out row has more elapsed time than a listed one |
| AwrAnalyzer.KeptSqlRows | engine/awr_analyzer.py:41-60 | no file or a missing key column gives no rows |
| AwrAnalyzer.RawSqlOf | engine/awr_analyzer.py:100-105 | one (sql_id, elapsed) entry per kept row, in CSV order |
| AwrAnalyzer.TopSqlOf | engine/awr_analyzer.py:107-152 | one entry per top row, in order |
| AwrAnalyzer.TopSql | engine/awr_analyzer.py:40-154 | the loops return the raw list of every kept row and the top list of the largest ones |
| AwrAnalyzer.RawEntries | engine/awr_analyzer.py:100-105 | the append loop builds the raw list |
| AwrAnalyzer.TopEntries | engine/awr_analyzer.py:109-152 | the append loop builds the top list |
| AwrAnalyzer.ListedSqlHasElapsed | engine/awr_analyzer.py:98-107 | every raw and top entry has elapsed time above 0 |
| AwrAnalyzer.EventColumnsOf | engine/awr_analyzer.py:168-174 | none iff statistic_name or time_s is missing; each percentage column is read iff present |
| AwrAnalyzer.EventRowsOf | engine/awr_analyzer.py:176-184 | one row per CSV row |
| AwrAnalyzer.PositiveTime | engine/awr_analyzer.py:186 | exactly the events with time above 0 |
| AwrAnalyzer.TopEventRowsProps | engine/awr_analyzer.py:186-187 | at most `limit` events, each with time above 0, descending time, and no dropped positive event outranks a kept one |
| AwrAnalyzer.EventRowsIn | engine/awr_analyzer.py:160-174 | no file or a missing key column gives no events |
| AwrAnalyzer.EventEntries | engine/awr_analyzer.py:189-208 | one entry per row, in order, with the row's name, time and both percentages |
| AwrAnalyzer.WaitEventsOf | engine/awr_analyzer.py:186-208 | one entry per top event with its name, time and percentages |
| AwrAnalyzer.TopWaitEvents | engine/awr_analyzer.py:159-210 | empty without a file or without the name and time columns; otherwise exactly WaitEventsOf the file's event rows |
| AwrAnalyzer.EventEntryLoop | engine/awr_analyzer.py:189-210 | the append loop over the chosen rows builds exactly their entries, in order |
| DbaFormatter.AnalysisOf | engine/dba_expert_engine.py:189-196 | the analysis dictionary carries the engine's findings, counts and workload summary unchanged |
| DbaFormatter.FindingsOf | engine/dba_formatter.py:231 | a missing findings key reads as the empty list |
| DbaFormatter.Get | engine/dba_formatter.py:239-241 | a missing numeric parameter reads as 0 |
| DbaFormatter.WorkloadFormattedOf | engine/dba_formatter.py:24-32 | problematic_found is the number of findings; a missing summary gives pattern UNKNOWN and zero totals; otherwise the totals and counts pass through; the dominant wait event is present iff the summary has a dominant wait |
| DbaFormatter.FindingFormattedOf | engine/dba_formatter.py:36-69 | a formatted finding keeps the id, severity, score, parameters and execution pattern |
| DbaFormatter.FormatForApi | engine/dba_formatter.py:13-82 | the append loop builds the specified API response |
| DbaFormatter.ApiResponseShape | engine/dba_formatter.py:13-82 | one formatted finding per finding, in order, with matching id, severity and score; the completeness counts default to 0 |
| DbaFormatter.EngineOutputConsistent | engine/dba_formatter.py:71-82 | for an engine result, the completeness count equals problematic_found, total analyzed passes through, and the failure path formats as UNKNOWN with no findings |
| DbaFormatter.SummaryItemAsWritten | engine/dba_formatter.py:234-242 | the dashboard item as written reads executions from the execution_count key |
| DbaFormatter.SummaryItemOf | engine/dba_formatter.py:234-242 | the dashboard item keeps id, severity and score and reads elapsed, CPU and executions from the keys the engine emits |
| DbaFormatter.ExecutionCountNeverEmitted | engine/dba_formatter.py:241 | for every engine finding the as-written item shows 0 executions, the corrected one the statement's executions |
| DbaFormatter.ExecutionCountExample | engine/dba_formatter.py:241 | a statement with 600 executions shows 0 as written and 600 corrected |
| DbaFormatter.FormatSummaryOnly | engine/dba_formatter.py:225-249 | the append loop builds the summary with the corrected item of the Findings row for engine/dba_formatter.py:241 (`SummaryItemOf`, which reads `executions`); the source reads `execution_count`, as `SummaryItemAsWritten` models |
| DbaFormatter.SummaryOnlyShape | engine/dba_formatter.py:225-249 | problematic_count equals the number of findings and of summary items, each item matching its finding; no summary means no pattern |
| DbaFormatter.OpeningBlocks | engine/dba_formatter.py:98-117 | the opening never holds the no-issues block or a finding block |
| DbaFormatter.FindingBlocks | engine/dba_formatter.py:126-208 | one block per finding, numbered from 1 in order |
| DbaFormatter.FormatForConsole | engine/dba_formatter.py:85-222 | the append loop builds the specified block list |
| DbaFormatter.ConsoleNoIssuesIffEmpty | engine/dba_formatter.py:209-213 | the "no critical issues" block appears iff there are no findings |
| DbaFormatter.ConsoleFindingsNumbered | engine/dba_formatter.py:126-128 | every finding block has an index 1..n naming that finding, and every finding gets its block |
| AwrHtmlParser.NormalizedColClean | parsers/awr_html_parser.py:20-30 | a normalised column name has no upper-case letter, space, slash, percent sign or parenthesis |
| AwrHtmlParser.NormalizeCols | parsers/awr_html_parser.py:20-30 | one normalised name per header, in order |
| AwrHtmlParser.NonEmptyRows | parsers/awr_html_parser.py:40-41 | only the non-empty rows, never more than the input |
| AwrHtmlParser.NonEmptyRowsMembers | parsers/awr_html_parser.py:40-41 | a row is kept iff it is in the table and not empty |
| AwrHtmlParser.AllWithinMin | parsers/awr_html_parser.py:51 | rows fit within the shorter of two widths iff they fit within both |
| AwrHtmlParser.FrameOf | parsers/awr_html_parser.py:48-52 | an empty frame iff no header or no data row; otherwise the columns are the normalised headers cut to the first row's width, and a row wider than that is pandas' shape error |
| AwrHtmlParser.ParseGenericTable | parsers/awr_html_parser.py:33-52 | the row loop builds the specified frame |
| AwrHtmlParser.GenericTableRows | parsers/awr_html_parser.py:37-49 | the data rows are exactly the non-empty rows after the first; the frame is empty iff there is no non-empty header row or no data row |
| AwrHtmlParser.FirstMatch | parsers/awr_html_parser.py:61-66 | the first heading whose lower-cased text contains a lower-cased keyword, or -1 iff none does |
| AwrHtmlParser.FindTableAfterHeading | parsers/awr_html_parser.py:55-68 | no table iff no heading matches; otherwise the table after the first matching heading |
| AwrHtmlParser.BareKeywordIsList | parsers/awr_html_parser.py:56-59 | a single keyword behaves as a one-element list |
| AwrHtmlParser.TableSection | parsers/awr_html_parser.py:186-199 | a table section writes its file, finds an empty table, or finds none, as specified |
| AwrHtmlParser.RunParsePipeline | parsers/awr_html_parser.py:170-258 | the pipeline returns the specified outcome |
| AwrHtmlParser.Assemble | parsers/awr_html_parser.py:175-258 | files are listed in the order metadata, SQL stats, wait events, load profile, instance stats, each iff written; a shape error is raised |
| AwrHtmlParser.AppendIf | parsers/awr_html_parser.py:175-250 | a file name is appended iff its section was written |
| AwrHtmlParser.MissingOf | parsers/awr_html_parser.py:148-151 | never more missing names than required ones |
| AwrHtmlParser.ParseAwrWithPrefix | parsers/awr_html_parser.py:131-164 | the specified outcome: the generated list, or the missing-CSV error |
| AwrHtmlParser.CheckRequired | parsers/awr_html_parser.py:148-151 | the loop collects the specified missing names |
| AwrHtmlParser.MissingOfMembers | parsers/awr_html_parser.py:148-151 | a name is missing iff it is required and no generated file name contains it |
| AwrHtmlParser.FileNameMentions | parsers/awr_html_parser.py:195-248 | a generated file name contains its stem |
| AwrHtmlParser.AllMentioned | parsers/awr_html_parser.py:148-153 | nothing is missing when every required name is mentioned |
| AwrHtmlParser.RequiredMentioned | parsers/awr_html_parser.py:142-153 | with the three required stems mentioned, nothing is missing |
| AwrHtmlParser.RequiredFilesSuffice | parsers/awr_html_parser.py:142-164 | writing the SQL, wait and instance files satisfies the required-file test whatever else is written |
| AwrHtmlParser.RequiredTablesSuffice | parsers/awr_html_parser.py:131-164 | when the three required tables are written the call returns the generated list |
| AwrHtmlParser.SqlStatsRequired | parsers/awr_html_parser.py:142-157 | without the SQL stats file the error names awr_sql_stats first |
| AwrHtmlParser.NothingGeneratedMissesAll | parsers/awr_html_parser.py:142-157 | when nothing is generated all three required names are reported missing |

## Left out

- Parsing libraries: BeautifulSoup traversal, regular-expression matching beyond substring tests, and pandas `read_csv`, `to_numeric`, `groupby` and `head`. Their results are inputs: rows of cell strings, numbers, match records and booleans.
- `analyze_dominant_events` (engine/ash_analyzer.py:93-146) is a pandas group-by; its output is the input of the breakdown.
- `parse_load_profile`, `parse_metadata` and the per-field extractors of the snapshot parser are reduced to their outcomes (found or not, the value read). The instance-stats CSV reader (engine/unified_metrics.py:231-239) stores nothing and is left out.
- Python `round()` and number rendering (`:.1f`, `:,`, `strftime`) are not modelled. Every generated SQL, PL/SQL, Markdown and console text is opaque: only which items appear, their order and their count are modelled.
- The clock: `datetime.now()` in the time-only timestamp form and in the time filter is a parameter (`today`), and the filter works on seconds since midnight.
- `print` logging, file and directory discovery (`_find_csv_file`, `glob`, `os.path.exists`), CSV writing, and NaN/inf sanitisation are not modelled. The existence of the report file is a boolean input.
- The data-integrity validator is a boolean input. True also stands for "no validator installed".
- Exceptions are outcomes (`Option` or an error constructor). The AWR pipeline reads all three required tables before assembling its result, so files written before a pandas shape error are not modelled.
- Pandas `sort_values` is not stable. The sorted outputs in `AshAnalyzer` and `AwrAnalyzer` are modelled by a stable sort.
- AshAnalyzer.DetectActivitySpikes: claims only "sorted and a permutation of the kept rows", because pandas may order equal shares differently.
- AwrAnalyzer.TopRowsProps: claims only sortedness, membership and the top-n property, for the same reason.
- AwrAnalyzer.TopEventRowsProps: claims only sortedness, membership and the top-n property, for the same reason.
- Pandas behaviour on malformed tables is only partly modelled. Duplicate column names are not modelled. A short row is padded with missing values, and the model keeps the row as it is.
- DynamicSql.GenerateAll: the log entry keeps the fields `_log_generation` writes (sql_id, category, command count, action names and the four signals) except the signal fingerprint string, whose hashed text is not modelled.
- DecisionEngine.MixedDecision: `list(set(...))` returns hash order. The model keeps construction order, because the list is already duplicate-free.
- DecisionEngine.ConcerningTraits: states only the bound of at most five. The gate itself is stated exactly by `DecisionEngine.Evaluate`.
- SqlAgent.StrictScore: states only the range of the score. Which factor each band records is carried by the method that accumulates it.
- SqlAgent.IntelligentPoints: states only the range of the points, for the same reason.
- Text case and whitespace: `Common.Lower`, `Common.Upper` and `Common.Strip` map and trim ASCII only, where Python's `str.lower()`, `str.upper()` and `str.strip()` also handle non-ASCII letters and Unicode whitespace. A report whose names or cells carry such characters may be classified differently.
- MergeAshCovers, MergeAshCoversOnce: covering is proved only for chronological input, where each period starts and ends no earlier than the one before. `_merge_continuous_ash_periods` neither sorts its input nor keeps the larger end: a fused period takes the next period's end, so out-of-order input can leave an input period outside every merged one.
- TimeWindow.MergeContinuousPeriods: `_merge_continuous_periods` updates the last kept period in place, and that dictionary is the caller's own input period, so the caller's list changes as a side effect. The model works on values and returns the merged list only, so this aliasing is not captured. `_merge_continuous_ash_periods` copies its periods and has no such effect.
- DbaExpert.DbaScore: the source returns `round(score, 2)`. The model keeps the exact score, so two scores that round to the same value can be ordered differently in the shortlist.
- Integer widths: Python integers are unbounded, so `int` and `real` carry no wrap-around.
- engine/time_window_detector_backup.py is not part of this model: it is a stale copy that is not valid Python.
- api/rca_routes.py, api/auth_routes.py and app.py are not part of this model: they hold HTTP routing, sessions and password hashing.
- parsers/ash_html_parser.py is not part of this model: its only string logic repeats the column normaliser modelled in `AwrHtmlParser`.
- `_analyze_awr_peak_periods` fabricates an 11:00 peak and is not part of this model. `_basic_high_load_analysis` and the HTML fallbacks of the time-window detector are not part of this model either. Only the case selection of `detect_high_load_periods` is modelled, over the blocks those helpers return.

## Findings

| source | as written | input that shows it | evidently intended | confidence | as-written member | corrected member |
|---|---|---|---|---|---|---|
| engine/rca_engine.py:184,251 | `run` reads the DBA findings under the key "findings" | any DBA analysis with one finding: engine/dba_expert_engine.py:194 publishes it under "problematic_sql_findings", so the UI list is empty and no finding-based secondary cause is derived | read the key the DBA stage publishes | high (not executed) | RcaEngine.Run | RcaEngine.ProblematicSqlCorrected |
| engine/dba_formatter.py:241 | the dashboard item reads `technical_parameters.execution_count` | a statement with 600 executions: the engine emits the key `executions` (engine/dba_expert_engine.py:564-578), so the item shows 0 | read `executions` | high (not executed) | DbaFormatter.SummaryItemAsWritten | DbaFormatter.SummaryItemOf |
| engine/load_reduction_engine.py:606-612 | the per-finding helper reads io_pct, cpu_pct and the other metrics from the execution pattern | a finding with IO 95 % and CPU 80 %: the execution pattern holds only executions and avg_time_per_exec (engine/dba_expert_engine.py:851-860), so no IO or CPU cause is detected | read the finding's technical parameters | high (not executed) | LoadReduction.LoadReductionForFindingAsWritten | LoadReduction.LoadReductionForFinding |
