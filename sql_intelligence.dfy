/**
 * The SQL text intelligence engine: pattern flags read from the SQL text,
 * the metric context, the primary condition chosen by a fixed precedence,
 * and the condition handlers with their risk levels and recommendation
 * lists. The wording of the recommendations is represented by labels.
 */
module SqlIntelligence {
  import opened Common

  // ---------------------------------------------------------------------
  // Patterns
  // ---------------------------------------------------------------------

  /**
   * The outcomes of the regular-expression searches, which the model
   * takes as given: an equality test after WHERE, the number of join
   * keywords and of FROM-table captures, the two sub-select forms, a
   * function call after WHERE, a literal comparison and a DDL statement.
   */
  datatype RegexFacts = RegexFacts(
    whereEquality: bool,
    joinKeywords: nat,
    fromTables: nat,
    inSubselect: bool,
    eqSubselect: bool,
    functionCallInWhere: bool,
    literalComparison: bool,
    ddlStatement: bool)

  datatype Patterns = Patterns(
    fullTableScan: bool,
    tooManyJoins: bool,
    correlatedSubqueries: bool,
    heavyDistinct: bool,
    heavySorting: bool,
    functionsInWhere: bool,
    literalValues: bool,
    rmanBackground: bool,
    plsqlBlocks: bool,
    ddlOperations: bool)

  /** The pattern keys in the order the detector inserts them. */
  const PatternKeys: seq<string> := [
    "full_table_scan", "too_many_joins", "correlated_subqueries", "heavy_distinct",
    "heavy_sorting", "functions_in_where", "literal_values", "rman_background",
    "plsql_blocks", "ddl_operations"]

  const RmanMarkers: seq<string> := [
    "RMAN@", "SYS.DBMS_BACKUP_RESTORE", "X$K", "DBMS_STATS", "KSXM:TAKE_SNPSHOT", "SYS.KUPC$"]

  function Flags(p: Patterns): (f: seq<bool>)
    ensures |f| == |PatternKeys|
  {
    [p.fullTableScan, p.tooManyJoins, p.correlatedSubqueries, p.heavyDistinct, p.heavySorting,
     p.functionsInWhere, p.literalValues, p.rmanBackground, p.plsqlBlocks, p.ddlOperations]
  }

  /**
   * `_detect_sql_patterns` over the upper-cased text and the regex outcomes.
   * The PL/SQL flag amounts to a plain substring test.
   */
  function DetectSqlPatterns(sqlText: string, rx: RegexFacts): (p: Patterns)
    ensures p.plsqlBlocks <==> Contains(Upper(sqlText), "DECLARE") || Contains(Upper(sqlText), "BEGIN")
  {
    var u := Upper(sqlText);
    var orderBy, groupBy := Contains(u, "ORDER BY"), Contains(u, "GROUP BY");
    PlsqlByContains(u);
    Patterns(
      Contains(u, "SELECT * FROM") || Contains(u, "COUNT(*)")
        || (!rx.whereEquality && Contains(u, "SELECT") && Contains(u, "FROM")),
      rx.joinKeywords >= 3 || rx.fromTables >= 4,
      Contains(u, "EXISTS (") || rx.inSubselect || rx.eqSubselect,
      Contains(u, "DISTINCT") && (orderBy || groupBy || rx.joinKeywords > 0),
      (orderBy && groupBy) || ((orderBy || groupBy) && rx.joinKeywords > 1),
      rx.functionCallInWhere,
      rx.literalComparison,
      ContainsAny(u, RmanMarkers),
      PlsqlText(u),
      rx.ddlStatement)
  }

  /**
   * DISTINCT counts as heavy only next to a sort or a join, and a sort
   * without joins counts as heavy only when both ORDER BY and GROUP BY
   * appear.
   */
  lemma DistinctAndSortingNeedCompanions(sqlText: string, rx: RegexFacts)
    ensures var u, p := Upper(sqlText), DetectSqlPatterns(sqlText, rx);
            && (p.heavyDistinct ==> Contains(u, "DISTINCT"))
            && (p.heavyDistinct && rx.joinKeywords == 0 ==> Contains(u, "ORDER BY") || Contains(u, "GROUP BY"))
            && (p.heavySorting && rx.joinKeywords <= 1 ==> Contains(u, "ORDER BY") && Contains(u, "GROUP BY"))
  {
  }

  /** The PL/SQL test: the stripped text starts with, or the text contains, DECLARE or BEGIN. */
  predicate PlsqlText(u: string)
  {
    StartsWith(Strip(u), "DECLARE") || StartsWith(Strip(u), "BEGIN")
    || Contains(u, "DECLARE") || Contains(u, "BEGIN")
  }

  /** The two `startswith` tests on the stripped text add nothing to the substring tests. */
  lemma PlsqlByContains(u: string)
    ensures PlsqlText(u) <==> Contains(u, "DECLARE") || Contains(u, "BEGIN")
  {
    if StartsWith(Strip(u), "DECLARE") {
      StartsWithStripContains(u, "DECLARE");
    }
    if StartsWith(Strip(u), "BEGIN") {
      StartsWithStripContains(u, "BEGIN");
    }
  }

  /** `patterns_detected`: the keys of the set patterns, in insertion order. */
  function PatternsDetected(p: Patterns): (r: seq<string>)
    ensures |r| <= 10 && NoDuplicates(r)
    ensures forall k :: k in r <==> exists i :: 0 <= i < 10 && PatternKeys[i] == k && Flags(p)[i]
  {
    SelectedNoDuplicates(PatternKeys, Flags(p));
    Selected(PatternKeys, Flags(p))
  }

  // ---------------------------------------------------------------------
  // Metric context
  // ---------------------------------------------------------------------

  datatype SqlMetrics = SqlMetrics(
    elapsedTime: real, executions: int, cpuTime: real, elapsedPerExec: real,
    pcttotal: real, pctcpu: real, pctio: real)

  datatype QueryType =
    | HighFrequencyLowImpact | LowFrequencyHighImpact | CpuBottleneck | IoBottleneck | Stable

  datatype MetricContext = MetricContext(
    isHighCpu: bool, isHighElapsed: bool, isHighFrequency: bool, isSlowPerExec: bool,
    isIoBound: bool, isCpuBound: bool, workloadPercentage: real, isSignificantWorkload: bool,
    queryType: QueryType)

  /** `_analyze_metrics_context`: threshold flags, then the first-match query type. */
  function AnalyzeMetricsContext(m: SqlMetrics): (c: MetricContext)
    ensures c.isHighCpu <==> m.cpuTime > 20.0 || m.pctcpu > 90.0
    ensures c.isHighElapsed <==> m.elapsedTime > 50.0
    ensures c.isHighFrequency <==> m.executions > 800
    ensures c.isSlowPerExec <==> m.elapsedPerExec > 0.5
    ensures c.isIoBound <==> m.pctio > 30.0
    ensures c.isCpuBound <==> m.pctcpu > 85.0
    ensures c.workloadPercentage == m.pcttotal
    ensures c.isSignificantWorkload <==> m.pcttotal > 10.0
    ensures c.queryType.HighFrequencyLowImpact? <==> m.executions > 800 && m.elapsedTime < 15.0
    ensures c.queryType.LowFrequencyHighImpact? <==>
              !(m.executions > 800 && m.elapsedTime < 15.0) && m.elapsedTime > 50.0 && m.executions < 200
    ensures c.queryType.CpuBottleneck? <==>
              !(m.executions > 800 && m.elapsedTime < 15.0) && !(m.elapsedTime > 50.0 && m.executions < 200)
              && c.isHighCpu && c.isHighElapsed
    ensures c.queryType.IoBottleneck? <==>
              !(m.executions > 800 && m.elapsedTime < 15.0) && !(m.elapsedTime > 50.0 && m.executions < 200)
              && !(c.isHighCpu && c.isHighElapsed) && c.isIoBound
  {
    var highCpu := m.cpuTime > 20.0 || m.pctcpu > 90.0;
    var highElapsed := m.elapsedTime > 50.0;
    var highFrequency := m.executions > 800;
    var ioBound := m.pctio > 30.0;
    var qt :=
      if highFrequency && m.elapsedTime < 15.0 then HighFrequencyLowImpact
      else if highElapsed && m.executions < 200 then LowFrequencyHighImpact
      else if highCpu && highElapsed then CpuBottleneck
      else if ioBound then IoBottleneck
      else Stable;
    MetricContext(highCpu, highElapsed, highFrequency, m.elapsedPerExec > 0.5, ioBound,
                  m.pctcpu > 85.0, m.pcttotal, m.pcttotal > 10.0, qt)
  }

  // ---------------------------------------------------------------------
  // Primary condition
  // ---------------------------------------------------------------------

  datatype Condition =
    | RmanSystemSql | HighCpuHighElapsed | HighFrequencyLowElapsed | HighIoPattern
    | StablePerformance | GeneralOptimization | LimitedData

  /** `_determine_primary_condition`: background SQL first, then five rules in order. */
  function DeterminePrimaryCondition(p: Patterns, c: MetricContext): (r: Condition)
    ensures r.RmanSystemSql? <==> p.rmanBackground
    ensures r.HighCpuHighElapsed? <==> !p.rmanBackground && c.isHighCpu && c.isHighElapsed
    ensures r.HighFrequencyLowElapsed? <==>
              !p.rmanBackground && !(c.isHighCpu && c.isHighElapsed) && c.queryType.HighFrequencyLowImpact?
    ensures r.HighIoPattern? <==>
              !p.rmanBackground && !(c.isHighCpu && c.isHighElapsed) && !c.queryType.HighFrequencyLowImpact?
              && (c.isIoBound || p.fullTableScan || p.tooManyJoins)
    ensures r.StablePerformance? <==>
              !p.rmanBackground && !(c.isHighCpu && c.isHighElapsed) && !c.queryType.HighFrequencyLowImpact?
              && !(c.isIoBound || p.fullTableScan || p.tooManyJoins) && c.queryType.Stable?
    ensures !r.LimitedData?
  {
    if p.rmanBackground then RmanSystemSql
    else if c.isHighCpu && c.isHighElapsed then HighCpuHighElapsed
    else if c.queryType.HighFrequencyLowImpact? then HighFrequencyLowElapsed
    else if c.isIoBound || p.fullTableScan || p.tooManyJoins then HighIoPattern
    else if c.queryType.Stable? then StablePerformance
    else GeneralOptimization
  }

  /**
   * Reached through the metric context, the general condition only ever
   * follows a low-frequency, high-impact query: more than 50 s elapsed.
   */
  lemma {:induction false} GeneralMeansLowFrequencyHighImpact(p: Patterns, m: SqlMetrics)
    requires DeterminePrimaryCondition(p, AnalyzeMetricsContext(m)).GeneralOptimization?
    ensures AnalyzeMetricsContext(m).queryType.LowFrequencyHighImpact?
    ensures m.elapsedTime > 50.0 && m.executions < 200
  {
    var c := AnalyzeMetricsContext(m);
    assert !c.queryType.Stable? && !c.queryType.HighFrequencyLowImpact?;
    assert !c.queryType.IoBottleneck? && !c.queryType.CpuBottleneck?;
  }

  /** A CPU-bottleneck query that is not background SQL is always handled as high CPU and elapsed. */
  lemma CpuBottleneckIsHighCpuCondition(p: Patterns, m: SqlMetrics)
    requires !p.rmanBackground && AnalyzeMetricsContext(m).queryType.CpuBottleneck?
    ensures DeterminePrimaryCondition(p, AnalyzeMetricsContext(m)).HighCpuHighElapsed?
  {
  }

  // ---------------------------------------------------------------------
  // Handlers
  // ---------------------------------------------------------------------

  datatype Risk = Low | Medium | High

  datatype IndexRec =
    | FunctionBasedIndexes | SelectiveIndexes | JoinIndexes | RebuildIndexes
    | CompositeJoinIndexes | AccessAdvisorRun | WhereColumnIndexes | OptimizeJoinIndexes
    | MonitorIndexUsage | IndexAdequate | IndexNotApplicable | NoIndexAnalysis

  datatype RewriteRec =
    | ReplaceCorrelated | EliminateDistinct | MoveFunctions | OptimizeSorting | ReviewCpuPlan
    | UseBindVariables | ResultCaching | BatchCalls | ReviewApplicationLogic
    | OptimizeJoinOrder | ReplaceWithExistsOrJoin | ReviewIoPlan
    | RewriteSubqueries | ReviewPlan | RewriteNotRecommended | NoRewriteNeeded | NoRewriteAvailable

  datatype DbaRec =
    | TuneHighElapsedSql | ControlCpuWorkload | UpdateOptimizerStatistics
    | BindVariablesAndCursors | SessionOptimization | AddOrOptimizeIndexes
    | ManageBackgroundJobs | ContinuousMonitoring | StandardMonitoring

  datatype Intelligence = Intelligence(
    condition: Condition,
    risk: Risk,
    indexRecs: seq<IndexRec>,
    rewriteRecs: seq<RewriteRec>,
    dbaRecs: seq<DbaRec>,
    patternsDetected: seq<string>)

  /** The CPU handler's index list: one item per pattern, or the rebuild item alone. */
  method CpuIndexRecs(p: Patterns) returns (recs: seq<IndexRec>)
    ensures FunctionBasedIndexes in recs <==> p.functionsInWhere
    ensures SelectiveIndexes in recs <==> p.fullTableScan
    ensures JoinIndexes in recs <==> p.tooManyJoins
    ensures recs == [RebuildIndexes] <==> !p.functionsInWhere && !p.fullTableScan && !p.tooManyJoins
  {
    recs := [];
    if p.functionsInWhere { recs := recs + [FunctionBasedIndexes]; }
    if p.fullTableScan { recs := recs + [SelectiveIndexes]; }
    if p.tooManyJoins { recs := recs + [JoinIndexes]; }
    if |recs| == 0 { recs := recs + [RebuildIndexes]; }
  }

  /** The CPU handler's rewrite list: one item per pattern, or the plan review alone. */
  method CpuRewriteRecs(p: Patterns) returns (recs: seq<RewriteRec>)
    ensures ReplaceCorrelated in recs <==> p.correlatedSubqueries
    ensures EliminateDistinct in recs <==> p.heavyDistinct
    ensures MoveFunctions in recs <==> p.functionsInWhere
    ensures OptimizeSorting in recs <==> p.heavySorting
    ensures recs == [ReviewCpuPlan] <==>
              !p.correlatedSubqueries && !p.heavyDistinct && !p.functionsInWhere && !p.heavySorting
  {
    recs := [];
    if p.correlatedSubqueries { recs := recs + [ReplaceCorrelated]; }
    if p.heavyDistinct { recs := recs + [EliminateDistinct]; }
    if p.functionsInWhere { recs := recs + [MoveFunctions]; }
    if p.heavySorting { recs := recs + [OptimizeSorting]; }
    if |recs| == 0 { recs := recs + [ReviewCpuPlan]; }
  }

  /** `_handle_cpu_bottleneck`: high risk, the two lists and three fixed DBA items. */
  method HandleCpuBottleneck(p: Patterns) returns (r: Intelligence)
    ensures r.condition == HighCpuHighElapsed && r.risk == High
    // the index list
    ensures FunctionBasedIndexes in r.indexRecs <==> p.functionsInWhere
    ensures SelectiveIndexes in r.indexRecs <==> p.fullTableScan
    ensures JoinIndexes in r.indexRecs <==> p.tooManyJoins
    ensures r.indexRecs == [RebuildIndexes] <==> !p.functionsInWhere && !p.fullTableScan && !p.tooManyJoins
    // the rewrite list
    ensures ReplaceCorrelated in r.rewriteRecs <==> p.correlatedSubqueries
    ensures EliminateDistinct in r.rewriteRecs <==> p.heavyDistinct
    ensures MoveFunctions in r.rewriteRecs <==> p.functionsInWhere
    ensures OptimizeSorting in r.rewriteRecs <==> p.heavySorting
    ensures r.rewriteRecs == [ReviewCpuPlan] <==>
              !p.correlatedSubqueries && !p.heavyDistinct && !p.functionsInWhere && !p.heavySorting
    ensures r.dbaRecs == [TuneHighElapsedSql, ControlCpuWorkload, UpdateOptimizerStatistics]
    ensures r.patternsDetected == PatternsDetected(p)
  {
    var indexRecs := CpuIndexRecs(p);
    var rewriteRecs := CpuRewriteRecs(p);
    r := Intelligence(HighCpuHighElapsed, High, indexRecs, rewriteRecs,
                      [TuneHighElapsedSql, ControlCpuWorkload, UpdateOptimizerStatistics],
                      PatternsDetected(p));
  }

  /** `_handle_frequency_load`: bind variables first when literals are used, then three fixed items. */
  method HandleFrequencyLoad(p: Patterns) returns (r: Intelligence)
    ensures r.condition == HighFrequencyLowElapsed && r.risk == Medium
    ensures r.indexRecs == [IndexAdequate]
    ensures r.rewriteRecs ==
              (if p.literalValues then [UseBindVariables] else [])
              + [ResultCaching, BatchCalls, ReviewApplicationLogic]
    ensures |r.dbaRecs| == 2
    ensures r.patternsDetected == PatternsDetected(p)
  {
    var rewriteRecs: seq<RewriteRec> := [];
    if p.literalValues { rewriteRecs := rewriteRecs + [UseBindVariables]; }
    rewriteRecs := rewriteRecs + [ResultCaching];
    rewriteRecs := rewriteRecs + [BatchCalls];
    rewriteRecs := rewriteRecs + [ReviewApplicationLogic];
    r := Intelligence(HighFrequencyLowElapsed, Medium, [IndexAdequate], rewriteRecs,
                      [BindVariablesAndCursors, SessionOptimization], PatternsDetected(p));
  }

  /** The IO handler's index list, closed by the SQL Access Advisor run. */
  method IoIndexRecs(p: Patterns) returns (recs: seq<IndexRec>)
    ensures |recs| > 0 && recs[|recs| - 1] == AccessAdvisorRun
    ensures SelectiveIndexes in recs <==> p.fullTableScan
    ensures CompositeJoinIndexes in recs <==> p.tooManyJoins
  {
    recs := [];
    if p.fullTableScan { recs := recs + [SelectiveIndexes]; }
    if p.tooManyJoins { recs := recs + [CompositeJoinIndexes]; }
    recs := recs + [AccessAdvisorRun];
  }

  /** The IO handler's rewrite list, with the plan review only when nothing else applies. */
  method IoRewriteRecs(p: Patterns) returns (recs: seq<RewriteRec>)
    ensures OptimizeJoinOrder in recs <==> p.tooManyJoins
    ensures ReplaceWithExistsOrJoin in recs <==> p.correlatedSubqueries
    ensures recs == [ReviewIoPlan] <==> !p.tooManyJoins && !p.correlatedSubqueries
  {
    recs := [];
    if p.tooManyJoins { recs := recs + [OptimizeJoinOrder]; }
    if p.correlatedSubqueries { recs := recs + [ReplaceWithExistsOrJoin]; }
    if |recs| == 0 { recs := recs + [ReviewIoPlan]; }
  }

  /** `_handle_io_bottleneck`: high risk above 50 s elapsed, the advisor run always last. */
  method HandleIoBottleneck(p: Patterns, m: SqlMetrics) returns (r: Intelligence)
    ensures r.condition == HighIoPattern
    ensures r.risk.High? <==> m.elapsedTime > 50.0
    ensures r.risk.Medium? <==> m.elapsedTime <= 50.0
    ensures |r.indexRecs| > 0 && r.indexRecs[|r.indexRecs| - 1] == AccessAdvisorRun
    ensures SelectiveIndexes in r.indexRecs <==> p.fullTableScan
    ensures CompositeJoinIndexes in r.indexRecs <==> p.tooManyJoins
    ensures OptimizeJoinOrder in r.rewriteRecs <==> p.tooManyJoins
    ensures ReplaceWithExistsOrJoin in r.rewriteRecs <==> p.correlatedSubqueries
    ensures r.rewriteRecs == [ReviewIoPlan] <==> !p.tooManyJoins && !p.correlatedSubqueries
    ensures r.patternsDetected == PatternsDetected(p)
  {
    var indexRecs := IoIndexRecs(p);
    var rewriteRecs := IoRewriteRecs(p);
    var risk := if m.elapsedTime > 50.0 then High else Medium;
    r := Intelligence(HighIoPattern, risk, indexRecs, rewriteRecs,
                      [AddOrOptimizeIndexes, UpdateOptimizerStatistics], PatternsDetected(p));
  }

  /** `_handle_background_load`: fixed texts and high risk. */
  function HandleBackgroundLoad(p: Patterns): (r: Intelligence)
    ensures r.condition == RmanSystemSql && r.risk == High
    ensures r.indexRecs == [IndexNotApplicable] && r.rewriteRecs == [RewriteNotRecommended]
    ensures r.dbaRecs == [ManageBackgroundJobs, ContinuousMonitoring]
    ensures r.patternsDetected == PatternsDetected(p)
  {
    Intelligence(RmanSystemSql, High, [IndexNotApplicable], [RewriteNotRecommended],
                 [ManageBackgroundJobs, ContinuousMonitoring], PatternsDetected(p))
  }

  /** `_handle_stable_query`: fixed texts and low risk. */
  function HandleStableQuery(p: Patterns): (r: Intelligence)
    ensures r.condition == StablePerformance && r.risk == Low
    ensures r.indexRecs == [IndexAdequate] && r.rewriteRecs == [NoRewriteNeeded]
    ensures r.dbaRecs == [ContinuousMonitoring]
    ensures r.patternsDetected == PatternsDetected(p)
  {
    Intelligence(StablePerformance, Low, [IndexAdequate], [NoRewriteNeeded],
                 [ContinuousMonitoring], PatternsDetected(p))
  }

  /** The general handler's three-band risk. */
  function GeneralRisk(elapsed: real): (r: Risk)
    ensures r.High? <==> elapsed > 30.0
    ensures r.Medium? <==> 10.0 < elapsed <= 30.0
    ensures r.Low? <==> elapsed <= 10.0
  {
    if elapsed > 30.0 then High else if elapsed > 10.0 then Medium else Low
  }

  /** The general handler's index list. */
  method GeneralIndexRecs(p: Patterns) returns (recs: seq<IndexRec>)
    ensures WhereColumnIndexes in recs <==> p.fullTableScan
    ensures OptimizeJoinIndexes in recs <==> p.tooManyJoins
    ensures recs == [MonitorIndexUsage] <==> !p.fullTableScan && !p.tooManyJoins
  {
    recs := [];
    if p.fullTableScan { recs := recs + [WhereColumnIndexes]; }
    if p.tooManyJoins { recs := recs + [OptimizeJoinIndexes]; }
    if |recs| == 0 { recs := recs + [MonitorIndexUsage]; }
  }

  /** The general handler's rewrite list. */
  method GeneralRewriteRecs(p: Patterns) returns (recs: seq<RewriteRec>)
    ensures UseBindVariables in recs <==> p.literalValues
    ensures RewriteSubqueries in recs <==> p.correlatedSubqueries
    ensures recs == [ReviewPlan] <==> !p.literalValues && !p.correlatedSubqueries
  {
    recs := [];
    if p.literalValues { recs := recs + [UseBindVariables]; }
    if p.correlatedSubqueries { recs := recs + [RewriteSubqueries]; }
    if |recs| == 0 { recs := recs + [ReviewPlan]; }
  }

  /** The general handler's DBA list, driven by elapsed and CPU time. */
  method GeneralDbaRecs(m: SqlMetrics) returns (recs: seq<DbaRec>)
    ensures TuneHighElapsedSql in recs <==> m.elapsedTime > 20.0
    ensures UpdateOptimizerStatistics in recs <==> m.cpuTime > 10.0
    ensures recs == [StandardMonitoring] <==> m.elapsedTime <= 20.0 && m.cpuTime <= 10.0
  {
    recs := [];
    if m.elapsedTime > 20.0 { recs := recs + [TuneHighElapsedSql]; }
    if m.cpuTime > 10.0 { recs := recs + [UpdateOptimizerStatistics]; }
    if |recs| == 0 { recs := recs + [StandardMonitoring]; }
  }

  /** `_handle_general_optimization`: the three-band risk and the three lists. */
  method HandleGeneralOptimization(p: Patterns, m: SqlMetrics) returns (r: Intelligence)
    ensures r.condition == GeneralOptimization && r.risk == GeneralRisk(m.elapsedTime)
    // the index list
    ensures WhereColumnIndexes in r.indexRecs <==> p.fullTableScan
    ensures OptimizeJoinIndexes in r.indexRecs <==> p.tooManyJoins
    ensures r.indexRecs == [MonitorIndexUsage] <==> !p.fullTableScan && !p.tooManyJoins
    // the rewrite list
    ensures UseBindVariables in r.rewriteRecs <==> p.literalValues
    ensures RewriteSubqueries in r.rewriteRecs <==> p.correlatedSubqueries
    ensures r.rewriteRecs == [ReviewPlan] <==> !p.literalValues && !p.correlatedSubqueries
    // the DBA list
    ensures TuneHighElapsedSql in r.dbaRecs <==> m.elapsedTime > 20.0
    ensures UpdateOptimizerStatistics in r.dbaRecs <==> m.cpuTime > 10.0
    ensures r.dbaRecs == [StandardMonitoring] <==> m.elapsedTime <= 20.0 && m.cpuTime <= 10.0
    ensures r.patternsDetected == PatternsDetected(p)
  {
    var indexRecs := GeneralIndexRecs(p);
    var rewriteRecs := GeneralRewriteRecs(p);
    var dbaRecs := GeneralDbaRecs(m);
    r := Intelligence(GeneralOptimization, GeneralRisk(m.elapsedTime), indexRecs, rewriteRecs, dbaRecs,
                      PatternsDetected(p));
  }

  /** `_apply_intelligence_brain`: the handler of the primary condition. */
  method ApplyIntelligenceBrain(p: Patterns, c: MetricContext, m: SqlMetrics) returns (r: Intelligence)
    ensures r.condition == DeterminePrimaryCondition(p, c)
    ensures r.patternsDetected == PatternsDetected(p)
    ensures r.condition.RmanSystemSql? || r.condition.HighCpuHighElapsed? ==> r.risk.High?
    ensures r.condition.HighFrequencyLowElapsed? ==> r.risk.Medium?
    ensures r.condition.StablePerformance? ==> r.risk.Low?
    ensures r.condition.HighIoPattern? ==> (r.risk.High? <==> m.elapsedTime > 50.0)
    ensures r.condition.GeneralOptimization? ==> r.risk == GeneralRisk(m.elapsedTime)
  {
    var condition := DeterminePrimaryCondition(p, c);
    match condition {
      case HighCpuHighElapsed => r := HandleCpuBottleneck(p);
      case HighFrequencyLowElapsed => r := HandleFrequencyLoad(p);
      case HighIoPattern => r := HandleIoBottleneck(p, m);
      case RmanSystemSql => r := HandleBackgroundLoad(p);
      case StablePerformance => r := HandleStableQuery(p);
      case _ => r := HandleGeneralOptimization(p, m);
    }
  }

  /** `_create_default_analysis`. */
  function DefaultAnalysis(): (r: Intelligence)
    ensures r.condition == LimitedData && r.risk == Low && r.patternsDetected == []
  {
    Intelligence(LimitedData, Low, [NoIndexAnalysis], [NoRewriteAvailable], [StandardMonitoring], [])
  }

  /**
   * `analyze_sql_patterns`: a missing or empty text gives the limited-data
   * analysis; otherwise the condition is the primary condition of the
   * detected patterns and the metric context.
   */
  method AnalyzeSqlPatterns(sqlText: Option<string>, rx: RegexFacts, m: SqlMetrics) returns (r: Intelligence)
    ensures !TruthyText(sqlText) ==> r == DefaultAnalysis()
    ensures r.condition.LimitedData? <==> !TruthyText(sqlText)
    ensures TruthyText(sqlText) ==>
              var p := DetectSqlPatterns(sqlText.value, rx);
              && r.condition == DeterminePrimaryCondition(p, AnalyzeMetricsContext(m))
              && r.patternsDetected == PatternsDetected(p)
    ensures r.condition.GeneralOptimization? ==> r.risk.High?
  {
    if !TruthyText(sqlText) {
      return DefaultAnalysis();
    }
    var p := DetectSqlPatterns(sqlText.value, rx);
    var c := AnalyzeMetricsContext(m);
    r := ApplyIntelligenceBrain(p, c, m);
    if r.condition.GeneralOptimization? {
      GeneralMeansLowFrequencyHighImpact(p, m);
    }
  }

  /** Background SQL always wins: an RMAN marker in the text makes the analysis high-risk background load. */
  lemma RmanMarkerWins(sqlText: string, rx: RegexFacts, m: SqlMetrics)
    requires Contains(Upper(sqlText), "RMAN@")
    ensures var p := DetectSqlPatterns(sqlText, rx);
            p.rmanBackground && DeterminePrimaryCondition(p, AnalyzeMetricsContext(m)).RmanSystemSql?
            && "rman_background" in PatternsDetected(p)
  {
    var p := DetectSqlPatterns(sqlText, rx);
    assert Contains(Upper(sqlText), RmanMarkers[0]);
    assert PatternKeys[7] == "rman_background" && Flags(p)[7];
  }
}
