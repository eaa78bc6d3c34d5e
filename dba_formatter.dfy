/**
 * The DBA output formatter (`engine/dba_formatter.py`): the API response,
 * the dashboard summary and the outline of the console report, all
 * reshaped from the DBA expert analysis without changing it.
 *
 * The analysis dictionary is a record whose optional parts are `None`
 * when the key is missing, so that the formatter's defaults can be
 * stated. Generated text (problem summary, interpretation,
 * recommendations) is not part of this model.
 */
module DbaFormatter {
  import opened Common
  import opened DbaExpert

  // ---------------------------------------------------------------------
  // The analysis as the formatter reads it
  // ---------------------------------------------------------------------

  datatype DbaAnalysis = DbaAnalysis(
    workloadSummary: Option<WorkloadSummary>,
    findings: Option<seq<DbaFinding>>,
    conclusion: Option<string>,
    problematicCount: Option<nat>,
    totalAnalyzed: Option<nat>)

  /**
   * The dictionary `analyze_workload` returns: an empty workload summary
   * on the failure path, every other key present.
   */
  function AnalysisOf(res: WorkloadResult, conclusion: string): (a: DbaAnalysis)
    ensures a.findings == Some(res.findings)
    ensures a.problematicCount == Some(res.problematicCount) && a.totalAnalyzed == Some(res.totalAnalyzed)
    ensures a.workloadSummary == res.summary
  {
    DbaAnalysis(res.summary, Some(res.findings), Some(conclusion),
                Some(res.problematicCount), Some(res.totalAnalyzed))
  }

  /** `dba_analysis.get('problematic_sql_findings', [])`. */
  function FindingsOf(a: DbaAnalysis): (r: seq<DbaFinding>)
    ensures a.findings.None? ==> r == []
    ensures a.findings.Some? ==> r == a.findings.value
  {
    if a.findings.Some? then a.findings.value else []
  }

  /** `dict.get(key, 0)` on a finding's numeric technical parameters. */
  function Get(m: map<string, real>, key: string): (r: real)
    ensures key in m ==> r == m[key]
    ensures key !in m ==> r == 0.0
  {
    if key in m then m[key] else 0.0
  }

  /** The workload pattern's name as the engine spells it. */
  function PatternName(p: WorkloadPattern): string
  {
    match p
    case NoSignificantWorkload => "NO_SIGNIFICANT_WORKLOAD"
    case CpuIntensiveHeavyLoad => "CPU_INTENSIVE_HEAVY_LOAD"
    case IoIntensiveHeavyLoad => "IO_INTENSIVE_HEAVY_LOAD"
    case HighFrequencyWorkload => "HIGH_FREQUENCY_WORKLOAD"
    case WaitEventDominated => "WAIT_EVENT_DOMINATED"
    case ModerateWorkload => "MODERATE_WORKLOAD"
  }

  // ---------------------------------------------------------------------
  // format_for_api
  // ---------------------------------------------------------------------

  datatype WorkloadFormatted = WorkloadFormatted(
    pattern: string,
    totalElapsedS: real,
    totalCpuS: real,
    totalExecutions: real,
    sqlAnalyzed: nat,
    problematicFound: nat,
    dominantWaitEvent: Option<string>)

  /** The fields of one finding the API response carries, besides its text. */
  datatype FindingFormatted = FindingFormatted(
    sqlId: string,
    severity: string,
    priorityScore: real,
    technicalParameters: map<string, real>,
    executionPattern: ExecutionPattern)

  datatype Completeness = Completeness(problematicSqlCount: nat, totalSqlAnalyzed: nat)

  datatype ApiResponse = ApiResponse(
    completeness: Completeness,
    workloadSummary: WorkloadFormatted,
    findings: seq<FindingFormatted>,
    conclusion: string)

  /**
   * The workload block: the engine's summary, or 'UNKNOWN' with zero
   * totals and no dominant wait when it is missing; the number of
   * problematic statements is the number of findings.
   */
  function WorkloadFormattedOf(w: Option<WorkloadSummary>, findingCount: nat): (r: WorkloadFormatted)
    ensures r.problematicFound == findingCount
    ensures w.None? ==> r == WorkloadFormatted("UNKNOWN", 0.0, 0.0, 0.0, 0, findingCount, None)
    ensures w.Some? ==>
              && r.pattern == PatternName(w.value.pattern)
              && r.totalElapsedS == w.value.totalElapsed && r.totalCpuS == w.value.totalCpu
              && r.totalExecutions == w.value.totalExecutions && r.sqlAnalyzed == w.value.sqlCount
    ensures r.dominantWaitEvent.Some? <==> w.Some? && w.value.dominantWait.Some?
    ensures r.dominantWaitEvent.Some? ==> r.dominantWaitEvent.value == w.value.dominantWait.value.event
  {
    if w.None? then WorkloadFormatted("UNKNOWN", 0.0, 0.0, 0.0, 0, findingCount, None)
    else
      var s := w.value;
      WorkloadFormatted(PatternName(s.pattern), s.totalElapsed, s.totalCpu, s.totalExecutions,
        s.sqlCount, findingCount,
        if s.dominantWait.Some? then Some(s.dominantWait.value.event) else None)
  }

  /** One finding in the API response: identity copied, priority score from the DBA score. */
  function FindingFormattedOf(f: DbaFinding): (r: FindingFormatted)
    ensures r.sqlId == f.sqlId && r.severity == SeverityName(f.severity)
    ensures r.priorityScore == f.dbaPriorityScore
    ensures r.technicalParameters == f.technicalParameters && r.executionPattern == f.executionPattern
  {
    FindingFormatted(f.sqlId, SeverityName(f.severity), f.dbaPriorityScore,
                     f.technicalParameters, f.executionPattern)
  }

  /** The whole API response, as a function of the analysis. */
  function ApiResponseOf(a: DbaAnalysis): ApiResponse
  {
    var fs := FindingsOf(a);
    ApiResponse(
      Completeness(if a.problematicCount.Some? then a.problematicCount.value else 0,
                   if a.totalAnalyzed.Some? then a.totalAnalyzed.value else 0),
      WorkloadFormattedOf(a.workloadSummary, |fs|),
      seq(|fs|, i requires 0 <= i < |fs| => FindingFormattedOf(fs[i])),
      if a.conclusion.Some? then a.conclusion.value else "")
  }

  /**
   * `format_for_api`: the findings loop appends one formatted entry per
   * finding, in order.
   */
  method FormatForApi(a: DbaAnalysis) returns (r: ApiResponse)
    ensures r == ApiResponseOf(a)
  {
    var findings := FindingsOf(a);
    var workload := WorkloadFormattedOf(a.workloadSummary, |findings|);
    var formatted: seq<FindingFormatted> := [];
    var i := 0;
    while i < |findings|
      invariant 0 <= i <= |findings|
      invariant |formatted| == i
      invariant forall k :: 0 <= k < i ==> formatted[k] == FindingFormattedOf(findings[k])
    {
      formatted := formatted + [FindingFormattedOf(findings[i])];
      i := i + 1;
    }
    var completeness := Completeness(
      if a.problematicCount.Some? then a.problematicCount.value else 0,
      if a.totalAnalyzed.Some? then a.totalAnalyzed.value else 0);
    r := ApiResponse(completeness, workload, formatted,
                     if a.conclusion.Some? then a.conclusion.value else "");
  }

  /**
   * The API response lists the findings one for one, in order, with their
   * identity and score, and counts them as the problematic statements found;
   * the completeness block repeats the engine's counts, 0 when missing.
   */
  lemma ApiResponseShape(a: DbaAnalysis)
    ensures var r := ApiResponseOf(a);
      && |r.findings| == |FindingsOf(a)| == r.workloadSummary.problematicFound
      && (forall i :: 0 <= i < |r.findings| ==>
            && r.findings[i].sqlId == FindingsOf(a)[i].sqlId
            && r.findings[i].severity == SeverityName(FindingsOf(a)[i].severity)
            && r.findings[i].priorityScore == FindingsOf(a)[i].dbaPriorityScore)
      && (r.completeness.problematicSqlCount == if a.problematicCount.Some? then a.problematicCount.value else 0)
      && (r.completeness.totalSqlAnalyzed == if a.totalAnalyzed.Some? then a.totalAnalyzed.value else 0)
  {
  }

  /**
   * For an analysis the DBA engine produced, the completeness count and
   * the number of problematic statements found agree; on the failure path
   * the workload block falls back to 'UNKNOWN' with no findings.
   */
  lemma EngineOutputConsistent(res: WorkloadResult, conclusion: string)
    requires res.problematicCount == |res.findings|
    requires res.status.Invalid? ==> res == InvalidResult
    ensures var r := ApiResponseOf(AnalysisOf(res, conclusion));
      && r.completeness.problematicSqlCount == r.workloadSummary.problematicFound
      && r.completeness.totalSqlAnalyzed == res.totalAnalyzed
      && r.conclusion == conclusion
      && (res.status.Invalid? ==>
            r.workloadSummary == WorkloadFormatted("UNKNOWN", 0.0, 0.0, 0.0, 0, 0, None) && r.findings == [])
  {
  }

  // ---------------------------------------------------------------------
  // format_summary_only
  // ---------------------------------------------------------------------

  datatype SummaryItem = SummaryItem(
    sqlId: string, severity: string, priorityScore: real,
    elapsedS: real, cpuS: real, executions: real)

  datatype SummaryOnly = SummaryOnly(
    problematicCount: nat,
    totalAnalyzed: nat,
    workloadPattern: Option<string>,
    summaryItems: seq<SummaryItem>)

  /**
   * One dashboard item as written: the execution count is read from the
   * key `execution_count`, which the engine's technical parameters never
   * carry.
   */
  function SummaryItemAsWritten(f: DbaFinding): (r: SummaryItem)
    ensures r.sqlId == f.sqlId && r.priorityScore == f.dbaPriorityScore
    ensures r.executions == Get(f.technicalParameters, "execution_count")
  {
    var t := f.technicalParameters;
    SummaryItem(f.sqlId, SeverityName(f.severity), f.dbaPriorityScore,
                Get(t, "total_elapsed_time_s"), Get(t, "cpu_time_s"), Get(t, "execution_count"))
  }

  /** One dashboard item, reading the execution count from `executions`. */
  function SummaryItemOf(f: DbaFinding): (r: SummaryItem)
    ensures r.sqlId == f.sqlId && r.severity == SeverityName(f.severity)
    ensures r.priorityScore == f.dbaPriorityScore
    ensures r.elapsedS == Get(f.technicalParameters, "total_elapsed_time_s")
    ensures r.cpuS == Get(f.technicalParameters, "cpu_time_s")
    ensures r.executions == Get(f.technicalParameters, "executions")
  {
    var t := f.technicalParameters;
    SummaryItem(f.sqlId, SeverityName(f.severity), f.dbaPriorityScore,
                Get(t, "total_elapsed_time_s"), Get(t, "cpu_time_s"), Get(t, "executions"))
  }

  /**
   * For every finding the engine builds, the item as written always shows
   * 0 executions, while the corrected item shows the statement's count.
   */
  lemma ExecutionCountNeverEmitted(c: Candidate, ashIoPercent: real)
    ensures SummaryItemAsWritten(DeepAnalysis(c, ashIoPercent)).executions == 0.0
    ensures SummaryItemOf(DeepAnalysis(c, ashIoPercent)).executions == c.metrics.executions as real
    ensures SummaryItemOf(DeepAnalysis(c, ashIoPercent)).elapsedS == c.metrics.elapsed
    ensures SummaryItemOf(DeepAnalysis(c, ashIoPercent)).cpuS == c.metrics.cpu
  {
    var t := DeepAnalysis(c, ashIoPercent).technicalParameters;
    assert t.Keys == TechnicalKeys;
    assert "execution_count" !in TechnicalKeys;
    assert "executions" in TechnicalKeys && "total_elapsed_time_s" in TechnicalKeys && "cpu_time_s" in TechnicalKeys;
  }

  /** A concrete finding whose dashboard item loses its 600 executions as written. */
  lemma ExecutionCountExample()
    ensures var c := Candidate("0abc", None, SqlStat(Some("0abc"), 40.0, 10.0, 600, 0.5, 20.0, 25.0, 5.0), [], High, 1.0);
      && SummaryItemAsWritten(DeepAnalysis(c, 0.0)).executions == 0.0
      && SummaryItemOf(DeepAnalysis(c, 0.0)).executions == 600.0
  {
    var c := Candidate("0abc", None, SqlStat(Some("0abc"), 40.0, 10.0, 600, 0.5, 20.0, 25.0, 5.0), [], High, 1.0);
    ExecutionCountNeverEmitted(c, 0.0);
  }

  /** The dashboard summary, as a function of the analysis. */
  function SummaryOnlyOf(a: DbaAnalysis): SummaryOnly
  {
    var fs := FindingsOf(a);
    SummaryOnly(|fs|, if a.totalAnalyzed.Some? then a.totalAnalyzed.value else 0,
      if a.workloadSummary.Some? then Some(PatternName(a.workloadSummary.value.pattern)) else None,
      seq(|fs|, i requires 0 <= i < |fs| => SummaryItemOf(fs[i])))
  }

  /** `format_summary_only`, reading the execution count from `executions`. */
  method FormatSummaryOnly(a: DbaAnalysis) returns (r: SummaryOnly)
    ensures r == SummaryOnlyOf(a)
  {
    var findings := FindingsOf(a);
    var items: seq<SummaryItem> := [];
    var i := 0;
    while i < |findings|
      invariant 0 <= i <= |findings|
      invariant |items| == i
      invariant forall k :: 0 <= k < i ==> items[k] == SummaryItemOf(findings[k])
    {
      items := items + [SummaryItemOf(findings[i])];
      i := i + 1;
    }
    r := SummaryOnly(|findings|, if a.totalAnalyzed.Some? then a.totalAnalyzed.value else 0,
      if a.workloadSummary.Some? then Some(PatternName(a.workloadSummary.value.pattern)) else None,
      items);
  }

  /** The dashboard counts the findings and lists one item per finding, in order. */
  lemma SummaryOnlyShape(a: DbaAnalysis)
    ensures var r := SummaryOnlyOf(a);
      && r.problematicCount == |FindingsOf(a)| == |r.summaryItems|
      && (forall i :: 0 <= i < |r.summaryItems| ==>
            r.summaryItems[i].sqlId == FindingsOf(a)[i].sqlId
            && r.summaryItems[i].priorityScore == FindingsOf(a)[i].dbaPriorityScore)
      && (a.workloadSummary.None? ==> r.workloadPattern.None?)
  {
  }

  // ---------------------------------------------------------------------
  // format_for_console
  // ---------------------------------------------------------------------

  /** The console report, as its blocks of lines; rendered text is not modelled. */
  datatype ConsoleBlock =
    | Header
    | WorkloadBlock(pattern: string, sqlCount: nat, problematicFound: nat)
    | DominantWaitLine(event: string)
    | ProblematicHeader(sqlCount: nat, problematicFound: nat)
    | FindingBlock(index: nat, sqlId: string)
    | NoCriticalIssues
    | Conclusion(text: string)

  function IsFindingBlock(b: ConsoleBlock): bool { b.FindingBlock? }

  /** The report's opening: banner, workload block and the dominant wait when there is one. */
  function OpeningBlocks(w: WorkloadFormatted): (r: seq<ConsoleBlock>)
    ensures NoCriticalIssues !in r && forall b :: b in r ==> !b.FindingBlock?
  {
    [Header, WorkloadBlock(w.pattern, w.sqlAnalyzed, w.problematicFound)]
    + (if w.dominantWaitEvent.Some? then [DominantWaitLine(w.dominantWaitEvent.value)] else [])
  }

  /** One block per finding, numbered from 1. */
  function FindingBlocks(fs: seq<DbaFinding>): (r: seq<ConsoleBlock>)
    ensures |r| == |fs|
    ensures forall i :: 0 <= i < |fs| ==> r[i] == FindingBlock(i + 1, fs[i].sqlId)
  {
    seq(|fs|, i requires 0 <= i < |fs| => FindingBlock(i + 1, fs[i].sqlId))
  }

  /** The findings part: the numbered findings, or the "no critical issues" block. */
  function FindingsSection(w: WorkloadFormatted, fs: seq<DbaFinding>): seq<ConsoleBlock>
  {
    if |fs| > 0 then [ProblematicHeader(w.sqlAnalyzed, |fs|)] + FindingBlocks(fs)
    else [NoCriticalIssues]
  }

  /** The blocks of the console report, as a function of the analysis. */
  function ConsoleBlocksOf(a: DbaAnalysis): seq<ConsoleBlock>
  {
    var fs := FindingsOf(a);
    var w := WorkloadFormattedOf(a.workloadSummary, |fs|);
    OpeningBlocks(w) + FindingsSection(w, fs)
    + [Conclusion(if a.conclusion.Some? then a.conclusion.value else "")]
  }

  /** `format_for_console`: appends the blocks in report order. */
  method FormatForConsole(a: DbaAnalysis) returns (output: seq<ConsoleBlock>)
    ensures output == ConsoleBlocksOf(a)
  {
    var findings := FindingsOf(a);
    var w := WorkloadFormattedOf(a.workloadSummary, |findings|);
    output := [Header, WorkloadBlock(w.pattern, w.sqlAnalyzed, |findings|)];
    if w.dominantWaitEvent.Some? {
      output := output + [DominantWaitLine(w.dominantWaitEvent.value)];
    }
    assert output == OpeningBlocks(w);
    var prefix := output;
    if |findings| > 0 {
      output := output + [ProblematicHeader(w.sqlAnalyzed, |findings|)];
      var i := 0;
      while i < |findings|
        invariant 0 <= i <= |findings|
        invariant output == prefix + [ProblematicHeader(w.sqlAnalyzed, |findings|)] + FindingBlocks(findings[..i])
      {
        assert findings[..i + 1] == findings[..i] + [findings[i]];
        assert FindingBlocks(findings[..i + 1]) == FindingBlocks(findings[..i]) + [FindingBlock(i + 1, findings[i].sqlId)];
        output := output + [FindingBlock(i + 1, findings[i].sqlId)];
        i := i + 1;
      }
      assert findings[..i] == findings;
    } else {
      output := output + [NoCriticalIssues];
    }
    output := output + [Conclusion(if a.conclusion.Some? then a.conclusion.value else "")];
  }

  /** The report says "no critical issues" exactly when there are no findings. */
  lemma ConsoleNoIssuesIffEmpty(a: DbaAnalysis)
    ensures NoCriticalIssues in ConsoleBlocksOf(a) <==> |FindingsOf(a)| == 0
  {
    var fs := FindingsOf(a);
    var w := WorkloadFormattedOf(a.workloadSummary, |fs|);
    if |fs| > 0 {
      assert NoCriticalIssues !in FindingBlocks(fs);
      assert NoCriticalIssues !in FindingsSection(w, fs);
    } else {
      assert NoCriticalIssues in FindingsSection(w, fs);
    }
  }

  /** Every finding block of the report names the finding at its 1-based position, and all are there. */
  lemma ConsoleFindingsNumbered(a: DbaAnalysis)
    ensures forall b :: b in ConsoleBlocksOf(a) && b.FindingBlock? ==>
              1 <= b.index <= |FindingsOf(a)| && b.sqlId == FindingsOf(a)[b.index - 1].sqlId
    ensures forall i :: 0 <= i < |FindingsOf(a)| ==> FindingBlock(i + 1, FindingsOf(a)[i].sqlId) in ConsoleBlocksOf(a)
  {
    var fs := FindingsOf(a);
    var w := WorkloadFormattedOf(a.workloadSummary, |fs|);
    var sec := FindingsSection(w, fs);
    forall b | b in ConsoleBlocksOf(a) && b.FindingBlock?
      ensures 1 <= b.index <= |fs| && b.sqlId == fs[b.index - 1].sqlId
    {
      assert b in sec;
      assert b in FindingBlocks(fs);
    }
    forall i | 0 <= i < |fs| ensures FindingBlock(i + 1, fs[i].sqlId) in ConsoleBlocksOf(a) {
      assert FindingBlocks(fs)[i] in sec;
    }
  }
}
