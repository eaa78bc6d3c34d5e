/**
 * The DBA expert stage: workload totals and their pattern, the problem
 * criteria and priority score of one statement, the shortlist of at most
 * three statements, and the per-statement findings built from it.
 */
module DbaExpert {
  import opened Common
  import opened SnapshotMetadata

  // ---------------------------------------------------------------------
  // Inputs
  // ---------------------------------------------------------------------

  /** One row of the top-SQL list; a missing numeric key reads as 0. */
  datatype SqlStat = SqlStat(
    sqlId: Option<string>,
    elapsed: real,
    cpu: real,
    executions: int,
    elapsedPerExec: real,
    pcttotal: real,
    pctcpu: real,
    pctio: real)

  /** One row of the raw SQL list, consulted only for its text. */
  datatype RawSql = RawSql(sqlText: Option<string>)

  /** One wait-event row; `statisticName` is `None` when the key is missing. */
  datatype WaitEvent = WaitEvent(statisticName: Option<string>, timeS: real, pctOfDbTime: real)

  // ---------------------------------------------------------------------
  // Workload summary
  // ---------------------------------------------------------------------

  datatype WorkloadPattern =
    | NoSignificantWorkload | CpuIntensiveHeavyLoad | IoIntensiveHeavyLoad
    | HighFrequencyWorkload | WaitEventDominated | ModerateWorkload

  datatype DominantWait = DominantWait(event: string, timeS: real, pctDbTime: real)

  datatype WorkloadSummary = WorkloadSummary(
    pattern: WorkloadPattern,
    totalElapsed: real,
    totalCpu: real,
    totalExecutions: real,
    dominantWait: Option<DominantWait>,
    sqlCount: nat)

  function ElapsedOf(s: SqlStat): real { s.elapsed }
  function CpuOf(s: SqlStat): real { s.cpu }
  function ExecutionsOf(s: SqlStat): real { s.executions as real }

  /** `_classify_workload_pattern`: four rules, first match wins. */
  function ClassifyWorkloadPattern(totalElapsed: real, totalCpu: real, totalExecutions: real,
                                   dominantWait: Option<DominantWait>): (p: WorkloadPattern)
    ensures !p.NoSignificantWorkload?
    ensures p.CpuIntensiveHeavyLoad? <==> totalElapsed > 500.0 && totalCpu > 200.0
    ensures p.IoIntensiveHeavyLoad? <==> totalElapsed > 500.0 && totalCpu <= 200.0
    ensures p.HighFrequencyWorkload? <==> totalElapsed <= 500.0 && totalExecutions > 10000.0
    ensures p.WaitEventDominated? <==>
              totalElapsed <= 500.0 && totalExecutions <= 10000.0
              && dominantWait.Some? && dominantWait.value.pctDbTime > 30.0
    ensures p.ModerateWorkload? <==>
              totalElapsed <= 500.0 && totalExecutions <= 10000.0
              && (dominantWait.None? || dominantWait.value.pctDbTime <= 30.0)
  {
    if totalElapsed > 500.0 then
      (if totalCpu > 200.0 then CpuIntensiveHeavyLoad else IoIntensiveHeavyLoad)
    else if totalExecutions > 10000.0 then HighFrequencyWorkload
    else if dominantWait.Some? && dominantWait.value.pctDbTime > 30.0 then WaitEventDominated
    else ModerateWorkload
  }

  /** The first wait event, if any, is the dominant one. */
  function DominantWaitOf(waits: seq<WaitEvent>): (d: Option<DominantWait>)
    ensures d.None? <==> |waits| == 0
    ensures d.Some? ==> d.value.timeS == waits[0].timeS && d.value.pctDbTime == waits[0].pctOfDbTime
  {
    if |waits| == 0 then None
    else
      var w := waits[0];
      Some(DominantWait(if w.statisticName.Some? then w.statisticName.value else "Unknown",
                        w.timeS, w.pctOfDbTime))
  }

  /** `_analyze_workload_patterns`. */
  function AnalyzeWorkloadPatterns(topSql: seq<SqlStat>, waits: seq<WaitEvent>): (w: WorkloadSummary)
    ensures |topSql| == 0 ==>
              w == WorkloadSummary(NoSignificantWorkload, 0.0, 0.0, 0.0, None, 0)
    ensures |topSql| > 0 ==>
              && w.totalElapsed == SumOf(topSql, ElapsedOf)
              && w.totalCpu == SumOf(topSql, CpuOf)
              && w.totalExecutions == SumOf(topSql, ExecutionsOf)
              && w.dominantWait == DominantWaitOf(waits)
              && w.sqlCount == |topSql|
              && w.pattern == ClassifyWorkloadPattern(w.totalElapsed, w.totalCpu,
                                                      w.totalExecutions, w.dominantWait)
  {
    if |topSql| == 0 then WorkloadSummary(NoSignificantWorkload, 0.0, 0.0, 0.0, None, 0)
    else
      var e := SumOf(topSql, ElapsedOf);
      var c := SumOf(topSql, CpuOf);
      var x := SumOf(topSql, ExecutionsOf);
      var d := DominantWaitOf(waits);
      WorkloadSummary(ClassifyWorkloadPattern(e, c, x, d), e, c, x, d, |topSql|)
  }

  /** The workload summary depends on the top-SQL rows, not on their order. */
  lemma WorkloadSummaryOrderIndependent(a: seq<SqlStat>, b: seq<SqlStat>, waits: seq<WaitEvent>)
    requires multiset(a) == multiset(b)
    ensures AnalyzeWorkloadPatterns(a, waits) == AnalyzeWorkloadPatterns(b, waits)
  {
    assert |a| == |multiset(a)| == |multiset(b)| == |b|;
    if |a| > 0 {
      SumOfPermutation(a, b, ElapsedOf);
      SumOfPermutation(a, b, CpuOf);
      SumOfPermutation(a, b, ExecutionsOf);
    }
  }

  // ---------------------------------------------------------------------
  // Problem criteria of one statement
  // ---------------------------------------------------------------------

  const CriticalElapsedTime: real := 30.0
  const HighElapsedTime: real := 10.0
  const CriticalCpuTime: real := 20.0
  const HighCpuTime: real := 5.0
  const CriticalExecutions: int := 500
  const MediumExecutions: int := 50
  const CriticalWorkloadPct: real := 15.0
  const HighWorkloadPct: real := 5.0
  const CriticalAvgElapsed: real := 1.0
  const MediumAvgElapsed: real := 0.1
  const HighCpuPercentage: real := 50.0
  const MediumCpuPercentage: real := 30.0
  const HighIoWaitPct: real := 40.0

  /** "NONE" is the severity of a statement no criterion flagged. */
  datatype Severity = NoSeverity | Medium | High

  datatype ProblemReason =
    | HighElapsed | MediumElapsed | HighFrequency | MediumFrequency
    | SlowExecution | SlowAvgExec | HighCpuPct | MediumCpuPct
    | DominantWorkload | HighWorkloadImpact | HighIoWait | CriticalCpu | HighCpu

  /** Some criterion flags the statement. */
  predicate IsProblematic(s: SqlStat)
  {
    || s.elapsed >= HighElapsedTime
    || s.executions >= CriticalExecutions
    || (s.executions >= MediumExecutions && s.elapsed > 10.0)
    || s.elapsedPerExec >= CriticalAvgElapsed
    || (s.elapsedPerExec >= MediumAvgElapsed && s.executions > 50)
    || s.pctcpu >= MediumCpuPercentage
    || s.pcttotal >= HighWorkloadPct
    || s.pctio >= HighIoWaitPct
    || s.cpu >= CriticalCpuTime
    || (s.cpu >= HighCpuTime && s.elapsed > 30.0)
  }

  /**
   * The criteria that end at HIGH. A high execution count raises the
   * severity only when no elapsed-time criterion has set one before it.
   */
  predicate IsHighSeverity(s: SqlStat)
  {
    || s.elapsed >= CriticalElapsedTime
    || (s.executions >= CriticalExecutions && s.elapsed < HighElapsedTime)
    || s.elapsedPerExec >= CriticalAvgElapsed
    || s.pctcpu >= HighCpuPercentage
    || s.pcttotal >= CriticalWorkloadPct
    || s.cpu >= CriticalCpuTime
  }

  /** The severity a statement ends with, stated independently of the rule order. */
  function SeverityOf(s: SqlStat): Severity
  {
    if IsHighSeverity(s) then High else if IsProblematic(s) then Medium else NoSeverity
  }

  // The reason label each criterion adds, if any; a criterion with a HIGH
  // and a MEDIUM band adds at most one of the two labels.

  function ElapsedReasons(s: SqlStat): (r: seq<ProblemReason>)
    ensures |r| <= 1 && (|r| == 1 <==> s.elapsed >= HighElapsedTime)
  {
    if s.elapsed >= CriticalElapsedTime then [HighElapsed]
    else if s.elapsed >= HighElapsedTime then [MediumElapsed] else []
  }

  function FrequencyReasons(s: SqlStat): (r: seq<ProblemReason>)
    ensures |r| <= 1
    ensures |r| == 1 <==> s.executions >= CriticalExecutions || (s.executions >= MediumExecutions && s.elapsed > 10.0)
  {
    if s.executions >= CriticalExecutions then [HighFrequency]
    else if s.executions >= MediumExecutions && s.elapsed > 10.0 then [MediumFrequency] else []
  }

  function PerExecReasons(s: SqlStat): (r: seq<ProblemReason>)
    ensures |r| <= 1
    ensures |r| == 1 <==> s.elapsedPerExec >= CriticalAvgElapsed || (s.elapsedPerExec >= MediumAvgElapsed && s.executions > 50)
  {
    if s.elapsedPerExec >= CriticalAvgElapsed then [SlowExecution]
    else if s.elapsedPerExec >= MediumAvgElapsed && s.executions > 50 then [SlowAvgExec] else []
  }

  function CpuPctReasons(s: SqlStat): (r: seq<ProblemReason>)
    ensures |r| <= 1 && (|r| == 1 <==> s.pctcpu >= MediumCpuPercentage)
  {
    if s.pctcpu >= HighCpuPercentage then [HighCpuPct]
    else if s.pctcpu >= MediumCpuPercentage then [MediumCpuPct] else []
  }

  function WorkloadReasons(s: SqlStat): (r: seq<ProblemReason>)
    ensures |r| <= 1 && (|r| == 1 <==> s.pcttotal >= HighWorkloadPct)
  {
    if s.pcttotal >= CriticalWorkloadPct then [DominantWorkload]
    else if s.pcttotal >= HighWorkloadPct then [HighWorkloadImpact] else []
  }

  function IoReasons(s: SqlStat): (r: seq<ProblemReason>)
    ensures |r| <= 1 && (|r| == 1 <==> s.pctio >= HighIoWaitPct)
  {
    if s.pctio >= HighIoWaitPct then [HighIoWait] else []
  }

  function CpuTimeReasons(s: SqlStat): (r: seq<ProblemReason>)
    ensures |r| <= 1
    ensures |r| == 1 <==> s.cpu >= CriticalCpuTime || (s.cpu >= HighCpuTime && s.elapsed > 30.0)
  {
    if s.cpu >= CriticalCpuTime then [CriticalCpu]
    else if s.cpu >= HighCpuTime && s.elapsed > 30.0 then [HighCpu] else []
  }

  /** The reason labels, one per criterion that fired, in criterion order. */
  function ReasonsOf(s: SqlStat): (r: seq<ProblemReason>)
    ensures |r| > 0 <==> IsProblematic(s)
    ensures |r| <= 7
  {
    ElapsedReasons(s) + FrequencyReasons(s) + PerExecReasons(s) + CpuPctReasons(s)
    + WorkloadReasons(s) + IoReasons(s) + CpuTimeReasons(s)
  }

  /**
   * One criterion of `_filter_problematic_sql`: its HIGH band adds its label
   * and raises the severity to HIGH (when `overrides`, or when no severity
   * was set yet); otherwise its MEDIUM band adds its label and sets MEDIUM
   * when no severity was set yet.
   */
  method ApplyCriterion(problematic: bool, reasons: seq<ProblemReason>, severity: Severity,
                        highHit: bool, highLabel: ProblemReason, overrides: bool,
                        mediumHit: bool, mediumLabel: ProblemReason)
    returns (problematic': bool, reasons': seq<ProblemReason>, severity': Severity)
    ensures problematic' == (problematic || highHit || mediumHit)
    ensures reasons' == reasons + (if highHit then [highLabel] else if mediumHit then [mediumLabel] else [])
    ensures severity'.High? == (severity.High? || (highHit && (overrides || severity.NoSeverity?)))
    ensures severity'.NoSeverity? == (severity.NoSeverity? && !highHit && !mediumHit)
  {
    problematic', reasons', severity' := problematic, reasons, severity;
    if highHit {
      problematic', reasons' := true, reasons + [highLabel];
      if overrides || severity == NoSeverity {
        severity' := High;
      }
    } else if mediumHit {
      problematic', reasons' := true, reasons + [mediumLabel];
      if severity == NoSeverity {
        severity' := Medium;
      }
    }
  }

  /**
   * The criteria of `_filter_problematic_sql` for one statement, applied in
   * the source's order: elapsed time, executions, time per execution, CPU
   * share, share of DB time, IO wait share and CPU time.
   */
  method AssessSql(s: SqlStat) returns (problematic: bool, reasons: seq<ProblemReason>, severity: Severity)
    ensures problematic <==> IsProblematic(s)
    ensures reasons == ReasonsOf(s)
    ensures severity == SeverityOf(s)
    ensures problematic <==> !severity.NoSeverity?
    ensures (|| s.elapsed >= CriticalElapsedTime || s.elapsedPerExec >= CriticalAvgElapsed
             || s.pctcpu >= HighCpuPercentage || s.pcttotal >= CriticalWorkloadPct
             || s.cpu >= CriticalCpuTime) ==> severity == High
  {
    var e, x, pe := s.elapsed, s.executions, s.elapsedPerExec;
    problematic, reasons, severity := ApplyCriterion(false, [], NoSeverity,
      e >= CriticalElapsedTime, HighElapsed, true, e >= HighElapsedTime, MediumElapsed);
    assert reasons == ElapsedReasons(s);
    problematic, reasons, severity := ApplyCriterion(problematic, reasons, severity,
      x >= CriticalExecutions, HighFrequency, false,
      x >= MediumExecutions && e > 10.0, MediumFrequency);
    problematic, reasons, severity := ApplyCriterion(problematic, reasons, severity,
      pe >= CriticalAvgElapsed, SlowExecution, true,
      pe >= MediumAvgElapsed && x > 50, SlowAvgExec);
    problematic, reasons, severity := ApplyCriterion(problematic, reasons, severity,
      s.pctcpu >= HighCpuPercentage, HighCpuPct, true,
      s.pctcpu >= MediumCpuPercentage, MediumCpuPct);
    problematic, reasons, severity := ApplyCriterion(problematic, reasons, severity,
      s.pcttotal >= CriticalWorkloadPct, DominantWorkload, true,
      s.pcttotal >= HighWorkloadPct, HighWorkloadImpact);
    problematic, reasons, severity := ApplyCriterion(problematic, reasons, severity,
      false, HighIoWait, false, s.pctio >= HighIoWaitPct, HighIoWait);
    problematic, reasons, severity := ApplyCriterion(problematic, reasons, severity,
      s.cpu >= CriticalCpuTime, CriticalCpu, true,
      s.cpu >= HighCpuTime && e > 30.0, HighCpu);
  }

  /**
   * `_calculate_dba_score` before its final rounding: elapsed, CPU and
   * workload share are weighted linearly, executions and per-execution
   * time are capped.
   */
  function DbaScore(elapsed: real, cpu: real, executions: int, pcttotal: real, perExec: real): (r: real)
    ensures r == 0.4 * elapsed + 0.5 * cpu + pcttotal
                 + Min(executions as real / 500.0, 10.0) + Min(2.5 * perExec, 5.0)
    ensures r <= 0.4 * elapsed + 0.5 * cpu + pcttotal + 15.0
  {
    (elapsed / 100.0) * 40.0 + (cpu / 50.0) * 25.0 + (pcttotal / 20.0) * 20.0
    + Min((executions as real / 5000.0) * 10.0, 10.0) + Min((perExec / 2.0) * 5.0, 5.0)
  }

  /** The score never drops when any of its inputs grows. */
  lemma DbaScoreMonotone(a: SqlStat, b: SqlStat)
    requires a.elapsed <= b.elapsed && a.cpu <= b.cpu && a.executions <= b.executions
    requires a.pcttotal <= b.pcttotal && a.elapsedPerExec <= b.elapsedPerExec
    ensures DbaScore(a.elapsed, a.cpu, a.executions, a.pcttotal, a.elapsedPerExec)
         <= DbaScore(b.elapsed, b.cpu, b.executions, b.pcttotal, b.elapsedPerExec)
  {
  }

  // ---------------------------------------------------------------------
  // Shortlist
  // ---------------------------------------------------------------------

  datatype Candidate = Candidate(
    sqlId: string,
    sqlText: Option<string>,
    metrics: SqlStat,
    reasons: seq<ProblemReason>,
    severity: Severity,
    dbaScore: real)

  /** A missing `sql_id` defaults to `SQL_<position>`. */
  function SqlIdOf(s: SqlStat, idx: nat): string
  {
    if s.sqlId.Some? then s.sqlId.value else "SQL_" + NatToDigits(idx)
  }

  function CandidateOf(topSql: seq<SqlStat>, rawSql: seq<RawSql>, idx: nat): Candidate
    requires idx < |topSql|
  {
    var s := topSql[idx];
    Candidate(SqlIdOf(s, idx), if idx < |rawSql| then rawSql[idx].sqlText else None,
              s, ReasonsOf(s), SeverityOf(s),
              DbaScore(s.elapsed, s.cpu, s.executions, s.pcttotal, s.elapsedPerExec))
  }

  /** The flagged statements among the first `n` rows, in input order. */
  function CandidatesUpTo(topSql: seq<SqlStat>, rawSql: seq<RawSql>, n: nat): (r: seq<Candidate>)
    requires n <= |topSql|
    ensures forall c :: c in r ==>
              IsProblematic(c.metrics) && |c.reasons| > 0 && !c.severity.NoSeverity?
    ensures |r| == 0 <==> forall i :: 0 <= i < n ==> !IsProblematic(topSql[i])
  {
    if n == 0 then []
    else
      var prev := CandidatesUpTo(topSql, rawSql, n - 1);
      prev + (if IsProblematic(topSql[n - 1]) then [CandidateOf(topSql, rawSql, n - 1)] else [])
  }

  /** Sorting by the negated score puts the highest score first, stably. */
  function NegScore(c: Candidate): real { -c.dbaScore }

  /** How many of the sorted candidates are kept. */
  function KeepCount(sorted: seq<Candidate>): nat
  {
    if |sorted| == 0 then 0
    else if |sorted| >= 3 && sorted[2].dbaScore < sorted[0].dbaScore * 0.4 then 2
    else if |sorted| >= 3 then 3
    else |sorted|
  }

  function Shortlist(sorted: seq<Candidate>): seq<Candidate>
  {
    sorted[..KeepCount(sorted)]
  }

  /** The cut-off of `_filter_problematic_sql` over the sorted, flagged statements. */
  method ComputeKeepCount(problematic: seq<Candidate>) returns (maxReturn: int)
    requires |problematic| > 0
    requires forall c :: c in problematic ==> !c.severity.NoSeverity?
    ensures maxReturn == KeepCount(problematic)
  {
    maxReturn := if |problematic| >= 3 then 3 else |problematic|;
    if maxReturn == 3 && problematic[2].dbaScore < problematic[0].dbaScore * 0.4 {
      maxReturn := 2;
    }
    if maxReturn > 1 {
      var highCount := CountHigh(problematic[..maxReturn]);
      // every candidate is HIGH or MEDIUM, so this never reduces to one
      assert problematic[1] in problematic;
      if highCount == 1 && !(problematic[1].severity.High? || problematic[1].severity.Medium?) {
        maxReturn := 1;
      }
    }
  }

  /** The kept statements with the HIGH severity. */
  function CountHigh(cs: seq<Candidate>): nat
  {
    if |cs| == 0 then 0 else CountHigh(cs[..|cs| - 1]) + (if cs[|cs| - 1].severity.High? then 1 else 0)
  }

  /** The scoring loop of `_filter_problematic_sql`: every flagged statement, in input order. */
  method CollectCandidates(topSql: seq<SqlStat>, rawSql: seq<RawSql>) returns (problematic: seq<Candidate>)
    ensures problematic == CandidatesUpTo(topSql, rawSql, |topSql|)
  {
    problematic := [];
    var idx := 0;
    while idx < |topSql|
      invariant 0 <= idx <= |topSql|
      invariant problematic == CandidatesUpTo(topSql, rawSql, idx)
    {
      var isProblematic, c := ScoreRow(topSql, rawSql, idx);
      if isProblematic {
        problematic := problematic + [c];
        assert problematic == CandidatesUpTo(topSql, rawSql, idx + 1);
      } else {
        assert problematic == CandidatesUpTo(topSql, rawSql, idx + 1);
      }
      idx := idx + 1;
    }
  }

  /** The sorted candidates are the candidates, ordered by score. */
  /** One pass of the scoring loop: assess the row and, when it is flagged, score it. */
  method ScoreRow(topSql: seq<SqlStat>, rawSql: seq<RawSql>, idx: nat) returns (flagged: bool, c: Candidate)
    requires idx < |topSql|
    ensures flagged <==> IsProblematic(topSql[idx])
    ensures flagged ==> c == CandidateOf(topSql, rawSql, idx)
  {
    var s := topSql[idx];
    var sqlText: Option<string> := None;
    if idx < |rawSql| {
      sqlText := rawSql[idx].sqlText;
    }
    var reasons, severity;
    flagged, reasons, severity := AssessSql(s);
    var score := DbaScore(s.elapsed, s.cpu, s.executions, s.pcttotal, s.elapsedPerExec);
    c := Candidate(SqlIdOf(s, idx), sqlText, s, reasons, severity, score);
  }

  lemma SortedCandidates(topSql: seq<SqlStat>, rawSql: seq<RawSql>)
    ensures var cands := CandidatesUpTo(topSql, rawSql, |topSql|);
            var all := SortBy(cands, NegScore);
            && |all| == |cands|
            && multiset(all) == multiset(cands)
            && SortedBy(all, NegScore)
            && (forall c :: c in all ==> c in cands)
  {
    var cands := CandidatesUpTo(topSql, rawSql, |topSql|);
    SortByProps(cands, NegScore, 0.0);
    SortByMembers(cands, NegScore);
  }

  /** Scores along a sequence sorted by the negated score never increase. */
  lemma DescendingScores(all: seq<Candidate>)
    requires SortedBy(all, NegScore)
    ensures forall i, j :: 0 <= i < j < |all| ==> all[i].dbaScore >= all[j].dbaScore
  {
    forall i, j | 0 <= i < j < |all| ensures all[i].dbaScore >= all[j].dbaScore {
      assert NegScore(all[i]) <= NegScore(all[j]);
    }
  }

  /**
   * Of candidates sorted by score, each flagged with severity HIGH or
   * MEDIUM, the shortlist keeps at most three, highest score first, keeps
   * some whenever there are any, and drops a third statement scoring under
   * 0.4 times the first; the ignored ones are the rest, in order.
   */
  lemma ShortlistOf(all: seq<Candidate>)
    requires SortedBy(all, NegScore)
    requires forall c :: c in all ==> !c.severity.NoSeverity?
    ensures |Shortlist(all)| <= 3
    ensures Shortlist(all) + all[|Shortlist(all)|..] == all
    ensures |Shortlist(all)| == 0 <==> |all| == 0
    ensures |all| >= 3 ==> (|Shortlist(all)| == 2 <==> all[2].dbaScore < all[0].dbaScore * 0.4)
    ensures forall i, j :: 0 <= i < j < |Shortlist(all)| ==>
              Shortlist(all)[i].dbaScore >= Shortlist(all)[j].dbaScore
    ensures forall c :: c in Shortlist(all) ==> c.severity.High? || c.severity.Medium?
  {
    DescendingScores(all);
    var r := Shortlist(all);
    forall c | c in r ensures c.severity.High? || c.severity.Medium? {
      assert c in all;
    }
  }

  /**
   * The shortlist of a top-SQL list: every kept statement was flagged by
   * some criterion, and nothing is kept only when nothing was flagged.
   */
  lemma ShortlistProps(topSql: seq<SqlStat>, rawSql: seq<RawSql>)
    ensures var r := Shortlist(SortBy(CandidatesUpTo(topSql, rawSql, |topSql|), NegScore));
            && |r| <= 3
            && (forall c :: c in r ==> IsProblematic(c.metrics))
            && (|r| == 0 <==> forall i :: 0 <= i < |topSql| ==> !IsProblematic(topSql[i]))
  {
    var cands := CandidatesUpTo(topSql, rawSql, |topSql|);
    var all := SortBy(cands, NegScore);
    SortedCandidates(topSql, rawSql);
    ShortlistOf(all);
    var r := Shortlist(all);
    forall c | c in r ensures IsProblematic(c.metrics) {
      assert c in all;
      assert c in cands;
    }
  }

  // ---------------------------------------------------------------------
  // Findings
  // ---------------------------------------------------------------------

  datatype ExecutionPatternType =
    | ExtremeHighFrequency | HighFrequencyPattern | SustainedSlowLoad
    | BurstyHighImpact | ModerateSustained | FrequentLightImpact

  datatype ExecutionPattern = ExecutionPattern(
    patternType: ExecutionPatternType,
    isHighFrequency: bool,
    isBursty: bool,
    isSustained: bool)

  /** `_analyze_execution_pattern`: five rules, first match wins. */
  function AnalyzeExecutionPattern(executions: int, elapsed: real, perExec: real): (p: ExecutionPattern)
    ensures p.patternType.ExtremeHighFrequency? <==> executions > 5000
    ensures p.patternType.HighFrequencyPattern? <==> 1000 < executions <= 5000
    ensures p.patternType.SustainedSlowLoad? <==> 100 < executions <= 1000 && perExec > 1.0
    ensures p.patternType.BurstyHighImpact? <==> executions < 100 && elapsed > 50.0
    ensures p.patternType.ModerateSustained? <==>
              100 < executions <= 1000 && 0.1 < perExec <= 1.0
    ensures !(p.isBursty && p.isSustained)
    ensures p.isBursty <==> p.patternType.BurstyHighImpact?
    ensures p.isSustained <==> p.patternType.SustainedSlowLoad? || p.patternType.ModerateSustained?
    ensures p.isHighFrequency ==> executions > 500
  {
    if executions > 5000 then ExecutionPattern(ExtremeHighFrequency, true, false, false)
    else if executions > 1000 then ExecutionPattern(HighFrequencyPattern, true, false, false)
    else if executions > 100 && perExec > 1.0 then ExecutionPattern(SustainedSlowLoad, false, false, true)
    else if executions < 100 && elapsed > 50.0 then ExecutionPattern(BurstyHighImpact, false, true, false)
    else if executions > 100 && perExec > 0.1 then ExecutionPattern(ModerateSustained, false, false, true)
    else ExecutionPattern(FrequentLightImpact, executions > 500, false, false)
  }

  /** The keys of a finding's `technical_parameters` that hold numbers. */
  const TechnicalKeys: set<string> := {
    "elapsed", "cpu", "avg_time", "executions", "total_elapsed_time_s", "cpu_time_s",
    "avg_elapsed_per_exec_s", "contribution_to_db_time_pct", "cpu_percentage", "io_percentage"}

  /**
   * The CPU share shown for a finding: the reported `pctcpu` when positive,
   * else CPU time over elapsed time.
   */
  function EffectiveCpuPercent(s: SqlStat): (r: real)
    ensures s.pctcpu > 0.0 ==> r == s.pctcpu
    ensures s.pctcpu <= 0.0 && s.elapsed > 0.0 ==> r * s.elapsed == s.cpu * 100.0
    ensures s.pctcpu <= 0.0 && s.elapsed <= 0.0 ==> r == 0.0
  {
    if s.pctcpu > 0.0 then s.pctcpu
    else if s.elapsed > 0.0 then s.cpu / s.elapsed * 100.0
    else 0.0
  }

  /** The numeric technical parameters of a finding. */
  function TechnicalParameters(s: SqlStat, ashIoPercent: real): (t: map<string, real>)
    ensures t.Keys == TechnicalKeys
    ensures t["elapsed"] == t["total_elapsed_time_s"] == s.elapsed
    ensures t["cpu"] == t["cpu_time_s"] == s.cpu
    ensures t["executions"] == s.executions as real
    ensures t["avg_time"] == s.elapsedPerExec
    ensures t["io_percentage"] == if ashIoPercent > 0.0 then ashIoPercent else s.pctio
  {
    map["elapsed" := s.elapsed, "cpu" := s.cpu, "avg_time" := s.elapsedPerExec,
        "executions" := s.executions as real, "total_elapsed_time_s" := s.elapsed,
        "cpu_time_s" := s.cpu, "avg_elapsed_per_exec_s" := s.elapsedPerExec,
        "contribution_to_db_time_pct" := s.pcttotal,
        "cpu_percentage" := EffectiveCpuPercent(s),
        "io_percentage" := if ashIoPercent > 0.0 then ashIoPercent else s.pctio]
  }

  /** The parts of a finding the later stages read. */
  datatype DbaFinding = DbaFinding(
    sqlId: string,
    severity: Severity,
    dbaPriorityScore: real,
    technicalParameters: map<string, real>,
    executionPattern: ExecutionPattern)

  /** `_perform_deep_dba_analysis`, without its generated text. */
  function DeepAnalysis(c: Candidate, ashIoPercent: real): (f: DbaFinding)
    ensures f.sqlId == c.sqlId && f.severity == c.severity && f.dbaPriorityScore == c.dbaScore
    ensures f.technicalParameters == TechnicalParameters(c.metrics, ashIoPercent)
  {
    var s := c.metrics;
    DbaFinding(c.sqlId, c.severity, c.dbaScore, TechnicalParameters(s, ashIoPercent),
               AnalyzeExecutionPattern(s.executions, s.elapsed, s.elapsedPerExec))
  }

  datatype Status = Success | Invalid

  /**
   * The analysis result; `summary` is `None` for the empty summary of the
   * failure path. The findings are published under the key
   * `problematic_sql_findings`.
   */
  datatype WorkloadResult = WorkloadResult(
    status: Status,
    summary: Option<WorkloadSummary>,
    problematicCount: nat,
    totalAnalyzed: nat,
    findings: seq<DbaFinding>)

  const InvalidResult: WorkloadResult := WorkloadResult(Invalid, None, 0, 0, [])

  /** `_map_severity_to_priority` on the severity's name. */
  datatype TuningPriority = CriticalPriority | HighPriority | MediumPriority | LowPriority

  function MapSeverityToPriority(severity: string): (p: TuningPriority)
    ensures p.CriticalPriority? <==> severity == "CRITICAL"
    ensures p.HighPriority? <==> severity == "HIGH"
    ensures p.MediumPriority? <==> severity == "MEDIUM"
    ensures p.LowPriority? <==> severity !in {"CRITICAL", "HIGH", "MEDIUM"}
  {
    if severity == "CRITICAL" then CriticalPriority
    else if severity == "HIGH" then HighPriority
    else if severity == "MEDIUM" then MediumPriority
    else LowPriority
  }

  function SeverityName(s: Severity): string
  {
    match s
    case NoSeverity => "NONE"
    case Medium => "MEDIUM"
    case High => "HIGH"
  }

  /** A shortlisted statement is tuned with HIGH or MEDIUM priority, never LOW. */
  lemma ShortlistPriority(c: Candidate)
    requires !c.severity.NoSeverity?
    ensures MapSeverityToPriority(SeverityName(c.severity)) ==
              (if c.severity.High? then HighPriority else MediumPriority)
  {
  }

  /** The DBA expert engine with its last shortlist. */
  class DbaExpertEngine {
    var problematicSql: seq<Candidate>
    var ignoredSql: seq<Candidate>

    constructor()
      ensures problematicSql == [] && ignoredSql == []
    {
      problematicSql := [];
      ignoredSql := [];
    }

    /**
     * `_filter_problematic_sql`: flag, score, sort by score (highest
     * first, stably) and split into the kept and the ignored statements.
     */
    method FilterProblematicSql(topSql: seq<SqlStat>, rawSql: seq<RawSql>) returns (r: seq<Candidate>)
      modifies this
      ensures r == problematicSql
      ensures r == Shortlist(SortBy(CandidatesUpTo(topSql, rawSql, |topSql|), NegScore))
      ensures r + ignoredSql == SortBy(CandidatesUpTo(topSql, rawSql, |topSql|), NegScore)
    {
      var cands := CollectCandidates(topSql, rawSql);
      var problematic := SortBy(cands, NegScore);
      SortedCandidates(topSql, rawSql);
      if |problematic| == 0 {
        problematicSql, ignoredSql := [], [];
        return [];
      }
      var maxReturn := ComputeKeepCount(problematic);
      problematicSql := problematic[..maxReturn];
      ignoredSql := problematic[maxReturn..];
      r := problematicSql;
    }

    /**
     * `analyze_workload` with the integrity validator's verdict as input
     * (`true` also stands for running without a validator).
     */
    method AnalyzeWorkload(valid: bool, topSql: seq<SqlStat>, rawSql: seq<RawSql>,
                           waits: seq<WaitEvent>, ashIoPercent: real) returns (res: WorkloadResult)
      modifies this
      ensures !valid ==> res == InvalidResult
      ensures !valid ==> problematicSql == old(problematicSql) && ignoredSql == old(ignoredSql)
      ensures valid ==>
                && res.status.Success?
                && res.summary == Some(AnalyzeWorkloadPatterns(topSql, waits).(sqlCount := |rawSql|))
                && res.problematicCount == |res.findings| == |problematicSql|
                && res.totalAnalyzed == |rawSql|
                && problematicSql == Shortlist(SortBy(CandidatesUpTo(topSql, rawSql, |topSql|), NegScore))
                && (forall i :: 0 <= i < |res.findings| ==>
                      res.findings[i] == DeepAnalysis(problematicSql[i], ashIoPercent))
    {
      if !valid {
        return InvalidResult;
      }
      var workload := AnalyzeWorkloadPatterns(topSql, waits);
      workload := workload.(sqlCount := |rawSql|);
      var items := FilterProblematicSql(topSql, rawSql);
      var findings := AnalyzeEach(items, ashIoPercent);
      res := WorkloadResult(Success, Some(workload), |findings|, |rawSql|, findings);
    }
  }

  /** The loop of `analyze_workload`: one deep analysis per shortlisted statement, in order. */
  method AnalyzeEach(items: seq<Candidate>, ashIoPercent: real) returns (findings: seq<DbaFinding>)
    ensures |findings| == |items|
    ensures forall k :: 0 <= k < |items| ==> findings[k] == DeepAnalysis(items[k], ashIoPercent)
  {
    findings := [];
    var i := 0;
    while i < |items|
      invariant 0 <= i <= |items|
      invariant |findings| == i
      invariant forall k :: 0 <= k < i ==> findings[k] == DeepAnalysis(items[k], ashIoPercent)
    {
      findings := findings + [DeepAnalysis(items[i], ashIoPercent)];
      i := i + 1;
    }
  }
}
