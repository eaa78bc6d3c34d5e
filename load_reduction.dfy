/**
 * The load reduction engine: from a SQL statement's IO share, CPU share,
 * average execution time, execution count and two interpretation flags it
 * selects root causes, one action per cause, and orders the actions by
 * priority. The SQL text and prose of each action are left out; an action
 * is its category and its priority.
 */
module LoadReduction {
  import opened Common
  import DbaExpert

  // ---------------------------------------------------------------------
  // Root causes and actions
  // ---------------------------------------------------------------------

  datatype RootCause = IoDominant | PxIneffective | BadExecutionPlan | HighCpu | MissingIndex | Mixed

  /** The enum value the cause is published under. */
  function CauseName(c: RootCause): (n: string)
    ensures |n| > 0
  {
    match c
    case IoDominant => "IO_DOMINANT"
    case PxIneffective => "PX_INEFFECTIVE"
    case BadExecutionPlan => "BAD_EXECUTION_PLAN"
    case HighCpu => "HIGH_CPU"
    case MissingIndex => "MISSING_INDEX"
    case Mixed => "MIXED"
  }

  /** Distinct causes are published under distinct names. */
  lemma CauseNameInjective(a: RootCause, b: RootCause)
    ensures CauseName(a) == CauseName(b) <==> a == b
  {
    if a != b {
      var na, nb := CauseName(a), CauseName(b);
      assert na[0] != nb[0] || na[1] != nb[1] || |na| != |nb|;
    }
  }

  const IoDominantThreshold: real := 60.0
  const HighCpuThreshold: real := 50.0
  const BatchSqlMinExecTime: real := 5.0
  const BatchSqlMaxExecutions: int := 50

  /** One action: its category and its priority (1 is the most urgent). */
  datatype LoadReductionAction = LoadReductionAction(category: RootCause, priority: nat)

  /**
   * The action generated for a cause: IO reduction and the SQL Access
   * Advisor have priority 1, parallel execution and CPU reduction 2, plan
   * stability 3.
   */
  function ActionFor(c: RootCause): (a: LoadReductionAction)
    requires c != Mixed
    ensures a.category == c
    ensures 1 <= a.priority <= 3
    ensures a.priority == 1 <==> c == IoDominant || c == MissingIndex
    ensures a.priority == 3 <==> c == BadExecutionPlan
  {
    match c
    case IoDominant => LoadReductionAction(IoDominant, 1)
    case MissingIndex => LoadReductionAction(MissingIndex, 1)
    case PxIneffective => LoadReductionAction(PxIneffective, 2)
    case BadExecutionPlan => LoadReductionAction(BadExecutionPlan, 3)
    case HighCpu => LoadReductionAction(HighCpu, 2)
  }

  function PriorityKey(a: LoadReductionAction): real { a.priority as real }

  /** The actions of the causes, in the order of the causes. */
  function ActionsOf(causes: seq<RootCause>): (r: seq<LoadReductionAction>)
    requires Mixed !in causes
    ensures |r| == |causes|
    ensures forall i :: 0 <= i < |causes| ==> r[i] == ActionFor(causes[i])
  {
    if |causes| == 0 then []
    else ActionsOf(causes[..|causes| - 1]) + [ActionFor(causes[|causes| - 1])]
  }

  lemma ActionsOfAppend(causes: seq<RootCause>, c: RootCause)
    requires Mixed !in causes && c != Mixed
    ensures ActionsOf(causes + [c]) == ActionsOf(causes) + [ActionFor(c)]
  {
    assert (causes + [c])[..|causes|] == causes;
  }

  // ---------------------------------------------------------------------
  // Root-cause selection
  // ---------------------------------------------------------------------

  predicate IsIoDominant(io: real, fullTableScan: bool) { io > IoDominantThreshold || fullTableScan }
  predicate IsBatchPattern(avg: real, executions: int)
  {
    avg > BatchSqlMinExecTime && executions < BatchSqlMaxExecutions
  }
  predicate IsCpuDominant(cpu: real) { cpu > HighCpuThreshold }

  /** The causes in the order the engine checks them. */
  function DetectedCauses(io: real, cpu: real, avg: real, executions: int,
                          planInstability: bool, fullTableScan: bool): seq<RootCause>
  {
    (if IsIoDominant(io, fullTableScan) then [IoDominant, MissingIndex] else [])
    + (if IsBatchPattern(avg, executions) then [PxIneffective] else [])
    + (if planInstability then [BadExecutionPlan] else [])
    + (if IsCpuDominant(cpu) then [HighCpu] else [])
  }

  /** Which causes are detected, and that each is detected at most once. */
  lemma CauseSelection(io: real, cpu: real, avg: real, executions: int,
                       planInstability: bool, fullTableScan: bool)
    ensures var cs := DetectedCauses(io, cpu, avg, executions, planInstability, fullTableScan);
            && (IoDominant in cs <==> io > 60.0 || fullTableScan)
            && (MissingIndex in cs <==> IoDominant in cs)
            && (PxIneffective in cs <==> avg > 5.0 && executions < 50)
            && (BadExecutionPlan in cs <==> planInstability)
            && (HighCpu in cs <==> cpu > 50.0)
            && Mixed !in cs
            && NoDuplicates(cs)
            && |cs| <= 5
  {
  }

  // ---------------------------------------------------------------------
  // Summary
  // ---------------------------------------------------------------------

  datatype MetricLine = IoWaitLine | CpuLine | AvgExecLine
  datatype GainLine = IndexingGain | ParallelGain | CpuGain | PlanGain

  /**
   * The summary: the single no-opportunity sentence, or the report with the
   * cause names, the key-metric lines and the expected-reduction lines.
   */
  datatype LoadSummary =
    | NoOpportunities(sqlId: string)
    | Report(sqlId: string, causeNames: seq<string>, metrics: seq<MetricLine>, gains: seq<GainLine>)

  /** `_generate_summary`. */
  function GenerateSummary(sqlId: string, causes: seq<RootCause>): (s: LoadSummary)
    ensures s.NoOpportunities? <==> |causes| == 0
    ensures s.sqlId == sqlId
    ensures s.Report? ==>
              && |s.causeNames| == |causes|
              && (forall i :: 0 <= i < |causes| ==> s.causeNames[i] == CauseName(causes[i]))
              && (IoWaitLine in s.metrics <==> IoDominant in causes || MissingIndex in causes)
              && (CpuLine in s.metrics <==> HighCpu in causes)
              && (AvgExecLine in s.metrics <==> PxIneffective in causes)
              && (IndexingGain in s.gains <==> IoDominant in causes || MissingIndex in causes)
              && (ParallelGain in s.gains <==> PxIneffective in causes)
              && (CpuGain in s.gains <==> HighCpu in causes)
              && (PlanGain in s.gains <==> BadExecutionPlan in causes)
  {
    if |causes| == 0 then NoOpportunities(sqlId)
    else
      Report(sqlId, seq(|causes|, i requires 0 <= i < |causes| => CauseName(causes[i])),
             SummaryMetrics(causes), SummaryGains(causes))
  }

  /** The current-metrics lines of the summary, one per kind of cause that has one. */
  function SummaryMetrics(causes: seq<RootCause>): (r: seq<MetricLine>)
    ensures IoWaitLine in r <==> IoDominant in causes || MissingIndex in causes
    ensures CpuLine in r <==> HighCpu in causes
    ensures AvgExecLine in r <==> PxIneffective in causes
  {
    (if IoDominant in causes || MissingIndex in causes then [IoWaitLine] else [])
    + (if HighCpu in causes then [CpuLine] else [])
    + (if PxIneffective in causes then [AvgExecLine] else [])
  }

  /** The expected-gain lines of the summary, one per kind of cause that has one. */
  function SummaryGains(causes: seq<RootCause>): (r: seq<GainLine>)
    ensures IndexingGain in r <==> IoDominant in causes || MissingIndex in causes
    ensures ParallelGain in r <==> PxIneffective in causes
    ensures CpuGain in r <==> HighCpu in causes
    ensures PlanGain in r <==> BadExecutionPlan in causes
  {
    (if IoDominant in causes || MissingIndex in causes then [IndexingGain] else [])
    + (if PxIneffective in causes then [ParallelGain] else [])
    + (if HighCpu in causes then [CpuGain] else [])
    + (if BadExecutionPlan in causes then [PlanGain] else [])
  }

  // ---------------------------------------------------------------------
  // The analysis
  // ---------------------------------------------------------------------

  datatype LoadReductionResult = LoadReductionResult(
    sqlId: string,
    detectedRootCauses: seq<RootCause>,
    actions: seq<LoadReductionAction>,
    summary: LoadSummary,
    totalActions: nat)

  /** The result the analysis produces; the total elapsed time is not among its inputs. */
  function LoadReductionOf(sqlId: string, io: real, cpu: real, avg: real, executions: int,
                           planInstability: bool, fullTableScan: bool): LoadReductionResult
  {
    var causes := DetectedCauses(io, cpu, avg, executions, planInstability, fullTableScan);
    CauseSelection(io, cpu, avg, executions, planInstability, fullTableScan);
    var actions := SortBy(ActionsOf(causes), PriorityKey);
    SortByProps(ActionsOf(causes), PriorityKey, 0.0);
    LoadReductionResult(sqlId, causes, actions, GenerateSummary(sqlId, causes), |actions|)
  }

  /** The actions list holds the action of each cause, in the order of the causes. */
  predicate Paired(causes: seq<RootCause>, actions: seq<LoadReductionAction>)
  {
    Mixed !in causes && actions == ActionsOf(causes)
  }

  /** Records one cause and its action. */
  method AddCause(causes: seq<RootCause>, actions: seq<LoadReductionAction>, c: RootCause)
    returns (causes': seq<RootCause>, actions': seq<LoadReductionAction>)
    requires Paired(causes, actions) && c != Mixed
    ensures causes' == causes + [c]
    ensures Paired(causes', actions')
  {
    ActionsOfAppend(causes, c);
    causes' := causes + [c];
    actions' := actions + [ActionFor(c)];
  }

  /** The detection steps: a cause and its action per triggered condition, in checking order. */
  method DetectCauses(io: real, cpu: real, avg: real, executions: int,
                      planInstability: bool, fullTableScan: bool)
    returns (causes: seq<RootCause>, actions: seq<LoadReductionAction>)
    ensures causes == DetectedCauses(io, cpu, avg, executions, planInstability, fullTableScan)
    ensures Paired(causes, actions)
  {
    causes, actions := [], [];
    if io > IoDominantThreshold || fullTableScan {
      causes, actions := AddCause(causes, actions, IoDominant);
      causes, actions := AddCause(causes, actions, MissingIndex);
    }
    ghost var c1 := causes;
    assert c1 == if IsIoDominant(io, fullTableScan) then [IoDominant, MissingIndex] else [];
    if avg > BatchSqlMinExecTime && executions < BatchSqlMaxExecutions {
      causes, actions := AddCause(causes, actions, PxIneffective);
    }
    ghost var c2 := causes;
    assert c2 == c1 + if IsBatchPattern(avg, executions) then [PxIneffective] else [];
    if planInstability {
      causes, actions := AddCause(causes, actions, BadExecutionPlan);
    }
    ghost var c3 := causes;
    assert c3 == c2 + if planInstability then [BadExecutionPlan] else [];
    if cpu > HighCpuThreshold {
      causes, actions := AddCause(causes, actions, HighCpu);
    }
    assert causes == c3 + if IsCpuDominant(cpu) then [HighCpu] else [];
  }

  /**
   * `analyze_and_generate_actions`: appends a cause and its action per
   * triggered condition, then sorts the actions by priority. The total
   * elapsed time is accepted and ignored.
   */
  method AnalyzeAndGenerateActions(sqlId: string, io: real, cpu: real, avg: real, executions: int,
                                   totalElapsed: real, planInstability: bool, fullTableScan: bool)
    returns (res: LoadReductionResult)
    ensures res == LoadReductionOf(sqlId, io, cpu, avg, executions, planInstability, fullTableScan)
  {
    var causes, actions := DetectCauses(io, cpu, avg, executions, planInstability, fullTableScan);
    assert actions == ActionsOf(causes);
    actions := SortBy(actions, PriorityKey);
    var summary := GenerateSummary(sqlId, causes);
    res := LoadReductionResult(sqlId, causes, actions, summary, |actions|);
  }

  /**
   * One action per detected cause, ordered by priority, holding exactly the
   * actions of the causes, and actions of equal priority keep the order in
   * which their causes were detected.
   */
  lemma ActionsOfResult(sqlId: string, io: real, cpu: real, avg: real, executions: int,
                        planInstability: bool, fullTableScan: bool)
    ensures var r := LoadReductionOf(sqlId, io, cpu, avg, executions, planInstability, fullTableScan);
            && |r.detectedRootCauses| == |r.actions| == r.totalActions
            && Mixed !in r.detectedRootCauses
            && SortedBy(r.actions, PriorityKey)
            && multiset(r.actions) == multiset(ActionsOf(r.detectedRootCauses))
            && (forall k :: KeyFilter(r.actions, PriorityKey, k)
                              == KeyFilter(ActionsOf(r.detectedRootCauses), PriorityKey, k))
  {
    var causes := DetectedCauses(io, cpu, avg, executions, planInstability, fullTableScan);
    CauseSelection(io, cpu, avg, executions, planInstability, fullTableScan);
    forall k ensures KeyFilter(SortBy(ActionsOf(causes), PriorityKey), PriorityKey, k)
                     == KeyFilter(ActionsOf(causes), PriorityKey, k)
    {
      SortByProps(ActionsOf(causes), PriorityKey, k);
    }
    SortByProps(ActionsOf(causes), PriorityKey, 0.0);
  }

  /**
   * With every condition triggered, the CPU action (priority 2) moves ahead
   * of the plan action (priority 3) although the plan cause was detected
   * first.
   */
  lemma AllCausesOrder(sqlId: string)
    ensures var r := LoadReductionOf(sqlId, 90.0, 90.0, 10.0, 1, true, false);
            && r.detectedRootCauses == [IoDominant, MissingIndex, PxIneffective, BadExecutionPlan, HighCpu]
            && r.actions == [ActionFor(IoDominant), ActionFor(MissingIndex), ActionFor(PxIneffective),
                             ActionFor(HighCpu), ActionFor(BadExecutionPlan)]
  {
    var causes := [IoDominant, MissingIndex, PxIneffective, BadExecutionPlan, HighCpu];
    var io, mi, px, plan, hc := ActionFor(IoDominant), ActionFor(MissingIndex), ActionFor(PxIneffective),
                                ActionFor(BadExecutionPlan), ActionFor(HighCpu);
    assert DetectedCauses(90.0, 90.0, 10.0, 1, true, false) == causes;
    assert ActionsOf(causes) == [io, mi, px, plan, hc];
    SortFiveActions();
  }

  lemma SortFiveActions()
    ensures var io, mi, px, plan, hc := ActionFor(IoDominant), ActionFor(MissingIndex), ActionFor(PxIneffective),
                                        ActionFor(BadExecutionPlan), ActionFor(HighCpu);
            SortBy([io, mi, px, plan, hc], PriorityKey) == [io, mi, px, hc, plan]
  {
    var io, mi, px, plan, hc := ActionFor(IoDominant), ActionFor(MissingIndex), ActionFor(PxIneffective),
                                ActionFor(BadExecutionPlan), ActionFor(HighCpu);
    assert [io, mi, px, plan, hc][..4] == [io, mi, px, plan];
    assert [io, mi, px, plan][..3] == [io, mi, px];
    assert [io, mi, px][..2] == [io, mi];
    assert [io, mi][..1] == [io];
    assert [io][..0] == [];
    assert SortBy([io], PriorityKey) == [io];
    assert [io, mi][1..] == [mi] && [io, mi, px][1..] == [mi, px] && [mi, px][1..] == [px];
    assert [io, mi, px, plan][1..] == [mi, px, plan] && [mi, px, plan][1..] == [px, plan];
    assert [px, plan][1..] == [plan];
    assert InsertBy([io], mi, PriorityKey) == [io, mi];
    assert InsertBy([mi], px, PriorityKey) == [mi, px];
    assert InsertBy([io, mi], px, PriorityKey) == [io, mi, px];
    assert InsertBy([px], plan, PriorityKey) == [px, plan];
    assert InsertBy([mi, px], plan, PriorityKey) == [mi, px, plan];
    assert InsertBy([io, mi, px], plan, PriorityKey) == [io, mi, px, plan];
    assert SortBy([io, mi], PriorityKey) == [io, mi];
    assert SortBy([io, mi, px], PriorityKey) == [io, mi, px];
    assert SortBy([io, mi, px, plan], PriorityKey) == [io, mi, px, plan];
    assert InsertBy([plan], hc, PriorityKey) == [hc, plan];
    assert InsertBy([px, plan], hc, PriorityKey) == [px, hc, plan];
    assert InsertBy([mi, px, plan], hc, PriorityKey) == [mi, px, hc, plan];
    assert InsertBy([io, mi, px, plan], hc, PriorityKey) == [io, mi, px, hc, plan];
  }

  /** With no cause the summary is the single no-opportunity sentence. */
  lemma NoCauseSummary(sqlId: string, io: real, cpu: real, avg: real, executions: int)
    requires io <= 60.0 && cpu <= 50.0 && !(avg > 5.0 && executions < 50)
    ensures var r := LoadReductionOf(sqlId, io, cpu, avg, executions, false, false);
            r.summary == NoOpportunities(sqlId) && r.actions == [] && r.totalActions == 0
  {
    assert DetectedCauses(io, cpu, avg, executions, false, false) == [];
  }

  // ---------------------------------------------------------------------
  // Serialisation
  // ---------------------------------------------------------------------

  datatype ActionEntry = ActionEntry(category: string, priority: nat)

  datatype LoadReductionDict = LoadReductionDict(
    sqlId: string,
    detectedRootCauses: seq<string>,
    summary: LoadSummary,
    totalActions: nat,
    actions: seq<ActionEntry>)

  /** `to_dict`: causes by name, actions by category name and priority, in result order. */
  function ToDict(r: LoadReductionResult): (d: LoadReductionDict)
    ensures d.sqlId == r.sqlId && d.summary == r.summary && d.totalActions == r.totalActions
    ensures |d.detectedRootCauses| == |r.detectedRootCauses|
    ensures forall i :: 0 <= i < |r.detectedRootCauses| ==>
              d.detectedRootCauses[i] == CauseName(r.detectedRootCauses[i])
    ensures |d.actions| == |r.actions|
    ensures forall i :: 0 <= i < |r.actions| ==>
              d.actions[i] == ActionEntry(CauseName(r.actions[i].category), r.actions[i].priority)
  {
    LoadReductionDict(
      r.sqlId,
      seq(|r.detectedRootCauses|, i requires 0 <= i < |r.detectedRootCauses| => CauseName(r.detectedRootCauses[i])),
      r.summary,
      r.totalActions,
      seq(|r.actions|, i requires 0 <= i < |r.actions| =>
            ActionEntry(CauseName(r.actions[i].category), r.actions[i].priority)))
  }

  /** A cause is named in the dictionary exactly when it was detected. */
  lemma ToDictNames(r: LoadReductionResult, c: RootCause)
    ensures CauseName(c) in ToDict(r).detectedRootCauses <==> c in r.detectedRootCauses
  {
    var d := ToDict(r);
    if CauseName(c) in d.detectedRootCauses {
      var i :| 0 <= i < |d.detectedRootCauses| && d.detectedRootCauses[i] == CauseName(c);
      CauseNameInjective(c, r.detectedRootCauses[i]);
    }
    if c in r.detectedRootCauses {
      var i :| 0 <= i < |r.detectedRootCauses| && r.detectedRootCauses[i] == c;
      assert d.detectedRootCauses[i] == CauseName(c);
    }
  }

  // ---------------------------------------------------------------------
  // Findings of the DBA expert engine
  // ---------------------------------------------------------------------

  /** `dict.get(key, 0)` on a numeric dictionary. */
  function Metric(m: map<string, real>, k: string): real
  {
    if k in m then m[k] else 0.0
  }

  /**
   * The numeric entries of a finding's `execution_pattern` as the expert
   * engine emits it: the execution count and the time per execution.
   */
  function PatternNumbers(f: DbaExpert.DbaFinding): (m: map<string, real>)
    ensures m.Keys == {"executions", "avg_time_per_exec"}
  {
    map["executions" := Metric(f.technicalParameters, "executions"),
        "avg_time_per_exec" := Metric(f.technicalParameters, "avg_time")]
  }

  predicate PlanInstabilityText(l: string)
  {
    Contains(l, "plan") && (Contains(l, "unstable") || Contains(l, "regression"))
  }

  predicate FullScanText(l: string)
  {
    Contains(l, "full scan") || Contains(l, "table scan")
  }

  /**
   * `generate_load_reduction_for_finding` as written: the metrics are read
   * from the execution pattern under `io_pct`, `cpu_pct`,
   * `avg_elapsed_per_exec` and `total_executions`, none of which the expert
   * engine emits, so each reads as 0 and only the interpretation text can
   * select a cause.
   */
  function LoadReductionForFindingAsWritten(f: DbaExpert.DbaFinding, interpretation: string)
    : (d: LoadReductionDict)
    ensures var l := Lower(interpretation);
            && (CauseName(IoDominant) in d.detectedRootCauses <==> FullScanText(l))
            && (CauseName(BadExecutionPlan) in d.detectedRootCauses <==> PlanInstabilityText(l))
            && CauseName(HighCpu) !in d.detectedRootCauses
            && CauseName(PxIneffective) !in d.detectedRootCauses
  {
    var p := PatternNumbers(f);
    assert "io_pct" !in p && "cpu_pct" !in p && "avg_elapsed_per_exec" !in p && "total_executions" !in p;
    var l := Lower(interpretation);
    var r := LoadReductionOf(f.sqlId, Metric(p, "io_pct"), Metric(p, "cpu_pct"),
                             Metric(p, "avg_elapsed_per_exec"), Metric(p, "total_executions").Floor,
                             PlanInstabilityText(l), FullScanText(l));
    CauseSelection(Metric(p, "io_pct"), Metric(p, "cpu_pct"),
                   Metric(p, "avg_elapsed_per_exec"), Metric(p, "total_executions").Floor,
                   PlanInstabilityText(l), FullScanText(l));
    ToDictNames(r, IoDominant);
    ToDictNames(r, BadExecutionPlan);
    ToDictNames(r, HighCpu);
    ToDictNames(r, PxIneffective);
    ToDict(r)
  }

  /**
   * `generate_load_reduction_for_finding` reading the metrics from the
   * finding's technical parameters, under the keys the expert engine emits.
   */
  function LoadReductionForFinding(f: DbaExpert.DbaFinding, interpretation: string)
    : (d: LoadReductionDict)
    ensures var l := Lower(interpretation);
            var t := f.technicalParameters;
            && ((CauseName(IoDominant) in d.detectedRootCauses)
                  <==> Metric(t, "io_percentage") > 60.0 || FullScanText(l))
            && (CauseName(BadExecutionPlan) in d.detectedRootCauses <==> PlanInstabilityText(l))
            && (CauseName(HighCpu) in d.detectedRootCauses <==> Metric(t, "cpu_percentage") > 50.0)
            && ((CauseName(PxIneffective) in d.detectedRootCauses)
                  <==> Metric(t, "avg_elapsed_per_exec_s") > 5.0 && Metric(t, "executions").Floor < 50)
  {
    var t := f.technicalParameters;
    var l := Lower(interpretation);
    var io, cpu, avg, ex := Metric(t, "io_percentage"), Metric(t, "cpu_percentage"),
                            Metric(t, "avg_elapsed_per_exec_s"), Metric(t, "executions").Floor;
    var r := LoadReductionOf(f.sqlId, io, cpu, avg, ex, PlanInstabilityText(l), FullScanText(l));
    CauseSelection(io, cpu, avg, ex, PlanInstabilityText(l), FullScanText(l));
    ToDictNames(r, IoDominant);
    ToDictNames(r, BadExecutionPlan);
    ToDictNames(r, HighCpu);
    ToDictNames(r, PxIneffective);
    ToDict(r)
  }

  /**
   * A finding at 95 % IO and 80 % CPU with a neutral interpretation gets no
   * action as written, and the IO and CPU actions once the technical
   * parameters are read.
   */
  lemma FindingMetricsIgnored(f: DbaExpert.DbaFinding)
    requires Metric(f.technicalParameters, "io_percentage") == 95.0
    requires Metric(f.technicalParameters, "cpu_percentage") == 80.0
    ensures LoadReductionForFindingAsWritten(f, "").detectedRootCauses == []
    ensures CauseName(IoDominant) in LoadReductionForFinding(f, "").detectedRootCauses
    ensures CauseName(HighCpu) in LoadReductionForFinding(f, "").detectedRootCauses
  {
    var p := PatternNumbers(f);
    assert Lower("") == "";
    assert !Contains("", "plan") && !Contains("", "full scan") && !Contains("", "table scan");
    assert "io_pct" !in p && "cpu_pct" !in p && "avg_elapsed_per_exec" !in p && "total_executions" !in p;
    assert DetectedCauses(0.0, 0.0, 0.0, 0, false, false) == [];
  }
}
