/**
 * The fix recommendation formatter: the same root-cause thresholds as the
 * load reduction engine, turned into UI sections with a priority tag and
 * numbered steps, plus a general-optimisation fallback for high-impact
 * statements without a specific signal. The SQL text, titles and prose of
 * sections and steps are left out.
 */
module FixFormatter {
  import opened Common
  import DbaExpert
  import LoadReduction

  // ---------------------------------------------------------------------
  // Sections and steps
  // ---------------------------------------------------------------------

  datatype FixCategory = IoReduction | SqlAccessAdvisor | ParallelExecution | PlanStability | CpuReduction

  function CategoryName(c: FixCategory): string
  {
    match c
    case IoReduction => "IO_REDUCTION"
    case SqlAccessAdvisor => "SQL_ACCESS_ADVISOR"
    case ParallelExecution => "PARALLEL_EXECUTION"
    case PlanStability => "PLAN_STABILITY"
    case CpuReduction => "CPU_REDUCTION"
  }

  /** Which builder produced a section. */
  datatype SectionKind = IoSection | AdvisorSection | ParallelSection | PlanSection | CpuSection | GeneralSection

  datatype Tag = Critical | High | Medium

  function TagName(t: Tag): string
  {
    match t
    case Critical => "CRITICAL"
    case High => "HIGH"
    case Medium => "MEDIUM"
  }

  /** The sort order of the tags: CRITICAL, then HIGH, then MEDIUM. */
  function TagRank(t: Tag): (r: nat)
    ensures r < 3
    ensures r == 0 <==> t == Critical
    ensures r == 2 <==> t == Medium
  {
    match t
    case Critical => 0
    case High => 1
    case Medium => 2
  }

  datatype FixStep = FixStep(stepNumber: int, priority: Tag)

  datatype FixSection = FixSection(kind: SectionKind, category: FixCategory, priorityTag: Tag, steps: seq<FixStep>)

  predicate NumberedFromOne(steps: seq<FixStep>)
  {
    forall i :: 0 <= i < |steps| ==> steps[i].stepNumber == i + 1
  }

  /** The steps each builder emits, by number and priority. */
  function StepsOf(k: SectionKind): (steps: seq<FixStep>)
    ensures NumberedFromOne(steps)
    ensures 2 <= |steps| <= 4
    ensures |steps| == 4 <==> k == AdvisorSection
    ensures |steps| == 2 <==> k == GeneralSection
  {
    match k
    case IoSection => [FixStep(1, Critical), FixStep(2, High), FixStep(3, High)]
    case AdvisorSection => [FixStep(1, Critical), FixStep(2, Critical), FixStep(3, High), FixStep(4, Medium)]
    case ParallelSection => [FixStep(1, High), FixStep(2, High), FixStep(3, Medium)]
    case PlanSection => [FixStep(1, Critical), FixStep(2, Critical), FixStep(3, High)]
    case CpuSection => [FixStep(1, Critical), FixStep(2, High), FixStep(3, High)]
    case GeneralSection => [FixStep(1, High), FixStep(2, Medium)]
  }

  /** `_generate_io_reduction_section`: CRITICAL above 80 % IO, else HIGH. */
  function IoReductionSection(io: real): (s: FixSection)
    ensures s.kind == IoSection && s.category == IoReduction
    ensures s.priorityTag == (if io > 80.0 then Critical else High)
    ensures s.steps == StepsOf(IoSection)
  {
    FixSection(IoSection, IoReduction, if io > 80.0 then Critical else High, StepsOf(IoSection))
  }

  /** `_generate_sql_access_advisor_section`: always CRITICAL. */
  function SqlAccessAdvisorSection(): (s: FixSection)
    ensures s.kind == AdvisorSection && s.category == SqlAccessAdvisor && s.priorityTag == Critical
    ensures s.steps == StepsOf(AdvisorSection)
  {
    FixSection(AdvisorSection, SqlAccessAdvisor, Critical, StepsOf(AdvisorSection))
  }

  /** `_generate_parallel_execution_section`: always HIGH. */
  function ParallelExecutionSection(): (s: FixSection)
    ensures s.kind == ParallelSection && s.category == ParallelExecution && s.priorityTag == High
    ensures s.steps == StepsOf(ParallelSection)
  {
    FixSection(ParallelSection, ParallelExecution, High, StepsOf(ParallelSection))
  }

  /** `_generate_plan_stability_section`: always HIGH. */
  function PlanStabilitySection(): (s: FixSection)
    ensures s.kind == PlanSection && s.category == PlanStability && s.priorityTag == High
    ensures s.steps == StepsOf(PlanSection)
  {
    FixSection(PlanSection, PlanStability, High, StepsOf(PlanSection))
  }

  /** `_generate_cpu_reduction_section`: HIGH above 70 % CPU, else MEDIUM. */
  function CpuReductionSection(cpu: real): (s: FixSection)
    ensures s.kind == CpuSection && s.category == CpuReduction
    ensures s.priorityTag == (if cpu > 70.0 then High else Medium)
    ensures s.steps == StepsOf(CpuSection)
  {
    FixSection(CpuSection, CpuReduction, if cpu > 70.0 then High else Medium, StepsOf(CpuSection))
  }

  /**
   * `_generate_general_optimization_section`: MEDIUM, and published under
   * the IO reduction category.
   */
  function GeneralOptimizationSection(): (s: FixSection)
    ensures s.kind == GeneralSection && s.category == IoReduction && s.priorityTag == Medium
    ensures s.steps == StepsOf(GeneralSection)
  {
    FixSection(GeneralSection, IoReduction, Medium, StepsOf(GeneralSection))
  }

  function TagKey(s: FixSection): real { TagRank(s.priorityTag) as real }

  function KindsOf(ss: seq<FixSection>): (ks: seq<SectionKind>)
    ensures |ks| == |ss|
    ensures forall i :: 0 <= i < |ss| ==> ks[i] == ss[i].kind
  {
    seq(|ss|, i requires 0 <= i < |ss| => ss[i].kind)
  }

  // ---------------------------------------------------------------------
  // Selection
  // ---------------------------------------------------------------------

  const IoThreshold: real := 60.0
  const CpuThreshold: real := 50.0
  const BatchExecTime: real := 5.0
  const BatchMaxExecs: int := 50

  predicate IsIoDominant(io: real, fullTableScan: bool, highIoDetected: bool)
  {
    io > IoThreshold || fullTableScan || highIoDetected
  }
  predicate IsBatchPattern(avg: real, executions: int) { avg > BatchExecTime && executions < BatchMaxExecs }
  predicate IsCpuDominant(cpu: real) { cpu > CpuThreshold }

  datatype Issue = IoDominantIssue | BatchPatternIssue | PlanInstabilityIssue | HighCpuIssue | HighImpactIssue

  function IssueName(i: Issue): string
  {
    match i
    case IoDominantIssue => "IO_DOMINANT"
    case BatchPatternIssue => "BATCH_PATTERN"
    case PlanInstabilityIssue => "PLAN_INSTABILITY"
    case HighCpuIssue => "HIGH_CPU"
    case HighImpactIssue => "HIGH_IMPACT"
  }

  /** The position of an issue in the order the conditions are checked. */
  function IssueRank(i: Issue): nat
  {
    match i
    case IoDominantIssue => 0
    case BatchPatternIssue => 1
    case PlanInstabilityIssue => 2
    case HighCpuIssue => 3
    case HighImpactIssue => 4
  }

  /** The sections of the four specific conditions, in checking order, by the conditions' outcomes. */
  function SectionsFor(ioDominant: bool, batch: bool, plan: bool, cpuDominant: bool, io: real, cpu: real)
    : seq<FixSection>
  {
    (if ioDominant then [IoReductionSection(io), SqlAccessAdvisorSection()] else [])
    + (if batch then [ParallelExecutionSection()] else [])
    + (if plan then [PlanStabilitySection()] else [])
    + (if cpuDominant then [CpuReductionSection(cpu)] else [])
  }

  function KindsFor(ioDominant: bool, batch: bool, plan: bool, cpuDominant: bool): seq<SectionKind>
  {
    (if ioDominant then [IoSection, AdvisorSection] else [])
    + (if batch then [ParallelSection] else [])
    + (if plan then [PlanSection] else [])
    + (if cpuDominant then [CpuSection] else [])
  }

  lemma KindsOfAppend(a: seq<FixSection>, b: seq<FixSection>)
    ensures KindsOf(a + b) == KindsOf(a) + KindsOf(b)
  {
  }

  lemma KindsOfSectionsFor(ioDominant: bool, batch: bool, plan: bool, cpuDominant: bool, io: real, cpu: real)
    ensures KindsOf(SectionsFor(ioDominant, batch, plan, cpuDominant, io, cpu))
         == KindsFor(ioDominant, batch, plan, cpuDominant)
  {
    var s1 := if ioDominant then [IoReductionSection(io), SqlAccessAdvisorSection()] else [];
    var s2 := if batch then [ParallelExecutionSection()] else [];
    var s3 := if plan then [PlanStabilitySection()] else [];
    var s4 := if cpuDominant then [CpuReductionSection(cpu)] else [];
    assert KindsOf(s1) == if ioDominant then [IoSection, AdvisorSection] else [];
    assert KindsOf(s2) == if batch then [ParallelSection] else [];
    assert KindsOf(s3) == if plan then [PlanSection] else [];
    assert KindsOf(s4) == if cpuDominant then [CpuSection] else [];
    KindsOfAppend(s1, s2);
    KindsOfAppend(s1 + s2, s3);
    KindsOfAppend(s1 + s2 + s3, s4);
  }

  /** Each condition contributes its own kinds, at most once each. */
  lemma KindsForProps(ioDominant: bool, batch: bool, plan: bool, cpuDominant: bool)
    ensures var ks := KindsFor(ioDominant, batch, plan, cpuDominant);
            && (IoSection in ks <==> ioDominant) && (AdvisorSection in ks <==> ioDominant)
            && (ParallelSection in ks <==> batch) && (PlanSection in ks <==> plan)
            && (CpuSection in ks <==> cpuDominant) && GeneralSection !in ks
            && NoDuplicates(ks)
            && (|ks| == 0 <==> !ioDominant && !batch && !plan && !cpuDominant)
  {
  }

  /** The labels of the four specific conditions, in checking order, by the conditions' outcomes. */
  function IssuesFor(ioDominant: bool, batch: bool, plan: bool, cpuDominant: bool): seq<Issue>
  {
    (if ioDominant then [IoDominantIssue] else [])
    + (if batch then [BatchPatternIssue] else [])
    + (if plan then [PlanInstabilityIssue] else [])
    + (if cpuDominant then [HighCpuIssue] else [])
  }

  predicate Ascending(labels: seq<Issue>)
  {
    forall i, j :: 0 <= i < j < |labels| ==> IssueRank(labels[i]) < IssueRank(labels[j])
  }

  /** Appending at most one label of a larger rank keeps the labels ascending. */
  lemma AscendingAppend(labels: seq<Issue>, more: seq<Issue>, bound: nat)
    requires Ascending(labels) && |more| <= 1
    requires forall x :: x in labels ==> IssueRank(x) < bound
    requires forall y :: y in more ==> IssueRank(y) == bound
    ensures Ascending(labels + more)
    ensures forall x :: x in labels + more ==> IssueRank(x) <= bound
  {
    forall i, j | 0 <= i < j < |labels + more|
      ensures IssueRank((labels + more)[i]) < IssueRank((labels + more)[j])
    {
      if j >= |labels| {
        assert (labels + more)[i] == labels[i];
        assert (labels + more)[j] in more;
      }
    }
  }

  /** One label per condition; the IO condition is the one with two sections. */
  lemma IssuesForMembers(ioDominant: bool, batch: bool, plan: bool, cpuDominant: bool)
    ensures var labels := IssuesFor(ioDominant, batch, plan, cpuDominant);
            && (IoDominantIssue in labels <==> ioDominant) && (BatchPatternIssue in labels <==> batch)
            && (PlanInstabilityIssue in labels <==> plan) && (HighCpuIssue in labels <==> cpuDominant)
            && HighImpactIssue !in labels
            && |KindsFor(ioDominant, batch, plan, cpuDominant)| == |labels| + (if ioDominant then 1 else 0)
  {
  }

  /** The labels come in checking order. */
  lemma IssuesForAscending(ioDominant: bool, batch: bool, plan: bool, cpuDominant: bool)
    ensures Ascending(IssuesFor(ioDominant, batch, plan, cpuDominant))
  {
    var a := if ioDominant then [IoDominantIssue] else [];
    var b := if batch then [BatchPatternIssue] else [];
    var c := if plan then [PlanInstabilityIssue] else [];
    var d := if cpuDominant then [HighCpuIssue] else [];
    AscendingAppend([], a, 0);
    assert [] + a == a;
    AscendingAppend(a, b, 1);
    AscendingAppend(a + b, c, 2);
    AscendingAppend(a + b + c, d, 3);
  }

  function SpecificSections(io: real, cpu: real, avg: real, executions: int, planInstability: bool,
                            fullTableScan: bool, highIoDetected: bool): seq<FixSection>
  {
    SectionsFor(IsIoDominant(io, fullTableScan, highIoDetected), IsBatchPattern(avg, executions),
                planInstability, IsCpuDominant(cpu), io, cpu)
  }

  /** The selected sections before sorting: the specific ones, else the fallback. */
  function SelectedSections(io: real, cpu: real, avg: real, executions: int, totalElapsed: real,
                            planInstability: bool, fullTableScan: bool, highIoDetected: bool): seq<FixSection>
  {
    var s := SpecificSections(io, cpu, avg, executions, planInstability, fullTableScan, highIoDetected);
    if |s| == 0 && totalElapsed > 30.0 then [GeneralOptimizationSection()] else s
  }

  function SpecificIssues(io: real, cpu: real, avg: real, executions: int, planInstability: bool,
                          fullTableScan: bool, highIoDetected: bool): seq<Issue>
  {
    IssuesFor(IsIoDominant(io, fullTableScan, highIoDetected), IsBatchPattern(avg, executions),
              planInstability, IsCpuDominant(cpu))
  }

  /** The issue labels, in checking order. */
  function DetectedIssues(io: real, cpu: real, avg: real, executions: int, totalElapsed: real,
                          planInstability: bool, fullTableScan: bool, highIoDetected: bool): seq<Issue>
  {
    var specific := SpecificIssues(io, cpu, avg, executions, planInstability, fullTableScan, highIoDetected);
    if |specific| == 0 && totalElapsed > 30.0 then [HighImpactIssue] else specific
  }

  /**
   * Which sections are selected: IO reduction and the advisor together,
   * the three single-condition sections, and the general fallback only
   * when nothing specific fired and the statement ran over 30 s.
   */
  lemma SectionSelection(io: real, cpu: real, avg: real, executions: int, totalElapsed: real,
                         planInstability: bool, fullTableScan: bool, highIoDetected: bool)
    ensures var ks := KindsOf(SelectedSections(io, cpu, avg, executions, totalElapsed,
                                               planInstability, fullTableScan, highIoDetected));
            && (IoSection in ks <==> io > 60.0 || fullTableScan || highIoDetected)
            && (AdvisorSection in ks <==> IoSection in ks)
            && (ParallelSection in ks <==> avg > 5.0 && executions < 50)
            && (PlanSection in ks <==> planInstability)
            && (CpuSection in ks <==> cpu > 50.0)
            && (GeneralSection in ks <==>
                  !(io > 60.0 || fullTableScan || highIoDetected) && !(avg > 5.0 && executions < 50)
                  && !planInstability && cpu <= 50.0 && totalElapsed > 30.0)
            && NoDuplicates(ks)
  {
    var a, b, d := IsIoDominant(io, fullTableScan, highIoDetected), IsBatchPattern(avg, executions),
                   IsCpuDominant(cpu);
    KindsOfSectionsFor(a, b, planInstability, d, io, cpu);
    KindsForProps(a, b, planInstability, d);
    var s := SpecificSections(io, cpu, avg, executions, planInstability, fullTableScan, highIoDetected);
    if |s| == 0 && totalElapsed > 30.0 {
      assert KindsOf([GeneralOptimizationSection()]) == [GeneralSection];
    }
  }

  /**
   * One label per triggered condition, each at most once, in checking
   * order; the IO condition is the one label behind two sections.
   */
  lemma IssueLabels(io: real, cpu: real, avg: real, executions: int, totalElapsed: real,
                    planInstability: bool, fullTableScan: bool, highIoDetected: bool)
    ensures var labels := DetectedIssues(io, cpu, avg, executions, totalElapsed,
                                         planInstability, fullTableScan, highIoDetected);
            var ss := SelectedSections(io, cpu, avg, executions, totalElapsed,
                                       planInstability, fullTableScan, highIoDetected);
            && (IoDominantIssue in labels <==> io > 60.0 || fullTableScan || highIoDetected)
            && (BatchPatternIssue in labels <==> avg > 5.0 && executions < 50)
            && (PlanInstabilityIssue in labels <==> planInstability)
            && (HighCpuIssue in labels <==> cpu > 50.0)
            && (HighImpactIssue in labels <==> GeneralSection in KindsOf(ss))
            && Ascending(labels)
            && |ss| == |labels| + (if IoDominantIssue in labels then 1 else 0)
  {
    var a, b, d := IsIoDominant(io, fullTableScan, highIoDetected), IsBatchPattern(avg, executions),
                   IsCpuDominant(cpu);
    SectionSelection(io, cpu, avg, executions, totalElapsed, planInstability, fullTableScan, highIoDetected);
    KindsOfSectionsFor(a, b, planInstability, d, io, cpu);
    IssuesForMembers(a, b, planInstability, d);
    IssuesForAscending(a, b, planInstability, d);
  }

  // ---------------------------------------------------------------------
  // Summary
  // ---------------------------------------------------------------------

  /**
   * The summary: the monitoring sentence, or the report with the issue
   * names, the section count and one improvement line per section (the
   * line is fixed by the section's builder).
   */
  datatype FixSummary =
    | MonitoringSentence(sqlId: string)
    | FixReport(sqlId: string, issueNames: seq<string>, sectionCount: nat, improvements: seq<SectionKind>)

  function SummaryOf(sqlId: string, issues: seq<Issue>, sections: seq<FixSection>): (s: FixSummary)
    ensures s.sqlId == sqlId
    ensures s.MonitoringSentence? <==> |sections| == 0
    ensures s.FixReport? ==> s.sectionCount == |sections| && s.improvements == KindsOf(sections)
    ensures s.FixReport? ==> |s.issueNames| == |issues|
  {
    if |sections| == 0 then MonitoringSentence(sqlId)
    else FixReport(sqlId, seq(|issues|, i requires 0 <= i < |issues| => IssueName(issues[i])),
                   |sections|, KindsOf(sections))
  }

  /** `_generate_summary`: the improvement lines are collected section by section. */
  method GenerateSummary(sqlId: string, issues: seq<Issue>, sections: seq<FixSection>) returns (s: FixSummary)
    ensures s == SummaryOf(sqlId, issues, sections)
  {
    if |sections| == 0 {
      return MonitoringSentence(sqlId);
    }
    var names := seq(|issues|, i requires 0 <= i < |issues| => IssueName(issues[i]));
    var improvements: seq<SectionKind> := [];
    var i := 0;
    while i < |sections|
      invariant 0 <= i <= |sections|
      invariant improvements == KindsOf(sections[..i])
    {
      improvements := improvements + [sections[i].kind];
      i := i + 1;
    }
    assert sections[..i] == sections;
    s := FixReport(sqlId, names, |sections|, improvements);
  }

  // ---------------------------------------------------------------------
  // The recommendation
  // ---------------------------------------------------------------------

  datatype FixResult = FixResult(sqlId: string, detectedIssues: seq<Issue>,
                                 fixSections: seq<FixSection>, summary: FixSummary)

  function FixResultOf(sqlId: string, io: real, cpu: real, avg: real, executions: int, totalElapsed: real,
                       planInstability: bool, fullTableScan: bool, highIoDetected: bool): FixResult
  {
    var issues := DetectedIssues(io, cpu, avg, executions, totalElapsed, planInstability, fullTableScan, highIoDetected);
    var sections := SortBy(SelectedSections(io, cpu, avg, executions, totalElapsed,
                                            planInstability, fullTableScan, highIoDetected), TagKey);
    FixResult(sqlId, issues, sections, SummaryOf(sqlId, issues, sections))
  }

  /** The sections of the specific conditions and their labels, in checking order. */
  method SelectSpecific(io: real, cpu: real, avg: real, executions: int, planInstability: bool,
                        fullTableScan: bool, highIoDetected: bool)
    returns (issues: seq<Issue>, sections: seq<FixSection>)
    ensures sections == SpecificSections(io, cpu, avg, executions, planInstability, fullTableScan, highIoDetected)
    ensures issues == DetectedIssues(io, cpu, avg, executions, 0.0, planInstability, fullTableScan, highIoDetected)
  {
    issues, sections := [], [];
    if io > IoThreshold || fullTableScan || highIoDetected {
      issues := issues + [IoDominantIssue];
      sections := sections + [IoReductionSection(io)];
      sections := sections + [SqlAccessAdvisorSection()];
    }
    ghost var io1 := IsIoDominant(io, fullTableScan, highIoDetected);
    ghost var s1, i1 := sections, issues;
    assert s1 == if io1 then [IoReductionSection(io), SqlAccessAdvisorSection()] else [];
    assert i1 == if io1 then [IoDominantIssue] else [];
    if avg > BatchExecTime && executions < BatchMaxExecs {
      issues := issues + [BatchPatternIssue];
      sections := sections + [ParallelExecutionSection()];
    }
    ghost var s2, i2 := sections, issues;
    assert s2 == s1 + if IsBatchPattern(avg, executions) then [ParallelExecutionSection()] else [];
    if planInstability {
      issues := issues + [PlanInstabilityIssue];
      sections := sections + [PlanStabilitySection()];
    }
    ghost var s3, i3 := sections, issues;
    assert s3 == s2 + if planInstability then [PlanStabilitySection()] else [];
    if cpu > CpuThreshold {
      issues := issues + [HighCpuIssue];
      sections := sections + [CpuReductionSection(cpu)];
    }
    assert sections == s3 + if IsCpuDominant(cpu) then [CpuReductionSection(cpu)] else [];
    assert i2 == i1 + if IsBatchPattern(avg, executions) then [BatchPatternIssue] else [];
    assert i3 == i2 + if planInstability then [PlanInstabilityIssue] else [];
    assert issues == i3 + if IsCpuDominant(cpu) then [HighCpuIssue] else [];
    assert sections == SectionsFor(io1, IsBatchPattern(avg, executions), planInstability, IsCpuDominant(cpu), io, cpu);
    assert issues == IssuesFor(io1, IsBatchPattern(avg, executions), planInstability, IsCpuDominant(cpu));
  }

  /**
   * `generate_fix_recommendations`: one label and its sections per
   * triggered condition, the general fallback, the stable sort by tag and
   * the summary.
   */
  method GenerateFixRecommendations(sqlId: string, io: real, cpu: real, avg: real, executions: int,
                                    totalElapsed: real, planInstability: bool, fullTableScan: bool,
                                    highIoDetected: bool)
    returns (res: FixResult)
    ensures res == FixResultOf(sqlId, io, cpu, avg, executions, totalElapsed,
                               planInstability, fullTableScan, highIoDetected)
  {
    var issues, sections := SelectSpecific(io, cpu, avg, executions, planInstability, fullTableScan, highIoDetected);
    if |sections| == 0 && totalElapsed > 30.0 {
      issues := issues + [HighImpactIssue];
      sections := sections + [GeneralOptimizationSection()];
    }
    assert sections == SelectedSections(io, cpu, avg, executions, totalElapsed,
                                        planInstability, fullTableScan, highIoDetected);
    assert |sections| == 0 <==> |issues| == 0 by {
      IssueLabels(io, cpu, avg, executions, 0.0, planInstability, fullTableScan, highIoDetected);
    }
    assert issues == DetectedIssues(io, cpu, avg, executions, totalElapsed,
                                    planInstability, fullTableScan, highIoDetected);
    sections := SortBy(sections, TagKey);
    var summary := GenerateSummary(sqlId, issues, sections);
    res := FixResult(sqlId, issues, sections, summary);
  }

  /**
   * The sections come out ordered CRITICAL, HIGH, MEDIUM, as a permutation
   * of the selected ones, with sections of equal tag in checking order.
   */
  lemma SectionsSorted(sqlId: string, io: real, cpu: real, avg: real, executions: int, totalElapsed: real,
                       planInstability: bool, fullTableScan: bool, highIoDetected: bool)
    ensures var r := FixResultOf(sqlId, io, cpu, avg, executions, totalElapsed,
                                 planInstability, fullTableScan, highIoDetected);
            var sel := SelectedSections(io, cpu, avg, executions, totalElapsed,
                                        planInstability, fullTableScan, highIoDetected);
            && (forall i, j :: 0 <= i < j < |r.fixSections| ==>
                  TagRank(r.fixSections[i].priorityTag) <= TagRank(r.fixSections[j].priorityTag))
            && multiset(r.fixSections) == multiset(sel)
            && (forall k :: KeyFilter(r.fixSections, TagKey, k) == KeyFilter(sel, TagKey, k))
  {
    var sel := SelectedSections(io, cpu, avg, executions, totalElapsed,
                                planInstability, fullTableScan, highIoDetected);
    SortByProps(sel, TagKey, 0.0);
    forall k ensures KeyFilter(SortBy(sel, TagKey), TagKey, k) == KeyFilter(sel, TagKey, k) {
      SortByProps(sel, TagKey, k);
    }
  }

  /** Sorting a list that holds the advisor section puts a CRITICAL section first. */
  lemma CriticalFirst(sel: seq<FixSection>)
    requires SqlAccessAdvisorSection() in sel
    ensures |SortBy(sel, TagKey)| > 0 && SortBy(sel, TagKey)[0].priorityTag == Critical
  {
    var sorted := SortBy(sel, TagKey);
    SortByMembers(sel, TagKey);
    SortByProps(sel, TagKey, 0.0);
    var j :| 0 <= j < |sorted| && sorted[j] == SqlAccessAdvisorSection();
    assert TagKey(sorted[0]) <= TagKey(sorted[j]);
  }

  /** An IO-dominant statement's recommendation opens with a CRITICAL section. */
  lemma IoDominantLeadsWithCritical(sqlId: string, io: real, cpu: real, avg: real, executions: int,
                                    totalElapsed: real, planInstability: bool, fullTableScan: bool,
                                    highIoDetected: bool)
    requires io > 60.0 || fullTableScan || highIoDetected
    ensures var r := FixResultOf(sqlId, io, cpu, avg, executions, totalElapsed,
                                 planInstability, fullTableScan, highIoDetected);
            |r.fixSections| > 0 && r.fixSections[0].priorityTag == Critical
  {
    var sel := SelectedSections(io, cpu, avg, executions, totalElapsed,
                                planInstability, fullTableScan, highIoDetected);
    var rest := SectionsFor(false, IsBatchPattern(avg, executions), planInstability, IsCpuDominant(cpu), io, cpu);
    assert sel == [IoReductionSection(io), SqlAccessAdvisorSection()] + rest;
    assert sel[1] == SqlAccessAdvisorSection();
    CriticalFirst(sel);
  }

  /**
   * The formatter and the load reduction engine select on the same
   * thresholds: without the ASH IO flag, the specific sections correspond
   * one to one, in order, to the engine's detected causes.
   */
  function KindOfCause(c: LoadReduction.RootCause): SectionKind
  {
    match c
    case IoDominant => IoSection
    case MissingIndex => AdvisorSection
    case PxIneffective => ParallelSection
    case BadExecutionPlan => PlanSection
    case HighCpu => CpuSection
    case Mixed => GeneralSection
  }

  function CauseKinds(cs: seq<LoadReduction.RootCause>): (ks: seq<SectionKind>)
    ensures |ks| == |cs|
    ensures forall i :: 0 <= i < |cs| ==> ks[i] == KindOfCause(cs[i])
  {
    seq(|cs|, i requires 0 <= i < |cs| => KindOfCause(cs[i]))
  }

  lemma CauseKindsAppend(a: seq<LoadReduction.RootCause>, b: seq<LoadReduction.RootCause>)
    ensures CauseKinds(a + b) == CauseKinds(a) + CauseKinds(b)
  {
  }

  lemma SameThresholdsAsLoadReduction(io: real, cpu: real, avg: real, executions: int,
                                      planInstability: bool, fullTableScan: bool)
    ensures CauseKinds(LoadReduction.DetectedCauses(io, cpu, avg, executions, planInstability, fullTableScan))
         == KindsOf(SpecificSections(io, cpu, avg, executions, planInstability, fullTableScan, false))
  {
    var a, b, d := IsIoDominant(io, fullTableScan, false), IsBatchPattern(avg, executions), IsCpuDominant(cpu);
    KindsOfSectionsFor(a, b, planInstability, d, io, cpu);
    var c1 := if a then [LoadReduction.IoDominant, LoadReduction.MissingIndex] else [];
    var c2 := if b then [LoadReduction.PxIneffective] else [];
    var c3 := if planInstability then [LoadReduction.BadExecutionPlan] else [];
    var c4 := if d then [LoadReduction.HighCpu] else [];
    assert LoadReduction.IsIoDominant(io, fullTableScan) == a;
    assert LoadReduction.IsBatchPattern(avg, executions) == b;
    assert LoadReduction.IsCpuDominant(cpu) == d;
    assert LoadReduction.DetectedCauses(io, cpu, avg, executions, planInstability, fullTableScan)
        == c1 + c2 + c3 + c4;
    assert CauseKinds(c1) == if a then [IoSection, AdvisorSection] else [];
    assert CauseKinds(c2) == if b then [ParallelSection] else [];
    assert CauseKinds(c3) == if planInstability then [PlanSection] else [];
    assert CauseKinds(c4) == if d then [CpuSection] else [];
    CauseKindsAppend(c1, c2);
    CauseKindsAppend(c1 + c2, c3);
    CauseKindsAppend(c1 + c2 + c3, c4);
  }

  // ---------------------------------------------------------------------
  // Serialisation
  // ---------------------------------------------------------------------

  datatype StepEntry = StepEntry(stepNumber: int, priority: string)
  datatype SectionEntry = SectionEntry(category: string, priorityTag: string, steps: seq<StepEntry>)
  datatype FixDict = FixDict(sqlId: string, detectedIssues: seq<string>, summary: FixSummary,
                             totalSections: nat, fixSections: seq<SectionEntry>)

  function SectionToDict(s: FixSection): (e: SectionEntry)
    ensures e.category == CategoryName(s.category) && e.priorityTag == TagName(s.priorityTag)
    ensures |e.steps| == |s.steps|
    ensures forall i :: 0 <= i < |s.steps| ==>
              e.steps[i] == StepEntry(s.steps[i].stepNumber, TagName(s.steps[i].priority))
  {
    SectionEntry(CategoryName(s.category), TagName(s.priorityTag),
                 seq(|s.steps|, i requires 0 <= i < |s.steps| =>
                       StepEntry(s.steps[i].stepNumber, TagName(s.steps[i].priority))))
  }

  /** `to_dict`: `total_sections` is the number of sections, which keep their order. */
  function ToDict(r: FixResult): (d: FixDict)
    ensures d.sqlId == r.sqlId && d.summary == r.summary
    ensures d.totalSections == |r.fixSections| == |d.fixSections|
    ensures forall i :: 0 <= i < |r.fixSections| ==> d.fixSections[i] == SectionToDict(r.fixSections[i])
    ensures |d.detectedIssues| == |r.detectedIssues|
    ensures forall i :: 0 <= i < |r.detectedIssues| ==> d.detectedIssues[i] == IssueName(r.detectedIssues[i])
  {
    FixDict(r.sqlId,
            seq(|r.detectedIssues|, i requires 0 <= i < |r.detectedIssues| => IssueName(r.detectedIssues[i])),
            r.summary,
            |r.fixSections|,
            seq(|r.fixSections|, i requires 0 <= i < |r.fixSections| => SectionToDict(r.fixSections[i])))
  }

  /** The summary is the monitoring sentence exactly when the dictionary has no section. */
  lemma MonitoringSentenceIffNoSection(r: FixResult)
    requires r.summary == SummaryOf(r.sqlId, r.detectedIssues, r.fixSections)
    ensures ToDict(r).summary.MonitoringSentence? <==> ToDict(r).totalSections == 0
  {
  }

  // ---------------------------------------------------------------------
  // Findings of the DBA expert engine
  // ---------------------------------------------------------------------

  /** Python's `a or b` on numbers: `a` unless it is zero. */
  function OrElse(a: real, b: real): real { if a != 0.0 then a else b }

  predicate PlanInstabilityText(l: string)
  {
    Contains(l, "plan instab") || Contains(l, "plan regression") || Contains(l, "unstable plan")
  }

  predicate FullScanText(l: string)
  {
    Contains(l, "full scan") || Contains(l, "table scan") || Contains(l, "full table")
  }

  predicate HighIoText(l: string)
  {
    Contains(l, "i/o") || Contains(l, "io-heavy") || Contains(l, "disk read") || Contains(l, "physical read")
  }

  /**
   * `generate_fix_recommendations_for_finding`: each metric is read from
   * the technical parameters, falling back to an execution-pattern key when
   * it is zero; the conditions come from the lower-cased interpretation.
   */
  function FixRecommendationsForFinding(f: DbaExpert.DbaFinding, interpretation: string): (d: FixDict)
    ensures var t, l := f.technicalParameters, Lower(interpretation);
            && ((IssueName(IoDominantIssue) in d.detectedIssues)
                  <==> LoadReduction.Metric(t, "io_percentage") > 60.0 || FullScanText(l) || HighIoText(l))
            && (IssueName(HighCpuIssue) in d.detectedIssues <==> LoadReduction.Metric(t, "cpu_percentage") > 50.0)
            && (IssueName(PlanInstabilityIssue) in d.detectedIssues <==> PlanInstabilityText(l))
  {
    var t, p, l := f.technicalParameters, LoadReduction.PatternNumbers(f), Lower(interpretation);
    assert "io_pct" !in p && "cpu_pct" !in p && "avg_elapsed_per_exec" !in p
        && "total_executions" !in p && "total_elapsed" !in p;
    var io := OrElse(LoadReduction.Metric(t, "io_percentage"), LoadReduction.Metric(p, "io_pct"));
    var cpu := OrElse(LoadReduction.Metric(t, "cpu_percentage"), LoadReduction.Metric(p, "cpu_pct"));
    var avg := OrElse(LoadReduction.Metric(t, "avg_elapsed_per_exec_s"), LoadReduction.Metric(p, "avg_elapsed_per_exec"));
    var ex := OrElse(LoadReduction.Metric(t, "executions"), LoadReduction.Metric(p, "total_executions")).Floor;
    var total := OrElse(LoadReduction.Metric(t, "total_elapsed_time_s"), LoadReduction.Metric(p, "total_elapsed"));
    var r := FixResultOf(f.sqlId, io, cpu, avg, ex, total, PlanInstabilityText(l), FullScanText(l), HighIoText(l));
    IssueLabels(io, cpu, avg, ex, total, PlanInstabilityText(l), FullScanText(l), HighIoText(l));
    IssueNamesIn(r, IoDominantIssue);
    IssueNamesIn(r, HighCpuIssue);
    IssueNamesIn(r, PlanInstabilityIssue);
    ToDict(r)
  }

  /**
   * The two finding helpers look for plan instability with different
   * words: an interpretation opening with "plan instab" and without the
   * letters u and g (such as "plan instability") selects the plan section
   * here but no plan action in the load reduction helper, which wants
   * "unstable" or "regression" beside "plan".
   */
  lemma PlanKeywordSetsDiffer(l: string)
    requires StartsWith(l, "plan instab")
    requires forall i :: 0 <= i < |l| ==> l[i] != 'u' && l[i] != 'g'
    ensures PlanInstabilityText(l)
    ensures !LoadReduction.PlanInstabilityText(l)
  {
    ContainsAt(l, "plan instab", 0);
    assert "unstable"[0] == 'u' && "regression"[2] == 'g';
    MissingCharNotContained(l, "unstable", 'u');
    MissingCharNotContained(l, "regression", 'g');
  }

  /** An issue is named in the dictionary exactly when it was detected. */
  lemma IssueNamesIn(r: FixResult, x: Issue)
    ensures IssueName(x) in ToDict(r).detectedIssues <==> x in r.detectedIssues
  {
    var d := ToDict(r);
    if IssueName(x) in d.detectedIssues {
      var i :| 0 <= i < |d.detectedIssues| && d.detectedIssues[i] == IssueName(x);
      assert IssueName(r.detectedIssues[i]) == IssueName(x);
    }
    if x in r.detectedIssues {
      var i :| 0 <= i < |r.detectedIssues| && r.detectedIssues[i] == x;
      assert d.detectedIssues[i] == IssueName(x);
    }
  }
}
