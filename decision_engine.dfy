/**
 * The decision layer: a raw SQL statistics record is normalised into a
 * signal block, and an ordered list of gates assigns exactly one category,
 * with the actions that category allows and blocks.
 */
module DecisionEngine {
  import opened Common

  datatype Category =
    | BatchSql | ChattySql | IoBoundSql | CpuBoundSql | MixedProfileSql | LowPriority

  datatype Action =
    | PlanAnalysis | IndexReview | IoOptimization | AccessPathOptimization
    | JoinMethodReview | HashVsNestedAnalysis | SqlRewrite
    | BindTuning | SqlTuningAdvisor | SqlAccessAdvisor
    | ApplicationThrottling | ResultCaching
    | IndexCreation | CpuTuning | JoinHints | IndexOnlyFixes | AppThrottling
    | MonitorOnly

  /** The normalised signal block, the only input of the gates. */
  datatype Signals = Signals(
    sqlId: string,
    executions: int,
    totalElapsed: real,
    avgExecTime: real,
    cpuTime: real,
    cpuPct: real,
    ioWaitPct: real,
    dbTimePct: real,
    sqlText: Option<string>,
    sqlModule: Option<string>,
    waitClass: Option<string>)

  datatype Decision = Decision(
    sqlId: string,
    category: Category,
    allowed: seq<Action>,
    blocked: seq<Action>,
    signals: Signals)

  /**
   * One SQL statistics record as the RCA stage hands it over; `None` is a
   * missing key (or a `None` value).
   */
  datatype SqlData = SqlData(
    sqlId: Option<string>,
    executions: Option<int>,
    elapsed: Option<real>,
    elapsedTime: Option<real>,
    totalElapsed: Option<real>,
    cpu: Option<real>,
    cpuTime: Option<real>,
    elapsedPerExec: Option<real>,
    pctcpu: Option<real>,
    pctio: Option<real>,
    pcttotal: Option<real>,
    dbTimePct: Option<real>,
    sqlText: Option<string>,
    sqlModule: Option<string>,
    waitClass: Option<string>)

  datatype WaitEvent = WaitEvent(pctOfDbTime: real, waitClass: Option<string>)

  // ---------------------------------------------------------------------
  // Signal normalisation
  // ---------------------------------------------------------------------

  /** `int(d.get('executions', 0) or 0)`. */
  function ExecutionsOf(d: SqlData): int
  {
    if d.executions.Some? then d.executions.value else 0
  }

  /** The mean time per execution when both totals are positive, else the supplied figure. */
  function AverageExecTime(executions: int, total: real, perExec: Option<real>): (avg: real)
    ensures executions > 0 && total > 0.0 ==> avg * (executions as real) == total
    ensures !(executions > 0 && total > 0.0) ==> avg == OrZero(perExec)
  {
    if executions > 0 && total > 0.0 then total / executions as real else OrZero(perExec)
  }

  /** CPU%: the supplied figure, or derived from the CPU share of elapsed time when missing. */
  function CpuPercent(pctcpu: Option<real>, total: real, cpu: real): (p: real)
    ensures Truthy(pctcpu) ==> p == pctcpu.value
    ensures !Truthy(pctcpu) && total > 0.0 && cpu > 0.0 ==> p * total == cpu * 100.0
    ensures !Truthy(pctcpu) && !(total > 0.0 && cpu > 0.0) ==> p == 0.0
  {
    if OrZero(pctcpu) == 0.0 && total > 0.0 && cpu > 0.0 then cpu / total * 100.0
    else OrZero(pctcpu)
  }

  /** IO%: the supplied figure, or the non-CPU share of elapsed time, within [0, 100]. */
  function IoWaitPercent(pctio: Option<real>, total: real, cpu: real): (p: real)
    ensures Truthy(pctio) ==> p == pctio.value
    ensures !Truthy(pctio) && total > 0.0 && cpu >= 0.0 ==>
              0.0 <= p <= 100.0 && p * total == Max(0.0, total - cpu) * 100.0
    ensures !Truthy(pctio) && !(total > 0.0 && cpu >= 0.0) ==> p == 0.0
  {
    if OrZero(pctio) == 0.0 && total > 0.0 && cpu >= 0.0 then
      var p := Max(0.0, total - cpu) / total * 100.0;
      assert Max(0.0, total - cpu) <= total;
      assert p <= 100.0 by {
        assert Max(0.0, total - cpu) / total <= 1.0;
      }
      p
    else OrZero(pctio)
  }

  /** Index of the first wait event above 20% of DB time, if any. */
  function FirstHeavyWait(ws: seq<WaitEvent>): (r: Option<nat>)
    ensures r.Some? ==> r.value < |ws| && ws[r.value].pctOfDbTime > 20.0
    ensures r.Some? ==> forall i :: 0 <= i < r.value ==> ws[i].pctOfDbTime <= 20.0
    ensures r.None? ==> forall i :: 0 <= i < |ws| ==> ws[i].pctOfDbTime <= 20.0
  {
    if |ws| == 0 then None
    else if ws[0].pctOfDbTime > 20.0 then Some(0)
    else match FirstHeavyWait(ws[1..]) {
      case None => None
      case Some(i) => Some(i + 1)
    }
  }

  /** The wait class, taken from the first heavy wait event when the record has none. */
  function EnrichedWaitClass(d: SqlData, ws: seq<WaitEvent>): Option<string>
  {
    if |ws| > 0 && !TruthyText(d.waitClass) then
      match FirstHeavyWait(ws) {
        case Some(i) => ws[i].waitClass
        case None => d.waitClass
      }
    else d.waitClass
  }

  function NormalizeFromRca(d: SqlData, ws: seq<WaitEvent>): (s: Signals)
    ensures s.sqlId == if d.sqlId.Some? then d.sqlId.value else "UNKNOWN"
    ensures s.executions == ExecutionsOf(d)
    // elapsed, then elapsed_time, then total_elapsed; cpu, then cpu_time
    ensures s.totalElapsed == FirstTruthy([d.elapsed, d.elapsedTime, d.totalElapsed])
    ensures s.cpuTime == FirstTruthy([d.cpu, d.cpuTime])
    ensures s.avgExecTime == AverageExecTime(s.executions, s.totalElapsed, d.elapsedPerExec)
    ensures s.cpuPct == CpuPercent(d.pctcpu, s.totalElapsed, s.cpuTime)
    ensures s.ioWaitPct == IoWaitPercent(d.pctio, s.totalElapsed, s.cpuTime)
    ensures s.dbTimePct == FirstTruthy([d.pcttotal, d.dbTimePct])
    ensures TruthyText(d.waitClass) || |ws| == 0 ==> s.waitClass == d.waitClass
    // without a wait class of its own, the record takes the class of the first event above 20% of DB time
    ensures !TruthyText(d.waitClass) && FirstHeavyWait(ws).Some? ==>
              s.waitClass == ws[FirstHeavyWait(ws).value].waitClass
    ensures FirstHeavyWait(ws).None? ==> s.waitClass == d.waitClass
    ensures s.sqlText == d.sqlText && s.sqlModule == d.sqlModule
  {
    var executions := ExecutionsOf(d);
    var total := FirstTruthy([d.elapsed, d.elapsedTime, d.totalElapsed]);
    var cpu := FirstTruthy([d.cpu, d.cpuTime]);
    Signals(
      if d.sqlId.Some? then d.sqlId.value else "UNKNOWN",
      executions, total,
      AverageExecTime(executions, total, d.elapsedPerExec),
      cpu,
      CpuPercent(d.pctcpu, total, cpu),
      IoWaitPercent(d.pctio, total, cpu),
      FirstTruthy([d.pcttotal, d.dbTimePct]),
      d.sqlText, d.sqlModule, EnrichedWaitClass(d, ws))
  }

  // ---------------------------------------------------------------------
  // Gates
  // ---------------------------------------------------------------------

  const BatchMinAvgExecTime: real := 5.0
  const BatchMaxExecutions: int := 50
  const ChattyMinExecutions: int := 1000
  const ChattyMaxAvgExecTime: real := 0.1
  const IoBoundMinIoWaitPct: real := 70.0
  const CpuBoundMinCpuPct: real := 70.0
  const CpuBoundMaxIoWaitPct: real := 30.0

  predicate IsBatch(s: Signals)
  {
    s.avgExecTime > BatchMinAvgExecTime && s.executions < BatchMaxExecutions
  }

  predicate IsChatty(s: Signals)
  {
    s.executions > ChattyMinExecutions && s.avgExecTime < ChattyMaxAvgExecTime
  }

  predicate IsIoBound(s: Signals)
  {
    s.ioWaitPct > IoBoundMinIoWaitPct
  }

  predicate IsCpuBound(s: Signals)
  {
    s.cpuPct > CpuBoundMinCpuPct && s.ioWaitPct < CpuBoundMaxIoWaitPct
  }

  /** The number of concerning traits the mixed-profile gate counts (at most five). */
  function ConcerningTraits(s: Signals): (n: nat)
    ensures n <= 5
  {
    (if s.avgExecTime > 1.0 then 1 else 0)
    + (if s.executions > 100 then 1 else 0)
    + (if s.ioWaitPct > 40.0 then 1 else 0)
    + (if s.cpuPct > 40.0 then 1 else 0)
    + (if s.dbTimePct > 10.0 then 1 else 0)
  }

  predicate IsMixedProfile(s: Signals)
  {
    ConcerningTraits(s) >= 3
  }

  // ---------------------------------------------------------------------
  // Decisions
  // ---------------------------------------------------------------------

  function BatchDecision(s: Signals): Decision
  {
    Decision(s.sqlId, BatchSql,
      [PlanAnalysis, IndexReview, IoOptimization, SqlAccessAdvisor, SqlRewrite],
      [BindTuning, AppThrottling, ApplicationThrottling, ResultCaching], s)
  }

  function ChattyDecision(s: Signals): Decision
  {
    Decision(s.sqlId, ChattySql,
      [ApplicationThrottling, ResultCaching, BindTuning],
      [IndexCreation, SqlTuningAdvisor, SqlAccessAdvisor, PlanAnalysis, SqlRewrite], s)
  }

  function IoBoundDecision(s: Signals): Decision
  {
    Decision(s.sqlId, IoBoundSql,
      [IndexReview, IndexCreation, AccessPathOptimization, SqlAccessAdvisor, IoOptimization],
      [CpuTuning, JoinHints, HashVsNestedAnalysis], s)
  }

  function CpuBoundDecision(s: Signals): Decision
  {
    Decision(s.sqlId, CpuBoundSql,
      [JoinMethodReview, HashVsNestedAnalysis, SqlRewrite, PlanAnalysis, SqlTuningAdvisor],
      [IndexOnlyFixes, IoOptimization, AccessPathOptimization], s)
  }

  /** The mixed-profile allowed list, before duplicates are removed. */
  function MixedAllowed(io: bool, cpu: bool, frequent: bool): seq<Action>
  {
    [PlanAnalysis, SqlTuningAdvisor]
    + (if io then [IndexReview, AccessPathOptimization] else [])
    + (if cpu then [JoinMethodReview, SqlRewrite] else [])
    + (if frequent then [BindTuning, ResultCaching] else [])
  }

  /** The extensions never repeat an action, so removing duplicates changes nothing but order. */
  lemma MixedAllowedDistinct(io: bool, cpu: bool, frequent: bool)
    ensures NoDuplicates(MixedAllowed(io, cpu, frequent))
  {
    var l := MixedAllowed(io, cpu, frequent);
    var base := [PlanAnalysis, SqlTuningAdvisor];
    var e1 := if io then [IndexReview, AccessPathOptimization] else [];
    var e2 := if cpu then [JoinMethodReview, SqlRewrite] else [];
    var e3 := if frequent then [BindTuning, ResultCaching] else [];
    assert l == base + e1 + e2 + e3;
    forall i, j | 0 <= i < j < |l| ensures l[i] != l[j] {
      assert l[i] in base || l[i] in e1 || l[i] in e2 || l[i] in e3;
    }
  }

  /**
   * Mixed profile: a base pair plus trait-driven extensions, nothing blocked.
   * The source passes the list through a set, which can reorder it; the
   * model keeps the construction order.
   */
  function MixedDecision(s: Signals): (d: Decision)
    ensures PlanAnalysis in d.allowed && SqlTuningAdvisor in d.allowed
    ensures NoDuplicates(d.allowed) && d.blocked == []
    ensures IndexReview in d.allowed <==> s.ioWaitPct > 40.0
    ensures JoinMethodReview in d.allowed <==> s.cpuPct > 40.0
    ensures BindTuning in d.allowed <==> s.executions > 500
    ensures |d.allowed| == 2 + (if s.ioWaitPct > 40.0 then 2 else 0)
                             + (if s.cpuPct > 40.0 then 2 else 0) + (if s.executions > 500 then 2 else 0)
  {
    MixedAllowedDistinct(s.ioWaitPct > 40.0, s.cpuPct > 40.0, s.executions > 500);
    Decision(s.sqlId, MixedProfileSql,
      MixedAllowed(s.ioWaitPct > 40.0, s.cpuPct > 40.0, s.executions > 500), [], s)
  }

  function LowPriorityDecision(s: Signals): Decision
  {
    Decision(s.sqlId, LowPriority,
      [MonitorOnly],
      [IndexCreation, SqlTuningAdvisor, SqlAccessAdvisor, SqlRewrite, PlanAnalysis, ApplicationThrottling], s)
  }

  /** Gates tried in order batch, chatty, IO, CPU, mixed; the first match wins. */
  function Evaluate(s: Signals): (d: Decision)
    ensures d.category == BatchSql <==> IsBatch(s)
    ensures d.category == ChattySql <==> !IsBatch(s) && IsChatty(s)
    ensures d.category == IoBoundSql <==> !IsBatch(s) && !IsChatty(s) && IsIoBound(s)
    ensures d.category == CpuBoundSql <==>
              !IsBatch(s) && !IsChatty(s) && !IsIoBound(s) && IsCpuBound(s)
    ensures d.category == MixedProfileSql <==>
              !IsBatch(s) && !IsChatty(s) && !IsIoBound(s) && !IsCpuBound(s) && IsMixedProfile(s)
    ensures d.category == LowPriority <==>
              !IsBatch(s) && !IsChatty(s) && !IsIoBound(s) && !IsCpuBound(s) && !IsMixedProfile(s)
    ensures d.sqlId == s.sqlId && d.signals == s
    ensures forall a :: a in d.allowed ==> a !in d.blocked
  {
    if IsBatch(s) then BatchDecision(s)
    else if IsChatty(s) then ChattyDecision(s)
    else if IsIoBound(s) then IoBoundDecision(s)
    else if IsCpuBound(s) then CpuBoundDecision(s)
    else if IsMixedProfile(s) then MixedDecision(s)
    else LowPriorityDecision(s)
  }

  /** `is_action_allowed`: membership in the allowed list. */
  predicate IsActionAllowed(d: Decision, a: Action)
  {
    a in d.allowed
  }

  /** `is_action_blocked`: membership in the blocked list. */
  predicate IsActionBlocked(d: Decision, a: Action)
  {
    a in d.blocked
  }

  /** Normalise a raw record, then run the gates. */
  function EvaluateFromRca(d: SqlData, ws: seq<WaitEvent>): (r: Decision)
    ensures r.signals == NormalizeFromRca(d, ws)
    ensures r.sqlId == if d.sqlId.Some? then d.sqlId.value else "UNKNOWN"
    ensures forall a :: IsActionAllowed(r, a) ==> !IsActionBlocked(r, a)
  {
    Evaluate(NormalizeFromRca(d, ws))
  }
}
