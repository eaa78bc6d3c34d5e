/**
 * The RCA stage: the primary root-cause label, the secondary causes and
 * the confidence, the authoritative analysis window and CPU share, the
 * time-filter tagging of high-load periods, the problematic-SQL list shown
 * to the user, and the ASH recommendations.
 */
module RcaEngine {
  import opened Common
  import opened SnapshotMetadata
  import opened TimeWindow
  import opened AshAnalyzer
  import opened DbaExpert

  // ---------------------------------------------------------------------
  // Primary root cause
  // ---------------------------------------------------------------------

  datatype PrimaryRca = CpuBoundSql | IoBoundWorkload | MixedWorkload

  /** `derive_primary_rca`: two gates, first match wins, else mixed. */
  function DerivePrimaryRca(cpuPct: real, ioPct: real): (r: PrimaryRca)
    ensures r.CpuBoundSql? <==> cpuPct >= 80.0 && ioPct <= 5.0
    ensures r.IoBoundWorkload? <==> ioPct >= 40.0
    ensures r.MixedWorkload? <==> !(cpuPct >= 80.0 && ioPct <= 5.0) && ioPct < 40.0
  {
    if cpuPct >= 80.0 && ioPct <= 5.0 then CpuBoundSql
    else if ioPct >= 40.0 then IoBoundWorkload
    else MixedWorkload
  }

  datatype Confidence = HighConfidence | LowConfidence

  /** The confidence is high as soon as either share is positive. */
  function RcaConfidence(cpuPct: real, ioPct: real): (c: Confidence)
    ensures c.HighConfidence? <==> cpuPct > 0.0 || ioPct > 0.0
  {
    if cpuPct > 0.0 || ioPct > 0.0 then HighConfidence else LowConfidence
  }

  /** A share of zero on both sides is a mixed workload with low confidence. */
  lemma NoActivityIsLowConfidenceMixed()
    ensures DerivePrimaryRca(0.0, 0.0).MixedWorkload? && RcaConfidence(0.0, 0.0).LowConfidence?
  {
  }

  // ---------------------------------------------------------------------
  // Secondary causes
  // ---------------------------------------------------------------------

  datatype SecondaryRca = MissingIndex | FullTableScan | ConcurrencyContention

  predicate IndexType(t: string)
  {
    Contains(Upper(t), "INDEX") || Contains(Upper(t), "MISSING_INDEX")
  }

  predicate ScanType(t: string)
  {
    Contains(Upper(t), "FULL_TABLE_SCAN") || Contains(Upper(t), "FTS")
  }

  /**
   * The secondary causes of `run`: guarded appends over the findings'
   * `type` values, then the concurrency share.
   */
  method SecondaryRcas(findingTypes: seq<string>, concurrencyPct: real) returns (r: seq<SecondaryRca>)
    ensures NoDuplicates(r)
    ensures MissingIndex in r <==> exists i :: 0 <= i < |findingTypes| && IndexType(findingTypes[i])
    ensures FullTableScan in r <==> exists i :: 0 <= i < |findingTypes| && ScanType(findingTypes[i])
    ensures ConcurrencyContention in r <==> concurrencyPct > 20.0
    ensures ConcurrencyContention in r ==> r[|r| - 1] == ConcurrencyContention
    ensures MissingIndex !in r && FullTableScan !in r ==>
              r == if concurrencyPct > 20.0 then [ConcurrencyContention] else []
  {
    r := [];
    var i := 0;
    while i < |findingTypes|
      invariant 0 <= i <= |findingTypes|
      invariant NoDuplicates(r) && ConcurrencyContention !in r
      invariant MissingIndex !in r && FullTableScan !in r ==> r == []
      invariant MissingIndex in r <==> exists k :: 0 <= k < i && IndexType(findingTypes[k])
      invariant FullTableScan in r <==> exists k :: 0 <= k < i && ScanType(findingTypes[k])
    {
      var t := findingTypes[i];
      if IndexType(t) && MissingIndex !in r {
        r := r + [MissingIndex];
      }
      if ScanType(t) && FullTableScan !in r {
        r := r + [FullTableScan];
      }
      i := i + 1;
    }
    if concurrencyPct > 20.0 && ConcurrencyContention !in r {
      r := r + [ConcurrencyContention];
    }
  }

  // ---------------------------------------------------------------------
  // The DBA analysis as a dictionary
  // ---------------------------------------------------------------------

  /** The key `run` looks the findings up under. */
  const FindingsKeyAsWritten: string := "findings"

  /** The key the DBA stage publishes its findings under. */
  const FindingsKey: string := "problematic_sql_findings"

  /** The list-valued entries of the DBA analysis dictionary. */
  function AnalysisLists(res: WorkloadResult): (m: map<string, seq<DbaFinding>>)
    ensures m.Keys == {FindingsKey}
  {
    map[FindingsKey := res.findings]
  }

  /** The `type` of every finding under `key`; a DBA finding has no `type`, read as "". */
  function FindingTypesUnder(lists: map<string, seq<DbaFinding>>, key: string): (ts: seq<string>)
    ensures key !in lists ==> ts == []
    ensures key in lists ==> |ts| == |lists[key]| && forall i :: 0 <= i < |ts| ==> ts[i] == ""
  {
    if key in lists then seq(|lists[key]|, i => "") else []
  }

  /** One row of the problematic-SQL list the user interface shows. */
  datatype UiSql = UiSql(sqlId: string, elapsed: real, cpu: real, executions: real,
                         elapsedPerExec: real, risk: DbaExpert.Severity)

  function Lookup(m: map<string, real>, k: string): real
  {
    if k in m then m[k] else 0.0
  }

  function UiEntry(f: DbaFinding): UiSql
  {
    var t := f.technicalParameters;
    UiSql(f.sqlId, Lookup(t, "elapsed"), Lookup(t, "cpu"), Lookup(t, "executions"),
          Lookup(t, "avg_time"), f.severity)
  }

  /** The problematic-SQL list of `run`: one entry per finding under `key`. */
  method ProblematicSqlForUi(lists: map<string, seq<DbaFinding>>, key: string) returns (r: seq<UiSql>)
    ensures key !in lists ==> r == []
    ensures key in lists ==>
              |r| == |lists[key]| && forall i :: 0 <= i < |r| ==> r[i] == UiEntry(lists[key][i])
  {
    r := [];
    if key in lists {
      var findings := lists[key];
      var i := 0;
      while i < |findings|
        invariant 0 <= i <= |findings|
        invariant |r| == i && forall k :: 0 <= k < i ==> r[k] == UiEntry(findings[k])
      {
        r := r + [UiEntry(findings[i])];
        i := i + 1;
      }
    }
  }

  /**
   * Read under the key the DBA stage publishes, the list has one entry
   * per finding, with its identifier, severity and metrics.
   */
  method ProblematicSqlCorrected(res: WorkloadResult) returns (r: seq<UiSql>)
    ensures |r| == |res.findings|
    ensures forall i :: 0 <= i < |r| ==>
              && r[i].sqlId == res.findings[i].sqlId
              && r[i].risk == res.findings[i].severity
              && r[i].elapsed == Lookup(res.findings[i].technicalParameters, "elapsed")
  {
    r := ProblematicSqlForUi(AnalysisLists(res), FindingsKey);
  }

  /** The DBA stage's findings are shown in full when read under the right key. */
  lemma ProblematicSqlOfShortlist(res: WorkloadResult, c: Candidate, ashIo: real)
    requires |res.findings| == 1 && res.findings[0] == DeepAnalysis(c, ashIo)
    ensures UiEntry(res.findings[0]).elapsed == c.metrics.elapsed
    ensures UiEntry(res.findings[0]).executions == c.metrics.executions as real
  {
    var t := TechnicalParameters(c.metrics, ashIo);
    assert "elapsed" in TechnicalKeys && "executions" in TechnicalKeys;
    assert "elapsed" in t && "executions" in t;
  }

  // ---------------------------------------------------------------------
  // Analysis window and CPU share
  // ---------------------------------------------------------------------

  datatype WindowLabel =
    | SnapshotWindow(beginMark: int, endMark: int)
    | FilterWindow(text: string)
    | NoWindowLabel

  /**
   * `_get_authoritative_analysis_window`: the snapshot window when the
   * metadata yields one, else the request's `time_window` text, else "--".
   */
  function AuthoritativeAnalysisWindow(meta: Option<Metadata>, filter: Option<TimeFilter>): (w: WindowLabel)
    ensures w.SnapshotWindow? <==> WindowFromMetadata(meta).display.Some?
    ensures w.SnapshotWindow? ==> (w.beginMark, w.endMark) == WindowFromMetadata(meta).display.value
    ensures w.FilterWindow? <==>
              WindowFromMetadata(meta).display.None? && filter.Some? && TruthyText(filter.value.timeWindow)
    ensures w.FilterWindow? ==> w.text == filter.value.timeWindow.value
  {
    var display := if meta.Some? && meta.value.parseSuccess then WindowFromMetadata(meta).display else None;
    if display.Some? then SnapshotWindow(display.value.0, display.value.1)
    else if filter.Some? && TruthyText(filter.value.timeWindow) then FilterWindow(filter.value.timeWindow.value)
    else NoWindowLabel
  }

  /**
   * Metadata that parsed with both snapshot times always wins over the
   * request's text, and its ends sit on half-hour marks.
   */
  lemma SnapshotWindowWins(meta: Metadata, filter: Option<TimeFilter>)
    requires meta.parseSuccess && meta.beginTime.Some? && meta.endTime.Some?
    ensures var w := AuthoritativeAnalysisWindow(Some(meta), filter);
            w.SnapshotWindow? && w.beginMark % HalfHour == 0 && w.endMark % HalfHour == 0
  {
  }

  /**
   * `_get_cpu_percentage`: host CPU (100 minus idle, kept in [0, 100])
   * before the instance's busy share (capped at 100); nothing without
   * parsed metadata.
   */
  function CpuPercentageFromMetadata(meta: Option<Metadata>): (r: Option<real>)
    ensures r.None? <==>
              meta.None? || !meta.value.parseSuccess
              || (meta.value.hostCpuIdlePct.None? && meta.value.instanceCpuBusyPct.None?)
    ensures r.Some? ==> r.value <= 100.0
    ensures r.Some? && meta.value.hostCpuIdlePct.Some? ==>
              var idle := meta.value.hostCpuIdlePct.value;
              && 0.0 <= r.value
              && (0.0 <= idle <= 100.0 ==> r.value == 100.0 - idle)
    ensures r.Some? && meta.value.hostCpuIdlePct.None? ==>
              r.value == Min(100.0, meta.value.instanceCpuBusyPct.value)
  {
    if meta.None? || !meta.value.parseSuccess then None
    else if meta.value.hostCpuIdlePct.Some? then
      Some(Min(100.0, Max(0.0, 100.0 - meta.value.hostCpuIdlePct.value)))
    else if meta.value.instanceCpuBusyPct.Some? then
      Some(Min(100.0, meta.value.instanceCpuBusyPct.value))
    else None
  }

  // ---------------------------------------------------------------------
  // Time-filter tagging of periods
  // ---------------------------------------------------------------------

  /** A high-load period entry with the `filtered_by_time` flag. */
  datatype Tagged<P> = Tagged(period: P, filteredByTime: bool)

  /** `_filter_periods_by_time`: under a filter every entry is copied with the flag set. */
  method FilterPeriodsByTime<P>(periods: seq<Tagged<P>>, filter: Option<TimeFilter>) returns (r: seq<Tagged<P>>)
    ensures filter.None? ==> r == periods
    ensures filter.Some? ==> |r| == |periods|
    ensures filter.Some? ==> forall i :: 0 <= i < |r| ==> r[i] == Tagged(periods[i].period, true)
  {
    if filter.None? {
      return periods;
    }
    r := [];
    var i := 0;
    while i < |periods|
      invariant 0 <= i <= |periods|
      invariant |r| == i && forall k :: 0 <= k < i ==> r[k] == Tagged(periods[k].period, true)
    {
      r := r + [periods[i].(filteredByTime := true)];
      i := i + 1;
    }
  }

  // ---------------------------------------------------------------------
  // ASH recommendations
  // ---------------------------------------------------------------------

  datatype RecKind =
    | InfoRec | CpuLoadRec | IoBottleneckRec | ConcurrencyRec | SpikeRec
    | CpuWorkloadRec | IoWorkloadRec | ConcurrencyWorkloadRec

  datatype RecPriority = LowRec | MediumRec | HighRec

  datatype Recommendation = Recommendation(kind: RecKind, priority: RecPriority, spikes: seq<AshRow>)

  /** A breakdown class's share, 0 when the class is absent. */
  function TotalPercent(b: map<EventClass, Bucket>, c: EventClass): real
  {
    if c in b then b[c].totalPercent else 0.0
  }

  /** The top event's item: CPU above 20 %, else IO above 15 %, else any concurrency event. */
  function TopEventRecs(top: DominantEvent): (r: seq<Recommendation>)
    ensures |r| <= 1
    ensures |r| == 1 && r[0].kind.CpuLoadRec? <==> top.eventClass.CpuClass? && top.totalPercentImpact > 20.0
    ensures |r| == 1 && r[0].kind.IoBottleneckRec? <==> top.eventClass.IoClass? && top.totalPercentImpact > 15.0
    ensures |r| == 1 && r[0].kind.ConcurrencyRec? <==> top.eventClass.ConcurrencyClass?
    ensures |r| == 1 ==> r[0].kind.CpuLoadRec? || r[0].kind.IoBottleneckRec? || r[0].kind.ConcurrencyRec?
  {
    if top.eventClass.CpuClass? && top.totalPercentImpact > 20.0 then [Recommendation(CpuLoadRec, HighRec, [])]
    else if top.eventClass.IoClass? && top.totalPercentImpact > 15.0 then [Recommendation(IoBottleneckRec, HighRec, [])]
    else if top.eventClass.ConcurrencyClass? then [Recommendation(ConcurrencyRec, MediumRec, [])]
    else []
  }

  /** The spikes above 10 %, in order. */
  function HighSpikes(spikes: seq<AshRow>): (r: seq<AshRow>)
    ensures forall x :: x in r <==> x in spikes && x.pctEvent > 10.0
  {
    if |spikes| == 0 then []
    else
      var x := spikes[|spikes| - 1];
      assert spikes == spikes[..|spikes| - 1] + [x];
      HighSpikes(spikes[..|spikes| - 1]) + (if x.pctEvent > 10.0 then [x] else [])
  }

  /** The spike item, present iff some spike exceeds 10 %, carrying the first three. */
  function SpikeRecs(spikes: seq<AshRow>): (r: seq<Recommendation>)
    ensures |r| <= 1
    ensures |r| == 1 <==> exists x :: x in spikes && x.pctEvent > 10.0
    ensures |r| == 1 ==> r[0].kind.SpikeRec? && r[0].spikes == Take(HighSpikes(spikes), 3)
  {
    var high := HighSpikes(spikes);
    if |high| > 0 then
      assert high[0] in spikes;
      [Recommendation(SpikeRec, MediumRec, Take(high, 3))]
    else []
  }

  /** The workload item of a non-empty breakdown: CPU above 50, else IO above 40, else concurrency above 30. */
  function WorkloadRecs(b: map<EventClass, Bucket>): (r: seq<Recommendation>)
    ensures |r| <= 1
    ensures |b| == 0 ==> r == []
    ensures |r| == 1 && r[0].kind.CpuWorkloadRec? <==> |b| > 0 && TotalPercent(b, CpuClass) > 50.0
    ensures |r| == 1 && r[0].kind.IoWorkloadRec? <==>
              |b| > 0 && TotalPercent(b, CpuClass) <= 50.0 && TotalPercent(b, IoClass) > 40.0
    ensures |r| == 1 && r[0].kind.ConcurrencyWorkloadRec? <==>
              |b| > 0 && TotalPercent(b, CpuClass) <= 50.0 && TotalPercent(b, IoClass) <= 40.0
              && TotalPercent(b, ConcurrencyClass) > 30.0
    ensures |r| == 1 ==>
              r[0].kind.CpuWorkloadRec? || r[0].kind.IoWorkloadRec? || r[0].kind.ConcurrencyWorkloadRec?
  {
    if |b| == 0 then []
    else if TotalPercent(b, CpuClass) > 50.0 then [Recommendation(CpuWorkloadRec, MediumRec, [])]
    else if TotalPercent(b, IoClass) > 40.0 then [Recommendation(IoWorkloadRec, MediumRec, [])]
    else if TotalPercent(b, ConcurrencyClass) > 30.0 then [Recommendation(ConcurrencyWorkloadRec, HighRec, [])]
    else []
  }

  /**
   * `_generate_ash_recommendations`: a single informational item without
   * dominant events; otherwise at most one top-event item, then at most
   * one spike item, then at most one workload item.
   */
  method GenerateAshRecommendations(events: seq<DominantEvent>, spikes: seq<AshRow>,
                                    breakdown: map<EventClass, Bucket>) returns (recs: seq<Recommendation>)
    ensures |events| == 0 ==> recs == [Recommendation(InfoRec, LowRec, [])]
    ensures |events| > 0 ==> recs == TopEventRecs(events[0]) + SpikeRecs(spikes) + WorkloadRecs(breakdown)
    ensures |events| > 0 ==> |recs| <= 3 && forall r :: r in recs ==> !r.kind.InfoRec?
  {
    recs := [];
    if |events| == 0 {
      recs := recs + [Recommendation(InfoRec, LowRec, [])];
      return;
    }
    var top := events[0];
    if top.eventClass.CpuClass? && top.totalPercentImpact > 20.0 {
      recs := recs + [Recommendation(CpuLoadRec, HighRec, [])];
    } else if top.eventClass.IoClass? && top.totalPercentImpact > 15.0 {
      recs := recs + [Recommendation(IoBottleneckRec, HighRec, [])];
    } else if top.eventClass.ConcurrencyClass? {
      recs := recs + [Recommendation(ConcurrencyRec, MediumRec, [])];
    }
    assert recs == TopEventRecs(top);
    if |spikes| > 0 {
      var high := HighSpikes(spikes);
      if |high| > 0 {
        recs := recs + [Recommendation(SpikeRec, MediumRec, Take(high, 3))];
      }
    }
    assert recs == TopEventRecs(top) + SpikeRecs(spikes);
    if |breakdown| > 0 {
      var cpu := TotalPercent(breakdown, CpuClass);
      var io := TotalPercent(breakdown, IoClass);
      var conc := TotalPercent(breakdown, ConcurrencyClass);
      if cpu > 50.0 {
        recs := recs + [Recommendation(CpuWorkloadRec, MediumRec, [])];
      } else if io > 40.0 {
        recs := recs + [Recommendation(IoWorkloadRec, MediumRec, [])];
      } else if conc > 30.0 {
        recs := recs + [Recommendation(ConcurrencyWorkloadRec, HighRec, [])];
      }
    }
  }

  // ---------------------------------------------------------------------
  // The result of `run`
  // ---------------------------------------------------------------------

  datatype AnalysisSource = AshSource | AwrSource

  datatype RootCause = RootCause(primary: PrimaryRca, secondary: seq<SecondaryRca>, confidence: Confidence)

  datatype RcaResult<P> = RcaResult(
    highLoadPeriods: seq<Tagged<P>>,
    topSql: seq<UiSql>,
    timeFilterApplied: bool,
    primaryAnalysis: AnalysisSource,
    analysisWindow: WindowLabel,
    cpuPercentage: Option<real>,
    rootCause: RootCause)

  /**
   * The labelling part of `run`, given the stages' outputs. The findings
   * are read under the key "findings", which the DBA stage never
   * publishes, so the problematic-SQL list is always empty and the only
   * possible secondary cause is concurrency.
   */
  method Run<P>(res: WorkloadResult, breakdown: map<EventClass, Bucket>, ashHasData: bool,
                meta: Option<Metadata>, filter: Option<TimeFilter>, periods: seq<Tagged<P>>)
    returns (out: RcaResult<P>)
    ensures out.topSql == []
    ensures out.rootCause.secondary ==
              if TotalPercent(breakdown, ConcurrencyClass) > 20.0 then [ConcurrencyContention] else []
    ensures out.rootCause.primary == DerivePrimaryRca(TotalPercent(breakdown, CpuClass), TotalPercent(breakdown, IoClass))
    ensures out.rootCause.confidence.HighConfidence? <==>
              TotalPercent(breakdown, CpuClass) > 0.0 || TotalPercent(breakdown, IoClass) > 0.0
    ensures out.timeFilterApplied <==> filter.Some?
    ensures out.primaryAnalysis.AshSource? <==> filter.Some? && ashHasData
    ensures out.analysisWindow == AuthoritativeAnalysisWindow(meta, filter)
    ensures out.cpuPercentage == CpuPercentageFromMetadata(meta)
    ensures |out.highLoadPeriods| == |periods|
  {
    var filtered := FilterPeriodsByTime(periods, filter);
    var lists := AnalysisLists(res);
    var topSql := ProblematicSqlForUi(lists, FindingsKeyAsWritten);
    var source := if filter.Some? && ashHasData then AshSource else AwrSource;
    var cpuPct := TotalPercent(breakdown, CpuClass);
    var ioPct := TotalPercent(breakdown, IoClass);
    var secondary := SecondaryRcas(FindingTypesUnder(lists, FindingsKeyAsWritten),
                                   TotalPercent(breakdown, ConcurrencyClass));
    assert !IndexType("") && !ScanType("");
    out := RcaResult(filtered, topSql, filter.Some?, source,
                     AuthoritativeAnalysisWindow(meta, filter), CpuPercentageFromMetadata(meta),
                     RootCause(DerivePrimaryRca(cpuPct, ioPct), secondary, RcaConfidence(cpuPct, ioPct)));
  }
}
