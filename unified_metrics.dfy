/**
 * The single source of the workload-level metrics (`engine/unified_metrics.py`):
 * a record filled field by field from the SQL-statistics CSV, the
 * wait-events CSV and the report's snapshot metadata, the derived CPU and
 * IO-wait percentages, the calculator's memo of its last result, and the
 * module-level cache of calculators keyed by CSV directory.
 *
 * Reading files is not modelled: the CSV contents and the parsed metadata
 * are handed in as an `AwrSources` value, which stands for what the
 * directory and the report hold at the moment of the call.
 */
module UnifiedMetrics {
  import opened Common

  // ---------------------------------------------------------------------
  // Inputs: the parsed CSV rows and the snapshot metadata
  // ---------------------------------------------------------------------

  /** One row of `awr_sql_stats`, after `to_numeric(...).fillna(0)`. */
  datatype SqlStatRow = SqlStatRow(elapsed: real, executions: int, cpuTime: real)

  /** The SQL-statistics table and which of its three columns exist. */
  datatype SqlStatsCsv = SqlStatsCsv(
    hasElapsed: bool, hasExecutions: bool, hasCpuTime: bool, rows: seq<SqlStatRow>)

  /**
   * One row of `awr_wait_events`: the `event` (or `statistic_name`) cell as
   * text, and `time_s` (0 when the column is missing or not numeric).
   */
  datatype WaitRow = WaitRow(event: string, time: real)

  /**
   * What the snapshot-metadata parser returns for the report: each key
   * that may be missing is an `Option`. The two times are kept as their
   * clock renderings.
   */
  datatype HtmlMetadata = HtmlMetadata(
    parseSuccess: bool,
    elapsedSeconds: Option<real>,
    cpuCores: Option<int>,
    dbCpuSeconds: Option<real>,
    instanceCpuBusyPct: Option<real>,
    hostCpuIdlePct: Option<real>,
    beginTime: Option<string>,
    endTime: Option<string>)

  /**
   * The files the calculator finds: the keys of the CSV map in discovery
   * order (`sql_stats`, `wait_events`, `instance_stats`), the two tables it
   * reads, and the metadata of the report when the report file exists.
   */
  datatype AwrSources = AwrSources(
    csvKeys: seq<string>,
    sqlStats: Option<SqlStatsCsv>,
    waitEvents: Option<seq<WaitRow>>,
    html: Option<HtmlMetadata>)

  // ---------------------------------------------------------------------
  // The metrics record as a value
  // ---------------------------------------------------------------------

  /** The fields of `AWRMetrics`, in the dataclass's order. */
  datatype Metrics = Metrics(
    totalElapsedTime: real,
    totalExecutions: int,
    totalCpuTime: real,
    dbTime: real,
    dbCpuTime: real,
    ioWaitTime: real,
    snapshotElapsed: real,
    cpuCores: int,
    instanceCpuBusyPct: Option<real>,
    hostCpuIdlePct: Option<real>,
    cpuPercentage: real,
    ioWaitPercentage: real,
    timeWindowDisplay: string,
    isValid: bool,
    sourceCsvFiles: seq<string>)

  /** The dataclass defaults: zeros, eight cores, no window, not valid. */
  const DefaultMetrics := Metrics(0.0, 0, 0.0, 0.0, 0.0, 0.0, 0.0, 8, None, None, 0.0, 0.0, "--", false, [])

  // ---------------------------------------------------------------------
  // SQL statistics: column sums
  // ---------------------------------------------------------------------

  function Elapsed(r: SqlStatRow): real { r.elapsed }
  function CpuTime(r: SqlStatRow): real { r.cpuTime }

  function TotalExecutions(rows: seq<SqlStatRow>): int
  {
    if |rows| == 0 then 0 else TotalExecutions(rows[..|rows| - 1]) + rows[|rows| - 1].executions
  }

  /** `_extract_sql_stats_metrics`: each present column's sum replaces its total; absent columns leave it. */
  function WithSqlStats(m: Metrics, csv: SqlStatsCsv): (r: Metrics)
    ensures r.totalElapsedTime == if csv.hasElapsed then SumOf(csv.rows, Elapsed) else m.totalElapsedTime
    ensures r.totalExecutions == if csv.hasExecutions then TotalExecutions(csv.rows) else m.totalExecutions
    ensures r.totalCpuTime == if csv.hasCpuTime then SumOf(csv.rows, CpuTime) else m.totalCpuTime
    ensures r.(totalElapsedTime := m.totalElapsedTime, totalExecutions := m.totalExecutions,
               totalCpuTime := m.totalCpuTime) == m
  {
    var m1 := if csv.hasElapsed then m.(totalElapsedTime := SumOf(csv.rows, Elapsed)) else m;
    var m2 := if csv.hasExecutions then m1.(totalExecutions := TotalExecutions(csv.rows)) else m1;
    if csv.hasCpuTime then m2.(totalCpuTime := SumOf(csv.rows, CpuTime)) else m2
  }

  // ---------------------------------------------------------------------
  // Wait events: each row goes to at most one bucket
  // ---------------------------------------------------------------------

  /** The events counted as IO wait. */
  const IoEvents: seq<string> := [
    "db file sequential read", "db file scattered read", "direct path read",
    "direct path write", "log file sync", "log file parallel write"]

  datatype Bucket = DbCpuRow | DbTimeRow | IoWaitRow | OtherRow

  /** The first matching test on the lower-cased event name decides the bucket. */
  function BucketOf(event: string): (b: Bucket)
    ensures b == DbCpuRow <==> Contains(Lower(event), "db cpu")
    ensures b == DbTimeRow <==> !Contains(Lower(event), "db cpu") && Contains(Lower(event), "db time")
    ensures b == IoWaitRow <==>
              !Contains(Lower(event), "db cpu") && !Contains(Lower(event), "db time")
              && ContainsAny(Lower(event), IoEvents)
  {
    var name := Lower(event);
    if Contains(name, "db cpu") then DbCpuRow
    else if Contains(name, "db time") then DbTimeRow
    else if ContainsAny(name, IoEvents) then IoWaitRow
    else OtherRow
  }

  /** The three running values of the wait-events loop. */
  datatype WaitTotals = WaitTotals(dbCpu: real, dbTime: real, ioWait: real)

  /** One iteration: a DB CPU or DB time row overwrites its value, an IO row adds to the IO total. */
  function WaitStep(t: WaitTotals, row: WaitRow): WaitTotals
  {
    match BucketOf(row.event)
    case DbCpuRow => t.(dbCpu := row.time)
    case DbTimeRow => t.(dbTime := row.time)
    case IoWaitRow => t.(ioWait := t.ioWait + row.time)
    case OtherRow => t
  }

  /** The values after the loop has seen `rows`, starting from zeros. */
  function WaitTotalsOf(rows: seq<WaitRow>): WaitTotals
  {
    if |rows| == 0 then WaitTotals(0.0, 0.0, 0.0)
    else WaitStep(WaitTotalsOf(rows[..|rows| - 1]), rows[|rows| - 1])
  }

  /** The time a row adds to the IO total. */
  function IoTime(row: WaitRow): real
  {
    if BucketOf(row.event) == IoWaitRow then row.time else 0.0
  }

  /**
   * A row changes at most one of the three values: the one of its bucket,
   * and an unmatched row changes none.
   */
  lemma WaitRowChangesOneValue(rows: seq<WaitRow>, row: WaitRow)
    ensures var before, after := WaitTotalsOf(rows), WaitTotalsOf(rows + [row]);
      && (after.dbCpu != before.dbCpu ==> BucketOf(row.event) == DbCpuRow)
      && (after.dbTime != before.dbTime ==> BucketOf(row.event) == DbTimeRow)
      && (after.ioWait != before.ioWait ==> BucketOf(row.event) == IoWaitRow)
  {
    assert (rows + [row])[..|rows + [row]| - 1] == rows;
  }

  /** The IO total is the sum of the IO rows' times. */
  lemma {:induction false} IoWaitIsSum(rows: seq<WaitRow>)
    ensures WaitTotalsOf(rows).ioWait == SumOf(rows, IoTime)
    decreases |rows|
  {
    if |rows| > 0 {
      IoWaitIsSum(rows[..|rows| - 1]);
    }
  }

  /**
   * DB CPU takes the value of the last DB CPU row, and is 0 when there is none.
   */
  lemma {:induction false} DbCpuIsLast(rows: seq<WaitRow>)
    ensures (forall i :: 0 <= i < |rows| ==> BucketOf(rows[i].event) != DbCpuRow) ==>
              WaitTotalsOf(rows).dbCpu == 0.0
    ensures forall j ::
              (0 <= j < |rows| && BucketOf(rows[j].event) == DbCpuRow
               && forall i :: j < i < |rows| ==> BucketOf(rows[i].event) != DbCpuRow) ==>
              WaitTotalsOf(rows).dbCpu == rows[j].time
    decreases |rows|
  {
    if |rows| > 0 {
      var init, last := rows[..|rows| - 1], rows[|rows| - 1];
      DbCpuIsLast(init);
      assert WaitTotalsOf(rows) == WaitStep(WaitTotalsOf(init), last);
      forall j | 0 <= j < |rows| && BucketOf(rows[j].event) == DbCpuRow
                 && forall i :: j < i < |rows| ==> BucketOf(rows[i].event) != DbCpuRow
        ensures WaitTotalsOf(rows).dbCpu == rows[j].time
      {
        if j < |rows| - 1 {
          assert BucketOf(last.event) != DbCpuRow;
          forall i | j < i < |init| ensures BucketOf(init[i].event) != DbCpuRow {
            assert init[i] == rows[i];
          }
          assert init[j] == rows[j];
        }
      }
      if forall i :: 0 <= i < |rows| ==> BucketOf(rows[i].event) != DbCpuRow {
        forall i | 0 <= i < |init| ensures BucketOf(init[i].event) != DbCpuRow {
          assert init[i] == rows[i];
        }
      }
    }
  }

  /**
   * DB time takes the value of the last row naming DB time but not DB CPU,
   * and is 0 when there is none.
   */
  lemma {:induction false} DbTimeIsLast(rows: seq<WaitRow>)
    ensures (forall i :: 0 <= i < |rows| ==> BucketOf(rows[i].event) != DbTimeRow) ==>
              WaitTotalsOf(rows).dbTime == 0.0
    ensures forall j ::
              (0 <= j < |rows| && BucketOf(rows[j].event) == DbTimeRow
               && forall i :: j < i < |rows| ==> BucketOf(rows[i].event) != DbTimeRow) ==>
              WaitTotalsOf(rows).dbTime == rows[j].time
    decreases |rows|
  {
    if |rows| > 0 {
      var init, last := rows[..|rows| - 1], rows[|rows| - 1];
      DbTimeIsLast(init);
      assert WaitTotalsOf(rows) == WaitStep(WaitTotalsOf(init), last);
      forall j | 0 <= j < |rows| && BucketOf(rows[j].event) == DbTimeRow
                 && forall i :: j < i < |rows| ==> BucketOf(rows[i].event) != DbTimeRow
        ensures WaitTotalsOf(rows).dbTime == rows[j].time
      {
        if j < |rows| - 1 {
          assert BucketOf(last.event) != DbTimeRow;
          forall i | j < i < |init| ensures BucketOf(init[i].event) != DbTimeRow {
            assert init[i] == rows[i];
          }
          assert init[j] == rows[j];
        }
      }
      if forall i :: 0 <= i < |rows| ==> BucketOf(rows[i].event) != DbTimeRow {
        forall i | 0 <= i < |init| ensures BucketOf(init[i].event) != DbTimeRow {
          assert init[i] == rows[i];
        }
      }
    }
  }

  /** `_extract_wait_events_metrics`: the three loop values replace the record's. */
  function WithWaitEvents(m: Metrics, rows: seq<WaitRow>): Metrics
  {
    var t := WaitTotalsOf(rows);
    m.(dbCpuTime := t.dbCpu, dbTime := t.dbTime, ioWaitTime := t.ioWait)
  }

  // ---------------------------------------------------------------------
  // Snapshot metadata from the report
  // ---------------------------------------------------------------------

  /** The DB CPU merge: a truthy report value wins when the CSV gave 0 or less than it. */
  function MergedDbCpu(csv: real, html: Option<real>): (r: real)
    ensures !Truthy(html) ==> r == csv
  {
    if Truthy(html) && (csv == 0.0 || html.value > csv) then html.value else csv
  }

  /** A positive report value makes the DB CPU time the larger of the two. */
  lemma MergedDbCpuIsMax(csv: real, html: real)
    requires html > 0.0
    ensures MergedDbCpu(csv, Some(html)) == Max(csv, html)
  {
  }

  /** The snapshot length and core count, each taken when the report gives a truthy value. */
  function WithSnapshotSize(m: Metrics, md: HtmlMetadata): Metrics
  {
    var m1 := if Truthy(md.elapsedSeconds) then m.(snapshotElapsed := md.elapsedSeconds.value) else m;
    if md.cpuCores.Some? && md.cpuCores.value != 0 then m1.(cpuCores := md.cpuCores.value) else m1
  }

  /** The two CPU percentages, each copied when the report has it. */
  function WithCpuReadings(m: Metrics, md: HtmlMetadata): Metrics
  {
    m.(instanceCpuBusyPct := if md.instanceCpuBusyPct.Some? then md.instanceCpuBusyPct else m.instanceCpuBusyPct,
       hostCpuIdlePct := if md.hostCpuIdlePct.Some? then md.hostCpuIdlePct else m.hostCpuIdlePct)
  }

  /** The displayed window, "<begin> - <end>". */
  function WindowText(begin: string, end: string): (r: string)
    ensures StartsWith(r, begin) && EndsWith(r, end)
  {
    begin + " - " + end
  }

  /** The window is shown when both times are known. */
  function WithWindow(m: Metrics, md: HtmlMetadata): Metrics
  {
    if TruthyText(md.beginTime) && TruthyText(md.endTime) then
      m.(timeWindowDisplay := WindowText(md.beginTime.value, md.endTime.value))
    else m
  }

  /**
   * `_extract_html_metadata` after a successful parse: truthy elapsed,
   * cores and DB CPU values are taken, present CPU percentages are copied,
   * and the window is shown when both times are known. A failed parse
   * changes nothing.
   */
  function WithHtmlMetadata(m: Metrics, md: HtmlMetadata): (r: Metrics)
    ensures !md.parseSuccess ==> r == m
    ensures md.parseSuccess ==>
              r.dbCpuTime == MergedDbCpu(m.dbCpuTime, md.dbCpuSeconds)
              && r.instanceCpuBusyPct == (if md.instanceCpuBusyPct.Some? then md.instanceCpuBusyPct else m.instanceCpuBusyPct)
              && r.hostCpuIdlePct == (if md.hostCpuIdlePct.Some? then md.hostCpuIdlePct else m.hostCpuIdlePct)
    ensures r.(snapshotElapsed := m.snapshotElapsed, cpuCores := m.cpuCores, dbCpuTime := m.dbCpuTime,
               instanceCpuBusyPct := m.instanceCpuBusyPct, hostCpuIdlePct := m.hostCpuIdlePct,
               timeWindowDisplay := m.timeWindowDisplay) == m
  {
    if !md.parseSuccess then m
    else
      var m2 := WithSnapshotSize(m, md);
      var m3 := m2.(dbCpuTime := MergedDbCpu(m2.dbCpuTime, md.dbCpuSeconds));
      WithWindow(WithCpuReadings(m3, md), md)
  }

  // ---------------------------------------------------------------------
  // Derived percentages
  // ---------------------------------------------------------------------

  /** `min(100.0, max(0.0, x))`. */
  function Clamp(x: real): (r: real)
    ensures 0.0 <= r <= 100.0
    ensures 0.0 <= x <= 100.0 ==> r == x
  {
    Min(100.0, Max(0.0, x))
  }

  /**
   * The workload CPU percentage: instance %Busy, else 100 − host %Idle,
   * else DB CPU over snapshot time and cores, else 0; always clamped.
   */
  function CpuPercentageOf(m: Metrics): (r: real)
    ensures 0.0 <= r <= 100.0
  {
    if m.instanceCpuBusyPct.Some? then Clamp(m.instanceCpuBusyPct.value)
    else if m.hostCpuIdlePct.Some? then Clamp(100.0 - m.hostCpuIdlePct.value)
    else if m.dbCpuTime > 0.0 && m.snapshotElapsed > 0.0 && m.cpuCores != 0 then
      Clamp(m.dbCpuTime / (m.snapshotElapsed * m.cpuCores as real) * 100.0)
    else 0.0
  }

  /**
   * The IO-wait percentage: IO wait over DB time, else over the total SQL
   * elapsed time when both are positive, else 0; capped at 100 but not
   * raised to 0.
   */
  function IoWaitPercentageOf(m: Metrics): (r: real)
    ensures r <= 100.0
  {
    if m.dbTime > 0.0 then Min(100.0, m.ioWaitTime / m.dbTime * 100.0)
    else if m.totalElapsedTime > 0.0 && m.ioWaitTime > 0.0 then
      Min(100.0, m.ioWaitTime / m.totalElapsedTime * 100.0)
    else 0.0
  }

  /** `_compute_derived_metrics`: only the two percentages change. */
  function WithDerived(m: Metrics): (r: Metrics)
    ensures 0.0 <= r.cpuPercentage <= 100.0 && r.ioWaitPercentage <= 100.0
    ensures r.(cpuPercentage := m.cpuPercentage, ioWaitPercentage := m.ioWaitPercentage) == m
  {
    m.(cpuPercentage := CpuPercentageOf(m), ioWaitPercentage := IoWaitPercentageOf(m))
  }

  /**
   * The source priority: a present instance %Busy decides alone; without
   * it a present host %Idle decides; DB CPU time matters only when neither
   * is present.
   */
  lemma CpuSourcePriority(m: Metrics, dbCpu: real, elapsed: real)
    ensures m.instanceCpuBusyPct.Some? ==>
              CpuPercentageOf(m) == Clamp(m.instanceCpuBusyPct.value)
    ensures m.instanceCpuBusyPct.None? && m.hostCpuIdlePct.Some? ==>
              CpuPercentageOf(m) == Clamp(100.0 - m.hostCpuIdlePct.value)
    ensures m.instanceCpuBusyPct.Some? || m.hostCpuIdlePct.Some? ==>
              CpuPercentageOf(m.(dbCpuTime := dbCpu, snapshotElapsed := elapsed)) == CpuPercentageOf(m)
    ensures m.instanceCpuBusyPct.None? && m.hostCpuIdlePct.None? && (m.dbCpuTime <= 0.0 || m.snapshotElapsed <= 0.0) ==>
              CpuPercentageOf(m) == 0.0
  {
  }

  /** A host %Idle inside [0, 100] gives exactly 100 − idle when no instance %Busy is known. */
  lemma HostIdleComplement(m: Metrics)
    requires m.instanceCpuBusyPct.None? && m.hostCpuIdlePct.Some?
    requires 0.0 <= m.hostCpuIdlePct.value <= 100.0
    ensures CpuPercentageOf(m) + m.hostCpuIdlePct.value == 100.0
  {
  }

  /** With a non-negative IO wait the percentage lies in [0, 100], and it is 0 when there is no IO wait. */
  lemma IoWaitPercentageBounds(m: Metrics)
    ensures m.ioWaitTime >= 0.0 ==> 0.0 <= IoWaitPercentageOf(m) <= 100.0
    ensures m.ioWaitTime == 0.0 ==> IoWaitPercentageOf(m) == 0.0
    ensures m.dbTime <= 0.0 && m.totalElapsedTime <= 0.0 ==> IoWaitPercentageOf(m) == 0.0
  {
  }

  // ---------------------------------------------------------------------
  // The whole computation
  // ---------------------------------------------------------------------

  /** Python truthiness of the calculator's report path. */
  predicate HasReport(htmlFilePath: Option<string>, src: AwrSources)
  {
    TruthyText(htmlFilePath) && src.html.Some?
  }

  /**
   * What `compute_metrics` produces from the found files: the defaults when
   * no CSV was found, otherwise the four steps in order and a valid record.
   */
  function ComputedMetrics(src: AwrSources, htmlFilePath: Option<string>): (r: Metrics)
    ensures r.isValid <==> |src.csvKeys| > 0
    ensures |src.csvKeys| == 0 ==> r == DefaultMetrics
    ensures |src.csvKeys| > 0 ==> r.sourceCsvFiles == src.csvKeys
    ensures 0.0 <= r.cpuPercentage <= 100.0 && r.ioWaitPercentage <= 100.0
  {
    if |src.csvKeys| == 0 then DefaultMetrics
    else
      var m0 := DefaultMetrics.(sourceCsvFiles := src.csvKeys);
      var m1 := if src.sqlStats.Some? then WithSqlStats(m0, src.sqlStats.value) else m0;
      var m2 := if src.waitEvents.Some? then WithWaitEvents(m1, src.waitEvents.value) else m1;
      var m3 := if HasReport(htmlFilePath, src) then WithHtmlMetadata(m2, src.html.value) else m2;
      WithDerived(m3).(isValid := true)
  }

  /** Without a report the CPU percentage is 0: no percentages and no snapshot time are known. */
  lemma NoReportNoCpu(src: AwrSources, htmlFilePath: Option<string>)
    requires !HasReport(htmlFilePath, src)
    ensures ComputedMetrics(src, htmlFilePath).cpuPercentage == 0.0
  {
  }

  // ---------------------------------------------------------------------
  // The details line of the high-load detection
  // ---------------------------------------------------------------------

  /** `sep.join(parts)`. */
  function Joined(parts: seq<string>, sep: string): string
  {
    if |parts| == 0 then ""
    else if |parts| == 1 then parts[0]
    else parts[0] + sep + Joined(parts[1..], sep)
  }

  /** The pieces between the occurrences of `c`. */
  function SplitOn(s: string, c: char): (r: seq<string>)
    ensures |r| >= 1
  {
    if |s| == 0 then [""]
    else
      var rest := SplitOn(s[1..], c);
      if s[0] == c then [""] + rest else [[s[0]] + rest[0]] + rest[1..]
  }

  lemma {:induction false} SplitOnPrefix(a: string, b: string, c: char)
    requires c !in a
    ensures SplitOn(a + b, c) == [a + SplitOn(b, c)[0]] + SplitOn(b, c)[1..]
    decreases |a|
  {
    if |a| > 0 {
      assert (a + b)[1..] == a[1..] + b;
      SplitOnPrefix(a[1..], b, c);
      assert [a[0]] + (a[1..] + SplitOn(b, c)[0]) == a + SplitOn(b, c)[0];
    } else {
      assert a + b == b;
      var sb := SplitOn(b, c);
      assert sb == [sb[0]] + sb[1..];
      assert a + sb[0] == sb[0];
    }
  }

  /**
   * Splitting a join at the separator's first character gives the parts
   * back, each after the first still led by the rest of the separator.
   */
  lemma {:induction false} SplitJoined(parts: seq<string>, c: char, tail: string)
    requires |parts| >= 1
    requires forall i :: 0 <= i < |parts| ==> c !in parts[i]
    requires c !in tail
    ensures |SplitOn(Joined(parts, [c] + tail), c)| == |parts|
    ensures SplitOn(Joined(parts, [c] + tail), c)[0] == parts[0]
    ensures forall i :: 1 <= i < |parts| ==> SplitOn(Joined(parts, [c] + tail), c)[i] == tail + parts[i]
    decreases |parts|
  {
    var sep := [c] + tail;
    if |parts| == 1 {
      assert parts[0] + "" == parts[0];
      SplitOnPrefix(parts[0], "", c);
    } else {
      var rest := Joined(parts[1..], sep);
      SplitJoined(parts[1..], c, tail);
      var sr := SplitOn(rest, c);
      assert parts[0] + sep + rest == parts[0] + ([c] + (tail + rest));
      SplitOnPrefix(parts[0], [c] + (tail + rest), c);
      assert ([c] + (tail + rest))[1..] == tail + rest;
      SplitOnPrefix(tail, rest, c);
    }
  }

  /**
   * The number renderings the line uses: `:.1f`, `:,` and `str` of a float.
   * They are parameters; none of them produces a semicolon.
   */
  datatype Renderers = Renderers(fixed1: real -> string, grouped: int -> string, shown: real -> string)

  ghost predicate SemicolonFree(fmt: Renderers)
  {
    && (forall x :: ';' !in fmt.fixed1(x))
    && (forall n :: ';' !in fmt.grouped(n))
    && (forall x :: ';' !in fmt.shown(x))
  }

  /** The four pieces of `get_high_load_details_string`, always all present. */
  function DetailsParts(m: Metrics, fmt: Renderers): (r: seq<string>)
    ensures |r| == 4
    ensures StartsWith(r[0], "Total elapsed time: ") && StartsWith(r[1], "Total executions: ")
    ensures StartsWith(r[2], "CPU Usage: ") && StartsWith(r[3], "IO wait: ")
  {
    ["Total elapsed time: " + fmt.fixed1(m.totalElapsedTime) + "s",
     "Total executions: " + fmt.grouped(m.totalExecutions),
     "CPU Usage: " + fmt.shown(m.cpuPercentage) + "%",
     "IO wait: " + fmt.shown(m.ioWaitPercentage) + "%"]
  }

  function DetailsString(m: Metrics, fmt: Renderers): string
  {
    Joined(DetailsParts(m, fmt), "; ")
  }

  /** The details line always falls apart into exactly the four labelled pieces. */
  lemma DetailsHaveFourParts(m: Metrics, fmt: Renderers)
    requires SemicolonFree(fmt)
    ensures |SplitOn(DetailsString(m, fmt), ';')| == 4
    ensures SplitOn(DetailsString(m, fmt), ';')[0] == DetailsParts(m, fmt)[0]
    ensures forall i :: 1 <= i < 4 ==> SplitOn(DetailsString(m, fmt), ';')[i] == " " + DetailsParts(m, fmt)[i]
  {
    var parts := DetailsParts(m, fmt);
    forall i | 0 <= i < 4 ensures ';' !in parts[i] {
      NoSemicolonInLabelled(i, m, fmt);
    }
    assert "; " == [';'] + " ";
    SplitJoined(parts, ';', " ");
  }

  lemma NoSemicolonInLabelled(i: nat, m: Metrics, fmt: Renderers)
    requires i < 4 && SemicolonFree(fmt)
    ensures ';' !in DetailsParts(m, fmt)[i]
  {
    var p := DetailsParts(m, fmt);
    if i == 0 {
      var x := fmt.fixed1(m.totalElapsedTime);
      assert ';' !in x;
      assert p[0] == "Total elapsed time: " + x + "s";
    } else if i == 1 {
      var x := fmt.grouped(m.totalExecutions);
      assert ';' !in x;
      assert p[1] == "Total executions: " + x;
    } else if i == 2 {
      var x := fmt.shown(m.cpuPercentage);
      assert ';' !in x;
      assert p[2] == "CPU Usage: " + x + "%";
    } else {
      var x := fmt.shown(m.ioWaitPercentage);
      assert ';' !in x;
      assert p[3] == "IO wait: " + x + "%";
    }
  }

  // ---------------------------------------------------------------------
  // The mutable record and the calculator
  // ---------------------------------------------------------------------

  /** `AWRMetrics`: a record whose fields the calculator fills one by one. */
  class AwrMetrics {
    var totalElapsedTime: real
    var totalExecutions: int
    var totalCpuTime: real
    var dbTime: real
    var dbCpuTime: real
    var ioWaitTime: real
    var snapshotElapsed: real
    var cpuCores: int
    var instanceCpuBusyPct: Option<real>
    var hostCpuIdlePct: Option<real>
    var cpuPercentage: real
    var ioWaitPercentage: real
    var timeWindowDisplay: string
    var isValid: bool
    var sourceCsvFiles: seq<string>

    /** The record's current field values. */
    function Values(): Metrics
      reads this
    {
      Metrics(totalElapsedTime, totalExecutions, totalCpuTime, dbTime, dbCpuTime, ioWaitTime,
        snapshotElapsed, cpuCores, instanceCpuBusyPct, hostCpuIdlePct, cpuPercentage,
        ioWaitPercentage, timeWindowDisplay, isValid, sourceCsvFiles)
    }

    constructor()
      ensures Values() == DefaultMetrics
    {
      totalElapsedTime, totalExecutions, totalCpuTime := 0.0, 0, 0.0;
      dbTime, dbCpuTime, ioWaitTime := 0.0, 0.0, 0.0;
      snapshotElapsed, cpuCores := 0.0, 8;
      instanceCpuBusyPct, hostCpuIdlePct := None, None;
      cpuPercentage, ioWaitPercentage := 0.0, 0.0;
      timeWindowDisplay, isValid, sourceCsvFiles := "--", false, [];
    }
  }

  /** `UnifiedMetricsCalculator`: the two paths and the memo of the last result. */
  class UnifiedMetricsCalculator {
    var csvDir: string
    var htmlFilePath: Option<string>
    var cachedMetrics: AwrMetrics?

    constructor(csvDir: string, htmlFilePath: Option<string>)
      ensures this.csvDir == csvDir && this.htmlFilePath == htmlFilePath
      ensures cachedMetrics == null
    {
      this.csvDir := csvDir;
      this.htmlFilePath := htmlFilePath;
      cachedMetrics := null;
    }

    /** `_extract_sql_stats_metrics`: the three column sums. */
    static method ExtractSqlStatsMetrics(csv: SqlStatsCsv, metrics: AwrMetrics)
      modifies metrics
      ensures metrics.Values() == WithSqlStats(old(metrics.Values()), csv)
    {
      if csv.hasElapsed {
        metrics.totalElapsedTime := SumOf(csv.rows, Elapsed);
      }
      if csv.hasExecutions {
        metrics.totalExecutions := TotalExecutions(csv.rows);
      }
      if csv.hasCpuTime {
        metrics.totalCpuTime := SumOf(csv.rows, CpuTime);
      }
    }

    /**
     * `_extract_wait_events_metrics`: one pass over the rows keeping the last
     * DB CPU and DB time values and summing the IO events.
     */
    static method ExtractWaitEventsMetrics(rows: seq<WaitRow>, metrics: AwrMetrics)
      modifies metrics
      ensures metrics.Values() == WithWaitEvents(old(metrics.Values()), rows)
      ensures metrics.ioWaitTime == SumOf(rows, IoTime)
    {
      var dbCpuTime, dbTime, ioWaitTime := 0.0, 0.0, 0.0;
      var i := 0;
      while i < |rows|
        invariant 0 <= i <= |rows|
        invariant WaitTotals(dbCpuTime, dbTime, ioWaitTime) == WaitTotalsOf(rows[..i])
      {
        var eventName := Lower(rows[i].event);
        var timeVal := rows[i].time;
        if Contains(eventName, "db cpu") {
          dbCpuTime := timeVal;
        } else if Contains(eventName, "db time") {
          dbTime := timeVal;
        } else if ContainsAny(eventName, IoEvents) {
          ioWaitTime := ioWaitTime + timeVal;
        }
        assert rows[..i + 1][..i] == rows[..i];
        i := i + 1;
      }
      assert rows[..i] == rows;
      IoWaitIsSum(rows);
      metrics.dbCpuTime := dbCpuTime;
      metrics.dbTime := dbTime;
      metrics.ioWaitTime := ioWaitTime;
    }

    /** `_extract_html_metadata`, given what the metadata parser returned. */
    static method ExtractHtmlMetadata(md: HtmlMetadata, metrics: AwrMetrics)
      modifies metrics
      ensures metrics.Values() == WithHtmlMetadata(old(metrics.Values()), md)
    {
      if md.parseSuccess {
        TakeSnapshotFigures(md, metrics);
        TakeCpuReadingsAndWindow(md, metrics);
      }
    }

    /** The first half of `_extract_html_metadata`: snapshot length, cores and the DB CPU merge. */
    static method TakeSnapshotFigures(md: HtmlMetadata, metrics: AwrMetrics)
      modifies metrics
      ensures var m := WithSnapshotSize(old(metrics.Values()), md);
              metrics.Values() == m.(dbCpuTime := MergedDbCpu(m.dbCpuTime, md.dbCpuSeconds))
    {
      if Truthy(md.elapsedSeconds) {
        metrics.snapshotElapsed := md.elapsedSeconds.value;
      }
      if md.cpuCores.Some? && md.cpuCores.value != 0 {
        metrics.cpuCores := md.cpuCores.value;
      }
      if Truthy(md.dbCpuSeconds) {
        var htmlDbCpu := md.dbCpuSeconds.value;
        if metrics.dbCpuTime == 0.0 || htmlDbCpu > metrics.dbCpuTime {
          metrics.dbCpuTime := htmlDbCpu;
        }
      }
    }

    /** The second half of `_extract_html_metadata`: the CPU percentages and the window. */
    static method TakeCpuReadingsAndWindow(md: HtmlMetadata, metrics: AwrMetrics)
      modifies metrics
      ensures metrics.Values() == WithWindow(WithCpuReadings(old(metrics.Values()), md), md)
    {
      if md.instanceCpuBusyPct.Some? {
        metrics.instanceCpuBusyPct := md.instanceCpuBusyPct;
      }
      if md.hostCpuIdlePct.Some? {
        metrics.hostCpuIdlePct := md.hostCpuIdlePct;
      }
      if TruthyText(md.beginTime) && TruthyText(md.endTime) {
        metrics.timeWindowDisplay := WindowText(md.beginTime.value, md.endTime.value);
      }
    }

    /** `_compute_derived_metrics`: the CPU and IO-wait percentages. */
    static method ComputeDerivedMetrics(metrics: AwrMetrics)
      modifies metrics
      ensures metrics.Values() == WithDerived(old(metrics.Values()))
    {
      var cpu: real;
      if metrics.instanceCpuBusyPct.Some? {
        cpu := Min(100.0, Max(0.0, metrics.instanceCpuBusyPct.value));
      } else if metrics.hostCpuIdlePct.Some? {
        var cpuPct := 100.0 - metrics.hostCpuIdlePct.value;
        cpu := Min(100.0, Max(0.0, cpuPct));
      } else if metrics.dbCpuTime > 0.0 && metrics.snapshotElapsed > 0.0 && metrics.cpuCores != 0 {
        var cpuPct := metrics.dbCpuTime / (metrics.snapshotElapsed * metrics.cpuCores as real) * 100.0;
        cpu := Min(100.0, Max(0.0, cpuPct));
      } else {
        cpu := 0.0;
      }
      assert cpu == CpuPercentageOf(metrics.Values());
      var io: real;
      if metrics.dbTime > 0.0 {
        var ioPct := metrics.ioWaitTime / metrics.dbTime * 100.0;
        io := Min(100.0, ioPct);
      } else if metrics.totalElapsedTime > 0.0 && metrics.ioWaitTime > 0.0 {
        var ioPct := metrics.ioWaitTime / metrics.totalElapsedTime * 100.0;
        io := Min(100.0, ioPct);
      } else {
        io := 0.0;
      }
      assert io == IoWaitPercentageOf(metrics.Values());
      metrics.cpuPercentage, metrics.ioWaitPercentage := cpu, io;
    }

    /**
     * `compute_metrics`: a cached record is returned as it is unless a
     * refresh is forced. Otherwise a new record is filled from the found
     * files; it is cached unless no CSV file was found, in which case the
     * invalid default record is returned and the memo stays as it was.
     */
    method ComputeMetrics(forceRefresh: bool, src: AwrSources) returns (metrics: AwrMetrics)
      modifies this
      ensures csvDir == old(csvDir) && htmlFilePath == old(htmlFilePath)
      ensures old(cachedMetrics) != null && !forceRefresh ==>
                metrics == old(cachedMetrics) && cachedMetrics == old(cachedMetrics)
      ensures old(cachedMetrics) == null || forceRefresh ==>
                fresh(metrics)
                && metrics.Values() == ComputedMetrics(src, htmlFilePath)
                && cachedMetrics == (if |src.csvKeys| == 0 then old(cachedMetrics) else metrics)
    {
      if cachedMetrics != null && !forceRefresh {
        return cachedMetrics;
      }
      metrics := new AwrMetrics();
      if |src.csvKeys| == 0 {
        return;
      }
      metrics.sourceCsvFiles := src.csvKeys;
      if src.sqlStats.Some? {
        ExtractSqlStatsMetrics(src.sqlStats.value, metrics);
      }
      if src.waitEvents.Some? {
        ExtractWaitEventsMetrics(src.waitEvents.value, metrics);
      }
      if TruthyText(htmlFilePath) && src.html.Some? {
        ExtractHtmlMetadata(src.html.value, metrics);
      }
      ComputeDerivedMetrics(metrics);
      metrics.isValid := true;
      cachedMetrics := metrics;
    }

    /**
     * `get_high_load_details_string`: the four labelled pieces of the
     * (possibly cached) metrics joined by "; ".
     */
    method GetHighLoadDetailsString(src: AwrSources, fmt: Renderers) returns (details: string)
      modifies this
      ensures csvDir == old(csvDir) && htmlFilePath == old(htmlFilePath)
      ensures old(cachedMetrics) != null ==>
                details == DetailsString(old(cachedMetrics.Values()), fmt) && cachedMetrics == old(cachedMetrics)
      ensures old(cachedMetrics) == null ==>
                details == DetailsString(ComputedMetrics(src, htmlFilePath), fmt)
    {
      var metrics := ComputeMetrics(false, src);
      var parts := [];
      parts := parts + ["Total elapsed time: " + fmt.fixed1(metrics.totalElapsedTime) + "s"];
      parts := parts + ["Total executions: " + fmt.grouped(metrics.totalExecutions)];
      parts := parts + ["CPU Usage: " + fmt.shown(metrics.cpuPercentage) + "%"];
      parts := parts + ["IO wait: " + fmt.shown(metrics.ioWaitPercentage) + "%"];
      assert parts == DetailsParts(metrics.Values(), fmt);
      details := Joined(parts, "; ");
    }
  }

  // ---------------------------------------------------------------------
  // The module-level cache of calculators
  // ---------------------------------------------------------------------

  /** `_metrics_cache`: one calculator per CSV directory. */
  class MetricsCache {
    var calculators: map<string, UnifiedMetricsCalculator>

    /** Each directory has a calculator of its own. */
    ghost predicate Valid()
      reads this
    {
      forall k1, k2 :: k1 in calculators && k2 in calculators && k1 != k2 ==> calculators[k1] != calculators[k2]
    }

    constructor()
      ensures Valid()
      ensures calculators == map[]
    {
      calculators := map[];
    }

    /**
     * `get_unified_metrics`: a calculator is made only for a directory not
     * yet cached or when a refresh is forced (the report path of a kept
     * calculator is its own, not the caller's); the other directories keep
     * their calculators and what those have cached.
     */
    method GetUnifiedMetrics(csvDir: string, htmlFilePath: Option<string>, forceRefresh: bool, src: AwrSources)
      returns (metrics: AwrMetrics)
      requires Valid()
      modifies this, if csvDir in calculators then {calculators[csvDir]} else {}
      ensures Valid()
      ensures csvDir in calculators
      ensures calculators.Keys == old(calculators.Keys) + {csvDir}
      ensures forall k :: k in old(calculators) && k != csvDir ==>
                calculators[k] == old(calculators[k])
                && calculators[k].cachedMetrics == old(calculators[k].cachedMetrics)
      ensures csvDir in old(calculators) && !forceRefresh ==> calculators == old(calculators)
      // a new calculator computes the figures from the caller's report path
      ensures csvDir !in old(calculators) || forceRefresh ==>
                fresh(calculators[csvDir]) && calculators[csvDir].htmlFilePath == htmlFilePath
                && fresh(metrics) && metrics.Values() == ComputedMetrics(src, htmlFilePath)
      // a kept calculator returns its cached figures, or computes them from its own report path
      ensures csvDir in old(calculators) && !forceRefresh && old(calculators[csvDir].cachedMetrics) != null ==>
                metrics == old(calculators[csvDir].cachedMetrics)
      ensures csvDir in old(calculators) && !forceRefresh && old(calculators[csvDir].cachedMetrics) == null ==>
                fresh(metrics) && metrics.Values() == ComputedMetrics(src, old(calculators[csvDir].htmlFilePath))
      // computed once and cached: the next call without a refresh returns these same figures
      ensures |src.csvKeys| > 0 ==> calculators[csvDir].cachedMetrics == metrics
      // with no CSV input nothing is computed, so nothing new is cached
      ensures |src.csvKeys| == 0 && (csvDir !in old(calculators) || forceRefresh) ==>
                calculators[csvDir].cachedMetrics == null
    {
      if csvDir !in calculators || forceRefresh {
        var c := new UnifiedMetricsCalculator(csvDir, htmlFilePath);
        calculators := calculators[csvDir := c];
      }
      metrics := calculators[csvDir].ComputeMetrics(forceRefresh, src);
    }

    /** `clear_metrics_cache`: a non-empty directory removes its entry only; otherwise everything goes. */
    method ClearMetricsCache(csvDir: Option<string>)
      requires Valid()
      modifies this
      ensures Valid()
      ensures TruthyText(csvDir) ==> calculators == old(calculators) - {csvDir.value}
      ensures !TruthyText(csvDir) ==> calculators == map[]
    {
      if TruthyText(csvDir) {
        calculators := calculators - {csvDir.value};
      } else {
        calculators := map[];
      }
    }
  }
}
