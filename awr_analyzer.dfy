/**
 * The AWR CSV analyser (`engine/awr_analyzer.py`): the top SQL statements
 * by elapsed time with their risk level, the raw list of every statement
 * with positive elapsed time, and the top wait events by time.
 *
 * The CSV files are inputs: `None` stands for "no file matched", and a
 * file is its header line and its rows of cells, each cell carrying its
 * text and what `pd.to_numeric(..., errors="coerce")` reads from it
 * (`None` for NaN).
 */
module AwrAnalyzer {
  import opened Common

  // ---------------------------------------------------------------------
  // CSV tables and column lookup
  // ---------------------------------------------------------------------

  datatype Cell = Cell(text: string, number: Option<real>)

  datatype Csv = Csv(headers: seq<string>, rows: seq<seq<Cell>>)

  /** `df.columns.str.strip().str.lower()`. */
  function Columns(headers: seq<string>): (r: seq<string>)
    ensures |r| == |headers|
    ensures forall i :: 0 <= i < |r| ==> r[i] == Lower(Strip(headers[i]))
  {
    seq(|headers|, i requires 0 <= i < |headers| => Lower(Strip(headers[i])))
  }

  /** `_find_col`: the first candidate that is a column, if any. */
  function FindCol(columns: seq<string>, candidates: seq<string>): (r: Option<string>)
    ensures r.None? <==> forall i :: 0 <= i < |candidates| ==> candidates[i] !in columns
    ensures r.Some? ==> r.value in columns && r.value in candidates
    ensures |candidates| > 0 && candidates[0] in columns ==> r == Some(candidates[0])
    ensures |candidates| > 0 && candidates[0] !in columns ==> r == FindCol(columns, candidates[1..])
  {
    if |candidates| == 0 then None
    else if candidates[0] in columns then Some(candidates[0])
    else FindCol(columns, candidates[1..])
  }

  /** The position of the first column of that name. */
  function ColumnIndex(columns: seq<string>, name: string): (i: nat)
    requires name in columns
    ensures i < |columns| && columns[i] == name
    ensures forall j :: 0 <= j < i ==> columns[j] != name
  {
    if columns[0] == name then 0 else 1 + ColumnIndex(columns[1..], name)
  }

  /** A row shorter than the header reads as NaN in the missing cells. */
  function CellAt(row: seq<Cell>, i: nat): Cell
  {
    if i < |row| then row[i] else Cell("nan", None)
  }

  /**
   * A numeric column after `to_numeric(...).fillna(0)`; a missing column
   * is the constant 0 the analyser adds in its place.
   */
  function NumberIn(row: seq<Cell>, columns: seq<string>, col: Option<string>): real
  {
    if col.None? || col.value !in columns then 0.0
    else
      var c := CellAt(row, ColumnIndex(columns, col.value));
      if c.number.Some? then c.number.value else 0.0
  }

  function TextIn(row: seq<Cell>, columns: seq<string>, col: string): string
  {
    if col !in columns then "" else CellAt(row, ColumnIndex(columns, col)).text
  }

  /** `df.head(n)`: the first `n` rows, or all but the last `-n` for a negative `n`. */
  function Head<T>(s: seq<T>, n: int): (r: seq<T>)
    ensures n >= 0 ==> |r| == if n <= |s| then n else |s|
    ensures n < 0 ==> |r| == if -n <= |s| then |s| + n else 0
    ensures r == s[..|r|]
  {
    if n >= 0 then Take(s, n)
    else if -n <= |s| then s[..|s| + n] else []
  }

  /** A prefix of a sorted sequence keeps its order, and nothing after it has a smaller key. */
  lemma PrefixOfSorted<T>(sorted: seq<T>, n: nat, key: T -> real)
    requires SortedBy(sorted, key) && n <= |sorted|
    ensures SortedBy(sorted[..n], key)
    ensures multiset(sorted) == multiset(sorted[..n]) + multiset(sorted[n..])
    ensures forall x, t :: x in multiset(sorted[n..]) && t in sorted[..n] ==> key(t) <= key(x)
  {
    assert sorted == sorted[..n] + sorted[n..];
    forall x, t | x in multiset(sorted[n..]) && t in sorted[..n]
      ensures key(t) <= key(x)
    {
      var j :| 0 <= j < |sorted[n..]| && sorted[n..][j] == x;
      var i :| 0 <= i < n && sorted[..n][i] == t;
      assert key(sorted[i]) <= key(sorted[n + j]);
    }
  }

  /**
   * The first `limit` of a sort by `key`: ordered, drawn from the input,
   * and no element left behind has a smaller key than a chosen one.
   */
  lemma HeadOfSorted<T>(s: seq<T>, limit: int, key: T -> real)
    ensures SortedBy(Head(SortBy(s, key), limit), key)
    ensures multiset(Head(SortBy(s, key), limit)) <= multiset(s)
    ensures forall x, t :: x in multiset(s) - multiset(Head(SortBy(s, key), limit)) && t in Head(SortBy(s, key), limit)
              ==> key(t) <= key(x)
  {
    var sorted := SortBy(s, key);
    SortByProps(s, key, 0.0);
    var top := Head(sorted, limit);
    PrefixOfSorted(sorted, |top|, key);
    assert top == sorted[..|top|];
    assert multiset(s) - multiset(top) == multiset(sorted[|top|..]);
  }

  // ---------------------------------------------------------------------
  // Top SQL
  // ---------------------------------------------------------------------

  /** The columns `top_sql` found; the optional ones are `None` when absent. */
  datatype SqlColumns = SqlColumns(
    sqlId: string, elapsed: string, pctcpu: Option<string>, executions: Option<string>,
    elapsedPerExec: Option<string>, pcttotal: Option<string>, pctio: Option<string>)

  /** One statement row after the numeric conversion. */
  datatype SqlRow = SqlRow(
    sqlId: string, elapsed: real, pctcpu: real, executions: real,
    elapsedPerExec: real, pcttotal: real, pctio: real)

  /** The column lookups of `top_sql`; `None` when sql_id or elapsed is missing. */
  function SqlColumnsOf(columns: seq<string>): (r: Option<SqlColumns>)
    ensures r.None? <==> "sql_id" !in columns || ("elapsed__time_s" !in columns && "elapsed_time_s" !in columns)
    ensures r.Some? ==> r.value.sqlId in columns && r.value.elapsed in columns
    ensures r.Some? ==> r.value.elapsed == if "elapsed__time_s" in columns then "elapsed__time_s" else "elapsed_time_s"
    // an optional column is looked up iff the file has it (a missing one reads as 0 in every row)
    ensures r.Some? ==> (r.value.pctcpu.Some? <==> "pctcpu" in columns)
                        && (r.value.executions.Some? <==> "executions" in columns)
                        && (r.value.elapsedPerExec.Some? <==>
                              "elapsed_time_per_exec_s" in columns || "elapsed_per_exec_s" in columns)
                        && (r.value.pcttotal.Some? <==> "pcttotal" in columns)
                        && (r.value.pctio.Some? <==> "pctio" in columns)
  {
    var sqlId := FindCol(columns, ["sql_id"]);
    var elapsed := FindCol(columns, ["elapsed__time_s", "elapsed_time_s"]);
    if sqlId.None? || elapsed.None? then None
    else
      Some(SqlColumns(sqlId.value, elapsed.value, FindCol(columns, ["pctcpu"]),
        FindCol(columns, ["executions"]), FindCol(columns, ["elapsed_time_per_exec_s", "elapsed_per_exec_s"]),
        FindCol(columns, ["pcttotal"]), FindCol(columns, ["pctio"])))
  }

  function SqlRowOf(row: seq<Cell>, columns: seq<string>, cols: SqlColumns): SqlRow
  {
    SqlRow(TextIn(row, columns, cols.sqlId), NumberIn(row, columns, Some(cols.elapsed)),
      NumberIn(row, columns, cols.pctcpu), NumberIn(row, columns, cols.executions),
      NumberIn(row, columns, cols.elapsedPerExec), NumberIn(row, columns, cols.pcttotal),
      NumberIn(row, columns, cols.pctio))
  }

  /** `df[df[col_elapsed] > 0]`: the rows with positive elapsed time, in file order. */
  function PositiveElapsed(rows: seq<SqlRow>): (r: seq<SqlRow>)
    ensures |r| <= |rows|
    ensures forall x :: x in r <==> x in rows && x.elapsed > 0.0
  {
    if |rows| == 0 then []
    else (if rows[0].elapsed > 0.0 then [rows[0]] else []) + PositiveElapsed(rows[1..])
  }

  /** The converted rows of a statistics file whose two required columns exist. */
  function SqlRowsOf(csv: Csv, cols: SqlColumns): (r: seq<SqlRow>)
    ensures |r| == |csv.rows|
  {
    var columns := Columns(csv.headers);
    seq(|csv.rows|, i requires 0 <= i < |csv.rows| => SqlRowOf(csv.rows[i], columns, cols))
  }

  datatype RiskLevel = LowRisk | MediumRisk | HighRisk

  function RiskRank(r: RiskLevel): nat
  {
    match r
    case LowRisk => 0
    case MediumRisk => 1
    case HighRisk => 2
  }

  /** The risk of a statement by its elapsed seconds: HIGH from 100, MEDIUM from 50, else LOW. */
  function RiskOf(elapsed: real): (r: RiskLevel)
    ensures r == HighRisk <==> elapsed >= 100.0
    ensures r == MediumRisk <==> 50.0 <= elapsed < 100.0
    ensures r == LowRisk <==> elapsed < 50.0
  {
    if elapsed >= 100.0 then HighRisk
    else if elapsed >= 50.0 then MediumRisk
    else LowRisk
  }

  /** More elapsed time never lowers the risk. */
  lemma RiskMonotone(e: real, e': real)
    requires e <= e'
    ensures RiskRank(RiskOf(e)) <= RiskRank(RiskOf(e'))
  {
  }

  datatype RawSqlEntry = RawSqlEntry(sqlId: string, elapsed: real)

  datatype TopSqlEntry = TopSqlEntry(
    sqlId: string, elapsed: real, cpu: real, executions: int, elapsedPerExec: real,
    risk: RiskLevel, pcttotal: real, pctcpu: real, pctio: real)

  /** One entry of `top_sql`: CPU seconds are the elapsed share given by pctcpu. */
  function TopSqlEntryOf(r: SqlRow): (e: TopSqlEntry)
    ensures e.sqlId == r.sqlId && e.elapsed == r.elapsed && e.risk == RiskOf(r.elapsed)
    ensures e.cpu * 100.0 == r.elapsed * r.pctcpu
    ensures 0.0 <= r.pctcpu <= 100.0 && r.elapsed >= 0.0 ==> 0.0 <= e.cpu <= e.elapsed
  {
    CpuShareBounds(r.elapsed, r.pctcpu);
    TopSqlEntry(r.sqlId, r.elapsed, r.elapsed * r.pctcpu / 100.0, TruncateToInt(r.executions),
      r.elapsedPerExec, RiskOf(r.elapsed), r.pcttotal, r.pctcpu, r.pctio)
  }

  lemma CpuShareBounds(elapsed: real, pct: real)
    ensures 0.0 <= pct <= 100.0 && elapsed >= 0.0 ==> 0.0 <= elapsed * pct / 100.0 <= elapsed
  {
    if 0.0 <= pct <= 100.0 && elapsed >= 0.0 {
      assert elapsed * (100.0 - pct) >= 0.0;
      assert elapsed * pct >= 0.0;
    }
  }

  /** Descending elapsed time is ascending negated elapsed time. */
  function NegElapsed(r: SqlRow): real { -r.elapsed }

  /** `df_filtered.sort_values(col_elapsed, ascending=False).head(limit)`. */
  function TopRows(kept: seq<SqlRow>, limit: int): seq<SqlRow>
  {
    Head(SortBy(kept, NegElapsed), limit)
  }

  /**
   * The chosen rows: at most `limit` of them (all but the last `-limit` for
   * a negative limit), in descending elapsed order, drawn from the kept
   * rows, and none of the rows left out has more elapsed time than a
   * chosen one.
   */
  lemma TopRowsProps(kept: seq<SqlRow>, limit: int)
    ensures limit >= 0 ==> |TopRows(kept, limit)| == if limit <= |kept| then limit else |kept|
    ensures forall i, j :: 0 <= i < j < |TopRows(kept, limit)| ==>
              TopRows(kept, limit)[i].elapsed >= TopRows(kept, limit)[j].elapsed
    ensures multiset(TopRows(kept, limit)) <= multiset(kept)
    ensures forall x, t :: x in multiset(kept) - multiset(TopRows(kept, limit)) && t in TopRows(kept, limit) ==>
              x.elapsed <= t.elapsed
  {
    HeadOfSorted(kept, limit, NegElapsed);
    SortByProps(kept, NegElapsed, 0.0);
  }

  /** The rows `top_sql` works on: none without a file or its two required columns. */
  function KeptSqlRows(file: Option<Csv>): (r: seq<SqlRow>)
    ensures file.None? || SqlColumnsOf(Columns(file.value.headers)).None? ==> r == []
  {
    if file.None? then []
    else
      var cols := SqlColumnsOf(Columns(file.value.headers));
      if cols.None? then [] else PositiveElapsed(SqlRowsOf(file.value, cols.value))
  }

  /** `raw_sql`: one entry per kept row, in file order. */
  function RawSqlOf(kept: seq<SqlRow>): (r: seq<RawSqlEntry>)
    ensures |r| == |kept|
    ensures forall i :: 0 <= i < |kept| ==> r[i] == RawSqlEntry(kept[i].sqlId, kept[i].elapsed)
  {
    seq(|kept|, i requires 0 <= i < |kept| => RawSqlEntry(kept[i].sqlId, kept[i].elapsed))
  }

  /** `top_sql`: one entry per chosen row, in order. */
  function TopSqlOf(kept: seq<SqlRow>, limit: int): (r: seq<TopSqlEntry>)
    ensures |r| == |TopRows(kept, limit)|
    ensures forall i :: 0 <= i < |r| ==> r[i] == TopSqlEntryOf(TopRows(kept, limit)[i])
  {
    var top := TopRows(kept, limit);
    seq(|top|, i requires 0 <= i < |top| => TopSqlEntryOf(top[i]))
  }

  /**
   * `top_sql`: without a file, or without a sql_id or elapsed column, both
   * lists are empty. Otherwise `raw_sql` has one entry per row with
   * positive elapsed time, in file order, and `top_sql` describes the
   * chosen top rows in their order.
   */
  method TopSql(file: Option<Csv>, limit: int) returns (topSql: seq<TopSqlEntry>, rawSql: seq<RawSqlEntry>)
    ensures rawSql == RawSqlOf(KeptSqlRows(file))
    ensures topSql == TopSqlOf(KeptSqlRows(file), limit)
  {
    if file.None? {
      return [], [];
    }
    var columns := Columns(file.value.headers);
    var cols := SqlColumnsOf(columns);
    if cols.None? {
      return [], [];
    }
    var kept := PositiveElapsed(SqlRowsOf(file.value, cols.value));
    assert kept == KeptSqlRows(file);
    rawSql := RawEntries(kept);
    topSql := TopEntries(kept, limit);
  }

  /** The `raw_sql` loop: one entry per kept row. */
  method RawEntries(kept: seq<SqlRow>) returns (rawSql: seq<RawSqlEntry>)
    ensures rawSql == RawSqlOf(kept)
  {
    rawSql := [];
    var i := 0;
    while i < |kept|
      invariant 0 <= i <= |kept|
      invariant |rawSql| == i
      invariant forall j :: 0 <= j < i ==> rawSql[j] == RawSqlEntry(kept[j].sqlId, kept[j].elapsed)
    {
      rawSql := rawSql + [RawSqlEntry(kept[i].sqlId, kept[i].elapsed)];
      i := i + 1;
    }
  }

  /** The `top_sql` loop over the chosen rows, with the risk thresholds inline. */
  method TopEntries(kept: seq<SqlRow>, limit: int) returns (topSql: seq<TopSqlEntry>)
    ensures topSql == TopSqlOf(kept, limit)
  {
    var top := TopRows(kept, limit);
    topSql := [];
    var i := 0;
    while i < |top|
      invariant 0 <= i <= |top|
      invariant |topSql| == i
      invariant forall j :: 0 <= j < i ==> topSql[j] == TopSqlEntryOf(top[j])
    {
      var r := top[i];
      var cpu := r.elapsed * r.pctcpu / 100.0;
      var risk := LowRisk;
      if r.elapsed >= 100.0 {
        risk := HighRisk;
      } else if r.elapsed >= 50.0 {
        risk := MediumRisk;
      }
      topSql := topSql + [TopSqlEntry(r.sqlId, r.elapsed, cpu, TruncateToInt(r.executions),
        r.elapsedPerExec, risk, r.pcttotal, r.pctcpu, r.pctio)];
      i := i + 1;
    }
  }

  /** Every listed statement, raw or top, has positive elapsed time. */
  lemma ListedSqlHasElapsed(rows: seq<SqlRow>, limit: int)
    ensures forall x :: x in PositiveElapsed(rows) ==> x.elapsed > 0.0
    ensures forall x :: x in TopRows(PositiveElapsed(rows), limit) ==> x.elapsed > 0.0
  {
    var kept := PositiveElapsed(rows);
    SortByMembers(kept, NegElapsed);
    var sorted := SortBy(kept, NegElapsed);
    forall x | x in TopRows(kept, limit) ensures x.elapsed > 0.0 {
      var h := TopRows(kept, limit);
      var i :| 0 <= i < |h| && h[i] == x;
      assert sorted[i] == x;
    }
  }

  // ---------------------------------------------------------------------
  // Top wait events
  // ---------------------------------------------------------------------

  /** The columns `top_wait_events` found. */
  datatype EventColumns = EventColumns(name: string, time: string, pctDb: Option<string>, pctCpu: Option<string>)

  datatype EventRow = EventRow(name: string, time: real, pctDb: real, pctCpu: real)

  datatype WaitEventEntry = WaitEventEntry(statisticName: string, timeS: real, pctOfDbTime: real, pctOfTotalCpuTime: real)

  function EventColumnsOf(columns: seq<string>): (r: Option<EventColumns>)
    ensures r.None? <==> "statistic_name" !in columns || "time_s" !in columns
    ensures r.Some? ==> (r.value.pctDb.Some? <==> "pct_of_db_time" in columns)
    ensures r.Some? ==> (r.value.pctCpu.Some? <==> "pct_of_total_cpu_time" in columns)
  {
    var name := FindCol(columns, ["statistic_name"]);
    var time := FindCol(columns, ["time_s"]);
    if name.None? || time.None? then None
    else Some(EventColumns(name.value, time.value, FindCol(columns, ["pct_of_db_time"]),
      FindCol(columns, ["pct_of_total_cpu_time"])))
  }

  function EventRowOf(row: seq<Cell>, columns: seq<string>, cols: EventColumns): EventRow
  {
    EventRow(TextIn(row, columns, cols.name), NumberIn(row, columns, Some(cols.time)),
      NumberIn(row, columns, cols.pctDb), NumberIn(row, columns, cols.pctCpu))
  }

  function EventRowsOf(csv: Csv, cols: EventColumns): (r: seq<EventRow>)
    ensures |r| == |csv.rows|
  {
    var columns := Columns(csv.headers);
    seq(|csv.rows|, i requires 0 <= i < |csv.rows| => EventRowOf(csv.rows[i], columns, cols))
  }

  /** `df[df[col_time] > 0]`. */
  function PositiveTime(rows: seq<EventRow>): (r: seq<EventRow>)
    ensures |r| <= |rows|
    ensures forall x :: x in r <==> x in rows && x.time > 0.0
  {
    if |rows| == 0 then []
    else (if rows[0].time > 0.0 then [rows[0]] else []) + PositiveTime(rows[1..])
  }

  function NegTime(r: EventRow): real { -r.time }

  function TopEventRows(rows: seq<EventRow>, limit: int): seq<EventRow>
  {
    Head(SortBy(PositiveTime(rows), NegTime), limit)
  }

  /**
   * The chosen events: only positive times, at most `limit` of them, in
   * descending time order, and no dropped positive-time event outweighs a
   * chosen one.
   */
  lemma TopEventRowsProps(rows: seq<EventRow>, limit: int)
    ensures limit >= 0 ==> |TopEventRows(rows, limit)| <= limit
    ensures forall x :: x in TopEventRows(rows, limit) ==> x.time > 0.0
    ensures forall i, j :: 0 <= i < j < |TopEventRows(rows, limit)| ==>
              TopEventRows(rows, limit)[i].time >= TopEventRows(rows, limit)[j].time
    ensures forall x, t ::
              (x in multiset(PositiveTime(rows)) - multiset(TopEventRows(rows, limit))
               && t in TopEventRows(rows, limit)) ==> x.time <= t.time
  {
    var kept := PositiveTime(rows);
    var top := TopEventRows(rows, limit);
    assert top == Head(SortBy(kept, NegTime), limit);
    HeadOfSorted(kept, limit, NegTime);
    forall x | x in top ensures x.time > 0.0 {
      assert x in multiset(top);
      assert x in multiset(kept);
    }
    forall x, t | x in multiset(kept) - multiset(top) && t in top ensures x.time <= t.time {
      assert NegTime(t) <= NegTime(x);
    }
  }

  /** The event rows `top_wait_events` works on: none without a file or its name and time columns. */
  function EventRowsIn(file: Option<Csv>): (r: seq<EventRow>)
    ensures file.None? || EventColumnsOf(Columns(file.value.headers)).None? ==> r == []
  {
    if file.None? then []
    else
      var cols := EventColumnsOf(Columns(file.value.headers));
      if cols.None? then [] else EventRowsOf(file.value, cols.value)
  }

  /** One entry per row, in order, carrying the row's name, time and percentages. */
  function EventEntries(top: seq<EventRow>): (r: seq<WaitEventEntry>)
    ensures |r| == |top|
    ensures forall i :: 0 <= i < |r| ==>
              r[i] == WaitEventEntry(top[i].name, top[i].time, top[i].pctDb, top[i].pctCpu)
  {
    seq(|top|, i requires 0 <= i < |top| => WaitEventEntry(top[i].name, top[i].time, top[i].pctDb, top[i].pctCpu))
  }

  /** The entries of `top_wait_events`, one per chosen row. */
  function WaitEventsOf(rows: seq<EventRow>, limit: int): (r: seq<WaitEventEntry>)
    ensures |r| == |TopEventRows(rows, limit)|
    ensures forall i :: 0 <= i < |r| ==>
              var t := TopEventRows(rows, limit)[i];
              r[i] == WaitEventEntry(t.name, t.time, t.pctDb, t.pctCpu)
  {
    EventEntries(TopEventRows(rows, limit))
  }

  /** Without rows there are no entries. */
  lemma NoEventRows(limit: int)
    ensures WaitEventsOf([], limit) == []
  {
    assert PositiveTime([]) == [];
    assert SortBy([], NegTime) == [];
  }

  /**
   * `top_wait_events`: empty without a file or without the name and time
   * columns; otherwise one entry per chosen row, in order, with 0 for a
   * missing percentage column.
   */
  method TopWaitEvents(file: Option<Csv>, limit: int) returns (events: seq<WaitEventEntry>)
    ensures events == WaitEventsOf(EventRowsIn(file), limit)
  {
    if file.None? {
      NoEventRows(limit);
      return [];
    }
    var cols := EventColumnsOf(Columns(file.value.headers));
    if cols.None? {
      NoEventRows(limit);
      return [];
    }
    var rows := EventRowsOf(file.value, cols.value);
    assert rows == EventRowsIn(file);
    var top := TopEventRows(rows, limit);
    events := EventEntryLoop(top);
  }

  /** The `iterrows` loop of `top_wait_events`: one appended entry per chosen row. */
  method EventEntryLoop(top: seq<EventRow>) returns (events: seq<WaitEventEntry>)
    ensures events == EventEntries(top)
  {
    events := [];
    var i := 0;
    while i < |top|
      invariant 0 <= i <= |top|
      invariant events == EventEntries(top)[..i]
    {
      var r := top[i];
      events := events + [WaitEventEntry(r.name, r.time, r.pctDb, r.pctCpu)];
      assert events == EventEntries(top)[..i + 1];
      i := i + 1;
    }
    assert EventEntries(top)[..i] == EventEntries(top);
  }
}
