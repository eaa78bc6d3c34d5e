/**
 * The dynamic SQL generator: a DBMS_XPLAN format assembled from signal
 * bands, the SQL Access Advisor parameter tables, the per-category lists
 * of diagnostic commands, the per-category DBA action plans and the log
 * every `generate_all` call appends to.
 *
 * The SQL text of a command is not modelled; a command is its action, the
 * category label it carries and the parameters that vary with the signals.
 */
module DynamicSql {
  import opened Common
  import opened DecisionEngine

  // ---------------------------------------------------------------------
  // Format options and their order
  // ---------------------------------------------------------------------

  /** The order in which format options appear in the assembled string. */
  const FormatOrder: seq<string> := [
    "BASIC", "TYPICAL", "ALLSTATS", "ALLSTATS LAST",
    "+COST", "+PREDICATE", "+PROJECTION", "+ALIAS",
    "+IOSTATS", "+MEMSTATS", "+PARALLEL", "+PARTITION",
    "+PEEKED_BINDS", "+ADAPTIVE", "+BIND_AWARE", "+OUTLINE"]

  /** `order.index(x)`, with `len(order)` when `x` is absent. */
  function IndexOf(s: seq<string>, x: string): (r: nat)
    ensures r <= |s|
    ensures r < |s| ==> s[r] == x
    ensures forall j :: 0 <= j < r ==> s[j] != x
  {
    if |s| == 0 then 0
    else if s[0] == x then 0
    else 1 + IndexOf(s[1..], x)
  }

  /** The sort key of a format part: its place in the table, unknown parts last. */
  function OrderKey(part: string): real
  {
    IndexOf(FormatOrder, part) as real
  }

  lemma OrderKeyUnknown(x: string)
    ensures x !in FormatOrder <==> OrderKey(x) == |FormatOrder| as real
  {
    var i := IndexOf(FormatOrder, x);
    if x in FormatOrder {
      var j :| 0 <= j < |FormatOrder| && FormatOrder[j] == x;
      assert i <= j;
    }
  }

  /** The parts in table order; parts with the same key keep their order. */
  function OrderedParts(parts: seq<string>): (r: seq<string>)
    ensures |r| == |parts| && multiset(r) == multiset(parts)
    ensures SortedBy(r, OrderKey)
    ensures forall i, j :: 0 <= i < j < |r| && r[i] !in FormatOrder ==> r[j] !in FormatOrder
  {
    SortByProps(parts, OrderKey, 0.0);
    var r := SortBy(parts, OrderKey);
    assert forall i, j :: 0 <= i < j < |r| && r[i] !in FormatOrder ==> r[j] !in FormatOrder by {
      forall i, j | 0 <= i < j < |r| && r[i] !in FormatOrder
        ensures r[j] !in FormatOrder
      {
        OrderKeyUnknown(r[i]);
        OrderKeyUnknown(r[j]);
      }
    }
    r
  }

  /** Sorting is stable: the parts sharing a key come out in their input order. */
  lemma OrderedPartsStable(parts: seq<string>, k: real)
    ensures KeyFilter(OrderedParts(parts), OrderKey, k) == KeyFilter(parts, OrderKey, k)
  {
    SortByProps(parts, OrderKey, k);
  }

  /** `" ".join(xs)`. */
  function JoinWords(xs: seq<string>): (r: string)
    ensures |xs| > 0 ==> StartsWith(r, xs[0])
    ensures |xs| > 0 ==> EndsWith(r, xs[|xs| - 1])
  {
    if |xs| == 0 then ""
    else if |xs| == 1 then xs[0]
    else
      var rest := JoinWords(xs[1..]);
      var r := xs[0] + " " + rest;
      assert r[|r| - |rest|..] == rest;
      assert r[|r| - |xs[|xs| - 1]|..] == rest[|rest| - |xs[|xs| - 1]|..];
      r
  }

  /** `_assemble_format_string`: the parts in table order, space separated. */
  function AssembleFormatString(parts: seq<string>): (r: string)
    ensures |parts| > 0 ==> StartsWith(r, OrderedParts(parts)[0])
  {
    JoinWords(OrderedParts(parts))
  }

  // ---------------------------------------------------------------------
  // Format parts chosen from the signals
  // ---------------------------------------------------------------------

  /** `_get_category_base_format`. */
  function BaseFormat(c: Category): (r: seq<string>)
    ensures |r| > 0 && NoDuplicates(r)
    ensures r[0] == if c == ChattySql || c == LowPriority then "BASIC" else "ALLSTATS LAST"
  {
    match c
    case BatchSql => ["ALLSTATS LAST"]
    case ChattySql => ["BASIC"]
    case IoBoundSql => ["ALLSTATS LAST", "+IOSTATS"]
    case CpuBoundSql => ["ALLSTATS LAST", "+COST", "+PREDICATE"]
    case MixedProfileSql => ["ALLSTATS LAST", "+COST"]
    case LowPriority => ["BASIC"]
  }

  /** `_add_unique`: append `item` unless it is already present. */
  function AddUnique(parts: seq<string>, item: string): (r: seq<string>)
    ensures forall x :: x in r <==> x in parts || x == item
    ensures |parts| <= |r| <= |parts| + 1 && r[..|parts|] == parts
    ensures NoDuplicates(parts) ==> NoDuplicates(r)
  {
    if item in parts then parts else parts + [item]
  }

  /** `_add_unique` applied to each item in turn. */
  function AddAll(parts: seq<string>, items: seq<string>): (r: seq<string>)
    ensures forall x :: x in r <==> x in parts || x in items
    ensures |parts| <= |r| && r[..|parts|] == parts
    ensures NoDuplicates(parts) ==> NoDuplicates(r)
    decreases |items|
  {
    if |items| == 0 then parts
    else
      var p := AddUnique(parts, items[0]);
      var r := AddAll(p, items[1..]);
      assert forall x :: x in items <==> x == items[0] || x in items[1..];
      assert r[..|parts|] == p[..|parts|];
      r
  }

  lemma {:induction false} AddAllAppend(parts: seq<string>, a: seq<string>, b: seq<string>)
    ensures AddAll(parts, a + b) == AddAll(AddAll(parts, a), b)
    decreases |a|
  {
    if |a| == 0 {
      assert a + b == b;
    } else {
      assert (a + b)[1..] == a[1..] + b;
      AddAllAppend(AddUnique(parts, a[0]), a[1..], b);
    }
  }

  /** The IO band: exclusive thresholds 90, 70, 50, and 30 for batch SQL only. */
  function IoOptions(io: real, batch: bool): seq<string>
  {
    if io >= 90.0 then ["+IOSTATS", "+PARALLEL", "+PARTITION"]
    else if io >= 70.0 then ["+IOSTATS", "+PARALLEL"]
    else if io >= 50.0 then ["+IOSTATS"]
    else if io >= 30.0 && batch then ["+IOSTATS"]
    else []
  }

  /** The CPU band: exclusive thresholds 90, 70, 50, and 30 for batch or CPU-bound SQL only. */
  function CpuOptions(cpu: real, costContext: bool): seq<string>
  {
    if cpu >= 90.0 then ["+COST", "+PREDICATE", "+PROJECTION"]
    else if cpu >= 70.0 then ["+COST", "+PREDICATE"]
    else if cpu >= 50.0 then ["+COST"]
    else if cpu >= 30.0 && costContext then ["+COST"]
    else []
  }

  /** The execution-count band: 5000, 1000, 500, and below 50 with slow executions. */
  function ExecOptions(executions: int, avg: real): seq<string>
  {
    if executions >= 5000 then ["+PEEKED_BINDS", "+ADAPTIVE", "+BIND_AWARE"]
    else if executions >= 1000 then ["+PEEKED_BINDS", "+ADAPTIVE"]
    else if executions >= 500 then ["+PEEKED_BINDS"]
    else if executions < 50 && avg >= 5.0 then ["+OUTLINE", "+ALIAS"]
    else []
  }

  /** The total-elapsed band: 500, 100 (parallel for batch only) and 50 seconds. */
  function ElapsedOptions(total: real, batch: bool): seq<string>
  {
    if total >= 500.0 then ["+MEMSTATS", "+PARALLEL"]
    else if total >= 100.0 then ["+MEMSTATS"] + (if batch then ["+PARALLEL"] else [])
    else if total >= 50.0 then ["+MEMSTATS"]
    else []
  }

  /** The per-execution band: an outline from 10 seconds up (the fast branch adds only an explanation). */
  function AvgOptions(avg: real): seq<string>
  {
    if avg >= 30.0 then ["+OUTLINE"]
    else if avg >= 10.0 then ["+OUTLINE"]
    else []
  }

  /** Every option the five bands ask for, in the order they are added. */
  function BandOptions(c: Category, s: Signals): seq<string>
  {
    IoOptions(s.ioWaitPct, c == BatchSql)
    + CpuOptions(s.cpuPct, c == BatchSql || c == CpuBoundSql)
    + ExecOptions(s.executions, s.avgExecTime)
    + ElapsedOptions(s.totalElapsed, c == BatchSql)
    + AvgOptions(s.avgExecTime)
  }

  /** The format parts `_generate_dynamic_xplan` assembles, before ordering. */
  function XplanParts(c: Category, s: Signals): (r: seq<string>)
    ensures NoDuplicates(r)
    ensures |BaseFormat(c)| <= |r| && r[..|BaseFormat(c)|] == BaseFormat(c)
    ensures forall x :: x in r <==> x in BaseFormat(c) || x in BandOptions(c, s)
  {
    AddAll(BaseFormat(c), BandOptions(c, s))
  }

  /** The format string of the plan-analysis command. */
  function XplanFormat(c: Category, s: Signals): string
  {
    AssembleFormatString(XplanParts(c, s))
  }

  lemma AddAllShort(parts: seq<string>, a: string, b: string, c: string)
    ensures AddAll(parts, [a]) == AddUnique(parts, a)
    ensures AddAll(parts, [a, b]) == AddUnique(AddUnique(parts, a), b)
    ensures AddAll(parts, [a, b, c]) == AddUnique(AddUnique(AddUnique(parts, a), b), c)
  {
    assert [a][1..] == [] && [b][1..] == [] && [c][1..] == [];
    assert AddAll(parts, [a]) == AddAll(AddUnique(parts, a), []);
    assert [a, b][1..] == [b];
    assert AddAll(parts, [a, b]) == AddAll(AddUnique(parts, a), [b]);
    assert AddAll(AddUnique(parts, a), [b]) == AddAll(AddUnique(AddUnique(parts, a), b), []);
    assert [a, b, c][1..] == [b, c];
    assert [b, c][1..] == [c];
    var p1 := AddUnique(parts, a);
    var p2 := AddUnique(p1, b);
    assert AddAll(parts, [a, b, c]) == AddAll(p1, [b, c]);
    assert AddAll(p1, [b, c]) == AddAll(p2, [c]);
    assert AddAll(p2, [c]) == AddAll(AddUnique(p2, c), []);
  }

  method AddIoOptions(parts: seq<string>, io: real, batch: bool) returns (r: seq<string>)
    ensures r == AddAll(parts, IoOptions(io, batch))
  {
    AddAllShort(parts, "+IOSTATS", "+PARALLEL", "+PARTITION");
    r := parts;
    if io >= 90.0 {
      r := AddUnique(r, "+IOSTATS");
      r := AddUnique(r, "+PARALLEL");
      r := AddUnique(r, "+PARTITION");
    } else if io >= 70.0 {
      r := AddUnique(r, "+IOSTATS");
      r := AddUnique(r, "+PARALLEL");
    } else if io >= 50.0 {
      r := AddUnique(r, "+IOSTATS");
    } else if io >= 30.0 {
      if batch {
        r := AddUnique(r, "+IOSTATS");
      }
    }
  }

  method AddCpuOptions(parts: seq<string>, cpu: real, costContext: bool) returns (r: seq<string>)
    ensures r == AddAll(parts, CpuOptions(cpu, costContext))
  {
    AddAllShort(parts, "+COST", "+PREDICATE", "+PROJECTION");
    r := parts;
    if cpu >= 90.0 {
      r := AddUnique(r, "+COST");
      r := AddUnique(r, "+PREDICATE");
      r := AddUnique(r, "+PROJECTION");
    } else if cpu >= 70.0 {
      r := AddUnique(r, "+COST");
      r := AddUnique(r, "+PREDICATE");
    } else if cpu >= 50.0 {
      r := AddUnique(r, "+COST");
    } else if cpu >= 30.0 {
      if costContext {
        r := AddUnique(r, "+COST");
      }
    }
  }

  method AddExecOptions(parts: seq<string>, executions: int, avg: real) returns (r: seq<string>)
    ensures r == AddAll(parts, ExecOptions(executions, avg))
  {
    AddAllShort(parts, "+PEEKED_BINDS", "+ADAPTIVE", "+BIND_AWARE");
    AddAllShort(parts, "+OUTLINE", "+ALIAS", "+ALIAS");
    r := parts;
    if executions >= 5000 {
      r := AddUnique(r, "+PEEKED_BINDS");
      r := AddUnique(r, "+ADAPTIVE");
      r := AddUnique(r, "+BIND_AWARE");
    } else if executions >= 1000 {
      r := AddUnique(r, "+PEEKED_BINDS");
      r := AddUnique(r, "+ADAPTIVE");
    } else if executions >= 500 {
      r := AddUnique(r, "+PEEKED_BINDS");
    } else if executions < 50 {
      if avg >= 5.0 {
        r := AddUnique(r, "+OUTLINE");
        r := AddUnique(r, "+ALIAS");
      }
    }
  }

  method AddElapsedOptions(parts: seq<string>, total: real, batch: bool) returns (r: seq<string>)
    ensures r == AddAll(parts, ElapsedOptions(total, batch))
  {
    AddAllShort(parts, "+MEMSTATS", "+PARALLEL", "+PARALLEL");
    r := parts;
    if total >= 500.0 {
      r := AddUnique(r, "+MEMSTATS");
      r := AddUnique(r, "+PARALLEL");
    } else if total >= 100.0 {
      r := AddUnique(r, "+MEMSTATS");
      if batch {
        r := AddUnique(r, "+PARALLEL");
      }
    } else if total >= 50.0 {
      r := AddUnique(r, "+MEMSTATS");
    }
  }

  method AddAvgOptions(parts: seq<string>, avg: real) returns (r: seq<string>)
    ensures r == AddAll(parts, AvgOptions(avg))
  {
    AddAllShort(parts, "+OUTLINE", "+OUTLINE", "+OUTLINE");
    r := parts;
    if avg >= 30.0 {
      r := AddUnique(r, "+OUTLINE");
    } else if avg >= 10.0 {
      r := AddUnique(r, "+OUTLINE");
    }
  }

  /**
   * The option assembly of `_generate_dynamic_xplan`: the category's base
   * format grown band by band with `_add_unique`, then ordered and joined.
   */
  method GenerateXplanFormat(c: Category, s: Signals) returns (format: string)
    ensures format == XplanFormat(c, s)
  {
    var base := BaseFormat(c);
    var parts := AddIoOptions(base, s.ioWaitPct, c == BatchSql);
    parts := AddCpuOptions(parts, s.cpuPct, c == BatchSql || c == CpuBoundSql);
    parts := AddExecOptions(parts, s.executions, s.avgExecTime);
    parts := AddElapsedOptions(parts, s.totalElapsed, c == BatchSql);
    parts := AddAvgOptions(parts, s.avgExecTime);
    var io := IoOptions(s.ioWaitPct, c == BatchSql);
    var cpu := CpuOptions(s.cpuPct, c == BatchSql || c == CpuBoundSql);
    var ex := ExecOptions(s.executions, s.avgExecTime);
    var el := ElapsedOptions(s.totalElapsed, c == BatchSql);
    AddAllAppend(base, io, cpu);
    AddAllAppend(base, io + cpu, ex);
    AddAllAppend(base, io + cpu + ex, el);
    AddAllAppend(base, io + cpu + ex + el, AvgOptions(s.avgExecTime));
    format := AssembleFormatString(parts);
  }

  // ---------------------------------------------------------------------
  // What the bands put into the format
  // ---------------------------------------------------------------------

  /** Membership in the parts, option by option. */
  lemma XplanPartsMembers(c: Category, s: Signals, x: string)
    ensures x in XplanParts(c, s) <==>
              x in BaseFormat(c)
              || (x == "+IOSTATS" && (s.ioWaitPct >= 50.0 || (s.ioWaitPct >= 30.0 && c == BatchSql)))
              || (x == "+PARALLEL" && s.ioWaitPct >= 70.0)
              || (x == "+PARTITION" && s.ioWaitPct >= 90.0)
              || (x == "+COST" && (s.cpuPct >= 50.0 || (s.cpuPct >= 30.0 && (c == BatchSql || c == CpuBoundSql))))
              || (x == "+PREDICATE" && s.cpuPct >= 70.0)
              || (x == "+PROJECTION" && s.cpuPct >= 90.0)
              || (x == "+PEEKED_BINDS" && s.executions >= 500)
              || (x == "+ADAPTIVE" && s.executions >= 1000)
              || (x == "+BIND_AWARE" && s.executions >= 5000)
              || ((x == "+OUTLINE" || x == "+ALIAS") && s.executions < 50 && s.avgExecTime >= 5.0)
              || (x == "+MEMSTATS" && s.totalElapsed >= 50.0)
              || (x == "+PARALLEL" && (s.totalElapsed >= 500.0 || (s.totalElapsed >= 100.0 && c == BatchSql)))
              || (x == "+OUTLINE" && s.avgExecTime >= 10.0)
  {
    var io := IoOptions(s.ioWaitPct, c == BatchSql);
    var cpu := CpuOptions(s.cpuPct, c == BatchSql || c == CpuBoundSql);
    var ex := ExecOptions(s.executions, s.avgExecTime);
    var el := ElapsedOptions(s.totalElapsed, c == BatchSql);
    var av := AvgOptions(s.avgExecTime);
    assert x in BandOptions(c, s) <==> x in io || x in cpu || x in ex || x in el || x in av;
    IoOptionsMember(s.ioWaitPct, c == BatchSql, x);
    CpuOptionsMember(s.cpuPct, c == BatchSql || c == CpuBoundSql, x);
    ExecOptionsMember(s.executions, s.avgExecTime, x);
    ElapsedOptionsMember(s.totalElapsed, c == BatchSql, x);
  }

  lemma IoOptionsMember(io: real, batch: bool, x: string)
    ensures x in IoOptions(io, batch) <==>
              (x == "+IOSTATS" && (io >= 50.0 || (io >= 30.0 && batch)))
              || (x == "+PARALLEL" && io >= 70.0) || (x == "+PARTITION" && io >= 90.0)
  {
  }

  lemma CpuOptionsMember(cpu: real, costContext: bool, x: string)
    ensures x in CpuOptions(cpu, costContext) <==>
              (x == "+COST" && (cpu >= 50.0 || (cpu >= 30.0 && costContext)))
              || (x == "+PREDICATE" && cpu >= 70.0) || (x == "+PROJECTION" && cpu >= 90.0)
  {
  }

  lemma ExecOptionsMember(executions: int, avg: real, x: string)
    ensures x in ExecOptions(executions, avg) <==>
              (x == "+PEEKED_BINDS" && executions >= 500) || (x == "+ADAPTIVE" && executions >= 1000)
              || (x == "+BIND_AWARE" && executions >= 5000)
              || ((x == "+OUTLINE" || x == "+ALIAS") && executions < 50 && avg >= 5.0)
  {
  }

  lemma ElapsedOptionsMember(total: real, batch: bool, x: string)
    ensures x in ElapsedOptions(total, batch) <==>
              (x == "+MEMSTATS" && total >= 50.0)
              || (x == "+PARALLEL" && (total >= 500.0 || (total >= 100.0 && batch)))
  {
  }

  /** IO bands: partition from 90 %, IO statistics from 50 % (30 % for batch SQL). */
  lemma XplanIoOptions(c: Category, s: Signals)
    ensures "+PARTITION" in XplanParts(c, s) <==> s.ioWaitPct >= 90.0
    ensures "+IOSTATS" in XplanParts(c, s) <==>
              c == IoBoundSql || s.ioWaitPct >= 50.0 || (s.ioWaitPct >= 30.0 && c == BatchSql)
  {
    XplanPartitionPart(c, s);
    XplanIostatsPart(c, s);
  }

  lemma XplanPartitionPart(c: Category, s: Signals)
    ensures "+PARTITION" in XplanParts(c, s) <==> s.ioWaitPct >= 90.0
  {
    XplanPartsMembers(c, s, "+PARTITION");
  }

  lemma XplanIostatsPart(c: Category, s: Signals)
    ensures "+IOSTATS" in XplanParts(c, s) <==> c == IoBoundSql || s.ioWaitPct >= 50.0 || (s.ioWaitPct >= 30.0 && c == BatchSql)
  {
    XplanPartsMembers(c, s, "+IOSTATS");
  }

  /** Parallel from 70 % IO wait or a long elapsed time; memory statistics from 50 seconds elapsed. */
  lemma XplanElapsedOptions(c: Category, s: Signals)
    ensures "+PARALLEL" in XplanParts(c, s) <==>
              s.ioWaitPct >= 70.0 || s.totalElapsed >= 500.0 || (s.totalElapsed >= 100.0 && c == BatchSql)
    ensures "+MEMSTATS" in XplanParts(c, s) <==> s.totalElapsed >= 50.0
  {
    XplanParallelPart(c, s);
    XplanMemstatsPart(c, s);
  }

  lemma XplanParallelPart(c: Category, s: Signals)
    ensures "+PARALLEL" in XplanParts(c, s) <==> s.ioWaitPct >= 70.0 || s.totalElapsed >= 500.0 || (s.totalElapsed >= 100.0 && c == BatchSql)
  {
    XplanPartsMembers(c, s, "+PARALLEL");
  }

  lemma XplanMemstatsPart(c: Category, s: Signals)
    ensures "+MEMSTATS" in XplanParts(c, s) <==> s.totalElapsed >= 50.0
  {
    XplanPartsMembers(c, s, "+MEMSTATS");
  }

  /** CPU bands: projection from 90 %, predicates from 70 %, cost from 50 % (30 % in cost context). */
  lemma XplanCpuOptions(c: Category, s: Signals)
    ensures "+PROJECTION" in XplanParts(c, s) <==> s.cpuPct >= 90.0
    ensures "+PREDICATE" in XplanParts(c, s) <==> c == CpuBoundSql || s.cpuPct >= 70.0
    ensures "+COST" in XplanParts(c, s) <==>
              c == CpuBoundSql || c == MixedProfileSql || s.cpuPct >= 50.0
              || (s.cpuPct >= 30.0 && c == BatchSql)
  {
    XplanProjectionPart(c, s);
    XplanPredicatePart(c, s);
    XplanCostPart(c, s);
  }

  lemma XplanProjectionPart(c: Category, s: Signals)
    ensures "+PROJECTION" in XplanParts(c, s) <==> s.cpuPct >= 90.0
  {
    XplanPartsMembers(c, s, "+PROJECTION");
  }

  lemma XplanPredicatePart(c: Category, s: Signals)
    ensures "+PREDICATE" in XplanParts(c, s) <==> c == CpuBoundSql || s.cpuPct >= 70.0
  {
    XplanPartsMembers(c, s, "+PREDICATE");
  }

  lemma XplanCostPart(c: Category, s: Signals)
    ensures "+COST" in XplanParts(c, s) <==> c == CpuBoundSql || c == MixedProfileSql || s.cpuPct >= 50.0 || (s.cpuPct >= 30.0 && c == BatchSql)
  {
    XplanPartsMembers(c, s, "+COST");
  }


  /** Execution bands: bind-aware from 5000, adaptive from 1000, peeked binds from 500. */
  lemma XplanExecOptions(c: Category, s: Signals)
    ensures "+BIND_AWARE" in XplanParts(c, s) <==> s.executions >= 5000
    ensures "+ADAPTIVE" in XplanParts(c, s) <==> s.executions >= 1000
    ensures "+PEEKED_BINDS" in XplanParts(c, s) <==> s.executions >= 500
  {
    XplanBindAwarePart(c, s);
    XplanAdaptivePart(c, s);
    XplanPeekedBindsPart(c, s);
  }

  lemma XplanBindAwarePart(c: Category, s: Signals)
    ensures "+BIND_AWARE" in XplanParts(c, s) <==> s.executions >= 5000
  {
    XplanPartsMembers(c, s, "+BIND_AWARE");
  }

  lemma XplanAdaptivePart(c: Category, s: Signals)
    ensures "+ADAPTIVE" in XplanParts(c, s) <==> s.executions >= 1000
  {
    XplanPartsMembers(c, s, "+ADAPTIVE");
  }

  lemma XplanPeekedBindsPart(c: Category, s: Signals)
    ensures "+PEEKED_BINDS" in XplanParts(c, s) <==> s.executions >= 500
  {
    XplanPartsMembers(c, s, "+PEEKED_BINDS");
  }


  /** A slow, rarely run statement gets an outline and aliases; 10 seconds per run alone gives an outline. */
  lemma XplanOutlineOptions(c: Category, s: Signals)
    ensures "+ALIAS" in XplanParts(c, s) <==> s.executions < 50 && s.avgExecTime >= 5.0
    ensures "+OUTLINE" in XplanParts(c, s) <==>
              (s.executions < 50 && s.avgExecTime >= 5.0) || s.avgExecTime >= 10.0
  {
    XplanAliasPart(c, s);
    XplanOutlinePart(c, s);
  }

  lemma XplanAliasPart(c: Category, s: Signals)
    ensures "+ALIAS" in XplanParts(c, s) <==> s.executions < 50 && s.avgExecTime >= 5.0
  {
    XplanPartsMembers(c, s, "+ALIAS");
  }

  lemma XplanOutlinePart(c: Category, s: Signals)
    ensures "+OUTLINE" in XplanParts(c, s) <==> (s.executions < 50 && s.avgExecTime >= 5.0) || s.avgExecTime >= 10.0
  {
    XplanPartsMembers(c, s, "+OUTLINE");
  }


  /** The base format is either BASIC alone or starts with ALLSTATS LAST. */
  lemma XplanBase(c: Category, s: Signals)
    ensures "BASIC" in XplanParts(c, s) <==> c == ChattySql || c == LowPriority
    ensures "ALLSTATS LAST" in XplanParts(c, s) <==> !(c == ChattySql || c == LowPriority)
  {
    XplanBasicPart(c, s);
    XplanAllstatsLastPart(c, s);
  }

  lemma XplanBasicPart(c: Category, s: Signals)
    ensures "BASIC" in XplanParts(c, s) <==> c == ChattySql || c == LowPriority
  {
    XplanPartsMembers(c, s, "BASIC");
  }

  lemma XplanAllstatsLastPart(c: Category, s: Signals)
    ensures "ALLSTATS LAST" in XplanParts(c, s) <==> !(c == ChattySql || c == LowPriority)
  {
    XplanPartsMembers(c, s, "ALLSTATS LAST");
  }


  /** The twelve options after the base formats in the order table. */
  predicate IsBandOption(x: string)
  {
    x == "+COST" || x == "+PREDICATE" || x == "+PROJECTION" || x == "+ALIAS"
    || x == "+IOSTATS" || x == "+MEMSTATS" || x == "+PARALLEL" || x == "+PARTITION"
    || x == "+PEEKED_BINDS" || x == "+ADAPTIVE" || x == "+BIND_AWARE" || x == "+OUTLINE"
  }

  lemma BandOptionsInTable(x: string)
    requires IsBandOption(x)
    ensures x in FormatOrder[4..] && x in FormatOrder
  {
    assert FormatOrder[4..] == ["+COST", "+PREDICATE", "+PROJECTION", "+ALIAS",
      "+IOSTATS", "+MEMSTATS", "+PARALLEL", "+PARTITION",
      "+PEEKED_BINDS", "+ADAPTIVE", "+BIND_AWARE", "+OUTLINE"];
  }

  /** Apart from the base head, every generated part is one of the band options. */
  lemma XplanPartsKnown(c: Category, s: Signals, x: string)
    requires x in XplanParts(c, s)
    ensures x == BaseFormat(c)[0] || IsBandOption(x)
  {
    XplanPartsMembers(c, s, x);
  }


  lemma BandOptionPlus(x: string)
    requires IsBandOption(x)
    ensures |x| > 0 && x[0] == '+'
  {
  }

  lemma IndexOfPast(s: seq<string>, x: string, n: nat)
    requires n <= |s| && x !in s[..n]
    ensures IndexOf(s, x) >= n
  {
  }

  lemma BandOptionKey(x: string)
    requires IsBandOption(x)
    ensures OrderKey(x) >= 4.0
  {
    BandOptionPlus(x);
    var bases := FormatOrder[..4];
    assert bases == ["BASIC", "TYPICAL", "ALLSTATS", "ALLSTATS LAST"];
    assert forall y :: y in bases ==> y[0] != '+';
    IndexOfPast(FormatOrder, x, 4);
  }

  lemma BaseHeadKey(c: Category)
    ensures OrderKey(BaseFormat(c)[0]) <= 3.0
  {
    var h := BaseFormat(c)[0];
    if h == "ALLSTATS LAST" {
      assert FormatOrder[3] == h;
      assert IndexOf(FormatOrder, h) <= 3;
    }
  }

  /**
   * The assembled format always opens with the category's base: BASIC for
   * chatty and low-priority SQL, ALLSTATS LAST for every other category,
   * whatever the signals add.
   */
  lemma XplanFormatLead(c: Category, s: Signals)
    ensures StartsWith(XplanFormat(c, s), if c == ChattySql || c == LowPriority then "BASIC" else "ALLSTATS LAST")
  {
    var parts := XplanParts(c, s);
    var r := OrderedParts(parts);
    var h := BaseFormat(c)[0];
    assert parts[0] == h by {
      assert parts[..|BaseFormat(c)|][0] == BaseFormat(c)[0];
    }
    assert h in multiset(r);
    var k :| 0 <= k < |r| && r[k] == h;
    assert OrderKey(r[0]) <= OrderKey(h);
    assert r[0] in multiset(parts);
    XplanPartsKnown(c, s, r[0]);
    if r[0] != h {
      BandOptionKey(r[0]);
      BaseHeadKey(c);
      assert false;
    }
  }


  // ---------------------------------------------------------------------
  // SQL Access Advisor parameters
  // ---------------------------------------------------------------------

  /** `_calculate_advisor_time_limit`, in seconds: the first matching tier wins. */
  function AdvisorTimeLimit(s: Signals): (t: int)
    ensures t == 600 || t == 300 || t == 180 || t == 60
    ensures t == 600 <==> s.totalElapsed > 500.0 || s.ioWaitPct > 90.0
    ensures t >= 300 <==> s.totalElapsed > 100.0 || s.ioWaitPct > 70.0
    ensures t == 60 <==> s.totalElapsed <= 100.0 && s.ioWaitPct <= 70.0 && s.avgExecTime <= 10.0
  {
    if s.totalElapsed > 500.0 || s.ioWaitPct > 90.0 then 600
    else if s.totalElapsed > 100.0 || s.ioWaitPct > 70.0 then 300
    else if s.avgExecTime > 10.0 then 180
    else 60
  }

  /** A statement that is slower, waits more on IO or runs longer per execution never gets less advisor time. */
  lemma AdvisorTimeLimitMonotone(s: Signals, s': Signals)
    requires s.totalElapsed <= s'.totalElapsed && s.ioWaitPct <= s'.ioWaitPct
    requires s.avgExecTime <= s'.avgExecTime
    ensures AdvisorTimeLimit(s) <= AdvisorTimeLimit(s')
  {
  }

  datatype AnalysisScope = FullScope | IndexOnly | PartitionOnly | ComprehensiveScope

  /** `_determine_analysis_scope`: IO decides first; CPU is consulted only when IO is at most 50 %. */
  function AnalysisScopeOf(s: Signals): (r: AnalysisScope)
    ensures r == FullScope <==> s.ioWaitPct > 80.0
    ensures r == IndexOnly <==> 50.0 < s.ioWaitPct <= 80.0
    ensures r == PartitionOnly <==> s.ioWaitPct <= 50.0 && s.cpuPct > 70.0
  {
    if s.ioWaitPct > 80.0 then FullScope
    else if s.ioWaitPct > 50.0 then IndexOnly
    else if s.cpuPct > 70.0 then PartitionOnly
    else ComprehensiveScope
  }

  datatype WorkloadScope = LimitedWorkload | StandardWorkload | ComprehensiveWorkload

  function WorkloadRank(w: WorkloadScope): nat
  {
    match w
    case LimitedWorkload => 0
    case StandardWorkload => 1
    case ComprehensiveWorkload => 2
  }

  /** `_determine_workload_scope`: rare statements get a limited workload, frequent ones a comprehensive one. */
  function WorkloadScopeOf(executions: int): (r: WorkloadScope)
    ensures r == LimitedWorkload <==> executions < 10
    ensures r == ComprehensiveWorkload <==> executions > 100
  {
    if executions < 10 then LimitedWorkload
    else if executions > 100 then ComprehensiveWorkload
    else StandardWorkload
  }

  /** More executions never narrow the workload scope. */
  lemma WorkloadScopeMonotone(e: int, e': int)
    requires e <= e'
    ensures WorkloadRank(WorkloadScopeOf(e)) <= WorkloadRank(WorkloadScopeOf(e'))
  {
  }

  /** `_generate_task_suffix`: elapsed, IO and CPU truncated to integers (rendered `{e}_{io}io_{cpu}cpu`). */
  datatype TaskSuffix = TaskSuffix(elapsedPart: int, ioPart: int, cpuPart: int)

  function TaskSuffixOf(s: Signals): TaskSuffix
  {
    TaskSuffix(TruncateToInt(s.totalElapsed), TruncateToInt(s.ioWaitPct), TruncateToInt(s.cpuPct))
  }

  // ---------------------------------------------------------------------
  // Generated commands
  // ---------------------------------------------------------------------

  datatype CommandAction =
    | ObjectIoAnalysis | SegmentStatistics | PlanAnalysisCommand | AdvisorDeferred
    | CpuCostAnalysis | JoinMethodAnalysis | CartesianDetection | TuningAdvisorCommand
    | ExecutionFrequencyAnalysis | CursorEfficiencyCheck | ApplicationPatternAnalysis
    | DbaDecisionNotice | ParallelEffectivenessCheck | BatchWaitAnalysis
    | AccessAdvisorCommand | AccessAdvisorLimited | IndexUsageCheck | JoinAnalysis
    | ComprehensiveAnalysis | BaselineMonitoring

  /** The `action` string a command carries. */
  function ActionName(a: CommandAction): string
  {
    match a
    case ObjectIoAnalysis => "OBJECT_IO_ANALYSIS"
    case SegmentStatistics => "SEGMENT_STATISTICS"
    case PlanAnalysisCommand => "PLAN_ANALYSIS"
    case AdvisorDeferred => "ADVISOR_DEFERRED"
    case CpuCostAnalysis => "CPU_COST_ANALYSIS"
    case JoinMethodAnalysis => "JOIN_METHOD_ANALYSIS"
    case CartesianDetection => "CARTESIAN_DETECTION"
    case TuningAdvisorCommand => "SQL_TUNING_ADVISOR"
    case ExecutionFrequencyAnalysis => "EXECUTION_FREQUENCY_ANALYSIS"
    case CursorEfficiencyCheck => "CURSOR_EFFICIENCY_CHECK"
    case ApplicationPatternAnalysis => "APPLICATION_PATTERN_ANALYSIS"
    case DbaDecisionNotice => "DBA_DECISION_NOTICE"
    case ParallelEffectivenessCheck => "PARALLEL_EFFECTIVENESS_CHECK"
    case BatchWaitAnalysis => "BATCH_WAIT_ANALYSIS"
    case AccessAdvisorCommand => "SQL_ACCESS_ADVISOR"
    case AccessAdvisorLimited => "SQL_ACCESS_ADVISOR_LIMITED"
    case IndexUsageCheck => "INDEX_REVIEW"
    case JoinAnalysis => "JOIN_METHOD_REVIEW"
    case ComprehensiveAnalysis => "COMPREHENSIVE_ANALYSIS"
    case BaselineMonitoring => "MONITOR_ONLY"
  }

  /** The parameters of a command that vary with the signals. */
  datatype Detail =
    | NoDetail
    | XplanDetail(format: string)
    | FullAdvisor(suffix: TaskSuffix, timeLimit: int, analysis: AnalysisScope, workload: WorkloadScope)
    | IoFocusedAdvisor(suffix: TaskSuffix, timeLimit: int)
    | LimitedAdvisor(suffix: TaskSuffix)

  /** A generated command: its action, the category label it carries and its parameters. */
  datatype Command = Command(action: CommandAction, category: Category, detail: Detail)

  function Plain(a: CommandAction, c: Category): Command
  {
    Command(a, c, NoDetail)
  }

  /** `_generate_dynamic_xplan`. */
  function DynamicXplan(c: Category, s: Signals): Command
  {
    Command(PlanAnalysisCommand, c, XplanDetail(XplanFormat(c, s)))
  }

  /** `_generate_access_advisor_full` (labelled batch SQL whoever calls it). */
  function AccessAdvisorFull(s: Signals): Command
  {
    Command(AccessAdvisorCommand, BatchSql,
      FullAdvisor(TaskSuffixOf(s), AdvisorTimeLimit(s), AnalysisScopeOf(s), WorkloadScopeOf(s.executions)))
  }

  /** `_generate_access_advisor_io_focused` (labelled IO-bound SQL whoever calls it). */
  function AccessAdvisorIoFocused(s: Signals): Command
  {
    Command(AccessAdvisorCommand, IoBoundSql, IoFocusedAdvisor(TaskSuffixOf(s), AdvisorTimeLimit(s)))
  }

  /** `_generate_access_advisor_limited`. */
  function AccessAdvisorLimitedCommand(s: Signals): Command
  {
    Command(AccessAdvisorLimited, BatchSql, LimitedAdvisor(TaskSuffixOf(s)))
  }

  /** A plan-analysis command appears only when the decision allows plan analysis, and carries the assembled format. */
  predicate PlanOnlyIfAllowed(d: Decision, r: seq<Command>)
  {
    forall i :: 0 <= i < |r| && r[i].action == PlanAnalysisCommand ==>
      IsActionAllowed(d, PlanAnalysis) && r[i].detail == XplanDetail(XplanFormat(d.category, d.signals))
  }

  /** Each command carries the decision's category, except the helpers that label themselves. */
  predicate LabelledFor(d: Decision, r: seq<Command>)
  {
    forall i :: 0 <= i < |r| ==>
      r[i].category == d.category
      || (d.category == MixedProfileSql && (r[i].category == BatchSql || r[i].category == CpuBoundSql))
      || (d.category == BatchSql && r[i] == AccessAdvisorIoFocused(d.signals))
  }

  lemma {:induction false} WellFormedAppend(d: Decision, a: seq<Command>, b: seq<Command>)
    requires PlanOnlyIfAllowed(d, a) && LabelledFor(d, a)
    requires PlanOnlyIfAllowed(d, b) && LabelledFor(d, b)
    ensures PlanOnlyIfAllowed(d, a + b) && LabelledFor(d, a + b)
  {
    forall i | 0 <= i < |a + b|
      ensures (a + b)[i] == if i < |a| then a[i] else b[i - |a|]
    {
    }
  }

  lemma InThree(x: Command, a: seq<Command>, b: seq<Command>, c: seq<Command>)
    ensures x in a + b + c <==> x in a || x in b || x in c
  {
  }

  /** The plan-analysis step, present when the decision allows it. */
  function PlanStep(d: Decision): (r: seq<Command>)
    ensures PlanOnlyIfAllowed(d, r) && LabelledFor(d, r)
    ensures |r| <= 1
    ensures |r| == 1 <==> IsActionAllowed(d, PlanAnalysis)
    ensures |r| == 1 ==> r[0] == DynamicXplan(d.category, d.signals)
  {
    if IsActionAllowed(d, PlanAnalysis) then [DynamicXplan(d.category, d.signals)] else []
  }

  /** IO-bound: object IO, segment statistics, then the plan as confirmation, then an advisor or a deferral note. */
  function IoBoundCommands(d: Decision): (r: seq<Command>)
    requires d.category == IoBoundSql
    ensures |r| >= 2 && r[0] == Plain(ObjectIoAnalysis, IoBoundSql) && r[1] == Plain(SegmentStatistics, IoBoundSql)
    ensures PlanOnlyIfAllowed(d, r) && LabelledFor(d, r)
    // the plan confirms, then the advisor or the deferral note closes the list
  {
    var head := [Plain(ObjectIoAnalysis, d.category), Plain(SegmentStatistics, d.category)];
    var plan := PlanStep(d);
    var advisor := IoBoundAdvisor(d);
    WellFormedAppend(d, head, plan);
    WellFormedAppend(d, head + plan, advisor);
    head + plan + advisor
  }

  /** The closing step of the IO-bound list: the IO-focused advisor, or a deferral note. */
  function IoBoundAdvisor(d: Decision): (r: seq<Command>)
    requires d.category == IoBoundSql
    ensures |r| <= 1
    ensures forall i :: 0 <= i < |r| ==> r[i].action in {AccessAdvisorCommand, AdvisorDeferred}
    ensures PlanOnlyIfAllowed(d, r) && LabelledFor(d, r)
    // the advisor only for very heavy IO at low frequency, and only when it is allowed
    ensures r == [AccessAdvisorIoFocused(d.signals)] <==>
              d.signals.ioWaitPct > 90.0 && d.signals.executions < 10 && IsActionAllowed(d, SqlAccessAdvisor)
    // otherwise a deferral note above 70 % IO wait
    ensures r == [Plain(AdvisorDeferred, IoBoundSql)] <==>
              !(d.signals.ioWaitPct > 90.0 && d.signals.executions < 10) && d.signals.ioWaitPct > 70.0
  {
    var s := d.signals;
    if s.ioWaitPct > 90.0 && s.executions < 10 then
      (if IsActionAllowed(d, SqlAccessAdvisor) then [AccessAdvisorIoFocused(s)] else [])
    else if s.ioWaitPct > 70.0 then [Plain(AdvisorDeferred, d.category)]
    else []
  }

  /** CPU-bound: cost and join analysis, Cartesian detection above 80 % CPU, then the plan and the tuning advisor. */
  function CpuBoundCommands(d: Decision): (r: seq<Command>)
    requires d.category == CpuBoundSql
    ensures |r| >= 2 && r[0] == Plain(CpuCostAnalysis, CpuBoundSql) && r[1] == Plain(JoinMethodAnalysis, CpuBoundSql)
    ensures PlanOnlyIfAllowed(d, r) && LabelledFor(d, r)
  {
    var head := [Plain(CpuCostAnalysis, d.category), Plain(JoinMethodAnalysis, d.category)]
      + (if d.signals.cpuPct > 80.0 then [Plain(CartesianDetection, d.category)] else []);
    var advisor :=
      if IsActionAllowed(d, SqlTuningAdvisor) then [Plain(TuningAdvisorCommand, CpuBoundSql)] else [];
    var plan := PlanStep(d);
    WellFormedAppend(d, head, plan);
    WellFormedAppend(d, head + plan, advisor);
    head + plan + advisor
  }

  /** Chatty: execution-frequency, cursor and application analysis; no plan and no advisor. */
  function ChattyCommands(d: Decision): (r: seq<Command>)
    requires d.category == ChattySql
    ensures r == [Plain(ExecutionFrequencyAnalysis, ChattySql), Plain(CursorEfficiencyCheck, ChattySql),
                  Plain(ApplicationPatternAnalysis, ChattySql), Plain(DbaDecisionNotice, ChattySql)]
    ensures PlanOnlyIfAllowed(d, r) && LabelledFor(d, r)
  {
    [Plain(ExecutionFrequencyAnalysis, d.category), Plain(CursorEfficiencyCheck, d.category),
     Plain(ApplicationPatternAnalysis, d.category), Plain(DbaDecisionNotice, d.category)]
  }

  /** Batch: parallel effectiveness, batch waits, the plan, then an advisor whose scope follows the IO wait. */
  function BatchCommands(d: Decision): (r: seq<Command>)
    requires d.category == BatchSql
    ensures |r| >= 2 && r[0] == Plain(ParallelEffectivenessCheck, BatchSql) && r[1] == Plain(BatchWaitAnalysis, BatchSql)
    ensures PlanOnlyIfAllowed(d, r) && LabelledFor(d, r)
  {
    var head := [Plain(ParallelEffectivenessCheck, d.category), Plain(BatchWaitAnalysis, d.category)];
    var plan := PlanStep(d);
    var advisor := BatchAdvisor(d);
    WellFormedAppend(d, head, plan);
    WellFormedAppend(d, head + plan, advisor);
    head + plan + advisor
  }

  /** The closing advisor of the batch list, whose scope follows the IO wait. */
  function BatchAdvisor(d: Decision): (r: seq<Command>)
    requires d.category == BatchSql
    ensures |r| <= 1
    ensures forall i :: 0 <= i < |r| ==> r[i].action in {AccessAdvisorCommand, AccessAdvisorLimited}
    ensures PlanOnlyIfAllowed(d, r) && LabelledFor(d, r)
    // an advisor iff either the access advisor or an index review is allowed
    ensures |r| == 1 <==> IsActionAllowed(d, SqlAccessAdvisor) || IsActionAllowed(d, IndexReview)
    // its scope: full for very heavy IO at low frequency, IO-focused above 70 %, limited otherwise
    ensures |r| == 1 && d.signals.ioWaitPct > 90.0 && d.signals.executions < 10 ==>
              r[0] == AccessAdvisorFull(d.signals)
    ensures |r| == 1 && !(d.signals.ioWaitPct > 90.0 && d.signals.executions < 10) && d.signals.ioWaitPct > 70.0 ==>
              r[0] == AccessAdvisorIoFocused(d.signals)
    ensures |r| == 1 && d.signals.ioWaitPct <= 70.0 ==> r[0] == AccessAdvisorLimitedCommand(d.signals)
  {
    var s := d.signals;
    if IsActionAllowed(d, SqlAccessAdvisor) || IsActionAllowed(d, IndexReview) then
      (if s.ioWaitPct > 90.0 && s.executions < 10 then [AccessAdvisorFull(s)]
       else if s.ioWaitPct > 70.0 then [AccessAdvisorIoFocused(s)]
       else [AccessAdvisorLimitedCommand(s)])
    else []
  }

  /** Mixed profile: a comprehensive analysis, plus an index check above 40 % IO and a join analysis above 40 % CPU. */
  function MixedProfileCommands(s: Signals): (r: seq<Command>)
    ensures |r| >= 1 && forall i :: 0 <= i < |r| ==> r[i].action != PlanAnalysisCommand
    ensures forall i :: 0 <= i < |r| ==> r[i].category in {MixedProfileSql, BatchSql, CpuBoundSql}
    ensures r[0] == Plain(ComprehensiveAnalysis, MixedProfileSql) && |r| <= 3
    ensures Plain(IndexUsageCheck, BatchSql) in r <==> s.ioWaitPct > 40.0
    ensures Plain(JoinAnalysis, CpuBoundSql) in r <==> s.cpuPct > 40.0
  {
    [Plain(ComprehensiveAnalysis, MixedProfileSql)]
    + (if s.ioWaitPct > 40.0 then [Plain(IndexUsageCheck, BatchSql)] else [])
    + (if s.cpuPct > 40.0 then [Plain(JoinAnalysis, CpuBoundSql)] else [])
  }

  /** Low priority: baseline monitoring only. */
  function MonitoringCommands(s: Signals): seq<Command>
  {
    [Plain(BaselineMonitoring, LowPriority)]
  }

  /**
   * The IO-bound list: the plan confirms when plan analysis is allowed, then
   * the IO-focused advisor (very heavy IO at low frequency, when allowed) or a
   * deferral note (above 70 % IO wait otherwise) closes it.
   */
  lemma IoBoundContents(d: Decision)
    requires d.category == IoBoundSql
    ensures DynamicXplan(d.category, d.signals) in IoBoundCommands(d) <==> IsActionAllowed(d, PlanAnalysis)
    ensures AccessAdvisorIoFocused(d.signals) in IoBoundCommands(d) <==>
              d.signals.ioWaitPct > 90.0 && d.signals.executions < 10 && IsActionAllowed(d, SqlAccessAdvisor)
    ensures Plain(AdvisorDeferred, IoBoundSql) in IoBoundCommands(d) <==>
              !(d.signals.ioWaitPct > 90.0 && d.signals.executions < 10) && d.signals.ioWaitPct > 70.0
  {
    IoPlanListed(d);
    IoAdvisorListed(d);
    IoDeferralListed(d);
  }

  lemma IoPlanListed(d: Decision)
    requires d.category == IoBoundSql
    ensures DynamicXplan(d.category, d.signals) in IoBoundCommands(d) <==> IsActionAllowed(d, PlanAnalysis)
  {
    var x := DynamicXplan(d.category, d.signals);
    IoBoundListed(d, x);
    assert x.action == PlanAnalysisCommand;
  }

  lemma IoAdvisorListed(d: Decision)
    requires d.category == IoBoundSql
    ensures AccessAdvisorIoFocused(d.signals) in IoBoundCommands(d) <==>
              d.signals.ioWaitPct > 90.0 && d.signals.executions < 10 && IsActionAllowed(d, SqlAccessAdvisor)
  {
    var x := AccessAdvisorIoFocused(d.signals);
    IoBoundListed(d, x);
    assert x !in PlanStep(d);
    var a := IoBoundAdvisor(d);
    assert x in a <==> a == [x];
  }

  lemma IoDeferralListed(d: Decision)
    requires d.category == IoBoundSql
    ensures Plain(AdvisorDeferred, IoBoundSql) in IoBoundCommands(d) <==>
              !(d.signals.ioWaitPct > 90.0 && d.signals.executions < 10) && d.signals.ioWaitPct > 70.0
  {
    var x := Plain(AdvisorDeferred, IoBoundSql);
    IoBoundListed(d, x);
    assert x !in PlanStep(d);
    var a := IoBoundAdvisor(d);
    assert x in a <==> a == [x];
  }

  /** A command other than the two opening ones is in the IO-bound list iff the plan or the closing step is it. */
  lemma IoBoundListed(d: Decision, c: Command)
    requires d.category == IoBoundSql
    requires c.action !in {ObjectIoAnalysis, SegmentStatistics}
    ensures c in IoBoundCommands(d) <==> c in PlanStep(d) || c in IoBoundAdvisor(d)
  {
    var head := [Plain(ObjectIoAnalysis, d.category), Plain(SegmentStatistics, d.category)];
    assert IoBoundCommands(d) == head + PlanStep(d) + IoBoundAdvisor(d);
    InThree(c, head, PlanStep(d), IoBoundAdvisor(d));
  }

  /**
   * The CPU-bound list: Cartesian detection above 80 % CPU, the plan when
   * allowed, and the tuning advisor, last, when allowed.
   */
  lemma CpuBoundContents(d: Decision)
    requires d.category == CpuBoundSql
    ensures Plain(CartesianDetection, CpuBoundSql) in CpuBoundCommands(d) <==> d.signals.cpuPct > 80.0
    ensures DynamicXplan(d.category, d.signals) in CpuBoundCommands(d) <==> IsActionAllowed(d, PlanAnalysis)
    ensures Plain(TuningAdvisorCommand, CpuBoundSql) in CpuBoundCommands(d) <==> IsActionAllowed(d, SqlTuningAdvisor)
    ensures IsActionAllowed(d, SqlTuningAdvisor) ==>
              CpuBoundCommands(d)[|CpuBoundCommands(d)| - 1] == Plain(TuningAdvisorCommand, CpuBoundSql)
  {
    CpuCartesianListed(d);
    CpuPlanListed(d);
    CpuTuningListed(d);
  }

  lemma CpuCartesianListed(d: Decision)
    requires d.category == CpuBoundSql
    ensures Plain(CartesianDetection, CpuBoundSql) in CpuBoundCommands(d) <==> d.signals.cpuPct > 80.0
  {
    var x := Plain(CartesianDetection, CpuBoundSql);
    CpuBoundListed(d, x);
    assert x !in PlanStep(d);
  }

  lemma CpuPlanListed(d: Decision)
    requires d.category == CpuBoundSql
    ensures DynamicXplan(d.category, d.signals) in CpuBoundCommands(d) <==> IsActionAllowed(d, PlanAnalysis)
  {
    CpuBoundListed(d, DynamicXplan(d.category, d.signals));
  }

  lemma CpuTuningListed(d: Decision)
    requires d.category == CpuBoundSql
    ensures Plain(TuningAdvisorCommand, CpuBoundSql) in CpuBoundCommands(d) <==> IsActionAllowed(d, SqlTuningAdvisor)
  {
    var x := Plain(TuningAdvisorCommand, CpuBoundSql);
    CpuBoundListed(d, x);
    assert x !in PlanStep(d);
  }

  /** The CPU-bound list as its three parts: the analyses, the plan, the tuning advisor. */
  lemma CpuBoundListed(d: Decision, c: Command)
    requires d.category == CpuBoundSql
    ensures c in CpuBoundCommands(d) <==>
              c in [Plain(CpuCostAnalysis, CpuBoundSql), Plain(JoinMethodAnalysis, CpuBoundSql)]
              || (d.signals.cpuPct > 80.0 && c == Plain(CartesianDetection, CpuBoundSql))
              || c in PlanStep(d)
              || (IsActionAllowed(d, SqlTuningAdvisor) && c == Plain(TuningAdvisorCommand, CpuBoundSql))
    ensures IsActionAllowed(d, SqlTuningAdvisor) ==>
              CpuBoundCommands(d)[|CpuBoundCommands(d)| - 1] == Plain(TuningAdvisorCommand, CpuBoundSql)
  {
    var head := [Plain(CpuCostAnalysis, d.category), Plain(JoinMethodAnalysis, d.category)]
      + (if d.signals.cpuPct > 80.0 then [Plain(CartesianDetection, d.category)] else []);
    var advisor :=
      if IsActionAllowed(d, SqlTuningAdvisor) then [Plain(TuningAdvisorCommand, CpuBoundSql)] else [];
    assert CpuBoundCommands(d) == head + PlanStep(d) + advisor;
    InThree(c, head, PlanStep(d), advisor);
  }

  /**
   * The batch list: the plan when allowed, then an advisor when the access
   * advisor or an index review is allowed, full, IO-focused or limited by the IO wait.
   */
  lemma BatchContents(d: Decision)
    requires d.category == BatchSql
    ensures DynamicXplan(d.category, d.signals) in BatchCommands(d) <==> IsActionAllowed(d, PlanAnalysis)
    ensures AccessAdvisorFull(d.signals) in BatchCommands(d) <==>
              (IsActionAllowed(d, SqlAccessAdvisor) || IsActionAllowed(d, IndexReview))
              && d.signals.ioWaitPct > 90.0 && d.signals.executions < 10
    ensures AccessAdvisorIoFocused(d.signals) in BatchCommands(d) <==>
              (IsActionAllowed(d, SqlAccessAdvisor) || IsActionAllowed(d, IndexReview))
              && !(d.signals.ioWaitPct > 90.0 && d.signals.executions < 10) && d.signals.ioWaitPct > 70.0
    ensures AccessAdvisorLimitedCommand(d.signals) in BatchCommands(d) <==>
              (IsActionAllowed(d, SqlAccessAdvisor) || IsActionAllowed(d, IndexReview)) && d.signals.ioWaitPct <= 70.0
  {
    BatchPlanListed(d);
    BatchAdvisorListed(d, AccessAdvisorFull(d.signals));
    BatchAdvisorListed(d, AccessAdvisorIoFocused(d.signals));
    BatchAdvisorListed(d, AccessAdvisorLimitedCommand(d.signals));
  }

  lemma BatchPlanListed(d: Decision)
    requires d.category == BatchSql
    ensures DynamicXplan(d.category, d.signals) in BatchCommands(d) <==> IsActionAllowed(d, PlanAnalysis)
  {
    var x := DynamicXplan(d.category, d.signals);
    BatchListed(d, x);
    assert x.action == PlanAnalysisCommand;
  }

  /** An advisor command is in the batch list iff it is the one the batch advisor picks. */
  lemma BatchAdvisorListed(d: Decision, x: Command)
    requires d.category == BatchSql
    requires x.action in {AccessAdvisorCommand, AccessAdvisorLimited}
    ensures x in BatchCommands(d) <==> BatchAdvisor(d) == [x]
  {
    BatchListed(d, x);
    assert x !in PlanStep(d);
    var a := BatchAdvisor(d);
    assert x in a <==> a == [x];
  }

  /** A command other than the two opening ones is in the batch list iff the plan or the advisor is it. */
  lemma BatchListed(d: Decision, c: Command)
    requires d.category == BatchSql
    requires c.action !in {ParallelEffectivenessCheck, BatchWaitAnalysis}
    ensures c in BatchCommands(d) <==> c in PlanStep(d) || c in BatchAdvisor(d)
  {
    var head := [Plain(ParallelEffectivenessCheck, d.category), Plain(BatchWaitAnalysis, d.category)];
    assert BatchCommands(d) == head + PlanStep(d) + BatchAdvisor(d);
    InThree(c, head, PlanStep(d), BatchAdvisor(d));
  }

  /** The commands `generate_all` returns for a decision. */
  function CommandsFor(d: Decision): (r: seq<Command>)
    ensures |r| >= 1 && r[0].action != PlanAnalysisCommand
    ensures PlanOnlyIfAllowed(d, r) && LabelledFor(d, r)
    ensures d.category == ChattySql ==>
              forall i :: 0 <= i < |r| ==>
                r[i].action !in {PlanAnalysisCommand, TuningAdvisorCommand, AccessAdvisorCommand, AccessAdvisorLimited}
  {
    match d.category
    case IoBoundSql => IoBoundCommands(d)
    case CpuBoundSql => CpuBoundCommands(d)
    case ChattySql => ChattyCommands(d)
    case BatchSql => BatchCommands(d)
    case MixedProfileSql => MixedProfileCommands(d.signals)
    case LowPriority => MonitoringCommands(d.signals)
  }

  /**
   * Under the decision engine's own IO-bound decision, plan analysis is not
   * an allowed action, so the confirming plan step of the IO-bound list is
   * never produced.
   */
  lemma EvaluatedIoBoundHasNoPlan(s: Signals)
    requires Evaluate(s).category == IoBoundSql
    ensures forall c :: c in CommandsFor(Evaluate(s)) ==> c.action != PlanAnalysisCommand
  {
    var d := Evaluate(s);
    assert d == IoBoundDecision(s);
    assert !IsActionAllowed(d, PlanAnalysis);
  }

  /** The advisor an IO-bound list runs is only reached above 90 % IO wait, so it always gets ten minutes. */
  lemma IoBoundAdvisorTime(d: Decision)
    requires d.category == IoBoundSql
    ensures forall c :: c in CommandsFor(d) && c.action == AccessAdvisorCommand ==>
              c.detail == IoFocusedAdvisor(TaskSuffixOf(d.signals), 600)
  {
    var head := [Plain(ObjectIoAnalysis, d.category), Plain(SegmentStatistics, d.category)];
    assert CommandsFor(d) == IoBoundCommands(d);
    assert IoBoundCommands(d) == head + PlanStep(d) + IoBoundAdvisor(d);
    forall c | c in CommandsFor(d) && c.action == AccessAdvisorCommand
      ensures c.detail == IoFocusedAdvisor(TaskSuffixOf(d.signals), 600)
    {
      assert c !in head && c !in PlanStep(d);
      assert c in IoBoundAdvisor(d);
    }
  }

  /**
   * The full advisor of a batch list is only reached above 90 % IO wait
   * with fewer than 10 executions: ten minutes, full analysis, limited workload.
   */
  lemma BatchFullAdvisorSettings(d: Decision)
    requires d.category == BatchSql
    ensures forall c :: c in CommandsFor(d) && c.detail.FullAdvisor? ==>
              c.detail.timeLimit == 600 && c.detail.analysis == FullScope
              && c.detail.workload == LimitedWorkload
  {
    var head := [Plain(ParallelEffectivenessCheck, d.category), Plain(BatchWaitAnalysis, d.category)];
    assert CommandsFor(d) == BatchCommands(d);
    assert BatchCommands(d) == head + PlanStep(d) + BatchAdvisor(d);
    forall c | c in CommandsFor(d) && c.detail.FullAdvisor?
      ensures c.detail.timeLimit == 600 && c.detail.analysis == FullScope && c.detail.workload == LimitedWorkload
    {
      assert c !in head && c !in PlanStep(d);
      assert c in BatchAdvisor(d);
    }
  }

  // ---------------------------------------------------------------------
  // DBA action plans
  // ---------------------------------------------------------------------

  /** The escalation marker an item's text opens with. */
  datatype Marker = NoMarker | Urgent | Critical | HighCpuConsumption

  /**
   * One line of a plan. Numbers the source formats into the text are kept
   * as named placeholders in braces.
   */
  datatype PlanItem = PlanItem(marker: Marker, text: string)

  datatype ActionPlan = ActionPlan(
    sqlId: string,
    category: Category,
    fingerprint: SignalSnapshot,
    immediate: seq<PlanItem>,
    shortTerm: seq<PlanItem>,
    mediumTerm: seq<PlanItem>,
    longTerm: seq<PlanItem>,
    priorityReasoning: seq<PlanItem>)

  function Item(text: string): PlanItem
  {
    PlanItem(NoMarker, text)
  }

  /** The escalation markers of a list of items, in order, unmarked items skipped. */
  function Markers(items: seq<PlanItem>): (r: seq<Marker>)
    ensures |r| <= |items|
    ensures NoMarker !in r
  {
    if |items| == 0 then []
    else if items[0].marker == NoMarker then Markers(items[1..])
    else [items[0].marker] + Markers(items[1..])
  }

  /** Markers are looked up item by item. */
  lemma {:induction false} MarkersMember(items: seq<PlanItem>, l: Marker)
    requires l != NoMarker
    ensures l in Markers(items) <==> exists i :: 0 <= i < |items| && items[i].marker == l
  {
    if |items| > 0 {
      MarkersMember(items[1..], l);
      if l in Markers(items[1..]) {
        var i :| 0 <= i < |items[1..]| && items[1..][i].marker == l;
        assert items[i + 1].marker == l;
      }
      forall i | 0 < i < |items| && items[i].marker == l
        ensures l in Markers(items[1..])
      {
        assert items[1..][i - 1].marker == l;
      }
    }
  }

  lemma {:induction false} MarkersAppend(a: seq<PlanItem>, b: seq<PlanItem>)
    ensures Markers(a + b) == Markers(a) + Markers(b)
  {
    if |a| == 0 {
      assert a + b == b;
    } else {
      assert (a + b)[1..] == a[1..] + b;
      MarkersAppend(a[1..], b);
    }
  }

  /** An item that is listed only when its threshold is passed. */
  function If(b: bool, item: PlanItem): (r: seq<PlanItem>)
    ensures |r| == if b then 1 else 0
    ensures Markers(r) == if b && item.marker != NoMarker then [item.marker] else []
  {
    if b then
      assert [item][1..] == [];
      [item]
    else []
  }

  /** Two unmarked items followed by the optional ones. */
  function Escalated(first: string, second: string, x: seq<PlanItem>, y: seq<PlanItem>): (r: seq<PlanItem>)
    ensures |r| == 2 + |x| + |y|
    ensures Markers(r) == Markers(x) + Markers(y)
  {
    var head := [Item(first), Item(second)];
    assert Markers(head) == [] by {
      assert head[1..][1..] == [];
    }
    MarkersAppend(head, x);
    MarkersAppend(head + x, y);
    head + x + y
  }

  /** Every horizon of a plan has at least two items and there are four lines of reasoning. */
  predicate Complete(p: ActionPlan)
  {
    |p.immediate| >= 2 && |p.shortTerm| >= 2 && |p.mediumTerm| >= 2 && |p.longTerm| >= 2
    && |p.priorityReasoning| == 4
  }

  /**
   * The immediate items a plan escalates: each category has its own
   * thresholds and markers, and mixed-profile and low-priority plans escalate nothing.
   */
  function Escalation(c: Category, s: Signals): (m: seq<Marker>)
  {
    match c
    case BatchSql => if s.ioWaitPct > 80.0 then [Urgent] else []
    case ChattySql => if s.executions > 5000 then [Critical] else []
    case IoBoundSql => if s.ioWaitPct > 90.0 then [Critical] else []
    case CpuBoundSql =>
      (if s.cpuPct > 90.0 then [Critical] else []) + (if s.cpuTime > 100.0 then [HighCpuConsumption] else [])
    case MixedProfileSql => []
    case LowPriority => []
  }

  /** The plan's immediate horizon carries exactly the markers its category's thresholds call for. */
  predicate EscalatesAsDesigned(p: ActionPlan, s: Signals)
  {
    Markers(p.immediate) == Escalation(p.category, s)
  }

  // The texts of `_generate_batch_action_plan`, horizon by horizon.
  const BatchImmediate1: string := "Run DBMS_XPLAN analysis with format optimized for {io_wait_pct}% IO wait"
  const BatchImmediate2: string := "Capture current execution plan for SQL_ID {sql_id}"
  const BatchImmediate3: string := "URGENT: Investigate full table scans (IO wait at {io_wait_pct}%)"
  const BatchImmediate4: string := "Check for blocking sessions (query taking {total_elapsed}s)"
  const BatchShortTerm1: string := "Run SQL Access Advisor for batch workload analysis"
  const BatchShortTerm2: string := "Review index recommendations for {executions} executions"
  const BatchShortTerm3: string := "Consider query partitioning (avg {avg_exec_time}s per execution)"
  const BatchShortTerm4: string := "Analyze segment statistics for hot objects"
  const BatchMediumTerm1: string := "Implement recommended indexes after testing"
  const BatchMediumTerm2: string := "Schedule batch job during off-peak hours if running frequently"
  const BatchMediumTerm3: string := "Consider parallel query optimization (total time: {total_elapsed}s)"
  const BatchLongTerm1: string := "Establish performance baseline for batch window"
  const BatchLongTerm2: string := "Create AWR snapshot retention policy for trend analysis"
  const BatchLongTerm3: string := "Document batch SQL performance SLAs"
  const BatchReasoning1: string := "Batch SQL identified: {avg_exec_time}s avg execution time, {executions} executions"
  const BatchReasoning2: string := "IO-focused tuning priority: {io_wait_pct}% IO wait detected"
  const BatchReasoning3: string := "Application throttling NOT applicable for batch workload"
  const BatchReasoning4: string := "Bind tuning skipped: low execution frequency"

  /** `_generate_batch_action_plan`. */
  function BatchActionPlan(s: Signals): (p: ActionPlan)
    ensures p.category == BatchSql && p.sqlId == s.sqlId && p.fingerprint == SnapshotOf(s)
    ensures Complete(p)
    ensures |p.immediate| == 2 + (if s.ioWaitPct > 80.0 then 1 else 0) + (if s.totalElapsed > 100.0 then 1 else 0)
    ensures |p.shortTerm| == 2 + (if s.avgExecTime > 10.0 then 1 else 0) + (if s.ioWaitPct > 60.0 then 1 else 0)
    ensures |p.mediumTerm| == 2 + (if s.totalElapsed > 200.0 then 1 else 0)
    ensures EscalatesAsDesigned(p, s)
  {
    ActionPlan(s.sqlId, BatchSql, SnapshotOf(s),
      Escalated(BatchImmediate1,
        BatchImmediate2,
        If(s.ioWaitPct > 80.0, PlanItem(Urgent, BatchImmediate3)),
        If(s.totalElapsed > 100.0, Item(BatchImmediate4))),
      [Item(BatchShortTerm1),
       Item(BatchShortTerm2)]
      + If(s.avgExecTime > 10.0, Item(BatchShortTerm3))
      + If(s.ioWaitPct > 60.0, Item(BatchShortTerm4)),
      [Item(BatchMediumTerm1),
       Item(BatchMediumTerm2)]
      + If(s.totalElapsed > 200.0, Item(BatchMediumTerm3)),
      [Item(BatchLongTerm1),
       Item(BatchLongTerm2),
       Item(BatchLongTerm3)],
      [Item(BatchReasoning1),
       Item(BatchReasoning2),
       Item(BatchReasoning3),
       Item(BatchReasoning4)])
  }

  // The texts of `_generate_chatty_action_plan`, horizon by horizon.
  const ChattyImmediate1: string := "Review application code calling SQL {executions} times"
  const ChattyImmediate2: string := "Check for missing bind variables causing cursor flooding"
  const ChattyImmediate3: string := "CRITICAL: {executions} executions - investigate application loop"
  const ChattyShortTerm1: string := "Evaluate result cache applicability for this query"
  const ChattyShortTerm2: string := "Review connection pooling efficiency"
  const ChattyShortTerm3: string := "Monitor cursor cache hit ratio for SQL_ID {sql_id}"
  const ChattyShortTerm4: string := "Consider client-side caching (query runs in {avg_exec_ms}ms)"
  const ChattyMediumTerm1: string := "Implement application-level result caching"
  const ChattyMediumTerm2: string := "Review micro-batching opportunities"
  const ChattyMediumTerm3: string := "Analyze {executions} executions for consolidation potential"
  const ChattyLongTerm1: string := "Architect caching layer (Redis/Memcached) for high-frequency queries"
  const ChattyLongTerm2: string := "Review API design for query consolidation"
  const ChattyLongTerm3: string := "Establish execution frequency monitoring alerts"
  const ChattyReasoning1: string := "Chatty pattern: {executions} executions @ {avg_exec_ms}ms each"
  const ChattyReasoning2: string := "Query is FAST - no SQL tuning needed"
  const ChattyReasoning3: string := "Index creation NOT recommended: query already optimized"
  const ChattyReasoning4: string := "Focus on APPLICATION behavior, not DATABASE tuning"

  /** `_generate_chatty_action_plan`. */
  function ChattyActionPlan(s: Signals): (p: ActionPlan)
    ensures p.category == ChattySql && p.sqlId == s.sqlId && p.fingerprint == SnapshotOf(s)
    ensures Complete(p)
    ensures |p.immediate| == 2 + (if s.executions > 5000 then 1 else 0)
    ensures |p.shortTerm| == 3 + (if s.avgExecTime < 0.01 then 1 else 0)
    ensures EscalatesAsDesigned(p, s)
  {
    ActionPlan(s.sqlId, ChattySql, SnapshotOf(s),
      Escalated(ChattyImmediate1,
        ChattyImmediate2,
        If(s.executions > 5000, PlanItem(Critical, ChattyImmediate3)),
        []),
      [Item(ChattyShortTerm1),
       Item(ChattyShortTerm2),
       Item(ChattyShortTerm3)]
      + If(s.avgExecTime < 0.01, Item(ChattyShortTerm4)),
      [Item(ChattyMediumTerm1),
       Item(ChattyMediumTerm2),
       Item(ChattyMediumTerm3)],
      [Item(ChattyLongTerm1),
       Item(ChattyLongTerm2),
       Item(ChattyLongTerm3)],
      [Item(ChattyReasoning1),
       Item(ChattyReasoning2),
       Item(ChattyReasoning3),
       Item(ChattyReasoning4)])
  }

  // The texts of `_generate_io_bound_action_plan`, horizon by horizon.
  const IoBoundImmediate1: string := "Analyze execution plan for full table scans (IO wait: {io_wait_pct}%)"
  const IoBoundImmediate2: string := "Check physical read statistics for SQL_ID {sql_id}"
  const IoBoundImmediate3: string := "CRITICAL: {io_wait_pct}% IO wait - likely missing index"
  const IoBoundShortTerm1: string := "Run SQL Access Advisor for index recommendations"
  const IoBoundShortTerm2: string := "Analyze predicate selectivity in WHERE clause"
  const IoBoundShortTerm3: string := "Check buffer cache hit ratio for accessed objects"
  const IoBoundShortTerm4: string := "Consider partitioning strategy (query taking {total_elapsed}s)"
  const IoBoundMediumTerm1: string := "Implement index recommendations after testing"
  const IoBoundMediumTerm2: string := "Consider table reorganization if heavily fragmented"
  const IoBoundMediumTerm3: string := "Evaluate parallel query execution for large scans"
  const IoBoundLongTerm1: string := "Establish IO performance baselines"
  const IoBoundLongTerm2: string := "Review storage configuration for hot tablespaces"
  const IoBoundLongTerm3: string := "Consider SSD migration for high-IO objects"
  const IoBoundReasoning1: string := "IO-bound workload: {io_wait_pct}% IO wait, {cpu_pct}% CPU"
  const IoBoundReasoning2: string := "Index optimization is PRIMARY focus"
  const IoBoundReasoning3: string := "CPU tuning NOT applicable: bottleneck is data access"
  const IoBoundReasoning4: string := "Total elapsed {total_elapsed}s dominated by physical reads"

  /** `_generate_io_bound_action_plan`. */
  function IoBoundActionPlan(s: Signals): (p: ActionPlan)
    ensures p.category == IoBoundSql && p.sqlId == s.sqlId && p.fingerprint == SnapshotOf(s)
    ensures Complete(p)
    ensures |p.immediate| == 2 + (if s.ioWaitPct > 90.0 then 1 else 0)
    ensures |p.shortTerm| == 3 + (if s.totalElapsed > 50.0 then 1 else 0)
    ensures EscalatesAsDesigned(p, s)
  {
    ActionPlan(s.sqlId, IoBoundSql, SnapshotOf(s),
      Escalated(IoBoundImmediate1,
        IoBoundImmediate2,
        If(s.ioWaitPct > 90.0, PlanItem(Critical, IoBoundImmediate3)),
        []),
      [Item(IoBoundShortTerm1),
       Item(IoBoundShortTerm2),
       Item(IoBoundShortTerm3)]
      + If(s.totalElapsed > 50.0, Item(IoBoundShortTerm4)),
      [Item(IoBoundMediumTerm1),
       Item(IoBoundMediumTerm2),
       Item(IoBoundMediumTerm3)],
      [Item(IoBoundLongTerm1),
       Item(IoBoundLongTerm2),
       Item(IoBoundLongTerm3)],
      [Item(IoBoundReasoning1),
       Item(IoBoundReasoning2),
       Item(IoBoundReasoning3),
       Item(IoBoundReasoning4)])
  }

  // The texts of `_generate_cpu_bound_action_plan`, horizon by horizon.
  const CpuBoundImmediate1: string := "Analyze execution plan for inefficient joins (CPU: {cpu_pct}%)"
  const CpuBoundImmediate2: string := "Check for HASH JOIN vs NESTED LOOP decisions"
  const CpuBoundImmediate3: string := "CRITICAL: {cpu_pct}% CPU - likely cartesian product or inefficient join"
  const CpuBoundImmediate4: string := "HIGH CPU consumption: {cpu_time}s - review computational complexity"
  const CpuBoundShortTerm1: string := "Run SQL Tuning Advisor for alternative plans"
  const CpuBoundShortTerm2: string := "Analyze join order and method optimization"
  const CpuBoundShortTerm3: string := "Review predicate pushdown opportunities"
  const CpuBoundMediumTerm1: string := "Consider SQL rewrite for complex subqueries"
  const CpuBoundMediumTerm2: string := "Evaluate materialized view for repeated computations"
  const CpuBoundMediumTerm3: string := "Test optimizer hints for join method override"
  const CpuBoundLongTerm1: string := "Review query design patterns with development team"
  const CpuBoundLongTerm2: string := "Establish CPU usage monitoring for this SQL"
  const CpuBoundLongTerm3: string := "Consider Resource Manager for CPU-bound queries"
  const CpuBoundReasoning1: string := "CPU-bound workload: {cpu_pct}% CPU, {io_wait_pct}% IO"
  const CpuBoundReasoning2: string := "Join method optimization is PRIMARY focus"
  const CpuBoundReasoning3: string := "Index-only fixes NOT applicable: issue is computation"
  const CpuBoundReasoning4: string := "CPU time {cpu_time}s indicates algorithmic inefficiency"

  /** `_generate_cpu_bound_action_plan`. */
  function CpuBoundActionPlan(s: Signals): (p: ActionPlan)
    ensures p.category == CpuBoundSql && p.sqlId == s.sqlId && p.fingerprint == SnapshotOf(s)
    ensures Complete(p)
    ensures |p.immediate| == 2 + (if s.cpuPct > 90.0 then 1 else 0) + (if s.cpuTime > 100.0 then 1 else 0)
    ensures EscalatesAsDesigned(p, s)
  {
    ActionPlan(s.sqlId, CpuBoundSql, SnapshotOf(s),
      Escalated(CpuBoundImmediate1,
        CpuBoundImmediate2,
        If(s.cpuPct > 90.0,
           PlanItem(Critical, CpuBoundImmediate3)),
        If(s.cpuTime > 100.0,
           PlanItem(HighCpuConsumption, CpuBoundImmediate4))),
      [Item(CpuBoundShortTerm1),
       Item(CpuBoundShortTerm2),
       Item(CpuBoundShortTerm3)],
      [Item(CpuBoundMediumTerm1),
       Item(CpuBoundMediumTerm2),
       Item(CpuBoundMediumTerm3)],
      [Item(CpuBoundLongTerm1),
       Item(CpuBoundLongTerm2),
       Item(CpuBoundLongTerm3)],
      [Item(CpuBoundReasoning1),
       Item(CpuBoundReasoning2),
       Item(CpuBoundReasoning3),
       Item(CpuBoundReasoning4)])
  }

  // The texts of `_generate_mixed_action_plan`, horizon by horizon.
  const MixedImmediate1: string := "Run comprehensive execution plan analysis"
  const MixedImmediate2: string := "Capture both IO ({io_wait_pct}%) and CPU ({cpu_pct}%) statistics"
  const MixedShortTerm1: string := "Analyze which operations contribute to IO vs CPU"
  const MixedShortTerm2: string := "Run both SQL Access Advisor and SQL Tuning Advisor"
  const MixedShortTerm3: string := "Identify primary bottleneck through detailed plan inspection"
  const MixedMediumTerm1: string := "Address primary bottleneck first based on analysis"
  const MixedMediumTerm2: string := "Re-test after initial optimization"
  const MixedMediumTerm3: string := "Iterate on secondary bottleneck if needed"
  const MixedLongTerm1: string := "Establish baseline for both IO and CPU metrics"
  const MixedLongTerm2: string := "Create monitoring for metric shift detection"
  const MixedLongTerm3: string := "Document optimization strategy for similar queries"
  const MixedReasoning1: string := "Mixed profile: CPU={cpu_pct}%, IO={io_wait_pct}%"
  const MixedReasoning2: string := "Neither metric is dominant - comprehensive analysis required"
  const MixedReasoning3: string := "Execution pattern: {executions} @ {avg_exec_time}s each"
  const MixedReasoning4: string := "Optimization strategy depends on detailed plan analysis"

  /** `_generate_mixed_action_plan`: fixed lists, nothing escalated. */
  function MixedActionPlan(s: Signals): (p: ActionPlan)
    ensures p.category == MixedProfileSql && p.sqlId == s.sqlId && p.fingerprint == SnapshotOf(s)
    ensures Complete(p)
    ensures |p.immediate| == 2
    ensures EscalatesAsDesigned(p, s)
  {
    ActionPlan(s.sqlId, MixedProfileSql, SnapshotOf(s),
      Escalated(MixedImmediate1,
        MixedImmediate2, [], []),
      [Item(MixedShortTerm1),
       Item(MixedShortTerm2),
       Item(MixedShortTerm3)],
      [Item(MixedMediumTerm1),
       Item(MixedMediumTerm2),
       Item(MixedMediumTerm3)],
      [Item(MixedLongTerm1),
       Item(MixedLongTerm2),
       Item(MixedLongTerm3)],
      [Item(MixedReasoning1),
       Item(MixedReasoning2),
       Item(MixedReasoning3),
       Item(MixedReasoning4)])
  }

  // The texts of `_generate_low_priority_action_plan`, horizon by horizon.
  const LowPriorityImmediate1: string := "No immediate action required"
  const LowPriorityImmediate2: string := "SQL performance is within acceptable parameters"
  const LowPriorityShortTerm1: string := "Establish performance baseline for future comparison"
  const LowPriorityShortTerm2: string := "Add to standard monitoring rotation"
  const LowPriorityMediumTerm1: string := "Re-evaluate if workload characteristics change"
  const LowPriorityMediumTerm2: string := "Monitor for metric degradation over time"
  const LowPriorityLongTerm1: string := "Include in periodic AWR analysis"
  const LowPriorityLongTerm2: string := "No proactive tuning justified at this time"
  const LowPriorityReasoning1: string := "Low priority: avg_exec={avg_exec_time}s, execs={executions}"
  const LowPriorityReasoning2: string := "Metrics within acceptable range: CPU={cpu_pct}%, IO={io_wait_pct}%"
  const LowPriorityReasoning3: string := "All aggressive tuning actions are BLOCKED"
  const LowPriorityReasoning4: string := "Continue monitoring - no intervention needed"

  /** `_generate_low_priority_action_plan`: two items per horizon, nothing escalated. */
  function LowPriorityActionPlan(s: Signals): (p: ActionPlan)
    ensures p.category == LowPriority && p.sqlId == s.sqlId && p.fingerprint == SnapshotOf(s)
    ensures Complete(p)
    ensures |p.immediate| == 2
    ensures EscalatesAsDesigned(p, s)
  {
    ActionPlan(s.sqlId, LowPriority, SnapshotOf(s),
      Escalated(LowPriorityImmediate1,
        LowPriorityImmediate2, [], []),
      [Item(LowPriorityShortTerm1),
       Item(LowPriorityShortTerm2)],
      [Item(LowPriorityMediumTerm1),
       Item(LowPriorityMediumTerm2)],
      [Item(LowPriorityLongTerm1),
       Item(LowPriorityLongTerm2)],
      [Item(LowPriorityReasoning1),
       Item(LowPriorityReasoning2),
       Item(LowPriorityReasoning3),
       Item(LowPriorityReasoning4)])
  }

  /**
   * `generate_action_plan`: the plan of the decision's category, built from
   * the decision's signals. Every horizon has at least two items and there
   * are four lines of reasoning.
   */
  function GenerateActionPlan(d: Decision): (p: ActionPlan)
    ensures p.category == d.category && p.sqlId == d.signals.sqlId
    ensures p.fingerprint == SnapshotOf(d.signals)
    ensures Complete(p)
    ensures EscalatesAsDesigned(p, d.signals)
  {
    var s := d.signals;
    if d.category == BatchSql then BatchActionPlan(s)
    else if d.category == ChattySql then ChattyActionPlan(s)
    else if d.category == IoBoundSql then IoBoundActionPlan(s)
    else if d.category == CpuBoundSql then CpuBoundActionPlan(s)
    else if d.category == MixedProfileSql then MixedActionPlan(s)
    else LowPriorityActionPlan(s)
  }

  /** Only the category's own thresholds escalate an immediate item, and each marker has one trigger. */
  lemma EscalationTriggers(c: Category, s: Signals)
    ensures Urgent in Escalation(c, s) <==> c == BatchSql && s.ioWaitPct > 80.0
    ensures Critical in Escalation(c, s) <==>
              (c == ChattySql && s.executions > 5000)
              || (c == IoBoundSql && s.ioWaitPct > 90.0)
              || (c == CpuBoundSql && s.cpuPct > 90.0)
    ensures HighCpuConsumption in Escalation(c, s) <==> c == CpuBoundSql && s.cpuTime > 100.0
  {
  }

  // ---------------------------------------------------------------------
  // The generation log
  // ---------------------------------------------------------------------

  /** The four signal values the log records (the fingerprint string renders the same four). */
  datatype SignalSnapshot = SignalSnapshot(ioWaitPct: real, cpuPct: real, executions: int, avgExecTime: real)

  function SnapshotOf(s: Signals): SignalSnapshot
  {
    SignalSnapshot(s.ioWaitPct, s.cpuPct, s.executions, s.avgExecTime)
  }

  datatype LogEntry = LogEntry(
    sqlId: string,
    category: Category,
    commandsGenerated: nat,
    actions: seq<string>,
    signals: SignalSnapshot)

  function ActionNames(cs: seq<Command>): (r: seq<string>)
    ensures |r| == |cs|
    ensures forall i :: 0 <= i < |cs| ==> r[i] == ActionName(cs[i].action)
  {
    if |cs| == 0 then [] else [ActionName(cs[0].action)] + ActionNames(cs[1..])
  }

  /** The entry `_log_generation` appends. */
  function LogEntryOf(d: Decision, generated: seq<Command>): LogEntry
  {
    LogEntry(d.sqlId, d.category, |generated|, ActionNames(generated), SnapshotOf(d.signals))
  }

  class DynamicSqlGenerator {
    var generationLog: seq<LogEntry>

    constructor()
      ensures generationLog == []
    {
      generationLog := [];
    }

    /** `_log_generation`: one entry at the end, nothing else touched. */
    method LogGeneration(d: Decision, generated: seq<Command>)
      modifies this
      ensures generationLog == old(generationLog) + [LogEntryOf(d, generated)]
    {
      generationLog := generationLog + [LogEntryOf(d, generated)];
    }

    /**
     * `generate_all`: the category's command list, logged once. The log
     * grows by exactly one entry counting the returned commands, and the
     * earlier entries stay as they were.
     */
    method GenerateAll(d: Decision) returns (generated: seq<Command>)
      modifies this
      ensures generated == CommandsFor(d)
      ensures generationLog == old(generationLog) + [LogEntryOf(d, generated)]
      ensures |generationLog| == |old(generationLog)| + 1
      ensures generationLog[..|old(generationLog)|] == old(generationLog)
      ensures generationLog[|generationLog| - 1].commandsGenerated == |generated|
    {
      generated := [];
      if d.category == IoBoundSql {
        generated := generated + IoBoundCommands(d);
      } else if d.category == CpuBoundSql {
        generated := generated + CpuBoundCommands(d);
      } else if d.category == ChattySql {
        generated := generated + ChattyCommands(d);
      } else if d.category == BatchSql {
        generated := generated + BatchCommands(d);
      } else if d.category == MixedProfileSql {
        generated := generated + MixedProfileCommands(d.signals);
      } else if d.category == LowPriority {
        generated := generated + MonitoringCommands(d.signals);
      }
      LogGeneration(d, generated);
    }
  }

}
