/**
 * Time-window logic: the authoritative analysis window built from snapshot
 * metadata (half-hour display rounding, cross-midnight shift), the CPU
 * percentage formula, ASH high-load detection with the merging of adjacent
 * periods, the merging of AWR peak periods, and the selection of which
 * result blocks are shown.
 *
 * Instants are whole seconds since the epoch; the sub-second part of a
 * timestamp is not modelled.
 */
module TimeWindow {
  import opened Common
  import opened SnapshotMetadata

  // ---------------------------------------------------------------------
  // Rounding for display
  // ---------------------------------------------------------------------

  const HalfHour: int := 1800

  /** An instant with its seconds dropped. */
  function MinuteFloor(t: int): int
  {
    t - t % 60
  }

  /**
   * `_round_time_to_interval(dt, 30)`: the minute becomes `(m + 15) // 30 * 30`,
   * sixty rolls into the next hour, and the seconds are zeroed. That is the
   * half-hour mark nearest to the minute, a quarter past and a quarter to
   * rounding up.
   */
  function RoundToHalfHour(t: int): (r: int)
    ensures r % HalfHour == 0
    ensures -900 < r - MinuteFloor(t) <= 900
  {
    var q, u := t / 3600, t % 3600;
    var minute, sec := u / 60, u % 60;
    HourParts(t);
    var rm := (minute + 15) / 30 * 30;
    if rm >= 60 then
      HalfHourMultiple(2 * q + 2);
      3600 * q + 3600
    else
      HalfHourMultiple(2 * q + rm / 30);
      3600 * q + rm * 60
  }

  /** An instant as its hour, its minute in the hour and its second in the minute. */
  lemma HourParts(t: int)
    ensures t == 3600 * (t / 3600) + 60 * ((t % 3600) / 60) + (t % 3600) % 60
    ensures 0 <= (t % 3600) / 60 < 60
    ensures t % 60 == (t % 3600) % 60
  {
    var q, minute, sec := t / 3600, (t % 3600) / 60, (t % 3600) % 60;
    assert t == 60 * (60 * q + minute) + sec;
  }

  lemma HalfHourMultiple(k: int)
    ensures (HalfHour * k) % HalfHour == 0
  {
  }

  /** The two conditions above single out one instant. */
  lemma {:induction false} HalfHourMarkUnique(t: int, a: int, b: int)
    requires a % HalfHour == 0 && -900 < a - MinuteFloor(t) <= 900
    requires b % HalfHour == 0 && -900 < b - MinuteFloor(t) <= 900
    ensures a == b
  {
    var ka, kb := a / HalfHour, b / HalfHour;
    assert a == HalfHour * ka && b == HalfHour * kb;
    assert -1800 < a - b < 1800;
    assert -1 < ka - kb < 1;
  }

  /** Rounding an already rounded instant changes nothing. */
  lemma {:induction false} RoundToHalfHourIdempotent(t: int)
    ensures RoundToHalfHour(RoundToHalfHour(t)) == RoundToHalfHour(t)
  {
    var r := RoundToHalfHour(t);
    HalfHourMarkOnMinute(r);
    HalfHourMarkUnique(r, r, RoundToHalfHour(r));
  }

  /** A half-hour mark has no seconds to drop. */
  lemma HalfHourMarkOnMinute(r: int)
    requires r % HalfHour == 0
    ensures MinuteFloor(r) == r
  {
    assert r == 60 * (30 * (r / HalfHour));
  }

  // ---------------------------------------------------------------------
  // CPU percentage
  // ---------------------------------------------------------------------

  const DefaultCores: int := 8

  /**
   * `calculate_cpu_percentage`: DB CPU over elapsed time times cores, in
   * percent, capped at 100; 0 for a missing or non-positive input; 8 cores
   * when the count is missing or not positive.
   */
  function CpuPercentage(dbCpu: Option<real>, elapsed: Option<real>, cores: Option<int>): (r: real)
    ensures 0.0 <= r <= 100.0
    ensures dbCpu.None? || dbCpu.value <= 0.0 || elapsed.None? || elapsed.value <= 0.0 ==> r == 0.0
    ensures dbCpu.Some? && dbCpu.value > 0.0 && elapsed.Some? && elapsed.value > 0.0 ==>
              var n := if cores.Some? && cores.value > 0 then cores.value else DefaultCores;
              r == Min(100.0, dbCpu.value * 100.0 / (elapsed.value * n as real))
  {
    var n := if cores.Some? && cores.value > 0 then cores.value else DefaultCores;
    if dbCpu.None? || dbCpu.value <= 0.0 then 0.0
    else if elapsed.None? || elapsed.value <= 0.0 then 0.0
    else
      var pct := dbCpu.value / (elapsed.value * n as real) * 100.0;
      assert pct == dbCpu.value * 100.0 / (elapsed.value * n as real);
      assert pct > 0.0;
      Min(100.0, pct)
  }

  // ---------------------------------------------------------------------
  // The analysis window
  // ---------------------------------------------------------------------

  /** `None` for the display is the "--" placeholder. */
  datatype AnalysisWindow = AnalysisWindow(
    beginTime: Option<int>,
    endTime: Option<int>,
    display: Option<(int, int)>,
    elapsedSeconds: Option<real>,
    dbCpuSeconds: Option<real>,
    cpuCores: Option<int>)

  const NoWindow: AnalysisWindow := AnalysisWindow(None, None, None, None, None, None)

  /** `get_analysis_window_from_metadata`. */
  function WindowFromMetadata(meta: Option<Metadata>): (w: AnalysisWindow)
    ensures w.display.None? <==>
              meta.None? || !meta.value.parseSuccess
              || meta.value.beginTime.None? || meta.value.endTime.None?
    ensures w.display.None? ==> w == NoWindow
    ensures w.display.Some? ==>
              var b := ToSeconds(meta.value.beginTime.value);
              var e := ToSeconds(meta.value.endTime.value);
              // an end before the begin belongs to the next day
              && w.beginTime == Some(b)
              && w.endTime == Some(if e < b then e + SecondsPerDay else e)
              // both ends are shown rounded to the nearest half hour
              && w.display.value == (RoundToHalfHour(b), RoundToHalfHour(w.endTime.value))
              && w.dbCpuSeconds == meta.value.dbCpuSeconds
              && w.cpuCores == meta.value.cpuCores
    ensures w.display.Some? && meta.value.elapsedSeconds.Some? ==>
              w.elapsedSeconds == meta.value.elapsedSeconds
    // the computed elapsed time is never negative for ends at most a day early
    ensures w.display.Some? && meta.value.elapsedSeconds.None? ==>
              w.elapsedSeconds.Some?
              && (w.elapsedSeconds.value >= 0.0 <==>
                  ToSeconds(meta.value.endTime.value) - ToSeconds(meta.value.beginTime.value) >= -SecondsPerDay)
  {
    if meta.None? || !meta.value.parseSuccess then NoWindow
    else if meta.value.beginTime.None? || meta.value.endTime.None? then NoWindow
    else
      var m := meta.value;
      var b := ToSeconds(m.beginTime.value);
      var e0 := ToSeconds(m.endTime.value);
      var e := if e0 < b then e0 + SecondsPerDay else e0;
      var elapsed := if m.elapsedSeconds.Some? then m.elapsedSeconds.value else (e - b) as real;
      AnalysisWindow(Some(b), Some(e), Some((RoundToHalfHour(b), RoundToHalfHour(e))),
        Some(elapsed), m.dbCpuSeconds, m.cpuCores)
  }

  // ---------------------------------------------------------------------
  // ASH high-load detection
  // ---------------------------------------------------------------------

  datatype Severity = Low | Medium | High

  datatype LoadType = CpuDominated | WaitEventLoad | DatabaseActivity

  datatype Reason = CriticalAas | HighAas | CriticalCpu | HighCpu | WaitDominated | HighSessionCount

  /** A period's reason: the rules that fired, or the "Sustained ..." summary after a merge. */
  datatype AshReason = Detected(rules: seq<Reason>) | Sustained

  /** One aggregated ASH sample window. */
  datatype AshPoint = AshPoint(
    start: int, end: int, durationMin: real,
    totalSessions: int, cpuSessions: int, waitSessions: int,
    aas: real, cpuPct: real)

  datatype AshPeriod = AshPeriod(
    start: int, end: int, durationMin: real,
    totalSessions: int, cpuSessions: int, waitSessions: int,
    aas: real, cpuPct: real,
    severity: Severity, loadType: LoadType, reason: AshReason)

  const AasHigh: real := 3.0
  const AasCritical: real := 6.0
  const CpuHigh: real := 75.0
  const CpuCritical: real := 90.0
  const MinDurationMinutes: real := 10.0

  /** The severity a rule leaves behind: it raises LOW to MEDIUM and keeps anything higher. */
  function AtLeastMedium(s: Severity): Severity
  {
    if s == Low then Medium else s
  }

  /** The rules of one sample window, applied in order. */
  function PointPeriod(p: AshPoint): (r: Option<AshPeriod>)
    ensures p.durationMin < MinDurationMinutes ==> r.None?
    ensures r.Some? ==> r.value.severity != Low && r.value.reason.Detected? && |r.value.reason.rules| > 0
    ensures r.Some? ==> r.value.start == p.start && r.value.end == p.end
                        && r.value.durationMin == p.durationMin && r.value.durationMin >= MinDurationMinutes
    // HIGH exactly for critical AAS, high AAS with high CPU, or critical CPU with five sessions
    ensures r.Some? ==>
              (r.value.severity == High <==>
                 p.aas >= AasCritical || (p.aas >= AasHigh && p.cpuPct >= CpuHigh)
                 || (p.cpuPct >= CpuCritical && p.totalSessions >= 5))
    // a long enough window is reported exactly when some rule fires
    ensures p.durationMin >= MinDurationMinutes ==>
              (r.Some? <==>
                 p.aas >= AasHigh || (p.cpuPct >= CpuHigh && p.totalSessions >= 3)
                 || (p.waitSessions >= 5 && p.waitSessions > p.cpuSessions) || p.totalSessions >= 10)
  {
    if p.durationMin < MinDurationMinutes then None
    else
      // AAS rule
      var (s1, r1) :=
        if p.aas >= AasCritical then (High, [CriticalAas])
        else if p.aas >= AasHigh then (if p.cpuPct >= CpuHigh then High else Medium, [HighAas])
        else (Low, []);
      // CPU rule
      var (s2, r2) :=
        if p.cpuPct >= CpuCritical && p.totalSessions >= 5 then (High, r1 + [CriticalCpu])
        else if p.cpuPct >= CpuHigh && p.totalSessions >= 3 then (AtLeastMedium(s1), r1 + [HighCpu])
        else (s1, r1);
      // wait rule
      var (s3, r3) :=
        if p.waitSessions >= 5 && p.waitSessions > p.cpuSessions then (AtLeastMedium(s2), r2 + [WaitDominated])
        else (s2, r2);
      // session-count rule
      var (s4, r4) :=
        if p.totalSessions >= 10 && p.durationMin >= MinDurationMinutes then (AtLeastMedium(s3), r3 + [HighSessionCount])
        else (s3, r3);
      if |r4| == 0 then None
      else
        var loadType :=
          if p.cpuPct >= 70.0 then CpuDominated
          else if p.waitSessions > p.cpuSessions && p.waitSessions >= 3 then WaitEventLoad
          else DatabaseActivity;
        Some(AshPeriod(p.start, p.end, p.durationMin, p.totalSessions, p.cpuSessions, p.waitSessions,
          p.aas, p.cpuPct, s4, loadType, Detected(r4)))
  }

  /** The periods the rules report, in input order, before merging. */
  function DetectedPeriods(ps: seq<AshPoint>): (r: seq<AshPeriod>)
    ensures |r| <= |ps|
    ensures forall k :: 0 <= k < |r| ==> r[k].severity != Low && r[k].durationMin >= MinDurationMinutes
  {
    if |ps| == 0 then []
    else
      var init := DetectedPeriods(ps[..|ps| - 1]);
      match PointPeriod(ps[|ps| - 1]) {
        case None => init
        case Some(q) => init + [q]
      }
  }

  function Duration(p: AshPeriod): real { p.durationMin }

  const AshMergeGapSeconds: int := 300

  /** Two adjacent ASH periods as one: later end, summed duration, peak figures, highest severity. */
  function FuseAsh(c: AshPeriod, n: AshPeriod): (f: AshPeriod)
    ensures f.start == c.start && f.end == n.end
    ensures f.durationMin == c.durationMin + n.durationMin
    ensures f.aas == Max(c.aas, n.aas) && f.cpuPct == Max(c.cpuPct, n.cpuPct)
    ensures f.totalSessions == MaxInt(c.totalSessions, n.totalSessions)
    ensures f.severity == High <==> c.severity == High || n.severity == High
    ensures f.severity.Low? <==> c.severity.Low? && n.severity.Low?
  {
    var severity :=
      if n.severity == High || c.severity == High then High
      else if n.severity == Medium || c.severity == Medium then Medium
      else Low;
    AshPeriod(c.start, n.end, c.durationMin + n.durationMin,
      MaxInt(c.totalSessions, n.totalSessions), c.cpuSessions, c.waitSessions,
      Max(c.aas, n.aas), Max(c.cpuPct, n.cpuPct), severity, c.loadType, Sustained)
  }

  predicate NoLowSeverity(ps: seq<AshPeriod>)
  {
    forall k :: 0 <= k < |ps| ==> ps[k].severity != Low
  }

  /** Consecutive periods are more than `gap` seconds apart. */
  predicate AshSeparated(ps: seq<AshPeriod>, gap: int)
  {
    forall k :: 0 <= k < |ps| - 1 ==> ps[k + 1].start - ps[k].end > gap
  }

  lemma SumOfPush<T>(s: seq<T>, x: T, f: T -> real)
    ensures SumOf(s + [x], f) == SumOf(s, f) + f(x)
  {
    assert (s + [x])[..|s|] == s;
  }

  /**
   * The left-to-right merge that starts from `cur`: each next period is
   * fused into the running one when it starts at most five minutes after
   * the running one ends, and otherwise the running one is closed.
   */
  function MergeAshFrom(cur: AshPeriod, rest: seq<AshPeriod>): seq<AshPeriod>
    decreases |rest|
  {
    if |rest| == 0 then [cur]
    else if rest[0].start - cur.end <= AshMergeGapSeconds then MergeAshFrom(FuseAsh(cur, rest[0]), rest[1..])
    else [cur] + MergeAshFrom(rest[0], rest[1..])
  }

  /** The merged ASH periods: inputs of at most one period are returned as they are. */
  function MergeAsh(ps: seq<AshPeriod>): seq<AshPeriod>
  {
    if |ps| <= 1 then ps else MergeAshFrom(ps[0], ps[1..])
  }

  /** The number of places where a period starts more than five minutes after the one before it ends. */
  function AshBreaksFrom(end: int, rest: seq<AshPeriod>): nat
    decreases |rest|
  {
    if |rest| == 0 then 0
    else (if rest[0].start - end > AshMergeGapSeconds then 1 else 0) + AshBreaksFrom(rest[0].end, rest[1..])
  }

  function AshBreaks(ps: seq<AshPeriod>): nat
  {
    if |ps| == 0 then 0 else AshBreaksFrom(ps[0].end, ps[1..])
  }

  lemma {:induction false} MergeAshFromCount(cur: AshPeriod, rest: seq<AshPeriod>)
    ensures |MergeAshFrom(cur, rest)| == 1 + AshBreaksFrom(cur.end, rest)
    decreases |rest|
  {
    if |rest| > 0 {
      if rest[0].start - cur.end <= AshMergeGapSeconds {
        MergeAshFromCount(FuseAsh(cur, rest[0]), rest[1..]);
      } else {
        MergeAshFromCount(rest[0], rest[1..]);
      }
    }
  }

  /**
   * Neighbours at most five minutes apart are fused and farther ones stay
   * apart: the merge yields one period more than there are gaps above five
   * minutes, since a fused period ends where its last input ends. In
   * particular, inputs with no such gap fuse into one period.
   */
  lemma {:induction false} MergeAshCount(ps: seq<AshPeriod>)
    ensures |MergeAsh(ps)| == if |ps| == 0 then 0 else 1 + AshBreaks(ps)
  {
    if |ps| > 1 {
      MergeAshFromCount(ps[0], ps[1..]);
    }
  }

  lemma {:induction false} MergeAshFromSeparated(cur: AshPeriod, rest: seq<AshPeriod>)
    requires AshSeparated([cur] + rest, AshMergeGapSeconds)
    ensures MergeAshFrom(cur, rest) == [cur] + rest
    decreases |rest|
  {
    if |rest| > 0 {
      var s := [cur] + rest;
      assert s[1] == rest[0];
      assert rest[1..] == s[2..];
      assert [rest[0]] + rest[1..] == s[1..];
      assert AshSeparated(s[1..], AshMergeGapSeconds) by {
        forall k | 0 <= k < |s[1..]| - 1 ensures s[1..][k + 1].start - s[1..][k].end > AshMergeGapSeconds {
          assert s[1..][k] == s[k + 1] && s[1..][k + 1] == s[k + 2];
        }
      }
      assert rest[0].start - cur.end > AshMergeGapSeconds by {
        assert s[0] == cur;
      }
      MergeAshFromSeparated(rest[0], rest[1..]);
      assert rest == [rest[0]] + rest[1..];
    }
  }

  /** Periods already more than five minutes apart are returned as they are. */
  lemma {:induction false} MergeAshSeparated(ps: seq<AshPeriod>)
    requires AshSeparated(ps, AshMergeGapSeconds)
    ensures MergeAsh(ps) == ps
  {
    if |ps| > 1 {
      assert ps == [ps[0]] + ps[1..];
      MergeAshFromSeparated(ps[0], ps[1..]);
    }
  }

  /** The merge keeps the first start and the last end and never adds periods. */
  lemma {:induction false} MergeAshFromSpan(cur: AshPeriod, rest: seq<AshPeriod>)
    ensures var r := MergeAshFrom(cur, rest);
            && 1 <= |r| <= 1 + |rest|
            && r[0].start == cur.start
            && r[|r| - 1].end == (if |rest| == 0 then cur.end else rest[|rest| - 1].end)
    decreases |rest|
  {
    if |rest| > 0 {
      var tail := rest[1..];
      assert |tail| > 0 ==> tail[|tail| - 1] == rest[|rest| - 1];
      if rest[0].start - cur.end <= AshMergeGapSeconds {
        MergeAshFromSpan(FuseAsh(cur, rest[0]), tail);
      } else {
        MergeAshFromSpan(rest[0], tail);
      }
    }
  }

  /** The merge keeps the total duration. */
  lemma {:induction false} MergeAshFromDuration(cur: AshPeriod, rest: seq<AshPeriod>)
    ensures SumOf(MergeAshFrom(cur, rest), Duration) == cur.durationMin + SumOf(rest, Duration)
    decreases |rest|
  {
    if |rest| == 0 {
      SumOfPush([], cur, Duration);
    } else {
      var tail := rest[1..];
      assert rest == [rest[0]] + tail;
      SumOfAppend([rest[0]], tail, Duration);
      SumOfPush([], rest[0], Duration);
      if rest[0].start - cur.end <= AshMergeGapSeconds {
        MergeAshFromDuration(FuseAsh(cur, rest[0]), tail);
      } else {
        MergeAshFromDuration(rest[0], tail);
        SumOfAppend([cur], MergeAshFrom(rest[0], tail), Duration);
        SumOfPush([], cur, Duration);
      }
    }
  }

  /** Merged periods are more than five minutes apart, and none is LOW when no input is. */
  lemma {:induction false} MergeAshFromSeparation(cur: AshPeriod, rest: seq<AshPeriod>)
    ensures AshSeparated(MergeAshFrom(cur, rest), AshMergeGapSeconds)
    ensures cur.severity != Low && NoLowSeverity(rest) ==> NoLowSeverity(MergeAshFrom(cur, rest))
    decreases |rest|
  {
    if |rest| > 0 {
      var tail := rest[1..];
      assert NoLowSeverity(rest) ==> NoLowSeverity(tail) by {
        forall k | 0 <= k < |tail| ensures tail[k] == rest[k + 1] { }
      }
      if rest[0].start - cur.end <= AshMergeGapSeconds {
        MergeAshFromSeparation(FuseAsh(cur, rest[0]), tail);
      } else {
        var t := MergeAshFrom(rest[0], tail);
        MergeAshFromSeparation(rest[0], tail);
        MergeAshFromSpan(rest[0], tail);
        var r := [cur] + t;
        forall k | 0 <= k < |r| - 1 ensures r[k + 1].start - r[k].end > AshMergeGapSeconds {
          if k > 0 {
            assert r[k] == t[k - 1] && r[k + 1] == t[k];
          }
        }
        forall k | 0 <= k < |r| && cur.severity != Low && NoLowSeverity(rest) ensures r[k].severity != Low {
          if k > 0 {
            assert r[k] == t[k - 1];
          }
        }
      }
    }
  }

  /** Starts and ends never go back in time from one period to the next, as when the samples are read in order. */
  predicate AshChronological(ps: seq<AshPeriod>)
  {
    forall k :: 0 <= k < |ps| - 1 ==> ps[k].start <= ps[k + 1].start && ps[k].end <= ps[k + 1].end
  }

  /** Some merged period spans `x`. */
  predicate AshCovers(ms: seq<AshPeriod>, x: AshPeriod)
  {
    exists k :: 0 <= k < |ms| && ms[k].start <= x.start && x.end <= ms[k].end
  }

  lemma ChronologicalTail(cur: AshPeriod, rest: seq<AshPeriod>)
    requires AshChronological([cur] + rest)
    ensures AshChronological(rest)
  {
    var all := [cur] + rest;
    forall k | 0 <= k < |rest| - 1 ensures rest[k].start <= rest[k + 1].start && rest[k].end <= rest[k + 1].end {
      assert rest[k] == all[k + 1] && rest[k + 1] == all[k + 2];
    }
  }

  lemma ChronologicalFuse(cur: AshPeriod, rest: seq<AshPeriod>)
    requires |rest| > 0 && AshChronological([cur] + rest)
    ensures AshChronological([FuseAsh(cur, rest[0])] + rest[1..])
  {
    var all := [cur] + rest;
    var fall := [FuseAsh(cur, rest[0])] + rest[1..];
    assert all[0] == cur && all[1] == rest[0];
    forall k | 0 <= k < |fall| - 1 ensures fall[k].start <= fall[k + 1].start && fall[k].end <= fall[k + 1].end {
      assert fall[k + 1] == all[k + 2];
      if k > 0 {
        assert fall[k] == all[k + 1];
      }
    }
  }

  /** What lies inside a covered period is covered too. */
  lemma CoversInside(ms: seq<AshPeriod>, outer: AshPeriod, x: AshPeriod)
    requires AshCovers(ms, outer) && outer.start <= x.start && x.end <= outer.end
    ensures AshCovers(ms, x)
  {
    var j :| 0 <= j < |ms| && ms[j].start <= outer.start && outer.end <= ms[j].end;
  }

  /** Putting a period in front keeps every cover. */
  lemma CoversCons(cur: AshPeriod, t: seq<AshPeriod>, x: AshPeriod)
    requires AshCovers(t, x)
    ensures AshCovers([cur] + t, x)
  {
    var j :| 0 <= j < |t| && t[j].start <= x.start && x.end <= t[j].end;
    assert ([cur] + t)[j + 1] == t[j];
  }

  /** On chronological input, the running period and every later one lie inside a merged period. */
  lemma {:induction false} MergeAshFromCovers(cur: AshPeriod, rest: seq<AshPeriod>)
    requires AshChronological([cur] + rest)
    ensures forall x :: x in [cur] + rest ==> AshCovers(MergeAshFrom(cur, rest), x)
    decreases |rest|
  {
    var all := [cur] + rest;
    if |rest| == 0 {
      assert AshCovers([cur], cur) by { assert [cur][0] == cur; }
    } else {
      var tail := rest[1..];
      assert all[0] == cur && all[1] == rest[0];
      assert rest == [rest[0]] + tail;
      if rest[0].start - cur.end <= AshMergeGapSeconds {
        var f := FuseAsh(cur, rest[0]);
        ChronologicalFuse(cur, rest);
        MergeAshFromCovers(f, tail);
        var ms := MergeAshFrom(f, tail);
        forall x | x in all ensures AshCovers(ms, x) {
          if x == cur || x == rest[0] {
            assert f in [f] + tail;
            CoversInside(ms, f, x);
          } else {
            assert x in [f] + tail;
          }
        }
      } else {
        ChronologicalTail(cur, rest);
        MergeAshFromCovers(rest[0], tail);
        var t := MergeAshFrom(rest[0], tail);
        forall x | x in all ensures AshCovers([cur] + t, x) {
          if x == cur {
            assert ([cur] + t)[0] == cur;
          } else {
            CoversCons(cur, t, x);
          }
        }
      }
    }
  }

  /** On chronological input every period lies inside one of the merged periods. */
  lemma {:induction false} MergeAshCovers(ps: seq<AshPeriod>)
    requires AshChronological(ps)
    ensures forall x :: x in ps ==> AshCovers(MergeAsh(ps), x)
  {
    if |ps| <= 1 {
      forall x | x in ps ensures AshCovers(ps, x) {
        assert ps[0] == x;
      }
    } else {
      assert ps == [ps[0]] + ps[1..];
      MergeAshFromCovers(ps[0], ps[1..]);
    }
  }

  /** No period ends before it starts. */
  predicate AshProper(ps: seq<AshPeriod>)
  {
    forall k :: 0 <= k < |ps| ==> ps[k].start <= ps[k].end
  }

  lemma {:induction false} MergeAshFromProper(cur: AshPeriod, rest: seq<AshPeriod>)
    requires AshChronological([cur] + rest) && cur.start <= cur.end && AshProper(rest)
    ensures AshProper(MergeAshFrom(cur, rest))
    decreases |rest|
  {
    if |rest| > 0 {
      var tail := rest[1..];
      assert ([cur] + rest)[0] == cur && ([cur] + rest)[1] == rest[0];
      assert AshProper(tail) by {
        forall k | 0 <= k < |tail| ensures tail[k] == rest[k + 1] { }
      }
      if rest[0].start - cur.end <= AshMergeGapSeconds {
        ChronologicalFuse(cur, rest);
        MergeAshFromProper(FuseAsh(cur, rest[0]), tail);
      } else {
        ChronologicalTail(cur, rest);
        assert rest == [rest[0]] + tail;
        MergeAshFromProper(rest[0], tail);
        var t := MergeAshFrom(rest[0], tail);
        forall k | 0 <= k < |[cur] + t| ensures ([cur] + t)[k].start <= ([cur] + t)[k].end {
          if k > 0 {
            assert ([cur] + t)[k] == t[k - 1];
          }
        }
      }
    }
  }

  lemma {:induction false} AshApartFrom(ms: seq<AshPeriod>, j: nat, k: nat)
    requires AshSeparated(ms, AshMergeGapSeconds) && AshProper(ms) && j < k < |ms|
    ensures ms[j].end < ms[k].start
    decreases k - j
  {
    if k > j + 1 {
      AshApartFrom(ms, j, k - 1);
    }
  }

  /**
   * On chronological input of proper periods, no input lies inside two
   * merged periods: with the covering lemma, each lies inside exactly one.
   */
  lemma {:induction false} MergeAshCoversOnce(ps: seq<AshPeriod>)
    requires AshChronological(ps) && AshProper(ps)
    ensures var r := MergeAsh(ps);
            forall x, j, k :: x in ps && 0 <= j < k < |r| ==>
              !(r[j].start <= x.start && x.end <= r[j].end && r[k].start <= x.start && x.end <= r[k].end)
  {
    var r := MergeAsh(ps);
    MergeAshProps(ps);
    if |ps| > 1 {
      assert ps == [ps[0]] + ps[1..];
      assert AshProper(ps[1..]) by {
        forall k | 0 <= k < |ps| - 1 ensures ps[1..][k] == ps[k + 1] { }
      }
      MergeAshFromProper(ps[0], ps[1..]);
    }
    forall x, j, k | x in ps && 0 <= j < k < |r|
      ensures !(r[j].start <= x.start && x.end <= r[j].end && r[k].start <= x.start && x.end <= r[k].end)
    {
      AshApartFrom(r, j, k);
    }
  }

  /** What the merge keeps, over all inputs. */
  lemma {:induction false} MergeAshProps(ps: seq<AshPeriod>)
    ensures var r := MergeAsh(ps);
            && |r| <= |ps|
            && (|ps| > 0 ==> |r| > 0 && r[0].start == ps[0].start && r[|r| - 1].end == ps[|ps| - 1].end)
            && SumOf(r, Duration) == SumOf(ps, Duration)
            && AshSeparated(r, AshMergeGapSeconds)
            && (NoLowSeverity(ps) ==> NoLowSeverity(r))
  {
    if |ps| > 1 {
      var rest := ps[1..];
      assert ps == [ps[0]] + rest;
      assert rest[|rest| - 1] == ps[|ps| - 1];
      MergeAshFromSpan(ps[0], rest);
      MergeAshFromDuration(ps[0], rest);
      SumOfAppend([ps[0]], rest, Duration);
      SumOfPush([], ps[0], Duration);
      MergeAshFromSeparation(ps[0], rest);
      assert NoLowSeverity(ps) ==> ps[0].severity != Low && NoLowSeverity(rest) by {
        forall k | 0 <= k < |rest| ensures rest[k] == ps[k + 1] { }
      }
    }
  }

  /** One step of the merge loop, seen through the specification. */
  lemma MergeAshFromStep(merged: seq<AshPeriod>, cur: AshPeriod, ps: seq<AshPeriod>, i: nat)
    requires i < |ps|
    ensures ps[i].start - cur.end <= AshMergeGapSeconds ==>
              merged + MergeAshFrom(cur, ps[i..]) == merged + MergeAshFrom(FuseAsh(cur, ps[i]), ps[i + 1..])
    ensures ps[i].start - cur.end > AshMergeGapSeconds ==>
              merged + MergeAshFrom(cur, ps[i..]) == (merged + [cur]) + MergeAshFrom(ps[i], ps[i + 1..])
  {
    assert ps[i..][0] == ps[i] && ps[i..][1..] == ps[i + 1..];
  }

  /** `_merge_continuous_ash_periods`: fuse each period into the previous one when the gap is at most five minutes. */
  method MergeContinuousAshPeriods(periods: seq<AshPeriod>) returns (merged: seq<AshPeriod>)
    ensures merged == MergeAsh(periods)
    ensures |periods| <= 1 ==> merged == periods
    ensures |merged| <= |periods|
    ensures |periods| > 0 ==>
              |merged| > 0 && merged[0].start == periods[0].start
              && merged[|merged| - 1].end == periods[|periods| - 1].end
    ensures SumOf(merged, Duration) == SumOf(periods, Duration)
    ensures AshSeparated(merged, AshMergeGapSeconds)
    ensures NoLowSeverity(periods) ==> NoLowSeverity(merged)
  {
    merged := FuseAshLoop(periods);
    MergeAshProps(periods);
  }

  /** The loop of `_merge_continuous_ash_periods`: one pass carrying the period being extended. */
  method FuseAshLoop(periods: seq<AshPeriod>) returns (merged: seq<AshPeriod>)
    ensures merged == MergeAsh(periods)
  {
    if |periods| <= 1 {
      return periods;
    }
    merged := [];
    var current := periods[0];
    var i := 1;
    while i < |periods|
      invariant 1 <= i <= |periods|
      invariant merged + MergeAshFrom(current, periods[i..]) == MergeAsh(periods)
    {
      var next := periods[i];
      MergeAshFromStep(merged, current, periods, i);
      if next.start - current.end <= AshMergeGapSeconds {
        current := FuseAsh(current, next);
      } else {
        merged := merged + [current];
        current := next;
      }
      i := i + 1;
    }
    assert periods[i..] == [];
    merged := merged + [current];
  }


  /**
   * `_detect_ash_high_load_periods`: apply the rules to each window, keep the
   * reported ones in order, then merge adjacent ones.
   */
  method DetectAshHighLoadPeriods(points: seq<AshPoint>) returns (periods: seq<AshPeriod>)
    ensures periods == MergeAsh(DetectedPeriods(points))
    ensures |points| == 0 ==> periods == []
    ensures |periods| <= |DetectedPeriods(points)|
    ensures |DetectedPeriods(points)| > 0 <==> |periods| > 0
    ensures NoLowSeverity(periods)
    ensures SumOf(periods, Duration) == SumOf(DetectedPeriods(points), Duration)
    ensures AshSeparated(periods, AshMergeGapSeconds)
  {
    if |points| == 0 {
      return [];
    }
    var detected: seq<AshPeriod> := [];
    var i := 0;
    while i < |points|
      invariant 0 <= i <= |points|
      invariant detected == DetectedPeriods(points[..i])
    {
      assert points[..i + 1][..i] == points[..i];
      var found := PointPeriod(points[i]);
      if found.Some? {
        detected := detected + [found.value];
      }
      i := i + 1;
    }
    assert points[..i] == points;
    if |detected| > 0 {
      periods := MergeContinuousAshPeriods(detected);
    } else {
      periods := detected;
    }
  }

  // ---------------------------------------------------------------------
  // AWR peak-period merging
  // ---------------------------------------------------------------------

  datatype CombinedReason = HighSessionActivity | HighElapsedTime | HighExecutions

  /** The reason an AWR period was reported with, or the one recomputed after a merge (empty: "Sustained high activity"). */
  datatype AwrReason = Reported(text: string) | Combined(labels: seq<CombinedReason>)

  datatype AwrPeriod = AwrPeriod(
    start: int, end: int, totalSessions: int, elapsedTime: real, executions: int, reason: AwrReason)

  const AwrMergeGapSeconds: int := 600

  function StartKey(p: AwrPeriod): real { p.start as real }
  function Elapsed(p: AwrPeriod): real { p.elapsedTime }
  function Executions(p: AwrPeriod): real { p.executions as real }

  function FuseAwr(last: AwrPeriod, p: AwrPeriod): (f: AwrPeriod)
    ensures f.start == last.start && f.end >= last.end && f.end >= p.end
    ensures f.elapsedTime == last.elapsedTime + p.elapsedTime
    ensures f.executions == last.executions + p.executions
    ensures f.totalSessions == MaxInt(last.totalSessions, p.totalSessions)
    ensures f.reason.Combined?
  {
    var sessions := MaxInt(last.totalSessions, p.totalSessions);
    var elapsed := last.elapsedTime + p.elapsedTime;
    var executions := last.executions + p.executions;
    var labels :=
      (if sessions > 50 then [HighSessionActivity] else [])
      + (if elapsed > 100.0 then [HighElapsedTime] else [])
      + (if executions > 500 then [HighExecutions] else []);
    AwrPeriod(last.start, if last.end >= p.end then last.end else p.end,
      sessions, elapsed, executions, Combined(labels))
  }

  /** Starts never decrease and consecutive periods are more than ten minutes apart. */
  predicate AwrSeparated(ps: seq<AwrPeriod>)
  {
    (forall k :: 0 <= k < |ps| - 1 ==> ps[k].start <= ps[k + 1].start)
    && (forall k :: 0 <= k < |ps| - 1 ==> ps[k + 1].start - ps[k].end > AwrMergeGapSeconds)
  }

  /** Every period is an input period or the result of a fusion. */
  predicate FromInputs(ms: seq<AwrPeriod>, periods: seq<AwrPeriod>)
  {
    forall k :: 0 <= k < |ms| ==> ms[k] in periods || ms[k].reason.Combined?
  }

  lemma AwrPush(ms: seq<AwrPeriod>, x: AwrPeriod, periods: seq<AwrPeriod>)
    requires AwrSeparated(ms) && FromInputs(ms, periods)
    requires x in periods || x.reason.Combined?
    requires ms != [] ==> ms[|ms| - 1].start <= x.start && x.start - ms[|ms| - 1].end > AwrMergeGapSeconds
    ensures AwrSeparated(ms + [x]) && FromInputs(ms + [x], periods)
    ensures SumOf(ms + [x], Elapsed) == SumOf(ms, Elapsed) + x.elapsedTime
    ensures SumOf(ms + [x], Executions) == SumOf(ms, Executions) + x.executions as real
  {
    SumOfPush(ms, x, Elapsed);
    SumOfPush(ms, x, Executions);
    var r := ms + [x];
    forall k | 0 <= k < |r| - 1
      ensures r[k].start <= r[k + 1].start && r[k + 1].start - r[k].end > AwrMergeGapSeconds
    {
      assert r[k] == ms[k];
      if k + 1 < |ms| {
        assert r[k + 1] == ms[k + 1];
      } else {
        assert r[k + 1] == x;
      }
    }
    forall k | 0 <= k < |r| ensures r[k] in periods || r[k].reason.Combined? {
      if k < |ms| {
        assert r[k] == ms[k];
      }
    }
  }

  lemma AwrReplaceLast(ms: seq<AwrPeriod>, p: AwrPeriod, periods: seq<AwrPeriod>)
    requires ms != [] && AwrSeparated(ms) && FromInputs(ms, periods)
    ensures var f := FuseAwr(ms[|ms| - 1], p);
            var ms' := ms[..|ms| - 1] + [f];
            AwrSeparated(ms') && FromInputs(ms', periods)
            && SumOf(ms', Elapsed) == SumOf(ms, Elapsed) + p.elapsedTime
            && SumOf(ms', Executions) == SumOf(ms, Executions) + p.executions as real
            && ms'[|ms'| - 1].start == ms[|ms| - 1].start
  {
    var init, last := ms[..|ms| - 1], ms[|ms| - 1];
    assert ms == init + [last];
    SumOfPush(init, last, Elapsed);
    SumOfPush(init, last, Executions);
    var f := FuseAwr(last, p);
    SumOfPush(init, f, Elapsed);
    SumOfPush(init, f, Executions);
    var ms' := init + [f];
    forall k | 0 <= k < |ms'| - 1 ensures ms'[k].start <= ms'[k + 1].start && ms'[k + 1].start - ms'[k].end > AwrMergeGapSeconds {
      assert ms'[k] == ms[k];
      if k + 1 < |ms'| - 1 {
        assert ms'[k + 1] == ms[k + 1];
      } else {
        assert ms'[k + 1].start == ms[k + 1].start && ms'[k + 1].end >= ms[k + 1].end;
      }
    }
  }

  lemma SortedByStart(periods: seq<AwrPeriod>)
    ensures var s := SortBy(periods, StartKey);
            && |s| == |periods|
            && (forall i, j :: 0 <= i < j < |s| ==> s[i].start <= s[j].start)
            && (forall x :: x in s ==> x in periods)
            && SumOf(s, Elapsed) == SumOf(periods, Elapsed)
            && SumOf(s, Executions) == SumOf(periods, Executions)
  {
    var s := SortBy(periods, StartKey);
    SortByProps(periods, StartKey, 0.0);
    SortByMembers(periods, StartKey);
    SumOfPermutation(s, periods, Elapsed);
    SumOfPermutation(s, periods, Executions);
    forall i, j | 0 <= i < j < |s| ensures s[i].start <= s[j].start {
      assert StartKey(s[i]) <= StartKey(s[j]);
    }
  }

  /** One step of the merge: fuse `p` into the last kept period when it starts at most ten minutes after that one ends. */
  function MergeAwrStep(ms: seq<AwrPeriod>, p: AwrPeriod): seq<AwrPeriod>
  {
    if |ms| == 0 then [p]
    else if p.start - ms[|ms| - 1].end <= AwrMergeGapSeconds then ms[..|ms| - 1] + [FuseAwr(ms[|ms| - 1], p)]
    else ms + [p]
  }

  /** The merge of periods already in start order, left to right. */
  function MergeAwrSorted(s: seq<AwrPeriod>): seq<AwrPeriod>
  {
    if |s| == 0 then [] else MergeAwrStep(MergeAwrSorted(s[..|s| - 1]), s[|s| - 1])
  }

  /** The merged AWR peak periods. */
  function MergeAwr(ps: seq<AwrPeriod>): seq<AwrPeriod>
  {
    MergeAwrSorted(SortBy(ps, StartKey))
  }

  predicate StartOrdered(s: seq<AwrPeriod>)
  {
    forall i, j :: 0 <= i < j < |s| ==> s[i].start <= s[j].start
  }

  /** Some merged period spans `x`. */
  predicate Covers(ms: seq<AwrPeriod>, x: AwrPeriod)
  {
    exists k :: 0 <= k < |ms| && ms[k].start <= x.start && x.end <= ms[k].end
  }

  lemma {:induction false} MergeAwrSortedLastStart(s: seq<AwrPeriod>)
    requires StartOrdered(s)
    ensures |MergeAwrSorted(s)| == 0 <==> |s| == 0
    ensures |s| > 0 ==> MergeAwrSorted(s)[0].start == s[0].start
    ensures |s| > 0 ==> MergeAwrSorted(s)[|MergeAwrSorted(s)| - 1].start <= s[|s| - 1].start
  {
    if |s| > 1 {
      var init := s[..|s| - 1];
      assert StartOrdered(init);
      MergeAwrSortedLastStart(init);
      assert s[|s| - 2].start <= s[|s| - 1].start;
    }
  }

  /** A period covered before a merge step is covered after it. */
  lemma CoversAfterStep(ms: seq<AwrPeriod>, p: AwrPeriod, x: AwrPeriod)
    requires Covers(ms, x)
    ensures Covers(MergeAwrStep(ms, p), x)
  {
    var r := MergeAwrStep(ms, p);
    var k :| 0 <= k < |ms| && ms[k].start <= x.start && x.end <= ms[k].end;
    var m := |ms| - 1;
    if p.start - ms[m].end <= AwrMergeGapSeconds && k == m {
      assert r[m] == FuseAwr(ms[m], p);
    } else {
      assert r[k] == ms[k];
    }
  }

  /** The period a merge step takes in is covered after it. */
  lemma CoversStepped(ms: seq<AwrPeriod>, p: AwrPeriod)
    requires |ms| > 0 ==> ms[|ms| - 1].start <= p.start
    ensures Covers(MergeAwrStep(ms, p), p)
  {
    var r := MergeAwrStep(ms, p);
    if |ms| > 0 && p.start - ms[|ms| - 1].end <= AwrMergeGapSeconds {
      assert r[|ms| - 1] == FuseAwr(ms[|ms| - 1], p);
    } else {
      assert r[|r| - 1] == p;
    }
  }

  /** Every input period, in start order, lies inside one of the merged periods. */
  lemma {:induction false} MergeAwrSortedCovers(s: seq<AwrPeriod>)
    requires StartOrdered(s)
    ensures forall x :: x in s ==> Covers(MergeAwrSorted(s), x)
  {
    if |s| > 0 {
      var init, p := s[..|s| - 1], s[|s| - 1];
      StartOrderedInit(s);
      MergeAwrSortedCovers(init);
      var ms := MergeAwrSorted(init);
      MergeAwrSortedLastStart(init);
      CoversStepped(ms, p);
      assert MergeAwrSorted(s) == MergeAwrStep(ms, p);
      forall x | x in s ensures Covers(MergeAwrStep(ms, p), x) {
        if x != p {
          InInit(s, x);
          CoversAfterStep(ms, p, x);
        }
      }
    }
  }

  lemma StartOrderedInit(s: seq<AwrPeriod>)
    requires StartOrdered(s) && |s| > 0
    ensures StartOrdered(s[..|s| - 1])
    ensures |s| > 1 ==> s[..|s| - 1][|s| - 2].start <= s[|s| - 1].start
  {
    var init := s[..|s| - 1];
    forall i, j | 0 <= i < j < |init| ensures init[i].start <= init[j].start {
      assert init[i] == s[i] && init[j] == s[j];
    }
  }

  lemma InInit<T>(s: seq<T>, x: T)
    requires x in s && |s| > 0 && x != s[|s| - 1]
    ensures x in s[..|s| - 1]
  {
    assert s == s[..|s| - 1] + [s[|s| - 1]];
  }

  /** The merge of periods in start order keeps the separation, the totals, and draws from the inputs. */
  lemma {:induction false} MergeAwrSortedProps(s: seq<AwrPeriod>, periods: seq<AwrPeriod>)
    requires StartOrdered(s) && forall x :: x in s ==> x in periods
    ensures var r := MergeAwrSorted(s);
            && |r| <= |s|
            && AwrSeparated(r) && FromInputs(r, periods)
            && SumOf(r, Elapsed) == SumOf(s, Elapsed)
            && SumOf(r, Executions) == SumOf(s, Executions)
  {
    if |s| > 0 {
      var init, p := s[..|s| - 1], s[|s| - 1];
      forall i, j | 0 <= i < j < |init| ensures init[i].start <= init[j].start {
        assert init[i] == s[i] && init[j] == s[j];
      }
      forall x | x in init ensures x in periods {
        assert x in s;
      }
      MergeAwrSortedProps(init, periods);
      var ms := MergeAwrSorted(init);
      MergeAwrSortedLastStart(init);
      if |init| > 0 {
        assert init[|init| - 1].start <= p.start;
      }
      assert p in periods by { assert p in s; }
      MergeAwrStepProps(ms, p, periods);
    }
  }

  /** One step of the merge keeps the separation and the inputs, and adds the new period's totals. */
  lemma MergeAwrStepProps(ms: seq<AwrPeriod>, p: AwrPeriod, periods: seq<AwrPeriod>)
    requires AwrSeparated(ms) && FromInputs(ms, periods) && p in periods
    requires ms != [] ==> ms[|ms| - 1].start <= p.start
    ensures var r := MergeAwrStep(ms, p);
            && |r| <= |ms| + 1
            && AwrSeparated(r) && FromInputs(r, periods)
            && SumOf(r, Elapsed) == SumOf(ms, Elapsed) + p.elapsedTime
            && SumOf(r, Executions) == SumOf(ms, Executions) + p.executions as real
  {
    if |ms| == 0 {
      AwrPush(ms, p, periods);
    } else if p.start - ms[|ms| - 1].end <= AwrMergeGapSeconds {
      AwrReplaceLast(ms, p, periods);
    } else {
      AwrPush(ms, p, periods);
    }
  }

  /** Every input period lies inside one of the merged periods. */
  lemma {:induction false} MergeAwrCovers(periods: seq<AwrPeriod>)
    ensures forall x :: x in periods ==> Covers(MergeAwr(periods), x)
  {
    var s := SortBy(periods, StartKey);
    SortedByStart(periods);
    SortByMembers(periods, StartKey);
    MergeAwrSortedCovers(s);
  }

  /** No period ends before it starts. */
  predicate AwrProper(ps: seq<AwrPeriod>)
  {
    forall k :: 0 <= k < |ps| ==> ps[k].start <= ps[k].end
  }

  lemma {:induction false} MergeAwrSortedProper(s: seq<AwrPeriod>)
    requires AwrProper(s)
    ensures AwrProper(MergeAwrSorted(s))
  {
    if |s| > 0 {
      var init, p := s[..|s| - 1], s[|s| - 1];
      assert AwrProper(init) by {
        forall k | 0 <= k < |init| ensures init[k] == s[k] { }
      }
      MergeAwrSortedProper(init);
      var ms := MergeAwrSorted(init);
      var r := MergeAwrStep(ms, p);
      forall k | 0 <= k < |r| ensures r[k].start <= r[k].end {
        if |ms| > 0 && p.start - ms[|ms| - 1].end <= AwrMergeGapSeconds {
          if k < |ms| - 1 {
            assert r[k] == ms[k];
          } else {
            assert r[k] == FuseAwr(ms[|ms| - 1], p);
          }
        } else if k < |ms| {
          assert r[k] == ms[k];
        }
      }
    }
  }

  lemma {:induction false} AwrApartFrom(ms: seq<AwrPeriod>, j: nat, k: nat)
    requires AwrSeparated(ms) && AwrProper(ms) && j < k < |ms|
    ensures ms[j].end < ms[k].start
    decreases k - j
  {
    if k > j + 1 {
      AwrApartFrom(ms, j, k - 1);
    }
  }

  /**
   * For proper periods no input lies inside two merged periods: with the
   * covering lemma, each lies inside exactly one.
   */
  lemma {:induction false} MergeAwrCoversOnce(periods: seq<AwrPeriod>)
    requires AwrProper(periods)
    ensures var r := MergeAwr(periods);
            forall x, j, k :: x in periods && 0 <= j < k < |r| ==>
              !(r[j].start <= x.start && x.end <= r[j].end && r[k].start <= x.start && x.end <= r[k].end)
  {
    var s := SortBy(periods, StartKey);
    SortedByStart(periods);
    SortByMembers(periods, StartKey);
    assert AwrProper(s) by {
      forall k | 0 <= k < |s| ensures s[k].start <= s[k].end {
        assert s[k] in periods;
      }
    }
    MergeAwrSortedProps(s, periods);
    MergeAwrSortedProper(s);
    var r := MergeAwr(periods);
    forall x, j, k | x in periods && 0 <= j < k < |r|
      ensures !(r[j].start <= x.start && x.end <= r[j].end && r[k].start <= x.start && x.end <= r[k].end)
    {
      AwrApartFrom(r, j, k);
    }
  }

  /** Periods in start order and already more than ten minutes apart are returned as they are. */
  lemma {:induction false} MergeAwrSortedSeparated(s: seq<AwrPeriod>)
    requires AwrSeparated(s)
    ensures MergeAwrSorted(s) == s
  {
    if |s| > 0 {
      var init := s[..|s| - 1];
      assert AwrSeparated(init);
      MergeAwrSortedSeparated(init);
      assert s == init + [s[|s| - 1]];
    }
  }

  /**
   * `_merge_continuous_periods`: sort by start (stably), then fuse each
   * period into the last kept one when the gap is at most ten minutes.
   */
  method MergeContinuousPeriods(periods: seq<AwrPeriod>) returns (merged: seq<AwrPeriod>)
    ensures merged == MergeAwr(periods)
    ensures |merged| <= |periods|
    ensures |merged| == 0 <==> |periods| == 0
    ensures AwrSeparated(merged)
    ensures FromInputs(merged, periods)
    ensures SumOf(merged, Elapsed) == SumOf(periods, Elapsed)
    ensures SumOf(merged, Executions) == SumOf(periods, Executions)
  {
    if |periods| == 0 {
      return [];
    }
    var sorted := SortBy(periods, StartKey);
    merged := [];
    var i := 0;
    while i < |sorted|
      invariant 0 <= i <= |sorted|
      invariant merged == MergeAwrSorted(sorted[..i])
    {
      var period := sorted[i];
      assert sorted[..i + 1][..i] == sorted[..i];
      if |merged| == 0 {
        merged := merged + [period];
      } else {
        var last := merged[|merged| - 1];
        if period.start - last.end <= AwrMergeGapSeconds {
          merged := merged[..|merged| - 1] + [FuseAwr(last, period)];
        } else {
          merged := merged + [period];
        }
      }
      i := i + 1;
    }
    assert sorted[..i] == sorted;
    SortedByStart(periods);
    MergeAwrSortedProps(sorted, periods);
  }

  // ---------------------------------------------------------------------
  // Which result blocks are shown
  // ---------------------------------------------------------------------

  function OptionList<B>(o: Option<B>): seq<B>
  {
    if o.Some? then [o.value] else []
  }

  /**
   * `detect_high_load_periods`: AWR files alone show the AWR block, ASH files
   * alone the ASH block, both show ASH then AWR, and neither shows the single
   * "No Data" entry. An absent block is skipped.
   */
  function HighLoadBlocks<B>(hasAsh: bool, hasAwr: bool, ash: Option<B>, awr: Option<B>, noData: B): (r: seq<B>)
    ensures |r| <= 2
    ensures !hasAsh && !hasAwr ==> r == [noData]
    // one source alone: its block, exactly when that block was built
    ensures hasAwr && !hasAsh ==> r == OptionList(awr)
    ensures hasAsh && !hasAwr ==> r == OptionList(ash)
    ensures hasAsh && hasAwr ==> r == OptionList(ash) + OptionList(awr)
    ensures hasAsh || hasAwr ==> noData !in r || Some(noData) == ash || Some(noData) == awr
  {
    if hasAwr && !hasAsh then OptionList(awr)
    else if hasAsh && !hasAwr then OptionList(ash)
    else if hasAsh && hasAwr then OptionList(ash) + OptionList(awr)
    else [noData]
  }

  /**
   * Every block of an uploaded kind that was built is shown, and one entry is
   * shown per such block, or the single "No Data" entry when nothing was uploaded.
   */
  lemma BuiltBlocksShown<B>(hasAsh: bool, hasAwr: bool, ash: Option<B>, awr: Option<B>, noData: B)
    ensures hasAsh && ash.Some? ==> ash.value in HighLoadBlocks(hasAsh, hasAwr, ash, awr, noData)
    ensures hasAwr && awr.Some? ==> awr.value in HighLoadBlocks(hasAsh, hasAwr, ash, awr, noData)
    ensures |HighLoadBlocks(hasAsh, hasAwr, ash, awr, noData)| ==
              (if hasAsh && ash.Some? then 1 else 0) + (if hasAwr && awr.Some? then 1 else 0)
              + (if !hasAsh && !hasAwr then 1 else 0)
  {
  }
}
