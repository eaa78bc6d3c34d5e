/**
 * The SQL agent's risk rules: the quick classification of a query, the
 * signal normalisation that feeds the decision gates, the category-based
 * risk level, the strict point-based risk level, the maintenance
 * detector, and the point-based risk score with its high-frequency rule.
 */
module SqlAgent {
  import opened Common
  import opened DecisionEngine

  datatype RiskLevel = Low | Medium | High | Critical

  // ---------------------------------------------------------------------
  // Quick classification
  // ---------------------------------------------------------------------

  /**
   * The risk of `generate_fix_recommendations`, over the values after the
   * statistics lookup: high on elapsed, CPU share or DB-time share, then a
   * busy short query, then the quiet case, else medium.
   */
  function FixRisk(elapsed: real, cpu: real, executions: int, pctcpu: real, pcttotal: real): (r: RiskLevel)
    ensures r.High? <==> elapsed > 50.0 || pctcpu > 90.0 || pcttotal > 30.0
    ensures r.Low? <==>
              !(elapsed > 50.0 || pctcpu > 90.0 || pcttotal > 30.0) && !(elapsed < 50.0 && executions > 500)
              && elapsed < 5.0 && cpu < 5.0 && executions < 500
    ensures r.Medium? <==> !r.High? && !r.Low?
    ensures !r.Critical?
  {
    if elapsed > 50.0 || pctcpu > 90.0 || pcttotal > 30.0 then High
    else if elapsed < 50.0 && executions > 500 then Medium
    else if elapsed < 5.0 && cpu < 5.0 && executions < 500 then Low
    else Medium
  }

  /** From 500 executions on, the quick classification is never low. */
  lemma FixRiskExecutionsFloor(elapsed: real, cpu: real, executions: int, pctcpu: real, pcttotal: real)
    requires executions >= 500
    ensures !FixRisk(elapsed, cpu, executions, pctcpu, pcttotal).Low?
  {
  }

  // ---------------------------------------------------------------------
  // Signal normalisation
  // ---------------------------------------------------------------------

  /**
   * `_normalize_signals_from_query_data`. `csvSqlText` is the text the
   * statistics table holds for the query, `None` when there is no table.
   */
  function NormalizeSignalsFromQueryData(sqlId: string, q: SqlData, csvSqlText: Option<string>): (s: Signals)
    ensures var elapsed, cpu := FirstTruthy([q.elapsed, q.elapsedTime]), FirstTruthy([q.cpu, q.cpuTime]);
            var perExec := OrZero(q.elapsedPerExec);
            && s.sqlId == sqlId
            && s.totalElapsed == elapsed && s.cpuTime == cpu
            && s.executions == ExecutionsOf(q)
            && (perExec == 0.0 && ExecutionsOf(q) > 0 && elapsed > 0.0 ==>
                  s.avgExecTime * (ExecutionsOf(q) as real) == elapsed)
            && (!(perExec == 0.0 && ExecutionsOf(q) > 0 && elapsed > 0.0) ==> s.avgExecTime == perExec)
            && s.dbTimePct == FirstTruthy([q.pcttotal, q.dbTimePct])
            && (OrZero(q.pctio) != 0.0 ==> s.ioWaitPct == q.pctio.value)
            && (OrZero(q.pctio) == 0.0 && elapsed > 0.0 && cpu >= 0.0 ==>
                  0.0 <= s.ioWaitPct <= 100.0 && s.ioWaitPct * elapsed == Max(0.0, elapsed - cpu) * 100.0)
            && (OrZero(q.pctio) == 0.0 && (elapsed <= 0.0 || cpu < 0.0) ==> s.ioWaitPct == 0.0)
            && (OrZero(q.pctcpu) == 0.0 && elapsed > 0.0 && cpu > 0.0 ==> s.cpuPct * elapsed == cpu * 100.0)
            && (OrZero(q.pctcpu) != 0.0 || elapsed <= 0.0 || cpu <= 0.0 ==> s.cpuPct == OrZero(q.pctcpu))
            && s.sqlText == (if q.sqlText.Some? then q.sqlText else csvSqlText)
            && s.sqlModule == q.sqlModule && s.waitClass.None?
  {
    var elapsed := FirstTruthy([q.elapsed, q.elapsedTime]);
    var cpu := FirstTruthy([q.cpu, q.cpuTime]);
    var executions := ExecutionsOf(q);
    var perExec0 := OrZero(q.elapsedPerExec);
    var perExec := if perExec0 == 0.0 && executions > 0 && elapsed > 0.0 then elapsed / executions as real else perExec0;
    var pctcpu0 := OrZero(q.pctcpu);
    var pctio0 := OrZero(q.pctio);
    var pcttotal := FirstTruthy([q.pcttotal, q.dbTimePct]);
    var pctio := if pctio0 == 0.0 && elapsed > 0.0 && cpu >= 0.0 then IoFallback(elapsed, cpu) else pctio0;
    var pctcpu := if pctcpu0 == 0.0 && elapsed > 0.0 && cpu > 0.0 then (cpu / elapsed) * 100.0 else pctcpu0;
    var text := if q.sqlText.Some? then q.sqlText else csvSqlText;
    Signals(sqlId, executions, elapsed, perExec, cpu, pctcpu, pctio, pcttotal, text, q.sqlModule, None)
  }

  /** The estimated IO share: the non-CPU part of the elapsed time, in percent. */
  function IoFallback(elapsed: real, cpu: real): (p: real)
    requires elapsed > 0.0 && cpu >= 0.0
    ensures 0.0 <= p <= 100.0
    ensures p * elapsed == Max(0.0, elapsed - cpu) * 100.0
  {
    var nonCpu := Max(0.0, elapsed - cpu);
    assert nonCpu <= elapsed;
    (nonCpu / elapsed) * 100.0
  }

  // ---------------------------------------------------------------------
  // Category-based risk level
  // ---------------------------------------------------------------------

  /**
   * `_map_category_to_risk_level`. Batch and IO-bound queries below both
   * the 20 s and 70 % limits fall through to low.
   */
  function MapCategoryToRiskLevel(c: Category, s: Signals): (r: RiskLevel)
    ensures c == BatchSql || c == IoBoundSql ==>
              && (r.High? <==> s.totalElapsed > 50.0 || s.ioWaitPct > 90.0)
              && (r.Medium? <==> !(s.totalElapsed > 50.0 || s.ioWaitPct > 90.0)
                                  && (s.totalElapsed > 20.0 || s.ioWaitPct > 70.0))
              && (r.Low? <==> s.totalElapsed <= 20.0 && s.ioWaitPct <= 70.0)
    ensures c == CpuBoundSql ==> (r.High? <==> s.cpuPct > 90.0 || s.cpuTime > 50.0) && !r.Low?
    ensures c == ChattySql ==> (r.High? <==> s.executions > 5000) && !r.Low?
    ensures c == MixedProfileSql ==> r.Medium?
    ensures c == LowPriority ==> r.Low?
    ensures !r.Critical?
  {
    if (c == BatchSql || c == IoBoundSql) && (s.totalElapsed > 50.0 || s.ioWaitPct > 90.0) then High
    else if (c == BatchSql || c == IoBoundSql) && (s.totalElapsed > 20.0 || s.ioWaitPct > 70.0) then Medium
    else if c == CpuBoundSql then (if s.cpuPct > 90.0 || s.cpuTime > 50.0 then High else Medium)
    else if c == ChattySql then (if s.executions > 5000 then High else Medium)
    else if c == MixedProfileSql then Medium
    else Low
  }

  /**
   * Through the decision gates, only batch and low-priority queries can be
   * low risk: an IO-bound query already has more than 70 % IO wait.
   */
  lemma GatedRiskNeverLow(s: Signals)
    requires MapCategoryToRiskLevel(Evaluate(s).category, s).Low?
    ensures Evaluate(s).category == BatchSql || Evaluate(s).category == LowPriority
  {
  }

  // ---------------------------------------------------------------------
  // Strict risk level
  // ---------------------------------------------------------------------

  datatype StrictFactor =
    | VeryHighElapsed | HighElapsed | CriticalCpu | HighCpu
    | HighDbTime | SignificantDbTime | VeryHighExecutions | HighExecutions

  /** A two-band criterion: `hi` points above `upper`, else `lo` points above `lower`. */
  function BandPoints(x: real, upper: real, hi: int, lower: real, lo: int): int
  {
    if x > upper then hi else if x > lower then lo else 0
  }

  function ExecutionPoints(executions: int): int
  {
    if executions > 1000 then 25 else if executions > 500 then 15 else 0
  }

  /** The strict score as the sum of the four criteria's bands. */
  function StrictScore(elapsed: real, executions: int, pctcpu: real, pcttotal: real): (score: int)
    ensures 0 <= score <= 130
  {
    BandPoints(elapsed, 50.0, 40, 20.0, 25) + BandPoints(pctcpu, 90.0, 35, 70.0, 20)
    + BandPoints(pcttotal, 30.0, 30, 15.0, 15) + ExecutionPoints(executions)
  }

  /** The strict level: 60 critical, 40 high, 20 or a busy query medium, else low. */
  function StrictLevel(score: int, executions: int): (r: RiskLevel)
    ensures r.Critical? <==> score >= 60
    ensures r.High? <==> 40 <= score < 60
    ensures r.Medium? <==> score < 40 && (score >= 20 || executions > 500)
    ensures r.Low? <==> score < 20 && executions <= 500
  {
    if score >= 60 then Critical
    else if score >= 40 then High
    else if score >= 20 || executions > 500 then Medium
    else Low
  }

  /** The factor a two-band criterion records, if any. */
  function BandFactor<F>(x: real, upper: real, hiFactor: F, lower: real, loFactor: F): (r: seq<F>)
    ensures |r| <= 1
  {
    if x > upper then [hiFactor] else if x > lower then [loFactor] else []
  }

  function ExecutionFactor(executions: int): (r: seq<StrictFactor>)
  {
    if executions > 1000 then [VeryHighExecutions] else if executions > 500 then [HighExecutions] else []
  }

  /** One criterion of the strict level: add its band's points and record its factor. */
  method AddBand(score: int, factors: seq<StrictFactor>, x: real, upper: real, hi: int, hiFactor: StrictFactor,
                 lower: real, lo: int, loFactor: StrictFactor)
    returns (score': int, factors': seq<StrictFactor>)
    ensures score' == score + BandPoints(x, upper, hi, lower, lo)
    ensures factors' == factors + BandFactor(x, upper, hiFactor, lower, loFactor)
  {
    score', factors' := score, factors;
    if x > upper {
      score' := score' + hi;
      factors' := factors' + [hiFactor];
    } else if x > lower {
      score' := score' + lo;
      factors' := factors' + [loFactor];
    }
  }

  /**
   * `_calculate_strict_risk_level`: the points are added and a factor is
   * recorded criterion by criterion.
   */
  method CalculateStrictRiskLevel(elapsed: real, cpu: real, executions: int, pctcpu: real, pcttotal: real)
    returns (level: RiskLevel, score: int, factors: seq<StrictFactor>)
    ensures score == StrictScore(elapsed, executions, pctcpu, pcttotal)
    ensures level == StrictLevel(score, executions)
    ensures factors == BandFactor(elapsed, 50.0, VeryHighElapsed, 20.0, HighElapsed)
                       + BandFactor(pctcpu, 90.0, CriticalCpu, 70.0, HighCpu)
                       + BandFactor(pcttotal, 30.0, HighDbTime, 15.0, SignificantDbTime)
                       + ExecutionFactor(executions)
    ensures |factors| <= 4
  {
    score, factors := AddBand(0, [], elapsed, 50.0, 40, VeryHighElapsed, 20.0, 25, HighElapsed);
    score, factors := AddBand(score, factors, pctcpu, 90.0, 35, CriticalCpu, 70.0, 20, HighCpu);
    score, factors := AddBand(score, factors, pcttotal, 30.0, 30, HighDbTime, 15.0, 15, SignificantDbTime);
    if executions > 1000 {
      score := score + 25;
      factors := factors + [VeryHighExecutions];
    } else if executions > 500 {
      score := score + 15;
      factors := factors + [HighExecutions];
    }
    if score >= 60 {
      level := Critical;
    } else if score >= 40 {
      level := High;
    } else if score >= 20 || executions > 500 {
      level := Medium;
    } else {
      level := Low;
    }
  }

  /** One factor per contributing criterion: the factors are absent exactly when the score is 0. */
  lemma StrictFactorsMatchScore(elapsed: real, executions: int, pctcpu: real, pcttotal: real)
    ensures var f := BandFactor(elapsed, 50.0, VeryHighElapsed, 20.0, HighElapsed)
                     + BandFactor(pctcpu, 90.0, CriticalCpu, 70.0, HighCpu)
                     + BandFactor(pcttotal, 30.0, HighDbTime, 15.0, SignificantDbTime)
                     + ExecutionFactor(executions);
            && (|f| == 0 <==> StrictScore(elapsed, executions, pctcpu, pcttotal) == 0)
            && (VeryHighElapsed in f <==> elapsed > 50.0)
            && (CriticalCpu in f <==> pctcpu > 90.0)
            && NoDuplicates(f)
  {
  }

  /**
   * The elapsed band alone settles high or worse above 50 s, and a very
   * long query with critical CPU is critical whatever else holds.
   */
  lemma StrictLevelFloors(elapsed: real, executions: int, pctcpu: real, pcttotal: real)
    ensures var l := StrictLevel(StrictScore(elapsed, executions, pctcpu, pcttotal), executions);
            && (elapsed > 50.0 ==> l.High? || l.Critical?)
            && (elapsed > 50.0 && pctcpu > 90.0 ==> l.Critical?)
            && (executions > 500 ==> !l.Low?)
  {
  }

  // ---------------------------------------------------------------------
  // Maintenance detection
  // ---------------------------------------------------------------------

  const ModuleKeywords: seq<string> := ["rman", "backup", "maintenance", "dbms_backup", "ksxm"]
  const TextKeywords: seq<string> := ["DBMS_BACKUP_RESTORE", "X$K", "KSXM:TAKE_SNPSHOT", "SYS.DBMS_BACKUP", "BACKUP", "RESTORE"]

  /** `_detect_rman_maintenance_strict`: a module keyword, or a text keyword in a non-empty text. */
  function DetectRmanMaintenanceStrict(sqlModule: string, sqlText: Option<string>): (r: bool)
    ensures r <==> ContainsAny(sqlModule, ModuleKeywords)
                   || (TruthyText(sqlText) && ContainsAny(Upper(sqlText.value), TextKeywords))
  {
    var moduleMatch := ContainsAny(sqlModule, ModuleKeywords);
    if TruthyText(sqlText) then moduleMatch || ContainsAny(Upper(sqlText.value), TextKeywords)
    else moduleMatch
  }

  /**
   * Of the six text keywords, the two that contain "BACKUP" add nothing:
   * the text test is the same as a test for X$K, KSXM:TAKE_SNPSHOT,
   * BACKUP or RESTORE.
   */
  lemma TextKeywordsReduce(u: string)
    ensures ContainsAny(u, TextKeywords) <==>
              Contains(u, "X$K") || Contains(u, "KSXM:TAKE_SNPSHOT") || Contains(u, "BACKUP") || Contains(u, "RESTORE")
  {
    if Contains(u, "DBMS_BACKUP_RESTORE") {
      assert "DBMS_BACKUP_RESTORE"[5..5 + |"BACKUP"|] == "BACKUP";
      ContainsAt("DBMS_BACKUP_RESTORE", "BACKUP", 5);
      ContainsTrans(u, "DBMS_BACKUP_RESTORE", "BACKUP");
    }
    if Contains(u, "SYS.DBMS_BACKUP") {
      assert "SYS.DBMS_BACKUP"[9..9 + |"BACKUP"|] == "BACKUP";
      ContainsAt("SYS.DBMS_BACKUP", "BACKUP", 9);
      ContainsTrans(u, "SYS.DBMS_BACKUP", "BACKUP");
    }
    if Contains(u, "BACKUP") {
      assert Contains(u, TextKeywords[4]);
    }
    if Contains(u, "RESTORE") {
      assert Contains(u, TextKeywords[5]);
    }
    if Contains(u, "X$K") {
      assert Contains(u, TextKeywords[1]);
    }
    if Contains(u, "KSXM:TAKE_SNPSHOT") {
      assert Contains(u, TextKeywords[2]);
    }
  }

  // ---------------------------------------------------------------------
  // Point-based risk score
  // ---------------------------------------------------------------------

  /** The profile the last rule forces to medium: frequent, each run cheap. */
  predicate HighFrequencyLowImpact(elapsed: real, cpu: real, executions: int, perExec: real)
  {
    executions > 800 && elapsed < 15.0 && cpu < 10.0 && perExec < 0.2
  }

  /** The points of `_calculate_intelligent_risk_score`, criterion by criterion. */
  function IntelligentPoints(elapsed: real, cpu: real, executions: int, perExec: real): (p: int)
    ensures 0 <= p <= 160
  {
    BandPoints(elapsed, 100.0, 40, 30.0, 20) + BandPoints(perExec, 1.0, 30, 0.2, 15)
    + BandPoints(cpu, 50.0, 25, 15.0, 10)
    + (if executions > 1000 && elapsed > 10.0 then 20 else 0)
    + (if cpu > 0.0 && elapsed > cpu * 3.0 then 15 else 0)
    + (if HighFrequencyLowImpact(elapsed, cpu, executions, perExec) then 30 else 0)
  }

  /** Points 60 and up are high, 25 and up medium; the frequent cheap profile is always medium. */
  function IntelligentLevel(elapsed: real, cpu: real, executions: int, perExec: real): (r: RiskLevel)
    ensures HighFrequencyLowImpact(elapsed, cpu, executions, perExec) ==> r.Medium?
    ensures !HighFrequencyLowImpact(elapsed, cpu, executions, perExec) ==>
              var p := IntelligentPoints(elapsed, cpu, executions, perExec);
              (r.High? <==> p >= 60) && (r.Medium? <==> 25 <= p < 60) && (r.Low? <==> p < 25)
  {
    var p := IntelligentPoints(elapsed, cpu, executions, perExec);
    if HighFrequencyLowImpact(elapsed, cpu, executions, perExec) then Medium
    else if p >= 60 then High
    else if p >= 25 then Medium
    else Low
  }

  datatype ScoreFactor =
    | CriticalElapsed | HighElapsedTime | VerySlowPerExec | SlowPerExec | VeryHighCpuTime | HighCpuTime
    | HighVolumeProblem | IoWaitSuspected | FrequencyDetected | FrequencyPressure

  /** `_calculate_intelligent_risk_score`: points and factors by criterion, then the level. */
  method CalculateIntelligentRiskScore(elapsed: real, cpu: real, executions: int, perExec: real)
    returns (level: RiskLevel, points: int, factors: seq<ScoreFactor>)
    ensures points == IntelligentPoints(elapsed, cpu, executions, perExec)
    ensures level == IntelligentLevel(elapsed, cpu, executions, perExec)
    ensures FrequencyDetected in factors <==> HighFrequencyLowImpact(elapsed, cpu, executions, perExec)
    ensures HighFrequencyLowImpact(elapsed, cpu, executions, perExec) ==>
              |factors| >= 2 && factors[|factors| - 2..] == [FrequencyDetected, FrequencyPressure]
    ensures IoWaitSuspected in factors <==> cpu > 0.0 && elapsed > cpu * 3.0
    ensures |factors| == 0 <==> points == 0
  {
    points := 0;
    factors := [];
    if elapsed > 100.0 {
      points := points + 40;
      factors := factors + [CriticalElapsed];
    } else if elapsed > 30.0 {
      points := points + 20;
      factors := factors + [HighElapsedTime];
    }
    if perExec > 1.0 {
      points := points + 30;
      factors := factors + [VerySlowPerExec];
    } else if perExec > 0.2 {
      points := points + 15;
      factors := factors + [SlowPerExec];
    }
    if cpu > 50.0 {
      points := points + 25;
      factors := factors + [VeryHighCpuTime];
    } else if cpu > 15.0 {
      points := points + 10;
      factors := factors + [HighCpuTime];
    }
    if executions > 1000 && elapsed > 10.0 {
      points := points + 20;
      factors := factors + [HighVolumeProblem];
    }
    if cpu > 0.0 && elapsed > cpu * 3.0 {
      points := points + 15;
      factors := factors + [IoWaitSuspected];
    }
    if executions > 800 && elapsed < 15.0 && cpu < 10.0 && perExec < 0.2 {
      points := points + 30;
      factors := factors + [FrequencyDetected, FrequencyPressure];
    }
    if points >= 60 {
      level := High;
    } else if points >= 25 {
      level := Medium;
    } else {
      level := Low;
    }
    if executions > 800 && elapsed < 15.0 && cpu < 10.0 && perExec < 0.2 {
      level := Medium;
    }
  }

  /**
   * The medium override can lower a high score: 1001 runs of 14 s in total
   * with 1 s of CPU collect 65 points, high by points, medium by the rule.
   */
  lemma HighFrequencyOverrideLowers()
    ensures IntelligentPoints(14.0, 1.0, 1001, 0.01) == 65
    ensures IntelligentLevel(14.0, 1.0, 1001, 0.01).Medium?
  {
  }
}
