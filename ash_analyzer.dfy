/**
 * Active Session History analysis over rows already read from the
 * activity-over-time table: the wait-event classifier, the per-class
 * breakdown of the dominant events, the time-of-day filter and the
 * activity spikes.
 */
module AshAnalyzer {
  import opened Common
  import opened SnapshotMetadata

  // ---------------------------------------------------------------------
  // Event classes
  // ---------------------------------------------------------------------

  datatype EventClass = CpuClass | IoClass | ConcurrencyClass | NetworkClass | OtherClass

  const AllClasses: set<EventClass> := {CpuClass, IoClass, ConcurrencyClass, NetworkClass, OtherClass}

  const IoKeywords: seq<string> := ["read", "write", "io", "disk", "file"]
  const ConcurrencyKeywords: seq<string> := ["latch", "lock", "enq", "buffer"]
  const NetworkKeywords: seq<string> := ["sql*net", "network"]

  /** `classify`: the first matching keyword group of the lower-cased name wins. */
  function Classify(eventName: string): (c: EventClass)
    ensures var n := Lower(eventName);
            && (c.CpuClass? <==> Contains(n, "cpu"))
            && (c.IoClass? <==> !Contains(n, "cpu") && ContainsAny(n, IoKeywords))
            && (c.ConcurrencyClass? <==>
                  !Contains(n, "cpu") && !ContainsAny(n, IoKeywords) && ContainsAny(n, ConcurrencyKeywords))
            && (c.NetworkClass? <==>
                  !Contains(n, "cpu") && !ContainsAny(n, IoKeywords) && !ContainsAny(n, ConcurrencyKeywords)
                  && ContainsAny(n, NetworkKeywords))
            && (c.OtherClass? <==>
                  !Contains(n, "cpu") && !ContainsAny(n, IoKeywords) && !ContainsAny(n, ConcurrencyKeywords)
                  && !ContainsAny(n, NetworkKeywords))
  {
    var n := Lower(eventName);
    if Contains(n, "cpu") then CpuClass
    else if ContainsAny(n, IoKeywords) then IoClass
    else if ContainsAny(n, ConcurrencyKeywords) then ConcurrencyClass
    else if ContainsAny(n, NetworkKeywords) then NetworkClass
    else OtherClass
  }

  /** The class of an event does not depend on the case of its name. */
  lemma ClassifyIgnoresCase(eventName: string)
    ensures Classify(Upper(eventName)) == Classify(eventName)
  {
    LowerOfUpper(eventName);
  }

  // ---------------------------------------------------------------------
  // CPU versus IO breakdown
  // ---------------------------------------------------------------------

  /** One dominant event as the grouping step reports it. */
  datatype DominantEvent = DominantEvent(event: string, eventClass: EventClass, totalPercentImpact: real)

  datatype ImpactEntry = ImpactEntry(event: string, impact: real)

  /** One class of the breakdown: how many events, their summed impact, and the events. */
  datatype Bucket = Bucket(count: nat, totalPercent: real, events: seq<ImpactEntry>)

  function Impact(e: DominantEvent): real { e.totalPercentImpact }

  /** The bucket of class `c` after the events `es`, in input order. */
  function BucketOf(es: seq<DominantEvent>, c: EventClass): (b: Bucket)
    ensures b.count == |b.events| <= |es|
  {
    if |es| == 0 then Bucket(0, 0.0, [])
    else
      var b := BucketOf(es[..|es| - 1], c);
      var e := es[|es| - 1];
      if e.eventClass == c then
        Bucket(b.count + 1, b.totalPercent + e.totalPercentImpact,
               b.events + [ImpactEntry(e.event, e.totalPercentImpact)])
      else b
  }

  lemma BucketStep(es: seq<DominantEvent>, i: nat)
    requires i < |es|
    ensures forall c :: BucketOf(es[..i + 1], c) ==
              var b := BucketOf(es[..i], c);
              if es[i].eventClass == c then
                Bucket(b.count + 1, b.totalPercent + es[i].totalPercentImpact,
                       b.events + [ImpactEntry(es[i].event, es[i].totalPercentImpact)])
              else b
  {
    assert es[..i + 1][..i] == es[..i];
  }

  /** `get_cpu_vs_io_breakdown`: empty without events, else all five classes. */
  method CpuVsIoBreakdown(events: seq<DominantEvent>) returns (b: map<EventClass, Bucket>)
    ensures |events| == 0 ==> b == map[]
    ensures |events| > 0 ==> b.Keys == AllClasses
    ensures |events| > 0 ==> forall c :: c in AllClasses ==> b[c] == BucketOf(events, c)
  {
    if |events| == 0 {
      return map[];
    }
    var empty := Bucket(0, 0.0, []);
    b := map c | c in AllClasses :: empty;
    assert events[..0] == [];
    var i := 0;
    while i < |events|
      invariant 0 <= i <= |events|
      invariant b.Keys == AllClasses
      invariant forall c :: c in AllClasses ==> b[c] == BucketOf(events[..i], c)
    {
      var e := events[i];
      var cls := e.eventClass;
      assert cls in AllClasses by {
        assert cls.CpuClass? || cls.IoClass? || cls.ConcurrencyClass? || cls.NetworkClass? || cls.OtherClass?;
      }
      var prev := b[cls];
      b := b[cls := Bucket(prev.count + 1, prev.totalPercent + e.totalPercentImpact,
                           prev.events + [ImpactEntry(e.event, e.totalPercentImpact)])];
      BucketStep(events, i);
      i := i + 1;
    }
    assert events[..i] == events;
  }

  /**
   * Every event lands in exactly one class: the five counts add up to the
   * number of events and the five impacts to the total impact.
   */
  lemma {:induction false} BreakdownPartition(es: seq<DominantEvent>)
    ensures BucketOf(es, CpuClass).count + BucketOf(es, IoClass).count
            + BucketOf(es, ConcurrencyClass).count + BucketOf(es, NetworkClass).count
            + BucketOf(es, OtherClass).count == |es|
    ensures BucketOf(es, CpuClass).totalPercent + BucketOf(es, IoClass).totalPercent
            + BucketOf(es, ConcurrencyClass).totalPercent + BucketOf(es, NetworkClass).totalPercent
            + BucketOf(es, OtherClass).totalPercent == SumOf(es, Impact)
  {
    if |es| > 0 {
      BreakdownPartition(es[..|es| - 1]);
    }
  }

  // ---------------------------------------------------------------------
  // Time-of-day filter
  // ---------------------------------------------------------------------

  /**
   * One clock key of the filter dictionary: left out, present with `None`
   * (the request route copies every key from the request body, so a field
   * the client did not send arrives this way), or present with a number.
   */
  datatype FilterKey = Absent | Null | Given(value: int)

  /**
   * The time filter as the request carries it; `None` in an
   * `Option<TimeFilter>` is a missing or empty (falsy) dictionary.
   */
  datatype TimeFilter = TimeFilter(
    startHour: FilterKey,
    startMinute: FilterKey,
    endHour: FilterKey,
    endMinute: FilterKey,
    timeWindow: Option<string>)

  /** `filter.get(key, d)`: the default for a left-out key, `None` for a key present with `None`. */
  function KeyOrDefault(k: FilterKey, d: int): (r: Option<int>)
    ensures r.None? <==> k.Null?
    ensures k.Absent? ==> r == Some(d)
    ensures k.Given? ==> r == Some(k.value)
  {
    match k
    case Absent => Some(d)
    case Null => None
    case Given(v) => Some(v)
  }

  predicate ValidClock(h: int, m: int) { 0 <= h < 24 && 0 <= m < 60 }

  /**
   * `_create_time_filter_range` as seconds since midnight (both bounds fall
   * on the same day). Left-out keys default to 00:00 and 23:59. A key
   * present with `None` makes the clock-time constructor raise, and so does
   * an impossible clock time: both are the error path that yields no range.
   */
  function CreateTimeFilterRange(filter: Option<TimeFilter>): (r: Option<(int, int)>)
    ensures filter.None? ==> r.None?
    ensures filter.Some? ==>
              var f := filter.value;
              var sh, sm := KeyOrDefault(f.startHour, 0), KeyOrDefault(f.startMinute, 0);
              var eh, em := KeyOrDefault(f.endHour, 23), KeyOrDefault(f.endMinute, 59);
              (r.Some? <==> sh.Some? && sm.Some? && eh.Some? && em.Some?
                            && ValidClock(sh.value, sm.value) && ValidClock(eh.value, em.value))
              && (r.Some? ==> r.value == (sh.value * 3600 + sm.value * 60, eh.value * 3600 + em.value * 60))
    ensures r.Some? ==> 0 <= r.value.0 < SecondsPerDay && 0 <= r.value.1 < SecondsPerDay
  {
    if filter.None? then None
    else
      var f := filter.value;
      var sh, sm := KeyOrDefault(f.startHour, 0), KeyOrDefault(f.startMinute, 0);
      var eh, em := KeyOrDefault(f.endHour, 23), KeyOrDefault(f.endMinute, 59);
      if sh.None? || sm.None? || eh.None? || em.None? then None
      else if ValidClock(sh.value, sm.value) && ValidClock(eh.value, em.value) then
        Some((sh.value * 3600 + sm.value * 60, eh.value * 3600 + em.value * 60))
      else None
  }

  /** Any key present with `None`, as the request route sends for a field the client left out. */
  predicate HasNullKey(f: TimeFilter)
  {
    f.startHour.Null? || f.startMinute.Null? || f.endHour.Null? || f.endMinute.Null?
  }

  /**
   * A filter built from a request that leaves out a clock field carries
   * that field as `None`: it gives no range, so the rows stay unfiltered.
   * Only when every key is left out do the 00:00 and 23:59 defaults apply.
   */
  lemma {:induction false} NullKeyGivesNoRange(f: TimeFilter)
    ensures HasNullKey(f) ==> CreateTimeFilterRange(Some(f)).None?
    ensures f.startHour.Absent? && f.startMinute.Absent? && f.endHour.Absent? && f.endMinute.Absent? ==>
              CreateTimeFilterRange(Some(f)) == Some((0, 23 * 3600 + 59 * 60))
  {
    var sh, sm := KeyOrDefault(f.startHour, 0), KeyOrDefault(f.startMinute, 0);
    var eh, em := KeyOrDefault(f.endHour, 23), KeyOrDefault(f.endMinute, 59);
    if HasNullKey(f) {
      assert sh.None? || sm.None? || eh.None? || em.None?;
    }
  }

  /**
   * One activity row; `slotTime` is the slot's clock time in seconds since
   * midnight, `None` when it does not parse.
   */
  datatype AshRow = AshRow(slotTime: Option<int>, event: string, pctEvent: real,
                           eventCount: int, slotCount: int)

  predicate InRange(r: AshRow, lo: int, hi: int)
  {
    r.slotTime.Some? && lo <= r.slotTime.value <= hi
  }

  /** The rows whose parsed time lies in `[lo, hi]`, in order. */
  function RowsInRange(rows: seq<AshRow>, lo: int, hi: int): (r: seq<AshRow>)
    ensures |r| <= |rows|
    ensures forall x :: x in r <==> x in rows && InRange(x, lo, hi)
  {
    if |rows| == 0 then []
    else
      var rest := RowsInRange(rows[..|rows| - 1], lo, hi);
      var x := rows[|rows| - 1];
      assert rows == rows[..|rows| - 1] + [x];
      rest + (if InRange(x, lo, hi) then [x] else [])
  }

  /** `_filter_ash_data_by_time`. */
  method FilterAshDataByTime(rows: seq<AshRow>, filter: Option<TimeFilter>) returns (kept: seq<AshRow>)
    ensures CreateTimeFilterRange(filter).None? ==> kept == rows
    // the request route's filter for a request without a clock field
    ensures filter.Some? && HasNullKey(filter.value) ==> kept == rows
    ensures CreateTimeFilterRange(filter).Some? ==>
              kept == RowsInRange(rows, CreateTimeFilterRange(filter).value.0,
                                  CreateTimeFilterRange(filter).value.1)
  {
    if filter.None? {
      return rows;
    }
    NullKeyGivesNoRange(filter.value);
    var range := CreateTimeFilterRange(filter);
    if range.None? {
      return rows;
    }
    var (lo, hi) := range.value;
    kept := [];
    var i := 0;
    while i < |rows|
      invariant 0 <= i <= |rows|
      invariant kept == RowsInRange(rows[..i], lo, hi)
    {
      assert rows[..i + 1][..i] == rows[..i];
      if InRange(rows[i], lo, hi) {
        kept := kept + [rows[i]];
      }
      i := i + 1;
    }
    assert rows[..i] == rows;
  }

  // ---------------------------------------------------------------------
  // Activity spikes
  // ---------------------------------------------------------------------

  function RowsAtLeast(rows: seq<AshRow>, threshold: real): (r: seq<AshRow>)
    ensures forall x :: x in r <==> x in rows && x.pctEvent >= threshold
  {
    if |rows| == 0 then []
    else
      var x := rows[|rows| - 1];
      assert rows == rows[..|rows| - 1] + [x];
      RowsAtLeast(rows[..|rows| - 1], threshold) + (if x.pctEvent >= threshold then [x] else [])
  }

  function NegPct(r: AshRow): real { -r.pctEvent }

  /**
   * `detect_activity_spikes`: exactly the rows at or above the threshold,
   * largest share first.
   */
  function DetectActivitySpikes(rows: seq<AshRow>, threshold: real): (r: seq<AshRow>)
    ensures multiset(r) == multiset(RowsAtLeast(rows, threshold))
    ensures forall x :: x in r <==> x in rows && x.pctEvent >= threshold
    ensures forall i, j :: 0 <= i < j < |r| ==> r[i].pctEvent >= r[j].pctEvent
  {
    var hits := RowsAtLeast(rows, threshold);
    SortByProps(hits, NegPct, 0.0);
    SortByMembers(hits, NegPct);
    var r := SortBy(hits, NegPct);
    assert forall i, j :: 0 <= i < j < |r| ==> NegPct(r[i]) <= NegPct(r[j]);
    r
  }
}
