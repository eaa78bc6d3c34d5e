/**
 * Snapshot metadata of an AWR report: calendar timestamps, the small
 * field parsers that turn table cells into numbers, and the assembly of
 * the metadata record (begin/end time, elapsed seconds, DB CPU, cores,
 * instance and host CPU figures) with its error list.
 *
 * HTML traversal and regular-expression searches are not modelled: what
 * they locate (captured timestamp groups, candidate cells, extracted
 * values) is the input here.
 */
module SnapshotMetadata {
  import opened Common

  // ---------------------------------------------------------------------
  // Calendar
  // ---------------------------------------------------------------------

  datatype DateTime = DateTime(year: int, month: int, day: int, hour: int, minute: int, second: int)

  predicate IsLeapYear(y: int)
  {
    (y % 4 == 0 && y % 100 != 0) || y % 400 == 0
  }

  function DaysInMonth(y: int, m: int): int
    requires 1 <= m <= 12
  {
    if m == 2 then (if IsLeapYear(y) then 29 else 28)
    else if m == 4 || m == 6 || m == 9 || m == 11 then 30
    else 31
  }

  /** What `datetime(...)` accepts (years 1..9999, a real calendar day, a clock time). */
  predicate ValidDateTime(t: DateTime)
  {
    1 <= t.year <= 9999 && 1 <= t.month <= 12 && 1 <= t.day <= DaysInMonth(t.year, t.month)
    && 0 <= t.hour < 24 && 0 <= t.minute < 60 && 0 <= t.second < 60
  }

  /** Days since 1970-01-01 of a proleptic Gregorian date. */
  function DaysFromCivil(y: int, m: int, d: int): int
  {
    var y1 := if m <= 2 then y - 1 else y;
    var era := y1 / 400;
    var yoe := y1 - era * 400;
    var mp := (m + 9) % 12;
    var doy := (153 * mp + 2) / 5 + d - 1;
    var doe := yoe * 365 + yoe / 4 - yoe / 100 + doy;
    era * 146097 + doe - 719468
  }

  /** The instant of a timestamp, in seconds since the epoch (no time zone). */
  function ToSeconds(t: DateTime): int
  {
    DaysFromCivil(t.year, t.month, t.day) * 86400 + t.hour * 3600 + t.minute * 60 + t.second
  }

  const SecondsPerDay: int := 86400

  // ---------------------------------------------------------------------
  // Timestamps
  // ---------------------------------------------------------------------

  /** Two-digit years below 50 are in the 2000s, the others in the 1900s. */
  function FullYear(yy: nat): (y: int)
    requires yy < 100
    ensures 1950 <= y <= 2049
    ensures y % 100 == yy
    ensures yy < 50 <==> y >= 2000
  {
    if yy < 50 then 2000 + yy else 1900 + yy
  }

  const MonthAbbreviations: seq<string> :=
    ["jan", "feb", "mar", "apr", "may", "jun", "jul", "aug", "sep", "oct", "nov", "dec"]

  function IndexOfName(names: seq<string>, s: string): (r: Option<nat>)
    ensures r.Some? ==> r.value < |names| && names[r.value] == s
    ensures r.Some? ==> forall j :: 0 <= j < r.value ==> names[j] != s
    ensures r.None? ==> s !in names
  {
    if |names| == 0 then None
    else if names[0] == s then Some(0)
    else match IndexOfName(names[1..], s) {
      case None => None
      case Some(i) => Some(i + 1)
    }
  }

  /** `month_map.get(name.lower(), 1)`: an unknown month name counts as January. */
  function MonthNumber(name: string): (m: int)
    ensures 1 <= m <= 12
    ensures Lower(name) in MonthAbbreviations ==> MonthAbbreviations[m - 1] == Lower(name)
    ensures Lower(name) !in MonthAbbreviations ==> m == 1
  {
    match IndexOfName(MonthAbbreviations, Lower(name)) {
      case Some(i) => i + 1
      case None => 1
    }
  }

  /** Month names are matched regardless of case. */
  lemma {:induction false} MonthNumberIgnoresCase(name: string)
    ensures MonthNumber(Upper(name)) == MonthNumber(name)
  {
    LowerOfUpper(name);
  }

  lemma LowerOfUpper(s: string)
    ensures Lower(Upper(s)) == Lower(s)
  {
    assert forall i :: 0 <= i < |s| ==> LowerChar(UpperChar(s[i])) == LowerChar(s[i]);
  }

  /**
   * The groups a timestamp search captured: `06-Dec-25 10:50:19`,
   * `09-8月 -20 21:00:54`, or a bare `HH:MM:SS`.
   */
  datatype TimestampMatch =
    | EnglishDate(day: nat, monthName: string, yy: nat, hour: nat, minute: nat, second: nat)
    | NumericMonthDate(day: nat, month: nat, yy: nat, hour: nat, minute: nat, second: nat)
    | TimeOnly(hour: nat, minute: nat, second: nat)
    | NoMatch

  /** `datetime(...)`, which raises (and so yields no timestamp) on an impossible date. */
  function MakeDateTime(t: DateTime): (r: Option<DateTime>)
    ensures r.Some? <==> ValidDateTime(t)
    ensures r.Some? ==> r.value == t
  {
    if ValidDateTime(t) then Some(t) else None
  }

  /**
   * `_parse_oracle_timestamp`; the time-only form takes today's date, which
   * is a parameter here.
   */
  function ParseOracleTimestamp(m: TimestampMatch, today: DateTime): (r: Option<DateTime>)
    requires m.EnglishDate? || m.NumericMonthDate? ==> m.yy < 100
    ensures r.Some? ==> ValidDateTime(r.value)
    ensures r.Some? && (m.EnglishDate? || m.NumericMonthDate?) ==> 1950 <= r.value.year <= 2049
    ensures r.Some? && m.NumericMonthDate? ==> r.value.month == m.month
    ensures r.Some? && m.EnglishDate? ==> r.value.month == MonthNumber(m.monthName)
    ensures r.Some? && !m.NoMatch? ==>
              r.value.hour == m.hour && r.value.minute == m.minute && r.value.second == m.second
    ensures m.NoMatch? ==> r.None?
    // a dated match: the two-digit year widened, the captured day, and a result iff the date exists
    ensures m.EnglishDate? ==>
              (r.Some? <==> ValidDateTime(DateTime(FullYear(m.yy), MonthNumber(m.monthName), m.day, m.hour, m.minute, m.second)))
    ensures m.NumericMonthDate? ==>
              (r.Some? <==> ValidDateTime(DateTime(FullYear(m.yy), m.month, m.day, m.hour, m.minute, m.second)))
    ensures r.Some? && (m.EnglishDate? || m.NumericMonthDate?) ==> r.value.year == FullYear(m.yy) && r.value.day == m.day
    // a bare clock time: today's date, and a result iff the clock time exists
    ensures m.TimeOnly? ==>
              (r.Some? <==> ValidDateTime(DateTime(today.year, today.month, today.day, m.hour, m.minute, m.second)))
    ensures r.Some? && m.TimeOnly? ==>
              r.value.year == today.year && r.value.month == today.month && r.value.day == today.day
  {
    match m
    case EnglishDate(d, name, yy, h, mi, s) =>
      MakeDateTime(DateTime(FullYear(yy), MonthNumber(name), d, h, mi, s))
    case NumericMonthDate(d, mo, yy, h, mi, s) =>
      MakeDateTime(DateTime(FullYear(yy), mo, d, h, mi, s))
    case TimeOnly(h, mi, s) =>
      MakeDateTime(DateTime(today.year, today.month, today.day, h, mi, s))
    case NoMatch => None
  }

  /** The two-digit year of a year between 1950 and 2049. */
  function TwoDigitYear(y: int): (yy: nat)
    requires 1950 <= y <= 2049
    ensures yy < 100 && FullYear(yy) == y
  {
    y % 100
  }

  /**
   * A timestamp of the report era, written back in the numeric-month form
   * (`dd-mm月 -yy hh:mm:ss`) or the English form (`dd-Mon-yy hh:mm:ss`),
   * parses to itself.
   */
  lemma {:induction false} ParseOracleTimestampRoundTrip(t: DateTime, today: DateTime)
    requires ValidDateTime(t) && 1950 <= t.year <= 2049
    ensures ParseOracleTimestamp(
              NumericMonthDate(t.day, t.month, TwoDigitYear(t.year), t.hour, t.minute, t.second), today) == Some(t)
    ensures ParseOracleTimestamp(
              EnglishDate(t.day, MonthAbbreviations[t.month - 1], TwoDigitYear(t.year), t.hour, t.minute, t.second), today)
            == Some(t)
  {
    MonthNumberOfAbbreviation(t.month);
  }

  /** Each abbreviation names its own month. */
  lemma MonthNumberOfAbbreviation(m: int)
    requires 1 <= m <= 12
    ensures MonthNumber(MonthAbbreviations[m - 1]) == m
  {
    var name := MonthAbbreviations[m - 1];
    assert forall k :: 0 <= k < |name| ==> 'a' <= name[k] <= 'z';
    LowerUnchanged(name);
    MonthsDistinct();
  }

  /** The twelve abbreviations are distinct. */
  lemma MonthsDistinct()
    ensures forall i, j :: 0 <= i < j < 12 ==> MonthAbbreviations[i] != MonthAbbreviations[j]
  {
    forall i, j | 0 <= i < j < 12 ensures MonthAbbreviations[i] != MonthAbbreviations[j] {
      var a, b := MonthAbbreviations[i], MonthAbbreviations[j];
      assert a[0] != b[0] || a[1] != b[1] || a[2] != b[2];
    }
  }

  // ---------------------------------------------------------------------
  // Numbers in table cells
  // ---------------------------------------------------------------------

  predicate IsDigit(c: char) { '0' <= c <= '9' }

  /** A character of `[\d.]` (with `dot`) or of `\d` (without). */
  predicate RunChar(c: char, dot: bool) { IsDigit(c) || (dot && c == '.') }

  predicate AllDigits(s: string) { forall i :: 0 <= i < |s| ==> IsDigit(s[i]) }

  /** The longest prefix made of run characters. */
  function RunPrefix(s: string, dot: bool): (r: string)
    ensures |r| <= |s| && r == s[..|r|]
    ensures forall i :: 0 <= i < |r| ==> RunChar(r[i], dot)
    ensures |r| < |s| ==> !RunChar(s[|r|], dot)
  {
    if |s| > 0 && RunChar(s[0], dot) then [s[0]] + RunPrefix(s[1..], dot) else []
  }

  /** Where the first run starts: the first run character, or `|s|` when there is none. */
  function RunStart(s: string, dot: bool): (i: nat)
    ensures i <= |s|
    ensures forall j :: 0 <= j < i ==> !RunChar(s[j], dot)
    ensures i < |s| ==> RunChar(s[i], dot)
  {
    if |s| == 0 then 0
    else if RunChar(s[0], dot) then 0
    else 1 + RunStart(s[1..], dot)
  }

  /**
   * The leftmost longest match of `[\d.]+` (or `\d+`); empty when there is
   * none. The match begins at the first run character of `s`, is made of
   * run characters, and stops at the end of `s` or before a character
   * outside the class.
   */
  function FirstRun(s: string, dot: bool): (r: string)
    ensures RunStart(s, dot) + |r| <= |s|
    ensures r == s[RunStart(s, dot)..RunStart(s, dot) + |r|]
    ensures RunStart(s, dot) + |r| < |s| ==> !RunChar(s[RunStart(s, dot) + |r|], dot)
    ensures forall i :: 0 <= i < |r| ==> RunChar(r[i], dot)
  {
    RunAt(s, dot);
    RunPrefix(s[RunStart(s, dot)..], dot)
  }

  /** The run read from the first run character is a slice of `s` that stops before a non-run character. */
  lemma RunAt(s: string, dot: bool)
    ensures var i := RunStart(s, dot);
            var r := RunPrefix(s[i..], dot);
            && i + |r| <= |s| && r == s[i..i + |r|]
            && (i + |r| < |s| ==> !RunChar(s[i + |r|], dot))
  {
    var i := RunStart(s, dot);
    var t := s[i..];
    var r := RunPrefix(t, dot);
    assert t[..|r|] == s[i..i + |r|];
    assert |r| < |t| ==> t[|r|] == s[i + |r|];
  }

  /** Text that opens with a run character is read from its start. */
  lemma FirstRunFromStart(s: string, dot: bool)
    ensures |s| > 0 && RunChar(s[0], dot) ==> FirstRun(s, dot) == RunPrefix(s, dot)
  {
    assert s[0..] == s;
  }

  /** A run is found exactly when some character is a run character. */
  lemma FirstRunEmpty(s: string, dot: bool)
    ensures |FirstRun(s, dot)| == 0 <==> forall j :: 0 <= j < |s| ==> !RunChar(s[j], dot)
  {
    var i := RunStart(s, dot);
    if i < |s| {
      assert s[i..][0] == s[i];
    }
  }

  /** Text made only of run characters is read whole. */
  lemma FirstRunWhole(s: string, dot: bool)
    ensures (forall j :: 0 <= j < |s| ==> RunChar(s[j], dot)) ==> FirstRun(s, dot) == s
  {
    if forall j :: 0 <= j < |s| ==> RunChar(s[j], dot) {
      RunPrefixWhole(s, dot);
      assert s[RunStart(s, dot)..] == s;
    }
  }

  lemma {:induction false} RunPrefixWhole(s: string, dot: bool)
    requires forall i :: 0 <= i < |s| ==> RunChar(s[i], dot)
    ensures RunPrefix(s, dot) == s
  {
    if |s| > 0 {
      RunPrefixWhole(s[1..], dot);
    }
  }

  /** The value of a string of decimal digits. */
  function DigitsValue(ds: string): nat
    requires AllDigits(ds)
  {
    if |ds| == 0 then 0
    else DigitsValue(ds[..|ds| - 1]) * 10 + (ds[|ds| - 1] as int - '0' as int)
  }

  function Pow10(n: nat): (p: nat)
    ensures p >= 1
  {
    if n == 0 then 1 else 10 * Pow10(n - 1)
  }

  function IndexOfChar(s: string, c: char): (r: Option<nat>)
    ensures r.Some? ==> r.value < |s| && s[r.value] == c && c !in s[..r.value]
    ensures r.None? ==> c !in s
  {
    if |s| == 0 then None
    else if s[0] == c then Some(0)
    else match IndexOfChar(s[1..], c) {
      case None => None
      case Some(i) =>
        assert s[..i + 1] == [s[0]] + s[1..][..i];
        Some(i + 1)
    }
  }

  /** The number `whole.frac`: the whole part plus the fraction over its power of ten. */
  function DottedValue(whole: string, frac: string): real
    requires AllDigits(whole) && AllDigits(frac)
  {
    DigitsValue(whole) as real + DigitsValue(frac) as real / Pow10(|frac|) as real
  }

  /**
   * `float(run)` for a run of digits and dots: one dot at most and at least
   * one digit, otherwise Python raises and the parsers answer None.
   */
  function ParseFloat(run: string): (r: Option<real>)
    requires forall i :: 0 <= i < |run| ==> RunChar(run[i], true)
    ensures r.Some? ==> r.value >= 0.0
    ensures AllDigits(run) ==> r == if |run| == 0 then None else Some(DigitsValue(run) as real)
    ensures (forall i :: 0 <= i < |run| ==> run[i] == '.') ==> r.None?
  {
    var dotAt := IndexOfChar(run, '.');
    match dotAt {
      case None =>
        assert '.' !in run;
        assert AllDigits(run) by {
          forall i | 0 <= i < |run| ensures IsDigit(run[i]) {
            assert run[i] in run;
            assert RunChar(run[i], true);
            assert run[i] != '.';
          }
        }
        if |run| == 0 then None else Some(DigitsValue(run) as real)
      case Some(k) =>
        var whole, frac := run[..k], run[k + 1..];
        if '.' in frac || (|whole| == 0 && |frac| == 0) then None
        else
          assert AllDigits(frac) by {
            forall i | 0 <= i < |frac| ensures IsDigit(frac[i]) {
              assert frac[i] == run[k + 1 + i];
              assert frac[i] in frac;
              assert RunChar(run[k + 1 + i], true);
            }
          }
          assert AllDigits(whole) by {
            forall i | 0 <= i < |whole| ensures IsDigit(whole[i]) {
              assert whole[i] == run[i];
              assert whole[i] in whole;
              assert RunChar(run[i], true);
            }
          }
          Some(DottedValue(whole, frac))
    }
  }

  /** A run with one dot reads as its whole part plus its fraction. */
  lemma ParseFloatOneDot(run: string, k: nat)
    requires forall i :: 0 <= i < |run| ==> RunChar(run[i], true)
    requires k < |run| && run[k] == '.' && AllDigits(run[..k]) && AllDigits(run[k + 1..]) && |run| > 1
    ensures ParseFloat(run) == Some(DottedValue(run[..k], run[k + 1..]))
  {
    var frac := run[k + 1..];
    assert run[k] in run;
    var d := IndexOfChar(run, '.');
    assert d == Some(k);
    assert '.' !in frac by {
      forall i | 0 <= i < |frac| ensures frac[i] != '.' {
        assert IsDigit(frac[i]);
      }
    }
  }

  /** A run with two dots or more is no number: `float` raises. */
  lemma ParseFloatTwoDots(run: string, i: nat, j: nat)
    requires forall n :: 0 <= n < |run| ==> RunChar(run[n], true)
    requires i < j < |run| && run[i] == '.' && run[j] == '.'
    ensures ParseFloat(run).None?
  {
    assert run[i] in run;
    var k := IndexOfChar(run, '.').value;
    assert run[k + 1..][j - k - 1] == '.';
  }

  /** `value.strip().replace(',', '')`. */
  function Clean(s: string): string
  {
    ReplaceChar(Strip(s), ',', [])
  }

  /** `_parse_numeric_value`: the first `[\d.]+` run as a number. */
  function ParseNumericValue(s: string): (r: Option<real>)
    ensures r == ParseFloat(FirstRun(Clean(s), true))
    ensures r.Some? ==> r.value >= 0.0
    ensures |s| == 0 ==> r.None?
  {
    if |s| == 0 then None
    else
      var run := FirstRun(Clean(s), true);
      if |run| == 0 then None else ParseFloat(run)
  }

  /** `_parse_integer_value`: the first `\d+` run as a number. */
  function ParseIntegerValue(s: string): (r: Option<int>)
    ensures r.Some? ==> r.value >= 0
    ensures r.Some? ==> r.value == DigitsValue(FirstRun(Clean(s), false))
    ensures r.None? <==> forall i :: 0 <= i < |Clean(s)| ==> !IsDigit(Clean(s)[i])
  {
    if |s| == 0 then
      assert Clean(s) == [];
      None
    else
      var run := FirstRun(Clean(s), false);
      if |run| == 0 then None else Some(DigitsValue(run))
  }

  /**
   * `_parse_time_value` in seconds: minutes when the text mentions "min",
   * seconds when it mentions "sec" or ends in 's', otherwise only a bare
   * number is accepted.
   */
  function ParseTimeValue(s: string): (r: Option<real>)
    ensures r.Some? ==> r.value >= 0.0
    // minutes: the first run, times sixty
    ensures Contains(Lower(Clean(s)), "min") ==>
              var v := ParseFloat(FirstRun(Clean(s), true));
              (r.Some? <==> v.Some?) && (r.Some? ==> r.value == v.value * 60.0)
    // seconds: the first run as it stands
    ensures !Contains(Lower(Clean(s)), "min") && (Contains(Lower(Clean(s)), "sec") || EndsWith(Clean(s), "s")) ==>
              r == ParseFloat(FirstRun(Clean(s), true))
    // no unit: only a text made entirely of digits and dots is read
    ensures !Contains(Lower(Clean(s)), "min") && !Contains(Lower(Clean(s)), "sec") && !EndsWith(Clean(s), "s") ==>
              r == if forall i :: 0 <= i < |Clean(s)| ==> RunChar(Clean(s)[i], true) then ParseFloat(Clean(s)) else None
  {
    if |s| == 0 then None
    else
      var clean := Clean(s);
      if Contains(Lower(clean), "min") then
        var run := FirstRun(clean, true);
        if |run| == 0 then None
        else match ParseFloat(run) {
          case None => None
          case Some(v) => Some(v * 60.0)
        }
      else if Contains(Lower(clean), "sec") || EndsWith(clean, "s") then
        var run := FirstRun(clean, true);
        if |run| == 0 then None else ParseFloat(run)
      else if |clean| > 0 && forall i :: 0 <= i < |clean| ==> RunChar(clean[i], true) then
        ParseFloat(clean)
      else None
  }

  // Decimal rendering, the partner of the parsers above.

  function DigitChar(d: nat): char
    requires d < 10
  {
    ('0' as int + d) as char
  }

  /** The decimal digits of `n`, without sign or separators. */
  function NatToDigits(n: nat): (s: string)
    ensures |s| > 0 && AllDigits(s)
  {
    if n < 10 then [DigitChar(n)] else NatToDigits(n / 10) + [DigitChar(n % 10)]
  }

  lemma {:induction false} DigitsValueOfNat(n: nat)
    ensures DigitsValue(NatToDigits(n)) == n
  {
    if n >= 10 {
      DigitsValueOfNat(n / 10);
      var s := NatToDigits(n);
      assert s[..|s| - 1] == NatToDigits(n / 10);
    }
  }

  lemma {:induction false} ReplaceAbsent(s: string, c: char, rep: string)
    requires c !in s
    ensures ReplaceChar(s, c, rep) == s
  {
    if |s| > 0 {
      assert c !in s[1..] by {
        assert forall x :: x in s[1..] ==> x in s;
      }
      ReplaceAbsent(s[1..], c, rep);
    }
  }

  /** A digit string is unchanged by cleaning. */
  lemma CleanDigits(s: string)
    requires |s| > 0 && AllDigits(s)
    ensures Clean(s) == s
  {
    assert Strip(s) == s;
    assert ',' !in s;
    ReplaceAbsent(s, ',', []);
  }

  lemma {:induction false} NotContainedInDigits(s: string, sub: string)
    requires AllDigits(s)
    requires |sub| > 0 && !IsDigit(sub[0])
    ensures !Contains(s, sub)
    decreases |s|
  {
    if |s| > 0 {
      NotContainedInDigits(s[1..], sub);
    }
  }

  lemma LowerOfDigits(s: string)
    requires AllDigits(s)
    ensures Lower(s) == s
  {
  }

  /** Reading back a rendered count gives the count. */
  lemma ParseIntegerRoundTrip(n: nat)
    ensures ParseIntegerValue(NatToDigits(n)) == Some(n)
  {
    var s := NatToDigits(n);
    CleanDigits(s);
    FirstRunWhole(s, false);
    assert FirstRun(s, false) == s;
    DigitsValueOfNat(n);
  }

  /** Reading back a rendered count as a number gives the count. */
  lemma ParseNumericRoundTrip(n: nat)
    ensures ParseNumericValue(NatToDigits(n)) == Some(n as real)
  {
    var s := NatToDigits(n);
    CleanDigits(s);
    FirstRunWhole(s, true);
    assert FirstRun(s, true) == s;
    FloatOfDigits(n);
  }

  /** A bare number is read as seconds. */
  lemma ParseTimeBareNumber(n: nat)
    ensures ParseTimeValue(NatToDigits(n)) == Some(n as real)
  {
    var s := NatToDigits(n);
    CleanDigits(s);
    LowerOfDigits(s);
    NotContainedInDigits(s, "min");
    NotContainedInDigits(s, "sec");
    assert !EndsWith(s, "s") by {
      assert s[|s| - 1] != 's';
    }
    DigitsValueOfNat(n);
  }

  lemma CleanMinutes(d: string)
    requires |d| > 0 && AllDigits(d)
    ensures Clean(d + " min") == d + " min"
  {
    var s := d + " min";
    assert StripLeft(s) == s;
    assert StripRight(s) == s;
    assert ',' !in s;
    ReplaceAbsent(s, ',', []);
  }

  lemma LowerMinutes(d: string)
    requires AllDigits(d)
    ensures Lower(d + " min") == d + " min"
  {
    var s := d + " min";
    forall i | 0 <= i < |s| ensures LowerChar(s[i]) == s[i] {
      if i < |d| {
        assert s[i] == d[i];
      } else {
        assert s[i] == " min"[i - |d|];
      }
    }
    LowerUnchanged(s);
  }

  /** Lower-casing a text without capitals changes nothing. */
  lemma LowerUnchanged(s: string)
    requires forall i :: 0 <= i < |s| ==> LowerChar(s[i]) == s[i]
    ensures Lower(s) == s
  {
    var t := Lower(s);
    assert forall i :: 0 <= i < |s| ==> t[i] == s[i];
  }

  /** A number followed by " min" is read as that many minutes, in seconds. */
  lemma ParseTimeMinutes(n: nat)
    ensures ParseTimeValue(NatToDigits(n) + " min") == Some(n as real * 60.0)
  {
    FloatOfDigits(n);
    MinutesOfDigits(NatToDigits(n), n as real);
  }

  /** The rendered digits of a count read back as that count. */
  lemma FloatOfDigits(n: nat)
    ensures ParseFloat(NatToDigits(n)) == Some(n as real)
  {
    DigitsValueOfNat(n);
  }

  lemma MinutesOfDigits(d: string, v: real)
    requires |d| > 0 && AllDigits(d) && ParseFloat(d) == Some(v)
    ensures ParseTimeValue(d + " min") == Some(v * 60.0)
  {
    var s := d + " min";
    MinutesText(d);
    MinutesRead(s, v);
  }

  /** A text mentioning minutes whose first run reads as `v` is `v` minutes. */
  lemma MinutesRead(s: string, v: real)
    requires Contains(Lower(Clean(s)), "min") && ParseFloat(FirstRun(Clean(s), true)) == Some(v)
    ensures ParseTimeValue(s) == Some(v * 60.0)
  {
    var r := ParseTimeValue(s);
    assert r.Some? && r.value == v * 60.0;
  }

  /** Digits followed by " min" are clean, lower case, mention minutes, and lead with the digits. */
  lemma MinutesText(d: string)
    requires |d| > 0 && AllDigits(d)
    ensures Clean(d + " min") == d + " min" && Lower(Clean(d + " min")) == d + " min"
    ensures Contains(Lower(Clean(d + " min")), "min")
    ensures FirstRun(Clean(d + " min"), true) == d
  {
    var s := d + " min";
    CleanMinutes(d);
    LowerMinutes(d);
    EndsWithContains(s, "min");
    RunPrefixBeforeSpace(d, " min");
    FirstRunFromStart(s, true);
    assert FirstRun(s, true) == d;
  }

  lemma {:induction false} EndsWithContains(s: string, p: string)
    requires EndsWith(s, p)
    ensures Contains(s, p)
    decreases |s|
  {
    if !StartsWith(s, p) {
      assert |s| > |p|;
      assert s[1..][|s[1..]| - |p|..] == s[|s| - |p|..];
      EndsWithContains(s[1..], p);
    }
  }

  lemma {:induction false} RunPrefixBeforeSpace(d: string, rest: string)
    requires AllDigits(d)
    requires |rest| > 0 && rest[0] == ' '
    ensures RunPrefix(d + rest, true) == d
  {
    if |d| > 0 {
      assert (d + rest)[1..] == d[1..] + rest;
      RunPrefixBeforeSpace(d[1..], rest);
    } else {
      assert d + rest == rest;
    }
  }

  // ---------------------------------------------------------------------
  // The metadata record
  // ---------------------------------------------------------------------

  /** Core counts from the labelled cells and the text patterns must be in 1..1024. */
  predicate PlausibleCores(c: int) { 0 < c <= 1024 }

  function FirstPlausible(cs: seq<int>): (r: Option<int>)
    ensures r.Some? ==> PlausibleCores(r.value) && r.value in cs
    ensures r.None? ==> forall i :: 0 <= i < |cs| ==> !PlausibleCores(cs[i])
    // the first plausible value
    ensures forall k :: 0 <= k < |cs| && PlausibleCores(cs[k]) && (forall j :: 0 <= j < k ==> !PlausibleCores(cs[j])) ==>
              r == Some(cs[k])
  {
    if |cs| == 0 then None
    else if PlausibleCores(cs[0]) then Some(cs[0])
    else FirstPlausible(cs[1..])
  }

  /**
   * `_extract_cpu_cores`: the first plausible value next to a CPU-count
   * label, else the first plausible value among the text patterns' matches,
   * else the summary match taken without a bound check.
   */
  function ExtractCpuCores(cellValues: seq<int>, patternValues: seq<int>, summary: Option<int>): (r: Option<int>)
    ensures r.Some? && r != summary ==> PlausibleCores(r.value)
    ensures r.Some? && (r.value in cellValues || r.value in patternValues) && r != summary ==>
              PlausibleCores(r.value)
    ensures (exists i :: 0 <= i < |cellValues| && PlausibleCores(cellValues[i])) ==>
              r.Some? && r.value in cellValues
    // the first plausible cell wins
    ensures forall k :: 0 <= k < |cellValues| && PlausibleCores(cellValues[k])
                        && (forall j :: 0 <= j < k ==> !PlausibleCores(cellValues[j])) ==>
              r == Some(cellValues[k])
    // else the first plausible pattern match
    ensures (forall i :: 0 <= i < |cellValues| ==> !PlausibleCores(cellValues[i])) ==>
              forall k :: 0 <= k < |patternValues| && PlausibleCores(patternValues[k])
                          && (forall j :: 0 <= j < k ==> !PlausibleCores(patternValues[j])) ==>
                r == Some(patternValues[k])
    // else the summary, unchecked
    ensures (forall i :: 0 <= i < |cellValues| ==> !PlausibleCores(cellValues[i]))
            && (forall i :: 0 <= i < |patternValues| ==> !PlausibleCores(patternValues[i])) ==>
              r == summary
  {
    match FirstPlausible(cellValues) {
      case Some(c) => Some(c)
      case None =>
        match FirstPlausible(patternValues) {
          case Some(c) => Some(c)
          case None => summary
        }
    }
  }

  /** Instance `%Busy CPU` is capped at 100. */
  function CapBusyCpu(v: Option<real>): (r: Option<real>)
    ensures r.Some? <==> v.Some?
    ensures r.Some? ==> r.value <= 100.0 && r.value <= v.value
    ensures r.Some? && v.value <= 100.0 ==> r.value == v.value
  {
    if v.Some? then Some(Min(100.0, v.value)) else None
  }

  /** What the extraction steps of one report produced. */
  datatype Extraction = Extraction(
    times: Option<(DateTime, DateTime)>,
    elapsedSeconds: Option<real>,
    dbCpuSeconds: Option<real>,
    cpuCores: Option<int>,
    instanceCpuBusyPct: Option<real>,
    hostCpuIdlePct: Option<real>)

  datatype ParseError = NoSnapshotTimes | NoElapsedTime | NoDbCpuTime

  datatype Metadata = Metadata(
    beginTime: Option<DateTime>,
    endTime: Option<DateTime>,
    elapsedSeconds: Option<real>,
    dbCpuSeconds: Option<real>,
    cpuCores: Option<int>,
    instanceCpuBusyPct: Option<real>,
    hostCpuIdlePct: Option<real>,
    parseSuccess: bool,
    errors: seq<ParseError>)

  /** The result before anything was extracted. */
  const EmptyMetadata: Metadata :=
    Metadata(None, None, None, None, None, None, None, false, [])

  /** End minus begin, shifted by one day when the end lies before the begin. */
  function SpanSeconds(b: DateTime, e: DateTime): (r: int)
    ensures ToSeconds(e) >= ToSeconds(b) ==> r == ToSeconds(e) - ToSeconds(b)
    ensures ToSeconds(e) < ToSeconds(b) ==> r == ToSeconds(e) - ToSeconds(b) + SecondsPerDay
    // non-negative exactly when the end lies at most one day before the begin
    ensures r >= 0 <==> ToSeconds(e) - ToSeconds(b) >= -SecondsPerDay
  {
    var d := ToSeconds(e) - ToSeconds(b);
    if d < 0 then d + SecondsPerDay else d
  }

  /** `SnapshotMetadataParser.parse`: fill the record field by field. */
  method Parse(x: Extraction) returns (m: Metadata)
    ensures m.parseSuccess <==> x.times.Some?
    ensures x.times.Some? ==> m.beginTime == Some(x.times.value.0) && m.endTime == Some(x.times.value.1)
    ensures x.times.None? ==> m.beginTime.None? && m.endTime.None?
    ensures x.elapsedSeconds.Some? ==> m.elapsedSeconds == x.elapsedSeconds
    ensures x.elapsedSeconds.None? && x.times.Some? ==>
              m.elapsedSeconds == Some(SpanSeconds(x.times.value.0, x.times.value.1) as real)
    ensures m.elapsedSeconds.None? <==> x.elapsedSeconds.None? && x.times.None?
    ensures m.dbCpuSeconds == x.dbCpuSeconds
    ensures m.cpuCores == x.cpuCores
    ensures m.instanceCpuBusyPct == x.instanceCpuBusyPct && m.hostCpuIdlePct == x.hostCpuIdlePct
    ensures NoSnapshotTimes in m.errors <==> x.times.None?
    ensures NoElapsedTime in m.errors <==> m.elapsedSeconds.None?
    ensures NoDbCpuTime in m.errors <==> x.dbCpuSeconds.None?
    ensures NoDuplicates(m.errors)
  {
    m := EmptyMetadata;
    if x.times.Some? {
      m := m.(beginTime := Some(x.times.value.0), endTime := Some(x.times.value.1));
    } else {
      m := m.(errors := m.errors + [NoSnapshotTimes]);
    }
    if x.elapsedSeconds.Some? {
      m := m.(elapsedSeconds := x.elapsedSeconds);
    } else if m.beginTime.Some? && m.endTime.Some? {
      m := m.(elapsedSeconds := Some(SpanSeconds(m.beginTime.value, m.endTime.value) as real));
    } else {
      m := m.(errors := m.errors + [NoElapsedTime]);
    }
    if x.dbCpuSeconds.Some? {
      m := m.(dbCpuSeconds := x.dbCpuSeconds);
    } else {
      m := m.(errors := m.errors + [NoDbCpuTime]);
    }
    if x.cpuCores.Some? {
      m := m.(cpuCores := x.cpuCores);
    }
    if x.instanceCpuBusyPct.Some? {
      m := m.(instanceCpuBusyPct := x.instanceCpuBusyPct);
    }
    if x.hostCpuIdlePct.Some? {
      m := m.(hostCpuIdlePct := x.hostCpuIdlePct);
    }
    m := m.(parseSuccess := m.beginTime.Some? && m.endTime.Some?);
  }
}
