/**
 * The AWR HTML report parser (`parsers/awr_html_parser.py`): the column
 * name normaliser, the generic table reader, the search for the table
 * that follows a heading, the order of the CSV files the parse pipeline
 * writes, and the test that the three required files were written.
 *
 * The HTML document is an input already taken apart: a table is its
 * `<tr>` rows, each the stripped texts of its `<td>`/`<th>` cells; a
 * heading (`<p>`, `<h1>`..`<h3>`) is its stripped text and the table
 * that follows it in the document, if any. Whether the metadata and
 * the load profile yield a non-empty frame are boolean inputs.
 */
module AwrHtmlParser {
  import opened Common

  // ---------------------------------------------------------------------
  // normalize_cols
  // ---------------------------------------------------------------------

  /** One column name after lower, strip and the five replacements, in that order. */
  function NormalizeCol(h: string): string
  {
    ReplaceChar(ReplaceChar(ReplaceChar(ReplaceChar(ReplaceChar(
      Strip(Lower(h)), ' ', "_"), '/', "_"), '%', "pct"), '(', ""), ')', "")
  }

  /** Every character of a replacement's result was in the input, or in the replacement text. */
  lemma {:induction false} ReplaceCharChars(s: string, c: char, rep: string)
    ensures forall x :: x in ReplaceChar(s, c, rep) ==> (x in s && x != c) || x in rep
  {
    if |s| > 0 {
      ReplaceCharChars(s[1..], c, rep);
      assert forall x :: x in s[1..] ==> x in s;
    }
  }

  lemma {:induction false} StripLeftChars(s: string)
    ensures forall x :: x in StripLeft(s) ==> x in s
  {
    if |s| > 0 && IsSpace(s[0]) {
      StripLeftChars(s[1..]);
      assert forall x :: x in s[1..] ==> x in s;
    }
  }

  lemma {:induction false} StripRightChars(s: string)
    ensures forall x :: x in StripRight(s) ==> x in s
  {
    if |s| > 0 && IsSpace(s[|s| - 1]) {
      StripRightChars(s[..|s| - 1]);
      assert forall x :: x in s[..|s| - 1] ==> x in s;
    }
  }

  /** A character `normalize_cols` never leaves in a name. */
  predicate Removed(x: char)
  {
    x == ' ' || x == '/' || x == '%' || x == '(' || x == ')'
  }

  /**
   * A normalised name has no upper-case ASCII letter, and none of
   * space, slash, percent sign or parentheses.
   */
  lemma NormalizedColClean(h: string)
    ensures forall x :: x in NormalizeCol(h) ==> !('A' <= x <= 'Z') && !Removed(x)
  {
    var l := Lower(h);
    assert forall x :: x in l ==> !('A' <= x <= 'Z');
    var s := Strip(l);
    StripLeftChars(l);
    StripRightChars(StripLeft(l));
    var a := ReplaceChar(s, ' ', "_");
    ReplaceCharChars(s, ' ', "_");
    var b := ReplaceChar(a, '/', "_");
    ReplaceCharChars(a, '/', "_");
    var c := ReplaceChar(b, '%', "pct");
    ReplaceCharChars(b, '%', "pct");
    var d := ReplaceChar(c, '(', "");
    ReplaceCharChars(c, '(', "");
    ReplaceCharChars(d, ')', "");
  }

  /** `normalize_cols` on the frame's header. */
  function NormalizeCols(headers: seq<string>): (r: seq<string>)
    ensures |r| == |headers|
    ensures forall i :: 0 <= i < |r| ==> r[i] == NormalizeCol(headers[i])
  {
    seq(|headers|, i requires 0 <= i < |headers| => NormalizeCol(headers[i]))
  }

  // ---------------------------------------------------------------------
  // parse_generic_table
  // ---------------------------------------------------------------------

  /** A table as its rows of cell texts. */
  type TableRows = seq<seq<string>>

  /** The frame read from a table; building it fails when a row is wider than the header kept. */
  datatype Frame = EmptyFrame | Frame(columns: seq<string>, rows: TableRows) | ShapeError

  /** The non-empty rows, in order. */
  function NonEmptyRows(trs: TableRows): (r: TableRows)
    ensures |r| <= |trs|
    ensures forall i :: 0 <= i < |r| ==> |r[i]| > 0
  {
    if |trs| == 0 then []
    else
      var last := trs[|trs| - 1];
      NonEmptyRows(trs[..|trs| - 1]) + (if |last| > 0 then [last] else [])
  }

  /** The non-empty rows are exactly the rows with a cell. */
  lemma {:induction false} NonEmptyRowsMembers(trs: TableRows)
    ensures forall row :: row in NonEmptyRows(trs) <==> row in trs && |row| > 0
  {
    if |trs| > 0 {
      NonEmptyRowsMembers(trs[..|trs| - 1]);
      assert trs == trs[..|trs| - 1] + [trs[|trs| - 1]];
    }
  }

  lemma NonEmptyRowsSnoc(s: TableRows, row: seq<string>)
    ensures NonEmptyRows(s + [row]) == NonEmptyRows(s) + (if |row| > 0 then [row] else [])
  {
    assert (s + [row])[..|s|] == s;
  }

  /** The header comes from the first `<tr>` only (empty when that row has no cells). */
  function HeaderOf(trs: TableRows): seq<string>
  {
    if |trs| > 0 then trs[0] else []
  }

  /** The data rows: every later non-empty row. */
  function DataRows(trs: TableRows): TableRows
  {
    if |trs| > 0 then NonEmptyRows(trs[1..]) else []
  }

  /** No row is wider than `k` cells. */
  predicate AllWithin(rows: TableRows, k: nat)
  {
    |rows| == 0 || (|rows[0]| <= k && AllWithin(rows[1..], k))
  }

  lemma {:induction false} AllWithinMeans(rows: TableRows, k: nat)
    ensures AllWithin(rows, k) <==> forall i :: 0 <= i < |rows| ==> |rows[i]| <= k
  {
    if |rows| > 0 {
      AllWithinMeans(rows[1..], k);
      assert forall i :: 1 <= i < |rows| ==> rows[1..][i - 1] == rows[i];
    }
  }

  lemma AllWithinMin(rows: TableRows, a: nat, b: nat)
    ensures AllWithin(rows, if a <= b then a else b) <==> AllWithin(rows, a) && AllWithin(rows, b)
  {
    AllWithinMeans(rows, a);
    AllWithinMeans(rows, b);
    AllWithinMeans(rows, if a <= b then a else b);
  }

  /**
   * The frame built from a header and its data rows: empty without either,
   * otherwise the header cut to the first data row's width, normalised.
   */
  function FrameOf(headers: seq<string>, rows: TableRows): (f: Frame)
    ensures f.EmptyFrame? <==> |headers| == 0 || |rows| == 0
    ensures f.Frame? ==> f.rows == rows && |f.columns| == Min(|headers| as real, |rows[0]| as real) as int
    ensures f.Frame? ==> forall i :: 0 <= i < |f.columns| ==> f.columns[i] == NormalizeCol(headers[i])
    ensures f.ShapeError? <==>
              (|headers| > 0 && |rows| > 0 && !(AllWithin(rows, |headers|) && AllWithin(rows, |rows[0]|)))
  {
    if |headers| == 0 || |rows| == 0 then EmptyFrame
    else
      var k := if |headers| <= |rows[0]| then |headers| else |rows[0]|;
      AllWithinMin(rows, |headers|, |rows[0]|);
      if !AllWithin(rows, k) then ShapeError
      else Frame(NormalizeCols(headers[..k]), rows)
  }

  /** `parse_generic_table`, as a function of the table's rows. */
  function GenericTableOf(trs: TableRows): Frame
  {
    FrameOf(HeaderOf(trs), DataRows(trs))
  }

  /** `parse_generic_table`: the row loop keeps the first row as header and collects the rest. */
  method ParseGenericTable(trs: TableRows) returns (f: Frame)
    ensures f == GenericTableOf(trs)
  {
    var headers: seq<string> := [];
    var rows: TableRows := [];
    var i := 0;
    while i < |trs|
      invariant 0 <= i <= |trs|
      invariant headers == if i > 0 then trs[0] else []
      invariant rows == if i > 0 then NonEmptyRows(trs[1..i]) else []
    {
      if i > 0 {
        assert trs[1..i + 1] == trs[1..i] + [trs[i]];
        NonEmptyRowsSnoc(trs[1..i], trs[i]);
      }
      if |trs[i]| == 0 {
        i := i + 1;
        continue;
      }
      if i == 0 {
        headers := trs[i];
      } else {
        rows := rows + [trs[i]];
      }
      i := i + 1;
    }
    if i > 0 {
      assert trs[1..i] == trs[1..];
    }
    f := FrameOf(headers, rows);
  }

  /**
   * The header is the first row alone; the data rows are exactly the
   * later non-empty rows; the frame is empty iff one of the two is.
   */
  lemma GenericTableRows(trs: TableRows)
    ensures forall row :: row in DataRows(trs) <==> (exists i :: 1 <= i < |trs| && trs[i] == row) && |row| > 0
    ensures GenericTableOf(trs).EmptyFrame? <==> |trs| == 0 || |trs[0]| == 0 || DataRows(trs) == []
  {
    if |trs| > 0 {
      NonEmptyRowsMembers(trs[1..]);
      forall row ensures row in trs[1..] <==> exists i :: 1 <= i < |trs| && trs[i] == row {
        if row in trs[1..] {
          var j :| 0 <= j < |trs[1..]| && trs[1..][j] == row;
          assert trs[j + 1] == row;
        }
      }
    }
  }

  // ---------------------------------------------------------------------
  // find_table_after_heading
  // ---------------------------------------------------------------------

  /** A heading's stripped text and the first table after it in the document. */
  datatype Heading = Heading(text: string, nextTable: Option<TableRows>)

  /** The keyword argument: a bare string or a list. */
  datatype Keywords = Keyword(k: string) | KeywordList(ks: seq<string>)

  function KeywordsOf(kw: Keywords): seq<string>
  {
    match kw
    case Keyword(k) => [k]
    case KeywordList(ks) => ks
  }

  /** Some keyword occurs in the heading, both lower-cased. */
  predicate HeadingMatches(text: string, ks: seq<string>)
  {
    exists i :: 0 <= i < |ks| && Contains(Lower(text), Lower(ks[i]))
  }

  /** The position of the first matching heading, or -1. */
  function FirstMatch(headings: seq<Heading>, ks: seq<string>): (j: int)
    ensures -1 <= j < |headings|
    ensures j == -1 <==> forall i :: 0 <= i < |headings| ==> !HeadingMatches(headings[i].text, ks)
    ensures j >= 0 ==> HeadingMatches(headings[j].text, ks)
    ensures j >= 0 ==> forall i :: 0 <= i < j ==> !HeadingMatches(headings[i].text, ks)
  {
    if |headings| == 0 then -1
    else if HeadingMatches(headings[0].text, ks) then 0
    else
      var j := FirstMatch(headings[1..], ks);
      if j == -1 then -1 else j + 1
  }

  /**
   * `find_table_after_heading`: the table after the first heading that
   * mentions a keyword; `None` when no heading does, or when nothing
   * follows the first one that does.
   */
  function FindTableAfterHeading(headings: seq<Heading>, kw: Keywords): (r: Option<TableRows>)
    ensures FirstMatch(headings, KeywordsOf(kw)) == -1 ==> r.None?
    ensures FirstMatch(headings, KeywordsOf(kw)) >= 0 ==>
              r == headings[FirstMatch(headings, KeywordsOf(kw))].nextTable
  {
    var j := FirstMatch(headings, KeywordsOf(kw));
    if j == -1 then None else headings[j].nextTable
  }

  /** A bare keyword is searched exactly as a one-keyword list. */
  lemma BareKeywordIsList(headings: seq<Heading>, k: string)
    ensures FindTableAfterHeading(headings, Keyword(k)) == FindTableAfterHeading(headings, KeywordList([k]))
  {
  }

  // ---------------------------------------------------------------------
  // The parse pipeline
  // ---------------------------------------------------------------------

  /** What the parse pipeline sees of one AWR report. */
  datatype Page = Page(metadataFound: bool, headings: seq<Heading>, loadProfileFound: bool)

  const SqlKeywords: seq<string> := ["sql ordered by elapsed time", "sql ordered by cpu time", "sql statistics"]
  const WaitKeywords: seq<string> := [
    "top timed events", "foreground wait events", "wait events",
    "top foreground events", "top 10 foreground events"]
  const InstanceKeywords: seq<string> :=
    ["instance activity stats", "instance activity statistics", "instance activity"]

  /** `<stem>_<prefix>.csv`, the stem naming the section. */
  function FileName(stem: string, prefix: string): string
  {
    stem + "_" + prefix + ".csv"
  }

  /** A table section: no table, an empty frame, a frame worth a file, or a frame that fails. */
  datatype TableOutcome = NoFile | WritesFile | Raises

  /** The outcome of the table after the first heading that mentions one of `ks`. */
  function TableOutcomeOf(page: Page, ks: seq<string>): TableOutcome
  {
    var t := FindTableAfterHeading(page.headings, KeywordList(ks));
    if t.None? then NoFile
    else
      match GenericTableOf(t.value)
      case EmptyFrame => NoFile
      case Frame(_, _) => WritesFile
      case ShapeError => Raises
  }

  /** The outcome of the pipeline and of the parse: the files written, or why it raised. */
  datatype Outcome = Generated(files: seq<string>) | TableShapeFailure | MissingRequired(missing: seq<string>)

  function Opt(b: bool, name: string): seq<string>
  {
    if b then [name] else []
  }

  /**
   * The files written, one per section that yielded data, in the order
   * metadata, SQL statistics, wait events, load profile, instance activity.
   */
  function FilesWritten(metadata: bool, sql: bool, wait: bool, load: bool, inst: bool, prefix: string): (r: seq<string>)
  {
    Opt(metadata, FileName("awr_metadata", prefix)) + Opt(sql, FileName("awr_sql_stats", prefix))
    + Opt(wait, FileName("awr_wait_events", prefix)) + Opt(load, FileName("awr_load_profile", prefix))
    + Opt(inst, FileName("awr_instance_stats", prefix))
  }

  /** The pipeline's result from each section's outcome: a table that fails aborts it. */
  function PipelineFrom(metadata: bool, sql: TableOutcome, wait: TableOutcome, load: bool, inst: TableOutcome,
                        prefix: string): (r: Outcome)
  {
    if sql.Raises? || wait.Raises? || inst.Raises? then TableShapeFailure
    else Generated(FilesWritten(metadata, sql.WritesFile?, wait.WritesFile?, load, inst.WritesFile?, prefix))
  }

  /** `_run_parse_pipeline`, as a function of the page. */
  function PipelineOf(page: Page, prefix: string): Outcome
  {
    PipelineFrom(page.metadataFound, TableOutcomeOf(page, SqlKeywords), TableOutcomeOf(page, WaitKeywords),
                 page.loadProfileFound, TableOutcomeOf(page, InstanceKeywords), prefix)
  }

  /** One table section of the pipeline: find the table, then read it. */
  method TableSection(page: Page, ks: seq<string>) returns (o: TableOutcome)
    ensures o == TableOutcomeOf(page, ks)
  {
    var table := FindTableAfterHeading(page.headings, KeywordList(ks));
    if table.None? {
      return NoFile;
    }
    var df := ParseGenericTable(table.value);
    match df
    case EmptyFrame => o := NoFile;
    case Frame(_, _) => o := WritesFile;
    case ShapeError => o := Raises;
  }

  /** `_run_parse_pipeline`: reads the three table sections, then assembles the generated list. */
  method RunParsePipeline(page: Page, prefix: string) returns (r: Outcome)
    ensures r == PipelineOf(page, prefix)
  {
    var sql := TableSection(page, SqlKeywords);
    var wait := TableSection(page, WaitKeywords);
    var inst := TableSection(page, InstanceKeywords);
    r := Assemble(page.metadataFound, sql, wait, page.loadProfileFound, inst, prefix);
  }

  /**
   * The body of `_run_parse_pipeline` once each section's outcome is known:
   * appends one file name per section that yielded data, in section order,
   * and stops at the first table that fails.
   */
  method Assemble(metadata: bool, sql: TableOutcome, wait: TableOutcome, load: bool, inst: TableOutcome,
                  prefix: string) returns (r: Outcome)
    ensures r == PipelineFrom(metadata, sql, wait, load, inst, prefix)
  {
    var m := FileName("awr_metadata", prefix);
    var q := FileName("awr_sql_stats", prefix);
    var w := FileName("awr_wait_events", prefix);
    var l := FileName("awr_load_profile", prefix);
    var n := FileName("awr_instance_stats", prefix);
    var generated := AppendIf([], metadata, m);
    if sql.Raises? {
      return TableShapeFailure;
    }
    generated := AppendIf(generated, sql.WritesFile?, q);
    if wait.Raises? {
      return TableShapeFailure;
    }
    generated := AppendIf(generated, wait.WritesFile?, w);
    generated := AppendIf(generated, load, l);
    if inst.Raises? {
      return TableShapeFailure;
    }
    generated := AppendIf(generated, inst.WritesFile?, n);
    assert generated == Opt(metadata, m) + Opt(sql.WritesFile?, q) + Opt(wait.WritesFile?, w) + Opt(load, l)
                        + Opt(inst.WritesFile?, n);
    r := Generated(generated);
  }

  /** `if <section yielded data>: generated_files.append(filename)`. */
  method AppendIf(files: seq<string>, b: bool, name: string) returns (files': seq<string>)
    ensures files' == files + Opt(b, name)
  {
    files' := files;
    if b {
      files' := files' + [name];
    }
  }

  // ---------------------------------------------------------------------
  // parse_awr_with_prefix
  // ---------------------------------------------------------------------

  const RequiredPrefixes: seq<string> := ["awr_sql_stats", "awr_instance_stats", "awr_wait_events"]

  /** Some generated name contains `req`. */
  predicate Mentioned(req: string, files: seq<string>)
  {
    exists i :: 0 <= i < |files| && Contains(files[i], req)
  }

  /** The required prefixes no generated name contains, in the required order. */
  function MissingOf(required: seq<string>, files: seq<string>): (r: seq<string>)
    ensures |r| <= |required|
  {
    if |required| == 0 then []
    else (if Mentioned(required[0], files) then [] else [required[0]]) + MissingOf(required[1..], files)
  }

  /** `parse_awr_with_prefix`, as a function of the page. */
  function ParseOutcomeOf(page: Page, prefix: string): Outcome
  {
    match PipelineOf(page, prefix)
    case Generated(files) =>
      var missing := MissingOf(RequiredPrefixes, files);
      if |missing| > 0 then MissingRequired(missing) else Generated(files)
    case other => other
  }

  /**
   * `parse_awr_with_prefix`: runs the pipeline, then collects the required
   * prefixes no generated name contains and raises when there is one.
   */
  method ParseAwrWithPrefix(page: Page, prefix: string) returns (r: Outcome)
    ensures r == ParseOutcomeOf(page, prefix)
  {
    r := RunParsePipeline(page, prefix);
    if !r.Generated? {
      return;
    }
    var missing := CheckRequired(RequiredPrefixes, r.files);
    if |missing| > 0 {
      return MissingRequired(missing);
    }
  }

  /** The loop of `parse_awr_with_prefix` over the required prefixes. */
  method CheckRequired(required: seq<string>, files: seq<string>) returns (missing: seq<string>)
    ensures missing == MissingOf(required, files)
  {
    missing := [];
    var i := 0;
    while i < |required|
      invariant 0 <= i <= |required|
      invariant missing == MissingOf(required[..i], files)
    {
      MissingOfSnoc(required[..i], required[i], files);
      assert required[..i + 1] == required[..i] + [required[i]];
      if !Mentioned(required[i], files) {
        missing := missing + [required[i]];
      }
      i := i + 1;
    }
    assert required[..i] == required;
  }

  /** `MissingOf` checks one more required text at the end. */
  lemma {:induction false} MissingOfSnoc(required: seq<string>, x: string, files: seq<string>)
    ensures MissingOf(required + [x], files) == MissingOf(required, files) + MissingOf([x], files)
  {
    if |required| > 0 {
      assert (required + [x])[1..] == required[1..] + [x];
      MissingOfSnoc(required[1..], x, files);
    }
  }

  /** A text is missing exactly when it is required and no generated name contains it. */
  lemma {:induction false} MissingOfMembers(required: seq<string>, files: seq<string>)
    ensures forall x :: x in MissingOf(required, files) <==> x in required && !Mentioned(x, files)
  {
    if |required| > 0 {
      MissingOfMembers(required[1..], files);
      assert required == [required[0]] + required[1..];
    }
  }

  /** A file name starting with a text contains it. */
  lemma FileNameMentions(stem: string, prefix: string, files: seq<string>)
    requires FileName(stem, prefix) in files
    ensures Mentioned(stem, files)
  {
    var i :| 0 <= i < |files| && files[i] == FileName(stem, prefix);
    assert files[i][..|stem|] == stem;
    ContainsAt(files[i], stem, 0);
  }

  /** Nothing is missing when every required text is mentioned. */
  lemma {:induction false} AllMentioned(required: seq<string>, files: seq<string>)
    requires forall i :: 0 <= i < |required| ==> Mentioned(required[i], files)
    ensures MissingOf(required, files) == []
  {
    if |required| > 0 {
      AllMentioned(required[1..], files);
    }
  }

  /** With the three required prefixes mentioned, none is missing. */
  lemma RequiredMentioned(files: seq<string>)
    requires Mentioned("awr_sql_stats", files) && Mentioned("awr_wait_events", files)
    requires Mentioned("awr_instance_stats", files)
    ensures MissingOf(RequiredPrefixes, files) == []
  {
    AllMentioned(RequiredPrefixes, files);
  }

  /** With the three required files written, no required prefix is missing. */
  lemma RequiredFilesSuffice(metadata: bool, load: bool, prefix: string)
    ensures MissingOf(RequiredPrefixes, FilesWritten(metadata, true, true, load, true, prefix)) == []
  {
    var files := FilesWritten(metadata, true, true, load, true, prefix);
    FileNameMentions("awr_sql_stats", prefix, files);
    FileNameMentions("awr_wait_events", prefix, files);
    FileNameMentions("awr_instance_stats", prefix, files);
    RequiredMentioned(files);
  }

  /**
   * The parse succeeds, listing every file the pipeline wrote, whenever the
   * SQL statistics, wait events and instance activity tables all yield data.
   */
  lemma RequiredTablesSuffice(page: Page, prefix: string)
    requires TableOutcomeOf(page, SqlKeywords).WritesFile?
    requires TableOutcomeOf(page, WaitKeywords).WritesFile?
    requires TableOutcomeOf(page, InstanceKeywords).WritesFile?
    ensures ParseOutcomeOf(page, prefix) ==
              Generated(FilesWritten(page.metadataFound, true, true, page.loadProfileFound, true, prefix))
  {
    RequiredFilesSuffice(page.metadataFound, page.loadProfileFound, prefix);
  }

  /**
   * Conversely, when the prefix has no 'q', a report whose SQL statistics
   * table yields no data fails the required-file test with `awr_sql_stats` reported
   * first: no other file name can contain it.
   */
  lemma SqlStatsRequired(metadata: bool, wait: bool, load: bool, inst: bool, prefix: string)
    requires 'q' !in prefix
    ensures var missing := MissingOf(RequiredPrefixes, FilesWritten(metadata, false, wait, load, inst, prefix));
      |missing| > 0 && missing[0] == "awr_sql_stats"
  {
    var files := FilesWritten(metadata, false, wait, load, inst, prefix);
    var others := [FileName("awr_metadata", prefix), FileName("awr_wait_events", prefix),
                   FileName("awr_load_profile", prefix), FileName("awr_instance_stats", prefix)];
    forall j | 0 <= j < |others| ensures !Contains(others[j], "awr_sql_stats") {
      NoQInFileName(["awr_metadata", "awr_wait_events", "awr_load_profile", "awr_instance_stats"][j], prefix);
      MissingCharNotContained(others[j], "awr_sql_stats", 'q');
    }
    assert forall i :: 0 <= i < |files| ==> files[i] in others;
    assert !Mentioned("awr_sql_stats", files);
  }

  /** A file name has a 'q' only where its section or prefix has one. */
  lemma NoQInFileName(stem: string, prefix: string)
    requires 'q' !in stem && 'q' !in prefix
    ensures 'q' !in FileName(stem, prefix)
  {
  }

  /** A report that yields no file misses all three required prefixes, in the required order. */
  lemma NothingGeneratedMissesAll(page: Page, prefix: string)
    requires PipelineOf(page, prefix) == Generated([])
    ensures ParseOutcomeOf(page, prefix) == MissingRequired(RequiredPrefixes)
  {
    assert MissingOf(RequiredPrefixes, []) == RequiredPrefixes;
  }
}
