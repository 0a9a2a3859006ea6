/**
 * `sessions.py`: list the sessions (experiments) of an XNAT archive, or
 * delete or relabel the sessions named in a tab-separated worklist.
 *
 * The connection's contents are an `Archive` value; the worklist file's
 * rows are an input `seq<seq<string>>`.  Only explicit calls are logged:
 * `experiment.delete(...)` and `connection.put(...)`, plus the final
 * `disconnect()`.
 */
module Sessions {
  import opened Effects
  import opened Text

  /** An experiment object as the script reads it. `display` is `str(experiment)`. */
  datatype Experiment = Experiment(
    id: string,
    sessionLabel: string,
    insertDate: string,
    modality: string,
    scanCount: nat,
    subjectId: string,
    display: string)

  /**
   * What the connection shows: the project IDs in iteration order, the
   * experiments of each project, and the object `create_object(path)`
   * yields for an experiment path.
   */
  datatype Archive = Archive(
    projects: seq<string>,
    experiments: string -> seq<Experiment>,
    objects: string -> Experiment)

  /** The command line after argparse. */
  datatype Args = Args(
    extensionTypes: Option<string>,
    csvFile: Option<string>,
    list: bool,
    brief: bool,
    projectId: Option<string>,
    delete: bool,
    rename: bool)

  /** The brief layout is used only when the flag is present and exactly `True`. */
  predicate BriefChosen(brief: Option<bool>)
  {
    brief == Some(true)
  }

  const BriefColumns: seq<string> := ["Project ID", "Session ID", "Session Label"]
  const FullColumns: seq<string> := BriefColumns + ["Insert Date", "Modality", "Scan Count"]

  /** `format_session_header_rows`. */
  function SessionHeader(brief: Option<bool>): (h: string)
    ensures "Project ID\tSession ID\tSession Label" <= h
    ensures h == "Project ID\tSession ID\tSession Label" <==> BriefChosen(brief)
  {
    if brief.Some? && brief.value then "Project ID\tSession ID\tSession Label"
    else "Project ID\tSession ID\tSession Label" + "\t" + "Insert Date\tModality\tScan Count"
  }

  /** The brief header has the three leading columns of the full one, tab-separated. */
  lemma SessionHeaderColumns(brief: Option<bool>)
    ensures Split(SessionHeader(brief), '\t') == if BriefChosen(brief) then BriefColumns else FullColumns
  {
    ColumnsTabFree();
    if BriefChosen(brief) {
      BriefHeaderJoin();
      SplitJoin(BriefColumns, '\t');
    } else {
      FullHeaderJoin();
      SplitJoin(FullColumns, '\t');
    }
  }

  lemma ColumnsTabFree()
    ensures forall k :: 0 <= k < |FullColumns| ==> '\t' !in FullColumns[k]
    ensures FullColumns[..3] == BriefColumns
  {
  }

  lemma BriefHeaderJoin()
    ensures Join(BriefColumns, '\t') == "Project ID\tSession ID\tSession Label"
  {
    JoinThree("Project ID", "Session ID", "Session Label", '\t');
  }

  lemma FullHeaderJoin()
    ensures Join(FullColumns, '\t') == "Project ID\tSession ID\tSession Label" + "\t" + "Insert Date\tModality\tScan Count"
  {
    BriefHeaderJoin();
    ExtraColumnsJoin();
    JoinAppend(BriefColumns, ["Insert Date", "Modality", "Scan Count"], '\t');
  }

  lemma ExtraColumnsJoin()
    ensures Join(["Insert Date", "Modality", "Scan Count"], '\t') == "Insert Date\tModality\tScan Count"
  {
    JoinThree("Insert Date", "Modality", "Scan Count", '\t');
  }

  /** `format_session_data`: one row per experiment, brief or full. */
  function SessionRow(projectId: string, e: Experiment, brief: Option<bool>): string
  {
    if brief.Some? && brief.value then projectId + "\t" + e.id + "\t" + e.sessionLabel + "\t "
    else
      projectId + "\t" + e.id + "\t" + e.sessionLabel + "\t" + e.insertDate + "\t" + e.modality
        + "\t" + Decimal(e.scanCount) + " "
  }

  /** The fields of an experiment that end up in a row carry no tab. */
  predicate TabFree(projectId: string, e: Experiment)
  {
    '\t' !in projectId && '\t' !in e.id && '\t' !in e.sessionLabel && '\t' !in e.insertDate && '\t' !in e.modality
  }

  /**
   * A brief row splits into project, ID, label and a lone space; a full row
   * into six fields whose last is the scan count followed by a space.
   */
  lemma SessionRowFields(projectId: string, e: Experiment, brief: Option<bool>)
    requires TabFree(projectId, e)
    ensures var fields := Split(SessionRow(projectId, e, brief), '\t');
      if BriefChosen(brief) then fields == [projectId, e.id, e.sessionLabel, " "]
      else
        fields == [projectId, e.id, e.sessionLabel, e.insertDate, e.modality, Decimal(e.scanCount) + " "]
        && ParseDecimal(fields[5][..|fields[5]| - 1]) == e.scanCount
  {
    if BriefChosen(brief) {
      JoinFour(projectId, e.id, e.sessionLabel, " ", '\t');
      assert SessionRow(projectId, e, brief) == Join([projectId, e.id, e.sessionLabel, " "], '\t');
      SplitJoin([projectId, e.id, e.sessionLabel, " "], '\t');
    } else {
      var count := Decimal(e.scanCount) + " ";
      DecimalIsDigits(e.scanCount, '\t');
      var front, back := [projectId, e.id, e.sessionLabel], [e.insertDate, e.modality, count];
      JoinThree(projectId, e.id, e.sessionLabel, '\t');
      JoinThree(e.insertDate, e.modality, count, '\t');
      JoinAppend(front, back, '\t');
      assert front + back == [projectId, e.id, e.sessionLabel, e.insertDate, e.modality, count];
      assert SessionRow(projectId, e, brief) == Join(front + back, '\t');
      SplitJoin(front + back, '\t');
      assert count[..|count| - 1] == Decimal(e.scanCount);
      ParseDecimalOfDecimal(e.scanCount);
    }
  }

  /** The `--project` filter of the archive listing. */
  predicate Listed(filter: Option<string>, project: string)
  {
    filter.None? || filter.value == project
  }

  /** The rows of one project, one per experiment, in the project's order. */
  function ProjectRows(a: Archive, project: string, brief: Option<bool>): (rows: seq<string>)
    ensures |rows| == |a.experiments(project)|
  {
    var exps := a.experiments(project);
    seq(|exps|, j requires 0 <= j < |exps| => SessionRow(project, exps[j], brief))
  }

  /** The rows listed for `projects` under `filter`, project by project. */
  function ArchiveRows(a: Archive, projects: seq<string>, filter: Option<string>, brief: Option<bool>): seq<string>
    decreases |projects|
  {
    if projects == [] then []
    else
      var last := projects[|projects| - 1];
      ArchiveRows(a, projects[..|projects| - 1], filter, brief)
        + (if Listed(filter, last) then ProjectRows(a, last, brief) else [])
  }

  /** The projects the filter lets through, in order. */
  function Matching(projects: seq<string>, filter: Option<string>): (r: seq<string>)
    ensures |r| <= |projects|
    decreases |projects|
  {
    if projects == [] then []
    else
      var last := projects[|projects| - 1];
      Matching(projects[..|projects| - 1], filter) + (if Listed(filter, last) then [last] else [])
  }

  /** A project is kept exactly when it is listed and passes the filter. */
  lemma {:induction false} MatchingMembers(projects: seq<string>, filter: Option<string>, p: string)
    ensures p in Matching(projects, filter) <==> p in projects && Listed(filter, p)
    decreases |projects|
  {
    if projects != [] {
      var init, last := projects[..|projects| - 1], projects[|projects| - 1];
      assert projects == init + [last];
      MatchingMembers(init, filter, p);
    }
  }

  /** Filtering lists exactly the rows of the matching projects, unfiltered. */
  lemma {:induction false} FilterSelectsProjects(a: Archive, projects: seq<string>, filter: Option<string>, brief: Option<bool>)
    ensures ArchiveRows(a, projects, filter, brief) == ArchiveRows(a, Matching(projects, filter), None, brief)
    decreases |projects|
  {
    if projects != [] {
      var init, last := projects[..|projects| - 1], projects[|projects| - 1];
      FilterSelectsProjects(a, init, filter, brief);
      var m := Matching(init, filter);
      if Listed(filter, last) {
        assert Matching(projects, filter) == m + [last];
        assert (m + [last])[..|m|] == m;
        assert ArchiveRows(a, m + [last], None, brief) == ArchiveRows(a, m, None, brief) + ProjectRows(a, last, brief);
      } else {
        assert Matching(projects, filter) == m;
      }
    }
  }

  /** With distinct project IDs, filtering on one ID lists that project's rows or nothing. */
  lemma {:induction false} FilterOnOneProject(a: Archive, projects: seq<string>, p: string, brief: Option<bool>)
    requires forall i, j :: 0 <= i < j < |projects| ==> projects[i] != projects[j]
    ensures ArchiveRows(a, projects, Some(p), brief) == if p in projects then ProjectRows(a, p, brief) else []
    decreases |projects|
  {
    if projects != [] {
      var init, last := projects[..|projects| - 1], projects[|projects| - 1];
      assert projects == init + [last];
      FilterOnOneProject(a, init, p, brief);
    }
  }

  /** Index of the first worklist row with fewer than `width` columns, or the row count. */
  function ShortRow(rows: seq<seq<string>>, width: nat): (k: nat)
    ensures k <= |rows|
    ensures forall j :: 0 <= j < k ==> |rows[j]| >= width
    ensures k < |rows| ==> |rows[k]| < width
  {
    if rows == [] then 0
    else if |rows[0]| < width then 0
    else 1 + ShortRow(rows[1..], width)
  }

  /** Every row has at least `width` columns. */
  predicate Wide(rows: seq<seq<string>>, width: nat)
  {
    forall j :: 0 <= j < |rows| ==> |rows[j]| >= width
  }

  /** A loop that stopped at row `k` stopped at the first short row. */
  lemma ShortRowAt(rows: seq<seq<string>>, width: nat, k: nat)
    requires k <= |rows| && Wide(rows[..k], width)
    requires k < |rows| ==> |rows[k]| < width
    ensures ShortRow(rows, width) == k
  {
  }

  /** The path `create_object` is given for a worklist row. */
  function ExperimentPath(project: string, experiment: string): string
  {
    "/data/projects/" + project + "/experiments/" + experiment
  }

  /** The experiment object named by a row's first two columns. */
  function RowObject(a: Archive, row: seq<string>): Experiment
    requires |row| >= 2
  {
    a.objects(ExperimentPath(row[0], row[1]))
  }

  /** The data rows of a worklist listing, one per input row, in input order. */
  function WorklistRows(a: Archive, rows: seq<seq<string>>, brief: Option<bool>): (lines: seq<string>)
    requires Wide(rows, 2)
    ensures |lines| == |rows|
  {
    seq(|rows|, j requires 0 <= j < |rows| => SessionRow(rows[j][0], RowObject(a, rows[j]), brief))
  }

  /**
   * `execute_session_list`: without a worklist, every listed project's
   * experiments; with one, a row per worklist row, up to the first row
   * with fewer than two columns, which raises `IndexError`.
   */
  function SessionListSpec(a: Archive, args: Args, worklist: seq<seq<string>>): Run
  {
    var brief := Some(args.brief);
    if args.csvFile.None? then
      Run(Prints(["\nSession List", SessionHeader(brief)] + ArchiveRows(a, a.projects, args.projectId, brief)), Completed)
    else
      var k := ShortRow(worklist, 2);
      Run(Prints(["\nSelected Sessions", SessionHeader(brief)] + WorklistRows(a, worklist[..k], brief)),
          if k < |worklist| then Raised(IndexError) else Completed)
  }

  method ListSessions(a: Archive, args: Args, worklist: seq<seq<string>>) returns (log: seq<Event>, outcome: Outcome)
    ensures Run(log, outcome) == SessionListSpec(a, args, worklist)
    ensures Calls(log) == []
  {
    var brief := Some(args.brief);
    var rows: seq<Event>;
    if args.csvFile.None? {
      log := [Print("\nSession List"), Print(SessionHeader(brief))];
      rows := ListArchive(a, args.projectId, brief);
      outcome := Completed;
    } else {
      log := [Print("\nSelected Sessions"), Print(SessionHeader(brief))];
      rows, outcome := ListWorklist(a, worklist, brief);
    }
    log := log + rows;
    ListSpecUnfold(a, args, worklist);
    ListSpecCalls(a, args, worklist);
  }

  /** The listing's events: title and header, then the rows. */
  lemma ListSpecUnfold(a: Archive, args: Args, worklist: seq<seq<string>>)
    ensures var brief := Some(args.brief); var run := SessionListSpec(a, args, worklist);
      if args.csvFile.None? then
        run == Run([Print("\nSession List"), Print(SessionHeader(brief))] + Prints(ArchiveRows(a, a.projects, args.projectId, brief)), Completed)
      else
        var k := ShortRow(worklist, 2);
        run.log == [Print("\nSelected Sessions"), Print(SessionHeader(brief))] + Prints(WorklistRows(a, worklist[..k], brief))
  {
    var brief := Some(args.brief);
    if args.csvFile.None? {
      PrintsAppend(["\nSession List", SessionHeader(brief)], ArchiveRows(a, a.projects, args.projectId, brief));
    } else {
      var k := ShortRow(worklist, 2);
      PrintsAppend(["\nSelected Sessions", SessionHeader(brief)], WorklistRows(a, worklist[..k], brief));
    }
  }

  /** A worklist listing fails exactly when some row has fewer than two columns; the full listing never fails. */
  lemma ListOutcome(a: Archive, args: Args, worklist: seq<seq<string>>)
    ensures SessionListSpec(a, args, worklist).outcome.Raised? <==> args.csvFile.Some? && !Wide(worklist, 2)
  {
  }

  /** The listing without a worklist: every experiment of every project the filter lets through. */
  method ListArchive(a: Archive, filter: Option<string>, brief: Option<bool>) returns (log: seq<Event>)
    ensures log == Prints(ArchiveRows(a, a.projects, filter, brief))
  {
    log := [];
    var i := 0;
    while i < |a.projects|
      invariant i <= |a.projects|
      invariant log == Prints(ArchiveRows(a, a.projects[..i], filter, brief))
    {
      var proj := a.projects[i];
      ghost var done := ArchiveRows(a, a.projects[..i], filter, brief);
      if filter.None? || filter.value == proj {
        var rows := ListProject(a, proj, brief);
        log := log + rows;
        PrintsAppend(done, ProjectRows(a, proj, brief));
      }
      assert a.projects[..i + 1][..i] == a.projects[..i];
      i := i + 1;
    }
    assert a.projects[..i] == a.projects;
  }

  /** The rows of one project, experiment by experiment. */
  method ListProject(a: Archive, proj: string, brief: Option<bool>) returns (log: seq<Event>)
    ensures log == Prints(ProjectRows(a, proj, brief))
  {
    var experiments := a.experiments(proj);
    log := [];
    var j := 0;
    while j < |experiments|
      invariant j <= |experiments|
      invariant log == Prints(ProjectRows(a, proj, brief)[..j])
    {
      PrintsSnoc(ProjectRows(a, proj, brief)[..j], SessionRow(proj, experiments[j], brief));
      assert ProjectRows(a, proj, brief)[..j + 1] == ProjectRows(a, proj, brief)[..j] + [SessionRow(proj, experiments[j], brief)];
      log := log + [Print(SessionRow(proj, experiments[j], brief))];
      j := j + 1;
    }
    assert ProjectRows(a, proj, brief)[..j] == ProjectRows(a, proj, brief);
  }

  /** The listing driven by a worklist: a row per input row until a row lacks a column. */
  method ListWorklist(a: Archive, worklist: seq<seq<string>>, brief: Option<bool>) returns (log: seq<Event>, outcome: Outcome)
    ensures var k := ShortRow(worklist, 2);
      log == Prints(WorklistRows(a, worklist[..k], brief)) &&
      outcome == if k < |worklist| then Raised(IndexError) else Completed
  {
    log := [];
    outcome := Completed;
    var i := 0;
    while i < |worklist|
      invariant i <= |worklist|
      invariant Wide(worklist[..i], 2)
      invariant log == Prints(WorklistRows(a, worklist[..i], brief))
    {
      var row := worklist[i];
      if |row| < 2 {
        outcome := Raised(IndexError);
        ShortRowAt(worklist, 2, i);
        return;
      }
      var experiment := a.objects(ExperimentPath(row[0], row[1]));
      PrintsSnoc(WorklistRows(a, worklist[..i], brief), SessionRow(row[0], experiment, brief));
      assert WorklistRows(a, worklist[..i + 1], brief) == WorklistRows(a, worklist[..i], brief) + [SessionRow(row[0], experiment, brief)];
      log := log + [Print(SessionRow(row[0], experiment, brief))];
      i := i + 1;
    }
    ShortRowAt(worklist, 2, i);
  }

  /** A session listing only prints. */
  lemma ListSpecCalls(a: Archive, args: Args, worklist: seq<seq<string>>)
    ensures Calls(SessionListSpec(a, args, worklist).log) == []
  {
    var brief := Some(args.brief);
    if args.csvFile.None? {
      CallsPrints(["\nSession List", SessionHeader(brief)] + ArchiveRows(a, a.projects, args.projectId, brief));
    } else {
      var k := ShortRow(worklist, 2);
      CallsPrints(["\nSelected Sessions", SessionHeader(brief)] + WorklistRows(a, worklist[..k], brief));
    }
  }

  /** The line printed before deleting a row's experiment. */
  function DeleteLine(a: Archive, row: seq<string>): string
    requires |row| >= 2
  {
    row[0] + "\t" + row[1] + "\t" + RowObject(a, row).display
  }

  /** The events for one worklist row: the line, then the delete with its files. */
  function DeleteStep(a: Archive, row: seq<string>): seq<Event>
    requires |row| >= 2
  {
    [Print(DeleteLine(a, row)), Delete(ExperimentPath(row[0], row[1]), true)]
  }

  function DeleteEvents(a: Archive, rows: seq<seq<string>>): seq<Event>
    requires Wide(rows, 2)
    decreases |rows|
  {
    if rows == [] then []
    else DeleteEvents(a, rows[..|rows| - 1]) + DeleteStep(a, rows[|rows| - 1])
  }

  /**
   * `execute_session_delete`: with no worklist, `open(None)` raises
   * `TypeError` after the title; otherwise one delete per row up to the
   * first row with fewer than two columns.
   */
  function DeleteSpec(a: Archive, args: Args, worklist: seq<seq<string>>): Run
  {
    var title := [Print("\nDelete Sessions")];
    if args.csvFile.None? then Run(title, Raised(TypeError))
    else
      var k := ShortRow(worklist, 2);
      Run(title + DeleteEvents(a, worklist[..k]), if k < |worklist| then Raised(IndexError) else Completed)
  }

  /** One delete, removing files, per row, of the experiment the row names. */
  function Deletions(rows: seq<seq<string>>): (calls: seq<Event>)
    requires Wide(rows, 2)
    ensures |calls| == |rows|
  {
    seq(|rows|, j requires 0 <= j < |rows| => Delete(ExperimentPath(rows[j][0], rows[j][1]), true))
  }

  lemma DeletionsSnoc(rows: seq<seq<string>>)
    requires rows != [] && Wide(rows, 2)
    ensures var last := rows[|rows| - 1];
      Deletions(rows) == Deletions(rows[..|rows| - 1]) + [Delete(ExperimentPath(last[0], last[1]), true)]
  {
    var init, last := rows[..|rows| - 1], rows[|rows| - 1];
    var x, y := Deletions(rows), Deletions(init) + [Delete(ExperimentPath(last[0], last[1]), true)];
    assert |x| == |y|;
    forall j | 0 <= j < |x| ensures x[j] == y[j] {
      if j < |init| { assert init[j] == rows[j]; }
    }
  }

  /** The delete loop's only calls are one delete per row, in row order. */
  lemma {:induction false} DeleteCalls(a: Archive, rows: seq<seq<string>>)
    requires Wide(rows, 2)
    ensures Calls(DeleteEvents(a, rows)) == Deletions(rows)
    decreases |rows|
  {
    if rows != [] {
      var init, last := rows[..|rows| - 1], rows[|rows| - 1];
      DeleteCalls(a, init);
      CallsAppend(DeleteEvents(a, init), DeleteStep(a, last));
      assert Calls(DeleteStep(a, last)) == [Delete(ExperimentPath(last[0], last[1]), true)];
      DeletionsSnoc(rows);
    }
  }

  method DeleteSessions(a: Archive, args: Args, worklist: seq<seq<string>>) returns (log: seq<Event>, outcome: Outcome)
    ensures Run(log, outcome) == DeleteSpec(a, args, worklist)
    ensures Calls(log) == if args.csvFile.None? then [] else Deletions(worklist[..ShortRow(worklist, 2)])
  {
    log := [Print("\nDelete Sessions")];
    if args.csvFile.None? {
      outcome := Raised(TypeError);
      DeleteSpecCalls(a, args, worklist);
      return;
    }
    outcome := Completed;
    var i := 0;
    while i < |worklist|
      invariant i <= |worklist|
      invariant Wide(worklist[..i], 2)
      invariant log == [Print("\nDelete Sessions")] + DeleteEvents(a, worklist[..i])
    {
      var row := worklist[i];
      if |row| < 2 {
        outcome := Raised(IndexError);
        break;
      }
      ghost var before := log;
      var experiment := a.objects(ExperimentPath(row[0], row[1]));
      log := log + [Print(row[0] + "\t" + row[1] + "\t" + experiment.display)];
      log := log + [Delete(ExperimentPath(row[0], row[1]), true)];
      assert log == before + DeleteStep(a, row);
      assert worklist[..i + 1][..i] == worklist[..i];
      i := i + 1;
    }
    ShortRowAt(worklist, 2, i);
    DeleteSpecCalls(a, args, worklist);
  }

  lemma DeleteSpecCalls(a: Archive, args: Args, worklist: seq<seq<string>>)
    ensures Calls(DeleteSpec(a, args, worklist).log) ==
      if args.csvFile.None? then [] else Deletions(worklist[..ShortRow(worklist, 2)])
  {
    var title := [Print("\nDelete Sessions")];
    assert title == Prints(["\nDelete Sessions"]);
    CallsPrints(["\nDelete Sessions"]);
    if args.csvFile.Some? {
      var k := ShortRow(worklist, 2);
      DeleteCalls(a, worklist[..k]);
      CallsAppend(title, DeleteEvents(a, worklist[..k]));
    }
  }

  /** The character of an escape sequence `\c` in a Python string literal. */
  function EscapeChar(c: char, quote: char): string
  {
    if c == '\\' then "\\\\"
    else if c == quote then ['\\', quote]
    else if c == '\n' then "\\n"
    else if c == '\r' then "\\r"
    else if c == '\t' then "\\t"
    else [c]
  }

  function Escaped(s: string, quote: char): string
  {
    if s == [] then [] else EscapeChar(s[0], quote) + Escaped(s[1..], quote)
  }

  /**
   * Python's `repr` of a string: single quotes unless the text holds a
   * single quote and no double quote; backslashes, the chosen quote and
   * line breaks and tabs escaped.
   */
  function Repr(s: string): (r: string)
    ensures |r| >= 2 && r[0] == r[|r| - 1] && r[0] in "'\""
  {
    var quote := if '\'' in s && '"' !in s then '"' else '\'';
    [quote] + Escaped(s, quote) + [quote]
  }

  /** Reads escapes back: the inverse of `Escaped`. */
  function Unescaped(s: string): string
  {
    if s == [] then []
    else if s[0] == '\\' && |s| >= 2 then
      [if s[1] == 'n' then '\n' else if s[1] == 'r' then '\r' else if s[1] == 't' then '\t' else s[1]]
        + Unescaped(s[2..])
    else [s[0]] + Unescaped(s[1..])
  }

  lemma {:induction false} UnescapeEscaped(s: string, quote: char)
    requires quote !in "\\nrt"
    ensures Unescaped(Escaped(s, quote)) == s
  {
    if s != [] {
      var e := EscapeChar(s[0], quote);
      UnescapeEscaped(s[1..], quote);
      assert (e + Escaped(s[1..], quote))[|e|..] == Escaped(s[1..], quote);
      if |e| == 2 {
        assert e + Escaped(s[1..], quote) == [e[0], e[1]] + Escaped(s[1..], quote);
      } else {
        assert e + Escaped(s[1..], quote) == [e[0]] + Escaped(s[1..], quote);
      }
    }
  }

  /** The representation determines the label: reading it back gives the label itself. */
  lemma ReprRoundTrip(s: string)
    ensures var r := Repr(s); Unescaped(r[1..|r| - 1]) == s
  {
    var quote := if '\'' in s && '"' !in s then '"' else '\'';
    var r := Repr(s);
    assert r[1..|r| - 1] == Escaped(s, quote);
    UnescapeEscaped(s, quote);
  }

  /** A character `repr` shows as itself inside `quote`s. */
  predicate PlainChar(c: char, quote: char)
  {
    c != quote && c != '\\' && c != '\n' && c != '\r' && c != '\t'
  }

  /** A label without quotes, backslashes, line breaks or tabs is shown in single quotes as it is. */
  lemma PlainRepr(s: string)
    requires forall k :: 0 <= k < |s| ==> PlainChar(s[k], '\'') && s[k] != '"'
    ensures Repr(s) == "'" + s + "'"
  {
    assert '\'' !in s;
    PlainEscaped(s, '\'');
  }

  lemma {:induction false} PlainEscaped(s: string, quote: char)
    requires forall k :: 0 <= k < |s| ==> PlainChar(s[k], quote)
    ensures Escaped(s, quote) == s
  {
    if s != [] {
      PlainEscaped(s[1..], quote);
    }
  }

  /** The query `{"label": label}` of a rename, and its printed form. */
  function LabelQuery(newLabel: string): map<string, string>
  {
    map["label" := newLabel]
  }

  function QueryText(newLabel: string): string
  {
    "{'label': " + Repr(newLabel) + "}"
  }

  /** The REST path a rename is sent to. */
  function RenamePath(project: string, subjectId: string, experimentId: string): string
  {
    "/REST/projects/" + project + "/subjects/" + subjectId + "/experiments/" + experimentId
  }

  /** The events for one worklist row: two lines, then the PUT with the new label. */
  function RenameStep(a: Archive, row: seq<string>): seq<Event>
    requires |row| >= 3
  {
    var e := RowObject(a, row);
    var path := RenamePath(row[0], e.subjectId, e.id);
    [Print(row[0] + "\t" + row[1] + "\t" + row[2] + "\t" + e.display + " " + QueryText(row[2])),
     Print(path + " " + QueryText(row[2])),
     Put(path, LabelQuery(row[2]))]
  }

  function RenameEvents(a: Archive, rows: seq<seq<string>>): seq<Event>
    requires Wide(rows, 3)
    decreases |rows|
  {
    if rows == [] then []
    else RenameEvents(a, rows[..|rows| - 1]) + RenameStep(a, rows[|rows| - 1])
  }

  /**
   * `execute_session_rename`: `TypeError` with no worklist; otherwise one
   * rename per row up to the first row with fewer than three columns.
   */
  function RenameSpec(a: Archive, args: Args, worklist: seq<seq<string>>): Run
  {
    var title := [Print("\nRename Sessions")];
    if args.csvFile.None? then Run(title, Raised(TypeError))
    else
      var k := ShortRow(worklist, 3);
      Run(title + RenameEvents(a, worklist[..k]), if k < |worklist| then Raised(IndexError) else Completed)
  }

  /** One PUT per row, to the subject-scoped path of the row's experiment, with the row's third column as label. */
  function Renames(a: Archive, rows: seq<seq<string>>): (calls: seq<Event>)
    requires Wide(rows, 3)
    ensures |calls| == |rows|
  {
    seq(|rows|, j requires 0 <= j < |rows| =>
      Put(RenamePath(rows[j][0], RowObject(a, rows[j]).subjectId, RowObject(a, rows[j]).id), LabelQuery(rows[j][2])))
  }

  lemma RenameStepCalls(a: Archive, row: seq<string>)
    requires |row| >= 3
    ensures var e := RowObject(a, row);
      Calls(RenameStep(a, row)) == [Put(RenamePath(row[0], e.subjectId, e.id), LabelQuery(row[2]))]
  {
    var step := RenameStep(a, row);
    assert step == Prints([step[0].line, step[1].line]) + [step[2]];
    CallsAppend(Prints([step[0].line, step[1].line]), [step[2]]);
    CallsPrints([step[0].line, step[1].line]);
    CallsOnly([step[2]]);
  }

  lemma RenamesSnoc(a: Archive, rows: seq<seq<string>>)
    requires rows != [] && Wide(rows, 3)
    ensures var last := rows[|rows| - 1]; var e := RowObject(a, last);
      Renames(a, rows) == Renames(a, rows[..|rows| - 1]) + [Put(RenamePath(last[0], e.subjectId, e.id), LabelQuery(last[2]))]
  {
    var init, last := rows[..|rows| - 1], rows[|rows| - 1];
    var e := RowObject(a, last);
    var x, y := Renames(a, rows), Renames(a, init) + [Put(RenamePath(last[0], e.subjectId, e.id), LabelQuery(last[2]))];
    assert |x| == |y|;
    forall j | 0 <= j < |x| ensures x[j] == y[j] {
      if j < |init| { assert init[j] == rows[j]; }
    }
  }

  /** The rename loop's only calls are one PUT per row, in row order. */
  lemma {:induction false} RenameCalls(a: Archive, rows: seq<seq<string>>)
    requires Wide(rows, 3)
    ensures Calls(RenameEvents(a, rows)) == Renames(a, rows)
    decreases |rows|
  {
    if rows != [] {
      var init, last := rows[..|rows| - 1], rows[|rows| - 1];
      RenameCalls(a, init);
      CallsAppend(RenameEvents(a, init), RenameStep(a, last));
      RenameStepCalls(a, last);
      RenamesSnoc(a, rows);
    }
  }

  method RenameSessions(a: Archive, args: Args, worklist: seq<seq<string>>) returns (log: seq<Event>, outcome: Outcome)
    ensures Run(log, outcome) == RenameSpec(a, args, worklist)
    ensures Calls(log) == if args.csvFile.None? then [] else Renames(a, worklist[..ShortRow(worklist, 3)])
  {
    log := [Print("\nRename Sessions")];
    if args.csvFile.None? {
      outcome := Raised(TypeError);
      RenameSpecCalls(a, args, worklist);
      return;
    }
    outcome := Completed;
    var i := 0;
    while i < |worklist|
      invariant i <= |worklist|
      invariant Wide(worklist[..i], 3)
      invariant log == [Print("\nRename Sessions")] + RenameEvents(a, worklist[..i])
    {
      var row := worklist[i];
      if |row| < 3 {
        outcome := Raised(IndexError);
        break;
      }
      ghost var before := log;
      var experiment := a.objects(ExperimentPath(row[0], row[1]));
      var subjectId := experiment.subjectId;
      var experimentId := experiment.id;
      var queryArguments := LabelQuery(row[2]);
      log := log + [Print(row[0] + "\t" + row[1] + "\t" + row[2] + "\t" + experiment.display + " " + QueryText(row[2]))];
      var urlPath := RenamePath(row[0], subjectId, experimentId);
      log := log + [Print(urlPath + " " + QueryText(row[2]))];
      log := log + [Put(urlPath, queryArguments)];
      assert log == before + RenameStep(a, row);
      assert worklist[..i + 1][..i] == worklist[..i];
      i := i + 1;
    }
    ShortRowAt(worklist, 3, i);
    RenameSpecCalls(a, args, worklist);
  }

  lemma RenameSpecCalls(a: Archive, args: Args, worklist: seq<seq<string>>)
    ensures Calls(RenameSpec(a, args, worklist).log) ==
      if args.csvFile.None? then [] else Renames(a, worklist[..ShortRow(worklist, 3)])
  {
    var title := [Print("\nRename Sessions")];
    assert title == Prints(["\nRename Sessions"]);
    CallsPrints(["\nRename Sessions"]);
    if args.csvFile.Some? {
      var k := ShortRow(worklist, 3);
      RenameCalls(a, worklist[..k]);
      CallsAppend(title, RenameEvents(a, worklist[..k]));
    }
  }

  /** The operation the main block picks: list, else delete, else rename, else a complaint. */
  function SessionsBody(a: Archive, args: Args, worklist: seq<seq<string>>): Run
  {
    if args.list then SessionListSpec(a, args, worklist)
    else if args.delete then DeleteSpec(a, args, worklist)
    else if args.rename then RenameSpec(a, args, worklist)
    else Run(Prints(["Neighbor list nor delete specified on commandline"]), Completed)
  }

  function SessionsMain(a: Archive, args: Args, worklist: seq<seq<string>>): Run
  {
    MainBlock(ExtensionTypesEcho(args.extensionTypes), SessionsBody(a, args, worklist))
  }

  /** The calls of the chosen operation: none for a listing, deletions or renames otherwise. */
  lemma SessionsBodyCalls(a: Archive, args: Args, worklist: seq<seq<string>>)
    ensures var calls := Calls(SessionsBody(a, args, worklist).log);
      if args.list || args.csvFile.None? then calls == []
      else if args.delete then calls == Deletions(worklist[..ShortRow(worklist, 2)])
      else if args.rename then calls == Renames(a, worklist[..ShortRow(worklist, 3)])
      else calls == []
  {
    if args.list {
      ListSpecCalls(a, args, worklist);
    } else if args.delete {
      DeleteSpecCalls(a, args, worklist);
    } else if args.rename {
      RenameSpecCalls(a, args, worklist);
    } else {
      CallsPrints(["Neighbor list nor delete specified on commandline"]);
    }
  }

  /** The script's choice of operation, in the order it tests the flags. */
  method Dispatch(a: Archive, args: Args, worklist: seq<seq<string>>) returns (log: seq<Event>, outcome: Outcome)
    ensures Run(log, outcome) == SessionsBody(a, args, worklist)
  {
    if args.list {
      log, outcome := ListSessions(a, args, worklist);
    } else if args.delete {
      log, outcome := DeleteSessions(a, args, worklist);
    } else if args.rename {
      log, outcome := RenameSessions(a, args, worklist);
    } else {
      log := [Print("Neighbor list nor delete specified on commandline")];
      outcome := Completed;
    }
  }

  /** The script's main block; the disconnect is reached only when the operation completes. */
  method RunSessions(a: Archive, args: Args, worklist: seq<seq<string>>) returns (log: seq<Event>, outcome: Outcome)
    ensures Run(log, outcome) == SessionsMain(a, args, worklist)
    ensures outcome.Completed? <==> Disconnect in log
    ensures outcome.Completed? ==> log[|log| - 1] == Disconnect
  {
    log := [Print(ExtensionTypesEcho(args.extensionTypes))];
    var body: seq<Event>;
    body, outcome := Dispatch(a, args, worklist);
    log := log + body;
    if outcome.Completed? {
      log := log + [Disconnect];
    }
    SessionsBodyNeverDisconnects(a, args, worklist);
    MainBlockDisconnects(ExtensionTypesEcho(args.extensionTypes), SessionsBody(a, args, worklist));
  }

  lemma SessionsBodyNeverDisconnects(a: Archive, args: Args, worklist: seq<seq<string>>)
    ensures Disconnect !in SessionsBody(a, args, worklist).log
  {
    var body := SessionsBody(a, args, worklist);
    if Disconnect in body.log {
      var k :| 0 <= k < |body.log| && body.log[k] == Disconnect;
      CallsKeep(body.log, k);
      SessionsBodyCalls(a, args, worklist);
    }
  }

  /** Listing takes precedence: a run with `--list` deletes and renames nothing. */
  lemma ListRunChangesNothing(a: Archive, args: Args, worklist: seq<seq<string>>)
    requires args.list
    ensures Calls(SessionsMain(a, args, worklist).log) ==
      if SessionsBody(a, args, worklist).outcome.Completed? then [Disconnect] else []
  {
    MainBlockCalls(ExtensionTypesEcho(args.extensionTypes), SessionsBody(a, args, worklist));
    SessionsBodyCalls(a, args, worklist);
  }

  /** Delete over a well-formed worklist: one delete per row, then the disconnect. */
  lemma DeleteRunCalls(a: Archive, args: Args, worklist: seq<seq<string>>)
    requires !args.list && args.delete && args.csvFile.Some? && Wide(worklist, 2)
    ensures Calls(SessionsMain(a, args, worklist).log) == Deletions(worklist) + [Disconnect]
  {
    MainBlockCalls(ExtensionTypesEcho(args.extensionTypes), SessionsBody(a, args, worklist));
    SessionsBodyCalls(a, args, worklist);
    assert ShortRow(worklist, 2) == |worklist|;
    assert worklist[..|worklist|] == worklist;
  }

  /** Rename over a well-formed worklist: one PUT per row, then the disconnect. */
  lemma RenameRunCalls(a: Archive, args: Args, worklist: seq<seq<string>>)
    requires !args.list && !args.delete && args.rename && args.csvFile.Some? && Wide(worklist, 3)
    ensures Calls(SessionsMain(a, args, worklist).log) == Renames(a, worklist) + [Disconnect]
  {
    MainBlockCalls(ExtensionTypesEcho(args.extensionTypes), SessionsBody(a, args, worklist));
    SessionsBodyCalls(a, args, worklist);
    assert ShortRow(worklist, 3) == |worklist|;
    assert worklist[..|worklist|] == worklist;
  }
}
