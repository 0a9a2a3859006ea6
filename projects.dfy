/**
 * `projects.py`: one tab-separated line per project of an XNAT server,
 * under a fixed header.
 *
 * The header's five tab-separated fields are ID, Name, Insert Date,
 * Subject Count and `Experiment Count\PI` (a literal backslash, since `\P`
 * is not an escape in Python); a data line also has five fields, but no
 * insert date: its third field is the subject count.  The model keeps both
 * as they are.
 */
module Projects {
  import opened Effects
  import opened Text

  /** One entry of the `/data/projects` listing. */
  datatype ProjectJson = ProjectJson(id: string, name: string, piLastname: string, piFirstname: string)

  /** What counting a project's experiments gives: a number, or one of the two errors the script catches. */
  datatype ExperimentCount = Counted(n: nat) | KeyErrorRaised | ReadTimeoutRaised

  /** A project object as the script reads it. */
  datatype ProjectObject = ProjectObject(id: string, name: string, subjectCount: nat, experiments: ExperimentCount)

  /** The server: the project listing in order, and the object behind each project ID. */
  datatype Server = Server(listing: seq<ProjectJson>, objects: string -> ProjectObject)

  /** `format_project_header_rows`. */
  const ProjectHeader: string := "ID\tName\tInsert Date" + "\t" + "Subject Count\tExperiment Count\\PI"

  const HeaderFields: seq<string> := ["ID", "Name", "Insert Date", "Subject Count", "Experiment Count\\PI"]

  /** The header splits into five fields, the third of which is "Insert Date". */
  lemma ProjectHeaderFields()
    ensures Split(ProjectHeader, '\t') == HeaderFields
  {
    var front, back := ["ID", "Name", "Insert Date"], ["Subject Count", "Experiment Count\\PI"];
    HeaderFrontJoin();
    HeaderBackJoin();
    JoinAppend(front, back, '\t');
    assert front + back == HeaderFields;
    SplitJoin(HeaderFields, '\t');
  }

  lemma HeaderFrontJoin()
    ensures Join(["ID", "Name", "Insert Date"], '\t') == "ID\tName\tInsert Date"
  {
    JoinThree("ID", "Name", "Insert Date", '\t');
  }

  lemma HeaderBackJoin()
    ensures Join(["Subject Count", "Experiment Count\\PI"], '\t') == "Subject Count\tExperiment Count\\PI"
  {
    JoinTwo("Subject Count", "Experiment Count\\PI", '\t');
  }

  /** The PI column: "last, first", or "NONE" when both names are empty. */
  function PiString(last: string, first: string): string
  {
    if last == "" && first == "" then "NONE" else last + ", " + first
  }

  /** The script's test -- the joined names are just the comma and space -- holds exactly when both names are empty. */
  lemma PiStringTest(last: string, first: string)
    ensures last + ", " + first == ", " <==> last == "" && first == ""
  {
    if last != "" || first != "" {
      assert |last + ", " + first| > 2;
    }
  }

  /** "NONE" stands in exactly when both names are empty; otherwise the column is the last name, a comma and a space, and the first name. */
  lemma PiStringNone(last: string, first: string)
    ensures PiString(last, first) == "NONE" <==> last == "" && first == ""
    ensures PiString(last, first) != "NONE" ==>
      PiString(last, first)[..|last|] == last && PiString(last, first)[|last|..|last| + 2] == ", "
      && PiString(last, first)[|last| + 2..] == first
  {
    if last != "" || first != "" {
      var pi := PiString(last, first);
      assert pi[|last|] == ',';
      assert pi != "NONE" by { if |pi| == 4 { assert pi[|last|] == ','; } }
    }
  }

  /** The experiment-count column: the count, or "Unknown" when counting failed. */
  function CountText(count: ExperimentCount): string
  {
    match count
    case Counted(n) => Decimal(n)
    case KeyErrorRaised => "Unknown"
    case ReadTimeoutRaised => "Unknown"
  }

  /** "Unknown" appears exactly when counting failed, and a count reads back as itself. */
  lemma CountTextFallback(count: ExperimentCount)
    ensures CountText(count) == "Unknown" <==> !count.Counted?
    ensures count.Counted? ==> IsDecimal(CountText(count)) && ParseDecimal(CountText(count)) == count.n
  {
    if count.Counted? {
      ParseDecimalOfDecimal(count.n);
      assert '0' <= CountText(count)[0] <= '9';
    }
  }

  /** The data line `format_project_data` builds for a listing entry and its project object. */
  function ProjectRow(json: ProjectJson, obj: ProjectObject): string
  {
    obj.id + "\t" + obj.name + "\t" + Decimal(obj.subjectCount) + "\t" + CountText(obj.experiments)
      + "\t" + PiString(json.piLastname, json.piFirstname)
  }

  /**
   * `format_project_data`: the PI string and the experiment count are
   * first given their fallbacks, then overwritten when the data allow.
   */
  method FormatProjectData(json: ProjectJson, obj: ProjectObject) returns (row: string)
    ensures row == ProjectRow(json, obj)
  {
    var piString := json.piLastname + ", " + json.piFirstname;
    PiStringTest(json.piLastname, json.piFirstname);
    if piString == ", " {
      piString := "NONE";
    }
    var experimentCount := "Unknown";
    match obj.experiments {
      case Counted(n) =>
        experimentCount := Decimal(n);
      case KeyErrorRaised =>
        experimentCount := "Unknown";
      case ReadTimeoutRaised =>
        experimentCount := "Unknown";
    }
    row := obj.id + "\t" + obj.name + "\t" + Decimal(obj.subjectCount) + "\t" + experimentCount + "\t" + piString;
  }

  /** The texts of a line carry no tab. */
  predicate RowTabFree(json: ProjectJson, obj: ProjectObject)
  {
    '\t' !in obj.id && '\t' !in obj.name && '\t' !in json.piLastname && '\t' !in json.piFirstname
  }

  /**
   * A data line has exactly five fields -- ID, name, subject count,
   * experiment count, PI -- so its third field is a number where the header
   * says "Insert Date".
   */
  lemma ProjectRowFields(json: ProjectJson, obj: ProjectObject)
    requires RowTabFree(json, obj)
    ensures var fields := Split(ProjectRow(json, obj), '\t');
      fields == [obj.id, obj.name, Decimal(obj.subjectCount), CountText(obj.experiments), PiString(json.piLastname, json.piFirstname)]
      && IsDecimal(fields[2]) && ParseDecimal(fields[2]) == obj.subjectCount
      && |fields| == |HeaderFields| && !IsDecimal(HeaderFields[2])
  {
    var subjects, count, pi := Decimal(obj.subjectCount), CountText(obj.experiments), PiString(json.piLastname, json.piFirstname);
    DecimalIsDigits(obj.subjectCount, '\t');
    assert '\t' !in count by {
      if obj.experiments.Counted? { DecimalIsDigits(obj.experiments.n, '\t'); }
    }
    assert '\t' !in pi;
    ProjectRowJoin(json, obj);
    SplitJoin([obj.id, obj.name, subjects, count, pi], '\t');
    ParseDecimalOfDecimal(obj.subjectCount);
    assert HeaderFields[2][0] == 'I';
  }

  /** A data line is its five columns joined with tabs. */
  lemma ProjectRowJoin(json: ProjectJson, obj: ProjectObject)
    ensures ProjectRow(json, obj) ==
      Join([obj.id, obj.name, Decimal(obj.subjectCount), CountText(obj.experiments), PiString(json.piLastname, json.piFirstname)], '\t')
  {
    var subjects, count, pi := Decimal(obj.subjectCount), CountText(obj.experiments), PiString(json.piLastname, json.piFirstname);
    var front, back := [obj.id, obj.name, subjects], [count, pi];
    JoinThree(obj.id, obj.name, subjects, '\t');
    JoinTwo(count, pi, '\t');
    JoinAppend(front, back, '\t');
    assert front + back == [obj.id, obj.name, subjects, count, pi];
  }

  /** `format_project_id_name`. */
  function IdName(id: string, name: string): string
  {
    id + ", " + name
  }

  /** With a comma-free ID, the label splits back at its first comma into the ID and the name. */
  lemma IdNameSplits(id: string, name: string)
    requires ',' !in id
    ensures var s := IdName(id, name);
      ',' in s && s[..IndexOf(s, ',')] == id && s[IndexOf(s, ',') + 1] == ' ' && s[IndexOf(s, ',') + 2..] == name
  {
    var s := IdName(id, name);
    assert s[|id|] == ',';
    assert s[..|id|] == id;
    assert IndexOf(s, ',') == |id|;
  }

  /** The path of the listing fetch and of each project's fetch. */
  const ListingPath: string := "/data/projects"

  function ProjectPath(id: string): string
  {
    "/data/projects/" + id
  }

  /** The IDs of the listing entries, in order. */
  function IdsOf(entries: seq<ProjectJson>): (ids: seq<string>)
    ensures |ids| == |entries| && forall j :: 0 <= j < |entries| ==> ids[j] == entries[j].id
  {
    seq(|entries|, j requires 0 <= j < |entries| => entries[j].id)
  }

  /** The lines, one per listing entry, in order. */
  function ProjectRows(server: Server, entries: seq<ProjectJson>): (rows: seq<string>)
    ensures |rows| == |entries|
  {
    seq(|entries|, j requires 0 <= j < |entries| => ProjectRow(entries[j], server.objects(entries[j].id)))
  }

  /** The events for one listing entry: its fetch, then its line. */
  function StepEvents(id: string, row: string): seq<Event>
  {
    [Get(ProjectPath(id)), Print(row)]
  }

  /** The events for the entries with these IDs and lines, in order. */
  function ProjectEvents(ids: seq<string>, rows: seq<string>): seq<Event>
    requires |ids| == |rows|
    decreases |ids|
  {
    if ids == [] then []
    else ProjectEvents(ids[..|ids| - 1], rows[..|rows| - 1]) + StepEvents(ids[|ids| - 1], rows[|rows| - 1])
  }

  /** `execute_project_list`: the header, the listing fetch, then each project in listing order. */
  function ProjectListSpec(server: Server): seq<Event>
  {
    [Print(ProjectHeader), Get(ListingPath)] + ProjectEvents(IdsOf(server.listing), ProjectRows(server, server.listing))
  }

  /** The per-project fetches, one per ID, in order. */
  function ProjectFetches(ids: seq<string>): (calls: seq<Event>)
    ensures |calls| == |ids|
  {
    seq(|ids|, j requires 0 <= j < |ids| => Get(ProjectPath(ids[j])))
  }

  lemma StepProjections(id: string, row: string)
    ensures Calls(StepEvents(id, row)) == [Get(ProjectPath(id))]
    ensures Printed(StepEvents(id, row)) == [row]
  {
    assert StepEvents(id, row) == [Get(ProjectPath(id))] + Prints([row]);
    FetchThenPrintCalls(ProjectPath(id), [row]);
    FetchThenPrintPrinted(ProjectPath(id), [row]);
  }

  lemma ProjectFetchesSnoc(ids: seq<string>)
    requires ids != []
    ensures ProjectFetches(ids) == ProjectFetches(ids[..|ids| - 1]) + [Get(ProjectPath(ids[|ids| - 1]))]
  {
    var init := ids[..|ids| - 1];
    var x, y := ProjectFetches(ids), ProjectFetches(init) + [Get(ProjectPath(ids[|ids| - 1]))];
    assert |x| == |y|;
    forall j | 0 <= j < |x| ensures x[j] == y[j] {
      if j < |init| { assert init[j] == ids[j]; }
    }
  }

  /** After the listing fetch, the script fetches each project once, in listing order. */
  lemma {:induction false} ProjectEventsCalls(ids: seq<string>, rows: seq<string>)
    requires |ids| == |rows|
    ensures Calls(ProjectEvents(ids, rows)) == ProjectFetches(ids)
    decreases |ids|
  {
    if ids != [] {
      var n := |ids| - 1;
      ProjectEventsCalls(ids[..n], rows[..n]);
      CallsAppend(ProjectEvents(ids[..n], rows[..n]), StepEvents(ids[n], rows[n]));
      StepProjections(ids[n], rows[n]);
      ProjectFetchesSnoc(ids);
    }
  }

  /** One line per listing entry, in listing order. */
  lemma {:induction false} ProjectEventsPrinted(ids: seq<string>, rows: seq<string>)
    requires |ids| == |rows|
    ensures Printed(ProjectEvents(ids, rows)) == rows
    decreases |ids|
  {
    if ids != [] {
      var n := |ids| - 1;
      ProjectEventsPrinted(ids[..n], rows[..n]);
      PrintedAppend(ProjectEvents(ids[..n], rows[..n]), StepEvents(ids[n], rows[n]));
      StepProjections(ids[n], rows[n]);
      assert rows[..n] + [rows[n]] == rows;
    }
  }

  /** The listing prints the header and one line per project, and fetches the listing then each project. */
  lemma ProjectListShape(server: Server)
    ensures Printed(ProjectListSpec(server)) == [ProjectHeader] + ProjectRows(server, server.listing)
    ensures Calls(ProjectListSpec(server)) == [Get(ListingPath)] + ProjectFetches(IdsOf(server.listing))
  {
    var ids, rows := IdsOf(server.listing), ProjectRows(server, server.listing);
    var head := [Print(ProjectHeader), Get(ListingPath)];
    assert head == Prints([ProjectHeader]) + [Get(ListingPath)];
    ProjectEventsPrinted(ids, rows);
    PrintedAppend(head, ProjectEvents(ids, rows));
    ProjectEventsCalls(ids, rows);
    CallsAppend(head, ProjectEvents(ids, rows));
    PrintedAppend(Prints([ProjectHeader]), [Get(ListingPath)]);
    CallsAppend(Prints([ProjectHeader]), [Get(ListingPath)]);
    PrintedPrints([ProjectHeader]);
    CallsPrints([ProjectHeader]);
    CallsOnly([Get(ListingPath)]);
  }

  lemma ProjectEventsSnoc(ids: seq<string>, rows: seq<string>, i: nat)
    requires |ids| == |rows| && i < |ids|
    ensures ProjectEvents(ids[..i + 1], rows[..i + 1]) == ProjectEvents(ids[..i], rows[..i]) + StepEvents(ids[i], rows[i])
  {
    assert ids[..i + 1][..i] == ids[..i];
    assert rows[..i + 1][..i] == rows[..i];
  }

  /** `execute_project_list`. */
  method ListProjects(server: Server) returns (log: seq<Event>)
    ensures log == ProjectListSpec(server)
  {
    log := [Print(ProjectHeader)];
    var result := server.listing;
    log := log + [Get(ListingPath)];
    var rows := ListEntries(server, result);
    log := log + rows;
  }

  /** The loop of `execute_project_list`: for each entry, fetch the project, then print its line. */
  method ListEntries(server: Server, result: seq<ProjectJson>) returns (log: seq<Event>)
    ensures log == ProjectEvents(IdsOf(result), ProjectRows(server, result))
  {
    ghost var ids, rows := IdsOf(result), ProjectRows(server, result);
    log := [];
    var i := 0;
    while i < |result|
      invariant i <= |result|
      invariant log == ProjectEvents(ids[..i], rows[..i])
    {
      var step := ListEntry(server, result[i]);
      log := log + step;
      assert step == StepEvents(ids[i], rows[i]);
      ProjectEventsSnoc(ids, rows, i);
      i := i + 1;
    }
    assert ids[..i] == ids && rows[..i] == rows;
  }

  /** One pass of that loop: fetch the entry's project object, then print its line. */
  method ListEntry(server: Server, projectJson: ProjectJson) returns (log: seq<Event>)
    ensures log == StepEvents(projectJson.id, ProjectRow(projectJson, server.objects(projectJson.id)))
  {
    var projectObject := server.objects(projectJson.id);
    log := [Get(ProjectPath(projectJson.id))];
    var row := FormatProjectData(projectJson, projectObject);
    log := log + [Print(row)];
  }

  /** The script's main block: print the raw `--extension_types` value, list, disconnect. */
  function ProjectsMain(server: Server, extensionTypes: Option<string>): Run
  {
    MainBlock(Show(extensionTypes), Run(ProjectListSpec(server), Completed))
  }

  method RunProjects(server: Server, extensionTypes: Option<string>) returns (log: seq<Event>)
    ensures Run(log, Completed) == ProjectsMain(server, extensionTypes)
  {
    log := [Print(Show(extensionTypes))];
    var body := ListProjects(server);
    log := log + body + [Disconnect];
  }

  /** A run of the script only reads: the listing, each project, then the disconnect. */
  lemma ProjectsRunCalls(server: Server, extensionTypes: Option<string>)
    ensures Calls(ProjectsMain(server, extensionTypes).log) ==
      [Get(ListingPath)] + ProjectFetches(IdsOf(server.listing)) + [Disconnect]
  {
    MainBlockCalls(Show(extensionTypes), Run(ProjectListSpec(server), Completed));
    ProjectListShape(server);
  }
}
