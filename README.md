# xnat_cli_scripts in Dafny

This project models the logic of the XNAT command-line scripts in Dafny:

- credential resolution (`cli_common.py`);
- listing a user's projects, groups and roles, and cloning one user's group memberships onto another (`users.py`);
- listing sessions, and deleting or relabelling the sessions named in a tab-separated worklist (`sessions.py`);
- the project listing with its PI and experiment-count fallbacks (`projects.py`);
- the DICOM metadata line (`dicom_metadata.py`).

The observable behaviour of the users, sessions and projects scripts is an ordered event log (`Effects.Event`) made of these events:

- lines printed to standard output;
- `get_json` fetches;
- `put` and `delete` requests;
- the final `disconnect()`.

An exception that escapes a loop is an `Outcome.Raised` value. The events printed or sent before it stay in the log.

What the connection returns is carried by plain values passed in as parameters: `Users.Directory`, `Sessions.Archive` and `Projects.Server`. A worklist file is given as the rows the CSV reader would yield.

The DICOM script's output is modelled as its list of printed lines.

Every modelled loop is a method whose `while` or `for` loop is proved equal to a specification function. The properties the scripts promise are lemmas about those functions:

- one line or request per item, in order;
- the verbose numbering;
- the dispatch precedence;
- which calls a run makes;
- the tab-split round trips of the lines;
- the DICOM tag split.

Files:

- `text.dfy`: Python's `str.split`, `sep.join`, `rindex` and `str(n)`.
- `effects.dfy`: the event log, its print and call projections, and the shared main block.
- `cli_common.dfy`, `users.dfy`, `sessions.dfy`, `projects.dfy`, `dicom_metadata.dfy`: one per script.

The main blocks (`users.py:165-174`, `sessions.py:139-148`) call `connection.disconnect()` after the operation, with no `try`/`finally`, so an exception from the operation skips it. The model follows this: `Effects.MainBlock` appends `Disconnect` only when the operation completed, and `RunUsers`/`RunSessions` prove that the run is disconnected exactly when it completed.

## Model

| member | source | states |
|---|---|---|
| Text.Split | src/xnat_cli_scripts/cli_common.py:13 | `s.split(c)` gives at least one piece; no piece contains the separator; joining the pieces with it gives back `s` |
| Text.SplitJoin | src/xnat_cli_scripts/cli_common.py:19 | splitting a join of separator-free pieces gives back exactly those pieces |
| Text.LastIndexOf | src/xnat_cli_scripts/users.py:45 | `rindex`: the index holds the character and no later position does |
| Text.ParseDecimalOfDecimal | src/xnat_cli_scripts/users.py:48 | the decimal text an f-string gives for a count reads back as that count |
| Text.JoinSeparatorCount | src/xnat_cli_scripts/dicom_metadata.py:47-48 | joining k separator-free texts puts exactly k-1 separators in the result |
| Effects.MainBlock | src/xnat_cli_scripts/users.py:161-174 | defines the main block: the first line, the operation's events, then `Disconnect` only when it completed, ending as the operation ended (`MainBlockCalls` and `MainBlockDisconnects` state its properties) |
| Effects.MainBlockCalls | src/xnat_cli_scripts/sessions.py:135-148 | the main block adds no call but the final disconnect, and that only when the operation completed |
| Effects.MainBlockDisconnects | src/xnat_cli_scripts/users.py:163-174 | if the operation never disconnects, the run contains a disconnect exactly when the operation completed, and it is the last event |
| Effects.ExtensionTypesEcho | src/xnat_cli_scripts/users.py:157-161 | defines the echoed line: `args.extension_types: ` then `False` when the flag is absent, the given text otherwise |
| Effects.EchoAbsentAsFalse | src/xnat_cli_scripts/users.py:157-161 | an absent flag and `-e False` echo the same line |
| CliCommon.ExtractAuthUser | src/xnat_cli_scripts/cli_common.py:9-13 | `NoUser` without `--auth`; otherwise the colon-free prefix of `--auth` ending at its first colon, or all of it when there is none |
| CliCommon.ExtractAuthPassword | src/xnat_cli_scripts/cli_common.py:15-27 | absent without `--auth`, even with `--password`; with a colon, the text from just after the user's colon up to the next colon or the end, possibly empty; without a colon, `--password` |
| CliCommon.ExtractExtensionTypes | src/xnat_cli_scripts/cli_common.py:29-33 | true exactly when the field is present and is the string `True` |
| CliCommon.AuthRoundTrip | src/xnat_cli_scripts/cli_common.py:9-27 | with exactly one colon in `--auth`, user + ":" + password rebuilds it |
| CliCommon.ExtensionTypesExact | src/xnat_cli_scripts/cli_common.py:30-33 | `True` gives true; `true`, `1` and absent give false |
| CliCommon.CombinedTokenExample | src/xnat_cli_scripts/cli_common.py:9-27 | `alice:secret` gives user `alice` and password `secret` whatever `--password` is |
| CliCommon.SecondTokenExample | src/xnat_cli_scripts/cli_common.py:19-23 | `a:b:c` gives password `b`: only the second token |
| CliCommon.EmptyTokenExample | src/xnat_cli_scripts/cli_common.py:22-25 | `a:` gives the empty password even when `--password` is set |
| Users.ListingLineFields | src/xnat_cli_scripts/users.py:64-70 | a listing line splits on tabs into index, total, user and item in verbose mode, and into user and item otherwise |
| Users.VerboseListingCounts | src/xnat_cli_scripts/users.py:43-51 | in verbose mode the k-th line starts with k and the list length, both reading back as numbers, then the user and the k-th item |
| Users.ListingLine | src/xnat_cli_scripts/users.py:47-51 | defines a listing line: index, length, user and item tab-separated when verbose, user and item otherwise (the same f-strings at lines 66-70 and 85-89) |
| Users.ProjectId | src/xnat_cli_scripts/users.py:45-46 | the project is the group name before its last "_"; the cut-off suffix starts with "_" and has no other "_" |
| Users.ProjectPrefix | src/xnat_cli_scripts/users.py:44-46 | the groups before the first one without "_" all have one, and the group it stops at has none |
| Users.ProjectListing | src/xnat_cli_scripts/users.py:34-53 | defines the project listing: the groups fetch, one line per group up to the first without "_", and `ValueError` at that group |
| Users.GroupListing | src/xnat_cli_scripts/users.py:55-72 | defines the group listing: the groups fetch, then one line per group |
| Users.RoleListing | src/xnat_cli_scripts/users.py:74-91 | defines the role listing: the roles fetch, then one line per role |
| Users.ListMasterSpec | src/xnat_cli_scripts/users.py:93-101 | defines the listing dispatch: projects, else roles, else groups, else the hint |
| Users.ProjectListingStopsAt | src/xnat_cli_scripts/users.py:34-53 | the project listing prints one line per group up to the first group without "_", and raises `ValueError` exactly when there is such a group |
| Users.ListUserProjects | src/xnat_cli_scripts/users.py:34-53 | the loop's log and outcome are `ProjectListing`'s; it completes exactly when every group has "_"; its only call is the groups fetch |
| Users.EmitListing | src/xnat_cli_scripts/users.py:64-72 | the print loop prints exactly the listing lines, one per item in order, numbered from 1 in verbose mode |
| Users.ListUserGroups | src/xnat_cli_scripts/users.py:55-72 | the log is `GroupListing`'s: one fetch of the target's groups, then one line per group in order |
| Users.ListUserRoles | src/xnat_cli_scripts/users.py:74-91 | the log is `RoleListing`'s: one fetch of the target's roles, then one line per role in order |
| Users.ListMaster | src/xnat_cli_scripts/users.py:93-101 | the log and outcome are `ListMasterSpec`'s: projects, else roles, else groups, else the hint; every call is a fetch, and the hint makes no call |
| Users.ListMasterCallsAreGets | src/xnat_cli_scripts/users.py:93-101 | every call of any listing is a fetch |
| Users.CloneLine | src/xnat_cli_scripts/users.py:116 | defines the verbose progress line `index total source -> target : group` |
| Users.CloneSpec | src/xnat_cli_scripts/users.py:103-120 | defines the clone: the source groups fetch, then per group a progress line when verbose and the PUT |
| Users.CloneCalls | src/xnat_cli_scripts/users.py:114-120 | the clone loop issues exactly one PUT per source group, adding the target, in order, and no other call |
| Users.ClonePrinted | src/xnat_cli_scripts/users.py:114-118 | a verbose clone prints one numbered progress line per group; a quiet one prints nothing |
| Users.CloneGroups | src/xnat_cli_scripts/users.py:103-120 | the loop's log is `CloneSpec`'s; its calls are the fetch of the source's groups, then the PUTs |
| Users.CloneSpecCalls | src/xnat_cli_scripts/users.py:103-120 | a clone's calls are the source-groups fetch followed by one PUT per group |
| Users.UsersBody | src/xnat_cli_scripts/users.py:165-172 | defines the operation chosen: list, else clone when `--clone_groups` is non-empty, else the message |
| Users.RunUsers | src/xnat_cli_scripts/users.py:159-174 | the run is `UsersMain`: the main block around `UsersBody`; it ends with the disconnect exactly when the operation completed |
| Users.UsersBodyNeverDisconnects | src/xnat_cli_scripts/users.py:165-172 | the chosen operation itself never disconnects |
| Users.ListRunIsReadOnly | src/xnat_cli_scripts/users.py:165-166 | with `--list` (even with `--clone_groups`) a run issues no PUT |
| Users.CloneRunCalls | src/xnat_cli_scripts/users.py:167-174 | a clone run's calls are the fetch, one PUT per source group, then the disconnect |
| Sessions.SessionHeaderColumns | src/xnat_cli_scripts/sessions.py:58-62 | the brief header (flag exactly True) splits into the three leading columns of the full header, which has six |
| Sessions.SessionHeader | src/xnat_cli_scripts/sessions.py:58-62 | every header starts with the three brief columns, and the header is exactly those when, and only when, the flag is exactly True |
| Sessions.SessionRow | src/xnat_cli_scripts/sessions.py:65-69 | defines a data row: project, ID, label, then a tab and a space when brief, or insert date, modality and scan count plus a space otherwise |
| Sessions.SessionRowFields | src/xnat_cli_scripts/sessions.py:65-69 | a brief row splits into project, ID, label and a lone space; a full row into six fields whose last is the scan count, read back as a number, plus a space |
| Sessions.MatchingMembers | src/xnat_cli_scripts/sessions.py:77 | a project passes the filter exactly when no filter is given or the filter is its ID |
| Sessions.FilterSelectsProjects | src/xnat_cli_scripts/sessions.py:76-80 | the filtered listing is the unfiltered listing of the matching projects, in order |
| Sessions.FilterOnOneProject | src/xnat_cli_scripts/sessions.py:76-80 | with distinct IDs, filtering on one ID lists that project's rows, or nothing when it is absent |
| Sessions.ShortRow | src/xnat_cli_scripts/sessions.py:86-88 | the worklist loop stops at the first row too short to index, after all rows when there is none |
| Sessions.SessionListSpec | src/xnat_cli_scripts/sessions.py:71-88 | defines the listing: title, header, then the filtered archive's rows, or one row per worklist row up to the first short row, which raises `IndexError` |
| Sessions.ListSessions | src/xnat_cli_scripts/sessions.py:71-88 | the listing's log and outcome are `SessionListSpec`'s, and it makes no call |
| Sessions.ListOutcome | src/xnat_cli_scripts/sessions.py:73-88 | a listing fails exactly when a worklist is given and some row has fewer than two columns |
| Sessions.ListArchive | src/xnat_cli_scripts/sessions.py:76-80 | the nested loops print the rows of each project the filter lets through, in project order |
| Sessions.ListProject | src/xnat_cli_scripts/sessions.py:78-80 | one row per experiment of the project, in order |
| Sessions.ListWorklist | src/xnat_cli_scripts/sessions.py:84-88 | one row per worklist row up to the first short row, which raises `IndexError` |
| Sessions.ListSpecCalls | src/xnat_cli_scripts/sessions.py:71-88 | a session listing makes no call |
| Sessions.DeleteCalls | src/xnat_cli_scripts/sessions.py:96-99 | the delete loop's only calls are one delete with files per row, in row order |
| Sessions.DeleteSpec | src/xnat_cli_scripts/sessions.py:91-99 | defines the deletion: title, then `TypeError` without a worklist, otherwise a line and a delete per row up to the first short row |
| Sessions.DeleteSessions | src/xnat_cli_scripts/sessions.py:91-99 | the loop's log and outcome are `DeleteSpec`'s; no worklist raises `TypeError` after the title; the calls are the rows' deletions up to the first short row |
| Sessions.DeleteSpecCalls | src/xnat_cli_scripts/sessions.py:91-99 | a deletion run's calls are one delete per row before the first short row, none without a worklist |
| Sessions.Repr | src/xnat_cli_scripts/sessions.py:111 | `repr` of a label is framed by one kind of quote |
| Sessions.UnescapeEscaped | src/xnat_cli_scripts/sessions.py:111-113 | reading the escapes back gives the label again |
| Sessions.ReprRoundTrip | src/xnat_cli_scripts/sessions.py:111 | the label printed in the query text determines the label |
| Sessions.PlainRepr | src/xnat_cli_scripts/sessions.py:111 | a label without quotes, backslashes, line breaks or tabs prints in single quotes as it is |
| Sessions.RenameStepCalls | src/xnat_cli_scripts/sessions.py:107-114 | each row's only call is the PUT to the subject-scoped path with the row's third column as label |
| Sessions.RenameCalls | src/xnat_cli_scripts/sessions.py:106-114 | the rename loop issues one such PUT per row, in row order, and nothing else |
| Sessions.RenameSpec | src/xnat_cli_scripts/sessions.py:101-114 | defines the rename: title, then `TypeError` without a worklist, otherwise two lines and a PUT per row up to the first row shorter than three |
| Sessions.RenameSessions | src/xnat_cli_scripts/sessions.py:101-114 | the loop's log and outcome are `RenameSpec`'s; the calls are the rows' renames up to the first row with fewer than three columns |
| Sessions.RenameSpecCalls | src/xnat_cli_scripts/sessions.py:101-114 | a rename run's calls are one PUT per row before the first short row, none without a worklist |
| Sessions.SessionsBodyCalls | src/xnat_cli_scripts/sessions.py:139-146 | list makes no call; otherwise delete, else rename, issue their per-row calls; else the message makes none |
| Sessions.SessionsBody | src/xnat_cli_scripts/sessions.py:139-146 | defines the operation chosen: list, else delete, else rename, else the message |
| Sessions.Dispatch | src/xnat_cli_scripts/sessions.py:139-146 | the log and outcome are `SessionsBody`'s: the flags are tested in the order list, delete, rename |
| Sessions.RunSessions | src/xnat_cli_scripts/sessions.py:133-148 | the run is `SessionsMain`: the main block around `SessionsBody`; it ends with the disconnect exactly when the operation completed |
| Sessions.SessionsBodyNeverDisconnects | src/xnat_cli_scripts/sessions.py:139-146 | the chosen operation itself never disconnects |
| Sessions.ListRunChangesNothing | src/xnat_cli_scripts/sessions.py:139-140 | with `--list` a run deletes and renames nothing, whatever other flags say |
| Sessions.DeleteRunCalls | src/xnat_cli_scripts/sessions.py:141-148 | a delete run over a well-formed worklist deletes every row's experiment in order, then disconnects |
| Sessions.RenameRunCalls | src/xnat_cli_scripts/sessions.py:143-148 | a rename run over a well-formed worklist relabels every row in order, then disconnects |
| Projects.ProjectHeaderFields | src/xnat_cli_scripts/projects.py:37-38 | the header splits into five fields: ID, Name, Insert Date, Subject Count and `Experiment Count\PI` |
| Projects.PiStringTest | src/xnat_cli_scripts/projects.py:40-41 | the joined names equal ", " exactly when both names are empty |
| Projects.PiString | src/xnat_cli_scripts/projects.py:40-42 | defines the PI column: NONE when both names are empty, otherwise last name, ", ", first name (`PiStringTest` shows the test matches the script's) |
| Projects.PiStringNone | src/xnat_cli_scripts/projects.py:40-42 | the PI column is NONE exactly when both names are empty, and otherwise last name, ", ", first name |
| Projects.CountTextFallback | src/xnat_cli_scripts/projects.py:44-50 | the count column is Unknown exactly when counting raised KeyError or ReadTimeout; a count reads back as itself |
| Projects.CountText | src/xnat_cli_scripts/projects.py:44-50 | defines the count column: the count, or Unknown when counting raised KeyError or ReadTimeout |
| Projects.ProjectRow | src/xnat_cli_scripts/projects.py:53 | defines the data line: ID, name, subject count, count column and PI column, tab-separated |
| Projects.ProjectRowJoin | src/xnat_cli_scripts/projects.py:53 | the data line is its five columns joined with tabs |
| Projects.FormatProjectData | src/xnat_cli_scripts/projects.py:39-54 | the step-by-step assignments build exactly the project's line |
| Projects.ProjectRowFields | src/xnat_cli_scripts/projects.py:37-54 | a line splits into ID, name, subject count, count column and PI column; the header has as many fields, but its third is "Insert Date" where the line has a number |
| Projects.IdNameSplits | src/xnat_cli_scripts/projects.py:56-57 | the "id, name" label splits back at its first comma into the ID, a space and the name |
| Projects.IdName | src/xnat_cli_scripts/projects.py:56-57 | defines the label `id + ", " + name` (`IdNameSplits` states that it splits back) |
| Projects.ProjectEventsCalls | src/xnat_cli_scripts/projects.py:67-72 | the loop fetches each listed project once, in listing order |
| Projects.ProjectEventsPrinted | src/xnat_cli_scripts/projects.py:67-74 | the loop prints one line per listed project, in listing order |
| Projects.ProjectListShape | src/xnat_cli_scripts/projects.py:59-74 | the listing prints the header and one line per project; it fetches the listing, then each project |
| Projects.ProjectListSpec | src/xnat_cli_scripts/projects.py:59-74 | defines the listing: the header, the listing fetch, then per entry its fetch and its line |
| Projects.ListProjects | src/xnat_cli_scripts/projects.py:59-74 | the listing's log is `ProjectListSpec`'s |
| Projects.ListEntries | src/xnat_cli_scripts/projects.py:67-74 | the loop's log is each entry's fetch and line, in order |
| Projects.ListEntry | src/xnat_cli_scripts/projects.py:68-74 | one entry: the fetch of its path, then its line |
| Projects.RunProjects | src/xnat_cli_scripts/projects.py:126-136 | the run is `ProjectsMain`: it prints the raw flag, lists, then disconnects |
| Projects.ProjectsRunCalls | src/xnat_cli_scripts/projects.py:130-136 | a run only reads: the listing, each project, then the disconnect |
| DicomMetadata.TagSplit | src/xnat_cli_scripts/dicom_metadata.py:40-44 | a 32-bit tag's group and element are below 65536 and recombine to the tag, so `ds[gggg, eeee]` reads tag `t` |
| DicomMetadata.Group | src/xnat_cli_scripts/dicom_metadata.py:40 | `(t >> 16) & 0xffff` is below 65536 |
| DicomMetadata.Element | src/xnat_cli_scripts/dicom_metadata.py:41 | `t & 0xffff` is below 65536 |
| DicomMetadata.TagSplitInjective | src/xnat_cli_scripts/dicom_metadata.py:40-41 | different 32-bit tags have different (group, element) pairs |
| DicomMetadata.TagPairs | src/xnat_cli_scripts/dicom_metadata.py:27-33 | the seven tags are the data dictionary's PatientName, PatientID, SOPClassUID, StudyDate, StudyTime, StationName and StudyInstanceUID pairs |
| DicomMetadata.ValueText | src/xnat_cli_scripts/dicom_metadata.py:42-45 | defines one value: the file's text for the tag, or `'None'` in quotes when the tag is absent |
| DicomMetadata.TagValues | src/xnat_cli_scripts/dicom_metadata.py:39-45 | one value text per tag, in tag order |
| DicomMetadata.MetadataLine | src/xnat_cli_scripts/dicom_metadata.py:53 | defines the printed line: file name, a tab, then the tab-joined values |
| DicomMetadata.ExtractMetadata | src/xnat_cli_scripts/dicom_metadata.py:22-53 | without a file name only the complaint; otherwise the accumulator loop yields the file name, a tab and the tab-joined values |
| DicomMetadata.Accumulate | src/xnat_cli_scripts/dicom_metadata.py:47-48 | each step of the delimiter accumulator extends the join by the next value |
| DicomMetadata.MetadataLineFields | src/xnat_cli_scripts/dicom_metadata.py:42-53 | with tab-free texts the line splits into the file name and one field per tag in order, `'None'` for a missing tag |
| DicomMetadata.ValueSeparators | src/xnat_cli_scripts/dicom_metadata.py:36-48 | the values are separated by exactly six tabs |
| DicomMetadata.RunDicom | src/xnat_cli_scripts/dicom_metadata.py:68-71 | extraction runs only with the extract flag; otherwise the no-action message |

## Left out

- `time.sleep` pacing and `float(args.sleep)` in `users.py`: an invalid or negative `--sleep` makes the script raise `ValueError` before or after the first item; the model does not capture this and treats every run as if `--sleep` were absent or valid.
- Argument parsing (`argparse`), the `--xnat` URL default and the hard-coded password in `users.py`: the parsed fields are the `Args` records.
- `xnat.connect` and the `extension_types` it is given: the connection is a parameter.
- `create_object`, `connection.projects[...]` and attribute reads on remote objects: these reads are not logged, and the requests they make and their failures (for instance a worklist row naming a missing experiment, which raises before that row's line is printed) are not modelled. The log records only `get_json`, `put`, `delete` and `disconnect`.
- Opening and reading the worklist file: the rows are an input. A missing file (`FileNotFoundError`) is not modelled. `open(None)` without `--csv_file` is modelled as `TypeError`.
- Exceptions raised by the server or the client library (HTTP errors, timeouts outside the experiment count): a run ends only through the errors the scripts raise themselves.
- `pydicom.dcmread`, the DICOM file and `repr(v.value)`: a dataset is a map from tag to the text of its value. Errors while reading the file are not modelled.
- Sessions.Repr: covers only the escapes of backslash, the chosen quote, newline, carriage return and tab. Python's `\xNN`/`\uNNNN` escapes of other non-printable characters are not modelled.
- DicomMetadata.TagSplit: tags are Python integers, so the model uses `nat` with `/` and `%` for the shift and mask; 32-bit width holds for the seven fixed tags (`TagsAre32Bit`).
- `execute_project_list` in `users.py`: unused debugging code with hard-coded user names.
- `execute_project_list`, `execute_subject_list` and the `format_project_*`/`format_subject_*` helpers in `sessions.py`: never called from its main block.
- `execute_subject_list`, `execute_session_list` and the `format_subject_*`/`format_session_*` helpers in `projects.py`: never called from its main block.
- `delete.py` is not part of this model: it only parses and prints two arguments.
