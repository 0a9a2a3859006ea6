/**
 * `users.py`: list a user's projects, groups or roles, and clone one user's
 * groups onto another, against the XNAT user endpoints.
 *
 * Each operation has a specification function giving its whole event log
 * and a method with the source's loop proved equal to it.
 */
module Users {
  import opened Effects
  import opened Text

  /** What the server answers on `/xapi/users/{u}/groups` and `/xapi/users/{u}/roles`. */
  datatype Directory = Directory(groups: string -> seq<string>, roles: string -> seq<string>)

  /** The command-line fields the script reads (`--sleep` is not modelled). */
  datatype Args = Args(
    extensionTypes: Option<string>,
    list: bool,
    cloneGroups: Option<string>,
    projects: bool,
    groups: bool,
    roles: bool,
    targetUser: Option<string>,
    verbose: bool)

  function GroupsPath(user: string): string { "/xapi/users/" + user + "/groups" }
  function RolesPath(user: string): string { "/xapi/users/" + user + "/roles" }
  function GroupPath(user: string, group: string): string { "/xapi/users/" + user + "/groups/" + group }

  /** One listing line; in verbose mode it leads with the running 1-based index and the list length. */
  function ListingLine(verbose: bool, index: nat, total: nat, user: string, item: string): string
  {
    if verbose then Decimal(index) + "\t" + Decimal(total) + "\t" + user + "\t" + item
    else user + "\t" + item
  }

  /** The lines listing `items` for `user`, one per item, in order. */
  function ListingLines(verbose: bool, user: string, items: seq<string>, total: nat): (lines: seq<string>)
    ensures |lines| == |items|
  {
    seq(|items|, i requires 0 <= i < |items| => ListingLine(verbose, i + 1, total, user, items[i]))
  }

  /** Listing lines split back on tabs into index, length, user and item (or user and item). */
  lemma ListingLineFields(verbose: bool, index: nat, total: nat, user: string, item: string)
    requires '\t' !in user && '\t' !in item
    ensures Split(ListingLine(verbose, index, total, user, item), '\t') ==
      if verbose then [Decimal(index), Decimal(total), user, item] else [user, item]
  {
    if verbose {
      var fields := [Decimal(index), Decimal(total), user, item];
      DecimalIsDigits(index, '\t');
      DecimalIsDigits(total, '\t');
      JoinFour(fields[0], fields[1], fields[2], fields[3], '\t');
      SplitJoin(fields, '\t');
    } else {
      JoinTwo(user, item, '\t');
      SplitJoin([user, item], '\t');
    }
  }

  /** In verbose mode the k-th line (1-based) begins with k and the number of items, which read back as numbers. */
  lemma VerboseListingCounts(user: string, items: seq<string>, k: nat)
    requires 1 <= k <= |items|
    requires '\t' !in user && '\t' !in items[k - 1]
    ensures var fields := Split(ListingLines(true, user, items, |items|)[k - 1], '\t');
      |fields| == 4 && IsDecimal(fields[0]) && IsDecimal(fields[1]) &&
      ParseDecimal(fields[0]) == k && ParseDecimal(fields[1]) == |items| &&
      fields[2] == user && fields[3] == items[k - 1]
  {
    var line := ListingLine(true, k, |items|, user, items[k - 1]);
    assert ListingLines(true, user, items, |items|)[k - 1] == line;
    ListingLineFields(true, k, |items|, user, items[k - 1]);
    var fields := Split(line, '\t');
    assert fields == [Decimal(k), Decimal(|items|), user, items[k - 1]];
    ParseDecimalOfDecimal(k);
    ParseDecimalOfDecimal(|items|);
  }

  lemma ListingLinesSnoc(verbose: bool, user: string, items: seq<string>, item: string, total: nat)
    ensures ListingLines(verbose, user, items + [item], total) ==
      ListingLines(verbose, user, items, total) + [ListingLine(verbose, |items| + 1, total, user, item)]
  {
  }

  /** The project a group belongs to: the group name up to, not including, its last "_". */
  function ProjectId(group: string): (project: string)
    requires '_' in group
    ensures |project| < |group| && project == group[..|project|]
    ensures group[|project|] == '_' && '_' !in group[|project| + 1..]
  {
    group[..LastIndexOf(group, '_')]
  }

  function ProjectIds(groups: seq<string>): (projects: seq<string>)
    requires forall i :: 0 <= i < |groups| ==> '_' in groups[i]
    ensures |projects| == |groups|
  {
    seq(|groups|, i requires 0 <= i < |groups| => ProjectId(groups[i]))
  }

  /** How many groups precede the first one without "_" (all of them if there is none). */
  function ProjectPrefix(groups: seq<string>): (k: nat)
    ensures k <= |groups|
    ensures forall i :: 0 <= i < k ==> '_' in groups[i]
    ensures k < |groups| ==> '_' !in groups[k]
  {
    if groups == [] || '_' !in groups[0] then 0 else 1 + ProjectPrefix(groups[1..])
  }

  /**
   * `execute_list_user_projects`: fetch the target's groups and print one
   * project line per group, until a group without "_" makes `rindex` raise.
   */
  function ProjectListing(dir: Directory, args: Args): Run
  {
    var user := Show(args.targetUser);
    var groups := dir.groups(user);
    var k := ProjectPrefix(groups);
    Run([Get(GroupsPath(user))] + Prints(ListingLines(args.verbose, user, ProjectIds(groups[..k]), |groups|)),
        if k == |groups| then Completed else Raised(ValueError))
  }

  /** `execute_list_user_groups`. */
  function GroupListing(dir: Directory, args: Args): seq<Event>
  {
    var user := Show(args.targetUser);
    [Get(GroupsPath(user))] + Prints(ListingLines(args.verbose, user, dir.groups(user), |dir.groups(user)|))
  }

  /** `execute_list_user_roles`. */
  function RoleListing(dir: Directory, args: Args): seq<Event>
  {
    var user := Show(args.targetUser);
    [Get(RolesPath(user))] + Prints(ListingLines(args.verbose, user, dir.roles(user), |dir.roles(user)|))
  }

  /** The listing stops after the first `stop` groups exactly when those have "_" and the next has none. */
  lemma ProjectListingStopsAt(dir: Directory, args: Args, stop: nat)
    requires var groups := dir.groups(Show(args.targetUser));
      stop <= |groups| && (forall j :: 0 <= j < stop ==> '_' in groups[j]) &&
      (stop < |groups| ==> '_' !in groups[stop])
    ensures var user := Show(args.targetUser); var groups := dir.groups(user);
      ProjectListing(dir, args) ==
        Run([Get(GroupsPath(user))] + Prints(ListingLines(args.verbose, user, ProjectIds(groups[..stop]), |groups|)),
            if stop == |groups| then Completed else Raised(ValueError))
  {
    var groups := dir.groups(Show(args.targetUser));
    assert ProjectPrefix(groups) == stop;
  }

  /** One more group with "_" adds its project line to the listing. */
  lemma ProjectListingStep(verbose: bool, user: string, groups: seq<string>, i: nat, total: nat)
    requires i < |groups| && forall j :: 0 <= j <= i ==> '_' in groups[j]
    ensures Prints(ListingLines(verbose, user, ProjectIds(groups[..i + 1]), total)) ==
      Prints(ListingLines(verbose, user, ProjectIds(groups[..i]), total)) + [Print(ListingLine(verbose, i + 1, total, user, ProjectId(groups[i])))]
  {
    assert ProjectIds(groups[..i + 1]) == ProjectIds(groups[..i]) + [ProjectId(groups[i])];
    ListingLinesSnoc(verbose, user, ProjectIds(groups[..i]), ProjectId(groups[i]), total);
    PrintsSnoc(ListingLines(verbose, user, ProjectIds(groups[..i]), total), ListingLine(verbose, i + 1, total, user, ProjectId(groups[i])));
  }

  method ListUserProjects(dir: Directory, args: Args) returns (log: seq<Event>, outcome: Outcome)
    ensures Run(log, outcome) == ProjectListing(dir, args)
    ensures outcome.Completed? <==> forall i :: 0 <= i < |dir.groups(Show(args.targetUser))| ==> '_' in dir.groups(Show(args.targetUser))[i]
    ensures Calls(log) == [Get(GroupsPath(Show(args.targetUser)))]
  {
    var targetUser := Show(args.targetUser);
    var userGroups := dir.groups(targetUser);
    log := [Get(GroupsPath(targetUser))];
    var index := 1;
    var groupLength := |userGroups|;
    var i := 0;
    while i < |userGroups|
      invariant i <= |userGroups|
      invariant forall j :: 0 <= j < i ==> '_' in userGroups[j]
      invariant args.verbose ==> index == i + 1
      invariant log == [Get(GroupsPath(targetUser))] + Prints(ListingLines(args.verbose, targetUser, ProjectIds(userGroups[..i]), groupLength))
    {
      if '_' !in userGroups[i] {
        outcome := Raised(ValueError);
        ProjectListingStopsAt(dir, args, i);
        FetchThenPrintCalls(GroupsPath(targetUser), ListingLines(args.verbose, targetUser, ProjectIds(userGroups[..i]), groupLength));
        return;
      }
      var roleIndex := LastIndexOf(userGroups[i], '_');
      var projectOnly := userGroups[i][..roleIndex];
      var line: string;
      if args.verbose {
        line := Decimal(index) + "\t" + Decimal(groupLength) + "\t" + targetUser + "\t" + projectOnly;
        index := index + 1;
      } else {
        line := targetUser + "\t" + projectOnly;
      }
      ProjectListingStep(args.verbose, targetUser, userGroups, i, groupLength);
      log := log + [Print(line)];
      i := i + 1;
    }
    outcome := Completed;
    ProjectListingStopsAt(dir, args, i);
    FetchThenPrintCalls(GroupsPath(targetUser), ListingLines(args.verbose, targetUser, ProjectIds(userGroups[..i]), groupLength));
  }

  /** The print loop shared by group and role listing. */
  method EmitListing(verbose: bool, user: string, items: seq<string>) returns (log: seq<Event>)
    ensures log == Prints(ListingLines(verbose, user, items, |items|))
  {
    log := [];
    var index := 1;
    var length := |items|;
    var i := 0;
    while i < |items|
      invariant i <= |items|
      invariant verbose ==> index == i + 1
      invariant log == Prints(ListingLines(verbose, user, items[..i], length))
    {
      assert items[..i + 1] == items[..i] + [items[i]];
      ListingLinesSnoc(verbose, user, items[..i], items[i], length);
      PrintsSnoc(ListingLines(verbose, user, items[..i], length), ListingLine(verbose, i + 1, length, user, items[i]));
      if verbose {
        log := log + [Print(Decimal(index) + "\t" + Decimal(length) + "\t" + user + "\t" + items[i])];
        index := index + 1;
      } else {
        log := log + [Print(user + "\t" + items[i])];
      }
      i := i + 1;
    }
    assert items[..i] == items;
  }

  method ListUserGroups(dir: Directory, args: Args) returns (log: seq<Event>)
    ensures log == GroupListing(dir, args)
    ensures Calls(log) == [Get(GroupsPath(Show(args.targetUser)))]
    ensures Printed(log) == ListingLines(args.verbose, Show(args.targetUser), dir.groups(Show(args.targetUser)), |dir.groups(Show(args.targetUser))|)
  {
    var targetUser := Show(args.targetUser);
    var lines := EmitListing(args.verbose, targetUser, dir.groups(targetUser));
    log := [Get(GroupsPath(targetUser))] + lines;
    FetchThenPrintCalls(GroupsPath(targetUser), ListingLines(args.verbose, targetUser, dir.groups(targetUser), |dir.groups(targetUser)|));
    FetchThenPrintPrinted(GroupsPath(targetUser), ListingLines(args.verbose, targetUser, dir.groups(targetUser), |dir.groups(targetUser)|));
  }

  method ListUserRoles(dir: Directory, args: Args) returns (log: seq<Event>)
    ensures log == RoleListing(dir, args)
    ensures Calls(log) == [Get(RolesPath(Show(args.targetUser)))]
    ensures Printed(log) == ListingLines(args.verbose, Show(args.targetUser), dir.roles(Show(args.targetUser)), |dir.roles(Show(args.targetUser))|)
  {
    var targetUser := Show(args.targetUser);
    var lines := EmitListing(args.verbose, targetUser, dir.roles(targetUser));
    log := [Get(RolesPath(targetUser))] + lines;
    FetchThenPrintCalls(RolesPath(targetUser), ListingLines(args.verbose, targetUser, dir.roles(targetUser), |dir.roles(targetUser)|));
    FetchThenPrintPrinted(RolesPath(targetUser), ListingLines(args.verbose, targetUser, dir.roles(targetUser), |dir.roles(targetUser)|));
  }

  /** `execute_list_master`: projects, else roles, else groups, else a hint and no call. */
  function ListMasterSpec(dir: Directory, args: Args): Run
  {
    if args.projects then ProjectListing(dir, args)
    else if args.roles then Run(RoleListing(dir, args), Completed)
    else if args.groups then Run(GroupListing(dir, args), Completed)
    else Run([Print("Request to list requires --projects or --roles")], Completed)
  }

  method ListMaster(dir: Directory, args: Args) returns (log: seq<Event>, outcome: Outcome)
    ensures Run(log, outcome) == ListMasterSpec(dir, args)
    ensures forall k :: 0 <= k < |Calls(log)| ==> Calls(log)[k].Get?
    ensures !args.projects && !args.roles && !args.groups ==> Calls(log) == []
  {
    if args.projects {
      log, outcome := ListUserProjects(dir, args);
    } else if args.roles {
      log := ListUserRoles(dir, args);
      outcome := Completed;
    } else if args.groups {
      log := ListUserGroups(dir, args);
      outcome := Completed;
    } else {
      log := [Print("Request to list requires --projects or --roles")];
      outcome := Completed;
      assert log == Prints(["Request to list requires --projects or --roles"]);
      CallsPrints(["Request to list requires --projects or --roles"]);
    }
  }

  /** The verbose progress line of a clone. */
  function CloneLine(index: nat, total: nat, source: string, target: string, group: string): string
  {
    Decimal(index) + " " + Decimal(total) + " " + source + " -> " + target + " : " + group
  }

  /** The events for the `index`-th group: a progress line when verbose, then the PUT. */
  function CloneStep(verbose: bool, index: nat, total: nat, source: string, target: string, group: string): seq<Event>
  {
    (if verbose then [Print(CloneLine(index, total, source, target, group))] else [])
      + [Put(GroupPath(target, group), map[])]
  }

  lemma CloneStepProjections(verbose: bool, index: nat, total: nat, source: string, target: string, group: string)
    ensures Calls(CloneStep(verbose, index, total, source, target, group)) == [Put(GroupPath(target, group), map[])]
    ensures Printed(CloneStep(verbose, index, total, source, target, group)) ==
      if verbose then [CloneLine(index, total, source, target, group)] else []
  {
  }

  /** The events of cloning `groups`, group by group. */
  function CloneEvents(verbose: bool, source: string, target: string, groups: seq<string>, total: nat): seq<Event>
    decreases |groups|
  {
    if groups == [] then []
    else
      CloneEvents(verbose, source, target, groups[..|groups| - 1], total)
        + CloneStep(verbose, |groups|, total, source, target, groups[|groups| - 1])
  }

  /** `execute_user_group_clone`: fetch the source user's groups and add the target to each. */
  function CloneSpec(dir: Directory, args: Args): seq<Event>
  {
    var source, target := Show(args.cloneGroups), Show(args.targetUser);
    [Get(GroupsPath(source))] + CloneEvents(args.verbose, source, target, dir.groups(source), |dir.groups(source)|)
  }

  /** One PUT per group adding `target` to it, in order. */
  function GroupPuts(target: string, groups: seq<string>): (puts: seq<Event>)
    ensures |puts| == |groups|
  {
    seq(|groups|, i requires 0 <= i < |groups| => Put(GroupPath(target, groups[i]), map[]))
  }

  /** One progress line per group, numbered from 1. */
  function CloneLines(total: nat, source: string, target: string, groups: seq<string>): (lines: seq<string>)
    ensures |lines| == |groups|
  {
    seq(|groups|, i requires 0 <= i < |groups| => CloneLine(i + 1, total, source, target, groups[i]))
  }

  lemma GroupPutsSnoc(target: string, groups: seq<string>)
    requires groups != []
    ensures GroupPuts(target, groups) ==
      GroupPuts(target, groups[..|groups| - 1]) + [Put(GroupPath(target, groups[|groups| - 1]), map[])]
  {
    var a, b := GroupPuts(target, groups), GroupPuts(target, groups[..|groups| - 1]) + [Put(GroupPath(target, groups[|groups| - 1]), map[])];
    assert |a| == |b|;
    forall i | 0 <= i < |a| ensures a[i] == b[i] {
      if i < |groups| - 1 { assert groups[..|groups| - 1][i] == groups[i]; }
    }
  }

  lemma CloneLinesSnoc(total: nat, source: string, target: string, groups: seq<string>)
    requires groups != []
    ensures CloneLines(total, source, target, groups) ==
      CloneLines(total, source, target, groups[..|groups| - 1]) + [CloneLine(|groups|, total, source, target, groups[|groups| - 1])]
  {
    var a, b := CloneLines(total, source, target, groups), CloneLines(total, source, target, groups[..|groups| - 1]) + [CloneLine(|groups|, total, source, target, groups[|groups| - 1])];
    assert |a| == |b|;
    forall i | 0 <= i < |a| ensures a[i] == b[i] {
      if i < |groups| - 1 { assert groups[..|groups| - 1][i] == groups[i]; }
    }
  }

  /** A clone issues exactly one PUT per source group, in source order, and no other call. */
  lemma {:induction false} CloneCalls(verbose: bool, source: string, target: string, groups: seq<string>, total: nat)
    ensures Calls(CloneEvents(verbose, source, target, groups, total)) == GroupPuts(target, groups)
    decreases |groups|
  {
    if groups != [] {
      var init := groups[..|groups| - 1];
      var step := CloneStep(verbose, |groups|, total, source, target, groups[|groups| - 1]);
      CloneCalls(verbose, source, target, init, total);
      CallsAppend(CloneEvents(verbose, source, target, init, total), step);
      CloneStepProjections(verbose, |groups|, total, source, target, groups[|groups| - 1]);
      GroupPutsSnoc(target, groups);
    }
  }

  /** A verbose clone prints one numbered progress line per group, a quiet one prints nothing. */
  lemma {:induction false} ClonePrinted(verbose: bool, source: string, target: string, groups: seq<string>, total: nat)
    ensures Printed(CloneEvents(verbose, source, target, groups, total)) ==
      if verbose then CloneLines(total, source, target, groups) else []
    decreases |groups|
  {
    if groups != [] {
      var init := groups[..|groups| - 1];
      var step := CloneStep(verbose, |groups|, total, source, target, groups[|groups| - 1]);
      ClonePrinted(verbose, source, target, init, total);
      PrintedAppend(CloneEvents(verbose, source, target, init, total), step);
      CloneStepProjections(verbose, |groups|, total, source, target, groups[|groups| - 1]);
      CloneLinesSnoc(total, source, target, groups);
    }
  }

  method CloneGroups(dir: Directory, args: Args) returns (log: seq<Event>)
    ensures log == CloneSpec(dir, args)
    ensures var groups := dir.groups(Show(args.cloneGroups));
      Calls(log) == [Get(GroupsPath(Show(args.cloneGroups)))] + GroupPuts(Show(args.targetUser), groups)
  {
    var sourceUser := Show(args.cloneGroups);
    var targetUser := Show(args.targetUser);
    var userGroups := dir.groups(sourceUser);
    log := [Get(GroupsPath(sourceUser))];
    var index := 1;
    var groupLength := |userGroups|;
    var i := 0;
    while i < |userGroups|
      invariant i <= |userGroups|
      invariant args.verbose ==> index == i + 1
      invariant log == [Get(GroupsPath(sourceUser))] + CloneEvents(args.verbose, sourceUser, targetUser, userGroups[..i], groupLength)
    {
      ghost var before := log;
      if args.verbose {
        log := log + [Print(Decimal(index) + " " + Decimal(groupLength) + " " + sourceUser + " -> " + targetUser + " : " + userGroups[i])];
        index := index + 1;
      }
      log := log + [Put(GroupPath(targetUser, userGroups[i]), map[])];
      assert log == before + CloneStep(args.verbose, i + 1, groupLength, sourceUser, targetUser, userGroups[i]);
      assert userGroups[..i + 1][..i] == userGroups[..i];
      i := i + 1;
    }
    assert userGroups[..i] == userGroups;
    CloneSpecCalls(dir, args);
  }

  /** The operation the main block picks: list, else clone, else a complaint. */
  function UsersBody(dir: Directory, args: Args): Run
  {
    if args.list then ListMasterSpec(dir, args)
    else if Truthy(args.cloneGroups) then Run(CloneSpec(dir, args), Completed)
    else Run([Print("Command not entered that we recognize")], Completed)
  }

  /** The script's main block: echo the extension flag, run the operation, disconnect. */
  function UsersMain(dir: Directory, args: Args): Run
  {
    MainBlock(ExtensionTypesEcho(args.extensionTypes), UsersBody(dir, args))
  }

  method RunUsers(dir: Directory, args: Args) returns (log: seq<Event>, outcome: Outcome)
    ensures Run(log, outcome) == UsersMain(dir, args)
    ensures outcome.Completed? <==> Disconnect in log
    ensures outcome.Completed? ==> log[|log| - 1] == Disconnect
  {
    log := [Print(ExtensionTypesEcho(args.extensionTypes))];
    var body: seq<Event>;
    if args.list {
      body, outcome := ListMaster(dir, args);
    } else if Truthy(args.cloneGroups) {
      body := CloneGroups(dir, args);
      outcome := Completed;
    } else {
      body := [Print("Command not entered that we recognize")];
      outcome := Completed;
    }
    log := log + body;
    if outcome.Completed? {
      log := log + [Disconnect];
    }
    UsersBodyNeverDisconnects(dir, args);
    MainBlockDisconnects(ExtensionTypesEcho(args.extensionTypes), UsersBody(dir, args));
  }

  lemma UsersBodyNeverDisconnects(dir: Directory, args: Args)
    ensures Disconnect !in UsersBody(dir, args).log
  {
    var body := UsersBody(dir, args);
    if Disconnect in body.log {
      var k :| 0 <= k < |body.log| && body.log[k] == Disconnect;
      if args.list || Truthy(args.cloneGroups) {
        assert Disconnect in Calls(body.log) by { CallsKeep(body.log, k); }
        if args.list { ListMasterCallsAreGets(dir, args); }
        else { CloneSpecCalls(dir, args); }
      }
    }
  }

  /** A clone's calls: the fetch of the source groups, then one PUT per group. */
  lemma CloneSpecCalls(dir: Directory, args: Args)
    ensures Calls(CloneSpec(dir, args)) ==
      [Get(GroupsPath(Show(args.cloneGroups)))] + GroupPuts(Show(args.targetUser), dir.groups(Show(args.cloneGroups)))
  {
    var source, target := Show(args.cloneGroups), Show(args.targetUser);
    var groups := dir.groups(source);
    CloneCalls(args.verbose, source, target, groups, |groups|);
    CallsAppend([Get(GroupsPath(source))], CloneEvents(args.verbose, source, target, groups, |groups|));
    CallsOnly([Get(GroupsPath(source))]);
  }

  lemma ListMasterCallsAreGets(dir: Directory, args: Args)
    ensures forall k :: 0 <= k < |Calls(ListMasterSpec(dir, args).log)| ==> Calls(ListMasterSpec(dir, args).log)[k].Get?
  {
    var user := Show(args.targetUser);
    if args.projects {
      var k := ProjectPrefix(dir.groups(user));
      FetchThenPrintCalls(GroupsPath(user), ListingLines(args.verbose, user, ProjectIds(dir.groups(user)[..k]), |dir.groups(user)|));
    } else if args.roles {
      FetchThenPrintCalls(RolesPath(user), ListingLines(args.verbose, user, dir.roles(user), |dir.roles(user)|));
    } else if args.groups {
      FetchThenPrintCalls(GroupsPath(user), ListingLines(args.verbose, user, dir.groups(user), |dir.groups(user)|));
    } else {
      assert ListMasterSpec(dir, args).log == Prints(["Request to list requires --projects or --roles"]);
      CallsPrints(["Request to list requires --projects or --roles"]);
    }
  }

  /** Listing takes precedence over cloning, and a listing run changes nothing on the server. */
  lemma ListRunIsReadOnly(dir: Directory, args: Args)
    requires args.list
    ensures forall k :: 0 <= k < |Calls(UsersMain(dir, args).log)| ==> !Calls(UsersMain(dir, args).log)[k].Put?
  {
    MainBlockCalls(ExtensionTypesEcho(args.extensionTypes), UsersBody(dir, args));
    ListMasterCallsAreGets(dir, args);
  }

  /** Without --list but with a source user, the run's only writes are the clone's PUTs. */
  lemma CloneRunCalls(dir: Directory, args: Args)
    requires !args.list && Truthy(args.cloneGroups)
    ensures Calls(UsersMain(dir, args).log) ==
      [Get(GroupsPath(Show(args.cloneGroups)))] + GroupPuts(Show(args.targetUser), dir.groups(Show(args.cloneGroups))) + [Disconnect]
  {
    MainBlockCalls(ExtensionTypesEcho(args.extensionTypes), UsersBody(dir, args));
    CloneSpecCalls(dir, args);
  }
}
