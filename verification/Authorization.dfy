/** Who may call what: the gateway's decisions over a registry, a session and a call. */
module Authorization {
  import opened Lists
  import opened Wrappers
  import opened Roles
  import opened Registry
  import Admin
  import Documents
  import FileTree

  const SMART_TOOLS := ["explain_change_impact", "ask_codebase"]

  const SMART_TOOL_REQUIREMENTS := map[
    "explain_change_impact" := {"detect_changes"},
    "ask_codebase" := {"search_graph", "get_architecture"}
  ]

  const PROJECT_ARG_TOOLS := {
    "search_graph", "query_graph", "trace_path", "get_code_snippet", "get_graph_schema", "get_architecture",
    "search_code", "index_status", "check_index_coverage", "detect_changes", "delete_project", "manage_adr",
    "ingest_traces", "explain_change_impact", "ask_codebase"
  }

  datatype Session = Session(tenant: Tenant, role: Role)

  datatype SelectionError = NoSquad | NoAccess(requested: string) | Ambiguous

  /** The `project` argument of a call. */
  datatype Project = Absent | Text(name: string) | NotText

  datatype Denial =
    | SmartDisabled | RoleWithoutSmart | MissingTools(tools: set<string>) | NotAvailable | NoProjectAccess | OutsideRoot

  // ── the squad ────────────────────────────────────────────────────

  function ForGroups(tenants: seq<Tenant>, groups: set<string>): (r: seq<Tenant>)
    ensures forall t :: t in r <==> t in tenants && t.ldapGroups * groups != {}
    ensures |r| <= |tenants|
  {
    if tenants == [] then []
    else
      var last := tenants[|tenants| - 1];
      assert tenants == tenants[..|tenants| - 1] + [last];
      ForGroups(tenants[..|tenants| - 1], groups) + if last.ldapGroups * groups != {} then [last] else []
  }

  function FirstNamed(tenants: seq<Tenant>, name: string): Option<Tenant> {
    if tenants == [] then None
    else if tenants[0].name == name then Some(tenants[0])
    else FirstNamed(tenants[1..], name)
  }

  /** `requested` is the squad the caller names, empty when it names none. */
  function SelectTenant(squads: Squads, groups: set<string>, requested: string): Result<Tenant, SelectionError> {
    var candidates := ForGroups(squads.tenants, groups);
    if candidates == [] then Err(NoSquad)
    else if requested != "" then
      match FirstNamed(candidates, requested)
      case Some(t) => Ok(t)
      case None => Err(NoAccess(requested))
    else if |candidates| > 1 then Err(Ambiguous)
    else Ok(candidates[0])
  }

  lemma {:induction false} FirstNamedFinds(tenants: seq<Tenant>, name: string)
    ensures FirstNamed(tenants, name).Some? <==> exists t :: t in tenants && t.name == name
    ensures FirstNamed(tenants, name).Some? ==>
            FirstNamed(tenants, name).value in tenants && FirstNamed(tenants, name).value.name == name
  {
    if tenants != [] && tenants[0].name != name {
      FirstNamedFinds(tenants[1..], name);
      assert tenants == [tenants[0]] + tenants[1..];
    }
  }

  /** A caller is put in a squad one of its groups maps to: the one it names, or the only one there is. */
  lemma {:induction false} SelectedSquad(squads: Squads, groups: set<string>, requested: string)
    ensures var r := SelectTenant(squads, groups, requested);
            && (r.Ok? ==> r.value in squads.tenants && r.value.ldapGroups * groups != {})
            && (r == Err(NoSquad) <==> forall t :: t in squads.tenants ==> t.ldapGroups * groups == {})
            && (r.Ok? && requested != "" ==> r.value.name == requested)
            && (r.Ok? && requested == "" ==>
                  forall t :: t in squads.tenants && t.ldapGroups * groups != {} ==> t == r.value)
            && (requested != "" ==>
                  (r.Ok? <==> exists t :: t in squads.tenants && t.name == requested && t.ldapGroups * groups != {}))
  {
    var candidates := ForGroups(squads.tenants, groups);
    FirstNamedFinds(candidates, requested);
    assert candidates != [] ==> candidates[0] in candidates;
    if candidates != [] && requested != "" {
      assert FirstNamed(candidates, requested).Some? <==> exists t :: t in candidates && t.name == requested;
    }
  }

  /** Since no group reaches two squads, a caller with one group never has to choose. */
  lemma {:induction false} OneGroupNeverHasToChoose(entries: seq<(string, TenantEntry)>, g: string)
    requires Owners(entries).Ok?
    ensures |ForGroups(TenantsOf(entries), {g})| <= 1
  {
    if entries != [] {
      var n := |entries| - 1;
      var tenants := TenantsOf(entries);
      assert tenants[..n] == TenantsOf(entries[..n]);
      OneGroupNeverHasToChoose(entries[..n], g);
      var before := ForGroups(tenants[..n], {g});
      if before != [] {
        assert before[0] in before;
        var i :| 0 <= i < n && tenants[i] == before[0];
        OneSquadPerGroup(entries, i, n);
        assert g in tenants[i].ldapGroups;
        assert tenants[n].ldapGroups * {g} == {};
      }
    }
  }

  // ── the tools ────────────────────────────────────────────────────

  function AllowedTools(tenant: Tenant): set<string>
    requires tenant.toolProfile in PROFILES
  {
    var tools := PROFILES[tenant.toolProfile];
    (if tenant.structuralOnly then tools - {"get_code_snippet", "search_code"} else tools) - tenant.deniedTools
  }

  /** What the profile allows and the role is capable of. */
  function EffectiveTools(s: Session): set<string>
    requires s.tenant.toolProfile in PROFILES
  {
    set t | t in AllowedTools(s.tenant) && t in TOOL_CAPABILITY && TOOL_CAPABILITY[t] in Capabilities(s.role)
  }

  function SmartToolsFor(s: Session, llmEnabled: bool): set<string>
    requires s.tenant.toolProfile in PROFILES
  {
    if !llmEnabled || UseSmartTools !in Capabilities(s.role) then {}
    else set t | t in SMART_TOOL_REQUIREMENTS && SMART_TOOL_REQUIREMENTS[t] <= EffectiveTools(s)
  }

  /** The first refusal of a tool, before its arguments are looked at. */
  function ToolDenial(s: Session, llmEnabled: bool, name: string): Option<Denial>
    requires s.tenant.toolProfile in PROFILES
  {
    if name in SMART_TOOL_REQUIREMENTS then
      var missing := SMART_TOOL_REQUIREMENTS[name] - EffectiveTools(s);
      if !llmEnabled then Some(SmartDisabled)
      else if UseSmartTools !in Capabilities(s.role) then Some(RoleWithoutSmart)
      else if missing != {} then Some(MissingTools(missing))
      else None
    else if name !in EffectiveTools(s) then Some(NotAvailable)
    else None
  }

  predicate AllowsProject(tenant: Tenant, fnmatch: (string, string) -> bool, project: string) {
    project != "" && exists pattern :: pattern in tenant.projects && fnmatch(project, pattern)
  }

  /** `root` is where the squad's repositories live, `repoPath` the argument of an indexing request. */
  function Authorize(
      s: Session, llmEnabled: bool, fnmatch: (string, string) -> bool, root: string,
      name: string, project: Project, repoPath: string): Option<Denial>
    requires s.tenant.toolProfile in PROFILES
  {
    match ToolDenial(s, llmEnabled, name)
    case Some(d) => Some(d)
    case None =>
      if name in PROJECT_ARG_TOOLS && !project.Absent? &&
         !(project.Text? && AllowsProject(s.tenant, fnmatch, project.name))
      then Some(NoProjectAccess)
      else if name == "index_repository" && !(root + "/" <= repoPath) then Some(OutsideRoot)
      else None
  }

  /** What is offered is what is allowed: composite tools and engine tools, for every squad and role. */
  lemma {:induction false} OfferedExactlyWhenAllowed(s: Session, llmEnabled: bool, name: string)
    requires s.tenant.toolProfile in PROFILES
    ensures ToolDenial(s, llmEnabled, name).None? <==>
            if name in SMART_TOOL_REQUIREMENTS then name in SmartToolsFor(s, llmEnabled) else name in EffectiveTools(s)
  {
    hide EffectiveTools, Capabilities;
    if name in SMART_TOOL_REQUIREMENTS {
      var needs, has := SMART_TOOL_REQUIREMENTS[name], EffectiveTools(s);
      assert needs <= has <==> needs - has == {};
    }
  }

  function Offered(s: Session, llmEnabled: bool, engine: seq<string>): seq<string>
    requires s.tenant.toolProfile in PROFILES
  {
    Keep(engine, EffectiveTools(s)) + Keep(SMART_TOOLS, SmartToolsFor(s, llmEnabled))
  }

  function Keep(names: seq<string>, wanted: set<string>): (r: seq<string>)
    ensures forall n :: n in r <==> n in names && n in wanted
  {
    if names == [] then []
    else
      var last := names[|names| - 1];
      assert names == names[..|names| - 1] + [last];
      Keep(names[..|names| - 1], wanted) + if last in wanted then [last] else []
  }

  /** The answer to `tools/list`, given the names the engine advertises. */
  method ToolsList(s: Session, llmEnabled: bool, engine: seq<string>) returns (tools: seq<string>)
    requires s.tenant.toolProfile in PROFILES
    ensures tools == Offered(s, llmEnabled, engine)
  {
    hide EffectiveTools, SmartToolsFor;
    var allowed := EffectiveTools(s);
    tools := [];
    for i := 0 to |engine|
      invariant tools == Keep(engine[..i], allowed)
    {
      assert engine[..i + 1][..i] == engine[..i];
      if engine[i] in allowed { tools := tools + [engine[i]]; }
    }
    assert engine[..|engine|] == engine;
    var smart := SmartToolsFor(s, llmEnabled);
    for i := 0 to |SMART_TOOLS|
      invariant tools == Keep(engine, allowed) + Keep(SMART_TOOLS[..i], smart)
    {
      assert SMART_TOOLS[..i + 1][..i] == SMART_TOOLS[..i];
      if SMART_TOOLS[i] in smart { tools := tools + [SMART_TOOLS[i]]; }
    }
    assert SMART_TOOLS[..|SMART_TOOLS|] == SMART_TOOLS;
  }

  /** Every listed tool passes the check on its name, and every tool that passes and exists is listed. */
  lemma {:induction false} ListedExactlyWhenCallable(s: Session, llmEnabled: bool, engine: seq<string>, name: string)
    requires s.tenant.toolProfile in PROFILES
    ensures name in Offered(s, llmEnabled, engine) <==>
            ToolDenial(s, llmEnabled, name).None? && (name in engine || name in SMART_TOOL_REQUIREMENTS)
  {
    OfferedExactlyWhenAllowed(s, llmEnabled, name);
    SmartNames(name);
    hide AllowedTools, Capabilities;
    assert name in EffectiveTools(s) ==> name in TOOL_CAPABILITY;
    assert name in SmartToolsFor(s, llmEnabled) ==> name in SMART_TOOL_REQUIREMENTS;
  }

  lemma {:induction false} SmartNames(name: string)
    ensures name in SMART_TOOLS <==> name in SMART_TOOL_REQUIREMENTS
    ensures name in SMART_TOOL_REQUIREMENTS ==> name !in TOOL_CAPABILITY
  {
    if name in SMART_TOOL_REQUIREMENTS {
      assert name == SMART_TOOLS[0] || name == SMART_TOOLS[1];
    }
  }

  /** No call that is let through names a project outside the squad's patterns; only listing projects and
      indexing, which has a path instead, do without that check. The path begins with the root as text. */
  lemma {:induction false} AuthorizedCallsStayInTheSquad(
      s: Session, llmEnabled: bool, fnmatch: (string, string) -> bool, root: string,
      name: string, project: Project, repoPath: string)
    requires s.tenant.toolProfile in PROFILES
    requires Authorize(s, llmEnabled, fnmatch, root, name, project, repoPath).None?
    ensures name != "list_projects" && name != "index_repository" && !project.Absent? ==>
              project.Text? && AllowsProject(s.tenant, fnmatch, project.name)
    ensures name == "index_repository" ==> root + "/" <= repoPath
  {
    if name !in SMART_TOOL_REQUIREMENTS {
      assert name in EffectiveTools(s);
      EngineToolsTakeProjects(name);
    }
  }

  lemma {:induction false} EngineToolsTakeProjects(name: string)
    requires name in TOOL_CAPABILITY
    ensures name in PROJECT_ARG_TOOLS || name == "list_projects" || name == "index_repository"
  {
  }

  // ── where an indexing path leads ─────────────────────────────────

  /** One segment of a path, taken from a place given by its names below the file system's top. */
  function Enter(place: seq<string>, segment: string): seq<string> {
    if segment == "" || segment == "." then place
    else if segment == ".." then if place == [] then [] else place[..|place| - 1]
    else place + [segment]
  }

  function Walk(place: seq<string>, segments: seq<string>): seq<string> {
    if segments == [] then place else Enter(Walk(place, segments[..|segments| - 1]), segments[|segments| - 1])
  }

  /** Names entered less names left again. */
  function Depth(segments: seq<string>): int {
    if segments == [] then 0
    else
      var last := segments[|segments| - 1];
      Depth(segments[..|segments| - 1]) + if last == "" || last == "." then 0 else if last == ".." then -1 else 1
  }

  /** No beginning of the path leaves more names than it entered. */
  predicate NeverClimbs(segments: seq<string>) { forall i :: 0 <= i <= |segments| ==> Depth(segments[..i]) >= 0 }

  /** Every beginning of the path is at the place or below it. */
  predicate StaysUnder(place: seq<string>, segments: seq<string>) {
    forall i :: 0 <= i <= |segments| ==> place <= Walk(place, segments[..i])
  }

  lemma {:induction false} WalkWithoutClimbing(place: seq<string>, segments: seq<string>)
    requires NeverClimbs(segments)
    ensures place <= Walk(place, segments) && |Walk(place, segments)| == |place| + Depth(segments)
  {
    if segments != [] {
      var n := |segments| - 1;
      assert forall i :: 0 <= i <= n ==> segments[..n][..i] == segments[..i];
      WalkWithoutClimbing(place, segments[..n]);
      assert segments[..n + 1] == segments;
    }
  }

  /** The first step up out of a place leaves it. */
  lemma {:induction false} ClimbingLeaves(place: seq<string>, segments: seq<string>)
    requires place != [] && segments != [] && NeverClimbs(segments[..|segments| - 1]) && Depth(segments) < 0
    ensures !(place <= Walk(place, segments))
  {
    WalkWithoutClimbing(place, segments[..|segments| - 1]);
  }

  lemma {:induction false} NothingNeverClimbs()
    ensures NeverClimbs([])
  {
    var none: seq<string> := [];
    assert forall i :: 0 <= i <= 0 ==> none[..i] == [];
  }

  lemma {:induction false} FirstClimb(segments: seq<string>) returns (i: nat)
    requires !NeverClimbs(segments)
    ensures 0 < i <= |segments| && Depth(segments[..i]) < 0 && NeverClimbs(segments[..i - 1])
  {
    NothingNeverClimbs();
    var n := |segments| - 1;
    if NeverClimbs(segments[..n]) {
      i := |segments|;
      assert forall k :: 0 <= k <= n ==> segments[..n][..k] == segments[..k];
      assert segments[..i] == segments;
    } else {
      i := FirstClimb(segments[..n]);
      assert segments[..n][..i] == segments[..i] && segments[..n][..i - 1] == segments[..i - 1];
    }
  }

  /** A path stays at or below a place other than the top if and only if no beginning of it climbs above. */
  lemma {:induction false} StaysUnderExactlyWhen(place: seq<string>, segments: seq<string>)
    requires place != []
    ensures StaysUnder(place, segments) <==> NeverClimbs(segments)
  {
    if NeverClimbs(segments) {
      forall i | 0 <= i <= |segments| ensures place <= Walk(place, segments[..i]) {
        assert forall k :: 0 <= k <= i ==> segments[..i][..k] == segments[..k];
        WalkWithoutClimbing(place, segments[..i]);
      }
    } else {
      var i := FirstClimb(segments);
      assert segments[..i][..i - 1] == segments[..i - 1];
      ClimbingLeaves(place, segments[..i]);
    }
  }

  lemma {:induction false} WalkInTwo(place: seq<string>, a: seq<string>, b: seq<string>)
    ensures Walk(place, a + b) == Walk(Walk(place, a), b)
  {
    if b == [] {
      assert a + b == a;
    } else {
      assert (a + b)[..|a + b| - 1] == a + b[..|b| - 1];
      WalkInTwo(place, a, b[..|b| - 1]);
    }
  }

  /** The place a path names, links aside. */
  function PlaceOf(path: string): seq<string> { Walk([], FileTree.Split(path)) }

  /** The gateway compares texts. Of the paths it lets through, exactly those stay under the squad's root whose part
      behind the root climbs above it at no point. */
  lemma {:induction false} IndexedPathsStayUnderTheRootExactlyWhen(
      s: Session, llmEnabled: bool, fnmatch: (string, string) -> bool, root: string, project: Project, repoPath: string)
    returns (rest: string)
    requires s.tenant.toolProfile in PROFILES && PlaceOf(root) != []
    requires Authorize(s, llmEnabled, fnmatch, root, "index_repository", project, repoPath).None?
    ensures repoPath == root + "/" + rest && PlaceOf(repoPath) == Walk(PlaceOf(root), FileTree.Split(rest))
    ensures StaysUnder(PlaceOf(root), FileTree.Split(rest)) <==> NeverClimbs(FileTree.Split(rest))
    ensures NeverClimbs(FileTree.Split(rest)) ==> PlaceOf(root) <= PlaceOf(repoPath)
  {
    hide Walk, FileTree.Split;
    AuthorizedCallsStayInTheSquad(s, llmEnabled, fnmatch, root, "index_repository", project, repoPath);
    rest := repoPath[|root| + 1..];
    assert repoPath == root + "/" + rest;
    FileTree.SplitAtSlash(root, rest);
    WalkInTwo([], FileTree.Split(root), FileTree.Split(rest));
    StaysUnderExactlyWhen(PlaceOf(root), FileTree.Split(rest));
    assert FileTree.Split(rest)[..|FileTree.Split(rest)|] == FileTree.Split(rest);
  }

  lemma {:induction false} IndexingIsLetThrough(
      s: Session, fnmatch: (string, string) -> bool, root: string, path: string)
    requires s.tenant.toolProfile in PROFILES && "index_repository" in EffectiveTools(s) && root + "/" <= path
    ensures Authorize(s, false, fnmatch, root, "index_repository", Absent, path).None?
  {
    SmartNames("index_repository");
    assert "index_repository" in TOOL_CAPABILITY;
    hide EffectiveTools;
  }

  lemma {:induction false} BesideAPlace(place: seq<string>, name: string)
    requires place != [] && FileTree.Segment(name) && name != "." && name != ".." && place[|place| - 1] != name
    ensures !(place <= Walk(place, ["..", name]))
  {
    assert ["..", name][..1] == [".."] && [".."][..0] == [];
    assert Walk(place, [".."]) == place[..|place| - 1];
    assert Walk(place, ["..", name]) == place[..|place| - 1] + [name];
  }

  lemma {:induction false} BesideTheRoot(root: string, name: string)
    requires FileTree.Segment(name) && name != "." && name != ".."
    requires PlaceOf(root) != [] && PlaceOf(root)[|PlaceOf(root)| - 1] != name
    ensures !(PlaceOf(root) <= PlaceOf(root + "/" + (".." + "/" + name)))
  {
    hide Walk, FileTree.Split;
    var rest := ".." + "/" + name;
    FileTree.SplitAtSlash(root, rest);
    FileTree.SplitAtSlash("..", name);
    FileTree.SplitSegment("..", "");
    FileTree.SplitSegment(name, "");
    assert FileTree.Split(rest) == ["..", name];
    WalkInTwo([], FileTree.Split(root), ["..", name]);
    BesideAPlace(PlaceOf(root), name);
  }

  /** A path that is let through as text and names a place beside the root. The engine confines indexing on its
      own; the gateway's check is not what keeps it there. */
  lemma {:induction false} TheTextPrefixIsNotEnough(
      s: Session, fnmatch: (string, string) -> bool, root: string, name: string)
    requires s.tenant.toolProfile in PROFILES && "index_repository" in EffectiveTools(s)
    requires FileTree.Segment(name) && name != "." && name != ".."
    requires PlaceOf(root) != [] && PlaceOf(root)[|PlaceOf(root)| - 1] != name
    ensures var path := root + "/" + (".." + "/" + name);
            && Authorize(s, false, fnmatch, root, "index_repository", Absent, path).None?
            && !(PlaceOf(root) <= PlaceOf(path))
  {
    hide Authorize, EffectiveTools, PlaceOf, FileTree.Segment;
    IndexingIsLetThrough(s, fnmatch, root, root + "/" + (".." + "/" + name));
    BesideTheRoot(root, name);
  }

  /** A higher role keeps every tool of a lower one in the same squad, save where a capability is missing. */
  lemma {:induction false} PromotionKeepsTools(tenant: Tenant, high: Role, low: Role)
    requires tenant.toolProfile in PROFILES && Rank(high) <= Rank(low)
    requires !(high == Lead && low == Devops) && !(high == Devops && (low == Qa || low == Developer))
    ensures EffectiveTools(Session(tenant, low)) <= EffectiveTools(Session(tenant, high))
  {
    HigherRoleCanDoMore(high, low);
    hide AllowedTools, Capabilities;
  }

  // ── from the tables to the decision ──────────────────────────────

  /** End to end: after any history of administrative transactions, asking for a squad succeeds exactly when
      the tables hold that squad, enabled, with one of the caller's groups; and the caller's role matches
      exactly the role rows that name one of its groups. */
  lemma {:induction false} AccessFollowsTheTables(
      history: seq<seq<Admin.Op>>, names: seq<string>, assignments: seq<(string, string)>,
      groups: set<string>, requested: string)
    requires Documents.Enumerates(Admin.History(Admin.EMPTY, history), names)
    requires Documents.EnumeratesRoles(Admin.History(Admin.EMPTY, history), assignments)
    requires requested != ""
    ensures var db := Admin.History(Admin.EMPTY, history);
            var loaded := Loaded(Documents.TenantsDocument(Documents.RowsOf(db, names), assignments));
            && loaded.Ok?
            && (SelectTenant(loaded.value, groups, requested).Ok? <==>
                  && requested in db.tenants && db.tenants[requested].enabled
                  && exists g :: g in groups && g in db.tenants[requested].groups)
            && forall role :: Matches(loaded.value.roles, groups, role) <==>
                 exists r, g :: r in db.roles && Named(r) == Some(role) && g in groups && g in db.roles[r]
  {
    hide Admin.History;
    var db := Admin.History(Admin.EMPTY, history);
    Documents.EveryReachableConfigurationLoads(history, names, assignments);
    var squads := Loaded(Documents.TenantsDocument(Documents.RowsOf(db, names), assignments)).value;
    SquadAccess(squads, db, groups, requested);
    forall role ensures Matches(squads.roles, groups, role) <==>
      exists r, g :: r in db.roles && Named(r) == Some(role) && g in groups && g in db.roles[r]
    {
      RoleAccess(squads, db, groups, role);
    }
  }

  lemma {:induction false} SquadAccess(squads: Squads, db: Admin.Database, groups: set<string>, requested: string)
    requires Documents.DescribesSquads(squads, db) && requested != ""
    ensures SelectTenant(squads, groups, requested).Ok? <==>
            && requested in db.tenants && db.tenants[requested].enabled
            && exists g :: g in groups && g in db.tenants[requested].groups
  {
    hide SelectTenant, ForGroups;
    SelectedSquad(squads, groups, requested);
    if requested in db.tenants && db.tenants[requested].enabled &&
       exists g :: g in groups && g in db.tenants[requested].groups
    {
      var g :| g in groups && g in db.tenants[requested].groups;
      var i :| 0 <= i < |squads.tenants| && squads.tenants[i].name == requested;
      assert squads.tenants[i] in squads.tenants;
      assert g in squads.tenants[i].ldapGroups * groups;
    }
    if t :| t in squads.tenants && t.name == requested && t.ldapGroups * groups != {} {
      var g :| g in t.ldapGroups * groups;
      assert g in db.tenants[requested].groups;
    }
  }

  lemma {:induction false} RoleAccess(squads: Squads, db: Admin.Database, groups: set<string>, role: Role)
    requires Documents.DescribesRoles(squads, db)
    ensures Matches(squads.roles, groups, role) <==>
            exists r, g :: r in db.roles && Named(r) == Some(role) && g in groups && g in db.roles[r]
  {
    hide Named;
    if Matches(squads.roles, groups, role) {
      var i :| 0 <= i < |squads.roles| && squads.roles[i].role == role && squads.roles[i].ldapGroups * groups != {};
      var g :| g in squads.roles[i].ldapGroups * groups;
      assert squads.roles[i] in squads.roles;
      var r :| r in db.roles && Named(r) == Some(role) && squads.roles[i].ldapGroups == Elements(db.roles[r]);
      assert g in db.roles[r];
    }
    if r, g :| r in db.roles && Named(r) == Some(role) && g in groups && g in db.roles[r] {
      var a := RoleAssignment(role, Elements(db.roles[r]));
      assert a in squads.roles;
      var i :| 0 <= i < |squads.roles| && squads.roles[i] == a;
      assert g in squads.roles[i].ldapGroups * groups;
    }
  }
}
