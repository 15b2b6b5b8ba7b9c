/** Loading the squad registry from its document, strictly. */
module Registry {
  import opened Lists
  import opened Wrappers
  import opened Roles

  const ANALYSIS_TOOLS := {"search_graph", "query_graph", "trace_path", "get_code_snippet", "get_graph_schema",
                           "get_architecture", "search_code", "list_projects", "index_status",
                           "check_index_coverage", "detect_changes"}

  const SCOUT_TOOLS := {"search_graph", "trace_path", "get_code_snippet", "get_architecture", "list_projects",
                        "index_status", "check_index_coverage"}

  const WRITE_TOOLS := {"index_repository", "delete_project", "manage_adr", "ingest_traces"}

  const PROFILES := map[
    "all" := ANALYSIS_TOOLS + SCOUT_TOOLS + WRITE_TOOLS,
    "analysis" := ANALYSIS_TOOLS,
    "scout" := SCOUT_TOOLS
  ]

  /** One squad of the document; an absent key is None. */
  datatype TenantEntry = TenantEntry(
    ldapGroups: Option<seq<string>>,
    toolProfile: Option<string>,
    projects: Option<seq<string>>,
    structuralOnly: Option<bool>,
    deniedTools: Option<seq<string>>)

  /** Mappings keep their insertion order. */
  datatype Document = Document(tenants: seq<(string, TenantEntry)>, roles: seq<(string, seq<string>)>)

  datatype Tenant = Tenant(
    name: string,
    ldapGroups: set<string>,
    toolProfile: string,
    projects: seq<string>,
    structuralOnly: bool,
    deniedTools: set<string>)

  datatype Squads = Squads(tenants: seq<Tenant>, roles: seq<RoleAssignment>)

  datatype ConfigError =
    | UnknownProfile(tenant: string)
    | NoGroups(tenant: string)
    | NoProjects(tenant: string)
    | GroupInTwo(group: string, first: string, second: string)
    | UnknownRole(role: string)
    | EmptyRole(role: string)

  // ── reading one entry ────────────────────────────────────────────

  function ProfileOf(cfg: TenantEntry): string { cfg.toolProfile.GetOr("analysis") }

  function GroupsOf(cfg: TenantEntry): seq<string> { cfg.ldapGroups.GetOr([]) }

  function ProjectsOf(cfg: TenantEntry): seq<string> { cfg.projects.GetOr([]) }

  function TenantOf(name: string, cfg: TenantEntry): Tenant {
    Tenant(name, Elements(GroupsOf(cfg)), ProfileOf(cfg), ProjectsOf(cfg),
           cfg.structuralOnly.GetOr(false), Elements(cfg.deniedTools.GetOr([])))
  }

  predicate EntryFine(cfg: TenantEntry) {
    ProfileOf(cfg) in PROFILES && GroupsOf(cfg) != [] && ProjectsOf(cfg) != []
  }

  /** The groups of an entry, one after the other, each to be claimed by one squad only. */
  function Claim(groups: seq<string>, name: string, seen: map<string, string>)
    : Result<map<string, string>, ConfigError>
  {
    if groups == [] then Ok(seen)
    else
      var last := groups[|groups| - 1];
      match Claim(groups[..|groups| - 1], name, seen)
      case Err(e) => Err(e)
      case Ok(mid) => if last in mid then Err(GroupInTwo(last, mid[last], name)) else Ok(mid[last := name])
  }

  function ClaimEntry(name: string, cfg: TenantEntry, seen: map<string, string>)
    : Result<map<string, string>, ConfigError>
  {
    if ProfileOf(cfg) !in PROFILES then Err(UnknownProfile(name))
    else if GroupsOf(cfg) == [] then Err(NoGroups(name))
    else if ProjectsOf(cfg) == [] then Err(NoProjects(name))
    else Claim(GroupsOf(cfg), name, seen)
  }

  /** Who owns which group after these entries. */
  function Owners(entries: seq<(string, TenantEntry)>): Result<map<string, string>, ConfigError> {
    if entries == [] then Ok(map[])
    else
      var (name, cfg) := entries[|entries| - 1];
      match Owners(entries[..|entries| - 1])
      case Err(e) => Err(e)
      case Ok(seen) => ClaimEntry(name, cfg, seen)
  }

  predicate RoleFine(role: (string, seq<string>)) { Named(role.0).Some? && role.1 != [] }

  function RolesOf(roles: seq<(string, seq<string>)>): Result<seq<RoleAssignment>, ConfigError> {
    if roles == [] then Ok([])
    else
      var (name, groups) := roles[|roles| - 1];
      match RolesOf(roles[..|roles| - 1])
      case Err(e) => Err(e)
      case Ok(done) =>
        match Named(name)
        case None => Err(UnknownRole(name))
        case Some(role) =>
          if groups == [] then Err(EmptyRole(name)) else Ok(done + [RoleAssignment(role, Elements(groups))])
  }

  function TenantsOf(entries: seq<(string, TenantEntry)>): seq<Tenant> {
    seq(|entries|, i requires 0 <= i < |entries| => TenantOf(entries[i].0, entries[i].1))
  }

  /** What the strict loader answers for a document. */
  function Loaded(doc: Document): Result<Squads, ConfigError> {
    match Owners(doc.tenants)
    case Err(e) => Err(e)
    case Ok(_) =>
      match RolesOf(doc.roles)
      case Err(e) => Err(e)
      case Ok(roles) => Ok(Squads(TenantsOf(doc.tenants), roles))
  }

  // ── the loader ───────────────────────────────────────────────────

  method ParseRoles(raw: seq<(string, seq<string>)>) returns (r: Result<seq<RoleAssignment>, ConfigError>)
    ensures r == RolesOf(raw)
  {
    var assignments: seq<RoleAssignment> := [];
    for i := 0 to |raw|
      invariant RolesOf(raw[..i]) == Ok(assignments)
      invariant forall e :: RolesOf(raw[..i]) == Err(e) ==> RolesOf(raw) == Err(e)
    {
      RolesError(raw, i + 1);
      assert raw[..i + 1][..i] == raw[..i];
      var (name, groups) := raw[i];
      var role := Named(name);
      if role.None? { return Err(UnknownRole(name)); }
      if groups == [] { return Err(EmptyRole(name)); }
      assignments := assignments + [RoleAssignment(role.value, Elements(groups))];
    }
    assert raw[..|raw|] == raw;
    return Ok(assignments);
  }

  /** The loader stops at the first role it refuses. */
  lemma {:induction false} RolesError(raw: seq<(string, seq<string>)>, i: nat)
    requires i <= |raw|
    ensures RolesOf(raw[..i]).Err? ==> RolesOf(raw) == RolesOf(raw[..i])
    decreases |raw|
  {
    if i < |raw| {
      RolesError(raw[..|raw| - 1], i);
      assert raw[..|raw| - 1][..i] == raw[..i];
    } else {
      assert raw[..i] == raw;
    }
  }

  /** The loader stops at the first squad it refuses. */
  lemma {:induction false} OwnersError(entries: seq<(string, TenantEntry)>, i: nat)
    requires i <= |entries|
    ensures Owners(entries[..i]).Err? ==> Owners(entries) == Owners(entries[..i])
    decreases |entries|
  {
    if i < |entries| {
      OwnersError(entries[..|entries| - 1], i);
      assert entries[..|entries| - 1][..i] == entries[..i];
    } else {
      assert entries[..i] == entries;
    }
  }

  lemma {:induction false} ClaimError(groups: seq<string>, name: string, seen: map<string, string>, i: nat)
    requires i <= |groups|
    ensures Claim(groups[..i], name, seen).Err? ==> Claim(groups, name, seen) == Claim(groups[..i], name, seen)
    decreases |groups|
  {
    if i < |groups| {
      ClaimError(groups[..|groups| - 1], name, seen, i);
      assert groups[..|groups| - 1][..i] == groups[..i];
    } else {
      assert groups[..i] == groups;
    }
  }

  method ClaimGroups(groups: seq<string>, name: string, before: map<string, string>)
    returns (r: Result<map<string, string>, ConfigError>)
    ensures r == Claim(groups, name, before)
  {
    var seen := before;
    for j := 0 to |groups|
      invariant Claim(groups[..j], name, before) == Ok(seen)
    {
      ClaimError(groups, name, before, j + 1);
      assert groups[..j + 1][..j] == groups[..j];
      var group := groups[j];
      if group in seen { return Err(GroupInTwo(group, seen[group], name)); }
      seen := seen[group := name];
    }
    assert groups[..|groups|] == groups;
    return Ok(seen);
  }

  lemma {:induction false} OneMoreEntry(entries: seq<(string, TenantEntry)>, i: nat)
    requires i < |entries| && Owners(entries[..i]).Ok?
    ensures Owners(entries[..i + 1]) == ClaimEntry(entries[i].0, entries[i].1, Owners(entries[..i]).value)
  {
    var front := entries[..i + 1];
    assert front[..|front| - 1] == entries[..i] && front[|front| - 1] == entries[i];
  }

  lemma {:induction false} OneMoreTenant(entries: seq<(string, TenantEntry)>, i: nat)
    requires i < |entries|
    ensures TenantsOf(entries[..i + 1]) == TenantsOf(entries[..i]) + [TenantOf(entries[i].0, entries[i].1)]
  {
  }

  method FromDict(doc: Document) returns (r: Result<Squads, ConfigError>)
    ensures r == Loaded(doc)
  {
    var entries := doc.tenants;
    var tenants: seq<Tenant> := [];
    var seen: map<string, string> := map[];
    for i := 0 to |entries|
      invariant tenants == TenantsOf(entries[..i])
      invariant Owners(entries[..i]) == Ok(seen)
    {
      OneMoreEntry(entries, i);
      OneMoreTenant(entries, i);
      OwnersError(entries, i + 1);
      var (name, cfg) := entries[i];
      var profile, groups, projects := ProfileOf(cfg), GroupsOf(cfg), ProjectsOf(cfg);
      if profile !in PROFILES { return Err(UnknownProfile(name)); }
      if groups == [] { return Err(NoGroups(name)); }
      if projects == [] { return Err(NoProjects(name)); }
      var claimed := ClaimGroups(groups, name, seen);
      if claimed.Err? { return Err(claimed.error); }
      seen := claimed.value;
      tenants := tenants + [Tenant(name, Elements(groups), profile, projects,
                                   cfg.structuralOnly.GetOr(false), Elements(cfg.deniedTools.GetOr([])))];
    }
    assert entries[..|entries|] == entries;
    var roles := ParseRoles(doc.roles);
    if roles.Err? { return Err(roles.error); }
    return Ok(Squads(tenants, roles.value));
  }

  // ── which documents load ─────────────────────────────────────────

  function AllGroups(entries: seq<(string, TenantEntry)>): seq<string> {
    if entries == [] then [] else AllGroups(entries[..|entries| - 1]) + GroupsOf(entries[|entries| - 1].1)
  }

  lemma {:induction false} ClaimsWhen(groups: seq<string>, name: string, seen: map<string, string>)
    ensures Claim(groups, name, seen).Ok? <==> NoDup(groups) && forall g :: g in groups ==> g !in seen
    ensures Claim(groups, name, seen).Ok? ==> Claim(groups, name, seen).value.Keys == seen.Keys + Elements(groups)
  {
    if groups != [] {
      var n := |groups| - 1;
      ClaimsWhen(groups[..n], name, seen);
      assert groups == groups[..n] + [groups[n]];
    }
  }

  lemma {:induction false} OwnersWhen(entries: seq<(string, TenantEntry)>)
    ensures Owners(entries).Ok? <==>
            (forall i :: 0 <= i < |entries| ==> EntryFine(entries[i].1)) && NoDup(AllGroups(entries))
    ensures Owners(entries).Ok? ==> Owners(entries).value.Keys == Elements(AllGroups(entries))
  {
    hide Claim;
    if entries != [] {
      var n := |entries| - 1;
      var front, cfg := entries[..n], entries[n].1;
      OwnersWhen(front);
      NoDupConcat(AllGroups(front), GroupsOf(cfg));
      assert forall i :: 0 <= i < n ==> entries[i] == front[i];
      if Owners(front).Ok? {
        ClaimsWhen(GroupsOf(cfg), entries[n].0, Owners(front).value);
      }
    }
  }

  lemma {:induction false} RolesWhen(roles: seq<(string, seq<string>)>)
    ensures RolesOf(roles).Ok? <==> forall i :: 0 <= i < |roles| ==> RoleFine(roles[i])
    ensures RolesOf(roles).Ok? ==>
              && |RolesOf(roles).value| == |roles|
              && forall i :: 0 <= i < |roles| ==>
                   RolesOf(roles).value[i] == RoleAssignment(Named(roles[i].0).value, Elements(roles[i].1))
  {
    if roles != [] {
      var n := |roles| - 1;
      RolesWhen(roles[..n]);
      assert forall i :: 0 <= i < n ==> roles[i] == roles[..n][i];
    }
  }

  /** A document loads exactly when every squad is complete, no group appears twice in all of it, and every
      role is known and has a group. */
  lemma {:induction false} LoadsExactlyWhen(doc: Document)
    ensures Loaded(doc).Ok? <==>
            && (forall i :: 0 <= i < |doc.tenants| ==> EntryFine(doc.tenants[i].1))
            && NoDup(AllGroups(doc.tenants))
            && (forall i :: 0 <= i < |doc.roles| ==> RoleFine(doc.roles[i]))
  {
    OwnersWhen(doc.tenants);
    RolesWhen(doc.roles);
  }

  // ── the isolation boundary ───────────────────────────────────────

  lemma {:induction false} GroupsOfEntry(entries: seq<(string, TenantEntry)>, i: nat, g: string)
    requires i < |entries| && g in GroupsOf(entries[i].1)
    ensures g in AllGroups(entries)
  {
    if i < |entries| - 1 {
      GroupsOfEntry(entries[..|entries| - 1], i, g);
    }
  }

  /** No directory group of a loaded registry reaches two squads. */
  lemma {:induction false} OneSquadPerGroup(entries: seq<(string, TenantEntry)>, i: nat, j: nat)
    requires Owners(entries).Ok? && i < j < |entries|
    ensures TenantsOf(entries)[i].ldapGroups !! TenantsOf(entries)[j].ldapGroups
    decreases |entries|
  {
    var n := |entries| - 1;
    var front := entries[..n];
    if j < n {
      OneSquadPerGroup(front, i, j);
    } else {
      OwnersWhen(entries);
      NoDupConcat(AllGroups(front), GroupsOf(entries[n].1));
      forall g | g in GroupsOf(entries[i].1) ensures g !in GroupsOf(entries[j].1) {
        assert entries[i] == front[i];
        GroupsOfEntry(front, i, g);
      }
    }
  }
}
