/** The role tables and how directory groups resolve to one role. */
module Roles {
  import opened Wrappers

  datatype Capability =
    | ReadGraph | ReadSource | QueryRaw | AnalyzeChanges | TriggerIndex
    | ManageAdr | IngestTraces | Administer | UseSmartTools

  datatype Role = Admin | Lead | Developer | Qa | Devops | Viewer

  const DEVELOPER := {ReadGraph, ReadSource, QueryRaw, AnalyzeChanges, UseSmartTools}

  const EVERYTHING := {ReadGraph, ReadSource, QueryRaw, AnalyzeChanges, TriggerIndex,
                       ManageAdr, IngestTraces, Administer, UseSmartTools}

  function Capabilities(role: Role): set<Capability> {
    match role
    case Admin => EVERYTHING
    case Lead => DEVELOPER + {TriggerIndex, ManageAdr}
    case Developer => DEVELOPER
    case Qa => DEVELOPER
    case Devops => {ReadGraph, QueryRaw, AnalyzeChanges, TriggerIndex, IngestTraces, UseSmartTools}
    case Viewer => {ReadGraph}
  }

  const TOOL_CAPABILITY := map[
    "search_graph" := ReadGraph,
    "trace_path" := ReadGraph,
    "get_graph_schema" := ReadGraph,
    "get_architecture" := ReadGraph,
    "list_projects" := ReadGraph,
    "index_status" := ReadGraph,
    "check_index_coverage" := ReadGraph,
    "get_code_snippet" := ReadSource,
    "search_code" := ReadSource,
    "query_graph" := QueryRaw,
    "detect_changes" := AnalyzeChanges,
    "index_repository" := TriggerIndex,
    "manage_adr" := ManageAdr,
    "ingest_traces" := IngestTraces,
    "delete_project" := Administer
  ]

  /** Most privileged first. */
  const PRECEDENCE := [Admin, Lead, Devops, Qa, Developer, Viewer]

  function Named(name: string): Option<Role> {
    if name == "admin" then Some(Admin)
    else if name == "lead" then Some(Lead)
    else if name == "developer" then Some(Developer)
    else if name == "qa" then Some(Qa)
    else if name == "devops" then Some(Devops)
    else if name == "viewer" then Some(Viewer)
    else None
  }

  datatype RoleAssignment = RoleAssignment(role: Role, ldapGroups: set<string>)

  predicate Matches(assignments: seq<RoleAssignment>, groups: set<string>, role: Role) {
    exists i | 0 <= i < |assignments| :: assignments[i].role == role && assignments[i].ldapGroups * groups != {}
  }

  function ResolveRole(assignments: seq<RoleAssignment>, groups: set<string>): Role {
    FirstMatch(assignments, groups, PRECEDENCE)
  }

  function FirstMatch(assignments: seq<RoleAssignment>, groups: set<string>, order: seq<Role>): Role {
    if order == [] then Viewer
    else if Matches(assignments, groups, order[0]) then order[0]
    else FirstMatch(assignments, groups, order[1..])
  }

  /** The place of a role in the precedence table. */
  function Rank(role: Role): (k: nat)
    ensures k < |PRECEDENCE| && PRECEDENCE[k] == role
  {
    match role
    case Admin => 0
    case Lead => 1
    case Devops => 2
    case Qa => 3
    case Developer => 4
    case Viewer => 5
  }

  lemma {:induction false} FirstMatchFrom(assignments: seq<RoleAssignment>, groups: set<string>, k: nat)
    requires k <= |PRECEDENCE|
    ensures var r := FirstMatch(assignments, groups, PRECEDENCE[k..]);
            && (r == Viewer || Matches(assignments, groups, r))
            && forall other :: Matches(assignments, groups, other) && k <= Rank(other) ==> Rank(r) <= Rank(other)
    decreases |PRECEDENCE| - k
  {
    if k < |PRECEDENCE| {
      assert PRECEDENCE[k..][1..] == PRECEDENCE[k + 1..];
      FirstMatchFrom(assignments, groups, k + 1);
      forall other | Matches(assignments, groups, other) && k <= Rank(other)
        ensures Rank(FirstMatch(assignments, groups, PRECEDENCE[k..])) <= Rank(other)
      {
        if Matches(assignments, groups, PRECEDENCE[k]) {
          assert Rank(PRECEDENCE[k]) == k;
        } else {
          assert PRECEDENCE[Rank(other)] == other;
        }
      }
    }
  }

  /** The most privileged matching role wins; nobody matching is a viewer. */
  lemma {:induction false} ResolvedRole(assignments: seq<RoleAssignment>, groups: set<string>)
    ensures var r := ResolveRole(assignments, groups);
            && (Matches(assignments, groups, r) ||
                (r == Viewer && forall other :: !Matches(assignments, groups, other)))
            && forall other :: Matches(assignments, groups, other) ==> Rank(r) <= Rank(other)
  {
    FirstMatchFrom(assignments, groups, 0);
    assert PRECEDENCE[0..] == PRECEDENCE;
    var r := ResolveRole(assignments, groups);
    forall other | Matches(assignments, groups, other) ensures Matches(assignments, groups, r) {
      if r == Viewer {
        assert Rank(other) == 5;
      }
    }
  }

  /** Belonging to more groups never lowers the role. */
  lemma {:induction false} MoreGroupsNeverLowerTheRole(
      assignments: seq<RoleAssignment>, groups: set<string>, more: set<string>)
    requires groups <= more
    ensures Rank(ResolveRole(assignments, more)) <= Rank(ResolveRole(assignments, groups))
  {
    ResolvedRole(assignments, groups);
    ResolvedRole(assignments, more);
    var r := ResolveRole(assignments, groups);
    if Matches(assignments, groups, r) {
      var i :| 0 <= i < |assignments| && assignments[i].role == r && assignments[i].ldapGroups * groups != {};
      var g :| g in assignments[i].ldapGroups * groups;
      assert g in assignments[i].ldapGroups * more;
      assert Matches(assignments, more, r);
    }
  }

  /** A higher role can do all that a lower one can, with exactly three exceptions: a lead may not ingest
      traces, which devops may, and devops may not read source, which the developer and QA roles may. */
  lemma {:induction false} HigherRoleCanDoMore(high: Role, low: Role)
    requires Rank(high) <= Rank(low)
    ensures Capabilities(low) <= Capabilities(high) <==>
            !(high == Lead && low == Devops) && !(high == Devops && (low == Qa || low == Developer))
  {
    if high == Lead && low == Devops {
      assert IngestTraces in Capabilities(low);
    } else if high == Devops && (low == Qa || low == Developer) {
      assert ReadSource in Capabilities(low);
    }
  }

  /** So joining a group can take a capability away: a developer who joins devops loses the source. */
  lemma {:induction false} JoiningCanTakeSourceAway()
    ensures var table := [RoleAssignment(Developer, {"dev"}), RoleAssignment(Devops, {"ops"})];
            && ReadSource in Capabilities(ResolveRole(table, {"dev"}))
            && ReadSource !in Capabilities(ResolveRole(table, {"dev", "ops"}))
  {
    var table := [RoleAssignment(Developer, {"dev"}), RoleAssignment(Devops, {"ops"})];
    ResolvedRole(table, {"dev"});
    ResolvedRole(table, {"dev", "ops"});
    assert "dev" in table[0].ldapGroups * {"dev"};
    assert Matches(table, {"dev"}, Developer);
    assert "ops" in table[1].ldapGroups * {"dev", "ops"};
    assert Matches(table, {"dev", "ops"}, Devops);
    assert !Matches(table, {"dev"}, Devops);
  }
}
