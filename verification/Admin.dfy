/** The configuration tables and the operations that write them. */
module Admin {
  import opened Lists
  import opened Wrappers

  const VALID_PROFILES := {"all", "analysis", "scout"}
  const VALID_MODES := {"full", "moderate", "fast", "cross-repo-intelligence"}
  const VALID_PROVIDERS := {"github", "gitlab", "bitbucket"}
  const VALID_ROLES := {"admin", "lead", "developer", "qa", "devops", "viewer"}

  /** A squad with its group and pattern rows, which have no life of their own. */
  datatype TenantRow = TenantRow(
    groups: seq<string>,
    projects: seq<string>,
    profile: string,
    structuralOnly: bool,
    deniedTools: seq<string>,
    keySecret: Option<string>,
    enabled: bool)

  datatype ConnectorRow = ConnectorRow(
    provider: string,
    tenant: string,
    settings: map<string, string>,
    tokenSecret: Option<string>,
    included: seq<string>,
    excluded: seq<string>,
    mode: string,
    persistence: bool,
    enabled: bool)

  /** Tables by their unique column. Generation 0 is a counter with no row yet. */
  datatype Database = Database(
    generation: nat,
    tenants: map<string, TenantRow>,
    roles: map<string, seq<string>>,
    connectors: map<string, ConnectorRow>,
    settings: map<string, string>,
    secrets: map<string, string>)

  const EMPTY := Database(0, map[], map[], map[], map[], map[])

  datatype TenantInput = TenantInput(
    name: string,
    ldapGroups: seq<string>,
    projects: seq<string>,
    toolProfile: string,
    structuralOnly: bool,
    deniedTools: Option<seq<string>>,
    keySecret: Option<string>,
    enabled: bool)

  datatype ConnectorInput = ConnectorInput(
    name: string,
    provider: string,
    tenant: string,
    settings: map<string, string>,
    tokenSecret: Option<string>,
    included: Option<seq<string>>,
    excluded: Option<seq<string>>,
    mode: string,
    persistence: bool,
    enabled: bool)

  datatype AdminError =
    | UnknownProfile | NoGroups | NoProjects | GroupTaken | NoSuchTenant | UnknownRole
    | UnknownProvider | UnknownMode | NoSuchConnector

  datatype Op =
    | UpsertTenant(tenant: TenantInput)
    | DeleteTenant(name: string)
    | SetRoleGroups(role: string, groups: seq<string>)
    | UpsertConnector(connector: ConnectorInput)
    | DeleteConnector(name: string)
    | SetSetting(key: string, value: string)
    | PutSecret(name: string, value: string)
    | DeleteSecret(name: string)

  // ── rows ─────────────────────────────────────────────────────────

  /** `dict.fromkeys`: each value once, in order of first appearance. */
  function Dedup(s: seq<string>): (r: seq<string>)
    ensures forall x :: x in r <==> x in s
    ensures NoDup(r)
    ensures NoDup(s) ==> r == s
    ensures s != [] <==> r != []
  {
    if s == [] then []
    else
      var n := |s| - 1;
      assert s == s[..n] + [s[n]];
      var rest := Dedup(s[..n]);
      if s[n] in rest then rest else rest + [s[n]]
  }

  function OrElse(s: Option<seq<string>>, default: seq<string>): seq<string> {
    if s.Some? && s.value != [] then s.value else default
  }

  function RowOf(data: TenantInput): TenantRow {
    TenantRow(Dedup(data.ldapGroups), Dedup(data.projects), data.toolProfile, data.structuralOnly,
              OrElse(data.deniedTools, []), data.keySecret, data.enabled)
  }

  function ConnectorOf(data: ConnectorInput): ConnectorRow {
    ConnectorRow(data.provider, data.tenant, data.settings, data.tokenSecret,
                 OrElse(data.included, ["*"]), OrElse(data.excluded, []), data.mode, data.persistence, data.enabled)
  }

  // ── operations ───────────────────────────────────────────────────

  /** Some wanted group already belongs to another squad. */
  predicate Clashes(db: Database, data: TenantInput) {
    exists name :: name in db.tenants && name != data.name && Shares(db.tenants[name].groups, data.ldapGroups)
  }

  predicate Shares(a: seq<string>, b: seq<string>) { exists g :: g in a && g in b }

  /** The foreign key's cascade. */
  function WithoutTenant(connectors: map<string, ConnectorRow>, name: string): map<string, ConnectorRow> {
    map c | c in connectors && connectors[c].tenant != name :: connectors[c]
  }

  function Bump(db: Database): Database { db.(generation := db.generation + 1) }

  function Perform(db: Database, op: Op): Result<Database, AdminError> {
    match op
    case UpsertTenant(data) =>
      if data.toolProfile !in VALID_PROFILES then Err(UnknownProfile)
      else if data.ldapGroups == [] then Err(NoGroups)
      else if data.projects == [] then Err(NoProjects)
      else if Clashes(db, data) then Err(GroupTaken)
      else Ok(Bump(db.(tenants := db.tenants[data.name := RowOf(data)])))
    case DeleteTenant(name) =>
      if name !in db.tenants then Err(NoSuchTenant)
      else Ok(Bump(db.(tenants := db.tenants - {name},
                       connectors := WithoutTenant(db.connectors, name))))
    case SetRoleGroups(role, groups) =>
      if role !in VALID_ROLES then Err(UnknownRole)
      else Ok(Bump(db.(roles := if groups == [] then db.roles - {role} else db.roles[role := Dedup(groups)])))
    case UpsertConnector(data) =>
      if data.provider !in VALID_PROVIDERS then Err(UnknownProvider)
      else if data.mode !in VALID_MODES then Err(UnknownMode)
      else if data.tenant !in db.tenants then Err(NoSuchTenant)
      else Ok(Bump(db.(connectors := db.connectors[data.name := ConnectorOf(data)])))
    case DeleteConnector(name) =>
      if name !in db.connectors then Err(NoSuchConnector)
      else Ok(Bump(db.(connectors := db.connectors - {name})))
    case SetSetting(key, value) => Ok(Bump(db.(settings := db.settings[key := value])))
    case PutSecret(name, value) => Ok(Bump(db.(secrets := db.secrets[name := value])))
    case DeleteSecret(name) => Ok(Bump(db.(secrets := db.secrets - {name})))
  }

  /** One transaction: all of its operations, or none of them. */
  function Transact(db: Database, ops: seq<Op>): Result<Database, AdminError> {
    if ops == [] then Ok(db)
    else
      match Transact(db, ops[..|ops| - 1])
      case Err(e) => Err(e)
      case Ok(mid) => Perform(mid, ops[|ops| - 1])
  }

  /** The database after a transaction: unchanged when it was refused. */
  function Commit(db: Database, ops: seq<Op>): Database {
    match Transact(db, ops)
    case Ok(after) => after
    case Err(_) => db
  }

  /** The database after a history of transactions. */
  function History(db: Database, transactions: seq<seq<Op>>): Database {
    if transactions == [] then db
    else Commit(History(db, transactions[..|transactions| - 1]), transactions[|transactions| - 1])
  }

  /** Every write bumps the counter: a transaction moves it by exactly the operations it committed, so
      tables change only when the counter does. */
  lemma {:induction false} EveryWriteBumps(db: Database, ops: seq<Op>)
    ensures Transact(db, ops).Ok? ==> Transact(db, ops).value.generation == db.generation + |ops|
    ensures Commit(db, ops).generation >= db.generation
    ensures Commit(db, ops).generation == db.generation ==> Commit(db, ops) == db
  {
    if ops != [] {
      var n := |ops| - 1;
      EveryWriteBumps(db, ops[..n]);
      if Transact(db, ops).Ok? {
        PerformBumps(Transact(db, ops[..n]).value, ops[n]);
      }
    }
  }

  lemma {:induction false} PerformBumps(db: Database, op: Op)
    ensures Perform(db, op).Ok? ==> Perform(db, op).value.generation == db.generation + 1
  {
  }

  // ── what every history keeps ─────────────────────────────────────

  predicate SoundTenant(row: TenantRow) {
    && row.profile in VALID_PROFILES
    && row.groups != [] && NoDup(row.groups)
    && row.projects != [] && NoDup(row.projects)
  }

  predicate Disjoint(db: Database, a: string, b: string)
    requires a in db.tenants && b in db.tenants
  {
    a != b ==> !Shares(db.tenants[a].groups, db.tenants[b].groups)
  }

  predicate SquadsComplete(db: Database) { forall n :: n in db.tenants ==> SoundTenant(db.tenants[n]) }

  predicate GroupsApart(db: Database) { forall a, b :: a in db.tenants && b in db.tenants ==> Disjoint(db, a, b) }

  predicate RolesKnown(db: Database) {
    forall r :: r in db.roles ==> r in VALID_ROLES && db.roles[r] != [] && NoDup(db.roles[r])
  }

  predicate ConnectorsOwned(db: Database) { forall c :: c in db.connectors ==> db.connectors[c].tenant in db.tenants }

  /** Every squad is complete, no directory group maps to two squads (so the unique constraints on the
      group and pattern tables hold), roles are known and not empty, connectors belong to a squad. */
  predicate Sound(db: Database) { SquadsComplete(db) && GroupsApart(db) && RolesKnown(db) && ConnectorsOwned(db) }

  lemma {:induction false} Apart(g: seq<string>, h: seq<string>, g0: seq<string>, h0: seq<string>)
    requires !Shares(g0, h0)
    requires (forall x :: x in g ==> x in g0) && (forall x :: x in h ==> x in h0)
    ensures !Shares(g, h) && !Shares(h, g)
  {
  }

  lemma {:induction false} UpsertKeepsDisjoint(db: Database, data: TenantInput, after: Database, a: string, b: string)
    requires Sound(db) && !Clashes(db, data)
    requires after.tenants == db.tenants[data.name := RowOf(data)] && a in after.tenants && b in after.tenants
    ensures Disjoint(after, a, b)
  {
    if a != b {
      if a == data.name {
        Apart(after.tenants[b].groups, after.tenants[a].groups, db.tenants[b].groups, data.ldapGroups);
      } else if b == data.name {
        Apart(after.tenants[a].groups, after.tenants[b].groups, db.tenants[a].groups, data.ldapGroups);
      } else {
        assert Disjoint(db, a, b);
      }
    }
  }

  lemma {:induction false} PerformKeepsApart(db: Database, op: Op)
    requires Sound(db) && Perform(db, op).Ok?
    ensures GroupsApart(Perform(db, op).value)
  {
    hide Dedup, OrElse, SquadsComplete, RolesKnown, ConnectorsOwned;
    var after := Perform(db, op).value;
    forall a, b | a in after.tenants && b in after.tenants ensures Disjoint(after, a, b) {
      match op
      case UpsertTenant(data) => UpsertKeepsDisjoint(db, data, after, a, b);
      case _ => assert Disjoint(db, a, b);
    }
  }

  lemma {:induction false} PerformKeepsComplete(db: Database, op: Op)
    requires SquadsComplete(db) && Perform(db, op).Ok?
    ensures SquadsComplete(Perform(db, op).value)
  {
    hide Dedup, Clashes;
  }

  lemma {:induction false} PerformKeepsRoles(db: Database, op: Op)
    requires RolesKnown(db) && Perform(db, op).Ok?
    ensures RolesKnown(Perform(db, op).value)
  {
    hide Dedup, Clashes, RowOf, ConnectorOf;
  }

  lemma {:induction false} PerformKeepsOwners(db: Database, op: Op)
    requires ConnectorsOwned(db) && Perform(db, op).Ok?
    ensures ConnectorsOwned(Perform(db, op).value)
  {
    hide Dedup, Clashes, RowOf;
  }

  lemma {:induction false} PerformKeepsSound(db: Database, op: Op)
    requires Sound(db) && Perform(db, op).Ok?
    ensures Sound(Perform(db, op).value)
  {
    hide Perform, SquadsComplete, GroupsApart, RolesKnown, ConnectorsOwned;
    PerformKeepsApart(db, op);
    PerformKeepsComplete(db, op);
    PerformKeepsRoles(db, op);
    PerformKeepsOwners(db, op);
  }

  lemma {:induction false} TransactKeepsSound(db: Database, ops: seq<Op>)
    requires Sound(db)
    ensures Transact(db, ops).Ok? ==> Sound(Transact(db, ops).value)
    ensures Sound(Commit(db, ops))
  {
    if ops != [] {
      var n := |ops| - 1;
      TransactKeepsSound(db, ops[..n]);
      if Transact(db, ops).Ok? {
        PerformKeepsSound(Transact(db, ops[..n]).value, ops[n]);
      }
    }
  }

  /** From an empty database, every history of transactions, refused ones included, leaves sound tables. */
  lemma {:induction false} EveryHistoryIsSound(transactions: seq<seq<Op>>)
    ensures Sound(History(EMPTY, transactions))
  {
    if transactions != [] {
      var n := |transactions| - 1;
      EveryHistoryIsSound(transactions[..n]);
      TransactKeepsSound(History(EMPTY, transactions[..n]), transactions[n]);
    }
  }

  /** A refused squad is refused for one of four reasons, and for the first that applies. */
  lemma {:induction false} UpsertTenantAnswers(db: Database, data: TenantInput)
    ensures var r := Perform(db, UpsertTenant(data));
            && (r.Ok? <==> data.toolProfile in VALID_PROFILES && data.ldapGroups != [] && data.projects != [] &&
                           forall n, g :: n in db.tenants && n != data.name && g in data.ldapGroups ==>
                                            g !in db.tenants[n].groups)
            && (r.Ok? ==> forall n :: n in r.value.tenants <==> n in db.tenants || n == data.name)
            && (r.Ok? ==> forall n :: n in db.tenants && n != data.name ==> r.value.tenants[n] == db.tenants[n])
            && (r.Ok? ==> forall g :: g in r.value.tenants[data.name].groups <==> g in data.ldapGroups)
  {
    if n, g :| n in db.tenants && n != data.name && g in data.ldapGroups && g in db.tenants[n].groups {
      assert Shares(db.tenants[n].groups, data.ldapGroups);
    }
  }

  // ── the object ───────────────────────────────────────────────────

  /** The tables as one session sees them. */
  class Session {
    var generation: nat
    var tenants: map<string, TenantRow>
    var roles: map<string, seq<string>>
    var connectors: map<string, ConnectorRow>
    var settings: map<string, string>
    var secrets: map<string, string>

    function View(): Database
      reads this
    {
      Database(generation, tenants, roles, connectors, settings, secrets)
    }

    constructor (db: Database)
      ensures View() == db
    {
      generation, tenants, roles := db.generation, db.tenants, db.roles;
      connectors, settings, secrets := db.connectors, db.settings, db.secrets;
    }

    method BumpGeneration()
      modifies this`generation
      ensures View() == Bump(old(View()))
    {
      generation := generation + 1;
    }

    method UpsertTenant(data: TenantInput) returns (r: Result<(), AdminError>)
      modifies this
      ensures var spec := Perform(old(View()), Op.UpsertTenant(data));
              if spec.Ok? then r == Ok(()) && View() == spec.value else r == Err(spec.error) && View() == old(View())
    {
      if data.toolProfile !in VALID_PROFILES { return Err(UnknownProfile); }
      if data.ldapGroups == [] { return Err(NoGroups); }
      if data.projects == [] { return Err(NoProjects); }
      var names := tenants.Keys;
      while names != {}
        invariant names <= tenants.Keys
        invariant forall n :: n in tenants && n !in names && n != data.name ==>
                    !Shares(tenants[n].groups, data.ldapGroups)
      {
        var n :| n in names;
        if n != data.name && exists g :: g in tenants[n].groups && g in data.ldapGroups {
          assert Shares(tenants[n].groups, data.ldapGroups);
          return Err(GroupTaken);
        }
        names := names - {n};
      }
      tenants := tenants[data.name := RowOf(data)];
      BumpGeneration();
      return Ok(());
    }

    method DeleteTenant(name: string) returns (r: Result<(), AdminError>)
      modifies this
      ensures var spec := Perform(old(View()), Op.DeleteTenant(name));
              if spec.Ok? then r == Ok(()) && View() == spec.value else r == Err(spec.error) && View() == old(View())
    {
      if name !in tenants { return Err(NoSuchTenant); }
      tenants := tenants - {name};
      connectors := WithoutTenant(connectors, name);
      BumpGeneration();
      return Ok(());
    }

    method SetRoleGroups(role: string, groups: seq<string>) returns (r: Result<(), AdminError>)
      modifies this
      ensures var spec := Perform(old(View()), Op.SetRoleGroups(role, groups));
              if spec.Ok? then r == Ok(()) && View() == spec.value else r == Err(spec.error) && View() == old(View())
    {
      hide Dedup;
      if role !in VALID_ROLES { return Err(UnknownRole); }
      ghost var before := roles;
      roles := roles - {role};
      if groups != [] {
        roles := roles[role := Dedup(groups)];
        assert roles == before[role := Dedup(groups)];
      }
      BumpGeneration();
      return Ok(());
    }

    method UpsertConnector(data: ConnectorInput) returns (r: Result<(), AdminError>)
      modifies this
      ensures var spec := Perform(old(View()), Op.UpsertConnector(data));
              if spec.Ok? then r == Ok(()) && View() == spec.value else r == Err(spec.error) && View() == old(View())
    {
      if data.provider !in VALID_PROVIDERS { return Err(UnknownProvider); }
      if data.mode !in VALID_MODES { return Err(UnknownMode); }
      if data.tenant !in tenants { return Err(NoSuchTenant); }
      connectors := connectors[data.name := ConnectorOf(data)];
      BumpGeneration();
      return Ok(());
    }

    method DeleteConnector(name: string) returns (r: Result<(), AdminError>)
      modifies this
      ensures var spec := Perform(old(View()), Op.DeleteConnector(name));
              if spec.Ok? then r == Ok(()) && View() == spec.value else r == Err(spec.error) && View() == old(View())
    {
      if name !in connectors { return Err(NoSuchConnector); }
      connectors := connectors - {name};
      BumpGeneration();
      return Ok(());
    }

    method SetSetting(key: string, value: string)
      modifies this
      ensures Ok(View()) == Perform(old(View()), Op.SetSetting(key, value))
    {
      settings := settings[key := value];
      BumpGeneration();
    }

    method PutSecret(name: string, value: string)
      modifies this
      ensures Ok(View()) == Perform(old(View()), Op.PutSecret(name, value))
    {
      secrets := secrets[name := value];
      BumpGeneration();
    }

    method DeleteSecret(name: string)
      modifies this
      ensures Ok(View()) == Perform(old(View()), Op.DeleteSecret(name))
    {
      secrets := secrets - {name};
      BumpGeneration();
    }
  }
}
