/** Seeding the tables from the documents configuration used to live in. */
module Bootstrap {
  import opened Wrappers
  import opened Admin
  import Registry

  /** One connector of the scan document; an absent key is None. */
  datatype ScanEntry = ScanEntry(
    name: string,
    provider: string,
    tenant: string,
    settings: map<string, string>,
    tokenEnv: Option<string>,
    tokenSecret: Option<string>,
    included: Option<seq<string>>,
    excluded: Option<seq<string>>,
    mode: Option<string>,
    persistence: Option<bool>)

  datatype Counts = Counts(tenants: nat, roles: nat, connectors: nat, secrets: nat)

  /** What the import takes from its surroundings: the process environment, whether to read tokens from it,
      and the library's lower-casing. */
  datatype Surroundings = Surroundings(env: map<string, string>, secretsFromEnv: bool, lower: string -> string)

  // ── the writes an import asks for ────────────────────────────────

  function RoleOp(role: (string, seq<string>)): Op { SetRoleGroups(role.0, role.1) }

  function TenantOp(squad: (string, Registry.TenantEntry)): Op {
    var (name, entry) := squad;
    UpsertTenant(TenantInput(name, entry.ldapGroups.GetOr([]), entry.projects.GetOr([]),
                             entry.toolProfile.GetOr("analysis"), entry.structuralOnly.GetOr(false),
                             Some(entry.deniedTools.GetOr([])), None, true))
  }

  function RoleOps(doc: Registry.Document): seq<Op> {
    seq(|doc.roles|, i requires 0 <= i < |doc.roles| => RoleOp(doc.roles[i]))
  }

  function TenantOps(doc: Registry.Document): seq<Op> {
    seq(|doc.tenants|, i requires 0 <= i < |doc.tenants| => TenantOp(doc.tenants[i]))
  }

  function TenancyOps(doc: Registry.Document): seq<Op> {
    RoleOps(doc) + TenantOps(doc)
  }

  predicate Truthy(s: Option<string>) { s.Some? && s.value != "" }

  predicate ReadsEnv(entry: ScanEntry, around: Surroundings) { Truthy(entry.tokenEnv) && around.secretsFromEnv }

  function SecretName(entry: ScanEntry): string {
    if Truthy(entry.tokenSecret) then entry.tokenSecret.value else "connector." + entry.name + ".token"
  }

  /** The token the environment holds for an entry, the empty string when it holds none. */
  function TokenValue(entry: ScanEntry, around: Surroundings): string
    requires entry.tokenEnv.Some?
  {
    if entry.tokenEnv.value in around.env then around.env[entry.tokenEnv.value] else ""
  }

  function ConnectorInputOf(entry: ScanEntry, around: Surroundings): ConnectorInput {
    ConnectorInput(entry.name, around.lower(entry.provider), entry.tenant, entry.settings,
                   if ReadsEnv(entry, around) then Some(SecretName(entry)) else entry.tokenSecret,
                   Some(entry.included.GetOr(["*"])), Some(entry.excluded.GetOr([])),
                   entry.mode.GetOr("moderate"), entry.persistence.GetOr(true), true)
  }

  function SecretOps(entry: ScanEntry, around: Surroundings): seq<Op> {
    if ReadsEnv(entry, around) && TokenValue(entry, around) != ""
    then [PutSecret(SecretName(entry), TokenValue(entry, around))] else []
  }

  function EntryOps(entry: ScanEntry, around: Surroundings): seq<Op> {
    SecretOps(entry, around) + [UpsertConnector(ConnectorInputOf(entry, around))]
  }

  function ConnectorOps(entries: seq<ScanEntry>, around: Surroundings): seq<Op> {
    if entries == [] then []
    else ConnectorOps(entries[..|entries| - 1], around) + EntryOps(entries[|entries| - 1], around)
  }

  function SecretCount(entries: seq<ScanEntry>, around: Surroundings): nat {
    if entries == [] then 0
    else SecretCount(entries[..|entries| - 1], around) + |SecretOps(entries[|entries| - 1], around)|
  }

  function Totals(doc: Registry.Document, entries: seq<ScanEntry>, around: Surroundings): Counts {
    Counts(|doc.tenants|, |doc.roles|, |entries|, SecretCount(entries, around))
  }

  /** Two transactions: squads and roles first, connectors second. A refused second one leaves the first. */
  function Import(db: Database, doc: Registry.Document, entries: seq<ScanEntry>, around: Surroundings)
    : (Database, Result<Counts, AdminError>)
  {
    match Transact(db, TenancyOps(doc))
    case Err(e) => (db, Err(e))
    case Ok(mid) =>
      match Transact(mid, ConnectorOps(entries, around))
      case Err(e) => (mid, Err(e))
      case Ok(after) => (after, Ok(Totals(doc, entries, around)))
  }

  // ── a write that finds its own result in place ───────────────────

  /** The tables already hold what this write would put there. */
  predicate Settled(db: Database, op: Op) {
    match op
    case SetRoleGroups(role, groups) =>
      && role in VALID_ROLES
      && (groups == [] ==> role !in db.roles)
      && (groups != [] ==> role in db.roles && db.roles[role] == Dedup(groups))
    case UpsertTenant(data) =>
      && data.toolProfile in VALID_PROFILES && data.ldapGroups != [] && data.projects != []
      && data.name in db.tenants && db.tenants[data.name] == RowOf(data)
    case _ => false
  }

  predicate SameKey(a: Op, b: Op) {
    || (a.SetRoleGroups? && b.SetRoleGroups? && a.role == b.role)
    || (a.UpsertTenant? && b.UpsertTenant? && a.tenant.name == b.tenant.name)
  }

  predicate Tenancy(op: Op) { op.SetRoleGroups? || op.UpsertTenant? }

  predicate OneWritePerKey(ops: seq<Op>) {
    && (forall i :: 0 <= i < |ops| ==> Tenancy(ops[i]))
    && forall i, j :: 0 <= i < j < |ops| ==> !SameKey(ops[i], ops[j])
  }

  lemma {:induction false} WriteSettles(db: Database, op: Op)
    requires Tenancy(op) && Perform(db, op).Ok?
    ensures Settled(Perform(db, op).value, op)
  {
  }

  lemma {:induction false} OtherWritesKeepSettled(db: Database, op: Op, other: Op)
    requires Settled(db, op) && Tenancy(other) && !SameKey(op, other) && Perform(db, other).Ok?
    ensures Settled(Perform(db, other).value, op)
  {
  }

  /** Above all, a settled squad cannot hit the group-clash check: its groups are already its own. */
  lemma {:induction false} SettledWriteOnlyBumps(db: Database, op: Op)
    requires Sound(db) && Settled(db, op)
    ensures Perform(db, op) == Ok(Bump(db))
  {
    match op
    case SetRoleGroups(role, groups) =>
      assert groups == [] ==> db.roles - {role} == db.roles;
      assert groups != [] ==> db.roles[role := Dedup(groups)] == db.roles;
    case UpsertTenant(data) =>
      forall n | n in db.tenants && n != data.name ensures !Shares(db.tenants[n].groups, data.ldapGroups) {
        assert Disjoint(db, n, data.name);
        Apart(db.tenants[n].groups, data.ldapGroups, db.tenants[n].groups, db.tenants[data.name].groups);
      }
      assert db.tenants[data.name := RowOf(data)] == db.tenants;
  }

  lemma {:induction false} RunSettles(db: Database, ops: seq<Op>)
    requires OneWritePerKey(ops) && Transact(db, ops).Ok?
    ensures forall i :: 0 <= i < |ops| ==> Settled(Transact(db, ops).value, ops[i])
  {
    if ops != [] {
      var n := |ops| - 1;
      var mid := Transact(db, ops[..n]).value;
      RunSettles(db, ops[..n]);
      WriteSettles(mid, ops[n]);
      forall i | 0 <= i < n ensures Settled(Transact(db, ops).value, ops[i]) {
        assert Settled(mid, ops[..n][i]);
        OtherWritesKeepSettled(mid, ops[i], ops[n]);
      }
    }
  }

  function BumpedBy(db: Database, n: nat): Database { db.(generation := db.generation + n) }

  lemma {:induction false} SettledIgnoresTheCounter(db: Database, op: Op, n: nat)
    requires Sound(db) && Settled(db, op)
    ensures Perform(BumpedBy(db, n), op) == Ok(BumpedBy(db, n + 1))
  {
    SoundIgnoresTheCounter(db, n);
    SettledWriteOnlyBumps(BumpedBy(db, n), op);
  }

  lemma {:induction false} SettledRunOnlyBumps(db: Database, ops: seq<Op>)
    requires Sound(db) && forall op :: op in ops ==> Settled(db, op)
    ensures Transact(db, ops) == Ok(BumpedBy(db, |ops|))
  {
    if ops != [] {
      var n := |ops| - 1;
      SettledRunOnlyBumps(db, ops[..n]);
      SettledIgnoresTheCounter(db, ops[n], n);
    }
  }

  lemma {:induction false} SoundIgnoresTheCounter(db: Database, n: nat)
    requires Sound(db)
    ensures Sound(BumpedBy(db, n))
  {
    var after := BumpedBy(db, n);
    forall a, b | a in after.tenants && b in after.tenants ensures Disjoint(after, a, b) {
      assert Disjoint(db, a, b);
    }
  }

  // ── connectors and secrets: the last write of a name wins ────────

  predicate ConnectorWrite(op: Op) { op.PutSecret? || op.UpsertConnector? }

  function WrittenConnectors(ops: seq<Op>): map<string, ConnectorRow> {
    if ops == [] then map[]
    else
      var before := WrittenConnectors(ops[..|ops| - 1]);
      match ops[|ops| - 1]
      case UpsertConnector(data) => before[data.name := ConnectorOf(data)]
      case _ => before
  }

  function WrittenSecrets(ops: seq<Op>): map<string, string> {
    if ops == [] then map[]
    else
      var before := WrittenSecrets(ops[..|ops| - 1]);
      match ops[|ops| - 1]
      case PutSecret(name, value) => before[name := value]
      case _ => before
  }

  /** Whether a connector write is accepted depends on the squads alone. */
  predicate Acceptable(squads: set<string>, op: Op) {
    op.UpsertConnector? ==>
      op.connector.provider in VALID_PROVIDERS && op.connector.mode in VALID_MODES && op.connector.tenant in squads
  }

  function WithWritten(db: Database, ops: seq<Op>): Database {
    db.(generation := db.generation + |ops|,
        connectors := db.connectors + WrittenConnectors(ops),
        secrets := db.secrets + WrittenSecrets(ops))
  }

  lemma {:induction false} ConnectorStep(db: Database, ops: seq<Op>, op: Op)
    requires ConnectorWrite(op)
    ensures Perform(WithWritten(db, ops), op).Ok? <==> Acceptable(db.tenants.Keys, op)
    ensures Acceptable(db.tenants.Keys, op) ==> Perform(WithWritten(db, ops), op) == Ok(WithWritten(db, ops + [op]))
  {
    assert (ops + [op])[..|ops|] == ops;
    match op
    case UpsertConnector(data) =>
      assert db.connectors + WrittenConnectors(ops + [op]) ==
             (db.connectors + WrittenConnectors(ops))[data.name := ConnectorOf(data)];
    case PutSecret(name, value) =>
      assert db.secrets + WrittenSecrets(ops + [op]) == (db.secrets + WrittenSecrets(ops))[name := value];
  }

  lemma {:induction false} NothingWritten(db: Database)
    ensures WithWritten(db, []) == db
  {
    assert db.connectors + map[] == db.connectors && db.secrets + map[] == db.secrets;
  }

  lemma {:induction false} ConnectorRun(db: Database, ops: seq<Op>)
    requires forall op :: op in ops ==> ConnectorWrite(op)
    ensures Transact(db, ops).Ok? <==> forall op :: op in ops ==> Acceptable(db.tenants.Keys, op)
    ensures Transact(db, ops).Ok? ==> Transact(db, ops).value == WithWritten(db, ops)
  {
    hide Perform, WithWritten, Acceptable, ConnectorWrite;
    if ops == [] {
      NothingWritten(db);
    } else {
      var front, last := ops[..|ops| - 1], ops[|ops| - 1];
      assert ops == front + [last];
      ConnectorRun(db, front);
      ConnectorStep(db, front, last);
    }
  }

  lemma {:induction false} ConnectorOpsAreConnectorWrites(entries: seq<ScanEntry>, around: Surroundings)
    ensures forall op :: op in ConnectorOps(entries, around) ==> ConnectorWrite(op)
  {
    if entries != [] {
      ConnectorOpsAreConnectorWrites(entries[..|entries| - 1], around);
    }
  }

  // ── importing twice ──────────────────────────────────────────────

  /** The two mappings of a document have each key once. */
  predicate Keyed(doc: Registry.Document) {
    && (forall i, j :: 0 <= i < j < |doc.roles| ==> doc.roles[i].0 != doc.roles[j].0)
    && (forall i, j :: 0 <= i < j < |doc.tenants| ==> doc.tenants[i].0 != doc.tenants[j].0)
  }

  lemma {:induction false} KeyedWritesOncePerKey(doc: Registry.Document)
    requires Keyed(doc)
    ensures OneWritePerKey(TenancyOps(doc))
  {
    var ops, n := TenancyOps(doc), |doc.roles|;
    assert forall i :: 0 <= i < n ==> ops[i] == RoleOp(doc.roles[i]);
    assert forall i :: n <= i < |ops| ==> ops[i] == TenantOp(doc.tenants[i - n]);
  }

  lemma {:induction false} ImportKeepsSound(
      db: Database, doc: Registry.Document, entries: seq<ScanEntry>, around: Surroundings)
    requires Sound(db)
    ensures Sound(Import(db, doc, entries, around).0)
  {
    TransactKeepsSound(db, TenancyOps(doc));
    if Transact(db, TenancyOps(doc)).Ok? {
      TransactKeepsSound(Transact(db, TenancyOps(doc)).value, ConnectorOps(entries, around));
    }
  }

  /** After a connector run everything it wrote is in place, so running it again only bumps. */
  lemma {:induction false} RerunOnlyBumps(db: Database, ops: seq<Op>, n: nat)
    requires (forall op :: op in ops ==> ConnectorWrite(op)) && Transact(db, ops).Ok?
    ensures Transact(BumpedBy(Transact(db, ops).value, n), ops) == Ok(BumpedBy(Transact(db, ops).value, n + |ops|))
  {
    var once := Transact(db, ops).value;
    ConnectorRun(db, ops);
    ConnectorRun(BumpedBy(once, n), ops);
    assert once.connectors + WrittenConnectors(ops) == once.connectors;
    assert once.secrets + WrittenSecrets(ops) == once.secrets;
  }

  /** Connector writes leave squads and roles as they are. */
  lemma {:induction false} ConnectorRunKeepsSettled(db: Database, ops: seq<Op>, op: Op)
    requires (forall op :: op in ops ==> ConnectorWrite(op)) && Transact(db, ops).Ok? && Settled(db, op)
    ensures Settled(Transact(db, ops).value, op)
  {
    ConnectorRun(db, ops);
  }

  lemma {:induction false} TwoTransactions(
      db: Database, doc: Registry.Document, entries: seq<ScanEntry>, around: Surroundings)
    returns (mid: Database, once: Database)
    requires Import(db, doc, entries, around).1.Ok?
    ensures Transact(db, TenancyOps(doc)) == Ok(mid) && Transact(mid, ConnectorOps(entries, around)) == Ok(once)
    ensures Import(db, doc, entries, around) == (once, Ok(Totals(doc, entries, around)))
  {
    mid := Transact(db, TenancyOps(doc)).value;
    once := Transact(mid, ConnectorOps(entries, around)).value;
  }

  lemma {:induction false} SquadsSettle(
      db: Database, doc: Registry.Document, entries: seq<ScanEntry>, around: Surroundings,
                     mid: Database, once: Database)
    requires Sound(db) && Keyed(doc)
    requires Transact(db, TenancyOps(doc)) == Ok(mid) && Transact(mid, ConnectorOps(entries, around)) == Ok(once)
    ensures Transact(once, TenancyOps(doc)) == Ok(BumpedBy(once, |TenancyOps(doc)|))
  {
    var ops, more := TenancyOps(doc), ConnectorOps(entries, around);
    ConnectorOpsAreConnectorWrites(entries, around);
    KeyedWritesOncePerKey(doc);
    RunSettles(db, ops);
    forall op | op in ops ensures Settled(once, op) {
      ConnectorRunKeepsSettled(mid, more, op);
    }
    TransactKeepsSound(db, ops);
    TransactKeepsSound(mid, more);
    SettledRunOnlyBumps(once, ops);
  }

  lemma {:induction false} ImportedBy(
      db: Database, doc: Registry.Document, entries: seq<ScanEntry>, around: Surroundings,
                   mid: Database, after: Database)
    requires Transact(db, TenancyOps(doc)) == Ok(mid) && Transact(mid, ConnectorOps(entries, around)) == Ok(after)
    ensures Import(db, doc, entries, around) == (after, Ok(Totals(doc, entries, around)))
  {
  }

  /** An import that succeeded can be repeated: it succeeds again with the same counts, and changes nothing
      but the counter. */
  lemma {:induction false} ImportIsIdempotent(
      db: Database, doc: Registry.Document, entries: seq<ScanEntry>, around: Surroundings)
    requires Sound(db) && Keyed(doc) && Import(db, doc, entries, around).1.Ok?
    ensures var (once, counts) := Import(db, doc, entries, around);
            Import(once, doc, entries, around) ==
            (BumpedBy(once, |TenancyOps(doc)| + |ConnectorOps(entries, around)|), counts)
  {
    hide Perform, Transact;
    var mid, once := TwoTransactions(db, doc, entries, around);
    SquadsSettle(db, doc, entries, around, mid, once);
    ConnectorOpsAreConnectorWrites(entries, around);
    var n, m := |TenancyOps(doc)|, |ConnectorOps(entries, around)|;
    RerunOnlyBumps(mid, ConnectorOps(entries, around), n);
    ImportedBy(once, doc, entries, around, BumpedBy(once, n), BumpedBy(once, n + m));
  }

  // ── where the tokens go ──────────────────────────────────────────

  /** The environment holds a token for this entry, and the import may take it. */
  predicate BringsToken(entry: ScanEntry, around: Surroundings) {
    ReadsEnv(entry, around) && TokenValue(entry, around) != ""
  }

  lemma {:induction false} WrittenByEntry(before: seq<Op>, entry: ScanEntry, around: Surroundings)
    ensures WrittenConnectors(before + EntryOps(entry, around)) ==
            WrittenConnectors(before)[entry.name := ConnectorOf(ConnectorInputOf(entry, around))]
    ensures WrittenSecrets(before + EntryOps(entry, around)) ==
            if BringsToken(entry, around) then WrittenSecrets(before)[SecretName(entry) := TokenValue(entry, around)]
            else WrittenSecrets(before)
  {
    hide ConnectorOf, ConnectorInputOf, SecretName, ReadsEnv;
    var op := UpsertConnector(ConnectorInputOf(entry, around));
    var mid := before + SecretOps(entry, around);
    assert ConnectorInputOf(entry, around).name == entry.name by { EntryKeepsName(entry, around); }
    assert before + EntryOps(entry, around) == mid + [op];
    assert (mid + [op])[..|mid|] == mid;
    if BringsToken(entry, around) {
      assert mid[..|before|] == before;
    } else {
      assert mid == before;
    }
  }

  lemma {:induction false} EntryKeepsName(entry: ScanEntry, around: Surroundings)
    ensures ConnectorInputOf(entry, around).name == entry.name
  {
  }

  lemma {:induction false} LastEntryWins(entries: seq<ScanEntry>, around: Surroundings, i: nat)
    requires i < |entries| && forall j :: i < j < |entries| ==> entries[j].name != entries[i].name
    ensures entries[i].name in WrittenConnectors(ConnectorOps(entries, around))
    ensures WrittenConnectors(ConnectorOps(entries, around))[entries[i].name] ==
            ConnectorOf(ConnectorInputOf(entries[i], around))
    decreases |entries|
  {
    hide EntryOps, ConnectorOf, ConnectorInputOf, WrittenConnectors, WrittenSecrets;
    var n := |entries| - 1;
    WrittenByEntry(ConnectorOps(entries[..n], around), entries[n], around);
    if i < n {
      LastEntryWins(entries[..n], around, i);
    }
  }

  lemma {:induction false} LastTokenWins(entries: seq<ScanEntry>, around: Surroundings, i: nat)
    requires i < |entries| && BringsToken(entries[i], around)
    ensures SecretName(entries[i]) in WrittenSecrets(ConnectorOps(entries, around))
    ensures (forall j :: i < j < |entries| && BringsToken(entries[j], around) ==>
                           SecretName(entries[j]) != SecretName(entries[i])) ==>
              WrittenSecrets(ConnectorOps(entries, around))[SecretName(entries[i])] == TokenValue(entries[i], around)
    decreases |entries|
  {
    hide EntryOps, ConnectorOf, ConnectorInputOf, WrittenConnectors, WrittenSecrets, SecretName, ReadsEnv;
    var n := |entries| - 1;
    WrittenByEntry(ConnectorOps(entries[..n], around), entries[n], around);
    if i < n {
      LastTokenWins(entries[..n], around, i);
    }
  }

  /** A connector whose token the environment held points at the secret that now holds it, for the last entry
      of each name, unless a later entry put its own token under the same secret. */
  lemma {:induction false} TokensAreWhereConnectorsPoint(
    db: Database, doc: Registry.Document, entries: seq<ScanEntry>, around: Surroundings, i: nat)
    requires Import(db, doc, entries, around).1.Ok? && i < |entries| && BringsToken(entries[i], around)
    requires forall j :: i < j < |entries| ==> entries[j].name != entries[i].name
    requires forall j :: i < j < |entries| && BringsToken(entries[j], around) ==>
               SecretName(entries[j]) != SecretName(entries[i])
    ensures var after, name := Import(db, doc, entries, around).0, entries[i].name;
            && name in after.connectors && after.connectors[name].tokenSecret.Some?
            && after.connectors[name].tokenSecret.value in after.secrets
            && after.secrets[after.connectors[name].tokenSecret.value] == around.env[entries[i].tokenEnv.value]
  {
    hide Transact, Perform, Import, WrittenConnectors, WrittenSecrets;
    var mid, once := TwoTransactions(db, doc, entries, around);
    ConnectorOpsAreConnectorWrites(entries, around);
    ConnectorRun(mid, ConnectorOps(entries, around));
    LastEntryWins(entries, around, i);
    LastTokenWins(entries, around, i);
  }

  // ── the importer ─────────────────────────────────────────────────

  method ImportRoles(session: Session, doc: Registry.Document) returns (r: Result<nat, AdminError>)
    modifies session
    ensures match Transact(old(session.View()), RoleOps(doc))
            case Ok(after) => session.View() == after && r == Ok(|doc.roles|)
            case Err(e) => r == Err(e)
  {
    ghost var db, ops := session.View(), RoleOps(doc);
    for i := 0 to |doc.roles|
      invariant Transact(db, ops[..i]) == Ok(session.View())
    {
      NextWrite(db, ops, i);
      var step := session.SetRoleGroups(doc.roles[i].0, doc.roles[i].1);
      if step.Err? { return Err(step.error); }
    }
    assert ops[..|ops|] == ops;
    return Ok(|doc.roles|);
  }

  method ImportTenants(session: Session, doc: Registry.Document) returns (r: Result<nat, AdminError>)
    modifies session
    ensures match Transact(old(session.View()), TenantOps(doc))
            case Ok(after) => session.View() == after && r == Ok(|doc.tenants|)
            case Err(e) => r == Err(e)
  {
    ghost var db, ops := session.View(), TenantOps(doc);
    for i := 0 to |doc.tenants|
      invariant Transact(db, ops[..i]) == Ok(session.View())
    {
      NextWrite(db, ops, i);
      var op := TenantOp(doc.tenants[i]);
      var step := session.UpsertTenant(op.tenant);
      if step.Err? { return Err(step.error); }
    }
    assert ops[..|ops|] == ops;
    return Ok(|doc.tenants|);
  }

  /** The second transaction: the connectors, and the tokens found in the environment. */
  method ImportConnectors(session: Session, entries: seq<ScanEntry>, around: Surroundings)
    returns (r: Result<(nat, nat), AdminError>)
    modifies session
    ensures match Transact(old(session.View()), ConnectorOps(entries, around))
            case Ok(after) => session.View() == after && r == Ok((|entries|, SecretCount(entries, around)))
            case Err(e) => r == Err(e)
  {
    hide Perform, Transact;
    ghost var db := session.View();
    NoWrites(db);
    var secrets := 0;
    for i := 0 to |entries|
      invariant Transact(db, ConnectorOps(entries[..i], around)) == Ok(session.View())
      invariant secrets == SecretCount(entries[..i], around)
    {
      NextEntry(db, entries, around, i);
      var found := ImportEntry(session, entries[i], around);
      if found.Err? { return Err(found.error); }
      secrets := secrets + found.value;
    }
    assert entries[..|entries|] == entries;
    return Ok((|entries|, secrets));
  }

  method ImportEntry(session: Session, entry: ScanEntry, around: Surroundings) returns (r: Result<nat, AdminError>)
    modifies session
    ensures match Transact(old(session.View()), EntryOps(entry, around))
            case Ok(after) => session.View() == after && r == Ok(|SecretOps(entry, around)|)
            case Err(e) => r == Err(e)
  {
    ghost var db := session.View();
    RunInTwo(db, SecretOps(entry, around), [UpsertConnector(ConnectorInputOf(entry, around))]);
    var secrets := 0;
    if ReadsEnv(entry, around) {
      var value := TokenValue(entry, around);
      if value != "" {
        OneWrite(db, PutSecret(SecretName(entry), value));
        session.PutSecret(SecretName(entry), value);
        secrets := 1;
      }
    }
    OneWrite(session.View(), UpsertConnector(ConnectorInputOf(entry, around)));
    var step := session.UpsertConnector(ConnectorInputOf(entry, around));
    if step.Err? { return Err(step.error); }
    return Ok(secrets);
  }

  lemma {:induction false} NoWrites(db: Database)
    ensures Transact(db, []) == Ok(db)
  {
  }

  lemma {:induction false} OneWrite(db: Database, op: Op)
    ensures Transact(db, [op]) == Perform(db, op)
  {
    assert [op][..0] == [];
  }

  /** A session that fails is rolled back: what it had written is dropped. */
  method ImportDocuments(db: Database, doc: Registry.Document, entries: seq<ScanEntry>, around: Surroundings)
    returns (after: Database, r: Result<Counts, AdminError>)
    ensures (after, r) == Import(db, doc, entries, around)
  {
    var first := new Session(db);
    RunInTwo(db, RoleOps(doc), TenantOps(doc));
    var roles := ImportRoles(first, doc);
    if roles.Err? { return db, Err(roles.error); }
    var tenants := ImportTenants(first, doc);
    if tenants.Err? { return db, Err(tenants.error); }
    var mid := first.View();
    var second := new Session(mid);
    var connectors := ImportConnectors(second, entries, around);
    if connectors.Err? { return mid, Err(connectors.error); }
    return second.View(), Ok(Counts(tenants.value, roles.value, connectors.value.0, connectors.value.1));
  }

  /** A refused write refuses the whole transaction. */
  lemma {:induction false} RefusedEarly(db: Database, ops: seq<Op>, i: nat)
    requires i <= |ops|
    ensures Transact(db, ops[..i]).Err? ==> Transact(db, ops) == Transact(db, ops[..i])
    decreases |ops|
  {
    hide Perform;
    if i < |ops| {
      RefusedEarly(db, ops[..|ops| - 1], i);
      assert ops[..|ops| - 1][..i] == ops[..i];
    } else {
      assert ops[..i] == ops;
    }
  }

  lemma {:induction false} NextWrite(db: Database, ops: seq<Op>, i: nat)
    requires i < |ops| && Transact(db, ops[..i]).Ok?
    ensures Transact(db, ops[..i + 1]) == Perform(Transact(db, ops[..i]).value, ops[i])
    ensures Transact(db, ops[..i + 1]).Err? ==> Transact(db, ops) == Transact(db, ops[..i + 1])
  {
    hide Perform;
    assert ops[..i + 1][..i] == ops[..i];
    RefusedEarly(db, ops, i + 1);
  }

  lemma {:induction false} RunInTwo(db: Database, a: seq<Op>, b: seq<Op>)
    ensures Transact(db, a + b) == if Transact(db, a).Ok? then Transact(Transact(db, a).value, b) else Transact(db, a)
  {
    hide Perform;
    if b == [] {
      assert a + b == a;
    } else {
      var n := |b| - 1;
      RunInTwo(db, a, b[..n]);
      assert (a + b)[..|a + b| - 1] == a + b[..n];
    }
  }

  lemma {:induction false} ConnectorOpsOf(entries: seq<ScanEntry>, around: Surroundings, i: nat)
    requires i < |entries|
    ensures ConnectorOps(entries[..i + 1], around) == ConnectorOps(entries[..i], around) + EntryOps(entries[i], around)
    ensures SecretCount(entries[..i + 1], around) == SecretCount(entries[..i], around) + |SecretOps(entries[i], around)|
    ensures ConnectorOps(entries[..i + 1], around) <= ConnectorOps(entries, around)
    decreases |entries|
  {
    assert entries[..i + 1][..i] == entries[..i];
    if i + 1 < |entries| {
      var front := entries[..|entries| - 1];
      ConnectorOpsOf(front, around, i);
      assert front[..i + 1] == entries[..i + 1];
    } else {
      assert entries[..i + 1] == entries;
    }
  }

  lemma {:induction false} NextEntry(db: Database, entries: seq<ScanEntry>, around: Surroundings, i: nat)
    requires i < |entries| && Transact(db, ConnectorOps(entries[..i], around)).Ok?
    ensures var mid := Transact(db, ConnectorOps(entries[..i], around)).value;
            var next := Transact(mid, EntryOps(entries[i], around));
            && Transact(db, ConnectorOps(entries[..i + 1], around)) == next
            && (next.Err? ==> Transact(db, ConnectorOps(entries, around)) == next)
    ensures SecretCount(entries[..i + 1], around) == SecretCount(entries[..i], around) + |SecretOps(entries[i], around)|
  {
    hide Perform, EntryOps;
    var ops, part := ConnectorOps(entries, around), ConnectorOps(entries[..i + 1], around);
    ConnectorOpsOf(entries, around, i);
    RunInTwo(db, ConnectorOps(entries[..i], around), EntryOps(entries[i], around));
    RefusedEarly(db, ops, |part|);
    assert ops[..|part|] == part;
  }
}
