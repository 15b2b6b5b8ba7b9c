/** Moving the configuration out of its file: the squads imported into an empty database and loaded from
    there are the squads the file described. */
module Migration {
  import opened Lists
  import opened Wrappers
  import opened Roles
  import opened Registry
  import opened Bootstrap
  import A = Admin
  import Documents

  /** The loader and the writer know the same profiles and the same roles. */
  lemma {:induction false} SameVocabulary(word: string)
    ensures word in PROFILES <==> word in A.VALID_PROFILES
    ensures Named(word).Some? <==> word in A.VALID_ROLES
  {
  }

  function TenantOpsOf(entries: seq<(string, TenantEntry)>): seq<A.Op> {
    seq(|entries|, i requires 0 <= i < |entries| => TenantOp(entries[i]))
  }

  function RoleOpsOf(roles: seq<(string, seq<string>)>): seq<A.Op> {
    seq(|roles|, i requires 0 <= i < |roles| => RoleOp(roles[i]))
  }

  predicate HasSquad(db: A.Database, entry: (string, TenantEntry)) {
    entry.0 in db.tenants && db.tenants[entry.0] == A.RowOf(TenantOp(entry).tenant)
  }

  lemma {:induction false} RoleGoesIn(db: A.Database, role: (string, seq<string>))
    requires RoleFine(role)
    ensures A.Perform(db, RoleOp(role)).Ok?
    ensures var after := A.Perform(db, RoleOp(role)).value;
            after.tenants == db.tenants && after.roles.Keys == db.roles.Keys + {role.0}
  {
    SameVocabulary(role.0);
  }

  /** Roles never stand in each other's way. */
  lemma {:induction false} RolesGoIn(db: A.Database, roles: seq<(string, seq<string>)>, n: nat)
    requires n <= |roles| && forall i :: 0 <= i < |roles| ==> RoleFine(roles[i])
    ensures A.Transact(db, RoleOpsOf(roles[..n])).Ok?
    ensures var after := A.Transact(db, RoleOpsOf(roles[..n])).value;
            && after.tenants == db.tenants
            && after.roles.Keys == db.roles.Keys + set i | 0 <= i < n :: roles[i].0
  {
    hide A.Perform, RoleFine;
    if n > 0 {
      RolesGoIn(db, roles, n - 1);
      assert RoleOpsOf(roles[..n])[..n - 1] == RoleOpsOf(roles[..n - 1]);
      assert RoleOpsOf(roles[..n])[n - 1] == RoleOp(roles[n - 1]);
      RoleGoesIn(A.Transact(db, RoleOpsOf(roles[..n - 1])).value, roles[n - 1]);
    }
  }

  lemma {:induction false} NoClash(db: A.Database, entries: seq<(string, TenantEntry)>, n: nat)
    requires n < |entries| && NoDup(AllGroups(entries[..n + 1]))
    requires db.tenants.Keys == set i | 0 <= i < n :: entries[i].0
    requires forall i :: 0 <= i < n ==> HasSquad(db, entries[i])
    ensures !A.Clashes(db, TenantOp(entries[n]).tenant)
  {
    var front, last := entries[..n], entries[n];
    assert entries[..n + 1][..n] == front;
    NoDupConcat(AllGroups(front), GroupsOf(last.1));
    forall name | name in db.tenants ensures !A.Shares(db.tenants[name].groups, GroupsOf(last.1)) {
      var i :| 0 <= i < n && entries[i].0 == name;
      assert HasSquad(db, entries[i]);
      forall g | g in db.tenants[name].groups ensures g !in GroupsOf(last.1) {
        assert front[i] == entries[i];
        GroupsOfEntry(front, i, g);
      }
    }
  }

  lemma {:induction false} SquadGoesIn(db: A.Database, entry: (string, TenantEntry))
    requires EntryFine(entry.1) && !A.Clashes(db, TenantOp(entry).tenant)
    ensures A.Perform(db, TenantOp(entry)).Ok?
    ensures var after := A.Perform(db, TenantOp(entry)).value;
            after.roles == db.roles && after.tenants == db.tenants[entry.0 := A.RowOf(TenantOp(entry).tenant)]
  {
    SameVocabulary(ProfileOf(entry.1));
  }

  lemma {:induction false} OneMoreSquad(db: A.Database, entries: seq<(string, TenantEntry)>, n: nat)
    requires n < |entries| && EntryFine(entries[n].1) && NoDup(AllGroups(entries[..n + 1]))
    requires forall i :: 0 <= i < n ==> entries[i].0 != entries[n].0
    requires db.tenants.Keys == set i | 0 <= i < n :: entries[i].0
    requires forall i :: 0 <= i < n ==> HasSquad(db, entries[i])
    ensures A.Perform(db, TenantOp(entries[n])).Ok?
    ensures var after := A.Perform(db, TenantOp(entries[n])).value;
            && after.roles == db.roles
            && after.tenants.Keys == (set i | 0 <= i <= n :: entries[i].0)
            && forall i :: 0 <= i <= n ==> HasSquad(after, entries[i])
  {
    hide A.Perform, A.RowOf, A.Clashes, TenantOp, EntryFine, AllGroups;
    NoClash(db, entries, n);
    SquadGoesIn(db, entries[n]);
    var after := A.Perform(db, TenantOp(entries[n])).value;
    forall i | 0 <= i <= n ensures HasSquad(after, entries[i]) {
      assert i < n ==> HasSquad(db, entries[i]);
    }
  }

  /** Squads with no group in common go in one after the other, whatever their order. */
  lemma {:induction false} SquadsGoIn(db: A.Database, entries: seq<(string, TenantEntry)>, n: nat)
    requires db.tenants == map[] && n <= |entries|
    requires (forall i :: 0 <= i < |entries| ==> EntryFine(entries[i].1)) && NoDup(AllGroups(entries))
    requires forall i, j :: 0 <= i < j < |entries| ==> entries[i].0 != entries[j].0
    ensures A.Transact(db, TenantOpsOf(entries[..n])).Ok?
    ensures var after := A.Transact(db, TenantOpsOf(entries[..n])).value;
            && after.roles == db.roles
            && after.tenants.Keys == (set i | 0 <= i < n :: entries[i].0)
            && forall i :: 0 <= i < n ==> HasSquad(after, entries[i])
  {
    hide A.Perform, HasSquad, AllGroups;
    if n > 0 {
      SquadsGoIn(db, entries, n - 1);
      PrefixGroups(entries, n);
      assert TenantOpsOf(entries[..n])[..n - 1] == TenantOpsOf(entries[..n - 1]);
      assert TenantOpsOf(entries[..n])[n - 1] == TenantOp(entries[n - 1]);
      assert entries[..n - 1 + 1] == entries[..n];
      OneMoreSquad(A.Transact(db, TenantOpsOf(entries[..n - 1])).value, entries, n - 1);
    }
  }

  lemma {:induction false} PrefixGroups(entries: seq<(string, TenantEntry)>, n: nat)
    requires n <= |entries| && NoDup(AllGroups(entries))
    ensures NoDup(AllGroups(entries[..n]))
    decreases |entries|
  {
    if n < |entries| {
      var k := |entries| - 1;
      NoDupConcat(AllGroups(entries[..k]), GroupsOf(entries[k].1));
      PrefixGroups(entries[..k], n);
      assert entries[..k][..n] == entries[..n];
    } else {
      assert entries[..n] == entries;
    }
  }

  /** A document the loader accepts is imported into an empty database without a refusal. */
  lemma {:induction false} LoadableDocumentsGoIn(doc: Document)
    requires Keyed(doc) && Loaded(doc).Ok?
    ensures A.Transact(A.EMPTY, TenancyOps(doc)).Ok?
    ensures var db := A.Commit(A.EMPTY, TenancyOps(doc));
            && db.tenants.Keys == (set i | 0 <= i < |doc.tenants| :: doc.tenants[i].0)
            && db.roles.Keys == (set i | 0 <= i < |doc.roles| :: doc.roles[i].0)
            && forall i :: 0 <= i < |doc.tenants| ==> HasSquad(db, doc.tenants[i])
  {
    LoadsExactlyWhen(doc);
    hide A.Perform, A.Transact, Loaded, HasSquad;
    assert doc.roles[..|doc.roles|] == doc.roles && doc.tenants[..|doc.tenants|] == doc.tenants;
    RolesGoIn(A.EMPTY, doc.roles, |doc.roles|);
    var mid := A.Transact(A.EMPTY, RoleOpsOf(doc.roles)).value;
    SquadsGoIn(mid, doc.tenants, |doc.tenants|);
    assert RoleOpsOf(doc.roles) == RoleOps(doc) && TenantOpsOf(doc.tenants) == TenantOps(doc);
    RunInTwo(A.EMPTY, RoleOps(doc), TenantOps(doc));
  }

  /** Two loaded squads no caller can tell apart: the patterns may come in another order and without repeats. */
  predicate Same(a: Tenant, b: Tenant) {
    && a.name == b.name && a.ldapGroups == b.ldapGroups && a.toolProfile == b.toolProfile
    && a.structuralOnly == b.structuralOnly && a.deniedTools == b.deniedTools
    && Elements(a.projects) == Elements(b.projects)
  }

  ghost predicate SameMeaning(a: Squads, b: Squads) {
    && (forall t :: t in a.tenants ==> exists u :: u in b.tenants && Same(t, u))
    && (forall u :: u in b.tenants ==> exists t :: t in a.tenants && Same(t, u))
    && (forall r :: r in a.roles <==> r in b.roles)
  }

  lemma {:induction false} StoredSquadIsSame(entry: (string, TenantEntry))
    ensures Same(TenantOf(entry.0, entry.1), Documents.SquadOf(entry.0, A.RowOf(TenantOp(entry).tenant)))
  {
    Documents.SortKeepsElements(A.Dedup(ProjectsOf(entry.1)));
  }

  /** The tables hold exactly these entries. */
  predicate HoldsEntries(db: A.Database, entries: seq<(string, TenantEntry)>) {
    && db.tenants.Keys == (set i | 0 <= i < |entries| :: entries[i].0)
    && forall i :: 0 <= i < |entries| ==> HasSquad(db, entries[i])
  }

  lemma {:induction false} EntryIsLoaded(db: A.Database, entries: seq<(string, TenantEntry)>, squads: Squads, i: nat)
    returns (u: Tenant)
    requires Documents.DescribesSquads(squads, db) && HoldsEntries(db, entries) && i < |entries|
    ensures u in squads.tenants && Same(TenantOf(entries[i].0, entries[i].1), u)
  {
    hide Same, TenantOf, Documents.SquadOf, A.RowOf;
    StoredSquadIsSame(entries[i]);
    assert HasSquad(db, entries[i]);
    assert db.tenants[entries[i].0].enabled by { ImportedSquadsAreEnabled(entries[i]); }
    var k :| 0 <= k < |squads.tenants| && squads.tenants[k].name == entries[i].0;
    u := squads.tenants[k];
    assert u in squads.tenants;
  }

  lemma {:induction false} ImportedSquadsAreEnabled(entry: (string, TenantEntry))
    ensures A.RowOf(TenantOp(entry).tenant).enabled
  {
  }

  lemma {:induction false} LoadedWasAnEntry(
      db: A.Database, entries: seq<(string, TenantEntry)>, squads: Squads, u: Tenant)
    returns (i: nat)
    requires Documents.DescribesSquads(squads, db) && HoldsEntries(db, entries) && u in squads.tenants
    ensures i < |entries| && Same(TenantOf(entries[i].0, entries[i].1), u)
  {
    hide Same, TenantOf, Documents.SquadOf, A.RowOf;
    assert u.name in db.tenants.Keys;
    var k :| 0 <= k < |entries| && entries[k].0 == u.name;
    i := k;
    StoredSquadIsSame(entries[i]);
    assert HasSquad(db, entries[i]);
  }

  lemma {:induction false} SquadsKeepTheirMeaning(db: A.Database, entries: seq<(string, TenantEntry)>, squads: Squads)
    requires Documents.DescribesSquads(squads, db) && HoldsEntries(db, entries)
    ensures forall t :: t in TenantsOf(entries) ==> exists u :: u in squads.tenants && Same(t, u)
    ensures forall u :: u in squads.tenants ==> exists t :: t in TenantsOf(entries) && Same(t, u)
  {
    hide Same, TenantOf, Documents.DescribesSquads, HoldsEntries;
    forall t | t in TenantsOf(entries) ensures exists u :: u in squads.tenants && Same(t, u) {
      var i :| 0 <= i < |entries| && t == TenantsOf(entries)[i];
      var u := EntryIsLoaded(db, entries, squads, i);
    }
    forall u | u in squads.tenants ensures exists t :: t in TenantsOf(entries) && Same(t, u) {
      var i := LoadedWasAnEntry(db, entries, squads, u);
      assert TenantsOf(entries)[i] in TenantsOf(entries);
    }
  }

  lemma {:induction false} StoredRoleIsSame(db: A.Database, role: (string, seq<string>))
    requires Settled(db, RoleOp(role)) && RoleFine(role)
    ensures role.0 in db.roles && Elements(db.roles[role.0]) == Elements(role.1)
  {
  }

  lemma {:induction false} RolesKeepTheirMeaning(db: A.Database, doc: Document, squads: Squads)
    requires Documents.DescribesRoles(squads, db) && RolesOf(doc.roles).Ok?
    requires db.roles.Keys == (set i | 0 <= i < |doc.roles| :: doc.roles[i].0)
    requires forall i :: 0 <= i < |doc.roles| ==> Settled(db, RoleOp(doc.roles[i]))
    ensures forall r :: r in RolesOf(doc.roles).value <==> r in squads.roles
  {
    RolesWhen(doc.roles);
    hide RolesOf, Named, Settled, RoleFine;
    var roles := RolesOf(doc.roles).value;
    forall i | 0 <= i < |roles|
      ensures doc.roles[i].0 in db.roles &&
              roles[i] == RoleAssignment(Named(doc.roles[i].0).value, Elements(db.roles[doc.roles[i].0]))
    {
      StoredRoleIsSame(db, doc.roles[i]);
    }
    forall r | r in squads.roles ensures r in roles {
      var name :| name in db.roles && Named(name) == Some(r.role) && r.ldapGroups == Elements(db.roles[name]);
      var i :| 0 <= i < |doc.roles| && doc.roles[i].0 == name;
      assert roles[i] == r;
    }
  }

  /** The round trip: a document the loader accepts, imported into an empty database and read back in any
      order of its rows, loads to squads and roles with the same meaning. */
  lemma {:induction false} ImportKeepsTheMeaning(doc: Document, names: seq<string>, assignments: seq<(string, string)>)
    requires Keyed(doc) && Loaded(doc).Ok?
    requires Documents.Enumerates(A.Commit(A.EMPTY, TenancyOps(doc)), names)
    requires Documents.EnumeratesRoles(A.Commit(A.EMPTY, TenancyOps(doc)), assignments)
    ensures var db := A.Commit(A.EMPTY, TenancyOps(doc));
            var again := Loaded(Documents.TenantsDocument(Documents.RowsOf(db, names), assignments));
            again.Ok? && SameMeaning(Loaded(doc).value, again.value)
  {
    hide A.Transact, A.Perform, RolesOf, Owners, Documents.TenantsDocument;
    var ops := TenancyOps(doc);
    var db := A.Commit(A.EMPTY, ops);
    LoadableDocumentsGoIn(doc);
    OneTransaction(ops);
    Documents.EveryReachableConfigurationLoads([ops], names, assignments);
    var again := Loaded(Documents.TenantsDocument(Documents.RowsOf(db, names), assignments)).value;
    SquadsKeepTheirMeaning(db, doc.tenants, again);
    KeyedWritesOncePerKey(doc);
    RunSettles(A.EMPTY, ops);
    forall i | 0 <= i < |doc.roles| ensures Settled(db, RoleOp(doc.roles[i])) {
      assert ops[i] == RoleOp(doc.roles[i]);
    }
    RolesKeepTheirMeaning(db, doc, again);
  }

  /** Whatever an import did to tables that were sound, a second transaction refused after the first included,
      the loader accepts what is there now and reads it exactly. */
  lemma {:induction false} ImportedTablesLoad(
      db: A.Database, doc: Document, entries: seq<ScanEntry>, around: Surroundings,
      names: seq<string>, assignments: seq<(string, string)>)
    requires A.Sound(db)
    requires Documents.Enumerates(Import(db, doc, entries, around).0, names)
    requires Documents.EnumeratesRoles(Import(db, doc, entries, around).0, assignments)
    ensures var after := Import(db, doc, entries, around).0;
            var again := Loaded(Documents.TenantsDocument(Documents.RowsOf(after, names), assignments));
            again.Ok? && Documents.Describes(again.value, after)
  {
    ImportKeepsSound(db, doc, entries, around);
    Documents.SoundTablesAreDescribed(Import(db, doc, entries, around).0, names, assignments);
  }

  lemma {:induction false} OneTransaction(ops: seq<A.Op>)
    ensures A.History(A.EMPTY, [ops]) == A.Commit(A.EMPTY, ops)
  {
    hide A.Commit;
    assert [ops][..0] == [];
  }

  // ── connectors ───────────────────────────────────────────────────

  /** A connector read back is the one that was imported, with the defaults filled in and its token, if it has
      one, under a secret's name. */
  predicate ReadsBack(item: Documents.ScanItem, entry: ScanEntry, around: Surroundings) {
    && item.name == entry.name && item.provider == around.lower(entry.provider) && item.tenant == entry.tenant
    && item.settings == entry.settings
    && item.mode == entry.mode.GetOr("moderate") && item.persistence == entry.persistence.GetOr(true)
    && (if entry.included.Some? && entry.included.value != []
        then item.included == entry.included.value else item.included == ["*"])
    && (if entry.excluded.Some? then item.excluded == entry.excluded.value else item.excluded == [])
    && (item.tokenSecret.Some? <==> ReadsEnv(entry, around) || Truthy(entry.tokenSecret))
    && (item.tokenSecret.Some? && Truthy(entry.tokenSecret) ==> item.tokenSecret == entry.tokenSecret)
  }

  lemma {:induction false} StoredConnectorReadsBack(entry: ScanEntry, around: Surroundings)
    ensures A.ConnectorOf(ConnectorInputOf(entry, around)).enabled
    ensures ReadsBack(Documents.ItemOf(entry.name, A.ConnectorOf(ConnectorInputOf(entry, around))), entry, around)
  {
    assert |SecretName(entry)| > 0;
  }

  /** The round trip for connectors: after an import, in whatever order the rows are read, the last entry of each
      name is in the document the indexer gets. */
  lemma {:induction false} ImportedConnectorsReadBack(
    db: A.Database, doc: Document, entries: seq<ScanEntry>, around: Surroundings, i: nat,
    rows: seq<(string, A.ConnectorRow)>)
    requires Import(db, doc, entries, around).1.Ok? && i < |entries|
    requires forall j :: i < j < |entries| ==> entries[j].name != entries[i].name
    requires forall name, row :: (name, row) in rows <==>
               && name in Import(db, doc, entries, around).0.connectors
               && Import(db, doc, entries, around).0.connectors[name] == row
    ensures exists item :: item in Documents.ScanDocument(rows) && ReadsBack(item, entries[i], around)
  {
    hide A.Transact, A.Perform, Import, WrittenConnectors, WrittenSecrets, ReadsBack, ConnectorInputOf, A.ConnectorOf;
    var mid, once := TwoTransactions(db, doc, entries, around);
    ConnectorOpsAreConnectorWrites(entries, around);
    ConnectorRun(mid, ConnectorOps(entries, around));
    LastEntryWins(entries, around, i);
    StoredConnectorReadsBack(entries[i], around);
    var row := A.ConnectorOf(ConnectorInputOf(entries[i], around));
    assert (entries[i].name, row) in rows;
    assert Documents.ItemOf(entries[i].name, row) in Documents.ScanDocument(rows);
  }
}
