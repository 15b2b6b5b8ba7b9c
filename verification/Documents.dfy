/** The document the store builds from the tables, and what the strict loader makes of it. */
module Documents {
  import opened Lists
  import opened Wrappers
  import opened Roles
  import opened Registry
  import Admin

  // ── sorted() on strings ──────────────────────────────────────────

  predicate Le(a: string, b: string) {
    a == [] || (b != [] && (a[0] < b[0] || (a[0] == b[0] && Le(a[1..], b[1..]))))
  }

  lemma {:induction false} LeIsTotal(a: string, b: string)
    ensures Le(a, b) || Le(b, a)
  {
    if a != [] && b != [] {
      LeIsTotal(a[1..], b[1..]);
    }
  }

  lemma {:induction false} LeIsTransitive(a: string, b: string, c: string)
    requires Le(a, b) && Le(b, c)
    ensures Le(a, c)
  {
    if a != [] && a[0] == b[0] && b[0] == c[0] {
      LeIsTransitive(a[1..], b[1..], c[1..]);
    }
  }

  predicate Sorted(s: seq<string>) { forall i, j :: 0 <= i < j < |s| ==> Le(s[i], s[j]) }

  function InsertSorted(x: string, s: seq<string>): seq<string> {
    if s == [] || Le(x, s[0]) then [x] + s else [s[0]] + InsertSorted(x, s[1..])
  }

  function Sort(s: seq<string>): seq<string> {
    if s == [] then [] else InsertSorted(s[|s| - 1], Sort(s[..|s| - 1]))
  }

  lemma {:induction false} ConsElements(x: string, s: seq<string>)
    ensures Elements([x] + s) == {x} + Elements(s)
    ensures NoDup(s) && x !in s ==> NoDup([x] + s)
  {
    NoDupConcat([x], s);
  }

  lemma {:induction false} InsertedElements(x: string, s: seq<string>)
    ensures Elements(InsertSorted(x, s)) == Elements(s) + {x}
    ensures NoDup(s) && x !in s ==> NoDup(InsertSorted(x, s))
  {
    if s == [] || Le(x, s[0]) {
      ConsElements(x, s);
    } else {
      var rest := InsertSorted(x, s[1..]);
      InsertedElements(x, s[1..]);
      assert s == [s[0]] + s[1..];
      ConsElements(s[0], s[1..]);
      ConsElements(s[0], rest);
      assert NoDup(s) && x !in s ==> s[0] !in Elements(rest);
    }
  }

  lemma {:induction false} InsertedSorted(x: string, s: seq<string>)
    requires Sorted(s)
    ensures Sorted(InsertSorted(x, s))
  {
    if s != [] {
      LeIsTotal(x, s[0]);
      var r := InsertSorted(x, s);
      if Le(x, s[0]) {
        forall j | 0 <= j < |s| ensures Le(x, s[j]) {
          if j > 0 { LeIsTransitive(x, s[0], s[j]); }
        }
      } else {
        InsertedSorted(x, s[1..]);
        InsertedElements(x, s[1..]);
        forall j | 1 <= j < |r| ensures Le(s[0], r[j]) {
          assert r[j] in Elements(r[1..]);
        }
      }
    }
  }

  /** The sorted list holds the same strings, each as often when none repeats. */
  lemma {:induction false} SortKeepsElements(s: seq<string>)
    ensures Sorted(Sort(s)) && Elements(Sort(s)) == Elements(s)
    ensures NoDup(s) ==> NoDup(Sort(s))
    ensures s == [] <==> Sort(s) == []
  {
    if s != [] {
      hide Le, Sorted, InsertSorted, Elements, NoDup;
      var n := |s| - 1;
      var front, last := s[..n], s[n];
      SortKeepsElements(front);
      InsertedElements(last, Sort(front));
      InsertedSorted(last, Sort(front));
      InsertedIsNotEmpty(last, Sort(front));
      assert s == front + [last];
      LastElement(front, last);
    }
  }

  lemma {:induction false} InsertedIsNotEmpty(x: string, s: seq<string>)
    ensures InsertSorted(x, s) != []
  {
  }

  lemma {:induction false} LastElement(s: seq<string>, x: string)
    ensures Elements(s + [x]) == Elements(s) + {x}
    ensures NoDup(s + [x]) ==> NoDup(s) && x !in Elements(s)
    ensures x !in Elements(s) <==> x !in s
    ensures forall t: seq<string> :: Elements(t) == Elements(s) ==> (x in t <==> x in s)
  {
    hide Le;
    NoDupConcat(s, [x]);
    forall t: seq<string> | Elements(t) == Elements(s) ensures x in t <==> x in s {
      assert x in t <==> x in Elements(t);
      assert x in s <==> x in Elements(s);
    }
  }

  // ── the document ─────────────────────────────────────────────────

  function EntryOf(row: Admin.TenantRow): TenantEntry {
    TenantEntry(Some(Sort(row.groups)), Some(row.profile), Some(Sort(row.projects)),
                if row.structuralOnly then Some(true) else None,
                if row.deniedTools != [] then Some(row.deniedTools) else None)
  }

  function EnabledEntries(rows: seq<(string, Admin.TenantRow)>): seq<(string, TenantEntry)> {
    if rows == [] then []
    else
      var (name, row) := rows[|rows| - 1];
      EnabledEntries(rows[..|rows| - 1]) + if row.enabled then [(name, EntryOf(row))] else []
  }

  /** The roles of the assignment rows, in order of first appearance. */
  function RoleOrder(assignments: seq<(string, string)>): (r: seq<string>)
    ensures NoDup(r)
    ensures forall role :: role in r <==> exists g :: (role, g) in assignments
  {
    if assignments == [] then []
    else
      var n := |assignments| - 1;
      var (role, g) := assignments[n];
      var front := RoleOrder(assignments[..n]);
      assert assignments == assignments[..n] + [(role, g)];
      assert forall x, y :: (x, y) in assignments <==> (x, y) in assignments[..n] || (x, y) == (role, g);
      if role in front then front else front + [role]
  }

  function GroupsFor(assignments: seq<(string, string)>, role: string): (r: seq<string>)
    ensures forall g :: g in r <==> (role, g) in assignments
  {
    if assignments == [] then []
    else
      var n := |assignments| - 1;
      assert assignments == assignments[..n] + [assignments[n]];
      var front := GroupsFor(assignments[..n], role);
      if assignments[n].0 == role then front + [assignments[n].1] else front
  }

  function RolesDocument(assignments: seq<(string, string)>): seq<(string, seq<string>)> {
    var order := RoleOrder(assignments);
    seq(|order|, i requires 0 <= i < |order| => (order[i], Sort(GroupsFor(assignments, order[i]))))
  }

  function TenantsDocument(rows: seq<(string, Admin.TenantRow)>, assignments: seq<(string, string)>): Document {
    Document(EnabledEntries(rows), RolesDocument(assignments))
  }

  method CollectRoles(assignments: seq<(string, string)>)
    returns (order: seq<string>, roleMap: map<string, seq<string>>)
    ensures order == RoleOrder(assignments)
    ensures forall r :: r in order ==> r in roleMap && roleMap[r] == GroupsFor(assignments, r)
  {
    order, roleMap := [], map[];
    for i := 0 to |assignments|
      invariant order == RoleOrder(assignments[..i])
      invariant forall r :: r in roleMap <==> r in order
      invariant forall r :: r in roleMap ==> roleMap[r] == GroupsFor(assignments[..i], r)
    {
      assert assignments[..i + 1][..i] == assignments[..i];
      var (role, group) := assignments[i];
      if role !in roleMap {
        NoGroupsYet(assignments[..i], role);
        order := order + [role];
        roleMap := roleMap[role := []];
      }
      roleMap := roleMap[role := roleMap[role] + [group]];
    }
    assert assignments[..|assignments|] == assignments;
  }

  method CollectTenants(rows: seq<(string, Admin.TenantRow)>) returns (tenants: seq<(string, TenantEntry)>)
    ensures tenants == EnabledEntries(rows)
  {
    hide Sort;
    tenants := [];
    for i := 0 to |rows|
      invariant tenants == EnabledEntries(rows[..i])
    {
      assert rows[..i + 1][..i] == rows[..i];
      var (name, row) := rows[i];
      if row.enabled {
        var structural := if row.structuralOnly then Some(true) else None;
        var denied := if row.deniedTools != [] then Some(row.deniedTools) else None;
        tenants := tenants + [(name, TenantEntry(Some(Sort(row.groups)), Some(row.profile),
                                                 Some(Sort(row.projects)), structural, denied))];
      }
    }
    assert rows[..|rows|] == rows;
  }

  /** The store's loops over the rows it read, in whatever order the database returned them. */
  method BuildTenantsDocument(rows: seq<(string, Admin.TenantRow)>, assignments: seq<(string, string)>)
    returns (doc: Document)
    ensures doc == TenantsDocument(rows, assignments)
  {
    hide Sort, RoleOrder, GroupsFor, EnabledEntries;
    var order, roleMap := CollectRoles(assignments);
    var tenants := CollectTenants(rows);
    var roles: seq<(string, seq<string>)> := [];
    for i := 0 to |order|
      invariant |roles| == i
      invariant forall k :: 0 <= k < i ==> roles[k] == (order[k], Sort(GroupsFor(assignments, order[k])))
    {
      assert order[i] in order;
      roles := roles + [(order[i], Sort(roleMap[order[i]]))];
    }
    return Document(tenants, roles);
  }

  lemma {:induction false} NoGroupsYet(assignments: seq<(string, string)>, role: string)
    requires role !in RoleOrder(assignments)
    ensures GroupsFor(assignments, role) == []
  {
    if assignments != [] {
      NoGroupsYet(assignments[..|assignments| - 1], role);
    }
  }

  /** One connector as the indexer reads it. */
  datatype ScanItem = ScanItem(
    name: string,
    provider: string,
    tenant: string,
    included: seq<string>,
    excluded: seq<string>,
    mode: string,
    persistence: bool,
    tokenSecret: Option<string>,
    settings: map<string, string>)

  function ItemOf(name: string, row: Admin.ConnectorRow): ScanItem {
    ScanItem(name, row.provider, row.tenant, if row.included == [] then ["*"] else row.included, row.excluded,
             row.mode, row.persistence, if row.tokenSecret == Some("") then None else row.tokenSecret, row.settings)
  }

  function ScanDocument(rows: seq<(string, Admin.ConnectorRow)>): (items: seq<ScanItem>)
    ensures forall item :: item in items <==> exists r :: r in rows && r.1.enabled && item == ItemOf(r.0, r.1)
  {
    if rows == [] then []
    else
      var (name, row) := rows[|rows| - 1];
      assert rows == rows[..|rows| - 1] + [(name, row)];
      ScanDocument(rows[..|rows| - 1]) + if row.enabled then [ItemOf(name, row)] else []
  }

  method BuildScanDocument(rows: seq<(string, Admin.ConnectorRow)>) returns (items: seq<ScanItem>)
    ensures items == ScanDocument(rows)
  {
    items := [];
    for i := 0 to |rows|
      invariant items == ScanDocument(rows[..i])
    {
      assert rows[..i + 1][..i] == rows[..i];
      var (name, row) := rows[i];
      if row.enabled {
        var included := if row.included == [] then ["*"] else row.included;
        var token := if row.tokenSecret == Some("") then None else row.tokenSecret;
        items := items + [ScanItem(name, row.provider, row.tenant, included, row.excluded,
                                   row.mode, row.persistence, token, row.settings)];
      }
    }
    assert rows[..|rows|] == rows;
  }

  // ── every reachable configuration loads ──────────────────────────

  /** Some order of the squads' names, each once. */
  ghost predicate Enumerates(db: Admin.Database, names: seq<string>) {
    NoDup(names) && forall n :: n in names <==> n in db.tenants
  }

  function RowsOf(db: Admin.Database, names: seq<string>): (rows: seq<(string, Admin.TenantRow)>)
    requires forall n :: n in names ==> n in db.tenants
    ensures |rows| == |names| && forall i :: 0 <= i < |rows| ==> rows[i] == (names[i], db.tenants[names[i]])
  {
    seq(|names|, i requires 0 <= i < |names| => (names[i], db.tenants[names[i]]))
  }

  /** Some order of the rows of the role table, each once. */
  ghost predicate EnumeratesRoles(db: Admin.Database, assignments: seq<(string, string)>) {
    && NoDup(assignments)
    && forall r, g :: (r, g) in assignments <==> r in db.roles && g in db.roles[r]
  }

  /** The registry the tables describe. */
  ghost predicate Describes(squads: Squads, db: Admin.Database) {
    DescribesSquads(squads, db) && DescribesRoles(squads, db)
  }

  /** Every enabled squad once, with the fields its rows hold, and no other. */
  ghost predicate DescribesSquads(squads: Squads, db: Admin.Database) {
    && (forall n :: n in db.tenants && db.tenants[n].enabled ==>
          exists i :: 0 <= i < |squads.tenants| && squads.tenants[i].name == n)
    && (forall i, j :: 0 <= i < j < |squads.tenants| ==> squads.tenants[i].name != squads.tenants[j].name)
    && (forall t :: t in squads.tenants ==>
          t.name in db.tenants && db.tenants[t.name].enabled && t == SquadOf(t.name, db.tenants[t.name]))
  }

  ghost predicate DescribesRoles(squads: Squads, db: Admin.Database) {
    && (forall r :: r in db.roles ==>
          Named(r).Some? && RoleAssignment(Named(r).value, Elements(db.roles[r])) in squads.roles)
    && (forall a :: a in squads.roles ==>
          exists r :: r in db.roles && Named(r) == Some(a.role) && a.ldapGroups == Elements(db.roles[r]))
  }

  function SquadOf(name: string, row: Admin.TenantRow): Tenant {
    Tenant(name, Elements(row.groups), row.profile, Sort(row.projects), row.structuralOnly, Elements(row.deniedTools))
  }

  lemma {:induction false} EntryLoads(name: string, row: Admin.TenantRow)
    requires Admin.SoundTenant(row)
    ensures EntryFine(EntryOf(row)) && TenantOf(name, EntryOf(row)) == SquadOf(name, row)
    ensures NoDup(GroupsOf(EntryOf(row))) && Elements(GroupsOf(EntryOf(row))) == Elements(row.groups)
  {
    SortKeepsElements(row.groups);
    SortKeepsElements(row.projects);
    assert NoDup(row.groups);
  }

  function EnabledNames(db: Admin.Database, names: seq<string>): (r: seq<string>)
    requires forall n :: n in names ==> n in db.tenants
    ensures forall n :: n in r <==> n in names && db.tenants[n].enabled
    ensures NoDup(names) ==> NoDup(r)
  {
    if names == [] then []
    else
      var k := |names| - 1;
      assert names == names[..k] + [names[k]];
      EnabledNames(db, names[..k]) + if db.tenants[names[k]].enabled then [names[k]] else []
  }

  lemma {:induction false} LastRow(db: Admin.Database, names: seq<string>, name: string)
    requires name in db.tenants && forall n :: n in names ==> n in db.tenants
    ensures EnabledEntries(RowsOf(db, names + [name])) ==
            EnabledEntries(RowsOf(db, names)) +
            if db.tenants[name].enabled then [(name, EntryOf(db.tenants[name]))] else []
    ensures EnabledNames(db, names + [name]) ==
            EnabledNames(db, names) + if db.tenants[name].enabled then [name] else []
  {
    hide EntryOf;
    assert (names + [name])[..|names|] == names;
    assert RowsOf(db, names + [name])[..|names|] == RowsOf(db, names);
  }

  predicate EntryPerName(db: Admin.Database, entries: seq<(string, TenantEntry)>, enabled: seq<string>)
    requires forall n :: n in enabled ==> n in db.tenants
  {
    && |entries| == |enabled|
    && forall i :: 0 <= i < |entries| ==> entries[i] == (enabled[i], EntryOf(db.tenants[enabled[i]]))
  }

  lemma {:induction false} EntriesOfEnabled(db: Admin.Database, names: seq<string>)
    requires forall n :: n in names ==> n in db.tenants
    ensures EntryPerName(db, EnabledEntries(RowsOf(db, names)), EnabledNames(db, names))
  {
    hide EntryOf;
    if names != [] {
      var k := |names| - 1;
      EntriesOfEnabled(db, names[..k]);
      assert names == names[..k] + [names[k]];
      LastRow(db, names[..k], names[k]);
    }
  }

  /** Sound tables give a document without a repeated group. */
  lemma {:induction false} GroupsNeverRepeat(db: Admin.Database, names: seq<string>)
    requires Admin.Sound(db) && NoDup(names) && forall n :: n in names ==> n in db.tenants
    ensures var groups := AllGroups(EnabledEntries(RowsOf(db, names)));
            && NoDup(groups)
            && forall g :: g in groups ==> exists n :: n in names && g in db.tenants[n].groups
  {
    hide Sort, EntryOf;
    if names != [] {
      var k := |names| - 1;
      var front, name := names[..k], names[k];
      GroupsNeverRepeat(db, front);
      assert RowsOf(db, names)[..k] == RowsOf(db, front);
      var row := db.tenants[name];
      if row.enabled {
        EntryLoads(name, row);
        var before, mine := AllGroups(EnabledEntries(RowsOf(db, front))), GroupsOf(EntryOf(row));
        forall g | g in mine ensures g !in before {
          assert g in Elements(mine);
          OnlyOneSquadHas(db, front, name, g);
        }
        NoDupConcat(before, mine);
        LastEntry(EnabledEntries(RowsOf(db, front)), (name, EntryOf(row)));
        forall g | g in before + mine ensures exists n :: n in names && g in db.tenants[n].groups {
          if g in mine { assert g in Elements(mine); assert name in names; }
        }
      } else {
        assert EnabledEntries(RowsOf(db, names)) == EnabledEntries(RowsOf(db, front));
      }
    }
  }

  lemma {:induction false} LastEntry(entries: seq<(string, TenantEntry)>, last: (string, TenantEntry))
    ensures AllGroups(entries + [last]) == AllGroups(entries) + GroupsOf(last.1)
  {
    assert (entries + [last])[..|entries|] == entries;
  }

  lemma {:induction false} OnlyOneSquadHas(db: Admin.Database, others: seq<string>, name: string, g: string)
    requires Admin.Sound(db) && name in db.tenants && g in db.tenants[name].groups
    requires name !in others && forall n :: n in others ==> n in db.tenants
    ensures !exists n :: n in others && g in db.tenants[n].groups
  {
    forall n | n in others ensures g !in db.tenants[n].groups {
      assert Admin.Disjoint(db, n, name);
    }
  }

  lemma {:induction false} RolesLoad(db: Admin.Database, assignments: seq<(string, string)>)
    requires Admin.Sound(db) && EnumeratesRoles(db, assignments)
    ensures forall i :: 0 <= i < |RolesDocument(assignments)| ==> RoleFine(RolesDocument(assignments)[i])
    ensures forall i :: 0 <= i < |RolesDocument(assignments)| ==>
              var (role, groups) := RolesDocument(assignments)[i];
              role in db.roles && Elements(groups) == Elements(db.roles[role])
    ensures forall r :: r in db.roles ==>
            exists i :: 0 <= i < |RolesDocument(assignments)| && RolesDocument(assignments)[i].0 == r
  {
    hide Sort;
    var doc, order := RolesDocument(assignments), RoleOrder(assignments);
    forall i | 0 <= i < |doc|
      ensures RoleFine(doc[i]) && doc[i].0 in db.roles && Elements(doc[i].1) == Elements(db.roles[doc[i].0])
    {
      var groups := GroupsFor(assignments, order[i]);
      SortKeepsElements(groups);
      assert order[i] in order;
      var g :| (order[i], g) in assignments;
      assert g in groups;
    }
    forall r | r in db.roles ensures exists i :: 0 <= i < |doc| && doc[i].0 == r {
      assert (r, db.roles[r][0]) in assignments;
      assert r in order;
      var i :| 0 <= i < |order| && order[i] == r;
      assert doc[i].0 == r;
    }
  }

  lemma {:induction false} SoundTablesLoad(db: Admin.Database, names: seq<string>, assignments: seq<(string, string)>)
    requires Admin.Sound(db) && Enumerates(db, names) && EnumeratesRoles(db, assignments)
    ensures Loaded(TenantsDocument(RowsOf(db, names), assignments)).Ok?
  {
    var doc := TenantsDocument(RowsOf(db, names), assignments);
    EntriesOfEnabled(db, names);
    GroupsNeverRepeat(db, names);
    RolesLoad(db, assignments);
    forall i | 0 <= i < |doc.tenants| ensures EntryFine(doc.tenants[i].1) {
      var n := EnabledNames(db, names)[i];
      assert n in EnabledNames(db, names);
      EntryLoads(n, db.tenants[n]);
    }
    LoadsExactlyWhen(doc);
  }

  /** Squad by squad, what the loader makes of the entries. */
  lemma {:induction false} LoadedSquads(db: Admin.Database, names: seq<string>)
    requires Admin.Sound(db) && forall n :: n in names ==> n in db.tenants
    ensures var tenants, enabled := TenantsOf(EnabledEntries(RowsOf(db, names))), EnabledNames(db, names);
            && |tenants| == |enabled|
            && forall i :: 0 <= i < |tenants| ==> tenants[i] == SquadOf(enabled[i], db.tenants[enabled[i]])
  {
    hide Sort;
    var enabled := EnabledNames(db, names);
    EntriesOfEnabled(db, names);
    forall i | 0 <= i < |enabled|
      ensures TenantsOf(EnabledEntries(RowsOf(db, names)))[i] == SquadOf(enabled[i], db.tenants[enabled[i]])
    {
      assert enabled[i] in enabled;
      EntryLoads(enabled[i], db.tenants[enabled[i]]);
    }
  }

  lemma {:induction false} SquadsAreDescribed(db: Admin.Database, names: seq<string>, squads: Squads)
    requires Enumerates(db, names)
    requires |squads.tenants| == |EnabledNames(db, names)|
    requires forall i :: 0 <= i < |squads.tenants| ==>
               var n := EnabledNames(db, names)[i]; n in db.tenants && squads.tenants[i] == SquadOf(n, db.tenants[n])
    ensures DescribesSquads(squads, db)
  {
    hide Sort;
    var enabled := EnabledNames(db, names);
    forall n | n in db.tenants && db.tenants[n].enabled
      ensures exists i :: 0 <= i < |squads.tenants| && squads.tenants[i].name == n
    {
      assert n in enabled;
      var i :| 0 <= i < |enabled| && enabled[i] == n;
      assert squads.tenants[i].name == n;
    }
    forall i | 0 <= i < |squads.tenants| ensures squads.tenants[i].name == enabled[i] && enabled[i] in enabled {
    }
  }

  lemma {:induction false} StoredRolesAreLoaded(
      db: Admin.Database, doc: seq<(string, seq<string>)>, roles: seq<RoleAssignment>)
    requires |roles| == |doc|
    requires forall i :: 0 <= i < |doc| ==>
               && RoleFine(doc[i]) && doc[i].0 in db.roles && Elements(doc[i].1) == Elements(db.roles[doc[i].0])
               && roles[i] == RoleAssignment(Named(doc[i].0).value, Elements(doc[i].1))
    requires forall r :: r in db.roles ==> exists i :: 0 <= i < |doc| && doc[i].0 == r
    ensures forall r :: r in db.roles ==>
            Named(r).Some? && RoleAssignment(Named(r).value, Elements(db.roles[r])) in roles
    ensures forall a :: a in roles ==>
            exists r :: r in db.roles && Named(r) == Some(a.role) && a.ldapGroups == Elements(db.roles[r])
  {
    hide Named;
    forall r | r in db.roles
      ensures Named(r).Some? && RoleAssignment(Named(r).value, Elements(db.roles[r])) in roles
    {
      var i :| 0 <= i < |doc| && doc[i].0 == r;
      assert roles[i] == RoleAssignment(Named(r).value, Elements(db.roles[r]));
    }
    forall a | a in roles
      ensures exists r :: r in db.roles && Named(r) == Some(a.role) && a.ldapGroups == Elements(db.roles[r])
    {
      var i :| 0 <= i < |roles| && roles[i] == a;
      assert doc[i].0 in db.roles;
    }
  }

  lemma {:induction false} RolesAreDescribed(db: Admin.Database, assignments: seq<(string, string)>, squads: Squads)
    requires Admin.Sound(db) && EnumeratesRoles(db, assignments)
    requires RolesOf(RolesDocument(assignments)) == Ok(squads.roles)
    ensures DescribesRoles(squads, db)
  {
    hide Sort, RolesDocument, RolesOf, RoleFine, Named;
    RolesWhen(RolesDocument(assignments));
    RolesLoad(db, assignments);
    StoredRolesAreLoaded(db, RolesDocument(assignments), squads.roles);
  }

  /** Sound tables load to what they describe. */
  lemma {:induction false} SoundTablesAreDescribed(
      db: Admin.Database, names: seq<string>, assignments: seq<(string, string)>)
    requires Admin.Sound(db) && Enumerates(db, names) && EnumeratesRoles(db, assignments)
    ensures var loaded := Loaded(TenantsDocument(RowsOf(db, names), assignments));
            loaded.Ok? && Describes(loaded.value, db)
  {
    hide Admin.Sound;
    SoundTablesLoad(db, names, assignments);
    LoadedSquads(db, names);
    var squads := Loaded(TenantsDocument(RowsOf(db, names), assignments)).value;
    forall i | 0 <= i < |squads.tenants| ensures EnabledNames(db, names)[i] in db.tenants {
      assert EnabledNames(db, names)[i] in EnabledNames(db, names);
    }
    SquadsAreDescribed(db, names, squads);
    RolesAreDescribed(db, assignments, squads);
  }

  /** From an empty database, after any history of administrative transactions, the strict loader accepts the
      document for every order the rows may come in, and the registry it builds is the one the tables
      describe: exactly the enabled squads with their fields, exactly the stored role assignments. */
  lemma {:induction false} EveryReachableConfigurationLoads(
    history: seq<seq<Admin.Op>>, names: seq<string>, assignments: seq<(string, string)>)
    requires Enumerates(Admin.History(Admin.EMPTY, history), names)
    requires EnumeratesRoles(Admin.History(Admin.EMPTY, history), assignments)
    ensures var db := Admin.History(Admin.EMPTY, history);
            var loaded := Loaded(TenantsDocument(RowsOf(db, names), assignments));
            loaded.Ok? && Describes(loaded.value, db)
  {
    hide Admin.History, Admin.Sound;
    Admin.EveryHistoryIsSound(history);
    SoundTablesAreDescribed(Admin.History(Admin.EMPTY, history), names, assignments);
  }
}
