/** Reading the configuration out of tables that others write to meanwhile. */
module ConfigStore {
  import opened Wrappers
  import Admin
  import Lists

  /** What one load collects, table by table. */
  datatype Tables = Tables(
    squads: map<string, Squad>,
    groups: map<string, seq<string>>,
    patterns: map<string, seq<string>>,
    roles: map<string, seq<string>>,
    connectors: map<string, Admin.ConnectorRow>,
    settings: map<string, string>,
    secrets: map<string, string>)

  /** A squad's own row, without its groups and patterns. */
  datatype Squad = Squad(
    profile: string, structuralOnly: bool, deniedTools: seq<string>, keySecret: Option<string>, enabled: bool)

  const NOTHING := Tables(map[], map[], map[], map[], map[], map[], map[])

  const PARTS := 7

  /** The configuration as handed out: a label and the tables read under it. */
  datatype Config = Config(generation: nat, tables: Tables)

  /** Where a call stands. A call of `current` waits for the lock, asks for the counter, then loads; one of
      `invalidate` waits for the lock. */
  datatype Phase = Waiting | WaitingToInvalidate | Checking | Loading(generation: nat, tables: Tables, done: nat)

  datatype Store = Store(
    snapshot: Option<Config>,
    current: Option<Config>,
    holder: Option<nat>,
    calls: map<nat, Phase>)

  datatype Sys = Sys(db: Admin.Database, store: Store, returned: seq<Config>)

  /** `recent`: the last check lies less than one poll interval back. `builds`: the registry accepts the document. */
  datatype Event =
    | Write(ops: seq<Admin.Op>)
    | Begin(t: nat, recent: bool, builds: bool)
    | Acquire(t: nat, recent: bool, builds: bool)
    | ReadGeneration(t: nat, builds: bool)
    | ReadTable(t: nat)
    | Finish(t: nat, builds: bool)
    | Fail(t: nat)
    | BeginInvalidate(t: nat)
    | Invalidate(t: nat)

  // ── one table at a time ──────────────────────────────────────────

  function OwnRow(row: Admin.TenantRow): Squad {
    Squad(row.profile, row.structuralOnly, row.deniedTools, row.keySecret, row.enabled)
  }

  function Squads(db: Admin.Database): map<string, Squad> { map n | n in db.tenants :: OwnRow(db.tenants[n]) }

  /** The group rows of the squads a load has read before; a squad gone since has none. */
  function Groups(db: Admin.Database, names: set<string>): map<string, seq<string>> {
    map n | n in names && n in db.tenants :: db.tenants[n].groups
  }

  function Patterns(db: Admin.Database, names: set<string>): map<string, seq<string>> {
    map n | n in names && n in db.tenants :: db.tenants[n].projects
  }

  /** The k-th select of a load. */
  function ReadInto(tables: Tables, db: Admin.Database, k: nat): Tables
    requires k < PARTS
  {
    match k
    case 0 => tables.(squads := Squads(db))
    case 1 => tables.(groups := Groups(db, tables.squads.Keys))
    case 2 => tables.(patterns := Patterns(db, tables.squads.Keys))
    case 3 => tables.(roles := db.roles)
    case 4 => tables.(connectors := db.connectors)
    case 5 => tables.(settings := db.settings)
    case _ => tables.(secrets := db.secrets)
  }

  /** The first k selects, all made on these tables. */
  function Reading(db: Admin.Database, k: nat): Tables
    requires k <= PARTS
  {
    if k == 0 then NOTHING else ReadInto(Reading(db, k - 1), db, k - 1)
  }

  /** The tables the selects were made on, put back together. */
  function Assembled(c: Config): Admin.Database {
    Admin.Database(c.generation,
                   map n | n in c.tables.squads :: RowOf(c.tables, n),
                   c.tables.roles, c.tables.connectors, c.tables.settings, c.tables.secrets)
  }

  function RowOf(tables: Tables, n: string): Admin.TenantRow
    requires n in tables.squads
  {
    var s := tables.squads[n];
    Admin.TenantRow(if n in tables.groups then tables.groups[n] else [],
                    if n in tables.patterns then tables.patterns[n] else [],
                    s.profile, s.structuralOnly, s.deniedTools, s.keySecret, s.enabled)
  }

  /** Seven selects on the same tables lose nothing. */
  lemma {:induction false} AssembledReading(db: Admin.Database)
    ensures Assembled(Config(db.generation, Reading(db, PARTS))) == db
  {
    AllSelects(db);
    var tables := Reading(db, PARTS);
    hide Reading;
    forall n | n in db.tenants ensures RowOf(tables, n) == db.tenants[n] {
    }
    assert Assembled(Config(db.generation, tables)).tenants == db.tenants;
  }

  lemma {:induction false} AllSelects(db: Admin.Database)
    ensures Reading(db, PARTS) ==
            Tables(Squads(db), Groups(db, db.tenants.Keys), Patterns(db, db.tenants.Keys),
                   db.roles, db.connectors, db.settings, db.secrets)
  {
    hide Groups, Patterns;
    assert Squads(db).Keys == db.tenants.Keys;
    hide Squads;
    assert Reading(db, 2) == ReadInto(Reading(db, 1), db, 1);
    assert Reading(db, 4) == ReadInto(ReadInto(Reading(db, 2), db, 2), db, 3);
    assert Reading(db, 6) == ReadInto(ReadInto(Reading(db, 4), db, 4), db, 5);
  }

  // ── steps ────────────────────────────────────────────────────────

  predicate Enabled(s: Sys, e: Event) {
    var calls, holder := s.store.calls, s.store.holder;
    match e
    case Write(_) => true
    case Begin(t, _, _) => t !in calls
    case BeginInvalidate(t) => t !in calls
    case Acquire(t, _, _) => t in calls && calls[t].Waiting? && holder.None?
    case Invalidate(t) => t in calls && calls[t].WaitingToInvalidate? && holder.None?
    case ReadGeneration(t, _) => t in calls && calls[t].Checking?
    case ReadTable(t) => t in calls && calls[t].Loading? && calls[t].done < PARTS
    case Finish(t, _) => t in calls && calls[t].Loading? && calls[t].done == PARTS
    case Fail(t) => t in calls
  }

  /** A call ends: it leaves, and the lock with it if it held it. */
  function Leave(store: Store, t: nat): Store {
    store.(calls := store.calls - {t}, holder := if store.holder == Some(t) then None else store.holder)
  }

  /** The provider's half of `current`: reuse the built configuration of the same generation, or build. */
  function Serve(store: Store, builds: bool): (Store, Option<Config>)
    requires store.snapshot.Some?
  {
    var snap := store.snapshot.value;
    if store.current.Some? && store.current.value.generation == snap.generation then (store, store.current)
    else if builds then (store.(current := Some(snap)), Some(snap))
    else (store, None)
  }

  /** A step of the store against the tables as they are, and what a call that ends in it returns. */
  function StoreStep(store: Store, db: Admin.Database, e: Event): (Store, Option<Config>)
    requires Enabled(Sys(db, store, []), e)
  {
    match e
    case Write(_) => (store, None)
    case Begin(t, recent, builds) =>
      if store.snapshot.Some? && recent then Serve(store, builds)
      else (store.(calls := store.calls[t := Waiting]), None)
    case BeginInvalidate(t) => (store.(calls := store.calls[t := WaitingToInvalidate]), None)
    case Acquire(t, recent, builds) =>
      if store.snapshot.Some? && recent then Serve(Leave(store, t), builds)
      else (store.(calls := store.calls[t := Checking], holder := Some(t)), None)
    case ReadGeneration(t, builds) =>
      if store.snapshot.Some? && store.snapshot.value.generation == db.generation then Serve(Leave(store, t), builds)
      else (store.(calls := store.calls[t := Loading(db.generation, NOTHING, 0)]), None)
    case ReadTable(t) =>
      var c := store.calls[t];
      (store.(calls := store.calls[t := Loading(c.generation, ReadInto(c.tables, db, c.done), c.done + 1)]), None)
    case Finish(t, builds) =>
      var c := store.calls[t];
      Serve(Leave(store, t).(snapshot := Some(Config(c.generation, c.tables))), builds)
    case Fail(t) => (Leave(store, t), None)
    case Invalidate(t) => (Leave(store, t).(snapshot := None, current := None), None)
  }

  function Apply(s: Sys, e: Event): Sys
    requires Enabled(s, e)
  {
    var (store, answer) := StoreStep(s.store, s.db, e);
    Sys(match e case Write(ops) => Admin.Commit(s.db, ops) case _ => s.db,
        store,
        match answer case Some(c) => s.returned + [c] case None => s.returned)
  }

  predicate Start(s: Sys) { s.store == Store(None, None, None, map[]) && s.returned == [] }

  /** A run: states and the events between them. */
  predicate Run(trace: seq<Sys>, events: seq<Event>) {
    && |trace| == |events| + 1 && Start(trace[0])
    && forall n :: 0 <= n < |events| ==> Enabled(trace[n], events[n]) && trace[n + 1] == Apply(trace[n], events[n])
  }

  // ── what every step keeps ────────────────────────────────────────

  /** If the label is still the tables' generation, what was read is what the tables hold. */
  predicate TrueIfCurrent(c: Config, db: Admin.Database) {
    c.generation <= db.generation && (c.generation == db.generation ==> c.tables == Reading(db, PARTS))
  }

  predicate PhaseTrue(p: Phase, db: Admin.Database) {
    p.Loading? ==>
      && p.generation <= db.generation && p.done <= PARTS
      && (p.generation == db.generation ==> p.tables == Reading(db, p.done))
  }

  /** The store holds nothing that a current label makes wrong, and the lock is where it should be. */
  predicate StoreInv(store: Store, db: Admin.Database) {
    && (store.snapshot.Some? ==> TrueIfCurrent(store.snapshot.value, db))
    && (store.current.Some? ==> TrueIfCurrent(store.current.value, db))
    && (forall t :: t in store.calls ==> PhaseTrue(store.calls[t], db))
    && LockHeld(store)
  }

  predicate Truthful(s: Sys) {
    && StoreInv(s.store, s.db)
    && (forall i :: 0 <= i < |s.returned| ==> TrueIfCurrent(s.returned[i], s.db))
  }

  lemma {:induction false} WriteKeepsTruth(db: Admin.Database, ops: seq<Admin.Op>)
    ensures forall c :: TrueIfCurrent(c, db) ==> TrueIfCurrent(c, Admin.Commit(db, ops))
    ensures forall p :: PhaseTrue(p, db) ==> PhaseTrue(p, Admin.Commit(db, ops))
  {
    hide Reading, Admin.Commit;
    Admin.EveryWriteBumps(db, ops);
  }

  lemma {:induction false} StepKeepsTruth(s: Sys, e: Event)
    requires Truthful(s) && Enabled(s, e)
    ensures Truthful(Apply(s, e))
  {
    StepKeepsLock(s, e);
    hide Admin.Commit, LockHeld;
    match e
    case Write(ops) => WriteKeepsTruth(s.db, ops);
    case ReadTable(t) =>
      var c := s.store.calls[t];
      assert PhaseTrue(c, s.db);
      assert Reading(s.db, c.done + 1) == ReadInto(Reading(s.db, c.done), s.db, c.done);
    case _ =>
  }

  /** The lock is held exactly by the call that checks or loads. */
  predicate LockHeld(store: Store) {
    && (store.holder.Some? ==> store.holder.value in store.calls)
    && (forall t :: t in store.calls ==>
          ((store.calls[t].Checking? || store.calls[t].Loading?) <==> store.holder == Some(t)))
  }

  lemma {:induction false} StepKeepsLock(s: Sys, e: Event)
    requires LockHeld(s.store) && Enabled(s, e)
    ensures LockHeld(Apply(s, e).store)
  {
    hide ReadInto, Admin.Commit;
  }

  /** Nothing that can still be returned has a label under the floor. */
  predicate AtLeast(s: Sys, floor: nat) {
    && floor <= s.db.generation
    && (s.store.snapshot.Some? ==> floor <= s.store.snapshot.value.generation)
    && (forall t :: t in s.store.calls && s.store.calls[t].Loading? ==> floor <= s.store.calls[t].generation)
  }

  /** A step keeps every floor, and what it returns stands on it. */
  lemma {:induction false} StepKeepsFloor(s: Sys, e: Event, floor: nat)
    requires AtLeast(s, floor) && Enabled(s, e)
    ensures AtLeast(Apply(s, e), floor)
    ensures forall i :: |s.returned| <= i < |Apply(s, e).returned| ==> floor <= Apply(s, e).returned[i].generation
    ensures s.returned <= Apply(s, e).returned
  {
    hide ReadInto, Admin.Commit;
    if e.Write? {
      Admin.EveryWriteBumps(s.db, e.ops);
    }
  }

  /** What was returned last is a floor for what can be returned next. */
  predicate Ordered(s: Sys) {
    && (forall i, j :: 0 <= i < j < |s.returned| ==> s.returned[i].generation <= s.returned[j].generation)
    && (forall i :: 0 <= i < |s.returned| ==> AtLeast(s, s.returned[i].generation))
    && (s.store.snapshot.Some? ==> AtLeast(s, s.store.snapshot.value.generation))
  }

  lemma {:induction false} StepKeepsOrder(s: Sys, e: Event)
    requires Truthful(s) && Ordered(s) && Enabled(s, e)
    ensures Ordered(Apply(s, e))
  {
    hide ReadInto, Reading, Admin.Commit;
    var s' := Apply(s, e);
    if e.Write? {
      Admin.EveryWriteBumps(s.db, e.ops);
    }
    forall i | 0 <= i < |s.returned| ensures AtLeast(s', s.returned[i].generation) {
      StepKeepsFloor(s, e, s.returned[i].generation);
    }
    if s.store.snapshot.Some? {
      StepKeepsFloor(s, e, s.store.snapshot.value.generation);
    }
    if |s.returned| < |s'.returned| {
      assert s'.returned[|s.returned|].generation == s'.store.snapshot.value.generation;
    }
    if s'.store.snapshot.Some? && s'.store.snapshot != s.store.snapshot {
      assert s.store.calls[e.t].Loading? && s'.store.snapshot.value.generation == s.store.calls[e.t].generation;
    }
  }

  lemma {:induction false} RunKeeps(trace: seq<Sys>, events: seq<Event>, n: nat)
    requires Run(trace, events) && n < |trace|
    ensures Truthful(trace[n]) && Ordered(trace[n])
  {
    hide Apply, Enabled, TrueIfCurrent, PhaseTrue, AtLeast;
    if n > 0 {
      RunKeeps(trace, events, n - 1);
      StepKeepsTruth(trace[n - 1], events[n - 1]);
      StepKeepsOrder(trace[n - 1], events[n - 1]);
    }
  }

  // ── what a reader may rely on ────────────────────────────────────

  /** Although the counter and each table are read at different moments with writes in between: whenever a
      configuration's label is the tables' generation, it holds exactly what the tables hold. */
  lemma {:induction false} CurrentLabelMeansCurrentTables(trace: seq<Sys>, events: seq<Event>, n: nat, c: Config)
    requires Run(trace, events) && n < |trace|
    requires c in trace[n].returned || Some(c) == trace[n].store.snapshot || Some(c) == trace[n].store.current
    ensures c.generation <= trace[n].db.generation
    ensures c.generation == trace[n].db.generation ==> Assembled(c) == trace[n].db
  {
    hide Reading, Apply, Enabled, Assembled;
    RunKeeps(trace, events, n);
    assert TrueIfCurrent(c, trace[n].db);
    if c.generation == trace[n].db.generation {
      AssembledReading(trace[n].db);
    }
  }

  /** Successive calls never go back to an older generation, whether or not loads fail in between. */
  lemma {:induction false} ReturnedGenerationsNeverFall(trace: seq<Sys>, events: seq<Event>, n: nat, i: nat, j: nat)
    requires Run(trace, events) && n < |trace| && i <= j < |trace[n].returned|
    ensures trace[n].returned[i].generation <= trace[n].returned[j].generation
  {
    hide Apply, Enabled;
    RunKeeps(trace, events, n);
  }

  lemma {:induction false} FloorLasts(trace: seq<Sys>, events: seq<Event>, m: nat, n: nat, floor: nat)
    requires Run(trace, events) && m <= n < |trace| && AtLeast(trace[m], floor)
    ensures AtLeast(trace[n], floor) && |trace[m].returned| <= |trace[n].returned|
    ensures forall i :: |trace[m].returned| <= i < |trace[n].returned| ==> floor <= trace[n].returned[i].generation
    decreases n
  {
    hide Apply, Enabled, AtLeast;
    if m < n {
      FloorLasts(trace, events, m, n - 1, floor);
      StepKeepsFloor(trace[n - 1], events[n - 1], floor);
    }
  }

  lemma {:induction false} GenerationsRise(trace: seq<Sys>, events: seq<Event>, m: nat, n: nat)
    requires Run(trace, events) && m <= n < |trace|
    ensures trace[m].db.generation <= trace[n].db.generation
    decreases n
  {
    hide Admin.Commit, StoreStep;
    if m < n {
      GenerationsRise(trace, events, m, n - 1);
      if events[n - 1].Write? {
        Admin.EveryWriteBumps(trace[n - 1].db, events[n - 1].ops);
      }
    }
  }

  /** Read your writes: once a write has committed and an invalidation has completed after it, every call that
      returns later, even one that had begun before or found a load in flight, returns that write or a newer one. */
  lemma {:induction false} ReadYourWrites(trace: seq<Sys>, events: seq<Event>, w: nat, m: nat, n: nat, i: nat)
    requires Run(trace, events) && w < m < n < |trace| && events[w].Write? && events[m].Invalidate?
    requires |trace[m].returned| <= i < |trace[n].returned|
    ensures trace[w + 1].db.generation <= trace[n].returned[i].generation
  {
    hide Reading, ReadInto;
    var floor := trace[w + 1].db.generation;
    RunKeeps(trace, events, m);
    GenerationsRise(trace, events, w + 1, m);
    assert trace[m + 1] == Apply(trace[m], events[m]);
    assert AtLeast(trace[m + 1], floor);
    FloorLasts(trace, events, m + 1, n, floor);
  }

  // ── a check that no write disturbs ───────────────────────────────

  /** These events, in this order, lead from one state to the other. */
  predicate Leads(s: Sys, es: seq<Event>, s': Sys)
    decreases |es|
  {
    if es == [] then s == s' else Enabled(s, es[0]) && Leads(Apply(s, es[0]), es[1..], s')
  }

  function Reads(t: nat, k: nat): seq<Event> { if k == 0 then [] else [ReadTable(t)] + Reads(t, k - 1) }

  /** The remaining selects of a load, all made on the same tables. */
  function ReadRest(tables: Tables, db: Admin.Database, k: nat): Tables
    requires k <= PARTS
    decreases PARTS - k
  {
    if k == PARTS then tables else ReadRest(ReadInto(tables, db, k), db, k + 1)
  }

  function AtLoad(s: Sys, t: nat, generation: nat, tables: Tables, done: nat): Sys {
    s.(store := s.store.(calls := s.store.calls[t := Loading(generation, tables, done)]))
  }

  lemma {:induction false} ReadsLead(s: Sys, t: nat, g: nat, tables: Tables, k: nat)
    requires k <= PARTS
    ensures Leads(AtLoad(s, t, g, tables, k), Reads(t, PARTS - k), AtLoad(s, t, g, ReadRest(tables, s.db, k), PARTS))
    decreases PARTS - k
  {
    hide ReadInto;
    if k < PARTS {
      var es := Reads(t, PARTS - k);
      assert es[0] == ReadTable(t) && es[1..] == Reads(t, PARTS - k - 1);
      var here, next := AtLoad(s, t, g, tables, k), AtLoad(s, t, g, ReadInto(tables, s.db, k), k + 1);
      assert Enabled(here, es[0]);
      assert Apply(here, es[0]).store.calls == next.store.calls;
      assert Apply(here, es[0]) == next;
      ReadsLead(s, t, g, ReadInto(tables, s.db, k), k + 1);
    }
  }

  lemma {:induction false} ReadingThenRest(db: Admin.Database, k: nat)
    requires k <= PARTS
    ensures ReadRest(Reading(db, k), db, k) == Reading(db, PARTS)
    decreases PARTS - k
  {
    hide ReadInto;
    if k < PARTS {
      assert Reading(db, k + 1) == ReadInto(Reading(db, k), db, k);
      ReadingThenRest(db, k + 1);
    }
  }

  lemma {:induction false} LeadsThrough(s: Sys, a: seq<Event>, mid: Sys, b: seq<Event>, s': Sys)
    requires Leads(s, a, mid) && Leads(mid, b, s')
    ensures Leads(s, a + b, s')
    decreases |a|
  {
    hide Apply, Enabled;
    if a == [] {
      assert a + b == b;
    } else {
      assert (a + b)[0] == a[0] && (a + b)[1..] == a[1..] + b;
      LeadsThrough(Apply(s, a[0]), a[1..], mid, b, s');
    }
  }

  lemma {:induction false} OneStepLeads(s: Sys, e: Event)
    requires Enabled(s, e)
    ensures Leads(s, [e], Apply(s, e))
  {
    hide Apply, Enabled;
    assert [e][1..] == [];
  }

  lemma {:induction false} LoadLeads(s: Sys, t: nat) returns (s': Sys)
    requires t in s.store.calls && s.store.calls[t] == Loading(s.db.generation, NOTHING, 0)
    requires s.store.current.Some? ==> TrueIfCurrent(s.store.current.value, s.db)
    ensures Leads(s, Reads(t, PARTS) + [Finish(t, true)], s')
    ensures s'.db == s.db && |s'.returned| == |s.returned| + 1 && s.returned <= s'.returned
    ensures s'.returned[|s.returned|] == Config(s.db.generation, Reading(s.db, PARTS))
  {
    var db := s.db;
    assert AtLoad(s, t, db.generation, NOTHING, 0).store.calls == s.store.calls;
    assert AtLoad(s, t, db.generation, NOTHING, 0) == s;
    ReadsLead(s, t, db.generation, NOTHING, 0);
    ReadingThenRest(db, 0);
    var loaded := AtLoad(s, t, db.generation, Reading(db, PARTS), PARTS);
    s' := Apply(loaded, Finish(t, true));
    OneStepLeads(loaded, Finish(t, true));
    LeadsThrough(s, Reads(t, PARTS), loaded, [Finish(t, true)], s');
  }

  /** A call that gets the lock and is not disturbed by a write returns the tables as they are: an edit
      reaches every reader with the first check after it. */
  lemma {:induction false} AQuietCheckReturnsTheTables(s: Sys, t: nat) returns (es: seq<Event>, s': Sys)
    requires Truthful(s) && s.store.holder.None? && t in s.store.calls && s.store.calls[t].Waiting?
    ensures Leads(s, es, s') && forall e :: e in es ==> !e.Write? && e.t == t
    ensures s'.db == s.db && |s'.returned| == |s.returned| + 1 && s.returned <= s'.returned
    ensures s'.returned[|s.returned|].generation == s.db.generation && Assembled(s'.returned[|s.returned|]) == s.db
  {
    hide Assembled, ReadInto, Reading, Leads, Reads;
    AssembledReading(s.db);
    var got := Apply(s, Acquire(t, false, true));
    var checked := Apply(got, ReadGeneration(t, true));
    OneStepLeads(s, Acquire(t, false, true));
    OneStepLeads(got, ReadGeneration(t, true));
    LeadsThrough(s, [Acquire(t, false, true)], got, [ReadGeneration(t, true)], checked);
    es := [Acquire(t, false, true)] + [ReadGeneration(t, true)];
    if s.store.snapshot.Some? && s.store.snapshot.value.generation == s.db.generation {
      s' := checked;
    } else {
      s' := LoadLeads(checked, t);
      ReadsOnly(t, PARTS);
      LeadsThrough(s, es, checked, Reads(t, PARTS) + [Finish(t, true)], s');
      es := es + (Reads(t, PARTS) + [Finish(t, true)]);
    }
  }

  /** Between these steps nothing is written. */
  predicate Undisturbed(events: seq<Event>, m: nat, n: nat)
    requires m <= n <= |events|
  {
    forall i :: m <= i < n ==> !events[i].Write?
  }

  lemma {:induction false} LabelsStayCurrent(trace: seq<Sys>, events: seq<Event>, m: nat, n: nat, t: nat)
    requires Run(trace, events) && m <= n < |trace| && Undisturbed(events, m, n)
    requires t in trace[m].store.calls ==> !trace[m].store.calls[t].Loading?
    ensures trace[n].db == trace[m].db
    ensures t in trace[n].store.calls && trace[n].store.calls[t].Loading? ==>
              trace[n].store.calls[t].generation == trace[n].db.generation
    decreases n
  {
    hide Admin.Commit, ReadInto;
    if m < n {
      LabelsStayCurrent(trace, events, m, n - 1, t);
      assert trace[n] == Apply(trace[n - 1], events[n - 1]) && !events[n - 1].Write?;
    }
  }

  /** In every interleaving: a call that had not begun to load at some step, and asks for the counter or finishes
      its load with no write in between, returns the tables as they are, whatever the other calls did. */
  lemma {:induction false} EveryQuietCheckReturnsTheTables(
      trace: seq<Sys>, events: seq<Event>, m: nat, n: nat, t: nat)
    requires Run(trace, events) && m <= n < |events| && Undisturbed(events, m, n)
    requires t in trace[m].store.calls ==> !trace[m].store.calls[t].Loading?
    requires (events[n].ReadGeneration? || events[n].Finish?) && events[n].t == t
    requires |trace[n].returned| < |trace[n + 1].returned|
    ensures var c := trace[n + 1].returned[|trace[n].returned|];
            c.generation == trace[n].db.generation && Assembled(c) == trace[n].db
  {
    hide Assembled, ReadInto, Reading;
    LabelsStayCurrent(trace, events, m, n, t);
    RunKeeps(trace, events, n + 1);
    assert trace[n + 1] == Apply(trace[n], events[n]) && trace[n + 1].db == trace[n].db;
    var c := trace[n + 1].returned[|trace[n].returned|];
    assert c.generation == trace[n].db.generation;
    assert TrueIfCurrent(c, trace[n + 1].db);
    AssembledReading(trace[n].db);
  }

  /** And it can always go on: the call that holds the lock has a next step, and fewer of them each time. */
  function StepsLeft(p: Phase): nat {
    match p
    case Checking => PARTS + 2
    case Loading(_, _, done) => if done < PARTS then PARTS + 1 - done else 1
    case _ => 0
  }

  function NextStep(t: nat, p: Phase, builds: bool): Event {
    match p
    case Checking => ReadGeneration(t, builds)
    case Loading(_, _, done) => if done < PARTS then ReadTable(t) else Finish(t, builds)
    case _ => Fail(t)
  }

  lemma {:induction false} TheHolderGoesOn(s: Sys, t: nat, builds: bool)
    requires Truthful(s) && s.store.holder == Some(t)
    ensures t in s.store.calls
    ensures var p := s.store.calls[t];
            var e := NextStep(t, p, builds);
            && !e.Fail? && Enabled(s, e)
            && (t in Apply(s, e).store.calls ==>
                  Apply(s, e).store.holder == Some(t) && StepsLeft(Apply(s, e).store.calls[t]) < StepsLeft(p))
  {
    hide ReadInto, Reading;
    assert PhaseTrue(s.store.calls[t], s.db);
  }

  lemma {:induction false} ReadsOnly(t: nat, k: nat)
    ensures forall e :: e in Reads(t, k) ==> e == ReadTable(t)
  {
    if k > 0 {
      ReadsOnly(t, k - 1);
    }
  }

  // ── a write in the middle of a load ──────────────────────────────

  /** A write that commits after the first select of a load is half seen: the squads' own rows are the old
      ones, everything else is new. The label is the old generation, so the next check replaces it. */
  lemma {:induction false} AWriteDuringALoadIsHalfSeen(
      db: Admin.Database, ops: seq<Admin.Op>)
    returns (es: seq<Event>, s': Sys)
    requires Admin.Transact(db, ops).Ok?
    ensures Leads(Sys(db, Store(None, None, None, map[]), []), es, s')
    ensures |s'.returned| == 1
    ensures var c, after := s'.returned[0], Admin.Commit(db, ops);
            && s'.db == after
            && c.generation == db.generation && c.tables.squads == Squads(db)
            && c.tables.groups == Groups(after, db.tenants.Keys)
            && c.tables.patterns == Patterns(after, db.tenants.Keys)
            && c.tables.roles == after.roles && c.tables.connectors == after.connectors
            && c.tables.settings == after.settings && c.tables.secrets == after.secrets
  {
    hide Admin.Commit, Admin.Transact, Leads, ReadRest, Reads, Groups, Patterns;
    assert Squads(db).Keys == db.tenants.Keys;
    var s0 := Sys(db, Store(None, None, None, map[]), []);
    var one := ReadInto(NOTHING, db, 0);
    var early := [Begin(0, false, true), Acquire(0, false, true), ReadGeneration(0, true), ReadTable(0), Write(ops)];
    var after := Admin.Commit(db, ops);
    var torn := Sys(after, Store(None, None, Some(0), map[0 := Loading(db.generation, one, 1)]), []);
    HalfWay(db, ops);
    assert AtLoad(torn, 0, db.generation, one, 1) == torn;
    ReadsLead(torn, 0, db.generation, one, 1);
    var all := ReadRest(one, after, 1);
    var loaded := AtLoad(torn, 0, db.generation, all, PARTS);
    LeadsThrough(s0, early, torn, Reads(0, 6), loaded);
    s' := Apply(loaded, Finish(0, true));
    OneStepLeads(loaded, Finish(0, true));
    LeadsThrough(s0, early + Reads(0, 6), loaded, [Finish(0, true)], s');
    es := early + Reads(0, 6) + [Finish(0, true)];
    SixReads(one, after);
  }

  lemma {:induction false} HalfWay(db: Admin.Database, ops: seq<Admin.Op>)
    ensures Leads(Sys(db, Store(None, None, None, map[]), []),
                  [Begin(0, false, true), Acquire(0, false, true), ReadGeneration(0, true), ReadTable(0), Write(ops)],
                  Sys(Admin.Commit(db, ops),
                      Store(None, None, Some(0), map[0 := Loading(db.generation, ReadInto(NOTHING, db, 0), 1)]), []))
  {
    hide Admin.Commit, ReadInto;
    var s0 := Sys(db, Store(None, None, None, map[]), []);
    var s1 := Sys(db, Store(None, None, None, map[0 := Waiting]), []);
    var s2 := Sys(db, Store(None, None, Some(0), map[0 := Checking]), []);
    var s3 := Sys(db, Store(None, None, Some(0), map[0 := Loading(db.generation, NOTHING, 0)]), []);
    var s4 := Sys(db, Store(None, None, Some(0), map[0 := Loading(db.generation, ReadInto(NOTHING, db, 0), 1)]), []);
    assert Apply(s0, Begin(0, false, true)) == s1;
    assert Apply(s1, Acquire(0, false, true)) == s2;
    assert Apply(s2, ReadGeneration(0, true)) == s3;
    assert Apply(s3, ReadTable(0)) == s4;
    var a, b, c := Begin(0, false, true), Acquire(0, false, true), ReadGeneration(0, true);
    var d, e := ReadTable(0), Write(ops);
    OneStepLeads(s0, a);
    OneStepLeads(s1, b);
    OneStepLeads(s2, c);
    OneStepLeads(s3, d);
    OneStepLeads(s4, e);
    LeadsThrough(s3, [d], s4, [e], Apply(s4, e));
    assert [d] + [e] == [d, e];
    LeadsThrough(s2, [c], s3, [d, e], Apply(s4, e));
    assert [c] + [d, e] == [c, d, e];
    LeadsThrough(s1, [b], s2, [c, d, e], Apply(s4, e));
    assert [b] + [c, d, e] == [b, c, d, e];
    LeadsThrough(s0, [a], s1, [b, c, d, e], Apply(s4, e));
    assert [a] + [b, c, d, e] == [a, b, c, d, e];
  }

  lemma {:induction false} SixReads(tables: Tables, db: Admin.Database)
    ensures ReadRest(tables, db, 1) ==
            Tables(tables.squads, Groups(db, tables.squads.Keys), Patterns(db, tables.squads.Keys),
                   db.roles, db.connectors, db.settings, db.secrets)
  {
    hide Groups, Patterns;
    var t2 := ReadInto(tables, db, 1);
    var t4 := ReadInto(ReadInto(t2, db, 2), db, 3);
    assert ReadRest(tables, db, 1) == ReadRest(t2, db, 2);
    assert ReadRest(t2, db, 2) == ReadRest(ReadInto(t2, db, 2), db, 3) == ReadRest(t4, db, 4);
    var t6 := ReadInto(ReadInto(t4, db, 4), db, 5);
    assert ReadRest(t4, db, 4) == ReadRest(ReadInto(t4, db, 4), db, 5) == ReadRest(t6, db, 6);
    assert ReadRest(t6, db, 6) == ReadRest(ReadInto(t6, db, 6), db, 7) == ReadInto(t6, db, 6);
  }

  /** The k-th select sees no difference between these tables. */
  predicate SamePart(a: Admin.Database, b: Admin.Database, k: nat) {
    match k
    case 0 => Squads(a) == Squads(b)
    case 1 => forall n :: n in b.tenants ==> n in a.tenants && a.tenants[n].groups == b.tenants[n].groups
    case 2 => forall n :: n in b.tenants ==> n in a.tenants && a.tenants[n].projects == b.tenants[n].projects
    case 3 => a.roles == b.roles
    case 4 => a.connectors == b.connectors
    case 5 => a.settings == b.settings
    case _ => a.secrets == b.secrets
  }

  /** Selects made one after the other, each on the tables of its own moment. */
  function Composite(dbs: seq<Admin.Database>): Tables
    requires |dbs| <= PARTS
  {
    if dbs == [] then NOTHING else ReadInto(Composite(dbs[..|dbs| - 1]), dbs[|dbs| - 1], |dbs| - 1)
  }

  lemma {:induction false} SevenSelects(dbs: seq<Admin.Database>)
    requires |dbs| == PARTS
    ensures var names := dbs[0].tenants.Keys;
            Composite(dbs) == Tables(Squads(dbs[0]), Groups(dbs[1], names), Patterns(dbs[2], names), dbs[3].roles,
                                     dbs[4].connectors, dbs[5].settings, dbs[6].secrets)
  {
    hide Groups, Patterns;
    assert Squads(dbs[0]).Keys == dbs[0].tenants.Keys;
    hide Squads;
    assert dbs[..6][..5] == dbs[..5] && dbs[..5][..4] == dbs[..4] && dbs[..4][..3] == dbs[..3];
    assert dbs[..3][..2] == dbs[..2] && dbs[..2][..1] == dbs[..1];
    assert Composite(dbs[..1]) == ReadInto(NOTHING, dbs[0], 0);
    assert Composite(dbs[..3]) == ReadInto(ReadInto(Composite(dbs[..1]), dbs[1], 1), dbs[2], 2);
    assert Composite(dbs[..5]) == ReadInto(ReadInto(Composite(dbs[..3]), dbs[3], 3), dbs[4], 4);
  }

  function Moments(trace: seq<Sys>, ns: seq<nat>): seq<Admin.Database>
    requires forall k :: 0 <= k < |ns| ==> ns[k] < |trace|
  {
    seq(|ns|, k requires 0 <= k < |ns| => trace[ns[k]].db)
  }

  /** A load began with the counter read at step m and made its k-th select at step ns[k]. */
  predicate LoadOf(trace: seq<Sys>, c: Phase, m: nat, ns: seq<nat>, n: nat)
    requires n < |trace|
  {
    && c.Loading? && m < n && |ns| == c.done <= PARTS
    && (forall k :: 0 <= k < |ns| ==> m < ns[k] < n)
    && (forall j, k :: 0 <= j < k < |ns| ==> ns[j] < ns[k])
    && c.generation == trace[m].db.generation && c.tables == Composite(Moments(trace, ns))
  }

  lemma {:induction false} LoadingComesFrom(s: Sys, e: Event, t: nat)
    requires Enabled(s, e) && t in Apply(s, e).store.calls && Apply(s, e).store.calls[t].Loading?
    ensures var c, calls := Apply(s, e).store.calls[t], s.store.calls;
            || (t in calls && c == calls[t])
            || (e.ReadGeneration? && e.t == t && c == Loading(s.db.generation, NOTHING, 0))
            || (e == ReadTable(t) && t in calls && calls[t].Loading? && calls[t].done < PARTS &&
                c == Loading(calls[t].generation, ReadInto(calls[t].tables, s.db, calls[t].done), calls[t].done + 1))
  {
    hide ReadInto, Admin.Commit;
  }

  /** Every load under way consists of the counter read and its selects so far, in this order. */
  lemma {:induction false} LoadsReadInOrder(trace: seq<Sys>, events: seq<Event>, n: nat, t: nat)
    returns (m: nat, ns: seq<nat>)
    requires Run(trace, events) && n < |trace| && t in trace[n].store.calls && trace[n].store.calls[t].Loading?
    ensures LoadOf(trace, trace[n].store.calls[t], m, ns, n)
    decreases n
  {
    hide ReadInto, Apply, Enabled;
    var before, e := trace[n - 1], events[n - 1];
    LoadingComesFrom(before, e, t);
    if t in before.store.calls && trace[n].store.calls[t] == before.store.calls[t] {
      m, ns := LoadsReadInOrder(trace, events, n - 1, t);
    } else if e.ReadGeneration? {
      m, ns := n - 1, [];
    } else {
      m, ns := LoadsReadInOrder(trace, events, n - 1, t);
      assert Moments(trace, ns + [n - 1])[..|ns|] == Moments(trace, ns);
      ns := ns + [n - 1];
    }
  }

  lemma {:induction false} SameGroups(a: Admin.Database, b: Admin.Database)
    ensures Groups(a, b.tenants.Keys) == Groups(b, b.tenants.Keys) <==> SamePart(a, b, 1)
    ensures Patterns(a, b.tenants.Keys) == Patterns(b, b.tenants.Keys) <==> SamePart(a, b, 2)
  {
    if Groups(a, b.tenants.Keys) == Groups(b, b.tenants.Keys) {
      forall n | n in b.tenants ensures n in a.tenants && a.tenants[n].groups == b.tenants[n].groups {
        assert n in Groups(b, b.tenants.Keys) && n in Groups(a, b.tenants.Keys);
      }
    }
    if Patterns(a, b.tenants.Keys) == Patterns(b, b.tenants.Keys) {
      forall n | n in b.tenants ensures n in a.tenants && a.tenants[n].projects == b.tenants[n].projects {
        assert n in Patterns(b, b.tenants.Keys) && n in Patterns(a, b.tenants.Keys);
      }
    }
  }

  lemma {:induction false} SameSquadsSameNames(a: Admin.Database, b: Admin.Database)
    requires Squads(a) == Squads(b)
    ensures a.tenants.Keys == b.tenants.Keys
  {
    assert a.tenants.Keys == Squads(a).Keys == Squads(b).Keys == b.tenants.Keys;
  }

  predicate AllSame(dbs: seq<Admin.Database>, db: Admin.Database)
    requires |dbs| == PARTS
  {
    forall k :: 0 <= k < PARTS ==> SamePart(dbs[k], db, k)
  }

  lemma {:induction false} AllSameMeans(dbs: seq<Admin.Database>, db: Admin.Database)
    requires |dbs| == PARTS
    ensures AllSame(dbs, db) <==>
            && Squads(dbs[0]) == Squads(db) && SamePart(dbs[1], db, 1) && SamePart(dbs[2], db, 2)
            && dbs[3].roles == db.roles && dbs[4].connectors == db.connectors
            && dbs[5].settings == db.settings && dbs[6].secrets == db.secrets
  {
    hide Squads;
    if AllSame(dbs, db) {
      assert SamePart(dbs[0], db, 0) && SamePart(dbs[1], db, 1) && SamePart(dbs[2], db, 2) && SamePart(dbs[3], db, 3);
      assert SamePart(dbs[4], db, 4) && SamePart(dbs[5], db, 5) && SamePart(dbs[6], db, 6);
    }
  }

  lemma {:induction false} CompositeIsReadingWhen(dbs: seq<Admin.Database>, db: Admin.Database)
    requires |dbs| == PARTS
    ensures Composite(dbs) == Reading(db, PARTS) <==> AllSame(dbs, db)
  {
    hide Squads, Groups, Patterns, Reading, Composite, AllSame, SamePart;
    SevenSelects(dbs);
    AllSelects(db);
    AllSameMeans(dbs, db);
    SameGroups(dbs[1], db);
    SameGroups(dbs[2], db);
    if Squads(dbs[0]) == Squads(db) {
      SameSquadsSameNames(dbs[0], db);
    }
  }

  /** Exactly when a load is not half seen: the configuration it stores holds the tables of its own label if
      and only if no write changed a table between the reading of the counter and the select of that table. */
  lemma {:induction false} ExactExactlyWhen(trace: seq<Sys>, events: seq<Event>, n: nat) returns (m: nat, ns: seq<nat>)
    requires Run(trace, events) && n < |events| && events[n].Finish?
    ensures m < n && |ns| == PARTS && forall k :: 0 <= k < PARTS ==> m < ns[k] < n
    ensures trace[n + 1].store.snapshot.Some?
    ensures var c := trace[n + 1].store.snapshot.value;
            && c.generation == trace[m].db.generation
            && (c.tables == Reading(trace[m].db, PARTS) <==> AllSame(Moments(trace, ns), trace[m].db))
  {
    hide Reading, Composite, AllSame;
    var t := events[n].t;
    assert Enabled(trace[n], events[n]) && trace[n + 1] == Apply(trace[n], events[n]);
    m, ns := LoadsReadInOrder(trace, events, n, t);
    CompositeIsReadingWhen(Moments(trace, ns), trace[m].db);
  }

  // ── where every configuration comes from ─────────────────────────

  /** Handed out, or ready to be. */
  predicate Known(s: Sys, c: Config) {
    c in s.returned || s.store.snapshot == Some(c) || s.store.current == Some(c)
  }

  lemma {:induction false} KnownComesFrom(s: Sys, e: Event, c: Config)
    requires Enabled(s, e) && Known(Apply(s, e), c)
    ensures Known(s, c) || (e.Finish? && s.store.calls[e.t] == Loading(c.generation, c.tables, PARTS))
  {
    hide ReadInto, Admin.Commit;
  }

  /** Every configuration was loaded: its counter was read at some step, its tables at later ones. */
  lemma {:induction false} KnownWasLoaded(trace: seq<Sys>, events: seq<Event>, n: nat, c: Config)
    returns (m: nat, ns: seq<nat>, f: nat)
    requires Run(trace, events) && n < |trace| && Known(trace[n], c)
    ensures f < n && LoadOf(trace, Loading(c.generation, c.tables, PARTS), m, ns, f)
    decreases n
  {
    hide Apply, LoadOf;
    KnownComesFrom(trace[n - 1], events[n - 1], c);
    if Known(trace[n - 1], c) {
      m, ns, f := KnownWasLoaded(trace, events, n - 1, c);
    } else {
      f := n - 1;
      m, ns := LoadsReadInOrder(trace, events, f, events[f].t);
    }
  }

  /** After a write and an invalidation nothing older is handed out, table by table: whatever is returned later had
      its counter and every one of its tables read after the write. */
  lemma {:induction false} EverySelectFollowsTheWrite(
      trace: seq<Sys>, events: seq<Event>, w: nat, v: nat, n: nat, i: nat)
    returns (m: nat, ns: seq<nat>, f: nat)
    requires Run(trace, events) && w < v < n < |trace| && events[w].Write? && events[v].Invalidate?
    requires trace[w].db.generation < trace[w + 1].db.generation
    requires |trace[v].returned| <= i < |trace[n].returned|
    ensures var c := trace[n].returned[i];
            f < n && LoadOf(trace, Loading(c.generation, c.tables, PARTS), m, ns, f)
    ensures w < m && forall k :: 0 <= k < PARTS ==> w < ns[k]
  {
    hide Apply, Enabled;
    var c := trace[n].returned[i];
    m, ns, f := KnownWasLoaded(trace, events, n, c);
    ReadYourWrites(trace, events, w, v, n, i);
    if m <= w {
      GenerationsRise(trace, events, m, w);
    }
  }

  /** So a configuration that never was can be handed out: a squad narrowed in the same edit from every tool
      on one repository to few tools on all of them is served with every tool on all of them. */
  lemma {:induction false} AConfigurationThatNeverWas(before: Admin.TenantInput, after: Admin.TenantInput)
      returns (es: seq<Event>, s': Sys)
    requires before.name == after.name && before.toolProfile == "all" && after.toolProfile == "scout"
    requires before.ldapGroups != [] && after.ldapGroups == before.ldapGroups
    requires before.projects == ["app"] && after.projects == ["*"]
    ensures var db := Admin.Commit(Admin.EMPTY, [Admin.UpsertTenant(before)]);
            && Leads(Sys(db, Store(None, None, None, map[]), []), es, s')
            && db.tenants.Keys == s'.db.tenants.Keys == {before.name}
            && db.tenants[before.name].profile == "all" && db.tenants[before.name].projects == ["app"]
            && s'.db.tenants[before.name].profile == "scout" && s'.db.tenants[before.name].projects == ["*"]
            && |s'.returned| == 1 && before.name in Assembled(s'.returned[0]).tenants
            && Assembled(s'.returned[0]).tenants[before.name].profile == "all"
            && Assembled(s'.returned[0]).tenants[before.name].projects == ["*"]
  {
    hide Leads, Admin.Transact, Admin.Commit;
    assert Lists.NoDup(before.projects) && Lists.NoDup(after.projects);
    OnlySquad(Admin.EMPTY, before);
    var db := Admin.Commit(Admin.EMPTY, [Admin.UpsertTenant(before)]);
    OnlySquad(db, after);
    es, s' := AWriteDuringALoadIsHalfSeen(db, [Admin.UpsertTenant(after)]);
  }

  lemma {:induction false} OnlySquad(db: Admin.Database, data: Admin.TenantInput)
    requires data.toolProfile in Admin.VALID_PROFILES && data.ldapGroups != [] && data.projects != []
    requires db.tenants.Keys <= {data.name}
    ensures Admin.Transact(db, [Admin.UpsertTenant(data)]).Ok?
    ensures Admin.Commit(db, [Admin.UpsertTenant(data)]).tenants == map[data.name := Admin.RowOf(data)]
  {
    assert [Admin.UpsertTenant(data)][..0] == [];
    assert forall n :: n in db.tenants ==> n == data.name;
    assert !Admin.Clashes(db, data);
    assert db.tenants[data.name := Admin.RowOf(data)] == map[data.name := Admin.RowOf(data)];
  }

  // ── the objects ──────────────────────────────────────────────────

  /** The provider with its store: one method per stretch of code between two awaits. Every database read
      is handed the tables as they are at that moment. */
  class ConfigurationProvider {
    const poll: int
    var checkedAt: int
    var snapshot: Option<Config>
    var current: Option<Config>
    var holder: Option<nat>
    var calls: map<nat, Phase>

    function View(): Store
      reads this
    {
      Store(snapshot, current, holder, calls)
    }

    constructor (poll: int)
      ensures this.poll == poll && View() == Store(None, None, None, map[])
      ensures forall db :: StoreInv(View(), db)
    {
      this.poll := poll;
      checkedAt, snapshot, current, holder, calls := 0, None, None, None, map[];
    }

    method ServeSnapshot(builds: bool) returns (r: Option<Config>)
      requires snapshot.Some?
      modifies this`current
      ensures (View(), r) == Serve(old(View()), builds)
    {
      if current.Some? && current.value.generation == snapshot.value.generation { return current; }
      if !builds { return None; }
      current := snapshot;
      return current;
    }

    method LeaveCall(t: nat)
      modifies this`calls, this`holder
      ensures View() == Leave(old(View()), t)
    {
      calls := calls - {t};
      if holder == Some(t) { holder := None; }
    }

    method Begin(db: Admin.Database, t: nat, now: int, builds: bool) returns (r: Option<Config>)
      requires Enabled(Sys(db, View(), []), Event.Begin(t, now - checkedAt < poll, builds))
      requires StoreInv(View(), db)
      modifies this
      ensures (View(), r) == StoreStep(old(View()), db, Event.Begin(t, now - old(checkedAt) < poll, builds))
      ensures StoreInv(View(), db)
      ensures checkedAt == old(checkedAt)
    {
      if snapshot.Some? && now - checkedAt < poll {
        r := ServeSnapshot(builds);
      } else {
        calls := calls[t := Waiting];
        r := None;
      }
    }

    method Acquire(db: Admin.Database, t: nat, now: int, builds: bool) returns (r: Option<Config>)
      requires Enabled(Sys(db, View(), []), Event.Acquire(t, now - checkedAt < poll, builds))
      requires StoreInv(View(), db)
      modifies this
      ensures (View(), r) == StoreStep(old(View()), db, Event.Acquire(t, now - old(checkedAt) < poll, builds))
      ensures StoreInv(View(), db)
      ensures checkedAt == old(checkedAt)
    {
      if snapshot.Some? && now - checkedAt < poll {
        LeaveCall(t);
        r := ServeSnapshot(builds);
      } else {
        calls, holder := calls[t := Checking], Some(t);
        r := None;
      }
    }

    method ReadGeneration(db: Admin.Database, t: nat, now: int, builds: bool) returns (r: Option<Config>)
      requires Enabled(Sys(db, View(), []), Event.ReadGeneration(t, builds))
      requires StoreInv(View(), db)
      modifies this
      ensures (View(), r) == StoreStep(old(View()), db, Event.ReadGeneration(t, builds))
      ensures StoreInv(View(), db)
      ensures checkedAt == now
    {
      var generation := db.generation;
      checkedAt := now;
      if snapshot.Some? && snapshot.value.generation == generation {
        LeaveCall(t);
        r := ServeSnapshot(builds);
      } else {
        calls := calls[t := Loading(generation, NOTHING, 0)];
        r := None;
      }
    }

    method ReadTable(db: Admin.Database, t: nat)
      requires Enabled(Sys(db, View(), []), Event.ReadTable(t))
      requires StoreInv(View(), db)
      modifies this`calls
      ensures (View(), None) == StoreStep(old(View()), db, Event.ReadTable(t))
      ensures StoreInv(View(), db)
    {
      var c := calls[t];
      calls := calls[t := Loading(c.generation, ReadInto(c.tables, db, c.done), c.done + 1)];
    }

    method Finish(db: Admin.Database, t: nat, builds: bool) returns (r: Option<Config>)
      requires Enabled(Sys(db, View(), []), Event.Finish(t, builds))
      requires StoreInv(View(), db)
      modifies this
      ensures (View(), r) == StoreStep(old(View()), db, Event.Finish(t, builds))
      ensures StoreInv(View(), db)
      ensures checkedAt == old(checkedAt)
    {
      var c := calls[t];
      snapshot := Some(Config(c.generation, c.tables));
      LeaveCall(t);
      r := ServeSnapshot(builds);
    }

    method BeginInvalidate(db: Admin.Database, t: nat)
      requires Enabled(Sys(db, View(), []), Event.BeginInvalidate(t))
      requires StoreInv(View(), db)
      modifies this`calls
      ensures (View(), None) == StoreStep(old(View()), db, Event.BeginInvalidate(t))
      ensures StoreInv(View(), db)
    {
      calls := calls[t := WaitingToInvalidate];
    }

    method Invalidate(db: Admin.Database, t: nat)
      requires Enabled(Sys(db, View(), []), Event.Invalidate(t))
      requires StoreInv(View(), db)
      modifies this
      ensures (View(), None) == StoreStep(old(View()), db, Event.Invalidate(t))
      ensures StoreInv(View(), db)
    {
      snapshot, checkedAt := None, 0;
      LeaveCall(t);
      current := None;
    }
  }
}
