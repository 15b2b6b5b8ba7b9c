/** From an administrator's write to the gateway's decision: the tables, the cached configuration read out of
    them, the strict loader and the choice of squad, together. */
module Runtime {
  import opened Wrappers
  import opened Registry
  import Admin
  import Authorization
  import C = ConfigStore
  import Documents

  /** In a run that starts on an empty database the tables are always those of some history of transactions. */
  lemma {:induction false} TablesHaveAHistory(trace: seq<C.Sys>, events: seq<C.Event>, n: nat)
    returns (history: seq<seq<Admin.Op>>)
    requires C.Run(trace, events) && n < |trace| && trace[0].db == Admin.EMPTY
    ensures trace[n].db == Admin.History(Admin.EMPTY, history)
    decreases n
  {
    hide Admin.Commit, C.StoreStep;
    if n == 0 {
      history := [];
    } else {
      var before := TablesHaveAHistory(trace, events, n - 1);
      history := before;
      assert trace[n] == C.Apply(trace[n - 1], events[n - 1]);
      if events[n - 1].Write? {
        history := before + [events[n - 1].ops];
        assert history[..|before|] == before;
      }
    }
  }

  /** Whatever writes, checks, loads, failures and invalidations came before: a configuration whose label is
      the tables' generation builds without an error into the registry the tables describe. */
  lemma {:induction false} CurrentConfigurationsBuild(
      trace: seq<C.Sys>, events: seq<C.Event>, n: nat, c: C.Config, names: seq<string>,
          assignments: seq<(string, string)>)
    requires C.Run(trace, events) && n < |trace| && trace[0].db == Admin.EMPTY
    requires c in trace[n].returned && c.generation == trace[n].db.generation
    requires Documents.Enumerates(C.Assembled(c), names) && Documents.EnumeratesRoles(C.Assembled(c), assignments)
    ensures C.Assembled(c) == trace[n].db
    ensures var loaded := Loaded(Documents.TenantsDocument(Documents.RowsOf(C.Assembled(c), names), assignments));
            loaded.Ok? && Documents.Describes(loaded.value, trace[n].db)
  {
    hide C.Assembled, C.Run, Admin.History, Documents.Describes, Documents.TenantsDocument;
    var history := TablesHaveAHistory(trace, events, n);
    C.CurrentLabelMeansCurrentTables(trace, events, n, c);
    Documents.EveryReachableConfigurationLoads(history, names, assignments);
  }

  /** A squad switched off or taken from a group is closed to that group's callers as soon as the write and an
      invalidation after it are done: every later decision on a configuration that is still current follows the
      tables as they stand, and none is made on a configuration older than the write: its counter and each of its
      tables were read after a write that took effect. */
  lemma {:induction false} DecisionsFollowTheWrite(
      trace: seq<C.Sys>, events: seq<C.Event>, w: nat, v: nat, n: nat, i: nat,
      names: seq<string>, assignments: seq<(string, string)>, groups: set<string>, requested: string)
    returns (m: nat, ns: seq<nat>, f: nat)
    requires C.Run(trace, events) && w < v < n < |trace| && trace[0].db == Admin.EMPTY
    requires events[w].Write? && events[v].Invalidate? && |trace[v].returned| <= i < |trace[n].returned|
    requires Documents.Enumerates(trace[n].db, names) && Documents.EnumeratesRoles(trace[n].db, assignments)
    requires requested != ""
    ensures var c, db := trace[n].returned[i], trace[n].db;
            && trace[w + 1].db.generation <= c.generation <= db.generation
            && f < n && C.LoadOf(trace, C.Loading(c.generation, c.tables, C.PARTS), m, ns, f)
            && (trace[w].db.generation < trace[w + 1].db.generation ==> w < m && forall k :: 0 <= k < C.PARTS ==>
                w < ns[k])
            && (c.generation == db.generation ==>
                  && C.Assembled(c) == db
                  && var loaded := Loaded(Documents.TenantsDocument(Documents.RowsOf(db, names), assignments));
                  && loaded.Ok?
                  && (Authorization.SelectTenant(loaded.value, groups, requested).Ok? <==>
                        && requested in db.tenants && db.tenants[requested].enabled
                        && exists g :: g in groups && g in db.tenants[requested].groups))
  {
    hide C.Assembled, C.Run, Admin.History, Authorization.SelectTenant, Documents.TenantsDocument, C.LoadOf;
    var history := TablesHaveAHistory(trace, events, n);
    C.ReadYourWrites(trace, events, w, v, n, i);
    C.CurrentLabelMeansCurrentTables(trace, events, n, trace[n].returned[i]);
    Authorization.AccessFollowsTheTables(history, names, assignments, groups, requested);
    if trace[w].db.generation < trace[w + 1].db.generation {
      m, ns, f := C.EverySelectFollowsTheWrite(trace, events, w, v, n, i);
    } else {
      m, ns, f := C.KnownWasLoaded(trace, events, n, trace[n].returned[i]);
    }
  }
}
