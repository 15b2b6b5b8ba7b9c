/** The indexing queue and the answer cache together: how old a recalled answer can be.
    Workers index and record epochs while gateway calls look up, read the graph, and file answers;
    every suspension point is a step, and steps interleave freely. */
module Freshness {
  import opened Wrappers
  import opened CacheLibrary
  import Q = IndexQueue
  import C = AnswerCache
  import QuestionForm

  type Project = (string, string)

  function ProjectOf(job: Q.IndexJob): Project { (job.binding.tenant, job.binding.project) }

  /** Where a gateway call is suspended. Step numbers say when it read what it holds. */
  datatype Call =
    | LookingUp(project: Project, epoch: nat, begunAt: nat)
    | Answered(project: Project, readAt: nat)
    | Filing(project: Project, readAt: nat, epoch: nat, keyedAt: nat)

  /** When a filed answer's graph was read, and when the epoch it is filed under was read. */
  datatype Origin = Origin(readAt: nat, keyedAt: nat)

  datatype Sys = Sys(
    step: nat,
    queue: Q.State,
    graph: map<Project, nat>,      // successful index runs: the version of each project's graph
    lost: map<Project, nat>,       // successful index runs whose epoch was not recorded
    db: C.Db,
    calls: map<nat, Call>,
    origins: map<nat, Origin>)     // by cache row id

  datatype Event =
    | Worker(e: Q.Event, recorded: bool, now: int)   // a queue step; `recorded` matters to FinishRecord
    | BeginLookup(c: nat, project: Project)          // the gateway reads the current epoch
    | Lookup(c: nat, order: seq<C.Entry>, now: int, q: C.Query)
    | ReadGraph(c: nat, project: Project)            // the answer is computed from the graph as it is
    | KeyAnswer(c: nat)                              // the epoch is read again, to file the answer under
    | File(c: nat, lib: Library, tool: string, answer: C.Answer, now: int)
    | Sweep(now: int, ttl: int)

  function At(m: map<Project, nat>, p: Project): nat { if p in m then m[p] else 0 }

  function Epoch(s: Sys, p: Project): nat { C.CurrentEpoch(s.db, p.0, p.1) }

  function Graph(s: Sys, p: Project): nat { At(s.graph, p) }

  function Lost(s: Sys, p: Project): nat { At(s.lost, p) }

  predicate Records(s: Sys, w: nat, p: Project) {
    w < |s.queue.workers| && s.queue.workers[w].Recording? && ProjectOf(s.queue.workers[w].job) == p
  }

  /** Some worker is between the end of an index run of `p` and the record of its epoch, lock held. */
  ghost predicate BeingRecorded(s: Sys, p: Project) { exists w :: Records(s, w, p) }

  ghost function Recording(s: Sys, p: Project): nat { if BeingRecorded(s, p) then 1 else 0 }

  // ── steps ────────────────────────────────────────────────────────

  ghost predicate Enabled(s: Sys, e: Event) {
    match e
    case Worker(qe, _, _) => Q.Enabled(s.queue, qe)
    case BeginLookup(c, _) => c !in s.calls
    case Lookup(c, order, _, q) =>
      && c in s.calls && s.calls[c].LookingUp?
      && (q.key.tenant, q.key.project) == s.calls[c].project && q.key.epoch == s.calls[c].epoch
      && C.CandidateOrder(order, s.db, q)
    case ReadGraph(c, _) => c !in s.calls
    case KeyAnswer(c) => c in s.calls && s.calls[c].Answered?
    case File(c, _, _, _, _) => c in s.calls && s.calls[c].Filing?
    case Sweep(_, _) => true
  }

  function Indexed(s: Sys, e: Q.Event): map<Project, nat>
    requires Q.Enabled(s.queue, e)
  {
    if e.FinishIndex? && e.outcome.Returned? && e.outcome.ok then
      var p := ProjectOf(s.queue.workers[e.w].job);
      s.graph[p := At(s.graph, p) + 1]
    else s.graph
  }

  function Commit(job: Q.IndexJob): Option<string> { if job.sha == "" then None else Some(job.sha) }

  function AfterWorker(s: Sys, e: Q.Event, recorded: bool, now: int): Sys
    requires Q.Enabled(s.queue, e)
  {
    var next := s.(queue := Q.Apply(s.queue, e), graph := Indexed(s, e));
    if e.FinishRecord? then
      var job := s.queue.workers[e.w].job;
      var p := ProjectOf(job);
      if recorded then next.(db := C.BumpIn(s.db, p.0, p.1, Commit(job), now))
      else next.(lost := s.lost[p := At(s.lost, p) + 1])
    else next
  }

  function Key(project: Project, tool: string, epoch: nat): C.CacheKey {
    C.CacheKey(project.0, project.1, tool, epoch)
  }

  ghost function Apply(s: Sys, e: Event): Sys
    requires Enabled(s, e)
  {
    var next := match e {
      case Worker(qe, recorded, now) => AfterWorker(s, qe, recorded, now)
      case BeginLookup(c, p) => s.(calls := s.calls[c := LookingUp(p, Epoch(s, p), s.step)])
      case Lookup(c, order, now, q) => s.(db := C.LookupIn(s.db, order, now, q).1)
      case ReadGraph(c, p) => s.(calls := s.calls[c := Answered(p, s.step)])
      case KeyAnswer(c) =>
        var call := s.calls[c];
        s.(calls := s.calls[c := Filing(call.project, call.readAt, Epoch(s, call.project), s.step)])
      case File(c, lib, tool, answer, now) =>
        var call := s.calls[c];
        s.(db := C.StoreIn(lib, s.db, Key(call.project, tool, call.epoch), answer, now),
           origins := s.origins[s.db.nextId := Origin(call.readAt, call.keyedAt)],
           calls := s.calls - {c})
      case Sweep(now, ttl) => s.(db := C.Sweep(s.db, now, ttl))
    };
    next.(step := s.step + 1)
  }

  ghost predicate Step(s: Sys, e: Event, s': Sys) { Enabled(s, e) && s' == Apply(s, e) }

  predicate Init(s: Sys) {
    && s.step == 0 && s.graph == map[] && s.lost == map[] && s.calls == map[] && s.origins == map[]
    && s.db == C.Db([], map[], 0) && s.queue == Q.Init(|s.queue.workers|)
  }

  /** A run: states and the steps between them. */
  ghost predicate Run(trace: seq<Sys>, events: seq<Event>) {
    && |trace| == |events| + 1 && Init(trace[0])
    && forall i :: 0 <= i < |events| ==> Enabled(trace[i], events[i]) && trace[i + 1] == Apply(trace[i], events[i])
  }

  // ── what every state of a run keeps ──────────────────────────────

  /** Every successful index run is recorded, lost, or being recorded under its lock right now. */
  ghost predicate GraphAccounted(s: Sys) {
    forall p :: Graph(s, p) == Epoch(s, p) + Lost(s, p) + Recording(s, p)
  }

  ghost predicate StateInv(s: Sys) {
    Q.Inv(s.queue) && C.Valid(s.db) && GraphAccounted(s)
  }

  /** At most one worker records a project, because recording happens inside the project's lock. */
  lemma {:induction false} OneHolder(s: Sys, v: nat, w: nat)
    requires Q.Exclusive(s.queue)
    requires v < |s.queue.workers| && w < |s.queue.workers| && s.queue.workers[v].Holds() && s.queue.workers[w].Holds()
    requires ProjectOf(s.queue.workers[v].job) == ProjectOf(s.queue.workers[w].job)
    ensures v == w
  {
    assert s.queue.workers[v].job.Key() == s.queue.workers[w].job.Key();
  }

  lemma {:induction false} RecordingMoves(s: Sys, e: Q.Event, recorded: bool, now: int, p: Project)
    requires Q.Exclusive(s.queue) && Q.Enabled(s.queue, e)
    ensures var s' := AfterWorker(s, e, recorded, now);
            Recording(s', p) ==
            if e.FinishIndex? && e.outcome.Returned? && e.outcome.ok && ProjectOf(s.queue.workers[e.w].job) == p then 1
            else if e.FinishRecord? && ProjectOf(s.queue.workers[e.w].job) == p then 0
            else Recording(s, p)
    ensures e.FinishIndex? && ProjectOf(s.queue.workers[e.w].job) == p ==> Recording(s, p) == 0
    ensures e.FinishRecord? && ProjectOf(s.queue.workers[e.w].job) == p ==> Recording(s, p) == 1
  {
    var s' := AfterWorker(s, e, recorded, now);
    forall v | Records(s, v, p) && !e.Enqueue? && v != e.w ensures Records(s', v, p) {}
    forall v | Records(s', v, p) && !e.Enqueue? && v != e.w ensures Records(s, v, p) {}
    if !e.Enqueue? && (e.FinishIndex? || e.FinishRecord?) && ProjectOf(s.queue.workers[e.w].job) == p {
      forall v | Records(s, v, p) ensures v == e.w { OneHolder(s, v, e.w); }
      assert e.FinishRecord? ==> Records(s, e.w, p);
      assert e.FinishIndex? && e.outcome.Returned? && e.outcome.ok ==> Records(s', e.w, p);
    } else {
      forall v | Records(s, v, p) ensures Records(s', v, p) {}
      forall v | Records(s', v, p) ensures Records(s, v, p) {}
    }
  }

  lemma {:induction false} WorkerKeepsAccount(s: Sys, e: Q.Event, recorded: bool, now: int)
    requires Q.Exclusive(s.queue) && GraphAccounted(s) && Q.Enabled(s.queue, e)
    ensures GraphAccounted(AfterWorker(s, e, recorded, now))
  {
    var s' := AfterWorker(s, e, recorded, now);
    forall p ensures Graph(s', p) == Epoch(s', p) + Lost(s', p) + Recording(s', p) {
      RecordingMoves(s, e, recorded, now, p);
      if e.FinishRecord? && recorded {
        var job := s.queue.workers[e.w].job;
        var r := ProjectOf(job);
        C.BumpMovesOneEpoch(s.db, r.0, r.1, Commit(job), now, p.0, p.1);
      }
    }
  }

  /** A step that leaves the queue, the graphs and the epochs alone keeps the account. */
  lemma SameAccount(s: Sys, s': Sys)
    requires GraphAccounted(s)
    requires s'.queue == s.queue && s'.graph == s.graph && s'.lost == s.lost && s'.db.states == s.db.states
    ensures GraphAccounted(s')
  {
    forall p ensures Recording(s', p) == Recording(s, p) && Epoch(s', p) == Epoch(s, p) {
      assert forall w :: Records(s', w, p) <==> Records(s, w, p);
    }
  }

  lemma {:induction false} SweepKeepsTables(db: C.Db, now: int, ttl: int)
    requires C.Valid(db)
    ensures var db' := C.Sweep(db, now, ttl);
            C.Valid(db') && db'.states == db.states && db'.nextId == db.nextId && (C.NotAhead(db) ==> C.NotAhead(db'))
    ensures forall e :: e in C.Sweep(db, now, ttl).entries ==> e in db.entries
  {
    C.PurgeKeepsValid(db, C.IsCurrent(db.states));
    C.KeepMembers(db.entries, C.IsCurrent(db.states));
    if ttl > 0 {
      C.PurgeKeepsValid(C.WithoutSuperseded(db), C.IsFresh(Some(now - ttl)));
      C.KeepMembers(C.WithoutSuperseded(db).entries, C.IsFresh(Some(now - ttl)));
    }
  }

  lemma {:induction false} StepKeepsTables(s: Sys, e: Event)
    requires C.Valid(s.db) && Enabled(s, e)
    ensures C.Valid(Apply(s, e).db)
  {
    match e
    case Worker(qe, recorded, now) =>
      if qe.FinishRecord? {
        var job := s.queue.workers[qe.w].job;
        var p := ProjectOf(job);
        C.BumpMovesOneEpoch(s.db, p.0, p.1, Commit(job), now, p.0, p.1);
      }
    case Lookup(_, order, now, q) => C.LookupKeepsValid(s.db, order, now, q);
    case File(c, lib, tool, answer, now) =>
      C.StoreKeepsValid(lib, s.db, Key(s.calls[c].project, tool, s.calls[c].epoch), answer, now);
    case Sweep(now, ttl) => SweepKeepsTables(s.db, now, ttl);
    case _ =>
  }

  lemma {:induction false} StepKeepsInv(s: Sys, e: Event)
    requires StateInv(s) && Enabled(s, e)
    ensures StateInv(Apply(s, e))
  {
    StepKeepsTables(s, e);
    if e.Worker? {
      Q.StepKeepsInv(s.queue, e.e);
      WorkerKeepsAccount(s, e.e, e.recorded, e.now);
      SameAccount(AfterWorker(s, e.e, e.recorded, e.now), Apply(s, e));
    } else {
      if e.Sweep? { SweepKeepsTables(s.db, e.now, e.ttl); }
      SameAccount(s, Apply(s, e));
    }
  }

  lemma {:induction false} RunKeepsInv(trace: seq<Sys>, events: seq<Event>, n: nat)
    requires Run(trace, events) && n < |trace|
    ensures StateInv(trace[n]) && trace[n].step == n
  {
    if n == 0 {
      Q.InitInv(|trace[0].queue.workers|);
      assert forall p, w :: !Records(trace[0], w, p);
    } else {
      RunKeepsInv(trace, events, n - 1);
      StepKeepsInv(trace[n - 1], events[n - 1]);
    }
  }

  // ── epochs over a run ────────────────────────────────────────────

  lemma {:induction false} StepEpochGrows(s: Sys, e: Event, p: Project)
    requires C.Valid(s.db) && Enabled(s, e)
    ensures Epoch(s, p) <= Epoch(Apply(s, e), p)
  {
    match e
    case Worker(qe, recorded, now) =>
      if qe.FinishRecord? {
        var job := s.queue.workers[qe.w].job;
        var r := ProjectOf(job);
        C.BumpMovesOneEpoch(s.db, r.0, r.1, Commit(job), now, p.0, p.1);
      }
    case Sweep(now, ttl) => SweepKeepsTables(s.db, now, ttl);
    case _ =>
  }

  ghost predicate EpochsGrow(trace: seq<Sys>, p: Project) {
    forall j :: 0 < j < |trace| ==> Epoch(trace[j - 1], p) <= Epoch(trace[j], p)
  }

  lemma {:induction false} RunEpochsGrow(trace: seq<Sys>, events: seq<Event>, p: Project)
    requires Run(trace, events)
    ensures EpochsGrow(trace, p)
  {
    forall j | 0 < j < |trace| ensures Epoch(trace[j - 1], p) <= Epoch(trace[j], p) {
      RunKeepsInv(trace, events, j - 1);
      StepEpochGrows(trace[j - 1], events[j - 1], p);
    }
  }

  lemma {:induction false} GrowingNeverFalls(trace: seq<Sys>, i: nat, j: nat, p: Project)
    requires EpochsGrow(trace, p) && i <= j < |trace|
    ensures Epoch(trace[i], p) <= Epoch(trace[j], p)
    decreases j
  {
    if i < j {
      GrowingNeverFalls(trace, i, j - 1, p);
    }
  }

  lemma {:induction false} EpochNeverFalls(trace: seq<Sys>, events: seq<Event>, i: nat, j: nat, p: Project)
    requires Run(trace, events) && i <= j < |trace|
    ensures Epoch(trace[i], p) <= Epoch(trace[j], p)
  {
    RunEpochsGrow(trace, events, p);
    GrowingNeverFalls(trace, i, j, p);
  }

  // ── what calls and rows remember ─────────────────────────────────

  ghost predicate CallTrue(trace: seq<Sys>, n: nat, call: Call) {
    match call
    case LookingUp(p, epoch, begunAt) => begunAt <= n < |trace| && epoch == Epoch(trace[begunAt], p)
    case Answered(p, readAt) => readAt <= n
    case Filing(p, readAt, epoch, keyedAt) => readAt <= keyedAt <= n < |trace| && epoch == Epoch(trace[keyedAt], p)
  }

  ghost predicate CallsTrue(trace: seq<Sys>, n: nat)
    requires n < |trace|
  {
    forall c :: c in trace[n].calls ==> CallTrue(trace, n, trace[n].calls[c])
  }

  function RowProject(e: C.Entry): Project { (e.key.tenant, e.key.project) }

  ghost predicate RowTrue(trace: seq<Sys>, n: nat, e: C.Entry)
    requires n < |trace|
  {
    && e.id in trace[n].origins
    && var o := trace[n].origins[e.id];
       o.readAt <= o.keyedAt <= n && e.key.epoch == Epoch(trace[o.keyedAt], RowProject(e))
  }

  ghost predicate RowsTrue(trace: seq<Sys>, n: nat)
    requires n < |trace|
  {
    forall i :: 0 <= i < |trace[n].db.entries| ==> RowTrue(trace, n, trace[n].db.entries[i])
  }

  /** A call of the next state is a call of this one, or took its step now. */
  lemma CallsComeFrom(s: Sys, e: Event, c: nat)
    requires Enabled(s, e) && c in Apply(s, e).calls
    ensures var call := Apply(s, e).calls[c];
            || (c in s.calls && call == s.calls[c])
            || (e.BeginLookup? && call == LookingUp(e.project, Epoch(s, e.project), s.step))
            || (e.ReadGraph? && call == Answered(e.project, s.step))
            || (e.KeyAnswer? && c in s.calls && s.calls[c].Answered? &&
                var before := s.calls[c];
                call == Filing(before.project, before.readAt, Epoch(s, before.project), s.step))
  {
  }

  lemma {:induction false} CallsStayTrue(trace: seq<Sys>, events: seq<Event>, n: nat)
    requires Run(trace, events) && n < |events| && CallsTrue(trace, n) && trace[n].step == n
    ensures CallsTrue(trace, n + 1)
  {
    var s, after := trace[n], trace[n + 1].calls;
    forall c | c in after ensures CallTrue(trace, n + 1, after[c]) {
      CallsComeFrom(s, events[n], c);
      if c in s.calls {
        assert CallTrue(trace, n, s.calls[c]);
      }
    }
  }

  predicate HasRow(rows: seq<C.Entry>, row: C.Entry) {
    exists j :: 0 <= j < |rows| && rows[j].id == row.id && rows[j].key == row.key
  }

  lemma {:induction false} MemberHasRow(rows: seq<C.Entry>, row: C.Entry)
    requires row in rows
    ensures HasRow(rows, row)
  {
    var j :| 0 <= j < |rows| && rows[j] == row;
    assert rows[j].id == row.id;
  }

  lemma {:induction false} FiledRowsComeFrom(
    db: C.Db, lib: Library, key: C.CacheKey, answer: C.Answer, now: int, i: nat)
    requires i < |C.StoreIn(lib, db, key, answer, now).entries|
    ensures var row := C.StoreIn(lib, db, key, answer, now).entries[i];
            HasRow(db.entries, row) || (row.id == db.nextId && row.key == key)
  {
    var p := C.LacksExactKey(key, QuestionForm.QuestionHash(lib, answer.question));
    var kept := C.Keep(db.entries, p);
    C.KeepMembers(db.entries, p);
    if i < |kept| {
      assert kept[i] in kept;
      MemberHasRow(db.entries, kept[i]);
    }
  }

  /** A row of the next state is a row of this one, hits aside, or the one just filed. */
  lemma {:induction false} RowsComeFrom(s: Sys, e: Event, i: nat)
    requires C.Valid(s.db) && Enabled(s, e) && i < |Apply(s, e).db.entries|
    ensures var row := Apply(s, e).db.entries[i];
            || HasRow(s.db.entries, row)
            || (e.File? && row.id == s.db.nextId && row.key == Key(s.calls[e.c].project, e.tool, s.calls[e.c].epoch))
  {
    hide C.StoreIn, C.Sweep, C.Valid, C.Find, C.BumpIn, C.CandidateOrder;
    var rows := Apply(s, e).db.entries;
    match e
    case Lookup(_, order, now, q) =>
      assert s.db.entries[i].id == rows[i].id;
    case File(c, lib, tool, answer, now) =>
      FiledRowsComeFrom(s.db, lib, Key(s.calls[c].project, tool, s.calls[c].epoch), answer, now, i);
    case Sweep(now, ttl) =>
      SweepKeepsTables(s.db, now, ttl);
      assert rows[i] in rows;
      MemberHasRow(s.db.entries, rows[i]);
    case Worker(qe, recorded, now) =>
      WorkersLeaveRows(s, qe, recorded, now);
      MemberHasRow(s.db.entries, rows[i]);
    case _ =>
      MemberHasRow(s.db.entries, rows[i]);
  }

  lemma {:induction false} WorkersLeaveRows(s: Sys, qe: Q.Event, recorded: bool, now: int)
    requires Q.Enabled(s.queue, qe)
    ensures AfterWorker(s, qe, recorded, now).db.entries == s.db.entries
  {
  }

  lemma {:induction false} OriginsStay(s: Sys, e: Event, id: nat)
    requires Enabled(s, e) && id in s.origins && id < s.db.nextId
    ensures id in Apply(s, e).origins && Apply(s, e).origins[id] == s.origins[id]
  {
  }

  lemma {:induction false} OldRowsStayTrue(trace: seq<Sys>, events: seq<Event>, n: nat, j: nat, row: C.Entry)
    requires Run(trace, events) && n < |events| && RowsTrue(trace, n) && C.Valid(trace[n].db)
    requires j < |trace[n].db.entries|
    requires trace[n].db.entries[j].id == row.id && trace[n].db.entries[j].key == row.key
    ensures RowTrue(trace, n + 1, row)
  {
    hide Enabled, Apply;
    assert RowTrue(trace, n, trace[n].db.entries[j]);
    assert trace[n].db.entries[j].id < trace[n].db.nextId;
    OriginsStay(trace[n], events[n], row.id);
  }

  lemma {:induction false} NewRowIsTrue(trace: seq<Sys>, events: seq<Event>, n: nat, row: C.Entry)
    requires Run(trace, events) && n < |events| && CallsTrue(trace, n) && events[n].File?
    requires row.id == trace[n].db.nextId
    requires var call := trace[n].calls[events[n].c];
             row.key == Key(call.project, events[n].tool, call.epoch)
    ensures RowTrue(trace, n + 1, row)
  {
    assert CallTrue(trace, n, trace[n].calls[events[n].c]);
  }

  lemma {:induction false} RowsStayTrue(trace: seq<Sys>, events: seq<Event>, n: nat)
    requires Run(trace, events) && n < |events| && CallsTrue(trace, n) && RowsTrue(trace, n) && C.Valid(trace[n].db)
    ensures RowsTrue(trace, n + 1)
  {
    hide Enabled, Apply, RowTrue, CallTrue, C.Valid;
    var s, rows := trace[n], trace[n + 1].db.entries;
    forall i | 0 <= i < |rows| ensures RowTrue(trace, n + 1, rows[i]) {
      RowsComeFrom(s, events[n], i);
      if j :| 0 <= j < |s.db.entries| && s.db.entries[j].id == rows[i].id && s.db.entries[j].key == rows[i].key {
        OldRowsStayTrue(trace, events, n, j, rows[i]);
      } else {
        NewRowIsTrue(trace, events, n, rows[i]);
      }
    }
  }

  lemma {:induction false} RunRemembers(trace: seq<Sys>, events: seq<Event>, n: nat)
    requires Run(trace, events) && n < |trace|
    ensures CallsTrue(trace, n) && RowsTrue(trace, n)
  {
    if n > 0 {
      RunKeepsInv(trace, events, n - 1);
      RunRemembers(trace, events, n - 1);
      CallsStayTrue(trace, events, n - 1);
      RowsStayTrue(trace, events, n - 1);
    }
  }

  /** In every run no answer is filed under an epoch its project has not reached. */
  lemma {:induction false} NoRowIsAhead(trace: seq<Sys>, events: seq<Event>, n: nat)
    requires Run(trace, events) && n < |trace|
    ensures C.NotAhead(trace[n].db)
  {
    RunRemembers(trace, events, n);
    forall i | 0 <= i < |trace[n].db.entries|
      ensures trace[n].db.entries[i].key.epoch <= Epoch(trace[n], RowProject(trace[n].db.entries[i]))
    {
      var row := trace[n].db.entries[i];
      assert RowTrue(trace, n, row);
      EpochNeverFalls(trace, events, trace[n].origins[row.id].keyedAt, n, RowProject(row));
    }
  }

  // ── how old a recalled answer is ─────────────────────────────────

  /** The answer a lookup step recalls, if any. */
  function Recalled(s: Sys, e: Event): Option<C.Entry>
    requires e.Lookup?
  {
    var found := C.Find(s.db, e.order, e.now, e.q);
    if found.Exact? || found.Semantic? then Some(found.entry) else None
  }

  /** No recorded reindex lies between filing an answer and recalling it: the epoch is the same at the two
      reads, and at every step between them, whichever came first. */
  lemma {:induction false} NoReindexBetween(trace: seq<Sys>, events: seq<Event>, n: nat, i: nat)
    requires Run(trace, events) && n < |events| && events[n].Lookup? && Recalled(trace[n], events[n]).Some?
    ensures var row, call := Recalled(trace[n], events[n]).value, trace[n].calls[events[n].c];
            && row.id in trace[n].origins && call.LookingUp? && RowProject(row) == call.project
            && var keyedAt, begunAt := trace[n].origins[row.id].keyedAt, call.begunAt;
               && keyedAt <= n && begunAt <= n
               && (keyedAt <= i <= begunAt || begunAt <= i <= keyedAt || i == begunAt || i == keyedAt ==>
                     Epoch(trace[i], call.project) == row.key.epoch)
  {
    var e := events[n];
    RunKeepsInv(trace, events, n);
    RunRemembers(trace, events, n);
    C.FoundRowIsStored(trace[n].db, e.order, e.now, e.q);
    var row, call := Recalled(trace[n], e).value, trace[n].calls[e.c];
    var j :| 0 <= j < |trace[n].db.entries| && trace[n].db.entries[j] == row;
    assert RowTrue(trace, n, trace[n].db.entries[j]);
    assert CallTrue(trace, n, call);
    var keyedAt, begunAt := trace[n].origins[row.id].keyedAt, call.begunAt;
    var lo, hi := if keyedAt <= begunAt then keyedAt else begunAt, if keyedAt <= begunAt then begunAt else keyedAt;
    if lo <= i <= hi {
      EpochNeverFalls(trace, events, lo, i, call.project);
      EpochNeverFalls(trace, events, i, hi, call.project);
    }
  }

  /** What the sweep drops is out of reach for good: a row that is superseded at some step is recalled by no
      lookup whose epoch was read at that step or later, whether or not a sweep has dropped it. */
  lemma {:induction false} SupersededRowsStayOutOfReach(trace: seq<Sys>, events: seq<Event>, m: nat, n: nat)
    requires Run(trace, events) && n < |events| && events[n].Lookup? && Recalled(trace[n], events[n]).Some?
    ensures events[n].c in trace[n].calls && trace[n].calls[events[n].c].LookingUp?
    ensures trace[n].calls[events[n].c].begunAt <= n
    ensures m <= trace[n].calls[events[n].c].begunAt ==>
              !C.Superseded(trace[m].db.states, Recalled(trace[n], events[n]).value)
  {
    var begunAt := trace[n].calls[events[n].c].begunAt;
    hide Apply, C.Find;
    NoReindexBetween(trace, events, n, begunAt);
    if m <= begunAt {
      EpochNeverFalls(trace, events, m, begunAt, trace[n].calls[events[n].c].project);
    }
  }

  /** Exactly how many index runs a recalled answer is behind the graph at any step of the run, the step of
      the hit among them: the epochs recorded between reading the graph and keying the answer, plus those
      recorded since the caller read the epoch, plus the records lost since the graph was read, plus the run
      being recorded now, less one that was being recorded then. */
  lemma {:induction false} LagOfRecalledAnswer(trace: seq<Sys>, events: seq<Event>, n: nat, i: nat)
    requires Run(trace, events) && n < |events| && events[n].Lookup? && Recalled(trace[n], events[n]).Some?
    requires i < |trace|
    ensures var row, call := Recalled(trace[n], events[n]).value, trace[n].calls[events[n].c];
            && row.id in trace[n].origins && call.LookingUp?
            && var o, p := trace[n].origins[row.id], call.project;
               && o.readAt <= n && o.keyedAt <= n && call.begunAt <= n
               && var then0, keyed, asked := trace[o.readAt], trace[o.keyedAt], trace[call.begunAt];
                  Graph(trace[i], p) - Graph(then0, p) ==
                  (Epoch(keyed, p) - Epoch(then0, p)) + (Epoch(trace[i], p) - Epoch(asked, p)) +
                  (Lost(trace[i], p) - Lost(then0, p)) + (Recording(trace[i], p) - Recording(then0, p))
  {
    hide Apply, C.Find, Recording, Graph, Lost, Epoch;
    var row, call := Recalled(trace[n], events[n]).value, trace[n].calls[events[n].c];
    NoReindexBetween(trace, events, n, call.begunAt);
    var o := trace[n].origins[row.id];
    RecalledRowIsTrue(trace, events, n);
    NoReindexBetween(trace, events, n, o.keyedAt);
    GraphIsAccounted(trace, events, o.readAt, call.project);
    GraphIsAccounted(trace, events, i, call.project);
  }

  lemma {:induction false} RecalledRowIsTrue(trace: seq<Sys>, events: seq<Event>, n: nat)
    requires Run(trace, events) && n < |events| && events[n].Lookup? && Recalled(trace[n], events[n]).Some?
    ensures RowTrue(trace, n, Recalled(trace[n], events[n]).value)
  {
    hide Apply, RowTrue;
    var row := Recalled(trace[n], events[n]).value;
    RunKeepsInv(trace, events, n);
    RunRemembers(trace, events, n);
    C.FoundRowIsStored(trace[n].db, events[n].order, events[n].now, events[n].q);
    var j :| 0 <= j < |trace[n].db.entries| && trace[n].db.entries[j] == row;
    assert RowTrue(trace, n, trace[n].db.entries[j]);
  }

  lemma {:induction false} GraphIsAccounted(trace: seq<Sys>, events: seq<Event>, i: nat, p: Project)
    requires Run(trace, events) && i < |trace|
    ensures Graph(trace[i], p) == Epoch(trace[i], p) + Lost(trace[i], p) + Recording(trace[i], p)
  {
    RunKeepsInv(trace, events, i);
  }

  /** Freshness. When no record was lost, and no epoch was recorded between reading the graph and keying the
      answer nor between reading the epoch and the step looked at (the hit, say), a recalled answer is at most
      one index run behind the graph at that step, and then only while a worker still holds the project's
      lock between the run and its record. */
  lemma {:induction false} RecalledAnswersAreFresh(trace: seq<Sys>, events: seq<Event>, n: nat, i: nat)
    requires Run(trace, events) && n < |events| && events[n].Lookup? && Recalled(trace[n], events[n]).Some?
    requires i < |trace|
    ensures var row, call := Recalled(trace[n], events[n]).value, trace[n].calls[events[n].c];
            && row.id in trace[n].origins && call.LookingUp?
            && var o, p := trace[n].origins[row.id], call.project;
               && o.readAt <= n && o.keyedAt <= n && call.begunAt <= n
               && var then0, keyed, asked := trace[o.readAt], trace[o.keyedAt], trace[call.begunAt];
                  Epoch(keyed, p) == Epoch(then0, p) && Epoch(trace[i], p) == Epoch(asked, p) &&
                  Lost(trace[i], p) == Lost(then0, p) ==>
                  && Graph(trace[i], p) - Graph(then0, p) <= 1
                  && (Graph(trace[i], p) - Graph(then0, p) == 1 ==> BeingRecorded(trace[i], p))
  {
    hide Apply, Enabled, Run, C.Find;
    LagOfRecalledAnswer(trace, events, n, i);
  }

  // ── why the hypothesis is needed ─────────────────────────────────

  lemma {:induction false} Extend(
      trace: seq<Sys>, events: seq<Event>, e: Event)
    returns (trace': seq<Sys>, events': seq<Event>)
    requires Run(trace, events) && Enabled(trace[|events|], e)
    ensures Run(trace', events') && events' == events + [e] && trace' == trace + [Apply(trace[|events|], e)]
  {
    trace', events' := trace + [Apply(trace[|events|], e)], events + [e];
    hide Apply, Enabled;
    forall i | 0 <= i < |events'|
      ensures Enabled(trace'[i], events'[i]) && trace'[i + 1] == Apply(trace'[i], events'[i])
    {
      if i < |events| {
        assert trace'[i] == trace[i] && trace'[i + 1] == trace[i + 1] && events'[i] == events[i];
      }
    }
  }

  /** One worker with nothing to do, and the key's lock free. */
  predicate Quiet(q: Q.State, k: string) {
    && q.queue == [] && k !in q.pending && q.workers == [Q.Idle]
    && Q.LockOf(q, k) == Q.Lock(false, [])
  }

  const OK := Q.Returned(true, 1, "")

  /** The same worker in some phase, with the lock in some state and nothing queued. */
  predicate Alone(q: Q.State, k: string, phase: Q.Phase, lock: Q.Lock) {
    q.queue == [] && q.workers == [phase] && Q.LockOf(q, k) == lock
  }

  lemma {:induction false} JobStarts(q: Q.State, job: Q.IndexJob) returns (q1: Q.State, q2: Q.State, q3: Q.State)
    requires Quiet(q, job.Key())
    ensures Q.Enabled(q, Q.Enqueue(job)) && q1 == Q.Apply(q, Q.Enqueue(job))
    ensures Q.Enabled(q1, Q.Get(0)) && q2 == Q.Apply(q1, Q.Get(0))
    ensures Q.Enabled(q2, Q.Acquire(0)) && q3 == Q.Apply(q2, Q.Acquire(0))
    ensures Alone(q3, job.Key(), Q.Indexing(job), Q.Lock(true, [])) && job.Key() !in q3.pending
  {
    q1 := Q.Apply(q, Q.Enqueue(job));
    assert q1.queue == [job] && q1.workers == [Q.Idle];
    q2 := Q.Apply(q1, Q.Get(0));
    assert Alone(q2, job.Key(), Q.Waiting(job), Q.Lock(false, [0]));
    q3 := Q.Apply(q2, Q.Acquire(0));
  }

  lemma {:induction false} JobEnds(q3: Q.State, job: Q.IndexJob) returns (q4: Q.State, q5: Q.State)
    requires Alone(q3, job.Key(), Q.Indexing(job), Q.Lock(true, [])) && job.Key() !in q3.pending
    ensures Q.Enabled(q3, Q.FinishIndex(0, OK)) && q4 == Q.Apply(q3, Q.FinishIndex(0, OK))
    ensures Q.Enabled(q4, Q.FinishRecord(0)) && q5 == Q.Apply(q4, Q.FinishRecord(0))
    ensures q4.workers == [Q.Recording(job)] && Quiet(q5, job.Key())
  {
    q4 := Q.Apply(q3, Q.FinishIndex(0, OK));
    assert Alone(q4, job.Key(), Q.Recording(job), Q.Lock(true, []));
    q5 := Q.Apply(q4, Q.FinishRecord(0));
    assert Alone(q5, job.Key(), Q.Idle, Q.Lock(false, []));
  }

  /** Everything but the queue, the graphs and the epochs. */
  predicate SameCache(s: Sys, t: Sys) {
    && t.calls == s.calls && t.origins == s.origins && t.lost == s.lost
    && t.db.entries == s.db.entries && t.db.nextId == s.db.nextId
  }

  lemma {:induction false} QueueStep(s: Sys, qe: Q.Event)
    requires Q.Enabled(s.queue, qe)
    ensures Enabled(s, Worker(qe, true, 0))
    ensures var t := Apply(s, Worker(qe, true, 0));
            && t.queue == Q.Apply(s.queue, qe) && SameCache(s, t) && t.graph == Indexed(s, qe)
            && (!qe.FinishRecord? ==> t.db == s.db)
            && (qe.FinishRecord? ==> var job := s.queue.workers[qe.w].job;
                                     t.db == C.BumpIn(s.db, ProjectOf(job).0, ProjectOf(job).1, Commit(job), 0))
  {
    hide Q.Apply;
  }

  /** One more step of the queue, written to the run. */
  lemma {:induction false} ExtendQueue(trace: seq<Sys>, events: seq<Event>, qe: Q.Event)
    returns (trace': seq<Sys>, events': seq<Event>, t: Sys)
    requires Run(trace, events) && Q.Enabled(trace[|events|].queue, qe)
    ensures Run(trace', events') && trace' == trace + [t] && |events'| == |events| + 1
    ensures var s := trace[|events|];
            && t.queue == Q.Apply(s.queue, qe) && SameCache(s, t) && t.graph == Indexed(s, qe)
            && (!qe.FinishRecord? ==> t.db == s.db)
            && (qe.FinishRecord? ==> var job := s.queue.workers[qe.w].job;
                                     t.db == C.BumpIn(s.db, ProjectOf(job).0, ProjectOf(job).1, Commit(job), 0))
  {
    hide Q.Apply, Q.Enabled, Apply, Enabled, SameCache, C.BumpIn;
    QueueStep(trace[|events|], qe);
    trace', events' := Extend(trace, events, Worker(qe, true, 0));
    t := trace'[|events'|];
  }

  /** The project is indexed once more, and the record made. */
  lemma {:induction false} IndexedAndRecorded(trace: seq<Sys>, events: seq<Event>, job: Q.IndexJob)
    returns (trace': seq<Sys>, events': seq<Event>)
    requires Run(trace, events) && Quiet(trace[|events|].queue, job.Key())
    ensures Run(trace', events') && trace <= trace'
    ensures var p, s, t := ProjectOf(job), trace[|events|], trace'[|events'|];
            && Quiet(t.queue, job.Key()) && SameCache(s, t)
            && Graph(t, p) == Graph(s, p) + 1 && Epoch(t, p) == Epoch(s, p) + 1
  {
    var s := trace[|events|];
    var q1, q2, q3 := JobStarts(s.queue, job);
    var q4, q5 := JobEnds(q3, job);
    hide Run, Q.Apply, Q.Enabled, Quiet, C.BumpIn;
    var s1, s2, s3, s4, s5: Sys;
    trace', events', s1 := ExtendQueue(trace, events, Q.Enqueue(job));
    trace', events', s2 := ExtendQueue(trace', events', Q.Get(0));
    trace', events', s3 := ExtendQueue(trace', events', Q.Acquire(0));
    trace', events', s4 := ExtendQueue(trace', events', Q.FinishIndex(0, OK));
    trace', events', s5 := ExtendQueue(trace', events', Q.FinishRecord(0));
    var p := ProjectOf(job);
    C.BumpMovesOneEpoch(s4.db, p.0, p.1, Commit(job), 0, p.0, p.1);
  }

  /** A run in which an answer has read the graph and k index runs of its project have been recorded since. */
  lemma {:induction false} ReadThenIndexed(job: Q.IndexJob, k: nat) returns (trace: seq<Sys>, events: seq<Event>)
    ensures Run(trace, events)
    ensures var p, s := ProjectOf(job), trace[|events|];
            && Quiet(s.queue, job.Key()) && s.calls == map[0 := Answered(p, 0)] && s.lost == map[]
            && s.db.entries == [] && s.db.nextId == 0 && s.origins == map[]
            && Graph(trace[0], p) == 0 && Graph(s, p) == k
  {
    var p := ProjectOf(job);
    if k == 0 {
      var start := Sys(0, Q.Init(1), map[], map[], C.Db([], map[], 0), map[], map[]);
      trace, events := Extend([start], [], ReadGraph(0, p));
    } else {
      var before, steps := ReadThenIndexed(job, k - 1);
      hide Run;
      trace, events := IndexedAndRecorded(before, steps, job);
      assert trace[0] == before[0];
    }
  }

  /** An answer of any age can be recalled: for every k there is a run in which an answer computed from the graph
      as it was k index runs ago, all of them recorded, is keyed only now, filed, and recalled while no worker
      is recording. The bump between reading the graph and keying is what the freshness theorem excludes. */
  lemma {:induction false} StaleAnswerCanBeRecalled(
      job: Q.IndexJob, k: nat, lib: Library, tool: string, answer: C.Answer)
    returns (trace: seq<Sys>, events: seq<Event>, n: nat)
    ensures Run(trace, events) && n < |events| && events[n].Lookup? && Recalled(trace[n], events[n]).Some?
    ensures var row, call, p := Recalled(trace[n], events[n]).value, trace[n].calls[events[n].c], ProjectOf(job);
            && row.answer == answer.text && row.id in trace[n].origins && trace[n].origins[row.id].readAt <= n
            && call.LookingUp? && call.project == p && call.begunAt <= n
            && Graph(trace[call.begunAt], p) - Graph(trace[trace[n].origins[row.id].readAt], p) == k
            && Graph(trace[n], p) - Graph(trace[trace[n].origins[row.id].readAt], p) == k
            && Lost(trace[n], p) == 0 && !BeingRecorded(trace[n], p)
  {
    var p := ProjectOf(job);
    trace, events := ReadThenIndexed(job, k);
    var s := trace[|events|];
    RunKeepsInv(trace, events, |events|);
    ghost var first := trace[0];
    trace, events := Extend(trace, events, KeyAnswer(0));
    var keyed := trace[|events|];
    trace, events := Extend(trace, events, File(0, lib, tool, answer, 0));
    var filed := trace[|events|];
    trace, events := Extend(trace, events, BeginLookup(1, p));
    n := |events|;
    var asked := trace[n];
    var e := Filed(s, keyed, filed, asked, p, lib, tool, answer);
    trace, events := Extend(trace, events, e);
  }

  /** Keying and filing, with nothing in between. */
  lemma {:induction false} KeyedAndFiled(
      s: Sys, keyed: Sys, filed: Sys, p: Project, lib: Library, tool: string, answer: C.Answer)
    requires s.calls == map[0 := Answered(p, 0)] && s.origins == map[]
    requires Step(s, KeyAnswer(0), keyed) && Step(keyed, File(0, lib, tool, answer, 0), filed)
    ensures filed.db == C.StoreIn(lib, s.db, Key(p, tool, Epoch(s, p)), answer, 0)
    ensures filed.calls == map[] && filed.queue == s.queue && filed.graph == s.graph && filed.lost == s.lost
    ensures s.db.nextId in filed.origins && filed.origins[s.db.nextId].readAt == 0
  {
    hide C.StoreIn, C.CurrentEpoch;
  }

  lemma {:induction false} AsksFor(filed: Sys, asked: Sys, p: Project)
    requires Step(filed, BeginLookup(1, p), asked)
    ensures asked == filed.(calls := filed.calls[1 := LookingUp(p, Epoch(filed, p), filed.step)],
                            step := filed.step + 1)
  {
    hide C.CurrentEpoch;
  }

  lemma {:induction false} FiledRowIsFound(db: C.Db, key: C.CacheKey, lib: Library, answer: C.Answer)
    requires C.Valid(db)
    ensures var q := C.Query(key, QuestionForm.QuestionHash(lib, answer.question), None, 0.95, 0);
            && C.Find(C.StoreIn(lib, db, key, answer, 0), [], 0, q) ==
               C.Exact(C.NewEntry(lib, db.nextId, key, answer, 0))
            && C.CandidateOrder([], C.StoreIn(lib, db, key, answer, 0), q)
  {
    hide C.StoreIn, C.NewEntry;
    var q := C.Query(key, QuestionForm.QuestionHash(lib, answer.question), None, 0.95, 0);
    C.StoreExactRows(lib, db, key, answer, 0, q);
  }

  /** Keying, filing and asking: the answer is found. */
  lemma {:induction false} Filed(s: Sys, keyed: Sys, filed: Sys, asked: Sys, p: Project,
                                 lib: Library, tool: string, answer: C.Answer) returns (e: Event)
    requires s.calls == map[0 := Answered(p, 0)] && s.origins == map[] && s.queue.workers == [Q.Idle] && C.Valid(s.db)
    requires Step(s, KeyAnswer(0), keyed) && Step(keyed, File(0, lib, tool, answer, 0), filed)
    requires Step(filed, BeginLookup(1, p), asked)
    ensures e.Lookup? && e.c == 1 && Enabled(asked, e)
    ensures var found := Recalled(asked, e);
            && found.Some? && found.value.answer == answer.text && found.value.id in asked.origins
            && asked.origins[found.value.id].readAt == 0
    ensures asked.calls == map[1 := LookingUp(p, Epoch(s, p), filed.step)] && asked.step == filed.step + 1
    ensures asked.graph == filed.graph == s.graph && asked.lost == s.lost && !BeingRecorded(asked, p)
  {
    hide C.Find, C.CandidateOrder, Apply, C.Valid;
    var key := Key(p, tool, Epoch(s, p));
    KeyedAndFiled(s, keyed, filed, p, lib, tool, answer);
    AsksFor(filed, asked, p);
    assert Epoch(filed, p) == Epoch(s, p);
    FiledRowIsFound(s.db, key, lib, answer);
    e := Lookup(1, [], 0, C.Query(key, QuestionForm.QuestionHash(lib, answer.question), None, 0.95, 0));
    assert forall v :: !Records(asked, v, p);
  }
}
