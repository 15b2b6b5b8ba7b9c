/** The indexing queue: one FIFO queue, a coalescing set, one FIFO lock per project,
    and workers that interleave at their await points. */
module IndexQueue {

  /** The parts of a repository binding the queue looks at. */
  datatype Binding = Binding(tenant: string, project: string)

  datatype IndexJob = IndexJob(binding: Binding, sha: string, trigger: string) {
    function Key(): string { binding.tenant + "/" + binding.project }
  }

  datatype JobResult = JobResult(job: IndexJob, ok: bool, durationS: int, detail: string)

  /** How the awaited index run ended: it returned a result, or it raised. */
  datatype Outcome = Returned(ok: bool, durationS: int, detail: string) | Raised(message: string)

  /** An asyncio lock: a flag and the workers waiting for it, first come first served. */
  datatype Lock = Lock(locked: bool, waiters: seq<nat>)

  /** Where a worker is suspended. */
  datatype Phase =
    | Idle                       // in queue.get()
    | Waiting(job: IndexJob)     // in lock.acquire()
    | Indexing(job: IndexJob)    // in _index, lock held
    | Recording(job: IndexJob)   // in _record_epoch, lock held
  {
    predicate Holds() { Indexing? || Recording? }
  }

  datatype State = State(
    queue: seq<IndexJob>,
    pending: set<string>,
    locks: map<string, Lock>,
    workers: seq<Phase>,
    lastResults: map<string, JobResult>,
    unfinished: int)

  function Init(concurrency: nat): State {
    State([], {}, map[], seq(concurrency, _ => Idle), map[], 0)
  }

  // ── steps ────────────────────────────────────────────────────────

  datatype Event =
    | Enqueue(job: IndexJob)
    | Get(w: nat)                             // dequeue, join the key's lock line
    | Acquire(w: nat)                         // first in line, lock free: start indexing
    | FinishIndex(w: nat, outcome: Outcome)
    | FinishRecord(w: nat)                    // leave the lock and the job

  function LockOf(s: State, k: string): Lock {
    if k in s.locks then s.locks[k] else Lock(false, [])
  }

  predicate Enabled(s: State, e: Event) {
    match e
    case Enqueue(_) => true
    case Get(w) => w < |s.workers| && s.workers[w].Idle? && s.queue != []
    case Acquire(w) =>
      && w < |s.workers| && s.workers[w].Waiting?
      && var lock := LockOf(s, s.workers[w].job.Key());
         !lock.locked && lock.waiters != [] && lock.waiters[0] == w
    case FinishIndex(w, _) => w < |s.workers| && s.workers[w].Indexing?
    case FinishRecord(w) => w < |s.workers| && s.workers[w].Recording?
  }

  /** Leaving the lock and the `finally` block: nothing suspends in between. */
  function Release(s: State, w: nat, k: string): State
    requires w < |s.workers|
  {
    s.(locks := s.locks[k := LockOf(s, k).(locked := false)],
       workers := s.workers[w := Idle],
       pending := s.pending - {k},
       unfinished := s.unfinished - 1)
  }

  function ResultOf(job: IndexJob, outcome: Outcome): JobResult {
    match outcome
    case Returned(ok, durationS, detail) => JobResult(job, ok, durationS, detail)
    case Raised(message) => JobResult(job, false, 0, message)
  }

  function Apply(s: State, e: Event): State
    requires Enabled(s, e)
  {
    match e
    case Enqueue(job) =>
      if job.Key() in s.pending then s
      else s.(pending := s.pending + {job.Key()}, queue := s.queue + [job], unfinished := s.unfinished + 1)
    case Get(w) =>
      var job := s.queue[0];
      var lock := LockOf(s, job.Key());
      s.(queue := s.queue[1..],
         locks := s.locks[job.Key() := lock.(waiters := lock.waiters + [w])],
         workers := s.workers[w := Waiting(job)])
    case Acquire(w) =>
      var job := s.workers[w].job;
      s.(locks := s.locks[job.Key() := Lock(true, LockOf(s, job.Key()).waiters[1..])],
         workers := s.workers[w := Indexing(job)],
         pending := s.pending - {job.Key()})
    case FinishIndex(w, outcome) =>
      var job := s.workers[w].job;
      var recorded := s.(lastResults := s.lastResults[job.Key() := ResultOf(job, outcome)]);
      if outcome.Returned? && outcome.ok then recorded.(workers := s.workers[w := Recording(job)])
      else Release(recorded, w, job.Key())
    case FinishRecord(w) => Release(s, w, s.workers[w].job.Key())
  }

  // ── the state invariant ──────────────────────────────────────────

  predicate LineInv(s: State, k: string) {
    var line := LockOf(s, k).waiters;
    && (forall i :: 0 <= i < |line| ==>
          line[i] < |s.workers| && s.workers[line[i]].Waiting? && s.workers[line[i]].job.Key() == k)
    && (forall i, j :: 0 <= i < j < |line| ==> line[i] != line[j])
  }

  predicate WorkerInv(s: State, w: nat)
    requires w < |s.workers|
  {
    match s.workers[w]
    case Idle => true
    case Waiting(job) => w in LockOf(s, job.Key()).waiters
    case Indexing(job) => LockOf(s, job.Key()).locked
    case Recording(job) => LockOf(s, job.Key()).locked
  }

  /** At most one worker is inside the lock of a key. */
  predicate Exclusive(s: State) {
    forall v, w :: 0 <= v < w < |s.workers| && s.workers[v].Holds() && s.workers[w].Holds() ==>
                     s.workers[v].job.Key() != s.workers[w].job.Key()
  }

  predicate HeldBy(s: State, k: string, w: nat) {
    w < |s.workers| && s.workers[w].Holds() && s.workers[w].job.Key() == k
  }

  /** A locked lock has a holder: no lock is ever leaked. */
  ghost predicate LocksHeld(s: State) {
    forall k :: LockOf(s, k).locked ==> exists w :: HeldBy(s, k, w)
  }

  /** A key in the coalescing set has a job that has not started. */
  ghost predicate PendingHasJob(s: State) {
    forall k :: k in s.pending ==> NotStarted(s, k) != []
  }

  ghost predicate Inv(s: State) {
    && (forall k :: LineInv(s, k))
    && (forall w :: 0 <= w < |s.workers| ==> WorkerInv(s, w))
    && Exclusive(s)
    && LocksHeld(s)
    && PendingHasJob(s)
    && s.unfinished == |s.queue| + Busy(s.workers)
  }

  /** Jobs a worker has taken and not given back. */
  function Busy(workers: seq<Phase>): nat {
    if workers == [] then 0 else Busy(workers[..|workers| - 1]) + (if workers[|workers| - 1].Idle? then 0 else 1)
  }

  // ── jobs that have not started, in the order they will ───────────

  function Of(k: string, jobs: seq<IndexJob>): seq<IndexJob> {
    if jobs == [] then []
    else Of(k, jobs[..|jobs| - 1]) + (if jobs[|jobs| - 1].Key() == k then [jobs[|jobs| - 1]] else [])
  }

  /** The jobs of the workers standing in a lock's line, front first. */
  function LineJobs(workers: seq<Phase>, line: seq<nat>): seq<IndexJob> {
    if line == [] then []
    else
      var w := line[|line| - 1];
      LineJobs(workers, line[..|line| - 1]) +
      (if w < |workers| && workers[w].Waiting? then [workers[w].job] else [])
  }

  /** Every accepted and unstarted job of a key: first those in the lock's line, then those queued. */
  function NotStarted(s: State, k: string): seq<IndexJob> {
    LineJobs(s.workers, LockOf(s, k).waiters) + Of(k, s.queue)
  }

  lemma {:induction false} OfAppend(k: string, a: seq<IndexJob>, b: seq<IndexJob>)
    ensures Of(k, a + b) == Of(k, a) + Of(k, b)
  {
    if b == [] {
      assert a + b == a;
    } else {
      assert (a + b)[..|a + b| - 1] == a + b[..|b| - 1];
      OfAppend(k, a, b[..|b| - 1]);
    }
  }

  lemma {:induction false} LineJobsAppend(workers: seq<Phase>, a: seq<nat>, b: seq<nat>)
    ensures LineJobs(workers, a + b) == LineJobs(workers, a) + LineJobs(workers, b)
  {
    if b == [] {
      assert a + b == a;
    } else {
      assert (a + b)[..|a + b| - 1] == a + b[..|b| - 1];
      LineJobsAppend(workers, a, b[..|b| - 1]);
    }
  }

  /** Changing a worker outside the line leaves the line's jobs alone. */
  lemma {:induction false} LineJobsFrame(before: seq<Phase>, after: seq<Phase>, line: seq<nat>, w: nat)
    requires w < |before| && |after| == |before| && w !in line
    requires forall v :: 0 <= v < |before| && v != w ==> after[v] == before[v]
    ensures LineJobs(after, line) == LineJobs(before, line)
  {
    if line != [] {
      LineJobsFrame(before, after, line[..|line| - 1], w);
      assert line[|line| - 1] in line;
    }
  }

  lemma {:induction false} BusyUpdate(workers: seq<Phase>, w: nat, p: Phase)
    requires w < |workers|
    ensures Busy(workers[w := p]) ==
            Busy(workers) - (if workers[w].Idle? then 0 else 1) + (if p.Idle? then 0 else 1)
  {
    var n := |workers| - 1;
    var updated := workers[w := p];
    if w == n {
      assert updated[..n] == workers[..n];
    } else {
      assert updated[..n] == workers[..n][w := p];
      BusyUpdate(workers[..n], w, p);
    }
  }

  function AcceptedBy(s: State, e: Event): seq<IndexJob> {
    if e.Enqueue? && e.job.Key() !in s.pending then [e.job] else []
  }

  function StartedBy(s: State, e: Event): seq<IndexJob>
    requires Enabled(s, e)
  {
    if e.Acquire? then [s.workers[e.w].job] else []
  }

  // ── one step ─────────────────────────────────────────────────────

  lemma {:induction false} OfSingle(k: string, job: IndexJob)
    ensures Of(k, [job]) == if job.Key() == k then [job] else []
  {
    assert [job][..0] == [];
  }

  lemma {:induction false} LineJobsSingle(workers: seq<Phase>, w: nat)
    ensures LineJobs(workers, [w]) ==
            if w < |workers| && workers[w].Waiting? then [workers[w].job] else []
  {
    assert [w][..0] == [];
  }

  /** Conservation: a step moves jobs from accepted to started through the front, and loses none. */
  lemma {:induction false} StepConserves(s: State, e: Event, k: string)
    requires Inv(s) && Enabled(s, e)
    ensures NotStarted(s, k) + Of(k, AcceptedBy(s, e)) == Of(k, StartedBy(s, e)) + NotStarted(Apply(s, e), k)
  {
    assert LineInv(s, k);
    match e
    case Enqueue(job) => EnqueueConserves(s, job, k);
    case Get(w) => GetConserves(s, w, k);
    case Acquire(w) => AcquireConserves(s, w, k);
    case FinishIndex(_, _) => FinishConserves(s, e, k);
    case FinishRecord(_) => FinishConserves(s, e, k);
  }

  lemma {:induction false} EnqueueConserves(s: State, job: IndexJob, k: string)
    ensures NotStarted(s, k) + Of(k, AcceptedBy(s, Enqueue(job))) == NotStarted(Apply(s, Enqueue(job)), k)
  {
    OfAppend(k, s.queue, [job]);
  }

  lemma {:induction false} FinishConserves(s: State, e: Event, k: string)
    requires LineInv(s, k) && Enabled(s, e) && (e.FinishIndex? || e.FinishRecord?)
    ensures NotStarted(Apply(s, e), k) == NotStarted(s, k)
  {
    FinishKeepsWaiters(s, e, k);
    LineJobsFrame(s.workers, Apply(s, e).workers, LockOf(s, k).waiters, e.w);
  }

  lemma {:induction false} FinishKeepsWaiters(s: State, e: Event, k: string)
    requires Enabled(s, e) && (e.FinishIndex? || e.FinishRecord?)
    ensures LockOf(Apply(s, e), k).waiters == LockOf(s, k).waiters
    ensures Apply(s, e).queue == s.queue
    ensures |Apply(s, e).workers| == |s.workers| && !Apply(s, e).workers[e.w].Waiting?
    ensures forall v :: 0 <= v < |s.workers| && v != e.w ==> Apply(s, e).workers[v] == s.workers[v]
  {
  }

  lemma GetEffect(s: State, w: nat, k: string)
    requires Enabled(s, Get(w))
    ensures var s', job, line := Apply(s, Get(w)), s.queue[0], LockOf(s, k).waiters;
            && s'.queue == s.queue[1..] && s'.workers == s.workers[w := Waiting(job)]
            && LockOf(s', k).waiters == if job.Key() == k then line + [w] else line
  {
  }

  lemma {:induction false} GetConserves(s: State, w: nat, k: string)
    requires LineInv(s, k) && Enabled(s, Get(w))
    ensures NotStarted(Apply(s, Get(w)), k) == NotStarted(s, k)
  {
    var job, line, workers := s.queue[0], LockOf(s, k).waiters, s.workers[w := Waiting(s.queue[0])];
    GetEffect(s, w, k);
    assert w !in line;
    LineJobsFrame(s.workers, workers, line, w);
    DequeueOf(k, s.queue);
    if job.Key() == k {
      LineJobsAppend(workers, line, [w]);
      LineJobsSingle(workers, w);
      Regroup(LineJobs(workers, line), [job], Of(k, s.queue[1..]));
    }
  }

  lemma {:induction false} DequeueOf(k: string, queue: seq<IndexJob>)
    requires queue != []
    ensures Of(k, queue) == if queue[0].Key() == k then [queue[0]] + Of(k, queue[1..]) else Of(k, queue[1..])
  {
    assert queue == [queue[0]] + queue[1..];
    OfAppend(k, [queue[0]], queue[1..]);
    OfSingle(k, queue[0]);
    Regroup([], [], Of(k, queue[1..]));
  }

  lemma Regroup<T>(a: seq<T>, b: seq<T>, c: seq<T>)
    ensures (a + b) + c == a + (b + c) && [] + c == c
  {
  }

  lemma AcquireEffect(s: State, w: nat, k: string)
    requires Enabled(s, Acquire(w))
    ensures var s', job, line := Apply(s, Acquire(w)), s.workers[w].job, LockOf(s, k).waiters;
            && s'.queue == s.queue && s'.workers == s.workers[w := Indexing(job)]
            && LockOf(s', k).waiters == (if job.Key() == k then line[1..] else line)
            && (job.Key() == k ==> line[0] == w)
  {
  }

  lemma {:induction false} LineFront(workers: seq<Phase>, line: seq<nat>, job: IndexJob)
    requires line != [] && line[0] < |workers| && workers[line[0]] == Waiting(job) && line[0] !in line[1..]
    ensures LineJobs(workers, line) == [job] + LineJobs(workers[line[0] := Indexing(job)], line[1..])
  {
    assert line == [line[0]] + line[1..];
    LineJobsAppend(workers, [line[0]], line[1..]);
    LineJobsSingle(workers, line[0]);
    LineJobsFrame(workers, workers[line[0] := Indexing(job)], line[1..], line[0]);
  }

  lemma {:induction false} AcquireConserves(s: State, w: nat, k: string)
    requires LineInv(s, k) && Enabled(s, Acquire(w))
    ensures NotStarted(s, k) == Of(k, [s.workers[w].job]) + NotStarted(Apply(s, Acquire(w)), k)
  {
    var job, line := s.workers[w].job, LockOf(s, k).waiters;
    AcquireEffect(s, w, k);
    OfSingle(k, job);
    if job.Key() == k {
      LineFront(s.workers, line, job);
      Regroup([job], LineJobs(s.workers[w := Indexing(job)], line[1..]), Of(k, s.queue));
    } else {
      assert w !in line;
      LineJobsFrame(s.workers, s.workers[w := Indexing(job)], line, w);
      Regroup([], [], NotStarted(s, k));
    }
  }

  lemma {:induction false} StepKeepsLines(s: State, e: Event, k: string)
    requires Inv(s) && Enabled(s, e)
    ensures LineInv(Apply(s, e), k)
  {
    assert LineInv(s, k);
    match e
    case Enqueue(_) =>
    case Get(w) => GetKeepsLine(s, w, k);
    case Acquire(w) => AcquireKeepsLine(s, w, k);
    case FinishIndex(_, _) => FinishKeepsWaiters(s, e, k);
    case FinishRecord(_) => FinishKeepsWaiters(s, e, k);
  }

  lemma {:induction false} GetKeepsLine(s: State, w: nat, k: string)
    requires LineInv(s, k) && Enabled(s, Get(w))
    ensures LineInv(Apply(s, Get(w)), k)
  {
  }

  lemma {:induction false} AcquireKeepsLine(s: State, w: nat, k: string)
    requires LineInv(s, k) && Enabled(s, Acquire(w))
    ensures LineInv(Apply(s, Acquire(w)), k)
  {
    var line := LockOf(s, k).waiters;
    if s.workers[w].job.Key() != k {
      assert w !in line;
    }
  }

  lemma {:induction false} StepKeepsWorkers(s: State, e: Event, v: nat)
    requires Inv(s) && Enabled(s, e) && v < |Apply(s, e).workers|
    ensures WorkerInv(Apply(s, e), v)
  {
    var s' := Apply(s, e);
    assert WorkerInv(s, v);
    match e
    case Enqueue(_) =>
    case Get(w) =>
      var line := LockOf(s, s.queue[0].Key()).waiters;
      assert (line + [w])[|line|] == w;
    case Acquire(w) =>
      var line := LockOf(s, s.workers[w].job.Key()).waiters;
      if s.workers[v].Waiting? && v in line && v != w {
        var i :| 0 <= i < |line| && line[i] == v;
        assert line[1..][i - 1] == v;
      }
    case FinishIndex(w, _) =>
    case FinishRecord(w) =>
  }

  lemma {:induction false} StepKeepsExclusive(s: State, e: Event)
    requires Inv(s) && Enabled(s, e)
    ensures Exclusive(Apply(s, e))
  {
    if e.Acquire? {
      forall v | 0 <= v < |s.workers| && s.workers[v].Holds()
        ensures s.workers[v].job.Key() != s.workers[e.w].job.Key()
      {
        assert WorkerInv(s, v);
      }
    }
  }

  lemma {:induction false} StepKeepsLocksHeld(s: State, e: Event)
    requires Inv(s) && Enabled(s, e)
    ensures LocksHeld(Apply(s, e))
  {
    var s' := Apply(s, e);
    forall k | LockOf(s', k).locked ensures exists w :: HeldBy(s', k, w) {
      if e.Acquire? && s.workers[e.w].job.Key() == k {
        assert HeldBy(s', k, e.w);
      } else {
        assert LockOf(s, k).locked;
        var w :| HeldBy(s, k, w);
        assert HeldBy(s', k, w);
      }
    }
  }

  lemma {:induction false} StepKeepsPending(s: State, e: Event)
    requires Inv(s) && Enabled(s, e)
    ensures PendingHasJob(Apply(s, e))
  {
    var s' := Apply(s, e);
    forall k | k in s'.pending ensures NotStarted(s', k) != [] {
      StepConserves(s, e, k);
      if e.Enqueue? && e.job.Key() == k && k !in s.pending {
        OfSingle(k, e.job);
      }
      if e.Acquire? {
        OfSingle(k, s.workers[e.w].job);
      }
    }
  }

  lemma {:induction false} StepKeepsUnfinished(s: State, e: Event)
    requires Inv(s) && Enabled(s, e)
    ensures Apply(s, e).unfinished == |Apply(s, e).queue| + Busy(Apply(s, e).workers)
  {
    if !e.Enqueue? {
      BusyUpdate(s.workers, e.w, Apply(s, e).workers[e.w]);
    }
  }

  lemma {:induction false} StepKeepsInv(s: State, e: Event)
    requires Inv(s) && Enabled(s, e)
    ensures Inv(Apply(s, e))
  {
    forall k { StepKeepsLines(s, e, k); }
    forall v | 0 <= v < |Apply(s, e).workers| ensures WorkerInv(Apply(s, e), v) { StepKeepsWorkers(s, e, v); }
    StepKeepsExclusive(s, e);
    StepKeepsLocksHeld(s, e);
    StepKeepsPending(s, e);
    StepKeepsUnfinished(s, e);
  }

  lemma {:induction false} IdleWorkersAreNotBusy(n: nat)
    ensures Busy(seq(n, _ => Idle)) == 0
  {
    if n > 0 {
      var workers := seq(n, _ => Idle);
      assert workers[..n - 1] == seq(n - 1, _ => Idle);
      IdleWorkersAreNotBusy(n - 1);
    }
  }

  lemma {:induction false} InitInv(concurrency: nat)
    ensures Inv(Init(concurrency))
  {
    IdleWorkersAreNotBusy(concurrency);
  }

  // ── whole runs ───────────────────────────────────────────────────

  predicate Admissible(s: State, es: seq<Event>)
    decreases |es|
  {
    es == [] || (Enabled(s, es[0]) && Admissible(Apply(s, es[0]), es[1..]))
  }

  function After(s: State, es: seq<Event>): State
    requires Admissible(s, es)
    decreases |es|
  {
    if es == [] then s else After(Apply(s, es[0]), es[1..])
  }

  /** The jobs accepted along a run, in order. */
  function Accepted(s: State, es: seq<Event>): seq<IndexJob>
    requires Admissible(s, es)
    decreases |es|
  {
    if es == [] then [] else AcceptedBy(s, es[0]) + Accepted(Apply(s, es[0]), es[1..])
  }

  /** The jobs whose index run starts along a run, in order. */
  function Started(s: State, es: seq<Event>): seq<IndexJob>
    requires Admissible(s, es)
    decreases |es|
  {
    if es == [] then [] else StartedBy(s, es[0]) + Started(Apply(s, es[0]), es[1..])
  }

  /** Nothing queued, every worker idle. */
  predicate Drained(s: State) {
    s.queue == [] && forall w :: 0 <= w < |s.workers| ==> s.workers[w].Idle?
  }

  lemma {:induction false} RunKeepsInv(s: State, es: seq<Event>)
    requires Inv(s) && Admissible(s, es)
    ensures Inv(After(s, es))
    decreases |es|
  {
    if es != [] {
      StepKeepsInv(s, es[0]);
      RunKeepsInv(Apply(s, es[0]), es[1..]);
    }
  }

  /** In every interleaving: one index run per key at a time, no leaked lock, every pending key has an
      unstarted job, and the queue's unfinished count is what is queued plus what workers hold. */
  lemma {:induction false} EveryReachableStateIsSafe(concurrency: nat, es: seq<Event>)
    requires Admissible(Init(concurrency), es)
    ensures var s := After(Init(concurrency), es);
            && Exclusive(s) && LocksHeld(s) && PendingHasJob(s)
            && s.unfinished == |s.queue| + Busy(s.workers)
  {
    InitInv(concurrency);
    RunKeepsInv(Init(concurrency), es);
  }

  lemma {:induction false} Splice<T>(n0: seq<T>, a0: seq<T>, r0: seq<T>, n1: seq<T>, a1: seq<T>, r1: seq<T>, n2: seq<T>)
    requires n0 + a0 == r0 + n1 && n1 + a1 == r1 + n2
    ensures n0 + (a0 + a1) == (r0 + r1) + n2
  {
    calc {
      n0 + (a0 + a1);
      (n0 + a0) + a1;
      r0 + (n1 + a1);
      (r0 + r1) + n2;
    }
  }

  lemma {:induction false} RunConserves(s: State, es: seq<Event>, k: string)
    requires Inv(s) && Admissible(s, es)
    ensures NotStarted(s, k) + Of(k, Accepted(s, es)) == Of(k, Started(s, es)) + NotStarted(After(s, es), k)
    decreases |es|
  {
    if es != [] {
      var s1 := Apply(s, es[0]);
      StepKeepsInv(s, es[0]);
      StepConserves(s, es[0], k);
      RunConserves(s1, es[1..], k);
      OfAppend(k, AcceptedBy(s, es[0]), Accepted(s1, es[1..]));
      OfAppend(k, StartedBy(s, es[0]), Started(s1, es[1..]));
      Splice(NotStarted(s, k), Of(k, AcceptedBy(s, es[0])), Of(k, StartedBy(s, es[0])), NotStarted(s1, k),
             Of(k, Accepted(s1, es[1..])), Of(k, Started(s1, es[1..])), NotStarted(After(s, es), k));
    }
  }

  /** Same-key jobs start in acceptance order, each exactly once: what has started is a prefix of what
      was accepted, and the rest is exactly what still waits. */
  lemma {:induction false} JobsStartInAcceptanceOrder(concurrency: nat, es: seq<Event>, k: string)
    requires Admissible(Init(concurrency), es)
    ensures var s := Init(concurrency);
            Of(k, Accepted(s, es)) == Of(k, Started(s, es)) + NotStarted(After(s, es), k)
  {
    InitInv(concurrency);
    RunConserves(Init(concurrency), es, k);
  }

  lemma {:induction false} NoneWaitingNoJobs(workers: seq<Phase>, line: seq<nat>)
    requires forall w :: 0 <= w < |workers| ==> workers[w].Idle?
    ensures LineJobs(workers, line) == []
  {
    if line != [] {
      NoneWaitingNoJobs(workers, line[..|line| - 1]);
    }
  }

  lemma {:induction false} DrainedHasNoJob(s: State, k: string)
    requires Drained(s)
    ensures NotStarted(s, k) == []
  {
    NoneWaitingNoJobs(s.workers, LockOf(s, k).waiters);
  }

  /** No lost wake-up: however a run goes on after a push, once it has drained, every job of that key
      that was waiting when the push returned has started after it — the pushed job itself last among
      them when it was accepted, and some job of the key in any case. */
  lemma {:induction false} EveryPushIsFollowedByAnIndex(s: State, job: IndexJob, es: seq<Event>)
    requires Inv(s) && Admissible(Apply(s, Enqueue(job)), es)
    requires Drained(After(Apply(s, Enqueue(job)), es))
    ensures var s1, k := Apply(s, Enqueue(job)), job.Key();
            && Of(k, Started(s1, es)) == NotStarted(s1, k) + Of(k, Accepted(s1, es))
            && |NotStarted(s1, k)| > 0
            && NotStarted(s1, k) == NotStarted(s, k) + (if k in s.pending then [] else [job])
  {
    var s1, k := Apply(s, Enqueue(job)), job.Key();
    StepKeepsInv(s, Enqueue(job));
    RunConserves(s1, es, k);
    RunKeepsInv(s1, es);
    DrainedHasNoJob(After(s1, es), k);
    EnqueueConserves(s, job, k);
    OfSingle(k, job);
  }

  /** Which commit the key ends on. A coalesced push keeps the commit already pinned, so the last index
      run is of the pushed commit exactly when the push was accepted or repeats the waiting commit. */
  lemma {:induction false} LastIndexedCommit(s: State, job: IndexJob, es: seq<Event>)
    requires Inv(s) && Admissible(Apply(s, Enqueue(job)), es)
    requires var s1 := Apply(s, Enqueue(job));
             Drained(After(s1, es)) && Of(job.Key(), Accepted(s1, es)) == []
    ensures var runs := Of(job.Key(), Started(Apply(s, Enqueue(job)), es));
            var waiting := NotStarted(s, job.Key());
            && |runs| > 0 && (job.Key() in s.pending ==> |waiting| > 0)
            && (runs[|runs| - 1].sha == job.sha <==>
                job.Key() !in s.pending || waiting[|waiting| - 1].sha == job.sha)
  {
    var s1, k := Apply(s, Enqueue(job)), job.Key();
    var waiting := NotStarted(s, k);
    EveryPushIsFollowedByAnIndex(s, job, es);
    assert NotStarted(s1, k) + [] == NotStarted(s1, k);
    assert Of(k, Started(s1, es)) == NotStarted(s1, k);
    if k in s.pending {
      assert waiting + [] == waiting;
    } else {
      assert (waiting + [job])[|waiting|] == job;
    }
  }

  /** Results returned for a key along a run, in order. */
  function Finished(s: State, es: seq<Event>, k: string): seq<JobResult>
    requires Admissible(s, es)
    decreases |es|
  {
    if es == [] then [] else FinishedBy(s, es[0], k) + Finished(Apply(s, es[0]), es[1..], k)
  }

  function FinishedBy(s: State, e: Event, k: string): seq<JobResult>
    requires Enabled(s, e)
  {
    if e.FinishIndex? && s.workers[e.w].job.Key() == k then [ResultOf(s.workers[e.w].job, e.outcome)] else []
  }

  lemma {:induction false} StepRecordsResult(s: State, e: Event, k: string)
    requires Enabled(s, e)
    ensures var t, results := Apply(s, e), FinishedBy(s, e, k);
            if results == [] then
              && (k in t.lastResults <==> k in s.lastResults)
              && (k in s.lastResults ==> t.lastResults[k] == s.lastResults[k])
            else |results| == 1 && k in t.lastResults && t.lastResults[k] == results[0]
  {
    hide ResultOf;
  }

  /** `last_results` holds each key's latest result, raised ones included, and nothing else. */
  lemma {:induction false} LastResultIsTheLatest(s: State, es: seq<Event>, k: string)
    requires Admissible(s, es)
    ensures var t, results := After(s, es), Finished(s, es, k);
            if results == [] then
              && (k in t.lastResults <==> k in s.lastResults)
              && (k in s.lastResults ==> t.lastResults[k] == s.lastResults[k])
            else k in t.lastResults && t.lastResults[k] == results[|results| - 1]
    decreases |es|
  {
    if es != [] {
      hide Apply, Enabled, FinishedBy;
      StepRecordsResult(s, es[0], k);
      LastResultIsTheLatest(Apply(s, es[0]), es[1..], k);
    }
  }

  function LastSlash(s: string): int {
    if s == [] then -1 else if s[|s| - 1] == '/' then |s| - 1 else LastSlash(s[..|s| - 1])
  }

  lemma {:induction false} LastSlashOfKey(tenant: string, project: string)
    requires '/' !in project
    ensures LastSlash(tenant + "/" + project) == |tenant|
  {
    var key := tenant + "/" + project;
    if project != [] {
      var n := |project| - 1;
      assert key[..|key| - 1] == tenant + "/" + project[..n];
      assert key[|key| - 1] == project[n];
      LastSlashOfKey(tenant, project[..n]);
    }
  }

  /** Keys do not collide between projects: a project name holds no slash. */
  lemma {:induction false} KeyNamesOneProject(a: IndexJob, b: IndexJob)
    requires '/' !in a.binding.project && '/' !in b.binding.project
    ensures a.Key() == b.Key() <==> a.binding == b.binding
  {
    LastSlashOfKey(a.binding.tenant, a.binding.project);
    LastSlashOfKey(b.binding.tenant, b.binding.project);
    var n := |a.binding.tenant|;
    assert a.binding.tenant == a.Key()[..n] && a.binding.project == a.Key()[n + 1..];
    if a.Key() == b.Key() {
      assert b.binding.tenant == b.Key()[..n] && b.binding.project == b.Key()[n + 1..];
    }
  }

  // ── progress ─────────────────────────────────────────────────────

  predicate WorkerStep(e: Event) { !e.Enqueue? }

  function Rank(p: Phase): nat {
    match p
    case Idle => 0
    case Waiting(_) => 3
    case Indexing(_) => 2
    case Recording(_) => 1
  }

  function Ranks(workers: seq<Phase>): nat {
    if workers == [] then 0 else Ranks(workers[..|workers| - 1]) + Rank(workers[|workers| - 1])
  }

  /** Steps the workers still have to take. */
  function Remaining(s: State): nat { 4 * |s.queue| + Ranks(s.workers) }

  lemma {:induction false} RanksUpdate(workers: seq<Phase>, w: nat, p: Phase)
    requires w < |workers|
    ensures Ranks(workers[w := p]) == Ranks(workers) - Rank(workers[w]) + Rank(p)
  {
    var n := |workers| - 1;
    if w == n {
      assert workers[w := p][..n] == workers[..n];
    } else {
      assert workers[w := p][..n] == workers[..n][w := p];
      RanksUpdate(workers[..n], w, p);
    }
  }

  /** Every worker step, failing runs included, brings the drain closer. */
  lemma {:induction false} WorkerStepDecreases(s: State, e: Event)
    requires Enabled(s, e) && WorkerStep(e)
    ensures Remaining(Apply(s, e)) < Remaining(s)
  {
    RanksUpdate(s.workers, e.w, Apply(s, e).workers[e.w]);
  }

  /** Deadlock freedom: while work remains, some worker can take a step. */
  lemma {:induction false} SomeWorkerCanStep(s: State)
    requires Inv(s) && s.workers != [] && !Drained(s)
    ensures exists e :: WorkerStep(e) && Enabled(s, e)
  {
    if w :| 0 <= w < |s.workers| && s.workers[w].Indexing? {
      assert Enabled(s, FinishIndex(w, Raised("")));
    } else if w :| 0 <= w < |s.workers| && s.workers[w].Recording? {
      assert Enabled(s, FinishRecord(w));
    } else if w :| 0 <= w < |s.workers| && s.workers[w].Waiting? {
      var k := s.workers[w].job.Key();
      var lock := LockOf(s, k);
      assert WorkerInv(s, w) && LineInv(s, k);
      assert forall v :: !HeldBy(s, k, v);
      assert s.workers[lock.waiters[0]].job.Key() == k;
      assert Enabled(s, Acquire(lock.waiters[0]));
    } else {
      assert forall v :: 0 <= v < |s.workers| ==> s.workers[v].Idle?;
      assert Enabled(s, Get(0));
    }
  }

  lemma {:induction false} WorkerRunIsBounded(s: State, es: seq<Event>)
    requires Admissible(s, es) && forall e :: e in es ==> WorkerStep(e)
    ensures |es| + Remaining(After(s, es)) <= Remaining(s)
    decreases |es|
  {
    if es != [] {
      WorkerStepDecreases(s, es[0]);
      WorkerRunIsBounded(Apply(s, es[0]), es[1..]);
    }
  }

  lemma {:induction false} StepKeepsWorkerCount(s: State, es: seq<Event>)
    requires Admissible(s, es)
    ensures |After(s, es).workers| == |s.workers|
    decreases |es|
  {
    if es != [] {
      StepKeepsWorkerCount(Apply(s, es[0]), es[1..]);
    }
  }

  /** With no more pushes the workers drain everything in a bounded number of steps, whatever order they
      run in and however many runs fail; then the queue's unfinished count is zero. */
  lemma {:induction false} WorkersDrainTheQueue(s: State, es: seq<Event>)
    requires Inv(s) && s.workers != []
    requires Admissible(s, es) && forall e :: e in es ==> WorkerStep(e)
    ensures |es| <= Remaining(s)
    ensures var t := After(s, es);
            && ((exists e :: WorkerStep(e) && Enabled(t, e)) <==> !Drained(t))
            && (Drained(t) <==> t.unfinished == 0)
  {
    var t := After(s, es);
    WorkerRunIsBounded(s, es);
    RunKeepsInv(s, es);
    StepKeepsWorkerCount(s, es);
    if !Drained(t) {
      SomeWorkerCanStep(t);
    }
    NoneBusyMeansIdle(t.workers);
  }

  lemma {:induction false} NoneBusyMeansIdle(workers: seq<Phase>)
    ensures Busy(workers) == 0 <==> forall w :: 0 <= w < |workers| ==> workers[w].Idle?
  {
    if workers != [] {
      var n := |workers| - 1;
      NoneBusyMeansIdle(workers[..n]);
      assert forall w :: 0 <= w < n ==> workers[..n][w] == workers[w];
    }
  }

  // ── coalescing ───────────────────────────────────────────────────

  /** Pushes of the key coalesce: at most one of its jobs waits, and while one does the key is pending. */
  predicate Coalesced(s: State, k: string) {
    |NotStarted(s, k)| <= 1 && (NotStarted(s, k) != [] ==> k in s.pending)
  }

  /** A run of the key leaves its lock, discarding the pending mark of a follow-up that already waits. */
  predicate DropsTheMark(s: State, e: Event, k: string)
    requires Enabled(s, e)
  {
    Leaves(s, e, k) && NotStarted(s, k) != []
  }

  /** A step ends the coalescing of a key exactly when it drops the mark of a waiting follow-up. */
  lemma {:induction false} StepKeepsCoalesced(s: State, e: Event, k: string)
    requires Inv(s) && Enabled(s, e) && Coalesced(s, k)
    ensures Coalesced(Apply(s, e), k) <==> !DropsTheMark(s, e, k)
  {
    StepConserves(s, e, k);
    match e
    case Enqueue(job) => OfSingle(k, job);
    case Get(w) =>
    case Acquire(w) => OfSingle(k, s.workers[w].job);
    case FinishIndex(w, _) => FinishConserves(s, e, k);
    case FinishRecord(w) => FinishConserves(s, e, k);
  }

  /** A second job of the key is accepted while one waits. */
  predicate AcceptsASecond(s: State, e: Event, k: string) {
    e.Enqueue? && e.job.Key() == k && k !in s.pending && NotStarted(s, k) != []
  }

  lemma {:induction false} StepKeepsAtMostOne(s: State, e: Event, k: string)
    requires Inv(s) && Enabled(s, e) && |NotStarted(s, k)| <= 1
    ensures |NotStarted(Apply(s, e), k)| <= 1 <==> !AcceptsASecond(s, e, k)
  {
    StepConserves(s, e, k);
    match e
    case Enqueue(job) => OfSingle(k, job);
    case Acquire(w) => OfSingle(k, s.workers[w].job);
    case _ =>
  }

  /** The state before the i-th step of a run, and the step. */
  lemma {:induction false} AtStep(s: State, es: seq<Event>, i: nat)
    requires Admissible(s, es) && i < |es|
    ensures Admissible(s, es[..i]) && Admissible(s, es[..i + 1]) && Enabled(After(s, es[..i]), es[i])
    ensures After(s, es[..i + 1]) == Apply(After(s, es[..i]), es[i])
    decreases |es|
  {
    hide Enabled, Apply;
    if i == 0 {
      assert es[..1][1..] == [] && es[..1][0] == es[0];
    } else {
      AtStep(Apply(s, es[0]), es[1..], i - 1);
      assert es[..i][1..] == es[1..][..i - 1] && es[..i + 1][1..] == es[1..][..i];
      assert es[..i][0] == es[0] && es[..i + 1][0] == es[0];
    }
  }

  lemma {:induction false} WholeRun(s: State, es: seq<Event>)
    requires Admissible(s, es)
    ensures forall i :: 0 <= i <= |es| ==> Admissible(s, es[..i])
    ensures forall i :: 0 <= i < |es| ==> Enabled(After(s, es[..i]), es[i])
  {
    hide Enabled, Apply, After, Admissible;
    assert es[..|es|] == es;
    forall i | 0 <= i < |es| ensures Admissible(s, es[..i]) && Enabled(After(s, es[..i]), es[i]) {
      AtStep(s, es, i);
    }
  }

  ghost predicate AlwaysCoalesced(s: State, es: seq<Event>, k: string)
    requires forall i :: 0 <= i <= |es| ==> Admissible(s, es[..i])
  {
    forall i :: 0 <= i <= |es| ==> Coalesced(After(s, es[..i]), k)
  }

  ghost predicate NeverDropsTheMark(s: State, es: seq<Event>, k: string)
    requires forall i :: 0 <= i <= |es| ==> Admissible(s, es[..i])
    requires forall i :: 0 <= i < |es| ==> Enabled(After(s, es[..i]), es[i])
  {
    forall i :: 0 <= i < |es| ==> !DropsTheMark(After(s, es[..i]), es[i], k)
  }

  lemma {:induction false} CoalescedUpTo(s: State, es: seq<Event>, k: string, n: nat)
    requires Inv(s) && Admissible(s, es) && n <= |es| && Coalesced(s, k)
    requires forall i :: 0 <= i <= |es| ==> Admissible(s, es[..i])
    requires forall i :: 0 <= i < |es| ==> Enabled(After(s, es[..i]), es[i])
    requires forall i :: 0 <= i < n ==> !DropsTheMark(After(s, es[..i]), es[i], k)
    ensures Coalesced(After(s, es[..n]), k)
  {
    hide Apply, Enabled, Inv, Coalesced, DropsTheMark;
    if n > 0 {
      CoalescedUpTo(s, es, k, n - 1);
      AtStep(s, es, n - 1);
      RunKeepsInv(s, es[..n - 1]);
      StepKeepsCoalesced(After(s, es[..n - 1]), es[n - 1], k);
    }
  }

  /** Over a whole run from the start: pushes of a key coalesce in every state if and only if no step of the run
      drops the mark of a waiting follow-up. */
  lemma {:induction false} CoalescesExactlyWhen(concurrency: nat, es: seq<Event>, k: string)
    requires Admissible(Init(concurrency), es)
    ensures forall i :: 0 <= i <= |es| ==> Admissible(Init(concurrency), es[..i])
    ensures forall i :: 0 <= i < |es| ==> Enabled(After(Init(concurrency), es[..i]), es[i])
    ensures AlwaysCoalesced(Init(concurrency), es, k) <==> NeverDropsTheMark(Init(concurrency), es, k)
  {
    var s := Init(concurrency);
    InitInv(concurrency);
    WholeRun(s, es);
    assert Coalesced(s, k);
    hide Apply, Enabled, Inv, Coalesced, DropsTheMark, After, Admissible, Init;
    if NeverDropsTheMark(s, es, k) {
      forall n | 0 <= n <= |es| ensures Coalesced(After(s, es[..n]), k) {
        CoalescedUpTo(s, es, k, n);
      }
    } else {
      var i :| 0 <= i < |es| && DropsTheMark(After(s, es[..i]), es[i], k);
      AtStep(s, es, i);
      RunKeepsInv(s, es[..i]);
      if Coalesced(After(s, es[..i]), k) {
        StepKeepsCoalesced(After(s, es[..i]), es[i], k);
      }
    }
  }

  /** So at every moment of a run at which two jobs of a key wait, a second was accepted before, and before that the
      mark of the first was dropped. */
  lemma {:induction false} TwoWaitOnlyAfter(concurrency: nat, es: seq<Event>, k: string) returns (i: nat, j: nat)
    requires Admissible(Init(concurrency), es) && |NotStarted(After(Init(concurrency), es), k)| >= 2
    ensures i < j < |es| && Admissible(Init(concurrency), es[..i]) && Admissible(Init(concurrency), es[..j])
    ensures Enabled(After(Init(concurrency), es[..i]), es[i])
    ensures DropsTheMark(After(Init(concurrency), es[..i]), es[i], k)
    ensures AcceptsASecond(After(Init(concurrency), es[..j]), es[j], k)
  {
    var s := Init(concurrency);
    InitInv(concurrency);
    WholeRun(s, es);
    assert Coalesced(s, k) && es[..|es|] == es;
    hide Apply, Enabled, Inv, DropsTheMark, After, Admissible, Init, NotStarted;
    j := FirstSecond(s, es, k, |es|);
    assert !Coalesced(After(s, es[..j]), k);
    if forall m :: 0 <= m < j ==> !DropsTheMark(After(s, es[..m]), es[m], k) {
      CoalescedUpTo(s, es, k, j);
    }
    var m :| 0 <= m < j && DropsTheMark(After(s, es[..m]), es[m], k);
    i := m;
  }

  lemma {:induction false} FirstSecond(s: State, es: seq<Event>, k: string, n: nat) returns (j: nat)
    requires Inv(s) && Admissible(s, es) && n <= |es| && |NotStarted(s, k)| <= 1
    requires (forall i :: 0 <= i <= |es| ==> Admissible(s, es[..i])) && |NotStarted(After(s, es[..n]), k)| >= 2
    ensures j < n && AcceptsASecond(After(s, es[..j]), es[j], k)
  {
    hide Apply, Enabled, Inv, NotStarted, AcceptsASecond;
    assert es[..0] == [];
    AtStep(s, es, n - 1);
    RunKeepsInv(s, es[..n - 1]);
    if |NotStarted(After(s, es[..n - 1]), k)| <= 1 {
      StepKeepsAtMostOne(After(s, es[..n - 1]), es[n - 1], k);
      j := n - 1;
    } else {
      j := FirstSecond(s, es, k, n - 1);
    }
  }

  /** The step ends a job of the key. */
  predicate Leaves(s: State, e: Event, k: string)
    requires Enabled(s, e)
  {
    match e
    case FinishIndex(w, outcome) => s.workers[w].job.Key() == k && !(outcome.Returned? && outcome.ok)
    case FinishRecord(w) => s.workers[w].job.Key() == k
    case _ => false
  }

  lemma {:induction false} OneMoreStep(s: State, e: Event, es: seq<Event>, t: State)
    requires Enabled(s, e) && Admissible(Apply(s, e), es) && After(Apply(s, e), es) == t
    ensures Admissible(s, [e] + es) && After(s, [e] + es) == t
  {
    hide Apply, Enabled;
    assert ([e] + es)[1..] == es;
  }

  /** A job of the only worker, from the queue to its run. */
  lemma {:induction false} FirstJobStarts(job: IndexJob) returns (s: State)
    ensures Admissible(Init(1), [Enqueue(job), Get(0), Acquire(0)])
    ensures After(Init(1), [Enqueue(job), Get(0), Acquire(0)]) == s
    ensures s.workers == [Indexing(job)] && s.queue == [] && job.Key() !in s.pending
  {
    var s0 := Init(1);
    var s1 := Apply(s0, Enqueue(job));
    assert s1.queue == [job];
    var s2 := Apply(s1, Get(0));
    assert s2.queue == [] && s2.workers == [Waiting(job)] && LockOf(s2, job.Key()) == Lock(false, [0]);
    s := Apply(s2, Acquire(0));
    assert Admissible(s, []);
    hide Apply, Enabled;
    OneMoreStep(s2, Acquire(0), [], s);
    OneMoreStep(s1, Get(0), [Acquire(0)], s);
    OneMoreStep(s0, Enqueue(job), [Get(0), Acquire(0)], s);
    assert [Get(0)] + [Acquire(0)] == [Get(0), Acquire(0)] && [Acquire(0)] + [] == [Acquire(0)];
    assert [Enqueue(job)] + [Get(0), Acquire(0)] == [Enqueue(job), Get(0), Acquire(0)];
  }

  lemma {:induction false} AfterInTwo(s: State, a: seq<Event>, b: seq<Event>)
    requires Admissible(s, a) && Admissible(After(s, a), b)
    ensures Admissible(s, a + b) && After(s, a + b) == After(After(s, a), b)
    decreases |a|
  {
    hide Apply, Enabled;
    if a == [] {
      assert a + b == b;
    } else {
      assert (a + b)[0] == a[0] && (a + b)[1..] == a[1..] + b;
      AfterInTwo(Apply(s, a[0]), a[1..], b);
    }
  }

  lemma {:induction false} FollowUpsPileUp(s: State, job: IndexJob)
    requires s.workers == [Indexing(job)] && s.queue == [] && job.Key() !in s.pending
    ensures var es := [Enqueue(job), FinishIndex(0, Raised("boom")), Enqueue(job)];
            Admissible(s, es) && After(s, es).queue == [job, job]
  {
    var s1 := Apply(s, Enqueue(job));
    assert s1.queue == [job] && s1.workers == [Indexing(job)];
    var s2 := Apply(s1, FinishIndex(0, Raised("boom")));
    assert s2.queue == [job] && job.Key() !in s2.pending;
    var s3 := Apply(s2, Enqueue(job));
    assert s3.queue == [job, job] && Admissible(s3, []);
    hide Apply, Enabled;
    OneMoreStep(s2, Enqueue(job), [], s3);
    OneMoreStep(s1, FinishIndex(0, Raised("boom")), [Enqueue(job)], s3);
    OneMoreStep(s, Enqueue(job), [FinishIndex(0, Raised("boom")), Enqueue(job)], s3);
    assert [Enqueue(job)] + [] == [Enqueue(job)];
    assert [FinishIndex(0, Raised("boom"))] + [Enqueue(job)] == [FinishIndex(0, Raised("boom")), Enqueue(job)];
    assert [Enqueue(job)] + [FinishIndex(0, Raised("boom")), Enqueue(job)] ==
           [Enqueue(job), FinishIndex(0, Raised("boom")), Enqueue(job)];
  }

  /** It happens: a push while the key is indexed, the end of that run, another push. */
  lemma {:induction false} TwoJobsCanWait(job: IndexJob)
    ensures var es := [Enqueue(job), Get(0), Acquire(0)] + [Enqueue(job), FinishIndex(0, Raised("boom")), Enqueue(job)];
            Admissible(Init(1), es) && After(Init(1), es).queue == [job, job]
  {
    hide Apply, Enabled, Init;
    var s := FirstJobStarts(job);
    FollowUpsPileUp(s, job);
    AfterInTwo(Init(1), [Enqueue(job), Get(0), Acquire(0)],
               [Enqueue(job), FinishIndex(0, Raised("boom")), Enqueue(job)]);
  }

  // ── the object ───────────────────────────────────────────────────

  /** The indexer. Each method is what one coroutine does between two suspension points; the loop of a
      worker is the cycle Get, Acquire, FinishIndex and, after a successful run, FinishRecord. */
  class Indexer {
    var queue: seq<IndexJob>
    var pending: set<string>
    var projectLocks: map<string, Lock>
    var workers: seq<Phase>
    var lastResults: map<string, JobResult>
    var unfinished: int

    function View(): State
      reads this
    {
      State(queue, pending, projectLocks, workers, lastResults, unfinished)
    }

    constructor (concurrency: nat)
      ensures View() == Init(concurrency) && Inv(View())
    {
      queue, pending, projectLocks, lastResults, unfinished := [], {}, map[], map[], 0;
      workers := seq(concurrency, _ => Idle);
      new;
      InitInv(concurrency);
    }

    method Enqueue(job: IndexJob) returns (accepted: bool)
      requires Inv(View())
      modifies this
      ensures View() == Apply(old(View()), Event.Enqueue(job)) && Inv(View())
      ensures accepted <==> job.Key() !in old(pending)
    {
      StepKeepsInv(View(), Event.Enqueue(job));
      if job.Key() in pending {
        return false;
      }
      pending := pending + {job.Key()};
      queue := queue + [job];
      unfinished := unfinished + 1;
      return true;
    }

    method Get(w: nat)
      requires Inv(View()) && Enabled(View(), Event.Get(w))
      modifies this
      ensures View() == Apply(old(View()), Event.Get(w)) && Inv(View())
    {
      StepKeepsInv(View(), Event.Get(w));
      var job := queue[0];
      queue := queue[1..];
      if job.Key() !in projectLocks {
        projectLocks := projectLocks[job.Key() := Lock(false, [])];
      }
      var lock := projectLocks[job.Key()];
      projectLocks := projectLocks[job.Key() := lock.(waiters := lock.waiters + [w])];
      workers := workers[w := Waiting(job)];
    }

    method Acquire(w: nat)
      requires Inv(View()) && Enabled(View(), Event.Acquire(w))
      modifies this
      ensures View() == Apply(old(View()), Event.Acquire(w)) && Inv(View())
    {
      StepKeepsInv(View(), Event.Acquire(w));
      var job := workers[w].job;
      projectLocks := projectLocks[job.Key() := Lock(true, LockOf(View(), job.Key()).waiters[1..])];
      pending := pending - {job.Key()};
      workers := workers[w := Indexing(job)];
    }

    method FinishIndex(w: nat, outcome: Outcome)
      requires Inv(View()) && Enabled(View(), Event.FinishIndex(w, outcome))
      modifies this
      ensures View() == Apply(old(View()), Event.FinishIndex(w, outcome)) && Inv(View())
    {
      StepKeepsInv(View(), Event.FinishIndex(w, outcome));
      var job := workers[w].job;
      lastResults := lastResults[job.Key() := ResultOf(job, outcome)];
      if outcome.Returned? && outcome.ok {
        workers := workers[w := Recording(job)];
      } else {
        Leave(w, job);
      }
    }

    method FinishRecord(w: nat)
      requires Inv(View()) && Enabled(View(), Event.FinishRecord(w))
      modifies this
      ensures View() == Apply(old(View()), Event.FinishRecord(w)) && Inv(View())
    {
      StepKeepsInv(View(), Event.FinishRecord(w));
      Leave(w, workers[w].job);
    }

    /** Unlock, then the `finally` block. */
    method Leave(w: nat, job: IndexJob)
      requires w < |workers|
      modifies this
      ensures View() == Release(old(View()), w, job.Key())
    {
      projectLocks := projectLocks[job.Key() := LockOf(View(), job.Key()).(locked := false)];
      workers := workers[w := Idle];
      pending := pending - {job.Key()};
      unfinished := unfinished - 1;
    }
  }
}
