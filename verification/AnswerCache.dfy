/** The per-squad answer cache: two-tier lookup, store, epochs and the sweep, over its two tables. */
module AnswerCache {
  import opened Wrappers
  import opened CacheLibrary
  import opened QuestionForm
  import opened Vectors

  const CANDIDATE_LIMIT := 5000

  datatype CacheKey = CacheKey(tenant: string, project: string, tool: string, epoch: nat)

  /** One row of the cache table. Times are in microseconds. */
  datatype Entry = Entry(
    id: nat,
    key: CacheKey,
    questionHash: string,
    question: string,
    answer: string,
    answerModel: string,
    embeddingModel: Option<string>,
    embedding: Option<seq<Byte>>,
    embeddingDim: nat,
    hits: nat,
    createdAt: int,
    lastHitAt: Option<int>)

  datatype IndexState = IndexState(epoch: nat, lastCommit: Option<string>, lastIndexedAt: int)

  datatype Db = Db(entries: seq<Entry>, states: map<(string, string), IndexState>, nextId: nat)

  /** A lookup's arguments. An empty model name is no model. */
  datatype Request = Request(
    key: CacheKey,
    question: string,
    embedding: Option<seq<real>>,
    model: string,
    threshold: real,
    ttl: int)

  /** A lookup as the tables see it: the question's hash, and how to score a row against it. */
  datatype Query = Query(key: CacheKey, hash: string, scoring: Option<Scoring>, threshold: real, ttl: int)

  datatype Scoring = Scoring(model: string, dim: nat, score: Entry -> real)

  datatype Found =
    | Nothing
    | Exact(entry: Entry)
    | Semantic(entry: Entry, similarity: real)
    | MultipleRows            // the exact query found more than one row and raised

  // ── selecting rows ───────────────────────────────────────────────

  function Keep(rows: seq<Entry>, p: Entry -> bool): seq<Entry> {
    if rows == [] then []
    else Keep(rows[..|rows| - 1], p) + (if p(rows[|rows| - 1]) then [rows[|rows| - 1]] else [])
  }

  function HasExactKey(key: CacheKey, hash: string): Entry -> bool {
    (e: Entry) => e.key == key && e.questionHash == hash
  }

  function LacksExactKey(key: CacheKey, hash: string): Entry -> bool {
    (e: Entry) => !(e.key == key && e.questionHash == hash)
  }

  function IsCandidate(key: CacheKey, model: string, dim: nat): Entry -> bool {
    (e: Entry) => e.key == key && e.embeddingModel == Some(model) && e.embeddingDim == dim && e.embedding.Some?
  }

  function IsFresh(cutoff: Option<int>): Entry -> bool {
    (e: Entry) => cutoff.None? || e.createdAt >= cutoff.value
  }

  /** A later index of the row's project has been recorded. */
  predicate Superseded(states: map<(string, string), IndexState>, e: Entry) {
    var project := (e.key.tenant, e.key.project);
    project in states && e.key.epoch < states[project].epoch
  }

  function IsCurrent(states: map<(string, string), IndexState>): Entry -> bool {
    (e: Entry) => !Superseded(states, e)
  }

  lemma {:induction false} KeepAppend(a: seq<Entry>, b: seq<Entry>, p: Entry -> bool)
    ensures Keep(a + b, p) == Keep(a, p) + Keep(b, p)
  {
    if b == [] {
      assert a + b == a;
    } else {
      assert (a + b)[..|a + b| - 1] == a + b[..|b| - 1];
      KeepAppend(a, b[..|b| - 1], p);
    }
  }

  lemma {:induction false} KeepOne(e: Entry, p: Entry -> bool)
    ensures Keep([e], p) == if p(e) then [e] else []
  {
    assert [e][..0] == [];
  }

  lemma {:induction false} KeepMembers(rows: seq<Entry>, p: Entry -> bool)
    ensures forall e :: e in Keep(rows, p) <==> e in rows && p(e)
    ensures |Keep(rows, p)| <= |rows|
  {
    if rows != [] {
      var n := |rows| - 1;
      KeepMembers(rows[..n], p);
      assert rows == rows[..n] + [rows[n]];
    }
  }

  /** Dropping rows a query would not have selected does not change the query. */
  lemma {:induction false} KeepWithin(rows: seq<Entry>, wide: Entry -> bool, narrow: Entry -> bool)
    requires forall e :: e in rows && narrow(e) ==> wide(e)
    ensures Keep(Keep(rows, wide), narrow) == Keep(rows, narrow)
  {
    if rows != [] {
      var n := |rows| - 1;
      KeepWithin(rows[..n], wide, narrow);
      KeepAppend(Keep(rows[..n], wide), if wide(rows[n]) then [rows[n]] else [], narrow);
      KeepOne(rows[n], narrow);
      assert rows[n] in rows;
    }
  }

  lemma {:induction false} KeepAll(rows: seq<Entry>, p: Entry -> bool)
    requires forall e :: e in rows ==> p(e)
    ensures Keep(rows, p) == rows
  {
    if rows != [] {
      KeepAll(rows[..|rows| - 1], p);
      assert rows[|rows| - 1] in rows;
    }
  }

  lemma {:induction false} KeepNone(rows: seq<Entry>, p: Entry -> bool)
    requires forall e :: e in rows ==> !p(e)
    ensures Keep(rows, p) == []
  {
    if rows != [] {
      KeepNone(rows[..|rows| - 1], p);
      assert rows[|rows| - 1] in rows;
    }
  }

  function Count(rows: seq<Entry>, e: Entry): nat {
    if rows == [] then 0 else Count(rows[..|rows| - 1], e) + (if rows[|rows| - 1] == e then 1 else 0)
  }

  /** The same rows in another order. */
  ghost predicate Reorders(a: seq<Entry>, b: seq<Entry>) {
    forall e :: Count(a, e) == Count(b, e)
  }

  lemma {:induction false} CountMembers(rows: seq<Entry>, e: Entry)
    ensures Count(rows, e) > 0 <==> e in rows
  {
    if rows != [] {
      var n := |rows| - 1;
      CountMembers(rows[..n], e);
      assert rows == rows[..n] + [rows[n]];
    }
  }

  lemma {:induction false} KeepCount(rows: seq<Entry>, p: Entry -> bool, e: Entry)
    ensures Count(Keep(rows, p), e) == if p(e) then Count(rows, e) else 0
  {
    if rows != [] {
      var n := |rows| - 1;
      var kept := Keep(rows[..n], p);
      KeepCount(rows[..n], p, e);
      if p(rows[n]) {
        assert (kept + [rows[n]])[..|kept|] == kept;
      } else {
        assert kept + [] == kept;
      }
    }
  }

  lemma {:induction false} KeepReorders(a: seq<Entry>, b: seq<Entry>, p: Entry -> bool)
    requires Reorders(a, b)
    ensures Reorders(Keep(a, p), Keep(b, p))
  {
    forall e ensures Count(Keep(a, p), e) == Count(Keep(b, p), e) {
      KeepCount(a, p, e);
      KeepCount(b, p, e);
    }
  }

  // ── epochs ───────────────────────────────────────────────────────

  function CurrentEpoch(db: Db, tenant: string, project: string): nat {
    if (tenant, project) in db.states then db.states[(tenant, project)].epoch else 0
  }

  function BumpIn(db: Db, tenant: string, project: string, commit: Option<string>, now: int): Db {
    var k := (tenant, project);
    if k !in db.states then db.(states := db.states[k := IndexState(1, commit, now)])
    else
      var row := db.states[k];
      db.(states := db.states[k := IndexState(
                                     row.epoch + 1,
                                     if commit.Some? && commit.value != "" then commit else row.lastCommit,
                                     now)])
  }

  // ── the table invariant ──────────────────────────────────────────

  predicate BlobFits(e: Entry) {
    e.embedding.Some? ==> |e.embedding.value| == 4 * e.embeddingDim
  }

  predicate SameExactKey(a: Entry, b: Entry) { a.key == b.key && a.questionHash == b.questionHash }

  /** One row per exact key, one row per id, and every blob as long as its dimension says. */
  predicate Valid(db: Db) {
    && (forall i :: 0 <= i < |db.entries| ==> db.entries[i].id < db.nextId && BlobFits(db.entries[i]))
    && (forall i, j :: 0 <= i < j < |db.entries| ==>
          db.entries[i].id != db.entries[j].id && !SameExactKey(db.entries[i], db.entries[j]))
  }

  /** No answer is filed under an epoch its project has not reached. */
  predicate NotAhead(db: Db) {
    forall i :: 0 <= i < |db.entries| ==>
      db.entries[i].key.epoch <= CurrentEpoch(db, db.entries[i].key.tenant, db.entries[i].key.project)
  }

  // ── lookup ───────────────────────────────────────────────────────

  function Cutoff(now: int, ttl: int): Option<int> { if ttl > 0 then Some(now - ttl) else None }

  /** Only entries embedded by the same model, in the same dimension, are comparable. */
  function Prepare(lib: Library, r: Request): Query {
    Query(r.key, QuestionHash(lib, r.question),
          if r.embedding.None? || r.model == "" then None
          else Some(Scoring(r.model, |r.embedding.value|, Scorer(lib, r.embedding.value))),
          r.threshold, r.ttl)
  }

  function ExactRows(db: Db, q: Query): seq<Entry> {
    Keep(db.entries, HasExactKey(q.key, q.hash))
  }

  function Candidates(db: Db, q: Query): seq<Entry> {
    if q.scoring.None? then [] else Keep(db.entries, IsCandidate(q.key, q.scoring.value.model, q.scoring.value.dim))
  }

  predicate NewestFirst(rows: seq<Entry>) {
    forall i, j :: 0 <= i < j < |rows| ==> rows[i].createdAt >= rows[j].createdAt
  }

  /** An order in which the database may return the candidates; rows of one instant come in any order. */
  ghost predicate CandidateOrder(order: seq<Entry>, db: Db, q: Query) {
    NewestFirst(order) && Reorders(order, Candidates(db, q))
  }

  function Take(rows: seq<Entry>, n: nat): seq<Entry> { if |rows| <= n then rows else rows[..n] }

  function Values(lib: Library, words: seq<Word>): seq<real> {
    seq(|words|, i requires 0 <= i < |words| => lib.value(words[i]))
  }

  /** The similarity of a row to the question's vector. */
  function Scorer(lib: Library, query: seq<real>): Entry -> real {
    (e: Entry) =>
      match Unpack(if e.embedding.Some? then e.embedding.value else [])
      case Some(words) => Cosine(lib, query, Values(lib, words))
      case None => 0.0
  }

  /** The scoring loop: the first strictly best of the unexpired rows, and its score. */
  function Scan(score: Entry -> real, rows: seq<Entry>, cutoff: Option<int>): (Option<Entry>, real) {
    if rows == [] then (None, 0.0)
    else
      var e := rows[|rows| - 1];
      var (best, top) := Scan(score, rows[..|rows| - 1], cutoff);
      if IsFresh(cutoff)(e) && score(e) > top then (Some(e), score(e)) else (best, top)
  }

  function FindAmong(exact: seq<Entry>, order: seq<Entry>, now: int, q: Query): Found {
    if |exact| > 1 then MultipleRows
    else if |exact| == 1 && IsFresh(Cutoff(now, q.ttl))(exact[0]) then Exact(exact[0])
    else if q.scoring.None? then Nothing
    else
      var (best, top) := Scan(q.scoring.value.score, Take(order, CANDIDATE_LIMIT), Cutoff(now, q.ttl));
      if best.None? || top < q.threshold then Nothing else Semantic(best.value, top)
  }

  /** `order` is the candidate query's answer, should the lookup come to ask it. */
  function Find(db: Db, order: seq<Entry>, now: int, q: Query): Found {
    FindAmong(ExactRows(db, q), order, now, q)
  }

  function Touch(e: Entry, id: nat, now: int): Entry {
    if e.id == id then e.(hits := e.hits + 1, lastHitAt := Some(now)) else e
  }

  function RecordHit(rows: seq<Entry>, id: nat, now: int): (r: seq<Entry>)
    ensures |r| == |rows|
    ensures forall i :: 0 <= i < |rows| ==> r[i] == Touch(rows[i], id, now)
  {
    if rows == [] then [] else RecordHit(rows[..|rows| - 1], id, now) + [Touch(rows[|rows| - 1], id, now)]
  }

  function LookupIn(db: Db, order: seq<Entry>, now: int, q: Query): (Found, Db) {
    var found := Find(db, order, now, q);
    (found, if found.Exact? || found.Semantic? then db.(entries := RecordHit(db.entries, found.entry.id, now)) else db)
  }

  // ── store and purges ─────────────────────────────────────────────

  /** An answer to file. An empty vector is no vector. */
  datatype Answer = Answer(
    question: string,
    text: string,
    model: string,
    embedding: seq<Word>,
    embeddingModel: Option<string>)

  function NewEntry(lib: Library, id: nat, key: CacheKey, a: Answer, now: int): Entry {
    Entry(id, key, QuestionHash(lib, a.question), a.question, a.text, a.model, a.embeddingModel,
          if a.embedding != [] then Some(Pack(a.embedding)) else None, |a.embedding|, 0, now, None)
  }

  function StoreIn(lib: Library, db: Db, key: CacheKey, a: Answer, now: int): Db {
    Db(Keep(db.entries, LacksExactKey(key, QuestionHash(lib, a.question))) + [NewEntry(lib, db.nextId, key, a, now)],
       db.states, db.nextId + 1)
  }

  function WithoutSuperseded(db: Db): Db {
    db.(entries := Keep(db.entries, IsCurrent(db.states)))
  }

  /** The sweep's second delete: rows filed before a moment. */
  function WithoutOlder(db: Db, moment: int): Db {
    db.(entries := Keep(db.entries, IsFresh(Some(moment))))
  }

  function Sweep(db: Db, now: int, ttl: int): Db {
    if ttl > 0 then WithoutOlder(WithoutSuperseded(db), now - ttl) else WithoutSuperseded(db)
  }

  // ── every operation keeps the tables valid ───────────────────────

  lemma {:induction false} KeepKeepsDistinct(rows: seq<Entry>, p: Entry -> bool)
    requires forall i, j :: 0 <= i < j < |rows| ==> rows[i].id != rows[j].id && !SameExactKey(rows[i], rows[j])
    ensures var kept := Keep(rows, p);
            forall i, j :: 0 <= i < j < |kept| ==> kept[i].id != kept[j].id && !SameExactKey(kept[i], kept[j])
  {
    if rows != [] {
      var n := |rows| - 1;
      KeepKeepsDistinct(rows[..n], p);
      KeepMembers(rows[..n], p);
      var kept := Keep(rows[..n], p);
      forall i | 0 <= i < |kept| ensures kept[i].id != rows[n].id && !SameExactKey(kept[i], rows[n]) {
        assert kept[i] in rows[..n];
      }
    }
  }

  lemma {:induction false} PurgeKeepsValid(db: Db, p: Entry -> bool)
    requires Valid(db)
    ensures Valid(db.(entries := Keep(db.entries, p)))
    ensures NotAhead(db) ==> NotAhead(db.(entries := Keep(db.entries, p)))
  {
    var kept := Keep(db.entries, p);
    KeepKeepsDistinct(db.entries, p);
    KeepMembers(db.entries, p);
    forall i | 0 <= i < |kept| ensures kept[i] in db.entries { assert kept[i] in kept; }
  }

  /** Filing an answer keeps one row per exact key; under an epoch already reached it keeps no row ahead. */
  lemma {:induction false} StoreKeepsValid(lib: Library, db: Db, key: CacheKey, a: Answer, now: int)
    requires Valid(db)
    ensures Valid(StoreIn(lib, db, key, a, now))
    ensures NotAhead(db) && key.epoch <= CurrentEpoch(db, key.tenant, key.project) ==>
              NotAhead(StoreIn(lib, db, key, a, now))
  {
    var p := LacksExactKey(key, QuestionHash(lib, a.question));
    var kept := db.(entries := Keep(db.entries, p));
    PurgeKeepsValid(db, p);
    KeepMembers(db.entries, p);
    UnpackPack(a.embedding);
    forall i | 0 <= i < |kept.entries| ensures p(kept.entries[i]) { assert kept.entries[i] in kept.entries; }
    AddKeepsValid(kept, NewEntry(lib, db.nextId, key, a, now));
  }

  lemma AddKeepsValid(db: Db, e: Entry)
    requires Valid(db) && e.id == db.nextId && BlobFits(e)
    requires forall i :: 0 <= i < |db.entries| ==> !SameExactKey(db.entries[i], e)
    ensures Valid(Db(db.entries + [e], db.states, db.nextId + 1))
    ensures NotAhead(db) && e.key.epoch <= CurrentEpoch(db, e.key.tenant, e.key.project) ==>
              NotAhead(Db(db.entries + [e], db.states, db.nextId + 1))
  {
  }

  lemma {:induction false} LookupKeepsValid(db: Db, order: seq<Entry>, now: int, q: Query)
    requires Valid(db)
    ensures Valid(LookupIn(db, order, now, q).1)
    ensures NotAhead(db) ==> NotAhead(LookupIn(db, order, now, q).1)
  {
  }

  /** A recorded index moves one project's epoch up by one and nothing else. */
  lemma BumpMovesOneEpoch(
      db: Db, tenant: string, project: string, commit: Option<string>, now: int, t: string, p: string)
    ensures var db' := BumpIn(db, tenant, project, commit, now);
            && CurrentEpoch(db', t, p) == CurrentEpoch(db, t, p) + (if (t, p) == (tenant, project) then 1 else 0)
            && db'.entries == db.entries
            && (Valid(db) ==> Valid(db')) && (NotAhead(db) ==> NotAhead(db'))
  {
    var db' := BumpIn(db, tenant, project, commit, now);
    forall i | 0 <= i < |db.entries|
      ensures CurrentEpoch(db, db.entries[i].key.tenant, db.entries[i].key.project) <=
              CurrentEpoch(db', db.entries[i].key.tenant, db.entries[i].key.project)
    {
    }
  }

  // ── the exact tier ───────────────────────────────────────────────

  lemma TwoRowsClash(rows: seq<Entry>, key: CacheKey, hash: string)
    requires |rows| > 1 && forall e :: e in rows ==> HasExactKey(key, hash)(e)
    ensures exists i, j :: 0 <= i < j < |rows| && SameExactKey(rows[i], rows[j])
  {
    assert rows[0] in rows && rows[1] in rows;
    assert SameExactKey(rows[0], rows[1]);
  }

  /** The exact query never raises: valid tables hold at most one such row. */
  lemma {:induction false} AtMostOneExactRow(db: Db, q: Query)
    requires Valid(db)
    ensures |ExactRows(db, q)| <= 1
    ensures forall order, now :: !Find(db, order, now, q).MultipleRows?
  {
    var h := q.hash;
    var rows := ExactRows(db, q);
    KeepKeepsDistinct(db.entries, HasExactKey(q.key, h));
    KeepMembers(db.entries, HasExactKey(q.key, h));
    if |rows| > 1 {
      TwoRowsClash(rows, q.key, h);
    }
  }

  lemma {:induction false} StoreExactRows(lib: Library, db: Db, key: CacheKey, a: Answer, now: int, q: Query)
    requires Valid(db)
    ensures var same := q.key == key && q.hash == QuestionHash(lib, a.question);
            ExactRows(StoreIn(lib, db, key, a, now), q) ==
            if same then [NewEntry(lib, db.nextId, key, a, now)] else ExactRows(db, q)
  {
    var h := QuestionHash(lib, a.question);
    var p, others := HasExactKey(q.key, q.hash), LacksExactKey(key, h);
    var kept := Keep(db.entries, others);
    var e := NewEntry(lib, db.nextId, key, a, now);
    KeepAppend(kept, [e], p);
    KeepOne(e, p);
    if q.key == key && q.hash == h {
      KeepMembers(db.entries, others);
      KeepNone(kept, p);
    } else {
      KeepWithin(db.entries, others, p);
    }
  }

  /** An answer filed is the answer recalled, for every asking of the same normal form, with or without
      an embedding, until it expires. */
  lemma {:induction false} StoredAnswerIsRecalled(
      lib: Library, db: Db, key: CacheKey, a: Answer, storedAt: int, order: seq<Entry>, now: int, r: Request)
    requires Valid(db) && r.key == key
    requires Normalise(lib, r.question) == Normalise(lib, a.question)
    requires r.ttl > 0 ==> now <= storedAt + r.ttl
    ensures var found := Find(StoreIn(lib, db, key, a, storedAt), order, now, Prepare(lib, r));
            found.Exact? && found.entry.answer == a.text && found.entry.createdAt == storedAt
  {
    StoreExactRows(lib, db, key, a, storedAt, Prepare(lib, r));
  }

  lemma {:induction false} StoreCandidates(lib: Library, db: Db, key: CacheKey, a: Answer, now: int, q: Query)
    requires q.key != key
    ensures Candidates(StoreIn(lib, db, key, a, now), q) == Candidates(db, q)
  {
    if q.scoring.Some? {
      var p := IsCandidate(q.key, q.scoring.value.model, q.scoring.value.dim);
      var others := LacksExactKey(key, QuestionHash(lib, a.question));
      var e := NewEntry(lib, db.nextId, key, a, now);
      KeepAppend(Keep(db.entries, others), [e], p);
      KeepOne(e, p);
      KeepWithin(db.entries, others, p);
    }
  }

  /** Filing an answer disturbs no other question: under the same key the exact tier is unchanged for a
      question of another hash, and under another key the whole lookup is. */
  lemma {:induction false} StoreLeavesOthersAlone(
      lib: Library, db: Db, key: CacheKey, a: Answer, storedAt: int, order: seq<Entry>, now: int, q: Query)
    requires Valid(db)
    ensures var db' := StoreIn(lib, db, key, a, storedAt);
            && (q.hash != QuestionHash(lib, a.question) ==> ExactRows(db', q) == ExactRows(db, q))
            && (q.key != key ==>
                  && (CandidateOrder(order, db', q) <==> CandidateOrder(order, db, q))
                  && Find(db', order, now, q) == Find(db, order, now, q))
  {
    var db' := StoreIn(lib, db, key, a, storedAt);
    StoreExactRows(lib, db, key, a, storedAt, q);
    if q.key != key {
      StoreCandidates(lib, db, key, a, storedAt, q);
      SameCandidatesSameOrders(order, db', db, q);
    }
  }

  lemma SameCandidatesSameOrders(order: seq<Entry>, db: Db, other: Db, q: Query)
    requires Candidates(db, q) == Candidates(other, q)
    ensures CandidateOrder(order, db, q) <==> CandidateOrder(order, other, q)
  {
  }

  // ── the semantic tier ────────────────────────────────────────────

  predicate FirstBest(score: Entry -> real, rows: seq<Entry>, cutoff: Option<int>, i: nat) {
    && i < |rows| && IsFresh(cutoff)(rows[i])
    && forall j :: 0 <= j < i && IsFresh(cutoff)(rows[j]) ==> score(rows[j]) < score(rows[i])
  }

  /** What the scoring loop returns: nothing when no unexpired row scores above zero, otherwise the first
      row of the highest score. */
  lemma {:induction false} ScanFindsFirstBest(score: Entry -> real, rows: seq<Entry>, cutoff: Option<int>)
    ensures var (best, top) := Scan(score, rows, cutoff);
            && (forall j :: 0 <= j < |rows| && IsFresh(cutoff)(rows[j]) ==> score(rows[j]) <= top)
            && (if best.None? then top == 0.0 else
                && top > 0.0 && score(best.value) == top
                && exists i: nat :: FirstBest(score, rows, cutoff, i) && rows[i] == best.value)
  {
    if rows != [] {
      var n := |rows| - 1;
      ScanFindsFirstBest(score, rows[..n], cutoff);
      var (before, top) := Scan(score, rows[..n], cutoff);
      assert forall j :: 0 <= j < n ==> rows[..n][j] == rows[j];
      if IsFresh(cutoff)(rows[n]) && score(rows[n]) > top {
        assert FirstBest(score, rows, cutoff, n);
      } else if before.Some? {
        var i: nat :| FirstBest(score, rows[..n], cutoff, i) && rows[..n][i] == before.value;
        assert FirstBest(score, rows, cutoff, i) && rows[i] == before.value;
      }
    }
  }

  /** `e` is unexpired, no unexpired row scores higher, and none that scores the same is newer. */
  predicate NewestBest(score: Entry -> real, rows: seq<Entry>, cutoff: Option<int>, e: Entry) {
    && e in rows && IsFresh(cutoff)(e)
    && forall f :: f in rows && IsFresh(cutoff)(f) ==>
         && score(f) <= score(e)
         && (score(f) == score(e) ==> f.createdAt <= e.createdAt)
  }

  lemma {:induction false} FirstBestIsNewest(
      score: Entry -> real, rows: seq<Entry>, cutoff: Option<int>, i: nat, j: nat)
    requires NewestFirst(rows) && FirstBest(score, rows, cutoff, i)
    requires j < |rows| && IsFresh(cutoff)(rows[j]) && score(rows[j]) == score(rows[i])
    ensures rows[j].createdAt <= rows[i].createdAt
  {
  }

  lemma {:induction false} ScanFindsNewestBest(score: Entry -> real, rows: seq<Entry>, cutoff: Option<int>)
    requires NewestFirst(rows)
    ensures var (best, top) := Scan(score, rows, cutoff);
            && (forall e :: e in rows && IsFresh(cutoff)(e) ==> score(e) <= top)
            && (if best.None? then top == 0.0
                else top > 0.0 && score(best.value) == top && NewestBest(score, rows, cutoff, best.value))
  {
    var (best, top) := Scan(score, rows, cutoff);
    ScanFindsFirstBest(score, rows, cutoff);
    if best.Some? {
      var i: nat :| FirstBest(score, rows, cutoff, i) && rows[i] == best.value;
      forall j: nat | j < |rows| && IsFresh(cutoff)(rows[j]) && score(rows[j]) == top
        ensures rows[j].createdAt <= best.value.createdAt
      {
        FirstBestIsNewest(score, rows, cutoff, i, j);
      }
    }
  }

  /** The semantic tier against its declaration. When the exact tier has nothing, a lookup recalls an
      answer iff some unexpired candidate has a positive similarity that reaches the threshold, and
      what it recalls is the newest of the most similar unexpired candidates. */
  lemma {:induction false} SemanticTierMeetsItsSpec(db: Db, order: seq<Entry>, now: int, q: Query)
    requires Valid(db) && CandidateOrder(order, db, q)
    requires q.scoring.Some?
    requires !Find(db, order, now, q).Exact?
    ensures var rows, score, cutoff := Take(order, CANDIDATE_LIMIT), q.scoring.value.score, Cutoff(now, q.ttl);
            var found := Find(db, order, now, q);
            && (found.Semantic? <==>
                exists e :: e in rows && IsFresh(cutoff)(e) && score(e) > 0.0 && score(e) >= q.threshold)
            && (found.Semantic? ==>
                NewestBest(score, rows, cutoff, found.entry) && found.similarity == score(found.entry))
  {
    AtMostOneExactRow(db, q);
    if CANDIDATE_LIMIT < |order| {
      NewestFirstPrefix(order, CANDIDATE_LIMIT);
    }
    ScanFindsNewestBest(q.scoring.value.score, Take(order, CANDIDATE_LIMIT), Cutoff(now, q.ttl));
  }

  lemma {:induction false} ScanSkipsExpired(score: Entry -> real, rows: seq<Entry>, cutoff: Option<int>)
    ensures Scan(score, rows, cutoff) == Scan(score, Keep(rows, IsFresh(cutoff)), None)
  {
    if rows != [] {
      var n := |rows| - 1;
      ScanSkipsExpired(score, rows[..n], cutoff);
      var kept := Keep(rows[..n], IsFresh(cutoff));
      if IsFresh(cutoff)(rows[n]) {
        assert (kept + [rows[n]])[..|kept|] == kept;
      } else {
        assert kept + [] == kept;
      }
    }
  }

  lemma {:induction false} NewestFirstPrefix(rows: seq<Entry>, n: nat)
    requires NewestFirst(rows) && n <= |rows|
    ensures NewestFirst(rows[..n])
  {
  }

  lemma {:induction false} LastFreshAllFresh(rows: seq<Entry>, cutoff: Option<int>)
    requires NewestFirst(rows) && rows != [] && IsFresh(cutoff)(rows[|rows| - 1])
    ensures Keep(rows, IsFresh(cutoff)) == rows
  {
    forall e | e in rows ensures IsFresh(cutoff)(e) {
      var i :| 0 <= i < |rows| && rows[i] == e;
      assert i < |rows| - 1 ==> rows[i].createdAt >= rows[|rows| - 1].createdAt;
    }
    KeepAll(rows, IsFresh(cutoff));
  }

  /** Limiting the rows before the time-to-live filter selects the same rows as filtering first. */
  lemma {:induction false} LimitThenExpire(rows: seq<Entry>, cutoff: Option<int>, limit: nat)
    requires NewestFirst(rows)
    ensures Keep(Take(rows, limit), IsFresh(cutoff)) == Take(Keep(rows, IsFresh(cutoff)), limit)
  {
    var p := IsFresh(cutoff);
    if |rows| <= limit {
      KeepMembers(rows, p);
    } else if p(rows[|rows| - 1]) {
      LastFreshAllFresh(rows, cutoff);
      KeepPrefix(rows, p, limit);
    } else {
      var n := |rows| - 1;
      NewestFirstPrefix(rows, n);
      LimitThenExpire(rows[..n], cutoff, limit);
      assert Keep(rows, p) == Keep(rows[..n], p);
      assert Take(rows[..n], limit) == Take(rows, limit);
    }
  }

  lemma {:induction false} KeepPrefix(rows: seq<Entry>, p: Entry -> bool, limit: nat)
    requires Keep(rows, p) == rows && limit <= |rows|
    ensures Keep(rows[..limit], p) == rows[..limit]
  {
    KeepMembers(rows, p);
    forall e | e in rows[..limit] ensures p(e) { assert e in rows; }
    KeepAll(rows[..limit], p);
  }

  // ── counting hits ────────────────────────────────────────────────

  function TotalHits(rows: seq<Entry>): nat {
    if rows == [] then 0 else TotalHits(rows[..|rows| - 1]) + rows[|rows| - 1].hits
  }

  lemma {:induction false} RecordHitTouchesOne(rows: seq<Entry>, i: nat, now: int)
    requires i < |rows| && forall j :: 0 <= j < |rows| && j != i ==> rows[j].id != rows[i].id
    ensures RecordHit(rows, rows[i].id, now) == rows[i := rows[i].(hits := rows[i].hits + 1, lastHitAt := Some(now))]
  {
  }

  lemma {:induction false} OneMoreHit(rows: seq<Entry>, i: nat, e: Entry)
    requires i < |rows| && e.hits == rows[i].hits + 1
    ensures TotalHits(rows[i := e]) == TotalHits(rows) + 1
  {
    var n := |rows| - 1;
    if i == n {
      assert rows[i := e][..n] == rows[..n];
    } else {
      assert rows[i := e][..n] == rows[..n][i := e];
      OneMoreHit(rows[..n], i, e);
    }
  }

  lemma {:induction false} FoundAmongRows(exact: seq<Entry>, order: seq<Entry>, now: int, q: Query)
    ensures var found := FindAmong(exact, order, now, q);
            && (found.Exact? ==> found.entry in exact)
            && (found.Semantic? ==> q.scoring.Some? && found.entry in order)
  {
    if q.scoring.Some? {
      var rows := Take(order, CANDIDATE_LIMIT);
      ScanFindsFirstBest(q.scoring.value.score, rows, Cutoff(now, q.ttl));
      assert forall e :: e in rows ==> e in order;
    }
  }

  lemma {:induction false} FoundRowIsStored(db: Db, order: seq<Entry>, now: int, q: Query)
    requires CandidateOrder(order, db, q)
    ensures var found := Find(db, order, now, q);
            found.Exact? || found.Semantic? ==> found.entry in db.entries && found.entry.key == q.key
  {
    var found := Find(db, order, now, q);
    FoundAmongRows(ExactRows(db, q), order, now, q);
    KeepMembers(db.entries, HasExactKey(q.key, q.hash));
    if found.Semantic? {
      CountMembers(order, found.entry);
      CountMembers(Candidates(db, q), found.entry);
      KeepMembers(db.entries, IsCandidate(q.key, q.scoring.value.model, q.scoring.value.dim));
    }
  }

  /** A hit counts once, on one row; a miss changes nothing. */
  lemma {:induction false} LookupCountsOneHit(db: Db, order: seq<Entry>, now: int, q: Query)
    requires Valid(db) && CandidateOrder(order, db, q)
    ensures var (found, db') := LookupIn(db, order, now, q);
            if found.Exact? || found.Semantic? then
              && (exists i :: 0 <= i < |db.entries| && db.entries[i] == found.entry &&
                    db'.entries == db.entries[i := found.entry.(hits := found.entry.hits + 1, lastHitAt := Some(now))])
              && TotalHits(db'.entries) == TotalHits(db.entries) + 1
            else db' == db
  {
    var (found, db') := LookupIn(db, order, now, q);
    FoundRowIsStored(db, order, now, q);
    if found.Exact? || found.Semantic? {
      var i :| 0 <= i < |db.entries| && db.entries[i] == found.entry;
      RecordHitTouchesOne(db.entries, i, now);
      OneMoreHit(db.entries, i, db'.entries[i]);
    }
  }

  // ── the gateway's two phases ─────────────────────────────────────

  datatype Settings = Settings(enabled: bool, embeddingModel: string, threshold: real, ttl: int)

  /** Only one composite tool may be cached, and only for a question about a project. */
  predicate Applies(settings: Settings, tool: string, question: string, project: string) {
    settings.enabled && tool == "ask_codebase" && Strip(question) != [] && project != []
  }

  function ExactOnly(settings: Settings, key: CacheKey, question: string): Request {
    Request(key, question, None, "", settings.threshold, settings.ttl)
  }

  function Embedded(settings: Settings, key: CacheKey, question: string, vector: seq<real>): Request {
    Request(key, question, Some(vector), settings.embeddingModel, settings.threshold, settings.ttl)
  }

  /** Nothing at all unless the cache applies. The exact tier first; on a miss, an embedding (which may be
      unavailable) and a second lookup. `now1` and `now2` are the clock at the two lookups. */
  function TwoPhase(
      lib: Library, db: Db, settings: Settings, key: CacheKey, question: string,
      now1: int, embedding: Option<seq<real>>, order: seq<Entry>, now2: int): (Found, Db)
  {
    var first := LookupIn(db, [], now1, Prepare(lib, ExactOnly(settings, key, question)));
    if !Applies(settings, key.tool, question, key.project) then (Nothing, db)
    else if first.0.Nothing? && settings.embeddingModel != "" && embedding.Some? then
      LookupIn(first.1, order, now2, Prepare(lib, Embedded(settings, key, question, embedding.value)))
    else first
  }

  lemma ExactTierAlone(exact: seq<Entry>, order: seq<Entry>, now: int, q: Query)
    requires |exact| <= 1
    ensures var whole := FindAmong(exact, order, now, q);
            FindAmong(exact, [], now, q.(scoring := None)) == if whole.Exact? then whole else Nothing
  {
  }

  lemma RefusedStaysRefused(exact: seq<Entry>, order: seq<Entry>, now1: int, now2: int, q: Query)
    requires now1 <= now2 && !FindAmong(exact, order, now1, q).Exact?
    ensures !FindAmong(exact, order, now2, q).Exact?
  {
  }

  /** Splitting a lookup in two changes nothing on unchanged rows: the result and the tables are those of
      a single lookup — made at the first clock when the exact tier recalls, at the second otherwise, and
      the second never recalls what the exact tier had just refused. One hit is counted once. */
  lemma {:induction false} SplitLookupIsOne(db: Db, order: seq<Entry>, now1: int, now2: int, q: Query)
    requires Valid(db) && CandidateOrder(order, db, q) && now1 <= now2
    ensures var first := LookupIn(db, [], now1, q.(scoring := None));
            var both := if first.0.Nothing? then LookupIn(first.1, order, now2, q) else first;
            var early, late := LookupIn(db, order, now1, q), LookupIn(db, order, now2, q);
            && both == (if early.0.Exact? then early else late)
            && (!early.0.Exact? ==> !late.0.Exact?)
            && TotalHits(both.1.entries) == TotalHits(db.entries) + (if both.0.Nothing? then 0 else 1)
  {
    AtMostOneExactRow(db, q);
    ExactTierAlone(ExactRows(db, q), order, now1, q);
    assert ExactRows(db, q.(scoring := None)) == ExactRows(db, q);
    if !Find(db, order, now1, q).Exact? {
      RefusedStaysRefused(ExactRows(db, q), order, now1, now2, q);
    }
    LookupCountsOneHit(db, order, now1, q);
    LookupCountsOneHit(db, order, now2, q);
  }

  /** The gateway's lookup is the split of one embedded lookup when the cache applies, and leaves the tables
      alone when it does not. */
  lemma {:induction false} TwoPhasesAreOne(
      lib: Library, db: Db, settings: Settings, key: CacheKey, question: string,
      now1: int, vector: seq<real>, order: seq<Entry>, now2: int)
    requires Valid(db) && settings.embeddingModel != "" && now1 <= now2
    requires CandidateOrder(order, db, Prepare(lib, Embedded(settings, key, question, vector)))
    ensures var both := TwoPhase(lib, db, settings, key, question, now1, Some(vector), order, now2);
            var q := Prepare(lib, Embedded(settings, key, question, vector));
            var early, late := LookupIn(db, order, now1, q), LookupIn(db, order, now2, q);
            && both == (if !Applies(settings, key.tool, question, key.project) then (Nothing, db)
                        else if early.0.Exact? then early else late)
            && TotalHits(both.1.entries) == TotalHits(db.entries) + (if both.0.Nothing? then 0 else 1)
  {
    var q := Prepare(lib, Embedded(settings, key, question, vector));
    SplitLookupIsOne(db, order, now1, now2, q);
    assert q.(scoring := None) == Prepare(lib, ExactOnly(settings, key, question));
  }

  // ── the sweep ────────────────────────────────────────────────────

  /** Dropping superseded rows is invisible to every lookup under the project's current epoch or a later
      one: same exact row, same candidates, same result. */
  lemma {:induction false} SupersededRowsAreUnreachable(db: Db, order: seq<Entry>, now: int, q: Query)
    requires q.key.epoch >= CurrentEpoch(db, q.key.tenant, q.key.project)
    ensures ExactRows(WithoutSuperseded(db), q) == ExactRows(db, q)
    ensures CandidateOrder(order, WithoutSuperseded(db), q) <==> CandidateOrder(order, db, q)
    ensures Find(WithoutSuperseded(db), order, now, q) == Find(db, order, now, q)
  {
    KeepWithin(db.entries, IsCurrent(db.states), HasExactKey(q.key, q.hash));
    SupersededCandidates(db, q);
  }

  lemma {:induction false} SupersededCandidates(db: Db, q: Query)
    requires q.key.epoch >= CurrentEpoch(db, q.key.tenant, q.key.project)
    ensures Candidates(WithoutSuperseded(db), q) == Candidates(db, q)
  {
    if q.scoring.Some? {
      KeepWithin(db.entries, IsCurrent(db.states), IsCandidate(q.key, q.scoring.value.model, q.scoring.value.dim));
    }
  }

  lemma {:induction false} KeepCommutes(rows: seq<Entry>, p: Entry -> bool, q: Entry -> bool)
    ensures Keep(Keep(rows, p), q) == Keep(Keep(rows, q), p)
  {
    if rows != [] {
      var n := |rows| - 1;
      KeepCommutes(rows[..n], p, q);
      KeepAppend(Keep(rows[..n], p), if p(rows[n]) then [rows[n]] else [], q);
      KeepAppend(Keep(rows[..n], q), if q(rows[n]) then [rows[n]] else [], p);
      KeepOne(rows[n], p);
      KeepOne(rows[n], q);
    }
  }

  lemma {:induction false} KeepNewestFirst(rows: seq<Entry>, p: Entry -> bool)
    requires NewestFirst(rows)
    ensures NewestFirst(Keep(rows, p))
  {
    if rows != [] {
      var n := |rows| - 1;
      KeepNewestFirst(rows[..n], p);
      KeepMembers(rows[..n], p);
      var kept := Keep(rows[..n], p);
      forall i | 0 <= i < |kept| ensures kept[i].createdAt >= rows[n].createdAt {
        assert kept[i] in kept;
        var j :| 0 <= j < n && rows[..n][j] == kept[i];
        assert rows[j].createdAt >= rows[n].createdAt;
      }
    }
  }

  /** The order in which the swept table returns the candidates. */
  function SweptOrder(order: seq<Entry>, now: int, ttl: int): seq<Entry> {
    if ttl > 0 then Keep(order, IsFresh(Some(now - ttl))) else order
  }

  /** Dropping the rows older than a moment is invisible to every lookup to which they have expired,
      candidates beyond the limit included. */
  lemma {:induction false} ExpiredRowsAreUnreachable(db: Db, moment: int, order: seq<Entry>, now: int, q: Query)
    requires |ExactRows(db, q)| <= 1 && NewestFirst(order) && q.ttl > 0 && moment <= now - q.ttl
    ensures Find(WithoutOlder(db, moment), Keep(order, IsFresh(Some(moment))), now, q) == Find(db, order, now, q)
  {
    var cutoff, kept := now - q.ttl, Keep(order, IsFresh(Some(moment)));
    ExpiredExactRows(db, moment, q);
    if q.scoring.Some? {
      ExpiredRowsDoNotScore(q.scoring.value.score, order, moment, cutoff);
    }
    ExpiredExactRow(ExactRows(db, q), kept, order, moment, now, q);
  }

  lemma {:induction false} ExpiredExactRows(db: Db, swept: int, q: Query)
    ensures ExactRows(WithoutOlder(db, swept), q) == Keep(ExactRows(db, q), IsFresh(Some(swept)))
  {
    KeepCommutes(db.entries, IsFresh(Some(swept)), HasExactKey(q.key, q.hash));
  }

  lemma {:induction false} ExpiredCandidates(db: Db, moment: int, q: Query)
    ensures Candidates(WithoutOlder(db, moment), q) == Keep(Candidates(db, q), IsFresh(Some(moment)))
  {
    if q.scoring.Some? {
      KeepCommutes(db.entries, IsFresh(Some(moment)), IsCandidate(q.key, q.scoring.value.model, q.scoring.value.dim));
    }
  }

  lemma {:induction false} ExpiredExactRow(
      exact: seq<Entry>, kept: seq<Entry>, order: seq<Entry>, swept: int, now: int, q: Query)
    requires |exact| <= 1 && q.ttl > 0 && swept <= now - q.ttl
    requires q.scoring.Some? ==>
               Scan(q.scoring.value.score, Take(kept, CANDIDATE_LIMIT), Some(now - q.ttl)) ==
               Scan(q.scoring.value.score, Take(order, CANDIDATE_LIMIT), Some(now - q.ttl))
    ensures FindAmong(Keep(exact, IsFresh(Some(swept))), kept, now, q) == FindAmong(exact, order, now, q)
  {
    hide Scan, Take;
    if |exact| == 1 {
      assert exact == [exact[0]];
      KeepOne(exact[0], IsFresh(Some(swept)));
    }
  }

  lemma {:induction false} ExpiredRowsDoNotScore(score: Entry -> real, order: seq<Entry>, swept: int, cutoff: int)
    requires NewestFirst(order) && swept <= cutoff
    ensures Scan(score, Take(Keep(order, IsFresh(Some(swept))), CANDIDATE_LIMIT), Some(cutoff)) ==
            Scan(score, Take(order, CANDIDATE_LIMIT), Some(cutoff))
  {
    var kept := Keep(order, IsFresh(Some(swept)));
    KeepNewestFirst(order, IsFresh(Some(swept)));
    ScanSkipsExpired(score, Take(kept, CANDIDATE_LIMIT), Some(cutoff));
    ScanSkipsExpired(score, Take(order, CANDIDATE_LIMIT), Some(cutoff));
    LimitThenExpire(kept, Some(cutoff), CANDIDATE_LIMIT);
    LimitThenExpire(order, Some(cutoff), CANDIDATE_LIMIT);
    KeepWithin(order, IsFresh(Some(swept)), IsFresh(Some(cutoff)));
  }

  /** A sweep with this time to live drops no row that a lookup could still want. A sweep without one drops
      superseded rows only, and then any lookup will do. */
  predicate Outlasts(ttl: int, q: Query) { ttl > 0 ==> 0 < q.ttl <= ttl }

  /** The whole sweep is invisible: every lookup under a current or later epoch, made later with a time to
      live no longer than the sweep's, finds what it would have found, for every order of the candidates. */
  lemma {:induction false} SweepIsInvisible(db: Db, sweptAt: int, ttl: int, order: seq<Entry>, now: int, q: Query)
    requires Valid(db) && CandidateOrder(order, db, q) && sweptAt <= now && Outlasts(ttl, q)
    requires q.key.epoch >= CurrentEpoch(db, q.key.tenant, q.key.project)
    ensures Find(Sweep(db, sweptAt, ttl), SweptOrder(order, sweptAt, ttl), now, q) == Find(db, order, now, q)
    ensures CandidateOrder(SweptOrder(order, sweptAt, ttl), Sweep(db, sweptAt, ttl), q)
  {
    SweepKeepsFind(db, sweptAt, ttl, order, now, q) by { AtMostOneExactRow(db, q); }
    SweepKeepsOrder(db, sweptAt, ttl, order, q);
  }

  lemma {:induction false} SweepKeepsFind(db: Db, sweptAt: int, ttl: int, order: seq<Entry>, now: int, q: Query)
    requires |ExactRows(db, q)| <= 1 && NewestFirst(order) && sweptAt <= now && Outlasts(ttl, q)
    requires q.key.epoch >= CurrentEpoch(db, q.key.tenant, q.key.project)
    ensures Find(Sweep(db, sweptAt, ttl), SweptOrder(order, sweptAt, ttl), now, q) == Find(db, order, now, q)
  {
    hide Find;
    SupersededRowsAreUnreachable(db, order, now, q);
    if ttl > 0 {
      ExpiredRowsAreUnreachable(WithoutSuperseded(db), sweptAt - ttl, order, now, q);
    }
  }

  lemma {:induction false} SweptCandidates(db: Db, sweptAt: int, ttl: int, q: Query)
    requires q.key.epoch >= CurrentEpoch(db, q.key.tenant, q.key.project)
    ensures Candidates(Sweep(db, sweptAt, ttl), q) == SweptOrder(Candidates(db, q), sweptAt, ttl)
  {
    hide Candidates, WithoutSuperseded, WithoutOlder;
    SupersededCandidates(db, q);
    if ttl > 0 {
      ExpiredCandidates(WithoutSuperseded(db), sweptAt - ttl, q);
    }
  }

  lemma {:induction false} SweepKeepsOrder(db: Db, sweptAt: int, ttl: int, order: seq<Entry>, q: Query)
    requires CandidateOrder(order, db, q)
    requires q.key.epoch >= CurrentEpoch(db, q.key.tenant, q.key.project)
    ensures CandidateOrder(SweptOrder(order, sweptAt, ttl), Sweep(db, sweptAt, ttl), q)
  {
    hide Sweep, Candidates;
    SweptCandidates(db, sweptAt, ttl, q);
    if ttl > 0 {
      KeepNewestFirst(order, IsFresh(Some(sweptAt - ttl)));
      KeepReorders(order, Candidates(db, q), IsFresh(Some(sweptAt - ttl)));
    }
  }

  // ── an order always exists ───────────────────────────────────────

  function InsertNewest(e: Entry, rows: seq<Entry>): seq<Entry> {
    if rows == [] then [e]
    else if e.createdAt >= rows[0].createdAt then [e] + rows
    else [rows[0]] + InsertNewest(e, rows[1..])
  }

  function SortNewest(rows: seq<Entry>): seq<Entry> {
    if rows == [] then [] else InsertNewest(rows[0], SortNewest(rows[1..]))
  }

  lemma {:induction false} CountPrepend(x: Entry, rows: seq<Entry>, e: Entry)
    ensures Count([x] + rows, e) == Count(rows, e) + (if x == e then 1 else 0)
    decreases |rows|
  {
    if rows == [] {
      assert [x] + rows == [x] && [x][..0] == [];
    } else {
      var n := |rows| - 1;
      assert ([x] + rows)[..n + 1] == [x] + rows[..n];
      CountPrepend(x, rows[..n], e);
    }
  }

  lemma {:induction false} InsertNewestAdds(x: Entry, rows: seq<Entry>, e: Entry)
    ensures Count(InsertNewest(x, rows), e) == Count([x] + rows, e)
    decreases |rows|
  {
    if rows == [] {
      assert [x] + rows == [x];
    } else if x.createdAt < rows[0].createdAt {
      var rest := rows[1..];
      InsertNewestAdds(x, rest, e);
      CountPrepend(rows[0], InsertNewest(x, rest), e);
      CountPrepend(x, rest, e);
      CountPrepend(x, rows, e);
      CountPrepend(rows[0], rest, e);
      assert rows == [rows[0]] + rest;
    }
  }

  lemma {:induction false} InsertNewestSorts(e: Entry, rows: seq<Entry>)
    requires NewestFirst(rows)
    ensures NewestFirst(InsertNewest(e, rows))
    ensures forall x :: x in InsertNewest(e, rows) ==> x == e || x in rows
    decreases |rows|
  {
    if rows != [] && e.createdAt < rows[0].createdAt {
      var rest := InsertNewest(e, rows[1..]);
      InsertNewestSorts(e, rows[1..]);
      forall i | 0 <= i < |rest| ensures rest[i].createdAt <= rows[0].createdAt {
        assert rest[i] in rest;
      }
    }
  }

  /** Whatever the tables hold, the candidate query has an answer. */
  lemma {:induction false} SomeCandidateOrder(rows: seq<Entry>)
    ensures NewestFirst(SortNewest(rows)) && Reorders(SortNewest(rows), rows)
    decreases |rows|
  {
    if rows != [] {
      var rest := SortNewest(rows[1..]);
      SomeCandidateOrder(rows[1..]);
      InsertNewestSorts(rows[0], rest);
      forall e ensures Count(SortNewest(rows), e) == Count(rows, e) {
        InsertNewestAdds(rows[0], rest, e);
        CountPrepend(rows[0], rest, e);
        CountPrepend(rows[0], rows[1..], e);
        assert rows == [rows[0]] + rows[1..];
      }
    }
  }

  // ── every order of the swept table ───────────────────────────────

  /** Rows put in their places among rows already in order. */
  function InsertAll(rows: seq<Entry>, order: seq<Entry>): seq<Entry> {
    if rows == [] then order else InsertNewest(rows[0], InsertAll(rows[1..], order))
  }

  lemma {:induction false} InsertDropped(e: Entry, rows: seq<Entry>, p: Entry -> bool)
    requires !p(e)
    ensures Keep(InsertNewest(e, rows), p) == Keep(rows, p)
    decreases |rows|
  {
    if rows == [] {
      KeepOne(e, p);
    } else if e.createdAt >= rows[0].createdAt {
      KeepAppend([e], rows, p);
      KeepOne(e, p);
    } else {
      InsertDropped(e, rows[1..], p);
      KeepAppend([rows[0]], InsertNewest(e, rows[1..]), p);
      KeepAppend([rows[0]], rows[1..], p);
      assert rows == [rows[0]] + rows[1..];
    }
  }

  lemma {:induction false} InsertAllKeeps(rows: seq<Entry>, order: seq<Entry>, p: Entry -> bool)
    requires NewestFirst(order) && (forall e :: e in order ==> p(e)) && forall e :: e in rows ==> !p(e)
    ensures NewestFirst(InsertAll(rows, order)) && Keep(InsertAll(rows, order), p) == order
    ensures forall e :: Count(InsertAll(rows, order), e) == Count(rows, e) + Count(order, e)
    decreases |rows|
  {
    if rows == [] {
      KeepAll(order, p);
    } else {
      var rest := InsertAll(rows[1..], order);
      InsertAllKeeps(rows[1..], order, p);
      InsertNewestSorts(rows[0], rest);
      InsertDropped(rows[0], rest, p);
      assert rows == [rows[0]] + rows[1..];
      forall e ensures Count(InsertAll(rows, order), e) == Count(rows, e) + Count(order, e) {
        InsertNewestAdds(rows[0], rest, e);
        CountPrepend(rows[0], rest, e);
        CountPrepend(rows[0], rows[1..], e);
      }
    }
  }

  function Not(p: Entry -> bool): Entry -> bool { (e: Entry) => !p(e) }

  /** An order of the rows that pass is an order of all rows with the others left out. */
  lemma {:induction false} SomeOrderBehind(
      rows: seq<Entry>, kept: seq<Entry>, p: Entry -> bool)
    returns (order: seq<Entry>)
    requires NewestFirst(kept) && Reorders(kept, Keep(rows, p))
    ensures NewestFirst(order) && Reorders(order, rows) && Keep(order, p) == kept
  {
    var dropped := Keep(rows, Not(p));
    KeepMembers(rows, Not(p));
    KeepMembers(rows, p);
    forall e | e in kept ensures p(e) {
      CountMembers(kept, e);
      CountMembers(Keep(rows, p), e);
    }
    order := InsertAll(dropped, kept);
    InsertAllKeeps(dropped, kept, p);
    forall e ensures Count(order, e) == Count(rows, e) {
      KeepCount(rows, p, e);
      KeepCount(rows, Not(p), e);
    }
  }

  /** And no lookup after the sweep is new: whatever order the swept table returns its candidates in, the
      lookup finds what the unswept table could have given it. */
  lemma {:induction false} SweptLookupsWerePossible(
      db: Db, sweptAt: int, ttl: int, swept: seq<Entry>, now: int, q: Query)
    returns (order: seq<Entry>)
    requires Valid(db) && CandidateOrder(swept, Sweep(db, sweptAt, ttl), q) && sweptAt <= now && Outlasts(ttl, q)
    requires q.key.epoch >= CurrentEpoch(db, q.key.tenant, q.key.project)
    ensures CandidateOrder(order, db, q) && SweptOrder(order, sweptAt, ttl) == swept
    ensures Find(Sweep(db, sweptAt, ttl), swept, now, q) == Find(db, order, now, q)
  {
    hide Sweep, Candidates, Find;
    SweptCandidates(db, sweptAt, ttl, q);
    if ttl > 0 {
      order := SomeOrderBehind(Candidates(db, q), swept, IsFresh(Some(sweptAt - ttl)));
    } else {
      order := swept;
    }
    SweepIsInvisible(db, sweptAt, ttl, order, now, q);
  }

  // ── the object ───────────────────────────────────────────────────

  /** Outlives the recorded epochs of the projects in `done`. */
  function IsCurrentFor(states: map<(string, string), IndexState>, done: seq<(string, string)>): Entry -> bool {
    (e: Entry) => !((e.key.tenant, e.key.project) in done && Superseded(states, e))
  }

  function IsNotBehind(project: (string, string), epoch: nat): Entry -> bool {
    (e: Entry) => !((e.key.tenant, e.key.project) == project && e.key.epoch < epoch)
  }

  lemma NextProject(states: map<(string, string), IndexState>, projects: seq<(string, string)>, i: nat)
    requires i < |projects| && projects[i] in states
    ensures forall e :: IsCurrentFor(states, projects[..i + 1])(e) <==>
                        IsCurrentFor(states, projects[..i])(e) && IsNotBehind(projects[i], states[projects[i]].epoch)(e)
  {
    assert projects[..i + 1] == projects[..i] + [projects[i]];
    forall e
      ensures IsCurrentFor(states, projects[..i + 1])(e) <==>
              IsCurrentFor(states, projects[..i])(e) && IsNotBehind(projects[i], states[projects[i]].epoch)(e)
    {
      var k := (e.key.tenant, e.key.project);
      assert k in projects[..i + 1] <==> k in projects[..i] || k == projects[i];
    }
  }

  lemma {:induction false} KeepBoth(rows: seq<Entry>, p: Entry -> bool, q: Entry -> bool, both: Entry -> bool)
    requires forall e :: both(e) <==> p(e) && q(e)
    ensures Keep(Keep(rows, p), q) == Keep(rows, both)
  {
    if rows != [] {
      var n := |rows| - 1;
      KeepBoth(rows[..n], p, q, both);
      KeepAppend(Keep(rows[..n], p), if p(rows[n]) then [rows[n]] else [], q);
      KeepOne(rows[n], q);
    }
  }

  lemma {:induction false} KeepSame(rows: seq<Entry>, p: Entry -> bool, q: Entry -> bool)
    requires forall e :: p(e) <==> q(e)
    ensures Keep(rows, p) == Keep(rows, q)
  {
    if rows != [] {
      KeepSame(rows[..|rows| - 1], p, q);
    }
  }

  /** The two tables. Queries and deletes are the selections above; loops are the source's. */
  class AnswerTables {
    var entries: seq<Entry>
    var states: map<(string, string), IndexState>
    var nextId: nat

    function View(): Db
      reads this
    {
      Db(entries, states, nextId)
    }

    constructor ()
      ensures View() == Db([], map[], 0) && Valid(View()) && NotAhead(View())
    {
      entries, states, nextId := [], map[], 0;
    }

    method BumpEpoch(tenant: string, project: string, commit: Option<string>, now: int) returns (epoch: nat)
      modifies this`states
      ensures View() == BumpIn(old(View()), tenant, project, commit, now)
      ensures epoch == CurrentEpoch(View(), tenant, project) == CurrentEpoch(old(View()), tenant, project) + 1
    {
      var k := (tenant, project);
      if k !in states {
        states := states[k := IndexState(1, commit, now)];
        return 1;
      }
      var row := states[k];
      var last := if commit.Some? && commit.value != "" then commit else row.lastCommit;
      states := states[k := IndexState(row.epoch + 1, last, now)];
      return row.epoch + 1;
    }

    method Lookup(q: Query, order: seq<Entry>, now: int) returns (found: Found)
      requires Valid(View()) && CandidateOrder(order, View(), q)
      modifies this`entries
      ensures (found, View()) == LookupIn(old(View()), order, now, q)
      ensures Valid(View()) && !found.MultipleRows?
    {
      var cutoff := Cutoff(now, q.ttl);
      var exact := ExactRows(View(), q);
      assert |exact| <= 1 by { AtMostOneExactRow(View(), q); }
      assert Valid(LookupIn(View(), order, now, q).1) by { LookupKeepsValid(View(), order, now, q); }
      if |exact| == 1 && (cutoff.None? || exact[0].createdAt >= cutoff.value) {
        entries := RecordHit(entries, exact[0].id, now);
        return Exact(exact[0]);
      }
      if q.scoring.None? {
        return Nothing;
      }
      var best, bestScore := ScoreRows(q.scoring.value.score, Take(order, CANDIDATE_LIMIT), cutoff);
      if best.None? || bestScore < q.threshold {
        return Nothing;
      }
      entries := RecordHit(entries, best.value.id, now);
      return Semantic(best.value, bestScore);
    }

    /** The scoring loop of the semantic tier. */
    static method ScoreRows(score: Entry -> real, candidates: seq<Entry>, cutoff: Option<int>)
      returns (best: Option<Entry>, bestScore: real)
      ensures (best, bestScore) == Scan(score, candidates, cutoff)
    {
      best, bestScore := None, 0.0;
      for i := 0 to |candidates|
        invariant (best, bestScore) == Scan(score, candidates[..i], cutoff)
      {
        assert candidates[..i + 1][..i] == candidates[..i];
        if cutoff.Some? && candidates[i].createdAt < cutoff.value {
          continue;
        }
        var s := score(candidates[i]);
        if s > bestScore {
          best, bestScore := Some(candidates[i]), s;
        }
      }
      assert candidates[..|candidates|] == candidates;
    }

    method Store(lib: Library, key: CacheKey, a: Answer, now: int)
      requires Valid(View())
      modifies this
      ensures View() == StoreIn(lib, old(View()), key, a, now) && Valid(View())
    {
      StoreKeepsValid(lib, View(), key, a, now);
      entries := Keep(entries, LacksExactKey(key, QuestionHash(lib, a.question)));
      entries := entries + [NewEntry(lib, nextId, key, a, now)];
      nextId := nextId + 1;
    }

    /** `projects` are the rows of the index-state table, in the order the database returns them. The
        count is the number of rows dropped, none twice. */
    method PurgeSuperseded(projects: seq<(string, string)>) returns (removed: int)
      requires forall k :: k in projects <==> k in states
      modifies this`entries
      ensures View() == WithoutSuperseded(old(View()))
      ensures removed == |old(entries)| - |entries| && removed >= 0
    {
      removed := 0;
      ghost var before := entries;
      KeepAll(before, IsCurrentFor(states, projects[..0]));
      for i := 0 to |projects|
        invariant entries == Keep(before, IsCurrentFor(states, projects[..i]))
        invariant removed == |before| - |entries| && removed >= 0
      {
        var rows := Keep(entries, IsNotBehind(projects[i], states[projects[i]].epoch));
        KeepMembers(entries, IsNotBehind(projects[i], states[projects[i]].epoch));
        NextProject(states, projects, i);
        KeepBoth(before, IsCurrentFor(states, projects[..i]), IsNotBehind(projects[i], states[projects[i]].epoch),
                 IsCurrentFor(states, projects[..i + 1]));
        removed := removed + (|entries| - |rows|);
        entries := rows;
      }
      assert projects[..|projects|] == projects;
      KeepSame(before, IsCurrentFor(states, projects), IsCurrent(states));
    }
  }
}
