# Verification of repo-mcp

A Dafny model of the stateful core of repo-mcp, a multi-tenant gateway in front of a code-graph engine, and
proofs of what that core promises. It is checked with `dafny verify dfyconfig.toml`.

The parts, one module a file:

- **IndexQueue** is the indexer's queue: several workers, one FIFO queue, a set of pending keys and one FIFO lock
  per project. State, events and their effect are values; the class `Indexer` has the source's fields, with one
  method for each stretch of code between two suspension points.
- **QuestionForm**, **Vectors** and **AnswerCache** are the answer cache: the normal form of a question, packed
  vectors and cosine similarity, the exact and the semantic tier, epochs, time to live and the sweep.
- **Freshness** runs the queue and the cache together and bounds how stale a recalled answer can be.
- **Admin** has the configuration tables and every write to them; **Registry** the strict loader of squads and
  roles, **Roles** the role tables, **Documents** the document the store builds from the tables for that loader;
  **Bootstrap** imports the old files, **Migration** says what the import preserves.
- **ConfigStore** is the cached reader of those tables: counter first, then one select after the other, with
  writes committing in between.
- **EngineBridge** is JSON-RPC over the pipe of an engine process (response and request ids as in section 5 of the
  JSON-RPC 2.0 Specification).
- **Authorization** decides who may call what; **Runtime** joins tables, cached configuration, loader and decision.
- **FileTree** is the sidebar's directory tree and its compression, **ConnectorCheck** the connector check.

## How to read it

Concurrency is a state machine: `Enabled` and `Apply` give the steps, a run is any interleaving of them, and the
theorems hold for every run. What the program takes from libraries is a parameter: lower-casing, the question hash,
the square root, the value of a float32 word, pattern matching. The order in which a database returns rows
without an ORDER BY is a parameter too, and the theorems hold for every order.

Assumptions, each where the model needs it:

- A database transaction is atomic, and so is one select. Tables are maps or row sequences under their unique columns.
- Only the indexer changes graphs, it does so when an index run succeeds, and an answer is computed from one reading
  of the graph.
- The engine writes lines without an id at will, and at most one reply for each id it received.
- `Lowers` and `Roots` in CacheLibrary: lower-casing keeps white space and works word by word, a word may grow or shrink
  but gains no white space, and a word in lower case stays as it is; the square root is one.

## Where the code and its documentation differ

- `common/repo_mcp_common/admin.py:3-6` says a reader never sees a half-applied edit. The store reads table by table
  and can hand out a mixture (`ConfigStore.AConfigurationThatNeverWas`). What holds is that a mixture is labelled with an
  older generation than the tables have (`ConfigStore.CurrentLabelMeansCurrentTables`), so the next check replaces it;
  `ConfigStore.ExactExactlyWhen` says when a load is not a mixture.
- `indexer/app/worker.py:110-115` says a job is coalesced with one already waiting. Two jobs of a key can wait at
  once (`IndexQueue.TwoJobsCanWait`; `IndexQueue.CoalescesExactlyWhen` says when pushes do coalesce), and a coalesced push
  keeps the older commit (`IndexQueue.LastIndexedCommit`).
- `gateway/app/roles.py:103-111` calls the precedence table most privileged first. It is not ordered by capability
  (`Roles.HigherRoleCanDoMore`).
- `gateway/app/cbm.py:188-196` shakes hands when it starts a process, yet a process whose handshake was cancelled, refused
  or broken off is used without one (`EngineBridge.AskedTooEarlyExactlyWhen`, with a run for each way).
- `gateway/webui/src/components/Sidebar.tsx:66` joins names link by link and loses segments of longer chains
  (`FileTree.ShownNames`, `FileTree.ThreeDeepLosesASegment`).
- `common/repo_mcp_common/connector_check.py:57` calls the counts a floor when `truncated` is set; it is also set when
  exactly `limit` repositories exist, and the counts are then complete (`ConnectorCheck.TruncatedYetCompleteExactlyWhen`).
- `gateway/app/mcp.py:332-338` says a path must live under the root; it compares texts, and a path with `..` in it can pass
  and lead elsewhere (`Authorization.IndexedPathsStayUnderTheRootExactlyWhen`). The engine confines indexing by itself.

## Model

| member | source | states |
|---|---|---|
| IndexQueue.EveryReachableStateIsSafe | indexer/app/worker.py:110-149 | in every interleaving of pushes and workers, failing runs included: one index run per key at a time, no lock without a holder, every pending key has a job that has not started, unfinished count = queued + held by workers |
| IndexQueue.StepKeepsInv | indexer/app/worker.py:127-149 | each step of a push or a worker keeps all of that |
| IndexQueue.RunConserves | indexer/app/worker.py:110-149 | over any run and for each key: waiting + accepted = started + still waiting, in this order |
| IndexQueue.JobsStartInAcceptanceOrder | indexer/app/worker.py:127-136 | same-key jobs start in the order they were accepted, each exactly once |
| IndexQueue.EveryPushIsFollowedByAnIndex | indexer/app/worker.py:110-137 | no lost wake-up: after any push, accepted or coalesced, every run that drains starts an index of that key after it; the pushed job itself comes last when accepted |
| IndexQueue.LastIndexedCommit | indexer/app/worker.py:116-119 | the last commit indexed is the pushed one if and only if the push was accepted or repeats the commit already waiting |
| IndexQueue.LastResultIsTheLatest | indexer/app/worker.py:137-145 | the results table holds each key's latest result, exceptions included, and nothing else |
| IndexQueue.KeyNamesOneProject | indexer/app/worker.py:39-41 | two jobs have the same key only if tenant and project agree, project names being free of slashes |
| IndexQueue.SomeWorkerCanStep | indexer/app/worker.py:127-149 | deadlock freedom: while a job is queued or held, some worker step is enabled |
| IndexQueue.WorkerStepDecreases | indexer/app/worker.py:127-149 | every worker step lowers a measure over queued, waiting and running jobs |
| IndexQueue.WorkersDrainTheQueue | indexer/app/worker.py:127-149 | without further pushes every worker run is bounded, whatever its order and its failures, and it can go on exactly while something is unfinished |
| IndexQueue.StepKeepsCoalesced | indexer/app/worker.py:116-149 | pushes of a key coalesce while at most one of its jobs waits and the key is then pending; a step ends that if and only if a run of the key leaves its lock while a follow-up waits, dropping the mark |
| IndexQueue.CoalescesExactlyWhen | indexer/app/worker.py:110-149 | over every run from the start: pushes of a key coalesce in every state if and only if no step drops the mark of a waiting follow-up |
| IndexQueue.StepKeepsAtMostOne | indexer/app/worker.py:116-123 | a step makes a second job of a key wait if and only if it is a push accepted while one waits |
| IndexQueue.TwoWaitOnlyAfter | indexer/app/worker.py:110-149 | whenever two jobs of a key wait in a run, a second was accepted before, and before that the mark of the first was dropped |
| IndexQueue.TwoJobsCanWait | indexer/app/worker.py:146-149 | for every job, a concrete run in which two of its key wait at once |
| IndexQueue.Indexer.constructor | indexer/app/worker.py:53-77 | an indexer starts with nothing queued, pending, locked or recorded |
| IndexQueue.Indexer.Enqueue | indexer/app/worker.py:110-123 | coalesces with a pending key or queues the job; the whole new state |
| IndexQueue.Indexer.Get | indexer/app/worker.py:129-132 | takes the front job and joins the lock queue of its key |
| IndexQueue.Indexer.Acquire | indexer/app/worker.py:132-136 | the first in the lock queue takes the lock and clears the pending mark before indexing |
| IndexQueue.Indexer.FinishIndex | indexer/app/worker.py:136-145 | records the result; keeps the lock to record the epoch after a success, else unlocks and leaves |
| IndexQueue.Indexer.FinishRecord | indexer/app/worker.py:139-148 | unlocks after the epoch record and leaves |
| IndexQueue.Indexer.Leave | indexer/app/worker.py:146-149 | unlocks, discards the pending mark once more and marks the job as done |
| QuestionForm.NormaliseJoinsLowerWords | common/repo_mcp_common/answer_cache.py:37-43 | the normal form is the question's lower-cased words with one space between them |
| QuestionForm.SameNormalFormIffSameWords | common/repo_mcp_common/answer_cache.py:37-43 | two questions share a normal form if and only if they have the same words in the same order up to case |
| QuestionForm.NormaliseIsIdempotent | common/repo_mcp_common/answer_cache.py:37-43 | normalising twice is normalising once |
| Vectors.UnpackPack | common/repo_mcp_common/answer_cache.py:50-55 | unpacking a packed vector gives the vector back; a packed vector takes four bytes a word |
| Vectors.PackUnpack | common/repo_mcp_common/answer_cache.py:50-55 | unpack accepts exactly the blobs that pack makes and inverts them |
| Vectors.CauchySchwarz | common/repo_mcp_common/answer_cache.py:58-67 | the squared dot product is at most the product of the squared norms |
| Vectors.CosineIsBoundedAndSymmetric | common/repo_mcp_common/answer_cache.py:58-67 | over the reals, for vectors of any two lengths, the similarity is in [-1, 1] and symmetric |
| Vectors.CosineIgnoresLength | common/repo_mcp_common/answer_cache.py:58-67 | a positive factor on either vector changes nothing |
| Vectors.CosineOfSelf | common/repo_mcp_common/answer_cache.py:58-67 | a vector with a direction has similarity 1 with itself |
| AnswerCache.StoreKeepsValid | common/repo_mcp_common/answer_cache.py:208-247 | filing keeps at most one row per tenant, project, tool, epoch and hash, and no row ahead of its project when keyed by a reached epoch |
| AnswerCache.LookupKeepsValid | common/repo_mcp_common/answer_cache.py:121-205 | a lookup keeps the same |
| AnswerCache.BumpMovesOneEpoch | common/repo_mcp_common/answer_cache.py:93-115 | recording an index raises one project's epoch by one, from zero when it had none, and touches no row |
| AnswerCache.AtMostOneExactRow | common/repo_mcp_common/answer_cache.py:139-149 | the exact query, which would raise on two rows, finds at most one in every valid table |
| AnswerCache.StoredAnswerIsRecalled | common/repo_mcp_common/answer_cache.py:121-158 | after filing, every asking with the same normal form recalls that answer in the exact tier until it expires |
| AnswerCache.StoreLeavesOthersAlone | common/repo_mcp_common/answer_cache.py:208-247 | filing changes no lookup under another key, nor the exact tier of another question |
| AnswerCache.ScanFindsFirstBest | common/repo_mcp_common/answer_cache.py:187-194 | the scoring loop returns the first unexpired row of the highest positive score, or nothing |
| AnswerCache.SemanticTierMeetsItsSpec | common/repo_mcp_common/answer_cache.py:160-205 | with an empty exact tier, an answer is recalled if and only if some unexpired candidate has a positive similarity reaching the threshold, and it is the newest of the most similar ones |
| AnswerCache.LimitThenExpire | common/repo_mcp_common/answer_cache.py:179-191 | limiting the newest-first rows before the time-to-live filter selects what filtering first would |
| AnswerCache.LookupCountsOneHit | common/repo_mcp_common/answer_cache.py:310-315 | a hit adds one to one row's count; a miss changes nothing |
| AnswerCache.SplitLookupIsOne | common/repo_mcp_common/answer_cache.py:121-205 | an exact-only lookup followed by an embedded one equals a single embedded lookup on unchanged rows at a non-decreasing clock |
| AnswerCache.TwoPhasesAreOne | gateway/app/answer_cache.py:44-89 | the gateway's two-phase lookup is that split when the cache applies, hit counts included, and leaves the tables alone when it does not |
| AnswerCache.SupersededRowsAreUnreachable | common/repo_mcp_common/answer_cache.py:275-288 | dropping superseded rows changes no lookup under a current or later epoch |
| AnswerCache.ExpiredRowsAreUnreachable | common/repo_mcp_common/answer_cache.py:250-272 | dropping rows older than a moment changes no lookup to which they have expired, rows beyond the limit included |
| AnswerCache.SweepIsInvisible | indexer/app/main.py:142-163 | the whole sweep changes no later lookup under a current or later epoch whose time to live is not longer than the sweep's, for every order of the candidates |
| AnswerCache.SweptLookupsWerePossible | indexer/app/main.py:142-163 | and whatever order the swept table returns, the lookup finds what the unswept table could have given it |
| AnswerCache.AnswerTables.BumpEpoch | common/repo_mcp_common/answer_cache.py:103-115 | raises or creates the epoch row; the whole new state |
| AnswerCache.AnswerTables.Lookup | common/repo_mcp_common/answer_cache.py:121-205 | both tiers with the scoring loop and the hit count |
| AnswerCache.AnswerTables.Store | common/repo_mcp_common/answer_cache.py:208-247 | replaces the row with the same exact key |
| AnswerCache.AnswerTables.PurgeSuperseded | common/repo_mcp_common/answer_cache.py:275-288 | the loop over projects drops exactly the superseded rows, and its count is the drop in size |
| Freshness.WorkerKeepsAccount | indexer/app/worker.py:130-139 | the queue and the epoch table together: graph changes = recorded epochs + records lost + the run being recorded, kept by every worker step |
| Freshness.RunKeepsInv | indexer/app/worker.py:127-169 | kept over every run of pushes, workers, lookups, answers and sweeps |
| Freshness.EpochNeverFalls | common/repo_mcp_common/answer_cache.py:103-115 | epochs never fall along a run |
| Freshness.NoRowIsAhead | common/repo_mcp_common/answer_cache.py:275-288 | in every run no row has an epoch its project has not reached |
| Freshness.SupersededRowsStayOutOfReach | common/repo_mcp_common/answer_cache.py:275-288 | in every run a row superseded at some step is recalled by no lookup whose epoch was read at that step or later, swept or not |
| Freshness.NoReindexBetween | gateway/app/answer_cache.py:61-77 | every cache hit was filed when the project's epoch was the epoch at the hit; no recorded reindex lies between |
| Freshness.LagOfRecalledAnswer | gateway/app/answer_cache.py:115-136 | exactly how many index runs a recalled answer is behind the graph, at every step of the run and so at the hit |
| Freshness.RecalledAnswersAreFresh | indexer/app/worker.py:130-139 | with no lost record and no bump between reading the graph and filing, nor between reading the epoch and the step looked at, a recalled answer is at most one index run behind at that step, and only while a worker still holds the lock between index and record |
| Freshness.StaleAnswerCanBeRecalled | gateway/app/answer_cache.py:120-125 | without that hypothesis: for every k a run from the start in which an answer exactly k recorded index runs old is recalled while no worker is recording |
| Admin.EveryWriteBumps | common/repo_mcp_common/admin.py:70-80 | a committed transaction raises the counter by its number of writes, so tables change only when it does |
| Admin.UpsertTenantAnswers | common/repo_mcp_common/admin.py:181-232 | a squad is accepted if and only if its profile is known, it has groups and patterns and no other squad has one of its groups; then only its row changes |
| Admin.PerformKeepsSound | common/repo_mcp_common/admin.py:149-330 | every write keeps: squads complete and without repeats, groups of different squads disjoint, roles known and not empty, connectors with a squad |
| Admin.EveryHistoryIsSound | common/repo_mcp_common/admin.py:149-330 | so every history of transactions from an empty database, refused ones included, leaves such tables |
| Admin.Session.UpsertTenant | common/repo_mcp_common/admin.py:181-232 | the checks in their order, the scan for clashes, the replacement of the rows; nothing changes on refusal |
| Admin.Session.DeleteTenant | common/repo_mcp_common/admin.py:235-243 | drops the squad and, by the foreign key, its connectors |
| Admin.Session.SetRoleGroups | common/repo_mcp_common/admin.py:246-257 | replaces a role's rows, none repeated |
| Admin.Session.UpsertConnector | common/repo_mcp_common/admin.py:263-303 | the checks in their order, then the replacement of the row with its defaults |
| Roles.ResolvedRole | gateway/app/roles.py:103-132 | the resolved role matches, none that matches comes before it in the precedence table, and without a match it is viewer |
| Roles.MoreGroupsNeverLowerTheRole | gateway/app/roles.py:103-132 | more groups never lead to a role further down the precedence table |
| Roles.HigherRoleCanDoMore | gateway/app/roles.py:60-111 | a role can do all that a lower one can if and only if the pair is none of lead/devops, devops/qa, devops/developer |
| Roles.JoiningCanTakeSourceAway | gateway/app/roles.py:60-132 | a concrete user who loses a capability by joining a group |
| Registry.FromDict | gateway/app/tenants.py:113-168 | the nested loops answer what the specification of the loader answers, with the first error |
| Registry.ParseRoles | gateway/app/tenants.py:181-196 | the role loop likewise |
| Registry.ClaimGroups | gateway/app/tenants.py:145-153 | the inner loop claims each group for one squad or names both |
| Registry.LoadsExactlyWhen | gateway/app/tenants.py:113-196 | a document loads if and only if every squad has a known profile, groups and patterns, no group occurs twice in the whole document, and every role is known with at least one group |
| Registry.OneSquadPerGroup | gateway/app/tenants.py:145-153 | in a loaded registry no group belongs to two squads |
| Documents.SortKeepsElements | common/repo_mcp_common/store.py:190-205 | sorting orders the names by code point and keeps them all |
| Documents.BuildTenantsDocument | common/repo_mcp_common/store.py:180-206 | the store's loops, over rows in any order, build the specified document |
| Documents.GroupsNeverRepeat | common/repo_mcp_common/store.py:180-206 | sound tables give a document in which no group occurs twice |
| Documents.EveryReachableConfigurationLoads | common/repo_mcp_common/store.py:180-206 | from an empty database, after any history of transactions and for every row order, the loader accepts the document and builds exactly the enabled squads, field by field, and exactly the stored role assignments |
| Documents.BuildScanDocument | common/repo_mcp_common/store.py:209-228 | the loop over the connectors builds the document of the enabled ones |
| Bootstrap.ImportDocuments | common/repo_mcp_common/bootstrap.py:148-229 | the two transactions with their loops, counts and roll-backs |
| Bootstrap.ImportTenants | common/repo_mcp_common/bootstrap.py:168-182 | the squad loop within the first transaction |
| Bootstrap.ImportRoles | common/repo_mcp_common/bootstrap.py:164-166 | the role loop within the first transaction |
| Bootstrap.ImportConnectors | common/repo_mcp_common/bootstrap.py:184-227 | the connector loop with the tokens taken from the environment |
| Bootstrap.ImportEntry | common/repo_mcp_common/bootstrap.py:189-227 | one connector: its token first, then its row |
| Bootstrap.SettledWriteOnlyBumps | common/repo_mcp_common/admin.py:196-207 | a write that finds its own rows in place is accepted, in particular never a group clash, and changes only the counter |
| Bootstrap.ImportIsIdempotent | common/repo_mcp_common/bootstrap.py:148-229 | from any sound tables, an import that succeeded succeeds again with the same counts and changes nothing but the counter |
| Bootstrap.ImportKeepsSound | common/repo_mcp_common/bootstrap.py:148-229 | an import keeps sound tables sound, also when its second transaction is refused |
| Bootstrap.TokensAreWhereConnectorsPoint | common/repo_mcp_common/bootstrap.py:189-212 | after an import, a connector whose token was found in the environment points at the secret that holds that token |
| Migration.LoadableDocumentsGoIn | common/repo_mcp_common/bootstrap.py:148-182 | a document the loader accepts is imported into an empty database without a refusal |
| Migration.ImportKeepsTheMeaning | common/repo_mcp_common/bootstrap.py:148-182 | the round trip document, database, document: the registry loaded from the database has the same squads and roles as the one loaded from the file |
| Migration.ImportedTablesLoad | common/repo_mcp_common/bootstrap.py:148-229 | after any import into sound tables, refused ones included, the loader accepts what is there and reads it exactly |
| Migration.ImportedConnectorsReadBack | common/repo_mcp_common/store.py:209-228 | the round trip for connectors: what was imported is in the document the indexer reads, field by field, defaults filled in |
| ConfigStore.StepKeepsTruth | common/repo_mcp_common/store.py:114-155 | each select, each write and each call of the store keeps: what is loaded, cached or handed out is exact if its label is still the tables' generation |
| ConfigStore.CurrentLabelMeansCurrentTables | common/repo_mcp_common/store.py:125-155 | although counter and tables are read at different moments between writes, a configuration whose label is the tables' generation holds exactly the tables |
| ConfigStore.ReturnedGenerationsNeverFall | common/repo_mcp_common/store.py:114-132 | successive configurations handed out never go back, loads that fail included |
| ConfigStore.ReadYourWrites | gateway/app/configuration.py:54-69 | after a committed write and a completed invalidation every later answer is that write or newer, even for calls begun before it |
| ConfigStore.EverySelectFollowsTheWrite | gateway/app/configuration.py:54-69 | and its counter and every one of its tables were read after the write |
| ConfigStore.EveryQuietCheckReturnsTheTables | common/repo_mcp_common/store.py:120-132 | in every interleaving, a call that returns after asking for the counter or loading, with no write since before it began to load, returns the tables as they are |
| ConfigStore.TheHolderGoesOn | common/repo_mcp_common/store.py:120-132 | the call that holds the lock always has a next step, and fewer left each time |
| ConfigStore.AQuietCheckReturnsTheTables | common/repo_mcp_common/store.py:120-132 | from every state with a waiting call and a free lock there is such a check |
| ConfigStore.AWriteDuringALoadIsHalfSeen | common/repo_mcp_common/store.py:147-155 | a write between two selects of a load gives old squad rows with new groups, patterns, roles and the rest |
| ConfigStore.LoadsReadInOrder | common/repo_mcp_common/store.py:125-155 | every load under way is one reading of the counter and then its selects, each at its own later moment |
| ConfigStore.KnownWasLoaded | common/repo_mcp_common/store.py:125-155 | every configuration ever handed out was loaded like that |
| ConfigStore.ExactExactlyWhen | common/repo_mcp_common/store.py:125-155 | a stored configuration holds the tables of its own label if and only if no write changed a table between the reading of the counter and the select of that table |
| ConfigStore.AConfigurationThatNeverWas | common/repo_mcp_common/admin.py:1-6 | a concrete configuration handed out that no state of the tables ever was |
| ConfigStore.ConfigurationProvider.Begin | common/repo_mcp_common/store.py:114-118 | a call answers from the cache within the poll interval or waits for the lock; nothing a current label makes wrong is kept or handed out |
| ConfigStore.ConfigurationProvider.Acquire | common/repo_mcp_common/store.py:120-123 | with the lock, the interval is looked at again; nothing a current label makes wrong is kept or handed out |
| ConfigStore.ConfigurationProvider.ReadGeneration | common/repo_mcp_common/store.py:125-128 | reads the counter and notes the time; the same generation answers from the cache; nothing a current label makes wrong is kept or handed out |
| ConfigStore.ConfigurationProvider.ReadTable | common/repo_mcp_common/store.py:147-155 | one select, on the tables as they are then; nothing a current label makes wrong is kept or handed out |
| ConfigStore.ConfigurationProvider.Finish | common/repo_mcp_common/store.py:130-132 | stores the snapshot under the generation read first and hands it out; nothing a current label makes wrong is kept or handed out |
| ConfigStore.ConfigurationProvider.ServeSnapshot | gateway/app/configuration.py:54-64 | the built configuration is kept for its generation, rebuilt for another; a build that fails leaves it |
| ConfigStore.ConfigurationProvider.Invalidate | gateway/app/configuration.py:66-69 | drops snapshot and built configuration under the lock; nothing a current label makes wrong is kept or handed out |
| EngineBridge.StepKeepsInv | gateway/app/cbm.py:188-309 | every step of callers, engine and reaper keeps the bookkeeping of processes, ids and the lock |
| EngineBridge.EveryRunKeepsInv | gateway/app/cbm.py:188-309 | so every run does |
| EngineBridge.RepliesReachTheirCallers | gateway/app/cbm.py:260-297 | in every interleaving of callers, cancellation, stray lines, timeouts and dying processes, a value returned is the engine's answer to that caller's own request on that process, though ids restart with every process |
| EngineBridge.NoAnswerIsReturnedTwice | gateway/app/cbm.py:260-297 | no answer goes to two callers |
| EngineBridge.StepKeepsUnread | gateway/app/cbm.py:270-291 | a reply is in the pipe at most once, and stays there while its caller waits |
| EngineBridge.AnAnswerIsNeverPassedOver | gateway/app/cbm.py:270-297 | a caller whose request was answered with a result gets it by reading on, past stray lines and other replies, unless JSON other than an object stands before it |
| EngineBridge.ALateReplyIsNeverRead | gateway/app/cbm.py:273-278 | after a timeout nothing is ever read from that process again, and no request written to it |
| EngineBridge.AskedTooEarlyExactlyWhen | gateway/app/cbm.py:188-232 | in every run, a tool request is written to a process that was never told its handshake is complete if and only if a caller finds the process running and the call that was to shake hands with it was cancelled, refused or broken off earlier in the run |
| EngineBridge.AfterACancelledHandshake | gateway/app/cbm.py:188-196 | a concrete run: the first caller is cancelled while shaking hands |
| EngineBridge.AfterARefusedHandshake | gateway/app/cbm.py:292-296 | a concrete run: the engine refuses the handshake |
| EngineBridge.AfterALateAnswer | gateway/app/cbm.py:188-196 | a concrete run: the engine answers the handshake when its caller has gone |
| EngineBridge.CbmSession.TakeLock | gateway/app/cbm.py:301-305 | with the lock: use the running process or start one; the invariant is kept |
| EngineBridge.CbmSession.ProcessStarted | gateway/app/cbm.py:188-195 | a new process counts from one and is sent the handshake; the invariant is kept |
| EngineBridge.CbmSession.ReadOneLine | gateway/app/cbm.py:270-297 | one turn of the read loop; the result of a handshake is followed at once by the initialized notification |
| EngineBridge.CbmSession.ReadReply | gateway/app/cbm.py:270-297 | the read loop: skips unparseable lines and other ids, ends at its own reply or at a line that is not an object; the invariant is kept |
| EngineBridge.CbmSession.Initialized | gateway/app/cbm.py:195-196 | after the handshake the wanted request is sent, unless the reaper has closed the session; the invariant is kept |
| FileTree.BuildFileTree | gateway/webui/src/components/Sidebar.tsx:31-58 | the loop over the nodes builds the specified tree |
| FileTree.Collect | gateway/webui/src/components/Sidebar.tsx:49-55 | the recursive collection sets every directory's ids |
| FileTree.NodesAreWhereTheirPathsSay | gateway/webui/src/components/Sidebar.tsx:33-48 | every node with a path is in the directory its path names, as often and in the order given; directories exist for exactly the paths that lead to a node |
| FileTree.IdsOfADirectory | gateway/webui/src/components/Sidebar.tsx:49-56 | a directory's ids are exactly those of the nodes whose path leads into it or below it |
| FileTree.FullPathsLeadBack | gateway/webui/src/components/Sidebar.tsx:37-45 | a directory's full path, read as segments, is where it stands, and its name is the last of them |
| FileTree.FlattenSingleChild | gateway/webui/src/components/Sidebar.tsx:60-71 | the recursion with its loop, which compresses an already compressed child again, ends and equals one bottom-up pass |
| FileTree.NoLinkIsLeft | gateway/webui/src/components/Sidebar.tsx:60-71 | below the root no directory is left with one child and no nodes of its own |
| FileTree.FlatteningIsIdempotent | gateway/webui/src/components/Sidebar.tsx:60-71 | compressing twice is compressing once |
| FileTree.OnlyLinksDisappear | gateway/webui/src/components/Sidebar.tsx:60-71 | every other directory survives in order with its full path, ids and nodes |
| FileTree.NoNodeIsLost | gateway/webui/src/components/Sidebar.tsx:60-71 | no node is lost, repeated or moved |
| FileTree.LongChainsLoseSegments | gateway/webui/src/components/Sidebar.tsx:66 | the name a directory gets is that of its whole chain if and only if the chain has at most one link |
| FileTree.ShownNames | gateway/webui/src/components/Sidebar.tsx:60-71 | for every directory of every built tree: the name shown for it is that of the chain it starts if and only if that chain has at most one link |
| FileTree.ThreeDeepLosesASegment | gateway/webui/src/components/Sidebar.tsx:66 | a single node three directories deep is shown under its first two, for the full path of all three |
| ConnectorCheck.CheckConnector | common/repo_mcp_common/connector_check.py:93-177 | the counting loop with its limit and every answer it can give |
| ConnectorCheck.EveryRepositoryIsCountedOnce | common/repo_mcp_common/connector_check.py:120-129 | examined = matched + skipped + left out by the patterns, and matched are exactly those the indexer would bind |
| ConnectorCheck.ThePassedCountIsTheIndexersCount | indexer/app/repos.py:50-53 | the check passes if and only if discovery came to an end or to the limit and some examined repository would be bound; then the count is the indexer's, within a positive limit |
| ConnectorCheck.TruncatedYetCompleteExactlyWhen | common/repo_mcp_common/connector_check.py:57-58 | the counts are called a floor although nothing was left out if and only if as many repositories exist as the limit allows (one, under a limit below one) |
| ConnectorCheck.ACompleteCheckCanSayTruncated | common/repo_mcp_common/connector_check.py:130-132 | a concrete check that does so |
| Authorization.SelectedSquad | gateway/app/mcp.py:101-123 | a caller gets a squad one of its groups maps to: the one it names, or the only one; it is refused as unmapped exactly when no squad matches |
| Authorization.OneGroupNeverHasToChoose | gateway/app/mcp.py:117-122 | in a loaded registry one group leads to at most one squad |
| Authorization.OfferedExactlyWhenAllowed | gateway/app/mcp.py:299-358 | a composite tool passes the check if and only if it is offered, an engine tool if and only if it is effective |
| Authorization.ToolsList | gateway/app/mcp.py:195-203 | the two loops list the effective tools the engine has and the composite tools in reach |
| Authorization.ListedExactlyWhenCallable | gateway/app/mcp.py:195-203 | a tool is listed if and only if it passes the check and exists |
| Authorization.AuthorizedCallsStayInTheSquad | gateway/app/mcp.py:299-338 | no call let through names a project outside the squad's patterns, and an indexing path begins with the squad's root as text |
| Authorization.StaysUnderExactlyWhen | gateway/app/mcp.py:332-338 | a path stays at or below a place if and only if no beginning of it climbs above |
| Authorization.IndexedPathsStayUnderTheRootExactlyWhen | gateway/app/mcp.py:332-338 | of the indexing paths let through, exactly those stay under the root whose part behind it climbs above it at no point |
| Authorization.TheTextPrefixIsNotEnough | gateway/app/mcp.py:335-338 | a concrete path that is let through and names a place beside the root |
| Authorization.PromotionKeepsTools | gateway/app/mcp.py:86-98 | in one squad a higher role keeps every tool of a lower one, the three exceptions aside |
| Authorization.AccessFollowsTheTables | gateway/app/mcp.py:101-133 | end to end: after any history of writes a named squad is granted if and only if the tables hold it, enabled, with one of the caller's groups, and the roles that match are those the tables give |
| Runtime.CurrentConfigurationsBuild | gateway/app/configuration.py:71-72 | whatever happened before, a configuration labelled with the tables' generation builds without an error into the registry the tables describe |
| Runtime.DecisionsFollowTheWrite | gateway/app/configuration.py:54-69 | after a write and an invalidation every decision rests on a counter and tables read after the write, and one on a current configuration decides as the tables do |

## Left out

- Index runs, git, engine subprocesses, files and sockets: a run is a step that succeeds or fails, a process a pipe.
- Shutdown of the indexer (`aclose`) and cancelled workers: they abandon jobs on purpose.
- IndexQueue.Indexer.Get: an uncontended lock is taken without suspending; here it is a `Get` and an `Acquire` with
  nothing forced in between, so the theorems cover more interleavings than occur.
- Float rounding, infinities and NaN: similarity is over the reals, packing over 32-bit words.
- Replicas filing the same answer at once: the unique constraint makes one fail, and the gateway swallows that.
- The purge by squad or project and the statistics of the answer cache: plain deletes and sums.
- AnswerCache.AnswerTables.Lookup: a failing database or embedding service, which the gateway turns into a miss.
- Concurrent read-modify-write of the generation row: a transaction is one step.
- Admin.Session.UpsertTenant: group and pattern rows are fields of the squad's row; the unique constraints on them
  are part of `Sound` instead. Administrators, audit rows and secret encryption are not modelled.
- Admin.Session.DeleteTenant: the connectors go with their squad by the foreign key, which PostgreSQL enforces; SQLite
  does not unless told to.
- Documents.EveryReachableConfigurationLoads: the LiteLLM key of a squad, which the store writes under one name and
  the loader reads under another (`common/repo_mcp_common/store.py:199-200`, `gateway/app/tenants.py:163-165`).
- Registry.FromDict: the tests that mappings are mappings and lists are lists; documents have those types here.
- `ScanConfig.from_dict`: that loader refuses states the tables may hold by design.
- Documents.BuildScanDocument: settings are kept apart; the source merges them over the other keys, so a setting called
  like one of them would replace it.
- Bootstrap.ImportDocuments: entries without a name, type or squad, which raise a KeyError; other keys of an entry
  reach the tables as its settings.
- ConfigStore.ConfigurationProvider.ReadTable: squads are told apart by name, not by row id, so a squad deleted and made
  again under its name between two selects counts as the same; decryption failures and setting defaults are not modelled.
- EngineBridge.CbmSession.ReadReply: lines over 64 MB, which break the stream's framing; the pool of sessions, the
  loopback port and the standard-error tail.
- FileTree.BuildFileTree: the tree is a value and a directory is replaced on the way back from its insertion; the
  source updates the directories in place. No two directories share a child, so nothing else can observe it.
- ConnectorCheck.CheckConnector: discovery is the list it yields and how it ends; the provider clients, their paging
  and the wording of reasons are not modelled.
- Authorization.IndexedPathsStayUnderTheRootExactlyWhen: symbolic links.
- HTTP routing, authentication, LLM calls, metrics, audit output, React components, the 3D scene: plumbing and display.
