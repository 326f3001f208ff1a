# Verified model of SuperMew's stateful cores

The project models the parts of SuperMew whose correctness depends on more than one
function: the document catalog with its publication protocol and retrieval side, the
packing of agent messages into a token budget, evaluation jobs, ranking metrics, the
refresh-token ledger and the capability runtime swap. `dafny verify dfyconfig.toml`
checks all of it.

Each core is built the same way. Its transactions are functions from a state (and
arguments) to a new state and an answer; an error rolls back, so it returns the state as
it was. Where the
program updates rows or fields in place, a class with those fields has one method per
operation, proved equal to the function. Theorems are then about every sequence of
operations. So that none of them rests on the definition it is about, a lemma named
`...Exact` beside each transaction says on plain columns when it succeeds and what it
leaves.

| files | subject |
|---|---|
| `CatalogState`, `CatalogOps` | documents, versions, index and cleanup jobs, manifests; the catalog transactions |
| `CatalogInvariant`, `CatalogSteps`, `CatalogRuns`, `CatalogMoves` | the invariant, one proof per transaction, runs, what a step may do to one version |
| `CatalogWrites`, `CatalogClaims`, `CatalogUploads`, `CatalogCleanups` | when each transaction succeeds and all it leaves, stated on the columns of the rows |
| `CatalogTheorems`, `CatalogTiming`, `CatalogCleanupTiming`, `CatalogQuiet`, `CatalogProgress` | what the catalog promises over runs; leases, retries and the grace period; which steps leave stored versions alone; an upload carried through to its readers |
| `DocumentCatalog` | the catalog as an object |
| `Publication`, `PublicationTheorems`, `PublicationProgress` | workers, the two chunk stores and cleanup as interleaved events; what they promise |
| `Retrieval`, `RetrievalScope`, `RetrievalTenants` | the snapshot, the targets resolved from it, and that tenants are apart |
| `ContextMessages`, `ContextCompaction`, `ContextEviction`, `ContextChoice`, `ContextTrim`, `ContextOrder`, `MemoryFit` | packing messages and memory into the budget |
| `Ranking`, `GreedyOptimality`, `RankingMetrics` | greedy matching, when it is largest, and ranking metrics |
| `EvaluationJobs`, `EvaluationAnswers`, `EvaluationRepository` | the evaluation job machine, what each call answers, and its repository object |
| `RefreshLedger`, `AuthTokens` | the token ledger and its service object |
| `CapabilityRuntime`, `CapabilityControl` | the runtime swap as interleaved events and as objects |
| `Prelude`, `Text`, `Selections` | result types, trimming, selections of a list and where they come from |

Modelling decisions that hold throughout:

- A database transaction is one step. Rows locked by others are a `locked` argument of
  the claiming steps. Time is a nondecreasing clock in the state. Rows created at the same
  time, which the program orders by their random ids, are ordered as they were created.
- Version, index job, cleanup job and manifest of one version are one row, because the
  schema makes them one-to-one. Knowledge bases are keyed by tenant and name, documents
  by knowledge base and name.
- New ids and tokens are arguments and taken to be new; hashes and fingerprints are
  injective.
- A guarded store call and the guard in front of it are one event. A deletion by cleanup
  reads nothing: whoever once claimed the cleanup, recorded the failure or saw the job
  closed and unreferenced may delete at any later time, also after losing the lease.
- A build is identified by its version and token, so one token stands for one process at
  a time, and a process that begins again under its token forgets its earlier build. The
  program earns this by the random suffix of its worker ids
  (`backend/documents/worker.py:52-60`).
- Token counting is additive: the text length plus an overhead that does not depend on
  the text, plus a constant. Which texts are typed tool results is an argument; where it
  matters, a text that ends in the truncation marker is taken not to be one.

Three promises turned out to hold only under a condition.

- Greedy matching is always at least half of the largest (`GreedyIsHalf`) but not always
  largest (`TrapLoses`). With hashes, and retrieved ids once normalised, distinct,
  `LargestExactly` gives the exact condition on the gold list; it is that no gold chunk
  before the last has both an id and a hash when the gold ids are distinct after
  normalisation too (`LargestWithDistinctGold`). The validators compare ids as written, so
  two of them may normalise to the same id; for those rankings the exact condition is
  `LargestExactlyWithAliases`. Both hold for every gold list the validator admits.
- A runtime let go but not closed yet can be applied again and then ends up active and
  useless: at once if it is still leased (`ReappliedWhileLeased`), or when the close that
  is still to come reaches it (`ReappliedWhileClosing`). `ApplyExactly` gives the exact
  condition; the runs of the other theorems apply newly built runtimes or the active one,
  which are among the cases it allows.
- `completed_cases` is the number of completed cases, except after a failure that names a
  case already completed (`FailureMiscounts`), which a run can reach (`MiscountHappens`).

## Model

| member | source | states |
|---|---|---|
| `CatalogRuns.NextSound` | backend/documents/catalog.py:944-3804 | Every transaction, accepted or refused, keeps the catalog invariant and only lets rows evolve: inactive statuses and closed jobs are final, fences and numbers grow, a token that was not live does not become live |
| `CatalogRuns.RunSound` | backend/documents/catalog.py:944-3804 | The same for every finite sequence of transactions and clock ticks, in any order, with any arguments |
| `CatalogRuns.LeadsIsAfter` | backend/documents/catalog.py:944-3804 | One state leads to another exactly when some sequence of transactions computes it |
| `CatalogMoves.StepMoves` | backend/documents/catalog.py:944-3804 | What one step may do to one version: nothing, close its job under the fence it had, write status and step under the lease or while nobody owns it, renew or put it back with its live token, lease it when it is ready, bring its cleanup forward when its deleted document is retired again; cleanup steps leave the index job alone, and the whole version unless its cleanup job is due, leased or dead; a new version has a job that was never leased |
| `CatalogTheorems.PointersHoldActiveVersions` | backend/documents/catalog.py:1539-1553 | In every reachable state the active versions of a document are exactly those its pointers hold; current is ready with a completed job, pending is building with an open job that carries the document fence and expects the current version, a deleted document holds neither |
| `CatalogTheorems.ActiveIdentitiesDiffer` | backend/db/models.py:825-837 | No two active versions of a document share content hash and build fingerprint |
| `CatalogTheorems.DefencesNeverFire` | backend/documents/catalog.py:1021-1197 | No step of any run raises one of the defensive conflicts: orphaned active version, foreign pointer, unfinished current version, manifest mismatch, compare-and-set conflict, inconsistent cleanup |
| `CatalogTheorems.ClaimMeetsOnlyCandidates` | backend/documents/catalog.py:2168-2193 | Every job a claim can pick belongs to the pending version of its document, so the not-owned branch is never taken |
| `CatalogTheorems.CleanupScopeIsSafe` | backend/documents/catalog.py:2843-2874 | Cleanup never meets a version that is current, pending or active again |
| `CatalogTheorems.PublishedNumbersIncrease` | backend/documents/catalog.py:1142-1181 | Over any run, including retirement and new upload, a version published later has a larger number |
| `CatalogTheorems.TerminalForever` | backend/documents/catalog.py:1223-1258 | A failed or superseded version keeps its status, owns a cleanup job and is never pointed to again, whatever runs later |
| `CatalogTheorems.CleanupJobsMatchVersions` | backend/documents/catalog.py:576-612 | A version has a cleanup job iff it is inactive, and is marked cleaned iff that job completed |
| `CatalogTheorems.RejectedIndexTokenStaysRejected` | backend/documents/catalog.py:527-553 | An issued index token that is rejected once is rejected after every later run |
| `CatalogTheorems.RejectedCleanupTokenStaysRejected` | backend/documents/catalog.py:555-574 | The same for cleanup tokens, across operator requeues |
| `CatalogTheorems.ClaimLoopGrants` | backend/documents/catalog.py:2156-2243 | A claim that returns a job leased exactly that job, once, to the caller; beyond the limit only a staged job abandoned by its worker |
| `CatalogTheorems.LeasesAreBounded` | backend/documents/catalog.py:2219-2224 | Over any run the attempts of a job, and its execution fence, are exactly the number of its fresh leases, at most max_attempts + 1; more than max_attempts occur only when staged or closed |
| `CatalogTiming.GracePeriod` | backend/documents/catalog.py:1528-1540 | The version a publish replaces is not claimable for cleanup for an hour and its row does not change, over every run in which its document is not retired once more after its deletion and it is not cleaned without a lease |
| `CatalogTiming.ClaimedTokenLives` | backend/documents/catalog.py:2084-2108 | After a claim or renewal the token is live exactly while the seconds asked for last and the job is not closed, over every run in which its holder neither renews again nor puts the job back |
| `CatalogTiming.RetireHastens` | backend/documents/catalog.py:2535-2632 | Retiring makes the cleanup of what the pointers held due at once, and repeating it every cleanup job still pending |
| `CatalogTiming.RetryWaits` | backend/documents/catalog.py:2346-2376 | A job put back with attempts left is nobody's, keeps its fence and cannot be claimed before its delay is over, over every run without an unleased write to it; left as it is, it is ready exactly from then on |
| `CatalogTiming.UnleasedWritesRefused` | backend/documents/catalog.py:527-541 | In every reachable state, while a worker owns a job, recording, publishing, failing and updating without a token are refused and change nothing, also after the lease has run out |
| `CatalogTiming.OnlyTheHolderWrites` | backend/documents/catalog.py:527-553 | After a claim or renewal, over every run in which the holder neither renews again nor puts the job back: while the seconds asked for last and the job is open, a record, publish, failure, update, renewal, retry or dead letter that changes the version carries the holder's token |
| `CatalogWrites.PublishExact` | backend/documents/catalog.py:1428-1566 | A publish takes effect if and only if the version is staged, fence and expected version are those of the job, and the writer is the owner under its execution fence before the lease ends, or nobody owns the job and no token is given; then exactly the document, the version and the replaced version change, which is kept for an hour; publishing the current version again is accepted without effect, anything else is a conflict or not found |
| `CatalogWrites.RecordExact` | backend/documents/catalog.py:1289-1389 | A manifest is recorded if and only if its entries are apart, of no negative level, with a vector among them and as many as announced, and the writer may write to the open job; then the version is staged with a manifest of exactly the entries and their counts, and nothing else changes |
| `CatalogWrites.FailExact` | backend/documents/catalog.py:1664-1792 | A failure is accepted if and only if the writer may write, the fence is the job's and the job is open or has failed already; an open job fails with its version, whose cleanup is due at once, and leaves its document |
| `CatalogWrites.UpdateExact` | backend/documents/catalog.py:1794-1977 | Which moves of a job an update makes in a reachable state, and what each leaves: nothing is ever staged or completed by it, a staged job is only failed or cancelled, a closed one only repeated |
| `CatalogWrites.HeartbeatExact` | backend/documents/catalog.py:2277-2311 | A lease is renewed if and only if the token is the owner's and its lease still runs; only the end of the lease changes |
| `CatalogWrites.RetryExact` | backend/documents/catalog.py:2313-2378 | The holder, and nobody else, puts the job back to wait the delay, a staged one to be published, or closes it when the attempts are used up |
| `CatalogWrites.DeadLetterExact` | backend/documents/catalog.py:2380-2410 | The holder, and nobody else, closes the job with its version |
| `CatalogClaims.ClaimExact` | backend/documents/catalog.py:2043-2245 | A claim by a worker that holds no running lease leases a job if and only if some unlocked version of a matching build is pending, due for retry, staged or abandoned with attempts left; it is the first of them, staged before pending before retry before abandoned and the oldest within each; used-up jobs ahead of it are closed and nothing else changes; a worker that holds a lease is given its oldest again, renewed |
| `CatalogUploads.EnsureKbExact` | backend/documents/catalog.py:865-919 | A knowledge base belongs to whoever asked for it first, is active, and is refused to anybody else |
| `CatalogUploads.ReserveAnswers` | backend/documents/catalog.py:944-1018 | An upload is accepted if and only if it is well put, for an active knowledge base of its tenant, by the owner of the document, and its version is active already or its id unused; each error has its own cause |
| `CatalogUploads.ReserveReuses` | backend/documents/catalog.py:1021-1101 | An upload whose content and build are active already returns that version, current or pending, and leaves the catalog as it is |
| `CatalogUploads.ReserveCreates` | backend/documents/catalog.py:1103-1208 | Any other accepted upload adds exactly one version, last in the creation order, with all columns those of the upload and of a fresh pending job that expects the current version under the next fence; the candidate before it is cancelled and due for cleanup, nothing else changes |
| `CatalogUploads.ReserveTwice` | backend/documents/catalog.py:944-1221 | Repeating an accepted upload returns the same version and changes nothing |
| `CatalogUploads.RetireExact` | backend/documents/catalog.py:2501-2693 | A name that means no document of the tenant is not found, several are ambiguous; the first retirement deletes the one meant, unless its knowledge base is inactive, and gives up what its pointers held; a further one only brings forward the cleanups not tried yet |
| `CatalogProgress.UploadIsLeased` | backend/documents/catalog.py:944-2245 | From every reachable state an upload accepted as new is given to a worker that can do its build and finds everything else taken, and the worker may write to it |
| `CatalogProgress.HeldIsServed` | backend/documents/catalog.py:1289-1566 | Such an upload, recorded with any fitting manifest and published, is what readers of its knowledge base see of the document, with exactly that manifest, collection and counts |
| `CatalogCleanups.ClaimExact` | backend/documents/catalog.py:2733-2894 | A cleanup claim by a worker without a running lease leases a job if and only if some unlocked version given up is past its grace period, not cleaned, and its job due or abandoned with attempts left; it is the first by status, due time, creation of the job and of the version; spent jobs ahead of it are buried, nothing else changes |
| `CatalogCleanups.HeartbeatExact` | backend/documents/catalog.py:2896-2924 | A cleanup lease is renewed if and only if the token holds the job and the lease runs |
| `CatalogCleanups.CompleteExact` | backend/documents/catalog.py:3069-3118 | A cleanup is completed if and only if the token holds its job and the lease runs: no other check can fail; version and job are marked in one step |
| `CatalogCleanups.RetryExact` | backend/documents/catalog.py:2982-3037 | The holder, and nobody else, puts the cleanup job back to wait the delay, or buries it when the attempts are used up |
| `CatalogCleanups.DeadLetterExact` | backend/documents/catalog.py:3039-3067 | The holder, and nobody else, buries the cleanup job |
| `CatalogCleanups.RequeueExact` | backend/documents/catalog.py:3135-3208 | Only a buried cleanup job is requeued: due now, with fresh attempts, under the fence it had |
| `CatalogCleanups.RecordExact` | backend/documents/catalog.py:3708-3804 | An unleased cleanup is recorded for a version given up whose job nobody holds or has buried; a success completes the job once |
| `CatalogCleanupTiming.CleanupTokenLives` | backend/documents/catalog.py:2875-2881 | After a claim or renewal of a cleanup job, over every run in which the holder does not settle it, the token holds the job and can complete the cleanup exactly while the seconds asked for last |
| `DocumentCatalogObject.NormalizeEntries` | backend/documents/catalog.py:1299-1309 | The loop over manifest entries yields the manifest map, or nothing when two entries collide or an entry is malformed |
| `DocumentCatalogObject.DocumentCatalog.EnsureKnowledgeBase` | backend/documents/catalog.py:865-919 | Adds a missing active knowledge base, returns an existing one of the same owner, refuses any other |
| `DocumentCatalogObject.DocumentCatalog.ReserveUpload` | backend/documents/catalog.py:944-1221 | Carries out the upload transaction of the specification and keeps the invariant; a refusal changes nothing |
| `DocumentCatalogObject.DocumentCatalog.SupersedeVersion` | backend/documents/catalog.py:1223-1258 | Marks one version superseded with its cleanup job due at the given time and touches no other row |
| `DocumentCatalogObject.DocumentCatalog.RecordBuildManifest` | backend/documents/catalog.py:1289-1389 | Stores the manifest and stages the version exactly when guard, counts and entries agree |
| `DocumentCatalogObject.DocumentCatalog.PublishVersion` | backend/documents/catalog.py:1428-1566 | Carries out the publish transaction of the specification and keeps the invariant |
| `DocumentCatalogObject.DocumentCatalog.DeadLetterJob` | backend/documents/catalog.py:1568-1662 | Closes the job, fails its version, drops it from pending and schedules its cleanup |
| `DocumentCatalogObject.DocumentCatalog.FailVersion` | backend/documents/catalog.py:1763-1792 | Carries out the failure transaction; an already closed job is left alone |
| `DocumentCatalogObject.DocumentCatalog.UpdateIndexJob` | backend/documents/catalog.py:1794-1977 | Moves a job only along the allowed statuses, and cancels through the same path as a supersession |
| `DocumentCatalogObject.DocumentCatalog.ClaimIndexJob` | backend/documents/catalog.py:2043-2245 | Renews the caller's own lease or runs the claim loop, which ends because every further round closes one open job |
| `DocumentCatalogObject.DocumentCatalog.HeartbeatIndexJob` | backend/documents/catalog.py:2277-2311 | Extends the lease of a live token and refuses every other |
| `DocumentCatalogObject.DocumentCatalog.ScheduleIndexRetry` | backend/documents/catalog.py:2313-2378 | Puts a job back to wait, or dead-letters it when its attempts are used up |
| `DocumentCatalogObject.DocumentCatalog.DeadLetterIndexJob` | backend/documents/catalog.py:2380-2410 | Dead-letters the job of a live token |
| `DocumentCatalogObject.DocumentCatalog.RetireDocument` | backend/documents/catalog.py:2501-2693 | Detaches both pointers, supersedes what they held and brings every pending cleanup forward; a second call only does the latter |
| `DocumentCatalogObject.DocumentCatalog.ClaimCleanupJob` | backend/documents/catalog.py:2733-2894 | Leases the first due cleanup job, burying those whose attempts are used up |
| `DocumentCatalogObject.DocumentCatalog.HeartbeatCleanupJob` | backend/documents/catalog.py:2896-2924 | Extends a live cleanup lease and refuses every other token |
| `DocumentCatalogObject.DocumentCatalog.ScheduleCleanupRetry` | backend/documents/catalog.py:2982-3037 | Puts a cleanup job back to wait, or dead-letters it |
| `DocumentCatalogObject.DocumentCatalog.DeadLetterCleanupJob` | backend/documents/catalog.py:3039-3067 | Dead-letters the cleanup job of a live token |
| `DocumentCatalogObject.DocumentCatalog.CompleteCleanupJob` | backend/documents/catalog.py:3069-3118 | Completes the job and marks the version cleaned in one transaction |
| `DocumentCatalogObject.DocumentCatalog.RequeueCleanupJob` | backend/documents/catalog.py:3135-3208 | Reopens a dead-lettered cleanup job with fresh attempts and the old fence |
| `DocumentCatalogObject.DocumentCatalog.RecordCleanupResult` | backend/documents/catalog.py:3708-3804 | Records the result of an unleased cleanup, refusing active versions and leased jobs |
| `PublicationTheorems.CurrentVersionIsExact` | backend/documents/publication.py:537-657 | Under every interleaving of builds, crashes, expiries, retries, publishes, retirements and cleanups, the current version of a document has in both stores exactly the chunks of its recorded manifest, and at least one vector |
| `PublicationTheorems.StagedVersionIsExact` | backend/documents/publication.py:796-860 | A staged candidate is stored exactly as recorded, so publishing it after a crash needs no rebuild |
| `PublicationTheorems.CleanedVersionIsGone` | backend/documents/publication.py:950-1024 | A version marked cleaned has no chunk left in either store, in every later state |
| `PublicationTheorems.CleanersHarmNobody` | backend/documents/publication.py:950-1024 | Whoever was ever entitled to delete a version's chunks, by a claimed cleanup, a recorded failure or a read of a closed and unreferenced job, deletes one that is inactive and that no pointer holds, now and in every later catalog; the deletion itself checks nothing |
| `PublicationProtocol.ReactKeeps` | backend/documents/publication.py:390-714 | Every event of a worker, a store or the catalog keeps the joint invariant of catalog, stores and running builds |
| `PublicationTheorems.ReconcileIsExact` | backend/documents/publication.py:738-794 | The verdict after an uncertain publish is the truth: published iff current, preserved iff still the candidate, lost iff given up |
| `PublicationTheorems.FailureRecordedBeforeCleanup` | backend/documents/publication.py:862-922 | Once the failure is recorded, or the job is closed and unreferenced, the version is inactive in every later state, so deleting its chunks cannot harm a reader |
| `PublicationProgress.BuildSucceeds` | backend/documents/publication.py:537-657 | A build left alone that holds its version stages it with a manifest of exactly its entries, with exactly them in both stores, whatever was stored before and however the vectors are batched |
| `Retrieval.SnapshotExact` | backend/documents/catalog.py:3806-3914 | In every state of a run the snapshot of a tenant shows a document if and only if it has a current version and belongs to an active knowledge base of that tenant, to the one asked for if one is, and shows the columns of that version |
| `Retrieval.OnlyPublishAndRetireShow` | backend/documents/catalog.py:3806-3914 | No catalog step but a publish or a retirement changes what the index fingerprint covers |
| `Retrieval.PublishShowsOneVersion` | backend/documents/catalog.py:1428-1566 | A publish that takes effect replaces exactly one entry of the snapshot in scope; any other publish changes none |
| `Retrieval.RetireHidesOneDocument` | backend/documents/catalog.py:2501-2693 | A retirement removes exactly the entry of its document |
| `RetrievalScope.Group` | backend/documents/retrieval.py:89-100 | The loop over the documents stops at an invalid collection name iff there is one; otherwise it groups exactly the current versions and counts them |
| `RetrievalScope.BuildTargets` | backend/documents/retrieval.py:102-118 | One target per collection, in strictly increasing order of name, holding all its versions in strictly increasing order |
| `RetrievalScope.Resolve` | backend/documents/retrieval.py:69-126 | Each error is raised exactly for its cause; a result covers the snapshot, with the counts of current documents and of documents in scope |
| `RetrievalScope.TargetsPartition` | backend/documents/retrieval.py:69-126 | In every reachable state a version is in some target if and only if it is the current one of a document in an active knowledge base of the tenant, the one asked for if one is; it is in one target only, that of its own collection; targets come in the order of their names, name tenant, level and rising version ids, none is empty, and the sizes add up to the number of those documents |
| `RetrievalScope.PrecedesMeans` | backend/documents/retrieval.py:102-104 | The order of collection names is that of their first difference |
| `RetrievalScope.OneAnswer` | backend/documents/retrieval.py:69-126 | The answer depends on nothing but the snapshot and the documents asked for: two resolutions over the same of these are equal |
| `RetrievalTenants.TenantsAreApart` | backend/documents/catalog.py:3806-3914 | In every reachable state a step that shows, hides or adds no document of a tenant leaves its snapshot and its documents as they were |
| `RetrievalTenants.AnswersAreApart` | backend/documents/retrieval.py:69-126 | So what the tenant is told to query is the same before and after |
| `ContextCompaction.CutOnce` | backend/agent/middleware.py:270-276 | One cut leaves one original prefix and one marker, no shorter than the floor, and either stops at the floor or brings the request within budget, taking exactly the excess or a third |
| `ContextCompaction.OneSweepSuffices` | backend/agent/middleware.py:414-452 | Whatever the budget, the second pass over the candidates never changes anything: the loop equals a single pass |
| `ContextCompaction.CompactOutcome` | backend/agent/middleware.py:399-452 | The result fits or every divisible message is at its floor; untouched messages are as they were, each cut one is one prefix plus one marker, the counted indices are exactly the cut ones, and a fitting list is not touched |
| `ContextCompaction.AtMostOnePartial` | backend/agent/middleware.py:432-449 | At most one message is cut to above its floor; then the request fits, exactly or with a third of that text gone |
| `ContextCompaction.CutsFollowPriority` | backend/agent/middleware.py:415-449 | A message is cut only after every divisible one ahead of it in the order (tool results, answers, others, longest first) is cut or at its floor |
| `ContextCompaction.SweepShortens` | backend/agent/middleware.py:432-451 | A pass that changes anything leaves strictly less text, which is why the loop ends for every budget |
| `ContextCompaction.CompactToBudget` | backend/agent/middleware.py:399-452 | The nested loops compute the specified compaction, its count and its estimate |
| `ContextEviction.CompactKeepsWebResults` | backend/agent/middleware.py:294-328 | Compaction alters no typed web result and creates none, so the results and their order are the same afterwards |
| `ContextEviction.RemoveToolCallBundle` | backend/agent/middleware.py:331-351 | The loop removes the results and calls of one id, dropping an answer only when nothing is left of it |
| `ContextEviction.PrunedTwice` | backend/agent/middleware.py:331-351 | Removing bundles one after another is removing them all at once |
| `ContextEviction.PrunedProtocol` | backend/agent/middleware.py:331-351 | Removing bundles never leaves a result without its call |
| `ContextEviction.PrunedKeeps` | backend/agent/middleware.py:331-351 | System messages, prompts, and the results and calls of all other bundles survive |
| `ContextEviction.ProtectedIsNewest` | backend/agent/middleware.py:367-377 | The protected bundle is the newest one with sources, or the newest of all when none has any |
| `ContextEviction.EvictShortest` | backend/agent/middleware.py:387-396 | Eviction removes the shortest prefix of its order that reaches the budget, or all of it |
| `ContextEviction.EvictionPriority` | backend/agent/middleware.py:370-386 | The protected bundle is never in the order, and with distinct ids evidence is evicted only after all unprotected evidence-free bundles |
| `ContextEviction.EvictHonoursPriority` | backend/agent/middleware.py:354-396 | After eviction the protected evidence result is still there, and with distinct ids an evidence result is gone only if no unprotected evidence-free one is left |
| `ContextEviction.OlderGoesFirst` | backend/agent/middleware.py:370-386 | Among unprotected bundles alike in evidence, with distinct ids, the older is evicted first |
| `ContextEviction.EvictHonoursAge` | backend/agent/middleware.py:354-396 | After eviction a newer result is gone only if every older unprotected one alike in evidence is |
| `ContextEviction.WebResultsExact` | backend/agent/middleware.py:294-328 | The web results are exactly the typed results that come from a web tool, by their own name or by the call they answer, in order, with their ids and whether they carry sources |
| `ContextEviction.EvictOlderWebToolBundles` | backend/agent/middleware.py:354-396 | The loop computes the specified eviction and the new estimate |
| `ContextTrim.TurnsAre` | backend/agent/middleware.py:240-251 | The turns concatenate to the conversation, none is empty, and a new one starts at every prompt and nowhere else |
| `ContextTrim.ConversationTurns` | backend/agent/middleware.py:240-251 | The loop computes that division |
| `ContextMessages.ProtocolMeans` | backend/agent/middleware.py:254-267 | The scan with its growing set of visible ids means: every result answers a call at an earlier position |
| `ContextTrim.AssertToolProtocol` | backend/agent/middleware.py:254-267 | The scan accepts exactly the lists in which every result answers an earlier call |
| `ContextTrim.KeptIsMaximal` | backend/agent/middleware.py:469-488 | The choice of turns contains the newest and fits whenever it holds more than that; an older turn is left out exactly when it does not fit on top of the newer ones kept |
| `ContextTrim.OlderTurnsStayWhole` | backend/agent/middleware.py:469-502 | When an older turn is kept nothing is cut and nothing evicted |
| `ContextTrim.NeverOrphaned` | backend/agent/middleware.py:507-507 | If every turn holds the call for each of its results, the orphan error is never raised, for any budget |
| `ContextTrim.WebResultsIntact` | backend/agent/middleware.py:490-502 | Through both passes a typed web result is dropped with its bundle or kept as it was, and the protected one is never dropped |
| `ContextOrder.SeparatedInOrder` | backend/agent/middleware.py:466-468 | System messages and conversation are the messages at exactly the respective positions of the list, in order |
| `ContextOrder.PrunedExact` | backend/agent/middleware.py:331-351 | Removing bundles drops exactly their results and the answers left without calls and text, and takes from the other answers exactly their calls, in order |
| `ContextOrder.OtherCallsAt` | backend/agent/middleware.py:331-351 | The calls left in an answer are exactly those of other bundles, in order |
| `ContextOrder.TrimGuarantee` | backend/agent/middleware.py:455-513 | A nonempty list of self-contained turns ends in the budget error or in a list that fits and answers every result: every message of it is traced to a position of the original list, first all system messages in order, then others at rising positions, whole, cut or relieved of calls, with the newest prompt of the list; it is whole turns with some texts shortened minus whole bundles, and the counts say how many |
| `ContextOrder.TrimFits` | backend/agent/middleware.py:455-513 | A list that fits is returned whole, system messages first, with nothing counted as removed or cut, or refused for an orphan; without system messages it is the same list |
| `ContextOrder.TrimRefuses` | backend/agent/middleware.py:503-506 | The budget error is raised only when the newest turn alone is left, every divisible message is at its minimum and every web result but the protected one is evicted; it says whether a web result is left |
| `ContextTrim.TrimMessagesToBudget` | backend/agent/middleware.py:455-513 | The procedure computes the specified packing, including the empty list and both errors |
| `MemoryFit.SearchPrefix` | backend/agent/middleware.py:842-859 | The binary search returns what a linear search for the longest fitting prefix returns |
| `MemoryFit.SizeDropsAtFullLength` | backend/agent/context.py:176-180 | The size is not monotone: for every nonempty note the whole note costs less than its longest proper prefix |
| `MemoryFit.FitsDownward` | backend/agent/middleware.py:841-855 | When the whole note does not fit, a prefix fits whenever a longer one does |
| `MemoryFit.EscapedHasNoMarkup` | backend/agent/context.py:180-180 | Shown memory holds no angle bracket or quote |
| `MemoryFit.EscapeRoundTrip` | backend/agent/context.py:180-180 | Unescaping shown memory gives the note back |
| `Text.StripIs` | backend/agent/context.py:176-180 | Trimming leaves the text between the first and the last character that is no white space |
| `MemoryFit.Override` | backend/agent/middleware.py:828-866 | The memory limit, the kept catalogue, the truncation flag and the estimate in each of the three cases |
| `Ranking.ChunkRelevance` | backend/evaluation/rag.py:789-809 | The loop marks exactly the chunks the greedy assignment matches and counts them |
| `Ranking.GreedyMatches` | backend/evaluation/rag.py:789-809 | The greedy assignment is a matching, and a chunk stays unmatched only if earlier chunks hold every gold chunk it matches |
| `Ranking.GreedyIsHalf` | backend/evaluation/rag.py:789-809 | It has at least half as many hits as any matching |
| `Ranking.GreedyTakesLowest` | backend/evaluation/rag.py:796-806 | Each chunk gets the lowest gold chunk it matches that no earlier chunk holds |
| `GreedyOptimality.GreedyIsLargest` | backend/evaluation/rag.py:789-809 | It is a largest matching whenever a chunk that takes a gold chunk from another one, although it wants a later one too, does no harm: the other wants the later one as well, or one of the two has a gold chunk of its own |
| `GreedyOptimality.TrapLoses` | backend/evaluation/rag.py:789-809 | It is not when the first of two chunks wants two gold chunks and the second only the lower of them: it then has one hit of two |
| `GreedyOptimality.LargestExactly` | backend/evaluation/rag.py:754-765 | For every gold list the validator admits, it is largest for every ranking whose hashes, and ids once normalised, are distinct, if and only if no gold chunk is contested: it has both keys, is the first with its id, and a later one has a hash or an id that none before it has |
| `GreedyOptimality.LargestWithDistinctGold` | backend/evaluation/rag.py:190-197 | When the gold ids are distinct after normalisation too, that is if and only if no gold chunk before the last has both an id and a hash |
| `GreedyOptimality.LargestExactlyWithAliases` | backend/evaluation/rag.py:278-286 | For every gold list the validator admits and rankings whose ids need only be distinct as written, it is always largest if and only if no gold chunk with an id precedes another while it has a hash itself, or while the other has a hash and not the same id |
| `RankingMetrics.MetricsInRange` | backend/evaluation/rag.py:836-862 | Recall, precision, reciprocal rank and normalised gain lie in [0, 1] for all distinct positive ranks and every positive nonincreasing discount |
| `Ranking.RankedExact` | backend/evaluation/rag.py:782-786 | The ranking up to k holds exactly the chunks of rank at most k, by rising rank |
| `RankingMetrics.MetricsAre` | backend/evaluation/rag.py:836-862 | Recall is the number of matched chunks over that of gold chunks, precision over k, the reciprocal rank is that of the best matched chunk or zero, and the gain is the discounts of the matched ranks over those of ranks 1 to min(|gold|, k) |
| `RankingMetrics.FirstRankIsBest` | backend/evaluation/rag.py:845-849 | The reciprocal rank is taken at the best relevant rank, and is zero exactly when nothing is relevant |
| `RankingMetrics.RecallRises` | backend/evaluation/rag.py:841-843 | Recall never falls as k grows |
| `RankingMetrics.PerfectNdcg` | backend/evaluation/rag.py:850-856 | With a strictly falling discount the normalised gain is 1 exactly when the relevant chunks hold ranks 1 up to min(|gold|, k) |
| `EvaluationJobs.NextSound` | backend/evaluation/repository.py:287-1125 | Every step keeps the job invariant and only lets rows evolve |
| `EvaluationJobs.CountersAreTrue` | backend/evaluation/repository.py:666-674 | In every reachable state the fencing token equals the attempts and is within the limit, completed_cases is the number of completed cases, for a failed job that number or one more, success means all cases completed |
| `EvaluationJobs.FailureMiscounts` | backend/evaluation/repository.py:857-908 | After fail_job the counter is one above the number of completed cases exactly when the case it names was completed, and true otherwise |
| `EvaluationJobs.MiscountHappens` | backend/evaluation/repository.py:857-908 | A run from the empty repository that ends in a failed job whose counter is one and whose only case is not completed |
| `EvaluationJobs.RecoveryCounts` | backend/evaluation/repository.py:527-605 | Recovery of expired jobs, whether it cancels, fails or requeues them, leaves a true counter |
| `EvaluationJobs.EndedForever` | backend/evaluation/repository.py:1071-1125 | A succeeded, failed or cancelled job never changes again |
| `EvaluationJobs.NoStartAfterCancel` | backend/evaluation/repository.py:473-502 | After a cancel request no case starts and the job never runs or queues again |
| `EvaluationJobs.RefusedForever` | backend/evaluation/repository.py:1071-1100 | A token refused once is refused after every later run |
| `EvaluationJobs.RequeuedWorkerIsShutOut` | backend/evaluation/repository.py:506-605 | A worker whose job was requeued can never write to it with its old token |
| `EvaluationJobs.LeaseOutdates` | backend/evaluation/repository.py:644-698 | A fresh lease is held by the caller, is within the allowed attempts, and outdates every earlier token |
| `EvaluationJobs.LeaseHolds` | backend/evaluation/repository.py:666-723 | A lease, claimed or renewed, lasts the seconds asked for and at least ten: over every run in which its holder neither renews nor settles it, the job is still the holder's after recovery exactly until then |
| `EvaluationAnswers.OnlyTheHolderWrites` | backend/evaluation/repository.py:1071-1100 | A write by anybody but the owner under the present token while the job is running or asked to stop is refused and changes nothing |
| `EvaluationAnswers.HeartbeatExact` | backend/evaluation/repository.py:700-723 | The holder's lease ends after the seconds asked for, and at least ten |
| `EvaluationAnswers.FinishExact` | backend/evaluation/repository.py:910-965 | The holder finishes a job if and only if every case is completed and its report covers the case names and no other |
| `EvaluationAnswers.FinishCancelledExact` | backend/evaluation/repository.py:1011-1030 | The holder ends its job as cancelled, with the cases not completed |
| `EvaluationAnswers.ClaimExact` | backend/evaluation/repository.py:644-698 | A claim leases the oldest queued job that is not locked, if and only if there is one, for the seconds asked and at least ten |
| `EvaluationAnswers.RecoverExact` | backend/evaluation/repository.py:506-608 | Recovery touches exactly the jobs whose lease has run out: cancelled if asked to stop, failed with their open cases if out of attempts, else queued with their started cases waiting |
| `EvaluationAnswers.ClaimCaseExact` | backend/evaluation/repository.py:725-763 | The holder is given the first waiting case, if and only if there is one and the job is not asked to stop |
| `EvaluationAnswers.CompleteCaseExact` | backend/evaluation/repository.py:765-835 | The holder completes a started case once, which counts; a completed one again without effect; no other |
| `EvaluationAnswers.FailExact` | backend/evaluation/repository.py:837-908 | A failure marks the first case of the name given, drops those waiting and leaves the rest |
| `EvaluationAnswers.CancelExact` | backend/evaluation/repository.py:473-504 | A queued job is cancelled with its open cases, a running one asked to stop, any other left as it is |
| `EvaluationAnswers.CreateExact` | backend/evaluation/repository.py:287-380 | A job is created if and only if the data set is known, the id unused and the baseline, if named, a job of the data set that succeeded with a report; it is queued last with all cases waiting |
| `EvaluationRepository.RagEvaluationRepository.CreateJob` | backend/evaluation/repository.py:287-380 | Refuses an unknown data set and an unknown or unfit baseline, otherwise adds a queued job with all cases waiting |
| `EvaluationRepository.RagEvaluationRepository.Cancel` | backend/evaluation/repository.py:473-504 | Cancels a queued job with its cases, asks a running one to stop, leaves the rest |
| `EvaluationRepository.RagEvaluationRepository.ReconcileExpired` | backend/evaluation/repository.py:506-608 | The loop recovers exactly the jobs whose lease ran out: cancelled, failed or requeued |
| `EvaluationRepository.RagEvaluationRepository.ClaimNext` | backend/evaluation/repository.py:644-698 | Reconciles, then leases the first queued job under a new token |
| `EvaluationRepository.RagEvaluationRepository.Heartbeat` | backend/evaluation/repository.py:700-723 | Extends the lease of the owner only |
| `EvaluationRepository.RagEvaluationRepository.ClaimCase` | backend/evaluation/repository.py:725-763 | Starts the first waiting case of a running job |
| `EvaluationRepository.RagEvaluationRepository.CompleteCase` | backend/evaluation/repository.py:765-835 | Completes a started case once; a second report is accepted and changes nothing |
| `EvaluationRepository.RagEvaluationRepository.FailJob` | backend/evaluation/repository.py:837-908 | Fails the job, marks the named case and drops the waiting ones |
| `EvaluationRepository.RagEvaluationRepository.FinishJob` | backend/evaluation/repository.py:910-965 | Succeeds only with all cases completed and a report over exactly those cases |
| `EvaluationRepository.RagEvaluationRepository.FinishCancelled` | backend/evaluation/repository.py:1011-1030 | Cancels the job of its owner with its open cases |
| `RefreshLedger.IssuedTokenLives` | backend/auth/service.py:84-168 | After every run an issued token can be rotated exactly if it is unexpired and was not rotated, logged out, or revoked by a logout everywhere or a replay of its user; withdrawn it is a replay until it expires, then it is expired, at least for the retention, or invalid once purged |
| `RefreshLedger.RotatedTokenLives` | backend/auth/service.py:139-151 | The same for the token a rotation hands out, for the same user and a full lifetime from that rotation |
| `RefreshLedger.RotateExact` | backend/auth/service.py:119-168 | A rotation succeeds if and only if the token is well formed, known, unexpired and unrevoked; that row is revoked and the replacement added with a full lifetime; a revoked one revokes exactly the active rows of its user; any other changes nothing |
| `RefreshLedger.IssueExact` | backend/auth/service.py:84-117 | A token is issued if and only if it is well formed and unused and the user exists |
| `RefreshLedger.LogoutExact` | backend/auth/service.py:170-195 | A logout revokes and counts exactly a known token that is neither expired nor revoked |
| `RefreshLedger.LogoutAllExact` | backend/auth/service.py:197-208 | A logout everywhere revokes and counts exactly the tokens of the user that are neither expired nor revoked |
| `RefreshLedger.RotatedOnce` | backend/auth/service.py:119-168 | After a successful rotation no later attempt with the same token succeeds, whatever is issued, rotated, revoked or purged in between |
| `RefreshLedger.ReplayShutsOut` | backend/auth/service.py:131-138 | After a replay no rotation of that user succeeds until a token is issued to them |
| `RefreshLedger.LogoutAllShutsOut` | backend/auth/service.py:197-208 | The same after a logout everywhere |
| `RefreshLedger.ReplayExactly` | backend/auth/service.py:131-138 | Replay is answered exactly for a revoked token before its expiry |
| `RefreshLedger.PurgedRunsAgree` | backend/auth/cleanup.py:26-62 | Every run with purges answers every call like the run without them, except that expired may become invalid |
| `RefreshLedger.PurgeIsInvisible` | backend/auth/cleanup.py:26-62 | The same from any two ledgers that differ only in expired rows, which stay so related |
| `RefreshLedger.BatchesAddUp` | backend/auth/cleanup.py:34-62 | Two batches in a row delete what one larger batch would: the oldest rows past retention |
| `AuthTokens.AuthTokenService.Issue` | backend/auth/service.py:84-117 | Adds one active row for a known user |
| `AuthTokens.AuthTokenService.Rotate` | backend/auth/service.py:119-168 | Carries out the specified rotation, with its four rejections, and keeps the ledger valid |
| `AuthTokens.AuthTokenService.Logout` | backend/auth/service.py:170-195 | Revokes one active token and says whether it did |
| `AuthTokens.AuthTokenService.LogoutAll` | backend/auth/service.py:197-208 | Revokes all active tokens of the user and returns their number |
| `AuthTokens.AuthTokenService.PurgeBatch` | backend/auth/cleanup.py:26-62 | Deletes the oldest rows past retention up to the limit, all of them when they are fewer |
| `AuthTokens.AuthTokenService.PurgeLedger` | backend/auth/cleanup.py:84-104 | With the clock read anew for each batch, the loop deletes the oldest rows past retention at its end and leaves none of them unless every allowed batch was full |
| `CapabilityRuntime.ReactKeeps` | backend/capabilities/control_service.py:59-216 | Every event keeps the invariant and shuts a bundle down only while no lease is held |
| `CapabilityRuntime.AcquireNeverFails` | backend/capabilities/control_service.py:167-179 | In every interleaving with newly built runtimes taking the factory succeeds and leases the active runtime |
| `CapabilityRuntime.LeasedStaysOpen` | backend/capabilities/control_service.py:84-97 | A leased bundle is open, and giving the lease back never fails |
| `CapabilityRuntime.ClosedAtMostOnce` | backend/capabilities/control_service.py:99-110 | A bundle is shut down at most once and never while leased |
| `CapabilityRuntime.NothingLeaks` | backend/capabilities/control_service.py:198-216 | Once leases and pending closes are done, every bundle but the active one was shut down exactly once |
| `CapabilityRuntime.LastReleaseCloses` | backend/capabilities/control_service.py:90-110 | The last release of a retired bundle leads to its one shutdown |
| `CapabilityRuntime.ReleaseExact` | backend/capabilities/control_service.py:90-97 | In every reachable state a lease can be given back, and asks for a close if and only if the bundle is retired and nobody else holds one |
| `CapabilityRuntime.ApplyExactly` | backend/capabilities/control_service.py:198-216 | After any bundle is applied in a reachable state, taking the factory succeeds over every later run if and only if that bundle was newly built, already active, or closed so that its start is refused |
| `CapabilityRuntime.ReappliedWhileLeased` | backend/capabilities/control_service.py:59-64 | A retired bundle that is still leased can be applied again and then refuses every request |
| `CapabilityRuntime.ReappliedWhileClosing` | backend/capabilities/control_service.py:211-216 | A bundle applied again after a shutdown detached it serves until the close of that shutdown, and then is active and refuses every request |
| `CapabilityControl.CapabilityResources.Start` | backend/capabilities/control_service.py:59-82 | Starts once; a failed start closes the bundle |
| `CapabilityControl.CapabilityResources.Acquire` | backend/capabilities/control_service.py:84-88 | Adds a lease, or refuses a bundle not started, closed or retired |
| `CapabilityControl.CapabilityResources.Release` | backend/capabilities/control_service.py:90-97 | Gives a lease back and closes the bundle with the last one once retired |
| `CapabilityControl.CapabilityResources.Close` | backend/capabilities/control_service.py:99-110 | Retires the bundle and shuts it down unless leased or closed |
| `CapabilityControl.CapabilityControlService.ApplyRuntime` | backend/capabilities/control_service.py:198-209 | The new bundle starts before the swap; a failed start leaves the old one active and untouched |
| `CapabilityControl.CapabilityControlService.AcquireFactory` | backend/capabilities/control_service.py:167-179 | Leases the active bundle, or nothing when there is none |
| `CapabilityControl.CapabilityControlService.CloseRuntime` | backend/capabilities/control_service.py:211-216 | Leaves no active runtime and closes the former one |

## Left out

- `update_job` with `increment_attempts`: no caller passes it, and it would break the equality of fence and attempts.
- Store writes without a lease: the unleased build path of publication and its stores.
- The retirement-job table, the catalog revision counter, progress, step texts, error codes, job and document views: bookkeeping that no other transaction reads.
- Validation and normalisation of identifiers, object keys and file names: single-branch checks.
- SQLAlchemy sessions, row locking and integrity-error retries: replaced by atomic steps.
- Embedding, Milvus, the parent store, document loading and files on disk: only the set of chunk ids per version and store is kept.
- PublicationProtocol.ReactKeeps: models `_run_once` as a state machine over its stages rather than as one procedure, because other workers act between any two of them; its progress callbacks and error codes are not modelled.
- Retrieval.OnlyPublishAndRetireShow: the index version is a constant of a version, like its collection, and not a field of its own.
- RetrievalScope.Resolve: the version ids of a target are compared as numbers.
- AuthTokens.AuthTokenService.Issue: asks for a token never used before, also not by a purged row, which random generation provides.
- AuthTokens.AuthTokenService.Rotate: asks for a replacement never used before, for the same reason; access tokens and cookies are not modelled.
- AuthTokens.AuthTokenService.PurgeLedger: asks for a positive batch size and number of batches, which the command line checks; transactions of other sessions between two batches are not modelled.
- CapabilityControl.CapabilityResources.Close: assumes that closing the underlying runtimes does not raise.
- CapabilityControl.CapabilityResources.Release: the deferred close follows at once; interleavings of the two are in `CapabilityRuntime`.
- EvaluationRepository.RagEvaluationRepository.ReconcileExpired: whether a partial report could be computed is an argument; scores, answers and observations are not modelled.
- EvaluationRepository.RagEvaluationRepository.CreateJob: the existence of the user is not modelled.
- RankingMetrics.MetricsInRange: arithmetic is over reals; rounding to twelve digits and the logarithm are abstracted to a discount.
- Ranking.ChunkRelevance: normalisation of chunk ids is an argument; document matching, answer scoring and gates are left out as simpler uses of the same loop.
- GreedyOptimality.LargestExactlyWithAliases: a further spelling of each gold id with the same normal form is an argument; that hashes are SHA-256 digests is not used.
- MemoryFit.Override: the sizes of the rest of the request with and without the skill catalogue are arguments.
- ContextTrim.TrimMessagesToBudget: message contents are plain texts; lists of content blocks are not modelled.
- The final-response switch, tool visibility, guardrails, tracing and the other middleware: single-branch code.
- Worker loops, jitter, health reporting, routes, settings and the frontend: they only call what is modelled.
