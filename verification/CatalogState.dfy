// The rows of the document catalog.
//
// Index jobs, cleanup jobs and manifest entries are stored with the version they
// belong to: the schema gives each version at most one index job and one cleanup
// job. Knowledge bases are keyed by (tenant, name) and documents by (knowledge base,
// canonical name), which the schema declares unique.
module CatalogState {
  import opened Prelude

  type VersionId = nat
  type Worker = string
  type Time = int

  datatype KbId = KbId(tenant: string, name: string)
  datatype DocId = DocId(kb: KbId, name: string)

  datatype VersionStatus = Uploaded | Parsing | Indexing | Staged | Ready | Failed | Superseded

  datatype JobStatus =
    Pending | Running | RetryWait | Staged | Completed | Failed | Cancelled | DeadLetter

  datatype CleanupStatus = Pending | Running | RetryWait | Completed | DeadLetter

  datatype DocStatus = DocPending | DocIndexing | DocUpdating | DocReady | DocFailed | DocDeleted

  /** The (worker, execution fence) pair a worker presents with its writes. */
  datatype Token = Token(worker: Worker, fence: nat)

  datatype IndexJob = IndexJob(
    status: JobStatus, step: string, attempts: nat, maxAttempts: nat,
    fence: nat, execFence: nat, expected: Option<VersionId>,
    owner: Option<Worker>, lease: Option<Time>, nextRetry: Option<Time>)

  datatype CleanupJob = CleanupJob(
    status: CleanupStatus, attempts: nat, maxAttempts: nat, execFence: nat,
    owner: Option<Worker>, lease: Option<Time>, nextRetry: Option<Time>, created: Time)

  datatype StoreKind = Vector | Parent
  datatype ChunkKey = ChunkKey(kind: StoreKind, id: string)
  datatype ChunkMeta = ChunkMeta(hash: string, section: string, level: int)
  type Manifest = map<ChunkKey, ChunkMeta>

  datatype Row = Row(
    doc: DocId, number: nat, content: string, build: string, collection: string,
    status: VersionStatus, chunkCount: nat, parentCount: nat,
    publishedAt: Option<Time>, cleanupAfter: Option<Time>, cleanedAt: Option<Time>,
    job: Option<IndexJob>, cleanup: Option<CleanupJob>, manifest: Manifest)

  datatype Document = Document(
    owner: int, fence: nat, counter: nat,
    current: Option<VersionId>, pending: Option<VersionId>,
    deletedAt: Option<Time>, status: DocStatus)

  datatype KnowledgeBase = KnowledgeBase(owner: int, active: bool)

  /** `order` lists the version ids by creation; `clock` is the database clock. */
  datatype State = State(
    kbs: map<KbId, KnowledgeBase>, docs: map<DocId, Document>,
    rows: map<VersionId, Row>, order: seq<VersionId>, clock: Time)

  datatype Reason =
    | CurrentNotReady | CurrentUnfinished | OrphanedActive | ForeignPointer | IdCollision
    | LeaseLost | TerminalJob | StaleFence | DeletedDocument
    | UnexpectedCurrent | NotStaged | ManifestMismatch | CasConflict
    | BadTransition | NotPublished | MissingManifest | AmbiguousName
    | CleanupLeaseLost | ActiveScope | CleanupClaimed | CleanupDead | CleanupInconsistent
    | NotDeadLetter

  datatype Error = NotFound | InvalidRequest | PermissionDenied | Conflict(reason: Reason)

  const EMPTY := State(map[], map[], map[], [], 0)

  predicate Active(st: VersionStatus) {
    !st.Failed? && !st.Superseded?
  }

  predicate Building(st: VersionStatus) {
    Active(st) && !st.Ready?
  }

  predicate Terminal(st: JobStatus) {
    st.Completed? || st.Failed? || st.Cancelled? || st.DeadLetter?
  }

  /** An index token is live when the job still carries it and the lease has not run out. */
  predicate Live(job: IndexJob, token: Token, now: Time) {
    && job.owner == Some(token.worker)
    && job.execFence == token.fence
    && job.lease.Some? && job.lease.value > now
  }

  predicate CleanupLive(job: CleanupJob, token: Token, now: Time) {
    && job.owner == Some(token.worker)
    && job.execFence == token.fence
    && job.status.Running?
    && job.lease.Some? && job.lease.value > now
  }

  function Keys(m: Manifest, kind: StoreKind): set<string> {
    set k | k in m && k.kind == kind :: k.id
  }

  function Count(m: Manifest, kind: StoreKind): nat {
    |Keys(m, kind)|
  }

  function WithRow(s: State, v: VersionId, row: Row): State {
    s.(rows := s.rows[v := row])
  }

  function WithDoc(s: State, id: DocId, doc: Document): State {
    s.(docs := s.docs[id := doc])
  }
}
