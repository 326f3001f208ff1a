// The catalog's transactions as functions from a state to a state and an answer.
//
// Every public method of the catalog runs in one database transaction, so each is
// one atomic step; an error leaves the state as it was.
module CatalogOps {
  import opened Prelude
  import opened CatalogState

  type Reply<T> = (State, Answer<T, Error>)

  // ---------- Shared checks ----------

  predicate JobGraph(s: State, v: VersionId) {
    && v in s.rows && s.rows[v].job.Some?
    && s.rows[v].doc in s.docs && s.rows[v].doc.kb in s.kbs
  }

  predicate CleanupGraph(s: State, v: VersionId) {
    && v in s.rows && s.rows[v].cleanup.Some?
    && s.rows[v].doc in s.docs && s.rows[v].doc.kb in s.kbs
  }

  /** A write without a token is accepted only while nobody owns the job. */
  predicate Held(job: IndexJob, execution: Option<Token>, now: Time) {
    match execution
    case None => job.owner.None?
    case Some(token) => Live(job, token, now)
  }

  function CandidateFault(s: State, v: VersionId, fence: int): Option<Reason>
    requires JobGraph(s, v)
  {
    var row := s.rows[v];
    var job := row.job.value;
    var doc := s.docs[row.doc];
    if Terminal(job.status) then Some(TerminalJob)
    else if fence != job.fence || fence != doc.fence || doc.pending != Some(v) then Some(StaleFence)
    else if doc.deletedAt.Some? then Some(DeletedDocument)
    else None
  }

  /** The lease check followed by the candidate check, as every leased write performs them. */
  function WriteFault(s: State, v: VersionId, fence: int, execution: Option<Token>): Option<Reason>
    requires JobGraph(s, v)
  {
    if !Held(s.rows[v].job.value, execution, s.clock) then Some(LeaseLost)
    else CandidateFault(s, v, fence)
  }

  // ---------- Row updates shared by several transactions ----------

  function Earlier(current: Option<Time>, proposed: Time): Option<Time> {
    if current.None? || proposed < current.value then Some(proposed) else current
  }

  function EnsureCleanup(row: Row, at: Time, maxAttempts: nat, now: Time): Row {
    if row.cleanup.None? then
      row.(cleanup := Some(CleanupJob(CleanupStatus.Pending, 0, if maxAttempts < 1 then 1 else maxAttempts,
                                      0, None, None, Some(at), now)))
    else
      var c := row.cleanup.value;
      if c.status.Pending? || c.status.RetryWait? then
        row.(cleanup := Some(c.(nextRetry := Earlier(c.nextRetry, at))))
      else row
  }

  function Supersede(row: Row, now: Time, cleanupAfter: Time, cancelJob: bool): Row {
    var closed := row.(status := VersionStatus.Superseded, cleanupAfter := Some(cleanupAfter));
    if cancelJob && row.job.Some? then
      var job := row.job.value;
      var job' := if Terminal(job.status) then job
                  else job.(status := Cancelled, step := "superseded", owner := None, lease := None);
      EnsureCleanup(closed.(job := Some(job')), cleanupAfter, job.maxAttempts, now)
    else EnsureCleanup(closed, cleanupAfter, 3, now)
  }

  /** Supersedes the version a pointer holds, if it holds one. */
  function SupersedeHeld(rows: map<VersionId, Row>, held: Option<VersionId>, now: Time, cleanupAfter: Time,
                         cancelJob: bool): (r: map<VersionId, Row>)
    requires held.Some? ==> held.value in rows
    ensures r.Keys == rows.Keys
    ensures forall v :: v in rows ==> r[v].doc == rows[v].doc && (held != Some(v) ==> r[v] == rows[v])
  {
    if held.None? then rows
    else rows[held.value := Supersede(rows[held.value], now, cleanupAfter, cancelJob)]
  }

  function MarkFailed(row: Row, now: Time): Row {
    row.(status := VersionStatus.Failed, cleanupAfter := Some(now), cleanedAt := None)
  }

  function DropPending(doc: Document): Document {
    doc.(pending := None, status := if doc.current.Some? then DocReady else DocFailed)
  }

  /** Closes a job as failed or dead-lettered and gives up its version. */
  function Abandon(s: State, v: VersionId, job: IndexJob): State
    requires JobGraph(s, v)
  {
    var row := s.rows[v].(job := Some(job));
    var doc := s.docs[row.doc];
    var isCandidate := doc.pending == Some(v) && doc.fence == job.fence;
    var failed := if isCandidate || !row.status.Superseded? then MarkFailed(row, s.clock) else row;
    var s' := WithRow(s, v, EnsureCleanup(failed, s.clock, job.maxAttempts, s.clock));
    if isCandidate then WithDoc(s', row.doc, DropPending(doc)) else s'
  }

  function DeadLetterLocked(s: State, v: VersionId): Reply<()>
    requires JobGraph(s, v)
  {
    var job := s.rows[v].job.value;
    if job.status.DeadLetter? then (s, Ok(()))
    else if Terminal(job.status) then (s, Err(Conflict(TerminalJob)))
    else (Abandon(s, v, job.(status := JobStatus.DeadLetter, step := "dead_letter",
                             owner := None, lease := None, nextRetry := None)), Ok(()))
  }

  function FailLocked(s: State, v: VersionId, fence: int, execution: Option<Token>): Reply<()>
    requires JobGraph(s, v)
  {
    var job := s.rows[v].job.value;
    if fence != job.fence then (s, Err(Conflict(StaleFence)))
    else if job.status.Failed? && execution.None? then (s, Ok(()))
    else if !Held(job, execution, s.clock) then (s, Err(Conflict(LeaseLost)))
    else if job.status.Completed? || job.status.Cancelled? || job.status.DeadLetter? then
      (s, Err(Conflict(TerminalJob)))
    else (Abandon(s, v, job.(status := JobStatus.Failed, step := "failed", owner := None, lease := None)), Ok(()))
  }

  // ---------- Knowledge bases ----------

  function EnsureKb(s: State, kb: KbId, owner: int): Reply<()> {
    if kb !in s.kbs then (s.(kbs := s.kbs[kb := KnowledgeBase(owner, true)]), Ok(()))
    else if s.kbs[kb].owner != owner then (s, Err(PermissionDenied))
    else (s, Ok(()))
  }

  // ---------- Uploads ----------

  datatype Upload = Upload(
    tenant: string, kb: KbId, name: string, owner: int, content: string, build: string,
    size: int, collection: string, maxAttempts: int)

  datatype Reservation = Reservation(
    version: VersionId, created: bool, requeued: bool, alreadyCurrent: bool,
    fence: nat, expected: Option<VersionId>)

  predicate SameIdentity(row: Row, id: DocId, u: Upload) {
    row.doc == id && row.content == u.content && row.build == u.build
  }

  predicate MatchesPointer(s: State, pointer: Option<VersionId>, id: DocId, u: Upload) {
    pointer.Some? && pointer.value in s.rows && SameIdentity(s.rows[pointer.value], id, u)
  }

  predicate ForeignTarget(s: State, id: DocId, pointer: Option<VersionId>) {
    pointer.Some? && (pointer.value !in s.rows || s.rows[pointer.value].doc != id)
  }

  function NewJob(u: Upload, fence: nat, expected: Option<VersionId>): IndexJob
    requires u.maxAttempts >= 1
  {
    IndexJob(JobStatus.Pending, "upload", 0, u.maxAttempts, fence, 0, expected, None, None, None)
  }

  function NewRow(u: Upload, id: DocId, number: nat, job: IndexJob): Row {
    Row(id, number, u.content, u.build, u.collection, Uploaded, 0, 0, None, None, None, Some(job), None, map[])
  }

  /** Inserts the candidate version, superseding the candidate it replaces. */
  function Insert(s: State, u: Upload, id: DocId, doc: Document, newId: VersionId): Reply<Reservation>
    requires u.maxAttempts >= 1
    requires doc.pending.Some? ==> doc.pending.value in s.rows
  {
    if newId in s.rows then (s, Err(Conflict(IdCollision)))
    else
      var requeued := exists v :: v in s.rows && SameIdentity(s.rows[v], id, u);
      var rows := SupersedeHeld(s.rows, doc.pending, s.clock, s.clock, true);
      var doc' := doc.(counter := doc.counter + 1, fence := doc.fence + 1, pending := Some(newId), deletedAt := None,
                       status := if doc.current.Some? then DocUpdating else DocIndexing);
      var row := NewRow(u, id, doc'.counter, NewJob(u, doc'.fence, doc.current));
      (s.(docs := s.docs[id := doc'], rows := rows[newId := row], order := s.order + [newId]),
       Ok(Reservation(newId, true, requeued, false, doc'.fence, doc.current)))
  }

  function Reserve(s: State, u: Upload, newId: VersionId): Reply<Reservation> {
    var id := DocId(u.kb, u.name);
    if u.size < 0 || u.maxAttempts < 1 then (s, Err(InvalidRequest))
    else if u.kb !in s.kbs || u.kb.tenant != u.tenant || !s.kbs[u.kb].active then (s, Err(NotFound))
    else if id in s.docs && s.docs[id].owner != u.owner then (s, Err(PermissionDenied))
    else
      var doc := if id in s.docs then s.docs[id]
                 else Document(u.owner, 0, 0, None, None, None, DocPending);
      if MatchesPointer(s, doc.current, id, u) then ReuseCurrent(s, u, doc)
      else if MatchesPointer(s, doc.pending, id, u) && Reusable(s.rows[doc.pending.value], doc) then
        var job := s.rows[doc.pending.value].job.value;
        (s, Ok(Reservation(doc.pending.value, false, false, false, doc.fence, job.expected)))
      else if Orphaned(s, id, doc, u) then (s, Err(Conflict(OrphanedActive)))
      else if ForeignTarget(s, id, doc.pending) then (s, Err(Conflict(ForeignPointer)))
      else Insert(s, u, id, doc, newId)
  }

  predicate Reusable(row: Row, doc: Document) {
    && Active(row.status)
    && row.job.Some?
    && row.job.value.fence == doc.fence
    && !row.job.value.status.Failed? && !row.job.value.status.Cancelled? && !row.job.value.status.DeadLetter?
  }

  predicate Orphaned(s: State, id: DocId, doc: Document, u: Upload) {
    exists v :: v in s.rows && SameIdentity(s.rows[v], id, u) && Active(s.rows[v].status)
                && doc.current != Some(v) && doc.pending != Some(v)
  }

  function ReuseCurrent(s: State, u: Upload, doc: Document): Reply<Reservation>
    requires u.maxAttempts >= 1
    requires doc.current.Some? && doc.current.value in s.rows
  {
    var v := doc.current.value;
    var row := s.rows[v];
    var reply := Ok(Reservation(v, false, false, true, doc.fence, Some(v)));
    if !row.status.Ready? then (s, Err(Conflict(CurrentNotReady)))
    else if row.job.None? then
      var job := IndexJob(JobStatus.Completed, "published", 0, u.maxAttempts, doc.fence, 0, Some(v), None, None, None);
      (WithRow(s, v, row.(job := Some(job))), reply)
    else if !row.job.value.status.Completed? then (s, Err(Conflict(CurrentUnfinished)))
    else (s, reply)
  }

  // ---------- Manifest and publication ----------

  datatype Entry = Entry(key: ChunkKey, meta: ChunkMeta)

  predicate WellFormed(entries: seq<Entry>) {
    && (forall i, j :: 0 <= i < j < |entries| ==> entries[i].key != entries[j].key)
    && (forall i :: 0 <= i < |entries| ==> entries[i].meta.level >= 0)
  }

  function ManifestOf(entries: seq<Entry>): Manifest {
    if entries == [] then map[]
    else var last := entries[|entries| - 1]; ManifestOf(entries[..|entries| - 1])[last.key := last.meta]
  }

  predicate CountsAgree(m: Manifest, vectors: Option<int>, parents: Option<int>) {
    && Count(m, Vector) >= 1
    && (vectors.Some? ==> vectors.value == Count(m, Vector))
    && (parents.Some? ==> parents.value == Count(m, Parent))
  }

  function RecordManifest(s: State, v: VersionId, fence: int, entries: seq<Entry>,
                          vectors: Option<int>, parents: Option<int>, execution: Option<Token>): Reply<()> {
    var m := ManifestOf(entries);
    if !WellFormed(entries) || !CountsAgree(m, vectors, parents) then (s, Err(InvalidRequest))
    else if !JobGraph(s, v) then (s, Err(NotFound))
    else if WriteFault(s, v, fence, execution).Some? then
      (s, Err(Conflict(WriteFault(s, v, fence, execution).value)))
    else
      var row := s.rows[v];
      (WithRow(s, v, row.(manifest := m, status := VersionStatus.Staged,
                          chunkCount := Count(m, Vector), parentCount := Count(m, Parent),
                          job := Some(row.job.value.(status := JobStatus.Staged, step := "verified")))),
       Ok(()))
  }

  datatype Publication = Publication(previous: Option<VersionId>, published: bool)

  const CLEANUP_GRACE: Time := 3600

  predicate AlreadyPublished(s: State, v: VersionId)
    requires JobGraph(s, v)
  {
    var row := s.rows[v];
    s.docs[row.doc].current == Some(v) && row.status.Ready? && row.job.value.status.Completed?
  }

  function PublishRow(row: Row, now: Time): Row
    requires row.job.Some?
  {
    var job := row.job.value.(status := JobStatus.Completed, step := "published",
                              owner := None, lease := None, nextRetry := None);
    row.(status := Ready, publishedAt := Some(now), cleanupAfter := None, cleanedAt := None, job := Some(job))
  }

  function SwitchCurrent(s: State, v: VersionId, expected: Option<VersionId>): State
    requires JobGraph(s, v) && (expected.Some? ==> expected.value in s.rows)
  {
    var row := s.rows[v];
    var doc := s.docs[row.doc];
    var previous := if expected == Some(v) then None else expected;
    var rows := SupersedeHeld(s.rows, previous, s.clock, s.clock + CLEANUP_GRACE, false);
    s.(rows := rows[v := PublishRow(row, s.clock)],
       docs := s.docs[row.doc := doc.(current := Some(v), pending := None, status := DocReady)])
  }

  function Publish(s: State, v: VersionId, fence: int, expected: Option<VersionId>,
                   execution: Option<Token>): Reply<Publication> {
    if !JobGraph(s, v) then (s, Err(NotFound))
    else if AlreadyPublished(s, v) then (s, Ok(Publication(None, false)))
    else if WriteFault(s, v, fence, execution).Some? then
      (s, Err(Conflict(WriteFault(s, v, fence, execution).value)))
    else
      var row := s.rows[v];
      var doc := s.docs[row.doc];
      if row.job.value.expected != expected then (s, Err(Conflict(UnexpectedCurrent)))
      else if !row.status.Staged? then (s, Err(Conflict(NotStaged)))
      else if Count(row.manifest, Vector) < 1 || Count(row.manifest, Vector) != row.chunkCount
              || Count(row.manifest, Parent) != row.parentCount then
        (s, Err(Conflict(ManifestMismatch)))
      else if doc.current != expected then (s, Err(Conflict(CasConflict)))
      else if ForeignTarget(s, row.doc, expected) then (s, Err(Conflict(ForeignPointer)))
      else (SwitchCurrent(s, v, expected), Ok(Publication(expected, true)))
  }

  // ---------- Job bookkeeping ----------

  function Fail(s: State, v: VersionId, fence: int, execution: Option<Token>): Reply<()> {
    if !JobGraph(s, v) then (s, Err(NotFound)) else FailLocked(s, v, fence, execution)
  }

  predicate MayMove(from: JobStatus, to: JobStatus) {
    match from
    case Pending => to.Pending? || to.Running? || to.RetryWait? || to.Failed? || to.Cancelled?
    case Running => !to.Pending? && !to.Completed?
    case RetryWait => !to.Staged? && !to.Completed?
    case Staged => to.Staged? || to.Completed? || to.Failed? || to.Cancelled?
    case _ => to == from
  }

  predicate ParseStep(step: string) {
    step == "parse" || step == "parsing"
  }

  /** The version row `update_job` writes once its checks have passed. */
  function MoveRow(row: Row, target: JobStatus, step: Option<string>, now: Time): Row
    requires row.job.Some?
  {
    var job := row.job.value.(status := target, step := if step.Some? then step.value else row.job.value.step);
    var freed := job.(owner := None, lease := None);
    if target.Running? then
      row.(job := Some(job), status := if ParseStep(job.step) then Parsing else VersionStatus.Indexing)
    else if target.Cancelled? then Supersede(row, now, now, false).(job := Some(freed))
    else if target.DeadLetter? then
      EnsureCleanup(MarkFailed(row, now), now, job.maxAttempts, now).(job := Some(freed))
    else row.(job := Some(job))
  }

  function MoveJob(s: State, v: VersionId, target: JobStatus, step: Option<string>): State
    requires JobGraph(s, v)
  {
    var id := s.rows[v].doc;
    var doc := s.docs[id];
    var closes := target.Cancelled? || target.DeadLetter?;
    s.(rows := s.rows[v := MoveRow(s.rows[v], target, step, s.clock)],
       docs := s.docs[id := if closes then DropPending(doc) else doc])
  }

  function UpdateJob(s: State, v: VersionId, fence: int, status: Option<JobStatus>, step: Option<string>,
                     execution: Option<Token>): Reply<()> {
    if !JobGraph(s, v) then (s, Err(NotFound))
    else
      var row := s.rows[v];
      var job := row.job.value;
      var target := if status.Some? then status.value else job.status;
      if fence != job.fence then (s, Err(Conflict(StaleFence)))
      else if !Held(job, execution, s.clock) then (s, Err(Conflict(LeaseLost)))
      else if !MayMove(job.status, target) then (s, Err(Conflict(BadTransition)))
      else if target.Failed? then FailLocked(s, v, fence, execution)
      else if target.Completed? && !(s.docs[row.doc].current == Some(v) && row.status.Ready?) then
        (s, Err(Conflict(NotPublished)))
      else if target.Staged? && !row.status.Staged? then (s, Err(Conflict(MissingManifest)))
      else if !target.Completed? && CandidateFault(s, v, fence).Some? then
        (s, Err(Conflict(CandidateFault(s, v, fence).value)))
      else (MoveJob(s, v, target, step), Ok(()))
  }

  // ---------- Claiming and holding index jobs ----------

  predicate LeaseFree(owner: Option<Worker>, lease: Option<Time>, now: Time) {
    owner.None? || lease.None? || lease.value <= now
  }

  predicate Due(nextRetry: Option<Time>, now: Time) {
    nextRetry.Some? && nextRetry.value <= now
  }

  predicate IndexReady(job: IndexJob, now: Time) {
    && LeaseFree(job.owner, job.lease, now)
    && match job.status
       case Pending => true
       case Running => true
       case RetryWait => Due(job.nextRetry, now)
       case Staged => job.nextRetry.None? || Due(job.nextRetry, now)
       case _ => false
  }

  predicate IndexOwned(job: IndexJob, worker: Worker, now: Time) {
    && job.owner == Some(worker)
    && (job.status.Running? || job.status.Staged?)
    && job.lease.Some? && job.lease.value > now
  }

  function IndexPriority(st: JobStatus): nat {
    if st.Staged? then 0 else if st.Pending? then 1 else if st.RetryWait? then 2 else 3
  }

  /** Who asks for work: its build capability, and the rows other transactions have locked. */
  datatype Claim = Claim(worker: Worker, seconds: int, capability: Option<string>, locked: set<VersionId>)

  predicate Visible(s: State, v: VersionId, c: Claim) {
    && JobGraph(s, v) && v !in c.locked
    && (c.capability.None? || s.rows[v].job.value.status.Staged? || s.rows[v].build == c.capability.value)
  }

  predicate Claimable(s: State, v: VersionId, c: Claim) {
    Visible(s, v, c) && IndexReady(s.rows[v].job.value, s.clock)
  }

  function FirstOwned(s: State, ids: seq<VersionId>, c: Claim): (r: Option<VersionId>)
    ensures r.Some? ==> Visible(s, r.value, c) && IndexOwned(s.rows[r.value].job.value, c.worker, s.clock)
  {
    if ids == [] then None
    else if Visible(s, ids[0], c) && IndexOwned(s.rows[ids[0]].job.value, c.worker, s.clock) then Some(ids[0])
    else FirstOwned(s, ids[1..], c)
  }

  /** The claimable row with the best priority, the oldest first among equals. */
  function PickIndex(s: State, ids: seq<VersionId>, c: Claim): (r: Option<VersionId>)
    ensures r.Some? ==> r.value in ids && Claimable(s, r.value, c)
    ensures forall u :: u in ids && Claimable(s, u, c) ==>
              r.Some? && IndexPriority(s.rows[r.value].job.value.status) <= IndexPriority(s.rows[u].job.value.status)
  {
    if ids == [] then None
    else
      var v := ids[|ids| - 1];
      var best := PickIndex(s, ids[..|ids| - 1], c);
      assert forall u :: u in ids <==> u == v || u in ids[..|ids| - 1];
      if Claimable(s, v, c)
         && (best.None? || IndexPriority(s.rows[v].job.value.status) < IndexPriority(s.rows[best.value].job.value.status))
      then Some(v) else best
  }

  predicate OwnsCandidate(s: State, v: VersionId)
    requires JobGraph(s, v)
  {
    var row := s.rows[v];
    var doc := s.docs[row.doc];
    && doc.deletedAt.None? && doc.pending == Some(v)
    && doc.fence == row.job.value.fence && Active(row.status)
  }

  predicate Exhausted(job: IndexJob) {
    && job.attempts >= job.maxAttempts
    && !(job.status.Staged? && job.attempts == job.maxAttempts && job.nextRetry.None?)
  }

  function CancelUnowned(s: State, v: VersionId): State
    requires JobGraph(s, v)
  {
    var row := s.rows[v].(job := Some(s.rows[v].job.value.(status := Cancelled, step := "superseded",
                                                           owner := None, lease := None)));
    if s.docs[row.doc].current != Some(v) && Active(row.status)
    then WithRow(s, v, Supersede(row, s.clock, s.clock, false))
    else WithRow(s, v, row)
  }

  predicate EarlyStep(step: string) {
    step == "upload" || step == "uploaded" || step == "reserve" || ParseStep(step)
  }

  function Lease(s: State, v: VersionId, c: Claim): State
    requires JobGraph(s, v)
  {
    var row := s.rows[v];
    var job := row.job.value;
    var leased := job.(status := if job.status.Staged? then JobStatus.Staged else JobStatus.Running,
                       owner := Some(c.worker), execFence := job.execFence + 1, attempts := job.attempts + 1,
                       lease := Some(s.clock + c.seconds), nextRetry := None);
    var st := if job.status.Staged? then row.status
              else if EarlyStep(job.step) then Parsing else VersionStatus.Indexing;
    WithRow(s, v, row.(job := Some(leased), status := st))
  }

  function OpenJobs(s: State): set<VersionId> {
    set v | v in s.rows && s.rows[v].job.Some? && !Terminal(s.rows[v].job.value.status)
  }

  function ClaimLoop(s: State, c: Claim): (r: Reply<Option<VersionId>>)
    ensures r.1.Ok?
    decreases OpenJobs(s)
  {
    var pick := PickIndex(s, s.order, c);
    if pick.None? then (s, Ok(None))
    else
      var v := pick.value;
      assert v in OpenJobs(s);
      if !OwnsCandidate(s, v) then
        assert v !in OpenJobs(CancelUnowned(s, v));
        ClaimLoop(CancelUnowned(s, v), c)
      else if Exhausted(s.rows[v].job.value) then
        assert v !in OpenJobs(DeadLetterLocked(s, v).0);
        ClaimLoop(DeadLetterLocked(s, v).0, c)
      else (Lease(s, v, c), Ok(Some(v)))
  }

  function Renew(s: State, v: VersionId, seconds: int): State
    requires JobGraph(s, v)
  {
    WithRow(s, v, s.rows[v].(job := Some(s.rows[v].job.value.(lease := Some(s.clock + seconds)))))
  }

  function ClaimIndex(s: State, c: Claim): Reply<Option<VersionId>> {
    if c.seconds < 1 then (s, Err(InvalidRequest))
    else
      var owned := FirstOwned(s, s.order, c);
      if owned.Some? then (Renew(s, owned.value, c.seconds), Ok(owned))
      else ClaimLoop(s, c)
  }

  /** `assert_index_lease`: the guard that precedes every store call of a leased build. */
  predicate LeaseGuard(s: State, v: VersionId, token: Token) {
    JobGraph(s, v) && WriteFault(s, v, s.rows[v].job.value.fence, Some(token)).None?
  }

  function HeartbeatIndex(s: State, v: VersionId, token: Token, seconds: int): Reply<()> {
    if seconds < 1 then (s, Err(InvalidRequest))
    else if !JobGraph(s, v) then (s, Err(NotFound))
    else if !LeaseGuard(s, v, token) then
      (s, Err(Conflict(WriteFault(s, v, s.rows[v].job.value.fence, Some(token)).value)))
    else (Renew(s, v, seconds), Ok(()))
  }

  function RetryIndex(s: State, v: VersionId, token: Token, delay: int): Reply<()> {
    if delay < 0 then (s, Err(InvalidRequest))
    else if !JobGraph(s, v) then (s, Err(NotFound))
    else if !LeaseGuard(s, v, token) then
      (s, Err(Conflict(WriteFault(s, v, s.rows[v].job.value.fence, Some(token)).value)))
    else
      var row := s.rows[v];
      var job := row.job.value;
      if job.attempts >= job.maxAttempts then DeadLetterLocked(s, v)
      else
        var job' := job.(status := if job.status.Staged? then JobStatus.Staged else JobStatus.RetryWait,
                         step := if job.status.Staged? then "publish" else job.step,
                         nextRetry := Some(s.clock + delay), owner := None, lease := None);
        (WithRow(s, v, row.(job := Some(job'))), Ok(()))
  }

  function DeadLetterIndex(s: State, v: VersionId, token: Token): Reply<()> {
    if !JobGraph(s, v) then (s, Err(NotFound))
    else if !Live(s.rows[v].job.value, token, s.clock) then (s, Err(Conflict(LeaseLost)))
    else DeadLetterLocked(s, v)
  }

  // ---------- Retirement ----------

  datatype Retirement = Retirement(found: bool, alreadyDeleted: bool, cleanup: set<VersionId>)

  function Named(s: State, tenant: string, name: string, kb: Option<KbId>): set<DocId> {
    set id | id in s.docs && id.kb.tenant == tenant && id.name == name && (kb.None? || id.kb == kb.value)
  }

  predicate Uncleaned(row: Row, id: DocId) {
    row.doc == id && !Active(row.status) && row.cleanedAt.None?
  }

  function Hasten(row: Row, now: Time): Row {
    if row.cleanup.None? then EnsureCleanup(row, now, 3, now).(cleanupAfter := Earlier(row.cleanupAfter, now))
    else if row.cleanup.value.status.Pending? then
      row.(cleanup := Some(row.cleanup.value.(nextRetry := Earlier(row.cleanup.value.nextRetry, now))),
           cleanupAfter := Earlier(row.cleanupAfter, now))
    else row
  }

  function HastenAll(s: State, id: DocId): State {
    s.(rows := map v | v in s.rows :: if Uncleaned(s.rows[v], id) then Hasten(s.rows[v], s.clock) else s.rows[v])
  }

  function RetireLive(s: State, id: DocId): State
    requires id in s.docs
    requires !ForeignTarget(s, id, s.docs[id].current) && !ForeignTarget(s, id, s.docs[id].pending)
  {
    var doc := s.docs[id];
    var rows := SupersedeHeld(s.rows, doc.current, s.clock, s.clock, false);
    var rows' := SupersedeHeld(rows, if doc.pending == doc.current then None else doc.pending, s.clock, s.clock, true);
    s.(rows := rows', docs := s.docs[id := doc.(current := None, pending := None, fence := doc.fence + 1,
                                                status := DocDeleted, deletedAt := Some(s.clock))])
  }

  /** The versions a document points at. */
  function HeldBy(doc: Document): set<VersionId> {
    (if doc.current.Some? then {doc.current.value} else {}) + (if doc.pending.Some? then {doc.pending.value} else {})
  }

  function RetireDoc(s: State, id: DocId): Reply<Retirement>
    requires id in s.docs
  {
    var doc := s.docs[id];
    if ForeignTarget(s, id, doc.current) || ForeignTarget(s, id, doc.pending) then (s, Err(Conflict(ForeignPointer)))
    else if doc.deletedAt.Some? then
      (HastenAll(s, id), Ok(Retirement(true, true, set v | v in s.rows && Uncleaned(s.rows[v], id))))
    else if id.kb !in s.kbs || !s.kbs[id.kb].active then (s, Err(NotFound))
    else (RetireLive(s, id), Ok(Retirement(true, false, HeldBy(doc))))
  }

  ghost function Retire(s: State, tenant: string, name: string, kb: Option<KbId>): Reply<Retirement> {
    var ids := Named(s, tenant, name, kb);
    if |ids| > 1 then (s, Err(Conflict(AmbiguousName)))
    else if ids == {} then (s, Ok(Retirement(false, false, {})))
    else var id :| id in ids; RetireDoc(s, id)
  }

  // ---------- Cleanup jobs ----------

  predicate SafeScope(s: State, v: VersionId)
    requires CleanupGraph(s, v)
  {
    var doc := s.docs[s.rows[v].doc];
    !Active(s.rows[v].status) && doc.current != Some(v) && doc.pending != Some(v)
  }

  predicate CleanupReady(row: Row, now: Time) {
    && row.cleanup.Some? && Due(row.cleanupAfter, now) && row.cleanedAt.None?
    && var c := row.cleanup.value;
       match c.status
       case Pending => (c.nextRetry.None? || Due(c.nextRetry, now)) && c.owner.None?
       case RetryWait => Due(c.nextRetry, now) && c.owner.None?
       case Running => LeaseFree(c.owner, c.lease, now)
       case _ => false
  }

  predicate CleanupClaimable(s: State, v: VersionId, locked: set<VersionId>) {
    CleanupGraph(s, v) && v !in locked && CleanupReady(s.rows[v], s.clock)
  }

  function CleanupPriority(st: CleanupStatus): nat {
    if st.Pending? then 0 else if st.RetryWait? then 1 else 2
  }

  /** ORDER BY priority, next retry (absent last), creation. */
  predicate CleanupBefore(a: CleanupJob, b: CleanupJob) {
    var p, q := CleanupPriority(a.status), CleanupPriority(b.status);
    p < q || (p == q && (
      if a.nextRetry == b.nextRetry then a.created < b.created
      else a.nextRetry.Some? && (b.nextRetry.None? || a.nextRetry.value < b.nextRetry.value)))
  }

  function PickCleanup(s: State, ids: seq<VersionId>, locked: set<VersionId>): (r: Option<VersionId>)
    ensures r.Some? ==> r.value in ids && CleanupClaimable(s, r.value, locked)
    ensures forall u :: u in ids && CleanupClaimable(s, u, locked) ==>
              r.Some? && !CleanupBefore(s.rows[u].cleanup.value, s.rows[r.value].cleanup.value)
  {
    if ids == [] then None
    else
      var v := ids[|ids| - 1];
      var best := PickCleanup(s, ids[..|ids| - 1], locked);
      assert forall u :: u in ids <==> u == v || u in ids[..|ids| - 1];
      if CleanupClaimable(s, v, locked)
         && (best.None? || CleanupBefore(s.rows[v].cleanup.value, s.rows[best.value].cleanup.value))
      then Some(v) else best
  }

  predicate CleanupOwned(row: Row, worker: Worker, now: Time) {
    && row.cleanup.Some? && row.cleanup.value.owner == Some(worker) && row.cleanup.value.status.Running?
    && row.cleanup.value.lease.Some? && row.cleanup.value.lease.value > now
  }

  predicate CleanupKept(s: State, v: VersionId, worker: Worker, locked: set<VersionId>) {
    CleanupGraph(s, v) && v !in locked && CleanupOwned(s.rows[v], worker, s.clock)
  }

  /** The worker's own live cleanup job, the one created first if there are several. */
  function FirstOwnedCleanup(s: State, ids: seq<VersionId>, worker: Worker, locked: set<VersionId>): (r: Option<VersionId>)
    ensures r.Some? ==> CleanupGraph(s, r.value) && CleanupOwned(s.rows[r.value], worker, s.clock)
  {
    if ids == [] then None
    else
      var v := ids[|ids| - 1];
      var best := FirstOwnedCleanup(s, ids[..|ids| - 1], worker, locked);
      if CleanupKept(s, v, worker, locked)
         && (best.None? || s.rows[v].cleanup.value.created < s.rows[best.value].cleanup.value.created)
      then Some(v) else best
  }

  function SetCleanup(s: State, v: VersionId, c: CleanupJob): State
    requires v in s.rows
  {
    WithRow(s, v, s.rows[v].(cleanup := Some(c)))
  }

  function Bury(c: CleanupJob): CleanupJob {
    c.(status := CleanupStatus.DeadLetter, owner := None, lease := None, nextRetry := None)
  }

  function LeaseCleanup(s: State, v: VersionId, worker: Worker, seconds: int): State
    requires CleanupGraph(s, v)
  {
    var c := s.rows[v].cleanup.value;
    SetCleanup(s, v, c.(status := CleanupStatus.Running, owner := Some(worker), execFence := c.execFence + 1,
                        attempts := c.attempts + 1, lease := Some(s.clock + seconds), nextRetry := None))
  }

  function RenewCleanup(s: State, v: VersionId, seconds: int): State
    requires CleanupGraph(s, v)
  {
    SetCleanup(s, v, s.rows[v].cleanup.value.(lease := Some(s.clock + seconds)))
  }

  function OpenCleanups(s: State): set<VersionId> {
    set v | v in s.rows && s.rows[v].cleanup.Some? && !s.rows[v].cleanup.value.status.DeadLetter?
  }

  function CleanupClaimLoop(s: State, worker: Worker, seconds: int, locked: set<VersionId>): (r: Reply<Option<VersionId>>)
    ensures r.1.Ok?
    decreases OpenCleanups(s)
  {
    var pick := PickCleanup(s, s.order, locked);
    if pick.None? then (s, Ok(None))
    else
      var v := pick.value;
      var c := s.rows[v].cleanup.value;
      assert v in OpenCleanups(s);
      if !SafeScope(s, v) || c.attempts >= c.maxAttempts then
        assert v !in OpenCleanups(SetCleanup(s, v, Bury(c)));
        CleanupClaimLoop(SetCleanup(s, v, Bury(c)), worker, seconds, locked)
      else
        (LeaseCleanup(s, v, worker, seconds), Ok(Some(v)))
  }

  function ClaimCleanup(s: State, worker: Worker, seconds: int, locked: set<VersionId>): Reply<Option<VersionId>> {
    if seconds < 1 then (s, Err(InvalidRequest))
    else
      var owned := FirstOwnedCleanup(s, s.order, worker, locked);
      if owned.Some? then
        (RenewCleanup(s, owned.value, seconds), Ok(owned))
      else CleanupClaimLoop(s, worker, seconds, locked)
  }

  function HeartbeatCleanup(s: State, v: VersionId, token: Token, seconds: int): Reply<()> {
    if seconds < 1 then (s, Err(InvalidRequest))
    else if !CleanupGraph(s, v) then (s, Err(NotFound))
    else if !CleanupLive(s.rows[v].cleanup.value, token, s.clock) then (s, Err(Conflict(CleanupLeaseLost)))
    else (RenewCleanup(s, v, seconds), Ok(()))
  }

  function RetryCleanup(s: State, v: VersionId, token: Token, delay: int): Reply<()> {
    if delay < 0 then (s, Err(InvalidRequest))
    else if !CleanupGraph(s, v) then (s, Err(NotFound))
    else
      var c := s.rows[v].cleanup.value;
      if !CleanupLive(c, token, s.clock) then (s, Err(Conflict(CleanupLeaseLost)))
      else if c.attempts >= c.maxAttempts then (SetCleanup(s, v, Bury(c)), Ok(()))
      else (SetCleanup(s, v, c.(status := CleanupStatus.RetryWait, nextRetry := Some(s.clock + delay),
                                owner := None, lease := None)), Ok(()))
  }

  function DeadLetterCleanup(s: State, v: VersionId, token: Token): Reply<()> {
    if !CleanupGraph(s, v) then (s, Err(NotFound))
    else if !CleanupLive(s.rows[v].cleanup.value, token, s.clock) then (s, Err(Conflict(CleanupLeaseLost)))
    else (SetCleanup(s, v, Bury(s.rows[v].cleanup.value)), Ok(()))
  }

  function Finish(s: State, v: VersionId): State
    requires v in s.rows
  {
    var row := s.rows[v].(cleanedAt := Some(s.clock));
    if row.cleanup.None? then WithRow(s, v, row)
    else WithRow(s, v, row.(cleanup := Some(row.cleanup.value.(status := CleanupStatus.Completed, owner := None,
                                                                lease := None, nextRetry := None))))
  }

  function CompleteCleanup(s: State, v: VersionId, token: Token): Reply<()> {
    if !CleanupGraph(s, v) then (s, Err(NotFound))
    else if !CleanupLive(s.rows[v].cleanup.value, token, s.clock) then (s, Err(Conflict(CleanupLeaseLost)))
    else if !SafeScope(s, v) then (s, Err(Conflict(ActiveScope)))
    else (Finish(s, v), Ok(()))
  }

  function RequeueCleanup(s: State, v: VersionId, maxAttempts: Option<int>): Reply<()> {
    if maxAttempts.Some? && maxAttempts.value < 1 then (s, Err(InvalidRequest))
    else if !CleanupGraph(s, v) then (s, Err(NotFound))
    else
      var c := s.rows[v].cleanup.value;
      if !c.status.DeadLetter? then (s, Err(Conflict(NotDeadLetter)))
      else if !SafeScope(s, v) || s.rows[v].cleanedAt.Some? then (s, Err(Conflict(ActiveScope)))
      else (SetCleanup(s, v, c.(status := CleanupStatus.Pending, attempts := 0,
                                maxAttempts := if maxAttempts.Some? then maxAttempts.value else c.maxAttempts,
                                owner := None, lease := None, nextRetry := Some(s.clock))), Ok(()))
  }

  function RecordCleanup(s: State, v: VersionId, failed: bool): Reply<()> {
    if v !in s.rows || s.rows[v].doc !in s.docs || s.rows[v].doc.kb !in s.kbs then (s, Err(NotFound))
    else
      var row := s.rows[v];
      var doc := s.docs[row.doc];
      if Active(row.status) || doc.current == Some(v) || doc.pending == Some(v) then (s, Err(Conflict(ActiveScope)))
      else if row.cleanup.Some? && row.cleanup.value.status.Running? then (s, Err(Conflict(CleanupClaimed)))
      else if row.cleanup.Some? && row.cleanup.value.status.DeadLetter? then (s, Err(Conflict(CleanupDead)))
      else if row.cleanup.Some? && row.cleanup.value.status.Completed? then
        (s, if row.cleanedAt.None? then Err(Conflict(CleanupInconsistent)) else Ok(()))
      else if failed then (s, Ok(()))
      else (Finish(s, v), Ok(()))
  }
}
