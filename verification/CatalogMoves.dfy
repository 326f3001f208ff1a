/** How one step of the catalog may change one version and its index job. */
module CatalogMoves {
  import opened Prelude
  import opened CatalogState
  import opened CatalogOps
  import opened CatalogInvariant
  import opened CatalogSteps
  import opened CatalogRuns

  // ---------- Changes of one row ----------

  /** The job is closed under the fence it had and belongs to nobody. */
  predicate Closes(a: IndexJob, b: IndexJob) {
    !Terminal(a.status) && Terminal(b.status) && b.owner.None? && b.execFence == a.execFence
  }

  /** An active version keeps its job as it is or has it closed. */
  predicate Shifts(a: Row, b: Row) {
    Active(a.status) && a.job.Some? && b.job.Some? && (b.job == a.job || Closes(a.job.value, b.job.value))
  }

  /** Only the status and the step text of the job change. */
  predicate Rewrites(a: IndexJob, b: IndexJob) { b == a.(status := b.status, step := b.step) }

  predicate Renews(a: IndexJob, b: IndexJob) { b == a.(lease := b.lease) }

  predicate PutsBack(a: IndexJob, b: IndexJob) { b.owner.None? && b.lease.None? && b.execFence == a.execFence }

  predicate Leases(a: IndexJob, b: IndexJob, now: Time) { IndexReady(a, now) && b.execFence == a.execFence + 1 }

  /** The version is as before or has its job closed; if it is new, its job was never leased. */
  ghost predicate Settled(s: State, s': State, v: VersionId) {
    if v in s.rows then v in s'.rows && (s'.rows[v] == s.rows[v] || Shifts(s.rows[v], s'.rows[v]))
    else v in s'.rows ==> s'.rows[v].job.Some? && s'.rows[v].job.value.execFence == 0
  }

  /** An active version with its job before and after. */
  ghost predicate Working(s: State, s': State, v: VersionId) {
    && v in s.rows && Active(s.rows[v].status) && s.rows[v].job.Some?
    && v in s'.rows && s'.rows[v].job.Some?
  }

  ghost function JobOf(s: State, v: VersionId): IndexJob
    requires v in s.rows && s.rows[v].job.Some?
  {
    s.rows[v].job.value
  }

  // ---------- One transaction ----------

  lemma SupersedeShifts(row: Row, now: Time, after: Time, cancel: bool)
    requires Active(row.status) && row.job.Some?
    ensures Shifts(row, Supersede(row, now, after, cancel))
  {
  }

  lemma ReserveMoves(s: State, u: Upload, newId: VersionId, s': State, v: VersionId)
    requires Inv(s) && s' == Reserve(s, u, newId).0
    ensures Settled(s, s', v)
  {
    ReserveCases(s, u, newId, s');
    if s' != s {
      var doc := DocFor(s, u);
      if doc.pending.Some? { assert DocOk(s, DocId(u.kb, u.name)) && RowAt(s, doc.pending.value); }
      InsertMoves(s, u, newId, v);
    }
  }

  lemma InsertMoves(s: State, u: Upload, newId: VersionId, v: VersionId)
    requires Insertable(s, u, newId)
    requires var p := DocFor(s, u).pending;
             p.Some? ==> Active(s.rows[p.value].status) && s.rows[p.value].job.Some?
    ensures Settled(s, Inserted(s, u, newId), v)
  {
    if DocFor(s, u).pending == Some(v) { SupersedeShifts(s.rows[v], s.clock, s.clock, true); }
  }

  lemma PublishMoves(s: State, w: VersionId, fence: int, expected: Option<VersionId>, ex: Option<Token>,
                     s': State, v: VersionId)
    requires Inv(s) && s' == Publish(s, w, fence, expected, ex).0
    ensures Settled(s, s', v)
  {
    if s' != s {
      var doc := s.docs[s.rows[w].doc];
      assert DocOk(s, s.rows[w].doc) && RowAt(s, w);
      if doc.current.Some? { assert RowAt(s, doc.current.value); }
      SwitchMoves(s, w, v);
    }
  }

  lemma SwitchMoves(s: State, w: VersionId, v: VersionId)
    requires Switchable(s, w) && !Terminal(s.rows[w].job.value.status)
    requires var c := s.docs[s.rows[w].doc].current; c.Some? ==> Active(s.rows[c.value].status) && s.rows[c.value].job.Some?
    ensures Settled(s, Switched(s, w), v)
  {
  }

  lemma AbandonMoves(s: State, w: VersionId, job: IndexJob, v: VersionId)
    requires Inv(s) && JobGraph(s, w) && Closes(s.rows[w].job.value, job)
    ensures Settled(s, Abandon(s, w, job), v)
  {
    assert RowAt(s, w);
  }

  lemma FailMoves(s: State, w: VersionId, fence: int, ex: Option<Token>, s': State, v: VersionId)
    requires Inv(s) && s' == Fail(s, w, fence, ex).0
    ensures Settled(s, s', v)
  {
    if s' != s {
      assert RowAt(s, w);
      var job := s.rows[w].job.value;
      AbandonMoves(s, w, job.(status := JobStatus.Failed, step := "failed", owner := None, lease := None), v);
    }
  }

  lemma DeadLetterMoves(s: State, w: VersionId, v: VersionId)
    requires Inv(s) && JobGraph(s, w)
    ensures Settled(s, DeadLetterLocked(s, w).0, v)
  {
    var job := s.rows[w].job.value;
    if !Terminal(job.status) {
      AbandonMoves(s, w, job.(status := JobStatus.DeadLetter, step := "dead_letter",
                              owner := None, lease := None, nextRetry := None), v);
    }
  }

  /** A write under a token, or without one to a job that nobody owns. */
  ghost predicate Written(s: State, s': State, v: VersionId, ex: Option<Token>) {
    Working(s, s', v) && Held(JobOf(s, v), ex, s.clock) && Rewrites(JobOf(s, v), JobOf(s', v))
  }

  lemma RecordManifestMoves(s: State, w: VersionId, fence: int, entries: seq<Entry>, vs: Option<int>, ps: Option<int>,
                            ex: Option<Token>, s': State, v: VersionId)
    requires Inv(s) && s' == RecordManifest(s, w, fence, entries, vs, ps, ex).0
    ensures Settled(s, s', v) || (w == v && Written(s, s', v, ex) && JobOf(s', v).status.Staged?)
  {
    if s' != s { assert RowAt(s, w); }
  }

  lemma MoveJobMoves(s: State, w: VersionId, target: JobStatus, step: Option<string>, v: VersionId)
    requires JobGraph(s, w) && Active(s.rows[w].status) && (Terminal(s.rows[w].job.value.status) ==> target.Completed?)
    ensures var s' := MoveJob(s, w, target, step);
            Settled(s, s', v) || (w == v && Working(s, s', v) && Rewrites(JobOf(s, v), JobOf(s', v)))
  {
  }

  lemma UpdateMoves(s: State, w: VersionId, fence: int, status: Option<JobStatus>, step: Option<string>,
                    ex: Option<Token>, s': State, v: VersionId)
    requires Inv(s) && s' == UpdateJob(s, w, fence, status, step, ex).0
    ensures Settled(s, s', v) || (w == v && Written(s, s', v, ex))
  {
    if s' != s {
      var target := if status.Some? then status.value else s.rows[w].job.value.status;
      assert RowAt(s, w);
      if target.Failed? { FailMoves(s, w, fence, ex, s', v); } else { MoveJobMoves(s, w, target, step, v); }
    }
  }

  lemma HeartbeatMoves(s: State, w: VersionId, token: Token, seconds: int, s': State, v: VersionId)
    requires Inv(s) && s' == HeartbeatIndex(s, w, token, seconds).0
    ensures Settled(s, s', v) ||
            (w == v && Working(s, s', v) && Live(JobOf(s, v), token, s.clock) && Renews(JobOf(s, v), JobOf(s', v)))
  {
    if s' != s { assert RowAt(s, w); }
  }

  lemma RetryMoves(s: State, w: VersionId, token: Token, delay: int, s': State, v: VersionId)
    requires Inv(s) && s' == RetryIndex(s, w, token, delay).0
    ensures Settled(s, s', v) ||
            (w == v && Working(s, s', v) && Live(JobOf(s, v), token, s.clock) && PutsBack(JobOf(s, v), JobOf(s', v)))
  {
    if s' != s {
      assert RowAt(s, w);
      if s.rows[w].job.value.attempts >= s.rows[w].job.value.maxAttempts { DeadLetterMoves(s, w, v); }
    }
  }

  lemma DeadLetterIndexMoves(s: State, w: VersionId, token: Token, s': State, v: VersionId)
    requires Inv(s) && s' == DeadLetterIndex(s, w, token).0
    ensures Settled(s, s', v)
  {
    if s' != s { DeadLetterMoves(s, w, v); }
  }

  /** What the claim loop does to a version: it closes it, leases it or leaves it. */
  ghost predicate LoopMoves(s: State, c: Claim, v: VersionId) {
    var (s', r) := ClaimLoop(s, c);
    Settled(s, s', v) || (r == Ok(Some(v)) && Working(s, s', v) && Leases(JobOf(s, v), JobOf(s', v), s.clock))
  }

  lemma {:induction false} ClaimLoopMoves(s: State, c: Claim, v: VersionId)
    requires Inv(s)
    ensures LoopMoves(s, c, v)
    decreases OpenJobs(s)
  {
    var pick := PickIndex(s, s.order, c);
    if pick.Some? {
      var w := pick.value;
      OpenJobIsCandidate(s, w);
      assert w in OpenJobs(s);
      if Exhausted(s.rows[w].job.value) {
        var s1 := DeadLetterLocked(s, w).0;
        DeadLetterSound(s, w);
        DeadLetterMoves(s, w, v);
        DeadLetterCloses(s, w);
        ClaimLoopMoves(s1, c, v);
        LaterMoves(s, w, c, v);
      }
    }
  }

  /** Closing one version first changes nothing about what the loop does to the others. */
  lemma LaterMoves(s: State, w: VersionId, c: Claim, v: VersionId)
    requires JobGraph(s, w) && ClaimLoop(s, c) == ClaimLoop(DeadLetterLocked(s, w).0, c)
    requires LoopMoves(DeadLetterLocked(s, w).0, c, v) && Settled(s, DeadLetterLocked(s, w).0, v)
    requires var s1 := DeadLetterLocked(s, w).0;
             && s1.rows.Keys == s.rows.Keys && s1.clock == s.clock
             && w in s1.rows && !Active(s1.rows[w].status) && forall u :: u in s.rows && u != w ==> s1.rows[u] == s.rows[u]
    ensures LoopMoves(s, c, v)
  {
    if v != w && v in s.rows { assert DeadLetterLocked(s, w).0.rows[v] == s.rows[v]; }
  }

  lemma DeadLetterCloses(s: State, w: VersionId)
    requires Inv(s) && JobGraph(s, w) && !Terminal(s.rows[w].job.value.status)
    ensures var s1 := DeadLetterLocked(s, w).0;
            && s1.rows.Keys == s.rows.Keys && s1.clock == s.clock && OpenJobs(s1) == OpenJobs(s) - {w}
            && !Active(s1.rows[w].status) && forall u :: u in s.rows && u != w ==> s1.rows[u] == s.rows[u]
  {
    assert RowAt(s, w);
  }

  /** A step that freshly leases `v` to a worker. */
  ghost predicate Grants(s: State, step: Step, v: VersionId) {
    && step.DoClaimIndex? && step.claim.seconds >= 1
    && FirstOwned(s, s.order, step.claim).None?
    && ClaimLoop(s, step.claim).1 == Ok(Some(v))
  }

  /** A claim by a worker that finds it still holds `v`. */
  predicate Reclaims(s: State, c: Claim, v: VersionId) { FirstOwned(s, s.order, c) == Some(v) }

  ghost predicate ClaimMoved(s: State, c: Claim, s': State, v: VersionId) {
    || Settled(s, s', v)
    || (Working(s, s', v) && Reclaims(s, c, v) && Renews(JobOf(s, v), JobOf(s', v)))
    || (Working(s, s', v) && Grants(s, DoClaimIndex(c), v) && Leases(JobOf(s, v), JobOf(s', v), s.clock))
  }

  lemma ClaimMoves(s: State, c: Claim, s': State, v: VersionId)
    requires Inv(s) && s' == ClaimIndex(s, c).0
    ensures ClaimMoved(s, c, s', v)
  {
    if s' != s {
      var owned := FirstOwned(s, s.order, c);
      if owned.Some? { assert RowAt(s, owned.value); } else { ClaimLoopMoves(s, c, v); }
    }
  }

  /** Repeated retirement of the version's document, which leaves its job alone. */
  ghost predicate Hastened(s: State, s': State, v: VersionId) {
    && v in s.rows && v in s'.rows && s'.rows[v].job == s.rows[v].job
    && s.rows[v].doc in s.docs && s.docs[s.rows[v].doc].deletedAt.Some?
  }

  lemma RetireLiveMoves(s: State, id: DocId, v: VersionId)
    requires id in s.docs && DocOk(s, id)
    requires var c := s.docs[id].current; c.Some? ==> Active(s.rows[c.value].status) && s.rows[c.value].job.Some?
    requires var p := s.docs[id].pending; p.Some? ==> Active(s.rows[p.value].status) && s.rows[p.value].job.Some?
    ensures Settled(s, RetireLive(s, id), v)
  {
    var doc := s.docs[id];
    if doc.current == Some(v) {
      SupersedeShifts(s.rows[v], s.clock, s.clock, false);
    } else if doc.pending == Some(v) {
      SupersedeShifts(s.rows[v], s.clock, s.clock, true);
    }
  }

  lemma RetireDocMoves(s: State, id: DocId, s': State, v: VersionId)
    requires Inv(s) && id in s.docs && s' == RetireDoc(s, id).0
    ensures Settled(s, s', v) || (v in s.rows && s.rows[v].doc == id && Hastened(s, s', v))
  {
    if s' != s {
      assert DocOk(s, id);
      if s.docs[id].deletedAt.None? {
        if s.docs[id].current.Some? { assert RowAt(s, s.docs[id].current.value); }
        if s.docs[id].pending.Some? { assert RowAt(s, s.docs[id].pending.value); }
        RetireLiveMoves(s, id, v);
      }
    }
  }

  ghost predicate RetireMoved(s: State, tenant: string, name: string, kb: Option<KbId>, s': State, v: VersionId) {
    Settled(s, s', v) || (Hastened(s, s', v) && s.rows[v].doc in Named(s, tenant, name, kb))
  }

  lemma RetireMoves(s: State, tenant: string, name: string, kb: Option<KbId>, s': State, v: VersionId)
    requires Inv(s) && s' == Retire(s, tenant, name, kb).0
    ensures RetireMoved(s, tenant, name, kb, s', v)
  {
    forall id | id in Named(s, tenant, name, kb) ensures RetireMoved(s, tenant, name, kb, RetireDoc(s, id).0, v) {
      RetireDocMoves(s, id, RetireDoc(s, id).0, v);
    }
  }

  ghost predicate JobKept(s: State, s': State, v: VersionId) {
    (v in s.rows <==> v in s'.rows) && (v in s.rows ==> s'.rows[v].job == s.rows[v].job)
  }

  /** The cleanup job is due, leased or dead-lettered. */
  predicate Touchable(row: Row, now: Time) {
    row.cleanup.Some? && (CleanupReady(row, now) || row.cleanup.value.owner.Some? || row.cleanup.value.status.DeadLetter?)
  }

  /** Cleanup leaves index jobs alone, and a version altogether unless its cleanup job can be touched. */
  ghost predicate Tidied(s: State, s': State, v: VersionId) {
    JobKept(s, s', v) && (v in s.rows ==> s'.rows[v] == s.rows[v] || Touchable(s.rows[v], s.clock))
  }

  lemma {:induction false} CleanupLoopMoves(s: State, worker: Worker, seconds: int, locked: set<VersionId>, v: VersionId)
    ensures Tidied(s, CleanupClaimLoop(s, worker, seconds, locked).0, v)
    decreases OpenCleanups(s)
  {
    var pick := PickCleanup(s, s.order, locked);
    if pick.Some? {
      var w := pick.value;
      var c := s.rows[w].cleanup.value;
      assert w in OpenCleanups(s);
      if !SafeScope(s, w) || c.attempts >= c.maxAttempts {
        BuryFrame(s, w);
        CleanupLoopMoves(SetCleanup(s, w, Bury(c)), worker, seconds, locked, v);
      }
    }
  }

  lemma ClaimCleanupMoves(s: State, worker: Worker, seconds: int, locked: set<VersionId>, s': State, v: VersionId)
    requires s' == ClaimCleanup(s, worker, seconds, locked).0
    ensures Tidied(s, s', v)
  {
    CleanupLoopMoves(s, worker, seconds, locked, v);
  }

  lemma HeartbeatCleanupMoves(s: State, w: VersionId, token: Token, seconds: int, s': State, v: VersionId)
    requires s' == HeartbeatCleanup(s, w, token, seconds).0
    ensures Tidied(s, s', v)
  {
  }

  lemma RetryCleanupMoves(s: State, w: VersionId, token: Token, delay: int, s': State, v: VersionId)
    requires s' == RetryCleanup(s, w, token, delay).0
    ensures Tidied(s, s', v)
  {
  }

  lemma DeadLetterCleanupMoves(s: State, w: VersionId, token: Token, s': State, v: VersionId)
    requires s' == DeadLetterCleanup(s, w, token).0
    ensures Tidied(s, s', v)
  {
  }

  lemma CompleteCleanupMoves(s: State, w: VersionId, token: Token, s': State, v: VersionId)
    requires s' == CompleteCleanup(s, w, token).0
    ensures Tidied(s, s', v)
  {
  }

  lemma RequeueCleanupMoves(s: State, w: VersionId, limit: Option<int>, s': State, v: VersionId)
    requires s' == RequeueCleanup(s, w, limit).0
    ensures Tidied(s, s', v)
  {
  }

  lemma RecordCleanupMoves(s: State, w: VersionId, failed: bool, s': State, v: VersionId)
    requires s' == RecordCleanup(s, w, failed).0
    ensures if w == v then JobKept(s, s', v) else Tidied(s, s', v)
  {
  }

  // ---------- Any step ----------

  /** The ways a step may change a version. */
  ghost predicate Moved(s: State, step: Step, s': State, v: VersionId) {
    || Settled(s, s', v)
    || (step.DoRetire? && RetireMoved(s, step.tenant, step.name, step.kb, s', v))
    || (step.DoRecordManifest? && step.v == v && Written(s, s', v, step.execution) && JobOf(s', v).status.Staged?)
    || (step.DoUpdateJob? && step.v == v && Written(s, s', v, step.execution))
    || (step.DoClaimIndex? && ClaimMoved(s, step.claim, s', v))
    || (step.DoHeartbeatIndex? && step.v == v && Working(s, s', v) && Live(JobOf(s, v), step.token, s.clock)
        && Renews(JobOf(s, v), JobOf(s', v)))
    || (step.DoRetryIndex? && step.v == v && Working(s, s', v) && Live(JobOf(s, v), step.token, s.clock)
        && PutsBack(JobOf(s, v), JobOf(s', v)))
    || (CleanupStep(step) && (Tidied(s, s', v) || (step.DoRecordCleanup? && step.v == v && JobKept(s, s', v))))
  }

  lemma CleanupMoves(s: State, step: Step, s': State, v: VersionId)
    requires CleanupStep(step) && s' == Next(s, step)
    ensures if step.DoRecordCleanup? && step.v == v then JobKept(s, s', v) else Tidied(s, s', v)
  {
    match step
    case DoClaimCleanup(worker, seconds, locked) => ClaimCleanupMoves(s, worker, seconds, locked, s', v);
    case DoHeartbeatCleanup(w, token, seconds) => HeartbeatCleanupMoves(s, w, token, seconds, s', v);
    case DoRetryCleanup(w, token, delay) => RetryCleanupMoves(s, w, token, delay, s', v);
    case DoDeadLetterCleanup(w, token) => DeadLetterCleanupMoves(s, w, token, s', v);
    case DoCompleteCleanup(w, token) => CompleteCleanupMoves(s, w, token, s', v);
    case DoRequeueCleanup(w, limit) => RequeueCleanupMoves(s, w, limit, s', v);
    case DoRecordCleanup(w, failed) => RecordCleanupMoves(s, w, failed, s', v);
  }

  lemma StepMoves(s: State, step: Step, s': State, v: VersionId)
    requires Inv(s) && s' == Next(s, step)
    ensures Moved(s, step, s', v)
  {
    if CleanupStep(step) {
      CleanupMoves(s, step, s', v);
    } else if WorkerStep(step) {
      WorkerMoves(s, step, s', v);
    } else {
      ClosingMoves(s, step, s', v);
    }
  }

  /** Steps by which a worker takes, keeps or gives back a job, or writes to it. */
  predicate WorkerStep(step: Step) {
    step.DoRecordManifest? || step.DoUpdateJob? || step.DoClaimIndex? || step.DoHeartbeatIndex? || step.DoRetryIndex?
  }

  lemma WorkerMoves(s: State, step: Step, s': State, v: VersionId)
    requires Inv(s) && WorkerStep(step) && s' == Next(s, step)
    ensures Moved(s, step, s', v)
  {
    match step
    case DoRecordManifest(w, fence, entries, vs, ps, ex) => RecordManifestMoves(s, w, fence, entries, vs, ps, ex, s', v);
    case DoUpdateJob(w, fence, status, st, ex) => UpdateMoves(s, w, fence, status, st, ex, s', v);
    case DoClaimIndex(c) => ClaimMoves(s, c, s', v);
    case DoHeartbeatIndex(w, token, seconds) => HeartbeatMoves(s, w, token, seconds, s', v);
    case DoRetryIndex(w, token, delay) => RetryMoves(s, w, token, delay, s', v);
  }

  lemma ClosingMoves(s: State, step: Step, s': State, v: VersionId)
    requires Inv(s) && !CleanupStep(step) && !WorkerStep(step) && s' == Next(s, step)
    ensures Settled(s, s', v) || (step.DoRetire? && RetireMoved(s, step.tenant, step.name, step.kb, s', v))
  {
    match step
    case AdvanceClock(_) =>
    case AddKb(_, _) =>
    case DoReserve(u, newId) => ReserveMoves(s, u, newId, s', v);
    case DoPublish(w, fence, expected, ex) => PublishMoves(s, w, fence, expected, ex, s', v);
    case DoFail(w, fence, ex) => FailMoves(s, w, fence, ex, s', v);
    case DoDeadLetterIndex(w, token) => DeadLetterIndexMoves(s, w, token, s', v);
    case DoRetire(tenant, name, kb) => RetireMoves(s, tenant, name, kb, s', v);
  }
}
