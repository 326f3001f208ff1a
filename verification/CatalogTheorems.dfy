/** What the catalog promises, proved for every run of its transactions. */
module CatalogTheorems {
  import opened Prelude
  import opened CatalogState
  import opened CatalogOps
  import opened CatalogInvariant
  import opened CatalogSteps
  import opened CatalogRuns
  import opened CatalogMoves

  // ---------- Pointers and active versions ----------

  function ActiveVersions(s: State, id: DocId): set<VersionId> {
    set v | v in s.rows && s.rows[v].doc == id && Active(s.rows[v].status)
  }

  /** The active versions of a document are exactly the ones its pointers hold. */
  lemma PointersHoldActiveVersions(s: State, id: DocId)
    requires Reachable(s) && id in s.docs
    ensures var d := s.docs[id];
            && ActiveVersions(s, id) == HeldBy(d)
            && (d.current.Some? ==> && d.current.value in s.rows
                                    && s.rows[d.current.value].status.Ready?
                                    && s.rows[d.current.value].job.Some?
                                    && s.rows[d.current.value].job.value.status.Completed?)
            && (d.pending.Some? ==> && d.pending.value in s.rows
                                    && Building(s.rows[d.pending.value].status)
                                    && s.rows[d.pending.value].job.Some?
                                    && !Terminal(s.rows[d.pending.value].job.value.status)
                                    && s.rows[d.pending.value].job.value.fence == d.fence
                                    && s.rows[d.pending.value].job.value.expected == d.current
                                    && d.pending != d.current)
            && (d.deletedAt.Some? ==> d.current.None? && d.pending.None?)
            && d.status == StatusFor(d)
  {
    ReachableInv(s);
    var d := s.docs[id];
    assert DocOk(s, id);
    ActiveAreHeld(s, id);
    if d.current.Some? { assert RowAt(s, d.current.value); }
    if d.pending.Some? { assert RowAt(s, d.pending.value); }
  }

  lemma ActiveAreHeld(s: State, id: DocId)
    requires Inv(s) && id in s.docs
    ensures ActiveVersions(s, id) == HeldBy(s.docs[id])
  {
    assert DocOk(s, id);
    forall v ensures v in ActiveVersions(s, id) <==> v in HeldBy(s.docs[id]) {
      if v in s.rows && s.rows[v].doc == id { assert RowAt(s, v); }
    }
  }

  /** No two active versions of a document share content hash and build fingerprint. */
  lemma ActiveIdentitiesDiffer(s: State, u: VersionId, v: VersionId)
    requires Reachable(s) && u in s.rows && v in s.rows && u != v && s.rows[u].doc == s.rows[v].doc
    requires Active(s.rows[u].status) && Active(s.rows[v].status)
    ensures s.rows[u].content != s.rows[v].content || s.rows[u].build != s.rows[v].build
  {
    ReachableInv(s);
    assert RowAt(s, u) && RowAt(s, v);
    assert DocOk(s, s.rows[u].doc);
  }

  // ---------- Defensive branches ----------

  predicate Defensive(r: Reason) {
    || r.CurrentNotReady? || r.CurrentUnfinished? || r.OrphanedActive? || r.ForeignPointer?
    || r.DeletedDocument? || r.ManifestMismatch? || r.CasConflict? || r.CleanupInconsistent?
  }

  predicate Undefended<T>(a: Answer<T, Error>) {
    a.Err? && a.error.Conflict? ==> !Defensive(a.error.reason)
  }

  lemma CandidateNeverDeleted(s: State, v: VersionId, fence: int)
    requires Inv(s) && JobGraph(s, v)
    ensures CandidateFault(s, v, fence) != Some(DeletedDocument)
  {
    assert DocOk(s, s.rows[v].doc);
  }

  lemma ActiveIsHeld(s: State, id: DocId, v: VersionId)
    requires Inv(s) && id in s.docs && v in s.rows && s.rows[v].doc == id && Active(s.rows[v].status)
    ensures s.docs[id].current == Some(v) || s.docs[id].pending == Some(v)
  {
    assert RowAt(s, v);
  }

  lemma ReserveUndefended(s: State, u: Upload, newId: VersionId)
    requires Inv(s)
    ensures Undefended(Reserve(s, u, newId).1)
  {
    var id := DocId(u.kb, u.name);
    if id in s.docs {
      var d := s.docs[id];
      assert DocOk(s, id);
      if d.current.Some? { assert RowAt(s, d.current.value); }
      assert !Orphaned(s, id, d, u) by {
        forall v | v in s.rows && s.rows[v].doc == id && Active(s.rows[v].status)
          ensures d.current == Some(v) || d.pending == Some(v)
        {
          ActiveIsHeld(s, id, v);
        }
      }
    } else {
      forall v | v in s.rows ensures s.rows[v].doc != id { assert RowAt(s, v); }
    }
  }

  lemma StagedIsPublishable(s: State, v: VersionId)
    requires Inv(s) && JobGraph(s, v) && s.rows[v].status.Staged?
    ensures var row := s.rows[v];
            && ManifestOk(row) && row.job.value.expected == s.docs[row.doc].current
            && !ForeignTarget(s, row.doc, row.job.value.expected)
  {
    assert DocOk(s, s.rows[v].doc);
    assert RowAt(s, v);
  }

  lemma PublishUndefended(s: State, v: VersionId, fence: int, expected: Option<VersionId>, execution: Option<Token>)
    requires Inv(s)
    ensures Undefended(Publish(s, v, fence, expected, execution).1)
  {
    if JobGraph(s, v) {
      WriteUndefended(s, v, fence, execution);
      if s.rows[v].status.Staged? { StagedIsPublishable(s, v); }
      PublishFaults(s, v, fence, expected, execution);
    }
  }

  lemma PublishFaults(s: State, v: VersionId, fence: int, expected: Option<VersionId>, execution: Option<Token>)
    requires JobGraph(s, v) && WriteFault(s, v, fence, execution) != Some(DeletedDocument)
    requires var row := s.rows[v];
             row.status.Staged? ==>
               && ManifestOk(row) && row.job.value.expected == s.docs[row.doc].current
               && !ForeignTarget(s, row.doc, row.job.value.expected)
    ensures Undefended(Publish(s, v, fence, expected, execution).1)
  {
  }

  lemma WriteUndefended(s: State, v: VersionId, fence: int, execution: Option<Token>)
    requires Inv(s) && JobGraph(s, v)
    ensures WriteFault(s, v, fence, execution) != Some(DeletedDocument)
  {
    CandidateNeverDeleted(s, v, fence);
  }

  lemma RetireUndefended(s: State, tenant: string, name: string, kb: Option<KbId>)
    requires Inv(s)
    ensures Undefended(Retire(s, tenant, name, kb).1)
  {
    forall id | id in Named(s, tenant, name, kb) ensures Undefended(RetireDoc(s, id).1) { assert DocOk(s, id); }
  }

  lemma RecordCleanupUndefended(s: State, v: VersionId, failed: bool)
    requires Inv(s)
    ensures Undefended(RecordCleanup(s, v, failed).1)
  {
    if v in s.rows { assert RowAt(s, v); }
  }

  lemma UpdateUndefended(s: State, v: VersionId, fence: int, status: Option<JobStatus>, step: Option<string>,
                         execution: Option<Token>)
    requires JobGraph(s, v) && CandidateFault(s, v, fence) != Some(DeletedDocument)
    ensures Undefended(UpdateJob(s, v, fence, status, step, execution).1)
  {
  }

  function ErrorOf<T>(a: Answer<T, Error>): Option<Error> {
    if a.Err? then Some(a.error) else None
  }

  /** The error a step raises, if any. */
  ghost function Raised(s: State, step: Step): Option<Error> {
    match step
    case AdvanceClock(to) => None
    case AddKb(kbId, owner) => ErrorOf(EnsureKb(s, kbId, owner).1)
    case DoReserve(u, newId) => ErrorOf(Reserve(s, u, newId).1)
    case DoRecordManifest(v, fence, entries, vs, ps, ex) => ErrorOf(RecordManifest(s, v, fence, entries, vs, ps, ex).1)
    case DoPublish(v, fence, expected, ex) => ErrorOf(Publish(s, v, fence, expected, ex).1)
    case DoFail(v, fence, ex) => ErrorOf(Fail(s, v, fence, ex).1)
    case DoUpdateJob(v, fence, status, st, ex) => ErrorOf(UpdateJob(s, v, fence, status, st, ex).1)
    case DoClaimIndex(c) => ErrorOf(ClaimIndex(s, c).1)
    case DoHeartbeatIndex(v, token, seconds) => ErrorOf(HeartbeatIndex(s, v, token, seconds).1)
    case DoRetryIndex(v, token, delay) => ErrorOf(RetryIndex(s, v, token, delay).1)
    case DoDeadLetterIndex(v, token) => ErrorOf(DeadLetterIndex(s, v, token).1)
    case DoRetire(tenant, name, kb) => ErrorOf(Retire(s, tenant, name, kb).1)
    case DoClaimCleanup(worker, seconds, locked) => ErrorOf(ClaimCleanup(s, worker, seconds, locked).1)
    case DoHeartbeatCleanup(v, token, seconds) => ErrorOf(HeartbeatCleanup(s, v, token, seconds).1)
    case DoRetryCleanup(v, token, delay) => ErrorOf(RetryCleanup(s, v, token, delay).1)
    case DoDeadLetterCleanup(v, token) => ErrorOf(DeadLetterCleanup(s, v, token).1)
    case DoCompleteCleanup(v, token) => ErrorOf(CompleteCleanup(s, v, token).1)
    case DoRequeueCleanup(v, m) => ErrorOf(RequeueCleanup(s, v, m).1)
    case DoRecordCleanup(v, failed) => ErrorOf(RecordCleanup(s, v, failed).1)
  }

  lemma CleanupRefusal(s: State, step: Step, s': State)
    requires CleanupStep(step) && Raised(s, step).Some? && s' == Next(s, step)
    ensures s' == s
  {
  }

  lemma IndexRefusal(s: State, step: Step, s': State)
    requires !CleanupStep(step) && !step.DoRetire? && Raised(s, step).Some? && s' == Next(s, step)
    ensures s' == s
  {
  }

  lemma RetireRefusal(s: State, tenant: string, name: string, kb: Option<KbId>)
    requires Retire(s, tenant, name, kb).1.Err?
    ensures Retire(s, tenant, name, kb).0 == s
  {
    forall id | id in Named(s, tenant, name, kb) && RetireDoc(s, id).1.Err? ensures RetireDoc(s, id).0 == s { }
  }

  /** A refused transaction leaves the catalog as it was. */
  lemma RefusalChangesNothing(s: State, step: Step)
    requires Raised(s, step).Some?
    ensures Next(s, step) == s
  {
    if CleanupStep(step) {
      CleanupRefusal(s, step, Next(s, step));
    } else if step.DoRetire? {
      RetireRefusal(s, step.tenant, step.name, step.kb);
    } else {
      IndexRefusal(s, step, Next(s, step));
    }
  }

  ghost predicate Harmless(s: State, step: Step) {
    var e := Raised(s, step);
    e.Some? && e.value.Conflict? ==> !Defensive(e.value.reason)
  }

  lemma HarmlessByAnswer(s: State, step: Step)
    requires step.DoReserve? ==> Undefended(Reserve(s, step.upload, step.newId).1)
    requires step.DoPublish? ==> Undefended(Publish(s, step.v, step.fence, step.expected, step.execution).1)
    requires step.DoRecordManifest? && JobGraph(s, step.v) ==>
               WriteFault(s, step.v, step.fence, step.execution) != Some(DeletedDocument)
    requires step.DoUpdateJob? ==> Undefended(UpdateJob(s, step.v, step.fence, step.status, step.step, step.execution).1)
    requires (step.DoHeartbeatIndex? || step.DoRetryIndex?) && JobGraph(s, step.v) ==>
               WriteFault(s, step.v, s.rows[step.v].job.value.fence, Some(step.token)) != Some(DeletedDocument)
    requires step.DoRetire? ==> Undefended(Retire(s, step.tenant, step.name, step.kb).1)
    requires step.DoRecordCleanup? ==> Undefended(RecordCleanup(s, step.v, step.failed).1)
    ensures Harmless(s, step)
  {
  }

  /** Every defensive conflict of the catalog is unreachable: no step of any run raises one. */
  lemma DefencesNeverFire(s: State, step: Step)
    requires Reachable(s)
    ensures Harmless(s, step)
  {
    ReachableInv(s);
    match step {
      case DoReserve(u, newId) => ReserveUndefended(s, u, newId);
      case DoPublish(v, fence, expected, ex) => PublishUndefended(s, v, fence, expected, ex);
      case DoRecordManifest(v, fence, entries, vs, ps, ex) =>
        if JobGraph(s, v) { WriteUndefended(s, v, fence, ex); }
      case DoUpdateJob(v, fence, status, st, ex) =>
        if JobGraph(s, v) { CandidateNeverDeleted(s, v, fence); UpdateUndefended(s, v, fence, status, st, ex); }
      case DoHeartbeatIndex(v, token, seconds) =>
        if JobGraph(s, v) { WriteUndefended(s, v, s.rows[v].job.value.fence, Some(token)); }
      case DoRetryIndex(v, token, delay) =>
        if JobGraph(s, v) { WriteUndefended(s, v, s.rows[v].job.value.fence, Some(token)); }
      case DoRetire(tenant, name, kb) => RetireUndefended(s, tenant, name, kb);
      case DoRecordCleanup(v, failed) => RecordCleanupUndefended(s, v, failed);
      case _ =>
    }
    HarmlessByAnswer(s, step);
  }

  /** Nor does a claim ever meet an index job whose version is not the candidate. */
  lemma ClaimMeetsOnlyCandidates(s: State, v: VersionId, c: Claim)
    requires Reachable(s) && Claimable(s, v, c)
    ensures OwnsCandidate(s, v)
  {
    ReachableInv(s);
    OpenJobIsCandidate(s, v);
  }

  /** Nor does cleanup ever meet a version that is current, pending or active again. */
  lemma CleanupScopeIsSafe(s: State, v: VersionId)
    requires Reachable(s) && CleanupGraph(s, v)
    ensures SafeScope(s, v)
  {
    ReachableInv(s);
    assert RowAt(s, v);
  }

  // ---------- Publication ----------

  /** A version published later has a larger number, whatever happened in between. */
  lemma PublishedNumbersIncrease(s: State, s': State, v: VersionId, w: VersionId)
    requires Reachable(s) && Leads(s, s')
    requires v in s.rows && s.rows[v].publishedAt.Some?
    requires w in s'.rows && s'.rows[w].publishedAt.Some? && s'.rows[w].doc == s.rows[v].doc
    requires w in s.rows ==> s.rows[w].publishedAt.None?
    ensures s.rows[v].number < s'.rows[w].number
  {
    ReachableInv(s);
    LeadsSound(s, s');
    assert RowAt(s, v);
    if w in s.rows {
      assert RowAfter(s, s', w);
      assert RowAt(s, w);
    }
  }

  // ---------- Terminal versions ----------

  /** Failed and superseded versions stay so; they own a cleanup job and no pointer reaches them again. */
  lemma TerminalForever(s: State, s': State, v: VersionId)
    requires Reachable(s) && Leads(s, s') && v in s.rows && !Active(s.rows[v].status)
    ensures v in s'.rows && s'.rows[v].status == s.rows[v].status
    ensures s.rows[v].cleanup.Some? && s'.rows[v].cleanup.Some? && s'.rows[v].doc in s'.docs
    ensures s'.docs[s'.rows[v].doc].current != Some(v) && s'.docs[s'.rows[v].doc].pending != Some(v)
    ensures s.rows[v].cleanedAt.Some? ==> s'.rows[v].cleanedAt == s.rows[v].cleanedAt
  {
    ReachableInv(s);
    LeadsSound(s, s');
    assert RowAfter(s, s', v);
    assert RowAt(s, v);
    assert RowAt(s', v);
  }

  /** A version has a cleanup job iff it is inactive, and is marked cleaned iff that job completed. */
  lemma CleanupJobsMatchVersions(s: State, v: VersionId)
    requires Reachable(s) && v in s.rows
    ensures s.rows[v].cleanup.Some? <==> !Active(s.rows[v].status)
    ensures s.rows[v].cleanedAt.Some? <==> s.rows[v].cleanup.Some? && s.rows[v].cleanup.value.status.Completed?
  {
    ReachableInv(s);
    assert RowAt(s, v);
  }

  // ---------- Fencing ----------

  lemma JobKeepsRejecting(a: IndexJob, t: Time, b: IndexJob, t': Time, token: Token)
    requires JobEvolves(a, t, b, t') && token.fence <= a.execFence && !Live(a, token, t)
    ensures !Live(b, token, t')
  {
    assert token == Token(token.worker, token.fence);
  }

  lemma CleanupKeepsRejecting(a: CleanupJob, t: Time, b: CleanupJob, t': Time, token: Token)
    requires CleanupEvolves(a, t, b, t') && token.fence <= a.execFence && !CleanupLive(a, token, t)
    ensures !CleanupLive(b, token, t')
  {
    assert token == Token(token.worker, token.fence);
  }

  /** An index token issued no later than the job's fence and once rejected is rejected for good. */
  lemma RejectedIndexTokenStaysRejected(s: State, s': State, v: VersionId, token: Token)
    requires Reachable(s) && Leads(s, s') && JobGraph(s, v)
    requires token.fence <= s.rows[v].job.value.execFence && !Live(s.rows[v].job.value, token, s.clock)
    ensures v in s'.rows && s'.rows[v].job.Some? && !Live(s'.rows[v].job.value, token, s'.clock)
  {
    ReachableInv(s);
    LeadsSound(s, s');
    assert RowAfter(s, s', v);
    JobKeepsRejecting(s.rows[v].job.value, s.clock, s'.rows[v].job.value, s'.clock, token);
  }

  /** The same for cleanup tokens, across operator requeues that reset the attempts. */
  lemma RejectedCleanupTokenStaysRejected(s: State, s': State, v: VersionId, token: Token)
    requires Reachable(s) && Leads(s, s') && CleanupGraph(s, v)
    requires token.fence <= s.rows[v].cleanup.value.execFence && !CleanupLive(s.rows[v].cleanup.value, token, s.clock)
    ensures v in s'.rows && s'.rows[v].cleanup.Some? && !CleanupLive(s'.rows[v].cleanup.value, token, s'.clock)
  {
    ReachableInv(s);
    LeadsSound(s, s');
    assert RowAfter(s, s', v);
    CleanupKeepsRejecting(s.rows[v].cleanup.value, s.clock, s'.rows[v].cleanup.value, s'.clock, token);
  }

  // ---------- Attempts ----------

  function Fence(s: State, v: VersionId): nat {
    if v in s.rows && s.rows[v].job.Some? then s.rows[v].job.value.execFence else 0
  }

  /** A lease counts once, and beyond the limit only a staged job whose worker vanished gets one. */
  predicate FreshLease(j: IndexJob, j': IndexJob) {
    && j'.execFence == j.execFence + 1 && j'.attempts == j.attempts + 1 && j'.maxAttempts == j.maxAttempts
    && (j'.attempts > j'.maxAttempts ==> j.status.Staged? && j.nextRetry.None? && j.attempts == j.maxAttempts)
  }

  lemma LeaseGrants(s: State, w: VersionId, c: Claim)
    requires JobGraph(s, w) && !Exhausted(s.rows[w].job.value) && JobOk(s.rows[w].job.value)
    ensures var s' := Lease(s, w, c);
            FreshLease(s.rows[w].job.value, s'.rows[w].job.value) && s'.rows[w].job.value.owner == Some(c.worker)
  {
  }

  lemma {:induction false} ClaimLoopGrants(s: State, c: Claim, v: VersionId)
    requires Inv(s) && ClaimLoop(s, c).1 == Ok(Some(v))
    ensures v in OpenJobs(s)
    ensures var s' := ClaimLoop(s, c).0;
            && v in s'.rows && s'.rows[v].job.Some?
            && FreshLease(s.rows[v].job.value, s'.rows[v].job.value)
            && s'.rows[v].job.value.owner == Some(c.worker)
    decreases OpenJobs(s)
  {
    var w := PickIndex(s, s.order, c).value;
    OpenJobIsCandidate(s, w);
    assert w in OpenJobs(s);
    if Exhausted(s.rows[w].job.value) {
      DeadLetterSound(s, w);
      DeadLetterFrame(s, w);
      ClaimLoopGrants(DeadLetterLocked(s, w).0, c, v);
    } else {
      assert RowAt(s, w);
      LeaseGrants(s, w, c);
    }
  }

  ghost function GrantCount(s: State, steps: seq<Step>, v: VersionId): nat
    decreases |steps|
  {
    if steps == [] then 0
    else (if Grants(s, steps[0], v) then 1 else 0) + GrantCount(Next(s, steps[0]), steps[1..], v)
  }

  /** Whatever a step does to a version, only a grant raises its execution fence. */
  lemma MoveKeepsFence(s: State, step: Step, s': State, v: VersionId)
    requires Moved(s, step, s', v) && (v in s.rows ==> s.rows[v].job.Some?)
    ensures Fence(s', v) == Fence(s, v) || Grants(s, step, v)
  {
  }

  lemma GrantIsLoop(s: State, step: Step, s': State, v: VersionId)
    requires Grants(s, step, v) && s' == Next(s, step)
    ensures s' == ClaimLoop(s, step.claim).0
  {
  }

  lemma GrantRaisesFence(s: State, step: Step, s': State, v: VersionId)
    requires Inv(s) && s' == Next(s, step)
    ensures Fence(s', v) == Fence(s, v) + if Grants(s, step, v) then 1 else 0
  {
    if Grants(s, step, v) {
      GrantIsLoop(s, step, s', v);
      ClaimLoopGrants(s, step.claim, v);
    } else {
      StepMoves(s, step, s', v);
      if v in s.rows { assert RowAt(s, v); }
      MoveKeepsFence(s, step, s', v);
    }
  }

  lemma {:induction false} GrantsRaiseFence(s: State, steps: seq<Step>, v: VersionId)
    requires Inv(s)
    ensures Fence(After(s, steps), v) == Fence(s, v) + GrantCount(s, steps, v)
    decreases |steps|
  {
    if steps != [] {
      var s' := Next(s, steps[0]);
      GrantRaisesFence(s, steps[0], s', v);
      NextSound(s, steps[0]);
      GrantsRaiseFence(s', steps[1..], v);
    }
  }

  /** The attempts of an index job are exactly its fresh leases, of which there are at most `maxAttempts + 1`. */
  lemma LeasesAreBounded(steps: seq<Step>, v: VersionId)
    requires v in After(EMPTY, steps).rows
    ensures var row := After(EMPTY, steps).rows[v];
            && row.job.Some?
            && var j := row.job.value;
               && j.execFence == j.attempts
               && GrantCount(EMPTY, steps, v) == j.attempts <= j.maxAttempts + 1
               && (j.attempts > j.maxAttempts ==> j.status.Staged? || Terminal(j.status))
  {
    var s := After(EMPTY, steps);
    RunSound(EMPTY, steps);
    assert RowAt(s, v);
    GrantsRaiseFence(EMPTY, steps, v);
  }
}
