/** Which steps can change what readers see: verified content, cleanup marks and current pointers. */
module CatalogQuiet {
  import opened Prelude
  import opened CatalogState
  import opened CatalogOps
  import opened CatalogInvariant
  import opened CatalogSteps
  import opened CatalogRuns

  /** The version's manifest has been recorded against the stores and the version is not given up. */
  predicate Verified(row: Row) {
    row.status.Staged? || row.status.Ready?
  }

  predicate RowQuiet(a: Row, b: Row) {
    Verified(b) ==> Verified(a) && b.manifest == a.manifest
  }

  predicate RowUncleaned(a: Row, b: Row) {
    b.cleanedAt.Some? ==> a.cleanedAt.Some?
  }

  ghost predicate QuietAt(s: State, s': State, v: VersionId)
    requires v in s'.rows
  {
    if v in s.rows then RowQuiet(s.rows[v], s'.rows[v]) else !Verified(s'.rows[v])
  }

  ghost predicate UncleanedAt(s: State, s': State, v: VersionId)
    requires v in s'.rows
  {
    if v in s.rows then RowUncleaned(s.rows[v], s'.rows[v]) else s'.rows[v].cleanedAt.None?
  }

  /** No version gains verified content. */
  ghost predicate RowsQuiet(s: State, s': State) {
    forall v {:trigger QuietAt(s, s', v)} :: v in s'.rows ==> QuietAt(s, s', v)
  }

  /** No version is newly marked as cleaned. */
  ghost predicate NoneCleaned(s: State, s': State) {
    forall v {:trigger UncleanedAt(s, s', v)} :: v in s'.rows ==> UncleanedAt(s, s', v)
  }

  ghost predicate CurrentAt(s: State, s': State, id: DocId)
    requires id in s'.docs
  {
    s'.docs[id].current == if id in s.docs then s.docs[id].current else None
  }

  /** No current pointer moves. */
  ghost predicate CurrentKept(s: State, s': State) {
    && s.docs.Keys <= s'.docs.Keys
    && forall id {:trigger CurrentAt(s, s', id)} :: id in s'.docs ==> CurrentAt(s, s', id)
  }

  ghost predicate Quiet(s: State, s': State) {
    RowsQuiet(s, s') && NoneCleaned(s, s') && CurrentKept(s, s')
  }

  lemma QuietReflexive(s: State)
    ensures Quiet(s, s)
  {
  }

  lemma QuietTransitive(a: State, b: State, c: State)
    requires Quiet(a, b) && Quiet(b, c) && a.rows.Keys <= b.rows.Keys <= c.rows.Keys
    ensures Quiet(a, c)
  {
    forall v | v in c.rows ensures QuietAt(a, c, v) && UncleanedAt(a, c, v) {
      assert QuietAt(b, c, v) && UncleanedAt(b, c, v);
      if v in b.rows { assert QuietAt(a, b, v) && UncleanedAt(a, b, v); }
    }
    forall id | id in c.docs ensures CurrentAt(a, c, id) {
      assert CurrentAt(b, c, id);
      if id in b.docs { assert CurrentAt(a, b, id); }
    }
  }

  lemma OneRowQuiet(s: State, s': State, v: VersionId)
    requires RewritesRow(s, s', v)
    ensures RowQuiet(s.rows[v], s'.rows[v]) ==> RowsQuiet(s, s')
    ensures RowUncleaned(s.rows[v], s'.rows[v]) ==> NoneCleaned(s, s')
    ensures CurrentKept(s, s')
  {
  }

  lemma RowStepQuiet(s: State, s': State, v: VersionId)
    requires s' == s || RewritesRow(s, s', v)
    requires s' != s ==> RowQuiet(s.rows[v], s'.rows[v]) && RowUncleaned(s.rows[v], s'.rows[v])
    ensures Quiet(s, s')
  {
    if s' == s { QuietReflexive(s); } else { OneRowQuiet(s, s', v); }
  }

  lemma AbandonRewrites(s: State, v: VersionId, job: IndexJob)
    requires JobGraph(s, v)
    ensures var s' := Abandon(s, v, job);
            RewritesRow(s, s', v) && RowQuiet(s.rows[v], s'.rows[v]) && RowUncleaned(s.rows[v], s'.rows[v])
  {
  }

  lemma DeadLetterQuiet(s: State, v: VersionId)
    requires JobGraph(s, v)
    ensures Quiet(s, DeadLetterLocked(s, v).0)
  {
    var job := s.rows[v].job.value;
    if !Terminal(job.status) {
      AbandonRewrites(s, v, job.(status := JobStatus.DeadLetter, step := "dead_letter",
                                 owner := None, lease := None, nextRetry := None));
    }
    RowStepQuiet(s, DeadLetterLocked(s, v).0, v);
  }

  lemma FailQuiet(s: State, v: VersionId, fence: int, execution: Option<Token>, s': State)
    requires s' == Fail(s, v, fence, execution).0
    ensures Quiet(s, s')
  {
    if s' != s {
      var job := s.rows[v].job.value;
      AbandonRewrites(s, v, job.(status := JobStatus.Failed, step := "failed", owner := None, lease := None));
    }
    RowStepQuiet(s, s', v);
  }

  lemma {:induction false} ClaimLoopQuiet(s: State, c: Claim)
    requires Inv(s) && c.seconds >= 1
    ensures Quiet(s, ClaimLoop(s, c).0)
    decreases OpenJobs(s)
  {
    var pick := PickIndex(s, s.order, c);
    if pick.None? {
      QuietReflexive(s);
    } else {
      var v := pick.value;
      OpenJobIsCandidate(s, v);
      assert v in OpenJobs(s);
      if Exhausted(s.rows[v].job.value) {
        var s1 := DeadLetterLocked(s, v).0;
        DeadLetterSound(s, v);
        DeadLetterQuiet(s, v);
        DeadLetterFrame(s, v);
        ClaimLoopQuiet(s1, c);
        ClaimLoopSound(s1, c);
        EvolvesKeepsRows(s1, ClaimLoop(s1, c).0);
        QuietTransitive(s, s1, ClaimLoop(s1, c).0);
      } else {
        RowStepQuiet(s, Lease(s, v, c), v);
      }
    }
  }

  lemma EvolvesKeepsRows(s: State, s': State)
    requires RowsEvolve(s, s')
    ensures s.rows.Keys <= s'.rows.Keys
  {
    forall v | v in s.rows ensures v in s'.rows { assert RowAfter(s, s', v); }
  }

  lemma ClaimIndexQuiet(s: State, c: Claim, s': State)
    requires Inv(s) && s' == ClaimIndex(s, c).0
    ensures Quiet(s, s')
  {
    if s' == s {
      QuietReflexive(s);
    } else {
      var owned := FirstOwned(s, s.order, c);
      if owned.Some? { RowStepQuiet(s, s', owned.value); } else { ClaimLoopQuiet(s, c); }
    }
  }

  lemma {:induction false} CleanupClaimLoopQuiet(s: State, worker: Worker, seconds: int, locked: set<VersionId>)
    ensures Quiet(s, CleanupClaimLoop(s, worker, seconds, locked).0)
    ensures s.rows.Keys == CleanupClaimLoop(s, worker, seconds, locked).0.rows.Keys
    decreases OpenCleanups(s)
  {
    var pick := PickCleanup(s, s.order, locked);
    if pick.None? {
      QuietReflexive(s);
    } else {
      var v := pick.value;
      var c := s.rows[v].cleanup.value;
      assert v in OpenCleanups(s);
      if !SafeScope(s, v) || c.attempts >= c.maxAttempts {
        var s1 := SetCleanup(s, v, Bury(c));
        BuryFrame(s, v);
        RowStepQuiet(s, s1, v);
        CleanupClaimLoopQuiet(s1, worker, seconds, locked);
        QuietTransitive(s, s1, CleanupClaimLoop(s1, worker, seconds, locked).0);
      } else {
        RowStepQuiet(s, LeaseCleanup(s, v, worker, seconds), v);
      }
    }
  }

  lemma ClaimCleanupQuiet(s: State, worker: Worker, seconds: int, locked: set<VersionId>, s': State)
    requires s' == ClaimCleanup(s, worker, seconds, locked).0
    ensures Quiet(s, s')
  {
    if s' == s {
      QuietReflexive(s);
    } else {
      var owned := FirstOwnedCleanup(s, s.order, worker, locked);
      if owned.Some? { RowStepQuiet(s, s', owned.value); } else { CleanupClaimLoopQuiet(s, worker, seconds, locked); }
    }
  }

  lemma SupersedeQuiet(row: Row, now: Time, after: Time, cancel: bool)
    ensures var r := Supersede(row, now, after, cancel); !Verified(r) && RowUncleaned(row, r)
  {
  }

  lemma InsertedRowQuiet(s: State, u: Upload, newId: VersionId, v: VersionId)
    requires Insertable(s, u, newId) && v in Inserted(s, u, newId).rows
    ensures QuietAt(s, Inserted(s, u, newId), v) && UncleanedAt(s, Inserted(s, u, newId), v)
  {
    if DocFor(s, u).pending == Some(v) { SupersedeQuiet(s.rows[v], s.clock, s.clock, true); }
  }

  lemma InsertedQuiet(s: State, u: Upload, newId: VersionId)
    requires Insertable(s, u, newId)
    ensures Quiet(s, Inserted(s, u, newId))
  {
    var s' := Inserted(s, u, newId);
    forall v | v in s'.rows ensures QuietAt(s, s', v) && UncleanedAt(s, s', v) { InsertedRowQuiet(s, u, newId, v); }
  }

  lemma ReserveQuiet(s: State, u: Upload, newId: VersionId, s': State)
    requires Inv(s) && s' == Reserve(s, u, newId).0
    ensures Quiet(s, s')
  {
    ReserveCases(s, u, newId, s');
    if s' == s { QuietReflexive(s); } else { InsertedQuiet(s, u, newId); }
  }

  lemma UpdateJobQuiet(s: State, v: VersionId, fence: int, status: Option<JobStatus>, step: Option<string>,
                       ex: Option<Token>, s': State)
    requires Inv(s) && s' == UpdateJob(s, v, fence, status, step, ex).0
    ensures Quiet(s, s')
  {
    if s' == s {
      QuietReflexive(s);
    } else {
      var target := if status.Some? then status.value else s.rows[v].job.value.status;
      if target.Failed? {
        FailQuiet(s, v, fence, ex, s');
      } else {
        MoveJobQuiet(s, v, target, step);
      }
    }
  }

  lemma MoveJobQuiet(s: State, v: VersionId, target: JobStatus, step: Option<string>)
    requires Inv(s) && JobGraph(s, v) && !target.Failed?
    requires target.Cancelled? || target.DeadLetter? ==> !Terminal(s.rows[v].job.value.status)
    ensures Quiet(s, MoveJob(s, v, target, step))
  {
    assert RowAt(s, v);
    RowStepQuiet(s, MoveJob(s, v, target, step), v);
  }

  lemma RetryIndexQuiet(s: State, v: VersionId, token: Token, delay: int, s': State)
    requires s' == RetryIndex(s, v, token, delay).0
    ensures Quiet(s, s')
  {
    if s' != s && s.rows[v].job.value.attempts >= s.rows[v].job.value.maxAttempts {
      DeadLetterQuiet(s, v);
    } else {
      RowStepQuiet(s, s', v);
    }
  }

  lemma DeadLetterIndexQuiet(s: State, v: VersionId, token: Token, s': State)
    requires s' == DeadLetterIndex(s, v, token).0
    ensures Quiet(s, s')
  {
    if s' == s { QuietReflexive(s); } else { DeadLetterQuiet(s, v); }
  }

  lemma HastenQuiet(s: State, id: DocId)
    ensures RowsQuiet(s, HastenAll(s, id)) && NoneCleaned(s, HastenAll(s, id))
  {
    var s' := HastenAll(s, id);
    forall v | v in s'.rows ensures QuietAt(s, s', v) && UncleanedAt(s, s', v) {
      assert s'.rows[v] == if Uncleaned(s.rows[v], id) then Hasten(s.rows[v], s.clock) else s.rows[v];
    }
  }

  lemma SupersedeHeldQuiet(rows: map<VersionId, Row>, held: Option<VersionId>, now: Time, after: Time,
                           cancel: bool, v: VersionId)
    requires v in rows && (held.Some? ==> held.value in rows)
    ensures var r := SupersedeHeld(rows, held, now, after, cancel); RowQuiet(rows[v], r[v]) && RowUncleaned(rows[v], r[v])
  {
    if held == Some(v) { SupersedeQuiet(rows[v], now, after, cancel); }
  }

  lemma RetireLiveQuiet(s: State, id: DocId)
    requires id in s.docs
    requires !ForeignTarget(s, id, s.docs[id].current) && !ForeignTarget(s, id, s.docs[id].pending)
    ensures RowsQuiet(s, RetireLive(s, id)) && NoneCleaned(s, RetireLive(s, id))
  {
    var s', doc := RetireLive(s, id), s.docs[id];
    var rows := SupersedeHeld(s.rows, doc.current, s.clock, s.clock, false);
    var held := if doc.pending == doc.current then None else doc.pending;
    forall v | v in s'.rows ensures QuietAt(s, s', v) && UncleanedAt(s, s', v) {
      SupersedeHeldQuiet(s.rows, doc.current, s.clock, s.clock, false, v);
      SupersedeHeldQuiet(rows, held, s.clock, s.clock, true, v);
    }
  }

  lemma RetireDocQuiet(s: State, id: DocId)
    requires id in s.docs
    ensures var s' := RetireDoc(s, id).0; RowsQuiet(s, s') && NoneCleaned(s, s')
  {
    if RetireDoc(s, id).0 == s {
      QuietReflexive(s);
    } else if s.docs[id].deletedAt.Some? {
      HastenQuiet(s, id);
    } else {
      RetireLiveQuiet(s, id);
    }
  }

  lemma RetireQuiet(s: State, tenant: string, name: string, kb: Option<KbId>, s': State)
    requires s' == Retire(s, tenant, name, kb).0
    ensures RowsQuiet(s, s') && NoneCleaned(s, s')
  {
    if s' == s {
      QuietReflexive(s);
    } else {
      forall id | id in Named(s, tenant, name, kb)
        ensures RowsQuiet(s, RetireDoc(s, id).0) && NoneCleaned(s, RetireDoc(s, id).0)
      {
        RetireDocQuiet(s, id);
      }
    }
  }

  lemma SwitchedQuiet(s: State, v: VersionId)
    requires Switchable(s, v)
    ensures RowsQuiet(s, Switched(s, v)) && NoneCleaned(s, Switched(s, v))
  {
  }

  lemma PublishQuiet(s: State, v: VersionId, fence: int, expected: Option<VersionId>, execution: Option<Token>, s': State)
    requires s' == Publish(s, v, fence, expected, execution).0
    ensures RowsQuiet(s, s') && NoneCleaned(s, s')
  {
    if s' == s { QuietReflexive(s); } else { SwitchedQuiet(s, v); }
  }

  /** Every step except recording a manifest, publishing, retiring and finishing a cleanup is quiet. */
  lemma StepQuiet(s: State, step: Step, s': State)
    requires Inv(s) && s' == Next(s, step)
    requires !step.DoRecordManifest? && !step.DoPublish? && !step.DoRetire?
    requires !step.DoCompleteCleanup? && !step.DoRecordCleanup?
    ensures Quiet(s, s')
  {
    if CleanupStep(step) { CleanupStepQuiet(s, step, s'); } else { IndexStepQuiet(s, step, s'); }
  }

  lemma IndexStepQuiet(s: State, step: Step, s': State)
    requires Inv(s) && s' == Next(s, step)
    requires !CleanupStep(step) && !step.DoRecordManifest? && !step.DoPublish? && !step.DoRetire?
    ensures Quiet(s, s')
  {
    match step {
      case AdvanceClock(to) => QuietReflexive(s);
      case AddKb(kbId, owner) => QuietReflexive(s);
      case DoReserve(u, newId) => ReserveQuiet(s, u, newId, s');
      case DoFail(v, fence, ex) => FailQuiet(s, v, fence, ex, s');
      case DoUpdateJob(v, fence, status, st, ex) => UpdateJobQuiet(s, v, fence, status, st, ex, s');
      case DoClaimIndex(c) => ClaimIndexQuiet(s, c, s');
      case _ => LeaseStepQuiet(s, step, s');
    }
  }

  lemma LeaseStepQuiet(s: State, step: Step, s': State)
    requires Inv(s) && s' == Next(s, step) && (step.DoHeartbeatIndex? || step.DoRetryIndex? || step.DoDeadLetterIndex?)
    ensures Quiet(s, s')
  {
    match step {
      case DoHeartbeatIndex(v, token, seconds) => HeartbeatQuiet(s, v, token, seconds, s');
      case DoRetryIndex(v, token, delay) => RetryIndexQuiet(s, v, token, delay, s');
      case DoDeadLetterIndex(v, token) => DeadLetterIndexQuiet(s, v, token, s');
    }
  }

  lemma HeartbeatQuiet(s: State, v: VersionId, token: Token, seconds: int, s': State)
    requires s' == HeartbeatIndex(s, v, token, seconds).0
    ensures Quiet(s, s')
  {
    RowStepQuiet(s, s', v);
  }

  lemma HeartbeatCleanupQuiet(s: State, v: VersionId, token: Token, seconds: int, s': State)
    requires s' == HeartbeatCleanup(s, v, token, seconds).0
    ensures Quiet(s, s')
  {
    RowStepQuiet(s, s', v);
  }

  lemma RetryCleanupQuiet(s: State, v: VersionId, token: Token, delay: int, s': State)
    requires s' == RetryCleanup(s, v, token, delay).0
    ensures Quiet(s, s')
  {
    RowStepQuiet(s, s', v);
  }

  lemma DeadLetterCleanupQuiet(s: State, v: VersionId, token: Token, s': State)
    requires s' == DeadLetterCleanup(s, v, token).0
    ensures Quiet(s, s')
  {
    RowStepQuiet(s, s', v);
  }

  lemma RequeueCleanupQuiet(s: State, v: VersionId, limit: Option<int>, s': State)
    requires s' == RequeueCleanup(s, v, limit).0
    ensures Quiet(s, s')
  {
    RowStepQuiet(s, s', v);
  }

  lemma CleanupStepQuiet(s: State, step: Step, s': State)
    requires CleanupStep(step) && !step.DoCompleteCleanup? && !step.DoRecordCleanup? && s' == Next(s, step)
    ensures Quiet(s, s')
  {
    match step
    case DoClaimCleanup(worker, seconds, locked) => ClaimCleanupQuiet(s, worker, seconds, locked, s');
    case DoHeartbeatCleanup(v, token, seconds) => HeartbeatCleanupQuiet(s, v, token, seconds, s');
    case DoRetryCleanup(v, token, delay) => RetryCleanupQuiet(s, v, token, delay, s');
    case DoDeadLetterCleanup(v, token) => DeadLetterCleanupQuiet(s, v, token, s');
    case DoRequeueCleanup(v, limit) => RequeueCleanupQuiet(s, v, limit, s');
  }

  lemma RecordManifestQuiet(s: State, v: VersionId, fence: int, entries: seq<Entry>, vs: Option<int>, ps: Option<int>,
                            ex: Option<Token>, s': State)
    requires s' == RecordManifest(s, v, fence, entries, vs, ps, ex).0
    ensures NoneCleaned(s, s') && CurrentKept(s, s')
  {
    if s' == s { QuietReflexive(s); } else { OneRowQuiet(s, s', v); }
  }

  lemma FinishQuiet(s: State, v: VersionId)
    requires CleanupGraph(s, v)
    ensures RowsQuiet(s, Finish(s, v)) && CurrentKept(s, Finish(s, v))
  {
    OneRowQuiet(s, Finish(s, v), v);
  }

  lemma CleanupEndQuiet(s: State, step: Step)
    requires Inv(s) && (step.DoCompleteCleanup? || step.DoRecordCleanup?)
    ensures RowsQuiet(s, Next(s, step)) && CurrentKept(s, Next(s, step))
  {
    if Next(s, step) == s {
      QuietReflexive(s);
    } else {
      assert RowAt(s, step.v);
      FinishQuiet(s, step.v);
    }
  }
}
