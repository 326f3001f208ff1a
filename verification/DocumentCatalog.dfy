// The catalog as the object it is: tables that each transaction rewrites in place.
//
// Every method is proved against the transaction it implements, and keeps `Valid`.
module DocumentCatalogObject {
  import opened Prelude
  import opened CatalogState
  import opened CatalogOps
  import opened CatalogInvariant
  import opened CatalogSteps

  lemma {:induction false} ManifestKeys(entries: seq<Entry>, k: ChunkKey)
    ensures k in ManifestOf(entries) <==> exists j :: 0 <= j < |entries| && entries[j].key == k
  {
    if entries != [] {
      var n := |entries| - 1;
      ManifestKeys(entries[..n], k);
      assert forall j :: 0 <= j < n ==> entries[..n][j] == entries[j];
    }
  }

  /** One more entry fits if its level is no mistake and its key is not taken. */
  lemma WellFormedNext(entries: seq<Entry>, i: nat)
    requires i < |entries| && WellFormed(entries[..i])
    ensures WellFormed(entries[..i + 1]) <==> entries[i].meta.level >= 0 && entries[i].key !in ManifestOf(entries[..i])
    ensures ManifestOf(entries[..i + 1]) == ManifestOf(entries[..i])[entries[i].key := entries[i].meta]
  {
    ManifestKeys(entries[..i], entries[i].key);
    assert entries[..i + 1][..i] == entries[..i];
  }

  lemma WellFormedPrefix(entries: seq<Entry>, i: nat)
    requires i <= |entries| && WellFormed(entries)
    ensures WellFormed(entries[..i])
  {
  }

  /** `record_manifest`'s first loop: reject duplicates and bad levels, index the rest by (store, chunk id). */
  method NormalizeEntries(entries: seq<Entry>) returns (m: Option<Manifest>)
    ensures m == if WellFormed(entries) then Some(ManifestOf(entries)) else None
  {
    var normalized: Manifest := map[];
    for i := 0 to |entries|
      invariant WellFormed(entries[..i]) && normalized == ManifestOf(entries[..i])
    {
      WellFormedNext(entries, i);
      if entries[i].meta.level < 0 || entries[i].key in normalized {
        if WellFormed(entries) { WellFormedPrefix(entries, i + 1); }
        return None;
      }
      normalized := normalized[entries[i].key := entries[i].meta];
    }
    assert entries[..|entries|] == entries;
    return Some(normalized);
  }

  class DocumentCatalog {
    var kbs: map<KbId, KnowledgeBase>
    var docs: map<DocId, Document>
    var rows: map<VersionId, Row>
    var order: seq<VersionId>
    var clock: Time

    function Model(): State
      reads this
    {
      State(kbs, docs, rows, order, clock)
    }

    ghost predicate Valid()
      reads this
    {
      Inv(Model())
    }

    constructor ()
      ensures Model() == EMPTY && Valid()
    {
      kbs, docs, rows, order, clock := map[], map[], map[], [], 0;
    }

    // ---------- Row helpers ----------

    method EnsureCleanupJob(v: VersionId, at: Time, maxAttempts: nat)
      requires v in rows
      modifies this`rows
      ensures rows == old(rows)[v := EnsureCleanup(old(rows)[v], at, maxAttempts, clock)]
    {
      var row := rows[v];
      if row.cleanup.Some? {
        var job := row.cleanup.value;
        if (job.status.Pending? || job.status.RetryWait?) && (job.nextRetry.None? || at < job.nextRetry.value) {
          rows := rows[v := row.(cleanup := Some(job.(nextRetry := Some(at))))];
        }
        return;
      }
      var attempts := if maxAttempts < 1 then 1 else maxAttempts;
      rows := rows[v := row.(cleanup := Some(CleanupJob(CleanupStatus.Pending, 0, attempts, 0, None, None, Some(at), clock)))];
    }

    method SupersedeVersion(v: VersionId, cleanupAfter: Time, cancelJob: bool)
      requires v in rows
      modifies this`rows
      ensures rows == old(rows)[v := Supersede(old(rows)[v], clock, cleanupAfter, cancelJob)]
    {
      rows := rows[v := rows[v].(status := VersionStatus.Superseded, cleanupAfter := Some(cleanupAfter))];
      var cleanupAttempts := 3;
      if cancelJob && rows[v].job.Some? {
        var job := rows[v].job.value;
        if !Terminal(job.status) {
          rows := rows[v := rows[v].(job := Some(job.(status := Cancelled, step := "superseded", owner := None, lease := None)))];
        }
        cleanupAttempts := job.maxAttempts;
      }
      EnsureCleanupJob(v, cleanupAfter, cleanupAttempts);
    }

    /** Writes a closed job and gives up its version. */
    method AbandonVersion(v: VersionId, job: IndexJob)
      requires JobGraph(Model(), v)
      modifies this`rows, this`docs
      ensures Model() == Abandon(old(Model()), v, job)
    {
      var id := rows[v].doc;
      rows := rows[v := rows[v].(job := Some(job))];
      if docs[id].pending == Some(v) && docs[id].fence == job.fence {
        rows := rows[v := MarkFailed(rows[v], clock)];
        docs := docs[id := docs[id].(pending := None, status := if docs[id].current.Some? then DocReady else DocFailed)];
      } else if !rows[v].status.Superseded? {
        rows := rows[v := MarkFailed(rows[v], clock)];
      }
      EnsureCleanupJob(v, clock, job.maxAttempts);
    }

    method DeadLetterJob(v: VersionId) returns (r: Answer<(), Error>)
      requires JobGraph(Model(), v)
      modifies this`rows, this`docs
      ensures (Model(), r) == DeadLetterLocked(old(Model()), v)
    {
      var job := rows[v].job.value;
      if job.status.DeadLetter? { return Ok(()); }
      if Terminal(job.status) { return Err(Conflict(TerminalJob)); }
      AbandonVersion(v, job.(status := JobStatus.DeadLetter, step := "dead_letter",
                             owner := None, lease := None, nextRetry := None));
      return Ok(());
    }

    method FailJob(v: VersionId, fence: int, execution: Option<Token>) returns (r: Answer<(), Error>)
      requires JobGraph(Model(), v)
      modifies this`rows, this`docs
      ensures (Model(), r) == FailLocked(old(Model()), v, fence, execution)
    {
      var job := rows[v].job.value;
      if fence != job.fence { return Err(Conflict(StaleFence)); }
      if job.status.Failed? && execution.None? { return Ok(()); }
      if !Held(job, execution, clock) { return Err(Conflict(LeaseLost)); }
      if job.status.Completed? || job.status.Cancelled? || job.status.DeadLetter? { return Err(Conflict(TerminalJob)); }
      AbandonVersion(v, job.(status := JobStatus.Failed, step := "failed", owner := None, lease := None));
      return Ok(());
    }

    // ---------- Transactions ----------

    method AdvanceTo(now: Time)
      modifies this`clock
      ensures clock == if now > old(clock) then now else old(clock)
      ensures old(Valid()) ==> Valid()
    {
      ghost var s := Model();
      if now > clock {
        clock := now;
        if Inv(s) { TickSound(s, now); }
      }
    }

    method EnsureKnowledgeBase(kb: KbId, owner: int) returns (r: Answer<(), Error>)
      modifies this`kbs
      ensures (Model(), r) == EnsureKb(old(Model()), kb, owner)
      ensures old(Valid()) ==> Valid()
    {
      ghost var s := Model();
      if kb in kbs {
        r := if kbs[kb].owner != owner then Err(PermissionDenied) else Ok(());
      } else {
        kbs := kbs[kb := KnowledgeBase(owner, true)];
        r := Ok(());
      }
      if Inv(s) { EnsureKbSound(s, kb, owner, Model()); }
    }

    method ReserveUpload(u: Upload, newId: VersionId) returns (r: Answer<Reservation, Error>)
      modifies this`docs, this`rows, this`order
      ensures (Model(), r) == Reserve(old(Model()), u, newId)
      ensures old(Valid()) ==> Valid()
    {
      ghost var s := Model();
      r := TryReserve(u, newId);
      if Inv(s) { ReserveSound(s, u, newId, Model()); }
    }

    method TryReserve(u: Upload, newId: VersionId) returns (r: Answer<Reservation, Error>)
      modifies this`docs, this`rows, this`order
      ensures (Model(), r) == Reserve(old(Model()), u, newId)
    {
      var id := DocId(u.kb, u.name);
      if u.size < 0 || u.maxAttempts < 1 { return Err(InvalidRequest); }
      if u.kb !in kbs || u.kb.tenant != u.tenant || !kbs[u.kb].active { return Err(NotFound); }
      if id in docs && docs[id].owner != u.owner { return Err(PermissionDenied); }
      var doc := if id in docs then docs[id] else Document(u.owner, 0, 0, None, None, None, DocPending);
      if MatchesPointer(Model(), doc.current, id, u) {
        var v := doc.current.value;
        if !rows[v].status.Ready? { return Err(Conflict(CurrentNotReady)); }
        if rows[v].job.None? {
          var job := IndexJob(JobStatus.Completed, "published", 0, u.maxAttempts, doc.fence, 0, Some(v), None, None, None);
          rows := rows[v := rows[v].(job := Some(job))];
        } else if !rows[v].job.value.status.Completed? {
          return Err(Conflict(CurrentUnfinished));
        }
        return Ok(Reservation(v, false, false, true, doc.fence, Some(v)));
      }
      if MatchesPointer(Model(), doc.pending, id, u) && Reusable(rows[doc.pending.value], doc) {
        var v := doc.pending.value;
        return Ok(Reservation(v, false, false, false, doc.fence, rows[v].job.value.expected));
      }
      if Orphaned(Model(), id, doc, u) { return Err(Conflict(OrphanedActive)); }
      if ForeignTarget(Model(), id, doc.pending) { return Err(Conflict(ForeignPointer)); }
      r := InsertCandidate(u, id, doc, newId);
    }

    method InsertCandidate(u: Upload, id: DocId, document: Document, newId: VersionId) returns (r: Answer<Reservation, Error>)
      requires u.maxAttempts >= 1
      requires document.pending.Some? ==> document.pending.value in rows
      modifies this`docs, this`rows, this`order
      ensures (Model(), r) == Insert(old(Model()), u, id, document, newId)
    {
      if newId in rows { return Err(Conflict(IdCollision)); }
      var doc := document;
      var requeued := exists v :: v in rows && SameIdentity(rows[v], id, u);
      if doc.pending.Some? { SupersedeVersion(doc.pending.value, clock, true); }
      doc := doc.(counter := doc.counter + 1);
      var number := doc.counter;
      doc := doc.(fence := doc.fence + 1, pending := Some(newId), deletedAt := None,
                  status := if doc.current.Some? then DocUpdating else DocIndexing);
      docs := docs[id := doc];
      rows := rows[newId := NewRow(u, id, number, NewJob(u, doc.fence, doc.current))];
      order := order + [newId];
      return Ok(Reservation(newId, true, requeued, false, doc.fence, doc.current));
    }

    method RecordBuildManifest(v: VersionId, fence: int, entries: seq<Entry>, vectors: Option<int>, parents: Option<int>,
                               execution: Option<Token>) returns (r: Answer<(), Error>)
      modifies this`rows
      ensures (Model(), r) == RecordManifest(old(Model()), v, fence, entries, vectors, parents, execution)
      ensures old(Valid()) ==> Valid()
    {
      ghost var s := Model();
      var m := NormalizeEntries(entries);
      if m.None? || !CountsAgree(m.value, vectors, parents) { return Err(InvalidRequest); }
      if !JobGraph(Model(), v) { return Err(NotFound); }
      var fault := WriteFault(Model(), v, fence, execution);
      if fault.Some? { return Err(Conflict(fault.value)); }
      var job := rows[v].job.value.(status := JobStatus.Staged, step := "verified");
      rows := rows[v := rows[v].(manifest := m.value, status := VersionStatus.Staged,
                                 chunkCount := Count(m.value, Vector), parentCount := Count(m.value, Parent),
                                 job := Some(job))];
      if Inv(s) { RecordManifestSound(s, v, fence, entries, vectors, parents, execution, Model()); }
      return Ok(());
    }

    method PublishVersion(v: VersionId, fence: int, expected: Option<VersionId>, execution: Option<Token>)
      returns (r: Answer<Publication, Error>)
      modifies this`rows, this`docs
      ensures (Model(), r) == Publish(old(Model()), v, fence, expected, execution)
      ensures old(Valid()) ==> Valid()
    {
      ghost var s := Model();
      r := TryPublish(v, fence, expected, execution);
      if Inv(s) { PublishSound(s, v, fence, expected, execution, Model()); }
    }

    method TryPublish(v: VersionId, fence: int, expected: Option<VersionId>, execution: Option<Token>)
      returns (r: Answer<Publication, Error>)
      modifies this`rows, this`docs
      ensures (Model(), r) == Publish(old(Model()), v, fence, expected, execution)
    {
      if !JobGraph(Model(), v) { return Err(NotFound); }
      if AlreadyPublished(Model(), v) { return Ok(Publication(None, false)); }
      var fault := WriteFault(Model(), v, fence, execution);
      if fault.Some? { return Err(Conflict(fault.value)); }
      var row := rows[v];
      if row.job.value.expected != expected { return Err(Conflict(UnexpectedCurrent)); }
      if !row.status.Staged? { return Err(Conflict(NotStaged)); }
      var vectors := Count(row.manifest, Vector);
      if vectors < 1 || vectors != row.chunkCount || Count(row.manifest, Parent) != row.parentCount {
        return Err(Conflict(ManifestMismatch));
      }
      if docs[row.doc].current != expected { return Err(Conflict(CasConflict)); }
      if ForeignTarget(Model(), row.doc, expected) { return Err(Conflict(ForeignPointer)); }
      SwitchTo(v, expected);
      return Ok(Publication(expected, true));
    }

    method SwitchTo(v: VersionId, expected: Option<VersionId>)
      requires JobGraph(Model(), v) && (expected.Some? ==> expected.value in rows)
      modifies this`rows, this`docs
      ensures Model() == SwitchCurrent(old(Model()), v, expected)
    {
      var row := rows[v];
      docs := docs[row.doc := docs[row.doc].(current := Some(v), pending := None, status := DocReady)];
      if expected.Some? && expected.value != v {
        SupersedeVersion(expected.value, clock + CLEANUP_GRACE, false);
      }
      CompleteVersion(v, row);
    }

    method CompleteVersion(v: VersionId, row: Row)
      requires row.job.Some?
      modifies this`rows
      ensures rows == old(rows)[v := PublishRow(row, clock)]
    {
      var job := row.job.value.(status := JobStatus.Completed, step := "published",
                                owner := None, lease := None, nextRetry := None);
      rows := rows[v := row.(status := Ready, publishedAt := Some(clock), cleanupAfter := None, cleanedAt := None,
                             job := Some(job))];
    }

    method FailVersion(v: VersionId, fence: int, execution: Option<Token>) returns (r: Answer<(), Error>)
      modifies this`rows, this`docs
      ensures (Model(), r) == Fail(old(Model()), v, fence, execution)
      ensures old(Valid()) ==> Valid()
    {
      ghost var s := Model();
      if !JobGraph(Model(), v) { return Err(NotFound); }
      r := FailJob(v, fence, execution);
      if Inv(s) { FailStepSound(s, v, fence, execution, Model()); }
    }

    method UpdateIndexJob(v: VersionId, fence: int, status: Option<JobStatus>, step: Option<string>,
                          execution: Option<Token>) returns (r: Answer<(), Error>)
      modifies this`rows, this`docs
      ensures (Model(), r) == UpdateJob(old(Model()), v, fence, status, step, execution)
      ensures old(Valid()) ==> Valid()
    {
      ghost var s := Model();
      r := TryUpdate(v, fence, status, step, execution);
      if Inv(s) { UpdateJobSound(s, v, fence, status, step, execution, Model()); }
    }

    method TryUpdate(v: VersionId, fence: int, status: Option<JobStatus>, step: Option<string>, execution: Option<Token>)
      returns (r: Answer<(), Error>)
      modifies this`rows, this`docs
      ensures (Model(), r) == UpdateJob(old(Model()), v, fence, status, step, execution)
    {
      if !JobGraph(Model(), v) { return Err(NotFound); }
      var job := rows[v].job.value;
      var id := rows[v].doc;
      if fence != job.fence { return Err(Conflict(StaleFence)); }
      if !Held(job, execution, clock) { return Err(Conflict(LeaseLost)); }
      var target := if status.Some? then status.value else job.status;
      if !MayMove(job.status, target) { return Err(Conflict(BadTransition)); }
      if target.Failed? {
        r := FailJob(v, fence, execution);
        return;
      }
      if target.Completed? && !(docs[id].current == Some(v) && rows[v].status.Ready?) { return Err(Conflict(NotPublished)); }
      if target.Staged? && !rows[v].status.Staged? { return Err(Conflict(MissingManifest)); }
      if !target.Completed? {
        var fault := CandidateFault(Model(), v, fence);
        if fault.Some? { return Err(Conflict(fault.value)); }
      }
      MoveTo(v, target, step);
      return Ok(());
    }

    method GiveUpVersion(v: VersionId, cancelled: bool, maxAttempts: nat)
      requires v in rows
      modifies this`rows
      ensures rows == old(rows)[v := if cancelled then Supersede(old(rows)[v], clock, clock, false)
                                     else EnsureCleanup(MarkFailed(old(rows)[v], clock), clock, maxAttempts, clock)]
    {
      if cancelled {
        SupersedeVersion(v, clock, false);
      } else {
        rows := rows[v := MarkFailed(rows[v], clock)];
        EnsureCleanupJob(v, clock, maxAttempts);
      }
    }

    method MoveVersion(v: VersionId, target: JobStatus, step: Option<string>)
      requires v in rows && rows[v].job.Some?
      modifies this`rows
      ensures rows == old(rows)[v := MoveRow(old(rows)[v], target, step, clock)]
    {
      var job := rows[v].job.value.(status := target);
      if step.Some? { job := job.(step := step.value); }
      if target.Running? {
        rows := rows[v := rows[v].(status := if ParseStep(job.step) then Parsing else VersionStatus.Indexing)];
      } else if target.Cancelled? || target.DeadLetter? {
        GiveUpVersion(v, target.Cancelled?, job.maxAttempts);
        job := job.(owner := None, lease := None);
      }
      rows := rows[v := rows[v].(job := Some(job))];
    }

    method MoveTo(v: VersionId, target: JobStatus, step: Option<string>)
      requires JobGraph(Model(), v)
      modifies this`rows, this`docs
      ensures Model() == MoveJob(old(Model()), v, target, step)
    {
      var id := rows[v].doc;
      MoveVersion(v, target, step);
      if target.Cancelled? || target.DeadLetter? {
        docs := docs[id := docs[id].(pending := None, status := if docs[id].current.Some? then DocReady else DocFailed)];
      }
    }

    /** Takes over the most urgent claimable job, closing the unclaimable ones it meets on the way. */
    method ClaimIndexJob(c: Claim) returns (r: Answer<Option<VersionId>, Error>)
      modifies this`rows, this`docs
      ensures (Model(), r) == ClaimIndex(old(Model()), c)
      ensures old(Valid()) ==> Valid()
    {
      ghost var s := Model();
      if c.seconds < 1 { return Err(InvalidRequest); }
      var owned := FirstOwned(Model(), order, c);
      if owned.Some? {
        RenewLease(owned.value, c.seconds);
        r := Ok(owned);
      } else {
        r := ClaimReady(c);
      }
      if Inv(s) { ClaimIndexSound(s, c, Model()); }
    }

    method ClaimReady(c: Claim) returns (r: Answer<Option<VersionId>, Error>)
      modifies this`rows, this`docs
      ensures (Model(), r) == ClaimLoop(old(Model()), c)
    {
      while true
        invariant ClaimLoop(Model(), c) == ClaimLoop(old(Model()), c)
        decreases OpenJobs(Model())
      {
        var pick := PickIndex(Model(), order, c);
        if pick.None? { return Ok(None); }
        var v := pick.value;
        assert v in OpenJobs(Model());
        if !OwnsCandidate(Model(), v) {
          CancelFrame(Model(), v);
          CancelJob(v);
        } else if Exhausted(rows[v].job.value) {
          DeadLetterFrame(Model(), v);
          var _ := DeadLetterJob(v);
        } else {
          LeaseTo(v, c);
          return Ok(Some(v));
        }
      }
    }

    /** Closes a claimable job whose version is not the candidate of its document. */
    method CancelJob(v: VersionId)
      requires JobGraph(Model(), v)
      modifies this`rows
      ensures Model() == CancelUnowned(old(Model()), v)
    {
      var job := rows[v].job.value;
      rows := rows[v := rows[v].(job := Some(job.(status := Cancelled, step := "superseded", owner := None, lease := None)))];
      if docs[rows[v].doc].current != Some(v) && Active(rows[v].status) {
        SupersedeVersion(v, clock, false);
      }
    }

    method LeaseTo(v: VersionId, c: Claim)
      requires JobGraph(Model(), v)
      modifies this`rows
      ensures Model() == Lease(old(Model()), v, c)
    {
      var job := rows[v].job.value;
      var status := rows[v].status;
      var preserveStaged := job.status.Staged?;
      job := job.(status := if preserveStaged then JobStatus.Staged else JobStatus.Running, owner := Some(c.worker),
                  execFence := job.execFence + 1, attempts := job.attempts + 1,
                  lease := Some(clock + c.seconds), nextRetry := None);
      if !preserveStaged {
        status := if EarlyStep(job.step) then Parsing else VersionStatus.Indexing;
      }
      rows := rows[v := rows[v].(status := status, job := Some(job))];
    }

    method RenewLease(v: VersionId, seconds: int)
      requires JobGraph(Model(), v)
      modifies this`rows
      ensures Model() == Renew(old(Model()), v, seconds)
    {
      var job := rows[v].job.value;
      rows := rows[v := rows[v].(job := Some(job.(lease := Some(clock + seconds))))];
    }

    method HeartbeatIndexJob(v: VersionId, token: Token, seconds: int) returns (r: Answer<(), Error>)
      modifies this`rows
      ensures (Model(), r) == HeartbeatIndex(old(Model()), v, token, seconds)
      ensures old(Valid()) ==> Valid()
    {
      ghost var s := Model();
      if seconds < 1 { return Err(InvalidRequest); }
      if !JobGraph(Model(), v) { return Err(NotFound); }
      var fault := WriteFault(Model(), v, rows[v].job.value.fence, Some(token));
      if fault.Some? { return Err(Conflict(fault.value)); }
      RenewLease(v, seconds);
      if Inv(s) { HeartbeatIndexSound(s, v, token, seconds, Model()); }
      return Ok(());
    }

    method ScheduleIndexRetry(v: VersionId, token: Token, delay: int) returns (r: Answer<(), Error>)
      modifies this`rows, this`docs
      ensures (Model(), r) == RetryIndex(old(Model()), v, token, delay)
      ensures old(Valid()) ==> Valid()
    {
      ghost var s := Model();
      if delay < 0 { return Err(InvalidRequest); }
      if !JobGraph(Model(), v) { return Err(NotFound); }
      var job := rows[v].job.value;
      var fault := WriteFault(Model(), v, job.fence, Some(token));
      if fault.Some? { return Err(Conflict(fault.value)); }
      if job.attempts >= job.maxAttempts {
        r := DeadLetterJob(v);
      } else {
        var staged := job.status.Staged?;
        job := job.(status := if staged then JobStatus.Staged else JobStatus.RetryWait,
                    step := if staged then "publish" else job.step,
                    nextRetry := Some(clock + delay), owner := None, lease := None);
        rows := rows[v := rows[v].(job := Some(job))];
        r := Ok(());
      }
      if Inv(s) { RetryIndexSound(s, v, token, delay, Model()); }
    }

    method DeadLetterIndexJob(v: VersionId, token: Token) returns (r: Answer<(), Error>)
      modifies this`rows, this`docs
      ensures (Model(), r) == DeadLetterIndex(old(Model()), v, token)
      ensures old(Valid()) ==> Valid()
    {
      ghost var s := Model();
      if !JobGraph(Model(), v) { return Err(NotFound); }
      if !Live(rows[v].job.value, token, clock) { return Err(Conflict(LeaseLost)); }
      r := DeadLetterJob(v);
      if Inv(s) { DeadLetterIndexSound(s, v, token, Model()); }
    }

    method RetireDocument(tenant: string, name: string, kb: Option<KbId>) returns (r: Answer<Retirement, Error>)
      modifies this`rows, this`docs
      ensures (Model(), r) == Retire(old(Model()), tenant, name, kb)
      ensures old(Valid()) ==> Valid()
    {
      ghost var s := Model();
      var ids := Named(Model(), tenant, name, kb);
      if |ids| > 1 {
        r := Err(Conflict(AmbiguousName));
      } else if ids == {} {
        r := Ok(Retirement(false, false, {}));
      } else {
        var id :| id in ids;
        OnlyMember(ids, id);
        r := RetireFound(id);
      }
      if Inv(s) { RetireSound(s, tenant, name, kb, Model()); }
    }

    method RetireFound(id: DocId) returns (r: Answer<Retirement, Error>)
      requires id in docs
      modifies this`rows, this`docs
      ensures (Model(), r) == RetireDoc(old(Model()), id)
    {
      var doc := docs[id];
      if ForeignTarget(Model(), id, doc.current) || ForeignTarget(Model(), id, doc.pending) {
        return Err(Conflict(ForeignPointer));
      }
      if doc.deletedAt.Some? {
        var versions := set v | v in rows && Uncleaned(rows[v], id);
        HastenCleanup(id, versions);
        return Ok(Retirement(true, true, versions));
      }
      if id.kb !in kbs || !kbs[id.kb].active { return Err(NotFound); }
      if doc.current.Some? { SupersedeVersion(doc.current.value, clock, false); }
      if doc.pending.Some? && doc.pending != doc.current { SupersedeVersion(doc.pending.value, clock, true); }
      docs := docs[id := doc.(current := None, pending := None, fence := doc.fence + 1,
                              status := DocDeleted, deletedAt := Some(clock))];
      return Ok(Retirement(true, false, HeldBy(doc)));
    }

    method HastenVersion(v: VersionId)
      requires v in rows
      modifies this`rows
      ensures rows == old(rows)[v := Hasten(old(rows)[v], clock)]
    {
      var row := rows[v];
      if row.cleanup.None? {
        EnsureCleanupJob(v, clock, 3);
        rows := rows[v := rows[v].(cleanupAfter := Earlier(row.cleanupAfter, clock))];
      } else if row.cleanup.value.status.Pending? {
        var job := row.cleanup.value;
        rows := rows[v := row.(cleanup := Some(job.(nextRetry := Earlier(job.nextRetry, clock))),
                               cleanupAfter := Earlier(row.cleanupAfter, clock))];
      }
    }

    /** Brings forward the cleanup of every version of a deleted document that still waits for it. */
    method HastenCleanup(id: DocId, versions: set<VersionId>)
      requires versions == set v | v in rows && Uncleaned(rows[v], id)
      modifies this`rows
      ensures Model() == HastenAll(old(Model()), id)
    {
      var todo := versions;
      while todo != {}
        invariant todo <= versions && rows.Keys == old(rows).Keys
        invariant forall v :: v in rows ==>
                                rows[v] == if v in versions - todo then Hasten(old(rows)[v], clock) else old(rows)[v]
      {
        var v :| v in todo;
        HastenVersion(v);
        todo := todo - {v};
      }
    }

    // ---------- Cleanup jobs ----------

    method ClaimCleanupJob(worker: Worker, seconds: int, locked: set<VersionId>)
      returns (r: Answer<Option<VersionId>, Error>)
      modifies this`rows
      ensures (Model(), r) == ClaimCleanup(old(Model()), worker, seconds, locked)
      ensures old(Valid()) ==> Valid()
    {
      ghost var s := Model();
      if seconds < 1 { return Err(InvalidRequest); }
      var owned := FirstOwnedCleanup(Model(), order, worker, locked);
      if owned.Some? {
        var v := owned.value;
        rows := rows[v := rows[v].(cleanup := Some(rows[v].cleanup.value.(lease := Some(clock + seconds))))];
        r := Ok(owned);
      } else {
        r := ClaimReadyCleanup(worker, seconds, locked);
      }
      if Inv(s) { ClaimCleanupSound(s, worker, seconds, locked, Model()); }
    }

    method ClaimReadyCleanup(worker: Worker, seconds: int, locked: set<VersionId>)
      returns (r: Answer<Option<VersionId>, Error>)
      modifies this`rows
      ensures (Model(), r) == CleanupClaimLoop(old(Model()), worker, seconds, locked)
    {
      while true
        invariant CleanupClaimLoop(Model(), worker, seconds, locked) == CleanupClaimLoop(old(Model()), worker, seconds, locked)
        decreases OpenCleanups(Model())
      {
        var pick := PickCleanup(Model(), order, locked);
        if pick.None? { return Ok(None); }
        var v := pick.value;
        var job := rows[v].cleanup.value;
        assert v in OpenCleanups(Model());
        if !SafeScope(Model(), v) || job.attempts >= job.maxAttempts {
          BuryFrame(Model(), v);
          BuryCleanup(v);
        } else {
          LeaseCleanupTo(v, worker, seconds);
          return Ok(Some(v));
        }
      }
    }

    method BuryCleanup(v: VersionId)
      requires CleanupGraph(Model(), v)
      modifies this`rows
      ensures Model() == SetCleanup(old(Model()), v, Bury(old(rows)[v].cleanup.value))
    {
      var job := rows[v].cleanup.value;
      job := job.(status := CleanupStatus.DeadLetter, owner := None, lease := None, nextRetry := None);
      rows := rows[v := rows[v].(cleanup := Some(job))];
    }

    method LeaseCleanupTo(v: VersionId, worker: Worker, seconds: int)
      requires CleanupGraph(Model(), v)
      modifies this`rows
      ensures Model() == LeaseCleanup(old(Model()), v, worker, seconds)
    {
      var job := rows[v].cleanup.value;
      job := job.(status := CleanupStatus.Running, owner := Some(worker), execFence := job.execFence + 1,
                  attempts := job.attempts + 1, lease := Some(clock + seconds), nextRetry := None);
      rows := rows[v := rows[v].(cleanup := Some(job))];
    }

    method HeartbeatCleanupJob(v: VersionId, token: Token, seconds: int) returns (r: Answer<(), Error>)
      modifies this`rows
      ensures (Model(), r) == HeartbeatCleanup(old(Model()), v, token, seconds)
      ensures old(Valid()) ==> Valid()
    {
      ghost var s := Model();
      if seconds < 1 { return Err(InvalidRequest); }
      if !CleanupGraph(Model(), v) { return Err(NotFound); }
      var job := rows[v].cleanup.value;
      if !CleanupLive(job, token, clock) { return Err(Conflict(CleanupLeaseLost)); }
      rows := rows[v := rows[v].(cleanup := Some(job.(lease := Some(clock + seconds))))];
      if Inv(s) { HeartbeatCleanupSound(s, v, token, seconds, Model()); }
      return Ok(());
    }

    method ScheduleCleanupRetry(v: VersionId, token: Token, delay: int) returns (r: Answer<(), Error>)
      modifies this`rows
      ensures (Model(), r) == RetryCleanup(old(Model()), v, token, delay)
      ensures old(Valid()) ==> Valid()
    {
      ghost var s := Model();
      if delay < 0 { return Err(InvalidRequest); }
      if !CleanupGraph(Model(), v) { return Err(NotFound); }
      var job := rows[v].cleanup.value;
      if !CleanupLive(job, token, clock) { return Err(Conflict(CleanupLeaseLost)); }
      if job.attempts >= job.maxAttempts {
        job := job.(status := CleanupStatus.DeadLetter, nextRetry := None);
      } else {
        job := job.(status := CleanupStatus.RetryWait, nextRetry := Some(clock + delay));
      }
      rows := rows[v := rows[v].(cleanup := Some(job.(owner := None, lease := None)))];
      if Inv(s) { RetryCleanupSound(s, v, token, delay, Model()); }
      return Ok(());
    }

    method DeadLetterCleanupJob(v: VersionId, token: Token) returns (r: Answer<(), Error>)
      modifies this`rows
      ensures (Model(), r) == DeadLetterCleanup(old(Model()), v, token)
      ensures old(Valid()) ==> Valid()
    {
      ghost var s := Model();
      if !CleanupGraph(Model(), v) { return Err(NotFound); }
      if !CleanupLive(rows[v].cleanup.value, token, clock) { return Err(Conflict(CleanupLeaseLost)); }
      BuryCleanup(v);
      if Inv(s) { DeadLetterCleanupSound(s, v, token, Model()); }
      return Ok(());
    }

    method CompleteCleanupJob(v: VersionId, token: Token) returns (r: Answer<(), Error>)
      modifies this`rows
      ensures (Model(), r) == CompleteCleanup(old(Model()), v, token)
      ensures old(Valid()) ==> Valid()
    {
      ghost var s := Model();
      if !CleanupGraph(Model(), v) { return Err(NotFound); }
      if !CleanupLive(rows[v].cleanup.value, token, clock) { return Err(Conflict(CleanupLeaseLost)); }
      if !SafeScope(Model(), v) { return Err(Conflict(ActiveScope)); }
      MarkCleaned(v);
      if Inv(s) { CompleteCleanupSound(s, v, token, Model()); }
      return Ok(());
    }

    method MarkCleaned(v: VersionId)
      requires v in rows
      modifies this`rows
      ensures Model() == Finish(old(Model()), v)
    {
      var row := rows[v].(cleanedAt := Some(clock));
      if row.cleanup.Some? {
        var job := row.cleanup.value.(status := CleanupStatus.Completed, owner := None, lease := None, nextRetry := None);
        row := row.(cleanup := Some(job));
      }
      rows := rows[v := row];
    }

    method RequeueCleanupJob(v: VersionId, maxAttempts: Option<int>) returns (r: Answer<(), Error>)
      modifies this`rows
      ensures (Model(), r) == RequeueCleanup(old(Model()), v, maxAttempts)
      ensures old(Valid()) ==> Valid()
    {
      ghost var s := Model();
      if maxAttempts.Some? && maxAttempts.value < 1 { return Err(InvalidRequest); }
      if !CleanupGraph(Model(), v) { return Err(NotFound); }
      var job := rows[v].cleanup.value;
      if !job.status.DeadLetter? { return Err(Conflict(NotDeadLetter)); }
      if !SafeScope(Model(), v) || rows[v].cleanedAt.Some? { return Err(Conflict(ActiveScope)); }
      job := job.(status := CleanupStatus.Pending, attempts := 0, owner := None, lease := None, nextRetry := Some(clock));
      if maxAttempts.Some? { job := job.(maxAttempts := maxAttempts.value); }
      rows := rows[v := rows[v].(cleanup := Some(job))];
      if Inv(s) { RequeueCleanupSound(s, v, maxAttempts, Model()); }
      return Ok(());
    }

    method RecordCleanupResult(v: VersionId, failed: bool) returns (r: Answer<(), Error>)
      modifies this`rows
      ensures (Model(), r) == RecordCleanup(old(Model()), v, failed)
      ensures old(Valid()) ==> Valid()
    {
      ghost var s := Model();
      if v !in rows || rows[v].doc !in docs || rows[v].doc.kb !in kbs { return Err(NotFound); }
      var row := rows[v];
      var doc := docs[row.doc];
      if Active(row.status) || doc.current == Some(v) || doc.pending == Some(v) { return Err(Conflict(ActiveScope)); }
      if row.cleanup.Some? {
        match row.cleanup.value.status {
          case Running => return Err(Conflict(CleanupClaimed));
          case DeadLetter => return Err(Conflict(CleanupDead));
          case Completed => return if row.cleanedAt.None? then Err(Conflict(CleanupInconsistent)) else Ok(());
          case _ =>
        }
      }
      if !failed { MarkCleaned(v); }
      if Inv(s) { RecordCleanupSound(s, v, failed, Model()); }
      return Ok(());
    }
  }

  lemma OnlyMember<T>(xs: set<T>, x: T)
    requires x in xs && |xs| <= 1
    ensures xs == {x}
  {
    assert |xs - {x}| == 0;
  }
}
