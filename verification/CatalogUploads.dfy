// When an upload or a retirement is accepted, and all it leaves.
//
// As for the writes to a job, everything is stated on the columns of the rows.
module CatalogUploads {
  import opened Prelude
  import opened CatalogState
  import opened CatalogOps
  import opened CatalogInvariant
  import opened CatalogSteps
  import opened CatalogRuns
  import opened CatalogWrites

  // ---------- Knowledge bases ----------

  /** A knowledge base belongs to whoever asked for it first, is active, and is given to nobody else. */
  lemma EnsureKbExact(s: State, kb: KbId, owner: int)
    ensures var (s', a) := EnsureKb(s, kb, owner);
            && (a.Ok? <==> (kb in s.kbs ==> s.kbs[kb].owner == owner)) && (a.Err? ==> a == Err(PermissionDenied))
            && s' == if kb in s.kbs then s else s.(kbs := s.kbs[kb := KnowledgeBase(owner, true)])
  {
  }

  // ---------- Uploads ----------

  /** An earlier version of the document with the upload's content and build. */
  ghost predicate Twin(s: State, u: Upload, v: VersionId) {
    && v in s.rows && s.rows[v].doc == DocId(u.kb, u.name)
    && s.rows[v].content == u.content && s.rows[v].build == u.build
  }

  ghost predicate ActiveTwin(s: State, u: Upload, v: VersionId) {
    Twin(s, u, v) && !s.rows[v].status.Failed? && !s.rows[v].status.Superseded?
  }

  ghost predicate WellPut(u: Upload) { u.size >= 0 && u.maxAttempts >= 1 }

  ghost predicate Hosted(s: State, u: Upload) { u.kb in s.kbs && u.kb.tenant == u.tenant && s.kbs[u.kb].active }

  ghost predicate Permitted(s: State, u: Upload) {
    DocId(u.kb, u.name) in s.docs ==> s.docs[DocId(u.kb, u.name)].owner == u.owner
  }

  /** An upload is accepted exactly when it is well put, for an active knowledge base of its tenant, by the owner of the
      document, and its version exists already or gets an unused id; each error has its own cause. */
  lemma ReserveAnswers(s: State, u: Upload, newId: VersionId)
    requires Inv(s)
    ensures var a := Reserve(s, u, newId).1;
            && (a == Err(InvalidRequest) <==> !WellPut(u))
            && (a == Err(NotFound) <==> WellPut(u) && !Hosted(s, u))
            && (a == Err(PermissionDenied) <==> WellPut(u) && Hosted(s, u) && !Permitted(s, u))
            && (a.Ok? <==> && WellPut(u) && Hosted(s, u) && Permitted(s, u)
                           && (newId in s.rows ==> exists v :: ActiveTwin(s, u, v)))
            && (a.Err? && a.error.Conflict? ==> a.error.reason.IdCollision?)
  {
    if WellPut(u) && Hosted(s, u) && Permitted(s, u) {
      if v :| ActiveTwin(s, u, v) { ReserveReuses(s, u, newId, v); } else { ReserveInserts(s, u, newId); }
    }
  }

  /** An upload whose version is active already returns that version and changes nothing. */
  lemma ReserveReuses(s: State, u: Upload, newId: VersionId, v: VersionId)
    requires Inv(s) && WellPut(u) && Hosted(s, u) && Permitted(s, u) && ActiveTwin(s, u, v)
    ensures var d := DocFor(s, u);
            Reserve(s, u, newId) == (s, Ok(Reservation(v, false, false, d.current == Some(v), d.fence, d.current)))
  {
    var id := DocId(u.kb, u.name);
    LocalOk(s, v);
    var d := s.docs[id];
    if d.current.Some? { LocalOk(s, d.current.value); }
  }

  /** Without an active twin the upload comes to inserting its version. */
  lemma ReserveInserts(s: State, u: Upload, newId: VersionId)
    requires Inv(s) && WellPut(u) && Hosted(s, u) && Permitted(s, u) && forall v :: !ActiveTwin(s, u, v)
    ensures var d := DocFor(s, u);
            && (d.pending.Some? ==> d.pending.value in s.rows)
            && Reserve(s, u, newId) == Insert(s, u, DocId(u.kb, u.name), d, newId)
  {
    var id := DocId(u.kb, u.name);
    if id in s.docs {
      var d := s.docs[id];
      assert DocOk(s, id);
      if d.current.Some? {
        LocalOk(s, d.current.value);
        assert !ActiveTwin(s, u, d.current.value);
      }
      if d.pending.Some? {
        LocalOk(s, d.pending.value);
        assert !ActiveTwin(s, u, d.pending.value);
      }
    }
    assert !Orphaned(s, id, DocFor(s, u), u) by {
      forall v | v in s.rows && SameIdentity(s.rows[v], id, u) ensures !Active(s.rows[v].status) {
        assert !ActiveTwin(s, u, v);
      }
    }
  }

  /** The row of a new upload: nobody's pending job, nothing built yet. */
  ghost function Fresh(u: Upload, d: Document): Row
    requires u.maxAttempts >= 1
  {
    Row(DocId(u.kb, u.name), d.counter + 1, u.content, u.build, u.collection, Uploaded, 0, 0, None, None, None,
        Some(IndexJob(JobStatus.Pending, "upload", 0, u.maxAttempts, d.fence + 1, 0, d.current, None, None, None)),
        None, map[])
  }

  /** A candidate given up: its job is cancelled and its cleanup due at once. */
  ghost function Cancelling(row: Row, now: Time): Row
    requires row.job.Some?
  {
    GivenUp(row, VersionStatus.Superseded, now, now, row.job.value.maxAttempts).(
      job := Some(Ended(row.job.value, Cancelled, "superseded")))
  }

  /** The catalog with the new version as its document's candidate in place of the one before. */
  ghost predicate Adds(s: State, s': State, u: Upload, newId: VersionId)
    requires u.maxAttempts >= 1
  {
    var id, d := DocId(u.kb, u.name), DocFor(s, u);
    && newId !in s.rows
    && s' == State(s.kbs, s.docs[id := Document(u.owner, d.fence + 1, d.counter + 1, d.current, Some(newId), None,
                                                if d.current.Some? then DocUpdating else DocIndexing)],
                   s'.rows, s.order + [newId], s.clock)
    && s'.rows.Keys == s.rows.Keys + {newId} && s'.rows[newId] == Fresh(u, d)
    && forall v :: v in s.rows ==>
         if d.pending == Some(v) then s.rows[v].job.Some? && s'.rows[v] == Cancelling(s.rows[v], s.clock)
         else s'.rows[v] == s.rows[v]
  }

  /** Any other accepted upload adds exactly one version, its document's new candidate. */
  lemma ReserveCreates(s: State, u: Upload, newId: VersionId)
    requires Inv(s) && Reserve(s, u, newId).1.Ok? && forall v :: !ActiveTwin(s, u, v)
    ensures u.maxAttempts >= 1
    ensures var (s', a) := Reserve(s, u, newId);
            var d := DocFor(s, u);
            && a == Ok(Reservation(newId, true, exists v :: Twin(s, u, v), false, d.fence + 1, d.current))
            && Adds(s, s', u, newId)
  {
    ReserveAnswers(s, u, newId);
    ReserveInserts(s, u, newId);
    var p := DocFor(s, u).pending;
    if p.Some? {
      assert DocOk(s, DocId(u.kb, u.name));
      LocalOk(s, p.value);
    }
    InsertAnswers(s, u, newId);
    InsertAdds(s, u, newId);
  }

  lemma InsertAnswers(s: State, u: Upload, newId: VersionId)
    requires u.maxAttempts >= 1 && newId !in s.rows
    requires var p := DocFor(s, u).pending; p.Some? ==> p.value in s.rows
    ensures var d := DocFor(s, u);
            Insert(s, u, DocId(u.kb, u.name), d, newId).1 ==
              Ok(Reservation(newId, true, exists v :: Twin(s, u, v), false, d.fence + 1, d.current))
  {
    var id := DocId(u.kb, u.name);
    assert (exists v :: v in s.rows && SameIdentity(s.rows[v], id, u)) <==> exists v :: Twin(s, u, v) by {
      if v :| Twin(s, u, v) { assert SameIdentity(s.rows[v], id, u); }
      if v :| v in s.rows && SameIdentity(s.rows[v], id, u) { assert Twin(s, u, v); }
    }
  }

  lemma CandidateCancelled(rows: map<VersionId, Row>, p: Option<VersionId>, now: Time)
    requires p.Some? ==> p.value in rows
    requires p.Some? ==> var row := rows[p.value];
                         row.cleanup.None? && row.job.Some? && JobOk(row.job.value) && Open(row.job.value)
    ensures p.Some? ==> SupersedeHeld(rows, p, now, now, true)[p.value] == Cancelling(rows[p.value], now)
  {
    if p.Some? { SupersedeGivesUp(rows[p.value], now, true); }
  }

  lemma CancelledAdds(s: State, u: Upload, newId: VersionId)
    requires u.maxAttempts >= 1 && Permitted(s, u) && newId !in s.rows
    requires var p := DocFor(s, u).pending;
             p.Some? ==> && p.value in s.rows && s.rows[p.value].job.Some?
                         && SupersedeHeld(s.rows, p, s.clock, s.clock, true)[p.value] == Cancelling(s.rows[p.value], s.clock)
    ensures Adds(s, Inserted(s, u, newId), u, newId)
  {
  }

  lemma InsertAdds(s: State, u: Upload, newId: VersionId)
    requires u.maxAttempts >= 1 && Permitted(s, u) && newId !in s.rows
    requires var p := DocFor(s, u).pending; p.Some? ==> Local(s, p.value) && Building(s.rows[p.value].status)
    ensures Adds(s, Inserted(s, u, newId), u, newId)
  {
    CandidateCancelled(s.rows, DocFor(s, u).pending, s.clock);
    CancelledAdds(s, u, newId);
  }

  /** Repeating an accepted upload changes nothing and returns the same version. */
  lemma ReserveTwice(s: State, u: Upload, newId: VersionId, otherId: VersionId)
    requires Reachable(s) && Reserve(s, u, newId).1.Ok?
    ensures var (s', a) := Reserve(s, u, newId);
            var (s'', b) := Reserve(s', u, otherId);
            s'' == s' && b.Ok? && b.value.version == a.value.version && !b.value.created
  {
    ReachableInv(s);
    var (s', a) := Reserve(s, u, newId);
    ReserveAnswers(s, u, newId);
    if v :| ActiveTwin(s, u, v) {
      ReserveReuses(s, u, newId, v);
      ReserveReuses(s, u, otherId, v);
    } else {
      ReserveCreates(s, u, newId);
      ReserveSound(s, u, newId, s');
      assert ActiveTwin(s', u, newId);
      ReserveReuses(s', u, otherId, newId);
    }
  }

  // ---------- Retirement ----------

  /** The documents a retirement may mean. */
  ghost function Meant(s: State, tenant: string, name: string, kb: Option<KbId>): set<DocId> {
    set id | id in s.docs && id.kb.tenant == tenant && id.name == name && (kb == None || kb == Some(id.kb))
  }

  /** The catalog with the document deleted: what its pointers held is superseded and due for cleanup at once. */
  ghost predicate Deletes(s: State, s': State, id: DocId)
    requires id in s.docs
  {
    var d := s.docs[id];
    && s' == s.(rows := s'.rows,
                docs := s.docs[id := Document(d.owner, d.fence + 1, d.counter, None, None, Some(s.clock), DocDeleted)])
    && s'.rows.Keys == s.rows.Keys && forall v :: v in s.rows ==> DeletesAt(s, s', id, v)
  }

  ghost predicate DeletesAt(s: State, s': State, id: DocId, v: VersionId)
    requires id in s.docs && v in s.rows && v in s'.rows
  {
    if s.docs[id].current == Some(v) then s'.rows[v] == GivenUp(s.rows[v], VersionStatus.Superseded, s.clock, s.clock, 3)
    else if s.docs[id].pending == Some(v) then s.rows[v].job.Some? && s'.rows[v] == Cancelling(s.rows[v], s.clock)
    else s'.rows[v] == s.rows[v]
  }

  ghost predicate Unclean(s: State, v: VersionId, id: DocId) {
    && v in s.rows && s.rows[v].doc == id && s.rows[v].cleanedAt.None?
    && (s.rows[v].status.Failed? || s.rows[v].status.Superseded?)
  }

  ghost function NoLater(t: Option<Time>, now: Time): Option<Time> {
    if t.Some? && t.value <= now then t else Some(now)
  }

  /** The catalog with every cleanup of the document that still waits for its first attempt due at once. */
  ghost predicate Hastens(s: State, s': State, id: DocId) {
    && s' == s.(rows := s'.rows) && s'.rows.Keys == s.rows.Keys
    && forall v :: v in s.rows ==> HastensAt(s, s', id, v)
  }

  ghost predicate HastensAt(s: State, s': State, id: DocId, v: VersionId)
    requires v in s.rows && v in s'.rows
  {
    var row := s.rows[v];
    if Unclean(s, v, id) && row.cleanup.Some? && row.cleanup.value.status.Pending? then
      s'.rows[v] == row.(cleanupAfter := NoLater(row.cleanupAfter, s.clock),
                         cleanup := Some(row.cleanup.value.(nextRetry := NoLater(row.cleanup.value.nextRetry, s.clock))))
    else s'.rows[v] == row
  }

  /** A name that means no document is not found, one that means several is refused. The first retirement of the one
      document meant deletes it, unless its knowledge base is inactive; a further one only hastens its cleanups. */
  lemma RetireExact(s: State, tenant: string, name: string, kb: Option<KbId>)
    requires Inv(s)
    ensures var ids := Meant(s, tenant, name, kb);
            var (s', a) := Retire(s, tenant, name, kb);
            && (ids == {} ==> (s', a) == (s, Ok(Retirement(false, false, {}))))
            && (|ids| > 1 ==> (s', a) == (s, Err(Conflict(AmbiguousName))))
            && forall id :: ids == {id} ==> RetireOne(s, id, s', a)
  {
    var ids := Meant(s, tenant, name, kb);
    assert ids == Named(s, tenant, name, kb);
    forall id | ids == {id} ensures RetireOne(s, id, Retire(s, tenant, name, kb).0, Retire(s, tenant, name, kb).1) {
      assert id in ids;
      assert |ids| == 1;
      RetireDocExact(s, id);
      assert Retire(s, tenant, name, kb) == RetireDoc(s, id);
    }
  }

  ghost predicate RetireOne(s: State, id: DocId, s': State, a: Answer<Retirement, Error>) {
    && id in s.docs && id.kb in s.kbs
    && var d := s.docs[id];
       if d.deletedAt.Some? then
         && Hastens(s, s', id) && a.Ok? && a.value.found && a.value.alreadyDeleted
         && forall v :: v in a.value.cleanup <==> Unclean(s, v, id)
       else if !s.kbs[id.kb].active then s' == s && a == Err(NotFound)
       else
         && Deletes(s, s', id) && a.Ok? && a.value.found && !a.value.alreadyDeleted
         && forall v :: v in a.value.cleanup <==> d.current == Some(v) || d.pending == Some(v)
  }

  lemma RetireDocExact(s: State, id: DocId)
    requires Inv(s) && id in s.docs
    ensures RetireOne(s, id, RetireDoc(s, id).0, RetireDoc(s, id).1)
  {
    assert DocOk(s, id);
    var d := s.docs[id];
    if d.deletedAt.Some? {
      HastenAllHastens(s, id);
      RetiresAgain(s, id);
    } else {
      if d.current.Some? { LocalOk(s, d.current.value); }
      if d.pending.Some? { LocalOk(s, d.pending.value); }
      RetireLiveDeletes(s, id);
      RetiresFirst(s, id);
    }
  }

  lemma RetiresAgain(s: State, id: DocId)
    requires id in s.docs && DocOk(s, id) && s.docs[id].deletedAt.Some? && Hastens(s, HastenAll(s, id), id)
    ensures RetireOne(s, id, RetireDoc(s, id).0, RetireDoc(s, id).1)
  {
  }

  lemma RetiresFirst(s: State, id: DocId)
    requires id in s.docs && DocOk(s, id) && s.docs[id].deletedAt.None? && Deletes(s, RetireLive(s, id), id)
    ensures RetireOne(s, id, RetireDoc(s, id).0, RetireDoc(s, id).1)
  {
  }

  lemma HastenAllHastens(s: State, id: DocId)
    requires RowsOk(s)
    ensures Hastens(s, HastenAll(s, id), id)
  {
    forall v | v in s.rows ensures HastensAt(s, HastenAll(s, id), id, v) {
      assert RowAt(s, v);
    }
  }

  lemma RetireLiveDeletes(s: State, id: DocId)
    requires id in s.docs && DocOk(s, id) && s.docs[id].deletedAt.None?
    requires var c := s.docs[id].current; c.Some? ==> Local(s, c.value)
    requires var p := s.docs[id].pending; p.Some? ==> Local(s, p.value)
    ensures Deletes(s, RetireLive(s, id), id)
  {
    forall v | v in s.rows ensures v in RetireLive(s, id).rows && DeletesAt(s, RetireLive(s, id), id, v) {
      if s.docs[id].current == Some(v) {
        SupersedeGivesUp(s.rows[v], s.clock, false);
      } else if s.docs[id].pending == Some(v) {
        SupersedeGivesUp(s.rows[v], s.clock, true);
      }
    }
  }

  lemma SupersedeGivesUp(row: Row, now: Time, cancel: bool)
    requires row.cleanup.None? && row.job.Some? && JobOk(row.job.value) && (cancel ==> Open(row.job.value))
    ensures Supersede(row, now, now, cancel) ==
            if cancel then Cancelling(row, now) else GivenUp(row, VersionStatus.Superseded, now, now, 3)
  {
  }
}
