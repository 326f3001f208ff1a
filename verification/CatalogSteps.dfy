/** Every catalog transaction keeps the invariant and evolves the state. */
module CatalogSteps {
  import opened Prelude
  import opened CatalogState
  import opened CatalogOps
  import opened CatalogInvariant

  ghost predicate Sound(s: State, s': State) {
    Inv(s') && Evolves(s, s')
  }

  // ---------- Closing a job ----------

  /** Failing or dead-lettering an open job: its version is the candidate, so the pointer is cleared. */
  lemma AbandonSound(s: State, v: VersionId, job: IndexJob)
    requires Inv(s) && JobGraph(s, v) && !Terminal(s.rows[v].job.value.status)
    requires var old' := s.rows[v].job.value;
             && Terminal(job.status) && !job.status.Completed?
             && job == old'.(status := job.status, step := job.step, owner := None, lease := None, nextRetry := job.nextRetry)
    ensures Sound(s, Abandon(s, v, job))
    ensures !Active(Abandon(s, v, job).rows[v].status)
  {
    var s' := Abandon(s, v, job);
    assert RowAt(s, v);
    OneRow(s, s', v);
  }

  lemma DeadLetterSound(s: State, v: VersionId)
    requires Inv(s) && JobGraph(s, v)
    ensures Sound(s, DeadLetterLocked(s, v).0)
  {
    var job := s.rows[v].job.value;
    if !Terminal(job.status) {
      AbandonSound(s, v, job.(status := JobStatus.DeadLetter, step := "dead_letter",
                              owner := None, lease := None, nextRetry := None));
    } else {
      EvolvesReflexive(s);
    }
  }

  lemma FailSound(s: State, v: VersionId, fence: int, execution: Option<Token>, s': State)
    requires Inv(s) && JobGraph(s, v)
    requires s' == FailLocked(s, v, fence, execution).0
    ensures Sound(s, s')
  {
    var job := s.rows[v].job.value;
    assert RowAt(s, v);
    if s' == s {
      EvolvesReflexive(s);
    } else {
      AbandonSound(s, v, job.(status := JobStatus.Failed, step := "failed", owner := None, lease := None));
    }
  }

  lemma FailStepSound(s: State, v: VersionId, fence: int, execution: Option<Token>, s': State)
    requires Inv(s) && s' == Fail(s, v, fence, execution).0
    ensures Sound(s, s')
  {
    if JobGraph(s, v) { FailSound(s, v, fence, execution, s'); } else { EvolvesReflexive(s); }
  }

  // ---------- Index jobs ----------

  lemma RecordManifestSound(s: State, v: VersionId, fence: int, entries: seq<Entry>, vectors: Option<int>,
                            parents: Option<int>, execution: Option<Token>, s': State)
    requires Inv(s) && s' == RecordManifest(s, v, fence, entries, vectors, parents, execution).0
    ensures Sound(s, s')
  {
    if s' == s {
      EvolvesReflexive(s);
    } else {
      assert RowAt(s, v);
      OneRow(s, s', v);
    }
  }

  lemma MoveRowOk(v: VersionId, row: Row, d: Document, target: JobStatus, step: Option<string>, now: Time)
    requires RowOk(v, row, d)
    requires MayMove(row.job.value.status, target) && !target.Failed?
    requires target.Completed? ==> row.status.Ready?
    requires target.Staged? ==> row.status.Staged?
    requires !target.Completed? ==> !Terminal(row.job.value.status)
    ensures RowOk(v, MoveRow(row, target, step, now), if target.Cancelled? || target.DeadLetter? then DropPending(d) else d)
    ensures RowEvolves(row, now, MoveRow(row, target, step, now), now)
  {
  }

  lemma MoveJobSound(s: State, v: VersionId, target: JobStatus, step: Option<string>)
    requires Inv(s) && JobGraph(s, v)
    requires MayMove(s.rows[v].job.value.status, target) && !target.Failed?
    requires target.Completed? ==> s.rows[v].status.Ready?
    requires target.Staged? ==> s.rows[v].status.Staged?
    requires !target.Completed? ==> !Terminal(s.rows[v].job.value.status)
    ensures Sound(s, MoveJob(s, v, target, step))
  {
    var row := s.rows[v];
    var s' := MoveJob(s, v, target, step);
    assert RowAt(s, v);
    MoveRowOk(v, row, s.docs[row.doc], target, step, s.clock);
    assert RewritesRow(s, s', v);
    OneRow(s, s', v);
  }

  lemma UpdateJobSound(s: State, v: VersionId, fence: int, status: Option<JobStatus>, step: Option<string>,
                       execution: Option<Token>, s': State)
    requires Inv(s) && s' == UpdateJob(s, v, fence, status, step, execution).0
    ensures Sound(s, s')
  {
    if s' == s {
      EvolvesReflexive(s);
    } else {
      var target := if status.Some? then status.value else s.rows[v].job.value.status;
      if target.Failed? {
        FailSound(s, v, fence, execution, s');
      } else {
        MoveJobSound(s, v, target, step);
      }
    }
  }

  lemma RenewSound(s: State, v: VersionId, worker: Worker, seconds: int)
    requires Inv(s) && JobGraph(s, v) && seconds >= 1
    requires Live(s.rows[v].job.value, Token(worker, s.rows[v].job.value.execFence), s.clock)
    ensures Sound(s, Renew(s, v, seconds))
  {
    assert RowAt(s, v);
    OneRow(s, Renew(s, v, seconds), v);
  }

  lemma HeartbeatIndexSound(s: State, v: VersionId, token: Token, seconds: int, s': State)
    requires Inv(s) && s' == HeartbeatIndex(s, v, token, seconds).0
    ensures Sound(s, s')
  {
    if s' == s { EvolvesReflexive(s); } else { RenewSound(s, v, token.worker, seconds); }
  }

  lemma RetryIndexSound(s: State, v: VersionId, token: Token, delay: int, s': State)
    requires Inv(s) && s' == RetryIndex(s, v, token, delay).0
    ensures Sound(s, s')
  {
    if s' == s {
      EvolvesReflexive(s);
    } else if s.rows[v].job.value.attempts >= s.rows[v].job.value.maxAttempts {
      DeadLetterSound(s, v);
    } else {
      assert RowAt(s, v);
      OneRow(s, s', v);
    }
  }

  lemma DeadLetterIndexSound(s: State, v: VersionId, token: Token, s': State)
    requires Inv(s) && s' == DeadLetterIndex(s, v, token).0
    ensures Sound(s, s')
  {
    if s' == s { EvolvesReflexive(s); } else { DeadLetterSound(s, v); }
  }

  // ---------- The claim loop ----------

  lemma DeadLetterFrame(s: State, w: VersionId)
    requires JobGraph(s, w) && !Terminal(s.rows[w].job.value.status)
    ensures var s1 := DeadLetterLocked(s, w).0;
            && OpenJobs(s1) == OpenJobs(s) - {w} && s1.clock == s.clock
            && forall u :: u in s.rows && u != w ==> u in s1.rows && s1.rows[u] == s.rows[u]
  {
  }

  lemma CancelFrame(s: State, w: VersionId)
    requires JobGraph(s, w) && !Terminal(s.rows[w].job.value.status)
    ensures OpenJobs(CancelUnowned(s, w)) == OpenJobs(s) - {w}
  {
  }

  /** An open job always belongs to its document's candidate. */
  lemma OpenJobIsCandidate(s: State, v: VersionId)
    requires Inv(s) && JobGraph(s, v) && !Terminal(s.rows[v].job.value.status)
    ensures OwnsCandidate(s, v)
  {
    assert RowAt(s, v);
    assert DocOk(s, s.rows[v].doc);
  }

  lemma LeaseSound(s: State, v: VersionId, c: Claim)
    requires Inv(s) && JobGraph(s, v) && IndexReady(s.rows[v].job.value, s.clock)
    requires !Exhausted(s.rows[v].job.value) && c.seconds >= 1
    ensures Sound(s, Lease(s, v, c))
  {
    var s' := Lease(s, v, c);
    assert RowAt(s, v);
    OneRow(s, s', v);
  }

  lemma {:induction false} ClaimLoopSound(s: State, c: Claim)
    requires Inv(s) && c.seconds >= 1
    ensures Sound(s, ClaimLoop(s, c).0)
    decreases OpenJobs(s)
  {
    var pick := PickIndex(s, s.order, c);
    if pick.None? {
      EvolvesReflexive(s);
    } else {
      var v := pick.value;
      OpenJobIsCandidate(s, v);
      assert v in OpenJobs(s);
      if Exhausted(s.rows[v].job.value) {
        var s1 := DeadLetterLocked(s, v).0;
        DeadLetterSound(s, v);
        assert v !in OpenJobs(s1);
        ClaimLoopSound(s1, c);
        EvolvesTransitive(s, s1, ClaimLoop(s1, c).0);
      } else {
        LeaseSound(s, v, c);
      }
    }
  }

  lemma ClaimIndexSound(s: State, c: Claim, s': State)
    requires Inv(s) && s' == ClaimIndex(s, c).0
    ensures Sound(s, s')
  {
    if s' == s {
      EvolvesReflexive(s);
    } else {
      var owned := FirstOwned(s, s.order, c);
      if owned.Some? { RenewSound(s, owned.value, c.worker, c.seconds); } else { ClaimLoopSound(s, c); }
    }
  }

  // ---------- Knowledge bases and time ----------

  lemma EnsureKbSound(s: State, kb: KbId, owner: int, s': State)
    requires Inv(s) && s' == EnsureKb(s, kb, owner).0
    ensures Sound(s, s')
  {
    EvolvesReflexive(s);
    if s' != s {
      forall id | id in s'.docs ensures DocOk(s', id) { assert DocOk(s, id); }
      forall v | v in s'.rows ensures RowAt(s', v) { assert RowAt(s, v); }
      EvolvesIf(s, s');
    }
  }

  lemma TickSound(s: State, t: Time)
    requires Inv(s) && t >= s.clock
    ensures Sound(s, s.(clock := t))
  {
    var s' := s.(clock := t);
    forall id | id in s'.docs ensures DocOk(s', id) { assert DocOk(s, id); }
    forall v | v in s'.rows ensures RowAt(s', v) && RowAfter(s, s', v) {
      assert RowAt(s, v);
      RowLater(s.rows[v], s.clock, t);
    }
  }

  /** Time alone only takes leases away. */
  lemma RowLater(r: Row, t: Time, t': Time)
    requires t <= t'
    ensures RowEvolves(r, t, r, t')
  {
  }

  // ---------- Uploads ----------

  /** Superseding the candidate: the row after `reserve_upload` or `retire` gave it up. */
  lemma SupersededOk(v: VersionId, row: Row, d: Document, d': Document, now: Time, after: Time, cancel: bool)
    requires RowOk(v, row, d) && Active(row.status) && (Building(row.status) ==> cancel)
    requires d'.counter >= d.counter && d'.fence >= d.fence
    requires d'.current != Some(v) && d'.pending != Some(v)
    requires d'.pending.Some? ==> row.number < d'.counter
    ensures RowOk(v, Supersede(row, now, after, cancel), d')
    ensures RowEvolves(row, now, Supersede(row, now, after, cancel), now)
  {
  }

  /** The document row an upload starts from: the stored one, or the one it is about to create. */
  function DocFor(s: State, u: Upload): Document {
    var id := DocId(u.kb, u.name);
    if id in s.docs then s.docs[id] else Document(u.owner, 0, 0, None, None, None, DocPending)
  }

  ghost predicate Insertable(s: State, u: Upload, newId: VersionId) {
    && u.maxAttempts >= 1 && u.kb in s.kbs && newId !in s.rows
    && !MatchesPointer(s, DocFor(s, u).current, DocId(u.kb, u.name), u)
    && (DocFor(s, u).pending.Some? ==> DocFor(s, u).pending.value in s.rows)
  }

  function Inserted(s: State, u: Upload, newId: VersionId): State
    requires u.maxAttempts >= 1 && (DocFor(s, u).pending.Some? ==> DocFor(s, u).pending.value in s.rows)
  {
    Insert(s, u, DocId(u.kb, u.name), DocFor(s, u), newId).0
  }

  lemma InsertDoc(s: State, u: Upload, newId: VersionId)
    requires Insertable(s, u, newId)
    requires DocId(u.kb, u.name) in s.docs ==> DocOk(s, DocId(u.kb, u.name))
    ensures DocOk(Inserted(s, u, newId), DocId(u.kb, u.name))
  {
  }

  lemma InsertTouches(s: State, u: Upload, newId: VersionId)
    requires Insertable(s, u, newId) && OrderOk(s)
    requires DocFor(s, u).pending.Some? ==> s.rows[DocFor(s, u).pending.value].doc == DocId(u.kb, u.name)
    ensures Touches(s, Inserted(s, u, newId), DocId(u.kb, u.name)) && OrderOk(Inserted(s, u, newId))
  {
  }

  lemma InsertRows(s: State, u: Upload, newId: VersionId)
    requires Inv(s) && Insertable(s, u, newId)
    ensures var s', id := Inserted(s, u, newId), DocId(u.kb, u.name);
            forall v {:trigger RowAt(s', v)} :: v in s'.rows && s'.rows[v].doc == id ==> RowAt(s', v)
  {
    var s', id, doc := Inserted(s, u, newId), DocId(u.kb, u.name), DocFor(s, u);
    if id in s.docs { assert DocOk(s, id); }
    forall v | v in s'.rows && s'.rows[v].doc == id ensures RowAt(s', v) {
      if v != newId {
        assert RowAt(s, v);
        if doc.pending == Some(v) {
          SupersededOk(v, s.rows[v], doc, s'.docs[id], s.clock, s.clock, true);
        } else {
          BystanderOk(v, s.rows[v], doc, s'.docs[id]);
        }
      }
    }
  }

  lemma InsertEvolves(s: State, u: Upload, newId: VersionId)
    requires Inv(s) && Insertable(s, u, newId)
    ensures Evolves(s, Inserted(s, u, newId))
  {
    var s', id, doc := Inserted(s, u, newId), DocId(u.kb, u.name), DocFor(s, u);
    if doc.pending.Some? {
      assert DocOk(s, id) && RowAt(s, doc.pending.value);
      SupersededOk(doc.pending.value, s.rows[doc.pending.value], doc, s'.docs[id], s.clock, s.clock, true);
    }
    EvolvesIf(s, s');
  }

  lemma InsertSound(s: State, u: Upload, newId: VersionId)
    requires Inv(s) && Insertable(s, u, newId)
    ensures Sound(s, Inserted(s, u, newId))
  {
    if DocId(u.kb, u.name) in s.docs { assert DocOk(s, DocId(u.kb, u.name)); }
    InsertDoc(s, u, newId);
    InsertTouches(s, u, newId);
    InsertRows(s, u, newId);
    Reestablish(s, Inserted(s, u, newId), DocId(u.kb, u.name));
    InsertEvolves(s, u, newId);
  }

  /** Under the invariant an upload that changes anything inserts its version. */
  lemma ReserveCases(s: State, u: Upload, newId: VersionId, s': State)
    requires Inv(s) && s' == Reserve(s, u, newId).0
    ensures s' == s || (Insertable(s, u, newId) && s' == Inserted(s, u, newId))
  {
    var id := DocId(u.kb, u.name);
    if id in s.docs {
      assert DocOk(s, id);
      var doc := s.docs[id];
      if doc.current.Some? { assert RowAt(s, doc.current.value); }
    }
  }

  lemma ReserveSound(s: State, u: Upload, newId: VersionId, s': State)
    requires Inv(s) && s' == Reserve(s, u, newId).0
    ensures Sound(s, s')
  {
    ReserveCases(s, u, newId, s');
    if s' == s { EvolvesReflexive(s); } else { InsertSound(s, u, newId); }
  }

  // ---------- Publication ----------

  /** What holds at the switch of the current pointer. */
  ghost predicate Switchable(s: State, v: VersionId) {
    && JobGraph(s, v) && s.rows[v].status.Staged?
    && PointerOk(s, s.rows[v].doc, s.docs[s.rows[v].doc].current)
  }

  function Switched(s: State, v: VersionId): State
    requires JobGraph(s, v)
    requires s.docs[s.rows[v].doc].current.Some? ==> s.docs[s.rows[v].doc].current.value in s.rows
  {
    SwitchCurrent(s, v, s.docs[s.rows[v].doc].current)
  }

  lemma PublishRowOk(v: VersionId, row: Row, d: Document, now: Time)
    requires RowOk(v, row, d) && row.status.Staged?
    ensures RowOk(v, PublishRow(row, now), d.(current := Some(v), pending := None, status := DocReady))
    ensures RowEvolves(row, now, PublishRow(row, now), now)
  {
  }

  lemma SwitchDoc(s: State, v: VersionId)
    requires Switchable(s, v) && OrderOk(s) && DocOk(s, s.rows[v].doc)
    requires s.docs[s.rows[v].doc].deletedAt.None?
    ensures var s', id := Switched(s, v), s.rows[v].doc;
            Touches(s, s', id) && DocOk(s', id) && OrderOk(s')
  {
  }

  lemma SwitchRows(s: State, v: VersionId)
    requires Inv(s) && Switchable(s, v)
    ensures var s', id := Switched(s, v), s.rows[v].doc;
            forall u {:trigger RowAt(s', u)} :: u in s'.rows && s'.rows[u].doc == id ==> RowAt(s', u)
  {
    var s', id := Switched(s, v), s.rows[v].doc;
    var doc := s.docs[id];
    assert RowAt(s, v);
    PublishRowOk(v, s.rows[v], doc, s.clock);
    forall u | u in s'.rows && s'.rows[u].doc == id ensures RowAt(s', u) {
      if u != v {
        assert RowAt(s, u);
        if doc.current == Some(u) {
          SupersededOk(u, s.rows[u], doc, s'.docs[id], s.clock, s.clock + CLEANUP_GRACE, false);
        } else {
          BystanderOk(u, s.rows[u], doc, s'.docs[id]);
        }
      }
    }
  }

  lemma SwitchEvolves(s: State, v: VersionId)
    requires Inv(s) && Switchable(s, v)
    ensures Evolves(s, Switched(s, v))
  {
    var s' := Switched(s, v);
    forall u | u in s.rows ensures u in s'.rows && (s'.rows[u] == s.rows[u] || RowAfter(s, s', u)) {
      assert RowAt(s, u);
      SwitchedRow(s, v, u);
      SwitchRowEvolves(s, v, u);
    }
    EvolvesIf(s, s');
  }

  lemma SwitchedRow(s: State, v: VersionId, u: VersionId)
    requires Switchable(s, v) && u in s.rows
    ensures Switched(s, v).rows.Keys == s.rows.Keys
    ensures Switched(s, v).rows[u] ==
            if u == v then PublishRow(s.rows[v], s.clock)
            else if s.docs[s.rows[v].doc].current == Some(u) then
              Supersede(s.rows[u], s.clock, s.clock + CLEANUP_GRACE, false)
            else s.rows[u]
  {
  }

  lemma SwitchRowEvolves(s: State, v: VersionId, u: VersionId)
    requires Switchable(s, v) && u in s.rows && RowAt(s, u)
    ensures u == v ==> RowEvolves(s.rows[u], s.clock, PublishRow(s.rows[u], s.clock), s.clock)
    ensures u != v && s.docs[s.rows[v].doc].current == Some(u) ==>
              RowEvolves(s.rows[u], s.clock, Supersede(s.rows[u], s.clock, s.clock + CLEANUP_GRACE, false), s.clock)
  {
    var doc := s.docs[s.rows[v].doc];
    if u == v {
      PublishRowOk(v, s.rows[v], doc, s.clock);
    } else if doc.current == Some(u) {
      SupersededOk(u, s.rows[u], doc, doc.(current := Some(v), pending := None, status := DocReady), s.clock,
                   s.clock + CLEANUP_GRACE, false);
    }
  }

  lemma SwitchSound(s: State, v: VersionId)
    requires Inv(s) && Switchable(s, v)
    ensures Sound(s, Switched(s, v))
  {
    assert DocOk(s, s.rows[v].doc);
    assert RowAt(s, v);
    SwitchDoc(s, v);
    SwitchRows(s, v);
    Reestablish(s, Switched(s, v), s.rows[v].doc);
    SwitchEvolves(s, v);
  }

  /** A publish that takes effect is a switch of the current pointer. */
  lemma PublishSwitches(s: State, v: VersionId, fence: int, expected: Option<VersionId>, execution: Option<Token>, s': State)
    requires JobGraph(s, v) && DocOk(s, s.rows[v].doc) && s' == Publish(s, v, fence, expected, execution).0
    requires var a := Publish(s, v, fence, expected, execution).1; a.Ok? && a.value.published
    ensures Switchable(s, v) && s' == Switched(s, v) && s.docs[s.rows[v].doc].current == expected
  {
  }

  lemma PublishSound(s: State, v: VersionId, fence: int, expected: Option<VersionId>, execution: Option<Token>, s': State)
    requires Inv(s) && s' == Publish(s, v, fence, expected, execution).0
    ensures Sound(s, s')
  {
    if s' == s {
      EvolvesReflexive(s);
    } else {
      PublishSwitches(s, v, fence, expected, execution, s');
      SwitchSound(s, v);
    }
  }

  // ---------- Retirement ----------

  lemma HastenOk(v: VersionId, row: Row, d: Document, now: Time)
    requires RowOk(v, row, d) && !Active(row.status)
    ensures RowOk(v, Hasten(row, now), d) && RowEvolves(row, now, Hasten(row, now), now)
    ensures Hasten(row, now).doc == row.doc && Hasten(row, now).content == row.content && Hasten(row, now).build == row.build
  {
  }

  lemma HastenRows(s: State, id: DocId)
    requires RowsOk(s)
    ensures RowsOk(HastenAll(s, id)) && Evolves(s, HastenAll(s, id))
  {
    var s' := HastenAll(s, id);
    forall v | v in s.rows
      ensures RowAt(s', v)
      ensures s'.rows[v] == s.rows[v] || RowAfter(s, s', v)
    {
      assert RowAt(s, v);
      if Uncleaned(s.rows[v], id) { HastenOk(v, s.rows[v], s.docs[s.rows[v].doc], s.clock); }
    }
    EvolvesIf(s, s');
  }

  lemma HastenDocs(s: State, id: DocId, d: DocId)
    requires d in s.docs && DocOk(s, d)
    ensures DocOk(HastenAll(s, id), d)
  {
  }

  lemma HastenSound(s: State, id: DocId)
    requires Inv(s)
    ensures Sound(s, HastenAll(s, id))
  {
    var s' := HastenAll(s, id);
    HastenRows(s, id);
    forall d | d in s'.docs ensures DocOk(s', d) {
      assert DocOk(s, d);
      HastenDocs(s, id, d);
    }
  }

  lemma RetireLiveTouches(s: State, id: DocId)
    requires OrderOk(s) && id in s.docs && DocOk(s, id)
    ensures var s' := RetireLive(s, id); Touches(s, s', id) && OrderOk(s') && s'.rows.Keys == s.rows.Keys
  {
  }

  lemma RetireLiveDoc(s: State, id: DocId)
    requires id in s.docs && DocOk(s, id)
    ensures DocOk(RetireLive(s, id), id)
  {
  }

  lemma RetireLiveRow(s: State, id: DocId, v: VersionId)
    requires id in s.docs && DocOk(s, id) && v in s.rows && s.rows[v].doc == id && RowAt(s, v)
    ensures var s' := RetireLive(s, id); RowAt(s', v) && RowAfter(s, s', v)
  {
    var doc, doc' := s.docs[id], RetireLive(s, id).docs[id];
    if doc.current == Some(v) {
      SupersededOk(v, s.rows[v], doc, doc', s.clock, s.clock, false);
    } else if doc.pending == Some(v) {
      SupersededOk(v, s.rows[v], doc, doc', s.clock, s.clock, true);
    } else {
      BystanderOk(v, s.rows[v], doc, doc');
      RowEvolvesReflexive(s.rows[v], s.clock);
    }
  }

  lemma RetireLiveRows(s: State, id: DocId)
    requires RowsOk(s) && id in s.docs && DocOk(s, id)
    ensures var s' := RetireLive(s, id);
            && (forall v {:trigger RowAt(s', v)} :: v in s'.rows && s'.rows[v].doc == id ==> RowAt(s', v))
            && (forall v {:trigger RowAfter(s, s', v)} :: v in s.rows && s.rows[v].doc == id ==> RowAfter(s, s', v))
  {
    var s' := RetireLive(s, id);
    forall v | v in s.rows && s.rows[v].doc == id ensures RowAt(s', v) && RowAfter(s, s', v) {
      assert RowAt(s, v);
      RetireLiveRow(s, id, v);
    }
  }

  lemma RetireLiveSound(s: State, id: DocId)
    requires Inv(s) && id in s.docs && DocOk(s, id)
    ensures Sound(s, RetireLive(s, id))
  {
    RetireLiveTouches(s, id);
    RetireLiveDoc(s, id);
    RetireLiveRows(s, id);
    Reestablish(s, RetireLive(s, id), id);
    EvolvesIf(s, RetireLive(s, id));
  }

  lemma RetireDocSound(s: State, id: DocId, s': State)
    requires Inv(s) && id in s.docs && s' == RetireDoc(s, id).0
    ensures Sound(s, s')
  {
    if s' == s {
      EvolvesReflexive(s);
    } else {
      assert DocOk(s, id);
      if s.docs[id].deletedAt.Some? { HastenSound(s, id); } else { RetireLiveSound(s, id); }
    }
  }

  lemma RetireSound(s: State, tenant: string, name: string, kb: Option<KbId>, s': State)
    requires Inv(s) && s' == Retire(s, tenant, name, kb).0
    ensures Sound(s, s')
  {
    if s' == s {
      EvolvesReflexive(s);
    } else {
      forall id | id in Named(s, tenant, name, kb) ensures Sound(s, RetireDoc(s, id).0) {
        RetireDocSound(s, id, RetireDoc(s, id).0);
      }
    }
  }

  // ---------- Cleanup jobs ----------

  /** Rewriting the cleanup job of an inactive version. */
  lemma SetCleanupSound(s: State, v: VersionId, c: CleanupJob)
    requires Inv(s) && CleanupGraph(s, v)
    requires CleanupOk(c) && !c.status.Completed? && s.rows[v].cleanedAt.None?
    requires CleanupEvolves(s.rows[v].cleanup.value, s.clock, c, s.clock)
    ensures Sound(s, SetCleanup(s, v, c))
  {
    assert RowAt(s, v);
    OneRow(s, SetCleanup(s, v, c), v);
  }

  lemma BurySound(s: State, v: VersionId)
    requires Inv(s) && CleanupGraph(s, v) && s.rows[v].cleanedAt.None?
    ensures Sound(s, SetCleanup(s, v, Bury(s.rows[v].cleanup.value)))
  {
    assert RowAt(s, v);
    SetCleanupSound(s, v, Bury(s.rows[v].cleanup.value));
  }

  lemma FinishSound(s: State, v: VersionId)
    requires Inv(s) && CleanupGraph(s, v) && !s.rows[v].cleanup.value.status.Completed?
    ensures Sound(s, Finish(s, v))
  {
    assert RowAt(s, v);
    OneRow(s, Finish(s, v), v);
  }

  lemma LeaseCleanupSound(s: State, v: VersionId, worker: Worker, seconds: int)
    requires Inv(s) && CleanupGraph(s, v) && s.rows[v].cleanedAt.None?
    requires var c := s.rows[v].cleanup.value; c.attempts < c.maxAttempts
    ensures Sound(s, LeaseCleanup(s, v, worker, seconds))
  {
    assert RowAt(s, v);
    SetCleanupSound(s, v, LeaseCleanup(s, v, worker, seconds).rows[v].cleanup.value);
  }

  lemma RenewCleanupSound(s: State, v: VersionId, worker: Worker, seconds: int)
    requires Inv(s) && CleanupGraph(s, v)
    requires var c := s.rows[v].cleanup.value; CleanupLive(c, Token(worker, c.execFence), s.clock)
    ensures Sound(s, RenewCleanup(s, v, seconds))
  {
    assert RowAt(s, v);
    SetCleanupSound(s, v, RenewCleanup(s, v, seconds).rows[v].cleanup.value);
  }

  lemma BuryFrame(s: State, v: VersionId)
    requires CleanupGraph(s, v)
    ensures OpenCleanups(SetCleanup(s, v, Bury(s.rows[v].cleanup.value))) == OpenCleanups(s) - {v}
  {
  }

  lemma {:induction false} CleanupClaimLoopSound(s: State, worker: Worker, seconds: int, locked: set<VersionId>)
    requires Inv(s) && seconds >= 1
    ensures Sound(s, CleanupClaimLoop(s, worker, seconds, locked).0)
    decreases OpenCleanups(s)
  {
    var pick := PickCleanup(s, s.order, locked);
    if pick.None? {
      EvolvesReflexive(s);
    } else {
      var v := pick.value;
      var c := s.rows[v].cleanup.value;
      assert v in OpenCleanups(s);
      if !SafeScope(s, v) || c.attempts >= c.maxAttempts {
        var s1 := SetCleanup(s, v, Bury(c));
        BurySound(s, v);
        assert v !in OpenCleanups(s1);
        CleanupClaimLoopSound(s1, worker, seconds, locked);
        EvolvesTransitive(s, s1, CleanupClaimLoop(s1, worker, seconds, locked).0);
      } else {
        LeaseCleanupSound(s, v, worker, seconds);
      }
    }
  }

  lemma ClaimCleanupSound(s: State, worker: Worker, seconds: int, locked: set<VersionId>, s': State)
    requires Inv(s) && s' == ClaimCleanup(s, worker, seconds, locked).0
    ensures Sound(s, s')
  {
    if s' == s {
      EvolvesReflexive(s);
    } else {
      var owned := FirstOwnedCleanup(s, s.order, worker, locked);
      if owned.Some? {
        RenewCleanupSound(s, owned.value, worker, seconds);
      } else {
        CleanupClaimLoopSound(s, worker, seconds, locked);
      }
    }
  }

  lemma HeartbeatCleanupSound(s: State, v: VersionId, token: Token, seconds: int, s': State)
    requires Inv(s) && s' == HeartbeatCleanup(s, v, token, seconds).0
    ensures Sound(s, s')
  {
    if s' == s { EvolvesReflexive(s); } else { RenewCleanupSound(s, v, token.worker, seconds); }
  }

  lemma RetryCleanupSound(s: State, v: VersionId, token: Token, delay: int, s': State)
    requires Inv(s) && s' == RetryCleanup(s, v, token, delay).0
    ensures Sound(s, s')
  {
    if s' == s {
      EvolvesReflexive(s);
    } else {
      assert RowAt(s, v);
      SetCleanupSound(s, v, s'.rows[v].cleanup.value);
    }
  }

  lemma DeadLetterCleanupSound(s: State, v: VersionId, token: Token, s': State)
    requires Inv(s) && s' == DeadLetterCleanup(s, v, token).0
    ensures Sound(s, s')
  {
    if s' == s {
      EvolvesReflexive(s);
    } else {
      assert RowAt(s, v);
      BurySound(s, v);
    }
  }

  lemma CompleteCleanupSound(s: State, v: VersionId, token: Token, s': State)
    requires Inv(s) && s' == CompleteCleanup(s, v, token).0
    ensures Sound(s, s')
  {
    if s' == s { EvolvesReflexive(s); } else { FinishSound(s, v); }
  }

  lemma RequeueCleanupSound(s: State, v: VersionId, maxAttempts: Option<int>, s': State)
    requires Inv(s) && s' == RequeueCleanup(s, v, maxAttempts).0
    ensures Sound(s, s')
  {
    if s' == s {
      EvolvesReflexive(s);
    } else {
      assert RowAt(s, v);
      SetCleanupSound(s, v, s'.rows[v].cleanup.value);
    }
  }

  lemma RecordCleanupSound(s: State, v: VersionId, failed: bool, s': State)
    requires Inv(s) && s' == RecordCleanup(s, v, failed).0
    ensures Sound(s, s')
  {
    if s' == s {
      EvolvesReflexive(s);
    } else {
      assert RowAt(s, v);
      FinishSound(s, v);
    }
  }
}
