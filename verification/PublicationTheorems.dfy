/** What building, publishing and cleaning promise to readers. */
module PublicationTheorems {
  import opened Prelude
  import opened CatalogState
  import opened CatalogOps
  import opened CatalogInvariant
  import opened CatalogSteps
  import opened CatalogRuns
  import opened PublicationProtocol

  /** In every possible system the current version of a document is stored exactly as its manifest says. */
  lemma CurrentVersionIsExact(y: System, id: DocId)
    requires Possible(y) && id in y.cat.docs && y.cat.docs[id].current.Some?
    ensures var v := y.cat.docs[id].current.value;
            && v in y.cat.rows && y.cat.rows[v].status.Ready?
            && Chunks(y.parents, v) == Keys(y.cat.rows[v].manifest, Parent)
            && Chunks(y.vectors, v) == Keys(y.cat.rows[v].manifest, Vector) != {}
  {
    PossibleInv(y);
    assert DocOk(y.cat, id);
    var v := y.cat.docs[id].current.value;
    assert RowAt(y.cat, v);
    assert StoresMatch(y, v);
  }

  /** Staged candidates, too, are stored exactly as recorded, so a recovered publish needs no rebuild. */
  lemma StagedVersionIsExact(y: System, v: VersionId)
    requires Possible(y) && v in y.cat.rows && y.cat.rows[v].status.Staged?
    ensures StoresMatch(y, v)
  {
    PossibleInv(y);
  }

  /** A version marked as cleaned has left nothing behind in either store. */
  lemma CleanedVersionIsGone(y: System, v: VersionId)
    requires Possible(y) && v in y.cat.rows && y.cat.rows[v].cleanedAt.Some?
    ensures Chunks(y.parents, v) == {} && Chunks(y.vectors, v) == {}
  {
    PossibleInv(y);
    assert CleanedOk(y, v);
    assert WipedOk(y, v, Vector) && WipedOk(y, v, Parent);
  }

  /** Whoever is set to delete a version, even a worker that lost its lease long ago, deletes one that no pointer
      holds, now and in every later catalog. */
  lemma CleanersHarmNobody(y: System, v: VersionId, later: State)
    requires Possible(y) && v in y.cleaners && Leads(y.cat, later)
    ensures v in later.rows && !Active(later.rows[v].status) && later.rows[v].doc in later.docs
    ensures later.docs[later.rows[v].doc].current != Some(v) && later.docs[later.rows[v].doc].pending != Some(v)
  {
    PossibleInv(y);
    assert CleanerOk(y, v);
    LeadsSound(y.cat, later);
    assert RowAfter(y.cat, later, v);
    assert RowAt(later, v);
  }

  // ---------- Uncertain outcomes ----------

  datatype Verdict = Published | Preserve | Lost

  /** What a worker concludes from a fresh read after `publish` raised. */
  function Reconcile(s: State, v: VersionId): Verdict
    requires JobGraph(s, v)
  {
    var job, doc := s.rows[v].job.value, s.docs[s.rows[v].doc];
    if job.status.Completed? && doc.current == Some(v) then Published
    else if job.status.Staged? && doc.pending == Some(v) then Preserve
    else Lost
  }

  /** The verdict is the truth: published iff current, preserved iff still the candidate, else given up. */
  lemma ReconcileIsExact(s: State, s': State, v: VersionId)
    requires Reachable(s) && JobGraph(s, v) && s.rows[v].status.Staged? && Leads(s, s')
    ensures JobGraph(s', v)
    ensures var doc := s'.docs[s'.rows[v].doc];
            && (Reconcile(s', v) == Published <==> doc.current == Some(v))
            && (Reconcile(s', v) == Preserve <==> doc.pending == Some(v))
            && (Reconcile(s', v) == Lost <==> !Active(s'.rows[v].status))
  {
    ReachableInv(s);
    LeadsSound(s, s');
    assert RowAfter(s, s', v) && RowAt(s', v);
    assert DocOk(s', s'.rows[v].doc);
  }

  /** A failed build deletes its artifacts only once its version can never be read again. */
  lemma FailureRecordedBeforeCleanup(s: State, v: VersionId, fence: int, later: State)
    requires Reachable(s) && JobGraph(s, v)
    requires var (s', a) := Fail(s, v, fence, None);
             (a.Ok? && Leads(s', later)) || (ClosedAndUnreferenced(s, v) && Leads(s, later))
    ensures v in later.rows && !Active(later.rows[v].status)
  {
    ReachableInv(s);
    var (s', a) := Fail(s, v, fence, None);
    assert RowAt(s, v);
    if a.Ok? && Leads(s', later) {
      FailStepSound(s, v, fence, None, s');
      FailGivesUp(s, v, fence, None);
      LeadsSound(s', later);
      assert RowAfter(s', later, v);
    } else {
      LeadsSound(s, later);
      assert RowAfter(s, later, v);
    }
  }
}
