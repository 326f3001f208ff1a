/** An accepted upload can be carried through to its readers. */
module CatalogProgress {
  import opened Prelude
  import opened CatalogState
  import opened CatalogOps
  import opened CatalogInvariant
  import opened CatalogSteps
  import opened CatalogRuns
  import opened CatalogWrites
  import opened CatalogClaims
  import opened CatalogUploads
  import opened Retrieval

  /** A worker that can do the build and finds all other jobs taken. */
  ghost predicate Asks(s: State, c: Claim, u: Upload, newId: VersionId) {
    c.seconds >= 1 && (c.capability == None || c.capability == Some(u.build)) && c.locked == s.rows.Keys && newId !in s.rows
  }

  lemma Reserved(s: State, u: Upload, newId: VersionId, s': State)
    requires Inv(s) && WellPut(u) && Hosted(s, u) && Permitted(s, u) && newId !in s.rows && forall v :: !ActiveTwin(s, u, v)
    requires s' == Reserve(s, u, newId).0
    ensures Inv(s') && Adds(s, s', u, newId)
  {
    ReserveAnswers(s, u, newId);
    ReserveCreates(s, u, newId);
    ReserveSound(s, u, newId, s');
  }

  lemma OnlyOne(s0: State, s: State, u: Upload, newId: VersionId, c: Claim, v: VersionId)
    requires u.maxAttempts >= 1 && Adds(s0, s, u, newId) && Asks(s0, c, u, newId)
    ensures Suits(s, v, c) ==> v == newId
    ensures Workable(s, newId, c) && !Own(s, newId, c)
  {
  }

  lemma NothingOwned(s: State, c: Claim)
    requires Inv(s) && c.seconds >= 1 && forall v :: !Own(s, v, c)
    ensures ClaimIndex(s, c) == ClaimLoop(s, c)
  {
    OwnedIsOldest(s, c);
  }

  /** A single job on offer is the one leased. */
  lemma OnlyOneLeased(s: State, c: Claim, v: VersionId, s': State)
    requires Inv(s) && s' == ClaimLoop(s, c).0 && Workable(s, v, c) && forall w :: Suits(s, w, c) ==> w == v
    ensures v in s'.rows && s'.rows[v] == LeasedRow(s.rows[v], c, s.clock) && s'.clock == s.clock && s'.kbs == s.kbs
  {
    ClaimLoopPicks(s, c, v);
    ClaimLoopLeaves(s, c, v, s.rows[v].doc);
  }

  /** The worker holds the version of the upload and may go on with it. */
  ghost predicate Held(s: State, u: Upload, d: Document, v: VersionId, worker: Worker) {
    && Inv(s) && u.kb in s.kbs && s.kbs[u.kb].active && v in s.rows && s.rows[v].job.Some?
    && var row, j := s.rows[v], s.rows[v].job.value;
       && row.doc == DocId(u.kb, u.name) && row.content == u.content && row.build == u.build && row.collection == u.collection
       && Entitled(j, Some(Token(worker, 1)), s.clock) && Open(j) && j.fence == d.fence + 1 && j.expected == d.current
  }

  lemma ReservedIsHeld(s0: State, s: State, u: Upload, newId: VersionId, c: Claim, s': State)
    requires Inv(s') && Hosted(s0, u) && u.maxAttempts >= 1 && c.seconds >= 1 && Adds(s0, s, u, newId)
    requires newId in s'.rows && s'.rows[newId] == LeasedRow(s.rows[newId], c, s.clock)
    requires s'.clock == s.clock && s'.kbs == s.kbs
    ensures Held(s', u, DocFor(s0, u), newId, c.worker)
  {
  }

  lemma Claimed(s0: State, s: State, u: Upload, newId: VersionId, c: Claim, s': State)
    requires Inv(s) && Hosted(s0, u) && u.maxAttempts >= 1 && Adds(s0, s, u, newId) && Asks(s0, c, u, newId)
    requires s' == ClaimIndex(s, c).0
    ensures Held(s', u, DocFor(s0, u), newId, c.worker)
  {
    ClaimIndexSound(s, c, s');
    forall v ensures (Suits(s, v, c) ==> v == newId) && Workable(s, newId, c) && !Own(s, newId, c) {
      OnlyOne(s0, s, u, newId, c, v);
    }
    NothingOwned(s, c);
    OnlyOneLeased(s, c, newId, s');
    ReservedIsHeld(s0, s, u, newId, c, s');
  }

  /** From every reachable state an upload that is accepted as new can be leased: a worker that finds everything else
      taken is given it, and may write to it. */
  lemma UploadIsLeased(s: State, u: Upload, newId: VersionId, c: Claim, s': State)
    requires Reachable(s) && WellPut(u) && Hosted(s, u) && Permitted(s, u) && forall v :: !ActiveTwin(s, u, v)
    requires Asks(s, c, u, newId) && s' == ClaimIndex(Reserve(s, u, newId).0, c).0
    ensures Held(s', u, DocFor(s, u), newId, c.worker)
  {
    ReachableInv(s);
    Reserved(s, u, newId, Reserve(s, u, newId).0);
    Claimed(s, Reserve(s, u, newId).0, u, newId, c, s');
  }

  /** Held and staged with a manifest of the entries. */
  ghost predicate HeldStaged(s: State, u: Upload, d: Document, v: VersionId, worker: Worker, entries: seq<Entry>) {
    && Held(s, u, d, v, worker) && s.rows[v].status.Staged? && Records(s.rows[v].manifest, entries)
    && s.rows[v].chunkCount == |Ids(entries, Vector)| && s.rows[v].parentCount == |Ids(entries, Parent)|
  }

  lemma HeldIsStaged(s: State, u: Upload, d: Document, v: VersionId, worker: Worker, entries: seq<Entry>, s': State)
    requires Held(s, u, d, v, worker) && Recordable(entries, None, None)
    requires s' == RecordManifest(s, v, d.fence + 1, entries, None, None, Some(Token(worker, 1))).0
    ensures HeldStaged(s', u, d, v, worker, entries)
  {
    RecordManifestSound(s, v, d.fence + 1, entries, None, None, Some(Token(worker, 1)), s');
    RecordExact(s, v, d.fence + 1, entries, None, None, Some(Token(worker, 1)));
  }

  lemma StagedIsServed(s: State, u: Upload, d: Document, v: VersionId, worker: Worker, entries: seq<Entry>, s': State)
    requires HeldStaged(s, u, d, v, worker, entries)
    requires s' == Publish(s, v, d.fence + 1, d.current, Some(Token(worker, 1))).0
    ensures Serves(s', u, v, entries)
  {
    PublishSound(s, v, d.fence + 1, d.current, Some(Token(worker, 1)), s');
    PublishExact(s, v, d.fence + 1, d.current, Some(Token(worker, 1)));
    SnapshotExact(s', u.kb.tenant, Some(u.kb), DocId(u.kb, u.name));
  }

  /** Readers of the knowledge base see the upload's version of the document, with a manifest of exactly the entries. */
  ghost predicate Serves(s: State, u: Upload, v: VersionId, entries: seq<Entry>) {
    var id, p := DocId(u.kb, u.name), Snapshot(s, u.kb.tenant, Some(u.kb));
    && id in p && p[id].version == v && p[id].content == u.content && p[id].build == u.build
    && p[id].collection == u.collection && Records(p[id].manifest, entries)
    && p[id].chunkCount == |Ids(entries, Vector)| && p[id].parentCount == |Ids(entries, Parent)|
  }

  /** A held upload, recorded with any fitting manifest and published, is what readers see of the document. */
  lemma HeldIsServed(s: State, u: Upload, d: Document, v: VersionId, worker: Worker, entries: seq<Entry>, s': State)
    requires Held(s, u, d, v, worker) && Recordable(entries, None, None)
    requires var m := RecordManifest(s, v, d.fence + 1, entries, None, None, Some(Token(worker, 1))).0;
             s' == Publish(m, v, d.fence + 1, d.current, Some(Token(worker, 1))).0
    ensures Serves(s', u, v, entries)
  {
    var m := RecordManifest(s, v, d.fence + 1, entries, None, None, Some(Token(worker, 1))).0;
    HeldIsStaged(s, u, d, v, worker, entries, m);
    StagedIsServed(m, u, d, v, worker, entries, s');
  }
}
