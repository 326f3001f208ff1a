// What every reachable catalog state satisfies, and how one state may follow another.
//
// `Inv` ties every version to the pointers of its document; `Evolves` is the
// two-state relation: terminal versions and jobs never change status, fences only
// grow, and a rejected token stays rejected.
module CatalogInvariant {
  import opened Prelude
  import opened CatalogState
  import opened CatalogOps

  // ---------- One-state invariant ----------

  ghost predicate JobOk(j: IndexJob) {
    && j.maxAttempts >= 1
    && j.execFence == j.attempts <= j.maxAttempts + 1
    && (j.attempts > j.maxAttempts ==> j.status.Staged? || Terminal(j.status))
    && (j.owner.Some? <==> j.lease.Some?)
    && (Terminal(j.status) ==> j.owner.None?)
  }

  ghost predicate CleanupOk(c: CleanupJob) {
    && c.maxAttempts >= 1
    && c.attempts <= c.maxAttempts && c.attempts <= c.execFence
    && (c.owner.Some? <==> c.status.Running?)
    && (c.owner.Some? <==> c.lease.Some?)
    && (c.status.Pending? || c.status.RetryWait? ==> c.nextRetry.Some?)
  }

  ghost predicate ManifestOk(r: Row) {
    r.chunkCount == Count(r.manifest, Vector) >= 1 && r.parentCount == Count(r.manifest, Parent)
  }

  /** A version agrees with its job, its cleanup job and the pointers of its document. */
  ghost predicate RowOk(v: VersionId, r: Row, d: Document) {
    && 1 <= r.number <= d.counter
    && (d.pending.Some? && d.pending != Some(v) ==> r.number < d.counter)
    && r.job.Some? && JobOk(r.job.value) && r.job.value.fence <= d.fence
    && (r.status.Ready? <==> d.current == Some(v))
    && (Building(r.status) <==> d.pending == Some(v))
    && (r.status.Ready? ==> r.job.value.status.Completed? && r.publishedAt.Some?)
    && (Building(r.status) <==> !Terminal(r.job.value.status))
    && (r.status.Staged? <==> r.job.value.status.Staged?)
    && (Building(r.status) ==>
          r.job.value.fence == d.fence && r.job.value.expected == d.current
          && r.number == d.counter && r.publishedAt.None?)
    && (r.status.Staged? || r.status.Ready? ==> ManifestOk(r))
    && (Active(r.status) <==> r.cleanup.None?)
    && (r.cleanup.Some? ==> CleanupOk(r.cleanup.value) && r.cleanupAfter.Some?)
    && (r.cleanedAt.Some? <==> r.cleanup.Some? && r.cleanup.value.status.Completed?)
  }

  function StatusFor(d: Document): DocStatus {
    if d.deletedAt.Some? then DocDeleted
    else if d.pending.Some? then (if d.current.Some? then DocUpdating else DocIndexing)
    else if d.current.Some? then DocReady else DocFailed
  }

  ghost predicate PointerOk(s: State, id: DocId, p: Option<VersionId>) {
    p.Some? ==> p.value in s.rows && s.rows[p.value].doc == id
  }

  ghost predicate DocOk(s: State, id: DocId)
    requires id in s.docs
  {
    var d := s.docs[id];
    && id.kb in s.kbs
    && PointerOk(s, id, d.current) && PointerOk(s, id, d.pending)
    && (d.deletedAt.Some? ==> d.current.None? && d.pending.None?)
    && d.status == StatusFor(d)
    && (d.current.Some? && d.pending.Some? ==>
          var a, b := s.rows[d.current.value], s.rows[d.pending.value];
          a.content != b.content || a.build != b.build)
  }

  ghost predicate RowAt(s: State, v: VersionId)
    requires v in s.rows
  {
    s.rows[v].doc in s.docs && RowOk(v, s.rows[v], s.docs[s.rows[v].doc])
  }

  ghost predicate RowsOk(s: State) {
    forall v {:trigger RowAt(s, v)} :: v in s.rows ==> RowAt(s, v)
  }

  /** The creation order lists every version once. */
  ghost predicate OrderOk(s: State) {
    && (forall v :: v in s.rows <==> v in s.order)
    && forall i, j :: 0 <= i < j < |s.order| ==> s.order[i] != s.order[j]
  }

  ghost predicate DocsOk(s: State) {
    forall id {:trigger DocOk(s, id)} :: id in s.docs ==> DocOk(s, id)
  }

  ghost predicate Inv(s: State) {
    DocsOk(s) && RowsOk(s) && OrderOk(s)
  }

  // ---------- Two-state relation ----------

  /** Whoever holds the lease afterwards under the same fence already held it before. */
  ghost predicate JobEvolves(a: IndexJob, t: Time, b: IndexJob, t': Time) {
    && a.fence == b.fence && a.maxAttempts == b.maxAttempts && a.expected == b.expected
    && a.execFence <= b.execFence
    && (Terminal(a.status) ==> b.status == a.status)
    && (forall w :: Live(b, Token(w, a.execFence), t') ==> Live(a, Token(w, a.execFence), t))
  }

  ghost predicate CleanupEvolves(a: CleanupJob, t: Time, b: CleanupJob, t': Time) {
    && a.execFence <= b.execFence
    && (a.status.Completed? ==> b.status.Completed?)
    && (forall w :: CleanupLive(b, Token(w, a.execFence), t') ==> CleanupLive(a, Token(w, a.execFence), t))
  }

  ghost predicate RowEvolves(a: Row, t: Time, b: Row, t': Time) {
    && b.doc == a.doc && b.number == a.number && b.content == a.content && b.build == a.build
    && b.collection == a.collection
    && (!Active(a.status) ==> b.status == a.status)
    && (a.status.Ready? ==> !Building(b.status))
    && (a.status.Staged? ==> b.status.Staged? || !Building(b.status))
    && (!Building(a.status) ==> b.manifest == a.manifest && b.chunkCount == a.chunkCount
                                && b.parentCount == a.parentCount && b.publishedAt == a.publishedAt)
    && (a.cleanedAt.Some? ==> b.cleanedAt == a.cleanedAt)
    && (a.job.Some? ==> b.job.Some? && JobEvolves(a.job.value, t, b.job.value, t'))
    && (a.cleanup.Some? ==> b.cleanup.Some? && CleanupEvolves(a.cleanup.value, t, b.cleanup.value, t'))
  }

  ghost predicate RowAfter(s: State, s': State, v: VersionId)
    requires v in s.rows
  {
    v in s'.rows && RowEvolves(s.rows[v], s.clock, s'.rows[v], s'.clock)
  }

  ghost predicate RowsEvolve(s: State, s': State) {
    forall v {:trigger RowAfter(s, s', v)} :: v in s.rows ==> RowAfter(s, s', v)
  }

  ghost predicate DocsEvolve(s: State, s': State) {
    forall id :: id in s.docs ==>
                   id in s'.docs && s.docs[id].fence <= s'.docs[id].fence && s.docs[id].counter <= s'.docs[id].counter
  }

  /** Versions added later carry larger numbers than the document had handed out before. */
  ghost predicate NumbersGrow(s: State, s': State) {
    forall v :: v in s'.rows && v !in s.rows && s'.rows[v].doc in s.docs ==>
                  s'.rows[v].number > s.docs[s'.rows[v].doc].counter
  }

  ghost predicate KbsEvolve(s: State, s': State) {
    forall k :: k in s.kbs ==> k in s'.kbs && s'.kbs[k] == s.kbs[k]
  }

  ghost predicate Evolves(s: State, s': State) {
    && s.clock <= s'.clock && KbsEvolve(s, s')
    && RowsEvolve(s, s') && DocsEvolve(s, s') && NumbersGrow(s, s')
  }

  lemma RowEvolvesReflexive(r: Row, t: Time)
    ensures RowEvolves(r, t, r, t)
  {
  }

  ghost predicate ChangedRowsEvolve(s: State, s': State)
    requires s.rows.Keys <= s'.rows.Keys
  {
    forall v {:trigger RowAfter(s, s', v)} :: v in s.rows ==> s'.rows[v] == s.rows[v] || RowAfter(s, s', v)
  }

  /** Only the rows a step changes have to be shown to evolve. */
  lemma EvolvesIf(s: State, s': State)
    requires s.clock == s'.clock && KbsEvolve(s, s') && DocsEvolve(s, s') && NumbersGrow(s, s')
    requires s.rows.Keys <= s'.rows.Keys && ChangedRowsEvolve(s, s')
    ensures Evolves(s, s')
  {
    forall v | v in s.rows ensures RowAfter(s, s', v) {
      if s'.rows[v] == s.rows[v] { RowEvolvesReflexive(s.rows[v], s.clock); }
    }
  }

  lemma EvolvesReflexive(s: State)
    ensures Evolves(s, s)
  {
    EvolvesIf(s, s);
  }

  lemma EvolvesTransitive(a: State, b: State, c: State)
    requires Evolves(a, b) && Evolves(b, c)
    ensures Evolves(a, c)
  {
    forall v | v in a.rows ensures RowAfter(a, c, v) {
      assert RowAfter(a, b, v) && RowAfter(b, c, v);
      RowEvolvesTransitive(a.rows[v], a.clock, b.rows[v], b.clock, c.rows[v], c.clock);
    }
    forall v | v in c.rows && v !in a.rows && c.rows[v].doc in a.docs
      ensures c.rows[v].number > a.docs[c.rows[v].doc].counter
    {
      if v in b.rows { assert RowAfter(b, c, v); }
    }
  }

  lemma RowEvolvesTransitive(a: Row, ta: Time, b: Row, tb: Time, c: Row, tc: Time)
    requires RowEvolves(a, ta, b, tb) && RowEvolves(b, tb, c, tc)
    ensures RowEvolves(a, ta, c, tc)
  {
    if a.job.Some? {
      var fence := a.job.value.execFence;
      forall w | Live(c.job.value, Token(w, fence), tc) ensures Live(a.job.value, Token(w, fence), ta) {
        assert b.job.value.execFence == fence;
        assert Live(b.job.value, Token(w, fence), tb);
      }
    }
    if a.cleanup.Some? {
      var fence := a.cleanup.value.execFence;
      forall w | CleanupLive(c.cleanup.value, Token(w, fence), tc)
        ensures CleanupLive(a.cleanup.value, Token(w, fence), ta)
      {
        assert b.cleanup.value.execFence == fence;
        assert CleanupLive(b.cleanup.value, Token(w, fence), tb);
      }
    }
  }

  // ---------- Frames: one document at a time ----------

  /** `s'` differs from `s` only in document `id` and in versions of that document. */
  ghost predicate Touches(s: State, s': State, id: DocId) {
    && s'.kbs == s.kbs && s'.clock == s.clock
    && s'.docs.Keys == s.docs.Keys + {id}
    && (forall d :: d in s.docs && d != id ==> s'.docs[d] == s.docs[d])
    && (forall v :: v in s.rows && s.rows[v].doc != id ==> v in s'.rows && s'.rows[v] == s.rows[v])
    && (forall v :: v in s.rows && s.rows[v].doc == id ==> v in s'.rows && s'.rows[v].doc == id)
    && (forall v :: v in s'.rows && v !in s.rows ==> s'.rows[v].doc == id)
  }

  ghost predicate DocRowsOk(s: State, id: DocId) {
    forall v {:trigger RowAt(s, v)} :: v in s.rows && s.rows[v].doc == id ==> RowAt(s, v)
  }

  /** The invariant need only be checked again for the document a step touches. */
  lemma Reestablish(s: State, s': State, id: DocId)
    requires Inv(s) && Touches(s, s', id)
    requires DocOk(s', id) && DocRowsOk(s', id) && OrderOk(s')
    ensures Inv(s')
  {
    forall d | d in s'.docs ensures DocOk(s', d) {
      if d != id { assert DocOk(s, d); }
    }
    forall v | v in s'.rows ensures RowAt(s', v) {
      if s'.rows[v].doc != id { assert RowAt(s, v); }
    }
  }

  /** A version that a step leaves alone stays consistent while its document's pointers to it do not change. */
  lemma BystanderOk(v: VersionId, r: Row, d: Document, d': Document)
    requires RowOk(v, r, d)
    requires d'.counter >= d.counter && d'.fence >= d.fence
    requires d'.current == Some(v) <==> d.current == Some(v)
    requires d'.pending == Some(v) <==> d.pending == Some(v)
    requires d.pending == Some(v) ==> d' == d
    requires d'.pending == d.pending || d'.pending.None? || d'.counter > d.counter
    ensures RowOk(v, r, d')
  {
  }

  /** `s'` rewrites version `v`, and at most clears the candidate pointer that held it. */
  ghost predicate RewritesRow(s: State, s': State, v: VersionId) {
    && v in s.rows && v in s'.rows && s'.rows[v].doc == s.rows[v].doc && s.rows[v].doc in s.docs
    && var id := s.rows[v].doc;
       var d := s.docs[id];
       && id in s'.docs
       && s' == s.(rows := s.rows[v := s'.rows[v]], docs := s.docs[id := s'.docs[id]])
       && (s'.docs[id] == d || (d.pending == Some(v) && s'.docs[id] == DropPending(d)))
  }

  /** A step that rewrites one version keeps the invariant once that version is consistent again. */
  lemma OneRow(s: State, s': State, v: VersionId)
    requires Inv(s) && RewritesRow(s, s', v)
    requires RowOk(v, s'.rows[v], s'.docs[s.rows[v].doc])
    requires RowEvolves(s.rows[v], s.clock, s'.rows[v], s.clock)
    ensures Inv(s') && Evolves(s, s')
  {
    OneRowDoc(s, s', v);
    OneRowBystanders(s, s', v);
    Reestablish(s, s', s.rows[v].doc);
    OneRowEvolves(s, s', v);
  }

  lemma OneRowDoc(s: State, s': State, v: VersionId)
    requires Inv(s) && RewritesRow(s, s', v)
    requires s'.rows[v].content == s.rows[v].content && s'.rows[v].build == s.rows[v].build
    ensures var id := s.rows[v].doc; DocOk(s', id) && Touches(s, s', id) && OrderOk(s')
  {
    assert DocOk(s, s.rows[v].doc);
  }

  lemma OneRowBystanders(s: State, s': State, v: VersionId)
    requires Inv(s) && RewritesRow(s, s', v)
    requires RowOk(v, s'.rows[v], s'.docs[s.rows[v].doc])
    ensures DocRowsOk(s', s.rows[v].doc)
  {
    var id := s.rows[v].doc;
    forall u | u in s'.rows && s'.rows[u].doc == id ensures RowAt(s', u) {
      if u != v {
        assert RowAt(s, u);
        BystanderOk(u, s.rows[u], s.docs[id], s'.docs[id]);
      }
    }
  }

  lemma OneRowEvolves(s: State, s': State, v: VersionId)
    requires RewritesRow(s, s', v)
    requires RowEvolves(s.rows[v], s.clock, s'.rows[v], s.clock)
    ensures Evolves(s, s')
  {
    EvolvesIf(s, s');
  }
}
