/** The read side: the retrieval snapshot of the catalog, and which steps change it. */
module Retrieval {
  import opened Prelude
  import opened CatalogState
  import opened CatalogOps
  import opened CatalogInvariant
  import opened CatalogSteps
  import opened CatalogRuns
  import opened CatalogQuiet
  import opened CatalogWrites

  // ---------- Snapshot ----------

  /** What the index fingerprint covers for one document. */
  datatype Visible = Visible(
    version: VersionId, number: nat, content: string, build: string, collection: string,
    chunkCount: nat, parentCount: nat, manifest: Manifest)

  type Payload = map<DocId, Visible>

  predicate InScope(s: State, id: DocId, tenant: string, kb: Option<KbId>) {
    && id in s.docs && id.kb in s.kbs && s.kbs[id.kb].active
    && id.kb.tenant == tenant && (kb.None? || id.kb == kb.value)
  }

  predicate ReadyCurrent(s: State, id: DocId) {
    && id in s.docs && s.docs[id].deletedAt.None?
    && s.docs[id].current.Some? && s.docs[id].current.value in s.rows
    && s.rows[s.docs[id].current.value].status.Ready?
  }

  function View(v: VersionId, row: Row): Visible {
    Visible(v, row.number, row.content, row.build, row.collection, row.chunkCount, row.parentCount, row.manifest)
  }

  function VisibleAt(s: State, id: DocId): Visible
    requires ReadyCurrent(s, id)
  {
    View(s.docs[id].current.value, s.rows[s.docs[id].current.value])
  }

  function Snapshot(s: State, tenant: string, kb: Option<KbId>): Payload {
    map id | id in s.docs && InScope(s, id, tenant, kb) && ReadyCurrent(s, id) :: VisibleAt(s, id)
  }

  /** A current pointer always leads to a ready version of a document that is not deleted. */
  lemma CurrentIsReady(s: State, id: DocId)
    requires Inv(s) && id in s.docs
    ensures ReadyCurrent(s, id) <==> s.docs[id].current.Some?
  {
    assert DocOk(s, id);
    if s.docs[id].current.Some? { assert RowAt(s, s.docs[id].current.value); }
  }

  /** The document belongs to an active knowledge base of the tenant, to the one asked for if one is. */
  ghost predicate Asked(s: State, id: DocId, tenant: string, kb: Option<KbId>) {
    && id in s.docs && id.kb in s.kbs && s.kbs[id.kb].active
    && id.kb.tenant == tenant && (kb == None || kb == Some(id.kb))
  }

  /** The documents of the tenant and knowledge base asked for, current or not. */
  ghost function Shelf(s: State, tenant: string, kb: Option<KbId>): set<DocId> {
    set id | id in s.docs && Asked(s, id, tenant, kb)
  }

  /** What readers see of version v. */
  ghost function Seen(s: State, v: VersionId): Visible
    requires v in s.rows
  {
    var row := s.rows[v];
    Visible(v, row.number, row.content, row.build, row.collection, row.chunkCount, row.parentCount, row.manifest)
  }

  /** The snapshot shows, of the documents of the tenant and knowledge base asked for, exactly the current versions. */
  lemma SnapshotExact(s: State, tenant: string, kb: Option<KbId>, id: DocId)
    requires Inv(s)
    ensures id in Snapshot(s, tenant, kb) <==> Asked(s, id, tenant, kb) && s.docs[id].current.Some?
    ensures id in Snapshot(s, tenant, kb) ==>
              s.docs[id].current.value in s.rows && Snapshot(s, tenant, kb)[id] == Seen(s, s.docs[id].current.value)
  {
    if id in s.docs { CurrentIsReady(s, id); }
  }

  /** While a document's current pointer stays, so does everything the snapshot shows of it. */
  lemma ViewKept(s: State, s': State, id: DocId)
    requires Inv(s) && Inv(s') && Evolves(s, s') && id in s.docs && id in s'.docs
    requires s'.docs[id].current == s.docs[id].current
    ensures ReadyCurrent(s, id) <==> ReadyCurrent(s', id)
    ensures ReadyCurrent(s, id) ==> VisibleAt(s', id) == VisibleAt(s, id)
  {
    CurrentIsReady(s, id);
    CurrentIsReady(s', id);
    if s.docs[id].current.Some? {
      var v := s.docs[id].current.value;
      assert RowAt(s, v);
      assert RowAfter(s, s', v);
    }
  }

  lemma SnapshotKept(s: State, s': State, tenant: string, kb: Option<KbId>)
    requires Inv(s) && Sound(s, s') && CurrentKept(s, s')
    ensures Snapshot(s', tenant, kb) == Snapshot(s, tenant, kb)
  {
    forall id | id in s'.docs
      ensures id in Snapshot(s', tenant, kb) <==> id in Snapshot(s, tenant, kb)
      ensures id in Snapshot(s, tenant, kb) ==> Snapshot(s', tenant, kb)[id] == Snapshot(s, tenant, kb)[id]
    {
      assert CurrentAt(s, s', id);
      if id in s.docs {
        assert DocOk(s, id);
        ViewKept(s, s', id);
      } else {
        CurrentIsReady(s', id);
      }
    }
  }

  /** Build isolation: only a publish or a retire changes what readers see. */
  lemma OnlyPublishAndRetireShow(s: State, step: Step, tenant: string, kb: Option<KbId>)
    requires Reachable(s) && !step.DoPublish? && !step.DoRetire?
    ensures Snapshot(Next(s, step), tenant, kb) == Snapshot(s, tenant, kb)
  {
    ReachableInv(s);
    NextSound(s, step);
    if step.DoRecordManifest? {
      RecordManifestQuiet(s, step.v, step.fence, step.entries, step.vectors, step.parents, step.execution, Next(s, step));
    } else if step.DoCompleteCleanup? || step.DoRecordCleanup? {
      CleanupEndQuiet(s, step);
    } else {
      StepQuiet(s, step, Next(s, step));
    }
    SnapshotKept(s, Next(s, step), tenant, kb);
  }

  ghost predicate SameEntry(p: Payload, q: Payload, d: DocId) {
    (d in p <==> d in q) && (d in p ==> p[d] == q[d])
  }

  lemma EntryKept(s: State, s': State, d: DocId, tenant: string, kb: Option<KbId>)
    requires Inv(s) && Inv(s') && Evolves(s, s') && s'.kbs == s.kbs && s'.docs.Keys == s.docs.Keys
    requires d in s.docs ==> s'.docs[d].current == s.docs[d].current
    ensures SameEntry(Snapshot(s, tenant, kb), Snapshot(s', tenant, kb), d)
  {
    if d in s.docs { ViewKept(s, s', d); }
  }

  /** A step that moves one document's current pointer changes no other entry. */
  lemma OtherEntriesKept(s: State, s': State, id: DocId, tenant: string, kb: Option<KbId>)
    requires Inv(s) && Sound(s, s') && s'.kbs == s.kbs && s'.docs.Keys == s.docs.Keys && id in s.docs
    requires forall d :: d in s.docs && d != id ==> s'.docs[d] == s.docs[d]
    ensures forall d {:trigger SameEntry(Snapshot(s, tenant, kb), Snapshot(s', tenant, kb), d)} ::
              d != id ==> SameEntry(Snapshot(s, tenant, kb), Snapshot(s', tenant, kb), d)
    ensures id in Snapshot(s', tenant, kb) <==> InScope(s, id, tenant, kb) && s'.docs[id].current.Some?
    ensures id in Snapshot(s', tenant, kb) ==> Snapshot(s', tenant, kb)[id] == VisibleAt(s', id)
  {
    CurrentIsReady(s', id);
    forall d | d != id ensures SameEntry(Snapshot(s, tenant, kb), Snapshot(s', tenant, kb), d) {
      EntryKept(s, s', d, tenant, kb);
    }
  }

  lemma SwitchShowsOneVersion(s: State, v: VersionId, tenant: string, kb: Option<KbId>)
    requires Inv(s) && Switchable(s, v)
    ensures var s', id := Switched(s, v), s.rows[v].doc;
            && v in s'.rows
            && Snapshot(s', tenant, kb) == if Asked(s, id, tenant, kb) then Snapshot(s, tenant, kb)[id := Seen(s', v)]
                                           else Snapshot(s, tenant, kb)
  {
    SwitchSound(s, v);
    var s', id := Switched(s, v), s.rows[v].doc;
    OtherEntriesKept(s, s', id, tenant, kb);
    SwitchedEntry(s, v, tenant, kb);
    SameButOne(Snapshot(s, tenant, kb), Snapshot(s', tenant, kb), id);
  }

  lemma SwitchedEntry(s: State, v: VersionId, tenant: string, kb: Option<KbId>)
    requires Inv(s) && Switchable(s, v) && Inv(Switched(s, v))
    ensures var s', id := Switched(s, v), s.rows[v].doc;
            && v in s'.rows
            && if Asked(s, id, tenant, kb) then id in Snapshot(s', tenant, kb) && Snapshot(s', tenant, kb)[id] == Seen(s', v)
               else id !in Snapshot(s, tenant, kb) && id !in Snapshot(s', tenant, kb)
  {
    SnapshotExact(s, tenant, kb, s.rows[v].doc);
    SnapshotExact(Switched(s, v), tenant, kb, s.rows[v].doc);
  }

  /** A publish that takes effect replaces exactly one entry of the snapshot; any other changes nothing. */
  lemma PublishShowsOneVersion(s: State, v: VersionId, fence: int, expected: Option<VersionId>,
                               execution: Option<Token>, s': State, tenant: string, kb: Option<KbId>)
    requires Reachable(s) && v in s.rows && s' == Publish(s, v, fence, expected, execution).0
    ensures var a := Publish(s, v, fence, expected, execution).1;
            var id := s.rows[v].doc;
            if a.Ok? && a.value.published && Asked(s, id, tenant, kb)
            then v in s'.rows && Snapshot(s', tenant, kb) == Snapshot(s, tenant, kb)[id := Seen(s', v)]
            else Snapshot(s', tenant, kb) == Snapshot(s, tenant, kb)
  {
    ReachableInv(s);
    LocalOk(s, v);
    PublishAnswer(s, v, fence, expected, execution);
    if s.rows[v].status.Staged? { SwitchShowsOneVersion(s, v, tenant, kb); }
  }

  lemma SameButOne(p: Payload, q: Payload, id: DocId)
    requires forall d {:trigger SameEntry(p, q, d)} :: d != id ==> SameEntry(p, q, d)
    ensures id in q ==> q == p[id := q[id]]
    ensures id !in q ==> q == p - {id}
  {
    forall d | d != id ensures (d in p <==> d in q) && (d in p ==> p[d] == q[d]) {
      assert SameEntry(p, q, d);
    }
  }

  /** Retiring a document removes exactly its entry. */
  lemma RetireHidesOneDocument(s: State, id: DocId, tenant: string, kb: Option<KbId>)
    requires Reachable(s) && id in s.docs && RetireDoc(s, id).1.Ok?
    ensures Snapshot(RetireDoc(s, id).0, tenant, kb) == Snapshot(s, tenant, kb) - {id}
  {
    ReachableInv(s);
    var s' := RetireDoc(s, id).0;
    RetireDocSound(s, id, s');
    assert DocOk(s, id);
    OtherEntriesKept(s, s', id, tenant, kb);
    SameButOne(Snapshot(s, tenant, kb), Snapshot(s', tenant, kb), id);
  }
}
