/** Tenants are apart: what one tenant does never shows in what another one reads. */
module RetrievalTenants {
  import opened Prelude
  import opened CatalogState
  import opened CatalogOps
  import opened CatalogInvariant
  import opened CatalogSteps
  import opened CatalogRuns
  import opened CatalogWrites
  import opened CatalogClaims
  import opened Retrieval
  import opened RetrievalScope
  import opened Text
  import CatalogCleanups

  /** Steps that show, hide or add a document of the tenant. */
  ghost predicate Concerns(s: State, step: Step, tenant: string) {
    || (step.DoPublish? && step.v in s.rows && s.rows[step.v].doc.kb.tenant == tenant)
    || (step.DoRetire? && step.tenant == tenant)
    || (step.DoReserve? && step.upload.kb.tenant == tenant)
  }

  /** No document is added. */
  ghost predicate SameDocs(s: State, s': State) { s'.docs.Keys == s.docs.Keys }

  lemma RecordDocs(s: State, v: VersionId, fence: int, entries: seq<Entry>, vs: Option<int>, ps: Option<int>,
                   ex: Option<Token>, s': State)
    requires Inv(s) && s' == RecordManifest(s, v, fence, entries, vs, ps, ex).0
    ensures SameDocs(s, s')
  {
    RecordExact(s, v, fence, entries, vs, ps, ex);
  }

  lemma PublishDocs(s: State, v: VersionId, fence: int, expected: Option<VersionId>, ex: Option<Token>, s': State)
    requires Inv(s) && s' == Publish(s, v, fence, expected, ex).0
    ensures SameDocs(s, s')
  {
    PublishExact(s, v, fence, expected, ex);
  }

  lemma FailDocs(s: State, v: VersionId, fence: int, ex: Option<Token>, s': State)
    requires Inv(s) && s' == Fail(s, v, fence, ex).0
    ensures SameDocs(s, s')
  {
    FailExact(s, v, fence, ex);
  }

  lemma UpdateDocs(s: State, v: VersionId, fence: int, status: Option<JobStatus>, name: Option<string>, ex: Option<Token>,
                   s': State)
    requires Inv(s) && s' == UpdateJob(s, v, fence, status, name, ex).0
    ensures SameDocs(s, s')
  {
    UpdateExact(s, v, fence, status, name, ex);
  }

  lemma ClaimDocs(s: State, c: Claim, s': State)
    requires Inv(s) && s' == ClaimIndex(s, c).0
    ensures SameDocs(s, s')
  {
    if c.seconds >= 1 && FirstOwned(s, s.order, c).None? {
      forall id ensures id in s'.docs <==> id in s.docs { ClaimLoopLeaves(s, c, 0, id); }
    }
  }

  lemma HoldDocs(s: State, v: VersionId, token: Token, n: int)
    requires Inv(s)
    ensures SameDocs(s, HeartbeatIndex(s, v, token, n).0) && SameDocs(s, RetryIndex(s, v, token, n).0)
    ensures SameDocs(s, DeadLetterIndex(s, v, token).0)
  {
    HeartbeatExact(s, v, token, n);
    RetryExact(s, v, token, n);
    DeadLetterExact(s, v, token);
  }

  lemma RetireDocs(s: State, tenant: string, name: string, kb: Option<KbId>, s': State)
    requires s' == Retire(s, tenant, name, kb).0
    ensures SameDocs(s, s')
  {
    forall id | id in CatalogOps.Named(s, tenant, name, kb) ensures SameDocs(s, RetireDoc(s, id).0) { }
  }

  lemma ClaimCleanupDocs(s: State, worker: Worker, seconds: int, locked: set<VersionId>, s': State)
    requires Inv(s) && s' == ClaimCleanup(s, worker, seconds, locked).0
    ensures SameDocs(s, s')
  {
    if seconds >= 1 && FirstOwnedCleanup(s, s.order, worker, locked).None? {
      CatalogCleanups.LoopLeaves(s, worker, seconds, locked, 0);
    }
  }

  lemma CleanedDocs(s: State, step: Step, s': State)
    requires CleanupStep(step) && !step.DoClaimCleanup? && s' == Next(s, step)
    ensures SameDocs(s, s')
  {
  }

  lemma CleanupDocs(s: State, step: Step, s': State)
    requires Inv(s) && CleanupStep(step) && s' == Next(s, step)
    ensures SameDocs(s, s')
  {
    if step.DoClaimCleanup? {
      ClaimCleanupDocs(s, step.worker, step.seconds, step.locked, s');
    } else {
      CleanedDocs(s, step, s');
    }
  }

  lemma StepDocs(s: State, step: Step, s': State)
    requires Inv(s) && !step.DoReserve? && !CleanupStep(step) && s' == Next(s, step)
    ensures SameDocs(s, s')
  {
    match step
    case AdvanceClock(_) =>
    case AddKb(_, _) =>
    case DoRecordManifest(v, fence, entries, vs, ps, ex) => RecordDocs(s, v, fence, entries, vs, ps, ex, s');
    case DoPublish(v, fence, expected, ex) => PublishDocs(s, v, fence, expected, ex, s');
    case DoFail(v, fence, ex) => FailDocs(s, v, fence, ex, s');
    case DoUpdateJob(v, fence, status, name, ex) => UpdateDocs(s, v, fence, status, name, ex, s');
    case DoClaimIndex(c) => ClaimDocs(s, c, s');
    case DoHeartbeatIndex(v, token, seconds) => HoldDocs(s, v, token, seconds);
    case DoRetryIndex(v, token, delay) => HoldDocs(s, v, token, delay);
    case DoDeadLetterIndex(v, token) => HoldDocs(s, v, token, 0);
    case DoRetire(tenant, name, kb) => RetireDocs(s, tenant, name, kb, s');
  }

  ghost predicate SameDocsOf(s: State, s': State, tenant: string) {
    forall id: DocId :: id.kb.tenant == tenant ==> (id in s'.docs <==> id in s.docs)
  }

  lemma DocsKept(s: State, step: Step, s': State, tenant: string)
    requires Inv(s) && s' == Next(s, step) && !Concerns(s, step, tenant)
    ensures SameDocsOf(s, s', tenant)
  {
    if step.DoReserve? {
      ReserveCases(s, step.upload, step.newId, s');
    } else if CleanupStep(step) {
      CleanupDocs(s, step, s');
    } else {
      StepDocs(s, step, s');
    }
  }

  lemma AskedKept(s: State, s': State, tenant: string, kb: Option<KbId>, id: DocId)
    requires Inv(s) && Evolves(s, s') && SameDocsOf(s, s', tenant)
    ensures Asked(s', id, tenant, kb) <==> Asked(s, id, tenant, kb)
  {
    if id in s.docs { assert DocOk(s, id); }
  }

  lemma ShelfKept(s: State, step: Step, s': State, tenant: string, kb: Option<KbId>)
    requires Inv(s) && s' == Next(s, step) && !Concerns(s, step, tenant)
    ensures Shelf(s', tenant, kb) == Shelf(s, tenant, kb)
  {
    NextSound(s, step);
    DocsKept(s, step, s', tenant);
    forall id ensures Asked(s', id, tenant, kb) <==> Asked(s, id, tenant, kb) { AskedKept(s, s', tenant, kb, id); }
  }

  lemma RetireElsewhere(s: State, t: string, name: string, k: Option<KbId>, tenant: string, kb: Option<KbId>)
    requires Reachable(s) && t != tenant
    ensures Snapshot(Retire(s, t, name, k).0, tenant, kb) == Snapshot(s, tenant, kb)
  {
    ReachableInv(s);
    forall id | id in CatalogOps.Named(s, t, name, k) ensures Snapshot(RetireDoc(s, id).0, tenant, kb) == Snapshot(s, tenant, kb) {
      RetireDocElsewhere(s, id, tenant, kb);
    }
  }

  lemma RetireDocElsewhere(s: State, id: DocId, tenant: string, kb: Option<KbId>)
    requires Reachable(s) && id in s.docs && id.kb.tenant != tenant
    ensures Snapshot(RetireDoc(s, id).0, tenant, kb) == Snapshot(s, tenant, kb)
  {
    if RetireDoc(s, id).1.Ok? { RetireHidesOneDocument(s, id, tenant, kb); }
  }

  /** Tenants are apart: a step that shows, hides or adds no document of the tenant leaves its snapshot and its documents
      as they were. */
  lemma TenantsAreApart(s: State, step: Step, tenant: string, kb: Option<KbId>)
    requires Reachable(s) && !Concerns(s, step, tenant)
    ensures Snapshot(Next(s, step), tenant, kb) == Snapshot(s, tenant, kb)
    ensures Shelf(Next(s, step), tenant, kb) == Shelf(s, tenant, kb)
  {
    ReachableInv(s);
    ShelfKept(s, step, Next(s, step), tenant, kb);
    if step.DoPublish? {
      if step.v in s.rows {
        LocalOk(s, step.v);
        PublishShowsOneVersion(s, step.v, step.fence, step.expected, step.execution, Next(s, step), tenant, kb);
      }
    } else if step.DoRetire? {
      RetireElsewhere(s, step.tenant, step.name, step.kb, tenant, kb);
    } else {
      OnlyPublishAndRetireShow(s, step, tenant, kb);
    }
  }

  /** So what a tenant is told to query is the same before and after. */
  lemma AnswersAreApart(s: State, step: Step, tenantId: string, kb: Option<KbId>, level: int,
                        r: Answer<Resolved, ScopeError>, r': Answer<Resolved, ScopeError>)
    requires Reachable(s) && !Concerns(s, step, Strip(tenantId))
    requires Resolves(s, tenantId, kb, level, r) && Resolves(Next(s, step), tenantId, kb, level, r')
    ensures r' == r
  {
    TenantsAreApart(s, step, Strip(tenantId), kb);
    OneAnswer(s, Next(s, step), tenantId, kb, level, r, r');
  }
}
