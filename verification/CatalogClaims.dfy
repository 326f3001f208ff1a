// Which index job a claim leases: exactly the first one that can be worked on.
//
// Statuses, times and attempts are stated on the columns of the job. `order` lists the
// versions by creation.
module CatalogClaims {
  import opened Prelude
  import opened CatalogState
  import opened CatalogOps
  import opened CatalogInvariant
  import opened CatalogSteps
  import opened CatalogWrites

  // ---------- What is on offer ----------

  /** The version is unlocked and, unless it is staged, of a build the worker can do. */
  ghost predicate Suits(s: State, v: VersionId, c: Claim) {
    && v in s.rows && s.rows[v].job.Some? && v !in c.locked
    && (c.capability.None? || s.rows[v].job.value.status.Staged? || c.capability == Some(s.rows[v].build))
  }

  /** The worker's own job, under a lease that still runs. */
  ghost predicate Own(s: State, v: VersionId, c: Claim) {
    && Suits(s, v, c)
    && var j := s.rows[v].job.value;
       && j.owner == Some(c.worker) && (j.status.Running? || j.status.Staged?)
       && j.lease.Some? && s.clock < j.lease.value
  }

  /** A job nobody holds a running lease on, that is pending, running, or waiting for a time that has come. */
  ghost predicate Idle(j: IndexJob, now: Time) {
    && (j.lease.None? || j.lease.value <= now)
    && (|| j.status.Pending? || j.status.Running?
        || (j.status.RetryWait? && j.nextRetry.Some? && j.nextRetry.value <= now)
        || (j.status.Staged? && (j.nextRetry.None? || j.nextRetry.value <= now)))
  }

  /** Attempts are left; a staged job whose worker vanished on the last one gets one more. */
  ghost predicate Left(j: IndexJob) {
    j.attempts < j.maxAttempts || (j.status.Staged? && j.nextRetry.None? && j.attempts == j.maxAttempts)
  }

  ghost predicate OnOffer(s: State, v: VersionId, c: Claim) { Suits(s, v, c) && Idle(s.rows[v].job.value, s.clock) }

  ghost predicate Workable(s: State, v: VersionId, c: Claim) { OnOffer(s, v, c) && Left(s.rows[v].job.value) }

  /** An offered job whose attempts are used up. */
  ghost predicate UsedUp(s: State, v: VersionId, c: Claim) { OnOffer(s, v, c) && !Left(s.rows[v].job.value) }

  /** Staged jobs come first, then pending ones, then retries, then abandoned ones. */
  predicate Sooner(a: JobStatus, b: JobStatus) {
    || (a.Staged? && !b.Staged?)
    || (a.Pending? && (b.RetryWait? || b.Running?))
    || (a.RetryWait? && b.Running?)
  }

  /** u was created before v. */
  ghost predicate Older(s: State, u: VersionId, v: VersionId) {
    exists i, j :: 0 <= i < j < |s.order| && s.order[i] == u && s.order[j] == v
  }

  /** A claim prefers u to v: for its status, and among equals for its age. */
  ghost predicate Ahead(s: State, u: VersionId, v: VersionId) {
    && u in s.rows && s.rows[u].job.Some? && v in s.rows && s.rows[v].job.Some?
    && var a, b := s.rows[u].job.value.status, s.rows[v].job.value.status;
       Sooner(a, b) || (a == b && Older(s, u, v))
  }

  /** u can be worked on, and is ahead of everything else that can. */
  ghost predicate First(s: State, c: Claim, u: VersionId) {
    Workable(s, u, c) && forall w :: Workable(s, w, c) && w != u ==> Ahead(s, u, w)
  }

  // ---------- The pick of one round ----------

  lemma ClaimableMeans(s: State, v: VersionId, c: Claim)
    requires v in s.rows ==> Local(s, v)
    ensures Claimable(s, v, c) <==> OnOffer(s, v, c)
    ensures OnOffer(s, v, c) ==> (Exhausted(s.rows[v].job.value) <==> !Left(s.rows[v].job.value))
  {
  }

  lemma PriorityMeans(a: JobStatus, b: JobStatus)
    requires !Terminal(a) && !Terminal(b)
    ensures IndexPriority(a) < IndexPriority(b) <==> Sooner(a, b)
    ensures IndexPriority(a) == IndexPriority(b) <==> a == b
  {
  }

  /** The pick among the first n versions is ahead of every other claimable one of them. */
  lemma {:induction false} PickIsFirst(s: State, c: Claim, n: nat, w: VersionId)
    requires n <= |s.order| && w in s.order[..n] && Claimable(s, w, c)
    ensures var pick := PickIndex(s, s.order[..n], c);
            pick.Some? && pick.value in s.order[..n] && Claimable(s, pick.value, c) && (pick.value == w || Ahead(s, pick.value, w))
  {
    var ids, v := s.order[..n], s.order[n - 1];
    var best := PickIndex(s, s.order[..n - 1], c);
    assert ids[..n - 1] == s.order[..n - 1];
    if w in s.order[..n - 1] {
      PickIsFirst(s, c, n - 1, w);
      PickKeepsAhead(s, c, v, best.value, w);
    } else {
      assert w == v;
      if best.Some? {
        PriorityMeans(s.rows[v].job.value.status, s.rows[best.value].job.value.status);
        PriorityMeans(s.rows[best.value].job.value.status, s.rows[v].job.value.status);
        var i :| 0 <= i < n - 1 && s.order[..n - 1][i] == best.value;
        assert s.order[i] == best.value;
      }
    }
  }

  lemma PickKeepsAhead(s: State, c: Claim, v: VersionId, best: VersionId, w: VersionId)
    requires Claimable(s, best, c) && Claimable(s, w, c) && (best == w || Ahead(s, best, w))
    ensures Claimable(s, v, c) && IndexPriority(s.rows[v].job.value.status) < IndexPriority(s.rows[best].job.value.status) ==>
              Ahead(s, v, w)
  {
    if Claimable(s, v, c) {
      var a, b, d := s.rows[v].job.value.status, s.rows[best].job.value.status, s.rows[w].job.value.status;
      PriorityMeans(a, b);
      PriorityMeans(b, d);
      PriorityMeans(a, d);
    }
  }

  // ---------- The rounds of a claim ----------

  /** The row of a version freshly leased to the worker. */
  ghost function LeasedRow(row: Row, c: Claim, now: Time): Row
    requires row.job.Some?
  {
    var j := row.job.value;
    var leased := j.(owner := Some(c.worker), lease := Some(now + c.seconds), execFence := j.execFence + 1,
                     attempts := j.attempts + 1, nextRetry := None);
    if j.status.Staged? then row.(job := Some(leased))
    else row.(job := Some(leased.(status := JobStatus.Running)),
              status := if j.step in {"upload", "uploaded", "reserve", "parse", "parsing"} then Parsing
                        else VersionStatus.Indexing)
  }

  /** Used-up jobs met before the picked one, or all of them, are closed on the way. */
  ghost predicate Closed(s: State, c: Claim, picked: Option<VersionId>, v: VersionId) {
    UsedUp(s, v, c) && (picked.None? || Ahead(s, v, picked.value))
  }

  ghost function RowAfterClaim(s: State, c: Claim, picked: Option<VersionId>, v: VersionId): Row
    requires v in s.rows && s.rows[v].job.Some?
  {
    var row := s.rows[v];
    if picked == Some(v) then LeasedRow(row, c, s.clock)
    else if Closed(s, c, picked, v) then
      GivenUp(row, VersionStatus.Failed, s.clock, s.clock, row.job.value.maxAttempts).(job := Some(Buried(row.job.value)))
    else row
  }

  ghost function DocAfterClaim(s: State, c: Claim, picked: Option<VersionId>, id: DocId): Document
    requires id in s.docs
  {
    var d := s.docs[id];
    if d.pending.Some? && Closed(s, c, picked, d.pending.value) then Dropped(d) else d
  }

  lemma BuryFails(s: State, w: VersionId)
    requires Local(s, w) && Open(s.rows[w].job.value)
    ensures DeadLetterLocked(s, w).0 == Failing(s, w, Buried(s.rows[w].job.value))
  {
    AbandonFails(s, w, Buried(s.rows[w].job.value));
  }

  /** The two ways a round goes on: the pick is leased, or closed before the next round. */
  lemma ClaimRound(s: State, c: Claim) returns (pick: Option<VersionId>)
    requires Inv(s)
    ensures pick == PickIndex(s, s.order, c)
    ensures pick.None? ==> ClaimLoop(s, c) == (s, Ok(None)) && forall w :: !OnOffer(s, w, c)
    ensures pick.Some? ==>
              && OnOffer(s, pick.value, c) && Local(s, pick.value)
              && (forall w :: OnOffer(s, w, c) && w != pick.value ==> Ahead(s, pick.value, w))
              && if Left(s.rows[pick.value].job.value) then ClaimLoop(s, c) == (Lease(s, pick.value, c), Ok(pick))
                 else var s1 := Failing(s, pick.value, Buried(s.rows[pick.value].job.value));
                      Inv(s1) && ClaimLoop(s, c) == ClaimLoop(s1, c) && OpenJobs(s1) < OpenJobs(s)
  {
    pick := PickIndex(s, s.order, c);
    assert s.order[..|s.order|] == s.order;
    forall w | OnOffer(s, w, c) ensures pick.Some? && (w == pick.value || Ahead(s, pick.value, w)) {
      LocalOk(s, w);
      ClaimableMeans(s, w, c);
      PickIsFirst(s, c, |s.order|, w);
    }
    if pick.Some? {
      var v := pick.value;
      LocalOk(s, v);
      ClaimableMeans(s, v, c);
      OpenJobIsCandidate(s, v);
      if !Left(s.rows[v].job.value) {
        BuryFails(s, v);
        DeadLetterSound(s, v);
        DeadLetterFrame(s, v);
        assert v in OpenJobs(s);
      }
    }
  }

  /** Closing one used-up job leaves every other offer as it was. */
  ghost predicate Without(s: State, p: VersionId, s1: State) {
    && s1 == s.(rows := s1.rows, docs := s1.docs) && s1.rows.Keys == s.rows.Keys
    && p in s1.rows && s1.rows[p].job.Some? && Terminal(s1.rows[p].job.value.status)
    && forall u :: u in s.rows && u != p ==> s1.rows[u] == s.rows[u]
  }

  lemma OffersKept(s: State, p: VersionId, s1: State, c: Claim, u: VersionId, v: VersionId)
    requires Without(s, p, s1)
    ensures !OnOffer(s1, p, c)
    ensures u != p ==> (OnOffer(s1, u, c) <==> OnOffer(s, u, c)) && (Workable(s1, u, c) <==> Workable(s, u, c))
    ensures u != p && v != p ==> (Ahead(s1, u, v) <==> Ahead(s, u, v))
  {
  }

  /** Without a pick w cannot be worked on; otherwise the pick can, and is ahead of w if w can. */
  ghost predicate Picks(s: State, c: Claim, picked: Option<VersionId>, w: VersionId) {
    if picked.None? then !Workable(s, w, c)
    else Workable(s, picked.value, c) && (Workable(s, w, c) && w != picked.value ==> Ahead(s, picked.value, w))
  }

  lemma RoundPicks(s: State, p: VersionId, s1: State, c: Claim, picked: Option<VersionId>, w: VersionId)
    requires Without(s, p, s1) && !Workable(s, p, c) && Picks(s1, c, picked, w)
    ensures Picks(s, c, picked, w)
  {
    OffersKept(s, p, s1, c, w, w);
    if picked.Some? { OffersKept(s, p, s1, c, picked.value, w); }
  }

  lemma FailingIsWithout(s: State, p: VersionId)
    requires Local(s, p)
    ensures Without(s, p, Failing(s, p, Buried(s.rows[p].job.value)))
  {
  }

  lemma {:induction false} ClaimLoopPicks(s: State, c: Claim, w: VersionId)
    requires Inv(s)
    ensures Picks(s, c, ClaimLoop(s, c).1.value, w)
    decreases OpenJobs(s)
  {
    var pick := ClaimRound(s, c);
    if pick.Some? && !Left(s.rows[pick.value].job.value) {
      var s1 := Failing(s, pick.value, Buried(s.rows[pick.value].job.value));
      ClaimLoopPicks(s1, c, w);
      FailingIsWithout(s, pick.value);
      RoundPicks(s, pick.value, s1, c, ClaimLoop(s1, c).1.value, w);
    }
  }

  /** What one claim leaves of a version and of a document. */
  ghost predicate Leaves(s: State, c: Claim, s': State, picked: Option<VersionId>, v: VersionId, id: DocId)
    requires Inv(s)
  {
    && s' == s.(rows := s'.rows, docs := s'.docs) && s'.rows.Keys == s.rows.Keys && s'.docs.Keys == s.docs.Keys
    && (v in s.rows ==> s.rows[v].job.Some? && s'.rows[v] == RowAfterClaim(s, c, picked, v))
    && (id in s.docs ==> s'.docs[id] == DocAfterClaim(s, c, picked, id))
  }

  lemma LeaseLeaves(s: State, c: Claim, p: VersionId, v: VersionId, id: DocId)
    requires Inv(s) && Local(s, p) && OnOffer(s, p, c) && Left(s.rows[p].job.value)
    requires forall w :: OnOffer(s, w, c) && w != p ==> Ahead(s, p, w)
    ensures Leaves(s, c, Lease(s, p, c), Some(p), v, id)
  {
    if v in s.rows { LocalOk(s, v); }
    if UsedUp(s, v, c) { NotBoth(s, p, v); }
    if id in s.docs && s.docs[id].pending.Some? && UsedUp(s, s.docs[id].pending.value, c) {
      NotBoth(s, p, s.docs[id].pending.value);
    }
  }

  /** Of two jobs at most one is ahead of the other. */
  lemma NotBoth(s: State, u: VersionId, v: VersionId)
    requires OrderOk(s) && Ahead(s, u, v)
    ensures !Ahead(s, v, u)
  {
  }

  lemma IdleLeaves(s: State, c: Claim, v: VersionId, id: DocId)
    requires Inv(s) && forall w :: !OnOffer(s, w, c)
    ensures Leaves(s, c, s, None, v, id)
  {
    if v in s.rows { LocalOk(s, v); }
  }

  lemma RoundLeaves(s: State, c: Claim, p: VersionId, s': State, picked: Option<VersionId>, v: VersionId, id: DocId)
    requires Inv(s) && Local(s, p) && UsedUp(s, p, c) && Inv(Failing(s, p, Buried(s.rows[p].job.value)))
    requires forall w :: OnOffer(s, w, c) && w != p ==> Ahead(s, p, w)
    requires picked.Some? ==> Workable(Failing(s, p, Buried(s.rows[p].job.value)), picked.value, c)
    requires Leaves(Failing(s, p, Buried(s.rows[p].job.value)), c, s', picked, v, id)
    ensures Leaves(s, c, s', picked, v, id)
  {
    var s1 := Failing(s, p, Buried(s.rows[p].job.value));
    FailingIsWithout(s, p);
    OffersKept(s, p, s1, c, v, v);
    if v in s.rows { LocalOk(s, v); }
    if picked.Some? { OffersKept(s, p, s1, c, picked.value, v); OffersKept(s, p, s1, c, v, picked.value); }
    if id in s.docs && s.docs[id].pending.Some? {
      var q := s.docs[id].pending.value;
      assert DocOk(s, id);
      OffersKept(s, p, s1, c, q, q);
      if picked.Some? { OffersKept(s, p, s1, c, q, picked.value); }
    }
  }

  lemma {:induction false} ClaimLoopLeaves(s: State, c: Claim, v: VersionId, id: DocId)
    requires Inv(s)
    ensures var (s', a) := ClaimLoop(s, c); Leaves(s, c, s', a.value, v, id)
    decreases OpenJobs(s)
  {
    var pick := ClaimRound(s, c);
    if pick.None? {
      IdleLeaves(s, c, v, id);
    } else if Left(s.rows[pick.value].job.value) {
      LeaseLeaves(s, c, pick.value, v, id);
    } else {
      var s1 := Failing(s, pick.value, Buried(s.rows[pick.value].job.value));
      ClaimLoopLeaves(s1, c, v, id);
      ClaimLoopPicks(s1, c, v);
      RoundLeaves(s, c, pick.value, ClaimLoop(s1, c).0, ClaimLoop(s1, c).1.value, v, id);
    }
  }

  // ---------- The claim ----------

  lemma {:induction false} FirstOwnedIs(s: State, c: Claim, ids: seq<VersionId>)
    requires Inv(s)
    ensures var owned := FirstOwned(s, ids, c);
            if owned.None? then forall i :: 0 <= i < |ids| ==> !Own(s, ids[i], c)
            else exists i :: 0 <= i < |ids| && ids[i] == owned.value && Own(s, ids[i], c)
                             && forall k :: 0 <= k < i ==> !Own(s, ids[k], c)
  {
    if ids != [] {
      if ids[0] in s.rows { LocalOk(s, ids[0]); }
      FirstOwnedIs(s, c, ids[1..]);
    }
  }

  /** The worker's oldest own job. */
  ghost predicate Oldest(s: State, c: Claim, u: VersionId) {
    Own(s, u, c) && forall w :: Own(s, w, c) && w != u ==> Older(s, u, w)
  }

  lemma OwnedIsOldest(s: State, c: Claim)
    requires Inv(s)
    ensures var owned := FirstOwned(s, s.order, c);
            if owned.None? then forall w :: !Own(s, w, c) else Oldest(s, c, owned.value)
  {
    var owned := FirstOwned(s, s.order, c);
    FirstOwnedIs(s, c, s.order);
    if owned.None? {
      forall w | w in s.rows ensures !Own(s, w, c) { assert w in s.order; }
    } else {
      var i :| 0 <= i < |s.order| && s.order[i] == owned.value && Own(s, s.order[i], c)
               && forall k :: 0 <= k < i ==> !Own(s, s.order[k], c);
      forall w | Own(s, w, c) && w != owned.value ensures Older(s, owned.value, w) {
        assert w in s.order;
        var j :| 0 <= j < |s.order| && s.order[j] == w;
      }
    }
  }

  /** A claim renews the worker's own lease if it has one. Otherwise it leases the first job that can be worked on, and
      returns none exactly when there is none; used-up jobs ahead of it are closed, and nothing else changes. */
  lemma ClaimExact(s: State, c: Claim)
    requires Inv(s)
    ensures c.seconds < 1 ==> ClaimIndex(s, c) == (s, Err(InvalidRequest))
    ensures c.seconds >= 1 ==>
              var (s', a) := ClaimIndex(s, c);
              && a.Ok?
              && if exists v :: Own(s, v, c) then
                   && a.value.Some? && Oldest(s, c, a.value.value)
                   && var row := s.rows[a.value.value];
                      s' == s.(rows := s.rows[a.value.value := row.(
                                 job := Some(row.job.value.(lease := Some(s.clock + c.seconds))))])
                 else
                   && (a.value.None? <==> forall v :: !Workable(s, v, c))
                   && (a.value.Some? ==> First(s, c, a.value.value))
                   && forall v, id :: Leaves(s, c, s', a.value, v, id)
  {
    OwnedIsOldest(s, c);
    if c.seconds >= 1 && FirstOwned(s, s.order, c).None? {
      ClaimLoopExact(s, c);
    }
  }

  lemma ClaimLoopExact(s: State, c: Claim)
    requires Inv(s)
    ensures var (s', a) := ClaimLoop(s, c);
            && (a.value.None? <==> forall v :: !Workable(s, v, c))
            && (a.value.Some? ==> First(s, c, a.value.value))
            && forall v, id :: Leaves(s, c, s', a.value, v, id)
  {
    var (s', a) := ClaimLoop(s, c);
    forall w ensures Picks(s, c, a.value, w) { ClaimLoopPicks(s, c, w); }
    PickedIsFirst(s, c, a.value);
    forall v, id ensures Leaves(s, c, s', a.value, v, id) { ClaimLoopLeaves(s, c, v, id); }
  }

  lemma PickedIsFirst(s: State, c: Claim, picked: Option<VersionId>)
    requires forall w :: Picks(s, c, picked, w)
    ensures picked.None? <==> forall v :: !Workable(s, v, c)
    ensures picked.Some? ==> First(s, c, picked.value)
  {
    if picked.None? {
      forall v ensures !Workable(s, v, c) { assert Picks(s, c, picked, v); }
    } else {
      assert Picks(s, c, picked, picked.value);
      forall w | Workable(s, w, c) && w != picked.value ensures Ahead(s, picked.value, w) { assert Picks(s, c, picked, w); }
    }
  }
}
