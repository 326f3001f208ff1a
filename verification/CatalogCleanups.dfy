// Which cleanup job a claim leases, when cleanup writes succeed, and what they leave.
//
// As for index jobs, everything is stated on the columns of the rows.
module CatalogCleanups {
  import opened Prelude
  import opened CatalogState
  import opened CatalogOps
  import opened CatalogInvariant
  import opened CatalogSteps
  import opened CatalogClaims

  // ---------- What is on offer ----------

  /** A version given up, with its cleanup job and its document. */
  ghost predicate GivenUpLocal(s: State, v: VersionId) {
    CleanupGraph(s, v) && RowAt(s, v)
  }

  lemma CleanupLocalOk(s: State, v: VersionId)
    requires Inv(s) && v in s.rows
    ensures RowAt(s, v) && (s.rows[v].cleanup.Some? ==> GivenUpLocal(s, v))
  {
    assert RowAt(s, v);
    assert DocOk(s, s.rows[v].doc);
  }

  ghost predicate HasCleanup(s: State, v: VersionId) { v in s.rows && s.rows[v].cleanup.Some? }

  /** Only its holder may write to a cleanup job, while its lease runs. */
  ghost predicate Holder(c: CleanupJob, token: Token, now: Time) {
    && c.owner == Some(token.worker) && c.execFence == token.fence
    && c.lease.Some? && now < c.lease.value
  }

  ghost predicate OwnCleanup(s: State, v: VersionId, worker: Worker, locked: set<VersionId>) {
    && HasCleanup(s, v) && v !in locked
    && var c := s.rows[v].cleanup.value; c.owner == Some(worker) && c.lease.Some? && s.clock < c.lease.value
  }

  /** The version may be cleaned by now and is not, and its cleanup job is due or was left behind by its worker. */
  ghost predicate Cleanable(s: State, v: VersionId, locked: set<VersionId>) {
    && HasCleanup(s, v) && v !in locked
    && var row, c := s.rows[v], s.rows[v].cleanup.value;
       && row.cleanedAt.None? && row.cleanupAfter.Some? && row.cleanupAfter.value <= s.clock
       && (|| ((c.status.Pending? || c.status.RetryWait?) && c.nextRetry.Some? && c.nextRetry.value <= s.clock)
           || (c.status.Running? && c.lease.Some? && c.lease.value <= s.clock))
  }

  ghost predicate Spared(c: CleanupJob) { c.attempts < c.maxAttempts }

  ghost predicate Tidy(s: State, v: VersionId, locked: set<VersionId>) {
    Cleanable(s, v, locked) && Spared(s.rows[v].cleanup.value)
  }

  ghost predicate Spent(s: State, v: VersionId, locked: set<VersionId>) {
    Cleanable(s, v, locked) && !Spared(s.rows[v].cleanup.value)
  }

  /** Pending jobs come first, then retries, then abandoned ones; among those the one due first, a job without a due
      time last; then the one created first. */
  ghost predicate DueSooner(a: CleanupJob, b: CleanupJob) {
    || (a.status.Pending? && !b.status.Pending?)
    || (a.status.RetryWait? && b.status.Running?)
    || (a.status == b.status && a.nextRetry.Some? && (b.nextRetry.None? || a.nextRetry.value < b.nextRetry.value))
    || (a.status == b.status && a.nextRetry == b.nextRetry && a.created < b.created)
  }

  ghost predicate SameDue(a: CleanupJob, b: CleanupJob) {
    a.status == b.status && a.nextRetry == b.nextRetry && a.created == b.created
  }

  ghost predicate CleanupAhead(s: State, u: VersionId, v: VersionId) {
    && HasCleanup(s, u) && HasCleanup(s, v)
    && var a, b := s.rows[u].cleanup.value, s.rows[v].cleanup.value;
       DueSooner(a, b) || (SameDue(a, b) && Older(s, u, v))
  }

  /** u can be cleaned, and is ahead of everything else that can. */
  ghost predicate FirstCleanup(s: State, locked: set<VersionId>, u: VersionId) {
    Tidy(s, u, locked) && forall w :: Tidy(s, w, locked) && w != u ==> CleanupAhead(s, u, w)
  }

  // ---------- The pick of one round ----------

  lemma CleanableMeans(s: State, v: VersionId, locked: set<VersionId>)
    requires HasCleanup(s, v) ==> GivenUpLocal(s, v)
    ensures CleanupClaimable(s, v, locked) <==> Cleanable(s, v, locked)
    ensures Cleanable(s, v, locked) ==> SafeScope(s, v)
  {
  }

  ghost predicate Offered(c: CleanupJob) { c.status.Pending? || c.status.RetryWait? || c.status.Running? }

  lemma BeforeMeans(a: CleanupJob, b: CleanupJob)
    requires Offered(a) && Offered(b)
    ensures CleanupBefore(a, b) <==> DueSooner(a, b)
    ensures DueSooner(a, b) || DueSooner(b, a) || SameDue(a, b)
  {
  }

  lemma SoonerChains(a: CleanupJob, b: CleanupJob, d: CleanupJob)
    requires Offered(a) && Offered(b) && Offered(d) && DueSooner(a, b) && (DueSooner(b, d) || SameDue(b, d))
    ensures DueSooner(a, d)
  {
  }

  /** The pick among the first n versions is ahead of every other claimable one of them. */
  lemma {:induction false} PickIsFirst(s: State, locked: set<VersionId>, n: nat, w: VersionId)
    requires n <= |s.order| && w in s.order[..n] && CleanupClaimable(s, w, locked)
    ensures var pick := PickCleanup(s, s.order[..n], locked);
            && pick.Some? && pick.value in s.order[..n] && CleanupClaimable(s, pick.value, locked)
            && (pick.value == w || CleanupAhead(s, pick.value, w))
  {
    var ids, v := s.order[..n], s.order[n - 1];
    var best := PickCleanup(s, s.order[..n - 1], locked);
    assert ids[..n - 1] == s.order[..n - 1];
    if w in s.order[..n - 1] {
      PickIsFirst(s, locked, n - 1, w);
      PickKeepsAhead(s, locked, v, best.value, w);
    } else {
      assert w == v;
      if best.Some? {
        BeforeMeans(s.rows[v].cleanup.value, s.rows[best.value].cleanup.value);
        BeforeMeans(s.rows[best.value].cleanup.value, s.rows[v].cleanup.value);
        var i :| 0 <= i < n - 1 && s.order[..n - 1][i] == best.value;
        assert s.order[i] == best.value;
      }
    }
  }

  lemma PickKeepsAhead(s: State, locked: set<VersionId>, v: VersionId, best: VersionId, w: VersionId)
    requires CleanupClaimable(s, best, locked) && CleanupClaimable(s, w, locked)
    requires best == w || CleanupAhead(s, best, w)
    ensures CleanupClaimable(s, v, locked) && CleanupBefore(s.rows[v].cleanup.value, s.rows[best].cleanup.value) ==>
              CleanupAhead(s, v, w)
  {
    if CleanupClaimable(s, v, locked) {
      var a, b, d := s.rows[v].cleanup.value, s.rows[best].cleanup.value, s.rows[w].cleanup.value;
      BeforeMeans(a, b);
      if DueSooner(a, b) && best != w { SoonerChains(a, b, d); }
    }
  }

  // ---------- The rounds of a claim ----------

  ghost function Dead(c: CleanupJob): CleanupJob {
    c.(status := CleanupStatus.DeadLetter, owner := None, lease := None, nextRetry := None)
  }

  ghost function Taken(c: CleanupJob, worker: Worker, end: Time): CleanupJob {
    c.(status := CleanupStatus.Running, owner := Some(worker), lease := Some(end), execFence := c.execFence + 1,
       attempts := c.attempts + 1, nextRetry := None)
  }

  /** The catalog with one cleanup job rewritten and nothing else. */
  ghost function Rewritten(s: State, v: VersionId, c: CleanupJob): State
    requires v in s.rows
  {
    s.(rows := s.rows[v := s.rows[v].(cleanup := Some(c))])
  }

  lemma Round(s: State, worker: Worker, seconds: int, locked: set<VersionId>) returns (pick: Option<VersionId>)
    requires Inv(s)
    ensures pick == PickCleanup(s, s.order, locked)
    ensures pick.None? ==>
              CleanupClaimLoop(s, worker, seconds, locked) == (s, Ok(None)) && forall w :: !Cleanable(s, w, locked)
    ensures pick.Some? ==>
              && Cleanable(s, pick.value, locked)
              && (forall w :: Cleanable(s, w, locked) && w != pick.value ==> CleanupAhead(s, pick.value, w))
              && var c := s.rows[pick.value].cleanup.value;
                 if Spared(c) then
                   CleanupClaimLoop(s, worker, seconds, locked) ==
                     (Rewritten(s, pick.value, Taken(c, worker, s.clock + seconds)), Ok(pick))
                 else
                   var s1 := Rewritten(s, pick.value, Dead(c));
                   && Inv(s1) && OpenCleanups(s1) < OpenCleanups(s)
                   && CleanupClaimLoop(s, worker, seconds, locked) == CleanupClaimLoop(s1, worker, seconds, locked)
  {
    pick := PickCleanup(s, s.order, locked);
    assert s.order[..|s.order|] == s.order;
    forall w | Cleanable(s, w, locked) ensures pick.Some? && (w == pick.value || CleanupAhead(s, pick.value, w)) {
      CleanupLocalOk(s, w);
      CleanableMeans(s, w, locked);
      PickIsFirst(s, locked, |s.order|, w);
    }
    if pick.Some? {
      CleanupLocalOk(s, pick.value);
      CleanableMeans(s, pick.value, locked);
      if !Spared(s.rows[pick.value].cleanup.value) { BuriedOne(s, pick.value, locked); }
    }
  }

  lemma BuriedOne(s: State, v: VersionId, locked: set<VersionId>)
    requires Inv(s) && GivenUpLocal(s, v) && CleanupClaimable(s, v, locked)
    ensures var s1 := Rewritten(s, v, Dead(s.rows[v].cleanup.value)); Inv(s1) && OpenCleanups(s1) < OpenCleanups(s)
  {
    BurySound(s, v);
    BuryFrame(s, v);
    assert v in OpenCleanups(s);
  }

  /** Burying one cleanup job leaves every other offer as it was. */
  lemma OffersKept(s: State, p: VersionId, locked: set<VersionId>, u: VersionId, v: VersionId)
    requires HasCleanup(s, p)
    ensures var s1 := Rewritten(s, p, Dead(s.rows[p].cleanup.value));
            && !Cleanable(s1, p, locked)
            && (u != p ==> (Cleanable(s1, u, locked) <==> Cleanable(s, u, locked)) && (Tidy(s1, u, locked) <==> Tidy(s, u, locked)))
            && (u != p && v != p ==> (CleanupAhead(s1, u, v) <==> CleanupAhead(s, u, v)))
  {
  }

  /** Without a pick w cannot be cleaned; otherwise the pick can, and is ahead of w if w can. */
  ghost predicate Picks(s: State, locked: set<VersionId>, picked: Option<VersionId>, w: VersionId) {
    if picked.None? then !Tidy(s, w, locked)
    else Tidy(s, picked.value, locked) && (Tidy(s, w, locked) && w != picked.value ==> CleanupAhead(s, picked.value, w))
  }

  /** Spent jobs met before the picked one, or all of them, are buried on the way. */
  ghost predicate BuriedOn(s: State, locked: set<VersionId>, picked: Option<VersionId>, v: VersionId) {
    Spent(s, v, locked) && (picked.None? || CleanupAhead(s, v, picked.value))
  }

  ghost function CleanupAfter(s: State, worker: Worker, seconds: int, locked: set<VersionId>, picked: Option<VersionId>,
                              v: VersionId): Option<CleanupJob>
    requires v in s.rows
  {
    var c := s.rows[v].cleanup;
    if c.None? then c
    else if picked == Some(v) then Some(Taken(c.value, worker, s.clock + seconds))
    else if BuriedOn(s, locked, picked, v) then Some(Dead(c.value))
    else c
  }

  /** What a claim leaves of a version: at most its cleanup job changes. */
  ghost predicate Leaves(s: State, worker: Worker, seconds: int, locked: set<VersionId>, s': State, picked: Option<VersionId>,
                         v: VersionId) {
    && s' == s.(rows := s'.rows) && s'.rows.Keys == s.rows.Keys
    && (v in s.rows ==> s'.rows[v] == s.rows[v].(cleanup := CleanupAfter(s, worker, seconds, locked, picked, v)))
  }

  lemma NotBoth(s: State, u: VersionId, v: VersionId)
    requires OrderOk(s) && CleanupAhead(s, u, v)
    ensures !CleanupAhead(s, v, u)
  {
  }

  lemma TakenLeaves(s: State, worker: Worker, seconds: int, locked: set<VersionId>, p: VersionId, v: VersionId)
    requires OrderOk(s) && Tidy(s, p, locked)
    requires forall w :: Cleanable(s, w, locked) && w != p ==> CleanupAhead(s, p, w)
    ensures var s' := Rewritten(s, p, Taken(s.rows[p].cleanup.value, worker, s.clock + seconds));
            Leaves(s, worker, seconds, locked, s', Some(p), v)
  {
    if v != p && Spent(s, v, locked) { NotBoth(s, p, v); }
  }

  lemma RoundLeaves(s: State, worker: Worker, seconds: int, locked: set<VersionId>, p: VersionId, s': State,
                    picked: Option<VersionId>, v: VersionId)
    requires Spent(s, p, locked) && forall w :: Cleanable(s, w, locked) && w != p ==> CleanupAhead(s, p, w)
    requires var s1 := Rewritten(s, p, Dead(s.rows[p].cleanup.value));
             (picked.Some? ==> Tidy(s1, picked.value, locked)) && Leaves(s1, worker, seconds, locked, s', picked, v)
    ensures Leaves(s, worker, seconds, locked, s', picked, v)
  {
    OffersKept(s, p, locked, v, v);
    if picked.Some? { OffersKept(s, p, locked, picked.value, v); OffersKept(s, p, locked, v, picked.value); }
  }

  lemma RoundPicks(s: State, locked: set<VersionId>, p: VersionId, picked: Option<VersionId>, w: VersionId)
    requires Spent(s, p, locked) && Picks(Rewritten(s, p, Dead(s.rows[p].cleanup.value)), locked, picked, w)
    ensures Picks(s, locked, picked, w)
  {
    OffersKept(s, p, locked, w, w);
    if picked.Some? { OffersKept(s, p, locked, picked.value, w); }
  }

  lemma {:induction false} LoopPicks(s: State, worker: Worker, seconds: int, locked: set<VersionId>, w: VersionId)
    requires Inv(s)
    ensures Picks(s, locked, CleanupClaimLoop(s, worker, seconds, locked).1.value, w)
    decreases OpenCleanups(s)
  {
    var pick := Round(s, worker, seconds, locked);
    if pick.Some? && !Spared(s.rows[pick.value].cleanup.value) {
      var s1 := Rewritten(s, pick.value, Dead(s.rows[pick.value].cleanup.value));
      LoopPicks(s1, worker, seconds, locked, w);
      RoundPicks(s, locked, pick.value, CleanupClaimLoop(s1, worker, seconds, locked).1.value, w);
    }
  }

  lemma IdleLeaves(s: State, worker: Worker, seconds: int, locked: set<VersionId>, v: VersionId)
    requires !Cleanable(s, v, locked)
    ensures Leaves(s, worker, seconds, locked, s, None, v)
  {
  }

  lemma {:induction false} LoopLeaves(s: State, worker: Worker, seconds: int, locked: set<VersionId>, v: VersionId)
    requires Inv(s)
    ensures var (s', a) := CleanupClaimLoop(s, worker, seconds, locked); Leaves(s, worker, seconds, locked, s', a.value, v)
    decreases OpenCleanups(s)
  {
    var pick := Round(s, worker, seconds, locked);
    if pick.None? {
      IdleLeaves(s, worker, seconds, locked, v);
    } else if Spared(s.rows[pick.value].cleanup.value) {
      TakenLeaves(s, worker, seconds, locked, pick.value, v);
    } else {
      var s1 := Rewritten(s, pick.value, Dead(s.rows[pick.value].cleanup.value));
      LoopLeaves(s1, worker, seconds, locked, v);
      LoopPicks(s1, worker, seconds, locked, v);
      var (s', a) := CleanupClaimLoop(s1, worker, seconds, locked);
      RoundLeaves(s, worker, seconds, locked, pick.value, s', a.value, v);
    }
  }

  // ---------- The claim ----------

  /** The worker's own cleanup job that was created first. */
  ghost predicate Earliest(s: State, worker: Worker, locked: set<VersionId>, u: VersionId) {
    && OwnCleanup(s, u, worker, locked)
    && forall w :: OwnCleanup(s, w, worker, locked) && w != u ==>
         var a, b := s.rows[u].cleanup.value.created, s.rows[w].cleanup.value.created;
         a < b || (a == b && Older(s, u, w))
  }

  lemma OwnMeans(s: State, v: VersionId, worker: Worker, locked: set<VersionId>)
    requires HasCleanup(s, v) ==> GivenUpLocal(s, v)
    ensures CleanupKept(s, v, worker, locked) <==> OwnCleanup(s, v, worker, locked)
  {
  }

  lemma {:induction false} OwnedIsEarliest(s: State, worker: Worker, locked: set<VersionId>, n: nat, w: VersionId)
    requires n <= |s.order| && w in s.order[..n] && CleanupKept(s, w, worker, locked)
    ensures var r := FirstOwnedCleanup(s, s.order[..n], worker, locked);
            && r.Some? && r.value in s.order[..n] && CleanupKept(s, r.value, worker, locked)
            && (r.value == w || var a, b := s.rows[r.value].cleanup.value.created, s.rows[w].cleanup.value.created;
                a < b || (a == b && Older(s, r.value, w)))
  {
    var ids, v := s.order[..n], s.order[n - 1];
    var best := FirstOwnedCleanup(s, s.order[..n - 1], worker, locked);
    assert ids[..n - 1] == s.order[..n - 1];
    if w in s.order[..n - 1] {
      OwnedIsEarliest(s, worker, locked, n - 1, w);
    } else {
      assert w == v;
      OwnedIsListed(s, s.order[..n - 1], worker, locked);
      if best.Some? {
        var i :| 0 <= i < n - 1 && s.order[..n - 1][i] == best.value;
        assert s.order[i] == best.value;
      }
    }
  }

  lemma {:induction false} OwnedIsListed(s: State, ids: seq<VersionId>, worker: Worker, locked: set<VersionId>)
    ensures var r := FirstOwnedCleanup(s, ids, worker, locked);
            r.Some? ==> r.value in ids && CleanupKept(s, r.value, worker, locked)
  {
    if ids != [] { OwnedIsListed(s, ids[..|ids| - 1], worker, locked); }
  }

  lemma OwnedExact(s: State, worker: Worker, locked: set<VersionId>)
    requires Inv(s)
    ensures var r := FirstOwnedCleanup(s, s.order, worker, locked);
            if r.None? then forall w :: !OwnCleanup(s, w, worker, locked) else Earliest(s, worker, locked, r.value)
  {
    var r := FirstOwnedCleanup(s, s.order, worker, locked);
    assert s.order[..|s.order|] == s.order;
    OwnedIsListed(s, s.order, worker, locked);
    if r.Some? {
      CleanupLocalOk(s, r.value);
      OwnMeans(s, r.value, worker, locked);
    }
    forall w | OwnCleanup(s, w, worker, locked)
      ensures r.Some? && (r.value == w || var a, b := s.rows[r.value].cleanup.value.created, s.rows[w].cleanup.value.created;
              a < b || (a == b && Older(s, r.value, w)))
    {
      CleanupLocalOk(s, w);
      OwnMeans(s, w, worker, locked);
      OwnedIsEarliest(s, worker, locked, |s.order|, w);
    }
  }

  /** A claim renews the worker's own cleanup lease if it has one. Otherwise it leases the first version that can be
      cleaned, and returns none exactly when there is none; spent jobs ahead of it are buried, and nothing else changes. */
  lemma ClaimExact(s: State, worker: Worker, seconds: int, locked: set<VersionId>)
    requires Inv(s)
    ensures seconds < 1 ==> ClaimCleanup(s, worker, seconds, locked) == (s, Err(InvalidRequest))
    ensures seconds >= 1 ==>
              var (s', a) := ClaimCleanup(s, worker, seconds, locked);
              && a.Ok?
              && if exists v :: OwnCleanup(s, v, worker, locked) then
                   && a.value.Some? && Earliest(s, worker, locked, a.value.value)
                   && s' == Rewritten(s, a.value.value,
                                      s.rows[a.value.value].cleanup.value.(lease := Some(s.clock + seconds)))
                 else
                   && (a.value.None? <==> forall v :: !Tidy(s, v, locked))
                   && (a.value.Some? ==> FirstCleanup(s, locked, a.value.value))
                   && forall v :: Leaves(s, worker, seconds, locked, s', a.value, v)
  {
    OwnedExact(s, worker, locked);
    if seconds >= 1 && FirstOwnedCleanup(s, s.order, worker, locked).None? {
      LoopExact(s, worker, seconds, locked);
    }
  }

  lemma LoopExact(s: State, worker: Worker, seconds: int, locked: set<VersionId>)
    requires Inv(s)
    ensures var (s', a) := CleanupClaimLoop(s, worker, seconds, locked);
            && (a.value.None? <==> forall v :: !Tidy(s, v, locked))
            && (a.value.Some? ==> FirstCleanup(s, locked, a.value.value))
            && forall v :: Leaves(s, worker, seconds, locked, s', a.value, v)
  {
    var (s', a) := CleanupClaimLoop(s, worker, seconds, locked);
    forall w ensures Picks(s, locked, a.value, w) { LoopPicks(s, worker, seconds, locked, w); }
    PickedIsFirst(s, locked, a.value);
    forall v ensures Leaves(s, worker, seconds, locked, s', a.value, v) { LoopLeaves(s, worker, seconds, locked, v); }
  }

  lemma PickedIsFirst(s: State, locked: set<VersionId>, picked: Option<VersionId>)
    requires forall w :: Picks(s, locked, picked, w)
    ensures picked.None? <==> forall v :: !Tidy(s, v, locked)
    ensures picked.Some? ==> FirstCleanup(s, locked, picked.value)
  {
    if picked.None? {
      forall v ensures !Tidy(s, v, locked) { assert Picks(s, locked, picked, v); }
    } else {
      assert Picks(s, locked, picked, picked.value);
      forall w | Tidy(s, w, locked) && w != picked.value ensures CleanupAhead(s, picked.value, w) {
        assert Picks(s, locked, picked, w);
      }
    }
  }

  // ---------- Holding and ending a cleanup ----------

  /** A cleanup lease is renewed exactly for who holds it. */
  lemma HeartbeatExact(s: State, v: VersionId, token: Token, seconds: int)
    requires Inv(s)
    ensures var (s', a) := HeartbeatCleanup(s, v, token, seconds);
            && (a.Ok? <==> seconds >= 1 && HasCleanup(s, v) && Holder(s.rows[v].cleanup.value, token, s.clock))
            && s' == if a.Err? then s else Rewritten(s, v, s.rows[v].cleanup.value.(lease := Some(s.clock + seconds)))
  {
    if v in s.rows { CleanupLocalOk(s, v); }
  }

  /** The holder puts its cleanup job back for a later attempt, or sees it buried once the attempts are used up. */
  lemma RetryExact(s: State, v: VersionId, token: Token, delay: int)
    requires Inv(s)
    ensures var (s', a) := RetryCleanup(s, v, token, delay);
            && (a.Ok? <==> delay >= 0 && HasCleanup(s, v) && Holder(s.rows[v].cleanup.value, token, s.clock))
            && (a.Err? ==> s' == s)
            && (a.Ok? ==>
                  var c := s.rows[v].cleanup.value;
                  s' == Rewritten(s, v, if c.attempts >= c.maxAttempts then Dead(c)
                                        else c.(status := CleanupStatus.RetryWait, owner := None, lease := None,
                                                nextRetry := Some(s.clock + delay))))
  {
    if v in s.rows { CleanupLocalOk(s, v); }
  }

  lemma DeadLetterExact(s: State, v: VersionId, token: Token)
    requires Inv(s)
    ensures var (s', a) := DeadLetterCleanup(s, v, token);
            && (a.Ok? <==> HasCleanup(s, v) && Holder(s.rows[v].cleanup.value, token, s.clock))
            && s' == if a.Err? then s else Rewritten(s, v, Dead(s.rows[v].cleanup.value))
  {
    if v in s.rows { CleanupLocalOk(s, v); }
  }

  /** The version cleaned now, its cleanup job completed. */
  ghost function Cleaned(s: State, v: VersionId): State
    requires HasCleanup(s, v)
  {
    var row, c := s.rows[v], s.rows[v].cleanup.value;
    s.(rows := s.rows[v := row.(cleanedAt := Some(s.clock),
                                cleanup := Some(Dead(c).(status := CleanupStatus.Completed)))])
  }

  /** A cleanup is completed exactly by who holds its job; nothing else can stand in the way. */
  lemma CompleteExact(s: State, v: VersionId, token: Token)
    requires Inv(s)
    ensures var (s', a) := CompleteCleanup(s, v, token);
            && (a.Ok? <==> HasCleanup(s, v) && Holder(s.rows[v].cleanup.value, token, s.clock))
            && s' == if a.Err? then s else Cleaned(s, v)
  {
    if v in s.rows { CleanupLocalOk(s, v); }
  }

  /** Only a buried cleanup job is requeued: with fresh attempts, due now, under the fence it had. */
  lemma RequeueExact(s: State, v: VersionId, limit: Option<int>)
    requires Inv(s)
    ensures var (s', a) := RequeueCleanup(s, v, limit);
            && (a.Ok? <==> (limit.None? || limit.value >= 1) && HasCleanup(s, v)
                           && s.rows[v].cleanup.value.status.DeadLetter?)
            && s' == if a.Err? then s
                     else Rewritten(s, v, s.rows[v].cleanup.value.(
                            status := CleanupStatus.Pending, attempts := 0, nextRetry := Some(s.clock), owner := None,
                            lease := None,
                            maxAttempts := if limit.Some? then limit.value else s.rows[v].cleanup.value.maxAttempts))
  {
    if v in s.rows { CleanupLocalOk(s, v); }
  }

  /** An unleased cleanup is recorded for a version given up whose cleanup job nobody has taken or buried; recorded as a
      success it completes the job, unless that had completed before. */
  lemma RecordExact(s: State, v: VersionId, failed: bool)
    requires Inv(s)
    ensures var (s', a) := RecordCleanup(s, v, failed);
            && (a.Ok? <==> HasCleanup(s, v) && !s.rows[v].cleanup.value.status.Running?
                           && !s.rows[v].cleanup.value.status.DeadLetter?)
            && s' == if a.Err? || failed || s.rows[v].cleanup.value.status.Completed? then s else Cleaned(s, v)
  {
    if v in s.rows { CleanupLocalOk(s, v); }
  }
}
