/** How long a cleanup token lives, and that the cleanup can be completed under it. */
module CatalogCleanupTiming {
  import opened Prelude
  import opened CatalogState
  import opened CatalogOps
  import opened CatalogInvariant
  import opened CatalogSteps
  import opened CatalogRuns
  import opened CatalogMoves
  import opened CatalogTheorems
  import opened CatalogCleanups

  /** The token holds the cleanup job until the given time. */
  ghost predicate HeldUntil(s: State, v: VersionId, token: Token, end: Time) {
    && HasCleanup(s, v)
    && var c := s.rows[v].cleanup.value;
       c.owner == Some(token.worker) && c.execFence == token.fence && c.lease == Some(end)
  }

  /** Steps by which the holder renews its lease, puts the job back, gives it up or completes it. */
  ghost predicate Settles(s: State, step: Step, v: VersionId, token: Token) {
    || (step.DoHeartbeatCleanup? && step.v == v && step.token == token)
    || (step.DoRetryCleanup? && step.v == v && step.token == token)
    || (step.DoDeadLetterCleanup? && step.v == v && step.token == token)
    || (step.DoCompleteCleanup? && step.v == v && step.token == token)
    || (step.DoClaimCleanup? && step.worker == token.worker
        && FirstOwnedCleanup(s, s.order, step.worker, step.locked) == Some(v))
  }

  ghost predicate Unsettled(s: State, steps: seq<Step>, v: VersionId, token: Token)
    decreases |steps|
  {
    steps == [] || (!Settles(s, steps[0], v, token) && Unsettled(Next(s, steps[0]), steps[1..], v, token))
  }

  // ---------- One step ----------

  lemma ClaimSpares(s: State, worker: Worker, seconds: int, locked: set<VersionId>, s': State, v: VersionId, token: Token,
                    end: Time)
    requires Inv(s) && HeldUntil(s, v, token, end) && s.clock < end && s' == ClaimCleanup(s, worker, seconds, locked).0
    requires worker == token.worker ==> FirstOwnedCleanup(s, s.order, worker, locked) != Some(v)
    ensures HeldUntil(s', v, token, end)
  {
    CleanupLocalOk(s, v);
    OwnedExact(s, worker, locked);
    if seconds >= 1 && FirstOwnedCleanup(s, s.order, worker, locked).None? {
      LoopLeaves(s, worker, seconds, locked, v);
      HeldIsNotCleanable(s, v, token, end, locked);
      LoopPicks(s, worker, seconds, locked, v);
    }
  }

  lemma HeldIsNotCleanable(s: State, v: VersionId, token: Token, end: Time, locked: set<VersionId>)
    requires HeldUntil(s, v, token, end) && s.clock < end && s.rows[v].cleanup.value.status.Running?
    ensures !Cleanable(s, v, locked)
  {
  }

  lemma HeartbeatSpares(s: State, w: VersionId, t: Token, seconds: int, s': State, v: VersionId, token: Token, end: Time)
    requires Inv(s) && HeldUntil(s, v, token, end) && (w == v ==> t != token)
    requires s' == HeartbeatCleanup(s, w, t, seconds).0
    ensures HeldUntil(s', v, token, end)
  {
    HeartbeatExact(s, w, t, seconds);
  }

  lemma RetrySpares(s: State, w: VersionId, t: Token, delay: int, s': State, v: VersionId, token: Token, end: Time)
    requires Inv(s) && HeldUntil(s, v, token, end) && (w == v ==> t != token)
    requires s' == RetryCleanup(s, w, t, delay).0
    ensures HeldUntil(s', v, token, end)
  {
    RetryExact(s, w, t, delay);
  }

  lemma DeadLetterSpares(s: State, w: VersionId, t: Token, s': State, v: VersionId, token: Token, end: Time)
    requires Inv(s) && HeldUntil(s, v, token, end) && (w == v ==> t != token)
    requires s' == DeadLetterCleanup(s, w, t).0
    ensures HeldUntil(s', v, token, end)
  {
    DeadLetterExact(s, w, t);
  }

  lemma CompleteSpares(s: State, w: VersionId, t: Token, s': State, v: VersionId, token: Token, end: Time)
    requires Inv(s) && HeldUntil(s, v, token, end) && (w == v ==> t != token)
    requires s' == CompleteCleanup(s, w, t).0
    ensures HeldUntil(s', v, token, end)
  {
    CompleteExact(s, w, t);
  }

  lemma RequeueSpares(s: State, w: VersionId, limit: Option<int>, s': State, v: VersionId, token: Token, end: Time)
    requires Inv(s) && HeldUntil(s, v, token, end) && s' == RequeueCleanup(s, w, limit).0
    ensures HeldUntil(s', v, token, end)
  {
    CleanupLocalOk(s, v);
    RequeueExact(s, w, limit);
  }

  lemma RecordSpares(s: State, w: VersionId, failed: bool, s': State, v: VersionId, token: Token, end: Time)
    requires Inv(s) && HeldUntil(s, v, token, end) && s' == RecordCleanup(s, w, failed).0
    ensures HeldUntil(s', v, token, end)
  {
    CleanupLocalOk(s, v);
    RecordExact(s, w, failed);
  }

  lemma RetireDocSpares(s: State, id: DocId, v: VersionId, token: Token, end: Time)
    requires Inv(s) && id in s.docs && HeldUntil(s, v, token, end)
    ensures HeldUntil(RetireDoc(s, id).0, v, token, end)
  {
    CleanupLocalOk(s, v);
    assert DocOk(s, id);
    RetireDocKeeps(s, id, v);
  }

  lemma RetireDocKeeps(s: State, id: DocId, v: VersionId)
    requires id in s.docs && HasCleanup(s, v) && s.rows[v].cleanup.value.status.Running?
    requires s.docs[id].current != Some(v) && s.docs[id].pending != Some(v)
    ensures v in RetireDoc(s, id).0.rows && RetireDoc(s, id).0.rows[v] == s.rows[v]
  {
  }

  lemma RetireSpares(s: State, tenant: string, name: string, kb: Option<KbId>, v: VersionId, token: Token, end: Time)
    requires Inv(s) && HeldUntil(s, v, token, end)
    ensures HeldUntil(Retire(s, tenant, name, kb).0, v, token, end)
  {
    forall id | id in Named(s, tenant, name, kb) ensures HeldUntil(RetireDoc(s, id).0, v, token, end) {
      RetireDocSpares(s, id, v, token, end);
    }
  }

  /** Index steps leave a version given up alone. */
  lemma MoveSpares(s: State, step: Step, s': State, v: VersionId, token: Token, end: Time)
    requires Moved(s, step, s', v) && HeldUntil(s, v, token, end) && !Active(s.rows[v].status)
    requires !CleanupStep(step) && !step.DoRetire?
    ensures HeldUntil(s', v, token, end)
  {
  }

  lemma HolderStepSpares(s: State, step: Step, s': State, v: VersionId, token: Token, end: Time)
    requires step.DoHeartbeatCleanup? || step.DoRetryCleanup? || step.DoDeadLetterCleanup? || step.DoCompleteCleanup?
    requires Inv(s) && s' == Next(s, step) && HeldUntil(s, v, token, end) && !Settles(s, step, v, token)
    ensures HeldUntil(s', v, token, end)
  {
    match step
    case DoHeartbeatCleanup(w, t, seconds) => HeartbeatSpares(s, w, t, seconds, s', v, token, end);
    case DoRetryCleanup(w, t, delay) => RetrySpares(s, w, t, delay, s', v, token, end);
    case DoDeadLetterCleanup(w, t) => DeadLetterSpares(s, w, t, s', v, token, end);
    case DoCompleteCleanup(w, t) => CompleteSpares(s, w, t, s', v, token, end);
  }

  lemma CleanupStepSpares(s: State, step: Step, s': State, v: VersionId, token: Token, end: Time)
    requires Inv(s) && CleanupStep(step) && s' == Next(s, step)
    requires HeldUntil(s, v, token, end) && s.clock < end && !Settles(s, step, v, token)
    ensures HeldUntil(s', v, token, end)
  {
    match step
    case DoClaimCleanup(worker, seconds, locked) => ClaimSpares(s, worker, seconds, locked, s', v, token, end);
    case DoRequeueCleanup(w, limit) => RequeueSpares(s, w, limit, s', v, token, end);
    case DoRecordCleanup(w, failed) => RecordSpares(s, w, failed, s', v, token, end);
    case _ => HolderStepSpares(s, step, s', v, token, end);
  }

  lemma StepSpares(s: State, step: Step, s': State, v: VersionId, token: Token, end: Time)
    requires Inv(s) && s' == Next(s, step)
    requires HeldUntil(s, v, token, end) && s.clock < end && !Settles(s, step, v, token)
    ensures HeldUntil(s', v, token, end)
  {
    if CleanupStep(step) {
      CleanupStepSpares(s, step, s', v, token, end);
    } else if step.DoRetire? {
      RetireSpares(s, step.tenant, step.name, step.kb, v, token, end);
    } else {
      CleanupLocalOk(s, v);
      StepMoves(s, step, s', v);
      MoveSpares(s, step, s', v, token, end);
    }
  }

  // ---------- Whole runs ----------

  /** The token holds the job until the end, and not any longer. */
  ghost predicate Outlasts(s: State, v: VersionId, token: Token, end: Time) {
    && HasCleanup(s, v) && token.fence <= s.rows[v].cleanup.value.execFence
    && if s.clock < end then HeldUntil(s, v, token, end) else !CleanupLive(s.rows[v].cleanup.value, token, s.clock)
  }

  lemma StepOutlasts(s: State, step: Step, s': State, v: VersionId, token: Token, end: Time)
    requires Inv(s) && s' == Next(s, step) && Outlasts(s, v, token, end) && !Settles(s, step, v, token)
    ensures Outlasts(s', v, token, end)
  {
    NextSound(s, step);
    assert RowAfter(s, s', v);
    if s.clock < end {
      StepSpares(s, step, s', v, token, end);
    } else {
      CleanupKeepsRejecting(s.rows[v].cleanup.value, s.clock, s'.rows[v].cleanup.value, s'.clock, token);
    }
  }

  lemma {:induction false} RunOutlasts(s: State, steps: seq<Step>, v: VersionId, token: Token, end: Time)
    requires Inv(s) && Outlasts(s, v, token, end) && Unsettled(s, steps, v, token)
    ensures Inv(After(s, steps)) && Outlasts(After(s, steps), v, token, end)
    decreases |steps|
  {
    if steps != [] {
      NextSound(s, steps[0]);
      StepOutlasts(s, steps[0], Next(s, steps[0]), v, token, end);
      RunOutlasts(Next(s, steps[0]), steps[1..], v, token, end);
    }
  }

  lemma RenewBegins(s: State, v: VersionId, worker: Worker, seconds: int, locked: set<VersionId>)
    requires CleanupGraph(s, v) && OwnCleanup(s, v, worker, locked)
    ensures var m := RenewCleanup(s, v, seconds);
            && HasCleanup(m, v)
            && HeldUntil(m, v, Token(worker, m.rows[v].cleanup.value.execFence), s.clock + seconds) && m.clock == s.clock
  {
  }

  lemma TakenBegins(s: State, worker: Worker, seconds: int, locked: set<VersionId>, m: State, v: VersionId)
    requires HasCleanup(s, v) && Leaves(s, worker, seconds, locked, m, Some(v), v)
    ensures && HasCleanup(m, v)
            && HeldUntil(m, v, Token(worker, m.rows[v].cleanup.value.execFence), s.clock + seconds) && m.clock == s.clock
  {
  }

  lemma ClaimBegins(s: State, worker: Worker, seconds: int, locked: set<VersionId>, v: VersionId, m: State)
    requires Inv(s) && ClaimCleanup(s, worker, seconds, locked) == (m, Ok(Some(v)))
    ensures HasCleanup(m, v) && HeldUntil(m, v, Token(worker, m.rows[v].cleanup.value.execFence), s.clock + seconds)
    ensures m.clock == s.clock < s.clock + seconds
  {
    OwnedExact(s, worker, locked);
    if FirstOwnedCleanup(s, s.order, worker, locked).Some? {
      RenewBegins(s, v, worker, seconds, locked);
    } else {
      LoopLeaves(s, worker, seconds, locked, v);
      LoopPicks(s, worker, seconds, locked, v);
      TakenBegins(s, worker, seconds, locked, m, v);
    }
  }

  lemma LeaseBegins(s: State, worker: Worker, seconds: int, locked: set<VersionId>, v: VersionId, token: Token, m: State)
    requires Inv(s)
    requires || ClaimCleanup(s, worker, seconds, locked) == (m, Ok(Some(v)))
             || HeartbeatCleanup(s, v, token, seconds) == (m, Ok(()))
    requires HasCleanup(m, v) && token == Token(worker, m.rows[v].cleanup.value.execFence)
    ensures Inv(m) && Outlasts(m, v, token, s.clock + seconds)
  {
    if ClaimCleanup(s, worker, seconds, locked) == (m, Ok(Some(v))) {
      ClaimCleanupSound(s, worker, seconds, locked, m);
      ClaimBegins(s, worker, seconds, locked, v, m);
    } else {
      HeartbeatCleanupSound(s, v, token, seconds, m);
      HeartbeatExact(s, v, token, seconds);
    }
  }

  lemma LeaseOutlasts(s: State, worker: Worker, seconds: int, locked: set<VersionId>, v: VersionId, token: Token,
                      m: State, steps: seq<Step>)
    requires Inv(s)
    requires || ClaimCleanup(s, worker, seconds, locked) == (m, Ok(Some(v)))
             || HeartbeatCleanup(s, v, token, seconds) == (m, Ok(()))
    requires HasCleanup(m, v) && token == Token(worker, m.rows[v].cleanup.value.execFence)
    requires Unsettled(m, steps, v, token)
    ensures Inv(After(m, steps)) && Outlasts(After(m, steps), v, token, s.clock + seconds)
  {
    LeaseBegins(s, worker, seconds, locked, v, token, m);
    RunOutlasts(m, steps, v, token, s.clock + seconds);
  }

  /** After a claim or renewal of a cleanup job, over every run in which the holder does not settle it: the token is
      accepted, and the cleanup can be completed under it, exactly while the seconds asked for last. */
  lemma CleanupTokenLives(s: State, worker: Worker, seconds: int, locked: set<VersionId>, v: VersionId, token: Token,
                          m: State, steps: seq<Step>)
    requires Reachable(s)
    requires || ClaimCleanup(s, worker, seconds, locked) == (m, Ok(Some(v)))
             || HeartbeatCleanup(s, v, token, seconds) == (m, Ok(()))
    requires HasCleanup(m, v) && token == Token(worker, m.rows[v].cleanup.value.execFence)
    requires Unsettled(m, steps, v, token)
    ensures var s' := After(m, steps);
            && HasCleanup(s', v)
            && (Holder(s'.rows[v].cleanup.value, token, s'.clock) <==> s'.clock < s.clock + seconds)
            && (CompleteCleanup(s', v, token) == (Cleaned(s', v), Ok(())) <==> s'.clock < s.clock + seconds)
  {
    ReachableInv(s);
    LeaseOutlasts(s, worker, seconds, locked, v, token, m, steps);
    OutlastingCompletes(After(m, steps), v, token, s.clock + seconds);
  }

  lemma OutlastingCompletes(s: State, v: VersionId, token: Token, end: Time)
    requires Inv(s) && Outlasts(s, v, token, end)
    ensures Holder(s.rows[v].cleanup.value, token, s.clock) <==> s.clock < end
    ensures CompleteCleanup(s, v, token) == (Cleaned(s, v), Ok(())) <==> s.clock < end
  {
    CleanupLocalOk(s, v);
    CompleteExact(s, v, token);
  }
}
