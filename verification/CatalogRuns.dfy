/** Whole runs of the catalog: every interleaving of its transactions from the empty catalog. */
module CatalogRuns {
  import opened Prelude
  import opened CatalogState
  import opened CatalogOps
  import opened CatalogInvariant
  import opened CatalogSteps

  datatype Step =
    | AdvanceClock(to: Time)
    | AddKb(kbId: KbId, owner: int)
    | DoReserve(upload: Upload, newId: VersionId)
    | DoRecordManifest(v: VersionId, fence: int, entries: seq<Entry>, vectors: Option<int>, parents: Option<int>,
                       execution: Option<Token>)
    | DoPublish(v: VersionId, fence: int, expected: Option<VersionId>, execution: Option<Token>)
    | DoFail(v: VersionId, fence: int, execution: Option<Token>)
    | DoUpdateJob(v: VersionId, fence: int, status: Option<JobStatus>, step: Option<string>, execution: Option<Token>)
    | DoClaimIndex(claim: Claim)
    | DoHeartbeatIndex(v: VersionId, token: Token, seconds: int)
    | DoRetryIndex(v: VersionId, token: Token, delay: int)
    | DoDeadLetterIndex(v: VersionId, token: Token)
    | DoRetire(tenant: string, name: string, kb: Option<KbId>)
    | DoClaimCleanup(worker: Worker, seconds: int, locked: set<VersionId>)
    | DoHeartbeatCleanup(v: VersionId, token: Token, seconds: int)
    | DoRetryCleanup(v: VersionId, token: Token, delay: int)
    | DoDeadLetterCleanup(v: VersionId, token: Token)
    | DoCompleteCleanup(v: VersionId, token: Token)
    | DoRequeueCleanup(v: VersionId, maxAttempts: Option<int>)
    | DoRecordCleanup(v: VersionId, failed: bool)

  /** The state a step leads to; a refused step leads nowhere else. */
  ghost function Next(s: State, step: Step): State {
    match step
    case AdvanceClock(to) => s.(clock := if to > s.clock then to else s.clock)
    case AddKb(kbId, owner) => EnsureKb(s, kbId, owner).0
    case DoReserve(u, newId) => Reserve(s, u, newId).0
    case DoRecordManifest(v, fence, entries, vs, ps, ex) => RecordManifest(s, v, fence, entries, vs, ps, ex).0
    case DoPublish(v, fence, expected, ex) => Publish(s, v, fence, expected, ex).0
    case DoFail(v, fence, ex) => Fail(s, v, fence, ex).0
    case DoUpdateJob(v, fence, status, st, ex) => UpdateJob(s, v, fence, status, st, ex).0
    case DoClaimIndex(c) => ClaimIndex(s, c).0
    case DoHeartbeatIndex(v, token, seconds) => HeartbeatIndex(s, v, token, seconds).0
    case DoRetryIndex(v, token, delay) => RetryIndex(s, v, token, delay).0
    case DoDeadLetterIndex(v, token) => DeadLetterIndex(s, v, token).0
    case DoRetire(tenant, name, kb) => Retire(s, tenant, name, kb).0
    case DoClaimCleanup(worker, seconds, locked) => ClaimCleanup(s, worker, seconds, locked).0
    case DoHeartbeatCleanup(v, token, seconds) => HeartbeatCleanup(s, v, token, seconds).0
    case DoRetryCleanup(v, token, delay) => RetryCleanup(s, v, token, delay).0
    case DoDeadLetterCleanup(v, token) => DeadLetterCleanup(s, v, token).0
    case DoCompleteCleanup(v, token) => CompleteCleanup(s, v, token).0
    case DoRequeueCleanup(v, m) => RequeueCleanup(s, v, m).0
    case DoRecordCleanup(v, failed) => RecordCleanup(s, v, failed).0
  }

  ghost function After(s: State, steps: seq<Step>): State
    decreases |steps|
  {
    if steps == [] then s else After(Next(s, steps[0]), steps[1..])
  }

  predicate CleanupStep(step: Step) {
    || step.DoClaimCleanup? || step.DoHeartbeatCleanup? || step.DoRetryCleanup? || step.DoDeadLetterCleanup?
    || step.DoCompleteCleanup? || step.DoRequeueCleanup? || step.DoRecordCleanup?
  }

  /** Every step keeps the invariant and only lets rows and documents evolve. */
  lemma NextSound(s: State, step: Step)
    requires Inv(s)
    ensures Sound(s, Next(s, step))
  {
    if CleanupStep(step) { CleanupNextSound(s, step, Next(s, step)); } else { IndexNextSound(s, step, Next(s, step)); }
  }

  lemma IndexNextSound(s: State, step: Step, s': State)
    requires Inv(s) && !CleanupStep(step) && s' == Next(s, step)
    ensures Sound(s, s')
  {
    match step
    case AdvanceClock(to) => TickSound(s, s'.clock);
    case AddKb(kbId, owner) => EnsureKbSound(s, kbId, owner, s');
    case DoReserve(u, newId) => ReserveSound(s, u, newId, s');
    case DoRecordManifest(v, fence, entries, vs, ps, ex) => RecordManifestSound(s, v, fence, entries, vs, ps, ex, s');
    case DoPublish(v, fence, expected, ex) => PublishSound(s, v, fence, expected, ex, s');
    case DoFail(v, fence, ex) => FailStepSound(s, v, fence, ex, s');
    case DoUpdateJob(v, fence, status, st, ex) => UpdateJobSound(s, v, fence, status, st, ex, s');
    case DoClaimIndex(c) => ClaimIndexSound(s, c, s');
    case DoHeartbeatIndex(v, token, seconds) => HeartbeatIndexSound(s, v, token, seconds, s');
    case DoRetryIndex(v, token, delay) => RetryIndexSound(s, v, token, delay, s');
    case DoDeadLetterIndex(v, token) => DeadLetterIndexSound(s, v, token, s');
    case DoRetire(tenant, name, kb) => RetireSound(s, tenant, name, kb, s');
  }

  lemma CleanupNextSound(s: State, step: Step, s': State)
    requires Inv(s) && CleanupStep(step) && s' == Next(s, step)
    ensures Sound(s, s')
  {
    match step
    case DoClaimCleanup(worker, seconds, locked) => ClaimCleanupSound(s, worker, seconds, locked, s');
    case DoHeartbeatCleanup(v, token, seconds) => HeartbeatCleanupSound(s, v, token, seconds, s');
    case DoRetryCleanup(v, token, delay) => RetryCleanupSound(s, v, token, delay, s');
    case DoDeadLetterCleanup(v, token) => DeadLetterCleanupSound(s, v, token, s');
    case DoCompleteCleanup(v, token) => CompleteCleanupSound(s, v, token, s');
    case DoRequeueCleanup(v, m) => RequeueCleanupSound(s, v, m, s');
    case DoRecordCleanup(v, failed) => RecordCleanupSound(s, v, failed, s');
  }

  lemma {:induction false} RunSound(s: State, steps: seq<Step>)
    requires Inv(s)
    ensures Sound(s, After(s, steps))
    decreases |steps|
  {
    if steps == [] {
      EvolvesReflexive(s);
    } else {
      var s1 := Next(s, steps[0]);
      NextSound(s, steps[0]);
      RunSound(s1, steps[1..]);
      EvolvesTransitive(s, s1, After(s1, steps[1..]));
    }
  }

  ghost predicate Linked(states: seq<State>, steps: seq<Step>, i: int)
    requires |states| == |steps| + 1 && 0 <= i < |steps|
  {
    states[i + 1] == Next(states[i], steps[i])
  }

  /** The states a run passes through. */
  ghost predicate Trace(states: seq<State>, steps: seq<Step>) {
    && |states| == |steps| + 1
    && forall i {:trigger Linked(states, steps, i)} :: 0 <= i < |steps| ==> Linked(states, steps, i)
  }

  ghost predicate Leads(s: State, s': State) {
    exists states, steps :: Trace(states, steps) && states[0] == s && states[|steps|] == s'
  }

  ghost predicate Reachable(s: State) {
    Leads(EMPTY, s)
  }

  lemma {:induction false} TraceEnds(states: seq<State>, steps: seq<Step>)
    requires Trace(states, steps)
    ensures states[|steps|] == After(states[0], steps)
    decreases |steps|
  {
    if steps != [] {
      var rest, tail := states[1..], steps[1..];
      assert Linked(states, steps, 0);
      forall i | 0 <= i < |tail| ensures Linked(rest, tail, i) { assert Linked(states, steps, i + 1); }
      TraceEnds(rest, tail);
    }
  }

  lemma {:induction false} TraceOf(s: State, steps: seq<Step>) returns (states: seq<State>)
    ensures Trace(states, steps) && states[0] == s && states[|steps|] == After(s, steps)
    decreases |steps|
  {
    if steps == [] {
      states := [s];
    } else {
      var rest := TraceOf(Next(s, steps[0]), steps[1..]);
      states := [s] + rest;
      forall i | 0 <= i < |steps| ensures Linked(states, steps, i) {
        if i > 0 { assert Linked(rest, steps[1..], i - 1); }
      }
    }
  }

  /** What a run leads to is what its steps compute, one after the other. */
  lemma LeadsIsAfter(s: State, s': State)
    ensures Leads(s, s') <==> exists steps :: After(s, steps) == s'
  {
    if Leads(s, s') {
      var states, steps :| Trace(states, steps) && states[0] == s && states[|steps|] == s';
      TraceEnds(states, steps);
    }
    if exists steps :: After(s, steps) == s' {
      var steps :| After(s, steps) == s';
      var states := TraceOf(s, steps);
    }
  }

  lemma LeadsSound(s: State, s': State)
    requires Inv(s) && Leads(s, s')
    ensures Sound(s, s')
  {
    var states, steps :| Trace(states, steps) && states[0] == s && states[|steps|] == s';
    TraceEnds(states, steps);
    RunSound(s, steps);
  }

  /** The invariant holds in every reachable state. */
  lemma ReachableInv(s: State)
    requires Reachable(s)
    ensures Inv(s)
  {
    LeadsSound(EMPTY, s);
  }
}
