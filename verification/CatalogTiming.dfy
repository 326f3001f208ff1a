/** Leases, retry delays and the grace period of superseded versions. */
module CatalogTiming {
  import opened Prelude
  import opened CatalogState
  import opened CatalogOps
  import opened CatalogInvariant
  import opened CatalogSteps
  import opened CatalogRuns
  import opened CatalogMoves
  import opened CatalogTheorems
  import opened CatalogWrites

  // ---------- Leases ----------

  /** The token holds the job until the given time, unless the job is closed. */
  predicate Leased(j: IndexJob, token: Token, end: Time) {
    Terminal(j.status) || (j.owner == Some(token.worker) && j.execFence == token.fence && j.lease == Some(end))
  }

  predicate LeasedAt(s: State, v: VersionId, token: Token, end: Time) {
    v in s.rows && s.rows[v].job.Some? && Leased(s.rows[v].job.value, token, end)
  }

  /** The worker holds the version under its present fence until the given time. */
  predicate Holds(m: State, worker: Worker, v: VersionId, end: Time) {
    v in m.rows && m.rows[v].job.Some? && LeasedAt(m, v, Token(worker, m.rows[v].job.value.execFence), end)
  }

  lemma LeaseStarts(s: State, v: VersionId, c: Claim)
    requires JobGraph(s, v)
    ensures Holds(Lease(s, v, c), c.worker, v, s.clock + c.seconds) && Lease(s, v, c).clock == s.clock
  {
  }

  lemma RenewalStarts(s: State, v: VersionId, worker: Worker, seconds: int)
    requires JobGraph(s, v) && s.rows[v].job.value.owner == Some(worker)
    ensures Holds(Renew(s, v, seconds), worker, v, s.clock + seconds) && Renew(s, v, seconds).clock == s.clock
  {
  }

  lemma {:induction false} ClaimLoopLeases(s: State, c: Claim, v: VersionId, m: State, end: Time)
    requires Inv(s) && ClaimLoop(s, c) == (m, Ok(Some(v))) && end == s.clock + c.seconds
    ensures Holds(m, c.worker, v, end) && m.clock == s.clock
    decreases OpenJobs(s)
  {
    var w := PickIndex(s, s.order, c).value;
    OpenJobIsCandidate(s, w);
    if Exhausted(s.rows[w].job.value) {
      var s1 := DeadLetterLocked(s, w).0;
      DeadLetterSound(s, w);
      DeadLetterFrame(s, w);
      assert w in OpenJobs(s);
      ClaimLoopLeases(s1, c, v, m, end);
    } else {
      LeaseStarts(s, w, c);
    }
  }

  lemma ClaimLeases(s: State, c: Claim, v: VersionId, m: State, end: Time)
    requires Inv(s) && ClaimIndex(s, c) == (m, Ok(Some(v))) && end == s.clock + c.seconds
    ensures Holds(m, c.worker, v, end) && m.clock == s.clock < end
  {
    if FirstOwned(s, s.order, c).None? {
      ClaimLoopLeases(s, c, v, m, end);
    } else {
      RenewalStarts(s, v, c.worker, c.seconds);
    }
  }

  /** Steps by which the holder of a token renews its lease or puts the job back. */
  predicate Releases(s: State, step: Step, v: VersionId, token: Token) {
    || (step.DoHeartbeatIndex? && step.v == v && step.token == token)
    || (step.DoRetryIndex? && step.v == v && step.token == token)
    || (step.DoClaimIndex? && step.claim.worker == token.worker && Reclaims(s, step.claim, v))
  }

  ghost predicate Unreleased(s: State, steps: seq<Step>, v: VersionId, token: Token)
    decreases |steps|
  {
    steps == [] || (!Releases(s, steps[0], v, token) && Unreleased(Next(s, steps[0]), steps[1..], v, token))
  }

  /** Before its end, a lease is taken from its holder only by closing the job. */
  lemma MoveKeepsLease(s: State, step: Step, s': State, v: VersionId, token: Token, end: Time)
    requires Moved(s, step, s', v) && LeasedAt(s, v, token, end) && s.clock < end && !Releases(s, step, v, token)
    requires RowAfter(s, s', v)
    ensures LeasedAt(s', v, token, end)
  {
  }

  /** A token issued for the job until end is live at most until then. */
  ghost predicate Outlasts(s: State, v: VersionId, token: Token, end: Time) {
    && v in s.rows && s.rows[v].job.Some? && token.fence <= s.rows[v].job.value.execFence
    && if s.clock < end then LeasedAt(s, v, token, end) else !Live(s.rows[v].job.value, token, s.clock)
  }

  lemma StepOutlasts(s: State, step: Step, s': State, v: VersionId, token: Token, end: Time)
    requires Inv(s) && s' == Next(s, step) && Outlasts(s, v, token, end) && !Releases(s, step, v, token)
    ensures Outlasts(s', v, token, end)
  {
    NextSound(s, step);
    assert RowAfter(s, s', v) && RowAt(s', v);
    if s.clock < end {
      StepMoves(s, step, s', v);
      MoveKeepsLease(s, step, s', v, token, end);
    } else {
      JobKeepsRejecting(s.rows[v].job.value, s.clock, s'.rows[v].job.value, s'.clock, token);
    }
  }

  lemma {:induction false} RunOutlasts(s: State, steps: seq<Step>, v: VersionId, token: Token, end: Time)
    requires Inv(s) && Outlasts(s, v, token, end) && Unreleased(s, steps, v, token)
    ensures Outlasts(After(s, steps), v, token, end)
    decreases |steps|
  {
    if steps != [] {
      NextSound(s, steps[0]);
      StepOutlasts(s, steps[0], Next(s, steps[0]), v, token, end);
      RunOutlasts(Next(s, steps[0]), steps[1..], v, token, end);
    }
  }

  lemma LeaseBegins(s: State, c: Claim, v: VersionId, token: Token, m: State, end: Time)
    requires Inv(s) && end == s.clock + c.seconds
    requires ClaimIndex(s, c) == (m, Ok(Some(v))) || HeartbeatIndex(s, v, token, c.seconds) == (m, Ok(()))
    requires v in m.rows && m.rows[v].job.Some? && token == Token(c.worker, m.rows[v].job.value.execFence)
    ensures Inv(m) && LeasedAt(m, v, token, end) && m.clock < end
  {
    if ClaimIndex(s, c) == (m, Ok(Some(v))) {
      ClaimIndexSound(s, c, m);
      ClaimLeases(s, c, v, m, end);
    } else {
      HeartbeatIndexSound(s, v, token, c.seconds, m);
      RenewalStarts(s, v, token.worker, c.seconds);
    }
  }

  lemma LeasedTokenLives(m: State, v: VersionId, token: Token, end: Time, steps: seq<Step>)
    requires Inv(m) && LeasedAt(m, v, token, end) && m.clock < end && token.fence == m.rows[v].job.value.execFence
    requires Unreleased(m, steps, v, token)
    ensures var s' := After(m, steps);
            && v in s'.rows && s'.rows[v].job.Some?
            && (Live(s'.rows[v].job.value, token, s'.clock) <==> s'.clock < end && !Terminal(s'.rows[v].job.value.status))
  {
    RunSound(m, steps);
    RunOutlasts(m, steps, v, token, end);
    assert RowAt(After(m, steps), v);
  }

  /** The token of a claim or renewal is live for exactly the seconds asked for and while the job is open, over every
      run in which its holder neither renews it again nor puts the job back. */
  lemma ClaimedTokenLives(s: State, c: Claim, v: VersionId, token: Token, m: State, steps: seq<Step>)
    requires Reachable(s)
    requires ClaimIndex(s, c) == (m, Ok(Some(v))) || HeartbeatIndex(s, v, token, c.seconds) == (m, Ok(()))
    requires v in m.rows && m.rows[v].job.Some? && token == Token(c.worker, m.rows[v].job.value.execFence)
    requires Unreleased(m, steps, v, token)
    ensures var s' := After(m, steps);
            && v in s'.rows && s'.rows[v].job.Some?
            && (Live(s'.rows[v].job.value, token, s'.clock) <==>
                  s'.clock < s.clock + c.seconds && !Terminal(s'.rows[v].job.value.status))
  {
    ReachableInv(s);
    LeaseBegins(s, c, v, token, m, s.clock + c.seconds);
    LeasedTokenLives(m, v, token, s.clock + c.seconds, steps);
  }

  // ---------- Only the holder writes ----------

  /** Writes that name an index job. */
  predicate WriteStep(step: Step) {
    || step.DoRecordManifest? || step.DoPublish? || step.DoFail? || step.DoUpdateJob?
    || step.DoHeartbeatIndex? || step.DoRetryIndex? || step.DoDeadLetterIndex?
  }

  /** The write names the version and carries the token. */
  predicate Bears(step: Step, v: VersionId, token: Token) {
    || ((step.DoRecordManifest? || step.DoPublish? || step.DoFail? || step.DoUpdateJob?)
        && step.v == v && step.execution == Some(token))
    || ((step.DoHeartbeatIndex? || step.DoRetryIndex? || step.DoDeadLetterIndex?) && step.v == v && step.token == token)
  }

  /** Without a token a job that a worker owns can be neither recorded, published, failed nor updated, even after the
      lease has run out. */
  lemma UnleasedWritesRefused(s: State, v: VersionId, fence: int, entries: seq<Entry>, vectors: Option<int>,
                              parents: Option<int>, expected: Option<VersionId>, status: Option<JobStatus>,
                              step: Option<string>)
    requires Reachable(s) && v in s.rows && s.rows[v].job.Some? && s.rows[v].job.value.owner.Some?
    ensures RecordManifest(s, v, fence, entries, vectors, parents, None).1.Err?
    ensures RecordManifest(s, v, fence, entries, vectors, parents, None).0 == s
    ensures Publish(s, v, fence, expected, None).1.Err? && Publish(s, v, fence, expected, None).0 == s
    ensures Fail(s, v, fence, None).1.Err? && Fail(s, v, fence, None).0 == s
    ensures UpdateJob(s, v, fence, status, step, None).1.Err? && UpdateJob(s, v, fence, status, step, None).0 == s
  {
    ReachableInv(s);
    assert RowAt(s, v);
    RecordExact(s, v, fence, entries, vectors, parents, None);
    PublishExact(s, v, fence, expected, None);
    FailExact(s, v, fence, None);
    UpdateExact(s, v, fence, status, step, None);
  }

  /** A write that changes an owned version carries the owner's token, and the lease still runs. */
  ghost predicate WriterHolds(s: State, step: Step, s': State, v: VersionId)
    requires v in s.rows && s.rows[v].job.Some?
  {
    var j := s.rows[v].job.value;
    v in s'.rows && (s'.rows[v] != s.rows[v] && j.owner.Some? ==>
      Bears(step, v, Token(j.owner.value, j.execFence)) && j.lease.Some? && s.clock < j.lease.value)
  }

  lemma RecordedByHolder(s: State, w: VersionId, fence: int, entries: seq<Entry>, vs: Option<int>, ps: Option<int>,
                         ex: Option<Token>, s': State, v: VersionId)
    requires Inv(s) && v in s.rows && s.rows[v].job.Some? && s' == RecordManifest(s, w, fence, entries, vs, ps, ex).0
    ensures WriterHolds(s, DoRecordManifest(w, fence, entries, vs, ps, ex), s', v)
  {
    RecordExact(s, w, fence, entries, vs, ps, ex);
  }

  lemma PublishedByHolder(s: State, w: VersionId, fence: int, expected: Option<VersionId>, ex: Option<Token>,
                          s': State, v: VersionId)
    requires Inv(s) && v in s.rows && s.rows[v].job.Some? && s' == Publish(s, w, fence, expected, ex).0
    ensures WriterHolds(s, DoPublish(w, fence, expected, ex), s', v)
  {
    PublishExact(s, w, fence, expected, ex);
    assert RowAt(s, v);
    if w in s.rows { assert DocOk(s, s.rows[w].doc); }
  }

  lemma FailedByHolder(s: State, w: VersionId, fence: int, ex: Option<Token>, s': State, v: VersionId)
    requires Inv(s) && v in s.rows && s.rows[v].job.Some? && s' == Fail(s, w, fence, ex).0
    ensures WriterHolds(s, DoFail(w, fence, ex), s', v)
  {
    FailExact(s, w, fence, ex);
  }

  lemma UpdatedByHolder(s: State, w: VersionId, fence: int, status: Option<JobStatus>, name: Option<string>,
                        ex: Option<Token>, s': State, v: VersionId)
    requires Inv(s) && v in s.rows && s.rows[v].job.Some? && s' == UpdateJob(s, w, fence, status, name, ex).0
    ensures WriterHolds(s, DoUpdateJob(w, fence, status, name, ex), s', v)
  {
    UpdateExact(s, w, fence, status, name, ex);
  }

  lemma KeptByHolder(s: State, w: VersionId, token: Token, seconds: int, v: VersionId)
    requires Inv(s) && v in s.rows && s.rows[v].job.Some?
    ensures WriterHolds(s, DoHeartbeatIndex(w, token, seconds), HeartbeatIndex(s, w, token, seconds).0, v)
    ensures WriterHolds(s, DoRetryIndex(w, token, seconds), RetryIndex(s, w, token, seconds).0, v)
    ensures WriterHolds(s, DoDeadLetterIndex(w, token), DeadLetterIndex(s, w, token).0, v)
  {
    HeartbeatExact(s, w, token, seconds);
    RetryExact(s, w, token, seconds);
    DeadLetterExact(s, w, token);
  }

  lemma ResultsAreHeld(s: State, step: Step, s': State, v: VersionId)
    requires step.DoRecordManifest? || step.DoPublish? || step.DoFail? || step.DoUpdateJob?
    requires Inv(s) && v in s.rows && s.rows[v].job.Some? && s' == Next(s, step)
    ensures WriterHolds(s, step, s', v)
  {
    match step
    case DoRecordManifest(w, fence, entries, vs, ps, ex) => RecordedByHolder(s, w, fence, entries, vs, ps, ex, s', v);
    case DoPublish(w, fence, expected, ex) => PublishedByHolder(s, w, fence, expected, ex, s', v);
    case DoFail(w, fence, ex) => FailedByHolder(s, w, fence, ex, s', v);
    case DoUpdateJob(w, fence, status, name, ex) => UpdatedByHolder(s, w, fence, status, name, ex, s', v);
  }

  lemma RenewalsAreHeld(s: State, step: Step, s': State, v: VersionId)
    requires step.DoHeartbeatIndex? || step.DoRetryIndex? || step.DoDeadLetterIndex?
    requires Inv(s) && v in s.rows && s.rows[v].job.Some? && s' == Next(s, step)
    ensures WriterHolds(s, step, s', v)
  {
    match step
    case DoHeartbeatIndex(w, token, seconds) => KeptByHolder(s, w, token, seconds, v);
    case DoRetryIndex(w, token, delay) => KeptByHolder(s, w, token, delay, v);
    case DoDeadLetterIndex(w, token) => KeptByHolder(s, w, token, 0, v);
  }

  lemma WritesAreHeld(s: State, step: Step, s': State, v: VersionId)
    requires Inv(s) && WriteStep(step) && v in s.rows && s.rows[v].job.Some? && s' == Next(s, step)
    ensures WriterHolds(s, step, s', v)
  {
    if step.DoRecordManifest? || step.DoPublish? || step.DoFail? || step.DoUpdateJob? {
      ResultsAreHeld(s, step, s', v);
    } else {
      RenewalsAreHeld(s, step, s', v);
    }
  }

  lemma StillHeld(s: State, c: Claim, v: VersionId, token: Token, m: State, steps: seq<Step>)
    requires Reachable(s)
    requires ClaimIndex(s, c) == (m, Ok(Some(v))) || HeartbeatIndex(s, v, token, c.seconds) == (m, Ok(()))
    requires v in m.rows && m.rows[v].job.Some? && token == Token(c.worker, m.rows[v].job.value.execFence)
    requires Unreleased(m, steps, v, token)
    ensures var s' := After(m, steps);
            && Inv(s') && v in s'.rows && s'.rows[v].job.Some?
            && (s'.clock < s.clock + c.seconds && Open(s'.rows[v].job.value) ==>
                  Live(s'.rows[v].job.value, token, s'.clock))
  {
    ClaimedTokenLives(s, c, v, token, m, steps);
    ReachableInv(s);
    LeaseBegins(s, c, v, token, m, s.clock + c.seconds);
    RunSound(m, steps);
  }

  /** After a claim or renewal, over every run in which the holder neither renews again nor puts the job back: while the
      seconds asked for last and the job is open, a write that changes the version carries the holder's token. */
  lemma OnlyTheHolderWrites(s: State, c: Claim, v: VersionId, token: Token, m: State, steps: seq<Step>, step: Step)
    requires Reachable(s)
    requires ClaimIndex(s, c) == (m, Ok(Some(v))) || HeartbeatIndex(s, v, token, c.seconds) == (m, Ok(()))
    requires v in m.rows && m.rows[v].job.Some? && token == Token(c.worker, m.rows[v].job.value.execFence)
    requires Unreleased(m, steps, v, token) && WriteStep(step)
    ensures var s', s'' := After(m, steps), Next(After(m, steps), step);
            && v in s'.rows && s'.rows[v].job.Some? && v in s''.rows
            && (s'.clock < s.clock + c.seconds && Open(s'.rows[v].job.value) && s''.rows[v] != s'.rows[v] ==>
                  Bears(step, v, token))
  {
    StillHeld(s, c, v, token, m, steps);
    WritesAreHeld(After(m, steps), step, Next(After(m, steps), step), v);
  }

  // ---------- The grace period ----------

  /** An inactive version whose cleanup waits, unclaimed, for the given time. */
  predicate Resting(row: Row, until: Time) {
    && !Active(row.status) && row.cleanedAt.None? && row.cleanupAfter == Some(until)
    && row.cleanup.Some? && row.cleanup.value.status.Pending? && row.cleanup.value.owner.None?
  }

  ghost predicate Kept(s: State, s': State, w: VersionId)
    requires w in s.rows
  {
    w in s'.rows && s'.rows[w] == s.rows[w]
  }

  /** Steps that cut a grace period short: retiring a document once more that is deleted already,
      or an unleased cleanup of the version. */
  predicate Intrudes(s: State, step: Step, w: VersionId, id: DocId) {
    || (step.DoRetire? && id in Named(s, step.tenant, step.name, step.kb) && s.docs[id].deletedAt.Some?)
    || (step.DoRecordCleanup? && step.v == w)
  }

  ghost predicate Undisturbed(s: State, steps: seq<Step>, w: VersionId, id: DocId)
    decreases |steps|
  {
    steps == [] || (!Intrudes(s, steps[0], w, id) && Undisturbed(Next(s, steps[0]), steps[1..], w, id))
  }

  lemma MoveRests(s: State, step: Step, s': State, w: VersionId, until: Time)
    requires Moved(s, step, s', w) && w in s.rows && Resting(s.rows[w], until) && s.clock < until
    requires !Intrudes(s, step, w, s.rows[w].doc)
    ensures Kept(s, s', w)
  {
  }

  lemma {:induction false} RunRests(s: State, steps: seq<Step>, w: VersionId, until: Time)
    requires Inv(s) && w in s.rows && Resting(s.rows[w], until) && After(s, steps).clock < until
    requires Undisturbed(s, steps, w, s.rows[w].doc)
    ensures Kept(s, After(s, steps), w)
    decreases |steps|
  {
    if steps != [] {
      var s' := Next(s, steps[0]);
      RunSound(s, steps);
      NextSound(s, steps[0]);
      StepMoves(s, steps[0], s', w);
      MoveRests(s, steps[0], s', w, until);
      RunRests(s', steps[1..], w, until);
    }
  }

  /** A version replaced by a publish stays untouched for the grace period: no cleanup can claim it earlier. */
  lemma GracePeriod(s: State, v: VersionId, fence: int, expected: VersionId, execution: Option<Token>,
                    m: State, steps: seq<Step>, locked: set<VersionId>)
    requires Reachable(s) && JobGraph(s, v) && m == Publish(s, v, fence, Some(expected), execution).0
    requires var a := Publish(s, v, fence, Some(expected), execution).1; a.Ok? && a.value.published
    requires After(m, steps).clock < s.clock + CLEANUP_GRACE
    requires Undisturbed(m, steps, expected, s.rows[v].doc)
    ensures expected in m.rows && m.rows[expected].status.Superseded?
    ensures Kept(m, After(m, steps), expected) && !CleanupClaimable(After(m, steps), expected, locked)
  {
    ReachableInv(s);
    PublishSound(s, v, fence, Some(expected), execution, m);
    SupersededRests(s, v, fence, expected, execution, m);
    RunRests(m, steps, expected, s.clock + CLEANUP_GRACE);
  }

  lemma SupersededRests(s: State, v: VersionId, fence: int, expected: VersionId, execution: Option<Token>, m: State)
    requires Inv(s) && JobGraph(s, v) && m == Publish(s, v, fence, Some(expected), execution).0
    requires var a := Publish(s, v, fence, Some(expected), execution).1; a.Ok? && a.value.published
    ensures expected in m.rows && Resting(m.rows[expected], s.clock + CLEANUP_GRACE)
    ensures m.rows[expected].status.Superseded? && m.rows[expected].doc == s.rows[v].doc
  {
    assert DocOk(s, s.rows[v].doc);
    PublishSwitches(s, v, fence, Some(expected), execution, m);
    assert RowAt(s, v) && RowAt(s, expected);
    SwitchedRow(s, v, expected);
    SupersedeRests(s.rows[expected], s.clock, s.clock + CLEANUP_GRACE);
  }

  lemma SupersedeRests(row: Row, now: Time, until: Time)
    requires row.cleanup.None? && row.cleanedAt.None?
    ensures Resting(Supersede(row, now, until, false), until) && Supersede(row, now, until, false).status.Superseded?
    ensures Supersede(row, now, until, false).doc == row.doc
  {
  }

  // ---------- Retry delays ----------

  /** A job that nobody owns and that is closed or waits for the given time. */
  predicate Waiting(job: IndexJob, due: Time) {
    && job.owner.None?
    && (Terminal(job.status) || ((job.status.RetryWait? || job.status.Staged?) && job.nextRetry == Some(due)))
  }

  predicate Waits(s: State, v: VersionId, fence: nat, due: Time) {
    && v in s.rows && s.rows[v].job.Some?
    && Waiting(s.rows[v].job.value, due) && s.rows[v].job.value.execFence == fence
  }

  /** A write to the job by somebody who holds no lease, which may restart it early. */
  predicate Restarts(step: Step, v: VersionId) { step.DoUpdateJob? && step.v == v && step.execution.None? }

  lemma MoveWaits(s: State, step: Step, s': State, v: VersionId, fence: nat, due: Time)
    requires Moved(s, step, s', v) && Waits(s, v, fence, due) && s.clock < due && !Restarts(step, v)
    requires RowAfter(s, s', v)
    ensures Waits(s', v, fence, due)
  {
  }

  lemma {:induction false} RunWaits(s: State, steps: seq<Step>, v: VersionId, fence: nat, due: Time)
    requires Inv(s) && Waits(s, v, fence, due) && After(s, steps).clock < due
    requires forall i :: 0 <= i < |steps| ==> !Restarts(steps[i], v)
    ensures Waits(After(s, steps), v, fence, due)
    decreases |steps|
  {
    if steps != [] {
      var s' := Next(s, steps[0]);
      RunSound(s, steps);
      NextSound(s, steps[0]);
      StepMoves(s, steps[0], s', v);
      assert RowAfter(s, s', v);
      MoveWaits(s, steps[0], s', v, fence, due);
      RunWaits(s', steps[1..], v, fence, due);
    }
  }

  lemma PutBackWaits(s: State, v: VersionId, token: Token, delay: int, m: State)
    requires Inv(s) && JobGraph(s, v) && RetryIndex(s, v, token, delay) == (m, Ok(()))
    requires s.rows[v].job.value.attempts < s.rows[v].job.value.maxAttempts
    ensures Waits(m, v, s.rows[v].job.value.execFence, s.clock + delay)
    ensures forall now :: IndexReady(m.rows[v].job.value, now) <==> now >= s.clock + delay
  {
    assert RowAt(s, v);
  }

  /** A job put back with attempts left is not leased to anybody before its delay is over, whatever else happens
      short of an unleased restart; if it is still as it was put back, it can be claimed from then on. */
  lemma RetryWaits(s: State, v: VersionId, token: Token, delay: int, m: State, steps: seq<Step>, c: Claim)
    requires Reachable(s) && JobGraph(s, v) && RetryIndex(s, v, token, delay) == (m, Ok(()))
    requires s.rows[v].job.value.attempts < s.rows[v].job.value.maxAttempts
    requires forall i :: 0 <= i < |steps| ==> !Restarts(steps[i], v)
    ensures After(m, steps).clock < s.clock + delay ==>
              !Claimable(After(m, steps), v, c) && Waits(After(m, steps), v, s.rows[v].job.value.execFence, s.clock + delay)
    ensures v in m.rows && m.rows[v].job.Some?
    ensures forall now :: IndexReady(m.rows[v].job.value, now) <==> now >= s.clock + delay
  {
    ReachableInv(s);
    RetryIndexSound(s, v, token, delay, m);
    PutBackWaits(s, v, token, delay, m);
    if After(m, steps).clock < s.clock + delay {
      RunWaits(m, steps, v, s.rows[v].job.value.execFence, s.clock + delay);
      WaitingIsNoCandidate(After(m, steps), v, s.rows[v].job.value.execFence, s.clock + delay, c);
    }
  }

  lemma WaitingIsNoCandidate(s: State, v: VersionId, fence: nat, due: Time, c: Claim)
    requires Waits(s, v, fence, due) && s.clock < due
    ensures !Claimable(s, v, c)
  {
  }

  // ---------- Retirement ----------

  /** Retiring makes cleanup due at once: of what the pointers held, and on repetition of every pending cleanup job. */
  lemma RetireHastens(s: State, id: DocId, v: VersionId)
    requires Reachable(s) && id in s.docs && RetireDoc(s, id).1.Ok? && v in RetireDoc(s, id).1.value.cleanup
    ensures var s' := RetireDoc(s, id).0;
            && v in s.rows && v in s'.rows && !Active(s'.rows[v].status)
            && (Active(s.rows[v].status) || (s.rows[v].cleanup.Some? && s.rows[v].cleanup.value.status.Pending?) ==>
                  CleanupReady(s'.rows[v], s.clock))
  {
    ReachableInv(s);
    assert DocOk(s, id) && RowAt(s, v);
    RetireDue(s, id, v);
  }

  lemma RetireDue(s: State, id: DocId, v: VersionId)
    requires id in s.docs && DocOk(s, id) && v in s.rows && RowAt(s, v)
    requires RetireDoc(s, id).1.Ok? && v in RetireDoc(s, id).1.value.cleanup
    ensures var s' := RetireDoc(s, id).0;
            && v in s'.rows && !Active(s'.rows[v].status)
            && (Active(s.rows[v].status) || s.rows[v].cleanup.value.status.Pending? ==> CleanupReady(s'.rows[v], s.clock))
  {
    if s.docs[id].deletedAt.Some? {
      HastenReady(s.rows[v], s.clock);
    } else {
      SupersedeReady(s.rows[v], s.clock, s.docs[id].current != Some(v));
    }
  }

  lemma HastenReady(row: Row, now: Time)
    requires row.cleanup.Some? && CleanupOk(row.cleanup.value) && !Active(row.status) && row.cleanedAt.None?
    ensures row.cleanup.value.status.Pending? ==> CleanupReady(Hasten(row, now), now)
    ensures !Active(Hasten(row, now).status)
  {
  }

  lemma SupersedeReady(row: Row, now: Time, cancel: bool)
    requires row.cleanup.None? && row.cleanedAt.None?
    ensures CleanupReady(Supersede(row, now, now, cancel), now) && !Active(Supersede(row, now, now, cancel).status)
  {
  }
}
