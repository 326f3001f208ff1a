// When each call on an evaluation job succeeds, and all it leaves.
//
// Stated on the columns of the row and the statuses of its cases.
module EvaluationAnswers {
  import opened Prelude
  import opened EvaluationJobs

  // ---------- Who may write ----------

  /** The worker owns the job under this token, and the job is running or asked to stop. */
  ghost predicate Holder(s: State, id: JobId, worker: string, token: int) {
    && id in s.jobs && s.jobs[id].owner == Some(worker) && s.jobs[id].fence == token
    && (s.jobs[id].status.Running? || s.jobs[id].status.Cancelling?)
  }

  /** Only its row changes. */
  ghost function Put(s: State, id: JobId, j: Job): State { s.(jobs := s.jobs[id := j]) }

  /** Every write by anybody but the holder is refused and changes nothing. */
  lemma OnlyTheHolderWrites(s: State, id: JobId, worker: string, token: int, seconds: int, name: string,
                            failed: Option<string>, report: bool, covered: set<string>)
    requires !Holder(s, id, worker, token)
    ensures var e := if id in s.jobs then NotOwner else NotFound;
            && Heartbeat(s, id, worker, token, seconds) == (s, Err(e))
            && ClaimCase(s, id, worker, token) == (s, Err(e))
            && CompleteCase(s, id, name, worker, token) == (s, Err(e))
            && FailJob(s, id, worker, token, failed, report) == (s, Err(e))
            && FinishJob(s, id, worker, token, covered) == (s, Err(e))
            && FinishCancelled(s, id, worker, token) == (s, Err(e))
  {
  }

  /** The holder's lease ends after the seconds asked for, but not within ten. */
  lemma HeartbeatExact(s: State, id: JobId, worker: string, token: int, seconds: int)
    requires Holder(s, id, worker, token)
    ensures Heartbeat(s, id, worker, token, seconds) ==
            (Put(s, id, s.jobs[id].(lease := Some(s.clock + if seconds >= 10 then seconds else 10))), Ok(()))
  {
  }

  // ---------- Finishing ----------

  /** The holder finishes its job exactly when every case is completed and its report covers all cases and no other. */
  lemma FinishExact(s: State, id: JobId, worker: string, token: int, covered: set<string>)
    requires Inv(s) && Holder(s, id, worker, token)
    ensures var (s', a) := FinishJob(s, id, worker, token, covered);
            var j := s.jobs[id];
            && (a.Ok? <==> && (forall i :: 0 <= i < |j.cases| ==> j.cases[i].Completed?)
                           && forall n :: n in covered <==> n in j.names)
            && s' == if a.Err? then s else Put(s, id, j.(status := Succeeded, owner := None, lease := None, report := true))
  {
    assert JobAt(s, id);
    CountAll(s.jobs[id].cases);
  }

  /** The statuses with one of them replaced by another throughout. */
  ghost predicate Turned(cases: seq<CaseStatus>, cases': seq<CaseStatus>, turn: CaseStatus -> CaseStatus) {
    |cases'| == |cases| && forall i :: 0 <= i < |cases| ==> cases'[i] == turn(cases[i])
  }

  ghost function Stopped(c: CaseStatus): CaseStatus { if c.Waiting? || c.Started? then Dropped else c }

  /** The job is cancelled and belongs to nobody; of its cases only the completed ones and those that ended remain. */
  ghost predicate Ends(j: Job, k: Job) {
    k == j.(status := Cancelled, owner := None, lease := None, cases := k.cases) && Turned(j.cases, k.cases, Stopped)
  }

  lemma FinishCancelledExact(s: State, id: JobId, worker: string, token: int)
    requires Holder(s, id, worker, token)
    ensures var (s', a) := FinishCancelled(s, id, worker, token);
            a.Ok? && id in s'.jobs && s' == Put(s, id, s'.jobs[id]) && Ends(s.jobs[id], s'.jobs[id])
  {
  }

  /** A failure marks the first case of the name given, drops those still waiting and leaves the rest. */
  lemma FailExact(s: State, id: JobId, worker: string, token: int, name: Option<string>, report: bool)
    requires Inv(s) && Holder(s, id, worker, token)
    ensures var (s', a) := FailJob(s, id, worker, token, name, report);
            && a.Ok? && id in s'.jobs && s' == Put(s, id, s'.jobs[id])
            && var j, k := s.jobs[id], s'.jobs[id];
               && k == j.(status := Failed, owner := None, lease := None, report := j.report || report, cases := k.cases)
               && |k.cases| == |j.cases| == |j.names|
               && forall i :: 0 <= i < |j.cases| ==>
                    k.cases[i] == if name.Some? && FirstAt(j.names, name.value, i) then Broken
                                  else if j.cases[i].Waiting? then Dropped else j.cases[i]
  {
    assert JobAt(s, id);
    if name.Some? { IndexIsFirst(s.jobs[id].names, name.value); }
  }

  ghost predicate FirstAt(names: seq<string>, name: string, i: int) {
    0 <= i < |names| && names[i] == name && forall k :: 0 <= k < i ==> names[k] != name
  }

  lemma {:induction false} IndexIsFirst(names: seq<string>, name: string)
    ensures forall i :: FirstAt(names, name, i) <==> IndexOf(names, name) == Some(i)
  {
    if names != [] {
      IndexIsFirst(names[1..], name);
      forall i ensures FirstAt(names, name, i) <==> IndexOf(names, name) == Some(i) {
        if i > 0 { FirstLater(names, name, i); }
      }
    }
  }

  lemma FirstLater(names: seq<string>, name: string, i: int)
    requires names != [] && i > 0
    ensures FirstAt(names, name, i) <==> names[0] != name && FirstAt(names[1..], name, i - 1)
  {
    if names[0] != name && FirstAt(names[1..], name, i - 1) {
      forall k | 0 <= k < i ensures names[k] != name {
        if k > 0 { assert names[k] == names[1..][k - 1]; }
      }
    }
  }

  // ---------- Cases ----------

  /** The holder is given the first waiting case, which starts; none when there is none or the job is asked to stop. */
  lemma ClaimCaseExact(s: State, id: JobId, worker: string, token: int)
    requires Holder(s, id, worker, token)
    ensures var (s', a) := ClaimCase(s, id, worker, token);
            var j := s.jobs[id];
            && a.Ok?
            && (a.value.None? <==> j.status.Cancelling? || forall i :: 0 <= i < |j.cases| ==> !j.cases[i].Waiting?)
            && (a.value.None? ==> s' == s)
            && (a.value.Some? ==>
                  var i := a.value.value;
                  && i < |j.cases| && j.cases[i].Waiting? && (forall k :: 0 <= k < i ==> !j.cases[k].Waiting?)
                  && s' == Put(s, id, j.(cases := j.cases[i := Started])))
  {
  }

  /** The holder completes a started case once, which counts; a completed one again without effect; no other. */
  lemma CompleteCaseExact(s: State, id: JobId, name: string, worker: string, token: int)
    requires Inv(s) && Holder(s, id, worker, token)
    ensures var (s', a) := CompleteCase(s, id, name, worker, token);
            var j := s.jobs[id];
            && (a == Err(NoCase) <==> name !in j.names)
            && forall i :: FirstAt(j.names, name, i) ==>
                 && i < |j.cases|
                 && (a.Ok? <==> j.cases[i].Started? || j.cases[i].Completed?)
                 && s' == if j.cases[i].Started?
                          then Put(s, id, j.(cases := j.cases[i := Completed], completed := j.completed + 1)) else s
  {
    assert JobAt(s, id);
    IndexIsFirst(s.jobs[id].names, name);
  }

  // ---------- Creating, cancelling, claiming, recovering ----------

  /** A job is created exactly for a known data set, an unused id and, if a baseline is named, a job of the same data set
      that succeeded with a report. It is queued at the end of the line with all cases waiting. */
  lemma CreateExact(s: State, id: JobId, dataset: string, baseline: Option<JobId>, limit: int)
    ensures var (s', a) := CreateJob(s, id, dataset, baseline, limit);
            && (a.Ok? <==> && dataset in s.datasets && id !in s.jobs
                           && (baseline.None? || (baseline.value in s.jobs && s.jobs[baseline.value].dataset == dataset
                                                  && s.jobs[baseline.value].status.Succeeded? && s.jobs[baseline.value].report)))
            && (a == Err(NoDataset) <==> dataset !in s.datasets)
            && (a == Err(NoBaseline) <==> dataset in s.datasets && baseline.Some? && baseline.value !in s.jobs)
            && (a.Err? ==> s' == s)
            && (a.Ok? ==>
                  && id in s'.jobs && s' == Put(s, id, s'.jobs[id]).(order := s.order + [id])
                  && var j, names := s'.jobs[id], s.datasets[dataset];
                     && j == Job(dataset, names, Queued, None, None, 0, 0, if limit >= 1 then limit else 1, 0, j.cases, false)
                     && |j.cases| == |names| && forall i :: 0 <= i < |names| ==> j.cases[i].Waiting?)
  {
  }

  /** A queued job is cancelled, a running one asked to stop, any other left as it is. */
  lemma CancelExact(s: State, id: JobId)
    ensures id !in s.jobs ==> Cancel(s, id) == (s, Err(NotFound))
    ensures id in s.jobs ==>
              var (s', a) := Cancel(s, id);
              && id in s'.jobs && s' == Put(s, id, s'.jobs[id]) && a == Ok(s'.jobs[id].status)
              && var j, k := s.jobs[id], s'.jobs[id];
                 if j.status.Queued? then Ends(j, k) else k == if j.status.Running? then j.(status := Cancelling) else j
  {
  }

  ghost predicate Free(s: State, id: JobId, locked: set<JobId>) {
    id in s.jobs && s.jobs[id].status.Queued? && id !in locked
  }

  lemma {:induction false} NextIsFirst(s: State, order: seq<JobId>, locked: set<JobId>)
    ensures var r := NextQueued(s, order, locked);
            if r.None? then forall i :: 0 <= i < |order| ==> !Free(s, order[i], locked)
            else exists i :: 0 <= i < |order| && order[i] == r.value && Free(s, order[i], locked)
                             && forall k :: 0 <= k < i ==> !Free(s, order[k], locked)
  {
    if order != [] && !Free(s, order[0], locked) {
      NextIsFirst(s, order[1..], locked);
      var r := NextQueued(s, order[1..], locked);
      if r.Some? {
        var i :| 0 <= i < |order[1..]| && order[1..][i] == r.value && Free(s, order[1..][i], locked)
                 && forall k :: 0 <= k < i ==> !Free(s, order[1..][k], locked);
        assert order[i + 1] == r.value;
        forall k | 0 <= k < i + 1 ensures !Free(s, order[k], locked) {
          if k > 0 { assert order[k] == order[1..][k - 1]; }
        }
      }
    }
  }

  /** A claim leases the oldest queued job that is not locked, and returns none exactly when there is none. */
  lemma ClaimExact(s: State, worker: string, seconds: int, locked: set<JobId>)
    requires Inv(s)
    ensures var (s', a) := ClaimQueued(s, worker, seconds, locked);
            && a.Ok?
            && (a.value.None? <==> forall id :: !Free(s, id, locked))
            && (a.value.None? ==> s' == s)
            && (a.value.Some? ==>
                  && (exists i :: 0 <= i < |s.order| && s.order[i] == a.value.value && Free(s, s.order[i], locked)
                                  && forall k :: 0 <= k < i ==> !Free(s, s.order[k], locked))
                  && var j := s.jobs[a.value.value];
                     s' == Put(s, a.value.value,
                               j.(status := Running, owner := Some(worker),
                                  lease := Some(s.clock + if seconds >= 10 then seconds else 10),
                                  fence := j.fence + 1, attempts := j.attempts + 1)))
  {
    NextIsFirst(s, s.order, locked);
    if NextQueued(s, s.order, locked).None? {
      forall id | id in s.jobs ensures !Free(s, id, locked) { assert JobAt(s, id); }
    }
  }

  ghost function Orphaned(c: CaseStatus): CaseStatus { if c.Waiting? || c.Started? then Broken else c }

  ghost function Requeued(c: CaseStatus): CaseStatus { if c.Started? then Waiting else c }

  /** Recovery touches exactly the jobs whose lease has run out: one asked to stop is cancelled, one out of attempts fails
      with its open cases, any other is queued again with its started cases waiting. */
  lemma RecoverExact(s: State, scored: set<JobId>, id: JobId)
    requires Inv(s)
    ensures var s' := Reconcile(s, scored);
            && s' == s.(jobs := s'.jobs) && s'.jobs.Keys == s.jobs.Keys
            && (id in s.jobs ==>
                  var j, k := s.jobs[id], s'.jobs[id];
                  if j.lease.None? || s.clock < j.lease.value then k == j
                  else if j.status.Cancelling? then Ends(j, k)
                  else if j.attempts >= j.maxAttempts then
                    && k == j.(status := Failed, owner := None, lease := None, report := j.report || id in scored,
                               cases := k.cases)
                    && Turned(j.cases, k.cases, Orphaned)
                  else k == j.(status := Queued, owner := None, lease := None, cases := k.cases)
                       && Turned(j.cases, k.cases, Requeued))
  {
    assert JobAt(s, id);
  }
}
