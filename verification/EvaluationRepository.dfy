/** The evaluation repository as an object whose methods update its job rows. */
module EvaluationRepository {
  import opened Prelude
  import opened EvaluationJobs

  class RagEvaluationRepository {
    var datasets: map<string, seq<string>>
    var jobs: map<JobId, Job>
    var order: seq<JobId>
    var clock: Time

    ghost function Model(): State
      reads this
    {
      State(datasets, jobs, order, clock)
    }

    ghost predicate Valid()
      reads this
    {
      Inv(Model())
    }

    constructor ()
      ensures Model() == EMPTY && Valid()
    {
      datasets, jobs, order, clock := map[], map[], [], 0;
    }

    method CreateJob(id: JobId, dataset: string, baseline: Option<JobId>, maxAttempts: int)
      returns (r: Answer<JobId, Error>)
      requires Valid()
      modifies this
      ensures (Model(), r) == EvaluationJobs.CreateJob(old(Model()), id, dataset, baseline, maxAttempts)
      ensures Valid()
    {
      CreateSound(Model(), id, dataset, baseline, maxAttempts);
      if dataset !in datasets { return Err(NoDataset); }
      if baseline.Some? {
        if baseline.value !in jobs { return Err(NoBaseline); }
        var b := jobs[baseline.value];
        if b.dataset != dataset || !b.status.Succeeded? || !b.report { return Err(UnfitBaseline); }
      }
      if id in jobs { return Err(IdTaken); }
      jobs := jobs[id := NewJob(dataset, datasets[dataset], maxAttempts)];
      order := order + [id];
      r := Ok(id);
    }

    method Cancel(id: JobId) returns (r: Answer<JobStatus, Error>)
      requires Valid()
      modifies this`jobs
      ensures (Model(), r) == EvaluationJobs.Cancel(old(Model()), id)
      ensures Valid()
    {
      NextSound(Model(), DoCancel(id));
      if id !in jobs { return Err(NotFound); }
      var job := jobs[id];
      if job.status.Queued? {
        job := CancelLocked(job);
      } else if job.status.Running? {
        job := job.(status := Cancelling);
      }
      jobs := jobs[id := job];
      r := Ok(job.status);
    }

    static method CancelLocked(job: Job) returns (r: Job)
      ensures r == CancelRow(job)
    {
      var cases := Recast(job.cases, {Waiting, Started}, Dropped);
      r := job.(status := Cancelled, owner := None, lease := None, cases := cases);
    }

    method ReconcileExpired(scored: set<JobId>)
      requires Valid()
      modifies this`jobs
      ensures Model() == Reconcile(old(Model()), scored)
      ensures Valid()
    {
      ghost var before := Model();
      ReconcileSound(before, scored);
      var todo := jobs.Keys;
      while todo != {}
        invariant todo <= jobs.Keys == before.jobs.Keys
        invariant forall id :: id in jobs ==>
          jobs[id] == if id in todo then before.jobs[id] else Recover(before.jobs[id], clock, id in scored)
        decreases todo
      {
        var id :| id in todo;
        todo := todo - {id};
        var job := jobs[id];
        if Expired(job, clock) {
          job := RecoverJob(job, id in scored);
          jobs := jobs[id := job];
        }
      }
      assert jobs == Reconcile(before, scored).jobs;
    }

    method RecoverJob(job: Job, scored: bool) returns (r: Job)
      requires Expired(job, clock)
      ensures r == Recover(job, clock, scored)
    {
      if job.status.Cancelling? {
        r := CancelLocked(job);
      } else if job.attempts >= job.maxAttempts {
        var cases := Recast(job.cases, {Waiting, Started}, Broken);
        r := job.(status := Failed, owner := None, lease := None, report := job.report || scored, cases := cases);
      } else {
        var cases := Recast(job.cases, {Started}, Waiting);
        r := job.(status := Queued, owner := None, lease := None, cases := cases);
      }
    }

    method ClaimNext(worker: string, seconds: int, scored: set<JobId>, locked: set<JobId>)
      returns (r: Answer<Option<JobId>, Error>)
      requires Valid()
      modifies this`jobs
      ensures (Model(), r) == ClaimQueued(Reconcile(old(Model()), scored), worker, seconds, locked)
      ensures Valid()
    {
      ReconcileExpired(scored);
      NextSound(Model(), DoClaim(worker, seconds, locked));
      var next := NextQueued(State(datasets, jobs, order, clock), order, locked);
      if next.None? { return Ok(None); }
      var job := jobs[next.value];
      jobs := jobs[next.value := job.(status := Running, owner := Some(worker), lease := Some(LeaseEnd(clock, seconds)),
                                      fence := job.fence + 1, attempts := job.attempts + 1)];
      r := Ok(next);
    }

    method AssertOwner(id: JobId, worker: string, token: int) returns (fault: Option<Error>)
      ensures fault == OwnerFault(Model(), id, worker, token)
    {
      if id !in jobs { return Some(NotFound); }
      var job := jobs[id];
      if job.owner != Some(worker) || job.fence != token || !(job.status.Running? || job.status.Cancelling?) {
        return Some(NotOwner);
      }
      fault := None;
    }

    method Heartbeat(id: JobId, worker: string, token: int, seconds: int) returns (r: Answer<(), Error>)
      requires Valid()
      modifies this`jobs
      ensures (Model(), r) == EvaluationJobs.Heartbeat(old(Model()), id, worker, token, seconds)
      ensures Valid()
    {
      NextSound(Model(), DoHeartbeat(id, worker, token, seconds));
      var fault := AssertOwner(id, worker, token);
      if fault.Some? { return Err(fault.value); }
      jobs := jobs[id := jobs[id].(lease := Some(LeaseEnd(clock, seconds)))];
      r := Ok(());
    }

    method ClaimCase(id: JobId, worker: string, token: int) returns (r: Answer<Option<nat>, Error>)
      requires Valid()
      modifies this`jobs
      ensures (Model(), r) == EvaluationJobs.ClaimCase(old(Model()), id, worker, token)
      ensures Valid()
    {
      NextSound(Model(), DoClaimCase(id, worker, token));
      var fault := AssertOwner(id, worker, token);
      if fault.Some? { return Err(fault.value); }
      var job := jobs[id];
      if job.status.Cancelling? { return Ok(None); }
      var at := FirstWaiting(job.cases);
      if at.None? { return Ok(None); }
      jobs := jobs[id := job.(cases := job.cases[at.value := Started])];
      r := Ok(at);
    }

    method CompleteCase(id: JobId, name: string, worker: string, token: int) returns (r: Answer<(), Error>)
      requires Valid()
      modifies this`jobs
      ensures (Model(), r) == EvaluationJobs.CompleteCase(old(Model()), id, name, worker, token)
      ensures Valid()
    {
      NextSound(Model(), DoCompleteCase(id, name, worker, token));
      var fault := AssertOwner(id, worker, token);
      if fault.Some? { return Err(fault.value); }
      var job := jobs[id];
      var at := IndexOf(job.names, name);
      if at.None? || at.value >= |job.cases| { return Err(NoCase); }
      if job.cases[at.value].Completed? { return Ok(()); }
      if !job.cases[at.value].Started? { return Err(CaseNotStarted); }
      jobs := jobs[id := job.(cases := job.cases[at.value := Completed], completed := job.completed + 1)];
      r := Ok(());
    }

    method FailJob(id: JobId, worker: string, token: int, name: Option<string>, report: bool)
      returns (r: Answer<(), Error>)
      requires Valid()
      modifies this`jobs
      ensures (Model(), r) == EvaluationJobs.FailJob(old(Model()), id, worker, token, name, report)
      ensures Valid()
    {
      NextSound(Model(), DoFail(id, worker, token, name, report));
      var fault := AssertOwner(id, worker, token);
      if fault.Some? { return Err(fault.value); }
      var job := jobs[id];
      var cases := job.cases;
      if name.Some? {
        var at := IndexOf(job.names, name.value);
        if at.Some? && at.value < |cases| { cases := cases[at.value := Broken]; }
      }
      cases := Recast(cases, {Waiting}, Dropped);
      jobs := jobs[id := job.(status := Failed, owner := None, lease := None, report := job.report || report,
                              cases := cases)];
      r := Ok(());
    }

    method FinishJob(id: JobId, worker: string, token: int, covered: set<string>) returns (r: Answer<(), Error>)
      requires Valid()
      modifies this`jobs
      ensures (Model(), r) == EvaluationJobs.FinishJob(old(Model()), id, worker, token, covered)
      ensures Valid()
    {
      NextSound(Model(), DoFinish(id, worker, token, covered));
      var fault := AssertOwner(id, worker, token);
      if fault.Some? { return Err(fault.value); }
      var job := jobs[id];
      if job.completed != |job.cases| { return Err(Unfinished); }
      if covered != (set n | n in job.names) { return Err(ReportGap); }
      jobs := jobs[id := job.(status := Succeeded, owner := None, lease := None, report := true)];
      r := Ok(());
    }

    method FinishCancelled(id: JobId, worker: string, token: int) returns (r: Answer<(), Error>)
      requires Valid()
      modifies this`jobs
      ensures (Model(), r) == EvaluationJobs.FinishCancelled(old(Model()), id, worker, token)
      ensures Valid()
    {
      NextSound(Model(), DoFinishCancelled(id, worker, token));
      var fault := AssertOwner(id, worker, token);
      if fault.Some? { return Err(fault.value); }
      var job := CancelLocked(jobs[id]);
      jobs := jobs[id := job];
      r := Ok(());
    }
  }
}
