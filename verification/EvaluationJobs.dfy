/** Evaluation jobs: leased execution of a data set's cases under a fencing token. */
module EvaluationJobs {
  import opened Prelude

  type JobId = nat
  type Time = int

  datatype JobStatus = Queued | Running | Cancelling | Succeeded | Failed | Cancelled
  datatype CaseStatus = Waiting | Started | Completed | Broken | Dropped

  /** A job row with the statuses of its cases in position order. */
  datatype Job = Job(
    dataset: string, names: seq<string>, status: JobStatus, owner: Option<string>, lease: Option<Time>,
    fence: nat, attempts: nat, maxAttempts: nat, completed: nat, cases: seq<CaseStatus>, report: bool)

  datatype State = State(datasets: map<string, seq<string>>, jobs: map<JobId, Job>, order: seq<JobId>, clock: Time)

  datatype Error =
    | NotFound | NotOwner | NoDataset | NoBaseline | UnfitBaseline | IdTaken
    | NoCase | CaseNotStarted | Unfinished | ReportGap

  type Reply<T> = (State, Answer<T, Error>)

  const EMPTY := State(map[], map[], [], 0)

  predicate Live(st: JobStatus) { st.Running? || st.Cancelling? }

  predicate Final(st: JobStatus) { st.Succeeded? || st.Failed? || st.Cancelled? }

  // ---------- Cases ----------

  function Count(cases: seq<CaseStatus>): nat {
    if cases == [] then 0 else (if cases[0].Completed? then 1 else 0) + Count(cases[1..])
  }

  function Recast(cases: seq<CaseStatus>, from: set<CaseStatus>, to: CaseStatus): (r: seq<CaseStatus>)
    ensures |r| == |cases|
    ensures forall i :: 0 <= i < |cases| ==> r[i] == if cases[i] in from then to else cases[i]
  {
    if cases == [] then []
    else [if cases[0] in from then to else cases[0]] + Recast(cases[1..], from, to)
  }

  function FirstWaiting(cases: seq<CaseStatus>): (r: Option<nat>)
    ensures r.Some? ==> r.value < |cases| && cases[r.value].Waiting? && forall i :: 0 <= i < r.value ==> !cases[i].Waiting?
    ensures r.None? ==> forall i :: 0 <= i < |cases| ==> !cases[i].Waiting?
  {
    if cases == [] then None
    else if cases[0].Waiting? then Some(0)
    else
      var rest := FirstWaiting(cases[1..]);
      if rest.Some? then Some(rest.value + 1) else None
  }

  function IndexOf(names: seq<string>, name: string): (r: Option<nat>)
    ensures r.Some? ==> r.value < |names| && names[r.value] == name
    ensures r.None? ==> name !in names
  {
    if names == [] then None
    else if names[0] == name then Some(0)
    else
      var rest := IndexOf(names[1..], name);
      if rest.Some? then Some(rest.value + 1) else None
  }

  lemma {:induction false} CountUpdate(cases: seq<CaseStatus>, i: nat, c: CaseStatus)
    requires i < |cases|
    ensures Count(cases[i := c]) == Count(cases) - (if cases[i].Completed? then 1 else 0) + (if c.Completed? then 1 else 0)
  {
    if i == 0 {
      assert cases[i := c][1..] == cases[1..];
    } else {
      CountUpdate(cases[1..], i - 1, c);
      assert cases[i := c][1..] == cases[1..][i - 1 := c];
    }
  }

  lemma {:induction false} CountRecast(cases: seq<CaseStatus>, from: set<CaseStatus>, to: CaseStatus)
    requires Completed !in from && !to.Completed?
    ensures Count(Recast(cases, from, to)) == Count(cases)
  {
    if cases != [] { CountRecast(cases[1..], from, to); }
  }

  lemma {:induction false} CountAll(cases: seq<CaseStatus>)
    ensures Count(cases) <= |cases|
    ensures Count(cases) == |cases| <==> forall i :: 0 <= i < |cases| ==> cases[i].Completed?
  {
    if cases != [] {
      CountAll(cases[1..]);
      assert forall i :: 0 <= i < |cases[1..]| ==> cases[1..][i] == cases[i + 1];
      assert forall i :: 1 <= i < |cases| ==> cases[i] == cases[1..][i - 1];
    }
  }

  // ---------- Transactions on one row ----------

  predicate Owns(j: Job, worker: string, token: int) {
    j.owner == Some(worker) && j.fence == token && Live(j.status)
  }

  function CancelRow(j: Job): Job {
    j.(status := Cancelled, owner := None, lease := None, cases := Recast(j.cases, {Waiting, Started}, Dropped))
  }

  function RequestCancel(j: Job): Job {
    if j.status.Queued? then CancelRow(j)
    else if j.status.Running? then j.(status := Cancelling)
    else j
  }

  predicate Expired(j: Job, now: Time) { Live(j.status) && j.lease.Some? && j.lease.value <= now }

  /** Recovery of a row whose lease ran out; scored says whether a partial report could be made. */
  function Recover(j: Job, now: Time, scored: bool): Job {
    if !Expired(j, now) then j
    else if j.status.Cancelling? then CancelRow(j)
    else if j.attempts >= j.maxAttempts then
      j.(status := Failed, owner := None, lease := None, report := j.report || scored,
         cases := Recast(j.cases, {Waiting, Started}, Broken))
    else j.(status := Queued, owner := None, lease := None, cases := Recast(j.cases, {Started}, Waiting))
  }

  function LeaseEnd(now: Time, seconds: int): Time { now + if seconds < 10 then 10 else seconds }

  function Lease(j: Job, worker: string, now: Time, seconds: int): Job {
    j.(status := Running, owner := Some(worker), lease := Some(LeaseEnd(now, seconds)),
       fence := j.fence + 1, attempts := j.attempts + 1)
  }

  function FailRow(j: Job, name: Option<string>, report: bool): Job {
    var at := if name.Some? then IndexOf(j.names, name.value) else None;
    var marked := if at.Some? && at.value < |j.cases| then j.cases[at.value := Broken] else j.cases;
    j.(status := Failed, owner := None, lease := None, report := j.report || report,
       cases := Recast(marked, {Waiting}, Dropped))
  }

  // ---------- Transactions ----------

  function WithJob(s: State, id: JobId, j: Job): State { s.(jobs := s.jobs[id := j]) }

  function OwnerFault(s: State, id: JobId, worker: string, token: int): Option<Error> {
    if id !in s.jobs then Some(NotFound)
    else if !Owns(s.jobs[id], worker, token) then Some(NotOwner)
    else None
  }

  predicate FitBaseline(s: State, dataset: string, b: JobId) {
    b in s.jobs && s.jobs[b].dataset == dataset && s.jobs[b].status.Succeeded? && s.jobs[b].report
  }

  function NewJob(dataset: string, names: seq<string>, maxAttempts: int): Job {
    Job(dataset, names, Queued, None, None, 0, 0, if maxAttempts < 1 then 1 else maxAttempts, 0,
        seq(|names|, _ => Waiting), false)
  }

  function CreateJob(s: State, id: JobId, dataset: string, baseline: Option<JobId>, maxAttempts: int): Reply<JobId> {
    if dataset !in s.datasets then (s, Err(NoDataset))
    else if baseline.Some? && baseline.value !in s.jobs then (s, Err(NoBaseline))
    else if baseline.Some? && !FitBaseline(s, dataset, baseline.value) then (s, Err(UnfitBaseline))
    else if id in s.jobs then (s, Err(IdTaken))
    else (s.(jobs := s.jobs[id := NewJob(dataset, s.datasets[dataset], maxAttempts)], order := s.order + [id]), Ok(id))
  }

  function Cancel(s: State, id: JobId): Reply<JobStatus> {
    if id !in s.jobs then (s, Err(NotFound))
    else
      var j := RequestCancel(s.jobs[id]);
      (WithJob(s, id, j), Ok(j.status))
  }

  function Reconcile(s: State, scored: set<JobId>): State {
    s.(jobs := map id | id in s.jobs :: Recover(s.jobs[id], s.clock, id in scored))
  }

  function NextQueued(s: State, order: seq<JobId>, locked: set<JobId>): (r: Option<JobId>)
    ensures r.Some? ==> r.value in s.jobs && s.jobs[r.value].status.Queued? && r.value !in locked && r.value in order
    ensures r.None? ==> forall id :: id in order && id in s.jobs && s.jobs[id].status.Queued? ==> id in locked
  {
    if order == [] then None
    else if order[0] in s.jobs && s.jobs[order[0]].status.Queued? && order[0] !in locked then Some(order[0])
    else NextQueued(s, order[1..], locked)
  }

  function ClaimQueued(s: State, worker: string, seconds: int, locked: set<JobId>): Reply<Option<JobId>> {
    var next := NextQueued(s, s.order, locked);
    if next.None? then (s, Ok(None))
    else (WithJob(s, next.value, Lease(s.jobs[next.value], worker, s.clock, seconds)), Ok(next))
  }

  function Heartbeat(s: State, id: JobId, worker: string, token: int, seconds: int): Reply<()> {
    var fault := OwnerFault(s, id, worker, token);
    if fault.Some? then (s, Err(fault.value))
    else (WithJob(s, id, s.jobs[id].(lease := Some(LeaseEnd(s.clock, seconds)))), Ok(()))
  }

  function ClaimCase(s: State, id: JobId, worker: string, token: int): Reply<Option<nat>> {
    var fault := OwnerFault(s, id, worker, token);
    if fault.Some? then (s, Err(fault.value))
    else
      var j := s.jobs[id];
      var at := FirstWaiting(j.cases);
      if j.status.Cancelling? || at.None? then (s, Ok(None))
      else (WithJob(s, id, j.(cases := j.cases[at.value := Started])), Ok(at))
  }

  function CompleteCase(s: State, id: JobId, name: string, worker: string, token: int): Reply<()> {
    var fault := OwnerFault(s, id, worker, token);
    if fault.Some? then (s, Err(fault.value))
    else
      var j := s.jobs[id];
      var at := IndexOf(j.names, name);
      if at.None? || at.value >= |j.cases| then (s, Err(NoCase))
      else if j.cases[at.value].Completed? then (s, Ok(()))
      else if !j.cases[at.value].Started? then (s, Err(CaseNotStarted))
      else (WithJob(s, id, j.(cases := j.cases[at.value := Completed], completed := j.completed + 1)), Ok(()))
  }

  function FailJob(s: State, id: JobId, worker: string, token: int, name: Option<string>, report: bool): Reply<()> {
    var fault := OwnerFault(s, id, worker, token);
    if fault.Some? then (s, Err(fault.value))
    else (WithJob(s, id, FailRow(s.jobs[id], name, report)), Ok(()))
  }

  function FinishJob(s: State, id: JobId, worker: string, token: int, covered: set<string>): Reply<()> {
    var fault := OwnerFault(s, id, worker, token);
    if fault.Some? then (s, Err(fault.value))
    else
      var j := s.jobs[id];
      if j.completed != |j.cases| then (s, Err(Unfinished))
      else if covered != (set n | n in j.names) then (s, Err(ReportGap))
      else (WithJob(s, id, j.(status := Succeeded, owner := None, lease := None, report := true)), Ok(()))
  }

  function FinishCancelled(s: State, id: JobId, worker: string, token: int): Reply<()> {
    var fault := OwnerFault(s, id, worker, token);
    if fault.Some? then (s, Err(fault.value))
    else (WithJob(s, id, CancelRow(s.jobs[id])), Ok(()))
  }

  // ---------- Invariant ----------

  predicate InProgress(c: CaseStatus) { c.Waiting? || c.Started? || c.Completed? }

  ghost predicate CasesOk(j: Job) {
    && |j.cases| == |j.names|
    && (j.status.Queued? ==> forall i :: 0 <= i < |j.cases| ==> j.cases[i].Waiting? || j.cases[i].Completed?)
    && (Live(j.status) ==> forall i :: 0 <= i < |j.cases| ==> InProgress(j.cases[i]))
    && (j.status.Succeeded? ==> forall i :: 0 <= i < |j.cases| ==> j.cases[i].Completed?)
    && (j.status.Cancelled? ==> forall i :: 0 <= i < |j.cases| ==> j.cases[i].Completed? || j.cases[i].Dropped?)
    && (j.status.Failed? ==> forall i :: 0 <= i < |j.cases| ==> !j.cases[i].Waiting?)
  }

  ghost predicate JobOk(j: Job) {
    && j.fence == j.attempts <= j.maxAttempts
    && (j.status.Queued? ==> j.attempts < j.maxAttempts)
    && (Live(j.status) <==> j.owner.Some?) && (Live(j.status) <==> j.lease.Some?)
    && Count(j.cases) <= j.completed <= Count(j.cases) + (if j.status.Failed? then 1 else 0)
    && (j.status.Succeeded? ==> j.report)
    && CasesOk(j)
  }

  /** What one step, or any run, may do to a row. */
  ghost predicate JobEvolves(j: Job, k: Job) {
    && k.dataset == j.dataset && k.names == j.names && k.maxAttempts == j.maxAttempts
    && |k.cases| == |j.cases| && j.fence <= k.fence
    && (Final(j.status) ==> k == j)
    && (k.fence == j.fence ==> k.owner == j.owner || k.owner.None?)
    && (k.fence == j.fence && Live(k.status) ==> Live(j.status))
    && (j.status.Cancelling? ==> !k.status.Queued? && !k.status.Running? && k.fence == j.fence)
    && (forall i :: 0 <= i < |j.cases| && j.cases[i].Completed? ==> k.cases[i].Completed? || k.status.Failed?)
    && (j.status.Cancelling? ==> forall i :: 0 <= i < |j.cases| && k.cases[i].Started? ==> j.cases[i].Started?)
  }

  ghost predicate JobAt(s: State, id: JobId) { id in s.jobs ==> JobOk(s.jobs[id]) && id in s.order }

  ghost predicate Inv(s: State) { forall id {:trigger JobAt(s, id)} :: JobAt(s, id) }

  ghost predicate JobAfter(s: State, s': State, id: JobId) {
    id in s.jobs ==> id in s'.jobs && JobEvolves(s.jobs[id], s'.jobs[id])
  }

  ghost predicate Evolves(s: State, s': State) { forall id {:trigger JobAfter(s, s', id)} :: JobAfter(s, s', id) }

  ghost predicate Sound(s: State, s': State) { Inv(s') && Evolves(s, s') }

  lemma JobEvolvesOn(j: Job, k: Job, l: Job)
    requires JobEvolves(j, k) && JobEvolves(k, l)
    ensures JobEvolves(j, l)
  {
  }

  lemma EvolvesOn(s: State, s': State, s'': State)
    requires Evolves(s, s') && Evolves(s', s'')
    ensures Evolves(s, s'')
  {
    forall id ensures JobAfter(s, s'', id) {
      assert JobAfter(s, s', id) && JobAfter(s', s'', id);
      if id in s.jobs { JobEvolvesOn(s.jobs[id], s'.jobs[id], s''.jobs[id]); }
    }
  }

  lemma Stays(s: State)
    requires Inv(s)
    ensures Sound(s, s)
  {
    forall id ensures JobAfter(s, s, id) { }
  }

  /** A step that rewrites one row soundly is sound. */
  lemma OneJob(s: State, id: JobId, j: Job)
    requires Inv(s) && id in s.jobs && JobOk(j) && JobEvolves(s.jobs[id], j)
    ensures Sound(s, WithJob(s, id, j))
  {
    var s' := WithJob(s, id, j);
    forall k ensures JobAt(s', k) { assert JobAt(s, k); }
    forall k ensures JobAfter(s, s', k) { }
  }

  // ---------- Rows stay sound ----------

  ghost predicate RowSound(j: Job, k: Job) { JobOk(k) && JobEvolves(j, k) }

  lemma CancelRowSound(j: Job)
    requires JobOk(j) && (j.status.Queued? || Live(j.status))
    ensures RowSound(j, CancelRow(j))
  {
    CountRecast(j.cases, {Waiting, Started}, Dropped);
  }

  lemma RequestCancelSound(j: Job)
    requires JobOk(j)
    ensures RowSound(j, RequestCancel(j))
  {
    if j.status.Queued? { CancelRowSound(j); }
  }

  lemma RecoverSound(j: Job, now: Time, scored: bool)
    requires JobOk(j)
    ensures RowSound(j, Recover(j, now, scored))
  {
    RecoverCount(j, now, scored);
  }

  lemma LeaseSound(j: Job, worker: string, now: Time, seconds: int)
    requires JobOk(j) && j.status.Queued?
    ensures RowSound(j, Lease(j, worker, now, seconds))
  {
  }

  lemma StartSound(j: Job, i: nat)
    requires JobOk(j) && j.status.Running? && i < |j.cases| && j.cases[i].Waiting?
    ensures RowSound(j, j.(cases := j.cases[i := Started]))
  {
    CountUpdate(j.cases, i, Started);
  }

  lemma CompleteSound(j: Job, i: nat)
    requires JobOk(j) && Live(j.status) && i < |j.cases| && j.cases[i].Started?
    ensures RowSound(j, j.(cases := j.cases[i := Completed], completed := j.completed + 1))
  {
    CountUpdate(j.cases, i, Completed);
  }

  predicate NamesCompleted(j: Job, name: Option<string>) {
    name.Some? && var at := IndexOf(j.names, name.value);
    at.Some? && at.value < |j.cases| && j.cases[at.value].Completed?
  }

  /** Failing a job on a completed case takes that case back but leaves the counter. */
  lemma FailRowCount(j: Job, name: Option<string>, report: bool)
    ensures Count(FailRow(j, name, report).cases) == Count(j.cases) - if NamesCompleted(j, name) then 1 else 0
  {
    var at := if name.Some? then IndexOf(j.names, name.value) else None;
    var marked := if at.Some? && at.value < |j.cases| then j.cases[at.value := Broken] else j.cases;
    if at.Some? && at.value < |j.cases| { CountUpdate(j.cases, at.value, Broken); }
    CountRecast(marked, {Waiting}, Dropped);
  }

  lemma FailRowSound(j: Job, name: Option<string>, report: bool)
    requires JobOk(j) && Live(j.status)
    ensures RowSound(j, FailRow(j, name, report))
  {
    FailRowCount(j, name, report);
  }

  lemma SucceedSound(j: Job)
    requires JobOk(j) && Live(j.status) && j.completed == |j.cases|
    ensures RowSound(j, j.(status := Succeeded, owner := None, lease := None, report := true))
  {
    CountAll(j.cases);
  }

  lemma {:induction false} NewCount(n: nat)
    ensures Count(seq(n, _ => Waiting)) == 0
  {
    if n > 0 {
      NewCount(n - 1);
      assert seq(n, _ => Waiting)[1..] == seq(n - 1, _ => Waiting);
    }
  }

  lemma NewJobOk(dataset: string, names: seq<string>, maxAttempts: int)
    ensures JobOk(NewJob(dataset, names, maxAttempts))
  {
    NewCount(|names|);
  }

  // ---------- Runs ----------

  datatype Step =
    | AddDataset(dataset: string, names: seq<string>)
    | DoCreate(id: JobId, dataset: string, baseline: Option<JobId>, maxAttempts: int)
    | DoCancel(id: JobId)
    | DoReconcile(scored: set<JobId>)
    | DoClaim(worker: string, seconds: int, locked: set<JobId>)
    | DoHeartbeat(id: JobId, worker: string, token: int, seconds: int)
    | DoClaimCase(id: JobId, worker: string, token: int)
    | DoCompleteCase(id: JobId, name: string, worker: string, token: int)
    | DoFail(id: JobId, worker: string, token: int, caseName: Option<string>, report: bool)
    | DoFinish(id: JobId, worker: string, token: int, covered: set<string>)
    | DoFinishCancelled(id: JobId, worker: string, token: int)
    | Tick(elapsed: nat)

  function Next(s: State, step: Step): State {
    match step
    case AddDataset(d, names) => if d in s.datasets then s else s.(datasets := s.datasets[d := names])
    case DoCreate(id, d, b, m) => CreateJob(s, id, d, b, m).0
    case DoCancel(id) => Cancel(s, id).0
    case DoReconcile(scored) => Reconcile(s, scored)
    case DoClaim(w, sec, locked) => ClaimQueued(s, w, sec, locked).0
    case DoHeartbeat(id, w, t, sec) => Heartbeat(s, id, w, t, sec).0
    case DoClaimCase(id, w, t) => ClaimCase(s, id, w, t).0
    case DoCompleteCase(id, n, w, t) => CompleteCase(s, id, n, w, t).0
    case DoFail(id, w, t, n, r) => FailJob(s, id, w, t, n, r).0
    case DoFinish(id, w, t, c) => FinishJob(s, id, w, t, c).0
    case DoFinishCancelled(id, w, t) => FinishCancelled(s, id, w, t).0
    case Tick(e) => s.(clock := s.clock + e)
  }

  function After(s: State, steps: seq<Step>): State
    decreases |steps|
  {
    if steps == [] then s else After(Next(s, steps[0]), steps[1..])
  }

  lemma ReconcileSound(s: State, scored: set<JobId>)
    requires Inv(s)
    ensures Sound(s, Reconcile(s, scored))
  {
    var s' := Reconcile(s, scored);
    forall id ensures JobAt(s', id) && JobAfter(s, s', id) {
      assert JobAt(s, id);
      if id in s.jobs { RecoverSound(s.jobs[id], s.clock, id in scored); }
    }
  }

  lemma CreateSound(s: State, id: JobId, d: string, b: Option<JobId>, m: int)
    requires Inv(s)
    ensures Sound(s, CreateJob(s, id, d, b, m).0)
  {
    var s' := CreateJob(s, id, d, b, m).0;
    if d in s.datasets { NewJobOk(d, s.datasets[d], m); }
    forall k ensures JobAt(s', k) && JobAfter(s, s', k) { assert JobAt(s, k); }
  }

  lemma OwnedStepSound(s: State, step: Step, s': State)
    requires Inv(s) && (step.DoHeartbeat? || step.DoClaimCase? || step.DoCompleteCase? || step.DoFail?
                        || step.DoFinish? || step.DoFinishCancelled?)
    requires s' == Next(s, step)
    ensures Sound(s, s')
  {
    Stays(s);
    if s' != s {
      var j := s.jobs[step.id];
      assert JobAt(s, step.id);
      match step {
        case DoHeartbeat(_, _, _, _) =>
        case DoClaimCase(_, _, _) => StartSound(j, FirstWaiting(j.cases).value);
        case DoCompleteCase(_, n, _, _) => CompleteSound(j, IndexOf(j.names, n).value);
        case DoFail(_, _, _, n, r) => FailRowSound(j, n, r);
        case DoFinish(_, _, _, _) => SucceedSound(j);
        case DoFinishCancelled(_, _, _) => CancelRowSound(j);
      }
      OneJob(s, step.id, s'.jobs[step.id]);
    }
  }

  /** Every step keeps the invariant and only evolves rows. */
  lemma NextSound(s: State, step: Step)
    requires Inv(s)
    ensures Sound(s, Next(s, step))
  {
    var s' := Next(s, step);
    match step
    case DoCreate(id, d, b, m) => CreateSound(s, id, d, b, m);
    case DoReconcile(scored) => ReconcileSound(s, scored);
    case DoCancel(id) =>
      Stays(s);
      if id in s.jobs {
        assert JobAt(s, id);
        RequestCancelSound(s.jobs[id]);
        OneJob(s, id, RequestCancel(s.jobs[id]));
      }
    case DoClaim(w, sec, locked) =>
      Stays(s);
      var next := NextQueued(s, s.order, locked);
      if next.Some? {
        assert JobAt(s, next.value);
        LeaseSound(s.jobs[next.value], w, s.clock, sec);
        OneJob(s, next.value, Lease(s.jobs[next.value], w, s.clock, sec));
      }
    case AddDataset(_, _) => forall k ensures JobAt(s', k) && JobAfter(s, s', k) { assert JobAt(s, k); }
    case Tick(_) => forall k ensures JobAt(s', k) && JobAfter(s, s', k) { assert JobAt(s, k); }
    case _ => OwnedStepSound(s, step, s');
  }

  lemma {:induction false} RunSound(s: State, steps: seq<Step>)
    requires Inv(s)
    ensures Sound(s, After(s, steps))
    decreases |steps|
  {
    if steps == [] {
      Stays(s);
    } else {
      NextSound(s, steps[0]);
      RunSound(Next(s, steps[0]), steps[1..]);
      EvolvesOn(s, Next(s, steps[0]), After(s, steps));
    }
  }

  ghost predicate Reachable(s: State) { exists steps :: s == After(EMPTY, steps) }

  lemma ReachableInv(s: State)
    requires Reachable(s)
    ensures Inv(s)
  {
    var steps :| s == After(EMPTY, steps);
    assert Inv(EMPTY);
    RunSound(EMPTY, steps);
  }

  // ---------- Theorems ----------

  /** In every reachable state the counters tell the truth about the cases. */
  lemma CountersAreTrue(s: State, id: JobId)
    requires Reachable(s) && id in s.jobs
    ensures var j := s.jobs[id];
            && j.fence == j.attempts <= j.maxAttempts
            && Count(j.cases) <= j.completed <= Count(j.cases) + (if j.status.Failed? then 1 else 0)
            && (j.status.Succeeded? ==> forall i :: 0 <= i < |j.cases| ==> j.cases[i].Completed?)
            && (j.status.Cancelled? ==> forall i :: 0 <= i < |j.cases| ==> !j.cases[i].Started?)
  {
    ReachableInv(s);
    assert JobAt(s, id);
  }

  /** The counter of a failing job is one too high exactly if the failure names a completed case. */
  lemma FailureMiscounts(s: State, id: JobId, worker: string, token: int, name: Option<string>, report: bool)
    requires Reachable(s) && FailJob(s, id, worker, token, name, report).1.Ok?
    ensures var s' := FailJob(s, id, worker, token, name, report).0;
            && id in s.jobs && id in s'.jobs && s'.jobs[id].status.Failed?
            && s'.jobs[id].completed == Count(s'.jobs[id].cases) + if NamesCompleted(s.jobs[id], name) then 1 else 0
  {
    ReachableInv(s);
    assert JobAt(s, id);
    FailRowCount(s.jobs[id], name, report);
  }

  /** Such a failure can happen: the only case of a job completes and the job then fails on it. */
  lemma MiscountHappens(dataset: string, name: string, worker: string, seconds: int)
    ensures var s := After(EMPTY, Miscounting(dataset, name, worker, seconds));
            0 in s.jobs && s.jobs[0].status.Failed? && s.jobs[0].completed == 1 && Count(s.jobs[0].cases) == 0
  {
    var steps := Miscounting(dataset, name, worker, seconds);
    var s2 := Next(Next(Next(Next(EMPTY, steps[0]), steps[1]), steps[2]), steps[3]);
    OneCaseStarts(dataset, name, worker, seconds);
    var j, s3 := s2.jobs[0], Next(s2, steps[4]);
    assert [Started][0 := Completed] == [Completed] && s3.jobs[0] == j.(cases := [Completed], completed := 1);
    FailRowCount(s3.jobs[0], Some(name), false);
    assert [Completed][1..] == [] && Count([Completed]) == 1;
    AfterSix(EMPTY, steps);
  }

  lemma OneCaseStarts(dataset: string, name: string, worker: string, seconds: int)
    ensures var steps := Miscounting(dataset, name, worker, seconds);
            var s := Next(Next(Next(Next(EMPTY, steps[0]), steps[1]), steps[2]), steps[3]);
            0 in s.jobs && s.jobs[0] == Job(dataset, [name], Running, Some(worker), Some(LeaseEnd(0, seconds)), 1, 1, 1, 0,
                                            [Started], false)
  {
    var steps := Miscounting(dataset, name, worker, seconds);
    var s := Next(Next(EMPTY, steps[0]), steps[1]);
    assert s.jobs[0].cases == [Waiting] && s.order == [0] && NextQueued(s, s.order, {}) == Some(0);
  }

  function Miscounting(dataset: string, name: string, worker: string, seconds: int): seq<Step> {
    [AddDataset(dataset, [name]), DoCreate(0, dataset, None, 1), DoClaim(worker, seconds, {}), DoClaimCase(0, worker, 1),
     DoCompleteCase(0, name, worker, 1), DoFail(0, worker, 1, Some(name), false)]
  }

  lemma AfterSix(s: State, steps: seq<Step>)
    requires |steps| == 6
    ensures After(s, steps) ==
            Next(Next(Next(Next(Next(Next(s, steps[0]), steps[1]), steps[2]), steps[3]), steps[4]), steps[5])
  {
    AfterTwo(s, steps);
    AfterTwo(Next(Next(s, steps[0]), steps[1]), steps[2..]);
    assert steps[2..][2..] == steps[4..] && steps[4..][2..] == [];
    AfterTwo(Next(Next(Next(Next(s, steps[0]), steps[1]), steps[2]), steps[3]), steps[4..]);
  }

  lemma AfterTwo(s: State, steps: seq<Step>)
    requires |steps| >= 2
    ensures After(s, steps) == After(Next(Next(s, steps[0]), steps[1]), steps[2..])
  {
    assert steps[1..][0] == steps[1] && steps[1..][1..] == steps[2..];
  }

  /** A job failed or requeued by recovery keeps a true counter. */
  lemma RecoveryCounts(s: State, scored: set<JobId>, id: JobId)
    requires Reachable(s) && id in s.jobs && !Final(s.jobs[id].status)
    ensures var j := Reconcile(s, scored).jobs[id]; j.completed == s.jobs[id].completed == Count(j.cases)
  {
    ReachableInv(s);
    assert JobAt(s, id);
    RecoverCount(s.jobs[id], s.clock, id in scored);
  }

  lemma RecoverCount(j: Job, now: Time, scored: bool)
    ensures Recover(j, now, scored).completed == j.completed && Count(Recover(j, now, scored).cases) == Count(j.cases)
  {
    CountRecast(j.cases, {Waiting, Started}, Dropped);
    CountRecast(j.cases, {Waiting, Started}, Broken);
    CountRecast(j.cases, {Started}, Waiting);
  }

  /** An ended job never changes again, whatever is run on it. */
  lemma EndedForever(s: State, steps: seq<Step>, id: JobId)
    requires Reachable(s) && id in s.jobs && Final(s.jobs[id].status)
    ensures id in After(s, steps).jobs && After(s, steps).jobs[id] == s.jobs[id]
  {
    ReachableInv(s);
    RunSound(s, steps);
    assert JobAfter(s, After(s, steps), id);
  }

  /** After a cancel request no case starts: whatever is started later was started then. */
  lemma NoStartAfterCancel(s: State, id: JobId, steps: seq<Step>, i: nat)
    requires Reachable(s) && id in s.jobs && Cancel(s, id).1.Ok? && i < |s.jobs[id].cases|
    ensures var s' := After(Cancel(s, id).0, steps);
            && id in s'.jobs && i < |s'.jobs[id].cases|
            && (s'.jobs[id].cases[i].Started? ==> s.jobs[id].cases[i].Started?)
            && !s'.jobs[id].status.Queued? && !s'.jobs[id].status.Running?
  {
    ReachableInv(s);
    var m := Cancel(s, id).0;
    NextSound(s, DoCancel(id));
    RunSound(m, steps);
    assert JobAt(s, id) && JobAt(m, id);
    assert JobAfter(s, m, id) && JobAfter(m, After(m, steps), id);
  }

  /** A token once refused for a job is refused forever. */
  lemma RefusedForever(s: State, steps: seq<Step>, id: JobId, worker: string, token: int)
    requires Reachable(s) && id in s.jobs && token <= s.jobs[id].fence && !Owns(s.jobs[id], worker, token)
    ensures id in After(s, steps).jobs && !Owns(After(s, steps).jobs[id], worker, token)
  {
    ReachableInv(s);
    RunSound(s, steps);
    assert JobAfter(s, After(s, steps), id) && JobAt(s, id) && JobAt(After(s, steps), id);
  }

  predicate WritesWith(step: Step, id: JobId, worker: string, token: int) {
    match step
    case DoHeartbeat(i, w, t, _) => i == id && w == worker && t == token
    case DoClaimCase(i, w, t) => i == id && w == worker && t == token
    case DoCompleteCase(i, _, w, t) => i == id && w == worker && t == token
    case DoFail(i, w, t, _, _) => i == id && w == worker && t == token
    case DoFinish(i, w, t, _) => i == id && w == worker && t == token
    case DoFinishCancelled(i, w, t) => i == id && w == worker && t == token
    case _ => false
  }

  /** A worker whose job was requeued can never write to it with its old token. */
  lemma RequeuedWorkerIsShutOut(s: State, scored: set<JobId>, steps: seq<Step>, id: JobId, worker: string, step: Step)
    requires Reachable(s) && id in s.jobs && Owns(s.jobs[id], worker, s.jobs[id].fence)
    requires Reconcile(s, scored).jobs[id].status.Queued?
    requires WritesWith(step, id, worker, s.jobs[id].fence)
    ensures var s' := After(Reconcile(s, scored), steps); Next(s', step) == s'
  {
    var m := Reconcile(s, scored);
    var all := [DoReconcile(scored)] + steps;
    assert all[1..] == steps && After(s, all) == After(m, steps);
    ReachableInv(s);
    ReconcileSound(s, scored);
    RunSound(m, steps);
    assert JobAfter(m, After(m, steps), id) && JobAt(m, id) && JobAt(After(m, steps), id);
    assert !Owns(After(m, steps).jobs[id], worker, s.jobs[id].fence);
  }

  /** A job is leased at most as often as it has attempts, and a fresh lease outdates every earlier token. */
  lemma LeaseOutdates(s: State, worker: string, seconds: int, locked: set<JobId>, earlier: string, token: int)
    requires Reachable(s)
    ensures var (s', a) := ClaimQueued(s, worker, seconds, locked);
            a.Ok? && (a.value.Some? ==>
              && a.value.value in s.jobs && a.value.value in s'.jobs
              && Owns(s'.jobs[a.value.value], worker, s'.jobs[a.value.value].fence)
              && s'.jobs[a.value.value].attempts <= s'.jobs[a.value.value].maxAttempts
              && (token <= s.jobs[a.value.value].fence ==> !Owns(s'.jobs[a.value.value], earlier, token)))
  {
    ReachableInv(s);
    var next := NextQueued(s, s.order, locked);
    if next.Some? { assert JobAt(s, next.value); }
  }

  // ---------- Leases over runs ----------

  predicate LeasedTo(j: Job, worker: string, token: int, end: Time) {
    Owns(j, worker, token) && j.lease == Some(end)
  }

  /** Steps by which the holder of a token renews its lease or gives it back. */
  predicate Settles(step: Step, id: JobId, worker: string, token: int) {
    (step.DoHeartbeat? || step.DoFail? || step.DoFinish? || step.DoFinishCancelled?) && WritesWith(step, id, worker, token)
  }

  lemma LeaseStep(s: State, step: Step, id: JobId, worker: string, token: int, end: Time)
    requires Inv(s) && id in s.jobs && LeasedTo(s.jobs[id], worker, token, end) && !Settles(step, id, worker, token)
    ensures id in Next(s, step).jobs
    ensures LeasedTo(Next(s, step).jobs[id], worker, token, end) ||
            (end <= Next(s, step).clock && !Owns(Next(s, step).jobs[id], worker, token))
  {
  }

  lemma ClockRuns(s: State, step: Step)
    ensures s.clock <= Next(s, step).clock
  {
  }

  lemma {:induction false} LeaseRun(s: State, steps: seq<Step>, id: JobId, worker: string, token: int, end: Time)
    requires Inv(s) && id in s.jobs && token <= s.jobs[id].fence
    requires LeasedTo(s.jobs[id], worker, token, end) || (end <= s.clock && !Owns(s.jobs[id], worker, token))
    requires forall i :: 0 <= i < |steps| ==> !Settles(steps[i], id, worker, token)
    ensures var s' := After(s, steps);
            && id in s'.jobs && token <= s'.jobs[id].fence
            && (LeasedTo(s'.jobs[id], worker, token, end) || (end <= s'.clock && !Owns(s'.jobs[id], worker, token)))
    decreases |steps|
  {
    if steps != [] {
      var s' := Next(s, steps[0]);
      NextSound(s, steps[0]);
      ClockRuns(s, steps[0]);
      assert JobAt(s, id) && JobAt(s', id) && JobAfter(s, s', id);
      if Owns(s.jobs[id], worker, token) { LeaseStep(s, steps[0], id, worker, token, end); }
      LeaseRun(s', steps[1..], id, worker, token, end);
    }
  }

  /** A lease, claimed or renewed, lasts the seconds asked for and at least ten: over any run in which its holder
      neither renews nor settles it, the job is the holder's after recovery exactly until then. */
  lemma LeaseHolds(s: State, worker: string, seconds: int, locked: set<JobId>, id: JobId, m: State, token: int,
                   steps: seq<Step>, scored: set<JobId>)
    requires Reachable(s)
    requires || ClaimQueued(s, worker, seconds, locked) == (m, Ok(Some(id)))
             || Heartbeat(s, id, worker, token, seconds) == (m, Ok(()))
    requires id in m.jobs && token == m.jobs[id].fence
    requires forall i :: 0 <= i < |steps| ==> !Settles(steps[i], id, worker, token)
    ensures var later := Reconcile(After(m, steps), scored);
            && id in later.jobs
            && (Owns(later.jobs[id], worker, token) <==> later.clock < s.clock + 10 || later.clock < s.clock + seconds)
  {
    ReachableInv(s);
    LeaseBegins(s, worker, seconds, locked, id, m, token);
    LeaseRun(m, steps, id, worker, token, LeaseEnd(s.clock, seconds));
    RecoveredLease(After(m, steps), scored, id, worker, token, LeaseEnd(s.clock, seconds));
  }

  lemma LeaseBegins(s: State, worker: string, seconds: int, locked: set<JobId>, id: JobId, m: State, token: int)
    requires Inv(s) && id in m.jobs && token == m.jobs[id].fence
    requires || ClaimQueued(s, worker, seconds, locked) == (m, Ok(Some(id)))
             || Heartbeat(s, id, worker, token, seconds) == (m, Ok(()))
    ensures Inv(m) && LeasedTo(m.jobs[id], worker, token, LeaseEnd(s.clock, seconds))
  {
    assert JobAt(s, id);
    if ClaimQueued(s, worker, seconds, locked) == (m, Ok(Some(id))) {
      NextSound(s, DoClaim(worker, seconds, locked));
    } else {
      NextSound(s, DoHeartbeat(id, worker, token, seconds));
    }
  }

  lemma RecoveredLease(s: State, scored: set<JobId>, id: JobId, worker: string, token: int, end: Time)
    requires id in s.jobs
    requires LeasedTo(s.jobs[id], worker, token, end) || (end <= s.clock && !Owns(s.jobs[id], worker, token))
    ensures Owns(Reconcile(s, scored).jobs[id], worker, token) <==> s.clock < end
  {
  }
}
