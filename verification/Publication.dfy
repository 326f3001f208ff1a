// Building and publishing a version across the catalog and the two chunk stores.
//
// Worker processes build a version under a lease, the stores are written behind the
// catalog's lease guard, and cleanup empties the stores of versions that were given
// up. Any interleaving of workers, crashes, expiries, retries, uploads, retirements
// and cleanups is a sequence of events. A store call and the guard just before it
// are one event. Deletions read nothing: what lets a worker delete is an earlier claim
// of the cleanup job, a recorded failure, or an earlier read of a closed job.
module PublicationProtocol {
  import opened Prelude
  import opened CatalogState
  import opened CatalogOps
  import opened CatalogInvariant
  import opened CatalogSteps
  import opened CatalogRuns
  import opened CatalogTheorems
  import opened CatalogQuiet
  import opened CatalogWrites

  type Store = map<VersionId, set<string>>

  datatype Stage =
    Started | Loaded | ParentsCleared | ParentsWritten | ParentsVerified | VectorsCleared | VectorsVerified

  /** One execution of the build procedure: it owns its chunk list and how far it has come. */
  datatype Build = Build(entries: seq<Entry>, fence: int, stage: Stage)

  /** A process is identified by the version and the token it works under. */
  datatype Key = Key(v: VersionId, token: Token)

  datatype System = System(
    cat: State, parents: Store, vectors: Store, builds: map<Key, Build>, cleaners: set<VersionId>,
    wiped: set<(VersionId, StoreKind)>)

  datatype Event =
    | Catalog(step: Step)
    | Begin(key: Key)
    | Load(key: Key, entries: seq<Entry>)
    | ClearParents(key: Key)
    | WriteParents(key: Key)
    | VerifyParents(key: Key)
    | ClearVectors(key: Key)
    | WriteVectors(key: Key, batch: set<string>)
    | VerifyVectors(key: Key)
    | Record(key: Key)
    | Crash(key: Key)
    | Inspect(v: VersionId)
    | Wipe(v: VersionId, kind: StoreKind)
    | FinishCleanup(step: Step)

  const FRESH := System(EMPTY, map[], map[], map[], {}, {})

  function Chunks(store: Store, v: VersionId): set<string> {
    if v in store then store[v] else {}
  }

  function Tally(entries: seq<Entry>, kind: StoreKind): nat {
    if entries == [] then 0
    else (if entries[0].key.kind == kind then 1 else 0) + Tally(entries[1..], kind)
  }

  // ---------- Events ----------

  function Drop(y: System, key: Key): System {
    y.(builds := y.builds - {key})
  }

  function Reached(y: System, key: Key, stage: Stage): System
    requires key in y.builds
  {
    y.(builds := y.builds[key := y.builds[key].(stage := stage)])
  }

  predicate At(y: System, key: Key, stage: Stage) {
    key in y.builds && y.builds[key].stage == stage
  }

  /** Catalog steps that do not depend on the stores. */
  predicate StoreFree(step: Step) {
    !step.DoRecordManifest? && !step.DoCompleteCleanup? && !step.DoRecordCleanup?
  }

  predicate CleanupEnd(y: System, step: Step) {
    && (step.DoCompleteCleanup? || step.DoRecordCleanup?)
    && (step.v, Vector) in y.wiped && (step.v, Parent) in y.wiped
  }

  predicate StageEvent(e: Event) {
    || e.Load? || e.ClearParents? || e.WriteParents? || e.VerifyParents?
    || e.ClearVectors? || e.WriteVectors? || e.VerifyVectors?
  }

  /** One step of the build procedure; a step whose guard fails ends the build. */
  function StageStep(y: System, e: Event): System
    requires StageEvent(e)
  {
    match e
    case Load(key, entries) =>
      if !At(y, key, Started) then y
      else y.(builds := y.builds[key := y.builds[key].(entries := entries, stage := Loaded)])
    case ClearParents(key) =>
      if !At(y, key, Loaded) then y
      else if !LeaseGuard(y.cat, key.v, key.token) then Drop(y, key)
      else Reached(y, key, ParentsCleared).(parents := y.parents[key.v := {}])
    case WriteParents(key) =>
      if !At(y, key, ParentsCleared) then y
      else if !LeaseGuard(y.cat, key.v, key.token) then Drop(y, key)
      else Reached(y, key, ParentsWritten).(
             parents := y.parents[key.v := Chunks(y.parents, key.v) + Ids(y.builds[key].entries, Parent)])
    case VerifyParents(key) =>
      if !At(y, key, ParentsWritten) then y
      else if Chunks(y.parents, key.v) != Ids(y.builds[key].entries, Parent) then Drop(y, key)
      else Reached(y, key, ParentsVerified)
    case ClearVectors(key) =>
      if !At(y, key, ParentsVerified) then y
      else if !LeaseGuard(y.cat, key.v, key.token) then Drop(y, key)
      else Reached(y, key, VectorsCleared).(vectors := y.vectors[key.v := {}])
    case WriteVectors(key, batch) =>
      if !At(y, key, VectorsCleared) then y
      else if !LeaseGuard(y.cat, key.v, key.token) then Drop(y, key)
      else y.(vectors := y.vectors[key.v := Chunks(y.vectors, key.v) + batch * Ids(y.builds[key].entries, Vector)])
    case VerifyVectors(key) =>
      if !At(y, key, VectorsCleared) then y
      else if Chunks(y.vectors, key.v) != Ids(y.builds[key].entries, Vector) then Drop(y, key)
      else Reached(y, key, VectorsVerified)
  }

  /** The job is closed and no pointer holds the version. */
  predicate ClosedAndUnreferenced(s: State, v: VersionId)
    requires JobGraph(s, v)
  {
    var job, row, doc := s.rows[v].job.value, s.rows[v], s.docs[s.rows[v].doc];
    && (job.status.Failed? || job.status.Cancelled? || job.status.DeadLetter?)
    && !Active(row.status) && doc.current != Some(v) && doc.pending != Some(v)
  }

  /** The versions whose deletion a catalog step sets off: a cleanup job it claimed, a failure it recorded. */
  function Released(s: State, step: Step): set<VersionId> {
    match step
    case DoClaimCleanup(worker, seconds, locked) =>
      var a := ClaimCleanup(s, worker, seconds, locked).1;
      if a.Ok? && a.value.Some? then {a.value.value} else {}
    case DoFail(v, fence, ex) => if Fail(s, v, fence, ex).1.Ok? then {v} else {}
    case _ => {}
  }

  function Wiped(y: System, v: VersionId, kind: StoreKind): System {
    if kind.Vector? then y.(vectors := y.vectors[v := {}], wiped := y.wiped + {(v, kind)})
    else y.(parents := y.parents[v := {}], wiped := y.wiped + {(v, kind)})
  }

  ghost function React(y: System, e: Event): System {
    match e
    case Catalog(step) =>
      if StoreFree(step) then y.(cat := Next(y.cat, step), cleaners := y.cleaners + Released(y.cat, step)) else y
    case Begin(key) =>
      // A staged job is published as it stands; any other job is built from the start.
      if LeaseGuard(y.cat, key.v, key.token) && !y.cat.rows[key.v].status.Staged? then
        y.(builds := y.builds[key := Build([], y.cat.rows[key.v].job.value.fence, Started)])
      else y
    case Record(key) =>
      if !At(y, key, VectorsVerified) then y
      else Drop(y, key).(cat := Recorded(y, key))
    case Crash(key) => Drop(y, key)
    case Inspect(v) =>
      if JobGraph(y.cat, v) && ClosedAndUnreferenced(y.cat, v) then y.(cleaners := y.cleaners + {v}) else y
    case Wipe(v, kind) =>
      // Nothing is read here: a worker once set to delete may do so at any later time, its lease lost or not.
      if v in y.cleaners then Wiped(y, v, kind) else y
    case FinishCleanup(step) => if CleanupEnd(y, step) then y.(cat := Next(y.cat, step)) else y
    case _ => StageStep(y, e)
  }

  /** The catalog after the process has offered its manifest. */
  function Recorded(y: System, key: Key): State
    requires key in y.builds
  {
    var b := y.builds[key];
    RecordManifest(y.cat, key.v, b.fence, b.entries, Some(Tally(b.entries, Vector)), Some(Tally(b.entries, Parent)),
                   Some(key.token)).0
  }

  ghost predicate Linked(systems: seq<System>, events: seq<Event>, i: int)
    requires |systems| == |events| + 1 && 0 <= i < |events|
  {
    systems[i + 1] == React(systems[i], events[i])
  }

  /** The systems a sequence of events passes through. */
  ghost predicate Trace(systems: seq<System>, events: seq<Event>) {
    && |systems| == |events| + 1
    && forall i {:trigger Linked(systems, events, i)} :: 0 <= i < |events| ==> Linked(systems, events, i)
  }

  /** Some sequence of events leads from the empty system to y. */
  ghost predicate Possible(y: System) {
    exists systems, events :: Trace(systems, events) && systems[0] == FRESH && systems[|events|] == y
  }

  // ---------- Invariant ----------

  /** Both stores hold exactly the chunks of the recorded manifest. */
  ghost predicate StoresMatch(y: System, v: VersionId)
    requires v in y.cat.rows
  {
    var m := y.cat.rows[v].manifest;
    Chunks(y.parents, v) == Keys(m, Parent) && Chunks(y.vectors, v) == Keys(m, Vector)
  }

  predicate ParentsDone(stage: Stage) {
    stage.ParentsVerified? || stage.VectorsCleared? || stage.VectorsVerified?
  }

  /** While its token is live, what a process has verified stays true and nobody has staged the version. */
  ghost predicate BuildOk(y: System, k: Key)
    requires k in y.builds
  {
    && k.v in y.cat.rows && y.cat.rows[k.v].job.Some?
    && var job, b := y.cat.rows[k.v].job.value, y.builds[k];
       && k.token.fence <= job.execFence
       && (Live(job, k.token, y.cat.clock) ==>
             && !y.cat.rows[k.v].status.Staged?
             && (ParentsDone(b.stage) ==> Chunks(y.parents, k.v) == Ids(b.entries, Parent))
             && (b.stage.VectorsVerified? ==> Chunks(y.vectors, k.v) == Ids(b.entries, Vector)))
  }

  ghost predicate WipedOk(y: System, v: VersionId, kind: StoreKind) {
    && v in y.cat.rows && !Active(y.cat.rows[v].status)
    && Chunks(if kind.Vector? then y.vectors else y.parents, v) == {}
  }

  ghost predicate CleanedOk(y: System, v: VersionId)
    requires v in y.cat.rows
  {
    y.cat.rows[v].cleanedAt.Some? ==> (v, Vector) in y.wiped && (v, Parent) in y.wiped
  }

  ghost predicate CleanerOk(y: System, v: VersionId) { v in y.cat.rows && !Active(y.cat.rows[v].status) }

  ghost predicate CleanersOk(y: System) {
    forall v {:trigger CleanerOk(y, v)} :: v in y.cleaners ==> CleanerOk(y, v)
  }

  ghost predicate StoresOk(y: System) {
    forall v {:trigger StoresMatch(y, v)} :: v in y.cat.rows && Verified(y.cat.rows[v]) ==> StoresMatch(y, v)
  }

  ghost predicate BuildsOk(y: System) {
    forall k {:trigger BuildOk(y, k)} :: k in y.builds ==> BuildOk(y, k)
  }

  ghost predicate WipesOk(y: System) {
    forall v, kind {:trigger WipedOk(y, v, kind)} :: (v, kind) in y.wiped ==> WipedOk(y, v, kind)
  }

  ghost predicate CleansOk(y: System) {
    forall v {:trigger CleanedOk(y, v)} :: v in y.cat.rows ==> CleanedOk(y, v)
  }

  ghost predicate SystemInv(y: System) {
    Inv(y.cat) && StoresOk(y) && BuildsOk(y) && CleanersOk(y) && WipesOk(y) && CleansOk(y)
  }

  // ---------- Catalog events ----------

  lemma CatalogChanges(y: System, cat': State)
    requires SystemInv(y) && Sound(y.cat, cat') && RowsQuiet(y.cat, cat')
    requires CleansOk(y.(cat := cat'))
    ensures SystemInv(y.(cat := cat'))
  {
    var y' := y.(cat := cat');
    forall v | v in cat'.rows && Verified(cat'.rows[v]) ensures StoresMatch(y', v) {
      assert QuietAt(y.cat, cat', v);
      assert StoresMatch(y, v);
    }
    forall k | k in y'.builds ensures BuildOk(y', k) {
      assert BuildOk(y, k);
      BuildSurvives(y, cat', k);
    }
    forall v, kind | (v, kind) in y'.wiped ensures WipedOk(y', v, kind) {
      assert WipedOk(y, v, kind);
      assert RowAfter(y.cat, cat', v);
    }
    CleanersSurvive(y, cat');
  }

  lemma CleanersSurvive(y: System, cat': State)
    requires CleanersOk(y) && Evolves(y.cat, cat')
    ensures CleanersOk(y.(cat := cat'))
  {
    forall v | v in y.cleaners ensures CleanerOk(y.(cat := cat'), v) {
      assert CleanerOk(y, v);
      assert RowAfter(y.cat, cat', v);
    }
  }

  lemma BuildSurvives(y: System, cat': State, k: Key)
    requires k in y.builds && BuildOk(y, k) && Evolves(y.cat, cat') && RowsQuiet(y.cat, cat') && Inv(y.cat)
    ensures BuildOk(y.(cat := cat'), k)
  {
    assert RowAfter(y.cat, cat', k.v);
    assert QuietAt(y.cat, cat', k.v);
    var a, b := y.cat.rows[k.v].job.value, cat'.rows[k.v].job.value;
    if Live(b, k.token, cat'.clock) {
      if !Live(a, k.token, y.cat.clock) { JobKeepsRejecting(a, y.cat.clock, b, cat'.clock, k.token); }
      assert RowAt(y.cat, k.v);
    }
  }

  lemma CatalogEvent(y: System, step: Step)
    requires SystemInv(y) && StoreFree(step)
    ensures SystemInv(y.(cat := Next(y.cat, step), cleaners := y.cleaners + Released(y.cat, step)))
  {
    var cat' := Next(y.cat, step);
    NextSound(y.cat, step);
    QuietStoreFree(y.cat, step);
    var y' := y.(cat := cat');
    forall v | v in cat'.rows ensures CleanedOk(y', v) {
      assert UncleanedAt(y.cat, cat', v);
      if v in y.cat.rows { assert CleanedOk(y, v); }
    }
    CatalogChanges(y, cat');
    forall v | v in Released(y.cat, step) ensures CleanerOk(y', v) { ReleasedIsGivenUp(y.cat, step, v); }
    AddCleaners(y', Released(y.cat, step));
  }

  lemma AddCleaners(y: System, more: set<VersionId>)
    requires SystemInv(y) && forall v :: v in more ==> CleanerOk(y, v)
    ensures SystemInv(y.(cleaners := y.cleaners + more))
  {
    var y' := y.(cleaners := y.cleaners + more);
    forall v | v in y'.cat.rows && Verified(y'.cat.rows[v]) ensures StoresMatch(y', v) { assert StoresMatch(y, v); }
    forall k | k in y'.builds ensures BuildOk(y', k) { assert BuildOk(y, k); }
    forall v | v in y'.cleaners ensures CleanerOk(y', v) { assert CleanerOk(y, v); }
    forall v, kind | (v, kind) in y'.wiped ensures WipedOk(y', v, kind) { assert WipedOk(y, v, kind); }
    forall v | v in y'.cat.rows ensures CleanedOk(y', v) { assert CleanedOk(y, v); }
  }

  lemma {:induction false} CleanupLoopClaims(s: State, worker: Worker, seconds: int, locked: set<VersionId>, v: VersionId)
    requires CleanupClaimLoop(s, worker, seconds, locked).1 == Ok(Some(v))
    ensures var s' := CleanupClaimLoop(s, worker, seconds, locked).0;
            v in s'.rows && s'.rows[v].cleanup.Some?
    decreases OpenCleanups(s)
  {
    var w := PickCleanup(s, s.order, locked).value;
    var c := s.rows[w].cleanup.value;
    assert w in OpenCleanups(s);
    if !SafeScope(s, w) || c.attempts >= c.maxAttempts {
      assert w !in OpenCleanups(SetCleanup(s, w, Bury(c)));
      CleanupLoopClaims(SetCleanup(s, w, Bury(c)), worker, seconds, locked, v);
    }
  }

  /** A recorded failure gives the version up. */
  lemma FailGivesUp(s: State, v: VersionId, fence: int, execution: Option<Token>)
    requires Inv(s) && JobGraph(s, v) && Fail(s, v, fence, execution).1.Ok?
    ensures v in Fail(s, v, fence, execution).0.rows && !Active(Fail(s, v, fence, execution).0.rows[v].status)
  {
    assert RowAt(s, v);
  }

  /** Whatever sets off a deletion, the version is given up by then. */
  lemma ReleasedIsGivenUp(s: State, step: Step, v: VersionId)
    requires Inv(s) && v in Released(s, step)
    ensures v in Next(s, step).rows && !Active(Next(s, step).rows[v].status)
  {
    var s' := Next(s, step);
    NextSound(s, step);
    if step.DoClaimCleanup? {
      if FirstOwnedCleanup(s, s.order, step.worker, step.locked).None? {
        CleanupLoopClaims(s, step.worker, step.seconds, step.locked, v);
      }
      assert RowAt(s', v);
    } else {
      FailGivesUp(s, v, step.fence, step.execution);
    }
  }

  lemma QuietStoreFree(s: State, step: Step)
    requires Inv(s) && StoreFree(step)
    ensures RowsQuiet(s, Next(s, step)) && NoneCleaned(s, Next(s, step))
  {
    if step.DoPublish? {
      PublishQuiet(s, step.v, step.fence, step.expected, step.execution, Next(s, step));
    } else if step.DoRetire? {
      RetireQuiet(s, step.tenant, step.name, step.kb, Next(s, step));
    } else {
      StepQuiet(s, step, Next(s, step));
    }
  }

  lemma FinishEvent(y: System, step: Step)
    requires SystemInv(y) && CleanupEnd(y, step)
    ensures SystemInv(y.(cat := Next(y.cat, step)))
  {
    var cat' := Next(y.cat, step);
    NextSound(y.cat, step);
    CleanupEndQuiet(y.cat, step);
    var y' := y.(cat := cat');
    forall v | v in cat'.rows ensures CleanedOk(y', v) {
      if v in y.cat.rows { assert CleanedOk(y, v); }
      if v != step.v { FinishTouchesOne(y.cat, step, cat', v); }
    }
    CatalogChanges(y, cat');
  }

  lemma CompleteTouchesOne(s: State, w: VersionId, token: Token, s': State, v: VersionId)
    requires s' == CompleteCleanup(s, w, token).0 && v in s'.rows && v != w
    ensures v in s.rows && s'.rows[v] == s.rows[v]
  {
  }

  lemma RecordTouchesOne(s: State, w: VersionId, failed: bool, s': State, v: VersionId)
    requires s' == RecordCleanup(s, w, failed).0 && v in s'.rows && v != w
    ensures v in s.rows && s'.rows[v] == s.rows[v]
  {
  }

  lemma FinishTouchesOne(s: State, step: Step, s': State, v: VersionId)
    requires (step.DoCompleteCleanup? || step.DoRecordCleanup?) && s' == Next(s, step)
    requires v in s'.rows && v != step.v
    ensures v in s.rows && s'.rows[v] == s.rows[v]
  {
    match step
    case DoCompleteCleanup(w, token) => CompleteTouchesOne(s, w, token, s', v);
    case DoRecordCleanup(w, failed) => RecordTouchesOne(s, w, failed, s', v);
  }

  // ---------- Process events ----------

  /** Two processes of one version cannot both hold a live token. */
  lemma OneLiveToken(job: IndexJob, a: Token, b: Token, now: Time)
    requires Live(job, a, now) && Live(job, b, now)
    ensures a == b
  {
  }

  /** Whoever passes the guard works on a version that is neither published nor given up. */
  lemma GuardedIsUnverified(y: System, key: Key)
    requires SystemInv(y) && key in y.builds && LeaseGuard(y.cat, key.v, key.token)
    ensures var row := y.cat.rows[key.v];
            Active(row.status) && !Verified(row) && Live(row.job.value, key.token, y.cat.clock)
  {
    assert BuildOk(y, key);
    assert RowAt(y.cat, key.v);
  }

  /** A process that changes its own stage and, behind the guard, the chunks of its own version. */
  ghost predicate OwnWrite(y: System, y': System, key: Key) {
    && key in y.builds && key in y'.builds
    && y'.cat == y.cat && y'.wiped == y.wiped && y'.cleaners == y.cleaners
    && y'.builds == y.builds[key := y'.builds[key]]
    && (forall v :: v != key.v ==> Chunks(y'.parents, v) == Chunks(y.parents, v)
                                   && Chunks(y'.vectors, v) == Chunks(y.vectors, v))
    && (LeaseGuard(y.cat, key.v, key.token)
        || (Chunks(y'.parents, key.v) == Chunks(y.parents, key.v) && Chunks(y'.vectors, key.v) == Chunks(y.vectors, key.v)))
  }

  lemma SameCleaners(y: System, y': System)
    requires CleanersOk(y) && y'.cleaners == y.cleaners && y'.cat == y.cat
    ensures CleanersOk(y')
  {
    forall v | v in y'.cleaners ensures CleanerOk(y', v) { assert CleanerOk(y, v); }
  }

  lemma OwnWriteKeeps(y: System, y': System, key: Key)
    requires SystemInv(y) && OwnWrite(y, y', key) && BuildOk(y', key)
    ensures SystemInv(y')
  {
    if LeaseGuard(y.cat, key.v, key.token) { GuardedIsUnverified(y, key); }
    forall v | v in y'.cat.rows && Verified(y'.cat.rows[v]) ensures StoresMatch(y', v) { assert StoresMatch(y, v); }
    forall k | k in y'.builds ensures BuildOk(y', k) {
      if k != key {
        assert BuildOk(y, k);
        OtherBuildKeeps(y, y', key, k);
      }
    }
    forall v, kind | (v, kind) in y'.wiped ensures WipedOk(y', v, kind) { assert WipedOk(y, v, kind); }
    forall v | v in y'.cat.rows ensures CleanedOk(y', v) { assert CleanedOk(y, v); }
    SameCleaners(y, y');
  }

  lemma OtherBuildKeeps(y: System, y': System, key: Key, k: Key)
    requires OwnWrite(y, y', key) && k in y.builds && k != key && BuildOk(y, k)
    requires LeaseGuard(y.cat, key.v, key.token) ==> Live(y.cat.rows[key.v].job.value, key.token, y.cat.clock)
    ensures BuildOk(y', k)
  {
    var job := y.cat.rows[k.v].job.value;
    if k.v == key.v && LeaseGuard(y.cat, key.v, key.token) && Live(job, k.token, y.cat.clock) {
      OneLiveToken(job, k.token, key.token, y.cat.clock);
    }
  }

  lemma DropKeeps(y: System, key: Key)
    requires SystemInv(y)
    ensures SystemInv(Drop(y, key))
  {
    var y' := Drop(y, key);
    forall v | v in y'.cat.rows && Verified(y'.cat.rows[v]) ensures StoresMatch(y', v) { assert StoresMatch(y, v); }
    forall k | k in y'.builds ensures BuildOk(y', k) { assert BuildOk(y, k); }
    forall v, kind | (v, kind) in y'.wiped ensures WipedOk(y', v, kind) { assert WipedOk(y, v, kind); }
    forall v | v in y'.cat.rows ensures CleanedOk(y', v) { assert CleanedOk(y, v); }
    SameCleaners(y, y');
  }

  lemma BeginKeeps(y: System, key: Key, b: Build)
    requires SystemInv(y) && b.stage.Started?
    requires LeaseGuard(y.cat, key.v, key.token) && !y.cat.rows[key.v].status.Staged?
    ensures SystemInv(y.(builds := y.builds[key := b]))
  {
    var y' := y.(builds := y.builds[key := b]);
    forall v | v in y'.cat.rows && Verified(y'.cat.rows[v]) ensures StoresMatch(y', v) { assert StoresMatch(y, v); }
    forall k | k in y'.builds ensures BuildOk(y', k) { if k != key { assert BuildOk(y, k); } }
    forall v, kind | (v, kind) in y'.wiped ensures WipedOk(y', v, kind) { assert WipedOk(y, v, kind); }
    forall v | v in y'.cat.rows ensures CleanedOk(y', v) { assert CleanedOk(y, v); }
    SameCleaners(y, y');
  }

  // ---------- Recording the manifest ----------

  /** A recorded manifest names exactly the chunks the process has verified in both stores. */
  lemma RecordedRow(y: System, key: Key)
    requires SystemInv(y) && At(y, key, VectorsVerified) && Recorded(y, key) != y.cat
    ensures var cat' := Recorded(y, key);
            && RewritesRow(y.cat, cat', key.v) && cat'.rows[key.v].manifest == ManifestOf(y.builds[key].entries)
            && Live(y.cat.rows[key.v].job.value, key.token, y.cat.clock)
            && Chunks(y.parents, key.v) == Keys(cat'.rows[key.v].manifest, Parent)
            && Chunks(y.vectors, key.v) == Keys(cat'.rows[key.v].manifest, Vector)
  {
    assert BuildOk(y, key);
    ManifestIds(y.builds[key].entries, Parent);
    ManifestIds(y.builds[key].entries, Vector);
  }

  lemma RecordedSound(y: System, key: Key)
    requires Inv(y.cat) && key in y.builds
    ensures Sound(y.cat, Recorded(y, key)) && NoneCleaned(y.cat, Recorded(y, key))
  {
    var b := y.builds[key];
    RecordManifestSound(y.cat, key.v, b.fence, b.entries, Some(Tally(b.entries, Vector)), Some(Tally(b.entries, Parent)),
                        Some(key.token), Recorded(y, key));
    RecordManifestQuiet(y.cat, key.v, b.fence, b.entries, Some(Tally(b.entries, Vector)), Some(Tally(b.entries, Parent)),
                        Some(key.token), Recorded(y, key));
  }

  lemma RecordKeeps(y: System, key: Key)
    requires SystemInv(y) && At(y, key, VectorsVerified)
    ensures SystemInv(Drop(y, key).(cat := Recorded(y, key)))
  {
    var cat' := Recorded(y, key);
    var y' := Drop(y, key).(cat := cat');
    RecordedSound(y, key);
    if cat' == y.cat {
      DropKeeps(y, key);
    } else {
      RecordedRow(y, key);
      forall v | v in cat'.rows && Verified(cat'.rows[v]) ensures StoresMatch(y', v) {
        if v != key.v { assert StoresMatch(y, v); }
      }
      forall k | k in y'.builds ensures BuildOk(y', k) {
        assert BuildOk(y, k);
        RecordSparesOthers(y, cat', key, k);
      }
      forall v, kind | (v, kind) in y'.wiped ensures WipedOk(y', v, kind) {
        assert WipedOk(y, v, kind);
        assert RowAfter(y.cat, cat', v);
      }
      forall v | v in cat'.rows ensures CleanedOk(y', v) {
        assert UncleanedAt(y.cat, cat', v);
        assert CleanedOk(y, v);
      }
      CleanersSurvive(y, cat');
      SameCleaners(y.(cat := cat'), y');
    }
  }

  lemma RecordSparesOthers(y: System, cat': State, key: Key, k: Key)
    requires k in y.builds && k != key && BuildOk(y, k) && key.v in y.cat.rows && y.cat.rows[key.v].job.Some?
    requires RewritesRow(y.cat, cat', key.v) && Evolves(y.cat, cat')
    requires Live(y.cat.rows[key.v].job.value, key.token, y.cat.clock)
    ensures BuildOk(Drop(y, key).(cat := cat'), k)
  {
    assert RowAfter(y.cat, cat', k.v);
    var a, b := y.cat.rows[k.v].job.value, cat'.rows[k.v].job.value;
    if Live(b, k.token, cat'.clock) {
      if !Live(a, k.token, y.cat.clock) { JobKeepsRejecting(a, y.cat.clock, b, cat'.clock, k.token); }
      if k.v == key.v { OneLiveToken(a, k.token, key.token, y.cat.clock); }
    }
  }

  // ---------- Wiping ----------

  lemma WipeKeeps(y: System, v: VersionId, kind: StoreKind)
    requires SystemInv(y) && v in y.cleaners
    ensures SystemInv(Wiped(y, v, kind))
  {
    var y' := Wiped(y, v, kind);
    assert CleanerOk(y, v);
    assert RowAt(y.cat, v);
    SameCleaners(y, y');
    forall u | u in y'.cat.rows && Verified(y'.cat.rows[u]) ensures StoresMatch(y', u) { assert StoresMatch(y, u); }
    forall k | k in y'.builds ensures BuildOk(y', k) { assert BuildOk(y, k); }
    forall u, kd | (u, kd) in y'.wiped ensures WipedOk(y', u, kd) {
      if (u, kd) in y.wiped { assert WipedOk(y, u, kd); }
    }
    forall u | u in y'.cat.rows ensures CleanedOk(y', u) { assert CleanedOk(y, u); }
  }

  // ---------- Runs ----------

  predicate VectorEvent(e: Event) { e.ClearVectors? || e.WriteVectors? || e.VerifyVectors? }

  lemma ParentStageWrites(y: System, e: Event, y': System)
    requires StageEvent(e) && !VectorEvent(e) && y' == StageStep(y, e) && y' != y && e.key in y'.builds
    ensures OwnWrite(y, y', e.key)
  {
  }

  lemma VectorStageWrites(y: System, e: Event, y': System)
    requires VectorEvent(e) && y' == StageStep(y, e) && y' != y && e.key in y'.builds
    ensures OwnWrite(y, y', e.key)
  {
  }

  lemma ParentStageBuilds(y: System, e: Event, y': System)
    requires StageEvent(e) && !VectorEvent(e) && y' == StageStep(y, e) && y' != y && e.key in y'.builds
    requires e.key in y.builds && BuildOk(y, e.key)
    ensures BuildOk(y', e.key)
  {
  }

  lemma VectorStageBuilds(y: System, e: Event, y': System)
    requires VectorEvent(e) && y' == StageStep(y, e) && y' != y && e.key in y'.builds
    requires e.key in y.builds && BuildOk(y, e.key)
    ensures BuildOk(y', e.key)
  {
  }

  lemma StageKeeps(y: System, e: Event)
    requires SystemInv(y) && StageEvent(e)
    ensures SystemInv(StageStep(y, e))
  {
    var y' := StageStep(y, e);
    if y' != y {
      if e.key !in y'.builds {
        DropKeeps(y, e.key);
      } else {
        assert BuildOk(y, e.key);
        if VectorEvent(e) {
          VectorStageWrites(y, e, y');
          VectorStageBuilds(y, e, y');
        } else {
          ParentStageWrites(y, e, y');
          ParentStageBuilds(y, e, y');
        }
        OwnWriteKeeps(y, y', e.key);
      }
    }
  }

  /** Every event keeps the joint invariant of catalog, stores, builds and cleaners. */
  lemma ReactKeeps(y: System, e: Event)
    requires SystemInv(y)
    ensures SystemInv(React(y, e))
  {
    if e.Catalog? || e.FinishCleanup? {
      CatalogEventKeeps(y, e, React(y, e));
    } else if StageEvent(e) {
      StageKeeps(y, e);
    } else {
      ProcessEventKeeps(y, e, React(y, e));
    }
  }

  lemma CatalogEventKeeps(y: System, e: Event, y': System)
    requires SystemInv(y) && (e.Catalog? || e.FinishCleanup?) && y' == React(y, e)
    ensures SystemInv(y')
  {
    match e
    case Catalog(step) => if StoreFree(step) { CatalogEvent(y, step); }
    case FinishCleanup(step) => if CleanupEnd(y, step) { FinishEvent(y, step); }
  }

  lemma ProcessEventKeeps(y: System, e: Event, y': System)
    requires SystemInv(y) && !e.Catalog? && !e.FinishCleanup? && !StageEvent(e) && y' == React(y, e)
    ensures SystemInv(y')
  {
    match e
    case Begin(key) =>
      if y' != y { BeginKeeps(y, key, Build([], y.cat.rows[key.v].job.value.fence, Started)); }
    case Record(key) => if At(y, key, VectorsVerified) { RecordKeeps(y, key); }
    case Crash(key) => DropKeeps(y, key);
    case Inspect(v) => if JobGraph(y.cat, v) && ClosedAndUnreferenced(y.cat, v) { AddCleaners(y, {v}); }
    case Wipe(v, kind) => if v in y.cleaners { WipeKeeps(y, v, kind); }
  }

  lemma {:induction false} TraceKeeps(systems: seq<System>, events: seq<Event>, n: nat)
    requires Trace(systems, events) && n <= |events| && SystemInv(systems[0])
    ensures SystemInv(systems[n])
  {
    if n > 0 {
      TraceKeeps(systems, events, n - 1);
      assert Linked(systems, events, n - 1);
      ReactKeeps(systems[n - 1], events[n - 1]);
    }
  }

  lemma PossibleInv(y: System)
    requires Possible(y)
    ensures SystemInv(y)
  {
    var systems, events :| Trace(systems, events) && systems[0] == FRESH && systems[|events|] == y;
    TraceKeeps(systems, events, |events|);
  }
}
