// Exactly when a write to an index job succeeds, and what it leaves.
//
// The conditions are stated on the columns of the rows: owner, execution fence and lease
// of the job, its statuses and fences. The invariant, which holds in every reachable
// state, makes every other check redundant.
module CatalogWrites {
  import opened Prelude
  import opened CatalogState
  import opened CatalogOps
  import opened CatalogInvariant
  import opened CatalogSteps

  // ---------- One version ----------

  /** A version with its job, its document and its knowledge base, all consistent. */
  ghost predicate Local(s: State, v: VersionId) {
    JobGraph(s, v) && RowAt(s, v) && DocOk(s, s.rows[v].doc)
  }

  lemma LocalOk(s: State, v: VersionId)
    requires Inv(s) && v in s.rows
    ensures Local(s, v)
  {
    assert RowAt(s, v);
    assert DocOk(s, s.rows[v].doc);
  }

  /** Who may write to a job: with a token its owner under its fence while the lease runs, without one anybody while
      nobody owns it. */
  ghost predicate Entitled(j: IndexJob, execution: Option<Token>, now: Time) {
    match execution
    case None => j.owner.None?
    case Some(t) => j.owner == Some(t.worker) && j.execFence == t.fence && j.lease.Some? && now < j.lease.value
  }

  ghost predicate Open(j: IndexJob) { j.status.Pending? || j.status.Running? || j.status.RetryWait? || j.status.Staged? }

  /** The version given up at `now`: its cleanup job is new, untried and due at `at`. */
  ghost function GivenUp(row: Row, status: VersionStatus, now: Time, at: Time, attempts: nat): Row {
    row.(status := status, cleanupAfter := Some(at),
         cleanup := Some(CleanupJob(CleanupStatus.Pending, 0, attempts, 0, None, None, Some(at), now)))
  }

  /** The job closed: it belongs to nobody any more. */
  ghost function Ended(j: IndexJob, status: JobStatus, step: string): IndexJob {
    j.(status := status, step := step, owner := None, lease := None)
  }

  /** The document without its candidate. */
  ghost function Dropped(d: Document): Document {
    d.(pending := None, status := if d.current.Some? then DocReady else DocFailed)
  }

  // ---------- Recording a manifest ----------

  /** The ids of the entries for one store. */
  function Ids(entries: seq<Entry>, kind: StoreKind): set<string> {
    set i | 0 <= i < |entries| && entries[i].key.kind == kind :: entries[i].key.id
  }

  lemma {:induction false} ManifestIds(entries: seq<Entry>, kind: StoreKind)
    ensures Keys(ManifestOf(entries), kind) == Ids(entries, kind)
  {
    if entries != [] {
      var n := |entries| - 1;
      ManifestIds(entries[..n], kind);
      assert ManifestOf(entries) == ManifestOf(entries[..n])[entries[n].key := entries[n].meta];
      forall id ensures id in Keys(ManifestOf(entries), kind) <==> id in Ids(entries, kind) {
        assert id in Keys(ManifestOf(entries), kind) <==> ChunkKey(kind, id) in ManifestOf(entries);
        assert id in Keys(ManifestOf(entries[..n]), kind) <==> ChunkKey(kind, id) in ManifestOf(entries[..n]);
        assert id in Ids(entries, kind) <==> id in Ids(entries[..n], kind) || entries[n].key == ChunkKey(kind, id) by {
          if id in Ids(entries, kind) {
            var i :| 0 <= i < |entries| && entries[i].key.kind == kind && entries[i].key.id == id;
            if i < n { assert entries[..n][i] == entries[i]; }
          }
        }
      }
    }
  }

  /** No two entries share store and id. */
  ghost predicate Apart(entries: seq<Entry>) {
    forall i, j :: 0 <= i < j < |entries| ==>
      entries[i].key.kind != entries[j].key.kind || entries[i].key.id != entries[j].key.id
  }

  /** Entries that make a manifest: apart, no level below zero, a vector among them, as many as announced. */
  ghost predicate Recordable(entries: seq<Entry>, vectors: Option<int>, parents: Option<int>) {
    && Apart(entries) && (forall i :: 0 <= i < |entries| ==> entries[i].meta.level >= 0)
    && Ids(entries, Vector) != {}
    && (vectors.None? || vectors.value == |Ids(entries, Vector)|)
    && (parents.None? || parents.value == |Ids(entries, Parent)|)
  }

  /** The manifest holds every entry and nothing else. */
  ghost predicate Records(m: Manifest, entries: seq<Entry>) {
    && (forall i :: 0 <= i < |entries| ==> entries[i].key in m && m[entries[i].key] == entries[i].meta)
    && forall k :: k in m ==> exists i :: 0 <= i < |entries| && entries[i].key == k
  }

  lemma {:induction false} ManifestHas(entries: seq<Entry>, i: nat)
    requires Apart(entries) && i < |entries|
    ensures entries[i].key in ManifestOf(entries) && ManifestOf(entries)[entries[i].key] == entries[i].meta
  {
    var n := |entries| - 1;
    if i < n {
      assert entries[i].key != entries[n].key;
      ManifestHas(entries[..n], i);
    }
  }

  lemma {:induction false} ManifestOnly(entries: seq<Entry>, k: ChunkKey) returns (i: nat)
    requires k in ManifestOf(entries)
    ensures i < |entries| && entries[i].key == k
  {
    var n := |entries| - 1;
    if k == entries[n].key { i := n; } else { i := ManifestOnly(entries[..n], k); }
  }

  lemma ManifestRecords(entries: seq<Entry>)
    requires Apart(entries)
    ensures Records(ManifestOf(entries), entries)
  {
    forall i | 0 <= i < |entries|
      ensures entries[i].key in ManifestOf(entries) && ManifestOf(entries)[entries[i].key] == entries[i].meta
    {
      ManifestHas(entries, i);
    }
    forall k | k in ManifestOf(entries) ensures exists i :: 0 <= i < |entries| && entries[i].key == k {
      var i := ManifestOnly(entries, k);
    }
  }

  lemma RecordableMeans(entries: seq<Entry>, vectors: Option<int>, parents: Option<int>)
    ensures WellFormed(entries) && CountsAgree(ManifestOf(entries), vectors, parents) <==>
            Recordable(entries, vectors, parents)
    ensures forall kind :: Count(ManifestOf(entries), kind) == |Ids(entries, kind)|
  {
    forall kind ensures Count(ManifestOf(entries), kind) == |Ids(entries, kind)| { ManifestIds(entries, kind); }
    assert WellFormed(entries) <==> Apart(entries) && forall i :: 0 <= i < |entries| ==> entries[i].meta.level >= 0;
  }

  /** The row after its manifest has been recorded. */
  ghost predicate Staging(row: Row, row': Row, entries: seq<Entry>) {
    && row.job.Some?
    && row' == row.(manifest := row'.manifest, status := VersionStatus.Staged, chunkCount := |Ids(entries, Vector)|,
                    parentCount := |Ids(entries, Parent)|,
                    job := Some(row.job.value.(status := JobStatus.Staged, step := "verified")))
    && Records(row'.manifest, entries)
  }

  /** A manifest is recorded exactly when its entries fit together and the writer may write to an open job of that
      publication fence; then that row is staged with it, and nothing else changes. */
  lemma RecordExact(s: State, v: VersionId, fence: int, entries: seq<Entry>, vectors: Option<int>, parents: Option<int>,
                    execution: Option<Token>)
    requires Inv(s)
    ensures v in s.rows ==> s.rows[v].job.Some?
    ensures var (s', a) := RecordManifest(s, v, fence, entries, vectors, parents, execution);
            && (a.Ok? <==> && Recordable(entries, vectors, parents) && v in s.rows
                           && var j := s.rows[v].job.value; Entitled(j, execution, s.clock) && Open(j) && fence == j.fence)
            && (if a.Ok? then v in s'.rows && s' == s.(rows := s.rows[v := s'.rows[v]]) && Staging(s.rows[v], s'.rows[v], entries)
                else s' == s)
  {
    RecordableMeans(entries, vectors, parents);
    if v in s.rows { LocalOk(s, v); }
    if Recordable(entries, vectors, parents) { ManifestRecords(entries); }
    RecordDecides(s, v, fence, entries, vectors, parents, execution);
  }

  lemma RecordDecides(s: State, v: VersionId, fence: int, entries: seq<Entry>, vectors: Option<int>, parents: Option<int>,
                      execution: Option<Token>)
    requires v in s.rows ==> Local(s, v)
    requires WellFormed(entries) && CountsAgree(ManifestOf(entries), vectors, parents) <==>
             Recordable(entries, vectors, parents)
    requires forall kind :: Count(ManifestOf(entries), kind) == |Ids(entries, kind)|
    requires Recordable(entries, vectors, parents) ==> Records(ManifestOf(entries), entries)
    ensures var (s', a) := RecordManifest(s, v, fence, entries, vectors, parents, execution);
            && (a.Ok? <==> && Recordable(entries, vectors, parents) && v in s.rows
                           && var j := s.rows[v].job.value; Entitled(j, execution, s.clock) && Open(j) && fence == j.fence)
            && (if a.Ok? then v in s'.rows && s' == s.(rows := s.rows[v := s'.rows[v]]) && Staging(s.rows[v], s'.rows[v], entries)
                else s' == s)
  {
  }

  // ---------- Publishing ----------

  /** The row of a version that becomes current. */
  ghost function Shown(row: Row, now: Time): Row
    requires row.job.Some?
  {
    row.(status := Ready, publishedAt := Some(now), cleanupAfter := None, cleanedAt := None,
         job := Some(Ended(row.job.value, JobStatus.Completed, "published").(nextRetry := None)))
  }

  /** The catalog after version v has replaced the expected one: only those two rows and the document change, and the
      replaced version is kept for an hour. */
  ghost predicate Replaces(s: State, s': State, v: VersionId, expected: Option<VersionId>)
    requires v in s.rows && s.rows[v].job.Some? && s.rows[v].doc in s.docs
  {
    var row := s.rows[v];
    && s' == s.(rows := s'.rows,
                docs := s.docs[row.doc := s.docs[row.doc].(current := Some(v), pending := None, status := DocReady)])
    && s'.rows.Keys == s.rows.Keys && s'.rows[v] == Shown(row, s.clock)
    && (expected.Some? ==>
          && expected.value in s.rows && expected.value != v
          && s'.rows[expected.value] ==
             GivenUp(s.rows[expected.value], VersionStatus.Superseded, s.clock, s.clock + 3600, 3))
    && forall u :: u in s.rows && u != v && expected != Some(u) ==> s'.rows[u] == s.rows[u]
  }

  /** A publish takes effect exactly when the writer may write to the job, the version is staged, and fence and expected
      version are those of the job; publishing the current version again is accepted; anything else is refused. */
  lemma PublishExact(s: State, v: VersionId, fence: int, expected: Option<VersionId>, execution: Option<Token>)
    requires Inv(s)
    ensures v in s.rows ==> s.rows[v].job.Some? && s.rows[v].doc in s.docs
    ensures v !in s.rows ==> Publish(s, v, fence, expected, execution) == (s, Err(NotFound))
    ensures v in s.rows ==>
              var (s', a) := Publish(s, v, fence, expected, execution);
              var row := s.rows[v];
              var j := row.job.value;
              && (a == Ok(Publication(expected, true)) <==>
                    && Entitled(j, execution, s.clock) && row.status.Staged?
                    && fence == j.fence && expected == j.expected)
              && (a == Ok(Publication(None, false)) <==> s.docs[row.doc].current == Some(v))
              && (a.Ok? ==> a.value == Publication(expected, true) || a.value == Publication(None, false))
              && (a.Err? ==> a.error.Conflict?)
              && (if a == Ok(Publication(expected, true)) then
                    Replaces(s, s', v, expected) && s.docs[row.doc].pending == Some(v) && s.docs[row.doc].current == expected
                  else s' == s)
  {
    if v in s.rows {
      LocalOk(s, v);
      var d := s.docs[s.rows[v].doc];
      if d.current.Some? { LocalOk(s, d.current.value); }
      PublishAnswer(s, v, fence, expected, execution);
      if s.rows[v].status.Staged? { SwitchReplaces(s, v); }
    }
  }

  lemma PublishAnswer(s: State, v: VersionId, fence: int, expected: Option<VersionId>, execution: Option<Token>)
    requires Local(s, v)
    ensures var (s', a) := Publish(s, v, fence, expected, execution);
            var row := s.rows[v];
            var d, j := s.docs[row.doc], row.job.value;
            if Entitled(j, execution, s.clock) && row.status.Staged? && fence == j.fence && expected == j.expected then
              && (s', a) == (Switched(s, v), Ok(Publication(expected, true)))
              && d.pending == Some(v) && d.current == expected && expected != Some(v)
            else s' == s && if d.current == Some(v) then a == Ok(Publication(None, false)) else a.Err? && a.error.Conflict?
  {
  }

  lemma SwitchReplaces(s: State, v: VersionId)
    requires Local(s, v) && s.rows[v].status.Staged?
    requires var c := s.docs[s.rows[v].doc].current; c.Some? ==> c.value != v && Local(s, c.value)
    ensures Replaces(s, Switched(s, v), v, s.docs[s.rows[v].doc].current)
  {
  }

  // ---------- Failing ----------

  /** The catalog after an open job has been closed and its version, the candidate, has failed. */
  ghost function Failing(s: State, v: VersionId, job: IndexJob): State
    requires v in s.rows && s.rows[v].doc in s.docs
  {
    var row := s.rows[v];
    s.(rows := s.rows[v := GivenUp(row, VersionStatus.Failed, s.clock, s.clock, job.maxAttempts).(job := Some(job))],
       docs := s.docs[row.doc := Dropped(s.docs[row.doc])])
  }

  lemma AbandonFails(s: State, v: VersionId, job: IndexJob)
    requires Local(s, v) && Open(s.rows[v].job.value)
    requires job.fence == s.rows[v].job.value.fence && job.maxAttempts == s.rows[v].job.value.maxAttempts
    ensures Abandon(s, v, job) == Failing(s, v, job)
  {
  }

  /** A failure is accepted exactly when the writer may write to the job, the fence is the job's, and the job is open or
      has failed already; an open job then fails with its version, a failed one is left as it is. */
  lemma FailExact(s: State, v: VersionId, fence: int, execution: Option<Token>)
    requires Inv(s)
    ensures v in s.rows ==> s.rows[v].job.Some? && s.rows[v].doc in s.docs
    ensures v !in s.rows ==> Fail(s, v, fence, execution) == (s, Err(NotFound))
    ensures v in s.rows ==>
              var (s', a) := Fail(s, v, fence, execution);
              var j := s.rows[v].job.value;
              && (a.Ok? <==> Entitled(j, execution, s.clock) && fence == j.fence && (Open(j) || j.status.Failed?))
              && (a.Err? ==> a.error.Conflict?)
              && s' == if a.Ok? && Open(j) then Failing(s, v, Ended(j, JobStatus.Failed, "failed")) else s
  {
    if v in s.rows {
      LocalOk(s, v);
      FailDecides(s, v, fence, execution);
    }
  }

  lemma FailDecides(s: State, v: VersionId, fence: int, execution: Option<Token>)
    requires Local(s, v)
    ensures var (s', a) := FailLocked(s, v, fence, execution);
            var j := s.rows[v].job.value;
            && (a.Ok? <==> Entitled(j, execution, s.clock) && fence == j.fence && (Open(j) || j.status.Failed?))
            && (a.Err? ==> a.error.Conflict?)
            && s' == if a.Ok? && Open(j) then Failing(s, v, Ended(j, JobStatus.Failed, "failed")) else s
  {
    var j := s.rows[v].job.value;
    if Open(j) { AbandonFails(s, v, Ended(j, JobStatus.Failed, "failed")); }
  }

  // ---------- Updating ----------

  /** The moves of a job that an update may make. A staged job is left only by failing or cancelling it, a finished one
      not at all, and nothing is staged or completed by an update. */
  ghost predicate Moves(from: JobStatus, to: JobStatus) {
    match from
    case Pending => to.Pending? || to.Running? || to.RetryWait? || to.Failed? || to.Cancelled?
    case Running => to.Running? || to.RetryWait? || to.Failed? || to.Cancelled? || to.DeadLetter?
    case RetryWait => to.Pending? || to.Running? || to.RetryWait? || to.Failed? || to.Cancelled? || to.DeadLetter?
    case Staged => to.Staged? || to.Failed? || to.Cancelled?
    case _ => false
  }

  /** What an accepted move of an open job leaves. */
  ghost function Moving(s: State, v: VersionId, to: JobStatus, step: string): State
    requires v in s.rows && s.rows[v].job.Some? && s.rows[v].doc in s.docs
  {
    var row, j := s.rows[v], s.rows[v].job.value;
    var d := s.docs[row.doc];
    match to
    case Failed => Failing(s, v, Ended(j, JobStatus.Failed, "failed"))
    case DeadLetter => Failing(s, v, Ended(j, JobStatus.DeadLetter, step))
    case Cancelled =>
      s.(rows := s.rows[v := GivenUp(row, VersionStatus.Superseded, s.clock, s.clock, 3).(job := Some(Ended(j, Cancelled, step)))],
         docs := s.docs[row.doc := Dropped(d)])
    case Running =>
      s.(rows := s.rows[v := row.(status := if step == "parse" || step == "parsing" then Parsing else VersionStatus.Indexing,
                                  job := Some(j.(status := to, step := step)))])
    case _ => s.(rows := s.rows[v := row.(job := Some(j.(status := to, step := step)))])
  }

  /** An update of a job by who may write to it moves an open job along the permitted moves, renames the step of the job
      of a current version, or repeats a recorded failure; anything else is refused. */
  lemma UpdateExact(s: State, v: VersionId, fence: int, status: Option<JobStatus>, step: Option<string>,
                    execution: Option<Token>)
    requires Inv(s)
    ensures v in s.rows ==> s.rows[v].job.Some? && s.rows[v].doc in s.docs
    ensures v !in s.rows ==> UpdateJob(s, v, fence, status, step, execution) == (s, Err(NotFound))
    ensures v in s.rows ==>
              var (s', a) := UpdateJob(s, v, fence, status, step, execution);
              var row, j := s.rows[v], s.rows[v].job.value;
              var to := if status.Some? then status.value else j.status;
              var name := if step.Some? then step.value else j.step;
              var kept := to == j.status && (row.status.Ready? || j.status.Failed?);
              && (a.Ok? <==> Entitled(j, execution, s.clock) && fence == j.fence && (Moves(j.status, to) || kept))
              && (a.Err? ==> a.error.Conflict?)
              && s' == if a.Err? || j.status.Failed? then s
                       else if row.status.Ready? then s.(rows := s.rows[v := row.(job := Some(j.(step := name)))])
                       else Moving(s, v, to, name)
  {
    if v in s.rows {
      LocalOk(s, v);
      UpdateAnswers(s, v, fence, status, step, execution);
      UpdateLeaves(s, v, fence, status, step, execution);
    }
  }

  lemma UpdateAnswers(s: State, v: VersionId, fence: int, status: Option<JobStatus>, step: Option<string>,
                      execution: Option<Token>)
    requires Local(s, v)
    ensures var a := UpdateJob(s, v, fence, status, step, execution).1;
            var row, j := s.rows[v], s.rows[v].job.value;
            var to := if status.Some? then status.value else j.status;
            var kept := to == j.status && (row.status.Ready? || j.status.Failed?);
            && (a.Ok? <==> Entitled(j, execution, s.clock) && fence == j.fence && (Moves(j.status, to) || kept))
            && (a.Err? ==> a.error.Conflict?)
  {
    FailDecides(s, v, fence, execution);
  }

  lemma UpdateLeaves(s: State, v: VersionId, fence: int, status: Option<JobStatus>, step: Option<string>,
                     execution: Option<Token>)
    requires Local(s, v)
    ensures var (s', a) := UpdateJob(s, v, fence, status, step, execution);
            var row, j := s.rows[v], s.rows[v].job.value;
            var to := if status.Some? then status.value else j.status;
            var name := if step.Some? then step.value else j.step;
            s' == if a.Err? || j.status.Failed? then s
                  else if row.status.Ready? then s.(rows := s.rows[v := row.(job := Some(j.(step := name)))])
                  else Moving(s, v, to, name)
  {
    var j := s.rows[v].job.value;
    var to := if status.Some? then status.value else j.status;
    FailDecides(s, v, fence, execution);
    MoveLeaves(s, v, to, step);
  }

  lemma MoveLeaves(s: State, v: VersionId, to: JobStatus, step: Option<string>)
    requires Local(s, v)
    ensures var row, j := s.rows[v], s.rows[v].job.value;
            var name := if step.Some? then step.value else j.step;
            && (Open(j) && !to.Failed? ==> MoveJob(s, v, to, step) == Moving(s, v, to, name))
            && (row.status.Ready? && to.Completed? ==>
                  MoveJob(s, v, to, step) == s.(rows := s.rows[v := row.(job := Some(j.(step := name)))]))
  {
    var id := s.rows[v].doc;
    assert s.docs[id := s.docs[id]] == s.docs;
  }

  // ---------- Holding a job ----------

  /** A lease is renewed exactly for who holds it; only its end moves. */
  lemma HeartbeatExact(s: State, v: VersionId, token: Token, seconds: int)
    requires Inv(s)
    ensures v in s.rows ==> s.rows[v].job.Some?
    ensures var (s', a) := HeartbeatIndex(s, v, token, seconds);
            && (a.Ok? <==> seconds >= 1 && v in s.rows && Entitled(s.rows[v].job.value, Some(token), s.clock))
            && s' == if a.Err? then s
                     else s.(rows := s.rows[v := s.rows[v].(
                               job := Some(s.rows[v].job.value.(lease := Some(s.clock + seconds))))])
  {
    if v in s.rows { LocalOk(s, v); }
  }

  ghost function Buried(j: IndexJob): IndexJob { Ended(j, JobStatus.DeadLetter, "dead_letter").(nextRetry := None) }

  /** The job waits for another attempt, a staged one to be published. */
  ghost function PutBack(s: State, v: VersionId, due: Time): State
    requires v in s.rows && s.rows[v].job.Some?
  {
    var row, j := s.rows[v], s.rows[v].job.value;
    var waiting := if row.status.Staged? then Ended(j, JobStatus.Staged, "publish") else Ended(j, JobStatus.RetryWait, j.step);
    s.(rows := s.rows[v := row.(job := Some(waiting.(nextRetry := Some(due))))])
  }

  /** The holder puts its job back for a later attempt, or sees it closed once the attempts are used up. */
  lemma RetryExact(s: State, v: VersionId, token: Token, delay: int)
    requires Inv(s)
    ensures v in s.rows ==> s.rows[v].job.Some? && s.rows[v].doc in s.docs
    ensures var (s', a) := RetryIndex(s, v, token, delay);
            && (a.Ok? <==> delay >= 0 && v in s.rows && Entitled(s.rows[v].job.value, Some(token), s.clock))
            && (a.Err? ==> s' == s)
            && (a.Ok? ==>
                  var j := s.rows[v].job.value;
                  s' == if j.attempts >= j.maxAttempts then Failing(s, v, Buried(j)) else PutBack(s, v, s.clock + delay))
  {
    if v in s.rows {
      LocalOk(s, v);
      RetryDecides(s, v, token, delay);
    }
  }

  lemma RetryDecides(s: State, v: VersionId, token: Token, delay: int)
    requires Local(s, v)
    ensures var (s', a) := RetryIndex(s, v, token, delay);
            && (a.Ok? <==> delay >= 0 && Entitled(s.rows[v].job.value, Some(token), s.clock))
            && (a.Err? ==> s' == s)
            && (a.Ok? ==>
                  var j := s.rows[v].job.value;
                  s' == if j.attempts >= j.maxAttempts then Failing(s, v, Buried(j)) else PutBack(s, v, s.clock + delay))
  {
    var j := s.rows[v].job.value;
    if Open(j) { AbandonFails(s, v, Buried(j)); }
  }

  lemma DeadLetterExact(s: State, v: VersionId, token: Token)
    requires Inv(s)
    ensures v in s.rows ==> s.rows[v].job.Some? && s.rows[v].doc in s.docs
    ensures var (s', a) := DeadLetterIndex(s, v, token);
            && (a.Ok? <==> v in s.rows && Entitled(s.rows[v].job.value, Some(token), s.clock))
            && s' == if a.Err? then s
                     else Failing(s, v, Buried(s.rows[v].job.value))
  {
    if v in s.rows {
      LocalOk(s, v);
      var j := s.rows[v].job.value;
      if Open(j) { AbandonFails(s, v, Buried(j)); }
    }
  }
}
