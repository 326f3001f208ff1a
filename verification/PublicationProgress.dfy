/** A build that is left alone succeeds: it stages its version with both stores filled. */
module PublicationProgress {
  import opened Prelude
  import opened CatalogState
  import opened CatalogOps
  import opened CatalogInvariant
  import opened CatalogRuns
  import opened CatalogWrites
  import opened PublicationProtocol

  /** The guard before every store call: the token is the owner's, its lease runs and the job is open. */
  lemma GuardMeans(s: State, v: VersionId, token: Token)
    requires Inv(s)
    ensures v in s.rows ==> s.rows[v].job.Some?
    ensures LeaseGuard(s, v, token) <==>
            v in s.rows && Entitled(s.rows[v].job.value, Some(token), s.clock) && Open(s.rows[v].job.value)
  {
    if v in s.rows { LocalOk(s, v); }
  }

  lemma {:induction false} TallyCounts(entries: seq<Entry>, kind: StoreKind)
    requires Apart(entries)
    ensures Tally(entries, kind) == |Ids(entries, kind)|
  {
    if entries == [] {
      assert Ids(entries, kind) == {};
    } else {
      TallyCounts(entries[1..], kind);
      IdsTail(entries, kind);
      var head := entries[0].key;
      assert head.kind == kind ==> head.id !in Ids(entries[1..], kind) by {
        forall i | 0 <= i < |entries[1..]| && entries[1..][i].key.kind == kind ensures entries[1..][i].key.id != head.id || head.kind != kind {
          assert entries[1..][i] == entries[i + 1];
        }
      }
    }
  }

  lemma IdsTail(entries: seq<Entry>, kind: StoreKind)
    requires entries != []
    ensures Ids(entries, kind) == Ids(entries[1..], kind) + if entries[0].key.kind == kind then {entries[0].key.id} else {}
  {
    forall id | id in Ids(entries, kind)
      ensures id in Ids(entries[1..], kind) + if entries[0].key.kind == kind then {entries[0].key.id} else {}
    {
      var i :| 0 <= i < |entries| && entries[i].key.kind == kind && entries[i].key.id == id;
      if i > 0 { assert entries[1..][i - 1] == entries[i]; }
    }
    forall id | id in Ids(entries[1..], kind) ensures id in Ids(entries, kind) {
      var i :| 0 <= i < |entries[1..]| && entries[1..][i].key.kind == kind && entries[1..][i].key.id == id;
      assert entries[i + 1] == entries[1..][i];
    }
  }

  // ---------- Stage by stage ----------

  /** The catalog stands still while the process holds the version, which is not staged yet. */
  ghost predicate Building(y: System, cat: State, key: Key, entries: seq<Entry>, stage: Stage) {
    && y.cat == cat && LeaseGuard(cat, key.v, key.token) && At(y, key, stage)
    && y.builds[key].fence == cat.rows[key.v].job.value.fence && (!stage.Started? ==> y.builds[key].entries == entries)
  }

  lemma Begins(y: System, key: Key, y': System)
    requires LeaseGuard(y.cat, key.v, key.token) && !y.cat.rows[key.v].status.Staged? && y' == React(y, Begin(key))
    ensures Building(y', y.cat, key, [], Started)
  {
  }

  lemma Loads(y: System, cat: State, key: Key, entries: seq<Entry>, y': System)
    requires Building(y, cat, key, [], Started) && y' == StageStep(y, Load(key, entries))
    ensures Building(y', cat, key, entries, Loaded)
  {
  }

  lemma StoresParents(y: System, cat: State, key: Key, entries: seq<Entry>, y': System)
    requires Building(y, cat, key, entries, Loaded)
    requires y' == StageStep(StageStep(StageStep(y, ClearParents(key)), WriteParents(key)), VerifyParents(key))
    ensures Building(y', cat, key, entries, ParentsVerified) && Chunks(y'.parents, key.v) == Ids(entries, Parent)
  {
  }

  lemma ClearsVectors(y: System, cat: State, key: Key, entries: seq<Entry>, y': System)
    requires Building(y, cat, key, entries, ParentsVerified) && y' == StageStep(y, ClearVectors(key))
    ensures Building(y', cat, key, entries, VectorsCleared) && y'.parents == y.parents && Chunks(y'.vectors, key.v) == {}
  {
  }

  ghost function Union(batches: seq<set<string>>): set<string> {
    if batches == [] then {} else batches[0] + Union(batches[1..])
  }

  /** The vectors are written in batches, in any division. */
  ghost function WriteAll(y: System, key: Key, batches: seq<set<string>>): System
    decreases |batches|
  {
    if batches == [] then y else WriteAll(StageStep(y, WriteVectors(key, batches[0])), key, batches[1..])
  }

  lemma WritesBatch(y: System, cat: State, key: Key, entries: seq<Entry>, batch: set<string>, y': System)
    requires Building(y, cat, key, entries, VectorsCleared) && y' == StageStep(y, WriteVectors(key, batch))
    ensures Building(y', cat, key, entries, VectorsCleared) && y'.parents == y.parents
    ensures Chunks(y'.vectors, key.v) == Chunks(y.vectors, key.v) + batch * Ids(entries, Vector)
  {
  }

  lemma {:induction false} WritesVectors(y: System, cat: State, key: Key, entries: seq<Entry>, batches: seq<set<string>>)
    requires Building(y, cat, key, entries, VectorsCleared)
    ensures var y' := WriteAll(y, key, batches);
            && Building(y', cat, key, entries, VectorsCleared) && y'.parents == y.parents
            && Chunks(y'.vectors, key.v) == Chunks(y.vectors, key.v) + Union(batches) * Ids(entries, Vector)
    decreases |batches|
  {
    if batches != [] {
      var y1 := StageStep(y, WriteVectors(key, batches[0]));
      WritesBatch(y, cat, key, entries, batches[0], y1);
      WritesVectors(y1, cat, key, entries, batches[1..]);
    }
  }

  lemma VerifiesVectors(y: System, cat: State, key: Key, entries: seq<Entry>, y': System)
    requires Building(y, cat, key, entries, VectorsCleared) && Chunks(y.vectors, key.v) == Ids(entries, Vector)
    requires y' == StageStep(y, VerifyVectors(key))
    ensures Building(y', cat, key, entries, VectorsVerified) && y'.parents == y.parents && y'.vectors == y.vectors
  {
  }

  /** Everything up to the manifest: both stores hold exactly the entries. */
  ghost function Stored(y: System, key: Key, entries: seq<Entry>, batches: seq<set<string>>): System {
    var y1 := StageStep(y, Load(key, entries));
    var y2 := StageStep(StageStep(StageStep(y1, ClearParents(key)), WriteParents(key)), VerifyParents(key));
    StageStep(WriteAll(StageStep(y2, ClearVectors(key)), key, batches), VerifyVectors(key))
  }

  lemma StoresAll(y: System, cat: State, key: Key, entries: seq<Entry>, batches: seq<set<string>>, y': System)
    requires Building(y, cat, key, [], Started) && Ids(entries, Vector) <= Union(batches)
    requires y' == Stored(y, key, entries, batches)
    ensures Building(y', cat, key, entries, VectorsVerified)
    ensures Chunks(y'.parents, key.v) == Ids(entries, Parent) && Chunks(y'.vectors, key.v) == Ids(entries, Vector)
  {
    var y1 := StageStep(y, Load(key, entries));
    Loads(y, cat, key, entries, y1);
    var y2 := StageStep(StageStep(StageStep(y1, ClearParents(key)), WriteParents(key)), VerifyParents(key));
    StoresParents(y1, cat, key, entries, y2);
    var y3 := StageStep(y2, ClearVectors(key));
    ClearsVectors(y2, cat, key, entries, y3);
    WritesVectors(y3, cat, key, entries, batches);
    var y4 := WriteAll(y3, key, batches);
    assert Union(batches) * Ids(entries, Vector) == Ids(entries, Vector);
    VerifiesVectors(y4, cat, key, entries, y');
  }

  lemma RecordedIsStaged(y: System, cat: State, key: Key, entries: seq<Entry>)
    requires Inv(cat) && Building(y, cat, key, entries, VectorsVerified) && Recordable(entries, None, None)
    ensures var cat' := Recorded(y, key); key.v in cat'.rows && Staging(cat.rows[key.v], cat'.rows[key.v], entries)
  {
    TallyCounts(entries, Vector);
    TallyCounts(entries, Parent);
    var v, p := Some(Tally(entries, Vector)), Some(Tally(entries, Parent));
    GuardMeans(cat, key.v, key.token);
    RecordExact(cat, key.v, y.builds[key].fence, entries, v, p, Some(key.token));
  }

  lemma Recording(y: System, key: Key, y': System)
    requires At(y, key, VectorsVerified) && y' == React(y, Record(key))
    ensures y'.cat == Recorded(y, key) && y'.parents == y.parents && y'.vectors == y.vectors
  {
  }

  /** Left alone, a build that holds its version and has entries that fit together stages the version with a manifest of
      exactly them, and both stores hold exactly them, whatever was stored before and however the vectors are batched. */
  lemma BuildSucceeds(y: System, key: Key, entries: seq<Entry>, batches: seq<set<string>>, y': System)
    requires Possible(y) && key.v in y.cat.rows && y.cat.rows[key.v].job.Some? && !y.cat.rows[key.v].status.Staged?
    requires var j := y.cat.rows[key.v].job.value; Entitled(j, Some(key.token), y.cat.clock) && Open(j)
    requires Recordable(entries, None, None) && Ids(entries, Vector) <= Union(batches)
    requires y' == React(Stored(React(y, Begin(key)), key, entries, batches), Record(key))
    ensures key.v in y'.cat.rows && Staging(y.cat.rows[key.v], y'.cat.rows[key.v], entries)
    ensures Chunks(y'.parents, key.v) == Ids(entries, Parent) && Chunks(y'.vectors, key.v) == Ids(entries, Vector)
  {
    PossibleInv(y);
    GuardMeans(y.cat, key.v, key.token);
    var y1 := React(y, Begin(key));
    Begins(y, key, y1);
    var y2 := Stored(y1, key, entries, batches);
    StoresAll(y1, y.cat, key, entries, batches, y2);
    RecordedIsStaged(y2, y.cat, key, entries);
    Recording(y2, key, y');
  }
}
