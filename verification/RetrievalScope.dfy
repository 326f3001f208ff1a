/** Turning the retrieval snapshot into one query target per vector collection. */
module RetrievalScope {
  import opened Prelude
  import opened CatalogState
  import opened CatalogInvariant
  import opened CatalogRuns
  import opened Retrieval
  import opened Text

  /** One collection to query; the filter is the conjunction of tenant, version ids and leaf level. */
  datatype Target = Target(collection: string, tenant: string, versions: seq<VersionId>, level: nat)
  datatype Resolved = Resolved(targets: seq<Target>, index: Payload, currentCount: nat, catalogCount: nat)
  datatype ScopeError = EmptyTenant | NegativeLevel | BadCollection

  // ---------- Names ----------

  predicate IsLetter(c: char) { 'A' <= c <= 'Z' || 'a' <= c <= 'z' || c == '_' }

  predicate ValidCollection(name: string) {
    && 1 <= |name| <= 160 && IsLetter(name[0])
    && forall i :: 1 <= i < |name| ==> IsLetter(name[i]) || '0' <= name[i] <= '9'
  }

  /** ASCII letters, digits and underscores, at most 160 of them, no digit first. */
  ghost predicate GoodName(name: string) {
    && name != [] && |name| <= 160 && !(48 <= name[0] as int <= 57)
    && forall i :: 0 <= i < |name| ==>
         var c := name[i] as int; 65 <= c <= 90 || 97 <= c <= 122 || 48 <= c <= 57 || c == 95
  }

  lemma ValidMeans(name: string)
    ensures ValidCollection(name) <==> GoodName(name)
  {
  }

  // ---------- Ordering ----------

  predicate Precedes(a: string, b: string) {
    if a == [] || b == [] then a == [] && b != []
    else a[0] < b[0] || (a[0] == b[0] && Precedes(a[1..], b[1..]))
  }

  lemma {:induction false} PrecedesIsTotal(a: string, b: string)
    ensures !Precedes(a, a)
    ensures Precedes(a, b) || Precedes(b, a) || a == b
    decreases |a|
  {
    if a != [] {
      PrecedesIsTotal(a[1..], if b == [] then b else b[1..]);
      if b != [] && a[0] == b[0] && a[1..] == b[1..] { SameHeadAndTail(a, b); }
    }
  }

  /** The first difference decides; a proper prefix comes first. */
  ghost predicate Differs(a: string, b: string, k: int) {
    && 0 <= k <= |a| && k < |b| && a[..k] == b[..k] && (k < |a| ==> a[k] < b[k])
  }

  ghost predicate Comes(a: string, b: string) { exists k :: Differs(a, b, k) }

  /** The order of names is that of their first difference. */
  lemma {:induction false} PrecedesMeans(a: string, b: string)
    ensures Precedes(a, b) <==> Comes(a, b)
    decreases |a|
  {
    if a == [] || b == [] {
      if b != [] { assert Differs(a, b, 0); }
    } else {
      PrecedesMeans(a[1..], b[1..]);
      if a[0] == b[0] {
        if k :| Differs(a[1..], b[1..], k) {
          assert a[..k + 1] == [a[0]] + a[1..][..k] && b[..k + 1] == [b[0]] + b[1..][..k];
          assert Differs(a, b, k + 1);
        }
        if k :| Differs(a, b, k) {
          assert k > 0;
          assert a[1..][..k - 1] == a[..k][1..] && b[1..][..k - 1] == b[..k][1..];
          assert Differs(a[1..], b[1..], k - 1);
        }
      } else {
        if a[0] < b[0] { assert Differs(a, b, 0); }
        if k :| Differs(a, b, k) {
          if k > 0 { assert a[..k][0] == b[..k][0]; }
        }
      }
    }
  }

  lemma SameHeadAndTail(a: string, b: string)
    requires a != [] && b != [] && a[0] == b[0] && a[1..] == b[1..]
    ensures a == b
  {
    assert a == [a[0]] + a[1..] && b == [b[0]] + b[1..];
  }

  lemma {:induction false} PrecedesIsTransitive(a: string, b: string, c: string)
    requires Precedes(a, b) && Precedes(b, c)
    ensures Precedes(a, c)
  {
    if a != [] && a[0] == b[0] == c[0] { PrecedesIsTransitive(a[1..], b[1..], c[1..]); }
  }

  ghost predicate StrictOrder<T(!new)>(less: (T, T) -> bool) {
    && (forall a :: !less(a, a))
    && (forall a, b :: less(a, b) || less(b, a) || a == b)
    && (forall a, b, c :: less(a, b) && less(b, c) ==> less(a, c))
  }

  lemma NamesAreOrdered()
    ensures StrictOrder(Precedes)
  {
    forall a, b ensures !Precedes(a, a) && (Precedes(a, b) || Precedes(b, a) || a == b) {
      PrecedesIsTotal(a, b);
    }
    forall a, b, c | Precedes(a, b) && Precedes(b, c) ensures Precedes(a, c) {
      PrecedesIsTransitive(a, b, c);
    }
  }

  predicate Ascends<T>(s: seq<T>, less: (T, T) -> bool) {
    forall i, j :: 0 <= i < j < |s| ==> less(s[i], s[j])
  }

  ghost predicate Lists<T(!new)>(r: seq<T>, items: set<T>) {
    |r| == |items| && forall x :: x in r <==> x in items
  }

  method Insert<T(!new)>(s: seq<T>, x: T, less: (T, T) -> bool) returns (r: seq<T>)
    requires StrictOrder(less) && Ascends(s, less) && x !in s
    ensures Ascends(r, less)
    ensures |r| == |s| + 1 && forall y :: y in r <==> y in s || y == x
  {
    var i := 0;
    while i < |s| && less(s[i], x)
      invariant 0 <= i <= |s|
      invariant forall k :: 0 <= k < i ==> less(s[k], x)
    {
      i := i + 1;
    }
    assert i < |s| ==> less(x, s[i]);
    forall k | i <= k < |s| ensures less(x, s[k]) { assert k > i ==> less(s[i], s[k]); }
    InsertedMembers(s, x, i);
    r := s[..i] + [x] + s[i..];
  }

  lemma InsertedMembers<T(!new)>(s: seq<T>, x: T, i: nat)
    requires i <= |s|
    ensures forall y :: y in s[..i] + [x] + s[i..] <==> y in s || y == x
  {
    assert s == s[..i] + s[i..];
  }

  method Sorted<T(==, !new)>(items: set<T>, less: (T, T) -> bool) returns (r: seq<T>)
    requires StrictOrder(less)
    ensures Ascends(r, less) && Lists(r, items)
  {
    r := [];
    var rest := items;
    while rest != {}
      invariant rest <= items && Ascends(r, less) && Lists(r, items - rest)
      decreases rest
    {
      var x :| x in rest;
      r := Insert(r, x, less);
      assert items - (rest - {x}) == (items - rest) + {x};
      rest := rest - {x};
    }
    assert items - rest == items;
  }

  // ---------- Grouping ----------

  /** The part of a snapshot entry the grouping looks at; the name has been stripped. */
  datatype Current = Current(collection: string, version: VersionId)

  type Currents = map<DocId, Current>

  function CurrentsOf(p: Payload): Currents {
    map d | d in p :: Current(Strip(p[d].collection), p[d].version)
  }

  type Groups = map<string, seq<(DocId, VersionId)>>

  function Collections(p: Currents, done: set<DocId>): set<string> {
    set d | d in done && d in p :: p[d].collection
  }

  function Members(p: Currents, done: set<DocId>, c: string): set<DocId> {
    set d | d in done && d in p && p[d].collection == c
  }

  function VersionsOf(p: Currents, ids: set<DocId>): set<VersionId> {
    set d | d in ids && d in p :: p[d].version
  }

  function Seconds(entries: seq<(DocId, VersionId)>): set<VersionId> {
    set i | 0 <= i < |entries| :: entries[i].1
  }

  ghost function KnownCount(p: Currents, done: set<DocId>): nat { |done * p.Keys| }

  /** The grouping dictionary holds exactly what the documents handled so far contribute. */
  ghost predicate Grouped(p: Currents, done: set<DocId>, groups: Groups) {
    && groups.Keys == Collections(p, done)
    && forall c {:trigger GroupOk(p, done, groups, c)} :: GroupOk(p, done, groups, c)
  }

  ghost predicate GroupOk(p: Currents, done: set<DocId>, groups: Groups, c: string) {
    c in groups ==> Seconds(groups[c]) == VersionsOf(p, Members(p, done, c))
  }

  lemma GroupedNone(p: Currents)
    ensures Grouped(p, {}, map[])
  {
    assert Collections(p, {}) == {};
  }

  lemma GroupedSkip(p: Currents, done: set<DocId>, d: DocId, groups: Groups)
    requires Grouped(p, done, groups) && d !in p
    ensures Grouped(p, done + {d}, groups) && KnownCount(p, done + {d}) == KnownCount(p, done)
  {
    assert (done + {d}) * p.Keys == done * p.Keys;
    assert Collections(p, done + {d}) == Collections(p, done);
    forall c ensures GroupOk(p, done + {d}, groups, c) {
      assert GroupOk(p, done, groups, c);
      assert Members(p, done + {d}, c) == Members(p, done, c);
    }
  }

  lemma SecondsAppend(entries: seq<(DocId, VersionId)>, e: (DocId, VersionId))
    ensures Seconds(entries + [e]) == Seconds(entries) + {e.1}
  {
    forall i | 0 <= i < |entries| ensures (entries + [e])[i] == entries[i] { }
    assert (entries + [e])[|entries|] == e;
  }

  lemma CountAdd(p: Currents, done: set<DocId>, d: DocId)
    requires d in p && d !in done
    ensures KnownCount(p, done + {d}) == KnownCount(p, done) + 1
  {
    assert (done + {d}) * p.Keys == done * p.Keys + {d};
  }

  function Added(groups: Groups, c: string, e: (DocId, VersionId)): Groups {
    groups[c := (if c in groups then groups[c] else []) + [e]]
  }

  lemma GroupedAdd(p: Currents, done: set<DocId>, d: DocId, groups: Groups)
    requires Grouped(p, done, groups) && d in p
    ensures Grouped(p, done + {d}, Added(groups, p[d].collection, (d, p[d].version)))
  {
    var c := p[d].collection;
    var before := if c in groups then groups[c] else [];
    assert Collections(p, done + {d}) == Collections(p, done) + {c};
    assert Members(p, done + {d}, c) == Members(p, done, c) + {d};
    forall e | e in Members(p, done, c) ensures c in groups { assert p[e].collection in Collections(p, done); }
    SecondsAppend(before, (d, p[d].version));
    assert VersionsOf(p, Members(p, done + {d}, c)) == VersionsOf(p, Members(p, done, c)) + {p[d].version};
    var groups' := Added(groups, c, (d, p[d].version));
    forall c' ensures GroupOk(p, done + {d}, groups', c') {
      assert GroupOk(p, done, groups, c');
      if c' != c { assert Members(p, done + {d}, c') == Members(p, done, c'); }
    }
  }

  lemma DonePayload(p: Currents, done: set<DocId>, groups: Groups)
    requires Grouped(p, done, groups) && p.Keys <= done
    ensures Grouped(p, p.Keys, groups) && KnownCount(p, done) == |p|
  {
    assert done * p.Keys == p.Keys;
    assert Collections(p, p.Keys) == Collections(p, done);
    forall c ensures GroupOk(p, p.Keys, groups, c) {
      assert GroupOk(p, done, groups, c);
      assert Members(p, p.Keys, c) == Members(p, done, c);
    }
  }

  ghost predicate AllValid(p: Currents, done: set<DocId>) {
    forall d :: d in done && d in p ==> GoodName(p[d].collection)
  }

  /** The loop over the documents in scope; it stops at the first invalid collection name. */
  method Group(p: Currents, documents: set<DocId>) returns (groups: Groups, count: nat, valid: bool)
    requires p.Keys <= documents
    ensures valid <==> AllValid(p, p.Keys)
    ensures valid ==> Grouped(p, p.Keys, groups) && count == |p|
  {
    groups, count := map[], 0;
    var todo := documents;
    ghost var done := {};
    GroupedNone(p);
    while todo != {}
      invariant done !! todo && p.Keys <= done + todo
      invariant Grouped(p, done, groups) && AllValid(p, done) && count == KnownCount(p, done)
      decreases todo
    {
      var d :| d in todo;
      todo := todo - {d};
      if d in p {
        count := count + 1;
        ValidMeans(p[d].collection);
        valid := ValidCollection(p[d].collection);
        if !valid { return; }
        CountAdd(p, done, d);
        GroupedAdd(p, done, d, groups);
        groups := Added(groups, p[d].collection, (d, p[d].version));
      } else {
        GroupedSkip(p, done, d, groups);
      }
      done := done + {d};
    }
    DonePayload(p, done, groups);
    valid := true;
  }

  // ---------- Resolve ----------

  function ScopeDocs(s: State, tenant: string, kb: Option<KbId>): set<DocId> {
    set id | id in s.docs && InScope(s, id, tenant, kb)
  }

  predicate Lower(a: VersionId, b: VersionId) { a < b }

  ghost predicate TargetFor(t: Target, p: Currents, tenant: string, level: nat) {
    && t.tenant == tenant && t.level == level && t.collection in Collections(p, p.Keys)
    && Ascends(t.versions, Lower) && Lists(t.versions, VersionsOf(p, Members(p, p.Keys, t.collection)))
  }

  /** Every collection in use has one target, in order, holding all its versions. */
  ghost predicate Covers(ts: seq<Target>, p: Currents, tenant: string, level: nat) {
    && (forall i, j :: 0 <= i < j < |ts| ==> Precedes(ts[i].collection, ts[j].collection))
    && (forall i :: 0 <= i < |ts| ==> TargetFor(ts[i], p, tenant, level))
    && Complete(ts, p)
  }

  ghost predicate Complete(ts: seq<Target>, p: Currents) {
    forall c :: c in Collections(p, p.Keys) ==> exists i :: 0 <= i < |ts| && ts[i].collection == c
  }

  /** The answer of a resolution: each error for its cause, else targets that cover the snapshot, with both counts. */
  ghost predicate Resolves(s: State, tenantId: string, kb: Option<KbId>, level: int, r: Answer<Resolved, ScopeError>) {
    var tenant := Strip(tenantId);
    var p := Snapshot(s, tenant, kb);
    && (r == Err(EmptyTenant) <==> tenant == [])
    && (r == Err(NegativeLevel) <==> tenant != [] && level < 0)
    && (r == Err(BadCollection) <==> tenant != [] && level >= 0 && !AllValid(CurrentsOf(p), p.Keys))
    && (r.Ok? <==> tenant != [] && level >= 0 && AllValid(CurrentsOf(p), p.Keys))
    && (r.Ok? ==> && Covers(r.value.targets, CurrentsOf(p), tenant, level) && r.value.index == p
                  && r.value.currentCount == |p| && r.value.catalogCount == |Shelf(s, tenant, kb)|)
  }

  method Resolve(s: State, tenantId: string, kb: Option<KbId>, level: int)
    returns (r: Answer<Resolved, ScopeError>)
    ensures Resolves(s, tenantId, kb, level, r)
  {
    var tenant := Strip(tenantId);
    if tenant == [] { return Err(EmptyTenant); }
    if level < 0 { return Err(NegativeLevel); }
    var payload := Snapshot(s, tenant, kb);
    var p := CurrentsOf(payload);
    assert p.Keys == payload.Keys;
    var documents := ScopeDocs(s, tenant, kb);
    var groups, count, valid := Group(p, documents);
    if !valid { return Err(BadCollection); }
    var targets := BuildTargets(p, groups, tenant, level);
    assert documents == Shelf(s, tenant, kb);
    r := Ok(Resolved(targets, payload, count, |documents|));
  }

  method SortedNames(names: set<string>) returns (r: seq<string>)
    ensures Ascends(r, Precedes) && Lists(r, names)
  {
    NamesAreOrdered();
    r := Sorted(names, Precedes);
  }

  method BuildTarget(p: Currents, groups: Groups, name: string, tenant: string, level: nat) returns (t: Target)
    requires Grouped(p, p.Keys, groups) && name in groups
    ensures TargetFor(t, p, tenant, level) && t.collection == name
  {
    assert GroupOk(p, p.Keys, groups, name);
    var versions := Sorted(Seconds(groups[name]), Lower);
    t := Target(name, tenant, versions, level);
  }

  /** The targets of the leading names. */
  ghost predicate Builds(ts: seq<Target>, names: seq<string>, p: Currents, tenant: string, level: nat) {
    |ts| <= |names| && forall k :: 0 <= k < |ts| ==> ts[k].collection == names[k] && TargetFor(ts[k], p, tenant, level)
  }

  method BuildTargets(p: Currents, groups: Groups, tenant: string, level: nat) returns (targets: seq<Target>)
    requires Grouped(p, p.Keys, groups)
    ensures Covers(targets, p, tenant, level)
  {
    var names := SortedNames(groups.Keys);
    targets := [];
    for i := 0 to |names|
      invariant |targets| == i && Builds(targets, names, p, tenant, level)
    {
      assert names[i] in names;
      var t := BuildTarget(p, groups, names[i], tenant, level);
      BuildsMore(targets, t, names, p, tenant, level);
      targets := targets + [t];
    }
    BuildsAll(targets, names, p, tenant, level);
  }

  lemma BuildsMore(ts: seq<Target>, t: Target, names: seq<string>, p: Currents, tenant: string, level: nat)
    requires Builds(ts, names, p, tenant, level) && |ts| < |names| && t.collection == names[|ts|]
    requires TargetFor(t, p, tenant, level)
    ensures Builds(ts + [t], names, p, tenant, level)
  {
  }

  lemma BuildsAll(ts: seq<Target>, names: seq<string>, p: Currents, tenant: string, level: nat)
    requires Ascends(names, Precedes) && Lists(names, Collections(p, p.Keys))
    requires |ts| == |names| && Builds(ts, names, p, tenant, level)
    ensures Covers(ts, p, tenant, level)
  {
    forall c | c in Collections(p, p.Keys) ensures exists i :: 0 <= i < |ts| && ts[i].collection == c {
      assert c in names;
      var i :| 0 <= i < |names| && names[i] == c;
      assert ts[i].collection == c;
    }
  }

  // ---------- Partition ----------

  ghost predicate OneOwner(p: Currents) {
    forall d, e :: d in p && e in p && p[d].version == p[e].version ==> d == e
  }

  lemma SnapshotOneOwner(s: State, tenant: string, kb: Option<KbId>)
    requires Inv(s)
    ensures OneOwner(CurrentsOf(Snapshot(s, tenant, kb)))
  {
    forall d | d in Snapshot(s, tenant, kb)
      ensures s.rows[s.docs[d].current.value].doc == d
    {
      assert DocOk(s, d);
    }
  }

  function Sizes(ts: seq<Target>): nat {
    if ts == [] then 0 else Sizes(ts[..|ts| - 1]) + |ts[|ts| - 1].versions|
  }

  lemma {:induction false} VersionCount(p: Currents, ids: set<DocId>)
    requires OneOwner(p) && ids <= p.Keys
    ensures |VersionsOf(p, ids)| == |ids|
  {
    if ids != {} {
      var d :| d in ids;
      VersionCount(p, ids - {d});
      assert VersionsOf(p, ids) == VersionsOf(p, ids - {d}) + {p[d].version};
    } else {
      assert VersionsOf(p, ids) == {};
    }
  }

  ghost predicate DistinctNames(ts: seq<Target>) {
    forall i, j :: 0 <= i < j < |ts| ==> ts[i].collection != ts[j].collection
  }

  ghost predicate AllTargets(ts: seq<Target>, p: Currents, tenant: string, level: nat) {
    forall i :: 0 <= i < |ts| ==> TargetFor(ts[i], p, tenant, level)
  }

  predicate Named(ts: seq<Target>, c: string) { exists i :: 0 <= i < |ts| && ts[i].collection == c }

  ghost function Within(p: Currents, ts: seq<Target>): set<DocId> {
    set d | d in p && Named(ts, p[d].collection)
  }

  lemma NamedLast(ts: seq<Target>, c: string)
    requires ts != []
    ensures Named(ts, c) <==> Named(ts[..|ts| - 1], c) || ts[|ts| - 1].collection == c
    ensures DistinctNames(ts) ==> DistinctNames(ts[..|ts| - 1]) && !Named(ts[..|ts| - 1], ts[|ts| - 1].collection)
  {
    var front := ts[..|ts| - 1];
    assert forall i :: 0 <= i < |front| ==> front[i] == ts[i];
  }

  lemma {:induction false} SizesCount(ts: seq<Target>, p: Currents, tenant: string, level: nat)
    requires OneOwner(p) && DistinctNames(ts) && AllTargets(ts, p, tenant, level)
    ensures Sizes(ts) == |Within(p, ts)|
  {
    if ts == [] {
      assert Within(p, ts) == {};
    } else {
      var front, last := ts[..|ts| - 1], ts[|ts| - 1];
      NamedLast(ts, last.collection);
      SizesCount(front, p, tenant, level);
      var added := Members(p, p.Keys, last.collection);
      VersionCount(p, added);
      forall d | d in p ensures d in Within(p, ts) <==> d in Within(p, front) || d in added {
        NamedLast(ts, p[d].collection);
      }
      assert Within(p, ts) == Within(p, front) + added;
      assert Within(p, front) !! added;
    }
  }

  predicate Holds(ts: seq<Target>, i: int, v: VersionId) { 0 <= i < |ts| && v in ts[i].versions }

  ghost predicate EachOnce(ts: seq<Target>) {
    forall i, j, v :: 0 <= i < j < |ts| ==> !(Holds(ts, i, v) && Holds(ts, j, v))
  }

  ghost predicate NoneEmpty(ts: seq<Target>) {
    forall i :: 0 <= i < |ts| ==> ts[i].versions != []
  }

  /** The documents in scope that point at a current version. */
  ghost function Served(s: State, tenant: string, kb: Option<KbId>): set<DocId> {
    set id | id in s.docs && Asked(s, id, tenant, kb) && s.docs[id].current.Some?
  }

  lemma ServedIsSnapshot(s: State, tenant: string, kb: Option<KbId>)
    requires Inv(s)
    ensures Snapshot(s, tenant, kb).Keys == Served(s, tenant, kb)
  {
    forall id ensures id in Snapshot(s, tenant, kb) <==> id in Served(s, tenant, kb) { SnapshotExact(s, tenant, kb, id); }
  }

  /** v is the current version of a document asked for. */
  ghost predicate IsServed(s: State, tenant: string, kb: Option<KbId>, v: VersionId) {
    v in s.rows && Asked(s, s.rows[v].doc, tenant, kb) && s.docs[s.rows[v].doc].current == Some(v)
  }

  ghost predicate ExactlyServed(s: State, tenant: string, kb: Option<KbId>, ts: seq<Target>) {
    forall v: VersionId :: IsServed(s, tenant, kb, v) <==> exists i :: Holds(ts, i, v)
  }

  /** Each version is queried in the collection it was built in. */
  ghost predicate AtHome(s: State, ts: seq<Target>) {
    forall i, v: VersionId :: Holds(ts, i, v) ==> v in s.rows && ts[i].collection == Strip(s.rows[v].collection)
  }

  /** The filter of every target names the tenant, the level and the versions in rising order. */
  ghost predicate Filters(ts: seq<Target>, tenant: string, level: int) {
    forall i :: 0 <= i < |ts| ==>
      && ts[i].tenant == tenant && ts[i].level == level
      && forall j, k :: 0 <= j < k < |ts[i].versions| ==> ts[i].versions[j] < ts[i].versions[k]
  }

  ghost predicate InOrder(ts: seq<Target>) {
    forall i, j :: 0 <= i < j < |ts| ==> Comes(ts[i].collection, ts[j].collection)
  }

  /** A version is in some target exactly when it is the current one of a document of the tenant and knowledge base asked
      for; it is in one target only, that of its collection; the sizes add up to the number of those documents. */
  lemma TargetsPartition(s: State, tenantId: string, kb: Option<KbId>, level: int, r: Answer<Resolved, ScopeError>)
    requires Reachable(s) && Resolves(s, tenantId, kb, level, r) && r.Ok?
    ensures var tenant, ts := Strip(tenantId), r.value.targets;
            && ExactlyServed(s, tenant, kb, ts) && AtHome(s, ts) && EachOnce(ts) && NoneEmpty(ts)
            && Filters(ts, tenant, level) && InOrder(ts)
            && Sizes(ts) == r.value.currentCount == |Served(s, tenant, kb)|
  {
    ReachableInv(s);
    var tenant, ts := Strip(tenantId), r.value.targets;
    CoversServes(s, tenant, kb, ts, level);
    CoversAddsUp(s, tenant, kb, ts, level);
    CoversFilters(ts, CurrentsOf(Snapshot(s, tenant, kb)), tenant, level);
  }

  lemma CoversAddsUp(s: State, tenant: string, kb: Option<KbId>, ts: seq<Target>, level: nat)
    requires Inv(s) && Covers(ts, CurrentsOf(Snapshot(s, tenant, kb)), tenant, level)
    ensures EachOnce(ts) && NoneEmpty(ts) && Sizes(ts) == |Snapshot(s, tenant, kb)| == |Served(s, tenant, kb)|
  {
    SnapshotOneOwner(s, tenant, kb);
    PayloadAddsUp(ts, Snapshot(s, tenant, kb), tenant, level);
    ServedIsSnapshot(s, tenant, kb);
  }

  lemma PayloadAddsUp(ts: seq<Target>, p: Payload, tenant: string, level: nat)
    requires OneOwner(CurrentsOf(p)) && Covers(ts, CurrentsOf(p), tenant, level)
    ensures EachOnce(ts) && NoneEmpty(ts) && Sizes(ts) == |p| == |p.Keys|
  {
    CoversDistinct(ts, CurrentsOf(p), tenant, level);
    TargetsOnce(ts, CurrentsOf(p), tenant, level);
    SizesAddUp(ts, CurrentsOf(p), tenant, level);
    forall i | 0 <= i < |ts| ensures ts[i].versions != [] { NonEmpty(ts[i], CurrentsOf(p), tenant, level); }
    assert CurrentsOf(p).Keys == p.Keys;
  }

  lemma CoversFilters(ts: seq<Target>, p: Currents, tenant: string, level: nat)
    requires Covers(ts, p, tenant, level)
    ensures Filters(ts, tenant, level) && InOrder(ts)
  {
    forall i, j | 0 <= i < j < |ts| ensures Comes(ts[i].collection, ts[j].collection) {
      PrecedesMeans(ts[i].collection, ts[j].collection);
    }
    forall i | 0 <= i < |ts|
      ensures ts[i].tenant == tenant && ts[i].level == level
      ensures forall j, k :: 0 <= j < k < |ts[i].versions| ==> ts[i].versions[j] < ts[i].versions[k]
    {
      assert TargetFor(ts[i], p, tenant, level);
    }
  }

  lemma CoversServes(s: State, tenant: string, kb: Option<KbId>, ts: seq<Target>, level: nat)
    requires Inv(s) && Covers(ts, CurrentsOf(Snapshot(s, tenant, kb)), tenant, level)
    ensures ExactlyServed(s, tenant, kb, ts) && AtHome(s, ts)
  {
    var p := CurrentsOf(Snapshot(s, tenant, kb));
    CoversDistinct(ts, p, tenant, level);
    forall i, v: VersionId | Holds(ts, i, v)
      ensures IsServed(s, tenant, kb, v) && ts[i].collection == Strip(s.rows[v].collection)
    {
      var d := OwnerOf(ts[i], p, tenant, level, v);
      SnapshotExact(s, tenant, kb, d);
      assert DocOk(s, d);
    }
    forall v: VersionId | IsServed(s, tenant, kb, v) ensures exists i :: Holds(ts, i, v) {
      var d := s.rows[v].doc;
      SnapshotExact(s, tenant, kb, d);
      var i := TargetOf(ts, p, tenant, level, d);
      assert Holds(ts, i, v);
    }
  }

  lemma TargetsOnce(ts: seq<Target>, p: Currents, tenant: string, level: nat)
    requires OneOwner(p) && DistinctNames(ts) && AllTargets(ts, p, tenant, level)
    ensures EachOnce(ts)
  {
    forall i, j, v | 0 <= i < j < |ts| ensures !(Holds(ts, i, v) && Holds(ts, j, v)) {
      if v in ts[i].versions { DistinctTargets(ts[i], ts[j], p, tenant, level, v); }
    }
  }

  lemma SizesAddUp(ts: seq<Target>, p: Currents, tenant: string, level: nat)
    requires OneOwner(p) && DistinctNames(ts) && AllTargets(ts, p, tenant, level) && Complete(ts, p)
    ensures Sizes(ts) == |p|
  {
    SizesCount(ts, p, tenant, level);
    forall d | d in p ensures d in Within(p, ts) {
      var i := TargetOf(ts, p, tenant, level, d);
    }
    assert Within(p, ts) == p.Keys;
  }

  lemma TargetOf(ts: seq<Target>, p: Currents, tenant: string, level: nat, d: DocId) returns (i: nat)
    requires AllTargets(ts, p, tenant, level) && Complete(ts, p) && d in p
    ensures i < |ts| && p[d].version in ts[i].versions && d in Within(p, ts)
  {
    assert p[d].collection in Collections(p, p.Keys);
    i :| 0 <= i < |ts| && ts[i].collection == p[d].collection;
    InTarget(ts[i], p, tenant, level, d);
  }

  lemma NonEmpty(t: Target, p: Currents, tenant: string, level: nat)
    requires TargetFor(t, p, tenant, level)
    ensures t.versions != []
  {
    var d :| d in p && p[d].collection == t.collection;
    InTarget(t, p, tenant, level, d);
  }

  lemma CoversDistinct(ts: seq<Target>, p: Currents, tenant: string, level: nat)
    requires Covers(ts, p, tenant, level)
    ensures DistinctNames(ts) && AllTargets(ts, p, tenant, level) && Complete(ts, p)
  {
    forall i, j | 0 <= i < j < |ts| ensures ts[i].collection != ts[j].collection {
      PrecedesIsTotal(ts[i].collection, ts[j].collection);
    }
  }

  lemma DistinctTargets(t: Target, u: Target, p: Currents, tenant: string, level: nat, v: VersionId)
    requires OneOwner(p) && t.collection != u.collection
    requires TargetFor(t, p, tenant, level) && TargetFor(u, p, tenant, level) && v in t.versions
    ensures v !in u.versions
  {
    var d := OwnerOf(t, p, tenant, level, v);
    if v in u.versions {
      var e := OwnerOf(u, p, tenant, level, v);
      assert false;
    }
  }

  lemma InTarget(t: Target, p: Currents, tenant: string, level: nat, d: DocId)
    requires TargetFor(t, p, tenant, level) && d in p && p[d].collection == t.collection
    ensures p[d].version in t.versions && d in Members(p, p.Keys, t.collection)
  {
    assert d in Members(p, p.Keys, t.collection);
    assert p[d].version in VersionsOf(p, Members(p, p.Keys, t.collection));
  }

  lemma OwnerOf(t: Target, p: Currents, tenant: string, level: nat, v: VersionId) returns (d: DocId)
    requires TargetFor(t, p, tenant, level) && v in t.versions
    ensures d in p && p[d].version == v && p[d].collection == t.collection
  {
    assert v in VersionsOf(p, Members(p, p.Keys, t.collection));
    d :| d in Members(p, p.Keys, t.collection) && p[d].version == v;
  }

  // ---------- One answer ----------

  lemma HasFirst<T>(s: seq<T>)
    requires s != []
    ensures exists x :: x in s
  {
    assert s[0] in s;
  }

  /** Two rising lists of the same elements are the same list. */
  lemma {:induction false} RisingIsUnique<T(!new)>(a: seq<T>, b: seq<T>, less: (T, T) -> bool)
    requires StrictOrder(less) && Ascends(a, less) && Ascends(b, less) && forall x :: x in a <==> x in b
    ensures a == b
    decreases |a|
  {
    if a == [] {
      if b != [] { HasFirst(b); }
    } else {
      HasFirst(a);
      assert b != [];
      assert a[0] in b && b[0] in a;
      assert a[0] == b[0];
      forall x ensures x in a[1..] <==> x in b[1..] {
        assert x in a <==> x == a[0] || x in a[1..];
        assert x in b <==> x == b[0] || x in b[1..];
        assert a[0] !in a[1..] && b[0] !in b[1..];
      }
      RisingIsUnique(a[1..], b[1..], less);
      assert a == [a[0]] + a[1..] && b == [b[0]] + b[1..];
    }
  }

  ghost function NamesOf(ts: seq<Target>): (names: seq<string>)
    ensures |names| == |ts| && forall i :: 0 <= i < |ts| ==> names[i] == ts[i].collection
  {
    if ts == [] then [] else NamesOf(ts[..|ts| - 1]) + [ts[|ts| - 1].collection]
  }

  lemma NamesAre(ts: seq<Target>, p: Currents, tenant: string, level: nat)
    requires Covers(ts, p, tenant, level)
    ensures Ascends(NamesOf(ts), Precedes) && forall c :: c in NamesOf(ts) <==> c in Collections(p, p.Keys)
  {
    var names := NamesOf(ts);
    forall c | c in names ensures c in Collections(p, p.Keys) {
      var i :| 0 <= i < |names| && names[i] == c;
      assert TargetFor(ts[i], p, tenant, level);
    }
    forall c | c in Collections(p, p.Keys) ensures c in names {
      var i :| 0 <= i < |ts| && ts[i].collection == c;
      assert names[i] == c;
    }
  }

  lemma SameTarget(t: Target, u: Target, p: Currents, tenant: string, level: nat)
    requires TargetFor(t, p, tenant, level) && TargetFor(u, p, tenant, level) && t.collection == u.collection
    ensures t == u
  {
    RisingIsUnique(t.versions, u.versions, Lower);
  }

  /** Only one list of targets covers a snapshot. */
  lemma CoversIsUnique(ts: seq<Target>, us: seq<Target>, p: Currents, tenant: string, level: nat)
    requires Covers(ts, p, tenant, level) && Covers(us, p, tenant, level)
    ensures ts == us
  {
    NamesAre(ts, p, tenant, level);
    NamesAre(us, p, tenant, level);
    NamesAreOrdered();
    RisingIsUnique(NamesOf(ts), NamesOf(us), Precedes);
    forall i | 0 <= i < |ts| ensures ts[i] == us[i] {
      assert NamesOf(ts)[i] == NamesOf(us)[i];
      SameTarget(ts[i], us[i], p, tenant, level);
    }
  }

  /** An answer depends only on the snapshot and the number of documents asked for. */
  lemma OneAnswer(s: State, s': State, tenantId: string, kb: Option<KbId>, level: int, r: Answer<Resolved, ScopeError>,
                  r': Answer<Resolved, ScopeError>)
    requires Resolves(s, tenantId, kb, level, r) && Resolves(s', tenantId, kb, level, r')
    requires Snapshot(s', Strip(tenantId), kb) == Snapshot(s, Strip(tenantId), kb)
    requires Shelf(s', Strip(tenantId), kb) == Shelf(s, Strip(tenantId), kb)
    ensures r' == r
  {
    var p := Snapshot(s, Strip(tenantId), kb);
    assert r.Ok? <==> r'.Ok?;
    if r.Ok? { CoversIsUnique(r.value.targets, r'.value.targets, CurrentsOf(p), Strip(tenantId), level); }
  }
}
