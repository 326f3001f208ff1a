/** When greedy matching finds a largest matching: conditions on the gold list that are exact. */
module GreedyOptimality {
  import opened Prelude
  import opened Ranking

  ghost predicate Largest(norm: Norm, gold: seq<Gold>, chunks: seq<Chunk>) {
    forall b :: Matching(norm, gold, chunks, b) ==> Hits(b) <= Hits(Greedy(norm, gold, AllGold(gold), chunks))
  }

  /** A matching with more hits than greedy has. */
  ghost predicate Beats(norm: Norm, gold: seq<Gold>, chunks: seq<Chunk>, b: Assignment) {
    Matching(norm, gold, chunks, b) && Hits(b) > Hits(Greedy(norm, gold, AllGold(gold), chunks))
  }

  // ---------- A sufficient condition on one ranking ----------

  ghost predicate Wants(norm: Norm, gold: seq<Gold>, chunks: seq<Chunk>, i: int, g: int) {
    0 <= i < |chunks| && 0 <= g < |gold| && Matches(norm, gold[g], chunks[i])
  }

  /** No other chunk wants this gold chunk. */
  ghost predicate Exclusive(norm: Norm, gold: seq<Gold>, chunks: seq<Chunk>, i: int, g: int) {
    Wants(norm, gold, chunks, i, g) && forall j :: j != i ==> !Wants(norm, gold, chunks, j, g)
  }

  ghost predicate Secure(norm: Norm, gold: seq<Gold>, chunks: seq<Chunk>, i: int) {
    exists e :: Exclusive(norm, gold, chunks, i, e)
  }

  ghost predicate SecureBelow(norm: Norm, gold: seq<Gold>, chunks: seq<Chunk>, i: int, g: int) {
    exists e :: e < g && Exclusive(norm, gold, chunks, i, e)
  }

  /** Chunks i and j both want g, and i wants the later h too. */
  ghost predicate Rivals(norm: Norm, gold: seq<Gold>, chunks: seq<Chunk>, i: int, j: int, g: int, h: int) {
    && i != j && g < h
    && Wants(norm, gold, chunks, i, g) && Wants(norm, gold, chunks, i, h) && Wants(norm, gold, chunks, j, g)
  }

  /** A chunk that takes g from j although it wants h too does no harm: it never takes g, or j has something else. */
  ghost predicate Yields(norm: Norm, gold: seq<Gold>, chunks: seq<Chunk>, i: int, j: int, g: int, h: int) {
    || Wants(norm, gold, chunks, j, h) || SecureBelow(norm, gold, chunks, i, g) || Secure(norm, gold, chunks, j)
  }

  ghost predicate Peaceful(norm: Norm, gold: seq<Gold>, chunks: seq<Chunk>) {
    forall i, j, g, h :: Rivals(norm, gold, chunks, i, j, g, h) ==> Yields(norm, gold, chunks, i, j, g, h)
  }

  /** What greedy does, as far as it matters here. */
  ghost predicate Greedily(norm: Norm, gold: seq<Gold>, chunks: seq<Chunk>, a: Assignment) {
    && Matching(norm, gold, chunks, a)
    && forall i, g :: Wants(norm, gold, chunks, i, g) && (a[i].None? || g < a[i].value) ==> g in Used(a)
  }

  lemma GreedyIsGreedily(norm: Norm, gold: seq<Gold>, chunks: seq<Chunk>)
    ensures Greedily(norm, gold, chunks, Greedy(norm, gold, AllGold(gold), chunks))
  {
    var a := Greedy(norm, gold, AllGold(gold), chunks);
    GreedyMatches(norm, gold, AllGold(gold), chunks);
    GreedyTakesLowest(norm, gold, AllGold(gold), chunks);
    forall i, g | Wants(norm, gold, chunks, i, g) && (a[i].None? || g < a[i].value) ensures g in Used(a) {
      UsedGrows(a, i);
    }
  }

  /** A chunk that nothing is left for: all it wants is used, and something else wants each of it. */
  ghost predicate Stuck(norm: Norm, gold: seq<Gold>, chunks: seq<Chunk>, a: Assignment, i: int) {
    && 0 <= i < |chunks| && !Secure(norm, gold, chunks, i)
    && forall g :: Wants(norm, gold, chunks, i, g) ==> g in Used(a)
  }

  lemma ExclusiveIsTaken(norm: Norm, gold: seq<Gold>, chunks: seq<Chunk>, a: Assignment, i: int, e: int)
    requires Greedily(norm, gold, chunks, a) && Exclusive(norm, gold, chunks, i, e)
    ensures a[i].Some? && a[i].value <= e
  {
    if a[i].None? || e < a[i].value {
      var k :| 0 <= k < |a| && a[k].Some? && a[k].value == e;
      assert Wants(norm, gold, chunks, k, e);
    }
  }

  lemma UnmatchedIsStuck(norm: Norm, gold: seq<Gold>, chunks: seq<Chunk>, a: Assignment, i: int)
    requires Greedily(norm, gold, chunks, a) && 0 <= i < |chunks| && a[i].None?
    ensures Stuck(norm, gold, chunks, a, i)
  {
    if Secure(norm, gold, chunks, i) {
      var e :| Exclusive(norm, gold, chunks, i, e);
      ExclusiveIsTaken(norm, gold, chunks, a, i, e);
    }
  }

  /** Whoever holds what a stuck chunk wants is stuck too. */
  lemma StuckSpreads(norm: Norm, gold: seq<Gold>, chunks: seq<Chunk>, a: Assignment, i: int, k: int)
    requires Greedily(norm, gold, chunks, a) && Peaceful(norm, gold, chunks) && Stuck(norm, gold, chunks, a, i)
    requires 0 <= k < |a| && a[k].Some? && Wants(norm, gold, chunks, i, a[k].value)
    ensures Stuck(norm, gold, chunks, a, k)
  {
    var g := a[k].value;
    assert Wants(norm, gold, chunks, k, g);
    if i != k {
      assert !SecureBelow(norm, gold, chunks, k, g) by {
        if SecureBelow(norm, gold, chunks, k, g) {
          var e :| e < g && Exclusive(norm, gold, chunks, k, e);
          ExclusiveIsTaken(norm, gold, chunks, a, k, e);
        }
      }
      forall h | Wants(norm, gold, chunks, k, h) ensures h in Used(a) && !Exclusive(norm, gold, chunks, k, h) {
        if h > g { assert Rivals(norm, gold, chunks, k, i, g, h); } else if h == g { assert g in Used(a); }
      }
    }
  }

  /** Where the ranking is peaceful, greedy matching is largest. */
  lemma GreedyIsLargest(norm: Norm, gold: seq<Gold>, chunks: seq<Chunk>)
    requires Peaceful(norm, gold, chunks)
    ensures Largest(norm, gold, chunks)
  {
    var a := Greedy(norm, gold, AllGold(gold), chunks);
    GreedyIsGreedily(norm, gold, chunks);
    var stuck := set i: nat | i < |chunks| && Stuck(norm, gold, chunks, a, i);
    forall b: Assignment | Matching(norm, gold, chunks, b) ensures Hits(b) <= Hits(a) {
      forall i | i in stuck * HitSet(b) ensures b[i].value in Image(a, stuck * HitSet(a)) {
        var g := b[i].value;
        assert Wants(norm, gold, chunks, i, g);
        var k :| 0 <= k < |a| && a[k].Some? && a[k].value == g;
        StuckSpreads(norm, gold, chunks, a, i, k);
        assert k in stuck * HitSet(a);
      }
      forall i | i in HitSet(b) - stuck ensures i in HitSet(a) {
        if a[i].None? { UnmatchedIsStuck(norm, gold, chunks, a, i); }
      }
      StuckBound(a, b, stuck);
    }
  }

  lemma StuckBound(a: Assignment, b: Assignment, stuck: set<nat>)
    requires forall i, j :: 0 <= i < j < |a| && a[i].Some? && a[j].Some? ==> a[i] != a[j]
    requires forall i, j :: 0 <= i < j < |b| && b[i].Some? && b[j].Some? ==> b[i] != b[j]
    requires forall i :: i in stuck * HitSet(b) ==> b[i].value in Image(a, stuck * HitSet(a))
    requires HitSet(b) - stuck <= HitSet(a)
    ensures Hits(b) <= Hits(a)
  {
    ImageCount(a, stuck * HitSet(a));
    ImageCount(b, stuck * HitSet(b));
    SubsetCount(Image(b, stuck * HitSet(b)), Image(a, stuck * HitSet(a)));
    SubsetCount(HitSet(b) - stuck, HitSet(a) - stuck);
    Parts(HitSet(a), stuck);
    Parts(HitSet(b), stuck);
  }

  lemma Parts(s: set<nat>, t: set<nat>)
    ensures |s| == |t * s| + |s - t|
  {
    assert s == (t * s) + (s - t);
  }

  // ---------- Admitted inputs ----------

  /** Gold chunks have a key, and neither hashes nor ids as written are shared. */
  ghost predicate GoldOk(gold: seq<Gold>) {
    && (forall g :: 0 <= g < |gold| ==> gold[g].id.Some? || gold[g].hash.Some?)
    && forall g, h :: 0 <= g < h < |gold| ==>
         && (gold[g].id.Some? ==> gold[g].id != gold[h].id)
         && (gold[g].hash.Some? ==> gold[g].hash != gold[h].hash)
  }

  /** A ranking: ranks rise from at least 1, every chunk has a key, and hashes and ids as written are not shared. */
  ghost predicate RankingOk(chunks: seq<Chunk>) {
    && ByRank(chunks) && Positive(chunks)
    && (forall i :: 0 <= i < |chunks| ==> chunks[i].id.Some? || chunks[i].hash.Some?)
    && forall i, j :: 0 <= i < j < |chunks| ==>
         && (chunks[i].id.Some? ==> chunks[i].id != chunks[j].id)
         && (chunks[i].hash.Some? ==> chunks[i].hash != chunks[j].hash)
  }

  ghost predicate SameId(norm: Norm, a: Option<string>, b: Option<string>) {
    a.Some? && b.Some? && norm(a.value) == norm(b.value)
  }

  /** No two ids of the ranking are the same once normalised. */
  ghost predicate NoAliases(norm: Norm, chunks: seq<Chunk>) {
    forall i, j :: 0 <= i < j < |chunks| ==> !SameId(norm, chunks[i].id, chunks[j].id)
  }

  // ---------- Rankings without aliases ----------

  /** Some gold chunk before n has this id. */
  ghost predicate IdBefore(norm: Norm, gold: seq<Gold>, n: nat, id: Option<string>) {
    exists k :: 0 <= k < n && k < |gold| && SameId(norm, gold[k].id, id)
  }

  /** g has both keys and is the first with its id, and h offers another way: a hash, or an id that none before g has. */
  ghost predicate Contested(norm: Norm, gold: seq<Gold>, g: int, h: int) {
    && 0 <= g < h < |gold| && gold[g].id.Some? && gold[g].hash.Some? && !IdBefore(norm, gold, g, gold[g].id)
    && (gold[h].hash.Some? || !IdBefore(norm, gold, g, gold[h].id))
  }

  /** The first gold chunk with an id that some gold chunk before n has. */
  lemma {:induction false} FirstWithId(norm: Norm, gold: seq<Gold>, n: nat, id: Option<string>) returns (e: nat)
    requires IdBefore(norm, gold, n, id)
    ensures e < n && e < |gold| && SameId(norm, gold[e].id, id) && !IdBefore(norm, gold, e, id)
    decreases n
  {
    e :| 0 <= e < n && e < |gold| && SameId(norm, gold[e].id, id);
    if IdBefore(norm, gold, e, id) { e := FirstWithId(norm, gold, e, id); }
  }

  /** Where nothing is contested, the first gold chunk with an id belongs to the chunk with that id alone,
      if a later gold chunk has a hash or that id as well. */
  lemma FirstIsExclusive(norm: Norm, gold: seq<Gold>, chunks: seq<Chunk>, i: int, e: nat, h: nat)
    requires RankingOk(chunks) && NoAliases(norm, chunks) && !Contested(norm, gold, e, h)
    requires 0 <= i < |chunks| && e < h < |gold| && SameId(norm, gold[e].id, chunks[i].id)
    requires !IdBefore(norm, gold, e, gold[e].id) && (gold[h].hash.Some? || !IdBefore(norm, gold, e, gold[h].id))
    ensures Exclusive(norm, gold, chunks, i, e)
  {
    forall j | j != i ensures !Wants(norm, gold, chunks, j, e) { }
  }

  lemma UncontestedYields(norm: Norm, gold: seq<Gold>, chunks: seq<Chunk>, i: int, j: int, g: int, h: int)
    requires GoldOk(gold) && RankingOk(chunks) && NoAliases(norm, chunks)
    requires forall x, y :: !Contested(norm, gold, x, y)
    requires Rivals(norm, gold, chunks, i, j, g, h)
    ensures Yields(norm, gold, chunks, i, j, g, h)
  {
    OneByHash(norm, gold, chunks, i, j, g);
    assert !Contested(norm, gold, g, h);
    if SameId(norm, gold[g].id, chunks[i].id) {
      if IdBefore(norm, gold, g, gold[g].id) {
        var e := FirstWithId(norm, gold, g, gold[g].id);
        FirstIsExclusive(norm, gold, chunks, i, e, g);
      }
    } else {
      assert SameId(norm, gold[h].id, chunks[i].id);
      if IdBefore(norm, gold, g, gold[h].id) {
        var e := FirstWithId(norm, gold, g, gold[h].id);
        FirstIsExclusive(norm, gold, chunks, i, e, h);
      } else if IdBefore(norm, gold, g, gold[g].id) {
        var e := FirstWithId(norm, gold, g, gold[g].id);
        FirstIsExclusive(norm, gold, chunks, j, e, g);
      }
    }
  }

  /** Two chunks that want the same gold chunk want it by different keys. */
  lemma OneByHash(norm: Norm, gold: seq<Gold>, chunks: seq<Chunk>, i: int, j: int, g: int)
    requires RankingOk(chunks) && NoAliases(norm, chunks)
    requires i != j && Wants(norm, gold, chunks, i, g) && Wants(norm, gold, chunks, j, g)
    ensures gold[g].id.Some? && gold[g].hash.Some?
    ensures SameId(norm, gold[g].id, chunks[i].id) <==> !SameId(norm, gold[g].id, chunks[j].id)
    ensures SameId(norm, gold[g].id, chunks[i].id) <==> gold[g].hash != chunks[i].hash
  {
    if i < j {
      assert !SameId(norm, chunks[i].id, chunks[j].id);
    } else {
      assert !SameId(norm, chunks[j].id, chunks[i].id);
    }
  }

  // ---------- Where greedy loses ----------

  /** Of two chunks the first wants g before anything else, and h, and the second wants g alone. */
  ghost predicate Trap(norm: Norm, gold: seq<Gold>, chunks: seq<Chunk>, g: nat, h: nat) {
    && |chunks| == 2 && g < h < |gold| && Matches(norm, gold[g], chunks[0]) && Matches(norm, gold[h], chunks[0])
    && (forall k :: 0 <= k < g ==> !Matches(norm, gold[k], chunks[0]))
    && (forall k :: 0 <= k < |gold| ==> (Matches(norm, gold[k], chunks[1]) <==> k == g))
  }

  /** In a trap greedy matches one chunk and a largest matching both, so half is the best bound. */
  lemma TrapLoses(norm: Norm, gold: seq<Gold>, chunks: seq<Chunk>, g: nat, h: nat)
    requires Trap(norm, gold, chunks, g, h)
    ensures Hits(Greedy(norm, gold, AllGold(gold), chunks)) == 1
    ensures Hits([Some(h), Some(g)]) == 2 && Beats(norm, gold, chunks, [Some(h), Some(g)])
  {
    var b: Assignment := [Some(h), Some(g)];
    TrapGreedy(norm, gold, chunks, g, h);
    assert HitSet([Some(g), None]) == {0};
    assert HitSet(b) == {0, 1};
    assert Matching(norm, gold, chunks, b);
  }

  lemma TrapGreedy(norm: Norm, gold: seq<Gold>, chunks: seq<Chunk>, g: nat, h: nat)
    requires Trap(norm, gold, chunks, g, h)
    ensures Greedy(norm, gold, AllGold(gold), chunks) == [Some(g), None]
  {
    var free := AllGold(gold);
    var first := FirstFree(norm, gold, free, chunks[0], 0);
    assert g in free && first == Some(g);
    var left := free - {g};
    assert FirstFree(norm, gold, left, chunks[1], 0) == None;
    assert chunks[1..] == [chunks[1]] && chunks[1..][1..] == [];
    assert Greedy(norm, gold, left, chunks[1..]) == [None];
  }

  /** Two chunks as a ranking. */
  ghost predicate PairOk(norm: Norm, chunks: seq<Chunk>) { |chunks| == 2 && RankingOk(chunks) && NoAliases(norm, chunks) }

  /** A contested gold chunk sets a trap that no alias is needed for. */
  lemma ContestTraps(norm: Norm, gold: seq<Gold>, g: nat, h: nat) returns (chunks: seq<Chunk>, x: nat)
    requires GoldOk(gold) && Contested(norm, gold, g, h)
    ensures PairOk(norm, chunks) && Trap(norm, gold, chunks, g, x)
  {
    if gold[h].hash.Some? {
      x, chunks := h, [Chunk(1, gold[g].id, gold[h].hash), Chunk(2, None, gold[g].hash)];
      HashTraps(norm, gold, g, h, chunks);
    } else if y :| 0 <= y < |gold| && y != g && SameId(norm, gold[y].id, gold[g].id) {
      assert !IdBefore(norm, gold, g, gold[g].id);
      x, chunks := y, [Chunk(1, gold[g].id, gold[y].hash), Chunk(2, None, gold[g].hash)];
      HashTraps(norm, gold, g, y, chunks);
    } else {
      x, chunks := h, [Chunk(1, gold[h].id, gold[g].hash), Chunk(2, gold[g].id, None)];
      IdTraps(norm, gold, g, h, chunks);
    }
  }

  lemma HashTraps(norm: Norm, gold: seq<Gold>, g: nat, x: nat, chunks: seq<Chunk>)
    requires GoldOk(gold) && g < x < |gold| && gold[g].id.Some? && gold[g].hash.Some? && !IdBefore(norm, gold, g, gold[g].id)
    requires SameId(norm, gold[x].id, gold[g].id) || gold[x].hash.Some?
    requires chunks == [Chunk(1, gold[g].id, gold[x].hash), Chunk(2, None, gold[g].hash)]
    ensures PairOk(norm, chunks) && Trap(norm, gold, chunks, g, x)
  {
    forall k | 0 <= k < g ensures !Matches(norm, gold[k], chunks[0]) { assert !SameId(norm, gold[k].id, gold[g].id); }
  }

  lemma IdTraps(norm: Norm, gold: seq<Gold>, g: nat, h: nat, chunks: seq<Chunk>)
    requires GoldOk(gold) && g < h < |gold| && gold[g].id.Some? && gold[g].hash.Some? && gold[h].id.Some?
    requires !IdBefore(norm, gold, g, gold[h].id)
    requires forall y :: 0 <= y < |gold| && y != g ==> !SameId(norm, gold[y].id, gold[g].id)
    requires chunks == [Chunk(1, gold[h].id, gold[g].hash), Chunk(2, gold[g].id, None)]
    ensures PairOk(norm, chunks) && Trap(norm, gold, chunks, g, h)
  {
    assert !SameId(norm, gold[h].id, gold[g].id);
    forall k | 0 <= k < g ensures !Matches(norm, gold[k], chunks[0]) { assert !SameId(norm, gold[k].id, gold[h].id); }
  }

  // ---------- Rankings with aliases ----------

  /** g has an id and h offers a chunk with that id another way; or g has both keys, so that two kinds of chunk want it. */
  ghost predicate Disputed(norm: Norm, gold: seq<Gold>, g: int, h: int) {
    && 0 <= g < h < |gold| && gold[g].id.Some?
    && (gold[g].hash.Some? || (gold[h].hash.Some? && !SameId(norm, gold[g].id, gold[h].id)))
  }

  lemma UndisputedYields(norm: Norm, gold: seq<Gold>, chunks: seq<Chunk>, i: int, j: int, g: int, h: int)
    requires RankingOk(chunks) && !Disputed(norm, gold, g, h)
    requires Rivals(norm, gold, chunks, i, j, g, h)
    ensures Wants(norm, gold, chunks, j, h)
  {
    assert gold[g].id.Some?;
  }

  /** The gold chunks before n with this id. */
  ghost function ClassOf(norm: Norm, gold: seq<Gold>, n: nat, id: Option<string>): (c: seq<nat>)
    requires n <= |gold|
    ensures forall k: nat :: k in c <==> k < n && SameId(norm, gold[k].id, id)
    ensures Distinct(c)
  {
    if n == 0 then []
    else
      var c := ClassOf(norm, gold, n - 1, id);
      if SameId(norm, gold[n - 1].id, id) then
        DistinctAdd(c, n - 1);
        c + [n - 1]
      else c
  }

  ghost predicate Distinct(c: seq<nat>) { forall s, t :: 0 <= s < t < |c| ==> c[s] != c[t] }

  lemma DistinctAdd(c: seq<nat>, k: nat)
    requires Distinct(c) && k !in c
    ensures Distinct(c + [k])
  {
    forall s, t | 0 <= s < t < |c + [k]| ensures (c + [k])[s] != (c + [k])[t] { assert c[s] in c; }
  }

  function Elems(c: seq<nat>): set<nat> { set k | k in c }

  lemma {:induction false} ElemsCount(c: seq<nat>)
    requires Distinct(c)
    ensures |Elems(c)| == |c|
  {
    if c != [] {
      var n := |c| - 1;
      var front := c[..n];
      ElemsCount(front);
      assert c == front + [c[n]];
      assert Elems(c) == Elems(front) + {c[n]};
      assert c[n] !in front;
    }
  }

  /** One chunk for each of these gold chunks, spelling its id as the gold chunk does. */
  ghost function Spelled(gold: seq<Gold>, c: seq<nat>, rank: nat): (chunks: seq<Chunk>)
    requires forall t :: 0 <= t < |c| ==> c[t] < |gold|
    ensures |chunks| == |c| && forall t :: 0 <= t < |c| ==> chunks[t] == Chunk(rank + t, gold[c[t]].id, None)
  {
    seq(|c|, t requires 0 <= t < |c| => Chunk(rank + t, gold[c[t]].id, None))
  }

  function Own(c: seq<nat>): (b: Assignment)
    ensures |b| == |c| && forall t :: 0 <= t < |c| ==> b[t] == Some(c[t])
  {
    seq(|c|, t requires 0 <= t < |c| => Some(c[t]))
  }

  /** The members of a class among the gold chunks. */
  ghost predicate Members(norm: Norm, gold: seq<Gold>, id: Option<string>, c: seq<nat>) {
    && Distinct(c) && (forall t :: 0 <= t < |c| ==> c[t] < |gold| && SameId(norm, gold[c[t]].id, id))
    && forall k: nat :: k < |gold| && SameId(norm, gold[k].id, id) ==> k in c
  }

  lemma ClassMembers(norm: Norm, gold: seq<Gold>, id: Option<string>)
    ensures Members(norm, gold, id, ClassOf(norm, gold, |gold|, id))
  {
    var c := ClassOf(norm, gold, |gold|, id);
    forall t | 0 <= t < |c| ensures c[t] < |gold| && SameId(norm, gold[c[t]].id, id) { assert c[t] in c; }
  }

  lemma OwnMatching(norm: Norm, gold: seq<Gold>, id: Option<string>, c: seq<nat>, rank: nat)
    requires Members(norm, gold, id, c)
    ensures Matching(norm, gold, Spelled(gold, c, rank), Own(c)) && Used(Own(c)) == Elems(c) && Hits(Own(c)) == |c|
  {
    var chunks, b := Spelled(gold, c, rank), Own(c);
    forall k | k in Elems(c) ensures k in Used(b) {
      var t :| 0 <= t < |c| && c[t] == k;
      assert b[t].Some? && b[t].value == k;
    }
    OwnHits(c);
  }

  /** A chunk that takes a member of the class although it wants a gold chunk outside as well leaves one of the
      following chunks, as many as the class has members, without any. */
  lemma CrowdLoses(norm: Norm, gold: seq<Gold>, first: Chunk, id: Option<string>, c: seq<nat>, h: nat, chunks: seq<Chunk>)
    returns (b: Assignment)
    requires Members(norm, gold, id, c) && h < |gold| && Matches(norm, gold[h], first) && h !in c
    requires var f := FirstFree(norm, gold, AllGold(gold), first, 0); f.Some? && f.value in c
    requires chunks == [first] + Spelled(gold, c, 2)
    ensures Beats(norm, gold, chunks, b)
  {
    CrowdMatching(norm, gold, first, id, c, h);
    CrowdGreedy(norm, gold, first, id, c);
    b := [Some(h)] + Own(c);
  }

  lemma CrowdMatching(norm: Norm, gold: seq<Gold>, first: Chunk, id: Option<string>, c: seq<nat>, h: nat)
    requires Members(norm, gold, id, c) && h < |gold| && Matches(norm, gold[h], first) && h !in c
    ensures var b := [Some(h)] + Own(c); Matching(norm, gold, [first] + Spelled(gold, c, 2), b) && Hits(b) == |c| + 1
  {
    var crowd := Spelled(gold, c, 2);
    OwnMatching(norm, gold, id, c, 2);
    assert ([first] + crowd)[1..] == crowd;
    MatchingCons(norm, gold, [first] + crowd, Some(h), Own(c));
    HitsMore(Some(h), Own(c));
  }

  lemma CrowdGreedy(norm: Norm, gold: seq<Gold>, first: Chunk, id: Option<string>, c: seq<nat>)
    requires Members(norm, gold, id, c)
    requires var f := FirstFree(norm, gold, AllGold(gold), first, 0); f.Some? && f.value in c
    ensures Hits(Greedy(norm, gold, AllGold(gold), [first] + Spelled(gold, c, 2))) <= |c|
  {
    var crowd := Spelled(gold, c, 2);
    var chunks := [first] + crowd;
    var a := Greedy(norm, gold, AllGold(gold), chunks);
    GreedyMatches(norm, gold, AllGold(gold), chunks);
    forall i | 0 <= i < |a| && a[i].Some? ensures a[i].value in c {
      if i > 0 { assert chunks[i] == crowd[i - 1]; }
    }
    UsedCount(norm, gold, chunks, a);
    UsedWithin(a, c);
  }

  lemma UsedWithin(a: Assignment, c: seq<nat>)
    requires Distinct(c) && forall i :: 0 <= i < |a| && a[i].Some? ==> a[i].value in c
    ensures |Used(a)| <= |c|
  {
    ElemsCount(c);
    SubsetCount(Used(a), Elems(c));
  }

  lemma HitsMore(m: Option<nat>, rest: Assignment)
    requires m.Some? && Hits(rest) == |rest|
    ensures Hits([m] + rest) == |rest| + 1
  {
    SubsetIsAll(rest);
    assert HitSet([m] + rest) == Below(|rest| + 1) by {
      forall i: nat | i < |rest| + 1 ensures ([m] + rest)[i].Some? {
        if i > 0 { assert i - 1 in Below(|rest|) && i - 1 in HitSet(rest); }
      }
    }
  }

  lemma SubsetIsAll(rest: Assignment)
    requires Hits(rest) == |rest|
    ensures HitSet(rest) == Below(|rest|)
  {
    SubsetDifference(Below(|rest|), HitSet(rest));
  }

  /** When a gold chunk with both keys is not the last of its class, other chunks of the class take it before the one
      with its hash comes: the ranking is one chunk for each other member, and then that one. */
  lemma QueueLoses(norm: Norm, gold: seq<Gold>, id: Option<string>, c: seq<nat>, g: nat, h: nat, chunks: seq<Chunk>)
    returns (b: Assignment)
    requires Queue(norm, gold, id, c, g, chunks) && g < h && h in c
    ensures Beats(norm, gold, chunks, b)
  {
    QueueMatching(norm, gold, id, c, g, chunks);
    QueueGreedy(norm, gold, id, c, g, h, chunks);
    b := Own(c + [g]);
  }

  ghost predicate Queue(norm: Norm, gold: seq<Gold>, id: Option<string>, c: seq<nat>, g: nat, chunks: seq<Chunk>) {
    && GoldOk(gold) && g < |gold| && gold[g].hash.Some? && SameId(norm, gold[g].id, id)
    && Distinct(c) && g !in c
    && (forall t :: 0 <= t < |c| ==> c[t] < |gold| && SameId(norm, gold[c[t]].id, id))
    && (forall k: nat :: k < |gold| && SameId(norm, gold[k].id, id) ==> k in c || k == g)
    && |chunks| == |c| + 1 && chunks[|c|].id.None? && chunks[|c|].hash == gold[g].hash
    && forall t :: 0 <= t < |c| ==> chunks[t].id == gold[c[t]].id && chunks[t].hash.None?
  }

  lemma QueueMatching(norm: Norm, gold: seq<Gold>, id: Option<string>, c: seq<nat>, g: nat, chunks: seq<Chunk>)
    requires Queue(norm, gold, id, c, g, chunks)
    ensures Matching(norm, gold, chunks, Own(c + [g])) && Hits(Own(c + [g])) == |c| + 1
  {
    var all := c + [g];
    DistinctAdd(c, g);
    OwnHits(all);
    forall i | 0 <= i < |all| ensures all[i] < |gold| && Matches(norm, gold[all[i]], chunks[i]) {
      if i < |c| { assert all[i] == c[i]; } else { assert all[i] == g; }
    }
  }

  lemma OwnHits(c: seq<nat>)
    ensures Hits(Own(c)) == |c|
  {
    assert HitSet(Own(c)) == Below(|c|);
  }

  lemma QueueGreedy(norm: Norm, gold: seq<Gold>, id: Option<string>, c: seq<nat>, g: nat, h: nat, chunks: seq<Chunk>)
    requires Queue(norm, gold, id, c, g, chunks) && g < h && h in c
    ensures Hits(Greedy(norm, gold, AllGold(gold), chunks)) <= |c|
  {
    var a := Greedy(norm, gold, AllGold(gold), chunks);
    GreedyMatches(norm, gold, AllGold(gold), chunks);
    GreedyTakesLowest(norm, gold, AllGold(gold), chunks);
    TooFewBelow(norm, gold, id, c, g, h, chunks, a);
    LastIsUnmatched(norm, gold, id, c, g, chunks, a);
    SubsetCount(HitSet(a), Below(|c|));
  }

  lemma LastIsUnmatched(norm: Norm, gold: seq<Gold>, id: Option<string>, c: seq<nat>, g: nat, chunks: seq<Chunk>,
                        a: Assignment)
    requires Queue(norm, gold, id, c, g, chunks) && Matching(norm, gold, chunks, a) && g in Used(a[..|c|])
    ensures HitSet(a) <= Below(|c|)
  {
    TakenBefore(a, |c|, g);
    if a[|c|].Some? { HashNames(norm, gold, g, chunks[|c|], a[|c|].value); }
    AllBefore(a, |c|);
  }

  lemma AllBefore(a: Assignment, n: nat)
    requires |a| == n + 1 && a[n].None?
    ensures HitSet(a) <= Below(n)
  {
  }

  lemma HashNames(norm: Norm, gold: seq<Gold>, g: nat, last: Chunk, v: nat)
    requires GoldOk(gold) && g < |gold| && gold[g].hash.Some? && last.id.None? && last.hash == gold[g].hash
    requires v < |gold| && Matches(norm, gold[v], last)
    ensures v == g
  {
  }

  lemma TakenBefore(a: Assignment, n: nat, g: nat)
    requires n < |a| && g in Used(a[..n])
    requires forall i, j :: 0 <= i < j < |a| && a[i].Some? && a[j].Some? ==> a[i] != a[j]
    ensures a[n] != Some(g)
  {
    var i :| 0 <= i < n && a[..n][i].Some? && a[..n][i].value == g;
    assert a[i] == Some(g);
  }

  /** If g were left for the last chunk, the others would all hold lower members, of which there are too few. */
  lemma TooFewBelow(norm: Norm, gold: seq<Gold>, id: Option<string>, c: seq<nat>, g: nat, h: nat, chunks: seq<Chunk>,
                    a: Assignment)
    requires Queue(norm, gold, id, c, g, chunks) && g < h && h in c
    requires Matching(norm, gold, chunks, a) && Maximal(norm, gold, AllGold(gold), chunks, a)
    requires Lowest(norm, gold, AllGold(gold), chunks, a)
    ensures g in Used(a[..|c|])
  {
    if g !in Used(a[..|c|]) {
      var front := a[..|c|];
      forall i | 0 <= i < |c| ensures front[i].Some? && front[i].value in Elems(c) - {h} {
        MemberIsBelow(norm, gold, id, c, g, chunks, a, i);
      }
      HoldersCount(front, Elems(c) - {h});
      ElemsCount(c);
      assert false;
    }
  }

  lemma HoldersCount(front: Assignment, held: set<nat>)
    requires forall i :: 0 <= i < |front| ==> front[i].Some? && front[i].value in held
    requires forall i, j :: 0 <= i < j < |front| ==> front[i] != front[j]
    ensures |front| <= |held|
  {
    assert HitSet(front) == Below(|front|);
    ImageCount(front, HitSet(front));
    SubsetCount(Image(front, HitSet(front)), held);
  }

  lemma MemberIsBelow(norm: Norm, gold: seq<Gold>, id: Option<string>, c: seq<nat>, g: nat, chunks: seq<Chunk>,
                      a: Assignment, i: nat)
    requires Queue(norm, gold, id, c, g, chunks) && i < |c|
    requires Matching(norm, gold, chunks, a) && Maximal(norm, gold, AllGold(gold), chunks, a)
    requires Lowest(norm, gold, AllGold(gold), chunks, a) && g !in Used(a[..|c|])
    ensures a[i].Some? && a[i].value < g && a[i].value in c
  {
    var front := a[..|c|];
    assert Matches(norm, gold[g], chunks[i]);
    assert front[i] == a[i] && a[..i] == front[..i];
    UsedGrows(front, i);
  }

  // ---------- Exact conditions ----------

  ghost predicate AlwaysLargest(norm: Norm, gold: seq<Gold>, aliases: bool) {
    forall chunks :: RankingOk(chunks) && (aliases || NoAliases(norm, chunks)) ==> Largest(norm, gold, chunks)
  }

  lemma NotAlways(norm: Norm, gold: seq<Gold>, aliases: bool, chunks: seq<Chunk>, b: Assignment)
    requires RankingOk(chunks) && (aliases || NoAliases(norm, chunks)) && Beats(norm, gold, chunks, b)
    ensures !AlwaysLargest(norm, gold, aliases)
  {
    assert !Largest(norm, gold, chunks);
  }

  /** For rankings whose ids stay apart when normalised, greedy matching is always largest exactly when no gold chunk
      is contested. */
  lemma LargestExactly(norm: Norm, gold: seq<Gold>)
    requires GoldOk(gold)
    ensures AlwaysLargest(norm, gold, false) <==> !exists g, h :: Contested(norm, gold, g, h)
  {
    if g, h :| Contested(norm, gold, g, h) {
      var chunks, x := ContestTraps(norm, gold, g, h);
      TrapLoses(norm, gold, chunks, g, x);
      NotAlways(norm, gold, false, chunks, [Some(x), Some(g)]);
    } else {
      forall chunks | RankingOk(chunks) && NoAliases(norm, chunks) ensures Largest(norm, gold, chunks) {
        forall i, j, g, h | Rivals(norm, gold, chunks, i, j, g, h)
          ensures Yields(norm, gold, chunks, i, j, g, h)
        {
          UncontestedYields(norm, gold, chunks, i, j, g, h);
        }
        GreedyIsLargest(norm, gold, chunks);
      }
    }
  }

  /** Every gold chunk before the last has one key only. */
  ghost predicate OneKeyBeforeLast(gold: seq<Gold>) {
    forall g :: 0 <= g < |gold| - 1 ==> gold[g].id.None? || gold[g].hash.None?
  }

  /** When the gold ids stay apart as well, that is when no gold chunk before the last has both an id and a hash. */
  lemma LargestWithDistinctGold(norm: Norm, gold: seq<Gold>)
    requires GoldOk(gold) && forall g, h :: 0 <= g < h < |gold| ==> !SameId(norm, gold[g].id, gold[h].id)
    ensures AlwaysLargest(norm, gold, false) <==> OneKeyBeforeLast(gold)
  {
    LargestExactly(norm, gold);
    if !OneKeyBeforeLast(gold) {
      var g :| 0 <= g < |gold| - 1 && gold[g].id.Some? && gold[g].hash.Some?;
      assert Contested(norm, gold, g, |gold| - 1);
    }
  }

  /** alias gives every gold id a further spelling with the same normal form, such as one with another version prefix. */
  ghost predicate Aliased(norm: Norm, alias: Norm, gold: seq<Gold>) {
    forall g :: 0 <= g < |gold| && gold[g].id.Some? ==>
      && norm(alias(gold[g].id.value)) == norm(gold[g].id.value)
      && forall h :: 0 <= h < |gold| ==> gold[h].id != Some(alias(gold[g].id.value))
  }

  /** For all admitted rankings, where two ids may become one when normalised, greedy matching is always largest
      exactly when no gold chunk is disputed. */
  lemma LargestExactlyWithAliases(norm: Norm, alias: Norm, gold: seq<Gold>)
    requires GoldOk(gold) && Aliased(norm, alias, gold)
    ensures AlwaysLargest(norm, gold, true) <==> !exists g, h :: Disputed(norm, gold, g, h)
  {
    if g, h :| Disputed(norm, gold, g, h) {
      var chunks, b := DisputeLoses(norm, alias, gold, g, h);
      NotAlways(norm, gold, true, chunks, b);
    } else {
      forall chunks | RankingOk(chunks) ensures Largest(norm, gold, chunks) {
        forall i, j, g, h | Rivals(norm, gold, chunks, i, j, g, h)
          ensures Yields(norm, gold, chunks, i, j, g, h)
        {
          UndisputedYields(norm, gold, chunks, i, j, g, h);
        }
        GreedyIsLargest(norm, gold, chunks);
      }
    }
  }

  lemma DisputeLoses(norm: Norm, alias: Norm, gold: seq<Gold>, g: nat, h: nat) returns (chunks: seq<Chunk>, b: Assignment)
    requires GoldOk(gold) && Aliased(norm, alias, gold) && Disputed(norm, gold, g, h)
    ensures RankingOk(chunks) && Beats(norm, gold, chunks, b)
  {
    if gold[h].hash.Some? && !SameId(norm, gold[g].id, gold[h].id) {
      chunks, b := AliasCrowd(norm, alias, gold, g, h);
    } else if SameId(norm, gold[g].id, gold[h].id) {
      chunks, b := HashQueue(norm, gold, g, h);
    } else if k :| 0 <= k < g && SameId(norm, gold[k].id, gold[h].id) {
      chunks, b := AliasCrowd(norm, alias, gold, k, g);
    } else {
      chunks, b := HashCrowd(norm, gold, g, h);
    }
  }

  /** Chunks with the id of g in every spelling the gold list has and in one more, which has the hash of h. */
  lemma AliasCrowd(norm: Norm, alias: Norm, gold: seq<Gold>, g: nat, h: nat) returns (chunks: seq<Chunk>, b: Assignment)
    requires GoldOk(gold) && Aliased(norm, alias, gold) && g < h < |gold|
    requires gold[g].id.Some? && gold[h].hash.Some? && !SameId(norm, gold[g].id, gold[h].id)
    ensures RankingOk(chunks) && Beats(norm, gold, chunks, b)
  {
    var id, c := gold[g].id, ClassOf(norm, gold, |gold|, gold[g].id);
    var first := Chunk(1, Some(alias(id.value)), gold[h].hash);
    ClassMembers(norm, gold, id);
    assert Matches(norm, gold[g], first) && g in AllGold(gold);
    chunks := [first] + Spelled(gold, c, 2);
    CrowdOk(gold, first, c, chunks);
    b := CrowdLoses(norm, gold, first, id, c, h, chunks);
  }

  /** A chunk with the hash of g and the id of h, and then chunks with the id of g. */
  lemma HashCrowd(norm: Norm, gold: seq<Gold>, g: nat, h: nat) returns (chunks: seq<Chunk>, b: Assignment)
    requires GoldOk(gold) && g < h < |gold| && gold[g].id.Some? && gold[g].hash.Some? && gold[h].id.Some?
    requires !SameId(norm, gold[g].id, gold[h].id) && forall k :: 0 <= k < g ==> !SameId(norm, gold[k].id, gold[h].id)
    ensures RankingOk(chunks) && Beats(norm, gold, chunks, b)
  {
    var id, c := gold[g].id, ClassOf(norm, gold, |gold|, gold[g].id);
    var first := Chunk(1, gold[h].id, gold[g].hash);
    ClassMembers(norm, gold, id);
    assert Matches(norm, gold[g], first) && g in AllGold(gold);
    chunks := [first] + Spelled(gold, c, 2);
    CrowdOk(gold, first, c, chunks);
    b := CrowdLoses(norm, gold, first, id, c, h, chunks);
  }

  lemma CrowdOk(gold: seq<Gold>, first: Chunk, c: seq<nat>, chunks: seq<Chunk>)
    requires GoldOk(gold) && Distinct(c) && (forall t :: 0 <= t < |c| ==> c[t] < |gold| && gold[c[t]].id.Some?)
    requires first.rank == 1 && first.id.Some? && forall t :: 0 <= t < |c| ==> gold[c[t]].id != first.id
    requires chunks == [first] + Spelled(gold, c, 2)
    ensures RankingOk(chunks)
  {
    var crowd := Spelled(gold, c, 2);
    forall i | 1 <= i < |chunks| ensures chunks[i] == crowd[i - 1] { }
    forall i, j | 0 <= i < j < |chunks| ensures chunks[i].id != chunks[j].id {
      if i > 0 { DistinctIds(gold, c, i - 1, j - 1); }
    }
  }

  lemma DistinctIds(gold: seq<Gold>, c: seq<nat>, s: nat, t: nat)
    requires GoldOk(gold) && Distinct(c) && s < t < |c| && c[s] < |gold| && c[t] < |gold| && gold[c[s]].id.Some?
    ensures gold[c[s]].id != gold[c[t]].id
  {
    if c[s] < c[t] {
      assert gold[c[s]].id != gold[c[t]].id;
    } else {
      assert c[t] < c[s] && (gold[c[t]].id.Some? ==> gold[c[t]].id != gold[c[s]].id);
    }
  }

  lemma HashQueue(norm: Norm, gold: seq<Gold>, g: nat, h: nat) returns (chunks: seq<Chunk>, b: Assignment)
    requires GoldOk(gold) && g < h < |gold| && gold[g].hash.Some? && SameId(norm, gold[g].id, gold[h].id)
    ensures RankingOk(chunks) && Beats(norm, gold, chunks, b)
  {
    var id := gold[g].id;
    var c := Without(ClassOf(norm, gold, |gold|, id), g);
    forall t | 0 <= t < |c| ensures c[t] < |gold| && SameId(norm, gold[c[t]].id, id) { assert c[t] in c; }
    chunks := Spelled(gold, c, 1) + [Chunk(|c| + 1, None, gold[g].hash)];
    QueueOk(gold, c, g, chunks);
    b := QueueLoses(norm, gold, id, c, g, h, chunks);
  }

  lemma QueueOk(gold: seq<Gold>, c: seq<nat>, g: nat, chunks: seq<Chunk>)
    requires GoldOk(gold) && Distinct(c) && (forall t :: 0 <= t < |c| ==> c[t] < |gold| && gold[c[t]].id.Some?)
    requires g < |gold| && gold[g].hash.Some? && chunks == Spelled(gold, c, 1) + [Chunk(|c| + 1, None, gold[g].hash)]
    ensures RankingOk(chunks)
  {
    forall i, j | 0 <= i < j < |chunks| ensures chunks[i].id != chunks[j].id {
      if j < |c| { DistinctIds(gold, c, i, j); }
    }
  }

  function Without(c: seq<nat>, g: nat): (r: seq<nat>)
    ensures forall k :: k in r <==> k in c && k != g
    ensures Distinct(c) ==> Distinct(r)
  {
    if c == [] then []
    else
      var n := |c| - 1;
      var r := Without(c[..n], g);
      assert c == c[..n] + [c[n]];
      if c[n] == g then r
      else
        assert Distinct(c) ==> c[n] !in c[..n];
        assert Distinct(c) ==> Distinct(r + [c[n]]) by { if Distinct(c) { DistinctAdd(r, c[n]); } }
        r + [c[n]]
  }
}
