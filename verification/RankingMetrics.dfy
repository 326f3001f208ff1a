/** Recall, precision, reciprocal rank and normalised discounted gain. */
module RankingMetrics {
  import opened Prelude
  import opened Ranking

  datatype Metrics = Metrics(recall: real, precision: real, mrr: real, ndcg: real)

  function Dcg(d: nat -> real, chunks: seq<Chunk>, a: Assignment): real
    requires |a| == |chunks|
  {
    if chunks == [] then 0.0
    else (if a[0].Some? then d(chunks[0].rank) else 0.0) + Dcg(d, chunks[1..], a[1..])
  }

  function IdealDcg(d: nat -> real, hits: nat): real {
    if hits == 0 then 0.0 else IdealDcg(d, hits - 1) + d(hits)
  }

  function FirstRank(chunks: seq<Chunk>, a: Assignment): Option<nat>
    requires |a| == |chunks|
  {
    if chunks == [] then None else if a[0].Some? then Some(chunks[0].rank) else FirstRank(chunks[1..], a[1..])
  }

  function Min(a: nat, b: nat): nat { if a < b then a else b }

  function RankingMetrics(norm: Norm, d: nat -> real, gold: seq<Gold>, chunks: seq<Chunk>, k: nat): Metrics
    requires gold != [] && k >= 1
  {
    var ranked := Ranked(chunks, k);
    var a := Greedy(norm, gold, AllGold(gold), ranked);
    GreedyMatches(norm, gold, AllGold(gold), ranked);
    var first := FirstRank(ranked, a);
    var ideal := IdealDcg(d, Min(|gold|, k));
    Metrics(Hits(a) as real / |gold| as real,
            Hits(a) as real / k as real,
            if first.None? || first.value == 0 then 0.0 else 1.0 / first.value as real,
            if ideal == 0.0 then 0.0 else Dcg(d, ranked, a) / ideal)
  }

  /** A discount: positive and never growing with the rank. */
  ghost predicate Discount(d: nat -> real) {
    && (forall r: nat :: d(r) > 0.0)
    && forall r: nat, s: nat :: 1 <= r <= s ==> d(s) <= d(r)
  }

  /** Ranks of the relevant chunks, in order. */
  function RelevantRanks(chunks: seq<Chunk>, a: Assignment): seq<nat>
    requires |a| == |chunks|
  {
    if chunks == [] then []
    else (if a[0].Some? then [chunks[0].rank] else []) + RelevantRanks(chunks[1..], a[1..])
  }

  function Gain(d: nat -> real, ranks: seq<nat>): real {
    if ranks == [] then 0.0 else Gain(d, ranks[..|ranks| - 1]) + d(ranks[|ranks| - 1])
  }

  lemma {:induction false} GainCons(d: nat -> real, r: nat, ranks: seq<nat>)
    ensures Gain(d, [r] + ranks) == d(r) + Gain(d, ranks)
  {
    var all := [r] + ranks;
    if ranks != [] {
      var front := ranks[..|ranks| - 1];
      GainCons(d, r, front);
      assert all[..|all| - 1] == [r] + front;
    } else {
      assert all[..0] == [];
    }
  }

  lemma {:induction false} DcgIsGain(d: nat -> real, chunks: seq<Chunk>, a: Assignment)
    requires |a| == |chunks|
    ensures Dcg(d, chunks, a) == Gain(d, RelevantRanks(chunks, a))
    decreases |chunks|
  {
    if chunks != [] {
      DcgIsGain(d, chunks[1..], a[1..]);
      var rest := RelevantRanks(chunks[1..], a[1..]);
      if a[0].Some? { GainCons(d, chunks[0].rank, rest); } else { assert [] + rest == rest; }
    }
  }

  /** The relevant ranks rise strictly from at least 1 and are as many as the hits. */
  ghost predicate RisesFrom(ranks: seq<nat>, low: nat) {
    forall j :: 0 <= j < |ranks| ==> ranks[j] >= low + j && (j > 0 ==> ranks[j - 1] < ranks[j])
  }

  lemma {:induction false} RelevantRise(chunks: seq<Chunk>, a: Assignment, low: nat)
    requires |a| == |chunks| && ByRank(chunks) && (chunks != [] ==> chunks[0].rank >= low)
    ensures RisesFrom(RelevantRanks(chunks, a), low)
    ensures |RelevantRanks(chunks, a)| == Hits(a) <= |chunks|
    decreases |chunks|
  {
    if chunks == [] {
      assert HitSet(a) == {};
    } else {
      var rest, tail := chunks[1..], a[1..];
      var next := chunks[0].rank + 1;
      if rest != [] { assert rest[0] == chunks[1]; }
      RelevantRise(rest, tail, next);
      HitsCons(a);
      var ranks, more := RelevantRanks(chunks, a), RelevantRanks(rest, tail);
      if a[0].Some? {
        forall j | 0 <= j < |ranks| ensures ranks[j] >= low + j && (j > 0 ==> ranks[j - 1] < ranks[j]) {
          if j > 0 { assert ranks[j] == more[j - 1]; }
          if j > 1 { assert ranks[j - 1] == more[j - 2]; }
        }
      } else {
        assert ranks == more;
      }
    }
  }

  lemma HitsCons(a: Assignment)
    requires a != []
    ensures Hits(a) == (if a[0].Some? then 1 else 0) + Hits(a[1..])
  {
    var shifted := Shifted(HitSet(a[1..]));
    ShiftCount(HitSet(a[1..]));
    HitSetCons(a);
    if a[0].Some? { assert 0 !in shifted && |shifted + {0}| == |shifted| + 1; } else { assert shifted + {} == shifted; }
  }

  lemma HitSetCons(a: Assignment)
    requires a != []
    ensures HitSet(a) == Shifted(HitSet(a[1..])) + if a[0].Some? then {0} else {}
  {
    var tail := HitSet(a[1..]);
    forall i | i in HitSet(a) && i > 0 ensures i in Shifted(tail) {
      assert a[1..][i - 1] == a[i];
      assert i - 1 in tail && Succ(i - 1) == i;
    }
    forall i | i in Shifted(tail) ensures i in HitSet(a) {
      assert a[1..][i - 1] == a[i];
    }
  }

  function Succ(i: nat): nat { i + 1 }

  function Shifted(s: set<nat>): set<nat> { set i | i in s :: Succ(i) }

  lemma {:induction false} ShiftCount(s: set<nat>)
    ensures |Shifted(s)| == |s|
  {
    if s != {} {
      var x :| x in s;
      ShiftCount(s - {x});
      assert Shifted(s) == Shifted(s - {x}) + {Succ(x)};
      assert Succ(x) !in Shifted(s - {x});
    } else {
      assert Shifted(s) == {};
    }
  }

  /** The gain of rising ranks is at most that of the first ranks, and of any longer ideal. */
  lemma {:induction false} GainBound(d: nat -> real, ranks: seq<nat>, n: nat)
    requires Discount(d) && RisesFrom(ranks, 1) && |ranks| <= n
    ensures 0.0 <= Gain(d, ranks) <= IdealDcg(d, n)
    ensures ranks != [] ==> Gain(d, ranks) > 0.0
    decreases n
  {
    if |ranks| < n {
      GainBound(d, ranks, n - 1);
    } else if ranks != [] {
      var last := |ranks| - 1;
      GainBound(d, ranks[..last], n - 1);
      assert ranks[last] >= n;
    }
  }

  lemma NdcgInRange(norm: Norm, d: nat -> real, gold: seq<Gold>, chunks: seq<Chunk>, k: nat)
    requires gold != [] && k >= 1 && ProperRanks(chunks) && Discount(d)
    ensures 0.0 <= RankingMetrics(norm, d, gold, chunks, k).ndcg <= 1.0
  {
    var ranked := Ranked(chunks, k);
    var a := Greedy(norm, gold, AllGold(gold), ranked);
    HitsBounded(norm, gold, chunks, k);
    DcgBounded(d, ranked, a, Min(|gold|, k));
    Ratio(Dcg(d, ranked, a), IdealDcg(d, Min(|gold|, k)));
  }

  lemma DcgBounded(d: nat -> real, ranked: seq<Chunk>, a: Assignment, n: nat)
    requires Discount(d) && |a| == |ranked| && n >= 1
    requires RisesFrom(RelevantRanks(ranked, a), 1) && |RelevantRanks(ranked, a)| <= n
    ensures 0.0 <= Dcg(d, ranked, a) <= IdealDcg(d, n) && IdealDcg(d, n) > 0.0
  {
    DcgIsGain(d, ranked, a);
    GainBound(d, RelevantRanks(ranked, a), n);
    GainBound(d, [], n - 1);
  }

  lemma MrrInRange(norm: Norm, d: nat -> real, gold: seq<Gold>, chunks: seq<Chunk>, k: nat)
    requires gold != [] && k >= 1 && ProperRanks(chunks)
    ensures 0.0 <= RankingMetrics(norm, d, gold, chunks, k).mrr <= 1.0
  {
    var ranked := Ranked(chunks, k);
    var a := Greedy(norm, gold, AllGold(gold), ranked);
    HitsBounded(norm, gold, chunks, k);
    FirstRankPositive(ranked, a);
    if FirstRank(ranked, a).Some? { Ratio(1.0, FirstRank(ranked, a).value as real); }
  }

  /** Every metric lies in [0, 1]. */
  lemma MetricsInRange(norm: Norm, d: nat -> real, gold: seq<Gold>, chunks: seq<Chunk>, k: nat)
    requires gold != [] && k >= 1 && ProperRanks(chunks) && Discount(d)
    ensures var m := RankingMetrics(norm, d, gold, chunks, k);
            && 0.0 <= m.recall <= 1.0 && 0.0 <= m.precision <= 1.0
            && 0.0 <= m.mrr <= 1.0 && 0.0 <= m.ndcg <= 1.0
  {
    var a := Greedy(norm, gold, AllGold(gold), Ranked(chunks, k));
    HitsBounded(norm, gold, chunks, k);
    Ratio(Hits(a) as real, |gold| as real);
    Ratio(Hits(a) as real, k as real);
    MrrInRange(norm, d, gold, chunks, k);
    NdcgInRange(norm, d, gold, chunks, k);
  }

  lemma Ratio(x: real, y: real)
    requires 0.0 <= x <= y && y > 0.0
    ensures 0.0 <= x / y <= 1.0
  {
    assert x / y * y == x;
  }

  /** At most as many hits as gold chunks and as ranks up to k. */
  lemma HitsBounded(norm: Norm, gold: seq<Gold>, chunks: seq<Chunk>, k: nat)
    requires ProperRanks(chunks)
    ensures var ranked := Ranked(chunks, k);
            var a := Greedy(norm, gold, AllGold(gold), ranked);
            && |a| == |ranked| && Hits(a) <= Min(|gold|, k) && Positive(ranked)
            && RisesFrom(RelevantRanks(ranked, a), 1) && |RelevantRanks(ranked, a)| == Hits(a)
  {
    var ranked := Ranked(chunks, k);
    var a := Greedy(norm, gold, AllGold(gold), ranked);
    RankedFacts(chunks, k);
    GreedyMatches(norm, gold, AllGold(gold), ranked);
    UsedCount(norm, gold, ranked, a);
    SubsetCount(Used(a), AllGold(gold));
    RelevantRise(ranked, a, 1);
    RankAbove(ranked, |ranked|);
  }

  lemma {:induction false} RankAbove(s: seq<Chunk>, n: nat)
    requires ByRank(s) && Positive(s) && n <= |s|
    ensures n > 0 ==> s[n - 1].rank >= n
  {
    if n > 1 { RankAbove(s, n - 1); }
  }

  lemma {:induction false} FirstRankPositive(chunks: seq<Chunk>, a: Assignment)
    requires |a| == |chunks| && Positive(chunks)
    ensures FirstRank(chunks, a).Some? ==> FirstRank(chunks, a).value >= 1
    decreases |chunks|
  {
    if chunks != [] { FirstRankPositive(chunks[1..], a[1..]); }
  }

  /** The reciprocal rank is taken at the best relevant rank, and is zero exactly when nothing is relevant. */
  lemma {:induction false} FirstRankIsBest(chunks: seq<Chunk>, a: Assignment)
    requires |a| == |chunks| && ByRank(chunks)
    ensures FirstRank(chunks, a).None? <==> forall i :: 0 <= i < |a| ==> a[i].None?
    ensures FirstRank(chunks, a).Some? ==>
              && (exists i :: 0 <= i < |a| && a[i].Some? && chunks[i].rank == FirstRank(chunks, a).value)
              && forall i :: 0 <= i < |a| && a[i].Some? ==> chunks[i].rank >= FirstRank(chunks, a).value
    decreases |chunks|
  {
    if chunks != [] {
      var rest, tail := chunks[1..], a[1..];
      FirstRankIsBest(rest, tail);
      forall i | 1 <= i < |a| ensures a[i] == tail[i - 1] && chunks[i] == rest[i - 1] { }
      if a[0].None? && FirstRank(rest, tail).Some? {
        var i :| 0 <= i < |tail| && tail[i].Some? && rest[i].rank == FirstRank(rest, tail).value;
        assert a[i + 1].Some? && chunks[i + 1].rank == FirstRank(chunks, a).value;
      }
    }
  }

  lemma {:induction false} GreedyAppend(norm: Norm, gold: seq<Gold>, free: set<nat>, s: seq<Chunk>, t: seq<Chunk>)
    ensures Greedy(norm, gold, free, s) <= Greedy(norm, gold, free, s + t)
    decreases |s|
  {
    if s != [] {
      var m := FirstFree(norm, gold, free, s[0], 0);
      assert (s + t)[1..] == s[1..] + t;
      GreedyAppend(norm, gold, free - Taken(m), s[1..], t);
    }
  }

  /** Recall never falls as k grows. */
  lemma RecallRises(norm: Norm, d: nat -> real, gold: seq<Gold>, chunks: seq<Chunk>, k: nat, l: nat)
    requires gold != [] && 1 <= k <= l && ProperRanks(chunks)
    ensures RankingMetrics(norm, d, gold, chunks, k).recall <= RankingMetrics(norm, d, gold, chunks, l).recall
  {
    var a, b := Greedy(norm, gold, AllGold(gold), Ranked(chunks, k)), Greedy(norm, gold, AllGold(gold), Ranked(chunks, l));
    HitsRise(norm, gold, chunks, k, l);
    Share(Hits(a) as real, Hits(b) as real, |gold| as real);
  }

  lemma HitsRise(norm: Norm, gold: seq<Gold>, chunks: seq<Chunk>, k: nat, l: nat)
    requires k <= l && ProperRanks(chunks)
    ensures Hits(Greedy(norm, gold, AllGold(gold), Ranked(chunks, k))) <=
            Hits(Greedy(norm, gold, AllGold(gold), Ranked(chunks, l)))
  {
    SortIsRanked(chunks);
    UpToPrefix(SortByRank(chunks), k, l);
    PrefixHits(norm, gold, Ranked(chunks, k), Ranked(chunks, l));
  }

  lemma PrefixHits(norm: Norm, gold: seq<Gold>, s: seq<Chunk>, t: seq<Chunk>)
    requires s <= t
    ensures Hits(Greedy(norm, gold, AllGold(gold), s)) <= Hits(Greedy(norm, gold, AllGold(gold), t))
  {
    assert t == s + t[|s|..];
    GreedyAppend(norm, gold, AllGold(gold), s, t[|s|..]);
    var a, b := Greedy(norm, gold, AllGold(gold), s), Greedy(norm, gold, AllGold(gold), t);
    SubsetCount(HitSet(a), HitSet(b));
  }

  lemma Share(x: real, y: real, n: real)
    requires x <= y && n > 0.0
    ensures x / n <= y / n
  {
    assert x / n * n == x && y / n * n == y;
  }

  ghost predicate StrictDiscount(d: nat -> real) {
    Discount(d) && forall r: nat, s: nat :: 1 <= r < s ==> d(s) < d(r)
  }

  ghost predicate Leading(ranks: seq<nat>, n: nat) { |ranks| == n && forall j :: 0 <= j < n ==> ranks[j] == j + 1 }

  lemma {:induction false} GainIsIdeal(d: nat -> real, ranks: seq<nat>, n: nat)
    requires StrictDiscount(d) && RisesFrom(ranks, 1) && |ranks| <= n
    ensures Gain(d, ranks) == IdealDcg(d, n) <==> Leading(ranks, n)
    decreases n
  {
    if |ranks| < n {
      GainBound(d, ranks, n - 1);
    } else if ranks != [] {
      var last := |ranks| - 1;
      GainBound(d, ranks[..last], n - 1);
      GainIsIdeal(d, ranks[..last], n - 1);
      assert ranks[last] >= n;
      if ranks[last] == n {
        assert Leading(ranks, n) <==> Leading(ranks[..last], n - 1);
      } else {
        assert d(ranks[last]) < d(n);
      }
    }
  }

  /** With a strictly falling discount the gain is perfect exactly when the relevant chunks hold ranks 1, 2, 3, ... */
  lemma PerfectNdcg(norm: Norm, d: nat -> real, gold: seq<Gold>, chunks: seq<Chunk>, k: nat)
    requires gold != [] && k >= 1 && ProperRanks(chunks) && StrictDiscount(d)
    ensures var ranked := Ranked(chunks, k);
            var a := Greedy(norm, gold, AllGold(gold), ranked);
            |a| == |ranked| && (RankingMetrics(norm, d, gold, chunks, k).ndcg == 1.0 <==>
                                Leading(RelevantRanks(ranked, a), Min(|gold|, k)))
  {
    var ranked := Ranked(chunks, k);
    var a := Greedy(norm, gold, AllGold(gold), ranked);
    var n := Min(|gold|, k);
    HitsBounded(norm, gold, chunks, k);
    DcgIsGain(d, ranked, a);
    GainBound(d, [], n - 1);
    GainIsIdeal(d, RelevantRanks(ranked, a), n);
    IdealPositive(d, n);
    RatioOne(Dcg(d, ranked, a), IdealDcg(d, n));
  }

  lemma {:induction false} IdealPositive(d: nat -> real, n: nat)
    requires Discount(d)
    ensures IdealDcg(d, n) >= 0.0 && (n >= 1 ==> IdealDcg(d, n) > 0.0)
  {
    if n > 0 { IdealPositive(d, n - 1); }
  }

  lemma RatioOne(x: real, y: real)
    requires y > 0.0
    ensures x / y == 1.0 <==> x == y
  {
    assert x / y * y == x;
  }

  // ---------- The values ----------

  /** The discounts of the ranks of the matched chunks, added up. */
  ghost function Earned(d: nat -> real, chunks: seq<Chunk>, a: Assignment, n: nat): real
    requires |a| == |chunks| && n <= |a|
  {
    if n == 0 then 0.0
    else Earned(d, chunks, a, n - 1) + if a[n - 1].Some? then d(chunks[n - 1].rank) else 0.0
  }

  lemma {:induction false} DcgIsEarned(d: nat -> real, chunks: seq<Chunk>, a: Assignment, n: nat)
    requires |a| == |chunks| && n <= |a|
    ensures Dcg(d, chunks[..n], a[..n]) == Earned(d, chunks, a, n)
  {
    if n > 0 {
      DcgIsEarned(d, chunks, a, n - 1);
      assert chunks[..n] == chunks[..n - 1] + [chunks[n - 1]] && a[..n] == a[..n - 1] + [a[n - 1]];
      DcgSnoc(d, chunks[..n - 1], a[..n - 1], chunks[n - 1], a[n - 1]);
    }
  }

  lemma {:induction false} DcgSnoc(d: nat -> real, chunks: seq<Chunk>, a: Assignment, c: Chunk, m: Option<nat>)
    requires |a| == |chunks|
    ensures Dcg(d, chunks + [c], a + [m]) == Dcg(d, chunks, a) + if m.Some? then d(c.rank) else 0.0
    decreases |chunks|
  {
    if chunks == [] {
      assert chunks + [c] == [c] && a + [m] == [m];
      assert [c][1..] == [] && [m][1..] == [];
    } else {
      DcgSnoc(d, chunks[1..], a[1..], c, m);
      assert (chunks + [c])[1..] == chunks[1..] + [c] && (a + [m])[1..] == a[1..] + [m];
    }
  }

  /** The discounts of the ranks 1 to n, added up. */
  ghost function Best(d: nat -> real, n: nat): real { if n == 0 then 0.0 else Best(d, n - 1) + d(n) }

  /** The metrics at k in numbers of matched chunks: recall is their share of the gold chunks and precision of k, the
      reciprocal rank is that of the best of them, and the gain is theirs over that of the first ranks, as many as could
      be matched. */
  lemma MetricsAre(norm: Norm, d: nat -> real, gold: seq<Gold>, chunks: seq<Chunk>, k: nat)
    requires gold != [] && k >= 1 && ProperRanks(chunks) && Discount(d)
    ensures var ranked := Ranked(chunks, k);
            var a := Greedy(norm, gold, AllGold(gold), ranked);
            var n := if |gold| < k then |gold| else k;
            && |a| == |ranked| && Best(d, n) > 0.0
            && var m := RankingMetrics(norm, d, gold, chunks, k);
               var hits := set i | 0 <= i < |a| && a[i].Some?;
               && m.recall == |hits| as real / |gold| as real && m.precision == |hits| as real / k as real
               && (hits == {} ==> m.mrr == 0.0)
               && (hits != {} ==> exists r: nat :: r >= 1 && IsBest(ranked, a, r) && m.mrr == 1.0 / r as real)
               && m.ndcg == Earned(d, ranked, a, |a|) / Best(d, n)
  {
    var ranked := Ranked(chunks, k);
    var a := Greedy(norm, gold, AllGold(gold), ranked);
    HitsBounded(norm, gold, chunks, k);
    RankedFacts(chunks, k);
    var n := if |gold| < k then |gold| else k;
    IdealIsBest(d, n);
    IdealPositive(d, n);
    assert ranked[..|a|] == ranked && a[..|a|] == a;
    DcgIsEarned(d, ranked, a, |a|);
    assert HitSet(a) == set i | 0 <= i < |a| && a[i].Some?;
    BestIsFirst(ranked, a);
  }

  /** The lowest rank of a matched chunk. */
  ghost predicate IsBest(chunks: seq<Chunk>, a: Assignment, r: nat) {
    && |a| == |chunks| && (exists i :: 0 <= i < |a| && a[i].Some? && chunks[i].rank == r)
    && forall i :: 0 <= i < |a| && a[i].Some? ==> r <= chunks[i].rank
  }

  lemma BestIsFirst(chunks: seq<Chunk>, a: Assignment)
    requires |a| == |chunks| && ByRank(chunks) && Positive(chunks)
    ensures var first := FirstRank(chunks, a);
            && (first.None? <==> HitSet(a) == {})
            && (first.Some? ==> first.value >= 1 && IsBest(chunks, a, first.value))
  {
    FirstRankIsBest(chunks, a);
    FirstRankPositive(chunks, a);
    var first := FirstRank(chunks, a);
    if first.Some? {
      var i :| 0 <= i < |a| && a[i].Some? && chunks[i].rank == first.value;
      assert i in HitSet(a);
    }
  }

  lemma {:induction false} IdealIsBest(d: nat -> real, n: nat)
    ensures IdealDcg(d, n) == Best(d, n)
  {
    if n > 0 { IdealIsBest(d, n - 1); }
  }
}
