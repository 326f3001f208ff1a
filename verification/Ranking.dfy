/** Ranked chunks of the retrieval evaluation and their greedy matching against gold chunks. */
module Ranking {
  import opened Prelude

  datatype Gold = Gold(id: Option<string>, hash: Option<string>)
  datatype Chunk = Chunk(rank: nat, id: Option<string>, hash: Option<string>)

  /** The normalisation of chunk ids and the discount are outside this model. */
  type Norm = string -> string

  predicate Matches(norm: Norm, g: Gold, c: Chunk) {
    || (g.id.Some? && c.id.Some? && norm(g.id.value) == norm(c.id.value))
    || (g.hash.Some? && g.hash == c.hash)
  }

  // ---------- Ranking ----------

  function PlaceByRank(ordered: seq<Chunk>, c: Chunk): seq<Chunk> {
    if ordered == [] then [c]
    else if ordered[0].rank <= c.rank then [ordered[0]] + PlaceByRank(ordered[1..], c)
    else [c] + ordered
  }

  function SortByRank(chunks: seq<Chunk>): seq<Chunk> {
    if chunks == [] then [] else PlaceByRank(SortByRank(chunks[..|chunks| - 1]), chunks[|chunks| - 1])
  }

  function UpTo(ordered: seq<Chunk>, k: nat): seq<Chunk> {
    if ordered == [] then []
    else (if ordered[0].rank <= k then [ordered[0]] else []) + UpTo(ordered[1..], k)
  }

  function Ranked(chunks: seq<Chunk>, k: nat): seq<Chunk> { UpTo(SortByRank(chunks), k) }

  ghost predicate ByRank(s: seq<Chunk>) { forall i, j :: 0 <= i < j < |s| ==> s[i].rank < s[j].rank }

  ghost predicate ProperRanks(chunks: seq<Chunk>) {
    && (forall i :: 0 <= i < |chunks| ==> chunks[i].rank >= 1)
    && forall i, j :: 0 <= i < j < |chunks| ==> chunks[i].rank != chunks[j].rank
  }

  lemma {:induction false} PlaceKeepsChunks(ordered: seq<Chunk>, c: Chunk)
    ensures multiset(PlaceByRank(ordered, c)) == multiset(ordered) + multiset{c}
  {
    if ordered != [] {
      assert ordered == [ordered[0]] + ordered[1..];
      if ordered[0].rank <= c.rank { PlaceKeepsChunks(ordered[1..], c); }
    }
  }

  lemma {:induction false} PlaceKeepsOrder(ordered: seq<Chunk>, c: Chunk)
    requires ByRank(ordered) && forall i :: 0 <= i < |ordered| ==> ordered[i].rank != c.rank
    ensures ByRank(PlaceByRank(ordered, c))
  {
    if ordered != [] && ordered[0].rank <= c.rank {
      var rest := PlaceByRank(ordered[1..], c);
      PlaceKeepsOrder(ordered[1..], c);
      PlaceKeepsChunks(ordered[1..], c);
      forall j | 0 <= j < |rest| ensures ordered[0].rank < rest[j].rank {
        assert rest[j] in multiset(rest);
        assert rest[j] in ordered[1..] || rest[j] == c;
      }
    }
  }

  /** Sorting distinct ranks gives the same chunks in strictly increasing rank. */
  lemma {:induction false} SortIsRanked(chunks: seq<Chunk>)
    requires ProperRanks(chunks)
    ensures ByRank(SortByRank(chunks)) && multiset(SortByRank(chunks)) == multiset(chunks)
  {
    if chunks != [] {
      var front, last := chunks[..|chunks| - 1], chunks[|chunks| - 1];
      SortIsRanked(front);
      assert chunks == front + [last];
      var sorted := SortByRank(front);
      forall i | 0 <= i < |sorted| ensures sorted[i].rank != last.rank {
        assert sorted[i] in multiset(sorted) && sorted[i] in front;
      }
      PlaceKeepsOrder(sorted, last);
      PlaceKeepsChunks(sorted, last);
    }
  }

  /** The ranking up to k is a prefix of the ranking up to any larger bound. */
  lemma {:induction false} UpToPrefix(ordered: seq<Chunk>, k: nat, l: nat)
    requires ByRank(ordered) && k <= l
    ensures UpTo(ordered, k) <= UpTo(ordered, l) <= ordered
    ensures forall i :: 0 <= i < |UpTo(ordered, k)| ==> UpTo(ordered, k)[i].rank <= k
  {
    if ordered != [] {
      UpToPrefix(ordered[1..], k, l);
      assert ordered == [ordered[0]] + ordered[1..];
      if ordered[0].rank > k { BeyondBound(ordered, k); }
      if ordered[0].rank > l { BeyondBound(ordered, l); }
    }
  }

  lemma {:induction false} BeyondBound(ordered: seq<Chunk>, k: nat)
    requires ByRank(ordered) && (ordered == [] || ordered[0].rank > k)
    ensures UpTo(ordered, k) == []
  {
    if ordered != [] {
      if |ordered| > 1 { assert ordered[1..][0] == ordered[1]; }
      BeyondBound(ordered[1..], k);
    }
  }

  ghost predicate Positive(s: seq<Chunk>) { forall i :: 0 <= i < |s| ==> s[i].rank >= 1 }

  lemma RankedFacts(chunks: seq<Chunk>, k: nat)
    requires ProperRanks(chunks)
    ensures ByRank(Ranked(chunks, k)) && Positive(Ranked(chunks, k))
    ensures forall i :: 0 <= i < |Ranked(chunks, k)| ==> Ranked(chunks, k)[i].rank <= k
  {
    SortIsRanked(chunks);
    var sorted := SortByRank(chunks);
    UpToPrefix(sorted, k, k);
    forall i | 0 <= i < |sorted| ensures sorted[i].rank >= 1 {
      assert sorted[i] in multiset(sorted) && sorted[i] in chunks;
    }
  }

  lemma {:induction false} UpToHas(ordered: seq<Chunk>, k: nat, c: Chunk)
    ensures c in UpTo(ordered, k) <==> c in ordered && c.rank <= k
  {
    if ordered != [] {
      UpToHas(ordered[1..], k, c);
      assert c in ordered <==> c == ordered[0] || c in ordered[1..];
    }
  }

  /** The ranking up to k holds exactly the chunks of rank at most k, by rising rank. */
  lemma RankedExact(chunks: seq<Chunk>, k: nat)
    requires ProperRanks(chunks)
    ensures ByRank(Ranked(chunks, k)) && forall c :: c in Ranked(chunks, k) <==> c in chunks && c.rank <= k
  {
    RankedFacts(chunks, k);
    SortIsRanked(chunks);
    forall c ensures c in Ranked(chunks, k) <==> c in chunks && c.rank <= k {
      UpToHas(SortByRank(chunks), k, c);
      assert c in SortByRank(chunks) <==> c in multiset(SortByRank(chunks));
      assert c in chunks <==> c in multiset(chunks);
    }
  }

  // ---------- Greedy matching ----------

  type Assignment = seq<Option<nat>>

  /** The lowest free gold index from i on that the chunk matches. */
  function FirstFree(norm: Norm, gold: seq<Gold>, free: set<nat>, c: Chunk, i: nat): (r: Option<nat>)
    requires i <= |gold|
    ensures r.Some? ==> i <= r.value < |gold| && r.value in free && Matches(norm, gold[r.value], c)
    ensures forall g: nat :: i <= g < (if r.Some? then r.value else |gold|) && g in free ==> !Matches(norm, gold[g], c)
    decreases |gold| - i
  {
    if i == |gold| then None
    else if i in free && Matches(norm, gold[i], c) then Some(i)
    else FirstFree(norm, gold, free, c, i + 1)
  }

  function Taken(m: Option<nat>): set<nat> { if m.Some? then {m.value} else {} }

  function Greedy(norm: Norm, gold: seq<Gold>, free: set<nat>, chunks: seq<Chunk>): Assignment
    decreases |chunks|
  {
    if chunks == [] then []
    else
      var m := FirstFree(norm, gold, free, chunks[0], 0);
      [m] + Greedy(norm, gold, free - Taken(m), chunks[1..])
  }

  function Below(n: nat): (r: set<nat>)
    ensures |r| == n && forall g: nat :: g in r <==> g < n
  {
    if n == 0 then {} else Below(n - 1) + {n - 1}
  }

  function AllGold(gold: seq<Gold>): set<nat> { Below(|gold|) }

  function Used(a: Assignment): set<nat> { set i | 0 <= i < |a| && a[i].Some? :: a[i].value }

  function HitSet(a: Assignment): set<nat> { set i: nat | i < |a| && a[i].Some? }

  function Hits(a: Assignment): nat { |HitSet(a)| }

  /** A matching: every assigned gold chunk matches, and none is assigned twice. */
  ghost predicate Matching(norm: Norm, gold: seq<Gold>, chunks: seq<Chunk>, a: Assignment) {
    && |a| == |chunks|
    && (forall i :: 0 <= i < |a| && a[i].Some? ==> a[i].value < |gold| && Matches(norm, gold[a[i].value], chunks[i]))
    && forall i, j :: 0 <= i < j < |a| && a[i].Some? && a[j].Some? ==> a[i] != a[j]
  }

  /** A chunk is left unmatched only when every free gold chunk it matches is held by an earlier chunk. */
  ghost predicate Maximal(norm: Norm, gold: seq<Gold>, free: set<nat>, chunks: seq<Chunk>, a: Assignment)
    requires |a| == |chunks|
  {
    forall i, g: nat :: 0 <= i < |a| && g < |gold| ==>
      (a[i].None? && g in free && Matches(norm, gold[g], chunks[i]) ==> g in Used(a[..i]))
  }

  /** A chunk takes a gold chunk only when every lower free one it matches is held by an earlier chunk. */
  ghost predicate Lowest(norm: Norm, gold: seq<Gold>, free: set<nat>, chunks: seq<Chunk>, a: Assignment)
    requires |a| == |chunks|
  {
    forall i, g: nat :: 0 <= i < |a| && g < |gold| ==>
      (a[i].Some? && g < a[i].value && g in free && Matches(norm, gold[g], chunks[i]) ==> g in Used(a[..i]))
  }

  lemma UsedCons(m: Option<nat>, rest: Assignment)
    ensures Used([m] + rest) == Taken(m) + Used(rest)
  {
    var a := [m] + rest;
    assert a[0] == m;
    forall i | 0 <= i < |rest| ensures a[i + 1] == rest[i] { }
    forall g | g in Used(a) ensures g in Taken(m) + Used(rest) {
      var i :| 0 <= i < |a| && a[i].Some? && a[i].value == g;
      if i > 0 { assert rest[i - 1] == a[i]; }
    }
  }

  lemma UsedGrows(a: Assignment, i: nat)
    requires i <= |a|
    ensures Used(a[..i]) <= Used(a)
  {
  }

  lemma UsedBefore(m: Option<nat>, rest: Assignment, i: nat)
    requires 0 < i <= |rest| + 1
    ensures Used(([m] + rest)[..i]) == Taken(m) + Used(rest[..i - 1])
  {
    assert ([m] + rest)[..i] == [m] + rest[..i - 1];
    UsedCons(m, rest[..i - 1]);
  }

  /** The greedy assignment is a matching that leaves no chunk unmatched while a free gold chunk matches it. */
  lemma {:induction false} GreedyMatches(norm: Norm, gold: seq<Gold>, free: set<nat>, chunks: seq<Chunk>)
    ensures var a := Greedy(norm, gold, free, chunks);
            && Matching(norm, gold, chunks, a) && Used(a) <= free
            && Maximal(norm, gold, free, chunks, a)
    decreases |chunks|
  {
    if chunks != [] {
      var m := FirstFree(norm, gold, free, chunks[0], 0);
      var rest := Greedy(norm, gold, free - Taken(m), chunks[1..]);
      GreedyMatches(norm, gold, free - Taken(m), chunks[1..]);
      MatchingCons(norm, gold, chunks, m, rest);
      MaximalCons(norm, gold, free, chunks, m, rest);
      UsedCons(m, rest);
    }
  }

  lemma MatchingCons(norm: Norm, gold: seq<Gold>, chunks: seq<Chunk>, m: Option<nat>, rest: Assignment)
    requires chunks != [] && Matching(norm, gold, chunks[1..], rest)
    requires m.Some? ==> m.value < |gold| && Matches(norm, gold[m.value], chunks[0]) && m.value !in Used(rest)
    ensures Matching(norm, gold, chunks, [m] + rest)
  {
    var a := [m] + rest;
    forall i, j | 0 <= i < j < |a| && a[i].Some? && a[j].Some? ensures a[i] != a[j] {
      assert a[j] == rest[j - 1];
      if i == 0 { assert a[j].value in Used(rest); } else { assert a[i] == rest[i - 1]; }
    }
  }

  lemma MaximalCons(norm: Norm, gold: seq<Gold>, free: set<nat>, chunks: seq<Chunk>, m: Option<nat>, rest: Assignment)
    requires chunks != [] && |rest| == |chunks[1..]| && m == FirstFree(norm, gold, free, chunks[0], 0)
    requires Maximal(norm, gold, free - Taken(m), chunks[1..], rest)
    ensures Maximal(norm, gold, free, chunks, [m] + rest)
  {
    var a := [m] + rest;
    forall i, g: nat | 0 <= i < |a| && a[i].None? && g < |gold| && g in free && Matches(norm, gold[g], chunks[i])
      ensures g in Used(a[..i])
    {
      if i > 0 {
        assert a[i] == rest[i - 1] && chunks[i] == chunks[1..][i - 1];
        UsedBefore(m, rest, i);
      }
    }
  }

  lemma {:induction false} GreedyTakesLowest(norm: Norm, gold: seq<Gold>, free: set<nat>, chunks: seq<Chunk>)
    ensures var a := Greedy(norm, gold, free, chunks);
            |a| == |chunks| && Lowest(norm, gold, free, chunks, a)
    decreases |chunks|
  {
    if chunks != [] {
      var m := FirstFree(norm, gold, free, chunks[0], 0);
      var left := free - Taken(m);
      GreedyTakesLowest(norm, gold, left, chunks[1..]);
      var rest, a := Greedy(norm, gold, left, chunks[1..]), Greedy(norm, gold, free, chunks);
      UsedCons(m, rest);
      forall i, g: nat | 0 <= i < |a| && g < |gold| && a[i].Some? && g < a[i].value && g in free
                         && Matches(norm, gold[g], chunks[i])
        ensures g in Used(a[..i])
      {
        if i > 0 {
          assert a[i] == rest[i - 1] && chunks[i] == chunks[1..][i - 1];
          UsedBefore(m, rest, i);
        }
      }
    }
  }

  function Flag(m: Option<nat>): nat { if m.Some? then 1 else 0 }

  function Flags(norm: Norm, gold: seq<Gold>, free: set<nat>, chunks: seq<Chunk>): seq<nat>
    decreases |chunks|
  {
    if chunks == [] then []
    else
      var m := FirstFree(norm, gold, free, chunks[0], 0);
      [Flag(m)] + Flags(norm, gold, free - Taken(m), chunks[1..])
  }

  function Left(norm: Norm, gold: seq<Gold>, free: set<nat>, chunks: seq<Chunk>): set<nat>
    decreases |chunks|
  {
    if chunks == [] then free
    else Left(norm, gold, free - Taken(FirstFree(norm, gold, free, chunks[0], 0)), chunks[1..])
  }

  /** Flags and what is left over, read off the assignment. */
  lemma {:induction false} FlagsOfGreedy(norm: Norm, gold: seq<Gold>, free: set<nat>, chunks: seq<Chunk>)
    ensures var a, flags := Greedy(norm, gold, free, chunks), Flags(norm, gold, free, chunks);
            && |flags| == |a| && (forall i :: 0 <= i < |a| ==> flags[i] == Flag(a[i]))
            && Left(norm, gold, free, chunks) == free - Used(a)
    decreases |chunks|
  {
    if chunks != [] {
      var m := FirstFree(norm, gold, free, chunks[0], 0);
      FlagsOfGreedy(norm, gold, free - Taken(m), chunks[1..]);
      UsedCons(m, Greedy(norm, gold, free - Taken(m), chunks[1..]));
    }
  }

  method ChunkRelevance(norm: Norm, gold: seq<Gold>, chunks: seq<Chunk>) returns (relevance: seq<nat>, matched: int)
    ensures var a := Greedy(norm, gold, AllGold(gold), chunks);
            && |relevance| == |a| && matched == Hits(a)
            && forall i :: 0 <= i < |a| ==> relevance[i] == Flag(a[i])
  {
    var unmatched := AllGold(gold);
    relevance, unmatched := MatchAll(norm, gold, unmatched, chunks);
    matched := |gold| - |unmatched|;
    FlagsOfGreedy(norm, gold, AllGold(gold), chunks);
    MatchedCount(norm, gold, chunks);
  }

  method MatchAll(norm: Norm, gold: seq<Gold>, free: set<nat>, chunks: seq<Chunk>)
    returns (relevance: seq<nat>, unmatched: set<nat>)
    ensures relevance == Flags(norm, gold, free, chunks)
    ensures unmatched == Left(norm, gold, free, chunks)
  {
    relevance, unmatched := [], free;
    ghost var flags, left := Flags(norm, gold, free, chunks), Left(norm, gold, free, chunks);
    assert chunks[0..] == chunks;
    for n := 0 to |chunks|
      invariant relevance + Flags(norm, gold, unmatched, chunks[n..]) == flags
      invariant Left(norm, gold, unmatched, chunks[n..]) == left
    {
      var found := FirstFree(norm, gold, unmatched, chunks[n], 0);
      MatchStep(norm, gold, unmatched, chunks, n, relevance);
      if found.None? {
        relevance := relevance + [0];
      } else {
        unmatched := unmatched - {found.value};
        relevance := relevance + [1];
      }
    }
  }

  lemma MatchStep(norm: Norm, gold: seq<Gold>, free: set<nat>, chunks: seq<Chunk>, n: nat, done: seq<nat>)
    requires n < |chunks|
    ensures var m := FirstFree(norm, gold, free, chunks[n], 0);
            var free' := if m.Some? then free - {m.value} else free;
            && done + Flags(norm, gold, free, chunks[n..])
               == (done + [Flag(m)]) + Flags(norm, gold, free', chunks[n + 1..])
            && Left(norm, gold, free, chunks[n..]) == Left(norm, gold, free', chunks[n + 1..])
  {
    var m := FirstFree(norm, gold, free, chunks[n], 0);
    var rest := chunks[n..];
    assert rest[0] == chunks[n] && rest[1..] == chunks[n + 1..];
    assert free - Taken(m) == if m.Some? then free - {m.value} else free;
    assert Flags(norm, gold, free, rest) == [Flag(m)] + Flags(norm, gold, free - Taken(m), rest[1..]);
  }

  lemma MatchedCount(norm: Norm, gold: seq<Gold>, chunks: seq<Chunk>)
    ensures var a := Greedy(norm, gold, AllGold(gold), chunks);
            |gold| - |AllGold(gold) - Used(a)| == Hits(a)
  {
    var a := Greedy(norm, gold, AllGold(gold), chunks);
    GreedyMatches(norm, gold, AllGold(gold), chunks);
    UsedCount(norm, gold, chunks, a);
    SubsetDifference(AllGold(gold), Used(a));
  }

  lemma SubsetDifference(s: set<nat>, t: set<nat>)
    requires t <= s
    ensures |s - t| == |s| - |t|
  {
    assert s == (s - t) + t;
  }

  function Image(a: Assignment, s: set<nat>): set<nat> {
    set i | i in s && i < |a| && a[i].Some? :: a[i].value
  }

  lemma {:induction false} ImageCount(a: Assignment, s: set<nat>)
    requires s <= HitSet(a)
    requires forall i, j :: 0 <= i < j < |a| && a[i].Some? && a[j].Some? ==> a[i] != a[j]
    ensures |Image(a, s)| == |s|
  {
    if s == {} {
      assert Image(a, s) == {};
    } else {
      var i :| i in s;
      ImageCount(a, s - {i});
      assert Image(a, s) == Image(a, s - {i}) + {a[i].value};
      forall j | j in s - {i} ensures a[j].value != a[i].value {
        if j < i { assert a[j] != a[i]; } else { assert a[i] != a[j]; }
      }
    }
  }

  lemma UsedCount(norm: Norm, gold: seq<Gold>, chunks: seq<Chunk>, a: Assignment)
    requires Matching(norm, gold, chunks, a)
    ensures |Used(a)| == Hits(a)
  {
    ImageCount(a, HitSet(a));
    assert Image(a, HitSet(a)) == Used(a);
  }

  /** The greedy count is at least half of the largest possible matching. */
  lemma GreedyIsHalf(norm: Norm, gold: seq<Gold>, chunks: seq<Chunk>, b: Assignment)
    requires Matching(norm, gold, chunks, b)
    ensures Hits(b) <= 2 * Hits(Greedy(norm, gold, AllGold(gold), chunks))
  {
    var a := Greedy(norm, gold, AllGold(gold), chunks);
    GreedyMatches(norm, gold, AllGold(gold), chunks);
    UsedCount(norm, gold, chunks, a);
    forall i | 0 <= i < |b| && b[i].Some? && a[i].None? ensures b[i].value in Used(a) { UsedGrows(a, i); }
    HalfBound(a, b);
  }

  lemma HalfBound(a: Assignment, b: Assignment)
    requires |a| == |b| && |Used(a)| == Hits(a)
    requires forall i, j :: 0 <= i < j < |b| && b[i].Some? && b[j].Some? ==> b[i] != b[j]
    requires forall i :: 0 <= i < |b| && b[i].Some? && a[i].None? ==> b[i].value in Used(a)
    ensures Hits(b) <= 2 * Hits(a)
  {
    var missed := HitSet(b) - HitSet(a);
    ImageCount(b, missed);
    SubsetCount(Image(b, missed), Used(a));
    SubsetCount(HitSet(b), missed + HitSet(a));
  }

  lemma SubsetCount(s: set<nat>, t: set<nat>)
    requires s <= t
    ensures |s| <= |t|
  {
    SubsetDifference(t, s);
  }
}
