// Packing keeps the order of the list it is given.
//
// Every message of the packed list is traced to a position of the original list: the
// system messages first, all of them in order, then messages of the conversation at
// rising positions, whole, cut or relieved of evicted calls.
module ContextOrder {
  import opened Prelude
  import opened Text
  import opened ContextMessages
  import opened ContextCompaction
  import opened ContextEviction
  import opened ContextChoice
  import opened ContextTrim
  import opened Selections

  // ---------- Where messages come from ----------

  ghost function Kind(system: bool): Message -> Option<Message> {
    (m: Message) => if m.System? == system then Some(m) else None
  }

  lemma {:induction false} SeparationSelects(ms: seq<Message>)
    ensures Systems(ms) == Select(ms, Kind(true)) && Spoken(ms) == Select(ms, Kind(false))
  {
    if ms != [] { SeparationSelects(ms[1..]); }
  }

  /** The positions of the system messages, or of all others. */
  ghost predicate Positions(ms: seq<Message>, system: bool, at: seq<nat>) {
    Rising(at) && forall i: nat :: i in at <==> i < |ms| && ms[i].System? == system
  }

  /** The messages at the given positions. */
  ghost predicate Reads(ms: seq<Message>, at: seq<nat>, out: seq<Message>) {
    |at| == |out| && forall k :: 0 <= k < |at| ==> at[k] < |ms| && ms[at[k]] == out[k]
  }

  /** System messages and conversation are the two parts of the list, each in its order. */
  lemma SeparatedInOrder(ms: seq<Message>) returns (systems: seq<nat>, spoken: seq<nat>)
    ensures Positions(ms, true, systems) && Reads(ms, systems, Systems(ms))
    ensures Positions(ms, false, spoken) && Reads(ms, spoken, Spoken(ms))
  {
    SeparationSelects(ms);
    systems := SelectFrom(ms, Kind(true));
    spoken := SelectFrom(ms, Kind(false));
  }

  // ---------- Turns ----------

  ghost function Off(turns: seq<seq<Message>>, t: nat): nat
    requires t <= |turns|
  {
    if t == 0 then 0 else Off(turns, t - 1) + |turns[t - 1]|
  }

  lemma {:induction false} OffRises(turns: seq<seq<Message>>, t: nat, u: nat)
    requires t < u <= |turns|
    ensures Off(turns, t) + |turns[t]| <= Off(turns, u)
    decreases u
  {
    if t + 1 < u { OffRises(turns, t, u - 1); }
  }

  lemma {:induction false} OffTail(turns: seq<seq<Message>>, t: nat)
    requires turns != [] && 1 <= t <= |turns|
    ensures Off(turns, t) == |turns[0]| + Off(turns[1..], t - 1)
  {
    if t > 1 { OffTail(turns, t - 1); }
  }

  /** Where the j-th message of a turn stands in the conversation. */
  lemma {:induction false} FlattenAt(turns: seq<seq<Message>>, t: nat, j: nat)
    requires t < |turns| && j < |turns[t]|
    ensures Off(turns, t) + j < |Flatten(turns)| && Flatten(turns)[Off(turns, t) + j] == turns[t][j]
  {
    if t > 0 {
      OffTail(turns, t);
      FlattenAt(turns[1..], t - 1, j);
    }
  }

  lemma {:induction false} FlattenLength(turns: seq<seq<Message>>)
    ensures |Flatten(turns)| == Off(turns, |turns|)
  {
    if turns != [] {
      FlattenLength(turns[1..]);
      OffTail(turns, |turns|);
    }
  }

  ghost function Span(low: nat, n: nat): (r: seq<nat>)
    ensures |r| == n && forall k :: 0 <= k < n ==> r[k] == low + k
  {
    if n == 0 then [] else Span(low, n - 1) + [low + n - 1]
  }

  /** The positions of the kept turns in the conversation. */
  ghost function At(turns: seq<seq<Message>>, kept: seq<nat>): seq<nat>
    requires Among(turns, kept)
  {
    if kept == [] then [] else Span(Off(turns, kept[0]), |turns[kept[0]]|) + At(turns, kept[1..])
  }

  lemma {:induction false} AtReads(turns: seq<seq<Message>>, kept: seq<nat>)
    requires Among(turns, kept)
    ensures Reads(Flatten(turns), At(turns, kept), Pick(turns, kept))
  {
    if kept != [] {
      AtReads(turns, kept[1..]);
      var t, rest := kept[0], At(turns, kept[1..]);
      var span := Span(Off(turns, t), |turns[t]|);
      forall k | 0 <= k < |span| ensures span[k] < |Flatten(turns)| && Flatten(turns)[span[k]] == turns[t][k] {
        FlattenAt(turns, t, k);
      }
    }
  }

  lemma {:induction false} AtRises(turns: seq<seq<Message>>, kept: seq<nat>)
    requires Among(turns, kept) && Rising(kept)
    ensures Rising(At(turns, kept))
    ensures forall k :: 0 <= k < |At(turns, kept)| ==> kept != [] && Off(turns, kept[0]) <= At(turns, kept)[k]
  {
    if kept != [] {
      AtRises(turns, kept[1..]);
      var t, rest := kept[0], At(turns, kept[1..]);
      forall k | 0 <= k < |rest| ensures Off(turns, t) + |turns[t]| <= rest[k] { OffRises(turns, t, kept[1]); }
    }
  }

  lemma {:induction false} AtHas(turns: seq<seq<Message>>, kept: seq<nat>, a: nat, j: nat)
    requires Among(turns, kept) && a < |kept| && j < |turns[kept[a]]|
    ensures Off(turns, kept[a]) + j in At(turns, kept)
    decreases |kept|
  {
    if a == 0 {
      assert Span(Off(turns, kept[0]), |turns[kept[0]]|)[j] == Off(turns, kept[0]) + j;
    } else {
      AtHas(turns, kept[1..], a - 1, j);
    }
  }

  lemma {:induction false} Locate(turns: seq<seq<Message>>, i: nat, u: nat) returns (t: nat, j: nat)
    requires u <= |turns| && i < Off(turns, u)
    ensures t < u && j < |turns[t]| && Off(turns, t) + j == i
    decreases u
  {
    if i >= Off(turns, u - 1) {
      t, j := u - 1, i - Off(turns, u - 1);
    } else {
      t, j := Locate(turns, i, u - 1);
    }
  }

  /** With all turns kept every position of the conversation is. */
  lemma AtAll(turns: seq<seq<Message>>, i: nat)
    requires i < |Flatten(turns)|
    ensures i in At(turns, Below(|turns|))
  {
    FlattenLength(turns);
    var t, j := Locate(turns, i, |turns|);
    AtHas(turns, Below(|turns|), t, j);
  }

  // ---------- The chosen list ----------

  lemma ThroughReads(ms: seq<Message>, at: seq<nat>, mid: seq<Message>, sub: seq<nat>, out: seq<Message>)
    requires Reads(ms, at, mid) && Reads(mid, sub, out)
    ensures Reads(ms, Through(at, sub), out)
  {
  }

  lemma ThroughRises(at: seq<nat>, sub: seq<nat>)
    requires Rising(at) && Rising(sub) && forall k :: 0 <= k < |sub| ==> sub[k] < |at|
    ensures Rising(Through(at, sub))
  {
  }

  lemma ThroughHas(at: seq<nat>, sub: seq<nat>, k: nat)
    requires (forall x :: 0 <= x < |sub| ==> sub[x] < |at|) && k < |at|
    ensures k in sub ==> at[k] in Through(at, sub)
    ensures forall i :: i in Through(at, sub) ==> i in at
  {
    if k in sub {
      var x :| 0 <= x < |sub| && sub[x] == k;
      assert Through(at, sub)[x] == at[k];
    }
    forall i | i in Through(at, sub) ensures i in at {
      var x :| 0 <= x < |sub| && Through(at, sub)[x] == i;
      assert at[sub[x]] == i;
    }
  }

  /** The system messages, all in order, then other messages at rising positions. */
  ghost predicate Arranged(ms: seq<Message>, at: seq<nat>, n: nat) {
    && n <= |at| && Positions(ms, true, at[..n]) && Rising(at[n..])
    && forall i: nat :: i in at[n..] ==> i < |ms| && !ms[i].System?
  }

  /** The newest prompt of the conversation is the newest prompt of the list. */
  lemma PromptSpoken(ms: seq<Message>, spoken: seq<nat>, i: nat) returns (k: nat)
    requires Positions(ms, false, spoken) && Reads(ms, spoken, Spoken(ms)) && LastPrompt(ms, i)
    ensures k < |spoken| && spoken[k] == i && LastPrompt(Spoken(ms), k)
  {
    assert i in spoken;
    k :| 0 <= k < |spoken| && spoken[k] == i;
    forall x | k < x < |spoken| ensures !Spoken(ms)[x].Human? { assert spoken[k] < spoken[x]; }
  }

  lemma FlattenTurns(ms: seq<Message>)
    ensures Flatten(Turns(ms)) == ms
  {
    TurnsAre(ms);
  }

  /** The newest turn starts where the rest of the conversation from the newest prompt on does. */
  lemma LastOff(turns: seq<seq<Message>>, k: nat)
    requires turns != [] && k <= |Flatten(turns)| && turns[|turns| - 1] == Flatten(turns)[k..]
    ensures Off(turns, |turns| - 1) == k
  {
    FlattenLength(turns);
  }

  /** The newest turn is kept, and with it the newest prompt. */
  lemma PromptAt(spoken: seq<Message>, kept: seq<nat>, k: nat)
    requires LastPrompt(spoken, k) && Among(Turns(spoken), kept)
    requires Turns(spoken) != [] ==> kept != [] && kept[|kept| - 1] == |Turns(spoken)| - 1
    ensures k in At(Turns(spoken), kept)
  {
    LastTurnPrompt(spoken, k);
    FlattenTurns(spoken);
    LastOff(Turns(spoken), k);
    AtHas(Turns(spoken), kept, |kept| - 1, 0);
  }

  lemma {:induction false} TotalSeparated(w: World, ms: seq<Message>)
    ensures Total(w, ms) == Total(w, Systems(ms)) + Total(w, Spoken(ms))
  {
    if ms != [] {
      TotalSeparated(w, ms[1..]);
      if ms[0].System? {
        assert ([ms[0]] + Systems(ms[1..]))[1..] == Systems(ms[1..]) && [] + Spoken(ms[1..]) == Spoken(ms[1..]);
      } else {
        assert ([ms[0]] + Spoken(ms[1..]))[1..] == Spoken(ms[1..]) && [] + Systems(ms[1..]) == Systems(ms[1..]);
      }
    }
  }

  lemma {:induction false} SizesTotal(w: World, turns: seq<seq<Message>>, n: nat)
    requires n <= |turns|
    ensures Sum(Sizes(w, turns), n) == Total(w, Flatten(turns[..n]))
  {
    if n > 0 {
      SizesTotal(w, turns, n - 1);
      SizesAt(w, turns, n - 1);
      assert turns[..n] == turns[..n - 1] + [turns[n - 1]];
      FlattenSnoc(turns[..n - 1], turns[n - 1]);
      TotalAppend(w, Flatten(turns[..n - 1]), turns[n - 1]);
    }
  }

  lemma {:induction false} FlattenSnoc(turns: seq<seq<Message>>, turn: seq<Message>)
    ensures Flatten(turns + [turn]) == Flatten(turns) + turn
  {
    if turns == [] {
      assert turns + [turn] == [turn] && [turn][1..] == [];
    } else {
      FlattenSnoc(turns[1..], turn);
      assert (turns + [turn])[1..] == turns[1..] + [turn];
      Associates(turns[0], Flatten(turns[1..]), turn);
    }
  }

  /** When the whole list fits, all turns are kept. */
  lemma AllTurnsKept(w: World, budget: int, ms: seq<Message>)
    requires Estimate(w, ms) <= budget
    ensures var turns := Turns(Spoken(ms)); Kept(w, budget, Systems(ms), turns) == Below(|turns|)
  {
    var turns := Turns(Spoken(ms));
    TotalSeparated(w, ms);
    FlattenTurns(Spoken(ms));
    SizesTotal(w, turns, |turns|);
    assert turns[..|turns|] == turns;
    if turns != [] { AllKept(budget, Sizes(w, turns), Estimate(w, Systems(ms))); }
  }

  /** The kept turns are read from the original list, in order. */
  lemma PickedAt(ms: seq<Message>, spoken: seq<nat>, turns: seq<seq<Message>>, kept: seq<nat>) returns (picked: seq<nat>)
    requires Positions(ms, false, spoken) && Reads(ms, spoken, Spoken(ms))
    requires turns == Turns(Spoken(ms)) && Among(turns, kept) && Rising(kept)
    ensures Rising(picked) && Reads(ms, picked, Pick(turns, kept))
    ensures |spoken| == |Flatten(turns)| && (forall x :: 0 <= x < |At(turns, kept)| ==> At(turns, kept)[x] < |spoken|)
    ensures picked == Through(spoken, At(turns, kept))
    ensures forall i: nat :: i in picked ==> i < |ms| && !ms[i].System?
  {
    FlattenTurns(Spoken(ms));
    AtReads(turns, kept);
    AtRises(turns, kept);
    var sub := At(turns, kept);
    ThroughReads(ms, spoken, Spoken(ms), sub, Pick(turns, kept));
    ThroughRises(spoken, sub);
    PickedIsSpoken(ms, spoken, sub);
    picked := Through(spoken, sub);
  }

  lemma Joined(ms: seq<Message>, systems: seq<nat>, picked: seq<nat>, a: seq<Message>, b: seq<Message>)
    requires Positions(ms, true, systems) && Reads(ms, systems, a) && Rising(picked) && Reads(ms, picked, b)
    requires forall i: nat :: i in picked ==> i < |ms| && !ms[i].System?
    ensures Arranged(ms, systems + picked, |systems|) && Reads(ms, systems + picked, a + b)
    ensures (systems + picked)[|systems|..] == picked
  {
    assert (systems + picked)[..|systems|] == systems;
  }

  lemma PromptPickedAt(ms: seq<Message>, spoken: seq<nat>, turns: seq<seq<Message>>, kept: seq<nat>, i: nat)
    requires Positions(ms, false, spoken) && Reads(ms, spoken, Spoken(ms)) && LastPrompt(ms, i)
    requires turns == Turns(Spoken(ms)) && Among(turns, kept) && (turns != [] ==> kept != [] && kept[|kept| - 1] == |turns| - 1)
    requires forall x :: 0 <= x < |At(turns, kept)| ==> At(turns, kept)[x] < |spoken|
    ensures i in Through(spoken, At(turns, kept))
  {
    var k := PromptSpoken(ms, spoken, i);
    PromptAt(Spoken(ms), kept, k);
    ThroughHas(spoken, At(turns, kept), k);
  }

  lemma ChosenFrom(ms: seq<Message>, kept: seq<nat>) returns (at: seq<nat>, n: nat)
    requires Among(Turns(Spoken(ms)), kept) && Rising(kept)
    requires Turns(Spoken(ms)) != [] ==> kept != [] && kept[|kept| - 1] == |Turns(Spoken(ms))| - 1
    ensures n == |Systems(ms)| && Arranged(ms, at, n) && Reads(ms, at, Systems(ms) + Pick(Turns(Spoken(ms)), kept))
    ensures forall i: nat :: LastPrompt(ms, i) ==> i in at[n..]
    ensures kept == Below(|Turns(Spoken(ms))|) ==> Positions(ms, false, at[n..])
  {
    var turns := Turns(Spoken(ms));
    var systems, spoken := SeparatedInOrder(ms);
    var picked := PickedAt(ms, spoken, turns, kept);
    Joined(ms, systems, picked, Systems(ms), Pick(turns, kept));
    at, n := systems + picked, |systems|;
    forall i: nat | LastPrompt(ms, i) ensures i in picked { PromptPickedAt(ms, spoken, turns, kept, i); }
    if kept == Below(|turns|) { AllPicked(ms, spoken, turns); }
  }

  /** The chosen list is read from the original one, in order; the newest prompt is in it, and everything if all fits. */
  lemma ChosenAt(w: World, budget: int, ms: seq<Message>) returns (at: seq<nat>, n: nat)
    ensures n == |Systems(ms)| && Arranged(ms, at, n) && Reads(ms, at, Chosen(w, budget, ms))
    ensures forall i: nat :: LastPrompt(ms, i) ==> i in at[n..]
    ensures Estimate(w, ms) <= budget ==> Positions(ms, false, at[n..])
  {
    var turns := Turns(Spoken(ms));
    KeptRises(w, budget, Systems(ms), turns);
    if turns != [] { KeptNewest(w, budget, Systems(ms), turns); }
    if Estimate(w, ms) <= budget { AllTurnsKept(w, budget, ms); }
    at, n := ChosenFrom(ms, Kept(w, budget, Systems(ms), turns));
  }

  lemma PickedIsSpoken(ms: seq<Message>, spoken: seq<nat>, sub: seq<nat>)
    requires Positions(ms, false, spoken) && forall x :: 0 <= x < |sub| ==> sub[x] < |spoken|
    ensures forall i: nat :: i in Through(spoken, sub) ==> i < |ms| && !ms[i].System?
  {
    if spoken != [] { ThroughHas(spoken, sub, 0); }
  }

  lemma AllPicked(ms: seq<Message>, spoken: seq<nat>, turns: seq<seq<Message>>)
    requires Positions(ms, false, spoken) && |spoken| == |Flatten(turns)|
    requires forall x :: 0 <= x < |At(turns, Below(|turns|))| ==> At(turns, Below(|turns|))[x] < |spoken|
    ensures Positions(ms, false, Through(spoken, At(turns, Below(|turns|))))
  {
    var sub := At(turns, Below(|turns|));
    AtRises(turns, Below(|turns|));
    ThroughRises(spoken, sub);
    PickedIsSpoken(ms, spoken, sub);
    forall i: nat | i < |ms| && !ms[i].System? ensures i in Through(spoken, sub) {
      assert i in spoken;
      var k :| 0 <= k < |spoken| && spoken[k] == i;
      AtAll(turns, k);
      ThroughHas(spoken, sub, k);
    }
  }

  // ---------- Evicted bundles ----------

  /** What is left of a message without the calls named in gone. */
  ghost function Relieved(m: Message, gone: set<string>): Message {
    if m.AI? then m.(calls := OtherCalls(m.calls, gone)) else m
  }

  /** A result named in gone, or an answer that says nothing and only calls what is gone. */
  ghost predicate Vanishes(m: Message, gone: set<string>) {
    || (m.Tool? && m.callId in gone)
    || (m.AI? && m.calls != [] && (forall c :: c in m.calls ==> IdText(c) in gone) && Strip(m.text) == [])
  }

  ghost function Uncalled(gone: set<string>): Call -> Option<Call> {
    (c: Call) => if IdText(c) in gone then None else Some(c)
  }

  lemma {:induction false} OtherCallsSelect(calls: seq<Call>, gone: set<string>)
    ensures OtherCalls(calls, gone) == Select(calls, Uncalled(gone))
  {
    if calls != [] {
      OtherCallsSelect(calls[1..], gone);
      assert [] + Select(calls[1..], Uncalled(gone)) == Select(calls[1..], Uncalled(gone));
    }
  }

  /** The calls left are exactly those with another id, in order. */
  lemma OtherCallsAt(calls: seq<Call>, gone: set<string>) returns (at: seq<nat>)
    ensures |at| == |OtherCalls(calls, gone)| && Rising(at)
    ensures forall i: nat :: i in at <==> i < |calls| && IdText(calls[i]) !in gone
    ensures forall k :: 0 <= k < |at| ==> at[k] < |calls| && calls[at[k]] == OtherCalls(calls, gone)[k]
  {
    OtherCallsSelect(calls, gone);
    at := SelectFrom(calls, Uncalled(gone));
  }

  ghost function Remainder(gone: set<string>): Message -> Option<Message> {
    (m: Message) => if Vanishes(m, gone) then None else Some(Relieved(m, gone))
  }

  lemma PruneMeans(m: Message, gone: set<string>)
    ensures Prune(m, gone) == if Vanishes(m, gone) then [] else [Relieved(m, gone)]
  {
    if m.AI? {
      if !CallsAny(m, gone) {
        OtherCallsAll(m.calls, gone);
        if m.calls != [] { assert m.calls[0] in m.calls; }
      } else {
        OtherCallsEmpty(m.calls, gone);
      }
    }
  }

  lemma OtherCallsEmpty(calls: seq<Call>, gone: set<string>)
    ensures OtherCalls(calls, gone) == [] <==> forall c :: c in calls ==> IdText(c) in gone
  {
    if OtherCalls(calls, gone) != [] { assert OtherCalls(calls, gone)[0] in OtherCalls(calls, gone); }
  }

  lemma {:induction false} PrunedSelects(ms: seq<Message>, gone: set<string>)
    ensures Pruned(ms, gone) == Select(ms, Remainder(gone))
  {
    if ms != [] {
      PrunedSelects(ms[1..], gone);
      PruneMeans(ms[0], gone);
    }
  }

  /** Removing bundles drops exactly the messages that vanish, and relieves the others of the calls that are gone. */
  lemma PrunedExact(ms: seq<Message>, gone: set<string>) returns (at: seq<nat>)
    ensures |at| == |Pruned(ms, gone)| && Rising(at)
    ensures forall i: nat :: i in at <==> i < |ms| && !Vanishes(ms[i], gone)
    ensures forall k :: 0 <= k < |at| ==> at[k] < |ms| && Pruned(ms, gone)[k] == Relieved(ms[at[k]], gone)
  {
    PrunedSelects(ms, gone);
    at := SelectFrom(ms, Remainder(gone));
  }

  // ---------- The packed list ----------

  /** o is m as it was, with its text cut, or without some of its calls, or both. */
  ghost predicate Derived(m: Message, o: Message) {
    exists t, gone :: (t == m || Cut(m, t)) && o == Relieved(t, gone)
  }

  /** The packed list, traced to the original one. */
  ghost predicate Packs(ms: seq<Message>, at: seq<nat>, n: nat, out: seq<Message>) {
    && Arranged(ms, at, n) && |at| == |out|
    && (forall k :: 0 <= k < |at| ==> at[k] < |ms| && Derived(ms[at[k]], out[k]))
    && forall i: nat :: LastPrompt(ms, i) ==> i in at[n..]
  }

  lemma ShortDerives(ms: seq<Message>, at: seq<nat>, chosen: seq<Message>, short: seq<Message>, gone: set<string>, x: nat)
    requires Reads(ms, at, chosen) && ShapesKept(chosen, short) && x < |at|
    ensures Derived(ms[at[x]], Relieved(short[x], gone))
  {
    var t := short[x];
    assert (t == ms[at[x]] || Cut(ms[at[x]], t)) && Relieved(short[x], gone) == Relieved(t, gone);
  }

  /** Neither system messages nor prompts are dropped. */
  lemma Stays(chosen: seq<Message>, short: seq<Message>, gone: set<string>, x: nat)
    requires ShapesKept(chosen, short) && x < |chosen| && (chosen[x].System? || chosen[x].Human?)
    ensures !Vanishes(short[x], gone)
  {
    assert short[x] == chosen[x] || Cut(chosen[x], short[x]);
  }

  lemma SystemsStay(ms: seq<Message>, at0: seq<nat>, n: nat, chosen: seq<Message>, short: seq<Message>, gone: set<string>,
                    sub: seq<nat>)
    requires Arranged(ms, at0, n) && Reads(ms, at0, chosen) && ShapesKept(chosen, short)
    requires Rising(sub) && forall i: nat :: i in sub <==> i < |short| && !Vanishes(short[i], gone)
    ensures n <= |sub| && forall i :: 0 <= i < n ==> sub[i] == i
  {
    forall i | 0 <= i < n ensures i in sub {
      assert at0[i] == at0[..n][i] && at0[..n][i] in at0[..n];
      Stays(chosen, short, gone, i);
    }
    RisingStarts(sub, n);
  }

  /** Through both passes nothing changes places. */
  lemma TracedThrough(ms: seq<Message>, at0: seq<nat>, n: nat, sub: seq<nat>)
    requires Arranged(ms, at0, n) && Rising(sub) && forall k :: 0 <= k < |sub| ==> sub[k] < |at0|
    requires n <= |sub| && forall i :: 0 <= i < n ==> sub[i] == i
    ensures Arranged(ms, Through(at0, sub), n)
  {
    assert Through(at0, sub)[..n] == at0[..n];
    forall k | n <= k < |sub| ensures sub[k] >= n { if n > 0 { assert sub[n - 1] < sub[k]; } }
    TailArranged(ms, at0, n, sub);
  }

  lemma PromptStays(at0: seq<nat>, n: nat, chosen: seq<Message>, short: seq<Message>, gone: set<string>, sub: seq<nat>, x: nat)
    requires |at0| == |chosen| && ShapesKept(chosen, short) && n <= x < |at0| && chosen[x].Human?
    requires forall i: nat :: i in sub <==> i < |short| && !Vanishes(short[i], gone)
    requires n <= |sub| && (forall i :: 0 <= i < n ==> sub[i] == i) && forall k :: 0 <= k < |sub| ==> sub[k] < |at0|
    ensures at0[x] in Through(at0, sub)[n..]
  {
    Stays(chosen, short, gone, x);
    assert x in sub;
    var k :| 0 <= k < |sub| && sub[k] == x;
    assert Through(at0, sub)[n..][k - n] == at0[x];
  }

  lemma TailArranged(ms: seq<Message>, at0: seq<nat>, n: nat, sub: seq<nat>)
    requires Arranged(ms, at0, n) && Rising(sub) && n <= |sub| && forall k :: 0 <= k < |sub| ==> sub[k] < |at0|
    requires forall k :: n <= k < |sub| ==> sub[k] >= n
    ensures var tail := Through(at0, sub)[n..]; Rising(tail) && forall i: nat :: i in tail ==> i < |ms| && !ms[i].System?
  {
    var at := Through(at0, sub);
    forall a, b | n <= a < b < |at| ensures at[a] < at[b] {
      assert at0[n..][sub[a] - n] < at0[n..][sub[b] - n];
    }
    forall i: nat | i in at[n..] ensures i < |ms| && !ms[i].System? {
      var k :| 0 <= k < |at[n..]| && at[n..][k] == i;
      assert at0[n..][sub[n + k] - n] == i;
      assert i in at0[n..];
    }
  }

  lemma DerivesThrough(ms: seq<Message>, at0: seq<nat>, chosen: seq<Message>, short: seq<Message>, gone: set<string>,
                       sub: seq<nat>, out: seq<Message>, k: nat)
    requires Reads(ms, at0, chosen) && ShapesKept(chosen, short)
    requires |sub| == |out| && (forall i :: 0 <= i < |sub| ==> sub[i] < |at0|) && k < |sub|
    requires out[k] == Relieved(short[sub[k]], gone)
    ensures Through(at0, sub)[k] < |ms| && Derived(ms[Through(at0, sub)[k]], out[k])
  {
    ShortDerives(ms, at0, chosen, short, gone, sub[k]);
  }

  lemma TailHas(at: seq<nat>, n: nat, i: nat) returns (x: nat)
    requires n <= |at| && i in at[n..]
    ensures n <= x < |at| && at[x] == i
  {
    var y :| 0 <= y < |at[n..]| && at[n..][y] == i;
    x := n + y;
  }

  lemma PacksThrough(ms: seq<Message>, at0: seq<nat>, n: nat, chosen: seq<Message>, short: seq<Message>,
                     gone: set<string>)
    returns (at: seq<nat>)
    requires Arranged(ms, at0, n) && Reads(ms, at0, chosen) && ShapesKept(chosen, short)
    requires forall i: nat :: LastPrompt(ms, i) ==> i in at0[n..]
    ensures Packs(ms, at, n, Pruned(short, gone))
  {
    var out := Pruned(short, gone);
    var sub := PrunedExact(short, gone);
    SystemsStay(ms, at0, n, chosen, short, gone, sub);
    TracedThrough(ms, at0, n, sub);
    at := Through(at0, sub);
    forall k: nat | k < |at| ensures at[k] < |ms| && Derived(ms[at[k]], out[k]) {
      DerivesThrough(ms, at0, chosen, short, gone, sub, out, k);
    }
    forall i: nat | LastPrompt(ms, i) ensures i in at[n..] {
      var x := TailHas(at0, n, i);
      assert chosen[x] == ms[i];
      PromptStays(at0, n, chosen, short, gone, sub, x);
    }
  }

  /** The list that packing arrives at, traced to the original one. */
  lemma FinalPacks(w: World, budget: int, ms: seq<Message>) returns (at: seq<nat>, n: nat)
    ensures Packs(ms, at, n, Final(w, budget, Chosen(w, budget, ms)))
  {
    var chosen := Chosen(w, budget, ms);
    var at0;
    at0, n := ChosenAt(w, budget, ms);
    CompactedShapes(w, budget, chosen);
    var gone := FinalIsPruned(w, budget, chosen);
    at := PacksThrough(ms, at0, n, chosen, Compacted(w, budget, chosen).ms, gone);
  }

  // ---------- Counts ----------

  lemma {:induction false} SeparationCounts(ms: seq<Message>)
    ensures |Systems(ms)| + |Spoken(ms)| == |ms|
  {
    if ms != [] { SeparationCounts(ms[1..]); }
  }

  lemma PickCounts(turns: seq<seq<Message>>, kept: seq<nat>)
    requires Among(turns, kept) && Rising(kept)
    ensures |Pick(turns, kept)| <= |Flatten(turns)|
  {
    AtReads(turns, kept);
    AtRises(turns, kept);
    var at := At(turns, kept);
    if at != [] { RisingAtLeast(at, |at| - 1); }
  }

  lemma {:induction false} PrunedCounts(ms: seq<Message>, gone: set<string>)
    ensures |Pruned(ms, gone)| <= |ms|
  {
    if ms != [] { PrunedCounts(ms[1..], gone); }
  }

  /** Packing never adds a message. */
  lemma FinalCounts(w: World, budget: int, ms: seq<Message>)
    ensures |Final(w, budget, Chosen(w, budget, ms))| <= |ms|
  {
    var turns, chosen := Turns(Spoken(ms)), Chosen(w, budget, ms);
    SeparationCounts(ms);
    KeptRises(w, budget, Systems(ms), turns);
    FlattenTurns(Spoken(ms));
    PickCounts(turns, Kept(w, budget, Systems(ms), turns));
    CompactedShapes(w, budget, chosen);
    var gone := FinalIsPruned(w, budget, chosen);
    PrunedCounts(Compacted(w, budget, chosen).ms, gone);
  }

  /** How many messages of the chosen list were shortened. */
  ghost function Shortened(chosen: seq<Message>, short: seq<Message>): nat
    requires |short| == |chosen|
  {
    |set i | 0 <= i < |chosen| && short[i] != chosen[i]|
  }

  lemma CutCounts(w: World, budget: int, ms: seq<Message>)
    ensures |Compacted(w, budget, ms).ms| == |ms|
    ensures |Compacted(w, budget, ms).cut| == Shortened(ms, Compacted(w, budget, ms).ms)
  {
    CompactOutcome(w, budget, ms, AtomicIds(w, ms));
  }

  // ---------- What packing promises ----------

  /** Whole turns, some messages shortened, minus whole bundles; the counts say how much went. */
  ghost predicate Accounts(ms: seq<Message>, p: Packed, kept: seq<nat>, short: seq<Message>, gone: set<string>) {
    && PackedFrom(Systems(ms), Turns(Spoken(ms)), p.messages, kept, short, gone)
    && p.truncated == Shortened(Systems(ms) + Pick(Turns(Spoken(ms)), kept), short)
    && p.removed == |ms| - |p.messages|
  }

  /** Packing a nonempty list of self-contained turns ends in the budget error, or in a list that fits, answers every
      result, and is the original list in order: all system messages first, then whole turns with the newest prompt, some
      texts cut and whole bundles dropped. */
  lemma TrimGuarantee(w: World, budget: int, ms: seq<Message>)
    requires ms != [] && SelfContained(ms)
    ensures match Trim(w, budget, ms)
            case Err(e) => e.OverBudget?
            case Ok(p) =>
              && p.estimated == Estimate(w, p.messages) <= budget && Protocol(p.messages)
              && (exists at, n :: Packs(ms, at, n, p.messages))
              && exists kept, short, gone :: Accounts(ms, p, kept, short, gone)
  {
    NeverOrphaned(w, budget, ms);
    var at, n := FinalPacks(w, budget, ms);
    if Trim(w, budget, ms).Ok? {
      var kept, short, gone := FinalAccounts(w, budget, ms);
    }
  }

  lemma FinalAccounts(w: World, budget: int, ms: seq<Message>) returns (kept: seq<nat>, short: seq<Message>, gone: set<string>)
    requires ms != [] && Trim(w, budget, ms).Ok?
    ensures Accounts(ms, Trim(w, budget, ms).value, kept, short, gone)
  {
    FinalCounts(w, budget, ms);
    CutCounts(w, budget, Chosen(w, budget, ms));
    kept, short, gone := FinalPackedFrom(w, budget, Systems(ms), Turns(Spoken(ms)));
  }

  /** A list that fits is returned as it is, system messages first; without system messages it is the same list. */
  lemma TrimFits(w: World, budget: int, ms: seq<Message>)
    requires Estimate(w, ms) <= budget
    ensures var all := Systems(ms) + Spoken(ms);
            Trim(w, budget, ms) == if Protocol(all) then Ok(Packed(all, 0, 0, Estimate(w, ms))) else Err(OrphanTool)
    ensures (forall m :: m in ms ==> !m.System?) ==> Systems(ms) + Spoken(ms) == ms
  {
    FitsChosen(w, budget, ms);
    FitsFinal(w, budget, Chosen(w, budget, ms));
    SeparationCounts(ms);
    if forall m :: m in ms ==> !m.System? { AllSpoken(ms); }
  }

  lemma FitsChosen(w: World, budget: int, ms: seq<Message>)
    requires Estimate(w, ms) <= budget
    ensures Chosen(w, budget, ms) == Systems(ms) + Spoken(ms) && Estimate(w, Chosen(w, budget, ms)) == Estimate(w, ms)
  {
    TotalSeparated(w, ms);
    TotalAppend(w, Systems(ms), Spoken(ms));
    AllTurnsKept(w, budget, ms);
    FlattenTurns(Spoken(ms));
    PickAll(Turns(Spoken(ms)));
  }

  lemma FitsFinal(w: World, budget: int, chosen: seq<Message>)
    requires Estimate(w, chosen) <= budget
    ensures Final(w, budget, chosen) == chosen && |Compacted(w, budget, chosen).cut| == 0
  {
    CompactOutcome(w, budget, chosen, AtomicIds(w, chosen));
    assert Compacted(w, budget, chosen).cut == {};
  }

  lemma PickAll(turns: seq<seq<Message>>)
    ensures Pick(turns, Below(|turns|)) == Flatten(turns)
  {
    var kept := Below(|turns|);
    AtReads(turns, kept);
    AtRises(turns, kept);
    var at := At(turns, kept);
    forall i | 0 <= i < |Flatten(turns)| ensures i in at { AtAll(turns, i); }
    RisingStarts(at, |Flatten(turns)|);
    PickCounts(turns, kept);
  }

  lemma {:induction false} AllSpoken(ms: seq<Message>)
    requires forall m :: m in ms ==> !m.System?
    ensures Systems(ms) == [] && Spoken(ms) == ms
  {
    if ms != [] {
      assert ms[0] in ms;
      AllSpoken(ms[1..]);
    }
  }

  /** The budget error is raised only when nothing more can go: the newest turn alone is left, every divisible message is
      at its minimum and every typed web result but the protected one is evicted. It says whether one is left. */
  lemma TrimRefuses(w: World, budget: int, ms: seq<Message>, atomicWeb: bool)
    requires ms != [] && Trim(w, budget, ms) == Err(OverBudget(atomicWeb))
    ensures var turns := Turns(Spoken(ms)); |Kept(w, budget, Systems(ms), turns)| <= 1
    ensures var chosen := Chosen(w, budget, ms);
            var short := Compacted(w, budget, chosen).ms;
            var out, rs := Final(w, budget, chosen), WebResults(w, short);
            && Estimate(w, out) > budget && |short| == |chosen|
            && (forall i :: 0 <= i < |chosen| && Divisible(chosen[i], AtomicIds(w, chosen)) ==> Short(short[i]))
            && (rs != [] ==> out == Pruned(short, Elems(EvictionOrder(rs))))
            && (atomicWeb <==> exists i :: FromWeb(w, out, i))
  {
    var turns, chosen := Turns(Spoken(ms)), Chosen(w, budget, ms);
    if |Kept(w, budget, Systems(ms), turns)| > 1 {
      KeptIsMaximal(w, budget, Systems(ms), turns);
      OlderTurnsStayWhole(w, budget, ms);
    }
    FinalRefuses(w, budget, chosen);
    AtomicMeans(w, Final(w, budget, chosen));
  }

  lemma FinalRefuses(w: World, budget: int, chosen: seq<Message>)
    requires Estimate(w, Final(w, budget, chosen)) > budget
    ensures var short := Compacted(w, budget, chosen).ms;
            var out, rs := Final(w, budget, chosen), WebResults(w, short);
            && |short| == |chosen|
            && (forall i :: 0 <= i < |chosen| && Divisible(chosen[i], AtomicIds(w, chosen)) ==> Short(short[i]))
            && (rs != [] ==> out == Pruned(short, Elems(EvictionOrder(rs))))
  {
    CompactOutcome(w, budget, chosen, AtomicIds(w, chosen));
    var short := Compacted(w, budget, chosen).ms;
    var rs := WebResults(w, short);
    if rs != [] {
      var k := EvictShortest(w, budget, short, EvictionOrder(rs));
      assert EvictionOrder(rs)[..|EvictionOrder(rs)|] == EvictionOrder(rs);
    }
  }

  lemma AtomicMeans(w: World, ms: seq<Message>)
    ensures AtomicIds(w, ms) != {} <==> exists i :: FromWeb(w, ms, i)
  {
    var at := WebResultsExact(w, ms);
    var rs := WebResults(w, ms);
    if rs != [] {
      assert rs[0] in rs && rs[0].id in AtomicIds(w, ms);
      assert FromWeb(w, ms, at[0]);
    }
    if i :| FromWeb(w, ms, i) {
      assert i in at;
      assert rs != [] && rs[0] in rs && rs[0].id in AtomicIds(w, ms);
    }
  }
}
