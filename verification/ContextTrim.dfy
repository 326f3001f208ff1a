/** Packing a conversation into its token budget: whole turns, then shortening, then web eviction. */
module ContextTrim {
  import opened Prelude
  import opened ContextMessages
  import opened ContextCompaction
  import opened ContextEviction
  import opened ContextChoice
  import opened Selections

  // ---------- Turns ----------

  /** A message in front of the turns that follow it, as a turn of its own or as part of the first. */
  function Lead(m: Message, apart: bool, turns: seq<seq<Message>>): seq<seq<Message>> {
    if turns == [] || apart then [[m]] + turns else [[m] + turns[0]] + turns[1..]
  }

  function Turns(ms: seq<Message>): (turns: seq<seq<Message>>)
    ensures turns == [] <==> ms == []
  {
    if ms == [] then [] else Lead(ms[0], |ms| > 1 && ms[1].Human?, Turns(ms[1..]))
  }

  /** A division into turns: consecutive nonempty runs, a new one at every prompt and nowhere else. */
  ghost predicate IsTurns(ms: seq<Message>, turns: seq<seq<Message>>) {
    && Flatten(turns) == ms
    && (forall i :: 0 <= i < |turns| ==> turns[i] != [])
    && (forall i :: 1 <= i < |turns| ==> turns[i] != [] && turns[i][0].Human?)
    && (forall i, k :: 0 <= i < |turns| && 1 <= k < |turns[i]| ==> !turns[i][k].Human?)
  }

  lemma TurnsMerge(m: Message, ms: seq<Message>, turns: seq<seq<Message>>)
    requires IsTurns(ms, turns) && turns != [] && !turns[0][0].Human?
    ensures IsTurns([m] + ms, [[m] + turns[0]] + turns[1..])
  {
    var merged := [[m] + turns[0]] + turns[1..];
    assert merged[1..] == turns[1..];
    assert merged[0] + Flatten(turns[1..]) == [m] + (turns[0] + Flatten(turns[1..]));
    forall i, k | 0 <= i < |merged| && 1 <= k < |merged[i]| ensures !merged[i][k].Human? {
      if i == 0 { assert merged[0][k] == turns[0][k - 1]; } else { assert merged[i] == turns[i]; }
    }
  }

  lemma {:induction false} TurnsAre(ms: seq<Message>)
    ensures IsTurns(ms, Turns(ms))
    ensures Turns(ms) == [] <==> ms == []
    ensures ms != [] ==> Turns(ms)[0][0] == ms[0]
  {
    if ms != [] {
      TurnsAre(ms[1..]);
      var rest, turns := Turns(ms[1..]), Turns(ms);
      if rest != [] { assert rest[0][0] == ms[1]; }
      if rest == [] || ms[1].Human? {
        assert turns[1..] == rest;
      } else {
        TurnsMerge(ms[0], ms[1..], rest);
      }
    }
  }

  ghost predicate OneTurn(turn: seq<Message>) {
    turn != [] && forall k :: 1 <= k < |turn| ==> !turn[k].Human?
  }

  /** A run without a later prompt is a turn of its own when a prompt, or nothing, follows. */
  lemma {:induction false} TurnsSplit(turn: seq<Message>, rest: seq<Message>)
    requires OneTurn(turn) && (rest == [] || rest[0].Human?)
    ensures Turns(turn + rest) == [turn] + Turns(rest)
    decreases |turn|
  {
    var ms := turn + rest;
    assert ms[1..] == turn[1..] + rest;
    if |turn| == 1 {
      assert ms[1..] == rest && turn == [ms[0]];
      TurnsAre(rest);
    } else {
      assert turn[1..][0] == turn[1];
      TurnsSplit(turn[1..], rest);
      assert ms[1] == turn[1];
      assert turn == [turn[0]] + turn[1..];
    }
  }

  method ConversationTurns(ms: seq<Message>) returns (turns: seq<seq<Message>>)
    ensures turns == Turns(ms)
  {
    turns := [];
    var current := [];
    ghost var goal := Turns(ms);
    assert current + ms[0..] == ms;
    for i := 0 to |ms|
      invariant Splits(turns, current, ms[i..], goal)
    {
      if ms[i].Human? && current != [] {
        CloseTurn(turns, current, ms[i..], goal);
        turns := turns + [current];
        current := [];
      }
      TakeOne(current, ms, i);
      current := current + [ms[i]];
    }
    TurnsDone(current, ms[|ms|..]);
    if current != [] { turns := turns + [current]; }
  }

  /** The closed turns, the open one and the messages still to come make up the goal. */
  ghost predicate Splits(turns: seq<seq<Message>>, current: seq<Message>, rest: seq<Message>, goal: seq<seq<Message>>) {
    (current != [] ==> OneTurn(current)) && turns + Turns(current + rest) == goal
  }

  lemma CloseTurn(turns: seq<seq<Message>>, current: seq<Message>, rest: seq<Message>, goal: seq<seq<Message>>)
    requires Splits(turns, current, rest, goal) && current != [] && rest != [] && rest[0].Human?
    ensures Splits(turns + [current], [], rest, goal)
  {
    TurnsSplit(current, rest);
    AppendOne(turns, current, Turns(rest));
    assert [] + rest == rest;
  }

  lemma AppendOne<T>(a: seq<T>, x: T, b: seq<T>)
    ensures a + ([x] + b) == (a + [x]) + b
  {
  }

  lemma TakeOne(current: seq<Message>, ms: seq<Message>, i: nat)
    requires i < |ms| && (current != [] ==> OneTurn(current) && !ms[i].Human?)
    ensures current + ms[i..] == (current + [ms[i]]) + ms[i + 1..]
    ensures OneTurn(current + [ms[i]])
  {
    assert ms[i..] == [ms[i]] + ms[i + 1..];
  }

  lemma TurnsDone(current: seq<Message>, rest: seq<Message>)
    requires rest == [] && (current != [] ==> OneTurn(current))
    ensures Turns(current + rest) == if current == [] then [] else [current]
  {
    assert current + rest == current + [];
    if current != [] { TurnsSplit(current, []); }
  }

  // ---------- Choosing turns ----------

  predicate Among(turns: seq<seq<Message>>, kept: seq<nat>) {
    forall a :: 0 <= a < |kept| ==> kept[a] < |turns|
  }

  function Pick(turns: seq<seq<Message>>, kept: seq<nat>): seq<Message> {
    if kept == [] then []
    else (if kept[0] < |turns| then turns[kept[0]] else []) + Pick(turns, kept[1..])
  }

  function Sizes(w: World, turns: seq<seq<Message>>): (sizes: seq<nat>)
    ensures |sizes| == |turns|
  {
    if turns == [] then [] else [Total(w, turns[0])] + Sizes(w, turns[1..])
  }

  lemma {:induction false} SizesAt(w: World, turns: seq<seq<Message>>, t: nat)
    requires t < |turns|
    ensures Sizes(w, turns)[t] == Total(w, turns[t])
  {
    if t > 0 { SizesAt(w, turns[1..], t - 1); }
  }

  /** The newest turn, then every older one that still fits, newest first. */
  function Kept(w: World, budget: int, systems: seq<Message>, turns: seq<seq<Message>>): seq<nat> {
    if turns == [] then [] else KeepNewest(budget, Sizes(w, turns), Estimate(w, systems)).kept
  }

  lemma {:induction false} PickSize(w: World, turns: seq<seq<Message>>, kept: seq<nat>)
    ensures Total(w, Pick(turns, kept)) == SumAt(Sizes(w, turns), kept)
  {
    if kept != [] {
      PickSize(w, turns, kept[1..]);
      TotalAppend(w, if kept[0] < |turns| then turns[kept[0]] else [], Pick(turns, kept[1..]));
      if kept[0] < |turns| { SizesAt(w, turns, kept[0]); }
    }
  }

  /** The choice keeps the newest turn and fits whenever it keeps more; an older turn is left out exactly when it does not
      fit on top of the newer ones kept. */
  lemma KeptIsMaximal(w: World, budget: int, systems: seq<Message>, turns: seq<seq<Message>>)
    requires turns != []
    ensures var kept := Kept(w, budget, systems, turns);
            && kept != [] && kept[|kept| - 1] == |turns| - 1 && Rising(kept)
            && (|kept| > 1 ==> Estimate(w, systems + Pick(turns, kept)) <= budget)
            && forall t :: 0 <= t < |turns| && t !in kept ==>
                 Estimate(w, systems + (turns[t] + Pick(turns, Newer(kept, t)))) > budget
  {
    var kept, sizes := Kept(w, budget, systems, turns), Sizes(w, turns);
    KeepNewestChooses(budget, sizes, Estimate(w, systems));
    SelectedSize(w, systems, turns, kept);
    forall t | 0 <= t < |turns| && t !in kept
      ensures Estimate(w, systems + (turns[t] + Pick(turns, Newer(kept, t)))) > budget
    {
      assert Excess(budget, sizes, Estimate(w, systems), kept, t);
      PickSize(w, turns, Newer(kept, t));
      SizesAt(w, turns, t);
      TotalOfThree(w, systems, turns[t], Pick(turns, Newer(kept, t)));
    }
  }

  lemma SelectedSize(w: World, systems: seq<Message>, turns: seq<seq<Message>>, kept: seq<nat>)
    ensures Estimate(w, systems + Pick(turns, kept)) == Estimate(w, systems) + SumAt(Sizes(w, turns), kept)
  {
    PickSize(w, turns, kept);
    TotalAppend(w, systems, Pick(turns, kept));
  }

  lemma KeptRises(w: World, budget: int, systems: seq<Message>, turns: seq<seq<Message>>)
    ensures Rising(Kept(w, budget, systems, turns)) && Among(turns, Kept(w, budget, systems, turns))
    ensures turns != [] ==> |turns| - 1 in Kept(w, budget, systems, turns)
  {
    if turns != [] {
      KeptIsMaximal(w, budget, systems, turns);
      RisingBelow(Kept(w, budget, systems, turns), |turns|);
    }
  }

  lemma RisingBelow(kept: seq<nat>, n: nat)
    requires Rising(kept) && kept != [] && kept[|kept| - 1] == n - 1
    ensures n - 1 in kept && forall a :: 0 <= a < |kept| ==> kept[a] < n
  {
  }

  lemma KeptNewest(w: World, budget: int, systems: seq<Message>, turns: seq<seq<Message>>)
    requires turns != []
    ensures var kept := Kept(w, budget, systems, turns);
            kept != [] && kept[|kept| - 1] == |turns| - 1
  {
    KeptIsMaximal(w, budget, systems, turns);
  }

  // ---------- Trim ----------

  datatype Packed = Packed(messages: seq<Message>, removed: nat, truncated: nat, estimated: nat)
  datatype PackError = OverBudget(atomicWeb: bool) | OrphanTool

  function Systems(ms: seq<Message>): seq<Message> {
    if ms == [] then [] else (if ms[0].System? then [ms[0]] else []) + Systems(ms[1..])
  }

  function Spoken(ms: seq<Message>): seq<Message> {
    if ms == [] then [] else (if ms[0].System? then [] else [ms[0]]) + Spoken(ms[1..])
  }

  lemma {:induction false} Separated(ms: seq<Message>)
    ensures forall m :: m in Systems(ms) <==> m in ms && m.System?
    ensures forall m :: m in Spoken(ms) <==> m in ms && !m.System?
  {
    if ms != [] { Separated(ms[1..]); }
  }

  function Chosen(w: World, budget: int, ms: seq<Message>): seq<Message> {
    var turns := Turns(Spoken(ms));
    Systems(ms) + Pick(turns, Kept(w, budget, Systems(ms), turns))
  }

  function Compacted(w: World, budget: int, ms: seq<Message>): Pack {
    Compact(w, budget, Pack(ms, {}), AtomicIds(w, ms))
  }

  function Final(w: World, budget: int, ms: seq<Message>): seq<Message> {
    var p := Compacted(w, budget, ms);
    if Estimate(w, p.ms) > budget then Evict(w, budget, p.ms) else p.ms
  }

  function Trim(w: World, budget: int, ms: seq<Message>): Answer<Packed, PackError> {
    if ms == [] then Ok(Packed([], 0, 0, Estimate(w, [])))
    else
      var chosen := Chosen(w, budget, ms);
      var out := Final(w, budget, chosen);
      if Estimate(w, out) > budget then Err(OverBudget(AtomicIds(w, out) != {}))
      else if !Protocol(out) then Err(OrphanTool)
      else Ok(Packed(out, Max(0, |ms| - |out|), |Compacted(w, budget, chosen).cut|, Estimate(w, out)))
  }

  method AssertToolProtocol(ms: seq<Message>) returns (ok: bool)
    ensures ok <==> Protocol(ms)
  {
    var visible: set<string> := {};
    for i := 0 to |ms|
      invariant ProtocolFrom(visible, ms[i..]) <==> Protocol(ms)
    {
      assert ms[i..][1..] == ms[i + 1..];
      if ms[i].Tool? && ms[i].callId !in visible { return false; }
      visible := visible + IdsOf(ms[i]);
    }
    ok := true;
  }

  lemma PickCons(turns: seq<seq<Message>>, t: nat, kept: seq<nat>)
    requires t < |turns|
    ensures Pick(turns, [t] + kept) == turns[t] + Pick(turns, kept)
  {
    assert ([t] + kept)[1..] == kept;
  }

  method RetainTurns(w: World, budget: int, systems: seq<Message>, turns: seq<seq<Message>>)
    returns (retained: seq<Message>)
    ensures retained == systems + Pick(turns, Kept(w, budget, systems, turns))
  {
    if turns == [] { return systems; }
    var n := |turns| - 1;
    var recent := turns[n];
    ghost var kept: seq<nat>, goal := [n], Kept(w, budget, systems, turns);
    KeepsNewest(w, budget, systems, turns);
    retained := systems + recent;
    var i := n;
    while i > 0
      invariant retained == systems + recent && Keeping(w, budget, systems, turns, i, kept, recent, goal)
    {
      i := i - 1;
      KeepsOlder(w, budget, systems, turns, i, kept, recent, goal);
      var candidate := systems + turns[i] + recent;
      if Estimate(w, candidate) <= budget {
        kept, recent, retained := [i] + kept, turns[i] + recent, candidate;
      }
    }
  }

  /** The messages of the selection so far, from which the rest of the choice reaches the goal. */
  ghost predicate Keeping(w: World, budget: int, systems: seq<Message>, turns: seq<seq<Message>>, i: nat, kept: seq<nat>,
                          recent: seq<Message>, goal: seq<nat>)
  {
    && i <= |turns| && recent == Pick(turns, kept)
    && KeepFrom(budget, Sizes(w, turns), i, Selection(kept, Estimate(w, systems + recent))).kept == goal
  }

  lemma KeepsNewest(w: World, budget: int, systems: seq<Message>, turns: seq<seq<Message>>)
    requires turns != []
    ensures var n := |turns| - 1; Keeping(w, budget, systems, turns, n, [n], turns[n], Kept(w, budget, systems, turns))
  {
    PickCons(turns, |turns| - 1, []);
    SizesAt(w, turns, |turns| - 1);
    TotalAppend(w, systems, turns[|turns| - 1]);
  }

  lemma KeepsOlder(w: World, budget: int, systems: seq<Message>, turns: seq<seq<Message>>, i: nat, kept: seq<nat>,
                   recent: seq<Message>, goal: seq<nat>)
    requires Keeping(w, budget, systems, turns, i + 1, kept, recent, goal)
    ensures systems + turns[i] + recent == systems + (turns[i] + recent)
    ensures if Estimate(w, systems + turns[i] + recent) <= budget
            then Keeping(w, budget, systems, turns, i, [i] + kept, turns[i] + recent, goal)
            else Keeping(w, budget, systems, turns, i, kept, recent, goal)
  {
    PickCons(turns, i, kept);
    SizesAt(w, turns, i);
    CandidateSize(w, systems, turns[i], recent);
  }

  lemma CandidateSize(w: World, systems: seq<Message>, turn: seq<Message>, recent: seq<Message>)
    ensures systems + turn + recent == systems + (turn + recent)
    ensures Estimate(w, systems + turn + recent) == Estimate(w, systems + recent) + Total(w, turn)
  {
    Associates(systems, turn, recent);
    TotalOfThree(w, systems, turn, recent);
    TotalAppend(w, systems, recent);
  }

  lemma TotalOfThree(w: World, a: seq<Message>, b: seq<Message>, c: seq<Message>)
    ensures Total(w, a + (b + c)) == Total(w, a) + Total(w, b) + Total(w, c)
  {
    TotalAppend(w, a, b + c);
    TotalAppend(w, b, c);
  }

  method PackDown(w: World, budget: int, chosen: seq<Message>)
    returns (retained: seq<Message>, truncated: nat, estimated: nat)
    ensures retained == Final(w, budget, chosen) && estimated == Estimate(w, retained)
    ensures truncated == |Compacted(w, budget, chosen).cut|
  {
    retained, truncated, estimated := CompactToBudget(w, chosen, budget, AtomicIds(w, chosen));
    if estimated > budget {
      retained, estimated := EvictOlderWebToolBundles(w, budget, retained);
    }
  }

  method TrimMessagesToBudget(w: World, budget: int, ms: seq<Message>) returns (r: Answer<Packed, PackError>)
    ensures r == Trim(w, budget, ms)
  {
    if ms == [] { return Ok(Packed([], 0, 0, Estimate(w, []))); }
    var systems, conversation := Systems(ms), Spoken(ms);
    var turns := ConversationTurns(conversation);
    var retained := RetainTurns(w, budget, systems, turns);
    assert retained == Chosen(w, budget, ms);
    var truncated, estimated;
    retained, truncated, estimated := PackDown(w, budget, retained);
    if estimated > budget { return Err(OverBudget(AtomicIds(w, retained) != {})); }
    var ok := AssertToolProtocol(retained);
    if !ok { return Err(OrphanTool); }
    r := Ok(Packed(retained, Max(0, |ms| - |retained|), truncated, estimated));
  }

  // ---------- What trimming guarantees ----------

  ghost predicate ShapesKept(ms: seq<Message>, out: seq<Message>) {
    |out| == |ms| && forall i :: 0 <= i < |ms| ==> out[i] == ms[i] || Cut(ms[i], out[i])
  }

  lemma {:induction false} ShapesProtocol(v: set<string>, ms: seq<Message>, out: seq<Message>)
    requires ShapesKept(ms, out) && ProtocolFrom(v, ms)
    ensures ProtocolFrom(v, out)
    decreases |ms|
  {
    if ms != [] {
      assert out[0] == ms[0] || Cut(ms[0], out[0]);
      forall i | 0 <= i < |ms[1..]| ensures out[1..][i] == ms[1..][i] || Cut(ms[1..][i], out[1..][i]) {
        assert out[i + 1] == ms[i + 1] || Cut(ms[i + 1], out[i + 1]);
      }
      ShapesProtocol(v + IdsOf(ms[0]), ms[1..], out[1..]);
    }
  }

  lemma CompactedShapes(w: World, budget: int, ms: seq<Message>)
    ensures ShapesKept(ms, Compacted(w, budget, ms).ms)
  {
    CompactOutcome(w, budget, ms, AtomicIds(w, ms));
    var r := Compacted(w, budget, ms);
    forall i | 0 <= i < |ms| ensures r.ms[i] == ms[i] || Cut(ms[i], r.ms[i]) {
      assert i in r.cut <==> r.ms[i] != ms[i];
    }
  }

  /** The final list is the compacted one minus whole bundles, none of them the protected one. */
  lemma FinalIsPruned(w: World, budget: int, ms: seq<Message>) returns (gone: set<string>)
    ensures Final(w, budget, ms) == Pruned(Compacted(w, budget, ms).ms, gone)
    ensures gone <= AtomicIds(w, Compacted(w, budget, ms).ms)
    ensures Estimate(w, Compacted(w, budget, ms).ms) <= budget ==> gone == {}
    ensures gone != {} ==> ProtectedId(WebResults(w, Compacted(w, budget, ms).ms)) !in gone
  {
    var p := Compacted(w, budget, ms).ms;
    gone := {};
    PrunedNone(p);
    var rs := WebResults(w, p);
    if Estimate(w, p) > budget && rs != [] {
      var order := EvictionOrder(rs);
      var k := EvictShortest(w, budget, p, order);
      EvictionPriority(rs, k);
      gone := Elems(order[..k]);
      forall id | id in gone ensures id in AtomicIds(w, p) {
        assert id in order;
        var e :| WebResult(id, e) in rs;
        assert WebResult(id, e).id == id;
      }
    }
  }

  ghost predicate SelfContained(ms: seq<Message>) {
    var turns := Turns(Spoken(ms));
    forall i :: 0 <= i < |turns| ==> Protocol(turns[i])
  }

  lemma {:induction false} PickProtocol(turns: seq<seq<Message>>, kept: seq<nat>)
    requires Among(turns, kept)
    requires forall i :: 0 <= i < |turns| ==> Protocol(turns[i])
    ensures Protocol(Pick(turns, kept))
    decreases |kept|
  {
    if kept != [] {
      PickProtocol(turns, kept[1..]);
      ProtocolAppend({}, turns[kept[0]], Pick(turns, kept[1..]));
    }
  }

  lemma {:induction false} SystemsProtocol(ms: seq<Message>)
    requires forall m :: m in ms ==> m.System?
    ensures Protocol(ms)
  {
    if ms != [] {
      SystemsProtocol(ms[1..]);
      assert ms[0] in ms;
      ProtocolGrows({}, {} + IdsOf(ms[0]), ms[1..]);
    }
  }

  /** When each turn holds the call for each of its results, packing never leaves an orphan. */
  lemma NeverOrphaned(w: World, budget: int, ms: seq<Message>)
    requires SelfContained(ms)
    ensures Trim(w, budget, ms) != Err(OrphanTool)
  {
    if ms != [] {
      var turns, systems := Turns(Spoken(ms)), Systems(ms);
      var kept := Kept(w, budget, systems, turns);
      var chosen := Chosen(w, budget, ms);
      KeptRises(w, budget, systems, turns);
      PickProtocol(turns, kept);
      Separated(ms);
      SystemsProtocol(systems);
      ProtocolAppend({}, systems, Pick(turns, kept));
      CompactedShapes(w, budget, chosen);
      ShapesProtocol({}, chosen, Compacted(w, budget, chosen).ms);
      var gone := FinalIsPruned(w, budget, chosen);
      PrunedProtocol({}, Compacted(w, budget, chosen).ms, gone);
      assert {} - gone == {};
    }
  }

  /** An older turn is kept only when everything fits as it is: then nothing is cut or evicted. */
  lemma OlderTurnsStayWhole(w: World, budget: int, ms: seq<Message>)
    requires ms != [] && |Kept(w, budget, Systems(ms), Turns(Spoken(ms)))| > 1
    ensures Final(w, budget, Chosen(w, budget, ms)) == Chosen(w, budget, ms)
  {
    var turns := Turns(Spoken(ms));
    KeptIsMaximal(w, budget, Systems(ms), turns);
    CompactOutcome(w, budget, Chosen(w, budget, ms), AtomicIds(w, Chosen(w, budget, ms)));
  }

  ghost predicate LastPrompt(ms: seq<Message>, i: int) {
    0 <= i < |ms| && ms[i].Human? && forall k :: i < k < |ms| ==> !ms[k].Human?
  }

  /** Before a prompt the conversation can be divided on its own. */
  lemma {:induction false} TurnsCut(ms: seq<Message>, rest: seq<Message>)
    requires rest != [] && rest[0].Human?
    ensures Turns(ms + rest) == Turns(ms) + Turns(rest)
    decreases |ms|
  {
    if ms == [] {
      assert ms + rest == rest;
    } else {
      var apart := if |ms| > 1 then ms[1].Human? else true;
      TailAppends(ms, rest);
      assert (ms + rest)[1].Human? == apart;
      TurnsCut(ms[1..], rest);
      LeadAppends(ms[0], apart, Turns(ms[1..]), Turns(rest));
    }
  }

  lemma LeadAppends(m: Message, apart: bool, a: seq<seq<Message>>, b: seq<seq<Message>>)
    requires a == [] ==> apart
    ensures Lead(m, apart, a + b) == Lead(m, apart, a) + b
  {
    if a == [] {
      assert a + b == b;
    } else if apart {
      Associates([[m]], a, b);
    } else {
      TailAppends(a, b);
      Associates([[m] + a[0]], a[1..], b);
    }
  }

  lemma TailAppends<T>(a: seq<T>, b: seq<T>)
    requires a != []
    ensures (a + b)[0] == a[0] && (a + b)[1..] == a[1..] + b
  {
  }

  /** The newest turn starts with the newest prompt. */
  lemma LastTurnPrompt(ms: seq<Message>, i: nat)
    requires LastPrompt(ms, i)
    ensures var turns := Turns(ms);
            turns != [] && turns[|turns| - 1] == ms[i..] && turns[|turns| - 1][0] == ms[i]
  {
    assert ms == ms[..i] + ms[i..];
    TurnsCut(ms[..i], ms[i..]);
    TurnsSplit(ms[i..], []);
    assert ms[i..] + [] == ms[i..];
  }

  /** Through both passes a typed web result is either dropped with its whole bundle or kept as it was. */
  lemma WebResultsIntact(w: World, budget: int, ms: seq<Message>) returns (gone: set<string>)
    requires MarkerUnparsed(w)
    ensures Final(w, budget, ms) == Pruned(Compacted(w, budget, ms).ms, gone) && gone <= AtomicIds(w, ms)
    ensures gone != {} ==> ProtectedId(WebResults(w, ms)) !in gone
    ensures forall i :: 0 <= i < |ms| && IsWebResult(w, WebCallIds(ms), ms[i]) && ms[i].callId !in gone ==>
              ms[i] in Final(w, budget, ms)
    ensures forall m :: m in Final(w, budget, ms) && m.Tool? && m.callId in AtomicIds(w, ms) ==>
              m in ms && m.callId !in gone
  {
    CompactKeepsWebResults(w, budget, ms);
    CompactOutcome(w, budget, ms, AtomicIds(w, ms));
    gone := FinalIsPruned(w, budget, ms);
    var p := Compacted(w, budget, ms);
    forall i | 0 <= i < |ms| && IsWebResult(w, WebCallIds(ms), ms[i]) && ms[i].callId !in gone
      ensures ms[i] in Final(w, budget, ms)
    {
      PrunedKeeps(p.ms, gone, i);
    }
    forall m | m in Final(w, budget, ms) && m.Tool? && m.callId in AtomicIds(w, ms)
      ensures m in ms && m.callId !in gone
    {
      AtomicUnchanged(w, budget, ms, p, gone, m);
    }
  }

  lemma AtomicUnchanged(w: World, budget: int, ms: seq<Message>, p: Pack, gone: set<string>, m: Message)
    requires Compacts(w, budget, ms, AtomicIds(w, ms), p)
    requires m in Pruned(p.ms, gone) && m.Tool? && m.callId in AtomicIds(w, ms)
    ensures m in ms && m.callId !in gone
  {
    PrunedTools(p.ms, gone, m);
    var i :| 0 <= i < |p.ms| && p.ms[i] == m;
    assert i in p.cut <==> p.ms[i] != ms[i];
  }

  /** out is made of whole turns in order, some messages shortened, minus whole bundles named in gone. */
  ghost predicate PackedFrom(systems: seq<Message>, turns: seq<seq<Message>>, out: seq<Message>,
                             kept: seq<nat>, short: seq<Message>, gone: set<string>) {
    && Among(turns, kept) && Rising(kept) && (turns != [] ==> |turns| - 1 in kept)
    && ShapesKept(systems + Pick(turns, kept), short) && out == Pruned(short, gone)
  }

  lemma FinalPackedFrom(w: World, budget: int, systems: seq<Message>, turns: seq<seq<Message>>)
    returns (kept: seq<nat>, short: seq<Message>, gone: set<string>)
    ensures var chosen := systems + Pick(turns, Kept(w, budget, systems, turns));
            && kept == Kept(w, budget, systems, turns) && short == Compacted(w, budget, chosen).ms
            && PackedFrom(systems, turns, Final(w, budget, chosen), kept, short, gone)
  {
    kept := Kept(w, budget, systems, turns);
    var chosen := systems + Pick(turns, kept);
    short := Compacted(w, budget, chosen).ms;
    KeptRises(w, budget, systems, turns);
    CompactedShapes(w, budget, chosen);
    gone := FinalIsPruned(w, budget, chosen);
  }

}
