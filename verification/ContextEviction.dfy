/** Web tool results: which are indivisible, and in what order whole call/result bundles are dropped. */
module ContextEviction {
  import opened Prelude
  import opened Text
  import opened ContextMessages
  import opened ContextCompaction
  import opened Selections

  // ---------- Typed web results ----------

  function WebIdsOf(m: Message): set<string> {
    if m.AI? then set c | c in m.calls && HasId(c) && c.name in WEB_TOOLS :: IdText(c) else {}
  }

  function WebCallIds(ms: seq<Message>): set<string> {
    if ms == [] then {} else WebIdsOf(ms[0]) + WebCallIds(ms[1..])
  }

  predicate IsWebResult(w: World, ids: set<string>, m: Message) {
    m.Tool? && (m.callId in ids || m.name in WEB_TOOLS) && w.parse(m.text).Some?
  }

  datatype WebResult = WebResult(id: string, evidence: bool)

  function ResultsIn(w: World, ids: set<string>, ms: seq<Message>): seq<WebResult> {
    if ms == [] then []
    else if IsWebResult(w, ids, ms[0]) then
      [WebResult(ms[0].callId, w.parse(ms[0].text).value)] + ResultsIn(w, ids, ms[1..])
    else ResultsIn(w, ids, ms[1..])
  }

  function WebResults(w: World, ms: seq<Message>): seq<WebResult> { ResultsIn(w, WebCallIds(ms), ms) }

  function AtomicIds(w: World, ms: seq<Message>): set<string> {
    set r | r in WebResults(w, ms) :: r.id
  }

  lemma {:induction false} ResultListed(w: World, ids: set<string>, ms: seq<Message>, i: nat)
    requires i < |ms| && IsWebResult(w, ids, ms[i])
    ensures WebResult(ms[i].callId, w.parse(ms[i].text).value) in ResultsIn(w, ids, ms)
  {
    if i > 0 { ResultListed(w, ids, ms[1..], i - 1); }
  }

  predicate WebTool(name: string) { name == "web_search" || name == "web_fetch" }

  /** The id was given to a call of a web tool. */
  ghost predicate WebCall(ms: seq<Message>, id: string) {
    exists k, c :: 0 <= k < |ms| && ms[k].AI? && c in ms[k].calls && c.id == Some(id) && id != "" && WebTool(c.name)
  }

  /** A tool result that parses and comes from a web tool, by its own name or by the call it answers. */
  ghost predicate FromWeb(w: World, ms: seq<Message>, i: int) {
    0 <= i < |ms| && ms[i].Tool? && w.parse(ms[i].text).Some? && (WebTool(ms[i].name) || WebCall(ms, ms[i].callId))
  }

  lemma {:induction false} WebCallIdsAre(ms: seq<Message>, id: string)
    ensures id in WebCallIds(ms) <==> WebCall(ms, id)
  {
    if ms != [] {
      WebCallIdsAre(ms[1..], id);
      if WebCall(ms[1..], id) {
        var k, c :| 0 <= k < |ms[1..]| && ms[1..][k].AI? && c in ms[1..][k].calls && c.id == Some(id) && id != ""
                    && WebTool(c.name);
        assert ms[k + 1].AI? && c in ms[k + 1].calls;
      }
      if WebCall(ms, id) {
        var k, c :| 0 <= k < |ms| && ms[k].AI? && c in ms[k].calls && c.id == Some(id) && id != "" && WebTool(c.name);
        if k > 0 { assert ms[1..][k - 1].AI? && c in ms[1..][k - 1].calls; }
      }
    }
  }

  /** The web result a message stands for, if it does. */
  ghost function Typed(w: World, ids: set<string>): Message -> Option<WebResult> {
    (m: Message) => if IsWebResult(w, ids, m) then Some(WebResult(m.callId, w.parse(m.text).value)) else None
  }

  lemma {:induction false} ResultsAreSelected(w: World, ids: set<string>, ms: seq<Message>)
    ensures ResultsIn(w, ids, ms) == Select(ms, Typed(w, ids))
  {
    if ms != [] {
      ResultsAreSelected(w, ids, ms[1..]);
      assert [] + Select(ms[1..], Typed(w, ids)) == Select(ms[1..], Typed(w, ids));
    }
  }

  /** The list of web results holds exactly the typed results that come from a web tool, in order, with their ids and
      whether they carry sources. */
  lemma WebResultsExact(w: World, ms: seq<Message>) returns (at: seq<nat>)
    ensures |at| == |WebResults(w, ms)| && Rising(at) && forall i: nat :: i in at <==> FromWeb(w, ms, i)
    ensures forall k :: 0 <= k < |at| ==>
              && FromWeb(w, ms, at[k])
              && WebResults(w, ms)[k] == WebResult(ms[at[k]].callId, w.parse(ms[at[k]].text).value)
  {
    ResultsAreSelected(w, WebCallIds(ms), ms);
    at := SelectFrom(ms, Typed(w, WebCallIds(ms)));
    forall i: nat | i < |ms| ensures IsWebResult(w, WebCallIds(ms), ms[i]) <==> FromWeb(w, ms, i) {
      if ms[i].Tool? { WebCallIdsAre(ms, ms[i].callId); }
    }
  }

  // ---------- Compaction leaves them alone ----------

  predicate SameShape(m: Message, m': Message) { m.(text := "") == m'.(text := "") }

  /** Position by position the same message, or a shortened one that no longer parses. */
  ghost predicate Reworded(w: World, ids: set<string>, ms: seq<Message>, out: seq<Message>) {
    && |out| == |ms|
    && forall i :: 0 <= i < |ms| ==>
         && SameShape(ms[i], out[i])
         && (out[i] != ms[i] ==> !IsWebResult(w, ids, ms[i]) && !IsWebResult(w, ids, out[i]))
  }

  lemma {:induction false} RewordedIds(w: World, ids: set<string>, ms: seq<Message>, out: seq<Message>)
    requires Reworded(w, ids, ms, out)
    ensures WebCallIds(out) == WebCallIds(ms)
    ensures ResultsIn(w, ids, out) == ResultsIn(w, ids, ms)
    decreases |ms|
  {
    if ms != [] {
      assert SameShape(ms[0], out[0]);
      var rest, tail := ms[1..], out[1..];
      forall i | 0 <= i < |rest|
        ensures SameShape(rest[i], tail[i])
        ensures tail[i] != rest[i] ==> !IsWebResult(w, ids, rest[i]) && !IsWebResult(w, ids, tail[i])
      {
        assert SameShape(ms[i + 1], out[i + 1]);
      }
      RewordedIds(w, ids, rest, tail);
    }
  }

  /** No text that ends in the truncation marker parses as a typed result. */
  ghost predicate MarkerUnparsed(w: World) {
    forall t: string :: w.parse(t + MARKER).None?
  }

  /** Compaction never alters a typed web result, and creates none. */
  lemma CompactKeepsWebResults(w: World, budget: int, ms: seq<Message>)
    requires MarkerUnparsed(w)
    ensures var r := Compact(w, budget, Pack(ms, {}), AtomicIds(w, ms));
            && |r.ms| == |ms| && WebResults(w, r.ms) == WebResults(w, ms)
            && forall i :: 0 <= i < |ms| && IsWebResult(w, WebCallIds(ms), ms[i]) ==> r.ms[i] == ms[i]
  {
    var atomic, ids := AtomicIds(w, ms), WebCallIds(ms);
    var r := Compact(w, budget, Pack(ms, {}), atomic);
    CompactOutcome(w, budget, ms, atomic);
    forall i | 0 <= i < |ms|
      ensures SameShape(ms[i], r.ms[i])
      ensures r.ms[i] != ms[i] ==> !IsWebResult(w, ids, ms[i]) && !IsWebResult(w, ids, r.ms[i])
    {
      if r.ms[i] != ms[i] {
        assert i in r.cut;
        assert Cut(ms[i], r.ms[i]);
        assert w.parse(r.ms[i].text).None?;
        if IsWebResult(w, ids, ms[i]) {
          ResultListed(w, ids, ms, i);
        }
      }
    }
    RewordedIds(w, ids, ms, r.ms);
  }

  // ---------- Removing bundles ----------

  function OtherCalls(calls: seq<Call>, gone: set<string>): (r: seq<Call>)
    ensures forall c :: c in r <==> c in calls && IdText(c) !in gone
  {
    if calls == [] then []
    else if IdText(calls[0]) in gone then OtherCalls(calls[1..], gone)
    else [calls[0]] + OtherCalls(calls[1..], gone)
  }

  predicate CallsAny(m: Message, gone: set<string>) {
    m.AI? && exists c :: c in m.calls && IdText(c) in gone
  }

  /** What is left of a message once the bundles named in gone are dropped. */
  function Prune(m: Message, gone: set<string>): (r: seq<Message>)
    ensures |r| <= 1
  {
    if m.Tool? && m.callId in gone then []
    else if CallsAny(m, gone) then
      var rest := OtherCalls(m.calls, gone);
      if rest != [] || Strip(m.text) != [] then [m.(calls := rest)] else []
    else [m]
  }

  function Pruned(ms: seq<Message>, gone: set<string>): seq<Message> {
    if ms == [] then [] else Prune(ms[0], gone) + Pruned(ms[1..], gone)
  }

  method PruneMessage(m: Message, id: string) returns (kept: seq<Message>)
    ensures kept == Prune(m, {id})
  {
    if m.Tool? && m.callId == id { return []; }
    if m.AI? && CallsAny(m, {id}) {
      var remaining := OtherCalls(m.calls, {id});
      if remaining != [] || Strip(m.text) != [] { return [m.(calls := remaining)]; }
      return [];
    }
    kept := [m];
  }

  method RemoveToolCallBundle(ms: seq<Message>, id: string) returns (retained: seq<Message>)
    ensures retained == Pruned(ms, {id})
  {
    retained := [];
    for i := 0 to |ms|
      invariant retained == Pruned(ms[..i], {id})
    {
      var kept := PruneMessage(ms[i], id);
      PrunedAppend(ms[..i], [ms[i]], {id});
      assert ms[..i + 1] == ms[..i] + [ms[i]];
      PrunedOne(ms[i], {id});
      retained := retained + kept;
    }
    assert ms[..|ms|] == ms;
  }

  lemma PrunedOne(m: Message, gone: set<string>)
    ensures Pruned([m], gone) == Prune(m, gone)
  {
    assert [m][1..] == [];
  }

  lemma {:induction false} PrunedAppend(a: seq<Message>, b: seq<Message>, gone: set<string>)
    ensures Pruned(a + b, gone) == Pruned(a, gone) + Pruned(b, gone)
  {
    if a == [] {
      assert a + b == b;
    } else {
      PrunedAppend(a[1..], b, gone);
      assert (a + b)[0] == a[0] && (a + b)[1..] == a[1..] + b;
      Associates(Prune(a[0], gone), Pruned(a[1..], gone), Pruned(b, gone));
    }
  }

  lemma Associates<T>(a: seq<T>, b: seq<T>, c: seq<T>)
    ensures (a + b) + c == a + (b + c)
  {
  }

  lemma {:induction false} OtherCallsTwice(calls: seq<Call>, a: set<string>, b: set<string>)
    ensures OtherCalls(OtherCalls(calls, a), b) == OtherCalls(calls, a + b)
  {
    if calls != [] { OtherCallsTwice(calls[1..], a, b); }
  }

  lemma {:induction false} OtherCallsAll(calls: seq<Call>, gone: set<string>)
    requires forall c :: c in calls ==> IdText(c) !in gone
    ensures OtherCalls(calls, gone) == calls
  {
    if calls != [] { OtherCallsAll(calls[1..], gone); }
  }

  lemma CallsAnyTwice(m: Message, a: set<string>, b: set<string>)
    requires m.AI?
    ensures CallsAny(m, a + b) <==> CallsAny(m, a) || CallsAny(m.(calls := OtherCalls(m.calls, a)), b)
    ensures !CallsAny(m, a) ==> OtherCalls(m.calls, a) == m.calls
    ensures !CallsAny(m.(calls := OtherCalls(m.calls, a)), b) ==>
              OtherCalls(m.calls, a + b) == OtherCalls(m.calls, a)
  {
    var kept := OtherCalls(m.calls, a);
    OtherCallsTwice(m.calls, a, b);
    if !CallsAny(m, a) { OtherCallsAll(m.calls, a); }
    if !CallsAny(m.(calls := kept), b) { OtherCallsAll(kept, b); }
  }

  lemma PruneTwice(m: Message, a: set<string>, b: set<string>)
    ensures Pruned(Prune(m, a), b) == Prune(m, a + b)
  {
    if Prune(m, a) != [] { PrunedOne(Prune(m, a)[0], b); }
    if m.AI? {
      CallsAnyTwice(m, a, b);
      OtherCallsTwice(m.calls, a, b);
      if Prune(m, a) == [] { assert OtherCalls(m.calls, a + b) == []; }
    }
  }

  /** Dropping bundles one after another is dropping them all at once. */
  lemma {:induction false} PrunedTwice(ms: seq<Message>, a: set<string>, b: set<string>)
    ensures Pruned(Pruned(ms, a), b) == Pruned(ms, a + b)
  {
    if ms != [] {
      PrunedTwice(ms[1..], a, b);
      PrunedAppend(Prune(ms[0], a), Pruned(ms[1..], a), b);
      PruneTwice(ms[0], a, b);
    }
  }

  lemma {:induction false} PrunedNone(ms: seq<Message>)
    ensures Pruned(ms, {}) == ms
  {
    if ms != [] {
      PrunedNone(ms[1..]);
      assert Prune(ms[0], {}) == [ms[0]];
    }
  }

  /** Prompts are never dropped, and a bundle outside gone keeps its result and its call. */
  lemma {:induction false} PrunedKeeps(ms: seq<Message>, gone: set<string>, i: nat)
    requires i < |ms|
    ensures ms[i].Human? || ms[i].System? || (ms[i].Tool? && ms[i].callId !in gone) ==> ms[i] in Pruned(ms, gone)
    ensures ms[i].AI? ==> forall c :: c in ms[i].calls && IdText(c) !in gone ==>
              exists m :: m in Pruned(ms, gone) && m.AI? && m.text == ms[i].text && c in m.calls
  {
    if i > 0 {
      PrunedKeeps(ms[1..], gone, i - 1);
    } else if ms[0].AI? {
      forall c | c in ms[0].calls && IdText(c) !in gone
        ensures exists m :: m in Pruned(ms, gone) && m.AI? && m.text == ms[0].text && c in m.calls
      {
        if CallsAny(ms[0], gone) {
          var m := ms[0].(calls := OtherCalls(ms[0].calls, gone));
          assert c in m.calls && Prune(ms[0], gone) == [m];
          assert m in Pruned(ms, gone);
        } else {
          assert ms[0] in Pruned(ms, gone);
        }
      }
    }
  }

  /** Nothing is invented: results survive unmodified and only outside gone. */
  lemma {:induction false} PrunedTools(ms: seq<Message>, gone: set<string>, m: Message)
    requires m in Pruned(ms, gone)
    ensures m.AI? || m in ms
    ensures m.Tool? ==> m.callId !in gone
    ensures m.AI? ==> exists o :: o in ms && o.AI? && o.text == m.text && (forall c :: c in m.calls ==> c in o.calls)
    ensures m.AI? ==> forall c :: c in m.calls ==> IdText(c) !in gone
  {
    if m in Prune(ms[0], gone) {
      assert ms[0] in ms;
    } else {
      PrunedTools(ms[1..], gone, m);
    }
  }

  lemma PruneIds(m: Message, gone: set<string>)
    ensures Prune(m, gone) == [] ==> IdsOf(m) <= gone
    ensures Prune(m, gone) != [] ==> IdsOf(Prune(m, gone)[0]) == IdsOf(m) - gone
  {
  }

  /** Dropping whole bundles leaves no result without its call. */
  lemma {:induction false} PrunedProtocol(v: set<string>, ms: seq<Message>, gone: set<string>)
    requires ProtocolFrom(v, ms)
    ensures ProtocolFrom(v - gone, Pruned(ms, gone))
    decreases |ms|
  {
    if ms != [] {
      var rest := Pruned(ms[1..], gone);
      PrunedProtocol(v + IdsOf(ms[0]), ms[1..], gone);
      PruneIds(ms[0], gone);
      if Prune(ms[0], gone) == [] {
        assert v + IdsOf(ms[0]) - gone == v - gone;
        assert Pruned(ms, gone) == rest;
      } else {
        var m := Prune(ms[0], gone)[0];
        assert Pruned(ms, gone) == [m] + rest;
        assert v + IdsOf(ms[0]) - gone == (v - gone) + IdsOf(m);
      }
    }
  }

  // ---------- Eviction ----------

  function NewestEvidence(rs: seq<WebResult>): Option<string> {
    if rs == [] then None
    else if rs[|rs| - 1].evidence then Some(rs[|rs| - 1].id)
    else NewestEvidence(rs[..|rs| - 1])
  }

  function ProtectedId(rs: seq<WebResult>): string
    requires rs != []
  {
    if NewestEvidence(rs).Some? then NewestEvidence(rs).value else rs[|rs| - 1].id
  }

  /** The newest result with sources is the protected one; without any, the newest result is. */
  lemma ProtectedIsNewest(rs: seq<WebResult>)
    requires rs != []
    ensures exists j :: && 0 <= j < |rs| && ProtectedId(rs) == rs[j].id
                        && (forall i :: j < i < |rs| ==> !rs[i].evidence)
                        && (rs[j].evidence || (j == |rs| - 1 && forall i :: 0 <= i < |rs| ==> !rs[i].evidence))
  {
    var j := NewestAt(rs);
    if j < 0 { assert ProtectedId(rs) == rs[|rs| - 1].id; }
  }

  lemma {:induction false} NewestAt(rs: seq<WebResult>) returns (j: int)
    ensures -1 <= j < |rs| && forall i :: j < i < |rs| ==> !rs[i].evidence
    ensures NewestEvidence(rs) == if j < 0 then None else Some(rs[j].id)
    ensures j >= 0 ==> rs[j].evidence
  {
    j := |rs| - 1;
    if rs != [] && !rs[j].evidence {
      var front := rs[..j];
      j := NewestAt(front);
      forall i | j < i < |front| ensures !rs[i].evidence { assert front[i] == rs[i]; }
    }
  }

  function Others(rs: seq<WebResult>, keep: string, evidence: bool): (ids: seq<string>)
    ensures forall id :: id in ids <==> id != keep && WebResult(id, evidence) in rs
  {
    if rs == [] then []
    else if rs[0].id != keep && rs[0].evidence == evidence then
      assert rs[0] == WebResult(rs[0].id, evidence);
      [rs[0].id] + Others(rs[1..], keep, evidence)
    else Others(rs[1..], keep, evidence)
  }

  function EvictionOrder(rs: seq<WebResult>): seq<string>
    requires rs != []
  {
    Others(rs, ProtectedId(rs), false) + Others(rs, ProtectedId(rs), true)
  }

  function EvictLoop(w: World, budget: int, ms: seq<Message>, order: seq<string>): seq<Message>
    decreases |order|
  {
    if order == [] || Estimate(w, ms) <= budget then ms
    else EvictLoop(w, budget, Pruned(ms, {order[0]}), order[1..])
  }

  function Evict(w: World, budget: int, ms: seq<Message>): seq<Message> {
    var rs := WebResults(w, ms);
    if rs == [] then ms else EvictLoop(w, budget, ms, EvictionOrder(rs))
  }

  /** Evicting the bundles from k on leads to the goal. */
  ghost predicate Evicting(w: World, budget: int, ms: seq<Message>, order: seq<string>, k: nat, goal: seq<Message>) {
    k <= |order| && EvictLoop(w, budget, ms, order[k..]) == goal
  }

  lemma EvictNext(w: World, budget: int, ms: seq<Message>, order: seq<string>, k: nat, goal: seq<Message>)
    requires k < |order| && Estimate(w, ms) > budget && Evicting(w, budget, ms, order, k, goal)
    ensures Evicting(w, budget, Pruned(ms, {order[k]}), order, k + 1, goal)
  {
    assert order[k..][1..] == order[k + 1..];
  }

  lemma EvictDone(w: World, budget: int, ms: seq<Message>, order: seq<string>, k: nat, goal: seq<Message>)
    requires Evicting(w, budget, ms, order, k, goal) && (k == |order| || Estimate(w, ms) <= budget)
    ensures ms == goal
  {
  }

  method EvictOlderWebToolBundles(w: World, budget: int, ms: seq<Message>)
    returns (retained: seq<Message>, estimated: nat)
    ensures retained == Evict(w, budget, ms) && estimated == Estimate(w, retained)
  {
    retained, estimated := ms, Estimate(w, ms);
    var results := WebResults(w, retained);
    if results == [] { return; }
    var order := EvictionOrder(results);
    ghost var goal := Evict(w, budget, ms);
    assert order[0..] == order;
    var k := 0;
    while k < |order| && estimated > budget
      invariant 0 <= k <= |order| && estimated == Estimate(w, retained)
      invariant Evicting(w, budget, retained, order, k, goal)
    {
      EvictNext(w, budget, retained, order, k, goal);
      retained := RemoveToolCallBundle(retained, order[k]);
      estimated := Estimate(w, retained);
      k := k + 1;
    }
    EvictDone(w, budget, retained, order, k, goal);
  }

  function Elems(s: seq<string>): set<string> { set x | x in s }

  /** out drops exactly the first k bundles of the order, and no shorter prefix would have fitted. */
  ghost predicate Shortest(w: World, budget: int, ms: seq<Message>, order: seq<string>, out: seq<Message>, k: nat) {
    && k <= |order| && out == Pruned(ms, Elems(order[..k]))
    && (k == |order| || Estimate(w, out) <= budget)
    && forall j :: 0 <= j < k ==> Estimate(w, Pruned(ms, Elems(order[..j]))) > budget
  }

  lemma {:induction false} EvictShortest(w: World, budget: int, ms: seq<Message>, order: seq<string>)
    returns (k: nat)
    ensures Shortest(w, budget, ms, order, EvictLoop(w, budget, ms, order), k)
    decreases |order|
  {
    PrunedNone(ms);
    assert Elems(order[..0]) == {};
    if order == [] || Estimate(w, ms) <= budget {
      k := 0;
    } else {
      var first, rest := {order[0]}, order[1..];
      var n := EvictShortest(w, budget, Pruned(ms, first), rest);
      k := n + 1;
      ShortestNext(w, budget, ms, order, EvictLoop(w, budget, ms, order), n);
    }
  }

  lemma ShortestNext(w: World, budget: int, ms: seq<Message>, order: seq<string>, out: seq<Message>, n: nat)
    requires order != [] && Estimate(w, ms) > budget
    requires Shortest(w, budget, Pruned(ms, {order[0]}), order[1..], out, n)
    ensures Shortest(w, budget, ms, order, out, n + 1)
  {
    PrefixPruned(ms, order, n + 1);
    forall j | 0 <= j < n + 1 ensures Estimate(w, Pruned(ms, Elems(order[..j]))) > budget {
      if j > 0 {
        PrefixPruned(ms, order, j);
      } else {
        PrunedNone(ms);
        assert Elems(order[..0]) == {};
      }
    }
  }

  lemma PrefixPruned(ms: seq<Message>, order: seq<string>, j: nat)
    requires 1 <= j <= |order|
    ensures Pruned(ms, Elems(order[..j])) == Pruned(Pruned(ms, {order[0]}), Elems(order[1..][..j - 1]))
  {
    var rest := order[1..][..j - 1];
    PrunedTwice(ms, {order[0]}, Elems(rest));
    assert order[..j] == [order[0]] + rest;
    assert Elems(order[..j]) == {order[0]} + Elems(rest);
  }

  ghost predicate DistinctIds(rs: seq<WebResult>) {
    forall i, j :: 0 <= i < j < |rs| ==> rs[i].id != rs[j].id
  }

  ghost function Unkept(keep: string, evidence: bool): WebResult -> Option<string> {
    (r: WebResult) => if r.id != keep && r.evidence == evidence then Some(r.id) else None
  }

  lemma {:induction false} OthersAreSelected(rs: seq<WebResult>, keep: string, evidence: bool)
    ensures Others(rs, keep, evidence) == Select(rs, Unkept(keep, evidence))
  {
    if rs != [] {
      OthersAreSelected(rs[1..], keep, evidence);
      assert [] + Select(rs[1..], Unkept(keep, evidence)) == Select(rs[1..], Unkept(keep, evidence));
    }
  }

  /** One part of the line holds the unprotected bundles of one kind, in order. */
  lemma OthersAt(rs: seq<WebResult>, keep: string, evidence: bool) returns (at: seq<nat>)
    ensures |at| == |Others(rs, keep, evidence)| && Rising(at)
    ensures forall i: nat :: i in at <==> i < |rs| && rs[i].id != keep && rs[i].evidence == evidence
    ensures forall k :: 0 <= k < |at| ==> at[k] < |rs| && rs[at[k]].id == Others(rs, keep, evidence)[k]
  {
    OthersAreSelected(rs, keep, evidence);
    at := SelectFrom(rs, Unkept(keep, evidence));
  }

  /** Of two bundles in one part of the line the older stands before the newer. */
  lemma OthersInOrder(rs: seq<WebResult>, keep: string, evidence: bool, i: nat, j: nat, b: nat) returns (a: nat)
    requires DistinctIds(rs) && i < j < |rs| && rs[i].evidence == evidence && rs[i].id != keep
    requires b < |Others(rs, keep, evidence)| && Others(rs, keep, evidence)[b] == rs[j].id
    ensures a < b && Others(rs, keep, evidence)[a] == rs[i].id
  {
    var at := OthersAt(rs, keep, evidence);
    assert at[b] == j;
    assert i in at;
    a :| 0 <= a < |at| && at[a] == i;
  }

  /** Among unprotected bundles alike in evidence the older is evicted first. */
  lemma OlderGoesFirst(rs: seq<WebResult>, k: nat, i: nat, j: nat)
    requires DistinctIds(rs) && i < j < |rs| && k <= |EvictionOrder(rs)| && rs[i].evidence == rs[j].evidence
    requires rs[i].id != ProtectedId(rs) && rs[j].id in EvictionOrder(rs)[..k]
    ensures rs[i].id in EvictionOrder(rs)[..k]
  {
    var order := EvictionOrder(rs);
    var p :| 0 <= p < k && order[p] == rs[j].id;
    var q := OlderStandsBefore(rs, i, j, p);
    assert order[..k][q] == rs[i].id;
  }

  lemma OlderStandsBefore(rs: seq<WebResult>, i: nat, j: nat, p: nat) returns (q: nat)
    requires DistinctIds(rs) && i < j < |rs| && rs[i].evidence == rs[j].evidence && rs[i].id != ProtectedId(rs)
    requires p < |EvictionOrder(rs)| && EvictionOrder(rs)[p] == rs[j].id
    ensures q < p && EvictionOrder(rs)[q] == rs[i].id
  {
    var keep := ProtectedId(rs);
    var bare, evident := Others(rs, keep, false), Others(rs, keep, true);
    OwnPart(rs, keep, j, p);
    var n := if rs[i].evidence then |bare| else 0;
    var a := OthersInOrder(rs, keep, rs[i].evidence, i, j, p - n);
    q := n + a;
    assert (bare + evident)[q] == if rs[i].evidence then evident[a] else bare[a];
  }

  /** A bundle stands in the part of the line for its evidence. */
  lemma OwnPart(rs: seq<WebResult>, keep: string, j: nat, p: nat)
    requires DistinctIds(rs) && j < |rs|
    requires var order := Others(rs, keep, false) + Others(rs, keep, true); p < |order| && order[p] == rs[j].id
    ensures rs[j].evidence <==> p >= |Others(rs, keep, false)|
  {
    var bare := Others(rs, keep, false);
    var at := OthersAt(rs, keep, p >= |bare|);
    var k := if p < |bare| then p else p - |bare|;
    assert rs[at[k]].id == rs[j].id;
    assert at[k] == j && at[k] in at;
  }

  /** The protected bundle is never in line, and evidence goes only after all unprotected evidence-free bundles. */
  lemma EvictionPriority(rs: seq<WebResult>, k: nat)
    requires rs != [] && k <= |EvictionOrder(rs)|
    ensures ProtectedId(rs) !in EvictionOrder(rs)
    ensures DistinctIds(rs) ==>
              forall r, s :: && r in rs && r.evidence && r.id in EvictionOrder(rs)[..k]
                             && s in rs && !s.evidence && s.id != ProtectedId(rs)
                             ==> s.id in EvictionOrder(rs)[..k]
  {
    var keep := ProtectedId(rs);
    var bare, order := Others(rs, keep, false), EvictionOrder(rs);
    forall r, s | && DistinctIds(rs) && r in rs && r.evidence && r.id in order[..k]
                  && s in rs && !s.evidence && s.id != keep
      ensures s.id in order[..k]
    {
      EvidenceApart(rs, r);
      assert r.id !in bare;
      var i :| 0 <= i < k && order[i] == r.id;
      assert i >= |bare|;
      assert s == WebResult(s.id, false);
      var j :| 0 <= j < |bare| && bare[j] == s.id;
      assert order[..k][j] == s.id;
    }
  }

  lemma EvidenceApart(rs: seq<WebResult>, r: WebResult)
    requires DistinctIds(rs) && r in rs && r.evidence
    ensures WebResult(r.id, false) !in rs
  {
    var i :| 0 <= i < |rs| && rs[i] == r;
    forall j | 0 <= j < |rs| ensures rs[j] != WebResult(r.id, false) {
      if j != i { assert rs[j].id != rs[i].id; }
    }
  }

  /** The bundles that eviction drops: a prefix of its order, and none without typed results. */
  lemma EvictDrops(w: World, budget: int, ms: seq<Message>) returns (k: nat)
    requires WebResults(w, ms) != []
    ensures k <= |EvictionOrder(WebResults(w, ms))|
    ensures Evict(w, budget, ms) == Pruned(ms, Elems(EvictionOrder(WebResults(w, ms))[..k]))
  {
    k := EvictShortest(w, budget, ms, EvictionOrder(WebResults(w, ms)));
  }

  predicate WebResultAt(w: World, ms: seq<Message>, i: nat, evidence: bool) {
    i < |ms| && IsWebResult(w, WebCallIds(ms), ms[i]) && w.parse(ms[i].text) == Some(evidence)
  }

  /** Eviction keeps the protected result, and with distinct ids an evidence result is gone only if every unprotected
      evidence-free one is gone too. */
  lemma EvictHonoursPriority(w: World, budget: int, ms: seq<Message>, i: nat, j: nat)
    requires WebResultAt(w, ms, i, true) && WebResultAt(w, ms, j, false) && DistinctIds(WebResults(w, ms))
    ensures WebResults(w, ms) != []
    ensures var out, keep := Evict(w, budget, ms), ProtectedId(WebResults(w, ms));
            && (ms[i].callId == keep ==> ms[i] in out)
            && (ms[i] !in out && ms[j].callId != keep ==> forall m :: m in out && m.Tool? ==> m.callId != ms[j].callId)
  {
    var rs, out := WebResults(w, ms), Evict(w, budget, ms);
    ResultListed(w, WebCallIds(ms), ms, i);
    ResultListed(w, WebCallIds(ms), ms, j);
    var k := EvictDrops(w, budget, ms);
    var gone := EvictionOrder(rs)[..k];
    EvictionPriority(rs, k);
    PrunedKeeps(ms, Elems(gone), i);
    assert WebResult(ms[i].callId, true) in rs && WebResult(ms[j].callId, false) in rs;
    forall m | m in out && m.Tool? ensures m.callId !in gone { PrunedTools(ms, Elems(gone), m); }
  }

  /** Among unprotected results alike in evidence, with distinct ids, the newer is gone only if the older is. */
  lemma EvictHonoursAge(w: World, budget: int, ms: seq<Message>, i: nat, j: nat)
    requires i < j < |ms| && FromWeb(w, ms, i) && FromWeb(w, ms, j) && DistinctIds(WebResults(w, ms))
    requires w.parse(ms[i].text) == w.parse(ms[j].text) && ms[j] !in Evict(w, budget, ms)
    ensures WebResults(w, ms) != []
    ensures ms[i].callId != ProtectedId(WebResults(w, ms)) ==>
              forall m :: m in Evict(w, budget, ms) && m.Tool? ==> m.callId != ms[i].callId
  {
    var rs, out := WebResults(w, ms), Evict(w, budget, ms);
    var at := WebResultsExact(w, ms);
    assert i in at && j in at;
    var a :| 0 <= a < |at| && at[a] == i;
    var b :| 0 <= b < |at| && at[b] == j;
    assert a < b;
    var k := EvictDrops(w, budget, ms);
    var gone := EvictionOrder(rs)[..k];
    PrunedKeeps(ms, Elems(gone), j);
    if ms[i].callId != ProtectedId(rs) {
      OlderGoesFirst(rs, k, a, b);
      forall m | m in out && m.Tool? ensures m.callId !in gone { PrunedTools(ms, Elems(gone), m); }
    }
  }
}
