/** Shortening messages until the request fits its budget. */
module ContextCompaction {
  import opened ContextMessages

  function Max(a: int, b: int): int { if a < b then b else a }

  /** Text length below which a message is never shortened. */
  function Floor(m: Message): nat { if m.Human? then 96 else 32 }

  function Truncate(m: Message, target: int): Message {
    if |m.text| <= target then m
    else
      var size := Max(target - |MARKER|, 1);
      m.(text := (if size <= |m.text| then m.text[..size] else m.text) + MARKER)
  }

  predicate Eligible(m: Message, atomic: set<string>) {
    !(m.System? && m.dynamic) && !(m.Tool? && m.callId in atomic)
  }

  // ---------- Order of candidates ----------

  function Rank(m: Message): nat { if m.Tool? then 0 else if m.AI? then 1 else 2 }

  predicate Before(ms: seq<Message>, i: nat, j: nat)
    requires i < |ms| && j < |ms|
  {
    || Rank(ms[i]) < Rank(ms[j])
    || (Rank(ms[i]) == Rank(ms[j])
        && (|ms[i].text| > |ms[j].text| || (|ms[i].text| == |ms[j].text| && i < j)))
  }

  predicate InRange(ms: seq<Message>, order: seq<nat>) {
    forall k :: 0 <= k < |order| ==> order[k] < |ms|
  }

  function Place(ms: seq<Message>, order: seq<nat>, i: nat): seq<nat>
    requires i < |ms| && InRange(ms, order)
  {
    if order == [] then [i]
    else if Before(ms, order[0], i) then [order[0]] + Place(ms, order[1..], i)
    else [i] + order
  }

  predicate Listed(ms: seq<Message>, order: seq<nat>) {
    && InRange(ms, order)
    && forall a, b :: 0 <= a < b < |order| ==> Before(ms, order[a], order[b])
  }

  lemma {:induction false} PlaceListed(ms: seq<Message>, order: seq<nat>, i: nat)
    requires i < |ms| && Listed(ms, order) && i !in order
    ensures Listed(ms, Place(ms, order, i))
    ensures forall k :: k in Place(ms, order, i) <==> k in order || k == i
  {
    if order != [] && Before(ms, order[0], i) {
      PlaceListed(ms, order[1..], i);
      var rest := Place(ms, order[1..], i);
      assert order == [order[0]] + order[1..];
      forall b | 0 <= b < |rest| ensures Before(ms, order[0], rest[b]) {
        assert rest[b] in rest;
      }
    } else if order != [] {
      assert Before(ms, i, order[0]);
    }
  }

  /** Indices below n that may be shortened: tool results first, then answers, longest first. */
  function Order(ms: seq<Message>, atomic: set<string>, n: nat): (order: seq<nat>)
    requires n <= |ms|
    ensures Listed(ms, order)
    ensures forall i: nat :: i in order <==> i < n && Eligible(ms[i], atomic)
  {
    if n == 0 then []
    else
      var order := Order(ms, atomic, n - 1);
      if Eligible(ms[n - 1], atomic) then
        PlaceListed(ms, order, n - 1);
        Place(ms, order, n - 1)
      else order
  }

  // ---------- One sweep ----------

  datatype Pack = Pack(ms: seq<Message>, cut: set<nat>)

  function CutTo(length: nat, floor: nat, over: int): int {
    Max(floor, length - Max(over, length / 3))
  }

  function CutAt(w: World, budget: int, p: Pack, i: nat): Pack
    requires i < |p.ms|
  {
    var m := p.ms[i];
    if |m.text| <= Floor(m) then p
    else
      var target := CutTo(|m.text|, Floor(m), Estimate(w, p.ms) - budget);
      Pack(p.ms[i := Truncate(m, target)], p.cut + {i})
  }

  function Sweep(w: World, budget: int, p: Pack, order: seq<nat>): (r: Pack)
    requires InRange(p.ms, order)
    ensures |r.ms| == |p.ms|
    decreases |order|
  {
    if order == [] || Estimate(w, p.ms) <= budget then p
    else Sweep(w, budget, CutAt(w, budget, p, order[0]), order[1..])
  }

  /** m' is m with its text cut to one prefix of the original and one marker, a prompt to no less than 96 characters and
      anything else to no less than 32. */
  ghost predicate Cut(m: Message, m': Message) {
    && (if m.Human? then 96 else 32) <= |m'.text| < |m.text|
    && m' == m.(text := m.text[..|m'.text| - |MARKER|] + MARKER)
  }

  /** A single cut keeps one prefix and one marker, and either stops at the floor or reaches the budget. */
  lemma CutOnce(w: World, budget: int, p: Pack, i: nat)
    requires i < |p.ms| && Estimate(w, p.ms) > budget && |p.ms[i].text| > Floor(p.ms[i])
    ensures var q := CutAt(w, budget, p, i);
            var was, now := p.ms[i].text, q.ms[i].text;
            && q.ms == p.ms[i := q.ms[i]] && q.cut == p.cut + {i} && Cut(p.ms[i], q.ms[i])
            && Estimate(w, q.ms) == Estimate(w, p.ms) - |was| + |now|
            && (|now| == Floor(p.ms[i])
                || (Estimate(w, q.ms) <= budget
                    && (Estimate(w, q.ms) == budget || |now| == |was| - |was| / 3)))
  {
    var m, over := p.ms[i], Estimate(w, p.ms) - budget;
    var target := CutTo(|m.text|, Floor(m), over);
    CutToReaches(|m.text|, Floor(m), over);
    TruncateCuts(m, target);
    var q, m' := CutAt(w, budget, p, i), Truncate(m, target);
    assert q == Pack(p.ms[i := m'], p.cut + {i}) && q.ms[i] == m';
    RewordedEstimate(w, p.ms, i, m');
  }

  lemma RewordedEstimate(w: World, ms: seq<Message>, i: nat, m: Message)
    requires i < |ms| && m == ms[i].(text := m.text)
    ensures Estimate(w, ms[i := m]) == Estimate(w, ms) - |ms[i].text| + |m.text|
  {
    TotalUpdate(w, ms, i, m);
  }

  lemma TruncateCuts(m: Message, target: int)
    requires Floor(m) <= target < |m.text|
    ensures Cut(m, Truncate(m, target)) && |Truncate(m, target).text| == target
  {
    assert |MARKER| == 31;
  }

  lemma CutToReaches(length: nat, floor: nat, over: int)
    requires over > 0 && length > floor
    ensures var target := CutTo(length, floor, over);
            && floor <= target < length
            && (target == floor || (length - target >= over && (length - target == over || target == length - length / 3)))
  {
  }

  predicate Distinct(order: seq<nat>) {
    forall a, b :: 0 <= a < b < |order| ==> order[a] != order[b]
  }

  predicate AtFloor(m: Message) { |m.text| <= Floor(m) }

  /** Index i is untouched between p and r, or cut exactly once. */
  ghost predicate Touched(p: Pack, r: Pack, i: nat)
    requires i < |p.ms| && i < |r.ms|
  {
    || (r.ms[i] == p.ms[i] && (i in r.cut <==> i in p.cut))
    || (i in r.cut && !AtFloor(p.ms[i]) && Cut(p.ms[i], r.ms[i]))
  }

  lemma {:induction false} SweepTouches(w: World, budget: int, p: Pack, order: seq<nat>)
    requires InRange(p.ms, order) && Distinct(order)
    ensures var r := Sweep(w, budget, p, order);
            && (forall i :: 0 <= i < |p.ms| ==> Touched(p, r, i))
            && (forall i :: 0 <= i < |p.ms| && i !in order ==>
                  r.ms[i] == p.ms[i] && (i in r.cut <==> i in p.cut))
    decreases |order|
  {
    if order != [] && Estimate(w, p.ms) > budget {
      var q, rest := CutAt(w, budget, p, order[0]), order[1..];
      CutTouches(w, budget, p, order[0]);
      SweepTouches(w, budget, q, rest);
      assert order[0] !in rest && forall i :: i in order <==> i == order[0] || i in rest;
      var r := Sweep(w, budget, q, rest);
      forall i | 0 <= i < |p.ms| ensures Touched(p, r, i) {
        assert Touched(q, r, i) && Touched(p, q, i);
      }
    }
  }

  lemma CutTouches(w: World, budget: int, p: Pack, h: nat)
    requires h < |p.ms| && Estimate(w, p.ms) > budget
    ensures var q := CutAt(w, budget, p, h);
            && |q.ms| == |p.ms| && Touched(p, q, h)
            && forall i :: 0 <= i < |p.ms| && i != h ==> q.ms[i] == p.ms[i] && (i in q.cut <==> i in p.cut)
  {
    if !AtFloor(p.ms[h]) { CutOnce(w, budget, p, h); }
  }

  /** A sweep reaches the budget or leaves every candidate at its floor. */
  lemma {:induction false} SweepReaches(w: World, budget: int, p: Pack, order: seq<nat>)
    requires InRange(p.ms, order) && Distinct(order)
    ensures var r := Sweep(w, budget, p, order);
            Estimate(w, r.ms) <= budget || forall k :: 0 <= k < |order| ==> AtFloor(r.ms[order[k]])
    decreases |order|
  {
    if order != [] && Estimate(w, p.ms) > budget {
      var i, rest := order[0], order[1..];
      var q := CutAt(w, budget, p, i);
      if !AtFloor(p.ms[i]) { CutOnce(w, budget, p, i); }
      SweepReaches(w, budget, q, rest);
      SweepTouches(w, budget, q, rest);
      var r := Sweep(w, budget, p, order);
      assert i !in rest;
      if Estimate(w, r.ms) > budget {
        forall k | 0 <= k < |order| ensures AtFloor(r.ms[order[k]]) {
          if k > 0 { assert rest[k - 1] == order[k]; }
        }
      }
    }
  }

  /** A cut that stops above the floor is the last one, and takes exactly what is missing or a third. */
  ghost predicate Partial(p: Pack, r: Pack, i: nat)
    requires i < |p.ms| && i < |r.ms|
  {
    r.ms[i] != p.ms[i] && !AtFloor(r.ms[i])
  }

  lemma {:induction false} SweepPartial(w: World, budget: int, p: Pack, order: seq<nat>, i: nat)
    requires InRange(p.ms, order) && Distinct(order)
    requires i < |p.ms| && Partial(p, Sweep(w, budget, p, order), i)
    ensures var r := Sweep(w, budget, p, order);
            && Estimate(w, r.ms) <= budget
            && (Estimate(w, r.ms) == budget || |r.ms[i].text| == |p.ms[i].text| - |p.ms[i].text| / 3)
            && forall j :: 0 <= j < |p.ms| && j != i ==> !Partial(p, r, j)
    decreases |order|
  {
    var r := Sweep(w, budget, p, order);
    assert order != [] && Estimate(w, p.ms) > budget;
    var h, rest := order[0], order[1..];
    var q := CutAt(w, budget, p, h);
    SweepTouches(w, budget, q, rest);
    assert h !in rest;
    if !AtFloor(p.ms[h]) { CutOnce(w, budget, p, h); }
    assert r.ms[h] == q.ms[h];
    if i == h {
      assert r == q;
    } else {
      assert q.ms[i] == p.ms[i];
      SweepPartial(w, budget, q, rest, i);
      if Partial(p, r, h) {
        assert false;
      }
      forall j | 0 <= j < |p.ms| && j != i ensures !Partial(p, r, j) {
        if j != h { assert q.ms[j] == p.ms[j] && !Partial(q, r, j); }
      }
    }
  }

  /** Nothing is cut before all candidates ahead of it have been cut or were short already. */
  lemma {:induction false} SweepInOrder(w: World, budget: int, p: Pack, order: seq<nat>, a: nat, b: nat)
    requires InRange(p.ms, order) && Distinct(order) && a < b < |order|
    requires var r := Sweep(w, budget, p, order); r.ms[order[b]] != p.ms[order[b]]
    ensures var r := Sweep(w, budget, p, order);
            r.ms[order[a]] != p.ms[order[a]] || AtFloor(p.ms[order[a]])
    decreases |order|
  {
    var h, rest := order[0], order[1..];
    var q := CutAt(w, budget, p, h);
    HeadIsCut(w, budget, p, order);
    if a > 0 {
      assert rest[a - 1] == order[a] && rest[b - 1] == order[b];
      SweepInOrder(w, budget, q, rest, a - 1, b - 1);
    }
  }

  /** A sweep that does anything cuts its first candidate, unless that is short already, and goes on with the rest. */
  lemma HeadIsCut(w: World, budget: int, p: Pack, order: seq<nat>)
    requires InRange(p.ms, order) && Distinct(order) && order != [] && Estimate(w, p.ms) > budget
    ensures var q, r := CutAt(w, budget, p, order[0]), Sweep(w, budget, p, order);
            && r == Sweep(w, budget, q, order[1..]) && |q.ms| == |p.ms|
            && (forall i :: 0 <= i < |p.ms| && i != order[0] ==> q.ms[i] == p.ms[i] && (i in q.cut <==> i in p.cut))
            && r.ms[order[0]] == q.ms[order[0]] && (AtFloor(p.ms[order[0]]) || r.ms[order[0]] != p.ms[order[0]])
  {
    var h, rest := order[0], order[1..];
    assert h !in rest;
    SweepTouches(w, budget, CutAt(w, budget, p, h), rest);
    if !AtFloor(p.ms[h]) { CutOnce(w, budget, p, h); }
  }

  // ---------- All sweeps ----------

  function TextTotal(ms: seq<Message>): nat {
    if ms == [] then 0 else |ms[0].text| + TextTotal(ms[1..])
  }

  lemma {:induction false} TextTotalUpdate(ms: seq<Message>, i: nat, m: Message)
    requires i < |ms|
    ensures TextTotal(ms[i := m]) == TextTotal(ms) - |ms[i].text| + |m.text|
  {
    if i == 0 {
      assert ms[i := m][1..] == ms[1..];
    } else {
      TextTotalUpdate(ms[1..], i - 1, m);
      assert ms[i := m][1..] == ms[1..][i - 1 := m];
    }
  }

  /** Each change shortens the text, so a sweep that changes anything leaves less of it. */
  lemma {:induction false} SweepShortens(w: World, budget: int, p: Pack, order: seq<nat>)
    requires InRange(p.ms, order)
    ensures var r := Sweep(w, budget, p, order);
            r == p || TextTotal(r.ms) < TextTotal(p.ms)
    decreases |order|
  {
    if order != [] && Estimate(w, p.ms) > budget {
      var q := CutAt(w, budget, p, order[0]);
      SweepShortens(w, budget, q, order[1..]);
      if !AtFloor(p.ms[order[0]]) {
        CutShortens(w, budget, p, order[0]);
      }
    }
  }

  function OneSweep(w: World, budget: int, p: Pack, atomic: set<string>): Pack {
    Sweep(w, budget, p, Order(p.ms, atomic, |p.ms|))
  }

  /** Sweeps repeated until the request fits or a sweep changes nothing. */
  function Compact(w: World, budget: int, p: Pack, atomic: set<string>): Pack
    decreases TextTotal(p.ms)
  {
    if Estimate(w, p.ms) <= budget then p
    else
      var q := OneSweep(w, budget, p, atomic);
      SweepShortens(w, budget, p, Order(p.ms, atomic, |p.ms|));
      if q == p then p else Compact(w, budget, q, atomic)
  }

  lemma ListedDistinct(ms: seq<Message>, order: seq<nat>)
    requires Listed(ms, order)
    ensures Distinct(order)
  {
    forall a, b | 0 <= a < b < |order| ensures order[a] != order[b] {
      assert Before(ms, order[a], order[b]);
    }
  }

  lemma {:induction false} SweepIdle(w: World, budget: int, p: Pack, order: seq<nat>)
    requires InRange(p.ms, order) && forall k :: 0 <= k < |order| ==> AtFloor(p.ms[order[k]])
    ensures Sweep(w, budget, p, order) == p
    decreases |order|
  {
    if order != [] && Estimate(w, p.ms) > budget { SweepIdle(w, budget, p, order[1..]); }
  }

  /** One sweep is always enough: the second never changes anything. */
  lemma OneSweepSuffices(w: World, budget: int, p: Pack, atomic: set<string>)
    ensures Compact(w, budget, p, atomic) == OneSweep(w, budget, p, atomic)
  {
    var order := Order(p.ms, atomic, |p.ms|);
    var q := OneSweep(w, budget, p, atomic);
    ListedDistinct(p.ms, order);
    SweepReaches(w, budget, p, order);
    SweepTouches(w, budget, p, order);
    if Estimate(w, p.ms) > budget && q != p && Estimate(w, q.ms) > budget {
      forall i | 0 <= i < |p.ms| && Eligible(p.ms[i], atomic) ensures AtFloor(q.ms[i]) {
        assert i in order;
        var k :| 0 <= k < |order| && order[k] == i;
      }
      SecondIdle(w, budget, p, q, atomic);
    }
  }

  lemma SecondIdle(w: World, budget: int, p: Pack, q: Pack, atomic: set<string>)
    requires |q.ms| == |p.ms| && forall i :: 0 <= i < |p.ms| ==> Touched(p, q, i)
    requires forall i :: 0 <= i < |p.ms| && Eligible(p.ms[i], atomic) ==> AtFloor(q.ms[i])
    ensures OneSweep(w, budget, q, atomic) == q
  {
    var again := Order(q.ms, atomic, |q.ms|);
    forall k | 0 <= k < |again| ensures AtFloor(q.ms[again[k]]) {
      var i := again[k];
      assert i in again;
      assert Touched(p, q, i);
      assert Eligible(p.ms[i], atomic);
    }
    SweepIdle(w, budget, q, again);
  }

  // ---------- Outcome ----------

  /** Everything may be shortened but injected context and the results named in atomic. */
  ghost predicate Divisible(m: Message, atomic: set<string>) {
    (m.System? ==> !m.dynamic) && (m.Tool? ==> m.callId !in atomic)
  }

  /** Too short to be cut: 96 characters of a prompt, 32 of anything else. */
  ghost predicate Short(m: Message) { |m.text| <= if m.Human? then 96 else 32 }

  /** What compaction does to ms, whatever the budget. */
  ghost predicate Compacts(w: World, budget: int, ms: seq<Message>, atomic: set<string>, r: Pack) {
    && |r.ms| == |ms|
    && r.cut == (set i | 0 <= i < |ms| && r.ms[i] != ms[i])
    && (forall i :: i in r.cut ==> Divisible(ms[i], atomic) && !Short(ms[i]) && Cut(ms[i], r.ms[i]))
    && (Estimate(w, r.ms) <= budget
        || forall i :: 0 <= i < |ms| && Divisible(ms[i], atomic) ==> Short(r.ms[i]))
    && (Estimate(w, ms) <= budget ==> r.ms == ms)
  }

  /** Message i is cut and marked as cut, or neither. */
  ghost predicate Swept(m: Message, atomic: set<string>, out: Message, marked: bool) {
    && (marked <==> out != m)
    && (marked ==> Divisible(m, atomic) && !Short(m) && Cut(m, out))
  }

  lemma SweepSweeps(w: World, budget: int, ms: seq<Message>, atomic: set<string>, i: nat)
    requires i < |ms|
    ensures var r := Sweep(w, budget, Pack(ms, {}), Order(ms, atomic, |ms|));
            |r.ms| == |ms| && Swept(ms[i], atomic, r.ms[i], i in r.cut)
  {
    var p, order := Pack(ms, {}), Order(ms, atomic, |ms|);
    ListedDistinct(ms, order);
    SweepTouches(w, budget, p, order);
    assert Touched(p, Sweep(w, budget, p, order), i);
  }

  lemma SweepFloors(w: World, budget: int, ms: seq<Message>, atomic: set<string>, i: nat)
    requires i < |ms| && Divisible(ms[i], atomic)
    ensures var r := Sweep(w, budget, Pack(ms, {}), Order(ms, atomic, |ms|));
            |r.ms| == |ms| && (Estimate(w, r.ms) <= budget || Short(r.ms[i]))
  {
    var order := Order(ms, atomic, |ms|);
    ListedDistinct(ms, order);
    SweepReaches(w, budget, Pack(ms, {}), order);
    var k :| 0 <= k < |order| && order[k] == i;
  }

  lemma CompactOutcome(w: World, budget: int, ms: seq<Message>, atomic: set<string>)
    ensures Compacts(w, budget, ms, atomic, Compact(w, budget, Pack(ms, {}), atomic))
  {
    var p, order := Pack(ms, {}), Order(ms, atomic, |ms|);
    OneSweepSuffices(w, budget, p, atomic);
    var r := Sweep(w, budget, p, order);
    forall i: nat | i < |ms| ensures Swept(ms[i], atomic, r.ms[i], i in r.cut) { SweepSweeps(w, budget, ms, atomic, i); }
    forall i: nat | i < |ms| && Divisible(ms[i], atomic) ensures Estimate(w, r.ms) <= budget || Short(r.ms[i]) {
      SweepFloors(w, budget, ms, atomic, i);
    }
    CutInRange(w, budget, p, order);
  }

  lemma {:induction false} CutInRange(w: World, budget: int, p: Pack, order: seq<nat>)
    requires InRange(p.ms, order) && forall i :: i in p.cut ==> i < |p.ms|
    ensures forall i :: i in Sweep(w, budget, p, order).cut ==> i < |p.ms|
    decreases |order|
  {
    if order != [] && Estimate(w, p.ms) > budget {
      CutInRange(w, budget, CutAt(w, budget, p, order[0]), order[1..]);
    }
  }

  /** At most one message is cut above its floor, and it loses exactly the excess or a third. */
  lemma AtMostOnePartial(w: World, budget: int, ms: seq<Message>, atomic: set<string>, i: nat)
    requires var r := Compact(w, budget, Pack(ms, {}), atomic);
             |r.ms| == |ms| && i < |ms| && Partial(Pack(ms, {}), r, i)
    ensures var r := Compact(w, budget, Pack(ms, {}), atomic);
            && Estimate(w, r.ms) <= budget
            && (Estimate(w, r.ms) == budget || |r.ms[i].text| == |ms[i].text| - |ms[i].text| / 3)
            && forall j :: 0 <= j < |ms| && j != i ==> !Partial(Pack(ms, {}), r, j)
  {
    OneSweepSuffices(w, budget, Pack(ms, {}), atomic);
    ListedDistinct(ms, Order(ms, atomic, |ms|));
    SweepPartial(w, budget, Pack(ms, {}), Order(ms, atomic, |ms|), i);
  }

  /** Tool results are cut before answers and those before the rest; within a kind the longest first, then the oldest. */
  ghost predicate CutSooner(ms: seq<Message>, i: nat, j: nat)
    requires i < |ms| && j < |ms|
  {
    || (ms[i].Tool? && !ms[j].Tool?)
    || (ms[i].AI? && !ms[j].Tool? && !ms[j].AI?)
    || ((ms[i].Tool? <==> ms[j].Tool?) && (ms[i].AI? <==> ms[j].AI?)
        && (|ms[i].text| > |ms[j].text| || (|ms[i].text| == |ms[j].text| && i < j)))
  }

  /** Whatever is to be cut sooner than a cut message is cut too, or too short. */
  lemma CutsFollowPriority(w: World, budget: int, ms: seq<Message>, atomic: set<string>, i: nat, j: nat)
    requires i < |ms| && j < |ms| && i != j && CutSooner(ms, i, j)
    requires Divisible(ms[i], atomic) && !Short(ms[i])
    requires j in Compact(w, budget, Pack(ms, {}), atomic).cut
    ensures i in Compact(w, budget, Pack(ms, {}), atomic).cut
  {
    var p, order := Pack(ms, {}), Order(ms, atomic, |ms|);
    CompactOutcome(w, budget, ms, atomic);
    OneSweepSuffices(w, budget, p, atomic);
    ListedDistinct(ms, order);
    assert i in order && j in order;
    var a :| 0 <= a < |order| && order[a] == i;
    var b :| 0 <= b < |order| && order[b] == j;
    if b < a {
      assert false;
    }
    SweepInOrder(w, budget, p, order, a, b);
  }

  // ---------- The loops ----------

  method SweepCandidates(w: World, budget: int, start: Pack, candidates: seq<nat>) returns (p: Pack, changed: bool)
    requires InRange(start.ms, candidates) && Estimate(w, start.ms) > budget
    ensures p == Sweep(w, budget, start, candidates)
    ensures if changed then TextTotal(p.ms) < TextTotal(start.ms) else p == start
  {
    p, changed := start, false;
    var k := 0;
    while k < |candidates|
      invariant 0 <= k <= |candidates| && |p.ms| == |start.ms| && Estimate(w, p.ms) > budget
      invariant Sweep(w, budget, p, candidates[k..]) == Sweep(w, budget, start, candidates)
      invariant if changed then TextTotal(p.ms) < TextTotal(start.ms) else p == start
    {
      var index := candidates[k];
      SweepStep(w, budget, p, candidates, k);
      k := k + 1;
      if !AtFloor(p.ms[index]) {
        p := Shorten(w, budget, p, index);
        changed := true;
        if Estimate(w, p.ms) <= budget { break; }
      }
    }
  }

  method Shorten(w: World, budget: int, p: Pack, index: nat) returns (q: Pack)
    requires index < |p.ms| && Estimate(w, p.ms) > budget && !AtFloor(p.ms[index])
    ensures q == CutAt(w, budget, p, index)
    ensures |q.ms| == |p.ms| && TextTotal(q.ms) < TextTotal(p.ms)
  {
    CutShortens(w, budget, p, index);
    var message := p.ms[index];
    var over := Estimate(w, p.ms) - budget;
    var target := Max(Floor(message), |message.text| - Max(over, |message.text| / 3));
    q := Pack(p.ms[index := Truncate(message, target)], p.cut + {index});
  }

  lemma SweepStep(w: World, budget: int, p: Pack, order: seq<nat>, k: nat)
    requires InRange(p.ms, order) && k < |order| && Estimate(w, p.ms) > budget
    ensures Sweep(w, budget, p, order[k..]) == Sweep(w, budget, CutAt(w, budget, p, order[k]), order[k + 1..])
  {
    assert order[k..][1..] == order[k + 1..];
  }

  lemma CutShortens(w: World, budget: int, p: Pack, i: nat)
    requires i < |p.ms| && Estimate(w, p.ms) > budget && !AtFloor(p.ms[i])
    ensures TextTotal(CutAt(w, budget, p, i).ms) < TextTotal(p.ms)
  {
    CutOnce(w, budget, p, i);
    TextTotalUpdate(p.ms, i, CutAt(w, budget, p, i).ms[i]);
  }

  method CompactToBudget(w: World, ms: seq<Message>, budget: int, atomic: set<string>)
    returns (out: seq<Message>, truncated: nat, estimated: nat)
    ensures var r := Compact(w, budget, Pack(ms, {}), atomic);
            out == r.ms && truncated == |r.cut| && estimated == Estimate(w, out)
  {
    var p := Pack(ms, {});
    while Estimate(w, p.ms) > budget
      invariant Compact(w, budget, p, atomic) == Compact(w, budget, Pack(ms, {}), atomic)
      decreases TextTotal(p.ms)
    {
      var candidates := Order(p.ms, atomic, |p.ms|);
      var changed;
      p, changed := SweepCandidates(w, budget, p, candidates);
      if !changed { break; }
    }
    out, truncated, estimated := p.ms, |p.cut|, Estimate(w, p.ms);
  }
}
