/** Which turns are kept: a greedy choice on their sizes, newest first. */
module ContextChoice {
  import opened Selections

  datatype Selection = Selection(kept: seq<nat>, size: int)

  /** Adds turn t in front of the selection if it still fits. */
  function Consider(budget: int, sizes: seq<nat>, t: nat, c: Selection): Selection
    requires t < |sizes|
  {
    if c.size + sizes[t] <= budget then Selection([t] + c.kept, c.size + sizes[t]) else c
  }

  /** Considers the turns before i, newest first. */
  function KeepFrom(budget: int, sizes: seq<nat>, i: nat, c: Selection): Selection
    requires i <= |sizes|
    decreases i
  {
    if i == 0 then c else KeepFrom(budget, sizes, i - 1, Consider(budget, sizes, i - 1, c))
  }

  /** The newest turn on top of a base that is always there, then every older one that still fits, newest first. */
  function KeepNewest(budget: int, sizes: seq<nat>, base: nat): Selection
    requires sizes != []
  {
    var n := |sizes| - 1;
    KeepFrom(budget, sizes, n, Selection([n], base + sizes[n]))
  }

  // ---------- What is chosen ----------

  function SumAt(sizes: seq<nat>, kept: seq<nat>): nat {
    if kept == [] then 0 else (if kept[0] < |sizes| then sizes[kept[0]] else 0) + SumAt(sizes, kept[1..])
  }

  /** The part of a rising selection beyond t. */
  function Newer(kept: seq<nat>, t: nat): seq<nat> {
    if kept == [] || t < kept[0] then kept else Newer(kept[1..], t)
  }

  /** Turn t does not fit on top of the newer ones kept. */
  ghost predicate Excess(budget: int, sizes: seq<nat>, base: nat, kept: seq<nat>, t: nat)
    requires t < |sizes|
  {
    base + SumAt(sizes, Newer(kept, t)) + sizes[t] > budget
  }

  /** A turn from i on is left out only because it did not fit with the newer ones kept. */
  ghost predicate NoMore(budget: int, sizes: seq<nat>, base: nat, i: nat, kept: seq<nat>) {
    forall t {:trigger Excess(budget, sizes, base, kept, t)} ::
      i <= t < |sizes| && t !in kept ==> Excess(budget, sizes, base, kept, t)
  }

  /** What holds of a selection once turns i and later have been considered. */
  ghost predicate Choice(budget: int, sizes: seq<nat>, base: nat, i: nat, c: Selection) {
    && c.kept != [] && c.kept[|c.kept| - 1] == |sizes| - 1 && Rising(c.kept) && i <= c.kept[0]
    && c.size == base + SumAt(sizes, c.kept) && (|c.kept| > 1 ==> c.size <= budget)
    && NoMore(budget, sizes, base, i, c.kept)
  }

  lemma RisingCons(t: nat, kept: seq<nat>)
    requires kept != [] && t < kept[0] && Rising(kept)
    ensures Rising([t] + kept) && ([t] + kept)[|kept|] == kept[|kept| - 1]
  {
    forall a | 0 <= a < |kept| ensures t < kept[a] { }
  }

  lemma NoMoreCons(budget: int, sizes: seq<nat>, base: nat, i: nat, kept: seq<nat>)
    requires i < |sizes| && NoMore(budget, sizes, base, i + 1, kept)
    ensures NoMore(budget, sizes, base, i, [i] + kept)
  {
    var more := [i] + kept;
    forall t | i <= t < |sizes| && t !in more ensures Excess(budget, sizes, base, more, t) {
      assert more[0] == i && more[1..] == kept;
      forall a | 0 <= a < |kept| ensures kept[a] != t { assert more[a + 1] == kept[a]; }
      assert Excess(budget, sizes, base, kept, t);
      assert Newer(more, t) == Newer(kept, t);
    }
  }

  lemma NoMoreSkip(budget: int, sizes: seq<nat>, base: nat, i: nat, kept: seq<nat>)
    requires i < |sizes| && NoMore(budget, sizes, base, i + 1, kept) && Excess(budget, sizes, base, kept, i)
    ensures NoMore(budget, sizes, base, i, kept)
  {
    forall t | i <= t < |sizes| && t !in kept ensures Excess(budget, sizes, base, kept, t) {
      assert t == i || Excess(budget, sizes, base, kept, t);
    }
  }

  lemma Considered(budget: int, sizes: seq<nat>, base: nat, i: nat, c: Selection)
    requires i + 1 < |sizes| && Choice(budget, sizes, base, i + 1, c)
    ensures Choice(budget, sizes, base, i, Consider(budget, sizes, i, c))
  {
    if c.size + sizes[i] <= budget {
      RisingCons(i, c.kept);
      assert ([i] + c.kept)[1..] == c.kept;
      NoMoreCons(budget, sizes, base, i, c.kept);
    } else {
      assert Newer(c.kept, i) == c.kept;
      NoMoreSkip(budget, sizes, base, i, c.kept);
    }
  }

  lemma {:induction false} KeepFromChooses(budget: int, sizes: seq<nat>, base: nat, i: nat, c: Selection)
    requires i < |sizes| && Choice(budget, sizes, base, i, c)
    ensures Choice(budget, sizes, base, 0, KeepFrom(budget, sizes, i, c))
    decreases i
  {
    if i > 0 {
      Considered(budget, sizes, base, i - 1, c);
      KeepFromChooses(budget, sizes, base, i - 1, Consider(budget, sizes, i - 1, c));
    }
  }

  /** The choice keeps the newest turn and fits whenever it keeps more; an older turn is left out exactly when it does not
      fit on top of the newer ones kept. */
  lemma KeepNewestChooses(budget: int, sizes: seq<nat>, base: nat)
    requires sizes != []
    ensures Choice(budget, sizes, base, 0, KeepNewest(budget, sizes, base))
  {
    var n := |sizes| - 1;
    assert [n][0] == n && [n][1..] == [];
    KeepFromChooses(budget, sizes, base, n, Selection([n], base + sizes[n]));
  }

  // ---------- When everything fits ----------

  ghost function Sum(sizes: seq<nat>, n: nat): nat
    requires n <= |sizes|
  {
    if n == 0 then 0 else Sum(sizes, n - 1) + sizes[n - 1]
  }

  ghost function Below(n: nat): (r: seq<nat>)
    ensures |r| == n && forall i :: 0 <= i < n ==> r[i] == i
  {
    if n == 0 then [] else Below(n - 1) + [n - 1]
  }

  lemma {:induction false} AllConsidered(budget: int, sizes: seq<nat>, i: nat, c: Selection)
    requires i <= |sizes| && c.size + Sum(sizes, i) <= budget
    ensures KeepFrom(budget, sizes, i, c).kept == Below(i) + c.kept
    decreases i
  {
    if i == 0 {
      assert [] + c.kept == c.kept;
    } else {
      AllConsidered(budget, sizes, i - 1, Consider(budget, sizes, i - 1, c));
      assert Below(i - 1) + ([i - 1] + c.kept) == Below(i) + c.kept;
    }
  }

  /** When all turns fit together, all are kept. */
  lemma AllKept(budget: int, sizes: seq<nat>, base: nat)
    requires sizes != [] && base + Sum(sizes, |sizes|) <= budget
    ensures KeepNewest(budget, sizes, base).kept == Below(|sizes|)
  {
    var n := |sizes| - 1;
    var c := Selection([n], base + sizes[n]);
    AllConsidered(budget, sizes, n, c);
    assert KeepNewest(budget, sizes, base).kept == Below(n) + c.kept;
  }
}
