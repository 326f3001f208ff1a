/** Selecting elements of a list in order: where each selected element comes from. */
module Selections {
  import opened Prelude

  ghost predicate Rising(s: seq<nat>) { forall a, b :: 0 <= a < b < |s| ==> s[a] < s[b] }

  /** What f makes of the elements it accepts. */
  ghost function Select<T, U>(xs: seq<T>, f: T -> Option<U>): seq<U> {
    if xs == [] then []
    else (if f(xs[0]).Some? then [f(xs[0]).value] else []) + Select(xs[1..], f)
  }

  /** The positions a selection is taken from, in rising order: exactly those f accepts. */
  ghost predicate From<T, U>(xs: seq<T>, f: T -> Option<U>, at: seq<nat>, ys: seq<U>) {
    && |at| == |ys| && Rising(at)
    && (forall i: nat :: i in at <==> i < |xs| && f(xs[i]).Some?)
    && forall k :: 0 <= k < |at| ==> at[k] < |xs| && f(xs[at[k]]) == Some(ys[k])
  }

  ghost function Moved(at: seq<nat>): (r: seq<nat>)
    ensures |r| == |at| && forall k :: 0 <= k < |at| ==> r[k] == at[k] + 1
  {
    if at == [] then [] else [at[0] + 1] + Moved(at[1..])
  }

  lemma MovedHas(at: seq<nat>, i: nat)
    ensures i in Moved(at) <==> i > 0 && i - 1 in at
  {
    if i in Moved(at) {
      var k :| 0 <= k < |at| && Moved(at)[k] == i;
      assert at[k] == i - 1;
    }
    if i > 0 && i - 1 in at {
      var k :| 0 <= k < |at| && at[k] == i - 1;
      assert Moved(at)[k] == i;
    }
  }

  lemma MovedAccepts<T, U>(xs: seq<T>, f: T -> Option<U>, rest: seq<nat>, ys: seq<U>, i: nat)
    requires xs != [] && From(xs[1..], f, rest, ys)
    ensures i in Moved(rest) <==> 0 < i < |xs| && f(xs[i]).Some?
  {
    MovedHas(rest, i);
    if 0 < i < |xs| { assert xs[1..][i - 1] == xs[i]; }
  }

  lemma MovedReads<T, U>(xs: seq<T>, f: T -> Option<U>, i: nat, y: U)
    requires xs != [] && i < |xs[1..]| && f(xs[1..][i]) == Some(y)
    ensures i + 1 < |xs| && f(xs[i + 1]) == Some(y)
  {
  }

  lemma FromTail<T, U>(xs: seq<T>, f: T -> Option<U>, rest: seq<nat>, ys: seq<U>)
    requires xs != [] && From(xs[1..], f, rest, ys)
    ensures f(xs[0]).None? ==> From(xs, f, Moved(rest), ys)
    ensures f(xs[0]).Some? ==> From(xs, f, [0] + Moved(rest), [f(xs[0]).value] + ys)
  {
    var moved := Moved(rest);
    forall i: nat ensures i in moved <==> 0 < i < |xs| && f(xs[i]).Some? { MovedAccepts(xs, f, rest, ys, i); }
    forall k: nat | k < |moved| ensures 0 < moved[k] < |xs| && f(xs[moved[k]]) == Some(ys[k]) {
      MovedReads(xs, f, rest[k], ys[k]);
    }
    if f(xs[0]).Some? { FromHead(xs, f, moved, ys); }
  }

  lemma FromHead<T, U>(xs: seq<T>, f: T -> Option<U>, moved: seq<nat>, ys: seq<U>)
    requires xs != [] && f(xs[0]).Some? && |moved| == |ys| && Rising(moved)
    requires forall i: nat :: i in moved <==> 0 < i < |xs| && f(xs[i]).Some?
    requires forall k :: 0 <= k < |moved| ==> 0 < moved[k] < |xs| && f(xs[moved[k]]) == Some(ys[k])
    ensures From(xs, f, [0] + moved, [f(xs[0]).value] + ys)
  {
    var at, zs := [0] + moved, [f(xs[0]).value] + ys;
    forall i: nat ensures i in at <==> i < |xs| && f(xs[i]).Some? { assert i in at <==> i == 0 || i in moved; }
    forall k | 0 <= k < |at| ensures at[k] < |xs| && f(xs[at[k]]) == Some(zs[k]) {
      if k > 0 { assert at[k] == moved[k - 1] && zs[k] == ys[k - 1]; }
    }
  }

  /** Every selection comes from exactly the positions its function accepts, in order. */
  lemma {:induction false} SelectFrom<T, U>(xs: seq<T>, f: T -> Option<U>) returns (at: seq<nat>)
    ensures From(xs, f, at, Select(xs, f))
  {
    at := [];
    if xs != [] {
      var rest := SelectFrom(xs[1..], f);
      FromTail(xs, f, rest, Select(xs[1..], f));
      at := if f(xs[0]).Some? then [0] + Moved(rest) else Moved(rest);
      assert [] + Select(xs[1..], f) == Select(xs[1..], f);
    }
  }

  /** Positions in positions. */
  ghost function Through(at: seq<nat>, sub: seq<nat>): (r: seq<nat>)
    requires forall k :: 0 <= k < |sub| ==> sub[k] < |at|
    ensures |r| == |sub| && forall k :: 0 <= k < |sub| ==> r[k] == at[sub[k]]
  {
    if sub == [] then [] else [at[sub[0]]] + Through(at, sub[1..])
  }

  /** A rising list that has everything below n starts with it. */
  lemma {:induction false} RisingStarts(s: seq<nat>, n: nat)
    requires Rising(s) && forall i :: 0 <= i < n ==> i in s
    ensures n <= |s| && forall i :: 0 <= i < n ==> s[i] == i
  {
    if n > 0 {
      RisingStarts(s, n - 1);
      assert n - 1 in s;
      var k :| 0 <= k < |s| && s[k] == n - 1;
      RisingAtLeast(s, k);
    }
  }

  lemma {:induction false} RisingAtLeast(s: seq<nat>, k: nat)
    requires Rising(s) && k < |s|
    ensures s[k] >= k
  {
    if k > 0 { RisingAtLeast(s, k - 1); }
  }
}
