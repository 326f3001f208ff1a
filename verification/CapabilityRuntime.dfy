/** Swapping the capability runtime while requests hold leases on the old one. */
module CapabilityRuntime {
  import opened Prelude

  /** One bundle of resources; closes counts how often its parts have been shut down. */
  datatype Bundle = Bundle(leases: nat, retired: bool, started: bool, closed: bool, closes: nat)

  const BUILT := Bundle(0, false, false, false, 0)

  datatype Fault = Unavailable | NotLeased | StartFailed | AlreadyClosed

  // ---------- One bundle ----------

  /** ok says whether the underlying runtimes come up; otherwise whatever came up is shut down again. */
  function Start(b: Bundle, ok: bool): (Bundle, Answer<(), Fault>) {
    if b.started then (b, Ok(()))
    else if b.closed || b.retired then (b, Err(AlreadyClosed))
    else if ok then (b.(started := true), Ok(()))
    else (b.(closed := true, closes := b.closes + 1), Err(StartFailed))
  }

  function Acquire(b: Bundle): (Bundle, Answer<(), Fault>) {
    if !b.started || b.closed || b.retired then (b, Err(Unavailable))
    else (b.(leases := b.leases + 1), Ok(()))
  }

  /** The answer says whether the caller has to close the bundle afterwards. */
  function Release(b: Bundle): (Bundle, Answer<bool, Fault>) {
    if b.leases == 0 then (b, Err(NotLeased))
    else (b.(leases := b.leases - 1), Ok(b.retired && b.leases == 1))
  }

  function Close(b: Bundle): Bundle {
    if b.closed || b.leases > 0 then b.(retired := true)
    else b.(retired := true, started := false, closed := true, closes := b.closes + 1)
  }

  // ---------- The service ----------

  type Id = nat

  /** closing holds the closes decided under a lock but run after it; holders the leases handed out. */
  datatype System = System(bundles: map<Id, Bundle>, active: Option<Id>, closing: multiset<Id>, holders: multiset<Id>)

  const IDLE := System(map[], None, multiset{}, multiset{})

  function With(s: System, id: Id, b: Bundle): System { s.(bundles := s.bundles[id := b]) }

  function BundleOf(s: System, id: Id): Bundle { if id in s.bundles then s.bundles[id] else BUILT }

  function Retire(s: System, previous: Option<Id>, current: Id): System {
    if previous.Some? && previous.value != current && previous.value in s.bundles
    then With(s, previous.value, Close(s.bundles[previous.value]))
    else s
  }

  function Apply(s: System, id: Id, ok: bool): (System, Answer<(), Fault>) {
    var (b, a) := Start(BundleOf(s, id), ok);
    if a.Err? then (With(s, id, b), a)
    else (Retire(With(s, id, b).(active := Some(id)), s.active, id), a)
  }

  /** Taking the factory: the fallback when no runtime is active, otherwise a lease. */
  function AcquireFactory(s: System): (System, Answer<Option<Id>, Fault>) {
    if s.active.None? || s.active.value !in s.bundles then (s, Ok(None))
    else
      var id := s.active.value;
      var (b, a) := Acquire(s.bundles[id]);
      if a.Err? then (s, Err(a.error))
      else (With(s, id, b).(holders := s.holders + multiset{id}), Ok(Some(id)))
  }

  function ReleaseFactory(s: System, id: Id): (System, Answer<(), Fault>) {
    var (b, a) := Release(BundleOf(s, id));
    if a.Err? then (s, Err(a.error))
    else
      (With(s, id, b).(holders := s.holders - multiset{id},
                       closing := if a.value then s.closing + multiset{id} else s.closing), Ok(()))
  }

  function RunClose(s: System, id: Id): System {
    With(s, id, Close(BundleOf(s, id))).(closing := s.closing - multiset{id})
  }

  /** The first half of a shutdown: the active runtime is let go, its close comes later. */
  function Detach(s: System): System {
    if s.active.None? then s else s.(active := None, closing := s.closing + multiset{s.active.value})
  }

  datatype Event =
    | DoApply(id: Id, ok: bool)
    | DoAcquire
    | DoRelease(id: Id)
    | DoClose(id: Id)
    | DoDetach

  /** Applied runtimes are freshly built or already active; releases and closes answer earlier events. */
  predicate Allowed(s: System, e: Event) {
    match e
    case DoApply(id, _) => id !in s.bundles || s.active == Some(id)
    case DoRelease(id) => id in s.holders
    case DoClose(id) => id in s.closing
    case _ => true
  }

  function React(s: System, e: Event): System {
    if !Allowed(s, e) then s
    else
      match e
      case DoApply(id, ok) => Apply(s, id, ok).0
      case DoAcquire => AcquireFactory(s).0
      case DoRelease(id) => ReleaseFactory(s, id).0
      case DoClose(id) => RunClose(s, id)
      case DoDetach => Detach(s)
  }

  function Play(s: System, events: seq<Event>): System
    decreases |events|
  {
    if events == [] then s else Play(React(s, events[0]), events[1..])
  }

  // ---------- Invariant ----------

  ghost predicate BundleOk(s: System, id: Id) {
    if id !in s.bundles then s.holders[id] == 0 && s.closing[id] == 0 && s.active != Some(id)
    else
      var b := s.bundles[id];
      && b.leases == s.holders[id]
      && b.started == !b.closed && b.closes == (if b.closed then 1 else 0)
      && (b.closed ==> b.leases == 0)
      && (s.active == Some(id) ==> !b.retired && !b.closed && s.closing[id] == 0)
      && (s.active != Some(id) && !b.closed ==> s.closing[id] > 0 || (b.retired && b.leases > 0))
  }

  ghost predicate Inv(s: System) { forall id {:trigger BundleOk(s, id)} :: BundleOk(s, id) }

  /** What one event does to a bundle: closing happens once, only while no lease is held. */
  ghost predicate BundleStep(b: Bundle, c: Bundle) {
    && (b.closed ==> c == b.(retired := c.retired) && (b.retired ==> c.retired))
    && b.closes <= c.closes <= b.closes + 1
    && (b.closes < c.closes ==> b.leases == 0 && c.leases == 0 && c.closed)
  }

  ghost predicate SystemStep(s: System, t: System) {
    forall id :: id in s.bundles ==> id in t.bundles && BundleStep(s.bundles[id], t.bundles[id])
  }

  ghost predicate StepAt(s: System, t: System, id: Id) {
    && BundleOk(t, id)
    && (id in s.bundles ==> id in t.bundles && BundleStep(s.bundles[id], t.bundles[id]))
  }

  lemma ApplyAt(s: System, i: Id, ok: bool, id: Id)
    requires Allowed(s, DoApply(i, ok)) && BundleOk(s, id) && BundleOk(s, i)
    ensures StepAt(s, Apply(s, i, ok).0, id)
  {
  }

  lemma AcquireAt(s: System, id: Id)
    requires BundleOk(s, id) && (s.active.Some? ==> BundleOk(s, s.active.value))
    ensures StepAt(s, AcquireFactory(s).0, id)
  {
  }

  lemma ReleaseAt(s: System, i: Id, id: Id)
    requires Allowed(s, DoRelease(i)) && BundleOk(s, id) && BundleOk(s, i)
    ensures StepAt(s, ReleaseFactory(s, i).0, id)
  {
  }

  lemma CloseAt(s: System, i: Id, id: Id)
    requires Allowed(s, DoClose(i)) && BundleOk(s, id) && BundleOk(s, i)
    ensures StepAt(s, RunClose(s, i), id)
  {
  }

  lemma DetachAt(s: System, id: Id)
    requires BundleOk(s, id) && (s.active.Some? ==> BundleOk(s, s.active.value))
    ensures StepAt(s, Detach(s), id)
  {
  }

  /** Every event keeps the invariant. */
  lemma ReactKeeps(s: System, e: Event)
    requires Inv(s)
    ensures Inv(React(s, e)) && SystemStep(s, React(s, e))
  {
    var t := React(s, e);
    forall id ensures StepAt(s, t, id) {
      assert BundleOk(s, id);
      if s.active.Some? { assert BundleOk(s, s.active.value); }
      if Allowed(s, e) {
        match e
        case DoApply(i, ok) => assert BundleOk(s, i); ApplyAt(s, i, ok, id);
        case DoRelease(i) => assert BundleOk(s, i); ReleaseAt(s, i, id);
        case DoClose(i) => assert BundleOk(s, i); CloseAt(s, i, id);
        case DoAcquire => AcquireAt(s, id);
        case DoDetach => DetachAt(s, id);
      }
    }
    forall id | id in s.bundles ensures id in t.bundles && BundleStep(s.bundles[id], t.bundles[id]) {
      assert StepAt(s, t, id);
    }
    forall id ensures BundleOk(t, id) { assert StepAt(s, t, id); }
  }

  lemma {:induction false} PlayKeeps(s: System, events: seq<Event>)
    requires Inv(s)
    ensures Inv(Play(s, events))
    decreases |events|
  {
    if events != [] {
      ReactKeeps(s, events[0]);
      PlayKeeps(React(s, events[0]), events[1..]);
    }
  }

  ghost predicate Reachable(s: System) { exists events :: s == Play(IDLE, events) }

  lemma ReachableInv(s: System)
    requires Reachable(s)
    ensures Inv(s)
  {
    var events :| s == Play(IDLE, events);
    forall id ensures BundleOk(IDLE, id) { }
    PlayKeeps(IDLE, events);
  }

  // ---------- Theorems ----------

  /** The active runtime is started and unretired, so taking the factory never fails. */
  lemma AcquireNeverFails(s: System)
    requires Reachable(s)
    ensures AcquireFactory(s).1.Ok?
    ensures s.active.Some? ==> AcquireFactory(s).1 == Ok(s.active)
  {
    ReachableInv(s);
    if s.active.Some? { assert BundleOk(s, s.active.value); }
  }

  /** A held lease keeps its bundle open, and giving it back never fails. */
  lemma LeasedStaysOpen(s: System, id: Id)
    requires Reachable(s) && id in s.holders
    ensures id in s.bundles && s.bundles[id].started && !s.bundles[id].closed && s.bundles[id].closes == 0
    ensures ReleaseFactory(s, id).1.Ok?
  {
    ReachableInv(s);
    assert BundleOk(s, id);
  }

  /** A bundle is shut down at most once, and never while leased, at any event of any run. */
  lemma ClosedAtMostOnce(s: System, e: Event, id: Id)
    requires Reachable(s) && id in s.bundles
    ensures id in React(s, e).bundles && React(s, e).bundles[id].closes <= 1
    ensures s.bundles[id].closes < React(s, e).bundles[id].closes ==> s.bundles[id].leases == 0
  {
    ReachableInv(s);
    ReactKeeps(s, e);
    assert BundleOk(React(s, e), id);
  }

  /** Once leases and pending closes are done, every bundle but the active one has been shut down exactly once. */
  lemma NothingLeaks(s: System, id: Id)
    requires Reachable(s) && s.holders == multiset{} && s.closing == multiset{} && id in s.bundles
    ensures s.active != Some(id) ==> s.bundles[id].closed && s.bundles[id].closes == 1
  {
    ReachableInv(s);
    assert BundleOk(s, id);
  }

  /** A retired bundle is closed by the close that retires it or else by its last release. */
  lemma LastReleaseCloses(s: System, id: Id)
    requires Reachable(s) && id in s.bundles && s.bundles[id].retired && s.bundles[id].leases == 1
    ensures id in s.holders && id in ReleaseFactory(s, id).0.closing
    ensures RunClose(ReleaseFactory(s, id).0, id).bundles[id].closes == 1
  {
    ReachableInv(s);
    assert BundleOk(s, id);
  }

  /** A lease can always be given back, and asks for a close exactly if the bundle is retired and nobody else holds one. */
  lemma ReleaseExact(s: System, id: Id)
    requires Reachable(s) && id in s.holders
    ensures var (s', a) := ReleaseFactory(s, id);
            && a.Ok? && id in s.bundles && s'.active == s.active && s'.holders == s.holders - multiset{id}
            && s'.bundles == s.bundles[id := s.bundles[id].(leases := s'.holders[id])]
            && s'.closing == if s.bundles[id].retired && s.holders[id] == 1 then s.closing + multiset{id} else s.closing
  {
    ReachableInv(s);
    assert BundleOk(s, id);
  }

  // ---------- Applying any bundle ----------

  /** Whatever happens from here on, taking the factory succeeds. */
  ghost predicate Serves(s: System) {
    forall events :: AcquireFactory(Play(s, events)).1.Ok?
  }

  lemma InvServes(s: System)
    requires Inv(s)
    ensures Serves(s)
  {
    forall events ensures AcquireFactory(Play(s, events)).1.Ok? {
      PlayKeeps(s, events);
      var t := Play(s, events);
      if t.active.Some? { assert BundleOk(t, t.active.value); }
    }
  }

  /** A bundle let go but not closed yet refuses requests at once or after the close that is still to come. */
  lemma ReappliedRefuses(s: System, id: Id, ok: bool)
    requires BundleOk(s, id) && id in s.bundles && !s.bundles[id].closed && s.active != Some(id)
    ensures !Serves(Apply(s, id, ok).0)
  {
    var t := Apply(s, id, ok).0;
    if s.bundles[id].retired {
      assert AcquireFactory(Play(t, [])).1.Err?;
    } else {
      var events := [DoClose(id)];
      assert events[1..] == [];
      assert Play(t, events) == Play(RunClose(t, id), []);
      assert AcquireFactory(Play(t, events)).1.Err?;
    }
  }

  /** Applying a bundle keeps the service serving, over every later run, exactly when the bundle is newly built,
      already active, or closed for good, which the start refuses. */
  lemma ApplyExactly(s: System, id: Id, ok: bool)
    requires Reachable(s)
    ensures Serves(Apply(s, id, ok).0) <==> id !in s.bundles || s.active == Some(id) || s.bundles[id].closed
    ensures id in s.bundles && s.bundles[id].started ==>
              Apply(s, id, ok).1.Ok? && (Serves(Apply(s, id, ok).0) <==> s.active == Some(id))
  {
    ReachableInv(s);
    assert BundleOk(s, id);
    if id !in s.bundles || s.active == Some(id) {
      ReactKeeps(s, DoApply(id, ok));
      InvServes(Apply(s, id, ok).0);
    } else if s.bundles[id].closed {
      assert Apply(s, id, ok).0 == s;
      InvServes(s);
    } else {
      ReappliedRefuses(s, id, ok);
    }
  }

  lemma PlayNext(s: System, e: Event, rest: seq<Event>)
    ensures Play(s, [e] + rest) == Play(React(s, e), rest)
  {
    assert ([e] + rest)[1..] == rest;
  }

  lemma PlayTwo(s: System, a: Event, b: Event)
    ensures Play(s, [a, b]) == React(React(s, a), b)
  {
    PlayNext(s, a, [b]);
    PlayNext(React(s, a), b, []);
    assert [a, b] == [a] + [b] && [b] == [b] + [];
  }

  /** A retired bundle still leased passes start, becomes active again, and then refuses every request. */
  lemma ReappliedWhileLeased()
    ensures var s := Play(IDLE, [DoApply(0, true), DoAcquire, DoApply(1, true)]);
            Apply(s, 0, true).1.Ok? && AcquireFactory(Apply(s, 0, true).0).1 == Err(Unavailable)
  {
    PlayNext(IDLE, DoApply(0, true), [DoAcquire, DoApply(1, true)]);
    assert [DoApply(0, true), DoAcquire, DoApply(1, true)] == [DoApply(0, true)] + [DoAcquire, DoApply(1, true)];
    PlayTwo(React(IDLE, DoApply(0, true)), DoAcquire, DoApply(1, true));
  }

  /** A bundle let go by a shutdown serves again only until the shutdown's own close reaches it. */
  lemma ReappliedWhileClosing()
    ensures var s := Apply(Play(IDLE, [DoApply(0, true), DoDetach]), 0, true).0;
            && s.active == Some(0) && AcquireFactory(s).1.Ok?
            && React(s, DoClose(0)).active == Some(0)
            && AcquireFactory(React(s, DoClose(0))).1 == Err(Unavailable)
  {
    PlayTwo(IDLE, DoApply(0, true), DoDetach);
  }
}
