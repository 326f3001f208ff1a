/** The token service and the retention job as updates of one ledger object. */
module AuthTokens {
  import opened Prelude
  import opened RefreshLedger

  /** n full batches of the given size. */
  function Times(size: nat, n: nat): nat { if n == 0 then 0 else Times(size, n - 1) + size }

  function Sum(pauses: seq<nat>): nat {
    if pauses == [] then 0 else Sum(pauses[..|pauses| - 1]) + pauses[|pauses| - 1]
  }

  lemma SumNext(pauses: seq<nat>, n: nat)
    requires n < |pauses|
    ensures Sum(pauses[..n + 1]) == Sum(pauses[..n]) + pauses[n]
  {
    assert pauses[..n + 1][..n] == pauses[..n];
  }

  class AuthTokenService {
    const policy: Policy
    var users: set<UserId>
    var ledger: map<Token, Row>
    ghost var seen: set<Token>
    var clock: Time

    ghost function Model(): State
      reads this
    {
      State(policy, users, ledger, seen, clock)
    }

    ghost predicate Valid()
      reads this
    {
      Inv(Model())
    }

    constructor (policy: Policy)
      ensures Model() == Start(policy) && Valid()
    {
      this.policy := policy;
      users, ledger, seen, clock := {}, map[], {}, 0;
    }

    method Issue(user: UserId, token: Token) returns (r: Answer<Token, Rejection>)
      requires Valid() && token !in seen
      modifies this
      ensures (Model(), r) == RefreshLedger.Issue(old(Model()), user, token)
      ensures Valid()
    {
      NextInv(Model(), DoIssue(user, token));
      if !WellFormed(token) { return Err(Unsafe); }
      if user !in users { return Err(NoUser); }
      ledger := ledger[token := Row(user, clock + policy.lifetime, None)];
      seen := seen + {token};
      r := Ok(token);
    }

    method RevokeActiveForUser(user: UserId) returns (count: nat)
      requires Valid()
      modifies this`ledger
      ensures Model() == RevokeAll(old(Model()), user)
      ensures count == |ActiveOf(old(Model()), user)|
      ensures Valid()
    {
      var chosen := set t | t in ledger && ledger[t].user == user && Active(ledger[t], clock);
      count := |chosen|;
      assert chosen == ActiveOf(Model(), user);
      ledger := map t | t in ledger :: Revoke(ledger[t], user, clock);
    }

    method Rotate(raw: Option<string>, replacement: Token) returns (r: Answer<Token, Rejection>)
      requires Valid() && replacement !in seen
      modifies this
      ensures (Model(), r) == RefreshLedger.Rotate(old(Model()), raw, replacement)
      ensures Valid()
    {
      NextInv(Model(), DoRotate(raw, replacement));
      var checked := Validated(raw);
      if checked.Err? { return Err(checked.error); }
      var token := checked.value;
      if token !in ledger || ledger[token].user !in users { return Err(Invalid); }
      var row := ledger[token];
      if row.expires <= clock { return Err(Expired); }
      if row.revoked.Some? {
        var _ := RevokeActiveForUser(row.user);
        return Err(Replay);
      }
      if !WellFormed(replacement) { return Err(Unsafe); }
      ledger := ledger[token := row.(revoked := Some(clock))];
      ledger := ledger[replacement := Row(row.user, clock + policy.lifetime, None)];
      seen := seen + {replacement};
      r := Ok(replacement);
    }

    method Logout(raw: Option<string>) returns (count: nat)
      requires Valid()
      modifies this`ledger
      ensures (Model(), count) == RefreshLedger.Logout(old(Model()), raw)
      ensures Valid()
    {
      var checked := Validated(raw);
      if checked.Err? || checked.value !in ledger { return 0; }
      var row := ledger[checked.value];
      if row.user !in users || row.revoked.Some? || row.expires <= clock { return 0; }
      ledger := ledger[checked.value := row.(revoked := Some(clock))];
      count := 1;
    }

    method LogoutAll(user: UserId) returns (count: nat)
      requires Valid()
      modifies this`ledger
      ensures (Model(), count) == RefreshLedger.LogoutAll(old(Model()), user)
      ensures Valid()
    {
      if user !in users { return 0; }
      count := RevokeActiveForUser(user);
    }

    /** The stale row that expired first among those not yet taken. */
    method Oldest(stale: set<Token>) returns (t: Token)
      requires stale != {} && stale <= ledger.Keys
      ensures t in stale && forall u :: u in stale ==> ledger[t].expires <= ledger[u].expires
    {
      t :| t in stale;
      var rest := stale - {t};
      while rest != {}
        invariant rest <= stale && t in stale
        invariant forall u :: u in stale - rest ==> ledger[t].expires <= ledger[u].expires
        decreases rest
      {
        var u :| u in rest;
        rest := rest - {u};
        if ledger[u].expires < ledger[t].expires { t := u; }
      }
    }

    /** The query for the batch: stale rows in order of expiry, up to the limit. */
    method PickBatch(limit: nat) returns (candidates: set<Token>)
      ensures IsBatch(Model(), limit, candidates)
    {
      ghost var before := Model();
      var stale := set t | t in ledger && ledger[t].expires <= clock - policy.retention;
      assert stale == Overdue(before);
      candidates := {};
      while |candidates| < limit && stale != {}
        invariant candidates !! stale && candidates + stale == Overdue(before) && |candidates| <= limit
        invariant stale <= ledger.Keys && candidates <= ledger.Keys
        invariant forall t, u :: t in candidates && u in stale ==> ledger[t].expires <= ledger[u].expires
        decreases stale
      {
        var t := Oldest(stale);
        stale := stale - {t};
        candidates := candidates + {t};
      }
    }

    method PurgeBatch(limit: int) returns (r: Answer<nat, ()>, ghost gone: set<Token>)
      requires Valid()
      modifies this`ledger
      ensures r.Err? <==> limit <= 0
      ensures r.Err? ==> Model() == old(Model())
      ensures r.Ok? ==> && IsBatch(old(Model()), limit, gone) && r.value == |gone|
                        && Model() == Purge(old(Model()), gone)
      ensures Valid()
    {
      gone := {};
      if limit <= 0 { return Err(()), gone; }
      var candidates := PickBatch(limit);
      gone := candidates;
      ledger := ledger - candidates;
      r := Ok(|candidates|);
    }

    /** The retention job: batches until one is not full or the allowed number has run. Each batch reads the clock
        anew; pauses holds the time that passes before each of them. */
    method PurgeLedger(limit: nat, pauses: seq<nat>) returns (total: nat, ghost gone: set<Token>, ghost ran: nat)
      requires Valid() && limit > 0 && pauses != []
      modifies this`ledger, this`clock
      ensures ran <= |pauses| && clock == old(clock) + Sum(pauses[..ran])
      ensures var due := old(Model()).(clock := clock);
              && gone <= Overdue(due) && Model() == Purge(due, gone) && total == |gone| && OldestFirst(due, gone)
              && (gone == Overdue(due) || (ran == |pauses| && total == Times(limit, ran)))
      ensures Valid()
    {
      ghost var before := Model();
      total, gone, ran := 0, {}, 0;
      assert Purge(before, {}) == before;
      for n := 0 to |pauses|
        invariant ran == n && clock == before.clock + Sum(pauses[..n])
        invariant gone <= Overdue(before.(clock := clock)) && Model() == Purge(before.(clock := clock), gone)
        invariant total == |gone| == Times(limit, n)
        invariant OldestFirst(before.(clock := clock), gone) && Valid()
      {
        SumNext(pauses, n);
        LaterStillOldest(before.(clock := clock), gone, clock + pauses[n]);
        clock := clock + pauses[n];
        ran := n + 1;
        var r, batch := PurgeBatch(limit);
        BatchesAddUp(before.(clock := clock), gone, limit, batch);
        gone := gone + batch;
        total := total + r.value;
        if r.value < limit { return; }
      }
    }
  }
}
