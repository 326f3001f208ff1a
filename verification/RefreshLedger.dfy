/** The refresh-token ledger: rotation with replay revocation, logout, and purging of old rows. */
module RefreshLedger {
  import opened Prelude

  type UserId = nat
  type Time = int

  /** A token stands for its hash; the hash is taken to be injective. */
  type Token = string

  datatype Row = Row(user: UserId, expires: Time, revoked: Option<Time>)

  /** Lifetimes come from the settings, which demand at least one day of each. */
  datatype Policy = Policy(lifetime: nat, retention: nat)

  /** seen holds every token ever put into the ledger. */
  datatype State = State(policy: Policy, users: set<UserId>, ledger: map<Token, Row>, seen: set<Token>, clock: Time)

  datatype Rejection = Missing | Invalid | Expired | Replay | NoUser | Unsafe | Collision

  type Reply<T> = (State, Answer<T, Rejection>)

  predicate IsOpaque(c: char) {
    'A' <= c <= 'Z' || 'a' <= c <= 'z' || '0' <= c <= '9' || c == '_' || c == '-'
  }

  predicate WellFormed(raw: string) {
    64 <= |raw| <= 256 && forall i :: 0 <= i < |raw| ==> IsOpaque(raw[i])
  }

  function Validated(raw: Option<string>): Answer<Token, Rejection> {
    if raw.None? then Err(Missing) else if !WellFormed(raw.value) then Err(Invalid) else Ok(raw.value)
  }

  predicate Active(row: Row, now: Time) { row.revoked.None? && row.expires > now }

  // ---------- Operations ----------

  function Granted(s: State, user: UserId, token: Token): State {
    s.(ledger := s.ledger[token := Row(user, s.clock + s.policy.lifetime, None)], seen := s.seen + {token})
  }

  function Issue(s: State, user: UserId, token: Token): Reply<Token> {
    if !WellFormed(token) then (s, Err(Unsafe))
    else if user !in s.users then (s, Err(NoUser))
    else if token in s.seen then (s, Err(Collision))
    else (Granted(s, user, token), Ok(token))
  }

  function Revoke(row: Row, user: UserId, now: Time): Row {
    if row.user == user && Active(row, now) then row.(revoked := Some(now)) else row
  }

  function RevokeAll(s: State, user: UserId): State {
    s.(ledger := map t | t in s.ledger :: Revoke(s.ledger[t], user, s.clock))
  }

  function ActiveOf(s: State, user: UserId): set<Token> {
    set t | t in s.ledger && s.ledger[t].user == user && Active(s.ledger[t], s.clock)
  }

  function Rotate(s: State, raw: Option<string>, replacement: Token): Reply<Token> {
    var checked := Validated(raw);
    if checked.Err? then (s, Err(checked.error))
    else
      var token := checked.value;
      if token !in s.ledger || s.ledger[token].user !in s.users then (s, Err(Invalid))
      else
        var row := s.ledger[token];
        if row.expires <= s.clock then (s, Err(Expired))
        else if row.revoked.Some? then (RevokeAll(s, row.user), Err(Replay))
        else if !WellFormed(replacement) then (s, Err(Unsafe))
        else if replacement in s.seen then (s, Err(Collision))
        else
          var spent := s.(ledger := s.ledger[token := row.(revoked := Some(s.clock))]);
          (Granted(spent, row.user, replacement), Ok(replacement))
  }

  function Logout(s: State, raw: Option<string>): (State, nat) {
    var checked := Validated(raw);
    if checked.Err? || checked.value !in s.ledger then (s, 0)
    else
      var row := s.ledger[checked.value];
      if row.user !in s.users || !Active(row, s.clock) then (s, 0)
      else (s.(ledger := s.ledger[checked.value := row.(revoked := Some(s.clock))]), 1)
  }

  function LogoutAll(s: State, user: UserId): (State, nat) {
    if user !in s.users then (s, 0) else (RevokeAll(s, user), |ActiveOf(s, user)|)
  }

  function Stale(s: State): set<Token> {
    set t | t in s.ledger && s.ledger[t].expires <= s.clock - s.policy.retention
  }

  /** The rows that have been expired for the whole retention. */
  ghost function Overdue(s: State): set<Token> {
    set t | t in s.ledger && s.ledger[t].expires + s.policy.retention <= s.clock
  }

  /** gone is a batch of overdue rows: the oldest ones, and all of them unless the limit is reached. */
  ghost predicate IsBatch(s: State, limit: nat, gone: set<Token>) {
    && gone <= Overdue(s) && |gone| <= limit && (|gone| == limit || gone == Overdue(s))
    && OldestFirst(s, gone)
  }

  ghost predicate OldestFirst(s: State, gone: set<Token>) {
    forall t, u :: t in gone && u in Overdue(s) && t in s.ledger && u !in gone ==>
      s.ledger[t].expires <= s.ledger[u].expires
  }

  function Purge(s: State, gone: set<Token>): State { s.(ledger := s.ledger - gone) }

  /** Batches add up: two in a row are one larger batch. */
  lemma BatchesAddUp(s: State, gone: set<Token>, limit: nat, batch: set<Token>)
    requires gone <= Overdue(s) && OldestFirst(s, gone) && IsBatch(Purge(s, gone), limit, batch)
    ensures Purge(Purge(s, gone), batch) == Purge(s, gone + batch)
    ensures gone + batch <= Overdue(s) && |gone + batch| == |gone| + |batch| && OldestFirst(s, gone + batch)
    ensures |batch| < limit ==> gone + batch == Overdue(s)
  {
    StaleLeft(s, gone);
    JoinCount(gone, batch);
    assert s.ledger - gone - batch == s.ledger - (gone + batch);
    OldestTogether(s, gone, batch);
  }

  lemma StaleLeft(s: State, gone: set<Token>)
    ensures Overdue(Purge(s, gone)) == Overdue(s) - gone
  {
  }

  lemma JoinCount(gone: set<Token>, batch: set<Token>)
    requires gone !! batch
    ensures |gone + batch| == |gone| + |batch|
  {
  }

  lemma OldestTogether(s: State, gone: set<Token>, batch: set<Token>)
    requires gone !! batch && batch <= Overdue(Purge(s, gone))
    requires OldestFirst(s, gone) && OldestFirst(Purge(s, gone), batch)
    ensures OldestFirst(s, gone + batch)
  {
    forall t, u | t in gone + batch && u in Overdue(s) && t in s.ledger && u !in gone + batch
      ensures s.ledger[t].expires <= s.ledger[u].expires
    {
      assert u in Overdue(Purge(s, gone));
    }
  }

  /** Rows that fall due later expire later, so the oldest stay the oldest. */
  lemma LaterStillOldest(s: State, gone: set<Token>, later: Time)
    requires gone <= Overdue(s) && OldestFirst(s, gone) && s.clock <= later
    ensures gone <= Overdue(s.(clock := later)) && OldestFirst(s.(clock := later), gone)
  {
  }

  // ---------- Runs ----------

  datatype Step =
    | AddUser(user: UserId)
    | DoIssue(user: UserId, token: Token)
    | DoRotate(raw: Option<string>, replacement: Token)
    | DoLogout(raw: Option<string>)
    | DoLogoutAll(user: UserId)
    | DoPurge(gone: set<Token>)
    | Tick(elapsed: nat)

  datatype Outcome = Grant(answer: Answer<Token, Rejection>) | Revoked(count: nat) | Silent

  function Apply(s: State, step: Step): (State, Outcome) {
    match step
    case AddUser(u) => (s.(users := s.users + {u}), Silent)
    case DoIssue(u, t) => var (s', a) := Issue(s, u, t); (s', Grant(a))
    case DoRotate(raw, t) => var (s', a) := Rotate(s, raw, t); (s', Grant(a))
    case DoLogout(raw) => var (s', n) := Logout(s, raw); (s', Revoked(n))
    case DoLogoutAll(u) => var (s', n) := LogoutAll(s, u); (s', Revoked(n))
    case DoPurge(gone) => (Purge(s, gone * Stale(s)), Silent)
    case Tick(e) => (s.(clock := s.clock + e), Silent)
  }

  function Next(s: State, step: Step): State { Apply(s, step).0 }

  function After(s: State, steps: seq<Step>): State
    decreases |steps|
  {
    if steps == [] then s else After(Next(s, steps[0]), steps[1..])
  }

  function Start(policy: Policy): State { State(policy, {}, map[], {}, 0) }

  ghost predicate Inv(s: State) {
    forall t :: t in s.ledger ==> t in s.seen && s.ledger[t].user in s.users
  }

  lemma NextInv(s: State, step: Step)
    requires Inv(s)
    ensures Inv(Next(s, step)) && s.seen <= Next(s, step).seen && s.clock <= Next(s, step).clock
  {
  }

  lemma {:induction false} RunInv(s: State, steps: seq<Step>)
    requires Inv(s)
    ensures Inv(After(s, steps)) && s.clock <= After(s, steps).clock
    decreases |steps|
  {
    if steps != [] {
      NextInv(s, steps[0]);
      RunInv(Next(s, steps[0]), steps[1..]);
    }
  }

  ghost predicate Reachable(s: State) {
    exists policy, steps :: s == After(Start(policy), steps)
  }

  lemma ReachableInv(s: State)
    requires Reachable(s)
    ensures Inv(s)
  {
    var policy, steps :| s == After(Start(policy), steps);
    RunInv(Start(policy), steps);
  }

  // ---------- A token is rotated at most once ----------

  /** The token has been issued and can no longer be rotated. */
  predicate Spent(s: State, token: Token) {
    token in s.seen && (token in s.ledger ==> !Active(s.ledger[token], s.clock))
  }

  lemma SpentStep(s: State, step: Step, token: Token)
    requires Inv(s) && Spent(s, token)
    ensures Spent(Next(s, step), token)
  {
  }

  lemma {:induction false} SpentRun(s: State, steps: seq<Step>, token: Token)
    requires Inv(s) && Spent(s, token)
    ensures Spent(After(s, steps), token)
    decreases |steps|
  {
    if steps != [] {
      NextInv(s, steps[0]);
      SpentStep(s, steps[0], token);
      SpentRun(Next(s, steps[0]), steps[1..], token);
    }
  }

  /** After one successful rotation no later attempt with the same token succeeds, whatever happens between. */
  lemma RotatedOnce(s: State, token: Token, first: Token, steps: seq<Step>, second: Token)
    requires Reachable(s) && Rotate(s, Some(token), first).1.Ok?
    ensures Rotate(After(Rotate(s, Some(token), first).0, steps), Some(token), second).1.Err?
  {
    ReachableInv(s);
    var s' := Rotate(s, Some(token), first).0;
    NextInv(s, DoRotate(Some(token), first));
    assert s' == Next(s, DoRotate(Some(token), first));
    assert Spent(s', token);
    SpentRun(s', steps, token);
  }

  // ---------- Revocation lasts until the next issue ----------

  /** No token of the user can be rotated. */
  ghost predicate SignedOut(s: State, user: UserId) {
    forall t :: t in s.ledger && s.ledger[t].user == user ==> !Active(s.ledger[t], s.clock)
  }

  lemma RevokeAllSignsOut(s: State, user: UserId)
    ensures SignedOut(RevokeAll(s, user), user)
  {
  }

  lemma SignedOutStep(s: State, step: Step, user: UserId)
    requires SignedOut(s, user) && !(step.DoIssue? && step.user == user)
    ensures SignedOut(Next(s, step), user)
  {
  }

  lemma {:induction false} SignedOutRun(s: State, steps: seq<Step>, user: UserId)
    requires SignedOut(s, user)
    requires forall i :: 0 <= i < |steps| ==> !(steps[i].DoIssue? && steps[i].user == user)
    ensures SignedOut(After(s, steps), user)
    decreases |steps|
  {
    if steps != [] {
      SignedOutStep(s, steps[0], user);
      SignedOutRun(Next(s, steps[0]), steps[1..], user);
    }
  }

  lemma NoRotationWhileOut(s: State, user: UserId, raw: Option<string>, replacement: Token)
    requires SignedOut(s, user)
    ensures var (s', a) := Rotate(s, raw, replacement);
            a.Ok? ==> raw.Some? && raw.value in s.ledger && s.ledger[raw.value].user != user
  {
  }

  /** A replayed token, or a logout everywhere, shuts every token of the user out until one is issued. */
  lemma ReplayShutsOut(s: State, token: Token, attempt: Token, steps: seq<Step>, raw: Option<string>, replacement: Token)
    requires token in s.ledger && Rotate(s, Some(token), attempt).1 == Err(Replay)
    requires forall i :: 0 <= i < |steps| ==> !(steps[i].DoIssue? && steps[i].user == s.ledger[token].user)
    ensures var s' := After(Rotate(s, Some(token), attempt).0, steps);
            && SignedOut(s', s.ledger[token].user)
            && (Rotate(s', raw, replacement).1.Ok? ==>
                  raw.Some? && raw.value in s'.ledger && s'.ledger[raw.value].user != s.ledger[token].user)
  {
    var user := s.ledger[token].user;
    RevokeAllSignsOut(s, user);
    SignedOutRun(RevokeAll(s, user), steps, user);
    NoRotationWhileOut(After(RevokeAll(s, user), steps), user, raw, replacement);
  }

  lemma LogoutAllShutsOut(s: State, user: UserId, steps: seq<Step>, raw: Option<string>, replacement: Token)
    requires user in s.users
    requires forall i :: 0 <= i < |steps| ==> !(steps[i].DoIssue? && steps[i].user == user)
    ensures var s' := After(LogoutAll(s, user).0, steps);
            && SignedOut(s', user)
            && (Rotate(s', raw, replacement).1.Ok? ==>
                  raw.Some? && raw.value in s'.ledger && s'.ledger[raw.value].user != user)
  {
    RevokeAllSignsOut(s, user);
    SignedOutRun(RevokeAll(s, user), steps, user);
    NoRotationWhileOut(After(RevokeAll(s, user), steps), user, raw, replacement);
  }

  /** A reply of Replay is given exactly for a revoked token before its expiry. */
  lemma ReplayExactly(s: State, token: Token, replacement: Token)
    requires Reachable(s) && WellFormed(token)
    ensures Rotate(s, Some(token), replacement).1 == Err(Replay) <==>
            token in s.ledger && s.ledger[token].revoked.Some? && s.ledger[token].expires > s.clock
  {
    ReachableInv(s);
  }

  // ---------- An issued token lives until it expires or is withdrawn ----------

  /** The token was handed to the user until the given time, and its row stays for the retention beyond. */
  predicate IssuedTo(s: State, token: Token, user: UserId, end: Time) {
    && token in s.seen && user in s.users
    && (token in s.ledger ==> s.ledger[token].user == user && s.ledger[token].expires == end)
    && (s.clock < end + s.policy.retention ==> token in s.ledger)
  }

  /** Steps that end a token before its time: its rotation or logout, a logout of its user everywhere, a replay. */
  predicate Withdraws(s: State, step: Step, token: Token, user: UserId) {
    match step
    case DoRotate(raw, replacement) =>
      var answer := Rotate(s, raw, replacement).1;
      || (raw == Some(token) && answer.Ok?)
      || (answer == Err(Replay) && raw.value in s.ledger && s.ledger[raw.value].user == user)
    case DoLogout(raw) => raw == Some(token)
    case DoLogoutAll(u) => u == user
    case _ => false
  }

  predicate Spared(s: State, steps: seq<Step>, token: Token, user: UserId)
    decreases |steps|
  {
    steps == [] || (!Withdraws(s, steps[0], token, user) && Spared(Next(s, steps[0]), steps[1..], token, user))
  }

  lemma IssuedStep(s: State, step: Step, token: Token, user: UserId, end: Time)
    requires Inv(s) && IssuedTo(s, token, user, end)
    ensures IssuedTo(Next(s, step), token, user, end) && Next(s, step).policy == s.policy
  {
  }

  lemma WithdrawnExactly(s: State, step: Step, token: Token, user: UserId, end: Time)
    requires Inv(s) && WellFormed(token) && IssuedTo(s, token, user, end) && Next(s, step).clock < end
    requires token in s.ledger && token in Next(s, step).ledger
    ensures Next(s, step).ledger[token].revoked.None? <==>
            s.ledger[token].revoked.None? && !Withdraws(s, step, token, user)
  {
  }

  lemma {:induction false} IssuedRun(s: State, steps: seq<Step>, token: Token, user: UserId, end: Time)
    requires Inv(s) && WellFormed(token) && IssuedTo(s, token, user, end)
    ensures var s' := After(s, steps);
            && IssuedTo(s', token, user, end) && s'.policy == s.policy
            && (s'.clock < end ==>
                  && token in s.ledger && token in s'.ledger
                  && (s'.ledger[token].revoked.None? <==>
                      s.ledger[token].revoked.None? && Spared(s, steps, token, user)))
    decreases |steps|
  {
    if steps != [] {
      RunInv(s, steps);
      NextInv(s, steps[0]);
      RunInv(Next(s, steps[0]), steps[1..]);
      IssuedStep(s, steps[0], token, user, end);
      IssuedRun(Next(s, steps[0]), steps[1..], token, user, end);
      if After(s, steps).clock < end { WithdrawnExactly(s, steps[0], token, user, end); }
    }
  }

  /** What a rotation of a token handed out until `end` answers later: it succeeds before the end unless the token was
      withdrawn, which makes it a replay; from the end on it is expired, or unknown once the retention is over too. */
  ghost predicate Lives(s: State, steps: seq<Step>, token: Token, user: UserId, end: Time, replacement: Token) {
    var later := After(s, steps);
    Rotate(later, Some(token), replacement).1 ==
      if later.clock < end then (if Spared(s, steps, token, user) then Ok(replacement) else Err(Replay))
      else if later.clock < end + s.policy.retention || token in later.ledger then Err(Expired)
      else Err(Invalid)
  }

  lemma HandedTokenLives(s: State, steps: seq<Step>, token: Token, user: UserId, end: Time, replacement: Token)
    requires Inv(s) && WellFormed(token) && IssuedTo(s, token, user, end) && token in s.ledger && s.ledger[token].revoked.None?
    requires WellFormed(replacement) && replacement !in After(s, steps).seen
    ensures Lives(s, steps, token, user, end, replacement)
  {
    IssuedRun(s, steps, token, user, end);
    RunInv(s, steps);
  }

  /** An issued token is its user's for the whole lifetime, over every run. */
  lemma IssuedTokenLives(s: State, user: UserId, token: Token, steps: seq<Step>, replacement: Token)
    requires Reachable(s) && Issue(s, user, token).1.Ok?
    requires WellFormed(replacement) && replacement !in After(Issue(s, user, token).0, steps).seen
    ensures Lives(Issue(s, user, token).0, steps, token, user, s.clock + s.policy.lifetime, replacement)
  {
    ReachableInv(s);
    NextInv(s, DoIssue(user, token));
    HandedTokenLives(Next(s, DoIssue(user, token)), steps, token, user, s.clock + s.policy.lifetime, replacement);
  }

  /** So is the replacement a rotation hands out: same user, a full lifetime from this rotation. */
  lemma RotatedTokenLives(s: State, token: Token, next: Token, steps: seq<Step>, replacement: Token)
    requires Reachable(s) && Rotate(s, Some(token), next).1 == Ok(next)
    requires WellFormed(replacement) && replacement !in After(Rotate(s, Some(token), next).0, steps).seen
    ensures token in s.ledger
    ensures Lives(Rotate(s, Some(token), next).0, steps, next, s.ledger[token].user, s.clock + s.policy.lifetime,
                  replacement)
  {
    ReachableInv(s);
    NextInv(s, DoRotate(Some(token), next));
    HandedTokenLives(Next(s, DoRotate(Some(token), next)), steps, next, s.ledger[token].user,
                     s.clock + s.policy.lifetime, replacement);
  }

  // ---------- What each call answers and leaves ----------

  /** 64 to 256 letters, digits, hyphens and underscores. */
  ghost predicate Opaque(raw: string) {
    && 64 <= |raw| <= 256
    && forall i :: 0 <= i < |raw| ==>
         var c := raw[i] as int; 65 <= c <= 90 || 97 <= c <= 122 || 48 <= c <= 57 || c == 95 || c == 45
  }

  /** The token is in the ledger and can be, or could once have been, rotated. */
  ghost predicate Known(s: State, raw: Option<string>) { raw.Some? && Opaque(raw.value) && raw.value in s.ledger }

  /** The ledger with every unexpired and unrevoked row of the user revoked now. */
  ghost predicate SignsOut(s: State, s': State, user: UserId) {
    && s' == s.(ledger := s'.ledger) && s'.ledger.Keys == s.ledger.Keys
    && forall t :: t in s.ledger ==>
         var row := s.ledger[t];
         s'.ledger[t] == if row.user == user && row.revoked.None? && s.clock < row.expires
                         then Row(user, row.expires, Some(s.clock)) else row
  }

  /** A rotation succeeds exactly for a known token that is neither expired nor revoked; it revokes that row and adds the
      replacement for the same user with a full lifetime. A revoked token signs its user out; nothing else changes. */
  lemma RotateExact(s: State, raw: Option<string>, next: Token)
    requires Reachable(s) && Opaque(next) && next !in s.seen
    ensures var (s', a) := Rotate(s, raw, next);
            && (a == Err(Missing) <==> raw.None?)
            && (a == Err(Invalid) <==> raw.Some? && !Known(s, raw))
            && (Known(s, raw) ==>
                  var row := s.ledger[raw.value];
                  if row.expires <= s.clock then s' == s && a == Err(Expired)
                  else if row.revoked.Some? then SignsOut(s, s', row.user) && a == Err(Replay)
                  else && a == Ok(next)
                       && s' == s.(ledger := s.ledger[raw.value := Row(row.user, row.expires, Some(s.clock))]
                                                     [next := Row(row.user, s.clock + s.policy.lifetime, None)],
                                   seen := s.seen + {next}))
            && (!Known(s, raw) ==> s' == s && a.Err?)
  {
    ReachableInv(s);
  }

  /** A token is issued exactly if it is well formed and unused and the user exists; then it is active for a lifetime. */
  lemma IssueExact(s: State, user: UserId, token: Token)
    ensures Issue(s, user, token).1.Ok? <==> Opaque(token) && user in s.users && token !in s.seen
    ensures Issue(s, user, token).0 ==
            if Issue(s, user, token).1.Err? then s
            else s.(ledger := s.ledger[token := Row(user, s.clock + s.policy.lifetime, None)], seen := s.seen + {token})
  {
  }

  /** A logout counts and revokes exactly a known token that is neither expired nor revoked. */
  lemma LogoutExact(s: State, raw: Option<string>)
    requires Reachable(s)
    ensures Logout(s, raw) ==
            if Known(s, raw) && s.clock < s.ledger[raw.value].expires && s.ledger[raw.value].revoked.None?
            then (s.(ledger := s.ledger[raw.value := s.ledger[raw.value].(revoked := Some(s.clock))]), 1)
            else (s, 0)
  {
    ReachableInv(s);
  }

  /** A logout everywhere revokes and counts exactly the tokens of the user that are neither expired nor revoked. */
  lemma LogoutAllExact(s: State, user: UserId)
    ensures var (s', n) := LogoutAll(s, user);
            if user in s.users then
              && SignsOut(s, s', user)
              && n == |set t | t in s.ledger && s.ledger[t].user == user && s.ledger[t].revoked.None?
                               && s.clock < s.ledger[t].expires|
            else s' == s && n == 0
  {
    assert ActiveOf(s, user) == set t | t in s.ledger && s.ledger[t].user == user && s.ledger[t].revoked.None?
                                        && s.clock < s.ledger[t].expires;
  }

  // ---------- Purging is invisible ----------

  /** full holds everything thin does, and besides only rows that have expired. */
  ghost predicate Thins(thin: State, full: State) {
    && thin.(ledger := full.ledger) == full
    && (forall t :: t in thin.ledger ==> t in full.ledger && full.ledger[t] == thin.ledger[t])
    && forall t :: t in full.ledger && t !in thin.ledger ==> full.ledger[t].expires <= full.clock
  }

  /** The same outcome, except that an expired token may be unknown instead. */
  predicate SameOutcome(thin: Outcome, full: Outcome) {
    thin == full || (thin == Grant(Err(Invalid)) && full == Grant(Err(Expired)))
  }

  lemma ThinActive(thin: State, full: State, user: UserId)
    requires Thins(thin, full)
    ensures ActiveOf(thin, user) == ActiveOf(full, user)
  {
  }

  lemma ThinsStep(thin: State, full: State, step: Step)
    requires Inv(full) && Thins(thin, full) && !step.DoPurge?
    ensures Thins(Next(thin, step), Next(full, step))
    ensures SameOutcome(Apply(thin, step).1, Apply(full, step).1)
  {
    if step.DoLogoutAll? {
      ThinsRevoke(thin, full, step.user);
      ThinActive(thin, full, step.user);
    } else if step.DoRotate? {
      ThinsRotate(thin, full, step.raw, step.replacement);
    }
  }

  lemma ThinsRevoke(thin: State, full: State, user: UserId)
    requires Thins(thin, full)
    ensures Thins(RevokeAll(thin, user), RevokeAll(full, user))
  {
  }

  lemma ThinsRotate(thin: State, full: State, raw: Option<string>, replacement: Token)
    requires Inv(full) && Thins(thin, full)
    ensures var a, b := Rotate(thin, raw, replacement), Rotate(full, raw, replacement);
            Thins(a.0, b.0) && (a.1 == b.1 || (a.1 == Err(Invalid) && b.1 == Err(Expired)))
  {
    if raw.Some? && raw.value in thin.ledger { ThinsRevoke(thin, full, thin.ledger[raw.value].user); }
  }

  lemma ThinsPurge(thin: State, full: State, gone: set<Token>)
    requires Thins(thin, full)
    ensures Thins(Next(thin, DoPurge(gone)), full)
  {
  }

  function Unpurged(steps: seq<Step>): seq<Step> {
    if steps == [] then []
    else (if steps[0].DoPurge? then [] else [steps[0]]) + Unpurged(steps[1..])
  }

  function Outcomes(s: State, steps: seq<Step>): seq<Outcome>
    decreases |steps|
  {
    if steps == [] then []
    else (if steps[0].DoPurge? then [] else [Apply(s, steps[0]).1]) + Outcomes(Next(s, steps[0]), steps[1..])
  }

  ghost predicate AllSame(thin: seq<Outcome>, full: seq<Outcome>) {
    |thin| == |full| && forall i :: 0 <= i < |thin| ==> SameOutcome(thin[i], full[i])
  }

  /** A run with purges answers like the same run without them, but for Expired turning Invalid. */
  lemma {:induction false} PurgeIsInvisible(thin: State, full: State, steps: seq<Step>)
    requires Inv(full) && Thins(thin, full)
    ensures Thins(After(thin, steps), After(full, Unpurged(steps)))
    ensures AllSame(Outcomes(thin, steps), Outcomes(full, Unpurged(steps)))
    decreases |steps|
  {
    if steps != [] {
      var step, rest := steps[0], steps[1..];
      if step.DoPurge? {
        ThinsPurge(thin, full, step.gone);
        PurgeIsInvisible(Next(thin, step), full, rest);
        assert [] + Unpurged(rest) == Unpurged(rest);
        assert [] + Outcomes(Next(thin, step), rest) == Outcomes(Next(thin, step), rest);
      } else {
        ThinsStep(thin, full, step);
        NextInv(full, step);
        PurgeIsInvisible(Next(thin, step), Next(full, step), rest);
        UnpurgedFirst(full, step, rest);
        SameCons(Apply(thin, step).1, Apply(full, step).1, Outcomes(Next(thin, step), rest),
                 Outcomes(Next(full, step), Unpurged(rest)));
      }
    }
  }

  lemma UnpurgedFirst(s: State, step: Step, rest: seq<Step>)
    requires !step.DoPurge?
    ensures After(s, [step] + Unpurged(rest)) == After(Next(s, step), Unpurged(rest))
    ensures Outcomes(s, [step] + Unpurged(rest)) == [Apply(s, step).1] + Outcomes(Next(s, step), Unpurged(rest))
  {
    assert ([step] + Unpurged(rest))[1..] == Unpurged(rest);
  }

  lemma SameCons(x: Outcome, y: Outcome, thin: seq<Outcome>, full: seq<Outcome>)
    requires SameOutcome(x, y) && AllSame(thin, full)
    ensures AllSame([x] + thin, [y] + full)
  {
  }

  /** From the empty ledger, purging never changes what any caller is told, but for that one answer. */
  lemma PurgedRunsAgree(policy: Policy, steps: seq<Step>)
    ensures AllSame(Outcomes(Start(policy), steps), Outcomes(Start(policy), Unpurged(steps)))
  {
    PurgeIsInvisible(Start(policy), Start(policy), steps);
  }
}
