/** What holds of sessions and refresh tokens over every run, with refreshes overlapping anything else. */
module SessionRuns {
  import opened Wrappers
  import opened Sessions

  /** Refreshes that have read but may still run their transaction. */
  datatype System = System(db: Db, started: seq<Attempt>)

  datatype Step =
    | DoIssue(user: UserId, now: int)
    | DoReadRefresh(token: TokenId, now: int)
    | DoRotate(attempt: nat, now: int)
    | DoLogout(token: TokenId)
    | DoRevokeSession(session: SessionId, actor: UserId, admin: bool)
    | DoLogoutAll(user: UserId, current: Option<SessionId>)
    | DoForgotPassword(user: UserId, now: int)
    | DoResetPassword(reset: ResetId, now: int)
    | DoChangePassword(user: UserId, valid: bool)
    | DoBlock(user: UserId, until: Option<int>)
    | DoMarkBlocked(user: UserId, end: int)
    | DoUnblock(user: UserId)
    | DoEnableMfa(user: UserId)
    | DoAddUser(user: UserId)

  function Effect(s: System, ttl: nat, step: Step): Db {
    match step
    case DoIssue(user, now) => IssueTokens(s.db, ttl, user, now).db
    case DoReadRefresh(_, _) => s.db
    case DoRotate(attempt, now) => if attempt < |s.started| then Rotate(s.db, ttl, s.started[attempt], now).db else s.db
    case DoLogout(token) => Logout(s.db, token)
    case DoRevokeSession(session, actor, admin) => RevokeSession(s.db, session, actor, admin).db
    case DoLogoutAll(user, current) => LogoutAll(s.db, user, current)
    case DoForgotPassword(user, now) => ForgotPassword(s.db, user, now)
    case DoResetPassword(reset, now) => ResetPassword(s.db, reset, now).db
    case DoChangePassword(user, valid) => ChangePassword(s.db, user, valid).db
    case DoBlock(user, until) => BlockUser(s.db, user, until).db
    case DoMarkBlocked(user, end) => MarkBlocked(s.db, user, end).db
    case DoUnblock(user) => UnblockUser(s.db, user).db
    case DoEnableMfa(user) => EnableMfa(s.db, user).db
    case DoAddUser(user) => AddUser(s.db, user).db
  }

  function Next(s: System, ttl: nat, step: Step): System {
    var started :=
      if step.DoReadRefresh? && ReadRefresh(s.db, step.token, step.now).Admitted?
      then s.started + [ReadRefresh(s.db, step.token, step.now).attempt]
      else s.started;
    System(Effect(s, ttl, step), started)
  }

  /** A run: any finite list of steps; the transactions of refreshes come in any order, late, or never. */
  function Run(s: System, ttl: nat, steps: seq<Step>): System {
    if steps == [] then s else Next(Run(s, ttl, steps[..|steps| - 1]), ttl, steps[|steps| - 1])
  }

  const EMPTY: System := System(Db(map[], [], [], []), [])

  ghost predicate IsReachable(s: System, ttl: nat) { exists steps :: s == Run(EMPTY, ttl, steps) }

  // ----- the invariant -----

  /** The tokens of a session, by age, are one chain: each replaced the one before it. */
  ghost predicate Linked(tokens: seq<Token>, t: TokenId)
    requires t < |tokens|
  {
    match tokens[t].parent
    case None => forall k :: 0 <= k < t ==> tokens[k].session != tokens[t].session
    case Some(p) =>
      && p < t && tokens[p].revoked && tokens[p].session == tokens[t].session && tokens[p].user == tokens[t].user
      && forall k :: p < k < t ==> tokens[k].session != tokens[t].session
  }

  ghost predicate TokenInv(db: Db) {
    forall t :: 0 <= t < |db.tokens| ==>
      && db.tokens[t].session < |db.sessions|
      && db.tokens[t].user == db.sessions[db.tokens[t].session].user
      && Linked(db.tokens, t)
  }

  ghost predicate SessionInv(db: Db) { forall i :: 0 <= i < |db.sessions| ==> db.sessions[i].user in db.users }

  ghost predicate AttemptInv(db: Db, a: Attempt) {
    a.token < |db.tokens| && a.session == db.tokens[a.token].session && a.user == db.tokens[a.token].user
  }

  ghost predicate Inv(s: System) {
    TokenInv(s.db) && SessionInv(s.db) && forall a :: a in s.started ==> AttemptInv(s.db, a)
  }

  /** Of two tokens of one session the older is revoked. */
  lemma {:induction false} OlderRevoked(db: Db, t: TokenId, u: TokenId)
    requires TokenInv(db) && t < u < |db.tokens| && db.tokens[t].session == db.tokens[u].session
    ensures db.tokens[t].revoked
  {
    assert Linked(db.tokens, u);
    var p := db.tokens[u].parent.value;
    if t < p {
      OlderRevoked(db, t, p);
    }
  }

  /** What no step undoes. */
  ghost predicate Grows(a: Db, b: Db) {
    && |a.tokens| <= |b.tokens| && |a.sessions| <= |b.sessions| && |a.resets| <= |b.resets|
    && (forall t :: 0 <= t < |a.tokens| ==>
          b.tokens[t] == a.tokens[t].(revoked := b.tokens[t].revoked) && (a.tokens[t].revoked ==> b.tokens[t].revoked))
    && (forall i :: 0 <= i < |a.sessions| ==>
          b.sessions[i].user == a.sessions[i].user && (a.sessions[i].revoked ==> b.sessions[i].revoked))
    && (forall u :: u in a.users ==> u in b.users && (a.users[u].mfa ==> b.users[u].mfa))
    && (forall r :: 0 <= r < |a.resets| && a.resets[r].used ==> b.resets[r].used)
  }

  /** The steps that add no rows and leave expiries alone. */
  ghost predicate OnlyRevokes(a: Db, b: Db) {
    && Grows(a, b) && |a.tokens| == |b.tokens| && |a.sessions| == |b.sessions|
    && forall i :: 0 <= i < |a.sessions| ==> b.sessions[i].expiresAt == a.sessions[i].expiresAt
  }

  predicate AddsToken(step: Step) { step.DoIssue? || step.DoRotate? }

  lemma QuietStep(s: System, ttl: nat, step: Step)
    requires !AddsToken(step)
    ensures OnlyRevokes(s.db, Effect(s, ttl, step))
  {
  }

  lemma QuietKeeps(a: Db, b: Db)
    requires TokenInv(a) && SessionInv(a) && OnlyRevokes(a, b)
    ensures TokenInv(b) && SessionInv(b)
  {
    forall t | 0 <= t < |b.tokens| ensures Linked(b.tokens, t) {
      assert Linked(a.tokens, t);
    }
  }

  lemma IssueKeeps(db: Db, ttl: nat, user: UserId, now: int)
    requires TokenInv(db) && SessionInv(db)
    ensures var next := IssueTokens(db, ttl, user, now).db; TokenInv(next) && SessionInv(next) && Grows(db, next)
  {
    var next := IssueTokens(db, ttl, user, now).db;
    forall t | 0 <= t < |next.tokens| ensures Linked(next.tokens, t) {
      if t < |db.tokens| {
        assert Linked(db.tokens, t);
      }
    }
  }

  lemma RotateKeeps(db: Db, ttl: nat, a: Attempt, now: int)
    requires TokenInv(db) && SessionInv(db) && AttemptInv(db, a)
    ensures var next := Rotate(db, ttl, a, now).db; TokenInv(next) && SessionInv(next) && Grows(db, next)
  {
    var next := Rotate(db, ttl, a, now).db;
    if !db.tokens[a.token].revoked {
      hide NewExpiry;
      LiveIsLatest(db, a.token);
      forall t | 0 <= t < |next.tokens| ensures Linked(next.tokens, t) {
        if t < |db.tokens| {
          assert Linked(db.tokens, t);
        }
      }
    }
  }

  lemma LiveIsLatest(db: Db, t: TokenId)
    requires TokenInv(db) && t < |db.tokens| && !db.tokens[t].revoked
    ensures forall k :: t < k < |db.tokens| ==> db.tokens[k].session != db.tokens[t].session
  {
    forall k | t < k < |db.tokens| ensures db.tokens[k].session != db.tokens[t].session {
      if db.tokens[k].session == db.tokens[t].session {
        OlderRevoked(db, t, k);
      }
    }
  }

  lemma NextKeeps(s: System, ttl: nat, step: Step)
    requires Inv(s)
    ensures Inv(Next(s, ttl, step)) && Grows(s.db, Next(s, ttl, step).db)
  {
    hide TokenInv, Rotate, IssueTokens;
    if step.DoIssue? {
      IssueKeeps(s.db, ttl, step.user, step.now);
    } else if step.DoRotate? {
      if step.attempt < |s.started| {
        RotateKeeps(s.db, ttl, s.started[step.attempt], step.now);
      }
    } else {
      QuietStep(s, ttl, step);
      QuietKeeps(s.db, Effect(s, ttl, step));
    }
  }

  lemma {:induction false} RunKeeps(s: System, ttl: nat, steps: seq<Step>)
    requires Inv(s)
    ensures Inv(Run(s, ttl, steps)) && Grows(s.db, Run(s, ttl, steps).db)
  {
    if steps != [] {
      RunKeeps(s, ttl, steps[..|steps| - 1]);
      NextKeeps(Run(s, ttl, steps[..|steps| - 1]), ttl, steps[|steps| - 1]);
    }
  }

  lemma ReachableInv(s: System, ttl: nat)
    requires IsReachable(s, ttl)
    ensures Inv(s)
  {
    var steps :| s == Run(EMPTY, ttl, steps);
    RunKeeps(EMPTY, ttl, steps);
  }

  // ----- the chain of tokens -----

  /** In every reachable state: a token has at most one successor, a session at most one token not revoked, and a
      token that replaced another belongs to the same session and user, with no token of the session in between. */
  lemma RotationIsAChain(s: System, ttl: nat)
    requires IsReachable(s, ttl)
    ensures var ts := s.db.tokens;
            && (forall t, u :: 0 <= t < u < |ts| && ts[t].parent.Some? ==> ts[t].parent != ts[u].parent)
            && (forall t, u :: 0 <= t < u < |ts| && ts[t].session == ts[u].session ==> ts[t].revoked)
            && (forall t :: 0 <= t < |ts| ==> Linked(ts, t))
  {
    ReachableInv(s, ttl);
    var ts := s.db.tokens;
    forall t, u | 0 <= t < u < |ts| && ts[t].parent.Some? ensures ts[t].parent != ts[u].parent {
      assert Linked(ts, t) && Linked(ts, u);
    }
    forall t, u | 0 <= t < u < |ts| && ts[t].session == ts[u].session ensures ts[t].revoked {
      OlderRevoked(s.db, t, u);
    }
  }

  // ----- revocation -----

  /** A token once revoked, or of a session once revoked, is never admitted again; and a refresh that was admitted
      before its token was revoked fails at its transaction and changes nothing. */
  lemma RevokedNeverRefreshes(s: System, ttl: nat, steps: seq<Step>, token: TokenId, now: int, a: Attempt)
    requires Inv(s) && token < |s.db.tokens|
    requires s.db.tokens[token].revoked || s.db.sessions[s.db.tokens[token].session].revoked
    ensures ReadRefresh(Run(s, ttl, steps).db, token, now).Denied?
    ensures a.token == token && s.db.tokens[token].revoked ==>
              Rotate(Run(s, ttl, steps).db, ttl, a, now) == Response(Run(s, ttl, steps).db, Err(Unauthorized))
  {
    RunKeeps(s, ttl, steps);
  }

  ghost predicate Dead(db: Db, i: SessionId) {
    && i < |db.sessions| && db.sessions[i].revoked
    && forall t :: 0 <= t < |db.tokens| && db.tokens[t].session == i ==> db.tokens[t].revoked
  }

  /** A session revoked with all its tokens gets no token ever after, whatever refreshes were under way. */
  lemma {:induction false} DeadStaysDead(s: System, ttl: nat, steps: seq<Step>, i: SessionId)
    requires Inv(s) && Dead(s.db, i)
    ensures var db := Run(s, ttl, steps).db;
            Dead(db, i) && forall t :: |s.db.tokens| <= t < |db.tokens| ==> db.tokens[t].session != i
  {
    if steps != [] {
      var init := steps[..|steps| - 1];
      DeadStaysDead(s, ttl, init, i);
      RunKeeps(s, ttl, init);
      DeadStep(Run(s, ttl, init), ttl, steps[|steps| - 1], i);
    }
  }

  lemma DeadStep(s: System, ttl: nat, step: Step, i: SessionId)
    requires Inv(s) && Dead(s.db, i)
    ensures var db := Next(s, ttl, step).db;
            && Grows(s.db, db) && Dead(db, i)
            && forall t :: |s.db.tokens| <= t < |db.tokens| ==> db.tokens[t].session != i
  {
    NextKeeps(s, ttl, step);
    if !AddsToken(step) {
      QuietStep(s, ttl, step);
    }
  }

  /** Revoking a session, changing or resetting the password and blocking leave every session concerned dead. */
  lemma RevocationKills(s: System, user: UserId, i: SessionId, now: int)
    requires Inv(s) && i < |s.db.sessions|
    ensures forall actor, admin :: RevokeSession(s.db, i, actor, admin).reply.Ok? ==>
              Dead(RevokeSession(s.db, i, actor, admin).db, i)
    ensures forall r: nat :: ResetPassword(s.db, r, now).reply.Ok? && s.db.sessions[i].user == s.db.resets[r].user ==>
              Dead(ResetPassword(s.db, r, now).db, i)
    ensures s.db.sessions[i].user == user && ChangePassword(s.db, user, true).reply.Ok? ==>
              Dead(ChangePassword(s.db, user, true).db, i)
    ensures forall until :: s.db.sessions[i].user == user && BlockUser(s.db, user, until).reply.Ok? ==>
              Dead(BlockUser(s.db, user, until).db, i)
    ensures forall current :: s.db.sessions[i].user == user && current != Some(i) ==>
              Dead(LogoutAll(s.db, user, current), i)
  {
  }

  /** The two ways to block a user differ: both refuse a refresh at once, but after the security desk's block has passed
      a token is admitted exactly as if there had been none, and after the other it never is. */
  lemma BlocksDiffer(db: Db, token: TokenId, now: int, until: int, later: int)
    requires TokenInv(db) && ReadRefresh(db, token, now).Admitted? && now < until
    requires db.users[db.tokens[token].user].block.None?
    ensures var marked := MarkBlocked(db, db.tokens[token].user, until).db;
            && ReadRefresh(marked, token, now) == Denied(Forbidden)
            && (until <= later ==> ReadRefresh(marked, token, later) == ReadRefresh(db, token, later))
    ensures forall u :: ReadRefresh(BlockUser(db, db.tokens[token].user, u).db, token, later) == Denied(Unauthorized)
  {
  }

  /** A logout revokes the token it is given and the session. If that was not the session's live token, a refresh
      under way can still add one token; that token is never admitted, and no other follows. */
  ghost predicate Closing(s: System, i: SessionId, n: nat) {
    var ts := s.db.tokens;
    && i < |s.db.sessions| && s.db.sessions[i].revoked
    && (forall a :: a in s.started && a.session == i ==> a.token < n)
    && (forall t, u :: n <= t < u < |ts| && ts[t].session == i ==> ts[u].session != i)
    && ((exists t :: n <= t < |ts| && ts[t].session == i) ==>
          forall t :: 0 <= t < n <= |ts| && ts[t].session == i ==> ts[t].revoked)
  }

  lemma ClosingStep(s: System, ttl: nat, step: Step, i: SessionId, n: nat)
    requires Inv(s) && n <= |s.db.tokens| && Closing(s, i, n)
    ensures Closing(Next(s, ttl, step), i, n)
  {
    hide Rotate, Logout, LogoutAll, RevokeSession, ResetPassword, BlockUser, TokenInv;
    NextKeeps(s, ttl, step);
    if step.DoRotate? {
      if step.attempt < |s.started| {
        ClosingRotate(s, ttl, s.started[step.attempt], step.now, i, n);
      }
    } else if !step.DoIssue? {
      QuietStep(s, ttl, step);
    }
  }

  lemma ClosingRotate(s: System, ttl: nat, a: Attempt, now: int, i: SessionId, n: nat)
    requires Inv(s) && n <= |s.db.tokens| && Closing(s, i, n) && a in s.started
    ensures Closing(s.(db := Rotate(s.db, ttl, a, now).db), i, n)
  {
    if a.session == i && !s.db.tokens[a.token].revoked {
      forall t | 0 <= t < |s.db.tokens| && t != a.token && s.db.tokens[t].session == i ensures s.db.tokens[t].revoked {
        if t < a.token {
          OlderRevoked(s.db, t, a.token);
        } else {
          OlderRevoked(s.db, a.token, t);
        }
      }
    }
  }

  lemma {:induction false} ClosingRun(s: System, ttl: nat, steps: seq<Step>, i: SessionId, n: nat)
    requires Inv(s) && n <= |s.db.tokens| && Closing(s, i, n)
    ensures Closing(Run(s, ttl, steps), i, n)
  {
    if steps != [] {
      var init := steps[..|steps| - 1];
      ClosingRun(s, ttl, init, i, n);
      RunKeeps(s, ttl, init);
      ClosingStep(Run(s, ttl, init), ttl, steps[|steps| - 1], i, n);
    }
  }

  lemma LogoutEnds(s: System, ttl: nat, token: TokenId, steps: seq<Step>)
    requires Inv(s) && token < |s.db.tokens|
    ensures var i, n := s.db.tokens[token].session, |s.db.tokens|;
            var db := Run(Next(s, ttl, DoLogout(token)), ttl, steps).db;
            && (forall t, u :: n <= t < u < |db.tokens| && db.tokens[t].session == i ==> db.tokens[u].session != i)
            && (forall t, now :: 0 <= t < |db.tokens| && db.tokens[t].session == i ==> ReadRefresh(db, t, now).Denied?)
  {
    var out := Next(s, ttl, DoLogout(token));
    NextKeeps(s, ttl, DoLogout(token));
    ClosingRun(out, ttl, steps, s.db.tokens[token].session, |s.db.tokens|);
    RunKeeps(out, ttl, steps);
  }

  predicate Redeems(step: Step, reset: ResetId, expiry: int) {
    step.DoResetPassword? && step.reset == reset && step.now < expiry
  }

  predicate NeverRedeemed(steps: seq<Step>, reset: ResetId, expiry: int) {
    forall i :: 0 <= i < |steps| ==> !Redeems(steps[i], reset, expiry)
  }

  lemma {:induction false} ResetRow(s: System, ttl: nat, steps: seq<Step>, reset: ResetId)
    requires reset < |s.db.resets|
    ensures reset < |Run(s, ttl, steps).db.resets|
    ensures var r := s.db.resets[reset];
            Run(s, ttl, steps).db.resets[reset] == r.(used := r.used || !NeverRedeemed(steps, reset, r.expiresAt))
  {
    if steps != [] {
      var init, last := steps[..|steps| - 1], steps[|steps| - 1];
      ResetRow(s, ttl, init, reset);
      ResetStep(Run(s, ttl, init), ttl, last, reset);
      assert NeverRedeemed(steps, reset, s.db.resets[reset].expiresAt) <==>
             NeverRedeemed(init, reset, s.db.resets[reset].expiresAt)
             && !Redeems(last, reset, s.db.resets[reset].expiresAt) by {
        assert forall i :: 0 <= i < |init| ==> steps[i] == init[i];
      }
    }
  }

  lemma ResetStep(s: System, ttl: nat, step: Step, reset: ResetId)
    requires reset < |s.db.resets|
    ensures var r, next := s.db.resets[reset], Next(s, ttl, step).db.resets;
            reset < |next| && next[reset] == r.(used := r.used || Redeems(step, reset, r.expiresAt))
  {
    hide ReadRefresh, RevokeTokens, RevokeSessions;
  }

  /** A token asked for now is accepted later, whatever happened in between, exactly within the hour and if it has not been
      used within the hour before. */
  lemma ResetAcceptedIff(s: System, ttl: nat, user: UserId, now: int, steps: seq<Step>, later: int)
    requires user in s.db.users
    ensures var reset, expiry := |s.db.resets|, now + 60 * 60 * 1000;
            var db := Run(Next(s, ttl, DoForgotPassword(user, now)), ttl, steps).db;
            && reset < |db.resets| && db.resets[reset].user == user
            && (ResetPassword(db, reset, later).reply.Ok? <==> later < expiry && NeverRedeemed(steps, reset, expiry))
  {
    ResetRow(Next(s, ttl, DoForgotPassword(user, now)), ttl, steps, |s.db.resets|);
  }

  /** A reset link works once. */
  lemma ResetWorksOnce(s: System, ttl: nat, reset: ResetId, now: int, steps: seq<Step>, later: int)
    requires Inv(s) && ResetPassword(s.db, reset, now).reply.Ok?
    ensures var db := Run(Next(s, ttl, DoResetPassword(reset, now)), ttl, steps).db;
            ResetPassword(db, reset, later) == Response(db, Err(BadRequest))
  {
    NextKeeps(s, ttl, DoResetPassword(reset, now));
    RunKeeps(Next(s, ttl, DoResetPassword(reset, now)), ttl, steps);
  }

  // ----- who is admitted, and until when -----

  /** A refresh is admitted exactly while its token and its session are live and its account is not blocked. */
  predicate IsLive(db: Db, token: TokenId, now: int) {
    && token < |db.tokens| && !db.tokens[token].revoked && now < db.tokens[token].expiresAt
    && db.tokens[token].session < |db.sessions| && !db.sessions[db.tokens[token].session].revoked
    && now < db.sessions[db.tokens[token].session].expiresAt
    && db.tokens[token].user in db.users
    && (var block := db.users[db.tokens[token].user].block;
        block.None? || (block.value.until.Some? && block.value.until.value <= now))
  }

  /** Only a live token gets through both halves of a refresh; and then the new token and the session end together: a full
      term from now, or with a second factor when the session was to end, if that is sooner. */
  lemma LiveTokenRefreshes(db: Db, ttl: nat, token: TokenId, now: int, later: int)
    requires TokenInv(db)
    ensures ReadRefresh(db, token, now).Admitted? <==> IsLive(db, token, now)
    ensures IsLive(db, token, now) ==>
              var r := Rotate(db, ttl, ReadRefresh(db, token, now).attempt, later);
              var session := db.tokens[token].session;
              && r.reply.Ok? && |r.db.tokens| == |db.tokens| + 1 && r.db.tokens[token].revoked
              && !r.db.tokens[|db.tokens|].revoked && r.db.tokens[|db.tokens|].session == session
              && r.db.tokens[|db.tokens|].user == db.tokens[token].user
              && r.db.tokens[|db.tokens|].expiresAt == r.db.sessions[session].expiresAt
              && (var was, e := db.sessions[session].expiresAt, r.db.sessions[session].expiresAt;
                  if db.users[db.tokens[token].user].mfa
                  then e <= was && e <= later + ttl && (e == was || e == later + ttl)
                  else e == later + ttl)
  {
  }

  /** Expiry is final: the term of a token is never extended, so after it no refresh is admitted, whatever happens. */
  lemma ExpiredNeverRefreshes(s: System, ttl: nat, steps: seq<Step>, token: TokenId, now: int)
    requires Inv(s) && token < |s.db.tokens| && s.db.tokens[token].expiresAt <= now
    ensures ReadRefresh(Run(s, ttl, steps).db, token, now).Denied?
  {
    RunKeeps(s, ttl, steps);
  }

  /** A login opens a session of a full term, or of 21 days if that is shorter and the account has a second factor. */
  lemma LoginTerm(db: Db, ttl: nat, user: UserId, now: int)
    ensures IssueTokens(db, ttl, user, now).reply.Ok? <==> user in db.users
    ensures user in db.users ==>
              var next, term := IssueTokens(db, ttl, user, now).db, 21 * 24 * 60 * 60 * 1000;
              && |next.sessions| == |db.sessions| + 1 && |next.tokens| == |db.tokens| + 1
              && var s, t := next.sessions[|db.sessions|], next.tokens[|db.tokens|];
              && s.user == user && t.user == user && t.session == |db.sessions| && !s.revoked && !t.revoked
              && t.expiresAt == s.expiresAt
              && s.expiresAt == now + if db.users[user].mfa && term < ttl then term else ttl
  {
  }

  // ----- what each call revokes, and nothing else -----

  predicate HitsSession(db: Db, step: Step, i: SessionId)
    requires i < |db.sessions|
  {
    var user := db.sessions[i].user;
    match step
    case DoLogout(token) => token < |db.tokens| && db.tokens[token].session == i
    case DoRevokeSession(session, actor, admin) => session == i && (admin || user == actor)
    case DoLogoutAll(who, current) => user == who && current != Some(i)
    case DoResetPassword(reset, now) => UsesReset(db, reset, now) && user == db.resets[reset].user
    case DoChangePassword(who, valid) => valid && who in db.users && user == who
    case DoBlock(who, _) => who in db.users && user == who
    case _ => false
  }

  predicate HitsToken(db: Db, step: Step, t: TokenId)
    requires t < |db.tokens|
  {
    var user, session := db.tokens[t].user, db.tokens[t].session;
    match step
    case DoLogout(token) => token == t
    case DoRevokeSession(i, actor, admin) => i < |db.sessions| && session == i && (admin || db.sessions[i].user == actor)
    case DoLogoutAll(who, current) => user == who && current != Some(session)
    case DoResetPassword(reset, now) => UsesReset(db, reset, now) && user == db.resets[reset].user
    case DoChangePassword(who, valid) => valid && who in db.users && user == who
    case DoBlock(who, _) => who in db.users && user == who
    case _ => false
  }

  predicate UsesReset(db: Db, reset: ResetId, now: int) {
    reset < |db.resets| && !db.resets[reset].used && now < db.resets[reset].expiresAt
  }

  function AccountAfter(step: Step, u: UserId, a: Account): Account {
    if step.DoBlock? && step.user == u then a.(block := Some(Block(step.until)))
    else if step.DoMarkBlocked? && step.user == u then a.(block := Some(Block(Some(step.end))))
    else if step.DoUnblock? && step.user == u then a.(block := None)
    else if step.DoEnableMfa? && step.user == u then a.(mfa := true)
    else a
  }

  /** A call that issues no token revokes exactly what the tables say, changes no expiry, and edits the one account. */
  lemma RevokesByTheTable(s: System, ttl: nat, step: Step)
    requires !AddsToken(step)
    ensures var db, later := s.db, Effect(s, ttl, step);
            && |later.sessions| == |db.sessions| && |later.tokens| == |db.tokens|
            && (forall i :: 0 <= i < |db.sessions| ==>
                  later.sessions[i] == db.sessions[i].(revoked := db.sessions[i].revoked || HitsSession(db, step, i)))
            && (forall t :: 0 <= t < |db.tokens| ==>
                  later.tokens[t] == db.tokens[t].(revoked := db.tokens[t].revoked || HitsToken(db, step, t)))
            && later.users.Keys == db.users.Keys + (if step.DoAddUser? then {step.user} else {})
            && (forall u :: u in db.users ==> later.users[u] == AccountAfter(step, u, db.users[u]))
            && (forall u :: u in later.users && u !in db.users ==> later.users[u] == Account(false, None))
  {
  }

  // ----- the cap on sessions of accounts with a second factor -----

  /** The account has its second factor, and neither the session nor a refresh under way reaches past the bound. */
  ghost predicate Capped(s: System, i: SessionId, n: nat, bound: int) {
    && i < |s.db.sessions| && s.db.sessions[i].expiresAt <= bound
    && s.db.sessions[i].user in s.db.users && s.db.users[s.db.sessions[i].user].mfa
    && (forall a :: a in s.started && a.session == i && a.token < |s.db.tokens| && !s.db.tokens[a.token].revoked ==>
          a.cap.Some? && a.cap.value <= bound)
    && (forall t :: n <= t < |s.db.tokens| && s.db.tokens[t].session == i ==> s.db.tokens[t].expiresAt <= bound)
  }

  lemma CappedStep(s: System, ttl: nat, step: Step, i: SessionId, n: nat, bound: int)
    requires Inv(s) && n <= |s.db.tokens| && Capped(s, i, n, bound)
    ensures Capped(Next(s, ttl, step), i, n, bound)
  {
    NextKeeps(s, ttl, step);
    if !AddsToken(step) {
      QuietStep(s, ttl, step);
    }
  }

  lemma {:induction false} CappedRun(s: System, ttl: nat, steps: seq<Step>, i: SessionId, n: nat, bound: int)
    requires Inv(s) && n <= |s.db.tokens| && Capped(s, i, n, bound)
    ensures Capped(Run(s, ttl, steps), i, n, bound)
  {
    if steps != [] {
      var init := steps[..|steps| - 1];
      CappedRun(s, ttl, init, i, n, bound);
      RunKeeps(s, ttl, init);
      CappedStep(Run(s, ttl, init), ttl, steps[|steps| - 1], i, n, bound);
    }
  }

  /** However often it is refreshed, a session opened by an account with a second factor, and every token of it,
      expires within 21 days of the login. */
  lemma MfaSessionEnds(s: System, ttl: nat, user: UserId, login: int, steps: seq<Step>)
    requires Inv(s) && user in s.db.users && s.db.users[user].mfa
    ensures var i := |s.db.sessions|;
            var db := Run(Next(s, ttl, DoIssue(user, login)), ttl, steps).db;
            && i < |db.sessions| && db.sessions[i].user == user
            && db.sessions[i].expiresAt <= login + MFA_REVERIFY_MS
            && forall t :: 0 <= t < |db.tokens| && db.tokens[t].session == i ==>
                 db.tokens[t].expiresAt <= login + MFA_REVERIFY_MS
  {
    var begun := Next(s, ttl, DoIssue(user, login));
    NextKeeps(s, ttl, DoIssue(user, login));
    CappedRun(begun, ttl, steps, |s.db.sessions|, |s.db.tokens|, login + MFA_REVERIFY_MS);
    RunKeeps(begun, ttl, steps);
  }

  /** Switching the second factor on freezes the expiry of a session opened before, unless a refresh of it has read
      the account without it and is still under way. */
  lemma MfaFreezesSession(s: System, ttl: nat, user: UserId, i: SessionId, steps: seq<Step>)
    requires Inv(s) && user in s.db.users && i < |s.db.sessions| && s.db.sessions[i].user == user
    requires forall a :: a in s.started && a.session == i ==> s.db.tokens[a.token].revoked
    ensures var db := Run(Next(s, ttl, DoEnableMfa(user)), ttl, steps).db;
            i < |db.sessions| && db.sessions[i].expiresAt <= s.db.sessions[i].expiresAt
  {
    NextKeeps(s, ttl, DoEnableMfa(user));
    CappedRun(Next(s, ttl, DoEnableMfa(user)), ttl, steps, i, |s.db.tokens|, s.db.sessions[i].expiresAt);
  }

  /** That one refresh still gets its full term. */
  lemma LateRefreshIgnoresMfa(s: System, ttl: nat, token: TokenId, now: int, later: int)
    requires Inv(s) && ReadRefresh(s.db, token, now).Admitted? && !s.db.users[s.db.tokens[token].user].mfa
    ensures var read := Next(s, ttl, DoReadRefresh(token, now));
            var enabled := Next(read, ttl, DoEnableMfa(s.db.tokens[token].user));
            Next(enabled, ttl, DoRotate(|s.started|, later)).db.sessions[s.db.tokens[token].session].expiresAt == later + ttl
  {
  }

  /** Without a second factor there is no such bound: every refresh starts a full term again. */
  lemma PlainSessionGoesOn(s: System, ttl: nat, token: TokenId, now: int)
    requires Inv(s) && ReadRefresh(s.db, token, now).Admitted? && !s.db.users[s.db.tokens[token].user].mfa
    ensures var next := Rotate(s.db, ttl, ReadRefresh(s.db, token, now).attempt, now);
            && next.reply.Ok? && next.db.sessions[s.db.tokens[token].session].expiresAt == now + ttl
            && forall later :: now <= later < now + ttl && !IsBlocked(s.db.users[s.db.tokens[token].user], later) ==>
                 ReadRefresh(next.db, |s.db.tokens|, later).Admitted?
  {
  }
}
