/** The authentication service as it runs: methods that write sessions, tokens and reset tokens in place. */
module Authentication {
  import opened Wrappers
  import opened Sessions
  import opened SessionRuns

  lemma QuietCall(db: Db, ttl: nat, step: Step)
    requires TokenInv(db) && SessionInv(db) && !AddsToken(step)
    ensures TokenInv(Effect(System(db, []), ttl, step)) && SessionInv(Effect(System(db, []), ttl, step))
  {
    QuietStep(System(db, []), ttl, step);
    QuietKeeps(db, Effect(System(db, []), ttl, step));
  }

  lemma ResetsAside(db: Db, later: Db)
    requires TokenInv(db) && SessionInv(db) && later == db.(resets := later.resets)
    ensures TokenInv(later) && SessionInv(later)
  {
  }

  lemma AdmittedIsSound(db: Db, token: TokenId, now: int)
    requires ReadRefresh(db, token, now).Admitted?
    ensures AttemptInv(db, ReadRefresh(db, token, now).attempt)
  {
  }

  class AuthService {
    const ttl: nat
    var users: map<UserId, Account>
    var sessions: seq<Session>
    var tokens: seq<Token>
    var resets: seq<ResetToken>

    function View(): Db
      reads this
    {
      Db(users, sessions, tokens, resets)
    }

    /** The tokens of every session are one chain, and rows refer to rows that are there. */
    ghost predicate Valid()
      reads this
    {
      TokenInv(View()) && SessionInv(View())
    }

    constructor (ttl: nat)
      ensures this.ttl == ttl && View() == Db(map[], [], [], []) && Valid()
    {
      this.ttl := ttl;
      users, sessions, tokens, resets := map[], [], [], [];
    }

    method Issue(user: UserId, now: int) returns (reply: Reply)
      requires Valid()
      modifies this`sessions, this`tokens
      ensures Response(View(), reply) == IssueTokens(old(View()), ttl, user, now)
      ensures Valid()
    {
      hide TokenInv, SessionInv;
      IssueKeeps(View(), ttl, user, now);
      if user !in users {
        return Err(Unauthorized);
      }
      var expiresAt := SessionExpiry(users[user], ttl, now);
      var session := |sessions|;
      sessions := sessions + [Session(user, expiresAt, false)];
      tokens := tokens + [Token(user, session, expiresAt, false, None)];
      return Ok;
    }

    /** With no other call in between, a refresh that is admitted succeeds. */
    method Refresh(token: TokenId, now: int) returns (reply: Reply)
      requires Valid()
      modifies this`sessions, this`tokens
      ensures var r := ReadRefresh(old(View()), token, now);
              Response(View(), reply) ==
                if r.Denied? then Response(old(View()), Err(r.error)) else Rotate(old(View()), ttl, r.attempt, now)
      ensures reply.Ok? <==> ReadRefresh(old(View()), token, now).Admitted?
      ensures Valid()
    {
      hide TokenInv, SessionInv;
      if ReadRefresh(View(), token, now).Admitted? {
        AdmittedIsSound(View(), token, now);
      }
      if token >= |tokens| || tokens[token].user !in users {
        return Err(Unauthorized);
      }
      var existing := tokens[token];
      if existing.revoked || existing.expiresAt <= now {
        return Err(Unauthorized);
      }
      if existing.session >= |sessions| {
        return Err(Unauthorized);
      }
      var session := sessions[existing.session];
      if session.revoked || session.expiresAt <= now {
        return Err(Unauthorized);
      }
      if IsBlocked(users[existing.user], now) {
        return Err(Forbidden);
      }
      var cap := if users[existing.user].mfa then Some(session.expiresAt) else None;
      reply := RotateRefreshToken(Attempt(token, existing.user, existing.session, cap), now);
    }

    method RotateRefreshToken(a: Attempt, now: int) returns (reply: Reply)
      requires Valid() && AttemptInv(View(), a)
      modifies this`sessions, this`tokens
      ensures Response(View(), reply) == Rotate(old(View()), ttl, a, now)
      ensures Valid()
    {
      hide TokenInv, SessionInv;
      RotateKeeps(View(), ttl, a, now);
      var expiresAt := now + ttl;
      if a.cap.Some? && a.cap.value < expiresAt {
        expiresAt := a.cap.value;
      }
      if a.token >= |tokens| || tokens[a.token].revoked {
        return Err(Unauthorized);
      }
      tokens := tokens[a.token := tokens[a.token].(revoked := true)];
      tokens := tokens + [Token(a.user, a.session, expiresAt, false, Some(a.token))];
      if a.session < |sessions| && !sessions[a.session].revoked {
        sessions := sessions[a.session := sessions[a.session].(expiresAt := expiresAt)];
      }
      return Ok;
    }

    method LogoutToken(token: TokenId)
      requires Valid()
      modifies this`sessions, this`tokens
      ensures View() == Logout(old(View()), token)
      ensures Valid()
    {
      hide TokenInv, SessionInv;
      QuietCall(View(), ttl, DoLogout(token));
      if token < |tokens| {
        var session := tokens[token].session;
        tokens := RevokeTokens(tokens, (t, _) => t == token);
        sessions := RevokeSessions(sessions, (i, _) => i == session);
      }
    }

    method RevokeOne(session: SessionId, actor: UserId, admin: bool) returns (reply: Reply)
      requires Valid()
      modifies this`sessions, this`tokens
      ensures Response(View(), reply) == RevokeSession(old(View()), session, actor, admin)
      ensures Valid()
    {
      hide TokenInv, SessionInv;
      QuietCall(View(), ttl, DoRevokeSession(session, actor, admin));
      if session >= |sessions| {
        return Err(NotFound);
      }
      if !admin && sessions[session].user != actor {
        return Err(Forbidden);
      }
      sessions := RevokeSessions(sessions, (i, _) => i == session);
      tokens := RevokeTokens(tokens, (_, t: Token) => t.session == session);
      return Ok;
    }

    method LogoutAllSessions(user: UserId, current: Option<SessionId>)
      requires Valid()
      modifies this`sessions, this`tokens
      ensures View() == LogoutAll(old(View()), user, current)
      ensures Valid()
    {
      hide TokenInv, SessionInv;
      QuietCall(View(), ttl, DoLogoutAll(user, current));
      sessions := RevokeSessions(sessions, (i, s: Session) => s.user == user && current != Some(i));
      tokens := RevokeTokens(tokens, (_, t: Token) => t.user == user && current != Some(t.session));
    }

    method RequestReset(user: UserId, now: int)
      requires Valid()
      modifies this`resets
      ensures View() == ForgotPassword(old(View()), user, now)
      ensures Valid()
    {
      hide TokenInv, SessionInv;
      QuietCall(View(), ttl, DoForgotPassword(user, now));
      if user in users {
        resets := resets + [ResetToken(user, now + PASSWORD_RESET_TTL_MS, false)];
      }
    }

    method ReplacePassword(user: UserId, valid: bool) returns (reply: Reply)
      requires Valid()
      modifies this`sessions, this`tokens
      ensures Response(View(), reply) == ChangePassword(old(View()), user, valid)
      ensures Valid()
    {
      hide TokenInv, SessionInv;
      QuietCall(View(), ttl, DoChangePassword(user, valid));
      if user !in users {
        return Err(Unauthorized);
      }
      if !valid {
        return Err(BadRequest);
      }
      LogoutAllSessions(user, None);
      return Ok;
    }

    method ResetWithToken(reset: ResetId, now: int) returns (reply: Reply)
      requires Valid()
      modifies this`sessions, this`tokens, this`resets
      ensures Response(View(), reply) == ResetPassword(old(View()), reset, now)
      ensures Valid()
    {
      hide TokenInv, SessionInv;
      QuietCall(View(), ttl, DoResetPassword(reset, now));
      if reset >= |resets| {
        return Err(BadRequest);
      }
      var existing := resets[reset];
      if existing.used || existing.expiresAt <= now {
        return Err(BadRequest);
      }
      ghost var before := View();
      resets := resets[reset := existing.(used := true)];
      ResetsAside(before, View());
      LogoutAllSessions(existing.user, None);
      return Ok;
    }
  }
}
