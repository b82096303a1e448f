/** Sessions and rotating refresh tokens: the tables, and what each call of the authentication service does to them. */
module Sessions {
  import opened Wrappers

  type UserId = nat
  type SessionId = nat
  type TokenId = nat
  type ResetId = nat

  const DAY_MS := 24 * 60 * 60 * 1000
  const MFA_REVERIFY_MS := 21 * DAY_MS
  const PASSWORD_RESET_TTL_MS := 60 * 60 * 1000

  datatype Block = Block(until: Option<int>)

  datatype Account = Account(mfa: bool, block: Option<Block>)

  datatype Session = Session(user: UserId, expiresAt: int, revoked: bool)

  /** The parent is the token this one replaced; it is kept for the record only, no call reads it. */
  datatype Token = Token(user: UserId, session: SessionId, expiresAt: int, revoked: bool, parent: Option<TokenId>)

  datatype ResetToken = ResetToken(user: UserId, expiresAt: int, used: bool)

  /** Ids of sessions and tokens are their places in the tables; rows are never deleted. */
  datatype Db = Db(
    users: map<UserId, Account>,
    sessions: seq<Session>,
    tokens: seq<Token>,
    resets: seq<ResetToken>)

  datatype Response = Response(db: Db, reply: Reply)

  predicate IsBlocked(a: Account, now: int) {
    a.block.Some? && (a.block.value.until.None? || a.block.value.until.value > now)
  }

  // ----- conditional updates of many rows -----

  function RevokeTokens(tokens: seq<Token>, which: (TokenId, Token) -> bool): (r: seq<Token>)
    ensures |r| == |tokens|
    ensures forall t :: 0 <= t < |tokens| ==>
              r[t] == tokens[t].(revoked := tokens[t].revoked || which(t, tokens[t]))
  {
    seq(|tokens|, t requires 0 <= t < |tokens| => tokens[t].(revoked := tokens[t].revoked || which(t, tokens[t])))
  }

  function RevokeSessions(sessions: seq<Session>, which: (SessionId, Session) -> bool): (r: seq<Session>)
    ensures |r| == |sessions|
    ensures forall i :: 0 <= i < |sessions| ==>
              r[i] == sessions[i].(revoked := sessions[i].revoked || which(i, sessions[i]))
  {
    seq(|sessions|, i requires 0 <= i < |sessions| =>
      sessions[i].(revoked := sessions[i].revoked || which(i, sessions[i])))
  }

  // ----- logging in -----

  function SessionExpiry(a: Account, ttl: nat, now: int): int {
    if a.mfa then Min(now + MFA_REVERIFY_MS, now + ttl) else now + ttl
  }

  function IssueTokens(db: Db, ttl: nat, user: UserId, now: int): Response {
    if user !in db.users then Response(db, Err(Unauthorized))
    else
      var expiresAt := SessionExpiry(db.users[user], ttl, now);
      Response(db.(
        sessions := db.sessions + [Session(user, expiresAt, false)],
        tokens := db.tokens + [Token(user, |db.sessions|, expiresAt, false, None)]), Ok)
  }

  // ----- refreshing: a read, and later a transaction -----

  /** What a refresh carries from its read to its transaction. */
  datatype Attempt = Attempt(token: TokenId, user: UserId, session: SessionId, cap: Option<int>)

  datatype Reading = Admitted(attempt: Attempt) | Denied(error: Error)

  function ReadRefresh(db: Db, token: TokenId, now: int): Reading {
    if token >= |db.tokens| || db.tokens[token].user !in db.users then Denied(Unauthorized)
    else
      var t := db.tokens[token];
      if t.revoked || t.expiresAt <= now then Denied(Unauthorized)
      else if t.session >= |db.sessions| then Denied(Unauthorized)
      else
        var s := db.sessions[t.session];
        if s.revoked || s.expiresAt <= now then Denied(Unauthorized)
        else if IsBlocked(db.users[t.user], now) then Denied(Forbidden)
        else Admitted(Attempt(token, t.user, t.session, if db.users[t.user].mfa then Some(s.expiresAt) else None))
  }

  function NewExpiry(a: Attempt, ttl: nat, now: int): int {
    if a.cap.Some? then Min(a.cap.value, now + ttl) else now + ttl
  }

  function Rotate(db: Db, ttl: nat, a: Attempt, now: int): Response {
    if a.token >= |db.tokens| || db.tokens[a.token].revoked then Response(db, Err(Unauthorized))
    else
      var expiresAt := NewExpiry(a, ttl, now);
      var sessions := if a.session < |db.sessions| && !db.sessions[a.session].revoked
        then db.sessions[a.session := db.sessions[a.session].(expiresAt := expiresAt)]
        else db.sessions;
      Response(db.(
        tokens := db.tokens[a.token := db.tokens[a.token].(revoked := true)]
                  + [Token(a.user, a.session, expiresAt, false, Some(a.token))],
        sessions := sessions), Ok)
  }

  // ----- ending sessions -----

  function Logout(db: Db, token: TokenId): Db {
    if token >= |db.tokens| then db
    else db.(
      tokens := RevokeTokens(db.tokens, (t, _) => t == token),
      sessions := RevokeSessions(db.sessions, (i, _) => i == db.tokens[token].session))
  }

  function RevokeSession(db: Db, session: SessionId, actor: UserId, admin: bool): Response {
    if session >= |db.sessions| then Response(db, Err(NotFound))
    else if !admin && db.sessions[session].user != actor then Response(db, Err(Forbidden))
    else Response(db.(
      sessions := RevokeSessions(db.sessions, (i, _) => i == session),
      tokens := RevokeTokens(db.tokens, (_, t: Token) => t.session == session)), Ok)
  }

  /** All sessions of a user, or all but the one in use. */
  function LogoutAll(db: Db, user: UserId, current: Option<SessionId>): Db {
    db.(
      sessions := RevokeSessions(db.sessions, (i, s: Session) => s.user == user && current != Some(i)),
      tokens := RevokeTokens(db.tokens, (_, t: Token) => t.user == user && current != Some(t.session)))
  }

  function ForgotPassword(db: Db, user: UserId, now: int): Db {
    if user !in db.users then db
    else db.(resets := db.resets + [ResetToken(user, now + PASSWORD_RESET_TTL_MS, false)])
  }

  function ResetPassword(db: Db, reset: ResetId, now: int): Response {
    if reset >= |db.resets| then Response(db, Err(BadRequest))
    else
      var r := db.resets[reset];
      if r.used || r.expiresAt <= now then Response(db, Err(BadRequest))
      else Response(LogoutAll(db.(resets := db.resets[reset := r.(used := true)]), r.user, None), Ok)
  }

  function ChangePassword(db: Db, user: UserId, valid: bool): Response {
    if user !in db.users then Response(db, Err(Unauthorized))
    else if !valid then Response(db, Err(BadRequest))
    else Response(LogoutAll(db, user, None), Ok)
  }

  // ----- accounts -----

  function BlockUser(db: Db, user: UserId, until: Option<int>): Response {
    if user !in db.users then Response(db, Err(NotFound))
    else Response(LogoutAll(db.(users := db.users[user := db.users[user].(block := Some(Block(until)))]), user, None), Ok)
  }

  /** The security desk's block: for a time, and without revoking anything. */
  function MarkBlocked(db: Db, user: UserId, until: int): Response {
    if user !in db.users then Response(db, Err(NotFound))
    else Response(db.(users := db.users[user := db.users[user].(block := Some(Block(Some(until))))]), Ok)
  }

  function UnblockUser(db: Db, user: UserId): Response {
    if user !in db.users then Response(db, Err(NotFound))
    else Response(db.(users := db.users[user := db.users[user].(block := None)]), Ok)
  }

  function EnableMfa(db: Db, user: UserId): Response {
    if user !in db.users then Response(db, Err(BadRequest))
    else Response(db.(users := db.users[user := db.users[user].(mfa := true)]), Ok)
  }

  function AddUser(db: Db, user: UserId): Response {
    if user in db.users then Response(db, Err(BadRequest))
    else Response(db.(users := db.users[user := Account(false, None)]), Ok)
  }
}
