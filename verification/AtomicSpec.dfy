/** The atomic specification: what each operation would do if it ran alone, at one instant. It is
    written on the tables directly, without the read phase, the commit phase or the database's error
    codes. */
module AtomicSpec {
  import opened Domain
  import opened Jwt
  import opened Store
  import opened Machine

  /** One atomic operation. Logout is two: it writes to the database, then to Redis. */
  datatype Operation =
    | Perform(req: Request, c: Choice)
    | Revoke(userId: Uuid, token: Token)
    | Blacklist(key: Uuid)

  datatype Effect = Effect(s: Shared, answer: Answer)

  ghost function Atomic(cfg: Config, s: Shared, op: Operation): Effect {
    match op
    case Revoke(userId, token) =>
      Effect(WithTokens(s, Kill(s.db.tokens, set i | i in Owned(s.db, userId) && s.db.tokens[i].token == token)),
             Ok(Empty))
    case Blacklist(key) => Effect(s.(redis := s.redis[key := s.now + 900000]), Ok(Empty))
    case Perform(req, c) =>
      match req
      case Register(email, username, password) => AtomicRegister(cfg, s, email, username, password, c)
      case Login(email, password) => AtomicLogin(cfg, s, email, password, c)
      case Rotate(token) => AtomicRotate(cfg, s, token, c)
      case ChangePassword(userId, current, replacement) => AtomicChange(cfg, s, userId, current, replacement, c)
      case UpdateUser(id, patch) => AtomicUpdate(s, id, patch)
      case DeleteUser(id) => AtomicDelete(s, id)
      case Authenticate(token) => AtomicAuthenticate(cfg, s, token)
      case Logout(userId, token, jti) => Effect(s, Ok(Empty))  // performed as Revoke, then Blacklist
  }

  /** A whole logout at one instant: both its writes. */
  ghost function AtomicLogout(cfg: Config, s: Shared, userId: Uuid, token: Token, jti: Option<Uuid>): Effect {
    var revoked := Atomic(cfg, s, Revoke(userId, token));
    if jti.None? then revoked else Atomic(cfg, revoked.s, Blacklist(jti.value))
  }

  function Refused(s: Shared, status: nat): Effect { Effect(s, Err(AppError(status, NotPermitted))) }

  function WithTokens(s: Shared, tokens: map<Uuid, RefreshToken>): Shared { s.(db := s.db.(tokens := tokens)) }

  /** The rows of one account. */
  function Owned(db: Db, userId: Uuid): set<Uuid> { set i | i in db.tokens && db.tokens[i].userId == userId }

  /** The rows in `doomed` revoked, the others untouched. */
  function Kill(tokens: map<Uuid, RefreshToken>, doomed: set<Uuid>): map<Uuid, RefreshToken> {
    map i | i in tokens :: if i in doomed then tokens[i].(isRevoked := true) else tokens[i]
  }

  lemma RevokeManyKills(db: Db, userId: Uuid)
    ensures RevokeMany(db, userId, None).tokens == Kill(db.tokens, Owned(db, userId))
    ensures forall token :: RevokeMany(db, userId, Some(token)).tokens
              == Kill(db.tokens, set i | i in Owned(db, userId) && db.tokens[i].token == token)
  {
  }

  ghost function AtomicRegister(cfg: Config, s: Shared, email: string, username: string, password: string,
                                c: Choice): Effect
  {
    if exists i :: i in s.db.users && RegistrationClash(s.db.users[i], email, username) then Refused(s, 409)
    else
      var user := User(email, username, cfg.hash(password, c.salt), USER, true);
      var row := NewRow(cfg, c.userId, user, c);
      Effect(s.(db := Db(s.db.users[c.userId := user], s.db.tokens[c.rowId := row])),
             Ok(Session(c.userId, email, username, USER, NewAccess(cfg, c.userId, user, c), row.token)))
  }

  /** The account a password opens: active, with that e-mail, and matching. */
  ghost predicate Opens(cfg: Config, s: Shared, i: Uuid, email: string, password: string) {
    && i in s.db.users && s.db.users[i].email == email && s.db.users[i].isActive
    && cfg.compare(password, s.db.users[i].passwordHash)
  }

  ghost function AtomicLogin(cfg: Config, s: Shared, email: string, password: string, c: Choice): Effect {
    if exists i :: Opens(cfg, s, i, email, password) then
      var i :| Opens(cfg, s, i, email, password);
      var user := s.db.users[i];
      var row := NewRow(cfg, i, user, c);
      Effect(WithTokens(s, s.db.tokens[c.rowId := row]),
             Ok(Session(i, user.email, user.username, user.role, NewAccess(cfg, i, user, c), row.token)))
    else Refused(s, 401)
  }

  /** The row a refresh token can be rotated with at this instant. */
  ghost predicate Rotatable(cfg: Config, s: Shared, i: Uuid, token: Token) {
    && Live(s.db, i) && s.db.tokens[i].token == token && s.now <= s.db.tokens[i].expiresAt
    && Verify(token, cfg.refreshSecret, s.now).Ok?
    && s.db.tokens[i].userId in s.db.users && s.db.users[s.db.tokens[i].userId].isActive
  }

  ghost function AtomicRotate(cfg: Config, s: Shared, token: Token, c: Choice): Effect {
    if exists i :: Rotatable(cfg, s, i, token) then
      var i :| Rotatable(cfg, s, i, token);
      var owner := s.db.tokens[i].userId;
      var row := NewRow(cfg, owner, s.db.users[owner], c);
      Effect(WithTokens(s, s.db.tokens[i := s.db.tokens[i].(isRevoked := true)][c.rowId := row]),
             Ok(Tokens(NewAccess(cfg, owner, s.db.users[owner], c), row.token)))
    else Refused(s, 401)
  }

  ghost function AtomicChange(cfg: Config, s: Shared, userId: Uuid, current: string, replacement: string,
                              c: Choice): Effect
  {
    if userId !in s.db.users then Refused(s, 404)
    else if !cfg.compare(current, s.db.users[userId].passwordHash) then Refused(s, 401)
    else
      var user := s.db.users[userId].(passwordHash := cfg.hash(replacement, c.salt));
      Effect(s.(db := Db(s.db.users[userId := user], Kill(s.db.tokens, Owned(s.db, userId)))), Ok(Empty))
  }

  ghost function AtomicUpdate(s: Shared, id: Uuid, patch: Patch): Effect {
    if id !in s.db.users then Refused(s, 404)
    else if exists i :: i in s.db.users && i != id && patch.username == Some(s.db.users[i].username)
      then Refused(s, 409)
    else
      var was := s.db.users[id];
      var user := User(was.email, if patch.username.Some? then patch.username.value else was.username,
                       was.passwordHash, if patch.role.Some? then patch.role.value else was.role,
                       if patch.isActive.Some? then patch.isActive.value else was.isActive);
      Effect(s.(db := s.db.(users := s.db.users[id := user])), Ok(ProfileOf(id, user)))
  }

  ghost function AtomicDelete(s: Shared, id: Uuid): Effect {
    if id !in s.db.users then Refused(s, 404)
    else
      Effect(s.(db := Db(map i | i in s.db.users && i != id :: s.db.users[i],
                         map i | i in s.db.tokens && s.db.tokens[i].userId != id :: s.db.tokens[i])), Ok(Empty))
  }

  ghost function AtomicAuthenticate(cfg: Config, s: Shared, token: Token): Effect {
    if token.Signed? && token.secret == cfg.accessSecret && token.claims.tokenType == Access
       && s.now / 1000 < token.claims.exp
       && !(token.claims.jti.Some? && token.claims.jti.value in s.redis && s.now <= s.redis[token.claims.jti.value])
    then Effect(s, Ok(Principal(token.claims)))
    else Refused(s, 401)
  }

  /** What a login does, with its account named. */
  lemma LoginIs(cfg: Config, s: Shared, email: string, password: string, c: Choice, i: Uuid)
    requires UniqueEmails(s.db) && Opens(cfg, s, i, email, password)
    ensures var user := s.db.users[i]; var row := NewRow(cfg, i, user, c);
      && AtomicLogin(cfg, s, email, password, c) ==
           Effect(WithTokens(s, s.db.tokens[c.rowId := row]),
                  Ok(Session(i, user.email, user.username, user.role, NewAccess(cfg, i, user, c), row.token)))
      && FindUser(s.db, email) == Some(i)
  {
    FindUserIs(s.db, i);
    forall j | Opens(cfg, s, j, email, password) ensures j == i { FindUserIs(s.db, j); }
  }

  /** What a rotation does, with its row named. */
  lemma RotateIs(cfg: Config, s: Shared, token: Token, c: Choice, i: Uuid)
    requires UniqueTokens(s.db) && Rotatable(cfg, s, i, token)
    ensures var o := s.db.tokens[i].userId; var row := NewRow(cfg, o, s.db.users[o], c);
      AtomicRotate(cfg, s, token, c) ==
        Effect(WithTokens(s, s.db.tokens[i := s.db.tokens[i].(isRevoked := true)][c.rowId := row]),
               Ok(Tokens(NewAccess(cfg, o, s.db.users[o], c), row.token)))
  {
    forall j | Rotatable(cfg, s, j, token) ensures j == i {}
  }

  /** The same state and the same answer, up to the text of an error message. */
  ghost predicate Agrees(a: Effect, b: Effect) {
    a.s == b.s && SameAnswer(a.answer, b.answer)
  }
}
