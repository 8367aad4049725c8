/** What a client gets, in plain terms: tokens that work, the account it asked for, and the refusal that
    fits. Nothing here is stated through the functions that build the answers. */
module Answers {
  import opened Domain
  import opened Store
  import opened Machine
  import opened AtomicSpec

  // ---- sessions ----

  /** Both tokens of an answer were signed for this account, each with the secret, type, lifetime and fresh
      `jti` of its kind. */
  ghost predicate TokensFor(cfg: Config, access: Token, refresh: Token, sub: Uuid, email: string, role: Role,
                            c: Choice)
  {
    var iat := c.signedAt / 1000;
    && access.Signed? && access.secret == cfg.accessSecret
    && access.claims == Claims(sub, email, role, Some(c.accessJti), Access, iat, iat + cfg.accessTtl)
    && refresh.Signed? && refresh.secret == cfg.refreshSecret
    && refresh.claims == Claims(sub, email, role, Some(c.refreshJti), Refresh, iat, iat + cfg.refreshTtl)
  }

  /** The row a session leaves: its refresh token, live, for seven days. */
  ghost predicate StoredFor(db: Db, rowId: Uuid, refresh: Token, userId: Uuid, stampedAt: nat) {
    && rowId in db.tokens && db.tokens[rowId].token == refresh && db.tokens[rowId].userId == userId
    && !db.tokens[rowId].isRevoked && db.tokens[rowId].expiresAt == stampedAt + 604_800_000
  }

  /** What a successful registration, login or refresh answers and stores. */
  ghost predicate SessionFits(cfg: Config, p: Proc, c: Choice, body: Body, db: Db) {
    match p
    case Registering(email, username, password) =>
      && body.Session? && body.userId == c.userId && body.email == email && body.username == username
      && body.role == USER
      && c.userId in db.users && db.users[c.userId].email == email && db.users[c.userId].username == username
      && db.users[c.userId].role == USER && db.users[c.userId].isActive
      && db.users[c.userId].passwordHash == cfg.hash(password, c.salt)
      && TokensFor(cfg, body.access, body.refresh, c.userId, email, USER, c)
      && StoredFor(db, c.rowId, body.refresh, c.userId, c.stampedAt)
    case LoggingIn(_, _, userId, user, _) =>
      && body.Session? && body.userId == userId && body.email == user.email && body.username == user.username
      && body.role == user.role
      && TokensFor(cfg, body.access, body.refresh, userId, user.email, user.role, c)
      && StoredFor(db, c.rowId, body.refresh, userId, c.stampedAt)
    case Rotating(_, _, userId, user, _) =>
      && body.Tokens?
      && TokensFor(cfg, body.access, body.refresh, userId, user.email, user.role, c)
      && StoredFor(db, c.rowId, body.refresh, userId, c.stampedAt)
    case _ => !body.Session? && !body.Tokens?
  }

  /** Every session the service answers with fits the account it is for. */
  lemma SessionsFit(cfg: Config, s: Shared, p: Proc, c: Choice)
    requires !p.Done? && Act(cfg, s, p, c).p.Done? && Act(cfg, s, p, c).p.answer.Ok?
    ensures SessionFits(cfg, p, c, Act(cfg, s, p, c).p.answer.value, Act(cfg, s, p, c).s.db)
  {
  }

  /** The access token of such an answer authenticates exactly while its lifetime lasts and its `jti` is not
      blacklisted, and the two tokens are different. */
  lemma AccessTokensWork(cfg: Config, s: Shared, p: Proc, c: Choice, later: Shared)
    requires !p.Done? && Act(cfg, s, p, c).p.Done? && Act(cfg, s, p, c).p.answer.Ok?
    requires p.Registering? || p.LoggingIn? || p.Rotating?
    ensures var body := Act(cfg, s, p, c).p.answer.value;
      && (body.Session? || body.Tokens?) && body.access != body.refresh && body.access.Signed?
      && var answer := AtomicAuthenticate(cfg, later, body.access).answer;
      && (answer.Ok? ==> answer.value == Principal(body.access.claims))
      && (answer.Ok? <==>
            && later.now / 1000 < c.signedAt / 1000 + cfg.accessTtl
            && (c.accessJti in later.redis ==> later.redis[c.accessJti] < later.now))
  {
    SessionsFit(cfg, s, p, c);
  }

  /** The refresh token of such an answer can be exchanged, in any later state that still stores its row,
      exactly while the row is live and in time, the signature lasts and the account is active. */
  lemma RefreshTokensWork(cfg: Config, s: Shared, p: Proc, c: Choice, later: Shared, c2: Choice)
    requires !p.Done? && Act(cfg, s, p, c).p.Done? && Act(cfg, s, p, c).p.answer.Ok?
    requires p.Registering? || p.LoggingIn? || p.Rotating?
    requires UniqueTokens(later.db) && c.rowId in later.db.tokens
    requires later.db.tokens[c.rowId].token == Act(cfg, s, p, c).s.db.tokens[c.rowId].token
    ensures var body := Act(cfg, s, p, c).p.answer.value; var row := later.db.tokens[c.rowId];
      && (body.Session? || body.Tokens?)
      && (AtomicRotate(cfg, later, body.refresh, c2).answer.Ok? <==>
            && !row.isRevoked && later.now <= row.expiresAt
            && later.now / 1000 < c.signedAt / 1000 + cfg.refreshTtl
            && row.userId in later.db.users && later.db.users[row.userId].isActive)
  {
    SessionsFit(cfg, s, p, c);
    assert Rotatable(cfg, later, c.rowId, later.db.tokens[c.rowId].token) <==>
      exists i :: Rotatable(cfg, later, i, later.db.tokens[c.rowId].token);
  }

  // ---- account updates ----

  /** An update changes the fields it names and no other, and answers with the new row without its hash. */
  lemma UpdateAnswersRow(cfg: Config, s: Shared, id: Uuid, patch: Patch, c: Choice)
    requires Act(cfg, s, Updating(id, patch), c).p.answer.Ok?
    ensures var o := Act(cfg, s, Updating(id, patch), c);
      && id in s.db.users && id in o.s.db.users
      && var was, row, body := s.db.users[id], o.s.db.users[id], o.p.answer.value;
      && body.Profile? && body.id == id && body.email == row.email && body.username == row.username
      && body.role == row.role && body.isActive == row.isActive
      && row.email == was.email && row.passwordHash == was.passwordHash
      && row.username == (if patch.username.Some? then patch.username.value else was.username)
      && row.role == (if patch.role.Some? then patch.role.value else was.role)
      && row.isActive == (if patch.isActive.Some? then patch.isActive.value else was.isActive)
  {
  }

  // ---- refusals ----

  /** The refusal of a read phase: what the tables say decides it, or it passes. */
  ghost predicate Refuses(cfg: Config, s: Shared, req: Request, r: ReadChoice, e: ServiceError) {
    match req
    case Register(email, _, _) =>
      && r.firstMatch in s.db.users
      && e == AppError(409, if s.db.users[r.firstMatch].email == email then EmailRegistered else UsernameInUse)
    case Login(email, password) =>
      && e == AppError(401, InvalidCredentials)
      && forall i :: i in s.db.users && s.db.users[i].email == email ==>
           !s.db.users[i].isActive || !cfg.compare(password, s.db.users[i].passwordHash)
    case Rotate(token) => e.AppError? && e.status == 401 && RefusesRotation(cfg, s, token, r.verifiedAt, e.reason)
    case Logout(_, _, _) => false
    case ChangePassword(userId, current, _) =>
      if userId !in s.db.users then e == AppError(404, UserNotFound)
      else !cfg.compare(current, s.db.users[userId].passwordHash) && e == AppError(401, WrongPassword)
    case UpdateUser(id, _) => id !in s.db.users && e == AppError(404, UserNotFound)
    case DeleteUser(id) => id !in s.db.users && e == AppError(404, UserNotFound)
    case Authenticate(token) =>
      if !token.Signed? || token.secret != cfg.accessSecret then e == AppError(401, InvalidToken)
      else if token.claims.exp <= s.now / 1000 then e == AppError(401, TokenExpired)
      else token.claims.tokenType == Refresh && e == AppError(401, InvalidTokenType)
  }

  ghost predicate RefusesRotation(cfg: Config, s: Shared, token: Token, verifiedAt: nat, reason: Reason) {
    if !token.Signed? || token.secret != cfg.refreshSecret then reason == InvalidToken
    else if token.claims.exp <= verifiedAt / 1000 then reason == TokenExpired
    else if forall i :: i in s.db.tokens && s.db.tokens[i].token == token ==>
              s.db.tokens[i].isRevoked || s.db.tokens[i].expiresAt < s.now
      then reason == InvalidRefreshToken
    else reason == AccountDeactivated
         && forall i :: i in s.db.tokens && s.db.tokens[i].token == token ==>
              s.db.tokens[i].userId in s.db.users && !s.db.users[s.db.tokens[i].userId].isActive
  }

  /** A request is refused when it reads exactly when the table above has a refusal for it, and then with
      that one. A registration is refused exactly when e-mail or username is in use. */
  lemma {:induction false} RefusedAsTabled(cfg: Config, w: World, rid: nat, req: Request, r: ReadChoice)
    requires Constraints(w.s.db) && Enabled(w, Begin(rid, req, r))
    ensures var p := ReadPhase(cfg, w.s, req, r);
      && (p.Done? ==> p.answer.Err? && Refuses(cfg, w.s, req, r, p.answer.error))
      && (!p.Done? && !req.Register? ==> forall e :: !Refuses(cfg, w.s, req, r, e))
      && (req.Register? ==>
            (p.Done? <==> exists i :: i in w.s.db.users
                            && (w.s.db.users[i].email == req.email || w.s.db.users[i].username == req.username)))
  {
    if req.Login? {
      forall i | i in w.s.db.users && w.s.db.users[i].email == req.email
        ensures FindUser(w.s.db, req.email) == Some(i)
      {
        FindUserIs(w.s.db, i);
      }
    }
    if req.Rotate? {
      forall i | i in w.s.db.tokens && w.s.db.tokens[i].token == req.token
        ensures FindToken(w.s.db, req.token) == Some(i)
      {
        FindTokenIs(w.s.db, i);
      }
    }
  }

  /** The conflict names the field that is in use when only one is. */
  lemma ConflictNamesTheField(cfg: Config, w: World, rid: nat, email: string, username: string, password: string,
                              r: ReadChoice)
    requires Enabled(w, Begin(rid, Register(email, username, password), r))
    requires ReadPhase(cfg, w.s, Register(email, username, password), r).Done?
    ensures var answer := ReadPhase(cfg, w.s, Register(email, username, password), r).answer;
      && (answer == Err(AppError(409, EmailRegistered)) || answer == Err(AppError(409, UsernameInUse)))
      && ((forall i :: i in w.s.db.users ==> w.s.db.users[i].username != username) ==>
            answer == Err(AppError(409, EmailRegistered)))
      && ((forall i :: i in w.s.db.users ==> w.s.db.users[i].email != email) ==>
            answer == Err(AppError(409, UsernameInUse)))
  {
  }
}
