/** The service as a transition system. Every operation of the source reads, waits, and only then
    writes, so a request is a small process: `ReadPhase` is the part up to the last check, `Act` the
    write that follows it some time later. Requests interleave freely with each other and with the
    clock. What the environment decides (uuids, salts, clock readings, which of several matching rows
    `findFirst` returns) is part of the event. */
module Machine {
  import opened Domain
  import opened Jwt
  import opened Store

  /** Database, Redis blacklist (jti to the last millisecond it is visible) and clock. */
  datatype Shared = Shared(db: Db, redis: map<Uuid, nat>, now: nat)

  datatype Request =
    | Register(email: string, username: string, password: string)
    | Login(email: string, password: string)
    | Rotate(token: Token)
    | Logout(userId: Uuid, token: Token, jti: Option<Uuid>)
    | ChangePassword(userId: Uuid, current: string, replacement: string)
    | UpdateUser(id: Uuid, patch: Patch)
    | DeleteUser(id: Uuid)
    | Authenticate(token: Token)

  /** A request between its read and its write, or finished; `user` and `read` are what it has read of the
      account. */
  datatype Proc =
    | Registering(email: string, username: string, password: string)
    | LoggingIn(email: string, password: string, userId: Uuid, user: User, readAt: nat)
    | Rotating(presented: Token, rowId: Uuid, userId: Uuid, user: User, readAt: nat)
    | LoggingOut(userId: Uuid, token: Token, jti: Option<Uuid>)
    | Blacklisting(key: Uuid)
    | ChangingPassword(userId: Uuid, current: string, replacement: string, read: string)
    | Updating(id: Uuid, patch: Patch)
    | Deleting(id: Uuid)
    | LookingUp(token: Token, claims: Claims)
    | Done(answer: Answer)

  /** `firstMatch`: the row `findFirst` returns; `verifiedAt`: when the presented JWT was checked. */
  datatype ReadChoice = ReadChoice(firstMatch: Uuid, verifiedAt: nat)

  /** Fresh ids, a salt, and the clock readings taken while signing and while stamping `expiresAt`. */
  datatype Choice = Choice(userId: Uuid, rowId: Uuid, accessJti: Uuid, refreshJti: Uuid, salt: nat,
                           signedAt: nat, stampedAt: nat)

  predicate RegistrationClash(user: User, email: string, username: string) {
    user.email == email || user.username == username
  }

  predicate Blacklisted(s: Shared, jti: Option<Uuid>) {
    jti.Some? && jti.value in s.redis && s.now <= s.redis[jti.value]
  }

  function Fail(e: ServiceError): Proc { Done(Err(e)) }

  ghost function ReadPhase(cfg: Config, s: Shared, req: Request, r: ReadChoice): Proc {
    match req
    case Register(email, username, password) =>
      if EmailTaken(s.db, email) || UsernameTaken(s.db, username) then
        Fail(Conflict(if r.firstMatch in s.db.users && s.db.users[r.firstMatch].email == email
                      then EmailRegistered else UsernameInUse))
      else Registering(email, username, password)
    case Login(email, password) =>
      (match FindUser(s.db, email)
       case None => Fail(Unauthorized(InvalidCredentials))
       case Some(i) =>
         var user := s.db.users[i];
         if !user.isActive || !cfg.compare(password, user.passwordHash) then Fail(Unauthorized(InvalidCredentials))
         else LoggingIn(email, password, i, user, s.now))
    case Rotate(token) => ReadRotation(cfg, s, token, r.verifiedAt)
    case Logout(userId, token, jti) => LoggingOut(userId, token, jti)
    case ChangePassword(userId, current, replacement) =>
      if userId !in s.db.users then Fail(NotFound(UserNotFound))
      else if !cfg.compare(current, s.db.users[userId].passwordHash) then Fail(Unauthorized(WrongPassword))
      else ChangingPassword(userId, current, replacement, s.db.users[userId].passwordHash)
    case UpdateUser(id, patch) =>
      if id !in s.db.users then Fail(NotFound(UserNotFound)) else Updating(id, patch)
    case DeleteUser(id) =>
      if id !in s.db.users then Fail(NotFound(UserNotFound)) else Deleting(id)
    case Authenticate(token) =>
      (match Verify(token, cfg.accessSecret, s.now)
       case Err(reason) => Fail(Unauthorized(reason))
       case Ok(claims) =>
         if claims.tokenType != Access then Fail(Unauthorized(InvalidTokenType))
         else LookingUp(token, claims))
  }

  /** The read half of `refreshTokens`: signature first, then the row, then its owner. */
  ghost function ReadRotation(cfg: Config, s: Shared, token: Token, verifiedAt: nat): Proc {
    match Verify(token, cfg.refreshSecret, verifiedAt)
    case Err(reason) => Fail(Unauthorized(reason))
    case Ok(_) =>
      match FindToken(s.db, token)
      case None => Fail(Unauthorized(InvalidRefreshToken))
      case Some(i) =>
        var row := s.db.tokens[i];
        if row.isRevoked || row.expiresAt < s.now then Fail(Unauthorized(InvalidRefreshToken))
        else if row.userId !in s.db.users then Fail(UnknownError)
        else if !s.db.users[row.userId].isActive then Fail(Unauthorized(AccountDeactivated))
        else Rotating(token, i, row.userId, s.db.users[row.userId], s.now)
  }

  datatype Outcome = Outcome(s: Shared, p: Proc)

  /** The next write of a request. A transaction that fails leaves the shared state as it was. */
  ghost function Act(cfg: Config, s: Shared, p: Proc, c: Choice): (o: Outcome)
    ensures Constraints(s.db) ==> Constraints(o.s.db)
    ensures o.p.Done? && o.p.answer.Err? ==> o.s == s
  {
    match p
    case Registering(email, username, password) =>
      var user := User(email, username, cfg.hash(password, c.salt), USER, true);
      (match CreateUser(s.db, c.userId, user)
       case Err(e) => Outcome(s, Fail(PrismaError(e)))
       case Ok(db) => Grant(cfg, s, db, c.userId, user, c))
    case LoggingIn(_, _, userId, user, _) => Grant(cfg, s, s.db, userId, user, c)
    case Rotating(_, rowId, userId, user, _) =>
      (match RevokeToken(s.db, rowId)
       case Err(e) => Outcome(s, Fail(PrismaError(e)))
       case Ok(db) =>
         match CreateToken(db, c.rowId, NewRow(cfg, userId, user, c))
         case Err(e) => Outcome(s, Fail(PrismaError(e)))
         case Ok(db2) =>
           Outcome(s.(db := db2),
                   Done(Ok(Tokens(NewAccess(cfg, userId, user, c), NewRow(cfg, userId, user, c).token)))))
    case LoggingOut(userId, token, jti) =>
      Outcome(s.(db := RevokeMany(s.db, userId, Some(token))),
              if jti.Some? then Blacklisting(jti.value) else Done(Ok(Empty)))
    case Blacklisting(jti) =>
      Outcome(s.(redis := s.redis[jti := s.now + 1000 * ACCESS_TOKEN_TTL_SECONDS]), Done(Ok(Empty)))
    case ChangingPassword(userId, _, replacement, _) =>
      (match SetPasswordHash(s.db, userId, cfg.hash(replacement, c.salt))
       case Err(e) => Outcome(s, Fail(PrismaError(e)))
       case Ok(db) => Outcome(s.(db := RevokeMany(db, userId, None)), Done(Ok(Empty))))
    case Updating(id, patch) =>
      (match PatchUser(s.db, id, patch)
       case Err(e) => Outcome(s, Fail(PrismaError(e)))
       case Ok(db) => Outcome(s.(db := db), Done(Ok(ProfileOf(id, db.users[id])))))
    case Deleting(id) =>
      (match RemoveUser(s.db, id)
       case Err(e) => Outcome(s, Fail(PrismaError(e)))
       case Ok(db) => Outcome(s.(db := db), Done(Ok(Empty))))
    case LookingUp(_, claims) =>
      Outcome(s, if Blacklisted(s, claims.jti) then Fail(Unauthorized(TokenRevoked)) else Done(Ok(Principal(claims))))
    case Done(_) => Outcome(s, p)
  }

  function NewAccess(cfg: Config, userId: Uuid, user: User, c: Choice): Token {
    SignAccess(cfg, userId, user.email, user.role, c.accessJti, c.signedAt)
  }

  function NewRow(cfg: Config, userId: Uuid, user: User, c: Choice): RefreshToken {
    RefreshToken(SignRefresh(cfg, userId, user.email, user.role, c.refreshJti, c.signedAt), userId,
                 c.stampedAt + REFRESH_TOKEN_TTL_MS, false)
  }

  /** Stores a refresh token in `db` and answers with a session, or rolls back to `s`. */
  ghost function Grant(cfg: Config, s: Shared, db: Db, userId: Uuid, user: User, c: Choice): (o: Outcome)
    ensures Constraints(db) && Constraints(s.db) ==> Constraints(o.s.db)
    ensures o.p.Done? && (o.p.answer.Err? ==> o.s == s)
  {
    match CreateToken(db, c.rowId, NewRow(cfg, userId, user, c))
    case Err(e) => Outcome(s, Fail(PrismaError(e)))
    case Ok(db2) =>
      Outcome(s.(db := db2), Done(Ok(Session(userId, user.email, user.username, user.role,
                                            NewAccess(cfg, userId, user, c), NewRow(cfg, userId, user, c).token))))
  }

  // ---- the interleaved machine, with its history ----

  datatype Source = FromRegister | FromLogin | FromRotation(parent: Token)

  /** Where a refresh token came from, how many rotations below its root, and that root. */
  datatype Birth = Birth(source: Source, depth: nat, root: Token)

  /** `used`, `signed` and `born` are history: every uuid ever drawn, every token ever handed out, and
      every refresh token ever stored. */
  datatype World = World(s: Shared, procs: map<nat, Proc>, used: set<Uuid>, signed: set<Token>,
                         born: map<Token, Birth>)

  datatype Event =
    | Tick(ms: nat)
    | Begin(rid: nat, req: Request, r: ReadChoice)
    | Continue(rid: nat, c: Choice)

  function IssuedBy(answer: Answer): set<Token> {
    match answer
    case Ok(Session(_, _, _, _, access, refresh)) => {access, refresh}
    case Ok(Tokens(access, refresh)) => {access, refresh}
    case _ => {}
  }

  function Issued(p: Proc): set<Token> {
    if p.Done? then IssuedBy(p.answer) else {}
  }

  function Recorded(born: map<Token, Birth>, p: Proc, p': Proc): map<Token, Birth> {
    if !p'.Done? || p'.answer.Err? then born else
    match p
    case Registering(_, _, _) =>
      if p'.answer.value.Session? then born[p'.answer.value.refresh := Birth(FromRegister, 0, p'.answer.value.refresh)]
      else born
    case LoggingIn(_, _, _, _, _) =>
      if p'.answer.value.Session? then born[p'.answer.value.refresh := Birth(FromLogin, 0, p'.answer.value.refresh)]
      else born
    case Rotating(presented, _, _, _, _) =>
      if p'.answer.value.Tokens? && presented in born then
        born[p'.answer.value.refresh :=
             Birth(FromRotation(presented), born[presented].depth + 1, born[presented].root)]
      else born
    case _ => born
  }

  function Drawn(c: Choice): set<Uuid> { {c.userId, c.rowId, c.accessJti, c.refreshJti} }

  ghost function Step(cfg: Config, w: World, ev: Event): World {
    match ev
    case Tick(ms) => w.(s := w.s.(now := w.s.now + ms))
    case Begin(rid, req, r) => w.(procs := w.procs[rid := ReadPhase(cfg, w.s, req, r)])
    case Continue(rid, c) =>
      if rid !in w.procs || w.procs[rid].Done? then w else
      var p := w.procs[rid];
      var o := Act(cfg, w.s, p, c);
      World(o.s, w.procs[rid := o.p], w.used + Drawn(c), w.signed + Issued(o.p), Recorded(w.born, p, o.p))
  }

  function ReadTime(p: Proc): nat {
    match p
    case LoggingIn(_, _, _, _, readAt) => readAt
    case Rotating(_, _, _, _, readAt) => readAt
    case _ => 0
  }

  /** What the environment guarantees: new request ids, fresh uuids, clock readings taken in order, and,
      when several rows match a registration, that `findFirst` returns one of them. */
  ghost predicate Enabled(w: World, ev: Event) {
    match ev
    case Tick(_) => true
    case Begin(rid, req, r) =>
      && rid !in w.procs
      && r.verifiedAt <= w.s.now
      && (req.Register? && (EmailTaken(w.s.db, req.email) || UsernameTaken(w.s.db, req.username)) ==>
            r.firstMatch in w.s.db.users && RegistrationClash(w.s.db.users[r.firstMatch], req.email, req.username))
    case Continue(rid, c) =>
      && rid in w.procs && !w.procs[rid].Done?
      && Drawn(c) !! w.used
      && ReadTime(w.procs[rid]) <= c.signedAt <= c.stampedAt <= w.s.now
  }

  ghost function Exec(cfg: Config, w: World, evs: seq<Event>): World {
    if evs == [] then w else Step(cfg, Exec(cfg, w, evs[..|evs| - 1]), evs[|evs| - 1])
  }

  ghost predicate ValidRun(cfg: Config, w: World, evs: seq<Event>) {
    evs != [] ==>
      && ValidRun(cfg, w, evs[..|evs| - 1])
      && Enabled(Exec(cfg, w, evs[..|evs| - 1]), evs[|evs| - 1])
  }

  /** No request has been served yet; accounts may already exist (a seeded administrator). */
  ghost predicate Initial(w: World) {
    && Constraints(w.s.db) && w.s.db.tokens == map[] && w.s.db.users.Keys <= w.used
    && w.s.redis == map[] && w.procs == map[] && w.signed == {} && w.born == map[]
  }

  lemma {:induction false} ExecConcat(cfg: Config, w: World, a: seq<Event>, b: seq<Event>)
    ensures Exec(cfg, w, a + b) == Exec(cfg, Exec(cfg, w, a), b)
    ensures ValidRun(cfg, w, a + b) <==> ValidRun(cfg, w, a) && ValidRun(cfg, Exec(cfg, w, a), b)
    decreases |b|
  {
    if b == [] {
      assert a + b == a;
    } else {
      var b0 := b[..|b| - 1];
      assert (a + b)[..|a + b| - 1] == a + b0;
      ExecConcat(cfg, w, a, b0);
    }
  }

  /** A run passes through the states of its prefixes. */
  lemma RunSplits(cfg: Config, w: World, evs: seq<Event>, i: nat, j: nat)
    requires i <= j <= |evs|
    ensures Exec(cfg, w, evs[..j]) == Exec(cfg, Exec(cfg, w, evs[..i]), evs[i..j])
    ensures ValidRun(cfg, w, evs) ==>
              && ValidRun(cfg, w, evs[..i])
              && ValidRun(cfg, Exec(cfg, w, evs[..i]), evs[i..j])
              && ValidRun(cfg, w, evs[..j])
  {
    assert evs[..i] + evs[i..j] == evs[..j];
    assert evs[..j] + evs[j..] == evs;
    ExecConcat(cfg, w, evs[..i], evs[i..j]);
    ExecConcat(cfg, w, evs[..j], evs[j..]);
  }

  /** One more event. */
  lemma RunSnoc(cfg: Config, w: World, evs: seq<Event>, ev: Event)
    ensures Exec(cfg, w, evs + [ev]) == Step(cfg, Exec(cfg, w, evs), ev)
    ensures ValidRun(cfg, w, evs + [ev]) <==> ValidRun(cfg, w, evs) && Enabled(Exec(cfg, w, evs), ev)
  {
    assert (evs + [ev])[..|evs + [ev]| - 1] == evs;
  }
}
