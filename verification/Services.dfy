/** The services as the source writes them: methods over the database, Redis and the clock, suspended at
    an `await` while other requests run. `others` is whatever those requests do to the shared state
    meanwhile; the contracts hold for all of it. */
module Services {
  import opened Domain
  import opened Jwt
  import opened Store
  import opened Machine
  import opened AtomicSpec
  import opened Invariants
  import opened Linearizability
  import opened Answers

  /** What a client operation did: the write, or an error and nothing. */
  ghost predicate Applied(before: Db, write: Result<Db, DbError>, after: Db, e: Option<DbError>) {
    match write
    case Ok(db) => e == None && after == db
    case Err(code) => e == Some(code) && after == before
  }

  ghost predicate KeepsConstraints(others: Shared -> Shared) {
    forall s: Shared :: Constraints(s.db) ==> Constraints(others(s).db)
  }

  /** The Prisma and Redis clients with the tables and keys behind them, and the clock. */
  class Backend {
    var users: map<Uuid, User>
    var refreshTokens: map<Uuid, RefreshToken>
    var blacklist: map<Uuid, nat>
    var now: nat

    function View(): Shared reads this {
      Shared(Db(users, refreshTokens), blacklist, now)
    }

    ghost predicate Valid() reads this { Constraints(View().db) }

    constructor (s: Shared)
      requires Constraints(s.db)
      ensures Valid() && View() == s
    {
      users, refreshTokens, blacklist, now := s.db.users, s.db.tokens, s.redis, s.now;
    }

    /** Suspends the caller: the other requests run. */
    method Await(others: Shared -> Shared)
      requires Valid() && KeepsConstraints(others)
      modifies this
      ensures Valid() && View() == others(old(View()))
    {
      var s := others(View());
      users, refreshTokens, blacklist, now := s.db.users, s.db.tokens, s.redis, s.now;
    }

    /** `user.findFirst` on e-mail or username; the database picks `first` when several rows match. */
    method FindByEmailOrUsername(email: string, username: string, first: Uuid) returns (r: Option<User>)
      requires EmailTaken(View().db, email) || UsernameTaken(View().db, username) ==>
                 first in users && RegistrationClash(users[first], email, username)
      ensures r.Some? <==> EmailTaken(View().db, email) || UsernameTaken(View().db, username)
      ensures r.Some? ==> first in users && r.value == users[first]
    {
      if first in users && RegistrationClash(users[first], email, username) { return Some(users[first]); }
      return None;
    }

    /** `user.findUnique` on the e-mail. */
    method FindByEmail(email: string) returns (r: Option<Uuid>)
      requires Valid()
      ensures r == FindUser(View().db, email)
    {
      if i :| i in users && users[i].email == email {
        FindUserIs(View().db, i);
        return Some(i);
      }
      return None;
    }

    /** `refreshToken.findUnique` on the token string. */
    method FindByToken(token: Token) returns (r: Option<Uuid>)
      requires Valid()
      ensures r == FindToken(View().db, token)
    {
      if i :| i in refreshTokens && refreshTokens[i].token == token {
        FindTokenIs(View().db, i);
        return Some(i);
      }
      return None;
    }

    method InsertUser(id: Uuid, user: User) returns (e: Option<DbError>)
      modifies this`users
      ensures Applied(old(View().db), CreateUser(old(View().db), id, user), View().db, e)
    {
      if id in users || exists i :: i in users && (users[i].email == user.email || users[i].username == user.username) {
        return Some(P2002);
      }
      users := users[id := user];
      return None;
    }

    method InsertToken(id: Uuid, row: RefreshToken) returns (e: Option<DbError>)
      modifies this`refreshTokens
      ensures Applied(old(View().db), CreateToken(old(View().db), id, row), View().db, e)
    {
      if id in refreshTokens || exists i :: i in refreshTokens && refreshTokens[i].token == row.token {
        return Some(P2002);
      }
      if row.userId !in users { return Some(P2003); }
      refreshTokens := refreshTokens[id := row];
      return None;
    }

    method UpdateUserRow(id: Uuid, patch: Patch) returns (e: Option<DbError>)
      modifies this`users
      ensures Applied(old(View().db), PatchUser(old(View().db), id, patch), View().db, e)
    {
      if id !in users { return Some(P2025); }
      var row := users[id];
      if patch.username.Some? {
        if exists i :: i in users && i != id && users[i].username == patch.username.value { return Some(P2002); }
        row := row.(username := patch.username.value);
      }
      if patch.isActive.Some? { row := row.(isActive := patch.isActive.value); }
      if patch.role.Some? { row := row.(role := patch.role.value); }
      users := users[id := row];
      return None;
    }

    method UpdatePasswordHash(id: Uuid, hash: string) returns (e: Option<DbError>)
      modifies this`users
      ensures Applied(old(View().db), SetPasswordHash(old(View().db), id, hash), View().db, e)
    {
      if id !in users { return Some(P2025); }
      users := users[id := users[id].(passwordHash := hash)];
      return None;
    }

    method DeleteUserRow(id: Uuid) returns (e: Option<DbError>)
      modifies this`users, this`refreshTokens
      ensures Applied(old(View().db), RemoveUser(old(View().db), id), View().db, e)
    {
      if id !in users { return Some(P2025); }
      users := users - {id};
      refreshTokens := map i | i in refreshTokens && refreshTokens[i].userId != id :: refreshTokens[i];
      return None;
    }

    method MarkRevoked(id: Uuid) returns (e: Option<DbError>)
      modifies this`refreshTokens
      ensures Applied(old(View().db), RevokeToken(old(View().db), id), View().db, e)
    {
      if id !in refreshTokens { return Some(P2025); }
      refreshTokens := refreshTokens[id := refreshTokens[id].(isRevoked := true)];
      return None;
    }

    method MarkRevokedMany(userId: Uuid, token: Option<Token>)
      modifies this`refreshTokens
      ensures View().db == RevokeMany(old(View().db), userId, token)
    {
      refreshTokens := map i | i in refreshTokens ::
        if refreshTokens[i].userId == userId && (token.None? || refreshTokens[i].token == token.value)
        then refreshTokens[i].(isRevoked := true) else refreshTokens[i];
    }

    method Setex(key: Uuid, seconds: nat)
      modifies this`blacklist
      ensures blacklist == old(blacklist)[key := now + 1000 * seconds]
    {
      blacklist := blacklist[key := now + 1000 * seconds];
    }

    /** A transaction that fails puts both tables back. */
    method Rollback(tables: Db)
      modifies this`users, this`refreshTokens
      ensures View().db == tables
    {
      users, refreshTokens := tables.users, tables.tokens;
    }
  }

  /** A whole request: its read phase, the other requests, its write. A logout writes first and has its
      second write after the wait. */
  ghost function Serve(cfg: Config, s: Shared, req: Request, r: ReadChoice, others: Shared -> Shared,
                       c: Choice): Effect {
    var p := ReadPhase(cfg, s, req, r);
    if p.Done? then Effect(s, p.answer) else
    var first := if req.Logout? then Act(cfg, s, p, c) else Act(cfg, others(s), p, c);
    if first.p.Done? then Effect(first.s, first.p.answer) else
    Effect(Act(cfg, others(first.s), first.p, c).s, Ok(Empty))
  }

  /** A service method is one request of the interleaved machine: if the other requests of a run, none of
      them this one, lead from the read to the write, `Serve` gives the machine's state and answer. */
  lemma {:induction false} ServeIsTheMachine(cfg: Config, w: World, rid: nat, req: Request, r: ReadChoice,
                                             evs: seq<Event>, c: Choice)
    requires Enabled(w, Begin(rid, req, r)) && !ReadPhase(cfg, w.s, req, r).Done? && !req.Logout?
    requires ValidRun(cfg, Step(cfg, w, Begin(rid, req, r)), evs)
    requires forall k :: 0 <= k < |evs| && evs[k].Continue? ==> evs[k].rid != rid
    ensures var w2 := Exec(cfg, Step(cfg, w, Begin(rid, req, r)), evs); var w3 := Step(cfg, w2, Continue(rid, c));
      && rid in w3.procs && w3.procs[rid].Done?
      && Effect(w3.s, w3.procs[rid].answer) == Serve(cfg, w.s, req, r, _ => w2.s, c)
  {
    var w1 := Step(cfg, w, Begin(rid, req, r));
    OthersKeepProc(cfg, w1, evs, rid);
    ServedWrite(cfg, w.s, req, r, _ => Exec(cfg, w1, evs).s, c);
  }

  /** The same for a logout, which begins and revokes, waits, and then, given a `jti`, writes to Redis. */
  lemma {:induction false} LogoutIsTheMachine(cfg: Config, w: World, rid: nat, req: Request, r: ReadChoice, c: Choice,
                                              evs: seq<Event>)
    requires Enabled(w, Begin(rid, req, r)) && req.Logout? && req.jti.Some?
    requires var w1 := Step(cfg, Step(cfg, w, Begin(rid, req, r)), Continue(rid, c)); ValidRun(cfg, w1, evs)
    requires forall k :: 0 <= k < |evs| && evs[k].Continue? ==> evs[k].rid != rid
    ensures var w1 := Step(cfg, Step(cfg, w, Begin(rid, req, r)), Continue(rid, c));
      var w2 := Exec(cfg, w1, evs); var w3 := Step(cfg, w2, Continue(rid, c));
      && rid in w3.procs && w3.procs[rid] == Done(Ok(Empty))
      && Effect(w3.s, Ok(Empty)) == Serve(cfg, w.s, req, r, _ => w2.s, c)
  {
    var w1 := Step(cfg, Step(cfg, w, Begin(rid, req, r)), Continue(rid, c));
    ServedLogout(cfg, w.s, req, r, _ => Exec(cfg, w1, evs).s, c);
    OthersKeepProc(cfg, w1, evs, rid);
  }

  /** Served alone, with nothing happening during its wait, a request is its atomic operation. */
  lemma {:induction false} ServedAloneIsAtomic(cfg: Config, w: World, rid: nat, req: Request, r: ReadChoice, c: Choice)
    requires cfg.Valid() && Inv(cfg, w) && Enabled(w, Begin(rid, req, r)) && r.verifiedAt == w.s.now
    requires var w1 := Step(cfg, w, Begin(rid, req, r)); !w1.procs[rid].Done? ==> Enabled(w1, Continue(rid, c))
    ensures Agrees(Serve(cfg, w.s, req, r, x => x, c),
                   if req.Logout? then AtomicLogout(cfg, w.s, req.userId, req.token, req.jti)
                   else Atomic(cfg, w.s, Perform(req, c)))
  {
    if req.Logout? {
      LogoutAgrees(cfg, w.s, LoggingOut(req.userId, req.token, req.jti), c);
    } else if ReadPhase(cfg, w.s, req, r).Done? {
      FailedReadAgrees(cfg, w, req, r, c);
    } else {
      AloneWriteAgrees(cfg, w, rid, req, r, c);
    }
  }

  lemma {:induction false} AloneWriteAgrees(cfg: Config, w: World, rid: nat, req: Request, r: ReadChoice, c: Choice)
    requires cfg.Valid() && Inv(cfg, w) && Enabled(w, Begin(rid, req, r)) && r.verifiedAt == w.s.now && !req.Logout?
    requires !ReadPhase(cfg, w.s, req, r).Done? && Enabled(Step(cfg, w, Begin(rid, req, r)), Continue(rid, c))
    ensures Agrees(Serve(cfg, w.s, req, r, x => x, c), Atomic(cfg, w.s, Perform(req, c)))
  {
    var w1 := Step(cfg, w, Begin(rid, req, r));
    assert w1.s == w.s && w1.procs[rid] == ReadPhase(cfg, w.s, req, r);
    BeginKeeps(cfg, w, rid, req, r);
    PassedReadIsStable(cfg, w, req, r, c);
    WriteAgreesIffStable(cfg, w1, rid, c);
    ServedWrite(cfg, w.s, req, r, x => x, c);
  }

  /** A logout with a `jti`, served, is its revocation, the others, and then the blacklist entry. */
  lemma ServedLogout(cfg: Config, s: Shared, req: Request, r: ReadChoice, others: Shared -> Shared, c: Choice)
    requires req.Logout? && req.jti.Some?
    ensures var p := LoggingOut(req.userId, req.token, req.jti); var revoked := Act(cfg, s, p, c);
      && ReadPhase(cfg, s, req, r) == p && revoked.p == Blacklisting(req.jti.value)
      && Act(cfg, others(revoked.s), revoked.p, c).p == Done(Ok(Empty))
      && Serve(cfg, s, req, r, others, c) == Effect(Act(cfg, others(revoked.s), revoked.p, c).s, Ok(Empty))
  {
  }

  /** A request with one write, served, is that write on the state the others have left. */
  lemma ServedWrite(cfg: Config, s: Shared, req: Request, r: ReadChoice, others: Shared -> Shared, c: Choice)
    requires !ReadPhase(cfg, s, req, r).Done? && !req.Logout?
    ensures OperationOf(ReadPhase(cfg, s, req, r), c) == Perform(req, c)
    ensures Serve(cfg, s, req, r, others, c) == WriteEffect(cfg, others(s), ReadPhase(cfg, s, req, r), c)
    ensures Act(cfg, others(s), ReadPhase(cfg, s, req, r), c).p.Done?
  {
    ActMints(cfg, others(s), ReadPhase(cfg, s, req, r), c);
  }

  /** A session that is answered fits the account that was read, and its row is stored. */
  ghost predicate Fitting(cfg: Config, before: Shared, req: Request, r: ReadChoice, c: Choice, answer: Answer,
                          after: Db)
  {
    answer.Ok? ==> SessionFits(cfg, ReadPhase(cfg, before, req, r), c, answer.value, after)
  }

  lemma ServedSessionsFit(cfg: Config, s: Shared, req: Request, r: ReadChoice, others: Shared -> Shared, c: Choice)
    requires req.Register? || req.Login? || req.Rotate?
    ensures var e := Serve(cfg, s, req, r, others, c); Fitting(cfg, s, req, r, c, e.answer, e.s.db)
  {
    var p := ReadPhase(cfg, s, req, r);
    if !p.Done? {
      ServedWrite(cfg, s, req, r, others, c);
      if Act(cfg, others(s), p, c).p.answer.Ok? { SessionsFit(cfg, others(s), p, c); }
    }
  }

  lemma {:induction false} OthersKeepProc(cfg: Config, w: World, evs: seq<Event>, rid: nat)
    requires ValidRun(cfg, w, evs) && rid in w.procs
    requires forall k :: 0 <= k < |evs| && evs[k].Continue? ==> evs[k].rid != rid
    ensures rid in Exec(cfg, w, evs).procs && Exec(cfg, w, evs).procs[rid] == w.procs[rid]
  {
    if evs != [] { OthersKeepProc(cfg, w, evs[..|evs| - 1], rid); }
  }

  class AuthService {
    const cfg: Config
    const db: Backend

    constructor (cfg: Config, db: Backend)
      ensures this.cfg == cfg && this.db == db
    {
      this.cfg, this.db := cfg, db;
    }

    method Register(email: string, username: string, password: string, first: Uuid, c: Choice, others: Shared -> Shared)
      returns (answer: Answer)
      requires db.Valid() && KeepsConstraints(others)
      requires EmailTaken(db.View().db, email) || UsernameTaken(db.View().db, username) ==>
                 first in db.users && RegistrationClash(db.users[first], email, username)
      modifies db
      ensures Effect(db.View(), answer) ==
        Serve(cfg, old(db.View()), Request.Register(email, username, password), ReadChoice(first, 0), others, c)
      ensures Fitting(cfg, old(db.View()), Request.Register(email, username, password), ReadChoice(first, 0), c,
                      answer, db.View().db)
    {
      ServedSessionsFit(cfg, db.View(), Request.Register(email, username, password), ReadChoice(first, 0), others, c);
      var existing := db.FindByEmailOrUsername(email, username, first);
      if existing.Some? {
        return Err(Conflict(if existing.value.email == email then EmailRegistered else UsernameInUse));
      }
      db.Await(others);
      var user := User(email, username, cfg.hash(password, c.salt), USER, true);
      var saved := db.View().db;
      var e := db.InsertUser(c.userId, user);
      if e.Some? { return Err(PrismaError(e.value)); }
      var access := NewAccess(cfg, c.userId, user, c);
      var row := NewRow(cfg, c.userId, user, c);
      e := db.InsertToken(c.rowId, row);
      if e.Some? {
        db.Rollback(saved);
        return Err(PrismaError(e.value));
      }
      return Ok(Session(c.userId, user.email, user.username, user.role, access, row.token));
    }

    method Login(email: string, password: string, c: Choice, others: Shared -> Shared) returns (answer: Answer)
      requires db.Valid() && KeepsConstraints(others)
      modifies db
      ensures Effect(db.View(), answer) ==
        Serve(cfg, old(db.View()), Request.Login(email, password), ReadChoice(0, 0), others, c)
      ensures Fitting(cfg, old(db.View()), Request.Login(email, password), ReadChoice(0, 0), c, answer, db.View().db)
    {
      ServedSessionsFit(cfg, db.View(), Request.Login(email, password), ReadChoice(0, 0), others, c);
      var i := db.FindByEmail(email);
      if i.None? { return Err(Unauthorized(InvalidCredentials)); }
      var user := db.users[i.value];
      if !user.isActive || !cfg.compare(password, user.passwordHash) { return Err(Unauthorized(InvalidCredentials)); }
      db.Await(others);
      var access := NewAccess(cfg, i.value, user, c);
      var row := NewRow(cfg, i.value, user, c);
      var e := db.InsertToken(c.rowId, row);
      if e.Some? { return Err(PrismaError(e.value)); }
      return Ok(Session(i.value, user.email, user.username, user.role, access, row.token));
    }

    method RefreshTokens(token: Token, verifiedAt: nat, c: Choice, others: Shared -> Shared) returns (answer: Answer)
      requires db.Valid() && KeepsConstraints(others)
      modifies db
      ensures Effect(db.View(), answer) ==
        Serve(cfg, old(db.View()), Rotate(token), ReadChoice(0, verifiedAt), others, c)
      ensures Fitting(cfg, old(db.View()), Rotate(token), ReadChoice(0, verifiedAt), c, answer, db.View().db)
    {
      ServedSessionsFit(cfg, db.View(), Rotate(token), ReadChoice(0, verifiedAt), others, c);
      var verified := Verify(token, cfg.refreshSecret, verifiedAt);
      if verified.Err? { return Err(Unauthorized(verified.error)); }
      var i := db.FindByToken(token);
      if i.None? { return Err(Unauthorized(InvalidRefreshToken)); }
      var stored := db.refreshTokens[i.value];
      if stored.isRevoked || stored.expiresAt < db.now { return Err(Unauthorized(InvalidRefreshToken)); }
      var owner := db.users[stored.userId];
      if !owner.isActive { return Err(Unauthorized(AccountDeactivated)); }
      db.Await(others);
      var access := NewAccess(cfg, stored.userId, owner, c);
      var row := NewRow(cfg, stored.userId, owner, c);
      var saved := db.View().db;
      var e := db.MarkRevoked(i.value);
      if e.Some? { return Err(PrismaError(e.value)); }
      e := db.InsertToken(c.rowId, row);
      if e.Some? {
        db.Rollback(saved);
        return Err(PrismaError(e.value));
      }
      return Ok(Tokens(access, row.token));
    }

    /** Two writes: the database row at once, the blacklist entry after the wait. */
    method Logout(userId: Uuid, token: Token, jti: Option<Uuid>, ghost c: Choice, others: Shared -> Shared)
      requires db.Valid() && KeepsConstraints(others)
      modifies db
      ensures db.View() == Serve(cfg, old(db.View()), Request.Logout(userId, token, jti), ReadChoice(0, 0), others, c).s
      ensures var revoked := Atomic(cfg, old(db.View()), Revoke(userId, token)).s;
        db.View() == if jti.None? then revoked else Atomic(cfg, others(revoked), Blacklist(jti.value)).s
    {
      RevokeManyKills(db.View().db, userId);
      db.MarkRevokedMany(userId, Some(token));
      if jti.Some? {
        db.Await(others);
        db.Setex(jti.value, ACCESS_TOKEN_TTL_SECONDS);
      }
    }

    method ChangePassword(userId: Uuid, current: string, replacement: string, c: Choice, others: Shared -> Shared)
      returns (answer: Answer)
      requires db.Valid() && KeepsConstraints(others)
      modifies db
      ensures Effect(db.View(), answer) ==
        Serve(cfg, old(db.View()), Request.ChangePassword(userId, current, replacement), ReadChoice(0, 0), others, c)
    {
      if userId !in db.users { return Err(NotFound(UserNotFound)); }
      if !cfg.compare(current, db.users[userId].passwordHash) { return Err(Unauthorized(WrongPassword)); }
      db.Await(others);
      var e := db.UpdatePasswordHash(userId, cfg.hash(replacement, c.salt));
      if e.Some? { return Err(PrismaError(e.value)); }
      db.MarkRevokedMany(userId, None);
      return Ok(Empty);
    }
  }

  class UserService {
    const cfg: Config
    const db: Backend

    constructor (cfg: Config, db: Backend)
      ensures this.cfg == cfg && this.db == db
    {
      this.cfg, this.db := cfg, db;
    }

    method UpdateUser(id: Uuid, patch: Patch, c: Choice, others: Shared -> Shared) returns (answer: Answer)
      requires db.Valid() && KeepsConstraints(others)
      modifies db
      ensures Effect(db.View(), answer) ==
        Serve(cfg, old(db.View()), Request.UpdateUser(id, patch), ReadChoice(0, 0), others, c)
      ensures answer.Ok? ==> id in db.users && var row := db.users[id];
        answer.value == Profile(id, row.email, row.username, row.role, row.isActive)
    {
      if id !in db.users { return Err(NotFound(UserNotFound)); }
      db.Await(others);
      var e := db.UpdateUserRow(id, patch);
      if e.Some? { return Err(PrismaError(e.value)); }
      return Ok(ProfileOf(id, db.users[id]));
    }

    method DeleteUser(id: Uuid, c: Choice, others: Shared -> Shared) returns (answer: Answer)
      requires db.Valid() && KeepsConstraints(others)
      modifies db
      ensures Effect(db.View(), answer) ==
        Serve(cfg, old(db.View()), Request.DeleteUser(id), ReadChoice(0, 0), others, c)
    {
      if id !in db.users { return Err(NotFound(UserNotFound)); }
      ServedWrite(cfg, db.View(), Request.DeleteUser(id), ReadChoice(0, 0), others, c);
      db.Await(others);
      var e := db.DeleteUserRow(id);
      if e.Some? { return Err(PrismaError(e.value)); }
      return Ok(Empty);
    }
  }
}
