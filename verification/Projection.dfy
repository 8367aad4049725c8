/** Per-user projection of sequential histories: what one user sees does not depend on the successful
    operations of the others. */
module Projection {
  import opened Domain
  import opened Store
  import opened Machine
  import opened AtomicSpec
  import opened Invariants
  import opened Linearizability

  /** The service with one account only. */
  ghost function Only(s: Shared, u: Uuid): Shared {
    s.(db := Db(map i | i in s.db.users && i == u :: s.db.users[i],
                map i | i in s.db.tokens && s.db.tokens[i].userId == u :: s.db.tokens[i]))
  }

  /** The account an operation acts for. */
  ghost function ActorOf(cfg: Config, s: Shared, op: Operation): Option<Uuid> {
    match op
    case Revoke(userId, _) => Some(userId)
    case Blacklist(_) => None
    case Perform(req, c) =>
      match req
      case Register(_, _, _) => Some(c.userId)
      case Login(email, _) => FindUser(s.db, email)
      case Rotate(token) =>
        if FindToken(s.db, token).Some? then Some(s.db.tokens[FindToken(s.db, token).value].userId) else None
      case ChangePassword(userId, _, _) => Some(userId)
      case UpdateUser(id, _) => Some(id)
      case DeleteUser(id) => Some(id)
      case _ => None
  }

  /** The ids an operation draws are new, and so is the refresh token it may sign. */
  ghost predicate Fresh(s: Shared, op: Operation) {
    op.Perform? ==>
      && op.c.userId !in s.db.users && op.c.rowId !in s.db.tokens
      && forall i :: i in s.db.tokens && s.db.tokens[i].token.Signed? ==>
           s.db.tokens[i].token.claims.jti != Some(op.c.refreshJti)
  }

  ghost predicate Succeeds(cfg: Config, s: Shared, op: Operation) { Atomic(cfg, s, op).answer.Ok? }

  /** The projection keeps the clock, the blacklist, and what succeeded for `u`. */
  ghost predicate Kept(cfg: Config, s: Shared, e: Entry, u: Uuid) {
    match e
    case Advance(_) => true
    case Takes(_, op) => op.Blacklist? || (Succeeds(cfg, s, op) && ActorOf(cfg, s, op) == Some(u))
    case Bare(_, p, _) => EffectOf(cfg, s, e).answer.Ok? && BareActorOf(p) == Some(u)
  }

  /** The account a bare write acts for; a token lookup writes nothing. */
  function BareActorOf(p: Proc): Option<Uuid> {
    match p
    case LoggingIn(_, _, userId, _, _) => Some(userId)
    case Rotating(_, _, userId, _, _) => Some(userId)
    case ChangingPassword(userId, _, _, _) => Some(userId)
    case _ => None
  }

  /** A refresh holds a row of its own user. */
  ghost predicate OwnsRow(s: Shared, p: Proc) {
    p.Rotating? && p.rowId in s.db.tokens ==> s.db.tokens[p.rowId].userId == p.userId
  }

  /** A refused operation changes nothing. */
  lemma FailureLeaves(cfg: Config, s: Shared, op: Operation)
    requires !Succeeds(cfg, s, op)
    ensures Atomic(cfg, s, op).s == s
  {
  }

  lemma GrantKeeps(cfg: Config, db: Db, c: Choice, userId: Uuid, user: User)
    requires Constraints(db) && userId in db.users && c.rowId !in db.tokens
    requires forall i :: i in db.tokens && db.tokens[i].token.Signed? ==>
               db.tokens[i].token.claims.jti != Some(c.refreshJti)
    ensures Constraints(db.(tokens := db.tokens[c.rowId := NewRow(cfg, userId, user, c)]))
  {
    assert CreateToken(db, c.rowId, NewRow(cfg, userId, user, c)).Ok?;
  }

  lemma RegisterKeeps(cfg: Config, s: Shared, req: Request, c: Choice)
    requires Constraints(s.db) && Fresh(s, Perform(req, c)) && req.Register?
    ensures Constraints(Atomic(cfg, s, Perform(req, c)).s.db)
  {
    if Succeeds(cfg, s, Perform(req, c)) {
      var user := User(req.email, req.username, cfg.hash(req.password, c.salt), USER, true);
      assert forall i :: i in s.db.users ==> !RegistrationClash(s.db.users[i], req.email, req.username);
      var db := CreateUser(s.db, c.userId, user).value;
      GrantKeeps(cfg, db, c, c.userId, user);
    }
  }

  lemma LoginKeeps(cfg: Config, s: Shared, req: Request, c: Choice)
    requires Constraints(s.db) && Fresh(s, Perform(req, c)) && req.Login?
    ensures Constraints(Atomic(cfg, s, Perform(req, c)).s.db)
  {
    if exists i :: Opens(cfg, s, i, req.email, req.password) {
      var i :| Opens(cfg, s, i, req.email, req.password);
      LoginIs(cfg, s, req.email, req.password, c, i);
      GrantKeeps(cfg, s.db, c, i, s.db.users[i]);
    }
  }

  lemma RotateKeeps(cfg: Config, s: Shared, req: Request, c: Choice)
    requires Constraints(s.db) && Fresh(s, Perform(req, c)) && req.Rotate?
    ensures Constraints(Atomic(cfg, s, Perform(req, c)).s.db)
  {
    if exists i :: Rotatable(cfg, s, i, req.token) {
      var i :| Rotatable(cfg, s, i, req.token);
      var owner := s.db.tokens[i].userId;
      RotateIs(cfg, s, req.token, c, i);
      GrantKeeps(cfg, RevokeToken(s.db, i).value, c, owner, s.db.users[owner]);
    }
  }

  lemma AccountOpsKeep(cfg: Config, s: Shared, op: Operation)
    requires Constraints(s.db)
    requires op.Perform? && (op.req.UpdateUser? || op.req.DeleteUser? || op.req.Authenticate? || op.req.Logout?)
    ensures Constraints(Atomic(cfg, s, op).s.db)
  {
  }

  lemma RevocationsKeep(cfg: Config, s: Shared, op: Operation)
    requires Constraints(s.db)
    requires op.Revoke? || op.Blacklist? || op.req.ChangePassword?
    ensures Constraints(Atomic(cfg, s, op).s.db)
  {
  }

  /** The atomic specification keeps the schema's constraints too. */
  lemma {:induction false} AtomicKeepsConstraints(cfg: Config, s: Shared, op: Operation)
    requires Constraints(s.db) && (Succeeds(cfg, s, op) ==> Fresh(s, op))
    ensures Constraints(Atomic(cfg, s, op).s.db)
  {
    if !Succeeds(cfg, s, op) { FailureLeaves(cfg, s, op); return; }
    match op
    case Revoke(_, _) => RevocationsKeep(cfg, s, op);
    case Blacklist(_) => RevocationsKeep(cfg, s, op);
    case Perform(req, c) =>
      match req
      case Register(_, _, _) => RegisterKeeps(cfg, s, req, c);
      case Login(_, _) => LoginKeeps(cfg, s, req, c);
      case Rotate(_) => RotateKeeps(cfg, s, req, c);
      case ChangePassword(_, _, _) => RevocationsKeep(cfg, s, op);
      case _ => AccountOpsKeep(cfg, s, op);
  }

  // ---- one operation ----

  /** A kept operation does and answers the same with the one account; any other one does not touch it. */
  ghost predicate Projects(cfg: Config, s: Shared, op: Operation, u: Uuid) {
    var e := Atomic(cfg, s, op);
    if Kept(cfg, s, Takes(0, op), u) then
      var e1 := Atomic(cfg, Only(s, u), op);
      e1.answer == e.answer && SameShared(e1.s, Only(e.s, u))
    else SameShared(Only(e.s, u), Only(s, u))
  }

  ghost predicate SameShared(a: Shared, b: Shared) {
    a.db.users == b.db.users && a.db.tokens == b.db.tokens && a.redis == b.redis && a.now == b.now
  }

  /** A row added under a new id is one of `u`'s rows or none of them. */
  lemma AddedRowProjects(s: Shared, rowId: Uuid, row: RefreshToken, u: Uuid)
    requires rowId !in s.db.tokens
    ensures SameShared(Only(WithTokens(s, s.db.tokens[rowId := row]), u),
              if row.userId == u then WithTokens(Only(s, u), Only(s, u).db.tokens[rowId := row]) else Only(s, u))
  {
  }

  /** So is a row that is revoked. */
  lemma RevokedRowProjects(s: Shared, i: Uuid, u: Uuid)
    requires i in s.db.tokens
    ensures var killed := s.db.tokens[i].(isRevoked := true);
      SameShared(Only(WithTokens(s, s.db.tokens[i := killed]), u),
        if killed.userId == u then WithTokens(Only(s, u), Only(s, u).db.tokens[i := killed]) else Only(s, u))
  {
  }

  lemma RegisterProjects(cfg: Config, s: Shared, req: Request, c: Choice, u: Uuid)
    requires Fresh(s, Perform(req, c)) && req.Register?
    ensures Projects(cfg, s, Perform(req, c), u)
  {
    if Succeeds(cfg, s, Perform(req, c)) {
      var user := User(req.email, req.username, cfg.hash(req.password, c.salt), USER, true);
      var row := NewRow(cfg, c.userId, user, c);
      var s1 := s.(db := s.db.(users := s.db.users[c.userId := user]));
      AddedRowProjects(s1, c.rowId, row, u);
      if c.userId == u {
        assert Only(s1, u).db.users == Only(s, u).db.users[u := user];
      } else {
        assert Only(s1, u).db.users == Only(s, u).db.users;
      }
    }
  }

  lemma LoginProjects(cfg: Config, s: Shared, req: Request, c: Choice, u: Uuid)
    requires UniqueEmails(s.db) && Fresh(s, Perform(req, c)) && req.Login?
    ensures Projects(cfg, s, Perform(req, c), u)
  {
    if exists i :: Opens(cfg, s, i, req.email, req.password) {
      var i :| Opens(cfg, s, i, req.email, req.password);
      LoginIs(cfg, s, req.email, req.password, c, i);
      AddedRowProjects(s, c.rowId, NewRow(cfg, i, s.db.users[i], c), u);
      if i == u {
        assert Opens(cfg, Only(s, u), i, req.email, req.password);
        LoginIs(cfg, Only(s, u), req.email, req.password, c, i);
      }
    }
  }

  lemma RotateProjects(cfg: Config, s: Shared, req: Request, c: Choice, u: Uuid)
    requires UniqueTokens(s.db) && Fresh(s, Perform(req, c)) && req.Rotate?
    ensures Projects(cfg, s, Perform(req, c), u)
  {
    if exists i :: Rotatable(cfg, s, i, req.token) {
      var i :| Rotatable(cfg, s, i, req.token);
      FindTokenIs(s.db, i);
      RotateIs(cfg, s, req.token, c, i);
      var owner := s.db.tokens[i].userId;
      RevokedRowProjects(s, i, u);
      AddedRowProjects(WithTokens(s, s.db.tokens[i := s.db.tokens[i].(isRevoked := true)]), c.rowId,
                       NewRow(cfg, owner, s.db.users[owner], c), u);
      if owner == u {
        assert Rotatable(cfg, Only(s, u), i, req.token);
        RotateIs(cfg, Only(s, u), req.token, c, i);
      }
    }
  }

  lemma ChangeProjects(cfg: Config, s: Shared, req: Request, c: Choice, u: Uuid)
    requires req.ChangePassword?
    ensures Projects(cfg, s, Perform(req, c), u)
  {
  }

  lemma UpdateProjects(cfg: Config, s: Shared, req: Request, c: Choice, u: Uuid)
    requires req.UpdateUser?
    ensures Projects(cfg, s, Perform(req, c), u)
  {
  }

  lemma DeleteProjects(cfg: Config, s: Shared, req: Request, c: Choice, u: Uuid)
    requires req.DeleteUser? || req.Authenticate? || req.Logout?
    ensures Projects(cfg, s, Perform(req, c), u)
  {
  }

  lemma RevokeProjects(cfg: Config, s: Shared, op: Operation, u: Uuid)
    requires op.Revoke? || op.Blacklist?
    ensures Projects(cfg, s, op, u)
  {
  }

  lemma {:induction false} OperationProjects(cfg: Config, s: Shared, op: Operation, u: Uuid)
    requires Constraints(s.db) && (Succeeds(cfg, s, op) ==> Fresh(s, op))
    ensures Projects(cfg, s, op, u)
  {
    if !Succeeds(cfg, s, op) { FailureLeaves(cfg, s, op); return; }
    match op
    case Revoke(_, _) => RevokeProjects(cfg, s, op, u);
    case Blacklist(_) => RevokeProjects(cfg, s, op, u);
    case Perform(req, c) =>
      match req
      case Register(_, _, _) => RegisterProjects(cfg, s, req, c, u);
      case Login(_, _) => LoginProjects(cfg, s, req, c, u);
      case Rotate(_) => RotateProjects(cfg, s, req, c, u);
      case ChangePassword(_, _, _) => ChangeProjects(cfg, s, req, c, u);
      case UpdateUser(_, _) => UpdateProjects(cfg, s, req, c, u);
      case _ => DeleteProjects(cfg, s, req, c, u);
  }

  // ---- one bare write ----

  ghost predicate BareProjects(cfg: Config, s: Shared, p: Proc, c: Choice, u: Uuid) {
    var e := WriteEffect(cfg, s, p, c);
    if e.answer.Ok? && BareActorOf(p) == Some(u) then
      var e1 := WriteEffect(cfg, Only(s, u), p, c);
      e1.answer == e.answer && SameShared(e1.s, Only(e.s, u))
    else SameShared(Only(e.s, u), Only(s, u))
  }

  lemma {:induction false} BareLoginProjects(cfg: Config, s: Shared, p: Proc, c: Choice, u: Uuid)
    requires p.LoggingIn?
    ensures BareProjects(cfg, s, p, c, u)
  {
    if WriteEffect(cfg, s, p, c).answer.Ok? {
      AddedRowProjects(s, c.rowId, NewRow(cfg, p.userId, p.user, c), u);
    }
  }

  lemma {:induction false} BareRotationProjects(cfg: Config, s: Shared, p: Proc, c: Choice, u: Uuid)
    requires p.Rotating? && OwnsRow(s, p)
    ensures BareProjects(cfg, s, p, c, u)
  {
    if WriteEffect(cfg, s, p, c).answer.Ok? {
      RevokedRowProjects(s, p.rowId, u);
      AddedRowProjects(WithTokens(s, s.db.tokens[p.rowId := s.db.tokens[p.rowId].(isRevoked := true)]), c.rowId,
                       NewRow(cfg, p.userId, p.user, c), u);
    }
  }

  lemma {:induction false} BareChangeProjects(cfg: Config, s: Shared, p: Proc, c: Choice, u: Uuid)
    requires p.ChangingPassword? || p.LookingUp?
    ensures BareProjects(cfg, s, p, c, u)
  {
  }

  /** A stale login, refresh, password change or lookup of the user does and answers the same with the one
      account; one of another user touches none of the user's rows. */
  lemma {:induction false} BareWriteProjects(cfg: Config, s: Shared, p: Proc, c: Choice, u: Uuid)
    requires OwnsRow(s, p) && (p.LoggingIn? || p.Rotating? || p.ChangingPassword? || p.LookingUp?)
    ensures BareProjects(cfg, s, p, c, u)
  {
    if p.LoggingIn? { BareLoginProjects(cfg, s, p, c, u); }
    else if p.Rotating? { BareRotationProjects(cfg, s, p, c, u); }
    else { BareChangeProjects(cfg, s, p, c, u); }
  }

  // ---- whole histories ----

  /** What a history may contain: operations that draw new ids, if they succeed, and stale writes. */
  ghost predicate Admissible(cfg: Config, s: Shared, e: Entry) {
    && (e.Takes? && Succeeds(cfg, s, e.op) ==> Fresh(s, e.op))
    && (e.Bare? ==> MayBeBare(e.p) && OwnsRow(s, e.p))
  }

  ghost predicate FreshHistory(cfg: Config, s: Shared, entries: seq<Entry>) {
    entries != [] ==>
      && FreshHistory(cfg, s, entries[..|entries| - 1])
      && Admissible(cfg, Replay(cfg, s, entries[..|entries| - 1]).s, entries[|entries| - 1])
  }

  /** What the history keeps of one user: the clock, the blacklist and the user's own successes. */
  ghost function Project(cfg: Config, s: Shared, entries: seq<Entry>, u: Uuid): seq<Entry> {
    if entries == [] then [] else
    var pre, last := entries[..|entries| - 1], entries[|entries| - 1];
    Project(cfg, s, pre, u) + if Kept(cfg, Replay(cfg, s, pre).s, last, u) then [last] else []
  }

  /** The answers of all entries of a history. */
  ghost function AnswersIn(cfg: Config, s: Shared, entries: seq<Entry>): seq<Answer> {
    if entries == [] then [] else
    var pre, last := entries[..|entries| - 1], entries[|entries| - 1];
    AnswersIn(cfg, s, pre) + [EffectOf(cfg, Replay(cfg, s, pre).s, last).answer]
  }

  /** The answers, in the full history, of the entries the projection keeps. */
  ghost function OwnAnswers(cfg: Config, s: Shared, entries: seq<Entry>, u: Uuid): seq<Answer> {
    if entries == [] then [] else
    var pre, last := entries[..|entries| - 1], entries[|entries| - 1];
    var before := Replay(cfg, s, pre).s;
    OwnAnswers(cfg, s, pre, u) + if Kept(cfg, before, last, u) then [EffectOf(cfg, before, last).answer] else []
  }

  lemma {:induction false} HistoryKeepsConstraints(cfg: Config, s: Shared, entries: seq<Entry>)
    requires Constraints(s.db) && FreshHistory(cfg, s, entries)
    ensures Constraints(Replay(cfg, s, entries).s.db)
  {
    if entries != [] {
      var pre, last := entries[..|entries| - 1], entries[|entries| - 1];
      HistoryKeepsConstraints(cfg, s, pre);
      if last.Takes? { AtomicKeepsConstraints(cfg, Replay(cfg, s, pre).s, last.op); }
    }
  }

  lemma FreshWithOne(s: Shared, op: Operation, u: Uuid)
    requires Fresh(s, op)
    ensures Fresh(Only(s, u), op)
  {
  }

  /** One entry: kept, it is admissible with the one account, answers the same and ends in the same rows;
      dropped, it leaves the account's rows alone. */
  lemma {:induction false} EntryProjects(cfg: Config, s: Shared, e: Entry, u: Uuid)
    requires Constraints(s.db) && Admissible(cfg, s, e)
    ensures var full, one := EffectOf(cfg, s, e), EffectOf(cfg, Only(s, u), e);
      if Kept(cfg, s, e, u) then
        Admissible(cfg, Only(s, u), e) && one.answer == full.answer && one.s == Only(full.s, u)
      else Only(full.s, u) == Only(s, u)
  {
    match e
    case Advance(_) =>
    case Takes(_, op) =>
      OperationProjects(cfg, s, op, u);
      if Succeeds(cfg, s, op) { FreshWithOne(s, op, u); }
    case Bare(_, p, c) => BareWriteProjects(cfg, s, p, c, u);
  }

  lemma {:induction false} HistorySnoc(cfg: Config, s: Shared, entries: seq<Entry>, e: Entry)
    requires FreshHistory(cfg, s, entries) && Admissible(cfg, Replay(cfg, s, entries).s, e)
    ensures FreshHistory(cfg, s, entries + [e])
    ensures Replay(cfg, s, entries + [e]) == Extend(cfg, Replay(cfg, s, entries), e)
    ensures AnswersIn(cfg, s, entries + [e]) ==
      AnswersIn(cfg, s, entries) + [EffectOf(cfg, Replay(cfg, s, entries).s, e).answer]
  {
    assert (entries + [e])[..|entries + [e]| - 1] == entries;
  }

  /** Erasing from a history everything but the successes of `u` (and clock and blacklist) leaves a valid
      history in which they all answer as before, and which ends, started with `u`'s account and tokens
      alone, with exactly `u`'s account and tokens. */
  lemma {:induction false} ProjectionIsExact(cfg: Config, s: Shared, entries: seq<Entry>, u: Uuid)
    requires Constraints(s.db) && FreshHistory(cfg, s, entries)
    ensures var projected := Project(cfg, s, entries, u);
      && FreshHistory(cfg, Only(s, u), projected)
      && AnswersIn(cfg, Only(s, u), projected) == OwnAnswers(cfg, s, entries, u)
      && (forall answer :: answer in OwnAnswers(cfg, s, entries, u) ==> answer.Ok?)
      && Replay(cfg, Only(s, u), projected).s == Only(Replay(cfg, s, entries).s, u)
  {
    if entries != [] {
      var pre, last := entries[..|entries| - 1], entries[|entries| - 1];
      ProjectionIsExact(cfg, s, pre, u);
      HistoryKeepsConstraints(cfg, s, pre);
      var before, short := Replay(cfg, s, pre).s, Project(cfg, s, pre, u);
      EntryProjects(cfg, before, last, u);
      if Kept(cfg, before, last, u) {
        HistorySnoc(cfg, Only(s, u), short, last);
      } else {
        assert short + [] == short;
        assert OwnAnswers(cfg, s, pre, u) + [] == OwnAnswers(cfg, s, pre, u);
      }
    }
  }

  // ---- interleaved runs ----

  lemma {:induction false} EntryIsAdmissible(cfg: Config, w: World, ev: Event)
    requires Inv(cfg, w) && Enabled(w, ev) && EntryOf(cfg, w, ev) != []
    ensures EntryOf(cfg, w, ev) == [EntryOf(cfg, w, ev)[0]] && Admissible(cfg, w.s, EntryOf(cfg, w, ev)[0])
  {
    if ev.Begin? { FailedReadAgrees(cfg, w, ev.req, ev.r, NO_CHOICE); }
    if ev.Continue? {
      assert ProcOk(cfg, w, w.procs[ev.rid]);
      DrawnIsFresh(cfg, w, OperationOf(w.procs[ev.rid], ev.c));
    }
  }

  lemma {:induction false} LinearizedIsFresh(cfg: Config, w: World, evs: seq<Event>)
    requires cfg.Valid() && Initial(w) && ValidRun(cfg, w, evs)
    ensures FreshHistory(cfg, w.s, Linearize(cfg, w, evs))
  {
    if evs != [] {
      var pre, ev := evs[..|evs| - 1], evs[|evs| - 1];
      LinearizedIsFresh(cfg, w, pre);
      EveryRunIsSequential(cfg, w, pre);
      ReachableInv(cfg, w, pre);
      var entries, now := Linearize(cfg, w, pre), Exec(cfg, w, pre);
      if EntryOf(cfg, now, ev) == [] {
        assert entries + EntryOf(cfg, now, ev) == entries;
      } else {
        EntryIsAdmissible(cfg, now, ev);
        HistorySnoc(cfg, w.s, entries, EntryOf(cfg, now, ev)[0]);
      }
    }
  }

  lemma DrawnIsFresh(cfg: Config, w: World, op: Operation)
    requires Inv(cfg, w) && (op.Perform? ==> Drawn(op.c) !! w.used)
    ensures Fresh(w.s, op)
  {
    if op.Perform? {
      forall i | i in w.s.db.tokens && w.s.db.tokens[i].token.Signed?
        ensures w.s.db.tokens[i].token.claims.jti != Some(op.c.refreshJti)
      {
        var t := w.s.db.tokens[i].token;
        assert RowOk(w.born, w.s.db.tokens[i]) && BirthOk(w, t) && SignedOk(cfg, w.s.now, w.used, t);
      }
    }
  }

  /** In every interleaved run the account and tokens of `u` at the end are what `u`'s own successes
      produce alone, each answering as it did among the others. */
  lemma {:induction false} RunProjects(cfg: Config, w: World, evs: seq<Event>, u: Uuid)
    requires cfg.Valid() && Initial(w) && ValidRun(cfg, w, evs)
    ensures var history := Linearize(cfg, w, evs); var own := Project(cfg, w.s, history, u);
      && AnswersIn(cfg, Only(w.s, u), own) == OwnAnswers(cfg, w.s, history, u)
      && (forall answer :: answer in OwnAnswers(cfg, w.s, history, u) ==> answer.Ok?)
      && Replay(cfg, Only(w.s, u), own).s == Only(Exec(cfg, w, evs).s, u)
  {
    LinearizedIsFresh(cfg, w, evs);
    ProjectionIsExact(cfg, w.s, Linearize(cfg, w, evs), u);
    EveryRunIsSequential(cfg, w, evs);
  }
}
