/** Split-phase requests against the atomic specification: a request that fails its checks takes effect
    when it reads, any other one when it writes. */
module Linearizability {
  import opened Domain
  import opened Store
  import opened Machine
  import opened Invariants
  import opened AtomicSpec

  /** A read phase that already fails answers as the atomic operation does at that instant. */
  lemma FailedReadAgrees(cfg: Config, w: World, req: Request, r: ReadChoice, c: Choice)
    requires Inv(cfg, w) && r.verifiedAt <= w.s.now
    requires ReadPhase(cfg, w.s, req, r).Done?
    ensures Agrees(Effect(w.s, ReadPhase(cfg, w.s, req, r).answer), Atomic(cfg, w.s, Perform(req, c)))
  {
    match req
    case Register(email, username, _) =>
      if EmailTaken(w.s.db, email) {
        var i :| i in w.s.db.users && w.s.db.users[i].email == email;
        assert RegistrationClash(w.s.db.users[i], email, username);
      } else {
        var i :| i in w.s.db.users && w.s.db.users[i].username == username;
        assert RegistrationClash(w.s.db.users[i], email, username);
      }
    case Login(email, password) =>
      forall i | Opens(cfg, w.s, i, email, password) ensures false { FindUserIs(w.s.db, i); }
    case Rotate(token) =>
      forall i | Rotatable(cfg, w.s, i, token) ensures false { FindTokenIs(w.s.db, i); }
    case _ =>
  }

  /** The atomic operation a process is on its way to perform. */
  function OperationOf(p: Proc, c: Choice): Operation requires !p.Done? {
    match p
    case Registering(email, username, password) => Perform(Register(email, username, password), c)
    case LoggingIn(email, password, _, _, _) => Perform(Login(email, password), c)
    case Rotating(presented, _, _, _, _) => Perform(Rotate(presented), c)
    case LoggingOut(userId, token, _) => Revoke(userId, token)
    case Blacklisting(key) => Blacklist(key)
    case ChangingPassword(userId, current, replacement, _) => Perform(ChangePassword(userId, current, replacement), c)
    case Updating(id, patch) => Perform(UpdateUser(id, patch), c)
    case Deleting(id) => Perform(DeleteUser(id), c)
    case LookingUp(token, _) => Perform(Authenticate(token), c)
  }

  /** What a write does and answers; a logout that still has to reach Redis has nothing to report yet. */
  ghost function WriteEffect(cfg: Config, s: Shared, p: Proc, c: Choice): Effect {
    var o := Act(cfg, s, p, c);
    Effect(o.s, if o.p.Done? then o.p.answer else Ok(Empty))
  }

  /** What the request read still holds when it writes. Nothing is asked of a registration, an update,
      a deletion or a logout. */
  ghost predicate Stable(cfg: Config, s: Shared, p: Proc) {
    match p
    case LoggingIn(email, password, userId, user, _) =>
      && Opens(cfg, s, userId, email, password)
      && s.db.users[userId].role == user.role && s.db.users[userId].username == user.username
    case Rotating(presented, rowId, userId, user, _) =>
      Rotatable(cfg, s, rowId, presented) && s.db.users[s.db.tokens[rowId].userId].role == user.role
    case ChangingPassword(userId, current, _, _) =>
      userId in s.db.users ==> cfg.compare(current, s.db.users[userId].passwordHash)
    case LookingUp(_, claims) => s.now / 1000 < claims.exp || Blacklisted(s, claims.jti)
    case _ => true
  }

  lemma RegistrationAgrees(cfg: Config, w: World, rid: nat, c: Choice)
    requires cfg.Valid() && Inv(cfg, w) && Enabled(w, Continue(rid, c)) && w.procs[rid].Registering?
    ensures Agrees(WriteEffect(cfg, w.s, w.procs[rid], c), Atomic(cfg, w.s, OperationOf(w.procs[rid], c)))
  {
    var p := w.procs[rid];
    FreshToken(cfg, w, c, c.userId, User(p.email, p.username, cfg.hash(p.password, c.salt), USER, true));
  }

  lemma LoginAgrees(cfg: Config, w: World, rid: nat, c: Choice)
    requires cfg.Valid() && Inv(cfg, w) && Enabled(w, Continue(rid, c)) && w.procs[rid].LoggingIn?
    ensures Agrees(WriteEffect(cfg, w.s, w.procs[rid], c), Atomic(cfg, w.s, OperationOf(w.procs[rid], c)))
       <==> Stable(cfg, w.s, w.procs[rid])
  {
    var p := w.procs[rid];
    assert ProcOk(cfg, w, p);
    FreshToken(cfg, w, c, p.userId, p.user);
    forall i | Opens(cfg, w.s, i, p.email, p.password) && p.userId in w.s.db.users ensures i == p.userId {
      FindUserIs(w.s.db, i);
    }
  }

  lemma {:induction false} RotationAgrees(cfg: Config, w: World, rid: nat, c: Choice)
    requires cfg.Valid() && Inv(cfg, w) && Enabled(w, Continue(rid, c)) && w.procs[rid].Rotating?
    ensures Agrees(WriteEffect(cfg, w.s, w.procs[rid], c), Atomic(cfg, w.s, OperationOf(w.procs[rid], c)))
       <==> Stable(cfg, w.s, w.procs[rid])
  {
    var p := w.procs[rid];
    assert ProcOk(cfg, w, p);
    FreshToken(cfg, w, c, p.userId, p.user);
    forall i | Rotatable(cfg, w.s, i, p.presented) ensures i == p.rowId {}
  }

  lemma LookupAgrees(cfg: Config, w: World, rid: nat, c: Choice)
    requires cfg.Valid() && Inv(cfg, w) && Enabled(w, Continue(rid, c))
    requires w.procs[rid].LookingUp?
    ensures Agrees(WriteEffect(cfg, w.s, w.procs[rid], c), Atomic(cfg, w.s, OperationOf(w.procs[rid], c)))
       <==> Stable(cfg, w.s, w.procs[rid])
  {
    assert ProcOk(cfg, w, w.procs[rid]);
  }

  lemma PasswordChangeAgrees(cfg: Config, s: Shared, p: Proc, c: Choice)
    requires p.ChangingPassword?
    ensures Agrees(WriteEffect(cfg, s, p, c), Atomic(cfg, s, OperationOf(p, c))) <==> Stable(cfg, s, p)
  {
    if p.userId in s.db.users {
      var db := SetPasswordHash(s.db, p.userId, cfg.hash(p.replacement, c.salt)).value;
      RevokeManyKills(db, p.userId);
      assert Owned(db, p.userId) == Owned(s.db, p.userId);
    }
  }

  lemma LogoutAgrees(cfg: Config, s: Shared, p: Proc, c: Choice)
    requires p.LoggingOut? || p.Blacklisting?
    ensures Agrees(WriteEffect(cfg, s, p, c), Atomic(cfg, s, OperationOf(p, c)))
  {
    if p.LoggingOut? { RevokeManyKills(s.db, p.userId); }
  }

  lemma UpdateAgrees(cfg: Config, s: Shared, p: Proc, c: Choice)
    requires p.Updating?
    ensures Agrees(WriteEffect(cfg, s, p, c), Atomic(cfg, s, OperationOf(p, c)))
  {
    if p.patch.username.Some? && UsernameHeldByOther(s.db, p.id, p.patch.username.value) {
      var i :| i in s.db.users && i != p.id && s.db.users[i].username == p.patch.username.value;
      assert p.patch.username == Some(s.db.users[i].username);
    }
  }

  lemma DeletionAgrees(cfg: Config, s: Shared, p: Proc, c: Choice)
    requires p.Deleting?
    ensures Agrees(WriteEffect(cfg, s, p, c), Atomic(cfg, s, OperationOf(p, c)))
  {
    assert s.db.users - {p.id} == map i | i in s.db.users && i != p.id :: s.db.users[i];
  }

  /** A write agrees with the atomic operation at that instant exactly when what it read still holds;
      for a registration, an update, a deletion or a logout that is always so. */
  lemma {:induction false} WriteAgreesIffStable(cfg: Config, w: World, rid: nat, c: Choice)
    requires cfg.Valid() && Inv(cfg, w) && Enabled(w, Continue(rid, c))
    ensures Agrees(WriteEffect(cfg, w.s, w.procs[rid], c), Atomic(cfg, w.s, OperationOf(w.procs[rid], c)))
       <==> Stable(cfg, w.s, w.procs[rid])
  {
    match w.procs[rid]
    case Registering(_, _, _) => RegistrationAgrees(cfg, w, rid, c);
    case LoggingIn(_, _, _, _, _) => LoginAgrees(cfg, w, rid, c);
    case Rotating(_, _, _, _, _) => RotationAgrees(cfg, w, rid, c);
    case ChangingPassword(_, _, _, _) => PasswordChangeAgrees(cfg, w.s, w.procs[rid], c);
    case LookingUp(_, _) => LookupAgrees(cfg, w, rid, c);
    case Updating(_, _) => UpdateAgrees(cfg, w.s, w.procs[rid], c);
    case Deleting(_) => DeletionAgrees(cfg, w.s, w.procs[rid], c);
    case LoggingOut(_, _, _) => LogoutAgrees(cfg, w.s, w.procs[rid], c);
    case Blacklisting(_) => LogoutAgrees(cfg, w.s, w.procs[rid], c);
  }

  /** A request that passes its checks finds them still true at that instant, and a registration then has
      no clash. */
  lemma {:induction false} PassedReadIsStable(cfg: Config, w: World, req: Request, r: ReadChoice, c: Choice)
    requires Inv(cfg, w) && r.verifiedAt == w.s.now && !ReadPhase(cfg, w.s, req, r).Done?
    ensures Stable(cfg, w.s, ReadPhase(cfg, w.s, req, r))
    ensures req.Register? ==> Atomic(cfg, w.s, Perform(req, c)).answer.Ok?
  {
    if req.Login? {
      assert EmailTaken(w.s.db, req.email);
    }
    if req.Register? {
      assert forall i :: i in w.s.db.users ==> !RegistrationClash(w.s.db.users[i], req.email, req.username);
    }
  }

  /** The rows a waiting request read are as they were, and a token it presented has not expired. */
  ghost predicate Unchanged(s: Shared, p: Proc) {
    match p
    case LoggingIn(_, _, userId, user, _) => userId in s.db.users && s.db.users[userId] == user
    case Rotating(presented, rowId, userId, user, _) =>
      && userId in s.db.users && s.db.users[userId] == user && Live(s.db, rowId)
      && presented.Signed? && s.now / 1000 < presented.claims.exp
    case ChangingPassword(userId, _, _, read) => userId in s.db.users ==> s.db.users[userId].passwordHash == read
    case LookingUp(_, claims) => s.now / 1000 < claims.exp
    case _ => true
  }

  /** In particular a login agrees when the account is as it was read, a refresh when account and row are
      and the presented token has not expired since, and a password change when the password is. */
  lemma UnchangedIsStable(cfg: Config, w: World, rid: nat)
    requires Inv(cfg, w) && rid in w.procs && Unchanged(w.s, w.procs[rid])
    ensures Stable(cfg, w.s, w.procs[rid])
  {
    var p := w.procs[rid];
    assert ProcOk(cfg, w, p);
    if p.Rotating? {
      assert BirthOk(w, p.presented) && SignedOk(cfg, w.s.now, w.used, p.presented);
      assert RowOk(w.born, w.s.db.tokens[p.rowId]);
    }
  }

  // ---- whole runs ----

  /** One entry of the sequential history: the clock moves, request `rid` performs its atomic operation,
      or, if what it read no longer holds, its bare write. */
  datatype Entry = Advance(ms: nat) | Takes(rid: nat, op: Operation) | Bare(rid: nat, p: Proc, c: Choice)

  datatype Serial = Serial(s: Shared, answers: map<nat, Answer>)

  ghost function EffectOf(cfg: Config, s: Shared, entry: Entry): Effect {
    match entry
    case Advance(ms) => Effect(s.(now := s.now + ms), Ok(Empty))
    case Takes(_, op) => Atomic(cfg, s, op)
    case Bare(_, p, c) => WriteEffect(cfg, s, p, c)
  }

  ghost function Extend(cfg: Config, before: Serial, entry: Entry): Serial {
    var e := EffectOf(cfg, before.s, entry);
    Serial(e.s, if entry.Advance? then before.answers else before.answers[entry.rid := e.answer])
  }

  /** The sequential history replayed, one entry after another. */
  ghost function Replay(cfg: Config, s: Shared, entries: seq<Entry>): Serial {
    if entries == [] then Serial(s, map[])
    else Extend(cfg, Replay(cfg, s, entries[..|entries| - 1]), entries[|entries| - 1])
  }

  const NO_CHOICE := Choice(0, 0, 0, 0, 0, 0, 0)

  /** The entry an event contributes: a failing read, or a write, is where its request takes effect. */
  ghost function EntryOf(cfg: Config, w: World, ev: Event): seq<Entry> {
    match ev
    case Tick(ms) => [Advance(ms)]
    case Begin(rid, req, r) => if ReadPhase(cfg, w.s, req, r).Done? then [Takes(rid, Perform(req, NO_CHOICE))] else []
    case Continue(rid, c) =>
      if rid !in w.procs || w.procs[rid].Done? then []
      else if Stable(cfg, w.s, w.procs[rid]) then [Takes(rid, OperationOf(w.procs[rid], c))]
      else [Bare(rid, w.procs[rid], c)]
  }

  ghost function Linearize(cfg: Config, w: World, evs: seq<Event>): seq<Entry> {
    if evs == [] then [] else
    var pre := evs[..|evs| - 1];
    Linearize(cfg, w, pre) + EntryOf(cfg, Exec(cfg, w, pre), evs[|evs| - 1])
  }

  /** The replayed state is the state of the machine, and every finished request got the answer the
      sequential history gives it. */
  ghost predicate Matches(w: World, serial: Serial) {
    && serial.s == w.s
    && forall rid :: rid in w.procs && w.procs[rid].Done? ==>
         rid in serial.answers && SameAnswer(w.procs[rid].answer, serial.answers[rid])
  }

  lemma ReplayOne(cfg: Config, s: Shared, entries: seq<Entry>, e: Entry)
    ensures Replay(cfg, s, entries + [e]) == Extend(cfg, Replay(cfg, s, entries), e)
  {
    assert (entries + [e])[..|entries + [e]| - 1] == entries;
  }

  /** Request `rid` finishing, or writing, matches one more entry that has the same effect. */
  lemma EntryMatches(cfg: Config, s0: Shared, w: World, entries: seq<Entry>, rid: nat, e: Effect, w': World,
                     entry: Entry)
    requires Matches(w, Replay(cfg, s0, entries))
    requires Extend(cfg, Replay(cfg, s0, entries), entry) ==
      Serial(w'.s, Replay(cfg, s0, entries).answers[rid := e.answer])
    requires w'.procs.Keys == w.procs.Keys + {rid}
    requires forall x :: x in w.procs && x != rid ==> w'.procs[x] == w.procs[x]
    requires w'.procs[rid].Done? ==> SameAnswer(w'.procs[rid].answer, e.answer)
    ensures Matches(w', Replay(cfg, s0, entries + [entry]))
  {
    ReplayOne(cfg, s0, entries, entry);
  }

  lemma BeginMatches(cfg: Config, s0: Shared, w: World, entries: seq<Entry>, rid: nat, req: Request, r: ReadChoice)
    requires Inv(cfg, w) && Enabled(w, Begin(rid, req, r))
    requires Matches(w, Replay(cfg, s0, entries))
    ensures Matches(Step(cfg, w, Begin(rid, req, r)), Replay(cfg, s0, entries + EntryOf(cfg, w, Begin(rid, req, r))))
  {
    var w' := Step(cfg, w, Begin(rid, req, r));
    if ReadPhase(cfg, w.s, req, r).Done? {
      FailedReadAgrees(cfg, w, req, r, NO_CHOICE);
      var op := Perform(req, NO_CHOICE);
      EntryMatches(cfg, s0, w, entries, rid, Atomic(cfg, w.s, op), w', Takes(rid, op));
    } else {
      assert entries + [] == entries;
    }
  }

  lemma {:induction false} ContinueMatches(cfg: Config, s0: Shared, w: World, entries: seq<Entry>, rid: nat, c: Choice)
    requires cfg.Valid() && Inv(cfg, w) && Enabled(w, Continue(rid, c))
    requires Matches(w, Replay(cfg, s0, entries))
    ensures Matches(Step(cfg, w, Continue(rid, c)), Replay(cfg, s0, entries + EntryOf(cfg, w, Continue(rid, c))))
  {
    var w', p := Step(cfg, w, Continue(rid, c)), w.procs[rid];
    WriteAgreesIffStable(cfg, w, rid, c);
    if Stable(cfg, w.s, p) {
      EntryMatches(cfg, s0, w, entries, rid, Atomic(cfg, w.s, OperationOf(p, c)), w', Takes(rid, OperationOf(p, c)));
    } else {
      EntryMatches(cfg, s0, w, entries, rid, WriteEffect(cfg, w.s, p, c), w', Bare(rid, p, c));
    }
  }

  lemma {:induction false} StepMatches(cfg: Config, s0: Shared, w: World, entries: seq<Entry>, ev: Event)
    requires cfg.Valid() && Inv(cfg, w) && Enabled(w, ev)
    requires Matches(w, Replay(cfg, s0, entries))
    ensures Matches(Step(cfg, w, ev), Replay(cfg, s0, entries + EntryOf(cfg, w, ev)))
  {
    match ev
    case Tick(ms) => ReplayOne(cfg, s0, entries, Advance(ms));
    case Begin(rid, req, r) => BeginMatches(cfg, s0, w, entries, rid, req, r);
    case Continue(rid, c) => ContinueMatches(cfg, s0, w, entries, rid, c);
  }

  /** The request a process serves; a finished process no longer says. */
  ghost predicate Serves(p: Proc, req: Request) {
    match p
    case Registering(email, username, password) => req == Register(email, username, password)
    case LoggingIn(email, password, _, _, _) => req == Login(email, password)
    case Rotating(presented, _, _, _, _) => req == Rotate(presented)
    case LoggingOut(userId, token, jti) => req == Logout(userId, token, jti)
    case Blacklisting(key) => req.Logout? && req.jti == Some(key)
    case ChangingPassword(userId, current, replacement, _) => req == ChangePassword(userId, current, replacement)
    case Updating(id, patch) => req == UpdateUser(id, patch)
    case Deleting(id) => req == DeleteUser(id)
    case LookingUp(token, _) => req == Authenticate(token)
    case Done(_) => true
  }

  /** Request `rid` of the run is `req`. */
  ghost predicate Asked(evs: seq<Event>, rid: nat, req: Request) {
    exists k :: 0 <= k < |evs| && evs[k].Begin? && evs[k].rid == rid && evs[k].req == req
  }

  /** The entry performs, for its request, what that request asked for. */
  ghost predicate Honours(evs: seq<Event>, entry: Entry) {
    match entry
    case Advance(_) => true
    case Takes(rid, op) =>
      (match op
       case Perform(req, _) => !req.Logout? && Asked(evs, rid, req)
       case Revoke(userId, token) => exists jti :: Asked(evs, rid, Logout(userId, token, jti))
       case Blacklist(key) => exists userId, token :: Asked(evs, rid, Logout(userId, token, Some(key))))
    case Bare(rid, p, _) => exists req :: Asked(evs, rid, req) && Serves(p, req)
  }

  lemma AskedLater(evs: seq<Event>, rid: nat, req: Request)
    requires evs != [] && Asked(evs[..|evs| - 1], rid, req)
    ensures Asked(evs, rid, req)
  {
    var k :| 0 <= k < |evs| - 1 && evs[..|evs| - 1][k].Begin? && evs[..|evs| - 1][k].rid == rid
             && evs[..|evs| - 1][k].req == req;
    assert evs[k] == evs[..|evs| - 1][k];
  }

  lemma HonoursLater(evs: seq<Event>, entry: Entry)
    requires evs != [] && Honours(evs[..|evs| - 1], entry)
    ensures Honours(evs, entry)
  {
    var pre := evs[..|evs| - 1];
    match entry
    case Advance(_) =>
    case Takes(rid, Perform(req, _)) => AskedLater(evs, rid, req);
    case Takes(rid, Revoke(userId, token)) =>
      var jti :| Asked(pre, rid, Logout(userId, token, jti));
      AskedLater(evs, rid, Logout(userId, token, jti));
    case Takes(rid, Blacklist(key)) =>
      var userId, token :| Asked(pre, rid, Logout(userId, token, Some(key)));
      AskedLater(evs, rid, Logout(userId, token, Some(key)));
    case Bare(rid, p, _) =>
      var req :| Asked(pre, rid, req) && Serves(p, req);
      AskedLater(evs, rid, req);
  }

  /** Every process of a run serves a request that began in it. */
  lemma {:induction false} ProcsWereAsked(cfg: Config, w: World, evs: seq<Event>, rid: nat) returns (req: Request)
    requires ValidRun(cfg, w, evs) && w.procs == map[] && rid in Exec(cfg, w, evs).procs
    ensures Asked(evs, rid, req) && Serves(Exec(cfg, w, evs).procs[rid], req)
  {
    var pre, ev := evs[..|evs| - 1], evs[|evs| - 1];
    if ev.Begin? && ev.rid == rid {
      req := ev.req;
    } else {
      req := ProcsWereAsked(cfg, w, pre, rid);
      AskedLater(evs, rid, req);
      var now := Exec(cfg, w, pre);
      if ev.Continue? && ev.rid == rid { ActServes(cfg, now.s, now.procs[rid], ev.c, req); }
    }
  }

  lemma ActServes(cfg: Config, s: Shared, p: Proc, c: Choice, req: Request)
    requires !p.Done? && Serves(p, req)
    ensures Serves(Act(cfg, s, p, c).p, req)
  {
    ActMints(cfg, s, p, c);
  }

  lemma EntryHonours(cfg: Config, w: World, evs: seq<Event>)
    requires ValidRun(cfg, w, evs) && w.procs == map[] && evs != []
    ensures var added := EntryOf(cfg, Exec(cfg, w, evs[..|evs| - 1]), evs[|evs| - 1]);
      added == [] || (|added| == 1 && Honours(evs, added[0]))
  {
    var pre, ev := evs[..|evs| - 1], evs[|evs| - 1];
    var now := Exec(cfg, w, pre);
    if ev.Begin? { assert Asked(evs, ev.rid, ev.req); }
    if ev.Continue? {
      var req := ProcsWereAsked(cfg, w, pre, ev.rid);
      AskedLater(evs, ev.rid, req);
      if now.procs[ev.rid].Blacklisting? { assert req == Logout(req.userId, req.token, Some(req.jti.value)); }
    }
  }

  /** Every entry of the history performs what its own request asked for. */
  lemma {:induction false} EntriesHonourRequests(cfg: Config, w: World, evs: seq<Event>)
    requires ValidRun(cfg, w, evs) && w.procs == map[]
    ensures forall k :: 0 <= k < |Linearize(cfg, w, evs)| ==> Honours(evs, Linearize(cfg, w, evs)[k])
  {
    if evs != [] {
      var pre := evs[..|evs| - 1];
      EntriesHonourRequests(cfg, w, pre);
      EntryHonours(cfg, w, evs);
      var entries, added := Linearize(cfg, w, pre), EntryOf(cfg, Exec(cfg, w, pre), evs[|evs| - 1]);
      forall k | 0 <= k < |entries + added| ensures Honours(evs, (entries + added)[k]) {
        if k < |entries| {
          HonoursLater(evs, entries[k]);
          assert (entries + added)[k] == entries[k];
        } else {
          assert (entries + added)[k] == added[0];
        }
      }
    }
  }

  /** Only a login, refresh, password change or token lookup can appear as a bare write. */
  ghost predicate MayBeBare(p: Proc) { p.LoggingIn? || p.Rotating? || p.ChangingPassword? || p.LookingUp? }

  /** A bare write of the history comes from such a request, and what it read no longer holds at its place. */
  ghost predicate BareOnlyIfStale(cfg: Config, s: Shared, entries: seq<Entry>, k: nat) requires k < |entries| {
    entries[k].Bare? ==> MayBeBare(entries[k].p) && !Stable(cfg, Replay(cfg, s, entries[..k]).s, entries[k].p)
  }

  lemma {:induction false} RunMatches(cfg: Config, w: World, evs: seq<Event>)
    requires cfg.Valid() && Initial(w) && ValidRun(cfg, w, evs)
    ensures Matches(Exec(cfg, w, evs), Replay(cfg, w.s, Linearize(cfg, w, evs)))
  {
    if evs != [] {
      var pre := evs[..|evs| - 1];
      RunMatches(cfg, w, pre);
      ReachableInv(cfg, w, pre);
      StepMatches(cfg, w.s, Exec(cfg, w, pre), Linearize(cfg, w, pre), evs[|evs| - 1]);
    }
  }

  lemma {:induction false} BareEntriesAreStale(cfg: Config, w: World, evs: seq<Event>)
    requires cfg.Valid() && Initial(w) && ValidRun(cfg, w, evs)
    ensures forall k :: 0 <= k < |Linearize(cfg, w, evs)| ==> BareOnlyIfStale(cfg, w.s, Linearize(cfg, w, evs), k)
  {
    if evs != [] {
      var pre, ev := evs[..|evs| - 1], evs[|evs| - 1];
      BareEntriesAreStale(cfg, w, pre);
      RunMatches(cfg, w, pre);
      var entries, added := Linearize(cfg, w, pre), EntryOf(cfg, Exec(cfg, w, pre), ev);
      forall k | 0 <= k < |entries + added| ensures BareOnlyIfStale(cfg, w.s, entries + added, k) {
        if k < |entries| {
          assert BareOnlyIfStale(cfg, w.s, entries, k);
          assert (entries + added)[..k] == entries[..k];
        } else {
          assert (entries + added)[..k] == entries;
        }
      }
    }
  }

  /** Every interleaved run ends in the state, and with the answers, of a sequential history in which
      each registration, update, deletion, logout, failed read, and every other request that still finds
      what it read, is performed atomically at one instant. */
  lemma {:induction false} EveryRunIsSequential(cfg: Config, w: World, evs: seq<Event>)
    requires cfg.Valid() && Initial(w) && ValidRun(cfg, w, evs)
    ensures Matches(Exec(cfg, w, evs), Replay(cfg, w.s, Linearize(cfg, w, evs)))
    ensures forall k :: 0 <= k < |Linearize(cfg, w, evs)| ==> BareOnlyIfStale(cfg, w.s, Linearize(cfg, w, evs), k)
    ensures forall k :: 0 <= k < |Linearize(cfg, w, evs)| ==> Honours(evs, Linearize(cfg, w, evs)[k])
  {
    RunMatches(cfg, w, evs);
    EntriesHonourRequests(cfg, w, evs);
    BareEntriesAreStale(cfg, w, evs);
  }

  /** Every write of the run finds what its request read. */
  ghost predicate StableRun(cfg: Config, w: World, evs: seq<Event>) {
    evs != [] ==>
      var pre := evs[..|evs| - 1];
      && StableRun(cfg, w, pre)
      && StableEvent(cfg, Exec(cfg, w, pre), evs[|evs| - 1])
  }

  ghost predicate StableEvent(cfg: Config, w: World, ev: Event) {
    ev.Continue? && ev.rid in w.procs ==> Stable(cfg, w.s, w.procs[ev.rid])
  }

  /** A run in which every write finds the rows it read unchanged is stable. */
  ghost predicate UnchangedRun(cfg: Config, w: World, evs: seq<Event>) {
    evs != [] ==>
      var pre, ev := evs[..|evs| - 1], evs[|evs| - 1];
      && UnchangedRun(cfg, w, pre)
      && (ev.Continue? && ev.rid in Exec(cfg, w, pre).procs ==>
            Unchanged(Exec(cfg, w, pre).s, Exec(cfg, w, pre).procs[ev.rid]))
  }

  lemma {:induction false} UnchangedRunIsStable(cfg: Config, w: World, evs: seq<Event>)
    requires cfg.Valid() && Initial(w) && ValidRun(cfg, w, evs) && UnchangedRun(cfg, w, evs)
    ensures StableRun(cfg, w, evs)
  {
    if evs != [] {
      var pre, ev := evs[..|evs| - 1], evs[|evs| - 1];
      UnchangedRunIsStable(cfg, w, pre);
      ReachableInv(cfg, w, pre);
      if ev.Continue? { UnchangedIsStable(cfg, Exec(cfg, w, pre), ev.rid); }
    }
  }

  /** Linearizability: a run whose writes find what they read is its requests performed one after another
      by the atomic specification alone. */
  lemma {:induction false} Linearizable(cfg: Config, w: World, evs: seq<Event>)
    requires cfg.Valid() && Initial(w) && ValidRun(cfg, w, evs) && StableRun(cfg, w, evs)
    ensures Matches(Exec(cfg, w, evs), Replay(cfg, w.s, Linearize(cfg, w, evs)))
    ensures forall k :: 0 <= k < |Linearize(cfg, w, evs)| ==> !Linearize(cfg, w, evs)[k].Bare?
    ensures forall k :: 0 <= k < |Linearize(cfg, w, evs)| ==> Honours(evs, Linearize(cfg, w, evs)[k])
  {
    EveryRunIsSequential(cfg, w, evs);
    if evs != [] { Linearizable(cfg, w, evs[..|evs| - 1]); }
  }

  predicate AccountRequest(req: Request) { req.Register? || req.UpdateUser? || req.DeleteUser? || req.Logout? }

  predicate AccountProc(p: Proc) {
    p.Registering? || p.Updating? || p.Deleting? || p.LoggingOut? || p.Blacklisting? || p.Done?
  }

  /** Registrations, updates, deletions and logouts are linearizable under every interleaving. */
  lemma {:induction false} AccountRunsAreLinearizable(cfg: Config, w: World, evs: seq<Event>)
    requires cfg.Valid() && Initial(w) && ValidRun(cfg, w, evs)
    requires forall k :: 0 <= k < |evs| && evs[k].Begin? ==> AccountRequest(evs[k].req)
    ensures forall rid :: rid in Exec(cfg, w, evs).procs ==> AccountProc(Exec(cfg, w, evs).procs[rid])
    ensures StableRun(cfg, w, evs)
    ensures Matches(Exec(cfg, w, evs), Replay(cfg, w.s, Linearize(cfg, w, evs)))
    ensures forall k :: 0 <= k < |Linearize(cfg, w, evs)| ==> !Linearize(cfg, w, evs)[k].Bare?
    ensures forall k :: 0 <= k < |Linearize(cfg, w, evs)| ==> Honours(evs, Linearize(cfg, w, evs)[k])
  {
    if evs != [] {
      var pre, ev := evs[..|evs| - 1], evs[|evs| - 1];
      AccountRunsAreLinearizable(cfg, w, pre);
      var now := Exec(cfg, w, pre);
      if ev.Continue? { ActMints(cfg, now.s, now.procs[ev.rid], ev.c); }
    }
    Linearizable(cfg, w, evs);
  }

  // ---- the order respects real time ----

  ghost predicate Concerns(entries: seq<Entry>, rid: nat) {
    exists k :: 0 <= k < |entries| && !entries[k].Advance? && entries[k].rid == rid
  }

  lemma {:induction false} LinearizeConcat(cfg: Config, w: World, a: seq<Event>, b: seq<Event>)
    ensures Linearize(cfg, w, a + b) == Linearize(cfg, w, a) + Linearize(cfg, Exec(cfg, w, a), b)
    decreases |b|
  {
    if b == [] {
      assert a + b == a;
    } else {
      var b0 := b[..|b| - 1];
      assert (a + b)[..|a + b| - 1] == a + b0;
      LinearizeConcat(cfg, w, a, b0);
      ExecConcat(cfg, w, a, b0);
    }
  }

  /** A finished request takes no further effect and keeps its answer. */
  lemma {:induction false} FinishedIsQuiet(cfg: Config, w: World, evs: seq<Event>, rid: nat)
    requires ValidRun(cfg, w, evs) && rid in w.procs && w.procs[rid].Done?
    ensures !Concerns(Linearize(cfg, w, evs), rid)
    ensures rid in Exec(cfg, w, evs).procs && Exec(cfg, w, evs).procs[rid] == w.procs[rid]
  {
    if evs != [] {
      FinishedIsQuiet(cfg, w, evs[..|evs| - 1], rid);
    }
  }

  /** A request that has not begun has taken no effect; one that has finished has taken effect. */
  lemma {:induction false} EffectAfterBegin(cfg: Config, w: World, evs: seq<Event>, rid: nat)
    requires ValidRun(cfg, w, evs) && rid !in w.procs
    ensures rid !in Exec(cfg, w, evs).procs ==> !Concerns(Linearize(cfg, w, evs), rid)
    ensures rid in Exec(cfg, w, evs).procs && Exec(cfg, w, evs).procs[rid].Done? ==>
              Concerns(Linearize(cfg, w, evs), rid)
  {
    if evs != [] {
      var pre := evs[..|evs| - 1];
      EffectAfterBegin(cfg, w, pre, rid);
      EntryConcerns(cfg, Exec(cfg, w, pre), evs[|evs| - 1], rid);
      ConcernsConcat(Linearize(cfg, w, pre), EntryOf(cfg, Exec(cfg, w, pre), evs[|evs| - 1]), rid);
    }
  }

  lemma ConcernsConcat(a: seq<Entry>, b: seq<Entry>, rid: nat)
    ensures Concerns(a + b, rid) <==> Concerns(a, rid) || Concerns(b, rid)
  {
    if Concerns(a, rid) {
      var k :| 0 <= k < |a| && !a[k].Advance? && a[k].rid == rid;
      assert (a + b)[k] == a[k];
    }
    if Concerns(b, rid) {
      var k :| 0 <= k < |b| && !b[k].Advance? && b[k].rid == rid;
      assert (a + b)[|a| + k] == b[k];
    }
  }

  predicate FinishedIn(w: World, rid: nat) { rid in w.procs && w.procs[rid].Done? }

  /** An event contributes an entry for its own request only, and for one that it finishes. */
  lemma EntryConcerns(cfg: Config, w: World, ev: Event, rid: nat)
    requires Enabled(w, ev)
    ensures Concerns(EntryOf(cfg, w, ev), rid) ==> !ev.Tick? && ev.rid == rid
    ensures FinishedIn(Step(cfg, w, ev), rid) && !FinishedIn(w, rid) ==> Concerns(EntryOf(cfg, w, ev), rid)
  {
    if EntryOf(cfg, w, ev) != [] { assert EntryOf(cfg, w, ev)[0] in EntryOf(cfg, w, ev); }
  }

  /** If one request finishes before another begins, the history has every effect of the first before
      any of the second: the run splits after `a`, and so does its history. */
  lemma RealTimeOrder(cfg: Config, w: World, a: seq<Event>, b: seq<Event>, first: nat, second: nat)
    requires Initial(w) && ValidRun(cfg, w, a + b)
    requires first in Exec(cfg, w, a).procs && Exec(cfg, w, a).procs[first].Done?
    requires second !in Exec(cfg, w, a).procs
    ensures Linearize(cfg, w, a + b) == Linearize(cfg, w, a) + Linearize(cfg, Exec(cfg, w, a), b)
    ensures Concerns(Linearize(cfg, w, a), first) && !Concerns(Linearize(cfg, w, a), second)
    ensures !Concerns(Linearize(cfg, Exec(cfg, w, a), b), first)
  {
    ExecConcat(cfg, w, a, b);
    LinearizeConcat(cfg, w, a, b);
    EffectAfterBegin(cfg, w, a, first);
    EffectAfterBegin(cfg, w, a, second);
    FinishedIsQuiet(cfg, Exec(cfg, w, a), b, first);
  }

  /** No entry repeats: a request has one entry, except that a logout has its revocation first and its
      blacklist entry later. */
  ghost predicate OncePerRequest(entries: seq<Entry>) {
    forall j, k :: 0 <= j < k < |entries| && SameRequest(entries[j], entries[k]) ==>
      entries[j].Takes? && entries[j].op.Revoke? && entries[k].Takes? && entries[k].op.Blacklist?
  }

  ghost predicate SameRequest(a: Entry, b: Entry) { !a.Advance? && !b.Advance? && a.rid == b.rid }

  /** A request with an entry has finished, or is a logout still to reach Redis. */
  ghost predicate Settled(e: Entry, procs: map<nat, Proc>) {
    e.Advance? || (e.rid in procs && (procs[e.rid].Done? || (procs[e.rid].Blacklisting? && e.Takes? && e.op.Revoke?)))
  }

  lemma {:induction false} EffectOnce(cfg: Config, w: World, evs: seq<Event>)
    requires Initial(w) && ValidRun(cfg, w, evs)
    ensures OncePerRequest(Linearize(cfg, w, evs))
    ensures forall k :: 0 <= k < |Linearize(cfg, w, evs)| ==>
              Settled(Linearize(cfg, w, evs)[k], Exec(cfg, w, evs).procs)
  {
    if evs != [] {
      var pre, ev := evs[..|evs| - 1], evs[|evs| - 1];
      EffectOnce(cfg, w, pre);
      var now, entries := Exec(cfg, w, pre), Linearize(cfg, w, pre);
      forall k | 0 <= k < |entries| ensures Settled(entries[k], Exec(cfg, w, evs).procs) {
        SettledStays(cfg, now, ev, entries[k]);
      }
      var added := EntryOf(cfg, now, ev);
      if added != [] {
        NewEntry(cfg, now, ev);
        forall k | 0 <= k < |entries| && SameRequest(entries[k], added[0])
          ensures entries[k].Takes? && entries[k].op.Revoke? && added[0].Takes? && added[0].op.Blacklist?
        {
          assert Settled(entries[k], now.procs);
        }
      }
    }
  }

  lemma SettledStays(cfg: Config, w: World, ev: Event, e: Entry)
    requires Enabled(w, ev) && Settled(e, w.procs)
    ensures Settled(e, Step(cfg, w, ev).procs)
  {
  }

  lemma NewEntry(cfg: Config, w: World, ev: Event)
    requires Enabled(w, ev) && EntryOf(cfg, w, ev) != []
    ensures var e := EntryOf(cfg, w, ev)[0];
      && EntryOf(cfg, w, ev) == [e] && Settled(e, Step(cfg, w, ev).procs)
      && (!e.Advance? && e.rid in w.procs ==> !w.procs[e.rid].Done?)
      && (!e.Advance? && e.rid in w.procs && w.procs[e.rid].Blacklisting? ==> e.Takes? && e.op.Blacklist?)
  {
    if ev.Continue? { ActMints(cfg, w.s, w.procs[ev.rid], ev.c); }
  }
}
