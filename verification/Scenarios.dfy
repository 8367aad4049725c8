/** Concrete runs from an empty database in which the promises the code does not keep are broken. */
module Scenarios {
  import opened Domain
  import opened Store
  import opened Machine
  import opened Invariants
  import opened History
  import opened Rotation
  import opened AccessTokens
  import opened PasswordChange
  import opened SessionEnd

  const START := World(Shared(Db(map[], map[]), map[], 0), map[], {}, {}, map[])

  const ASK := ReadChoice(0, 0)

  /** The first registration, its account and its two tokens, at time 0. */
  datatype Person = Person(email: string, username: string, password: string)

  function Ids(n: nat): Choice { Choice(n, n + 1, n + 2, n + 3, 0, 0, 0) }

  function AccountOf(cfg: Config, who: Person): User {
    User(who.email, who.username, cfg.hash(who.password, 0), USER, true)
  }

  function AccessOf(cfg: Config, who: Person): Token { NewAccess(cfg, 0, AccountOf(cfg, who), Ids(0)) }

  function RowOf(cfg: Config, who: Person): RefreshToken { NewRow(cfg, 0, AccountOf(cfg, who), Ids(0)) }

  function Registration(who: Person): seq<Event> {
    [Begin(0, Register(who.email, who.username, who.password), ASK), Continue(0, Ids(0))]
  }

  /** Lifetimes of at least a second. */
  ghost predicate Lasting(cfg: Config) { cfg.Valid() && cfg.accessTtl >= 1 && cfg.refreshTtl >= 1 }

  lemma {:induction false} RegistrationWorks(cfg: Config, who: Person)
    requires Lasting(cfg)
    ensures Initial(START) && ValidRun(cfg, START, Registration(who))
    ensures var w := Exec(cfg, START, Registration(who));
      AsRegistered(cfg, who, w) && w.procs.Keys == {0} && AccessOf(cfg, who) in w.signed
  {
    var begin := Begin(0, Register(who.email, who.username, who.password), ASK);
    RunSnoc(cfg, START, [], begin);
    RunSnoc(cfg, START, [begin], Continue(0, Ids(0)));
    assert [] + [begin] == [begin] && [begin] + [Continue(0, Ids(0))] == Registration(who);
    ReachableInv(cfg, START, Registration(who));
  }

  lemma {:induction false} RefreshReads(cfg: Config, who: Person, w: World, rid: nat)
    requires Lasting(cfg) && Inv(cfg, w) && w.s.now == 0
    requires w.s.db == Db(map[0 := AccountOf(cfg, who)], map[1 := RowOf(cfg, who)])
    ensures ReadPhase(cfg, w.s, Rotate(RowOf(cfg, who).token), ASK)
         == Rotating(RowOf(cfg, who).token, 1, 0, AccountOf(cfg, who), 0)
  {
    assert w.s.db.tokens[1] == RowOf(cfg, who);
    FindTokenIs(w.s.db, 1);
  }

  /** A state in which account 0 and row 1 are as registered, at time 0. */
  ghost predicate AsRegistered(cfg: Config, who: Person, w: World) {
    && Lasting(cfg) && Inv(cfg, w)
    && w.s == Shared(Db(map[0 := AccountOf(cfg, who)], map[1 := RowOf(cfg, who)]), map[], 0)
    && w.used == {0, 1, 2, 3}
  }

  lemma {:induction false} RefreshBegins(cfg: Config, who: Person, w: World, rid: nat)
    requires AsRegistered(cfg, who, w) && rid !in w.procs
    ensures Enabled(w, Begin(rid, Rotate(RowOf(cfg, who).token), ASK))
    ensures var w' := Step(cfg, w, Begin(rid, Rotate(RowOf(cfg, who).token), ASK));
      && AsRegistered(cfg, who, w')
      && w'.procs == w.procs[rid := Rotating(RowOf(cfg, who).token, 1, 0, AccountOf(cfg, who), 0)]
  {
    RefreshReads(cfg, who, w, rid);
    StepKeeps(cfg, w, Begin(rid, Rotate(RowOf(cfg, who).token), ASK));
  }

  lemma {:induction false} ChangeBegins(cfg: Config, who: Person, w: World, rid: nat, replacement: string)
    requires AsRegistered(cfg, who, w) && rid !in w.procs
    ensures Enabled(w, Begin(rid, ChangePassword(0, who.password, replacement), ASK))
    ensures var w' := Step(cfg, w, Begin(rid, ChangePassword(0, who.password, replacement), ASK));
      && AsRegistered(cfg, who, w')
      && w'.procs == w.procs[rid := ChangingPassword(0, who.password, replacement, AccountOf(cfg, who).passwordHash)]
  {
    StepKeeps(cfg, w, Begin(rid, ChangePassword(0, who.password, replacement), ASK));
  }

  lemma {:induction false} LoginBegins(cfg: Config, who: Person, w: World, rid: nat)
    requires AsRegistered(cfg, who, w) && rid !in w.procs
    ensures Enabled(w, Begin(rid, Login(who.email, who.password), ASK))
    ensures var w' := Step(cfg, w, Begin(rid, Login(who.email, who.password), ASK));
      && AsRegistered(cfg, who, w')
      && w'.procs == w.procs[rid := LoggingIn(who.email, who.password, 0, AccountOf(cfg, who), 0)]
  {
    assert w.s.db.users[0] == AccountOf(cfg, who);
    FindUserIs(w.s.db, 0);
    StepKeeps(cfg, w, Begin(rid, Login(who.email, who.password), ASK));
  }

  /** A waiting request can write with ids not drawn before. */
  lemma {:induction false} WriteEnabled(cfg: Config, who: Person, w: World, rid: nat)
    requires AsRegistered(cfg, who, w) && rid in w.procs && !w.procs[rid].Done?
    ensures Enabled(w, Continue(rid, Ids(4)))
  {
    assert ProcOk(cfg, w, w.procs[rid]);
  }

  lemma {:induction false} SecondWriteEnabled(cfg: Config, who: Person, w: World, rid: nat, other: nat)
    requires AsRegistered(cfg, who, w) && Enabled(w, Continue(rid, Ids(4))) && rid != other
    requires other in w.procs && !w.procs[other].Done?
    ensures Enabled(Step(cfg, w, Continue(rid, Ids(4))), Continue(other, Ids(8)))
    ensures Step(cfg, w, Continue(rid, Ids(4))).procs[other] == w.procs[other]
  {
    assert ProcOk(cfg, w, w.procs[other]);
    StepClock(cfg, w, Continue(rid, Ids(4)));
  }

  function TwoRefreshes(cfg: Config, who: Person): seq<Event> {
    Registration(who) + [Begin(1, Rotate(RowOf(cfg, who).token), ASK)]
      + [Begin(2, Rotate(RowOf(cfg, who).token), ASK)] + [Continue(1, Ids(4))] + [Continue(2, Ids(8))]
  }

  /** Register; begin two refreshes of the token; write both. Both succeed and both new tokens are live. */
  lemma {:induction false} TwoRefreshesSucceed(cfg: Config, who: Person)
    requires Lasting(cfg)
    ensures Initial(START) && ValidRun(cfg, START, TwoRefreshes(cfg, who))
    ensures var w := Exec(cfg, START, TwoRefreshes(cfg, who));
      && 1 in w.procs && w.procs[1].Done? && w.procs[1].answer.Ok?
      && 2 in w.procs && w.procs[2].Done? && w.procs[2].answer.Ok?
      && Live(w.s.db, 5) && Live(w.s.db, 9) && !Chains(w)
  {
    var a0, begin1, begin2 := Registration(who), Begin(1, Rotate(RowOf(cfg, who).token), ASK),
                              Begin(2, Rotate(RowOf(cfg, who).token), ASK);
    RegistrationWorks(cfg, who);
    var w0 := Exec(cfg, START, a0);
    RefreshBegins(cfg, who, w0, 1);
    var w1 := Step(cfg, w0, begin1);
    RefreshBegins(cfg, who, w1, 2);
    var w2 := Step(cfg, w1, begin2);
    WriteEnabled(cfg, who, w2, 1);
    SecondWriteEnabled(cfg, who, w2, 1, 2);
    DoubleRotation(cfg, w2, 1, 2, Ids(4), Ids(8));
    FourMore(cfg, a0, begin1, begin2, Continue(1, Ids(4)), Continue(2, Ids(8)));
  }

  /** A run with four more events. */
  lemma {:induction false} FourMore(cfg: Config, a: seq<Event>, e1: Event, e2: Event, e3: Event, e4: Event)
    ensures var w1 := Step(cfg, Exec(cfg, START, a), e1);
      var w2 := Step(cfg, w1, e2);
      var w3 := Step(cfg, w2, e3);
      && Exec(cfg, START, a + [e1] + [e2] + [e3] + [e4]) == Step(cfg, w3, e4)
      && (ValidRun(cfg, START, a + [e1] + [e2] + [e3] + [e4]) <==>
            ValidRun(cfg, START, a) && Enabled(Exec(cfg, START, a), e1) && Enabled(w1, e2) && Enabled(w2, e3)
            && Enabled(w3, e4))
  {
    RunSnoc(cfg, START, a, e1);
    RunSnoc(cfg, START, a + [e1], e2);
    RunSnoc(cfg, START, a + [e1] + [e2], e3);
    RunSnoc(cfg, START, a + [e1] + [e2] + [e3], e4);
  }

  function RefreshAcrossChange(cfg: Config, who: Person, replacement: string): seq<Event> {
    Registration(who) + [Begin(1, Rotate(RowOf(cfg, who).token), ASK)]
      + [Begin(2, ChangePassword(0, who.password, replacement), ASK)] + [Continue(2, Ids(4))] + [Continue(1, Ids(8))]
  }

  /** Register; begin a refresh; change the password; write the refresh. The session survives the change:
      its new token is live and replaced a token from before it. */
  lemma {:induction false} SessionSurvivesChange(cfg: Config, who: Person, replacement: string)
    requires Lasting(cfg)
    ensures Initial(START) && ValidRun(cfg, START, RefreshAcrossChange(cfg, who, replacement))
    ensures var w := Exec(cfg, START, RefreshAcrossChange(cfg, who, replacement));
      && 2 in w.procs && w.procs[2] == Done(Ok(Empty)) && 1 in w.procs && w.procs[1].Done? && w.procs[1].answer.Ok?
      && Live(w.s.db, 9) && w.s.db.tokens[9].userId == 0 && w.s.db.tokens[9].token in w.born
      && w.born[w.s.db.tokens[9].token].source == FromRotation(RowOf(cfg, who).token)
  {
    var a0, refresh := Registration(who), Begin(1, Rotate(RowOf(cfg, who).token), ASK);
    var change := Begin(2, ChangePassword(0, who.password, replacement), ASK);
    RegistrationWorks(cfg, who);
    var w0 := Exec(cfg, START, a0);
    RefreshBegins(cfg, who, w0, 1);
    var w1 := Step(cfg, w0, refresh);
    ChangeBegins(cfg, who, w1, 2, replacement);
    var w2 := Step(cfg, w1, change);
    WriteEnabled(cfg, who, w2, 2);
    SecondWriteEnabled(cfg, who, w2, 2, 1);
    ChangeWrites(cfg, who, w2, replacement);
    WaitingRefreshSurvivesChange(cfg, w2, 2, Ids(4), 0, 1, Ids(8));
    RefreshAnswers(cfg, w2, 2, Ids(4), 1, Ids(8));
    FourMore(cfg, a0, refresh, change, Continue(2, Ids(4)), Continue(1, Ids(8)));
  }

  function LoginAcrossChange(cfg: Config, who: Person, replacement: string): seq<Event> {
    Registration(who) + [Begin(1, Login(who.email, who.password), ASK)]
      + [Begin(2, ChangePassword(0, who.password, replacement), ASK)] + [Continue(2, Ids(4))] + [Continue(1, Ids(8))]
  }

  /** Register; begin a login; change the password; write the login. The old password, which may no longer
      match, has opened a session after the change. */
  lemma {:induction false} OldPasswordOpensSession(cfg: Config, who: Person, replacement: string)
    requires Lasting(cfg)
    ensures Initial(START) && ValidRun(cfg, START, LoginAcrossChange(cfg, who, replacement))
    ensures var w := Exec(cfg, START, LoginAcrossChange(cfg, who, replacement));
      && 2 in w.procs && w.procs[2] == Done(Ok(Empty))
      && Live(w.s.db, 9) && 1 in w.procs && Mints(w.procs[1], w.s.db.tokens[9].token)
      && 0 in w.s.db.users && w.s.db.users[0].passwordHash == cfg.hash(replacement, 0)
  {
    var a0, login := Registration(who), Begin(1, Login(who.email, who.password), ASK);
    var change := Begin(2, ChangePassword(0, who.password, replacement), ASK);
    RegistrationWorks(cfg, who);
    var w0 := Exec(cfg, START, a0);
    LoginBegins(cfg, who, w0, 1);
    var w1 := Step(cfg, w0, login);
    ChangeBegins(cfg, who, w1, 2, replacement);
    var w2 := Step(cfg, w1, change);
    WriteEnabled(cfg, who, w2, 2);
    SecondWriteEnabled(cfg, who, w2, 2, 1);
    ChangeWrites(cfg, who, w2, replacement);
    LoginAnswers(cfg, w2, 2, Ids(4), 1, Ids(8));
    FourMore(cfg, a0, login, change, Continue(2, Ids(4)), Continue(1, Ids(8)));
  }

  lemma {:induction false} LoginAnswers(cfg: Config, w: World, rid: nat, c: Choice, x: nat, c2: Choice)
    requires Changes(cfg, w, rid, c, 0) && WaitsFor(w, x, 0) && w.procs[x].LoggingIn?
    requires Enabled(Step(cfg, w, Continue(rid, c)), Continue(x, c2))
    ensures var w2 := Step(cfg, Step(cfg, w, Continue(rid, c)), Continue(x, c2));
      && rid in w2.procs && w2.procs[rid] == Act(cfg, w.s, w.procs[rid], c).p
      && Live(w2.s.db, c2.rowId) && x in w2.procs && Mints(w2.procs[x], w2.s.db.tokens[c2.rowId].token)
      && 0 in w2.s.db.users && w2.s.db.users[0].passwordHash == cfg.hash(w.procs[rid].replacement, c.salt)
  {
    WaitingLoginSurvivesChange(cfg, w, rid, c, 0, x, c2);
  }

  lemma {:induction false} ChangeWrites(cfg: Config, who: Person, w: World, replacement: string)
    requires AsRegistered(cfg, who, w) && Enabled(w, Continue(2, Ids(4)))
    requires w.procs[2].ChangingPassword? && w.procs[2].userId == 0
    ensures Changes(cfg, w, 2, Ids(4), 0) && Act(cfg, w.s, w.procs[2], Ids(4)).p == Done(Ok(Empty))
  {
  }

  lemma {:induction false} RefreshAnswers(cfg: Config, w: World, rid: nat, c: Choice, x: nat, c2: Choice)
    requires Changes(cfg, w, rid, c, 0) && WaitsFor(w, x, 0) && w.procs[x].Rotating?
    requires Enabled(Step(cfg, w, Continue(rid, c)), Continue(x, c2))
    ensures var w2 := Step(cfg, Step(cfg, w, Continue(rid, c)), Continue(x, c2));
      && rid in w2.procs && w2.procs[rid] == Act(cfg, w.s, w.procs[rid], c).p
      && x in w2.procs && w2.procs[x].Done? && w2.procs[x].answer.Ok?
  {
    var w1 := Step(cfg, w, Continue(rid, c));
    ChangeRevokesAll(cfg, w.s, w.procs[rid], c);
    StepKeeps(cfg, w, Continue(rid, c));
    assert ProcOk(cfg, w1, w1.procs[x]);
    RotationSucceeds(cfg, w1, x, c2);
  }

  function RefreshAcrossLogout(cfg: Config, who: Person): seq<Event> {
    Registration(who) + [Begin(1, Rotate(RowOf(cfg, who).token), ASK)]
      + [Begin(2, Logout(0, RowOf(cfg, who).token, Some(2)), ASK)] + [Continue(2, Ids(4))] + [Continue(1, Ids(8))]
  }

  /** Register; begin a refresh; log out the same token; write the refresh. The refresh succeeds, and a live
      token has replaced the one that was logged out. */
  lemma {:induction false} SessionSurvivesLogout(cfg: Config, who: Person)
    requires Lasting(cfg)
    ensures Initial(START) && ValidRun(cfg, START, RefreshAcrossLogout(cfg, who))
    ensures var w := Exec(cfg, START, RefreshAcrossLogout(cfg, who));
      && 1 in w.procs && w.procs[1].Done? && w.procs[1].answer.Ok?
      && LiveHeir(w, RowOf(cfg, who).token, 9)
  {
    var a0, refresh := Registration(who), Begin(1, Rotate(RowOf(cfg, who).token), ASK);
    var logout := Begin(2, Logout(0, RowOf(cfg, who).token, Some(2)), ASK);
    RegistrationWorks(cfg, who);
    var w0 := Exec(cfg, START, a0);
    RefreshBegins(cfg, who, w0, 1);
    var w1 := Step(cfg, w0, refresh);
    LogoutBegins(cfg, who, w1, 2);
    var w2 := Step(cfg, w1, logout);
    WriteEnabled(cfg, who, w2, 2);
    SecondWriteEnabled(cfg, who, w2, 2, 1);
    RefreshOutlivesLogout(cfg, who, w2);
    FourMore(cfg, a0, refresh, logout, Continue(2, Ids(4)), Continue(1, Ids(8)));
  }

  lemma {:induction false} RefreshOutlivesLogout(cfg: Config, who: Person, w: World)
    requires AsRegistered(cfg, who, w) && Enabled(w, Continue(2, Ids(4)))
    requires Enabled(Step(cfg, w, Continue(2, Ids(4))), Continue(1, Ids(8)))
    requires w.procs[2] == LoggingOut(0, RowOf(cfg, who).token, Some(2))
    requires 1 in w.procs && w.procs[1] == Rotating(RowOf(cfg, who).token, 1, 0, AccountOf(cfg, who), 0)
    ensures var w' := Step(cfg, Step(cfg, w, Continue(2, Ids(4))), Continue(1, Ids(8)));
      LiveHeir(w', RowOf(cfg, who).token, 9) && w'.procs[1].Done? && w'.procs[1].answer.Ok?
  {
    var t := RowOf(cfg, who).token;
    assert w.s.db.tokens[1] == RowOf(cfg, who) && RowOk(w.born, w.s.db.tokens[1]) && BirthOk(w, t);
    assert Ancestry(w, t)[0] == t;
    LogoutLeavesHeirs(cfg, w, 2, Ids(4), t);
    assert WaitsToRenew(w, t, 1);
    WaitingRefreshRenews(cfg, Step(cfg, w, Continue(2, Ids(4))), t, 1, Ids(8));
  }

  function Revoked(cfg: Config, who: Person): seq<Event> {
    Registration(who) + [Begin(1, Logout(0, RowOf(cfg, who).token, Some(2)), ASK)] + [Continue(1, Ids(4))]
  }

  function LoggedOut(cfg: Config, who: Person): seq<Event> { Revoked(cfg, who) + [Continue(1, Ids(8))] }

  function LogoutThenLookup(cfg: Config, who: Person): seq<Event> {
    LoggedOut(cfg, who) + [Begin(2, Authenticate(AccessOf(cfg, who)), ASK)] + [Tick(900_001)] + [Continue(2, Ids(12))]
  }

  lemma {:induction false} LogoutBegins(cfg: Config, who: Person, w: World, rid: nat)
    requires AsRegistered(cfg, who, w) && rid !in w.procs
    ensures Enabled(w, Begin(rid, Logout(0, RowOf(cfg, who).token, Some(2)), ASK))
    ensures var w' := Step(cfg, w, Begin(rid, Logout(0, RowOf(cfg, who).token, Some(2)), ASK));
      && AsRegistered(cfg, who, w') && w'.signed == w.signed
      && w'.procs == w.procs[rid := LoggingOut(0, RowOf(cfg, who).token, Some(2))]
  {
    StepKeeps(cfg, w, Begin(rid, Logout(0, RowOf(cfg, who).token, Some(2)), ASK));
  }

  /** The first write of a logout leaves the blacklist write to come. */
  lemma {:induction false} LogoutRevokes(cfg: Config, w: World, token: Token)
    requires cfg.Valid() && Inv(cfg, w) && Enabled(w, Continue(1, Ids(4)))
    requires w.procs[1] == LoggingOut(0, token, Some(2)) && w.s.now == 0 && w.used == {0, 1, 2, 3}
    ensures var w' := Step(cfg, w, Continue(1, Ids(4)));
      && Inv(cfg, w') && Enabled(w', Continue(1, Ids(8)))
      && w'.procs == w.procs[1 := Blacklisting(2)] && w'.s.now == 0 && w.signed <= w'.signed
      && w'.used == {0, 1, 2, 3, 4, 5, 6, 7}
  {
    StepKeeps(cfg, w, Continue(1, Ids(4)));
    assert Drawn(Ids(4)) == {4, 5, 6, 7} && Drawn(Ids(8)) == {8, 9, 10, 11};
    assert Act(cfg, w.s, w.procs[1], Ids(4)).p == Blacklisting(2);
  }

  lemma {:induction false} LookupWaits(cfg: Config, who: Person, w: World)
    requires Lasting(cfg) && Inv(cfg, w) && w.s.now == 0 && Covered(w, AccessOf(cfg, who), 2) && 2 !in w.procs
    requires w.used <= {0, 1, 2, 3, 4, 5, 6, 7, 8, 9, 10, 11}
    ensures var begin := Begin(2, Authenticate(AccessOf(cfg, who)), ASK);
      var w1 := Step(cfg, w, begin);
      var w2 := Step(cfg, w1, Tick(900_001));
      && Enabled(w, begin) && Enabled(w1, Tick(900_001)) && Enabled(w2, Continue(2, Ids(12)))
      && Step(cfg, w2, Continue(2, Ids(12))).procs == w.procs[2 := Done(Ok(Principal(AccessOf(cfg, who).claims)))]
  {
    HeldUpLookupAccepts(cfg, w, AccessOf(cfg, who), 2, 2, ASK, Ids(12));
  }

  /** After registration and the revocation, the blacklist write is still to come. */
  lemma {:induction false} RevocationRuns(cfg: Config, who: Person) returns (w2: World)
    requires Lasting(cfg)
    ensures Initial(START) && ValidRun(cfg, START, Revoked(cfg, who)) && w2 == Exec(cfg, START, Revoked(cfg, who))
    ensures Inv(cfg, w2) && Enabled(w2, Continue(1, Ids(8))) && w2.s.now == 0
    ensures w2.procs[1] == Blacklisting(2) && 2 !in w2.procs && AccessOf(cfg, who) in w2.signed
    ensures w2.used == {0, 1, 2, 3, 4, 5, 6, 7}
  {
    var a0, begin := Registration(who), Begin(1, Logout(0, RowOf(cfg, who).token, Some(2)), ASK);
    RegistrationWorks(cfg, who);
    var w0 := Exec(cfg, START, a0);
    LogoutBegins(cfg, who, w0, 1);
    var w1 := Step(cfg, w0, begin);
    WriteEnabled(cfg, who, w1, 1);
    LogoutRevokes(cfg, w1, RowOf(cfg, who).token);
    RunSnoc(cfg, START, a0, begin);
    RunSnoc(cfg, START, a0 + [begin], Continue(1, Ids(4)));
    w2 := Step(cfg, w1, Continue(1, Ids(4)));
  }

  /** After the complete logout the access token is covered by a blacklist entry. */
  lemma {:induction false} LogoutFinishes(cfg: Config, w: World, token: Token)
    requires cfg.Valid() && Inv(cfg, w) && Enabled(w, Continue(1, Ids(8))) && w.procs[1] == Blacklisting(2)
    requires token in w.signed && token.Signed? && token.claims.tokenType == Access && token.claims.jti == Some(2)
    ensures var w' := Step(cfg, w, Continue(1, Ids(8)));
      && Inv(cfg, w') && w'.s.now == w.s.now && Covered(w', token, 2)
      && w'.procs == w.procs[1 := Done(Ok(Empty))] && w'.used == w.used + {8, 9, 10, 11}
  {
    LogoutCovers(cfg, w, 1, Ids(8), token);
    StepKeeps(cfg, w, Continue(1, Ids(8)));
  }

  /** Register; log out completely; begin an authentication with the access token; let 900 s and a
      millisecond pass before its lookup. The logged-out token is accepted. */
  lemma {:induction false} HeldUpLookupIsReached(cfg: Config, who: Person)
    requires Lasting(cfg)
    ensures Initial(START) && ValidRun(cfg, START, LogoutThenLookup(cfg, who))
    ensures var w := Exec(cfg, START, LogoutThenLookup(cfg, who));
      && 1 in w.procs && w.procs[1] == Done(Ok(Empty))
      && 2 in w.procs && w.procs[2] == Done(Ok(Principal(AccessOf(cfg, who).claims)))
  {
    var w2 := RevocationRuns(cfg, who);
    LogoutFinishes(cfg, w2, AccessOf(cfg, who));
    LookupWaits(cfg, who, Step(cfg, w2, Continue(1, Ids(8))));
    var a3, lookup := LoggedOut(cfg, who), Begin(2, Authenticate(AccessOf(cfg, who)), ASK);
    RunSnoc(cfg, START, Revoked(cfg, who), Continue(1, Ids(8)));
    RunSnoc(cfg, START, a3, lookup);
    RunSnoc(cfg, START, a3 + [lookup], Tick(900_001));
    RunSnoc(cfg, START, a3 + [lookup] + [Tick(900_001)], Continue(2, Ids(12)));
  }
}
