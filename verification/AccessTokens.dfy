/** Access tokens over whole runs: what a logout forbids, and how old the role inside an accepted token
    can be. */
module AccessTokens {
  import opened Domain
  import opened Jwt
  import opened Machine
  import opened Invariants
  import opened AtomicSpec

  // ---- blacklist coverage ----

  /** An access token of this service whose `jti` is blacklisted for longer than its signature lasts. */
  ghost predicate Covered(w: World, token: Token, key: Uuid) {
    && token.Signed? && token.claims.jti == Some(key)
    && key in w.s.redis && 1000 * token.claims.exp <= w.s.redis[key]
  }

  /** The last write of a logout covers the token, whenever in its life the logout came: the entry lasts
      900 s from the logout, the signature at most 900 s from the floored second of its signing. */
  lemma LogoutCovers(cfg: Config, w: World, rid: nat, c: Choice, token: Token)
    requires cfg.Valid() && Inv(cfg, w) && Enabled(w, Continue(rid, c)) && w.procs[rid].Blacklisting?
    requires token in w.signed && token.Signed? && token.claims.tokenType == Access
    requires token.claims.jti == Some(w.procs[rid].key)
    ensures Covered(Step(cfg, w, Continue(rid, c)), token, w.procs[rid].key)
  {
    assert SignedOk(cfg, w.s.now, w.used, token);
  }

  /** Once a logout has finished, no later `authenticate` that verifies and looks up at one instant
      accepts the token, at any clock value of any continuation. */
  lemma NoAuthenticationAfterLogout(cfg: Config, w: World, rid: nat, c: Choice, token: Token, evs: seq<Event>)
    requires cfg.Valid() && Inv(cfg, w) && Enabled(w, Continue(rid, c)) && w.procs[rid].Blacklisting?
    requires token in w.signed && token.Signed? && token.claims.tokenType == Access
    requires token.claims.jti == Some(w.procs[rid].key)
    requires ValidRun(cfg, Step(cfg, w, Continue(rid, c)), evs)
    ensures var s := Exec(cfg, Step(cfg, w, Continue(rid, c)), evs).s;
      AtomicAuthenticate(cfg, s, token).answer == Err(AppError(401, NotPermitted))
  {
    var w1 := Step(cfg, w, Continue(rid, c));
    LogoutCovers(cfg, w, rid, c, token);
    StepKeeps(cfg, w, Continue(rid, c));
    RunKeeps(cfg, w1, evs);
  }

  /** A covered token stays covered, and its entry never ends earlier than it did. */
  lemma CoveredStays(cfg: Config, w: World, token: Token, key: Uuid, evs: seq<Event>)
    requires cfg.Valid() && Inv(cfg, w) && Covered(w, token, key) && ValidRun(cfg, w, evs)
    ensures Inv(cfg, Exec(cfg, w, evs)) && Covered(Exec(cfg, w, evs), token, key)
    ensures w.s.redis[key] <= Exec(cfg, w, evs).s.redis[key]
  {
    RunKeeps(cfg, w, evs);
  }

  /** With verification and lookup apart, the lookup of a covered token accepts exactly when it comes
      after the entry is gone; so it refuses for as long as the signature is valid. */
  lemma LookupAfterLogout(cfg: Config, w: World, token: Token, key: Uuid, evs: seq<Event>, c: Choice)
    requires cfg.Valid() && Inv(cfg, w) && Covered(w, token, key) && ValidRun(cfg, w, evs)
    ensures var s := Exec(cfg, w, evs).s; var answer := Act(cfg, s, LookingUp(token, token.claims), c).p.answer;
      && Covered(Exec(cfg, w, evs), token, key)
      && (answer.Ok? <==> s.redis[key] < s.now)
      && (s.now / 1000 < token.claims.exp ==> answer == Err(Unauthorized(TokenRevoked)))
  {
    RunKeeps(cfg, w, evs);
  }

  /** The code does not meet the promise of instant logout for a lookup that is held up: a request that
      verified a covered token and then waits 900 s and a millisecond is accepted. */
  lemma HeldUpLookupAccepts(cfg: Config, w: World, token: Token, key: Uuid, rid: nat, r: ReadChoice, c: Choice)
    requires cfg.Valid() && Inv(cfg, w) && Covered(w, token, key)
    requires token.claims.tokenType == Access && Verify(token, cfg.accessSecret, w.s.now).Ok?
    requires Enabled(w, Begin(rid, Authenticate(token), r))
    ensures var w1 := Step(cfg, w, Begin(rid, Authenticate(token), r)); var w2 := Step(cfg, w1, Tick(900_001));
      Step(cfg, w2, Continue(rid, c)).procs[rid] == Done(Ok(Principal(token.claims)))
  {
  }

  // ---- bounded staleness ----

  ghost predicate Holds(s: Shared, u: Uuid, role: Role) {
    u in s.db.users && s.db.users[u].isActive && s.db.users[u].role == role
  }

  ghost function StateAt(cfg: Config, w: World, evs: seq<Event>, k: nat): Shared requires k <= |evs| {
    Exec(cfg, w, evs[..k]).s
  }

  /** Some state of the run held the token's role, no more than `d` ms and 900 s before the signature ends. */
  ghost predicate Backed(cfg: Config, w: World, evs: seq<Event>, d: nat, token: Token) {
    token.Signed? && exists k: nat :: k <= |evs| && Backs(StateAt(cfg, w, evs, k), d, token)
  }

  ghost predicate Backs(s: Shared, d: nat, token: Token) requires token.Signed? {
    Holds(s, token.claims.sub, token.claims.role) && 1000 * token.claims.exp <= s.now + d + 900_000
  }

  /** The account a waiting request has read was in that state when it was read. */
  ghost predicate ReadBacked(cfg: Config, w: World, evs: seq<Event>, p: Proc) {
    p.LoggingIn? || p.Rotating? ==>
      exists k: nat :: k <= |evs| && ReadBacks(StateAt(cfg, w, evs, k), p)
  }

  ghost predicate ReadBacks(s: Shared, p: Proc) requires p.LoggingIn? || p.Rotating? {
    Holds(s, p.userId, p.user.role) && s.now == p.readAt
  }

  /** Every login and refresh signs its tokens within `d` ms of reading the account; for the atomic
      operations `d` is 0. */
  ghost predicate Prompt(cfg: Config, w: World, evs: seq<Event>, d: nat) {
    evs != [] ==>
      var pre := evs[..|evs| - 1];
      && Prompt(cfg, w, pre, d)
      && PromptEvent(Exec(cfg, w, pre), evs[|evs| - 1], d)
  }

  ghost predicate PromptEvent(w: World, ev: Event, d: nat) {
    ev.Continue? && ev.rid in w.procs && (w.procs[ev.rid].LoggingIn? || w.procs[ev.rid].Rotating?) ==>
      ev.c.signedAt <= ReadTime(w.procs[ev.rid]) + d
  }

  lemma SamePast(cfg: Config, w: World, evs: seq<Event>, k: nat)
    requires evs != [] && k < |evs|
    ensures StateAt(cfg, w, evs, k) == StateAt(cfg, w, evs[..|evs| - 1], k)
  {
    assert evs[..k] == evs[..|evs| - 1][..k];
  }

  lemma BackedLater(cfg: Config, w: World, evs: seq<Event>, d: nat, token: Token)
    requires evs != [] && Backed(cfg, w, evs[..|evs| - 1], d, token)
    ensures Backed(cfg, w, evs, d, token)
  {
    var k: nat :| k < |evs| && Backs(StateAt(cfg, w, evs[..|evs| - 1], k), d, token);
    SamePast(cfg, w, evs, k);
  }

  lemma ReadBackedLater(cfg: Config, w: World, evs: seq<Event>, p: Proc)
    requires evs != [] && ReadBacked(cfg, w, evs[..|evs| - 1], p)
    ensures ReadBacked(cfg, w, evs, p)
  {
    if p.LoggingIn? || p.Rotating? {
      var k: nat :| k < |evs| && ReadBacks(StateAt(cfg, w, evs[..|evs| - 1], k), p);
      SamePast(cfg, w, evs, k);
    }
  }

  /** The access token a write hands out carries the role its request read, or the one it has just given. */
  lemma GrantCarriesRole(cfg: Config, s: Shared, p: Proc, c: Choice, token: Token)
    requires cfg.Valid() && !p.Done? && token in Issued(Act(cfg, s, p, c).p)
    requires token.Signed? && token.claims.tokenType == Access
    ensures 1000 * token.claims.exp <= c.signedAt + 900_000 && token.claims.sub == Grantee(p, c)
    ensures p.Registering? || p.LoggingIn? || p.Rotating?
    ensures p.Registering? ==> Holds(Act(cfg, s, p, c).s, token.claims.sub, token.claims.role)
    ensures p.LoggingIn? || p.Rotating? ==> token.claims.role == p.user.role
  {
  }

  /** The two facts a run keeps: tokens handed out are backed, and so is what waiting requests read. */
  ghost predicate AllBacked(cfg: Config, w0: World, evs: seq<Event>, d: nat) {
    var w := Exec(cfg, w0, evs);
    && (forall t :: t in w.signed && t.Signed? && t.claims.tokenType == Access ==> Backed(cfg, w0, evs, d, t))
    && (forall rid :: rid in w.procs ==> ReadBacked(cfg, w0, evs, w.procs[rid]))
  }

  lemma ReadIsBacked(cfg: Config, w0: World, evs: seq<Event>, req: Request, r: ReadChoice)
    requires evs != []
    ensures ReadBacked(cfg, w0, evs, ReadPhase(cfg, Exec(cfg, w0, evs[..|evs| - 1]).s, req, r))
  {
    var k := |evs| - 1;
    var s := Exec(cfg, w0, evs[..k]).s;
    assert StateAt(cfg, w0, evs, k) == s;
    var p := ReadPhase(cfg, s, req, r);
    if p.LoggingIn? || p.Rotating? { assert ReadBacks(StateAt(cfg, w0, evs, k), p); }
  }

  lemma GrantIsBacked(cfg: Config, w0: World, evs: seq<Event>, d: nat, token: Token)
    requires cfg.Valid() && evs != [] && evs[|evs| - 1].Continue?
    requires var w, ev := Exec(cfg, w0, evs[..|evs| - 1]), evs[|evs| - 1];
      && Enabled(w, ev) && PromptEvent(w, ev, d) && ReadBacked(cfg, w0, evs[..|evs| - 1], w.procs[ev.rid])
      && token in Issued(Act(cfg, w.s, w.procs[ev.rid], ev.c).p)
    requires token.Signed? && token.claims.tokenType == Access
    ensures Backed(cfg, w0, evs, d, token)
  {
    var w, ev := Exec(cfg, w0, evs[..|evs| - 1]), evs[|evs| - 1];
    var p := w.procs[ev.rid];
    GrantCarriesRole(cfg, w.s, p, ev.c, token);
    if p.Registering? {
      ActGrows(cfg, w.s, p, ev.c);
      assert evs[..|evs|] == evs;
      assert Backs(StateAt(cfg, w0, evs, |evs|), d, token);
    } else {
      ReadBackedLater(cfg, w0, evs, p);
      var k: nat :| k <= |evs| && ReadBacks(StateAt(cfg, w0, evs, k), p);
      assert Backs(StateAt(cfg, w0, evs, k), d, token);
    }
  }

  lemma {:induction false} RunIsBacked(cfg: Config, w0: World, evs: seq<Event>, d: nat)
    requires cfg.Valid() && Initial(w0) && ValidRun(cfg, w0, evs) && Prompt(cfg, w0, evs, d)
    ensures AllBacked(cfg, w0, evs, d)
  {
    if evs != [] {
      var pre, ev := evs[..|evs| - 1], evs[|evs| - 1];
      RunIsBacked(cfg, w0, pre, d);
      var w, w' := Exec(cfg, w0, pre), Exec(cfg, w0, evs);
      forall t | t in w'.signed && t.Signed? && t.claims.tokenType == Access ensures Backed(cfg, w0, evs, d, t) {
        if t in w.signed { BackedLater(cfg, w0, evs, d, t); } else { GrantIsBacked(cfg, w0, evs, d, t); }
      }
      forall rid | rid in w'.procs ensures ReadBacked(cfg, w0, evs, w'.procs[rid]) {
        if ev.Begin? && rid == ev.rid { ReadIsBacked(cfg, w0, evs, ev.req, ev.r); }
        else if ev.Continue? && rid == ev.rid { WrittenProc(cfg, w.s, w.procs[rid], ev.c); }
        else { ReadBackedLater(cfg, w0, evs, w.procs[rid]); }
      }
    }
  }

  lemma WrittenProc(cfg: Config, s: Shared, p: Proc, c: Choice)
    requires !p.Done?
    ensures Act(cfg, s, p, c).p.Done? || Act(cfg, s, p, c).p.Blacklisting?
  {
    ActMints(cfg, s, p, c);
  }

  /** Bounded staleness: in a run whose requests sign within `d` ms of reading, an access token that
      verifies carries a role its user held, active, less than 900 s and `d` ms ago. */
  lemma BoundedStaleness(cfg: Config, w0: World, evs: seq<Event>, d: nat, token: Token)
    requires cfg.Valid() && Initial(w0) && ValidRun(cfg, w0, evs) && Prompt(cfg, w0, evs, d)
    requires token in Exec(cfg, w0, evs).signed && token.Signed? && token.claims.tokenType == Access
    requires Verify(token, cfg.accessSecret, Exec(cfg, w0, evs).s.now).Ok?
    ensures exists k: nat :: k <= |evs|
              && Holds(StateAt(cfg, w0, evs, k), token.claims.sub, token.claims.role)
              && Exec(cfg, w0, evs).s.now < StateAt(cfg, w0, evs, k).now + d + 900_000
  {
    RunIsBacked(cfg, w0, evs, d);
    var k: nat :| k <= |evs| && Backs(StateAt(cfg, w0, evs, k), d, token);
    assert Holds(StateAt(cfg, w0, evs, k), token.claims.sub, token.claims.role);
  }

  /** 900 s and `d` ms after the moment from which a user no longer holds a role (by a role change, a
      deactivation or a deletion not undone), no token with that user and role verifies. */
  lemma OldAuthorityExpires(cfg: Config, w0: World, evs: seq<Event>, d: nat, j: nat, token: Token)
    requires cfg.Valid() && Initial(w0) && ValidRun(cfg, w0, evs) && Prompt(cfg, w0, evs, d)
    requires token in Exec(cfg, w0, evs).signed && token.Signed? && token.claims.tokenType == Access
    requires j <= |evs|
    requires forall k: nat :: j <= k <= |evs| ==>
               !Holds(StateAt(cfg, w0, evs, k), token.claims.sub, token.claims.role)
    requires StateAt(cfg, w0, evs, j).now + d + 900_000 <= Exec(cfg, w0, evs).s.now
    ensures Verify(token, cfg.accessSecret, Exec(cfg, w0, evs).s.now).Err?
  {
    if Verify(token, cfg.accessSecret, Exec(cfg, w0, evs).s.now).Ok? {
      BoundedStaleness(cfg, w0, evs, d, token);
      var k: nat :| k <= |evs| && Holds(StateAt(cfg, w0, evs, k), token.claims.sub, token.claims.role)
              && Exec(cfg, w0, evs).s.now < StateAt(cfg, w0, evs, k).now + d + 900_000;
      assert k < j;
      ClockIsMonotone(cfg, w0, evs, k, j);
      assert false;
    }
  }

  lemma {:induction false} ClockIsMonotone(cfg: Config, w: World, evs: seq<Event>, k: nat, j: nat)
    requires k <= j <= |evs|
    ensures StateAt(cfg, w, evs, k).now <= StateAt(cfg, w, evs, j).now
    decreases j
  {
    if k < j {
      ClockIsMonotone(cfg, w, evs, k, j - 1);
      assert evs[..j][..j - 1] == evs[..j - 1];
      StepClock(cfg, Exec(cfg, w, evs[..j - 1]), evs[j - 1]);
    }
  }

  lemma StepClock(cfg: Config, w: World, ev: Event)
    ensures w.s.now <= Step(cfg, w, ev).s.now
  {
    if ev.Continue? && ev.rid in w.procs { ActGrows(cfg, w.s, w.procs[ev.rid], ev.c); }
  }
}
