/** What every step of every interleaving keeps. */
module Invariants {
  import opened Domain
  import opened Store
  import opened Machine

  // ---- the invariant ----

  ghost predicate IdsUsed(w: World) {
    w.s.db.users.Keys <= w.used && w.s.db.tokens.Keys <= w.used
  }

  /** A token handed out carries a drawn `jti`, was signed no later than now, and has the lifetime and
      secret of its type. */
  ghost predicate SignedOk(cfg: Config, now: nat, used: set<Uuid>, t: Token) {
    && t.Signed?
    && t.claims.jti.Some? && t.claims.jti.value in used
    && 1000 * t.claims.iat <= now
    && match t.claims.tokenType
       case Access => t.secret == cfg.accessSecret && t.claims.exp == t.claims.iat + cfg.accessTtl
       case Refresh => t.secret == cfg.refreshSecret && t.claims.exp == t.claims.iat + cfg.refreshTtl
  }

  ghost predicate SignedAllOk(cfg: Config, w: World) {
    forall t :: t in w.signed ==> SignedOk(cfg, w.s.now, w.used, t)
  }

  /** A stored token is a refresh token of its owner, and its row outlives the signature. */
  ghost predicate RowOk(born: map<Token, Birth>, row: RefreshToken) {
    && row.token in born && row.token.Signed?
    && row.token.claims.sub == row.userId
    && 1000 * row.token.claims.exp <= row.expiresAt
  }

  ghost predicate RowsOk(w: World) {
    forall i :: i in w.s.db.tokens ==> RowOk(w.born, w.s.db.tokens[i])
  }

  /** Revoked or deleted: no live row holds the token. */
  ghost predicate Dead(db: Db, t: Token) {
    forall i :: Live(db, i) ==> db.tokens[i].token != t
  }

  /** A root starts its own lineage; a rotated token sits one below a dead parent of the same user. */
  ghost predicate BirthOk(w: World, t: Token) requires t in w.born {
    var b := w.born[t];
    && t in w.signed && t.Signed? && t.claims.tokenType == Refresh && t.claims.sub in w.used
    && match b.source
       case FromRotation(p) =>
         && p in w.born && p.Signed? && p.claims.sub == t.claims.sub
         && b.depth == w.born[p].depth + 1 && b.root == w.born[p].root && Dead(w.s.db, p)
       case _ => b.depth == 0 && b.root == t
  }

  ghost predicate BornOk(w: World) {
    forall t {:trigger BirthOk(w, t)} :: t in w.born ==> BirthOk(w, t)
  }

  ghost predicate ProcOk(cfg: Config, w: World, p: Proc) {
    match p
    case LoggingIn(email, password, userId, user, readAt) =>
      && user.isActive && cfg.compare(password, user.passwordHash)
      && userId in w.used && user.email == email && readAt <= w.s.now
      && (userId in w.s.db.users ==> w.s.db.users[userId].email == email)
    case Rotating(presented, rowId, userId, user, readAt) =>
      && presented in w.born && rowId in w.used && userId in w.used && readAt <= w.s.now
      && presented.Signed? && presented.claims.sub == userId && user.isActive
      && (userId in w.s.db.users ==> w.s.db.users[userId].email == user.email)
      && (rowId in w.s.db.tokens ==> w.s.db.tokens[rowId].token == presented && w.s.db.tokens[rowId].userId == userId)
      && (forall i :: i in w.s.db.tokens && w.s.db.tokens[i].token == presented ==> i == rowId)
      && (userId in w.s.db.users ==> rowId in w.s.db.tokens)
    case ChangingPassword(userId, current, _, read) => cfg.compare(current, read)
    case LookingUp(token, claims) =>
      token.Signed? && token.secret == cfg.accessSecret && token.claims == claims && claims.tokenType == Access
    case _ => true
  }

  ghost predicate ProcsOk(cfg: Config, w: World) {
    forall rid :: rid in w.procs ==> ProcOk(cfg, w, w.procs[rid])
  }

  ghost predicate RedisOk(s: Shared) {
    forall j :: j in s.redis ==> s.redis[j] <= s.now + 1000 * ACCESS_TOKEN_TTL_SECONDS
  }

  ghost predicate Inv(cfg: Config, w: World) {
    && Constraints(w.s.db) && IdsUsed(w) && SignedAllOk(cfg, w) && RowsOk(w) && BornOk(w)
    && ProcsOk(cfg, w) && RedisOk(w.s)
  }

  // ---- what never changes back ----

  /** `i` is the same row as before, revoked if it was revoked, or a new row under a fresh id holding a
      token never stored before. */
  ghost predicate RowLater(w: World, w': World, i: Uuid) requires i in w'.s.db.tokens {
    var row' := w'.s.db.tokens[i];
    || (i in w.s.db.tokens
        && row'.token == w.s.db.tokens[i].token && row'.userId == w.s.db.tokens[i].userId
        && row'.expiresAt == w.s.db.tokens[i].expiresAt && (w.s.db.tokens[i].isRevoked ==> row'.isRevoked))
    || (i !in w.used && row'.token !in w.born)
  }

  ghost predicate UserLater(w: World, w': World, i: Uuid) requires i in w'.s.db.users {
    || (i in w.s.db.users && w'.s.db.users[i].email == w.s.db.users[i].email)
    || i !in w.used
  }

  /** A row goes only with its owner. */
  ghost predicate RowStays(w: World, w': World, i: Uuid) requires i in w.s.db.tokens {
    var owner := w.s.db.tokens[i].userId;
    owner in w.used && owner in w'.s.db.users ==> i in w'.s.db.tokens
  }

  ghost predicate Later(w: World, w': World) {
    && w.s.now <= w'.s.now && w.used <= w'.used && w.signed <= w'.signed
    && (forall t :: t in w.born ==> t in w'.born && w'.born[t] == w.born[t])
    && (forall i :: i in w'.s.db.tokens ==> RowLater(w, w', i))
    && (forall i :: i in w'.s.db.users ==> UserLater(w, w', i))
    && (forall i :: i in w.s.db.tokens && i in w.used ==> RowStays(w, w', i))
    && (forall j :: j in w.s.redis ==> j in w'.s.redis && w.s.redis[j] <= w'.s.redis[j])
  }

  lemma LaterTransitive(a: World, b: World, c: World)
    requires Later(a, b) && Later(b, c)
    ensures Later(a, c)
  {
    forall i | i in c.s.db.tokens ensures RowLater(a, c, i) {
      assert RowLater(b, c, i);
      if i in b.s.db.tokens { assert RowLater(a, b, i); }
    }
    forall i | i in c.s.db.users ensures UserLater(a, c, i) {
      assert UserLater(b, c, i);
      if i in b.s.db.users { assert UserLater(a, b, i); }
    }
    forall i | i in a.s.db.tokens && i in a.used ensures RowStays(a, c, i) {
      var owner := a.s.db.tokens[i].userId;
      assert RowStays(a, b, i);
      if owner in a.used && owner in c.s.db.users {
        assert UserLater(b, c, owner);
        assert RowLater(a, b, i) && RowStays(b, c, i);
      }
    }
  }

  lemma DeadStaysDead(w: World, w': World, t: Token)
    requires Later(w, w') && t in w.born && Dead(w.s.db, t)
    ensures Dead(w'.s.db, t)
  {
    forall i | Live(w'.s.db, i) ensures w'.s.db.tokens[i].token != t {
      assert RowLater(w, w', i);
      assert Live(w.s.db, i) || t != w'.s.db.tokens[i].token;
    }
  }

  // ---- the effect of one write on the shared state ----

  ghost predicate RowKept(db: Db, db': Db, i: Uuid) requires i in db'.tokens {
    && i in db.tokens
    && db'.tokens[i].token == db.tokens[i].token && db'.tokens[i].userId == db.tokens[i].userId
    && db'.tokens[i].expiresAt == db.tokens[i].expiresAt && (db.tokens[i].isRevoked ==> db'.tokens[i].isRevoked)
  }

  /** The request answers with tokens, the refresh token among them being `t`. */
  ghost predicate Mints(p: Proc, t: Token) {
    && p.Done? && p.answer.Ok?
    && (p.answer.value.Session? || p.answer.value.Tokens?)
    && p.answer.value.refresh == t
  }

  /** Accounts and rows are kept, dropped, or added under a fresh id; an added row holds the refresh
      token the request answers with. */
  ghost predicate Grown(cfg: Config, s: Shared, o: Outcome, c: Choice) {
    && o.s.now == s.now
    && (forall i :: i in o.s.db.users ==>
          || (i in s.db.users && o.s.db.users[i].email == s.db.users[i].email)
          || i == c.userId)
    && (forall i :: i in o.s.db.tokens ==>
          || RowKept(s.db, o.s.db, i)
          || (i == c.rowId && Mints(o.p, o.s.db.tokens[i].token) && o.s.db.tokens[i].token.Signed?
              && o.s.db.tokens[i].token.claims.sub == o.s.db.tokens[i].userId
              && o.s.db.tokens[i].expiresAt == c.stampedAt + REFRESH_TOKEN_TTL_MS))
    && (forall i :: i in s.db.tokens && s.db.tokens[i].userId in o.s.db.users ==> i in o.s.db.tokens)
    && (forall j :: j in s.redis ==> j in o.s.redis && (o.s.redis[j] == s.redis[j] || o.s.redis[j] == s.now + 900000))
    && (forall j :: j in o.s.redis ==> (j in s.redis && o.s.redis[j] == s.redis[j]) || o.s.redis[j] == s.now + 900000)
  }

  lemma GrantGrows(cfg: Config, s: Shared, p: Proc, c: Choice)
    requires p.Registering? || p.LoggingIn?
    ensures Grown(cfg, s, Act(cfg, s, p, c), c)
  {
  }

  lemma RotationGrows(cfg: Config, s: Shared, p: Proc, c: Choice)
    requires p.Rotating?
    ensures Grown(cfg, s, Act(cfg, s, p, c), c)
  {
  }

  lemma AccountGrows(cfg: Config, s: Shared, p: Proc, c: Choice)
    requires p.ChangingPassword? || p.Updating?
    ensures Grown(cfg, s, Act(cfg, s, p, c), c)
  {
  }

  lemma RemovalGrows(cfg: Config, s: Shared, p: Proc, c: Choice)
    requires p.LoggingOut? || p.Blacklisting? || p.Deleting? || p.LookingUp? || p.Done?
    ensures Grown(cfg, s, Act(cfg, s, p, c), c)
  {
  }

  lemma ActGrows(cfg: Config, s: Shared, p: Proc, c: Choice)
    ensures Grown(cfg, s, Act(cfg, s, p, c), c)
  {
    if p.Registering? || p.LoggingIn? { GrantGrows(cfg, s, p, c); }
    else if p.Rotating? { RotationGrows(cfg, s, p, c); }
    else if p.ChangingPassword? || p.Updating? { AccountGrows(cfg, s, p, c); }
    else { RemovalGrows(cfg, s, p, c); }
  }

  /** Tokens handed out carry the ids drawn for this write and the clock reading taken while signing. */
  ghost predicate Minted(cfg: Config, t: Token, c: Choice) {
    && t.Signed? && t.claims.iat == c.signedAt / 1000
    && match t.claims.tokenType
       case Access => t.claims.jti == Some(c.accessJti) && t.secret == cfg.accessSecret
                      && t.claims.exp == t.claims.iat + cfg.accessTtl
       case Refresh => t.claims.jti == Some(c.refreshJti) && t.secret == cfg.refreshSecret
                       && t.claims.exp == t.claims.iat + cfg.refreshTtl
  }

  /** The user a granting request grants to. */
  function Grantee(p: Proc, c: Choice): Uuid {
    match p
    case LoggingIn(_, _, userId, _, _) => userId
    case Rotating(_, _, userId, _, _) => userId
    case _ => c.userId
  }

  /** The e-mail and role a granting request puts into its tokens. */
  function GrantClaims(p: Proc): (string, Role) {
    match p
    case Registering(email, _, _) => (email, USER)
    case LoggingIn(_, _, _, user, _) => (user.email, user.role)
    case Rotating(_, _, _, user, _) => (user.email, user.role)
    case _ => ("", USER)
  }

  lemma ActMints(cfg: Config, s: Shared, p: Proc, c: Choice)
    requires !p.Done?
    ensures var p' := Act(cfg, s, p, c).p;
      && (p'.Done? || p'.Blacklisting?)
      && (forall t :: t in Issued(p') ==>
            Minted(cfg, t, c) && t.claims.sub == Grantee(p, c) && (t.claims.email, t.claims.role) == GrantClaims(p))
      && (p'.Done? && p'.answer.Ok? ==>
            && (p'.answer.value.Session? <==> p.Registering? || p.LoggingIn?)
            && (p'.answer.value.Tokens? <==> p.Rotating?)
            && (forall t :: Mints(p', t) ==> t in Issued(p') && t.claims.tokenType == Refresh))
  {
  }

  /** A rotation that succeeds leaves the presented token revoked. */
  lemma RotationKills(cfg: Config, s: Shared, p: Proc, c: Choice)
    requires Constraints(s.db) && p.Rotating? && Act(cfg, s, p, c).p.answer.Ok?
    requires p.rowId in s.db.tokens ==> s.db.tokens[p.rowId].token == p.presented
    ensures Dead(Act(cfg, s, p, c).s.db, p.presented)
  {
    var db1 := RevokeToken(s.db, p.rowId).value;
    var db2 := CreateToken(db1, c.rowId, NewRow(cfg, p.userId, p.user, c)).value;
    assert db1.tokens[p.rowId].token == p.presented;
    forall i | Live(db2, i) ensures db2.tokens[i].token != p.presented {
      if i == c.rowId { assert !TokenStored(db1, db2.tokens[i].token); }
      else { assert Live(db1, i) && i != p.rowId; }
    }
  }

  // ---- one step of the machine ----

  /** Everything about a write that the invariant depends on. */
  ghost predicate Fits(cfg: Config, w: World, p: Proc, c: Choice, o: Outcome) {
    && Constraints(o.s.db) && Grown(cfg, w.s, o, c)
    && (o.p.Done? || o.p.Blacklisting?)
    && (forall t :: t in Issued(o.p) ==> Minted(cfg, t, c) && t.claims.sub == Grantee(p, c))
    && (o.p.Done? && o.p.answer.Ok? ==>
          && (o.p.answer.value.Session? <==> p.Registering? || p.LoggingIn?)
          && (o.p.answer.value.Tokens? <==> p.Rotating?))
    && (forall t :: Mints(o.p, t) ==> t in Issued(o.p) && t.claims.tokenType == Refresh
                                      && (p.Rotating? ==> Dead(o.s.db, p.presented)))
  }

  lemma {:induction false} ActFits(cfg: Config, w: World, p: Proc, c: Choice)
    requires Inv(cfg, w) && ProcOk(cfg, w, p) && !p.Done?
    ensures Fits(cfg, w, p, c, Act(cfg, w.s, p, c))
  {
    ActGrows(cfg, w.s, p, c);
    ActMints(cfg, w.s, p, c);
    if p.Rotating? && Act(cfg, w.s, p, c).p.answer.Ok? { RotationKills(cfg, w.s, p, c); }
  }

  /** `w'` is `w` after request `rid` has written with outcome `o`. */
  ghost predicate Written(cfg: Config, w: World, rid: nat, c: Choice, o: Outcome, w': World) {
    && cfg.Valid() && Inv(cfg, w) && Enabled(w, Continue(rid, c)) && Fits(cfg, w, w.procs[rid], c, o)
    && w' == World(o.s, w.procs[rid := o.p], w.used + Drawn(c), w.signed + Issued(o.p),
                   Recorded(w.born, w.procs[rid], o.p))
  }

  /** The history entry of a token minted by `p`. */
  function BirthFrom(w: World, p: Proc, t: Token): Birth {
    if p.Rotating? && p.presented in w.born
    then Birth(FromRotation(p.presented), w.born[p.presented].depth + 1, w.born[p.presented].root)
    else Birth(if p.Registering? then FromRegister else FromLogin, 0, t)
  }

  /** `born'` keeps every entry of the history and adds one for the token `p'` mints, which was never
      stored before. */
  ghost predicate Adds(w: World, p: Proc, p': Proc, born': map<Token, Birth>) {
    && (forall t :: t in w.born ==> t in born' && born'[t] == w.born[t])
    && (forall t :: Mints(p', t) ==> t !in w.born && t in born')
    && (forall t :: t in born' && t !in w.born ==> Mints(p', t) && born'[t] == BirthFrom(w, p, t))
  }

  lemma RecordedAdds(cfg: Config, w: World, rid: nat, c: Choice, o: Outcome, w': World)
    requires Written(cfg, w, rid, c, o, w')
    ensures Adds(w, w.procs[rid], o.p, w'.born)
  {
    var p := w.procs[rid];
    assert ProcOk(cfg, w, p);
    forall t | Mints(o.p, t) ensures t !in w.born {
      assert t in Issued(o.p);
      assert t in w.born ==> BirthOk(w, t);
      assert t in w.signed ==> SignedOk(cfg, w.s.now, w.used, t);
    }
  }

  lemma WrittenIsLater(cfg: Config, w: World, rid: nat, c: Choice, o: Outcome, w': World)
    requires Written(cfg, w, rid, c, o, w')
    ensures Later(w, w') && IdsUsed(w') && RedisOk(w'.s)
  {
    RecordedAdds(cfg, w, rid, c, o, w');
    WrittenRowsAreLater(cfg, w, rid, c, o, w');
    WrittenRowsStay(cfg, w, rid, c, o, w');
  }

  lemma WrittenRowsStay(cfg: Config, w: World, rid: nat, c: Choice, o: Outcome, w': World)
    requires Written(cfg, w, rid, c, o, w')
    ensures forall i :: i in w.s.db.tokens && i in w.used ==> RowStays(w, w', i)
    ensures forall i :: i in w'.s.db.users ==> UserLater(w, w', i)
  {
  }

  lemma WrittenRowsAreLater(cfg: Config, w: World, rid: nat, c: Choice, o: Outcome, w': World)
    requires Written(cfg, w, rid, c, o, w')
    ensures forall i :: i in w'.s.db.tokens ==> RowLater(w, w', i)
  {
    RecordedAdds(cfg, w, rid, c, o, w');
    forall i | i in w'.s.db.tokens ensures RowLater(w, w', i) {
      if !RowKept(w.s.db, w'.s.db, i) { assert Mints(o.p, o.s.db.tokens[i].token); }
    }
  }

  lemma WrittenKeepsSigned(cfg: Config, w: World, rid: nat, c: Choice, o: Outcome, w': World)
    requires Written(cfg, w, rid, c, o, w')
    ensures SignedAllOk(cfg, w')
  {
    forall t | t in w'.signed ensures SignedOk(cfg, w'.s.now, w'.used, t) {
      if t in w.signed { assert SignedOk(cfg, w.s.now, w.used, t); }
      else { assert Minted(cfg, t, c); }
    }
  }

  lemma WrittenKeepsRows(cfg: Config, w: World, rid: nat, c: Choice, o: Outcome, w': World)
    requires Written(cfg, w, rid, c, o, w')
    ensures RowsOk(w')
  {
    RecordedAdds(cfg, w, rid, c, o, w');
    forall i | i in w'.s.db.tokens ensures RowOk(w'.born, w'.s.db.tokens[i]) {
      if RowKept(w.s.db, w'.s.db, i) {
        assert RowOk(w.born, w.s.db.tokens[i]);
      } else {
        var t := o.s.db.tokens[i].token;
        assert Mints(o.p, t) && Minted(cfg, t, c);
      }
    }
  }

  lemma WrittenKeepsBorn(cfg: Config, w: World, rid: nat, c: Choice, o: Outcome, w': World)
    requires Written(cfg, w, rid, c, o, w') && Later(w, w')
    ensures BornOk(w')
  {
    RecordedAdds(cfg, w, rid, c, o, w');
    var p := w.procs[rid];
    assert ProcOk(cfg, w, p);
    forall t | t in w'.born ensures BirthOk(w', t) {
      if t in w.born {
        assert BirthOk(w, t);
        if w.born[t].source.FromRotation? { DeadStaysDead(w, w', w.born[t].source.parent); }
      } else {
        assert Mints(o.p, t) && t in Issued(o.p);
      }
    }
  }

  lemma WrittenKeepsProcs(cfg: Config, w: World, rid: nat, c: Choice, o: Outcome, w': World)
    requires Written(cfg, w, rid, c, o, w') && Later(w, w')
    ensures ProcsOk(cfg, w')
  {
    forall x | x in w'.procs ensures ProcOk(cfg, w', w'.procs[x]) {
      if x != rid { LaterKeepsProc(cfg, w, w', w.procs[x]); }
    }
  }

  lemma LaterKeepsProc(cfg: Config, w: World, w': World, p: Proc)
    requires ProcOk(cfg, w, p) && Later(w, w') && IdsUsed(w)
    ensures ProcOk(cfg, w', p)
  {
    if p.LoggingIn? && p.userId in w'.s.db.users { assert UserLater(w, w', p.userId); }
    if p.Rotating? && p.userId in w'.s.db.users { assert UserLater(w, w', p.userId); }
    if p.Rotating? {
      forall i | i in w'.s.db.tokens && (i == p.rowId || w'.s.db.tokens[i].token == p.presented)
        ensures i == p.rowId && w'.s.db.tokens[i].token == p.presented && w'.s.db.tokens[i].userId == p.userId
      {
        assert RowLater(w, w', i);
      }
    }
  }

  lemma {:induction false} ContinueKeeps(cfg: Config, w: World, rid: nat, c: Choice)
    requires cfg.Valid() && Inv(cfg, w) && Enabled(w, Continue(rid, c))
    ensures Inv(cfg, Step(cfg, w, Continue(rid, c))) && Later(w, Step(cfg, w, Continue(rid, c)))
  {
    var p := w.procs[rid];
    assert ProcOk(cfg, w, p);
    var o := Act(cfg, w.s, p, c);
    ActFits(cfg, w, p, c);
    var w' := Step(cfg, w, Continue(rid, c));
    WrittenIsLater(cfg, w, rid, c, o, w');
    WrittenKeepsSigned(cfg, w, rid, c, o, w');
    WrittenKeepsRows(cfg, w, rid, c, o, w');
    WrittenKeepsBorn(cfg, w, rid, c, o, w');
    WrittenKeepsProcs(cfg, w, rid, c, o, w');
  }

  lemma TickIsLater(cfg: Config, w: World, ms: nat)
    requires Inv(cfg, w)
    ensures Later(w, Step(cfg, w, Tick(ms))) && SignedAllOk(cfg, Step(cfg, w, Tick(ms)))
  {
    var w' := Step(cfg, w, Tick(ms));
    forall t | t in w'.signed ensures SignedOk(cfg, w'.s.now, w'.used, t) {
      assert SignedOk(cfg, w.s.now, w.used, t);
    }
  }

  lemma TickKeeps(cfg: Config, w: World, ms: nat)
    requires Inv(cfg, w)
    ensures Inv(cfg, Step(cfg, w, Tick(ms))) && Later(w, Step(cfg, w, Tick(ms)))
  {
    var w' := Step(cfg, w, Tick(ms));
    TickIsLater(cfg, w, ms);
    forall x | x in w'.procs ensures ProcOk(cfg, w', w'.procs[x]) { LaterKeepsProc(cfg, w, w', w.procs[x]); }
    forall t | t in w'.born ensures BirthOk(w', t) { assert BirthOk(w, t); }
  }

  lemma ReadPhaseOk(cfg: Config, w: World, req: Request, r: ReadChoice)
    requires Inv(cfg, w)
    ensures ProcOk(cfg, w, ReadPhase(cfg, w.s, req, r))
  {
    if req.Rotate? {
      var p := ReadRotation(cfg, w.s, req.token, r.verifiedAt);
      if p.Rotating? { assert RowOk(w.born, w.s.db.tokens[p.rowId]); }
    }
  }

  lemma BeginKeeps(cfg: Config, w: World, rid: nat, req: Request, r: ReadChoice)
    requires Inv(cfg, w) && Enabled(w, Begin(rid, req, r))
    ensures Inv(cfg, Step(cfg, w, Begin(rid, req, r))) && Later(w, Step(cfg, w, Begin(rid, req, r)))
  {
    var p := ReadPhase(cfg, w.s, req, r);
    ReadPhaseOk(cfg, w, req, r);
    ProcAdded(cfg, w, rid, p);
  }

  lemma ProcAdded(cfg: Config, w: World, rid: nat, p: Proc)
    requires Inv(cfg, w) && ProcOk(cfg, w, p)
    ensures var w' := w.(procs := w.procs[rid := p]); Inv(cfg, w') && Later(w, w')
  {
    var w' := w.(procs := w.procs[rid := p]);
    assert Later(w, w');
    forall x | x in w'.procs ensures ProcOk(cfg, w', w'.procs[x]) {
      LaterKeepsProc(cfg, w, w', if x == rid then p else w.procs[x]);
    }
    forall t | t in w'.born ensures BirthOk(w', t) { assert BirthOk(w, t); }
  }

  /** A newly signed refresh token is in no row. */
  lemma FreshToken(cfg: Config, w: World, c: Choice, userId: Uuid, user: User)
    requires Inv(cfg, w) && Drawn(c) !! w.used
    ensures !TokenStored(w.s.db, NewRow(cfg, userId, user, c).token)
    ensures c.rowId !in w.s.db.tokens && c.userId !in w.s.db.users
  {
    forall i | i in w.s.db.tokens ensures w.s.db.tokens[i].token != NewRow(cfg, userId, user, c).token {
      var t := w.s.db.tokens[i].token;
      assert RowOk(w.born, w.s.db.tokens[i]) && BirthOk(w, t) && SignedOk(cfg, w.s.now, w.used, t);
    }
  }

  // ---- whole runs ----

  lemma {:induction false} StepKeeps(cfg: Config, w: World, ev: Event)
    requires cfg.Valid() && Inv(cfg, w) && Enabled(w, ev)
    ensures Inv(cfg, Step(cfg, w, ev)) && Later(w, Step(cfg, w, ev))
  {
    match ev
    case Tick(ms) => TickKeeps(cfg, w, ms);
    case Begin(rid, req, r) => BeginKeeps(cfg, w, rid, req, r);
    case Continue(rid, c) => ContinueKeeps(cfg, w, rid, c);
  }

  lemma {:induction false} RunKeeps(cfg: Config, w: World, evs: seq<Event>)
    requires cfg.Valid() && Inv(cfg, w) && ValidRun(cfg, w, evs)
    ensures Inv(cfg, Exec(cfg, w, evs)) && Later(w, Exec(cfg, w, evs))
  {
    if evs != [] {
      var pre := evs[..|evs| - 1];
      RunKeeps(cfg, w, pre);
      StepKeeps(cfg, Exec(cfg, w, pre), evs[|evs| - 1]);
      LaterTransitive(w, Exec(cfg, w, pre), Exec(cfg, w, evs));
    }
  }

  /** Every state any interleaving can reach from an initial one. */
  lemma {:induction false} ReachableInv(cfg: Config, w: World, evs: seq<Event>)
    requires cfg.Valid() && Initial(w) && ValidRun(cfg, w, evs)
    ensures Inv(cfg, Exec(cfg, w, evs))
  {
    RunKeeps(cfg, w, evs);
  }
}
