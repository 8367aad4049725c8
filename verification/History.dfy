/** Properties of whole interleaved runs: lineage, permanent revocation, password changes, the two token
    types, and the constraints of the store. */
module History {
  import opened Domain
  import opened Jwt
  import opened Store
  import opened Machine
  import opened Invariants

  // ---- lineage ----

  /** A refresh token, the token it replaced, and so on up to the token of a registration or login. */
  ghost function Ancestry(w: World, t: Token): seq<Token>
    requires BornOk(w) && t in w.born
    decreases w.born[t].depth
  {
    assert BirthOk(w, t);
    match w.born[t].source
    case FromRotation(parent) => [t] + Ancestry(w, parent)
    case _ => [t]
  }

  /** Parent links never loop; every proper ancestor is dead and belongs to the same user; the last one
      was issued by a registration or a login and is the lineage's root. */
  lemma {:induction false} AncestryIsLinear(w: World, t: Token)
    requires BornOk(w) && t in w.born
    ensures var chain := Ancestry(w, t); var n := |chain|;
      && t.Signed? && n == w.born[t].depth + 1 && chain[0] == t && chain[n - 1] == w.born[t].root
      && (forall k :: 0 <= k < n ==>
            && chain[k] in w.born && w.born[chain[k]].depth == n - 1 - k
            && chain[k].Signed? && chain[k].claims.sub == t.claims.sub)
      && (forall k :: 0 < k < n ==>
            Dead(w.s.db, chain[k]) && w.born[chain[k - 1]].source == FromRotation(chain[k]))
      && !w.born[chain[n - 1]].source.FromRotation?
      && (forall j, k :: 0 <= j < k < n ==> chain[j] != chain[k])
    decreases w.born[t].depth
  {
    assert BirthOk(w, t);
    if w.born[t].source.FromRotation? {
      AncestryIsLinear(w, w.born[t].source.parent);
    }
  }

  /** In every reachable state every stored refresh token has such a lineage, ending at a registration
      or login token of the owner. */
  lemma EveryRowHasALineage(cfg: Config, w0: World, evs: seq<Event>, i: Uuid)
    requires cfg.Valid() && Initial(w0) && ValidRun(cfg, w0, evs)
    requires i in Exec(cfg, w0, evs).s.db.tokens
    ensures var w := Exec(cfg, w0, evs); var row := w.s.db.tokens[i];
      && BornOk(w) && row.token in w.born
      && var chain := Ancestry(w, row.token); var root := chain[|chain| - 1];
      && root in w.born && !w.born[root].source.FromRotation?
      && root.Signed? && root.claims.sub == row.userId && row.userId in w.s.db.users
      && forall k :: 0 < k < |chain| ==> Dead(w.s.db, chain[k])
  {
    ReachableInv(cfg, w0, evs);
    var w := Exec(cfg, w0, evs);
    assert RowOk(w.born, w.s.db.tokens[i]);
    AncestryIsLinear(w, w.s.db.tokens[i].token);
  }

  // ---- revocation is permanent ----

  /** A refresh that reads a dead token answers 401, whatever its signature says. */
  lemma DeadTokenIsRefused(cfg: Config, s: Shared, t: Token, r: ReadChoice)
    requires Dead(s.db, t)
    ensures var p := ReadPhase(cfg, s, Rotate(t), r);
      p.Done? && p.answer.Err? && StatusOf(p.answer.error) == 401
  {
    if FindToken(s.db, t).Some? {
      assert !Live(s.db, FindToken(s.db, t).value);
    }
  }

  /** A token string that was stored once and is gone is never stored again. */
  lemma DeletedStringsStayAway(w: World, w': World, t: Token)
    requires Later(w, w') && t in w.born && TokenStored(w'.s.db, t)
    ensures TokenStored(w.s.db, t)
  {
    var i :| i in w'.s.db.tokens && w'.s.db.tokens[i].token == t;
    assert RowLater(w, w', i);
  }

  /** A token revoked or deleted at any moment of a run stays so, its string is never stored again once
      it is gone, and every refresh that reads it from then on answers 401. */
  lemma {:induction false} RevocationIsPermanent(cfg: Config, w0: World, past: seq<Event>, future: seq<Event>,
                                                 t: Token, r: ReadChoice)
    requires cfg.Valid() && Initial(w0) && ValidRun(cfg, w0, past) && ValidRun(cfg, Exec(cfg, w0, past), future)
    requires t in Exec(cfg, w0, past).born && Dead(Exec(cfg, w0, past).s.db, t)
    ensures var w, w' := Exec(cfg, w0, past), Exec(cfg, Exec(cfg, w0, past), future);
      var p := ReadPhase(cfg, w'.s, Rotate(t), r);
      && Dead(w'.s.db, t)
      && (TokenStored(w'.s.db, t) ==> TokenStored(w.s.db, t))
      && p.Done? && p.answer.Err? && StatusOf(p.answer.error) == 401
  {
    var w := Exec(cfg, w0, past);
    ReachableInv(cfg, w0, past);
    RunKeeps(cfg, w, future);
    var w' := Exec(cfg, w, future);
    DeadStaysDead(w, w', t);
    DeadTokenIsRefused(cfg, w'.s, t, r);
    if TokenStored(w'.s.db, t) { DeletedStringsStayAway(w, w', t); }
  }

  // ---- password change ----

  lemma ChangeRevokesAll(cfg: Config, s: Shared, p: Proc, c: Choice)
    requires p.ChangingPassword? && Act(cfg, s, p, c).p.answer.Ok?
    ensures var db := Act(cfg, s, p, c).s.db;
      p.userId in db.users && forall i :: Live(db, i) ==> db.tokens[i].userId != p.userId
  {
  }

  /** The write of a password change kills every token of that user stored so far. */
  lemma PasswordChangeKills(cfg: Config, w: World, rid: nat, c: Choice)
    requires cfg.Valid() && Inv(cfg, w) && Enabled(w, Continue(rid, c)) && w.procs[rid].ChangingPassword?
    requires Act(cfg, w.s, w.procs[rid], c).p.answer.Ok?
    ensures var w', u := Step(cfg, w, Continue(rid, c)), w.procs[rid].userId;
      && u in w'.s.db.users
      && forall t :: t in w'.born && t.Signed? && t.claims.sub == u ==> Dead(w'.s.db, t)
  {
    var w', u := Step(cfg, w, Continue(rid, c)), w.procs[rid].userId;
    ChangeRevokesAll(cfg, w.s, w.procs[rid], c);
    StepKeeps(cfg, w, Continue(rid, c));
    forall t, i | t in w'.born && t.Signed? && t.claims.sub == u && Live(w'.s.db, i)
      ensures w'.s.db.tokens[i].token != t
    {
      assert RowOk(w'.born, w'.s.db.tokens[i]);
    }
  }

  /** After a password change, under every interleaving, each live refresh token of the user was
      stored by a later write. */
  lemma {:induction false} LiveTokensPostdatePasswordChange(cfg: Config, w: World, rid: nat, c: Choice,
                                                            evs: seq<Event>, i: Uuid)
    requires cfg.Valid() && Inv(cfg, w) && Enabled(w, Continue(rid, c)) && w.procs[rid].ChangingPassword?
    requires Act(cfg, w.s, w.procs[rid], c).p.answer.Ok?
    requires ValidRun(cfg, Step(cfg, w, Continue(rid, c)), evs)
    requires Live(Exec(cfg, Step(cfg, w, Continue(rid, c)), evs).s.db, i)
    requires Exec(cfg, Step(cfg, w, Continue(rid, c)), evs).s.db.tokens[i].userId == w.procs[rid].userId
    ensures var w1 := Step(cfg, w, Continue(rid, c)); Exec(cfg, w1, evs).s.db.tokens[i].token !in w1.born
  {
    var w1 := Step(cfg, w, Continue(rid, c));
    PasswordChangeKills(cfg, w, rid, c);
    StepKeeps(cfg, w, Continue(rid, c));
    RunKeeps(cfg, w1, evs);
    var w2 := Exec(cfg, w1, evs);
    assert RowOk(w2.born, w2.s.db.tokens[i]);
    if w2.s.db.tokens[i].token in w1.born { DeadStaysDead(w1, w2, w2.s.db.tokens[i].token); }
  }

  // ---- the two token types ----

  /** In every reachable state, and even with equal secrets, an access token is never rotated and a
      refresh token never passes authentication. */
  lemma {:induction false} KindsAreSeparate(cfg: Config, w0: World, evs: seq<Event>, t: Token, r: ReadChoice)
    requires cfg.Valid() && Initial(w0) && ValidRun(cfg, w0, evs) && t.Signed?
    ensures var s := Exec(cfg, w0, evs).s;
      && (t.claims.tokenType == Access ==>
            && !TokenStored(s.db, t)
            && ReadPhase(cfg, s, Rotate(t), r).Done? && ReadPhase(cfg, s, Rotate(t), r).answer.Err?)
      && (t.claims.tokenType == Refresh ==>
            ReadPhase(cfg, s, Authenticate(t), r).Done? && ReadPhase(cfg, s, Authenticate(t), r).answer.Err?)
  {
    ReachableInv(cfg, w0, evs);
    var w := Exec(cfg, w0, evs);
    if TokenStored(w.s.db, t) {
      var i :| i in w.s.db.tokens && w.s.db.tokens[i].token == t;
      assert RowOk(w.born, w.s.db.tokens[i]) && BirthOk(w, t);
    }
  }

  // ---- expiry and constraints ----

  /** At one instant a stored token whose signature has not expired passes the expiry test of its row. */
  lemma {:induction false} SignatureExpiresFirst(cfg: Config, w0: World, evs: seq<Event>, i: Uuid)
    requires cfg.Valid() && Initial(w0) && ValidRun(cfg, w0, evs)
    requires i in Exec(cfg, w0, evs).s.db.tokens
    ensures var s := Exec(cfg, w0, evs).s; var row := s.db.tokens[i];
      && row.token.Signed? && 1000 * row.token.claims.exp <= row.expiresAt
      && (Verify(row.token, cfg.refreshSecret, s.now).Ok? ==> s.now < row.expiresAt)
  {
    ReachableInv(cfg, w0, evs);
    assert RowOk(Exec(cfg, w0, evs).born, Exec(cfg, w0, evs).s.db.tokens[i]);
  }

  /** With a refresh lifetime of exactly seven days a new row outlives its signature by the time between
      signing and stamping plus what flooring cut off, which is less than a second. */
  lemma ExpiryGap(cfg: Config, userId: Uuid, user: User, c: Choice)
    requires cfg.refreshTtl == 604_800 && c.signedAt <= c.stampedAt
    ensures var row := NewRow(cfg, userId, user, c); var gap := row.expiresAt - 1000 * row.token.claims.exp;
      c.stampedAt - c.signedAt <= gap < c.stampedAt - c.signedAt + 1000
  {
    assert c.signedAt == 1000 * (c.signedAt / 1000) + c.signedAt % 1000;
  }

  /** Every reachable state meets the schema's constraints; a write that answers with an error leaves
      the tables, Redis and the lineage as they were. */
  lemma ConstraintsAndAborts(cfg: Config, w0: World, evs: seq<Event>, rid: nat, c: Choice)
    requires cfg.Valid() && Initial(w0) && ValidRun(cfg, w0, evs)
    requires Enabled(Exec(cfg, w0, evs), Continue(rid, c))
    ensures var w := Exec(cfg, w0, evs); var w' := Step(cfg, w, Continue(rid, c));
      && Constraints(w.s.db) && Constraints(w'.s.db)
      && (w'.procs[rid].Done? && w'.procs[rid].answer.Err? ==>
            w'.s == w.s && w'.born == w.born && w'.signed == w.signed)
  {
    ReachableInv(cfg, w0, evs);
    StepKeeps(cfg, Exec(cfg, w0, evs), Continue(rid, c));
  }
}
