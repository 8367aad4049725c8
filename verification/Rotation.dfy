/** Rotation: how many live tokens a user has after each write, and exactly which runs keep lineages
    chains. */
module Rotation {
  import opened Domain
  import opened Store
  import opened Machine
  import opened Invariants
  import opened History
  import opened Linearizability

  // ---- counting ----

  ghost function LiveOf(db: Db, u: Uuid): set<Uuid> {
    set i | i in db.tokens && Live(db, i) && db.tokens[i].userId == u
  }

  /** What a successful write adds to the number of live tokens of user `v`. */
  ghost function Delta(db: Db, p: Proc, c: Choice, v: Uuid): int {
    match p
    case Registering(_, _, _) => if v == c.userId then 1 else 0
    case LoggingIn(_, _, userId, _, _) => if v == userId then 1 else 0
    case Rotating(_, rowId, userId, _, _) => if v == userId && !Live(db, rowId) then 1 else 0
    case LoggingOut(userId, token, _) =>
      if v == userId && exists i :: i in LiveOf(db, v) && db.tokens[i].token == token then -1 else 0
    case ChangingPassword(userId, _, _, _) => if v == userId then -|LiveOf(db, v)| else 0
    case Deleting(id) => if v == id then -|LiveOf(db, v)| else 0
    case _ => 0
  }

  lemma AddedRowCounts(db: Db, db': Db, rowId: Uuid, row: RefreshToken, v: Uuid)
    requires rowId !in db.tokens && !row.isRevoked && db'.tokens == db.tokens[rowId := row]
    ensures |LiveOf(db', v)| == |LiveOf(db, v)| + if v == row.userId then 1 else 0
  {
    if v == row.userId { assert LiveOf(db', v) == LiveOf(db, v) + {rowId}; }
    else { assert LiveOf(db', v) == LiveOf(db, v); }
  }

  lemma RevokedRowCounts(db: Db, rowId: Uuid, v: Uuid)
    requires rowId in db.tokens
    ensures |LiveOf(RevokeToken(db, rowId).value, v)| == |LiveOf(db, v)| - if rowId in LiveOf(db, v) then 1 else 0
  {
    assert LiveOf(RevokeToken(db, rowId).value, v) == LiveOf(db, v) - {rowId};
  }

  lemma GrantCounts(cfg: Config, s: Shared, p: Proc, c: Choice, v: Uuid)
    requires (p.Registering? || p.LoggingIn?) && Act(cfg, s, p, c).p.answer.Ok?
    ensures |LiveOf(Act(cfg, s, p, c).s.db, v)| == |LiveOf(s.db, v)| + Delta(s.db, p, c, v)
  {
    var user := if p.LoggingIn? then p.user else User(p.email, p.username, cfg.hash(p.password, c.salt), USER, true);
    AddedRowCounts(s.db, Act(cfg, s, p, c).s.db, c.rowId, NewRow(cfg, Grantee(p, c), user, c), v);
  }

  lemma RotationCounts(cfg: Config, s: Shared, p: Proc, c: Choice, v: Uuid)
    requires p.Rotating? && Act(cfg, s, p, c).p.answer.Ok?
    requires p.rowId in s.db.tokens ==> s.db.tokens[p.rowId].userId == p.userId
    ensures |LiveOf(Act(cfg, s, p, c).s.db, v)| == |LiveOf(s.db, v)| + Delta(s.db, p, c, v)
  {
    var db := RevokeToken(s.db, p.rowId).value;
    RevokedRowCounts(s.db, p.rowId, v);
    AddedRowCounts(db, Act(cfg, s, p, c).s.db, c.rowId, NewRow(cfg, p.userId, p.user, c), v);
  }

  lemma LogoutCounts(db: Db, userId: Uuid, token: Token, v: Uuid)
    requires UniqueTokens(db)
    ensures |LiveOf(RevokeMany(db, userId, Some(token)), v)| == |LiveOf(db, v)| +
      if v == userId && exists i :: i in LiveOf(db, v) && db.tokens[i].token == token then -1 else 0
  {
    var db' := RevokeMany(db, userId, Some(token));
    if v == userId && exists i :: i in LiveOf(db, v) && db.tokens[i].token == token {
      var i :| i in LiveOf(db, v) && db.tokens[i].token == token;
      assert LiveOf(db', v) == LiveOf(db, v) - {i};
    } else {
      assert LiveOf(db', v) == LiveOf(db, v);
    }
  }

  lemma ClearanceCounts(cfg: Config, s: Shared, p: Proc, c: Choice, v: Uuid)
    requires (p.ChangingPassword? || p.Deleting?) && Act(cfg, s, p, c).p.answer.Ok?
    ensures |LiveOf(Act(cfg, s, p, c).s.db, v)| == |LiveOf(s.db, v)| + Delta(s.db, p, c, v)
  {
    var db' := Act(cfg, s, p, c).s.db;
    if v == (if p.Deleting? then p.id else p.userId) { assert LiveOf(db', v) == {}; }
    else { assert LiveOf(db', v) == LiveOf(s.db, v); }
  }

  lemma UpdateCounts(db: Db, id: Uuid, patch: Patch, v: Uuid)
    requires PatchUser(db, id, patch).Ok?
    ensures LiveOf(PatchUser(db, id, patch).value, v) == LiveOf(db, v)
  {
  }

  lemma WriteCounts(cfg: Config, s: Shared, p: Proc, c: Choice, v: Uuid)
    requires Constraints(s.db) && !p.Done?
    requires Act(cfg, s, p, c).p.Done? ==> Act(cfg, s, p, c).p.answer.Ok?
    requires p.Rotating? && p.rowId in s.db.tokens ==> s.db.tokens[p.rowId].userId == p.userId
    ensures |LiveOf(Act(cfg, s, p, c).s.db, v)| == |LiveOf(s.db, v)| + Delta(s.db, p, c, v)
  {
    if p.Registering? || p.LoggingIn? { GrantCounts(cfg, s, p, c, v); }
    else if p.Rotating? { RotationCounts(cfg, s, p, c, v); }
    else if p.LoggingOut? { LogoutCounts(s.db, p.userId, p.token, v); }
    else if p.ChangingPassword? || p.Deleting? { ClearanceCounts(cfg, s, p, c, v); }
    else if p.Updating? { UpdateCounts(s.db, p.id, p.patch, v); }
  }

  /** In every reachable state, a write that does not fail changes the number of live tokens of each
      user by exactly `Delta`: one more for a registration or login, none for a rotation of a live
      token, one fewer for a logout that hits, all gone for a password change or a deletion. */
  lemma LiveCountMoves(cfg: Config, w0: World, evs: seq<Event>, rid: nat, c: Choice, v: Uuid)
    requires cfg.Valid() && Initial(w0) && ValidRun(cfg, w0, evs)
    requires Enabled(Exec(cfg, w0, evs), Continue(rid, c))
    requires var w' := Step(cfg, Exec(cfg, w0, evs), Continue(rid, c)); w'.procs[rid].Done? ==> w'.procs[rid].answer.Ok?
    ensures var w, w' := Exec(cfg, w0, evs), Step(cfg, Exec(cfg, w0, evs), Continue(rid, c));
      |LiveOf(w'.s.db, v)| == |LiveOf(w.s.db, v)| + Delta(w.s.db, w.procs[rid], c, v)
  {
    ReachableInv(cfg, w0, evs);
    var w := Exec(cfg, w0, evs);
    assert ProcOk(cfg, w, w.procs[rid]);
    WriteCounts(cfg, w.s, w.procs[rid], c, v);
  }

  // ---- lineages as chains ----

  ghost predicate Siblings(born: map<Token, Birth>, t: Token, u: Token) {
    t in born && u in born && born[t].source.FromRotation? && born[t].source == born[u].source
  }

  ghost predicate NoSiblings(born: map<Token, Birth>) {
    forall t, u :: Siblings(born, t, u) ==> t == u
  }

  ghost predicate SameLineage(w: World, i: Uuid, j: Uuid) requires Live(w.s.db, i) && Live(w.s.db, j) {
    var t, u := w.s.db.tokens[i].token, w.s.db.tokens[j].token;
    t in w.born && u in w.born && w.born[t].root == w.born[u].root
  }

  /** Lineages are chains: no token has two children, and each lineage has at most one live token. */
  ghost predicate Chains(w: World) {
    && NoSiblings(w.born)
    && (forall i, j :: Live(w.s.db, i) && Live(w.s.db, j) && SameLineage(w, i, j) ==> i == j)
  }

  lemma {:induction false} SameDepthIsSame(w: World, t: Token, u: Token)
    requires BornOk(w) && NoSiblings(w.born) && t in w.born && u in w.born
    requires w.born[t].root == w.born[u].root && w.born[t].depth == w.born[u].depth
    ensures t == u
    decreases w.born[t].depth
  {
    assert BirthOk(w, t) && BirthOk(w, u);
    if w.born[t].source.FromRotation? {
      SameDepthIsSame(w, w.born[t].source.parent, w.born[u].source.parent);
      assert Siblings(w.born, t, u);
    }
  }

  lemma {:induction false} ShallowerIsDead(w: World, t: Token, u: Token)
    requires BornOk(w) && NoSiblings(w.born) && t in w.born && u in w.born
    requires w.born[t].root == w.born[u].root && w.born[t].depth < w.born[u].depth
    ensures Dead(w.s.db, t)
    decreases w.born[u].depth
  {
    assert BirthOk(w, u);
    var parent := w.born[u].source.parent;
    if w.born[t].depth == w.born[parent].depth {
      SameDepthIsSame(w, t, parent);
    } else {
      ShallowerIsDead(w, t, parent);
    }
  }

  /** One child per token is all it takes: then a lineage has one live token at most. */
  lemma {:induction false} ChainsIffNoSiblings(cfg: Config, w: World)
    requires Inv(cfg, w)
    ensures Chains(w) <==> NoSiblings(w.born)
  {
    if NoSiblings(w.born) {
      forall i, j | Live(w.s.db, i) && Live(w.s.db, j) && SameLineage(w, i, j) ensures i == j {
        var t, u := w.s.db.tokens[i].token, w.s.db.tokens[j].token;
        if w.born[t].depth < w.born[u].depth { ShallowerIsDead(w, t, u); }
        else if w.born[u].depth < w.born[t].depth { ShallowerIsDead(w, u, t); }
        else { SameDepthIsSame(w, t, u); }
      }
    }
  }

  // ---- the refreshes of a run ----

  ghost predicate Waits(w: World, rid: nat, t: Token) {
    rid in w.procs && w.procs[rid].Rotating? && w.procs[rid].presented == t
  }

  /** In the run, a refresh presenting `p` begins with event `b`, and event `c` is its write, which
      succeeds and answers with `t`. */
  ghost predicate Refreshed(cfg: Config, w0: World, evs: seq<Event>, b: nat, c: nat, p: Token, t: Token) {
    && b < c < |evs|
    && evs[b].Begin? && evs[b].req == Rotate(p) && evs[c].Continue? && evs[c].rid == evs[b].rid
    && Waits(Exec(cfg, w0, evs[..c]), evs[b].rid, p)
    && evs[b].rid in Exec(cfg, w0, evs[..c + 1]).procs
    && Mints(Exec(cfg, w0, evs[..c + 1]).procs[evs[b].rid], t)
  }

  lemma {:induction false} RefreshedLater(cfg: Config, w0: World, evs: seq<Event>, b: nat, c: nat, p: Token, t: Token)
    requires evs != [] && Refreshed(cfg, w0, evs[..|evs| - 1], b, c, p, t)
    ensures Refreshed(cfg, w0, evs, b, c, p, t)
  {
    assert evs[..|evs| - 1][..c] == evs[..c] && evs[..|evs| - 1][..c + 1] == evs[..c + 1];
  }

  /** A waiting refresh began with an event of the run. */
  lemma {:induction false} WaitingBegan(cfg: Config, w0: World, evs: seq<Event>, rid: nat) returns (b: nat)
    requires ValidRun(cfg, w0, evs) && w0.procs == map[]
    requires rid in Exec(cfg, w0, evs).procs && Exec(cfg, w0, evs).procs[rid].Rotating?
    ensures b < |evs| && evs[b].Begin? && evs[b].rid == rid
    ensures evs[b].req == Rotate(Exec(cfg, w0, evs).procs[rid].presented)
  {
    var pre, ev := evs[..|evs| - 1], evs[|evs| - 1];
    var now := Exec(cfg, w0, pre);
    if ev.Begin? && ev.rid == rid {
      b := |evs| - 1;
    } else {
      if ev.Continue? && ev.rid == rid { ActMints(cfg, now.s, now.procs[rid], ev.c); }
      b := WaitingBegan(cfg, w0, pre, rid);
    }
  }

  /** A request that waits with a refresh at the end of a run has waited since it began. */
  lemma {:induction false} StillWaiting(cfg: Config, w: World, evs: seq<Event>, rid: nat)
    requires ValidRun(cfg, w, evs) && rid in w.procs
    requires rid in Exec(cfg, w, evs).procs && Exec(cfg, w, evs).procs[rid].Rotating?
    ensures w.procs[rid] == Exec(cfg, w, evs).procs[rid]
  {
    if evs != [] {
      var pre, ev := evs[..|evs| - 1], evs[|evs| - 1];
      ProcsRemain(cfg, w, pre, rid);
      var now := Exec(cfg, w, pre);
      if ev.Continue? && ev.rid == rid { ActMints(cfg, now.s, now.procs[rid], ev.c); }
      StillWaiting(cfg, w, pre, rid);
    }
  }

  lemma {:induction false} ProcsRemain(cfg: Config, w: World, evs: seq<Event>, rid: nat)
    requires rid in w.procs
    ensures rid in Exec(cfg, w, evs).procs
  {
    if evs != [] { ProcsRemain(cfg, w, evs[..|evs| - 1], rid); }
  }

  /** The write of a refresh that succeeds adds a child of the presented token that was never stored. */
  lemma {:induction false} RefreshBears(cfg: Config, w: World, rid: nat, c: Choice, t: Token)
    requires cfg.Valid() && Inv(cfg, w) && Enabled(w, Continue(rid, c)) && w.procs[rid].Rotating?
    requires Mints(Act(cfg, w.s, w.procs[rid], c).p, t)
    ensures var born' := Step(cfg, w, Continue(rid, c)).born;
      t !in w.born && t in born' && born'[t].source == FromRotation(w.procs[rid].presented)
  {
    assert ProcOk(cfg, w, w.procs[rid]);
    ActFits(cfg, w, w.procs[rid], c);
    RecordedAdds(cfg, w, rid, c, Act(cfg, w.s, w.procs[rid], c), Step(cfg, w, Continue(rid, c)));
  }

  /** A child that an event adds is the token a refresh answers with. */
  lemma {:induction false} NewChild(cfg: Config, w: World, ev: Event, t: Token)
    requires cfg.Valid() && Inv(cfg, w) && Enabled(w, ev)
    requires t in Step(cfg, w, ev).born && t !in w.born && Step(cfg, w, ev).born[t].source.FromRotation?
    ensures ev.Continue? && Waits(w, ev.rid, Step(cfg, w, ev).born[t].source.parent)
    ensures Mints(Step(cfg, w, ev).procs[ev.rid], t)
  {
    var p := w.procs[ev.rid];
    assert ProcOk(cfg, w, p);
    ActFits(cfg, w, p, ev.c);
    RecordedAdds(cfg, w, ev.rid, ev.c, Act(cfg, w.s, p, ev.c), Step(cfg, w, ev));
  }

  lemma {:induction false} LastRefreshed(cfg: Config, w0: World, evs: seq<Event>, b: nat, p: Token, t: Token)
    requires evs != [] && b < |evs| - 1
    requires evs[b].Begin? && evs[b].req == Rotate(p)
    requires evs[|evs| - 1].Continue? && evs[|evs| - 1].rid == evs[b].rid
    requires Waits(Exec(cfg, w0, evs[..|evs| - 1]), evs[b].rid, p)
    requires evs[b].rid in Exec(cfg, w0, evs).procs && Mints(Exec(cfg, w0, evs).procs[evs[b].rid], t)
    ensures Refreshed(cfg, w0, evs, b, |evs| - 1, p, t)
  {
    assert evs[..|evs| - 1 + 1] == evs;
  }

  /** Every child in a run was born by a refresh of the run. */
  lemma {:induction false} ChildWasRefreshed(cfg: Config, w0: World, evs: seq<Event>, t: Token) returns (b: nat, c: nat)
    requires cfg.Valid() && Initial(w0) && ValidRun(cfg, w0, evs)
    requires t in Exec(cfg, w0, evs).born && Exec(cfg, w0, evs).born[t].source.FromRotation?
    ensures Refreshed(cfg, w0, evs, b, c, Exec(cfg, w0, evs).born[t].source.parent, t)
  {
    var pre, ev := evs[..|evs| - 1], evs[|evs| - 1];
    var now, p := Exec(cfg, w0, pre), Exec(cfg, w0, evs).born[t].source.parent;
    ReachableInv(cfg, w0, pre);
    StepKeeps(cfg, now, ev);
    if t in now.born {
      b, c := ChildWasRefreshed(cfg, w0, pre, t);
      RefreshedLater(cfg, w0, evs, b, c, p, t);
    } else {
      NewChild(cfg, now, ev, t);
      b := WaitingBegan(cfg, w0, pre, ev.rid);
      c := |evs| - 1;
      assert pre[b] == evs[b];
      LastRefreshed(cfg, w0, evs, b, p, t);
    }
  }

  /** After event `c` of a valid run comes a valid run. */
  lemma {:induction false} AfterWrite(cfg: Config, w0: World, evs: seq<Event>, c: nat)
    requires cfg.Valid() && Initial(w0) && ValidRun(cfg, w0, evs) && c < |evs|
    ensures Exec(cfg, w0, evs[..c + 1]) == Step(cfg, Exec(cfg, w0, evs[..c]), evs[c])
    ensures Inv(cfg, Exec(cfg, w0, evs[..c])) && Enabled(Exec(cfg, w0, evs[..c]), evs[c])
    ensures Inv(cfg, Exec(cfg, w0, evs[..c + 1])) && Later(Exec(cfg, w0, evs[..c + 1]), Exec(cfg, w0, evs))
  {
    EventInRun(cfg, w0, evs, c);
    ReachableInv(cfg, w0, evs[..c]);
    ReachableInv(cfg, w0, evs[..c + 1]);
    assert evs[..c + 1] + evs[c + 1..] == evs;
    ExecConcat(cfg, w0, evs[..c + 1], evs[c + 1..]);
    RunKeeps(cfg, Exec(cfg, w0, evs[..c + 1]), evs[c + 1..]);
  }

  /** Each event of a valid run is one step from the state of the events before it. */
  lemma {:induction false} EventInRun(cfg: Config, w0: World, evs: seq<Event>, c: nat)
    requires ValidRun(cfg, w0, evs) && c < |evs|
    ensures ValidRun(cfg, w0, evs[..c]) && ValidRun(cfg, w0, evs[..c + 1])
    ensures Exec(cfg, w0, evs[..c + 1]) == Step(cfg, Exec(cfg, w0, evs[..c]), evs[c])
    ensures Enabled(Exec(cfg, w0, evs[..c]), evs[c])
  {
    var pre := evs[..|evs| - 1];
    if c == |pre| {
      assert evs[..c + 1] == evs;
    } else {
      assert pre[..c] == evs[..c] && pre[..c + 1] == evs[..c + 1];
      EventInRun(cfg, w0, pre, c);
    }
  }

  /** The write of a refresh adds a child that was never stored, and leaves the presented token dead. */
  lemma {:induction false} RefreshedBears(cfg: Config, w0: World, evs: seq<Event>, b: nat, c: nat, p: Token, t: Token)
    requires cfg.Valid() && Initial(w0) && ValidRun(cfg, w0, evs) && Refreshed(cfg, w0, evs, b, c, p, t)
    ensures t !in Exec(cfg, w0, evs[..c]).born && t in Exec(cfg, w0, evs[..c + 1]).born
    ensures Exec(cfg, w0, evs[..c + 1]).born[t].source == FromRotation(p)
    ensures p in Exec(cfg, w0, evs[..c + 1]).born && Dead(Exec(cfg, w0, evs[..c + 1]).s.db, p)
    ensures Later(Exec(cfg, w0, evs[..c + 1]), Exec(cfg, w0, evs))
  {
    AfterWrite(cfg, w0, evs, c);
    RefreshBears(cfg, Exec(cfg, w0, evs[..c]), evs[c].rid, evs[c].c, t);
    assert BirthOk(Exec(cfg, w0, evs[..c + 1]), t);
  }

  /** A refresh that reads a dead token has finished, for good, with its read. */
  lemma {:induction false} DeadReadNeverWaits(cfg: Config, w: World, evs: seq<Event>, rid: nat, t: Token, r: ReadChoice)
    requires Dead(w.s.db, t) && ValidRun(cfg, Step(cfg, w, Begin(rid, Rotate(t), r)), evs)
    ensures rid in Exec(cfg, Step(cfg, w, Begin(rid, Rotate(t), r)), evs).procs
    ensures Exec(cfg, Step(cfg, w, Begin(rid, Rotate(t), r)), evs).procs[rid].Done?
  {
    DeadTokenIsRefused(cfg, w.s, t, r);
    FinishedIsQuiet(cfg, Step(cfg, w, Begin(rid, Rotate(t), r)), evs, rid);
  }

  lemma {:induction false} DeadReadFinishes(cfg: Config, w0: World, evs: seq<Event>, b: nat, c: nat, p: Token)
    requires cfg.Valid() && Initial(w0) && ValidRun(cfg, w0, evs) && b < c <= |evs|
    requires evs[b].Begin? && evs[b].req == Rotate(p) && Dead(Exec(cfg, w0, evs[..b]).s.db, p)
    ensures !Waits(Exec(cfg, w0, evs[..c]), evs[b].rid, p)
  {
    AfterWrite(cfg, w0, evs, b);
    RunSplits(cfg, w0, evs, b + 1, c);
    assert evs[b] == Begin(evs[b].rid, Rotate(p), evs[b].r);
    DeadReadNeverWaits(cfg, Exec(cfg, w0, evs[..b]), evs[b + 1..c], evs[b].rid, p, evs[b].r);
  }

  /** If two refreshes of one token both succeed, the second has begun before the first writes. */
  lemma {:induction false} SecondBeganEarly(cfg: Config, w0: World, evs: seq<Event>, b1: nat, c1: nat, b2: nat, c2: nat,
                                            p: Token, t: Token, u: Token)
    requires cfg.Valid() && Initial(w0) && ValidRun(cfg, w0, evs)
    requires Refreshed(cfg, w0, evs, b1, c1, p, t) && Refreshed(cfg, w0, evs, b2, c2, p, u)
    ensures b2 < c1
  {
    if c1 < b2 {
      RefreshedBears(cfg, w0, evs, b1, c1, p, t);
      DeadBetween(cfg, w0, evs, c1 + 1, b2, p);
      DeadReadFinishes(cfg, w0, evs, b2, c2, p);
      assert false;
    }
  }

  lemma {:induction false} DeadBetween(cfg: Config, w0: World, evs: seq<Event>, i: nat, j: nat, t: Token)
    requires cfg.Valid() && Initial(w0) && ValidRun(cfg, w0, evs) && i <= j <= |evs|
    requires t in Exec(cfg, w0, evs[..i]).born && Dead(Exec(cfg, w0, evs[..i]).s.db, t)
    ensures Dead(Exec(cfg, w0, evs[..j]).s.db, t)
  {
    RunSplits(cfg, w0, evs, i, j);
    ReachableInv(cfg, w0, evs[..i]);
    RunKeeps(cfg, Exec(cfg, w0, evs[..i]), evs[i..j]);
    DeadStaysDead(Exec(cfg, w0, evs[..i]), Exec(cfg, w0, evs[..j]), t);
  }

  /** Two refreshes of one token that both succeed, each of which had begun before the other wrote. */
  ghost predicate Overlap(cfg: Config, w0: World, evs: seq<Event>, b1: nat, c1: nat, b2: nat, c2: nat,
                          p: Token, t: Token, u: Token)
  {
    && Refreshed(cfg, w0, evs, b1, c1, p, t) && Refreshed(cfg, w0, evs, b2, c2, p, u)
    && c1 != c2 && b1 < c2 && b2 < c1
  }

  lemma {:induction false} OneTokenPerWrite(cfg: Config, w0: World, evs: seq<Event>, b1: nat, b2: nat, c: nat,
                                            p: Token, t: Token, u: Token)
    requires Refreshed(cfg, w0, evs, b1, c, p, t) && Refreshed(cfg, w0, evs, b2, c, p, u)
    ensures t == u
  {
  }

  lemma {:induction false} SiblingsOverlap(cfg: Config, w0: World, evs: seq<Event>, t: Token, u: Token)
    returns (b1: nat, c1: nat, b2: nat, c2: nat)
    requires cfg.Valid() && Initial(w0) && ValidRun(cfg, w0, evs)
    requires Siblings(Exec(cfg, w0, evs).born, t, u) && t != u
    ensures Overlap(cfg, w0, evs, b1, c1, b2, c2, Exec(cfg, w0, evs).born[t].source.parent, t, u)
  {
    var p := Exec(cfg, w0, evs).born[t].source.parent;
    b1, c1 := ChildWasRefreshed(cfg, w0, evs, t);
    b2, c2 := ChildWasRefreshed(cfg, w0, evs, u);
    SecondBeganEarly(cfg, w0, evs, b1, c1, b2, c2, p, t, u);
    SecondBeganEarly(cfg, w0, evs, b2, c2, b1, c1, p, u, t);
    if c1 == c2 { OneTokenPerWrite(cfg, w0, evs, b1, b2, c1, p, t, u); }
  }

  lemma {:induction false} OverlapBranches(cfg: Config, w0: World, evs: seq<Event>, b1: nat, c1: nat, b2: nat, c2: nat,
                                           p: Token, t: Token, u: Token)
    requires cfg.Valid() && Initial(w0) && ValidRun(cfg, w0, evs)
    requires Overlap(cfg, w0, evs, b1, c1, b2, c2, p, t, u) && c1 < c2
    ensures Siblings(Exec(cfg, w0, evs).born, t, u) && t != u
  {
    RefreshedBears(cfg, w0, evs, b1, c1, p, t);
    RefreshedBears(cfg, w0, evs, b2, c2, p, u);
    RunSplits(cfg, w0, evs, c1 + 1, c2);
    ReachableInv(cfg, w0, evs[..c1 + 1]);
    RunKeeps(cfg, Exec(cfg, w0, evs[..c1 + 1]), evs[c1 + 1..c2]);
  }

  /** In every run, lineages are chains exactly when no two refreshes of one token overlap and both
      succeed. */
  lemma {:induction false} LineagesBranchIffRefreshesOverlap(cfg: Config, w0: World, evs: seq<Event>)
    requires cfg.Valid() && Initial(w0) && ValidRun(cfg, w0, evs)
    ensures !Chains(Exec(cfg, w0, evs)) <==>
      exists b1, c1, b2, c2, p, t, u :: Overlap(cfg, w0, evs, b1, c1, b2, c2, p, t, u)
  {
    ReachableInv(cfg, w0, evs);
    ChainsIffNoSiblings(cfg, Exec(cfg, w0, evs));
    if t, u :| Siblings(Exec(cfg, w0, evs).born, t, u) && t != u {
      var b1, c1, b2, c2 := SiblingsOverlap(cfg, w0, evs, t, u);
    }
    if b1, c1, b2, c2, p, t, u :| Overlap(cfg, w0, evs, b1, c1, b2, c2, p, t, u) {
      if c1 < c2 { OverlapBranches(cfg, w0, evs, b1, c1, b2, c2, p, t, u); }
      else { OverlapBranches(cfg, w0, evs, b2, c2, b1, c1, p, u, t); }
    }
  }

  /** The schedule: a refresh begins only when no other refresh of the same token is under way. */
  ghost predicate OneRefreshAtATime(cfg: Config, w0: World, evs: seq<Event>) {
    forall k :: 0 <= k < |evs| && evs[k].Begin? && evs[k].req.Rotate? ==>
      forall rid :: !Waits(Exec(cfg, w0, evs[..k]), rid, evs[k].req.token)
  }

  lemma {:induction false} OverlapBreaksSchedule(cfg: Config, w0: World, evs: seq<Event>, b1: nat, c1: nat, b2: nat,
                                                 c2: nat, p: Token, t: Token, u: Token)
    requires cfg.Valid() && Initial(w0) && ValidRun(cfg, w0, evs)
    requires Overlap(cfg, w0, evs, b1, c1, b2, c2, p, t, u) && b1 <= b2
    ensures !OneRefreshAtATime(cfg, w0, evs)
  {
    if b1 == b2 {
      OneWriteEach(cfg, w0, evs, b1, c1, c2, p, t, u);
    } else {
      WaitsBetween(cfg, w0, evs, b1, c1, b2, p, t);
    }
  }

  /** A refresh waits from its read to its write. */
  lemma {:induction false} WaitsBetween(cfg: Config, w0: World, evs: seq<Event>, b: nat, c: nat, k: nat,
                                        p: Token, t: Token)
    requires ValidRun(cfg, w0, evs) && Refreshed(cfg, w0, evs, b, c, p, t) && b < k <= c
    ensures Waits(Exec(cfg, w0, evs[..k]), evs[b].rid, p)
  {
    BegunRemains(cfg, w0, evs, b, k);
    RunSplits(cfg, w0, evs, c, c);
    assert evs[..c][..k] == evs[..k];
    WaitsSince(cfg, w0, evs[..c], k, evs[b].rid);
  }

  lemma {:induction false} WaitsSince(cfg: Config, w0: World, evs: seq<Event>, k: nat, rid: nat)
    requires k <= |evs| && ValidRun(cfg, w0, evs) && rid in Exec(cfg, w0, evs[..k]).procs
    requires rid in Exec(cfg, w0, evs).procs && Exec(cfg, w0, evs).procs[rid].Rotating?
    ensures Exec(cfg, w0, evs[..k]).procs[rid] == Exec(cfg, w0, evs).procs[rid]
  {
    ExecConcat(cfg, w0, evs[..k], evs[k..]);
    assert evs[..k] + evs[k..] == evs;
    StillWaiting(cfg, Exec(cfg, w0, evs[..k]), evs[k..], rid);
  }

  lemma {:induction false} BegunRemains(cfg: Config, w0: World, evs: seq<Event>, b: nat, k: nat)
    requires b < k <= |evs| && evs[b].Begin?
    ensures evs[b].rid in Exec(cfg, w0, evs[..k]).procs
  {
    RunSplits(cfg, w0, evs, b + 1, k);
    assert evs[..b + 1] == evs[..b] + [evs[b]];
    RunSnoc(cfg, w0, evs[..b], evs[b]);
    ProcsRemain(cfg, Exec(cfg, w0, evs[..b + 1]), evs[b + 1..k], evs[b].rid);
  }

  /** A refresh writes once. */
  lemma {:induction false} OneWriteEach(cfg: Config, w0: World, evs: seq<Event>, b: nat, c1: nat, c2: nat,
                                        p: Token, t: Token, u: Token)
    requires ValidRun(cfg, w0, evs)
    requires Refreshed(cfg, w0, evs, b, c1, p, t) && Refreshed(cfg, w0, evs, b, c2, p, u)
    ensures c1 == c2
  {
    if c1 < c2 { StaysDone(cfg, w0, evs, c1 + 1, c2, evs[b].rid); }
    if c2 < c1 { StaysDone(cfg, w0, evs, c2 + 1, c1, evs[b].rid); }
  }

  lemma {:induction false} StaysDone(cfg: Config, w0: World, evs: seq<Event>, i: nat, j: nat, rid: nat)
    requires ValidRun(cfg, w0, evs) && i <= j <= |evs|
    requires rid in Exec(cfg, w0, evs[..i]).procs && Exec(cfg, w0, evs[..i]).procs[rid].Done?
    ensures rid in Exec(cfg, w0, evs[..j]).procs && Exec(cfg, w0, evs[..j]).procs[rid].Done?
  {
    RunSplits(cfg, w0, evs, i, j);
    FinishedIsQuiet(cfg, Exec(cfg, w0, evs[..i]), evs[i..j], rid);
  }

  /** In every run that keeps to this schedule, whatever else interleaves, lineages are chains with at
      most one live token each. */
  lemma {:induction false} SerializedRunsChain(cfg: Config, w0: World, evs: seq<Event>)
    requires cfg.Valid() && Initial(w0) && ValidRun(cfg, w0, evs) && OneRefreshAtATime(cfg, w0, evs)
    ensures Chains(Exec(cfg, w0, evs))
  {
    LineagesBranchIffRefreshesOverlap(cfg, w0, evs);
    if b1, c1, b2, c2, p, t, u :| Overlap(cfg, w0, evs, b1, c1, b2, c2, p, t, u) {
      if b1 <= b2 { OverlapBreaksSchedule(cfg, w0, evs, b1, c1, b2, c2, p, t, u); }
      else { OverlapBreaksSchedule(cfg, w0, evs, b2, c2, b1, c1, p, u, t); }
    }
  }

  /** One write: a refresh that succeeds keeps lineages chains exactly when no refresh of the token it
      presents has succeeded before in the run. */
  lemma {:induction false} RotationKeepsChainsIff(cfg: Config, w0: World, evs: seq<Event>, rid: nat, c: Choice)
    requires cfg.Valid() && Initial(w0) && ValidRun(cfg, w0, evs) && Chains(Exec(cfg, w0, evs))
    requires Enabled(Exec(cfg, w0, evs), Continue(rid, c)) && Exec(cfg, w0, evs).procs[rid].Rotating?
    requires Act(cfg, Exec(cfg, w0, evs).s, Exec(cfg, w0, evs).procs[rid], c).p.answer.Ok?
    ensures Chains(Step(cfg, Exec(cfg, w0, evs), Continue(rid, c))) <==>
      forall b1, c1, t :: !Refreshed(cfg, w0, evs, b1, c1, Exec(cfg, w0, evs).procs[rid].presented, t)
  {
    var w := Exec(cfg, w0, evs);
    var w' := Step(cfg, w, Continue(rid, c));
    var p := w.procs[rid].presented;
    ReachableInv(cfg, w0, evs);
    StepKeeps(cfg, w, Continue(rid, c));
    ChainsIffNoSiblings(cfg, w);
    ChainsIffNoSiblings(cfg, w');
    ActMints(cfg, w.s, w.procs[rid], c);
    var t := w'.procs[rid].answer.value.refresh;
    RefreshBears(cfg, w, rid, c, t);
    if b1, c1, u :| Refreshed(cfg, w0, evs, b1, c1, p, u) {
      RefreshedBears(cfg, w0, evs, b1, c1, p, u);
      assert Siblings(w'.born, t, u);
    } else {
      forall u, v | Siblings(w'.born, u, v) ensures u == v { SiblingIsOld(cfg, w0, evs, rid, c, u, v); }
    }
  }

  lemma {:induction false} SiblingIsOld(cfg: Config, w0: World, evs: seq<Event>, rid: nat, c: Choice, u: Token,
                                        v: Token)
    requires cfg.Valid() && Initial(w0) && ValidRun(cfg, w0, evs) && NoSiblings(Exec(cfg, w0, evs).born)
    requires Enabled(Exec(cfg, w0, evs), Continue(rid, c)) && Exec(cfg, w0, evs).procs[rid].Rotating?
    requires forall b1, c1, t :: !Refreshed(cfg, w0, evs, b1, c1, Exec(cfg, w0, evs).procs[rid].presented, t)
    requires Siblings(Step(cfg, Exec(cfg, w0, evs), Continue(rid, c)).born, u, v)
    ensures u == v
  {
    var w := Exec(cfg, w0, evs);
    var p := w.procs[rid];
    ReachableInv(cfg, w0, evs);
    assert ProcOk(cfg, w, p);
    ActFits(cfg, w, p, c);
    RecordedAdds(cfg, w, rid, c, Act(cfg, w.s, p, c), Step(cfg, w, Continue(rid, c)));
    if u in w.born && v in w.born {
      assert Siblings(w.born, u, v);
    } else if u in w.born {
      var b1, c1 := ChildWasRefreshed(cfg, w0, evs, u);
    } else if v in w.born {
      var b1, c1 := ChildWasRefreshed(cfg, w0, evs, v);
    }
  }

  /** A refresh whose row is still stored, revoked or not, succeeds when it writes. */
  lemma RotationSucceeds(cfg: Config, w: World, rid: nat, c: Choice)
    requires Inv(cfg, w) && Enabled(w, Continue(rid, c))
    requires w.procs[rid].Rotating? && w.procs[rid].rowId in w.s.db.tokens
    ensures var o := Act(cfg, w.s, w.procs[rid], c);
      && o.p.Done? && o.p.answer.Ok? && o.p.answer.value.Tokens?
      && Live(o.s.db, c.rowId) && o.s.db.tokens[c.rowId].token == o.p.answer.value.refresh
      && o.s.db.tokens[c.rowId].userId == w.procs[rid].userId
      && w.procs[rid].rowId in o.s.db.tokens && c.rowId !in w.s.db.tokens
  {
    var p := w.procs[rid];
    assert ProcOk(cfg, w, p);
    FreshToken(cfg, w, c, p.userId, p.user);
    assert w.s.db.tokens[p.rowId].userId in w.s.db.users;
  }

  lemma StillLive(cfg: Config, s: Shared, p: Proc, c: Choice, i: Uuid)
    requires p.Rotating? && Act(cfg, s, p, c).p.answer.Ok? && Live(s.db, i) && i != p.rowId
    ensures Live(Act(cfg, s, p, c).s.db, i) && i != c.rowId
  {
  }

  /** Two refreshes that read the same token before either writes both succeed, and leave two live
      tokens with the same parent: rotation is not single-use under interleaving. */
  lemma {:induction false} DoubleRotation(cfg: Config, w: World, r1: nat, r2: nat, c1: Choice, c2: Choice)
    requires cfg.Valid() && Inv(cfg, w) && r1 != r2
    requires Enabled(w, Continue(r1, c1)) && Enabled(Step(cfg, w, Continue(r1, c1)), Continue(r2, c2))
    requires w.procs[r1].Rotating? && w.procs[r2].Rotating? && w.procs[r1].presented == w.procs[r2].presented
    requires Live(w.s.db, w.procs[r1].rowId)
    ensures var w1 := Step(cfg, w, Continue(r1, c1)); var w2 := Step(cfg, w1, Continue(r2, c2));
      && w2.procs[r1].Done? && w2.procs[r1].answer.Ok? && w2.procs[r2].Done? && w2.procs[r2].answer.Ok?
      && Live(w2.s.db, c1.rowId) && Live(w2.s.db, c2.rowId) && c1.rowId != c2.rowId
      && !Chains(w2)
  {
    var w1 := Step(cfg, w, Continue(r1, c1));
    var w2 := Step(cfg, w1, Continue(r2, c2));
    assert ProcOk(cfg, w, w.procs[r1]) && ProcOk(cfg, w, w.procs[r2]);
    RotationSucceeds(cfg, w, r1, c1);
    StepKeeps(cfg, w, Continue(r1, c1));
    RotationSucceeds(cfg, w1, r2, c2);
    StepKeeps(cfg, w1, Continue(r2, c2));
    StillLive(cfg, w1.s, w1.procs[r2], c2, c1.rowId);
    var t, u := w1.procs[r1].answer.value.refresh, w2.procs[r2].answer.value.refresh;
    RefreshBears(cfg, w, r1, c1, t);
    RefreshBears(cfg, w1, r2, c2, u);
    assert Siblings(w2.born, t, u);
  }
}
