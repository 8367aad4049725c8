/** What a logout cuts off: exactly when no session descends from the refresh token it was given. */
module SessionEnd {
  import opened Domain
  import opened Store
  import opened Machine
  import opened Invariants
  import opened History
  import opened Rotation
  import opened PasswordChange

  /** `v` is `t`, or replaced a token that descends from `t`. */
  ghost predicate DescendsFrom(w: World, v: Token, t: Token) {
    BornOk(w) && v in w.born && t in Ancestry(w, v)
  }

  /** Row `i` holds a live token that descends from `t`. */
  ghost predicate LiveHeir(w: World, t: Token, i: Uuid) {
    Live(w.s.db, i) && DescendsFrom(w, w.s.db.tokens[i].token, t)
  }

  /** Request `x` waits with a refresh of a token that descends from `t`, and its account still exists. */
  ghost predicate WaitsToRenew(w: World, t: Token, x: nat) {
    && x in w.procs && w.procs[x].Rotating? && w.procs[x].userId in w.s.db.users
    && DescendsFrom(w, w.procs[x].presented, t)
  }

  ghost predicate Ended(w: World, t: Token) {
    && t in w.born && (forall i :: !LiveHeir(w, t, i)) && (forall x :: !WaitsToRenew(w, t, x))
  }

  lemma {:induction false} AncestryStays(w: World, w': World, v: Token)
    requires BornOk(w) && BornOk(w') && Later(w, w') && v in w.born
    ensures v in w'.born && Ancestry(w', v) == Ancestry(w, v)
    decreases w.born[v].depth
  {
    assert BirthOk(w, v) && BirthOk(w', v);
    if w.born[v].source.FromRotation? { AncestryStays(w, w', w.born[v].source.parent); }
  }

  lemma {:induction false} NoNewHeir(cfg: Config, w: World, ev: Event, t: Token, i: Uuid)
    requires cfg.Valid() && Inv(cfg, w) && Enabled(w, ev) && Ended(w, t)
    ensures !LiveHeir(Step(cfg, w, ev), t, i)
  {
    var w' := Step(cfg, w, ev);
    StepKeeps(cfg, w, ev);
    if LiveHeir(w', t, i) {
      var v := w'.s.db.tokens[i].token;
      assert RowLater(w, w', i) && RowOk(w'.born, w'.s.db.tokens[i]) && BirthOk(w', v);
      if i in w.s.db.tokens && w.s.db.tokens[i].token == v {
        assert RowOk(w.born, w.s.db.tokens[i]);
        AncestryStays(w, w', v);
        assert LiveHeir(w, t, i);
      } else {
        NewHeirWasWaiting(cfg, w, ev, t, v);
      }
    }
  }

  /** A token stored by an event that descends from `t` was minted by a refresh that waited to renew. */
  lemma {:induction false} NewHeirWasWaiting(cfg: Config, w: World, ev: Event, t: Token, v: Token)
    requires cfg.Valid() && Inv(cfg, w) && Enabled(w, ev) && t in w.born && v !in w.born
    requires DescendsFrom(Step(cfg, w, ev), v, t)
    ensures ev.Continue? && WaitsToRenew(w, t, ev.rid)
  {
    var w' := Step(cfg, w, ev);
    var p := w.procs[ev.rid];
    assert ProcOk(cfg, w, p);
    StepKeeps(cfg, w, ev);
    ActFits(cfg, w, p, ev.c);
    RecordedAdds(cfg, w, ev.rid, ev.c, Act(cfg, w.s, p, ev.c), w');
    assert p.Rotating?;
    AncestryStays(w, w', p.presented);
    RefreshNeedsOwner(cfg, w.s, p, ev.c);
  }

  lemma RefreshNeedsOwner(cfg: Config, s: Shared, p: Proc, c: Choice)
    requires p.Rotating? && Act(cfg, s, p, c).p.answer.Ok?
    ensures p.userId in s.db.users
  {
  }

  lemma {:induction false} ReaderHoldsNoHeir(cfg: Config, w: World, req: Request, r: ReadChoice, t: Token)
    requires Inv(cfg, w) && Ended(w, t)
    ensures var p := ReadPhase(cfg, w.s, req, r); p.Rotating? ==> !DescendsFrom(w, p.presented, t)
  {
    forall i | Live(w.s.db, i) ensures !DescendsFrom(w, w.s.db.tokens[i].token, t) { assert !LiveHeir(w, t, i); }
  }

  lemma {:induction false} NoNewWaiter(cfg: Config, w: World, ev: Event, t: Token, x: nat)
    requires cfg.Valid() && Inv(cfg, w) && Enabled(w, ev) && Ended(w, t)
    ensures !WaitsToRenew(Step(cfg, w, ev), t, x)
  {
    var w' := Step(cfg, w, ev);
    StepKeeps(cfg, w, ev);
    if ev.Continue? { ActMints(cfg, w.s, w.procs[ev.rid], ev.c); }
    if WaitsToRenew(w', t, x) {
      var p := w'.procs[x];
      if ev.Begin? && ev.rid == x {
        ReaderHoldsNoHeir(cfg, w, ev.req, ev.r, t);
        ReadPhaseOk(cfg, w, ev.req, ev.r);
        AncestryStays(w, w', p.presented);
      } else {
        OldWaiterRenews(cfg, w, w', t, x);
      }
    }
  }

  lemma {:induction false} OldWaiterRenews(cfg: Config, w: World, w': World, t: Token, x: nat)
    requires Inv(cfg, w) && BornOk(w') && Later(w, w')
    requires x in w.procs && x in w'.procs && w.procs[x] == w'.procs[x] && WaitsToRenew(w', t, x)
    ensures WaitsToRenew(w, t, x)
  {
    assert ProcOk(cfg, w, w.procs[x]) && UserLater(w, w', w.procs[x].userId);
    AncestryStays(w, w', w.procs[x].presented);
  }

  lemma {:induction false} StaysEnded(cfg: Config, w: World, evs: seq<Event>, t: Token)
    requires cfg.Valid() && Inv(cfg, w) && ValidRun(cfg, w, evs) && Ended(w, t)
    ensures Ended(Exec(cfg, w, evs), t)
  {
    if evs != [] {
      var pre, ev := evs[..|evs| - 1], evs[|evs| - 1];
      StaysEnded(cfg, w, pre, t);
      RunKeeps(cfg, w, pre);
      var now := Exec(cfg, w, pre);
      StepKeeps(cfg, now, ev);
      forall i ensures !LiveHeir(Step(cfg, now, ev), t, i) { NoNewHeir(cfg, now, ev, t, i); }
      forall x ensures !WaitsToRenew(Step(cfg, now, ev), t, x) { NoNewWaiter(cfg, now, ev, t, x); }
    }
  }

  // ---- the exact condition ----

  /** The database write of a logout with the user's own refresh token `t`. */
  ghost predicate LogsOut(cfg: Config, w: World, rid: nat, c: Choice, t: Token) {
    && cfg.Valid() && Inv(cfg, w) && Enabled(w, Continue(rid, c))
    && w.procs[rid].LoggingOut? && w.procs[rid].token == t
    && t in w.born && t.Signed? && t.claims.sub == w.procs[rid].userId
  }

  /** The write of a logout leaves the heirs of its token as they were, and the token itself dead. */
  lemma {:induction false} LogoutLeavesHeirs(cfg: Config, w: World, rid: nat, c: Choice, t: Token)
    requires LogsOut(cfg, w, rid, c, t)
    ensures var w1 := Step(cfg, w, Continue(rid, c));
      && Inv(cfg, w1) && t in w1.born
      && (forall i :: LiveHeir(w1, t, i) <==> LiveHeir(w, t, i) && w.s.db.tokens[i].token != t)
      && (forall x :: WaitsToRenew(w1, t, x) <==> WaitsToRenew(w, t, x))
  {
    var w1 := Step(cfg, w, Continue(rid, c));
    StepKeeps(cfg, w, Continue(rid, c));
    assert w1.born == w.born && w1.s.db.users == w.s.db.users;
    forall v | v in w.born ensures DescendsFrom(w1, v, t) <==> DescendsFrom(w, v, t) { AncestryStays(w, w1, v); }
    forall i ensures LiveHeir(w1, t, i) <==> LiveHeir(w, t, i) && w.s.db.tokens[i].token != t {
      if i in w.s.db.tokens { assert RowOk(w.born, w.s.db.tokens[i]); }
    }
    ActMints(cfg, w.s, w.procs[rid], c);
  }

  /** A refresh that waits to renew succeeds if it writes next, and then leaves a live heir. */
  lemma {:induction false} WaitingRefreshRenews(cfg: Config, w: World, t: Token, x: nat, c: Choice)
    requires cfg.Valid() && Inv(cfg, w) && WaitsToRenew(w, t, x) && Enabled(w, Continue(x, c))
    ensures LiveHeir(Step(cfg, w, Continue(x, c)), t, c.rowId)
    ensures Step(cfg, w, Continue(x, c)).procs[x].Done? && Step(cfg, w, Continue(x, c)).procs[x].answer.Ok?
  {
    var w' := Step(cfg, w, Continue(x, c));
    assert ProcOk(cfg, w, w.procs[x]);
    RotationSucceeds(cfg, w, x, c);
    SurvivorIsBorn(cfg, w, x, c, w.procs[x].userId);
    StepKeeps(cfg, w, Continue(x, c));
    AncestryStays(w, w', w.procs[x].presented);
    assert BirthOk(w', w'.s.db.tokens[c.rowId].token);
  }

  /** In no continuation is there a live heir of `t`. */
  ghost predicate NeverRenewed(cfg: Config, w1: World, t: Token) {
    forall evs, i :: ValidRun(cfg, w1, evs) ==> !LiveHeir(Exec(cfg, w1, evs), t, i)
  }

  lemma {:induction false} EndedIffNeverRenewed(cfg: Config, w1: World, t: Token)
    requires cfg.Valid() && Inv(cfg, w1) && t in w1.born
    ensures Ended(w1, t) <==> NeverRenewed(cfg, w1, t)
  {
    if Ended(w1, t) {
      forall evs, i | ValidRun(cfg, w1, evs) ensures !LiveHeir(Exec(cfg, w1, evs), t, i) {
        StaysEnded(cfg, w1, evs, t);
      }
    } else if i :| LiveHeir(w1, t, i) {
      assert ValidRun(cfg, w1, []) && LiveHeir(Exec(cfg, w1, []), t, i);
    } else {
      var x :| WaitsToRenew(w1, t, x);
      var c2 := CanWrite(cfg, w1, x);
      WaitingRefreshRenews(cfg, w1, t, x, c2);
      RunSnoc(cfg, w1, [], Continue(x, c2));
      assert LiveHeir(Exec(cfg, w1, [] + [Continue(x, c2)]), t, c2.rowId);
    }
  }

  /** A logout ends the session of its refresh token, in every continuation, exactly when no live token has
      replaced that token and no refresh of it or of its heirs is between its read and its write. */
  lemma {:induction false} LogoutEndsSessionIff(cfg: Config, w: World, rid: nat, c: Choice, t: Token)
    requires LogsOut(cfg, w, rid, c, t)
    ensures NeverRenewed(cfg, Step(cfg, w, Continue(rid, c)), t)
      <==> (forall i :: LiveHeir(w, t, i) ==> w.s.db.tokens[i].token == t) && (forall x :: !WaitsToRenew(w, t, x))
  {
    LogoutLeavesHeirs(cfg, w, rid, c, t);
    EndedIffNeverRenewed(cfg, Step(cfg, w, Continue(rid, c)), t);
  }

  /** In particular a logout with a live token ends the session exactly when no refresh of that very token
      is under way. */
  lemma {:induction false} LiveLogoutEndsSessionIff(cfg: Config, w: World, rid: nat, c: Choice, t: Token)
    requires LogsOut(cfg, w, rid, c, t) && !Dead(w.s.db, t)
    ensures NeverRenewed(cfg, Step(cfg, w, Continue(rid, c)), t) <==> (forall x :: !Waits(w, x, t))
  {
    LogoutEndsSessionIff(cfg, w, rid, c, t);
    forall v | DescendsFrom(w, v, t) ensures v == t { LiveHasNoHeirs(w, v, t); }
    assert BirthOk(w, t) && Ancestry(w, t)[0] == t;
    assert DescendsFrom(w, t, t);
    forall x ensures Waits(w, x, t) <==> WaitsToRenew(w, t, x) {
      if Waits(w, x, t) {
        assert ProcOk(cfg, w, w.procs[x]);
        var i :| Live(w.s.db, i) && w.s.db.tokens[i].token == t;
      }
    }
  }

  lemma {:induction false} LiveHasNoHeirs(w: World, v: Token, t: Token)
    requires DescendsFrom(w, v, t) && !Dead(w.s.db, t)
    ensures v == t
  {
    AncestryIsLinear(w, v);
    var k :| 0 <= k < |Ancestry(w, v)| && Ancestry(w, v)[k] == t;
  }
}
