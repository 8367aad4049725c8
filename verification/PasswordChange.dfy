/** What a password change cuts off: exactly when every live token of the user descends from a login begun
    after it. */
module PasswordChange {
  import opened Domain
  import opened Store
  import opened Machine
  import opened Invariants
  import opened History
  import opened Rotation

  // ---- lines begun after the change ----

  /** A request begun after `w1` answered with the token. */
  ghost predicate AnsweredSince(w1: World, w: World, t: Token) {
    exists rid :: rid in w.procs && rid !in w1.procs && Mints(w.procs[rid], t)
  }

  /** Every token of `u` stored since `w1` answers a login begun since `w1`, or replaced a token stored
      since `w1`. */
  ghost predicate NewLines(w1: World, w: World, u: Uuid) {
    forall t {:trigger w.born[t]} :: t in w.born && t !in w1.born && t.Signed? && t.claims.sub == u ==>
      NewLine(w1, w, t)
  }

  ghost predicate NewLine(w1: World, w: World, t: Token) requires t in w.born {
    match w.born[t].source
    case FromLogin => AnsweredSince(w1, w, t)
    case FromRotation(parent) => parent !in w1.born
    case FromRegister => false
  }

  /** At `w1` all tokens of `u` were dead, as right after a password change. */
  ghost predicate Cleared(w1: World, u: Uuid) {
    u in w1.used && forall t :: t in w1.born && t.Signed? && t.claims.sub == u ==> Dead(w1.s.db, t)
  }

  /** Request `x` waits with a refresh or a login of user `u`. */
  ghost predicate WaitsFor(w: World, x: nat, u: Uuid) {
    x in w.procs && (w.procs[x].Rotating? || w.procs[x].LoggingIn?) && w.procs[x].userId == u
  }

  /** A refresh of `u` that waits with a token from before `w1`, or a login begun before, has waited since
      `w1`. */
  ghost predicate OldWaitersOnly(w1: World, w: World, u: Uuid) {
    && w1.procs.Keys <= w.procs.Keys
    && forall x :: WaitsFor(w, x, u) && IsOld(w1, w.procs[x], x) ==> WaitsFor(w1, x, u)
  }

  ghost predicate IsOld(w1: World, p: Proc, x: nat) {
    if p.Rotating? then p.presented in w1.born else x in w1.procs
  }

  /** No login or refresh of `u` that was waiting at `w1` writes in the run. */
  ghost predicate OldWaitersIdle(w1: World, evs: seq<Event>, u: Uuid) {
    forall k :: 0 <= k < |evs| && evs[k].Continue? ==> !WaitsFor(w1, evs[k].rid, u)
  }

  /** A refresh that reads after `w1` does not present a token of `u` from before. */
  lemma {:induction false} ReadIsNew(cfg: Config, w1: World, w: World, req: Request, r: ReadChoice, u: Uuid)
    requires Inv(cfg, w) && Cleared(w1, u) && Later(w1, w)
    ensures var p := ReadPhase(cfg, w.s, req, r); p.Rotating? && p.userId == u ==> p.presented !in w1.born
  {
    ReadPhaseOk(cfg, w, req, r);
    if req.Rotate? && req.token in w1.born && req.token.Signed? && req.token.claims.sub == u {
      DeadStaysDead(w1, w, req.token);
      DeadTokenIsRefused(cfg, w.s, req.token, r);
    }
  }

  lemma {:induction false} StepKeepsOldWaiters(cfg: Config, w1: World, w: World, ev: Event, u: Uuid)
    requires cfg.Valid() && Inv(cfg, w) && Enabled(w, ev)
    requires Cleared(w1, u) && Later(w1, w) && OldWaitersOnly(w1, w, u)
    ensures OldWaitersOnly(w1, Step(cfg, w, ev), u)
  {
    var w' := Step(cfg, w, ev);
    if ev.Begin? { ReadIsNew(cfg, w1, w, ev.req, ev.r, u); }
    if ev.Continue? { ActMints(cfg, w.s, w.procs[ev.rid], ev.c); }
    forall x | WaitsFor(w', x, u) && IsOld(w1, w'.procs[x], x) ensures WaitsFor(w1, x, u) {
      assert WaitsFor(w, x, u);
    }
  }

  lemma {:induction false} StepKeepsNewLines(cfg: Config, w1: World, w: World, ev: Event, u: Uuid)
    requires cfg.Valid() && Inv(cfg, w) && Enabled(w, ev)
    requires Cleared(w1, u) && Later(w1, w) && NewLines(w1, w, u) && OldWaitersOnly(w1, w, u)
    requires ev.Continue? ==> !WaitsFor(w1, ev.rid, u)
    ensures NewLines(w1, Step(cfg, w, ev), u)
  {
    var w' := Step(cfg, w, ev);
    if ev.Continue? {
      var p := w.procs[ev.rid];
      assert ProcOk(cfg, w, p);
      ActFits(cfg, w, p, ev.c);
      RecordedAdds(cfg, w, ev.rid, ev.c, Act(cfg, w.s, p, ev.c), w');
      assert WaitsFor(w, ev.rid, u) ==> !IsOld(w1, p, ev.rid);
    }
    forall t | t in w'.born && t !in w1.born && t.Signed? && t.claims.sub == u ensures NewLine(w1, w', t) {
      if t in w.born {
        assert NewLine(w1, w, t);
        AnswerStays(cfg, w1, w, ev, t);
      } else {
        MintedLine(cfg, w1, w, ev, t, u);
      }
    }
  }

  lemma AnswerStays(cfg: Config, w1: World, w: World, ev: Event, t: Token)
    requires Enabled(w, ev)
    ensures AnsweredSince(w1, w, t) ==> AnsweredSince(w1, Step(cfg, w, ev), t)
  {
    if AnsweredSince(w1, w, t) {
      var rid :| rid in w.procs && rid !in w1.procs && Mints(w.procs[rid], t);
      assert Mints(Step(cfg, w, ev).procs[rid], t);
    }
  }

  lemma {:induction false} MintedLine(cfg: Config, w1: World, w: World, ev: Event, t: Token, u: Uuid)
    requires ev.Continue? && Enabled(w, ev) && ProcOk(cfg, w, w.procs[ev.rid])
    requires var p := w.procs[ev.rid]; var o := Act(cfg, w.s, p, ev.c);
      && Fits(cfg, w, p, ev.c, o) && Adds(w, p, o.p, Step(cfg, w, ev).born)
    requires u in w1.used && w1.used <= w.used && t.Signed? && t.claims.sub == u
    requires t in Step(cfg, w, ev).born && t !in w.born
    requires WaitsFor(w, ev.rid, u) ==> !IsOld(w1, w.procs[ev.rid], ev.rid)
    ensures NewLine(w1, Step(cfg, w, ev), t)
  {
    var p := w.procs[ev.rid];
    var o := Act(cfg, w.s, p, ev.c);
    assert Mints(o.p, t) && t in Issued(o.p) && Grantee(p, ev.c) == u;
    assert ev.c.userId in Drawn(ev.c);
    assert Mints(Step(cfg, w, ev).procs[ev.rid], t);
  }

  lemma {:induction false} RunKeepsNewLines(cfg: Config, w1: World, evs: seq<Event>, u: Uuid)
    requires cfg.Valid() && Inv(cfg, w1) && ValidRun(cfg, w1, evs) && Cleared(w1, u) && OldWaitersIdle(w1, evs, u)
    ensures NewLines(w1, Exec(cfg, w1, evs), u) && OldWaitersOnly(w1, Exec(cfg, w1, evs), u)
  {
    if evs != [] {
      var pre := evs[..|evs| - 1];
      assert forall k :: 0 <= k < |pre| ==> pre[k] == evs[k];
      RunKeepsNewLines(cfg, w1, pre, u);
      RunKeeps(cfg, w1, pre);
      StepKeepsNewLines(cfg, w1, Exec(cfg, w1, pre), evs[|evs| - 1], u);
      StepKeepsOldWaiters(cfg, w1, Exec(cfg, w1, pre), evs[|evs| - 1], u);
    }
  }

  lemma {:induction false} NewAncestry(w1: World, w: World, t: Token, u: Uuid)
    requires BornOk(w) && t in w.born && t !in w1.born && t.Signed? && t.claims.sub == u && NewLines(w1, w, u)
    ensures var chain := Ancestry(w, t);
      && (forall k :: 0 <= k < |chain| ==> chain[k] in w.born && chain[k] !in w1.born)
      && w.born[chain[|chain| - 1]].source == FromLogin
      && AnsweredSince(w1, w, chain[|chain| - 1])
    decreases w.born[t].depth
  {
    assert BirthOk(w, t) && NewLine(w1, w, t);
    if w.born[t].source.FromRotation? { NewAncestry(w1, w, w.born[t].source.parent, u); }
  }

  // ---- the exact condition ----

  /** The write of a password change of `u` that succeeds. */
  ghost predicate Changes(cfg: Config, w: World, rid: nat, c: Choice, u: Uuid) {
    && cfg.Valid() && Inv(cfg, w) && Enabled(w, Continue(rid, c))
    && w.procs[rid].ChangingPassword? && w.procs[rid].userId == u
    && Act(cfg, w.s, w.procs[rid], c).p.answer.Ok?
  }

  /** After the run, row `i` holds a live token of `u`. */
  ghost predicate LiveAfter(cfg: Config, w1: World, evs: seq<Event>, u: Uuid, i: Uuid) {
    && ValidRun(cfg, w1, evs)
    && Live(Exec(cfg, w1, evs).s.db, i) && Exec(cfg, w1, evs).s.db.tokens[i].userId == u
  }

  /** The token of row `i` descends, through tokens all stored since `w1`, from a login begun since `w1`,
      whose password was therefore checked after `w1`. */
  ghost predicate Descends(w1: World, w2: World, i: Uuid) {
    && i in w2.s.db.tokens && BornOk(w2) && w2.s.db.tokens[i].token in w2.born
    && var chain := Ancestry(w2, w2.s.db.tokens[i].token);
    && (forall k :: 0 <= k < |chain| ==> chain[k] in w2.born && chain[k] !in w1.born)
    && w2.born[chain[|chain| - 1]].source == FromLogin
    && AnsweredSince(w1, w2, chain[|chain| - 1])
  }

  /** After a password change, in every continuation in which no login or refresh that was waiting at the
      change writes, each live token of the user descends from a login begun after it. */
  lemma {:induction false} LiveTokensDescendFromLaterLogin(cfg: Config, w: World, rid: nat, c: Choice, u: Uuid,
                                                           evs: seq<Event>, i: Uuid)
    requires Changes(cfg, w, rid, c, u) && LiveAfter(cfg, Step(cfg, w, Continue(rid, c)), evs, u, i)
    requires OldWaitersIdle(Step(cfg, w, Continue(rid, c)), evs, u)
    ensures Descends(Step(cfg, w, Continue(rid, c)), Exec(cfg, Step(cfg, w, Continue(rid, c)), evs), i)
  {
    var w1 := Step(cfg, w, Continue(rid, c));
    PasswordChangeKills(cfg, w, rid, c);
    StepKeeps(cfg, w, Continue(rid, c));
    RunKeeps(cfg, w1, evs);
    RunKeepsNewLines(cfg, w1, evs, u);
    LiveTokensPostdatePasswordChange(cfg, w, rid, c, evs, i);
    var w2 := Exec(cfg, w1, evs);
    assert RowOk(w2.born, w2.s.db.tokens[i]);
    NewAncestry(w1, w2, w2.s.db.tokens[i].token, u);
  }

  lemma {:induction false} ChildOfOldDoesNotDescend(w1: World, w2: World, i: Uuid, parent: Token)
    requires BornOk(w2) && i in w2.s.db.tokens && w2.s.db.tokens[i].token in w2.born
    requires w2.born[w2.s.db.tokens[i].token].source == FromRotation(parent) && parent in w1.born
    ensures !Descends(w1, w2, i)
  {
    var t := w2.s.db.tokens[i].token;
    assert BirthOk(w2, t);
    AncestryIsLinear(w2, t);
    assert Ancestry(w2, t)[1] == parent;
  }

  /** A refresh of the user that read before the change writes after it and leaves a live token whose
      parent predates the change. */
  lemma {:induction false} WaitingRefreshSurvivesChange(cfg: Config, w: World, rid: nat, c: Choice, u: Uuid, x: nat,
                                                        c2: Choice)
    requires Changes(cfg, w, rid, c, u) && WaitsFor(w, x, u) && w.procs[x].Rotating?
    requires Enabled(Step(cfg, w, Continue(rid, c)), Continue(x, c2))
    ensures var w1 := Step(cfg, w, Continue(rid, c)); var w2 := Step(cfg, w1, Continue(x, c2));
      && Live(w2.s.db, c2.rowId) && w2.s.db.tokens[c2.rowId].userId == u
      && w2.s.db.tokens[c2.rowId].token in w2.born
      && w2.born[w2.s.db.tokens[c2.rowId].token].source == FromRotation(w.procs[x].presented)
      && w.procs[x].presented in w1.born
      && !Descends(w1, w2, c2.rowId)
  {
    var w1 := Step(cfg, w, Continue(rid, c));
    PasswordChangeKills(cfg, w, rid, c);
    StepKeeps(cfg, w, Continue(rid, c));
    SurvivorIsBorn(cfg, w1, x, c2, u);
    StepKeeps(cfg, w1, Continue(x, c2));
    ChildOfOldDoesNotDescend(w1, Step(cfg, w1, Continue(x, c2)), c2.rowId, w.procs[x].presented);
  }

  lemma {:induction false} SurvivorIsBorn(cfg: Config, w1: World, x: nat, c2: Choice, u: Uuid)
    requires cfg.Valid() && Inv(cfg, w1) && WaitsFor(w1, x, u) && w1.procs[x].Rotating?
    requires u in w1.s.db.users && Enabled(w1, Continue(x, c2))
    ensures var w2 := Step(cfg, w1, Continue(x, c2));
      && Live(w2.s.db, c2.rowId) && w2.s.db.tokens[c2.rowId].userId == u
      && w2.s.db.tokens[c2.rowId].token in w2.born
      && w2.born[w2.s.db.tokens[c2.rowId].token].source == FromRotation(w1.procs[x].presented)
    ensures w1.procs[x].presented in w1.born
  {
    assert ProcOk(cfg, w1, w1.procs[x]);
    RotationSucceeds(cfg, w1, x, c2);
    RefreshBears(cfg, w1, x, c2, Step(cfg, w1, Continue(x, c2)).s.db.tokens[c2.rowId].token);
  }

  /** A login that checked the old password before the change writes after it and leaves a live token. */
  lemma {:induction false} WaitingLoginSurvivesChange(cfg: Config, w: World, rid: nat, c: Choice, u: Uuid, x: nat,
                                                      c2: Choice)
    requires Changes(cfg, w, rid, c, u) && WaitsFor(w, x, u) && w.procs[x].LoggingIn?
    requires Enabled(Step(cfg, w, Continue(rid, c)), Continue(x, c2))
    ensures cfg.compare(w.procs[x].password, w.procs[x].user.passwordHash)
    ensures var w1 := Step(cfg, w, Continue(rid, c)); var w2 := Step(cfg, w1, Continue(x, c2));
      && Live(w2.s.db, c2.rowId) && w2.s.db.tokens[c2.rowId].userId == u
      && Mints(w2.procs[x], w2.s.db.tokens[c2.rowId].token)
      && !Descends(w1, w2, c2.rowId)
  {
    var w1 := Step(cfg, w, Continue(rid, c));
    PasswordChangeKills(cfg, w, rid, c);
    StepKeeps(cfg, w, Continue(rid, c));
    assert ProcOk(cfg, w, w.procs[x]);
    LoginSucceeds(cfg, w1, x, c2);
    NobodyElseAnswers(cfg, w1, x, c2);
  }

  /** The write of a login begun before `w1` leaves no token that answers a request begun since. */
  lemma {:induction false} NobodyElseAnswers(cfg: Config, w1: World, x: nat, c: Choice)
    requires Enabled(w1, Continue(x, c))
    ensures forall i :: !Descends(w1, Step(cfg, w1, Continue(x, c)), i)
  {
    assert Step(cfg, w1, Continue(x, c)).procs.Keys == w1.procs.Keys;
  }

  /** A login whose account still exists succeeds when it writes. */
  lemma {:induction false} LoginSucceeds(cfg: Config, w: World, x: nat, c: Choice)
    requires cfg.Valid() && Inv(cfg, w) && Enabled(w, Continue(x, c))
    requires w.procs[x].LoggingIn? && w.procs[x].userId in w.s.db.users
    ensures var w' := Step(cfg, w, Continue(x, c));
      && Live(w'.s.db, c.rowId) && w'.s.db.tokens[c.rowId].userId == w.procs[x].userId
      && Mints(w'.procs[x], w'.s.db.tokens[c.rowId].token)
  {
    FreshToken(cfg, w, c, w.procs[x].userId, w.procs[x].user);
  }

  lemma {:induction false} FreshId(used: set<Uuid>) returns (n: Uuid)
    ensures forall m :: m in used ==> m < n
  {
    if used == {} {
      n := 0;
    } else {
      var m :| m in used;
      var rest := FreshId(used - {m});
      n := if m < rest then rest else m + 1;
      forall k | k in used ensures k < n { assert k == m || k in used - {m}; }
    }
  }

  /** A waiting request can always write next. */
  lemma {:induction false} CanWrite(cfg: Config, w: World, x: nat) returns (c: Choice)
    requires Inv(cfg, w) && x in w.procs && !w.procs[x].Done?
    ensures Enabled(w, Continue(x, c))
  {
    assert ProcOk(cfg, w, w.procs[x]);
    var n := FreshId(w.used);
    c := Choice(n, n + 1, n + 2, n + 3, 0, w.s.now, w.s.now);
    assert n !in w.used && n + 1 !in w.used;
    assert Drawn(c) !! w.used;
    assert ReadTime(w.procs[x]) <= w.s.now;
  }

  /** A password change forces a new login, in every continuation, exactly when no refresh and no login of
      the user is between its read and its write as the change is written. */
  lemma {:induction false} ChangeForcesLoginIff(cfg: Config, w: World, rid: nat, c: Choice, u: Uuid)
    requires Changes(cfg, w, rid, c, u)
    ensures (forall x :: !WaitsFor(w, x, u)) <==>
      (forall evs, i :: LiveAfter(cfg, Step(cfg, w, Continue(rid, c)), evs, u, i) ==>
         Descends(Step(cfg, w, Continue(rid, c)), Exec(cfg, Step(cfg, w, Continue(rid, c)), evs), i))
  {
    if x :| WaitsFor(w, x, u) { var evs, i := WaitingBreaksDescent(cfg, w, rid, c, u, x); }
    else { NoneWaitingDescends(cfg, w, rid, c, u); }
  }

  lemma {:induction false} WaitingBreaksDescent(cfg: Config, w: World, rid: nat, c: Choice, u: Uuid, x: nat)
    returns (evs: seq<Event>, i: Uuid)
    requires Changes(cfg, w, rid, c, u) && WaitsFor(w, x, u)
    ensures LiveAfter(cfg, Step(cfg, w, Continue(rid, c)), evs, u, i)
    ensures !Descends(Step(cfg, w, Continue(rid, c)), Exec(cfg, Step(cfg, w, Continue(rid, c)), evs), i)
  {
    var w1 := Step(cfg, w, Continue(rid, c));
    StepKeeps(cfg, w, Continue(rid, c));
    var c2 := CanWrite(cfg, w1, x);
    if w.procs[x].Rotating? { WaitingRefreshSurvivesChange(cfg, w, rid, c, u, x, c2); }
    else { WaitingLoginSurvivesChange(cfg, w, rid, c, u, x, c2); }
    evs, i := [] + [Continue(x, c2)], c2.rowId;
    RunSnoc(cfg, w1, [], Continue(x, c2));
  }

  lemma {:induction false} NoneWaitingDescends(cfg: Config, w: World, rid: nat, c: Choice, u: Uuid)
    requires Changes(cfg, w, rid, c, u) && forall x :: !WaitsFor(w, x, u)
    ensures forall evs, i :: LiveAfter(cfg, Step(cfg, w, Continue(rid, c)), evs, u, i) ==>
      Descends(Step(cfg, w, Continue(rid, c)), Exec(cfg, Step(cfg, w, Continue(rid, c)), evs), i)
  {
    var w1 := Step(cfg, w, Continue(rid, c));
    ActMints(cfg, w.s, w.procs[rid], c);
    forall x ensures !WaitsFor(w1, x, u) { assert !WaitsFor(w, x, u); }
    forall evs, i | LiveAfter(cfg, w1, evs, u, i) ensures Descends(w1, Exec(cfg, w1, evs), i) {
      LiveTokensDescendFromLaterLogin(cfg, w, rid, c, u, evs, i);
    }
  }
}
