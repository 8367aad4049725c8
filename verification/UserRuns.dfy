/** One user's events as a run of their own: of any interleaved run, the events of one user's successful
    requests, with the clock and the logouts, are a run of a service that knows this account only. */
module UserRuns {
  import opened Domain
  import opened Store
  import opened Machine
  import opened Invariants
  import opened Linearizability
  import opened Projection

  // ---- which events are the user's own ----

  /** The account a write acts for. */
  function WriterOf(p: Proc, c: Choice): Option<Uuid> {
    match p
    case Registering(_, _, _) => Some(c.userId)
    case LoggingIn(_, _, userId, _, _) => Some(userId)
    case Rotating(_, _, userId, _, _) => Some(userId)
    case ChangingPassword(userId, _, _, _) => Some(userId)
    case Updating(id, _) => Some(id)
    case Deleting(id) => Some(id)
    case LookingUp(_, claims) => Some(claims.sub)
    case _ => None
  }

  /** Logouts write to the shared blacklist and are kept whoever they come from. */
  predicate TouchesBlacklist(p: Proc) { p.LoggingOut? || p.Blacklisting? }

  /** A read that passed, of a request that may be the user's; a registration's account is not known yet. */
  predicate KeepsRead(p: Proc, u: Uuid) {
    !p.Done? && (p.Registering? || TouchesBlacklist(p) || WriterOf(p, NO_CHOICE) == Some(u))
  }

  ghost predicate KeepsWrite(cfg: Config, s: Shared, p: Proc, c: Choice, u: Uuid) {
    var p' := Act(cfg, s, p, c).p;
    TouchesBlacklist(p) || (WriterOf(p, c) == Some(u) && p'.Done? && p'.answer.Ok?)
  }

  ghost predicate KeepsEvent(cfg: Config, w: World, ev: Event, u: Uuid) {
    match ev
    case Tick(_) => true
    case Begin(_, req, r) => KeepsRead(ReadPhase(cfg, w.s, req, r), u)
    case Continue(rid, c) => rid in w.procs && !w.procs[rid].Done? && KeepsWrite(cfg, w.s, w.procs[rid], c, u)
  }

  /** Ticks, passed reads that may be the user's, the user's successful writes, and logouts. */
  ghost function KeptEvents(cfg: Config, w: World, evs: seq<Event>, u: Uuid): seq<Event> {
    if evs == [] then [] else
    var pre, ev := evs[..|evs| - 1], evs[|evs| - 1];
    KeptEvents(cfg, w, pre, u) + if KeepsEvent(cfg, Exec(cfg, w, pre), ev, u) then [ev] else []
  }

  /** The requests that write in a run. */
  function Writers(evs: seq<Event>): set<nat> { set k | 0 <= k < |evs| && evs[k].Continue? :: evs[k].rid }

  predicate Of(ev: Event, rids: set<nat>) { ev.Tick? || ev.rid in rids }

  function Pick(evs: seq<Event>, rids: set<nat>): seq<Event> {
    if evs == [] then [] else
    var pre, ev := evs[..|evs| - 1], evs[|evs| - 1];
    Pick(pre, rids) + if Of(ev, rids) then [ev] else []
  }

  /** The events of the requests of `u` that succeed, the clock, and the logouts that write. */
  ghost function OwnEvents(cfg: Config, w: World, evs: seq<Event>, u: Uuid): seq<Event> {
    var kept := KeptEvents(cfg, w, evs, u);
    Pick(kept, Writers(kept))
  }

  // ---- one read, one write ----

  ghost predicate Draws(s: Shared, c: Choice) { c.userId !in s.db.users && c.rowId !in s.db.tokens }

  lemma ReadProjects(cfg: Config, s: Shared, req: Request, r: ReadChoice, u: Uuid)
    requires Constraints(s.db) && KeepsRead(ReadPhase(cfg, s, req, r), u)
    ensures ReadPhase(cfg, Only(s, u), req, r) == ReadPhase(cfg, s, req, r)
  {
    var p := ReadPhase(cfg, s, req, r);
    if req.Login? {
      FindUserIs(s.db, u);
      FindUserIs(Only(s, u).db, u);
    }
    if req.Rotate? {
      FindTokenIs(s.db, p.rowId);
      FindTokenIs(Only(s, u).db, p.rowId);
    }
  }

  /** A kept write does and answers the same with the one account; any other leaves that account alone. */
  ghost predicate ActProjects(cfg: Config, s: Shared, p: Proc, c: Choice, u: Uuid) {
    var o := Act(cfg, s, p, c);
    if KeepsWrite(cfg, s, p, c, u) then
      var o1 := Act(cfg, Only(s, u), p, c);
      o1.p == o.p && SameShared(o1.s, Only(o.s, u))
    else SameShared(Only(o.s, u), Only(s, u))
  }

  lemma RegistrationProjects(cfg: Config, s: Shared, p: Proc, c: Choice, u: Uuid)
    requires p.Registering? && Draws(s, c) && Act(cfg, s, p, c).p.answer.Ok?
    ensures ActProjects(cfg, s, p, c, u)
  {
    var user := User(p.email, p.username, cfg.hash(p.password, c.salt), USER, true);
    var s1 := s.(db := s.db.(users := s.db.users[c.userId := user]));
    AddedRowProjects(s1, c.rowId, NewRow(cfg, c.userId, user, c), u);
    NewUserProjects(s, s1, c.userId, user, u);
    if c.userId == u { assert CreateUser(Only(s, u).db, u, user) == Ok(Only(s1, u).db); }
  }

  lemma NewUserProjects(s: Shared, s1: Shared, id: Uuid, user: User, u: Uuid)
    requires id !in s.db.users && CreateUser(s.db, id, user).Ok?
    requires s1 == s.(db := s.db.(users := s.db.users[id := user]))
    ensures id != u ==> Only(s1, u) == Only(s, u)
    ensures id == u ==> CreateUser(Only(s, u).db, u, user) == Ok(Only(s1, u).db)
  {
    assert Only(s1, u).db.users == if id == u then Only(s, u).db.users[u := user] else Only(s, u).db.users;
    assert Only(s1, u).db.tokens == Only(s, u).db.tokens;
  }

  lemma UpdateWriteProjects(cfg: Config, s: Shared, p: Proc, c: Choice, u: Uuid)
    requires p.Updating? && Act(cfg, s, p, c).p.answer.Ok?
    ensures ActProjects(cfg, s, p, c, u)
  {
  }

  lemma DeletionProjects(cfg: Config, s: Shared, p: Proc, c: Choice, u: Uuid)
    requires p.Deleting? && Act(cfg, s, p, c).p.answer.Ok?
    ensures ActProjects(cfg, s, p, c, u)
  {
  }

  lemma RevocationProjects(cfg: Config, s: Shared, p: Proc, c: Choice, u: Uuid)
    requires p.LoggingOut?
    ensures ActProjects(cfg, s, p, c, u)
  {
  }

  lemma BlacklistProjects(cfg: Config, s: Shared, p: Proc, c: Choice, u: Uuid)
    requires p.Blacklisting? || p.LookingUp?
    ensures ActProjects(cfg, s, p, c, u)
  {
  }

  lemma {:induction false} WriteProjects(cfg: Config, s: Shared, p: Proc, c: Choice, u: Uuid)
    requires !p.Done? && Draws(s, c) && OwnsRow(s, p)
    ensures ActProjects(cfg, s, p, c, u)
  {
    ActMints(cfg, s, p, c);
    if p.LoggingOut? { RevocationProjects(cfg, s, p, c, u); }
    else if p.Blacklisting? || p.LookingUp? { BlacklistProjects(cfg, s, p, c, u); }
    else if Act(cfg, s, p, c).p.answer.Ok? {
      if p.Registering? { RegistrationProjects(cfg, s, p, c, u); }
      else if p.Updating? { UpdateWriteProjects(cfg, s, p, c, u); }
      else if p.Deleting? { DeletionProjects(cfg, s, p, c, u); }
      else { BareWriteProjects(cfg, s, p, c, u); BareIsWrite(cfg, s, p, c, u); }
    }
  }

  lemma BareIsWrite(cfg: Config, s: Shared, p: Proc, c: Choice, u: Uuid)
    requires (p.LoggingIn? || p.Rotating? || p.ChangingPassword?) && BareProjects(cfg, s, p, c, u)
    requires Act(cfg, s, p, c).p.Done? && Act(cfg, s, p, c).p.answer.Ok?
    ensures ActProjects(cfg, s, p, c, u)
  {
    ActMints(cfg, s, p, c);
    ActMints(cfg, Only(s, u), p, c);
  }

  // ---- the run with one account ----

  ghost function Alone(w: World, u: Uuid): World { World(Only(w.s, u), map[], w.used, {}, map[]) }

  /** `v` is `w` with the account of `u` only. Requests in `done` have written in both; others wait in `v`
      as they do in `w`, or as they did before they failed or turned out not to be the user's. */
  ghost predicate Shadows(w: World, v: World, u: Uuid, done: set<nat>) {
    && v.s == Only(w.s, u) && v.used <= w.used
    && (forall x :: x in w.procs && KeepsRead(w.procs[x], u) ==> x in v.procs && v.procs[x] == w.procs[x])
    && (forall x :: x in v.procs ==> x in w.procs && (v.procs[x] == w.procs[x] || Stalled(w.procs[x], v.procs[x])))
    && (forall x :: x in done ==>
          x in v.procs && v.procs[x] == w.procs[x] && (v.procs[x].Done? || TouchesBlacklist(v.procs[x])))
  }

  predicate Stalled(p: Proc, q: Proc) { p.Done? && !q.Done? && !TouchesBlacklist(q) }

  lemma BeginShadows(cfg: Config, w: World, v: World, ev: Event, u: Uuid, done: set<nat>)
    requires Inv(cfg, w) && Enabled(w, ev) && Shadows(w, v, u, done) && ev.Begin?
    ensures if KeepsEvent(cfg, w, ev, u) then Enabled(v, ev) && Shadows(Step(cfg, w, ev), Step(cfg, v, ev), u, done)
            else Shadows(Step(cfg, w, ev), v, u, done)
  {
    if KeepsEvent(cfg, w, ev, u) { ReadProjects(cfg, w.s, ev.req, ev.r, u); }
  }

  lemma {:induction false} ContinueShadows(cfg: Config, w: World, v: World, ev: Event, u: Uuid, done: set<nat>)
    requires Inv(cfg, w) && Enabled(w, ev) && Shadows(w, v, u, done) && ev.Continue?
    ensures if KeepsEvent(cfg, w, ev, u) then
              Enabled(v, ev) && Shadows(Step(cfg, w, ev), Step(cfg, v, ev), u, done + {ev.rid})
            else Shadows(Step(cfg, w, ev), v, u, done)
  {
    var p := w.procs[ev.rid];
    assert ProcOk(cfg, w, p);
    ActMints(cfg, w.s, p, ev.c);
    WriteProjects(cfg, w.s, p, ev.c, u);
    WriteShadows(cfg, w, v, ev.rid, ev.c, u, done);
  }

  lemma {:induction false} WriteShadows(cfg: Config, w: World, v: World, rid: nat, c: Choice, u: Uuid, done: set<nat>)
    requires Enabled(w, Continue(rid, c)) && Shadows(w, v, u, done) && ActProjects(cfg, w.s, w.procs[rid], c, u)
    requires Act(cfg, w.s, w.procs[rid], c).p.Done? || Act(cfg, w.s, w.procs[rid], c).p.Blacklisting?
    requires Act(cfg, w.s, w.procs[rid], c).p.Blacklisting? ==> TouchesBlacklist(w.procs[rid])
    ensures if KeepsWrite(cfg, w.s, w.procs[rid], c, u) then
              && Enabled(v, Continue(rid, c))
              && Shadows(Step(cfg, w, Continue(rid, c)), Step(cfg, v, Continue(rid, c)), u, done + {rid})
            else Shadows(Step(cfg, w, Continue(rid, c)), v, u, done)
  {
    if KeepsWrite(cfg, w.s, w.procs[rid], c, u) {
      assert KeepsRead(w.procs[rid], u) && v.procs[rid] == w.procs[rid];
      KeptWriteShadows(cfg, w, v, rid, c, u, done);
    }
  }

  lemma {:induction false} KeptWriteShadows(cfg: Config, w: World, v: World, rid: nat, c: Choice, u: Uuid,
                                            done: set<nat>)
    requires Enabled(w, Continue(rid, c)) && Shadows(w, v, u, done) && rid in v.procs && v.procs[rid] == w.procs[rid]
    requires Act(cfg, w.s, w.procs[rid], c).p.Done? || Act(cfg, w.s, w.procs[rid], c).p.Blacklisting?
    requires var o1, o := Act(cfg, v.s, w.procs[rid], c), Act(cfg, w.s, w.procs[rid], c);
      o1.p == o.p && o1.s == Only(o.s, u)
    ensures Enabled(v, Continue(rid, c))
    ensures Shadows(Step(cfg, w, Continue(rid, c)), Step(cfg, v, Continue(rid, c)), u, done + {rid})
  {
  }

  lemma {:induction false} StepShadows(cfg: Config, w: World, v: World, ev: Event, u: Uuid, done: set<nat>)
    requires Inv(cfg, w) && Enabled(w, ev) && Shadows(w, v, u, done)
    ensures if KeepsEvent(cfg, w, ev, u) then
              && Enabled(v, ev)
              && Shadows(Step(cfg, w, ev), Step(cfg, v, ev), u, done + if ev.Continue? then {ev.rid} else {})
            else Shadows(Step(cfg, w, ev), v, u, done)
  {
    if ev.Begin? { BeginShadows(cfg, w, v, ev, u, done); }
    if ev.Continue? { ContinueShadows(cfg, w, v, ev, u, done); }
    assert done + {} == done;
  }

  lemma {:induction false} KeptIsARun(cfg: Config, w: World, evs: seq<Event>, u: Uuid)
    requires cfg.Valid() && Initial(w) && ValidRun(cfg, w, evs)
    ensures ValidRun(cfg, Alone(w, u), KeptEvents(cfg, w, evs, u))
    ensures Shadows(Exec(cfg, w, evs), Exec(cfg, Alone(w, u), KeptEvents(cfg, w, evs, u)), u,
                    Writers(KeptEvents(cfg, w, evs, u)))
  {
    if evs != [] {
      var pre, ev := evs[..|evs| - 1], evs[|evs| - 1];
      KeptIsARun(cfg, w, pre, u);
      ReachableInv(cfg, w, pre);
      var now, kept := Exec(cfg, w, pre), KeptEvents(cfg, w, pre, u);
      StepShadows(cfg, now, Exec(cfg, Alone(w, u), kept), ev, u, Writers(kept));
      if KeepsEvent(cfg, now, ev, u) {
        RunSnoc(cfg, Alone(w, u), kept, ev);
        WritersSnoc(kept, ev);
      } else {
        assert kept + [] == kept;
      }
    }
  }

  lemma WritersSnoc(evs: seq<Event>, ev: Event)
    ensures Writers(evs + [ev]) == Writers(evs) + if ev.Continue? then {ev.rid} else {}
  {
    forall x | x in Writers(evs) + if ev.Continue? then {ev.rid} else {} ensures x in Writers(evs + [ev]) {
      if x in Writers(evs) {
        var k :| 0 <= k < |evs| && evs[k].Continue? && evs[k].rid == x;
        assert (evs + [ev])[k] == evs[k];
      } else {
        assert (evs + [ev])[|evs|] == ev;
      }
    }
  }

  /** The same state, with the requests in `rids` only. */
  ghost function Without(w: World, rids: set<nat>): World {
    w.(procs := map x | x in w.procs && x in rids :: w.procs[x])
  }

  lemma StepWithout(cfg: Config, w: World, ev: Event, rids: set<nat>)
    requires Enabled(w, ev) && (ev.Continue? ==> ev.rid in rids)
    ensures if Of(ev, rids) then Enabled(Without(w, rids), ev)
                                 && Without(Step(cfg, w, ev), rids) == Step(cfg, Without(w, rids), ev)
            else Without(Step(cfg, w, ev), rids) == Without(w, rids)
  {
    var v, w' := Without(w, rids), Step(cfg, w, ev);
    assert Without(w', rids).procs == if Of(ev, rids) then Step(cfg, v, ev).procs else v.procs;
  }

  /** Reads that no write follows can be erased from a run. */
  lemma {:induction false} IdleReadsErased(cfg: Config, v: World, evs: seq<Event>, rids: set<nat>)
    requires v.procs == map[] && ValidRun(cfg, v, evs) && Writers(evs) <= rids
    ensures ValidRun(cfg, v, Pick(evs, rids))
    ensures Exec(cfg, v, Pick(evs, rids)) == Without(Exec(cfg, v, evs), rids)
  {
    if evs == [] {
      assert Without(v, rids).procs == v.procs;
    } else {
      var pre, ev := evs[..|evs| - 1], evs[|evs| - 1];
      assert pre + [ev] == evs;
      WritersSnoc(pre, ev);
      IdleReadsErased(cfg, v, pre, rids);
      StepWithout(cfg, Exec(cfg, v, pre), ev, rids);
      if Of(ev, rids) { RunSnoc(cfg, v, Pick(pre, rids), ev); }
      else { assert Pick(pre, rids) + [] == Pick(pre, rids); }
    }
  }

  /** Request `x` has a write in the run that succeeds for `u`, or a logout's. */
  ghost predicate WritesFor(cfg: Config, w: World, evs: seq<Event>, u: Uuid, x: nat) {
    exists k :: 0 <= k < |evs| && KeptWriteAt(cfg, w, evs, u, x, k)
  }

  ghost predicate KeptWriteAt(cfg: Config, w: World, evs: seq<Event>, u: Uuid, x: nat, k: nat) requires k < |evs| {
    evs[k].Continue? && evs[k].rid == x && KeepsEvent(cfg, Exec(cfg, w, evs[..k]), evs[k], u)
  }

  lemma {:induction false} WritersAreOwn(cfg: Config, w: World, evs: seq<Event>, u: Uuid, x: nat)
    ensures x in Writers(KeptEvents(cfg, w, evs, u)) <==> WritesFor(cfg, w, evs, u, x)
  {
    if evs != [] {
      var pre, ev := evs[..|evs| - 1], evs[|evs| - 1];
      WritersAreOwn(cfg, w, pre, u, x);
      WritersSnoc(KeptEvents(cfg, w, pre, u), ev);
      assert KeptEvents(cfg, w, pre, u) + [] == KeptEvents(cfg, w, pre, u);
      forall k | 0 <= k < |pre| ensures KeptWriteAt(cfg, w, pre, u, x, k) == KeptWriteAt(cfg, w, evs, u, x, k) {
        assert pre[..k] == evs[..k];
      }
      assert evs[..|pre|] == pre;
      assert KeptWriteAt(cfg, w, evs, u, x, |pre|) ==> WritesFor(cfg, w, evs, u, x);
      if WritesFor(cfg, w, evs, u, x) {
        var k :| 0 <= k < |evs| && KeptWriteAt(cfg, w, evs, u, x, k);
        assert k < |pre| ==> KeptWriteAt(cfg, w, pre, u, x, k);
      }
      if WritesFor(cfg, w, pre, u, x) {
        var k :| 0 <= k < |pre| && KeptWriteAt(cfg, w, pre, u, x, k);
        assert KeptWriteAt(cfg, w, evs, u, x, k);
      }
    }
  }

  lemma AloneIsInitial(w: World, u: Uuid)
    requires Initial(w)
    ensures Initial(Alone(w, u))
  {
  }

  /** In every interleaved run, the events of the successful requests of `u`, the clock and the logouts are a
      valid run from the account of `u` alone. It ends in exactly the account and tokens that `u` has at the
      end of the full run; its requests are those that write for `u` and the logouts, each with the answer
      it has there. */
  lemma {:induction false} OwnEventsAreARun(cfg: Config, w: World, evs: seq<Event>, u: Uuid)
    requires cfg.Valid() && Initial(w) && ValidRun(cfg, w, evs)
    ensures var own := OwnEvents(cfg, w, evs, u);
      && Initial(Alone(w, u)) && ValidRun(cfg, Alone(w, u), own)
      && var full, one := Exec(cfg, w, evs), Exec(cfg, Alone(w, u), own);
      && one.s == Only(full.s, u)
      && (forall x :: x in one.procs <==> WritesFor(cfg, w, evs, u, x))
      && (forall x :: x in one.procs ==> x in full.procs && one.procs[x] == full.procs[x])
  {
    AloneIsInitial(w, u);
    KeptIsARun(cfg, w, evs, u);
    var kept := KeptEvents(cfg, w, evs, u);
    IdleReadsErased(cfg, Alone(w, u), kept, Writers(kept));
    forall x ensures x in Writers(kept) <==> WritesFor(cfg, w, evs, u, x) { WritersAreOwn(cfg, w, evs, u, x); }
  }
}
