/** Input normalisation (`trim` and `toLowerCase` of the schemas) and what it buys: whoever registers
    can log in with any case variant of the address. */
module Schemas {
  import opened Domain
  import opened Store
  import opened Machine
  import opened Invariants
  import opened AtomicSpec
  import opened Linearizability

  /** The checks a field must pass before it is normalised; e-mail, username and password syntax are
      arbitrary predicates. */
  datatype Rules = Rules(email: string -> bool, username: string -> bool, password: string -> bool)

  // ---- normalisation ----

  function LowerChar(c: char): char {
    if 'A' <= c <= 'Z' then c - 'A' + 'a' else c
  }

  function Lower(s: string): string {
    seq(|s|, i requires 0 <= i < |s| => LowerChar(s[i]))
  }

  /** What `trim` strips: white space and line terminators (sections 12.2 and 12.3 of ECMA-262). */
  predicate IsSpace(c: char) {
    || '\t' <= c <= '\r' || c == ' ' || c == '\U{00A0}' || c == '\U{1680}' || '\U{2000}' <= c <= '\U{200A}'
    || c == '\U{2028}' || c == '\U{2029}' || c == '\U{202F}' || c == '\U{205F}' || c == '\U{3000}' || c == '\U{FEFF}'
  }

  function TrimStart(s: string): string {
    if s != [] && IsSpace(s[0]) then TrimStart(s[1..]) else s
  }

  function TrimEnd(s: string): string {
    if s != [] && IsSpace(s[|s| - 1]) then TrimEnd(s[..|s| - 1]) else s
  }

  function Trim(s: string): string { TrimEnd(TrimStart(s)) }

  function Normalise(s: string): string { Lower(Trim(s)) }

  /** The register schema: check each field, then trim and lower-case e-mail and username. */
  function ParseRegister(rules: Rules, email: string, username: string, password: string): Option<Request> {
    if rules.email(email) && rules.username(username) && rules.password(password)
    then Some(Register(Normalise(email), Normalise(username), password)) else None
  }

  /** The login schema: the same e-mail rule, and any non-empty password. */
  function ParseLogin(rules: Rules, email: string, password: string): Option<Request> {
    if rules.email(email) && password != "" then Some(Login(Normalise(email), password)) else None
  }

  // ---- what normalising means ----

  const UPPER := "ABCDEFGHIJKLMNOPQRSTUVWXYZ"
  const LOWER := "abcdefghijklmnopqrstuvwxyz"

  /** The same character, or the two cases of one letter. */
  ghost predicate SameLetter(a: char, b: char) {
    a == b || exists k :: 0 <= k < 26 && ((a == UPPER[k] && b == LOWER[k]) || (a == LOWER[k] && b == UPPER[k]))
  }

  /** Equal but for the case of letters. */
  ghost predicate CaseVariant(a: string, b: string) {
    |a| == |b| && forall i :: 0 <= i < |a| ==> SameLetter(a[i], b[i])
  }

  ghost predicate Blank(s: string) { forall i :: 0 <= i < |s| ==> IsSpace(s[i]) }

  /** `raw` is `core` between blanks, and `core` neither begins nor ends with one. */
  ghost predicate PadsTo(raw: string, before: string, core: string, after: string) {
    && raw == before + core + after && Blank(before) && Blank(after)
    && (core != [] ==> !IsSpace(core[0]) && !IsSpace(core[|core| - 1]))
  }

  /** `out` is `raw` without its padding and without upper-case letters. */
  ghost predicate Normalises(raw: string, out: string) {
    exists before, core, after :: PadsTo(raw, before, core, after) && CaseVariant(core, out)
                                  && forall i :: 0 <= i < |out| ==> out[i] !in UPPER
  }

  lemma LettersAreInOrder(k: nat)
    requires k < 26
    ensures UPPER[k] == 'A' + k as char && LOWER[k] == 'a' + k as char
    ensures LowerChar(UPPER[k]) == LOWER[k] == LowerChar(LOWER[k])
  {
  }

  lemma InUpper(a: char)
    ensures a in UPPER <==> 'A' <= a <= 'Z'
    ensures 'A' <= a <= 'Z' ==> UPPER[a as int - 'A' as int] == a && LOWER[a as int - 'A' as int] == LowerChar(a)
  {
    forall k: nat | k < 26 ensures UPPER[k] == 'A' + k as char { LettersAreInOrder(k); }
    if 'A' <= a <= 'Z' { LettersAreInOrder(a as int - 'A' as int); }
  }

  lemma SameLetterLowers(a: char, b: char)
    requires a != b && SameLetter(a, b)
    ensures LowerChar(a) == LowerChar(b)
  {
    var k :| 0 <= k < 26 && ((a == UPPER[k] && b == LOWER[k]) || (a == LOWER[k] && b == UPPER[k]));
    LettersAreInOrder(k);
  }

  lemma SameLetterIffLower(a: char, b: char)
    ensures SameLetter(a, b) <==> LowerChar(a) == LowerChar(b)
  {
    InUpper(a);
    InUpper(b);
    if a != b && SameLetter(a, b) { SameLetterLowers(a, b); }
  }

  /** Equal lower-case forms are case variants, and nothing else is. */
  lemma LowerIffCaseVariant(a: string, b: string)
    ensures Lower(a) == Lower(b) <==> CaseVariant(a, b)
  {
    if |a| == |b| {
      forall i | 0 <= i < |a| ensures SameLetter(a[i], b[i]) <==> Lower(a)[i] == Lower(b)[i] {
        SameLetterIffLower(a[i], b[i]);
      }
    }
  }

  lemma LowerHasNoUpper(s: string)
    ensures CaseVariant(s, Lower(s)) && forall i :: 0 <= i < |s| ==> Lower(s)[i] !in UPPER
  {
    assert Lower(Lower(s)) == Lower(s);
    LowerIffCaseVariant(s, Lower(s));
    forall i | 0 <= i < |s| ensures Lower(s)[i] !in UPPER { InUpper(Lower(s)[i]); }
  }

  lemma {:induction false} TrimStartSplits(s: string) returns (before: string)
    ensures s == before + TrimStart(s) && Blank(before)
  {
    before := [];
    if s != [] && IsSpace(s[0]) {
      var rest := TrimStartSplits(s[1..]);
      before := [s[0]] + rest;
    }
  }

  lemma {:induction false} TrimEndSplits(s: string) returns (after: string)
    ensures s == TrimEnd(s) + after && Blank(after)
  {
    after := [];
    if s != [] && IsSpace(s[|s| - 1]) {
      var rest := TrimEndSplits(s[..|s| - 1]);
      after := rest + [s[|s| - 1]];
    }
  }

  lemma TrimPads(s: string) returns (before: string, after: string)
    ensures PadsTo(s, before, Trim(s), after)
  {
    before := TrimStartSplits(s);
    after := TrimEndSplits(TrimStart(s));
    TrimStartTrims(s);
    TrimEndTrims(TrimStart(s));
  }

  lemma {:induction false} BlankIsStripped(before: string, s: string)
    requires Blank(before)
    ensures TrimStart(before + s) == TrimStart(s) && TrimEnd(s + before) == TrimEnd(s)
  {
    if before != [] {
      var n := |before| - 1;
      assert (before + s)[1..] == before[1..] + s;
      assert (s + before)[..|s| + n] == s + before[..n];
      BlankIsStripped(before[1..], s);
      BlankEndStripped(before, s);
    } else {
      assert before + s == s && s + before == s;
    }
  }

  lemma {:induction false} BlankEndStripped(after: string, s: string)
    requires Blank(after)
    ensures TrimEnd(s + after) == TrimEnd(s)
  {
    if after != [] {
      assert (s + after)[..|s + after| - 1] == s + after[..|after| - 1];
      BlankEndStripped(after[..|after| - 1], s);
    } else {
      assert s + after == s;
    }
  }

  lemma PaddingIsTrimmed(raw: string, before: string, core: string, after: string)
    requires PadsTo(raw, before, core, after)
    ensures Trim(raw) == core
  {
    BlankIsStripped(before, core + after);
    assert before + core + after == before + (core + after);
    if core == [] {
      assert core + after == after + [];
      BlankIsStripped(after, []);
    } else {
      assert (core + after)[0] == core[0];
      BlankEndStripped(after, core);
    }
  }

  /** Normalising is stripping the padding and lowering the case, and that determines it. */
  lemma NormaliseIs(raw: string, out: string)
    ensures Normalises(raw, out) <==> out == Normalise(raw)
  {
    if Normalises(raw, out) {
      var before, core, after :| PadsTo(raw, before, core, after) && CaseVariant(core, out)
                                 && forall i :: 0 <= i < |out| ==> out[i] !in UPPER;
      PaddingIsTrimmed(raw, before, core, after);
      NoUpperIsLower(core, out);
    }
    NormaliseNormalises(raw);
  }

  lemma NormaliseNormalises(raw: string)
    ensures Normalises(raw, Normalise(raw))
  {
    var before, after := TrimPads(raw);
    LowerHasNoUpper(Trim(raw));
    assert PadsTo(raw, before, Trim(raw), after) && CaseVariant(Trim(raw), Normalise(raw));
  }

  lemma NoUpperIsLower(core: string, out: string)
    requires CaseVariant(core, out) && forall i :: 0 <= i < |out| ==> out[i] !in UPPER
    ensures out == Lower(core)
  {
    LowerIffCaseVariant(core, out);
    forall i | 0 <= i < |out| ensures LowerChar(out[i]) == out[i] { InUpper(out[i]); }
    assert Lower(out) == out;
  }

  /** The register schema yields the checked fields, e-mail and username normalised, the password as given. */
  lemma ParsedRegistration(rules: Rules, email: string, username: string, password: string, req: Request)
    ensures ParseRegister(rules, email, username, password) == Some(req) <==>
      && rules.email(email) && rules.username(username) && rules.password(password)
      && req.Register? && Normalises(email, req.email) && Normalises(username, req.username) && req.password == password
  {
    if req.Register? {
      NormaliseIs(email, req.email);
      NormaliseIs(username, req.username);
    }
  }

  /** So does the login schema. */
  lemma ParsedLogin(rules: Rules, email: string, password: string, req: Request)
    ensures ParseLogin(rules, email, password) == Some(req) <==>
      && rules.email(email) && |password| >= 1
      && req.Login? && Normalises(email, req.email) && req.password == password
  {
    if req.Login? { NormaliseIs(email, req.email); }
  }

  lemma {:induction false} LowerTrimStart(s: string)
    ensures Lower(TrimStart(s)) == TrimStart(Lower(s))
  {
    if s != [] && IsSpace(s[0]) {
      assert Lower(s)[1..] == Lower(s[1..]);
      LowerTrimStart(s[1..]);
    }
  }

  lemma {:induction false} LowerTrimEnd(s: string)
    ensures Lower(TrimEnd(s)) == TrimEnd(Lower(s))
  {
    if s != [] && IsSpace(s[|s| - 1]) {
      assert Lower(s)[..|s| - 1] == Lower(s[..|s| - 1]);
      LowerTrimEnd(s[..|s| - 1]);
    }
  }

  /** Case variants of an address normalise alike, and so do case variants under different padding. */
  lemma CaseVariantsNormaliseAlike(a: string, b: string)
    ensures CaseVariant(a, b) ==> Normalise(a) == Normalise(b)
    ensures Normalise(a) == Normalise(b) <==> CaseVariant(Trim(a), Trim(b))
  {
    LowerIffCaseVariant(a, b);
    LowerIffCaseVariant(Trim(a), Trim(b));
    LowerTrimStart(a); LowerTrimEnd(TrimStart(a));
    LowerTrimStart(b); LowerTrimEnd(TrimStart(b));
  }

  lemma {:induction false} TrimEndTrims(s: string)
    ensures TrimEnd(s) == [] || !IsSpace(TrimEnd(s)[|TrimEnd(s)| - 1])
    ensures TrimEnd(s) <= s
    ensures s != [] && !IsSpace(s[0]) ==> TrimEnd(s) != []
  {
    if s != [] && IsSpace(s[|s| - 1]) { TrimEndTrims(s[..|s| - 1]); }
  }

  lemma {:induction false} TrimStartTrims(s: string)
    ensures TrimStart(s) == [] || !IsSpace(TrimStart(s)[0])
  {
    if s != [] && IsSpace(s[0]) { TrimStartTrims(s[1..]); }
  }

  lemma NormaliseIsIdempotent(s: string)
    ensures Normalise(Normalise(s)) == Normalise(s)
  {
    var t := Trim(s);
    TrimStartTrims(s);
    TrimEndTrims(TrimStart(s));
    assert t != [] ==> t[0] == TrimStart(s)[0];
    assert Lower(Lower(t)) == Lower(t);
    if t != [] {
      assert !IsSpace(Lower(t)[0]) && !IsSpace(Lower(t)[|t| - 1]);
    }
  }

  // ---- e-mails stay normalised ----

  ghost predicate Normal(email: string) { Normalise(email) == email }

  ghost predicate AllNormal(w: World) {
    && (forall i :: i in w.s.db.users ==> Normal(w.s.db.users[i].email))
    && (forall rid :: rid in w.procs && w.procs[rid].Registering? ==> Normal(w.procs[rid].email))
  }

  /** Registrations reach the service through the schema. */
  ghost predicate ThroughSchema(rules: Rules, ev: Event) {
    ev.Begin? && ev.req.Register? ==>
      exists email, username, password :: ParseRegister(rules, email, username, password) == Some(ev.req)
  }

  /** A write adds no account but the registered one, and changes no e-mail. */
  lemma EmailsKept(cfg: Config, s: Shared, p: Proc, c: Choice, i: Uuid)
    requires i in Act(cfg, s, p, c).s.db.users
    ensures (i in s.db.users && Act(cfg, s, p, c).s.db.users[i].email == s.db.users[i].email)
      || (p.Registering? && Act(cfg, s, p, c).s.db.users[i].email == p.email)
  {
  }

  lemma StepKeepsNormal(cfg: Config, rules: Rules, w: World, ev: Event)
    requires Enabled(w, ev) && ThroughSchema(rules, ev) && AllNormal(w)
    ensures AllNormal(Step(cfg, w, ev))
  {
    if ev.Begin? { ReadIsNormal(cfg, rules, w.s, ev); }
    if ev.Continue? { WriteKeepsNormal(cfg, w, ev.rid, ev.c); }
  }

  lemma ReadIsNormal(cfg: Config, rules: Rules, s: Shared, ev: Event)
    requires ev.Begin? && ThroughSchema(rules, ev)
    ensures var p := ReadPhase(cfg, s, ev.req, ev.r); p.Registering? ==> Normal(p.email)
  {
    if ev.req.Register? {
      var email, username, password :| ParseRegister(rules, email, username, password) == Some(ev.req);
      NormaliseIsIdempotent(email);
    }
  }

  lemma WriteKeepsNormal(cfg: Config, w: World, rid: nat, c: Choice)
    requires Enabled(w, Continue(rid, c)) && AllNormal(w)
    ensures AllNormal(Step(cfg, w, Continue(rid, c)))
  {
    var w' := Step(cfg, w, Continue(rid, c));
    forall i | i in w'.s.db.users ensures Normal(w'.s.db.users[i].email) {
      EmailsKept(cfg, w.s, w.procs[rid], c, i);
    }
    ActMints(cfg, w.s, w.procs[rid], c);
  }

  /** In every reachable state of a service fed through its schemas, every stored e-mail is normalised. */
  lemma {:induction false} EmailsStayNormal(cfg: Config, rules: Rules, w: World, evs: seq<Event>)
    requires ValidRun(cfg, w, evs) && AllNormal(w)
    requires forall k :: 0 <= k < |evs| ==> ThroughSchema(rules, evs[k])
    ensures AllNormal(Exec(cfg, w, evs))
  {
    if evs != [] {
      var pre := evs[..|evs| - 1];
      EmailsStayNormal(cfg, rules, w, pre);
      StepKeepsNormal(cfg, rules, Exec(cfg, w, pre), evs[|evs| - 1]);
    }
  }

  // ---- register, then log in ----

  /** The write is a password change, a deactivation or a deletion of account `u`. */
  predicate Disturbs(p: Proc, u: Uuid) {
    match p
    case ChangingPassword(userId, _, _, _) => userId == u
    case Deleting(id) => id == u
    case Updating(id, patch) => id == u && patch.isActive == Some(false)
    case _ => false
  }

  ghost predicate Undisturbed(cfg: Config, w: World, evs: seq<Event>, u: Uuid) {
    evs != [] ==>
      var pre, ev := evs[..|evs| - 1], evs[|evs| - 1];
      && Undisturbed(cfg, w, pre, u)
      && (ev.Continue? && ev.rid in Exec(cfg, w, pre).procs ==> !Disturbs(Exec(cfg, w, pre).procs[ev.rid], u))
  }

  lemma WriteKeepsOpen(cfg: Config, s: Shared, p: Proc, c: Choice, u: Uuid)
    requires u in s.db.users && s.db.users[u].isActive && !Disturbs(p, u)
    ensures var s' := Act(cfg, s, p, c).s;
      && u in s'.db.users && s'.db.users[u].isActive
      && s'.db.users[u].email == s.db.users[u].email
      && s'.db.users[u].passwordHash == s.db.users[u].passwordHash
  {
  }

  lemma {:induction false} RunKeepsOpen(cfg: Config, w: World, evs: seq<Event>, u: Uuid, email: string,
                                        password: string)
    requires ValidRun(cfg, w, evs) && Undisturbed(cfg, w, evs, u) && Opens(cfg, w.s, u, email, password)
    ensures Opens(cfg, Exec(cfg, w, evs).s, u, email, password)
  {
    if evs != [] {
      var pre, ev := evs[..|evs| - 1], evs[|evs| - 1];
      RunKeepsOpen(cfg, w, pre, u, email, password);
      var now := Exec(cfg, w, pre);
      if ev.Continue? { WriteKeepsOpen(cfg, now.s, now.procs[ev.rid], ev.c, u); }
    }
  }

  /** An account that opens with an address and password is the one both the service and the
      specification log in to. */
  lemma OpenMeansLogin(cfg: Config, s: Shared, u: Uuid, email: string, password: string, c: Choice, r: ReadChoice)
    requires UniqueEmails(s.db) && Opens(cfg, s, u, email, password)
    ensures ReadPhase(cfg, s, Login(email, password), r) == LoggingIn(email, password, u, s.db.users[u], s.now)
    ensures var answer := Atomic(cfg, s, Perform(Login(email, password), c)).answer;
      answer.Ok? && answer.value.Session? && answer.value.userId == u
  {
    LoginIs(cfg, s, email, password, c, u);
  }

  lemma RegistrationOpens(cfg: Config, s: Shared, p: Proc, c: Choice)
    requires cfg.Valid() && p.Registering? && Act(cfg, s, p, c).p.answer.Ok?
    ensures Opens(cfg, Act(cfg, s, p, c).s, c.userId, p.email, p.password)
  {
  }

  /** After a registration with `raw` through the schema, any address that differs from it in case or
      padding only and the password given to the schema log in to that very account, in every continuation
      that does not change its password, deactivate it or delete it: both the read phase of the service and
      the atomic login accept. */
  lemma {:induction false} RegisterThenLogin(cfg: Config, rules: Rules, w: World, rid: nat, c: Choice,
                                             evs: seq<Event>, raw: string, username: string, password: string,
                                             variant: string, c2: Choice, r: ReadChoice)
    requires cfg.Valid() && Inv(cfg, w) && Enabled(w, Continue(rid, c))
    requires ParseRegister(rules, raw, username, password).Some?
    requires Serves(w.procs[rid], ParseRegister(rules, raw, username, password).value)
    requires CaseVariant(Trim(variant), Trim(raw))
    requires Act(cfg, w.s, w.procs[rid], c).p.answer.Ok?
    requires ValidRun(cfg, Step(cfg, w, Continue(rid, c)), evs)
    requires Undisturbed(cfg, Step(cfg, w, Continue(rid, c)), evs, c.userId)
    requires ParseLogin(rules, variant, password).Some?
    ensures LogsInTo(cfg, Exec(cfg, Step(cfg, w, Continue(rid, c)), evs).s, ParseLogin(rules, variant, password).value,
                     c.userId, password, c2, r)
  {
    var w1 := Step(cfg, w, Continue(rid, c));
    ParsedRegistration(rules, raw, username, password, ParseRegister(rules, raw, username, password).value);
    ParsedLogin(rules, variant, password, ParseLogin(rules, variant, password).value);
    NormaliseIs(raw, w.procs[rid].email);
    NormaliseIs(variant, ParseLogin(rules, variant, password).value.email);
    CaseVariantsNormaliseAlike(variant, raw);
    StepKeeps(cfg, w, Continue(rid, c));
    RunKeeps(cfg, w1, evs);
    RegistrationOpens(cfg, w.s, w.procs[rid], c);
    RunKeepsOpen(cfg, w1, evs, c.userId, w.procs[rid].email, password);
    OpenMeansLogin(cfg, Exec(cfg, w1, evs).s, c.userId, w.procs[rid].email, password, c2, r);
  }

  /** The login request is accepted and opens a session of account `u`. */
  ghost predicate LogsInTo(cfg: Config, s: Shared, login: Request, u: Uuid, password: string, c: Choice,
                           r: ReadChoice)
  {
    var p, answer := ReadPhase(cfg, s, login, r), Atomic(cfg, s, Perform(login, c)).answer;
    && u in s.db.users
    && p.LoggingIn? && p.userId == u && p.password == password && p.user == s.db.users[u]
    && answer.Ok? && answer.value.Session? && answer.value.userId == u
  }

  /** After a password change of an active account its new password logs in to it, in every continuation
      that does not change it again, deactivate the account or delete it. */
  lemma {:induction false} NewPasswordOpens(cfg: Config, w: World, rid: nat, c: Choice, evs: seq<Event>,
                                            u: Uuid, current: string, replacement: string, c2: Choice, r: ReadChoice)
    requires cfg.Valid() && Inv(cfg, w) && Enabled(w, Continue(rid, c))
    requires !w.procs[rid].Done? && Serves(w.procs[rid], ChangePassword(u, current, replacement))
    requires Act(cfg, w.s, w.procs[rid], c).p.answer.Ok? && u in w.s.db.users && w.s.db.users[u].isActive
    requires ValidRun(cfg, Step(cfg, w, Continue(rid, c)), evs)
    requires Undisturbed(cfg, Step(cfg, w, Continue(rid, c)), evs, u)
    ensures LogsInTo(cfg, Exec(cfg, Step(cfg, w, Continue(rid, c)), evs).s,
                     Login(w.s.db.users[u].email, replacement), u, replacement, c2, r)
  {
    var w1, email := Step(cfg, w, Continue(rid, c)), w.s.db.users[u].email;
    StepKeeps(cfg, w, Continue(rid, c));
    RunKeeps(cfg, w1, evs);
    RunKeepsOpen(cfg, w1, evs, u, email, replacement);
    OpenMeansLogin(cfg, Exec(cfg, w1, evs).s, u, email, replacement, c2, r);
  }
}
