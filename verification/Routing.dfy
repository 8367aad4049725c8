/** The user routes: a mutable router whose layers are tried in order, the middleware chain before each
    handler, and the error handler behind it all. */
module Routing {
  import opened Domain
  import opened Jwt
  import opened Machine
  import opened Validation
  import opened AtomicSpec
  import opened Invariants
  import opened AccessTokens
  import Schemas

  datatype Verb = GET | HEAD | POST | PUT | PATCH | DELETE

  datatype Segment = Literal(text: string) | Param

  datatype Handler = GetUsers | GetAuditLogs | GetUserById | UpdateUserById | DeleteUserById

  /** What a request carries as body, params or query. */
  type Input = map<string, string>

  /** A schema either yields the parsed input or a list of issues. */
  type Schema = Input -> Result<Input, seq<Issue>>

  datatype Targets = Targets(body: Option<Schema>, params: Option<Schema>, query: Option<Schema>)

  datatype Middleware =
    | Authentication
    | Authorization(roles: seq<Role>)
    | Validating(targets: Targets)
    | Handling(handler: Handler)

  /** A layer without verb and pattern (`router.use`) sees every request. */
  datatype Layer = Use(chain: seq<Middleware>) | Route(verb: Verb, pattern: seq<Segment>, chain: seq<Middleware>)

  datatype Reply = Reply(status: nat, errors: Errors)

  /** Everything outside the middleware: configuration, the shared state when the signature is checked and,
      a wait later, when the blacklist is consulted, JWT decoding, the names a plain object inherits, and
      what the service behind each handler answers. */
  datatype Env = Env(cfg: Config, s: Shared, lookup: Shared, decode: string -> Token, inherited: set<string>,
                     serve: (Handler, Input, Input, Input) -> Result<nat, ServiceError>)

  /** The mutable request and response. */
  datatype Context = Context(user: Option<Claims>, body: Input, params: Input, query: Input,
                             replies: seq<Reply>, ran: seq<Handler>)

  datatype Next = Proceed | Ended

  datatype Progress = Progress(ctx: Context, next: Next)

  // ---- the middleware, one by one ----

  const BEARER := "Bearer "

  /** The token of an `Authorization` header in the form of section 2.1 of RFC 6750. */
  function BearerToken(header: Option<string>): Option<string> {
    if header.Some? && BEARER <= header.value then Some(header.value[7..]) else None
  }

  /** `authenticate`: the signature first, the blacklist at the lookup. */
  function Authenticated(env: Env, header: Option<string>): Result<Claims, ServiceError> {
    match BearerToken(header)
    case None => Err(Unauthorized(MissingHeader))
    case Some(text) =>
      match Verify(env.decode(text), env.cfg.accessSecret, env.s.now)
      case Err(reason) => Err(Unauthorized(reason))
      case Ok(claims) =>
        if claims.tokenType != Access then Err(Unauthorized(InvalidTokenType))
        else if Blacklisted(env.lookup, claims.jti) then Err(Unauthorized(TokenRevoked))
        else Ok(claims)
  }

  function Authorized(user: Option<Claims>, roles: seq<Role>): Option<ServiceError> {
    if user.None? then Some(Unauthorized(AuthenticationRequired))
    else if user.value.role !in roles then Some(Forbidden(NotPermitted))
    else None
  }

  function Answered(ctx: Context, status: nat, errors: Errors): Progress {
    Progress(ctx.(replies := ctx.replies + [Reply(status, errors)]), Ended)
  }

  /** `next(error)`: the error handler answers. */
  function Failed(ctx: Context, e: ServiceError): Progress { Answered(ctx, StatusOf(e), map[]) }

  /** A failed parse: 422 with the grouped issues, or, if a field is an inherited name, a rejected promise
      that nobody answers. */
  ghost function Invalid(env: Env, ctx: Context, issues: seq<Issue>): Progress {
    if Throws(env, issues) then Progress(ctx, Ended)
    else Answered(ctx, 422, Grouped(issues))
  }

  ghost function Apply(env: Env, header: Option<string>, ctx: Context, m: Middleware): Progress {
    match m
    case Authentication =>
      (match Authenticated(env, header)
       case Err(e) => Failed(ctx, e)
       case Ok(claims) => Progress(ctx.(user := Some(claims)), Proceed))
    case Authorization(roles) =>
      var e := Authorized(ctx.user, roles);
      if e.Some? then Failed(ctx, e.value) else Progress(ctx, Proceed)
    case Validating(targets) => ApplyBody(env, ctx, targets)
    case Handling(handler) =>
      var ctx' := ctx.(ran := ctx.ran + [handler]);
      match env.serve(handler, ctx.body, ctx.params, ctx.query)
      case Ok(status) => Answered(ctx', status, map[])
      case Err(e) => Failed(ctx', e)
  }

  ghost function ApplyBody(env: Env, ctx: Context, t: Targets): Progress {
    if t.body.None? then ApplyParams(env, ctx, t) else
    match t.body.value(ctx.body)
    case Err(issues) => Invalid(env, ctx, issues)
    case Ok(parsed) => ApplyParams(env, ctx.(body := parsed), t)
  }

  ghost function ApplyParams(env: Env, ctx: Context, t: Targets): Progress {
    if t.params.None? then ApplyQuery(env, ctx, t) else
    match t.params.value(ctx.params)
    case Err(issues) => Invalid(env, ctx, issues)
    case Ok(parsed) => ApplyQuery(env, ctx.(params := parsed), t)
  }

  ghost function ApplyQuery(env: Env, ctx: Context, t: Targets): Progress {
    if t.query.None? then Progress(ctx, Proceed) else
    match t.query.value(ctx.query)
    case Err(issues) => Invalid(env, ctx, issues)
    case Ok(parsed) => Progress(ctx.(query := parsed), Proceed)
  }

  ghost function RunChain(env: Env, header: Option<string>, ctx: Context, chain: seq<Middleware>): Progress
    decreases |chain|
  {
    if chain == [] then Progress(ctx, Proceed) else
    var p := Apply(env, header, ctx, chain[0]);
    if p.next.Ended? then p else RunChain(env, header, p.ctx, chain[1..])
  }

  /** The reply to an error: its own status if it is operational, 409 for a unique violation, 404 for a
      missing record, 500 for anything else. */
  function ErrorReply(e: ServiceError): Reply {
    if e.AppError? then Reply(e.status, map[])
    else Reply(if e == PrismaError(P2002) then 409 else if e == PrismaError(P2025) then 404 else 500, map[])
  }

  // ---- matching ----

  /** Express answers HEAD from a GET route and compares paths without regard to case. */
  predicate VerbMatches(route: Verb, verb: Verb) { route == verb || (route == GET && verb == HEAD) }

  predicate SegmentMatches(pattern: Segment, text: string) {
    pattern.Param? || pattern.text == Schemas.Lower(text)
  }

  predicate Captures(layer: Layer, verb: Verb, path: seq<string>) {
    match layer
    case Use(_) => true
    case Route(v, pattern, _) =>
      && VerbMatches(v, verb) && |pattern| == |path|
      && forall k :: 0 <= k < |path| ==> SegmentMatches(pattern[k], path[k])
  }

  /** The `id` parameter, for a pattern that has one. */
  function ParamsOf(layer: Layer, path: seq<string>): Input {
    if layer.Route? && |layer.pattern| == 1 && |path| == 1 && layer.pattern[0].Param? then map["id" := path[0]]
    else map[]
  }

  /** Layers in order; a request no layer ends gets the application's 404. */
  ghost function Dispatch(env: Env, header: Option<string>, verb: Verb, path: seq<string>, ctx: Context,
                          stack: seq<Layer>): Context
    decreases |stack|
  {
    if stack == [] then Answered(ctx, 404, map[]).ctx
    else if !Captures(stack[0], verb, path) then Dispatch(env, header, verb, path, ctx, stack[1..])
    else
      var p := RunChain(env, header, ctx.(params := ParamsOf(stack[0], path)), stack[0].chain);
      if p.next.Ended? then p.ctx else Dispatch(env, header, verb, path, p.ctx, stack[1..])
  }

  // ---- what the parts mean ----

  /** The token is an unexpired access token of this service, and not blacklisted at the lookup. */
  ghost predicate Passes(env: Env, token: Token) {
    && token.Signed? && token.secret == env.cfg.accessSecret && token.claims.tokenType == Access
    && env.s.now / 1000 < token.claims.exp
    && (token.claims.jti.Some? && token.claims.jti.value in env.lookup.redis ==>
          env.lookup.redis[token.claims.jti.value] < env.lookup.now)
  }

  /** A header is accepted exactly when it is `Bearer `, then the text of a token that passes, and its claims
      become the user; any other header, and none, is refused with 401. */
  lemma HeaderDecides(env: Env, header: Option<string>)
    ensures forall text :: header == Some("Bearer " + text) ==>
              if Passes(env, env.decode(text)) then Authenticated(env, header) == Ok(env.decode(text).claims)
              else Authenticated(env, header).Err?
    ensures (forall text :: header != Some("Bearer " + text)) ==> Authenticated(env, header).Err?
    ensures Authenticated(env, header).Err? ==>
              Authenticated(env, header).error.AppError? && Authenticated(env, header).error.status == 401
  {
    forall text | header == Some("Bearer " + text) ensures BearerToken(header) == Some(text) {
      assert ("Bearer " + text)[7..] == text;
    }
    if header.Some? && BEARER <= header.value { assert header.value == "Bearer " + header.value[7..]; }
  }

  ghost predicate Accepts(schema: Option<Schema>, input: Input) { schema.Some? ==> schema.value(input).Ok? }

  /** What a handler sees of an input: the parsed form where a schema is declared, else the raw one. */
  ghost function Parsed(schema: Option<Schema>, input: Input): Input requires Accepts(schema, input) {
    if schema.Some? then schema.value(input).value else input
  }

  /** The one reply of a handler: what its service answers for these inputs. */
  ghost function Served(env: Env, h: Handler, body: Input, params: Input, query: Input): Reply {
    match env.serve(h, body, params, query)
    case Ok(status) => Reply(status, map[])
    case Err(e) => ErrorReply(e)
  }

  // ---- the code ----

  /** A request and its response. */
  class Exchange {
    const header: Option<string>
    var user: Option<Claims>
    var body: Input
    var params: Input
    var query: Input
    var replies: seq<Reply>
    var ran: seq<Handler>

    function View(): Context reads this { Context(user, body, params, query, replies, ran) }

    constructor (header: Option<string>, body: Input, query: Input)
      ensures View() == Context(None, body, map[], query, [], []) && this.header == header
    {
      this.header, this.body, this.query := header, body, query;
      user, params, replies, ran := None, map[], [], [];
    }

    method Send(status: nat, errors: Errors)
      modifies this`replies
      ensures replies == old(replies) + [Reply(status, errors)]
    {
      replies := replies + [Reply(status, errors)];
    }

    /** The error handler: an operational error keeps its status, P2002 is 409, P2025 is 404, and anything
        else is 500. */
    method HandleError(e: ServiceError)
      modifies this`replies
      ensures replies == old(replies) + [ErrorReply(e)]
      ensures replies == old(replies) + [Reply(StatusOf(e), map[])]
    {
      if e.AppError? { Send(e.status, map[]); }
      else if e == PrismaError(P2002) { Send(409, map[]); }
      else if e == PrismaError(P2025) { Send(404, map[]); }
      else { Send(500, map[]); }
    }

    method Authenticate(env: Env) returns (next: Next)
      modifies this`user, this`replies
      ensures Progress(View(), next) == Apply(env, header, old(View()), Authentication)
      ensures next.Proceed? <==> exists text :: header == Some("Bearer " + text) && Passes(env, env.decode(text))
      ensures forall text :: header == Some("Bearer " + text) && next.Proceed? ==>
                env.decode(text).Signed? && user == Some(env.decode(text).claims) && replies == old(replies)
      ensures next.Ended? ==> user == old(user) && replies == old(replies) + [Reply(401, map[])]
    {
      HeaderDecides(env, header);
      if header.None? || !(BEARER <= header.value) {
        HandleError(Unauthorized(MissingHeader));
        return Ended;
      }
      var verified := Verify(env.decode(header.value[7..]), env.cfg.accessSecret, env.s.now);
      if verified.Err? {
        HandleError(Unauthorized(verified.error));
        return Ended;
      }
      var payload := verified.value;
      if payload.tokenType != Access {
        HandleError(Unauthorized(InvalidTokenType));
        return Ended;
      }
      var redis := env.lookup.redis;
      if payload.jti.Some? && payload.jti.value in redis && env.lookup.now <= redis[payload.jti.value] {
        HandleError(Unauthorized(TokenRevoked));
        return Ended;
      }
      user := Some(payload);
      return Proceed;
    }

    method Authorize(env: Env, roles: seq<Role>) returns (next: Next)
      modifies this`replies
      ensures next.Proceed? <==> user.Some? && user.value.role in roles
      ensures replies == old(replies) + if next.Proceed? then [] else [Reply(if user.None? then 401 else 403, map[])]
      ensures Progress(View(), next) == Apply(env, header, old(View()), Authorization(roles))
    {
      if user.None? {
        HandleError(Unauthorized(AuthenticationRequired));
        return Ended;
      }
      if user.value.role !in roles {
        HandleError(Forbidden(NotPermitted));
        return Ended;
      }
      return Proceed;
    }

    method Reject(env: Env, issues: seq<Issue>)
      modifies this`replies
      ensures Progress(View(), Ended) == Invalid(env, old(View()), issues)
    {
      var errors := GroupErrors(issues, env.inherited);
      if errors.Some? {
        GroupsIsGrouped(issues, errors.value);
        Send(422, errors.value);
      }
    }

    method Validate(env: Env, targets: Targets) returns (next: Next)
      modifies this`body, this`params, this`query, this`replies
      ensures next.Proceed? <==> Accepts(targets.body, old(body)) && Accepts(targets.params, old(params))
                                 && Accepts(targets.query, old(query))
      ensures next.Proceed? ==> body == Parsed(targets.body, old(body)) && params == Parsed(targets.params, old(params))
                                && query == Parsed(targets.query, old(query)) && replies == old(replies)
      ensures Progress(View(), next) == Apply(env, header, old(View()), Validating(targets))
    {
      if targets.body.Some? {
        var parsed := targets.body.value(body);
        if parsed.Err? { Reject(env, parsed.error); return Ended; }
        body := parsed.value;
      }
      if targets.params.Some? {
        var parsed := targets.params.value(params);
        if parsed.Err? { Reject(env, parsed.error); return Ended; }
        params := parsed.value;
      }
      if targets.query.Some? {
        var parsed := targets.query.value(query);
        if parsed.Err? { Reject(env, parsed.error); return Ended; }
        query := parsed.value;
      }
      return Proceed;
    }

    method Run(env: Env, handler: Handler)
      modifies this`ran, this`replies
      ensures ran == old(ran) + [handler]
      ensures replies == old(replies) + [Served(env, handler, body, params, query)]
      ensures Progress(View(), Ended) == Apply(env, header, old(View()), Handling(handler))
    {
      ran := ran + [handler];
      var result := env.serve(handler, body, params, query);
      if result.Ok? { Send(result.value, map[]); } else { HandleError(result.error); }
    }

    method Step(env: Env, m: Middleware) returns (next: Next)
      modifies this
      ensures Progress(View(), next) == Apply(env, header, old(View()), m)
    {
      match m
      case Authentication => next := Authenticate(env);
      case Authorization(roles) => next := Authorize(env, roles);
      case Validating(targets) => next := Validate(env, targets);
      case Handling(handler) => Run(env, handler); next := Ended;
    }
  }

  class Router {
    var stack: seq<Layer>

    constructor ()
      ensures stack == []
    {
      stack := [];
    }

    method Add(layer: Layer)
      modifies this
      ensures stack == old(stack) + [layer]
    {
      stack := stack + [layer];
    }

    /** Tries the layers in order and stops at the first that ends the request. */
    method Handle(env: Env, x: Exchange, verb: Verb, path: seq<string>)
      modifies x
      ensures x.View() == Dispatch(env, x.header, verb, path, old(x.View()), stack)
    {
      var i := 0;
      while i < |stack|
        invariant 0 <= i <= |stack|
        invariant Dispatch(env, x.header, verb, path, x.View(), stack[i..])
               == Dispatch(env, x.header, verb, path, old(x.View()), stack)
      {
        var layer := stack[i];
        assert stack[i..][0] == layer && stack[i..][1..] == stack[i + 1..];
        if Captures(layer, verb, path) {
          x.params := ParamsOf(layer, path);
          ghost var start := x.View();
          var next, j := Proceed, 0;
          while j < |layer.chain| && next.Proceed?
            invariant 0 <= j <= |layer.chain|
            invariant next.Proceed? ==>
              RunChain(env, x.header, start, layer.chain) == RunChain(env, x.header, x.View(), layer.chain[j..])
            invariant next.Ended? ==> RunChain(env, x.header, start, layer.chain) == Progress(x.View(), Ended)
          {
            assert layer.chain[j..][0] == layer.chain[j] && layer.chain[j..][1..] == layer.chain[j + 1..];
            next := x.Step(env, layer.chain[j]);
            j := j + 1;
          }
          if next.Ended? { return; }
        }
        i := i + 1;
      }
      x.Send(404, map[]);
    }
  }

  // ---- the user routes ----

  /** The schemas of the user routes: list query, id parameter, update body. */
  datatype Checks = Checks(list: Schema, id: Schema, update: Schema)

  const ADMIN_ONLY := Authorization([ADMIN])

  function UserStack(checks: Checks): seq<Layer> {
    [ Use([Authentication]),
      Route(GET, [], ChainOf(checks, GetUsers)),
      Route(GET, [Literal("audit-logs")], ChainOf(checks, GetAuditLogs)),
      Route(GET, [Param], ChainOf(checks, GetUserById)),
      Route(PATCH, [Param], ChainOf(checks, UpdateUserById)),
      Route(DELETE, [Param], ChainOf(checks, DeleteUserById)) ]
  }

  function ChainOf(checks: Checks, h: Handler): seq<Middleware> {
    match h
    case GetUsers => [ADMIN_ONLY, Validating(TargetsOf(checks, h)), Handling(h)]
    case GetAuditLogs => [ADMIN_ONLY, Handling(h)]
    case GetUserById => [Validating(TargetsOf(checks, h)), Handling(h)]
    case UpdateUserById => [ADMIN_ONLY, Validating(TargetsOf(checks, h)), Handling(h)]
    case DeleteUserById => [ADMIN_ONLY, Validating(TargetsOf(checks, h)), Handling(h)]
  }

  function TargetsOf(checks: Checks, h: Handler): Targets {
    match h
    case GetUsers => Targets(None, None, Some(checks.list))
    case GetAuditLogs => Targets(None, None, None)
    case GetUserById => Targets(None, Some(checks.id), None)
    case UpdateUserById => Targets(Some(checks.update), Some(checks.id), None)
    case DeleteUserById => Targets(None, Some(checks.id), None)
  }

  method UserRouter(checks: Checks) returns (r: Router)
    ensures fresh(r) && r.stack == UserStack(checks)
  {
    r := new Router();
    r.Add(Use([Authentication]));
    r.Add(Route(GET, [], ChainOf(checks, GetUsers)));
    r.Add(Route(GET, [Literal("audit-logs")], ChainOf(checks, GetAuditLogs)));
    r.Add(Route(GET, [Param], ChainOf(checks, GetUserById)));
    r.Add(Route(PATCH, [Param], ChainOf(checks, UpdateUserById)));
    r.Add(Route(DELETE, [Param], ChainOf(checks, DeleteUserById)));
  }

  /** Reference table: which handler a verb and path belong to. */
  function HandlerFor(verb: Verb, path: seq<string>): Option<Handler> {
    if verb in {GET, HEAD} && path == [] then Some(GetUsers)
    else if |path| != 1 then None
    else if verb in {GET, HEAD} then Some(if Schemas.Lower(path[0]) == "audit-logs" then GetAuditLogs else GetUserById)
    else if verb == PATCH then Some(UpdateUserById)
    else if verb == DELETE then Some(DeleteUserById)
    else None
  }

  /** The issues the validator of a handler's route reports: those of the first declared input that does
      not parse, the body before the id. */
  function FirstIssues(checks: Checks, h: Handler, body: Input, path: seq<string>, query: Input): Option<seq<Issue>> {
    match h
    case GetUsers => IssuesOf(checks.list(query))
    case GetAuditLogs => None
    case UpdateUserById =>
      if checks.update(body).Err? then IssuesOf(checks.update(body)) else IssuesOf(checks.id(IdOf(path)))
    case _ => IssuesOf(checks.id(IdOf(path)))
  }

  function IssuesOf(parsed: Result<Input, seq<Issue>>): Option<seq<Issue>> {
    if parsed.Ok? then None else Some(parsed.error)
  }

  function IdOf(path: seq<string>): Input { if path == [] then map[] else map["id" := path[0]] }

  /** The reply of an admitted request, handler by handler: the service gets the parsed body, id and query
      where the route declares a schema, and the raw inputs where it declares none. */
  ghost function HandlerReply(env: Env, checks: Checks, h: Handler, body: Input, path: seq<string>, query: Input): Reply
    requires Parses(checks, h, body, path, query)
  {
    match h
    case GetUsers => Served(env, h, body, map[], checks.list(query).value)
    case GetAuditLogs => Served(env, h, body, map[], query)
    case GetUserById => Served(env, h, body, checks.id(IdOf(path)).value, query)
    case UpdateUserById => Served(env, h, checks.update(body).value, checks.id(IdOf(path)).value, query)
    case DeleteUserById => Served(env, h, body, checks.id(IdOf(path)).value, query)
  }

  /** The raw `params` of a handler's route: the id where its pattern has one. */
  function RawParams(h: Handler, path: seq<string>): Input {
    if h == GetUsers || h == GetAuditLogs then map[] else IdOf(path)
  }

  /** Every input the route of a handler declares parses. */
  predicate Parses(checks: Checks, h: Handler, body: Input, path: seq<string>, query: Input) {
    FirstIssues(checks, h, body, path, query).None?
  }

  /** Some issue is on a field named like a property every object inherits, so grouping throws. */
  predicate Throws(env: Env, issues: seq<Issue>) {
    exists k :: 0 <= k < |issues| && Field(issues[k].path) in env.inherited
  }

  /** The status of a request that reaches no handler. */
  function Refusal(env: Env, header: Option<string>, verb: Verb, path: seq<string>): nat {
    if Authenticated(env, header).Err? then 401
    else if HandlerFor(verb, path).None? then 404
    else if HandlerFor(verb, path) != Some(GetUserById) && Authenticated(env, header).value.role != ADMIN then 403
    else 422
  }

  predicate Admitted(env: Env, checks: Checks, header: Option<string>, verb: Verb, path: seq<string>,
                     body: Input, query: Input)
  {
    && Authenticated(env, header).Ok?
    && HandlerFor(verb, path).Some?
    && (HandlerFor(verb, path).value != GetUserById ==> Authenticated(env, header).value.role == ADMIN)
    && Parses(checks, HandlerFor(verb, path).value, body, path, query)
  }

  lemma {:induction false} FirstMatch(env: Env, header: Option<string>, verb: Verb, path: seq<string>, ctx: Context,
                                      stack: seq<Layer>, k: nat)
    requires k < |stack| && Captures(stack[k], verb, path)
    requires forall i :: 0 <= i < k ==> !Captures(stack[i], verb, path)
    requires RunChain(env, header, ctx.(params := ParamsOf(stack[k], path)), stack[k].chain).next.Ended?
    ensures Dispatch(env, header, verb, path, ctx, stack)
         == RunChain(env, header, ctx.(params := ParamsOf(stack[k], path)), stack[k].chain).ctx
    decreases k
  {
    if k > 0 {
      assert stack[1..][k - 1] == stack[k];
      assert forall i :: 0 <= i < k - 1 ==> stack[1..][i] == stack[i + 1];
      FirstMatch(env, header, verb, path, ctx, stack[1..], k - 1);
    }
  }

  lemma {:induction false} NoMatch(env: Env, header: Option<string>, verb: Verb, path: seq<string>, ctx: Context,
                                   stack: seq<Layer>)
    requires forall i :: 0 <= i < |stack| ==> !Captures(stack[i], verb, path)
    ensures Dispatch(env, header, verb, path, ctx, stack) == Answered(ctx, 404, map[]).ctx
    decreases |stack|
  {
    if stack != [] {
      assert forall i :: 0 <= i < |stack[1..]| ==> stack[1..][i] == stack[i + 1];
      NoMatch(env, header, verb, path, ctx, stack[1..]);
    }
  }

  lemma RunOne(env: Env, header: Option<string>, ctx: Context, m: Middleware, rest: seq<Middleware>)
    ensures RunChain(env, header, ctx, [m] + rest) ==
      var p := Apply(env, header, ctx, m);
      if p.next.Ended? then p else RunChain(env, header, p.ctx, rest)
  {
    assert ([m] + rest)[1..] == rest;
  }

  /** A validator lets a request through with its inputs parsed, answers it with one 422, or leaves it
      without an answer. */
  ghost predicate Validated(env: Env, t: Targets, ctx: Context, p: Progress, issues: Option<seq<Issue>>) {
    && p.ctx.user == ctx.user && p.ctx.ran == ctx.ran
    && match issues
       case None =>
         && p.next.Proceed? && p.ctx.replies == ctx.replies
         && Accepts(t.body, ctx.body) && Accepts(t.params, ctx.params) && Accepts(t.query, ctx.query)
         && p.ctx.body == Parsed(t.body, ctx.body) && p.ctx.params == Parsed(t.params, ctx.params)
         && p.ctx.query == Parsed(t.query, ctx.query)
       case Some(list) =>
         p.next.Ended? && p.ctx.replies == ctx.replies + if Throws(env, list) then [] else [Reply(422, Grouped(list))]
  }

  lemma ParseOutcome(env: Env, checks: Checks, h: Handler, ctx: Context, path: seq<string>)
    requires ctx.params == RawParams(h, path)
    ensures Validated(env, TargetsOf(checks, h), ctx, ApplyBody(env, ctx, TargetsOf(checks, h)),
                      FirstIssues(checks, h, ctx.body, path, ctx.query))
  {
  }

  lemma HandlerAnswers(env: Env, header: Option<string>, ctx: Context, h: Handler)
    ensures var p := RunChain(env, header, ctx, [Handling(h)]);
      p.next.Ended? && p.ctx.ran == ctx.ran + [h]
      && p.ctx.replies == ctx.replies + [Served(env, h, ctx.body, ctx.params, ctx.query)]
  {
    RunOne(env, header, ctx, Handling(h), []);
    assert [Handling(h)] + [] == [Handling(h)];
  }

  /** How a request ends that has passed authentication and authorization for `h`. */
  ghost predicate Tail(env: Env, checks: Checks, h: Handler, ctx: Context, path: seq<string>, out: Context) {
    match FirstIssues(checks, h, ctx.body, path, ctx.query)
    case None => out.ran == [h] && out.replies == [HandlerReply(env, checks, h, ctx.body, path, ctx.query)]
    case Some(issues) =>
      out.ran == [] && out.replies == if Throws(env, issues) then [] else [Reply(422, Grouped(issues))]
  }

  /** The validator and the handler behind it. */
  lemma {:induction false} TailOutcome(env: Env, checks: Checks, header: Option<string>, h: Handler, ctx: Context,
                                       path: seq<string>)
    requires ctx.replies == [] && ctx.ran == []
    requires ctx.params == RawParams(h, path)
    ensures var p := RunChain(env, header, ctx, [Validating(TargetsOf(checks, h)), Handling(h)]);
      p.next.Ended? && Tail(env, checks, h, ctx, path, p.ctx)
  {
    var validate := Validating(TargetsOf(checks, h));
    ParseOutcome(env, checks, h, ctx, path);
    RunOne(env, header, ctx, validate, [Handling(h)]);
    assert [validate] + [Handling(h)] == [validate, Handling(h)];
    HandlerAnswers(env, header, ApplyBody(env, ctx, TargetsOf(checks, h)).ctx, h);
  }

  /** What the chain of a handler does to a request that has been authenticated. */
  lemma ChainOutcome(env: Env, checks: Checks, header: Option<string>, h: Handler, ctx: Context, path: seq<string>)
    requires ctx.user.Some? && ctx.replies == [] && ctx.ran == []
    requires ctx.params == RawParams(h, path)
    ensures var p := RunChain(env, header, ctx, ChainOf(checks, h));
      && p.next.Ended?
      && if h == GetUserById || ctx.user.value.role == ADMIN then Tail(env, checks, h, ctx, path, p.ctx)
         else p.ctx.ran == [] && p.ctx.replies == [Reply(403, map[])]
  {
    var tail := GuardedTail(checks, h);
    GuardedTailOutcome(env, checks, header, h, ctx, path);
    if h == GetUserById {
      assert ChainOf(checks, h) == tail;
    } else {
      assert ChainOf(checks, h) == [ADMIN_ONLY] + tail;
      RunOne(env, header, ctx, ADMIN_ONLY, tail);
    }
  }

  /** The chain of a handler behind its role guard. */
  function GuardedTail(checks: Checks, h: Handler): seq<Middleware> {
    if h == GetAuditLogs then [Handling(h)] else [Validating(TargetsOf(checks, h)), Handling(h)]
  }

  lemma GuardedTailOutcome(env: Env, checks: Checks, header: Option<string>, h: Handler, ctx: Context,
                           path: seq<string>)
    requires ctx.replies == [] && ctx.ran == [] && ctx.params == RawParams(h, path)
    ensures var p := RunChain(env, header, ctx, GuardedTail(checks, h));
      p.next.Ended? && Tail(env, checks, h, ctx, path, p.ctx)
  {
    if h == GetAuditLogs {
      HandlerAnswers(env, header, ctx, h);
    } else {
      TailOutcome(env, checks, header, h, ctx, path);
    }
  }

  /** The position of a handler's layer behind the authentication layer. */
  function IndexOf(h: Handler): nat {
    match h
    case GetUsers => 0
    case GetAuditLogs => 1
    case GetUserById => 2
    case UpdateUserById => 3
    case DeleteUserById => 4
  }

  /** First-match order implements the reference table. */
  lemma LayersImplementTable(checks: Checks, verb: Verb, path: seq<string>)
    ensures var rest := UserStack(checks)[1..]; var h := HandlerFor(verb, path);
      if h.Some? then
        && Captures(rest[IndexOf(h.value)], verb, path)
        && forall i :: 0 <= i < IndexOf(h.value) ==> !Captures(rest[i], verb, path)
      else forall i :: 0 <= i < |rest| ==> !Captures(rest[i], verb, path)
  {
  }

  /** The request gets as far as a validator whose issue list cannot be grouped. */
  predicate Unanswered(env: Env, checks: Checks, header: Option<string>, verb: Verb, path: seq<string>,
                       body: Input, query: Input)
  {
    && Authenticated(env, header).Ok? && HandlerFor(verb, path).Some?
    && (HandlerFor(verb, path).value != GetUserById ==> Authenticated(env, header).value.role == ADMIN)
    && var issues := FirstIssues(checks, HandlerFor(verb, path).value, body, path, query);
       issues.Some? && Throws(env, issues.value)
  }

  /** `router.use(authenticate)` comes before every route. */
  lemma AuthenticationFirst(env: Env, checks: Checks, header: Option<string>, verb: Verb, path: seq<string>,
                            ctx: Context)
    requires ctx.params == map[]
    ensures Dispatch(env, header, verb, path, ctx, UserStack(checks)) ==
      var auth := Authenticated(env, header);
      if auth.Err? then Failed(ctx, auth.error).ctx
      else Dispatch(env, header, verb, path, ctx.(user := Some(auth.value)), UserStack(checks)[1..])
  {
    RunOne(env, header, ctx, Authentication, []);
    assert [Authentication] + [] == [Authentication];
    assert UserStack(checks)[0] == Use([Authentication]);
  }

  /** How a request ends that has been authenticated. */
  ghost predicate BehindAuth(env: Env, checks: Checks, verb: Verb, path: seq<string>, ctx: Context, out: Context)
    requires ctx.user.Some?
  {
    match HandlerFor(verb, path)
    case None => out.ran == [] && out.replies == [Reply(404, map[])]
    case Some(h) =>
      if h == GetUserById || ctx.user.value.role == ADMIN then Tail(env, checks, h, ctx, path, out)
      else out.ran == [] && out.replies == [Reply(403, map[])]
  }

  lemma GuardedBehindAuth(env: Env, checks: Checks, header: Option<string>, verb: Verb, path: seq<string>, ctx: Context)
    requires ctx.user.Some? && ctx.replies == [] && ctx.ran == [] && ctx.params == map[]
    ensures BehindAuth(env, checks, verb, path, ctx, Dispatch(env, header, verb, path, ctx, UserStack(checks)[1..]))
  {
    LayersImplementTable(checks, verb, path);
    var h := HandlerFor(verb, path);
    if h.None? { NoMatch(env, header, verb, path, ctx, UserStack(checks)[1..]); }
    else { HandlerReached(env, checks, header, verb, path, ctx, UserStack(checks)[1..], h.value); }
  }

  lemma HandlerReached(env: Env, checks: Checks, header: Option<string>, verb: Verb, path: seq<string>, ctx: Context,
                       rest: seq<Layer>, h: Handler)
    requires ctx.user.Some? && ctx.replies == [] && ctx.ran == [] && ctx.params == map[]
    requires rest == UserStack(checks)[1..] && HandlerFor(verb, path) == Some(h)
    requires Captures(rest[IndexOf(h)], verb, path)
    requires forall i :: 0 <= i < IndexOf(h) ==> !Captures(rest[i], verb, path)
    ensures BehindAuth(env, checks, verb, path, ctx, Dispatch(env, header, verb, path, ctx, rest))
  {
    var k := IndexOf(h);
    var started := ctx.(params := ParamsOf(rest[k], path));
    assert rest[k].chain == ChainOf(checks, h);
    ChainOutcome(env, checks, header, h, started, path);
    FirstMatch(env, header, verb, path, ctx, rest, k);
  }

  /** The verdict on a request: see RoutesAreGuarded. */
  ghost predicate Guarded(env: Env, checks: Checks, header: Option<string>, verb: Verb, path: seq<string>,
                          body: Input, query: Input, out: Context)
  {
    && (Admitted(env, checks, header, verb, path, body, query) <==> out.ran != [])
    && (out.ran != [] ==> out.ran == [HandlerFor(verb, path).value])
    && |out.replies| == (if Unanswered(env, checks, header, verb, path, body, query) then 0 else 1)
    && (out.ran == [] && out.replies != [] ==> out.replies[0].status == Refusal(env, header, verb, path))
    && out.replies == Replies(env, checks, header, verb, path, body, query)
  }

  /** The replies to a request: those of the first guard that refuses it, or of its handler. */
  ghost function Replies(env: Env, checks: Checks, header: Option<string>, verb: Verb, path: seq<string>,
                         body: Input, query: Input): seq<Reply>
  {
    if Authenticated(env, header).Err? then [Reply(401, map[])] else
    match HandlerFor(verb, path)
    case None => [Reply(404, map[])]
    case Some(h) =>
      if h != GetUserById && Authenticated(env, header).value.role != ADMIN then [Reply(403, map[])] else
      match FirstIssues(checks, h, body, path, query)
      case None => [HandlerReply(env, checks, h, body, path, query)]
      case Some(issues) => if Throws(env, issues) then [] else [Reply(422, Grouped(issues))]
  }

  lemma Verdict(env: Env, checks: Checks, header: Option<string>, verb: Verb, path: seq<string>,
                body: Input, query: Input, ctx: Context, out: Context)
    requires Authenticated(env, header).Ok? && ctx.user == Some(Authenticated(env, header).value)
    requires ctx.body == body && ctx.query == query && BehindAuth(env, checks, verb, path, ctx, out)
    ensures Guarded(env, checks, header, verb, path, body, query, out)
  {
  }

  /** For every request to the user routes: the handler of the reference table, and no other, runs if and
      only if the token is accepted, the role suffices and every declared input parses; otherwise no
      handler runs and the one reply is the refusal that comes first. A request goes without a reply
      exactly when its issue list cannot be grouped. */
  lemma RoutesAreGuarded(env: Env, checks: Checks, header: Option<string>, verb: Verb, path: seq<string>,
                         body: Input, query: Input)
    ensures Guarded(env, checks, header, verb, path, body, query,
              Dispatch(env, header, verb, path, Context(None, body, map[], query, [], []), UserStack(checks)))
  {
    var ctx := Context(None, body, map[], query, [], []);
    AuthenticationFirst(env, checks, header, verb, path, ctx);
    if Authenticated(env, header).Ok? {
      var inside := ctx.(user := Some(Authenticated(env, header).value));
      GuardedBehindAuth(env, checks, header, verb, path, inside);
      Verdict(env, checks, header, verb, path, body, query, inside,
              Dispatch(env, header, verb, path, inside, UserStack(checks)[1..]));
    }
  }

  // ---- what holds with the schemas of the routes ----

  /** The field names the schemas of the user routes declare; unknown keys are stripped, and an issue on
      the whole input is reported under `root`. */
  const DECLARED_FIELDS :=
    {"root", "page", "limit", "sortBy", "sortOrder", "search", "role", "id", "username", "isActive"}

  ghost predicate Declares(schema: Schema) {
    forall input: Input, k: nat :: schema(input).Err? && k < |schema(input).error| ==>
      Field(schema(input).error[k].path) in DECLARED_FIELDS
  }

  /** Issues fall on declared fields only, and no plain object inherits a property of such a name. */
  ghost predicate FixedKeys(env: Env, checks: Checks) {
    Declares(checks.list) && Declares(checks.id) && Declares(checks.update) && env.inherited !! DECLARED_FIELDS
  }

  /** With such schemas every request to the user routes gets exactly one reply. */
  lemma OneReplyPerRequest(env: Env, checks: Checks, header: Option<string>, verb: Verb, path: seq<string>,
                           body: Input, query: Input)
    requires FixedKeys(env, checks)
    ensures var out := Dispatch(env, header, verb, path, Context(None, body, map[], query, [], []), UserStack(checks));
      && |out.replies| == 1
      && (out.ran == [] ==> out.replies[0].status == Refusal(env, header, verb, path))
  {
    RoutesAreGuarded(env, checks, header, verb, path, body, query);
    if HandlerFor(verb, path).Some? {
      DeclaredNeverThrows(env, checks, HandlerFor(verb, path).value, body, path, query);
    }
  }

  lemma DeclaredNeverThrows(env: Env, checks: Checks, h: Handler, body: Input, path: seq<string>, query: Input)
    requires FixedKeys(env, checks)
    ensures FirstIssues(checks, h, body, path, query).Some? ==>
              !Throws(env, FirstIssues(checks, h, body, path, query).value)
  {
  }

  // ---- the middleware in the interleaved machine ----

  /** The middleware is the machine's authentication: it verifies in the state of the read and looks up in
      the state of the write, and accepts, or refuses for the reason, that the machine does. */
  lemma AuthenticatedIsTheMachine(env: Env, header: Option<string>, r: ReadChoice, c: Choice)
    ensures BearerToken(header).None? ==> Authenticated(env, header) == Err(Unauthorized(MissingHeader))
    ensures BearerToken(header).Some? ==>
      var read := ReadPhase(env.cfg, env.s, Authenticate(env.decode(BearerToken(header).value)), r);
      var p := if read.Done? then read else Act(env.cfg, env.lookup, read, c).p;
      var auth := Authenticated(env, header);
      p == Done(if auth.Ok? then Ok(Principal(auth.value)) else Err(auth.error))
  {
  }

  /** With no wait before the lookup it accepts a header exactly when the atomic specification accepts the
      token in it. */
  lemma AuthenticatedIsAtomic(env: Env, header: Option<string>)
    requires env.lookup == env.s
    ensures BearerToken(header).None? ==> Authenticated(env, header).Err?
    ensures BearerToken(header).Some? ==>
      var answer := AtomicAuthenticate(env.cfg, env.s, env.decode(BearerToken(header).value)).answer;
      && (Authenticated(env, header).Ok? <==> answer.Ok?)
      && (answer.Ok? ==> answer.value == Principal(Authenticated(env, header).value))
  {
  }

  /** The token whose logout `rid` finishes with its next write. */
  ghost predicate LoggedOut(cfg: Config, w: World, rid: nat, c: Choice, token: Token) {
    && cfg.Valid() && Inv(cfg, w) && Enabled(w, Continue(rid, c)) && w.procs[rid].Blacklisting?
    && token in w.signed && token.Signed? && token.claims.tokenType == Access
    && token.claims.jti == Some(w.procs[rid].key)
  }

  /** Signature check and lookup come after `evs` and, later, after `more`. */
  ghost predicate ChecksAfter(env: Env, w1: World, evs: seq<Event>, more: seq<Event>) {
    && ValidRun(env.cfg, w1, evs) && env.s == Exec(env.cfg, w1, evs).s
    && ValidRun(env.cfg, Exec(env.cfg, w1, evs), more)
    && env.lookup == Exec(env.cfg, Exec(env.cfg, w1, evs), more).s
  }

  lemma {:induction false} AcceptedAfterLogout(env: Env, header: Option<string>, w: World, rid: nat, c: Choice,
                                               evs: seq<Event>, more: seq<Event>)
    requires BearerToken(header).Some?
    requires LoggedOut(env.cfg, w, rid, c, env.decode(BearerToken(header).value))
    requires ChecksAfter(env, Step(env.cfg, w, Continue(rid, c)), evs, more)
    ensures var token, key := env.decode(BearerToken(header).value), w.procs[rid].key;
      && key in env.lookup.redis && key in env.s.redis && env.s.redis[key] <= env.lookup.redis[key]
      && 1000 * token.claims.exp <= env.s.redis[key]
      && (Authenticated(env, header).Ok? <==>
            Verify(token, env.cfg.accessSecret, env.s.now).Ok? && env.lookup.redis[key] < env.lookup.now)
  {
    var token, key := env.decode(BearerToken(header).value), w.procs[rid].key;
    var w1 := Step(env.cfg, w, Continue(rid, c));
    LogoutCovers(env.cfg, w, rid, c, token);
    StepKeeps(env.cfg, w, Continue(rid, c));
    CoveredStays(env.cfg, w1, token, key, evs);
    CoveredStays(env.cfg, Exec(env.cfg, w1, evs), token, key, more);
    AcceptedIffEntryGone(env, header, key);
  }

  lemma AcceptedIffEntryGone(env: Env, header: Option<string>, key: Uuid)
    requires BearerToken(header).Some? && key in env.lookup.redis
    requires var token := env.decode(BearerToken(header).value);
      token.Signed? && token.claims.tokenType == Access && token.claims.jti == Some(key)
    ensures Authenticated(env, header).Ok? <==>
      && Verify(env.decode(BearerToken(header).value), env.cfg.accessSecret, env.s.now).Ok?
      && env.lookup.redis[key] < env.lookup.now
  {
  }

  /** Once a logout has finished, in every continuation, a request to the user routes with the logged-out
      token is accepted exactly if it verifies and its lookup comes after the entry has gone. So when the
      lookup comes before the signature ends, or at the instant of verification, no handler runs and the
      answer is 401. */
  lemma {:induction false} NoHandlerAfterLogout(env: Env, checks: Checks, header: Option<string>, verb: Verb,
                                                path: seq<string>, body: Input, query: Input,
                                                w: World, rid: nat, c: Choice, evs: seq<Event>, more: seq<Event>)
    requires BearerToken(header).Some?
    requires LoggedOut(env.cfg, w, rid, c, env.decode(BearerToken(header).value))
    requires ChecksAfter(env, Step(env.cfg, w, Continue(rid, c)), evs, more)
    ensures var token, key := env.decode(BearerToken(header).value), w.procs[rid].key;
      var out := Dispatch(env, header, verb, path, Context(None, body, map[], query, [], []), UserStack(checks));
      && key in env.lookup.redis
      && (Authenticated(env, header).Ok? <==>
            Verify(token, env.cfg.accessSecret, env.s.now).Ok? && env.lookup.redis[key] < env.lookup.now)
      && (env.lookup.now < 1000 * token.claims.exp || env.lookup.now == env.s.now ==>
            out.ran == [] && |out.replies| == 1 && out.replies[0].status == 401)
  {
    AcceptedAfterLogout(env, header, w, rid, c, evs, more);
    RoutesAreGuarded(env, checks, header, verb, path, body, query);
  }

  /** In a run whose requests sign within `d` ms of reading, a token handed out by the service reaches a
      handler other than `GET /:id` only if its user was an active administrator less than 900 s and `d` ms
      before the signature was checked. */
  lemma AdminRoutesNeedRecentAdmin(env: Env, checks: Checks, header: Option<string>, verb: Verb, path: seq<string>,
                                   body: Input, query: Input, w0: World, evs: seq<Event>, d: nat)
    requires env.cfg.Valid() && Initial(w0) && ValidRun(env.cfg, w0, evs) && Prompt(env.cfg, w0, evs, d)
    requires env.s == Exec(env.cfg, w0, evs).s
    requires BearerToken(header).Some? && env.decode(BearerToken(header).value) in Exec(env.cfg, w0, evs).signed
    ensures var out := Dispatch(env, header, verb, path, Context(None, body, map[], query, [], []), UserStack(checks));
      out.ran != [] && out.ran != [GetUserById] ==>
        var token := env.decode(BearerToken(header).value);
        && token.Signed?
        && exists k: nat :: k <= |evs| && Holds(StateAt(env.cfg, w0, evs, k), token.claims.sub, ADMIN)
             && env.s.now < StateAt(env.cfg, w0, evs, k).now + d + 900_000
  {
    RoutesAreGuarded(env, checks, header, verb, path, body, query);
    if Admitted(env, checks, header, verb, path, body, query) && HandlerFor(verb, path).value != GetUserById {
      BoundedStaleness(env.cfg, w0, evs, d, env.decode(BearerToken(header).value));
    }
  }

  // ---- end to end ----

  /** The router as registered, handling one request: its outcome is the guarded one. */
  method HandleUserRequest(env: Env, checks: Checks, header: Option<string>, verb: Verb, path: seq<string>,
                           body: Input, query: Input)
    returns (x: Exchange)
    ensures fresh(x) && Guarded(env, checks, header, verb, path, body, query, x.View())
  {
    x := new Exchange(header, body, query);
    var router := UserRouter(checks);
    router.Handle(env, x, verb, path);
    RoutesAreGuarded(env, checks, header, verb, path, body, query);
  }

  /** `/audit-logs`, in any letter case, is never served by `GET /:id`; an administrator with a valid token
      always reaches the audit handler with it. Only PATCH and DELETE, which have no audit route, read it
      as an id. */
  lemma AuditLogsIsNotAnId(env: Env, checks: Checks, header: Option<string>, verb: Verb, path: seq<string>,
                           body: Input, query: Input)
    requires |path| == 1 && Schemas.Lower(path[0]) == "audit-logs"
    ensures var out := Dispatch(env, header, verb, path, Context(None, body, map[], query, [], []), UserStack(checks));
      && GetUserById !in out.ran
      && (GetAuditLogs in out.ran <==>
            (verb == GET || verb == HEAD) && Authenticated(env, header).Ok?
             && Authenticated(env, header).value.role == ADMIN)
      && (UpdateUserById in out.ran ==> verb == PATCH) && (DeleteUserById in out.ran ==> verb == DELETE)
  {
    RoutesAreGuarded(env, checks, header, verb, path, body, query);
  }
}
