// The four middleware lists of rpc/grpc.go and rpc/http.go, and what their composition
// does with the context that the tracing middleware hands on.
module MiddlewareChain {
  import opened Wrappers
  import opened TraceContext
  import opened OperationRules
  import opened CallTree
  import opened TracingGuarantees

  datatype SigningMethod = HS256 | HS384 | HS512

  // conf.Middleware, with the parts the builders read.
  datatype MetricsSwitches = MetricsSwitches(histogram: bool, counter: bool)
  datatype AuthConfig = AuthConfig(signing: string, key: string)
  datatype MiddlewareConfig = MiddlewareConfig(
    enableRecovery: bool, enableTracing: bool, tracing: Option<Rules>, enableValidate: bool, enableMetadata: bool,
    limiter: Option<string>, auth: Option<AuthConfig>, enableLogging: bool, metrics: Option<MetricsSwitches>)

  datatype Middleware =
    | Recovery
    | Tracing(rules: Option<Rules>)
    | Validate
    | Metadata
    | RateLimit(bbr: bool)  // without bbr the limiter handed over is nil
    | Auth(signing: SigningMethod, key: string)
    | Logging
    | Metrics(seconds: bool, requests: bool)
    | User(id: nat)

  datatype Transport = GRPC | HTTP
  datatype Side = ClientSide | ServerSide

  // ----- the builders -----------------------------------------------------------------

  // CreateGrpcClient
  method GrpcClientMiddleware(cfg: Option<MiddlewareConfig>, user: seq<Middleware>) returns (ms: seq<Middleware>)
    ensures IsList(GRPC, ClientSide, cfg, user, ms)
  {
    ms := [];
    if cfg.Some? {
      var c := cfg.value;
      ms := AppendIf(GRPC, ClientSide, c, 0, c.enableRecovery, Recovery, ms);
      ms := AppendIf(GRPC, ClientSide, c, 1, c.enableTracing, Tracing(c.tracing), ms);
      ms := AppendIf(GRPC, ClientSide, c, 2, c.enableValidate, Validate, ms);
      ms := AppendIf(GRPC, ClientSide, c, 3, c.enableMetadata, Metadata, ms);
      ms := AppendAuth(GRPC, ClientSide, c, ms);
      ms := AppendMetrics(GRPC, ClientSide, c, ms);
    }
    ms := AppendUser(GRPC, ClientSide, cfg, user, ms);
  }

  // CreateHTTPClient
  method HttpClientMiddleware(cfg: Option<MiddlewareConfig>, user: seq<Middleware>) returns (ms: seq<Middleware>)
    ensures IsList(HTTP, ClientSide, cfg, user, ms)
  {
    ms := [];
    if cfg.Some? {
      var c := cfg.value;
      ms := AppendIf(HTTP, ClientSide, c, 0, c.enableRecovery, Recovery, ms);
      ms := AppendIf(HTTP, ClientSide, c, 1, c.enableTracing, Tracing(c.tracing), ms);
      ms := AppendIf(HTTP, ClientSide, c, 2, c.enableValidate, Validate, ms);
      ms := AppendMetrics(HTTP, ClientSide, c, ms);
    }
    ms := AppendUser(HTTP, ClientSide, cfg, user, ms);
  }

  // CreateGrpcServer
  method GrpcServerMiddleware(cfg: Option<MiddlewareConfig>, user: seq<Middleware>) returns (ms: seq<Middleware>)
    ensures IsList(GRPC, ServerSide, cfg, user, ms)
  {
    ms := [];
    if cfg.Some? {
      var c := cfg.value;
      ms := AppendIf(GRPC, ServerSide, c, 0, c.enableRecovery, Recovery, ms);
      ms := AppendIf(GRPC, ServerSide, c, 1, c.enableTracing, Tracing(c.tracing), ms);
      ms := AppendIf(GRPC, ServerSide, c, 2, c.enableValidate, Validate, ms);
      ms := AppendIf(GRPC, ServerSide, c, 3, c.enableMetadata, Metadata, ms);
      ms := AppendLimiter(GRPC, ServerSide, c, ms);
      ms := AppendAuth(GRPC, ServerSide, c, ms);
      ms := AppendIf(GRPC, ServerSide, c, 6, c.enableLogging, Logging, ms);
      ms := AppendMetrics(GRPC, ServerSide, c, ms);
    }
    ms := AppendUser(GRPC, ServerSide, cfg, user, ms);
  }

  // CreateHTTPServerWithOptions
  method HttpServerMiddleware(cfg: Option<MiddlewareConfig>, user: seq<Middleware>) returns (ms: seq<Middleware>)
    ensures IsList(HTTP, ServerSide, cfg, user, ms)
  {
    ms := [];
    if cfg.Some? {
      var c := cfg.value;
      ms := AppendIf(HTTP, ServerSide, c, 0, c.enableRecovery, Recovery, ms);
      ms := AppendIf(HTTP, ServerSide, c, 1, c.enableTracing, Tracing(c.tracing), ms);
      ms := AppendIf(HTTP, ServerSide, c, 2, c.enableValidate, Validate, ms);
      ms := AppendLimiter(HTTP, ServerSide, c, ms);
      ms := AppendIf(HTTP, ServerSide, c, 5, c.enableLogging, Logging, ms);
      ms := AppendMetrics(HTTP, ServerSide, c, ms);
    }
    ms := AppendUser(HTTP, ServerSide, cfg, user, ms);
  }

  // The caller's own list comes last.
  method AppendUser(ghost t: Transport, ghost s: Side, ghost cfg: Option<MiddlewareConfig>, user: seq<Middleware>,
                    ms: seq<Middleware>)
    returns (out: seq<Middleware>)
    requires if cfg.Some? then Upto(t, s, cfg.value, 8, ms) else ms == []
    ensures out == ms + user && IsList(t, s, cfg, user, out)
  {
    out := ms + user;
    assert out[..|out| - |user|] == ms;
    if cfg.Some? {
      Complete(t, s, cfg.value, ms);
    }
  }

  // A switch adds its middleware to a list that is complete up to that middleware's rank.
  method AppendIf(ghost t: Transport, ghost s: Side, ghost c: MiddlewareConfig, ghost rank: nat,
                  on: bool, m: Middleware, ms: seq<Middleware>)
    returns (out: seq<Middleware>)
    requires Upto(t, s, c, rank, ms) && rank <= Rank(m) < 8
    requires forall r :: rank <= r < Rank(m) ==> !Installs(t, s, c, r)
    requires (on <==> Installs(t, s, c, Rank(m))) && (on ==> m == Entry(c, Rank(m)))
    ensures Upto(t, s, c, Rank(m) + 1, out)
  {
    out := ms;
    if on {
      out := ms + [m];
    }
    forall w ensures w in out <==> Rank(w) < Rank(m) + 1 && Wanted(t, s, c, w) {
      WantedIsTheEntry(t, s, c, w);
      assert w in ms <==> Rank(w) < rank && Wanted(t, s, c, w);
    }
    forall i | 0 <= i < |ms| ensures Rank(ms[i]) < rank {
      assert ms[i] in ms;
    }
  }

  method AppendLimiter(ghost t: Transport, ghost s: Side, c: MiddlewareConfig, ms: seq<Middleware>)
    returns (out: seq<Middleware>)
    requires s == ServerSide && Upto(t, s, c, if t == HTTP then 3 else 4, ms)
    ensures Upto(t, s, c, 5, out)
  {
    var bbr := false;
    if c.limiter.Some? {
      match c.limiter.value {
        case "bbr" => bbr := true;
        case _ =>
      }
    }
    out := AppendIf(t, s, c, if t == HTTP then 3 else 4, c.limiter.Some?, RateLimit(bbr), ms);
  }

  method AppendAuth(ghost t: Transport, ghost s: Side, c: MiddlewareConfig, ms: seq<Middleware>)
    returns (out: seq<Middleware>)
    requires t == GRPC && Upto(t, s, c, if s == ClientSide then 4 else 5, ms)
    ensures Upto(t, s, c, 6, out)
  {
    var signing := HS256;
    if c.auth.Some? {
      match c.auth.value.signing {
        case "HS384" => signing := HS384;
        case "HS512" => signing := HS512;
        case _ =>
      }
    }
    var key := if c.auth.Some? then c.auth.value.key else "";
    out := AppendIf(t, s, c, if s == ClientSide then 4 else 5, key != "", Auth(signing, key), ms);
  }

  method AppendMetrics(ghost t: Transport, ghost s: Side, c: MiddlewareConfig, ms: seq<Middleware>)
    returns (out: seq<Middleware>)
    requires Upto(t, s, c, BeforeMetrics(t, s), ms)
    ensures Upto(t, s, c, 8, out)
  {
    var seconds, requests, options := false, false, 0;
    if c.metrics.Some? {
      if c.metrics.value.histogram {
        seconds, options := true, options + 1;
      }
      if c.metrics.value.counter {
        requests, options := true, options + 1;
      }
    }
    out := AppendIf(t, s, c, BeforeMetrics(t, s), options > 0, Metrics(seconds, requests), ms);
  }

  // ----- what a list is ----------------------------------------------------------------

  function SigningOf(signing: string): SigningMethod {
    if signing == "HS384" then HS384 else if signing == "HS512" then HS512 else HS256
  }

  // The place of each built-in middleware in the one order.
  function Rank(m: Middleware): nat {
    match m
    case Recovery => 0
    case Tracing(_) => 1
    case Validate => 2
    case Metadata => 3
    case RateLimit(_) => 4
    case Auth(_, _) => 5
    case Logging => 6
    case Metrics(_, _) => 7
    case User(_) => 8
  }

  ghost predicate InOrder(ms: seq<Middleware>) {
    forall i, j :: 0 <= i < j < |ms| ==> Rank(ms[i]) < Rank(ms[j])
  }

  // Whether a transport and side installs exactly this middleware for the configuration.
  predicate Wanted(t: Transport, s: Side, c: MiddlewareConfig, m: Middleware) {
    match m
    case Recovery => c.enableRecovery
    case Tracing(rules) => c.enableTracing && rules == c.tracing
    case Validate => c.enableValidate
    case Metadata => t == GRPC && c.enableMetadata
    case RateLimit(bbr) => s == ServerSide && c.limiter.Some? && (bbr <==> c.limiter.value == "bbr")
    case Auth(signing, key) =>
      t == GRPC && c.auth.Some? && key == c.auth.value.key != "" && signing == SigningOf(c.auth.value.signing)
    case Logging => s == ServerSide && c.enableLogging
    case Metrics(seconds, requests) =>
      && c.metrics.Some? && (seconds || requests)
      && seconds == c.metrics.value.histogram && requests == c.metrics.value.counter
    case User(_) => false
  }

  // The built-in middleware a list is to contain, strictly in order.
  ghost predicate IsBuiltIn(t: Transport, s: Side, cfg: Option<MiddlewareConfig>, base: seq<Middleware>) {
    && InOrder(base)
    && forall m :: m in base <==> cfg.Some? && Wanted(t, s, cfg.value, m)
  }

  // Which ranks a transport and side install, and the middleware installed there.
  predicate Installs(t: Transport, s: Side, c: MiddlewareConfig, rank: nat) {
    match rank
    case 0 => c.enableRecovery
    case 1 => c.enableTracing
    case 2 => c.enableValidate
    case 3 => t == GRPC && c.enableMetadata
    case 4 => s == ServerSide && c.limiter.Some?
    case 5 => t == GRPC && c.auth.Some? && c.auth.value.key != ""
    case 6 => s == ServerSide && c.enableLogging
    case 7 => c.metrics.Some? && (c.metrics.value.histogram || c.metrics.value.counter)
    case _ => false
  }

  function Entry(c: MiddlewareConfig, rank: nat): Middleware {
    match rank
    case 0 => Recovery
    case 1 => Tracing(c.tracing)
    case 2 => Validate
    case 3 => Metadata
    case 4 => RateLimit(c.limiter == Some("bbr"))
    case 5 => if c.auth.Some? then Auth(SigningOf(c.auth.value.signing), c.auth.value.key) else User(0)
    case 6 => Logging
    case 7 => if c.metrics.Some? then Metrics(c.metrics.value.histogram, c.metrics.value.counter) else User(0)
    case _ => User(0)
  }

  lemma WantedIsTheEntry(t: Transport, s: Side, c: MiddlewareConfig, m: Middleware)
    ensures Wanted(t, s, c, m) <==> Installs(t, s, c, Rank(m)) && m == Entry(c, Rank(m))
  {
  }

  // Complete as far as the middleware of smaller rank go.
  ghost predicate Upto(t: Transport, s: Side, c: MiddlewareConfig, rank: nat, ms: seq<Middleware>) {
    && InOrder(ms)
    && forall m {:trigger m in ms} :: m in ms <==> Rank(m) < rank && Wanted(t, s, c, m)
  }

  // What a list is complete to when its metrics come up.
  function BeforeMetrics(t: Transport, s: Side): nat {
    if s == ServerSide then 7 else if t == GRPC then 6 else 3
  }

  lemma Complete(t: Transport, s: Side, c: MiddlewareConfig, ms: seq<Middleware>)
    requires Upto(t, s, c, 8, ms)
    ensures IsBuiltIn(t, s, Some(c), ms)
  {
    forall m ensures Wanted(t, s, c, m) ==> Rank(m) < 8 {
    }
  }

  // ... followed by the caller's own, unchanged.
  ghost predicate IsList(
    t: Transport, s: Side, cfg: Option<MiddlewareConfig>, user: seq<Middleware>, ms: seq<Middleware>)
  {
    && |user| <= |ms|
    && ms == ms[..|ms| - |user|] + user
    && IsBuiltIn(t, s, cfg, ms[..|ms| - |user|])
  }

  /** The one order, written out. */
  lemma RanksInOrder(
    rules: Option<Rules>, bbr: bool, signing: SigningMethod, key: string, seconds: bool, requests: bool)
    ensures [Rank(Recovery), Rank(Tracing(rules)), Rank(Validate), Rank(Metadata), Rank(RateLimit(bbr)),
             Rank(Auth(signing, key)), Rank(Logging), Rank(Metrics(seconds, requests))]
         == [0, 1, 2, 3, 4, 5, 6, 7]
  {
  }

  /** What a list holds before the caller's middleware, switch by switch: each of its
      middleware once, in that order. */
  lemma BuiltInBySwitches(
    t: Transport, s: Side, c: MiddlewareConfig, user: seq<Middleware>, ms: seq<Middleware>, i: nat, j: nat)
    requires IsList(t, s, Some(c), user, ms)
    ensures |user| <= |ms| && ms[|ms| - |user|..] == user
    ensures i < j < |ms| - |user| ==> Rank(ms[i]) < Rank(ms[j])
    ensures var base := ms[..|ms| - |user|];
            && (Recovery in base <==> c.enableRecovery)
            && (Tracing(c.tracing) in base <==> c.enableTracing)
            && (Validate in base <==> c.enableValidate)
            && (Metadata in base <==> t == GRPC && c.enableMetadata)
            && (Logging in base <==> s == ServerSide && c.enableLogging)
            && (RateLimit(true) in base <==> s == ServerSide && c.limiter == Some("bbr"))
            && (RateLimit(false) in base <==> s == ServerSide && c.limiter.Some? && c.limiter.value != "bbr")
            && (forall rules :: Tracing(rules) in base ==> rules == c.tracing)
            && (forall id :: User(id) !in base)
  {
  }

  /** The two middleware with settings of their own: the signing method has HS256 as its
      default, and metrics are installed for what is switched on, if anything is. */
  lemma AuthAndMetricsBySwitches(
    t: Transport, s: Side, c: MiddlewareConfig, user: seq<Middleware>, ms: seq<Middleware>, signing: SigningMethod,
    key: string, seconds: bool, requests: bool)
    requires IsList(t, s, Some(c), user, ms)
    ensures Auth(signing, key) in ms[..|ms| - |user|] <==>
              && t == GRPC && c.auth.Some? && c.auth.value.key == key && key != ""
              && (signing == HS384 <==> c.auth.value.signing == "HS384")
              && (signing == HS512 <==> c.auth.value.signing == "HS512")
    ensures Metrics(seconds, requests) in ms[..|ms| - |user|] <==>
              && c.metrics.Some? && (c.metrics.value.histogram || c.metrics.value.counter)
              && seconds == c.metrics.value.histogram && requests == c.metrics.value.counter
  {
  }

  /** Order and contents leave one list only. */
  lemma {:induction false} BuiltInIsUnique(a: seq<Middleware>, b: seq<Middleware>)
    requires InOrder(a) && InOrder(b) && forall m :: m in a <==> m in b
    ensures a == b
  {
    assert a == [] || a[0] in a;
    assert b == [] || b[0] in b;
    if a != [] && b != [] {
      assert a[0] in b && b[0] in a;
      assert a[0] == b[0];
      forall m ensures m in a[1..] <==> m in b[1..] {
        assert m in a[1..] <==> m in a && m != a[0];
        assert m in b[1..] <==> m in b && m != b[0];
      }
      BuiltInIsUnique(a[1..], b[1..]);
      assert a == [a[0]] + a[1..] && b == [b[0]] + b[1..];
    }
  }

  // Without a middleware section there is the caller's list only.
  lemma NoConfigurationNoBuiltIn(t: Transport, s: Side, user: seq<Middleware>, ms: seq<Middleware>)
    requires IsList(t, s, None, user, ms)
    ensures ms == user
  {
    BuiltInIsUnique(ms[..|ms| - |user|], []);
  }

  function Without(ms: seq<Middleware>, dropped: set<nat>): seq<Middleware> {
    if ms == [] then []
    else (if Rank(ms[0]) in dropped then [] else [ms[0]]) + Without(ms[1..], dropped)
  }

  lemma {:induction false} WithoutKeepsTheRest(ms: seq<Middleware>, dropped: set<nat>)
    requires InOrder(ms)
    ensures InOrder(Without(ms, dropped))
    ensures forall m :: m in Without(ms, dropped) <==> m in ms && Rank(m) !in dropped
  {
    if ms != [] {
      WithoutKeepsTheRest(ms[1..], dropped);
      var rest := Without(ms[1..], dropped);
      forall m ensures m in Without(ms, dropped) <==> m in ms && Rank(m) !in dropped {
        assert m in ms <==> m == ms[0] || m in ms[1..];
      }
      forall i | 0 <= i < |rest| ensures Rank(ms[0]) < Rank(rest[i]) {
        assert rest[i] in ms[1..];
      }
    }
  }

  /** For one configuration the four lists agree: HTTP is gRPC without metadata and auth,
      a client is a server without rate limit and logging. */
  lemma ListsAgree(t: Transport, s: Side, cfg: Option<MiddlewareConfig>, all: seq<Middleware>, base: seq<Middleware>)
    requires IsBuiltIn(GRPC, ServerSide, cfg, all) && IsBuiltIn(t, s, cfg, base)
    ensures base == Without(all, (if t == HTTP then {3, 5} else {}) + (if s == ClientSide then {4, 6} else {}))
  {
    var dropped := (if t == HTTP then {3, 5} else {}) + (if s == ClientSide then {4, 6} else {});
    WithoutKeepsTheRest(all, dropped);
    BuiltInIsUnique(base, Without(all, dropped));
  }

  /** The configuration names "bbr" as the one supported limiter. Any other name, also a
      misspelt one, is not refused: the rate limit is installed without a limiter. */
  lemma NilLimiterExactly(t: Transport, cfg: Option<MiddlewareConfig>, base: seq<Middleware>)
    requires IsBuiltIn(t, ServerSide, cfg, base)
    ensures RateLimit(false) in base <==> cfg.Some? && cfg.value.limiter.Some? && cfg.value.limiter.value != "bbr"
    ensures RateLimit(true) in base <==> cfg.Some? && cfg.value.limiter == Some("bbr")
  {
  }

  lemma MisspeltLimiterIsInstalledAsNil(t: Transport, c: MiddlewareConfig, base: seq<Middleware>)
    requires IsBuiltIn(t, ServerSide, Some(c.(limiter := Some("BBR"))), base)
    ensures RateLimit(false) in base && RateLimit(true) !in base
  {
    NilLimiterExactly(t, Some(c.(limiter := Some("BBR"))), base);
  }

  // ----- handlers and their composition ----------------------------------------------------

  // A call of a stage of the chain; of the handler itself when there is no stage.
  datatype Visit<Q> = Visit(stage: Option<Middleware>, ctx: SpanContext, req: Q)
  type Log<Q> = seq<Visit<Q>>

  /** A handler gets a context and a request and yields a result, its reply and error. The
      calls made so far go through it, so that a second call would show. */
  type Handler<!Q, !R> = (Log<Q>, SpanContext, Q) -> (Log<Q>, R)
  type Wrapper<!Q, !R> = Handler<Q, R> -> Handler<Q, R>

  // The handler at the end of the chain. Its answer may depend on every call before.
  function Answering<Q, R>(answer: (Log<Q>, SpanContext, Q) -> R): Handler<Q, R> {
    (log: Log<Q>, ctx: SpanContext, req: Q) => (log + [Visit(None, ctx, req)], answer(log, ctx, req))
  }

  // A middleware that calls the next handler once, with the same request and the context
  // that it derives, and returns what that handler returns.
  ghost predicate Forwards<Q(!new), R(!new)>(w: Wrapper<Q, R>, derive: SpanContext -> SpanContext) {
    forall next: Handler<Q, R>, log: Log<Q>, ctx: SpanContext, req: Q ::
      w(next)(log, ctx, req) == next(log, derive(ctx), req)
  }

  // ... or refuses the request and calls nothing.
  ghost predicate Passes<Q(!new), R(!new)>(w: Wrapper<Q, R>, derive: SpanContext -> SpanContext) {
    forall next: Handler<Q, R>, log: Log<Q>, ctx: SpanContext, req: Q ::
      w(next)(log, ctx, req) == next(log, derive(ctx), req) || w(next)(log, ctx, req).0 == log
  }

  // ----- the wrapper of the tracing middleware ---------------------------------------------

  // tracingWithOperationSkipper, the wrapped form.
  function Wrapped<Q, R>(
    base: Wrapper<Q, R>, rules: Option<Rules>, operation: string, suppress: SpanContext -> SpanContext): Wrapper<Q, R>
  {
    (next: Handler<Q, R>) =>
      var traced := base(next);
      ((log: Log<Q>, ctx: SpanContext, req: Q) =>
        if rules.Some? && Excludes(rules.value, operation) then next(log, suppress(ctx), req)
        else traced(log, ctx, req))
  }

  // ... and with the early return.
  function Skipper<Q, R>(
    base: Wrapper<Q, R>, rules: Option<Rules>, operation: string, suppress: SpanContext -> SpanContext): Wrapper<Q, R>
  {
    if Wraps(rules) then Wrapped(base, rules, operation, suppress) else base
  }

  // The context that the tracing middleware hands on.
  function HandedOn(
    rules: Option<Rules>, operation: string, derive: SpanContext -> SpanContext, suppress: SpanContext -> SpanContext)
    : SpanContext -> SpanContext
  {
    if rules.Some? && Excludes(rules.value, operation) then suppress else derive
  }

  /** Without a configuration, with empty rules and with rules, matching or not: if the base
      middleware calls its handler once, so does the wrapper, with the caller's request, and
      it returns the handler's reply and error. The early return changes nothing. */
  lemma SkipperForwards<Q(!new), R(!new)>(
    base: Wrapper<Q, R>, rules: Option<Rules>, operation: string, derive: SpanContext -> SpanContext,
    suppress: SpanContext -> SpanContext)
    requires Forwards(base, derive)
    ensures Forwards(Skipper(base, rules, operation, suppress), HandedOn(rules, operation, derive, suppress))
    ensures forall next: Handler<Q, R>, log: Log<Q>, ctx: SpanContext, req: Q ::
              Skipper(base, rules, operation, suppress)(next)(log, ctx, req)
              == Wrapped(base, rules, operation, suppress)(next)(log, ctx, req)
    ensures forall answer: (Log<Q>, SpanContext, Q) -> R, log: Log<Q>, ctx: SpanContext, req: Q ::
              var handed := if rules.Some? && Excludes(rules.value, operation) then suppress(ctx) else derive(ctx);
              Skipper(base, rules, operation, suppress)(Answering(answer))(log, ctx, req)
              == (log + [Visit(None, handed, req)], answer(log, handed, req))
  {
    if !Wraps(rules) && rules.Some? {
      assert RuleSet([]) == {};
      assert !Excludes(rules.value, operation);
    }
  }

  // ----- the chain ---------------------------------------------------------------------------

  // middleware.Chain: the first middleware of the list is the outermost. Each stage notes
  // that it is entered and then does what its middleware does.
  function Chain<Q, R>(ms: seq<Middleware>, apply: Middleware -> Wrapper<Q, R>, handler: Handler<Q, R>): Handler<Q, R> {
    if ms == [] then handler
    else
      var stage := apply(ms[0])(Chain(ms[1..], apply, handler));
      (log: Log<Q>, ctx: SpanContext, req: Q) => stage(log + [Visit(Some(ms[0]), ctx, req)], ctx, req)
  }

  // The context that each stage and then the handler are called with, if they are called.
  function Contexts(ms: seq<Middleware>, derive: Middleware -> SpanContext -> SpanContext, ctx: SpanContext)
    : (contexts: seq<SpanContext>)
    ensures |contexts| == |ms| + 1
  {
    if ms == [] then [ctx] else [ctx] + Contexts(ms[1..], derive, derive(ms[0])(ctx))
  }

  function Visits<Q>(ms: seq<Middleware>, contexts: seq<SpanContext>, req: Q): (visits: Log<Q>)
    requires |contexts| == |ms| + 1
    ensures |visits| == |ms| + 1
  {
    seq(|ms| + 1, i requires 0 <= i <= |ms| => Visit(if i < |ms| then Some(ms[i]) else None, contexts[i], req))
  }

  lemma VisitsStep<Q>(
    ms: seq<Middleware>, derive: Middleware -> SpanContext -> SpanContext, ctx: SpanContext, req: Q)
    requires ms != []
    ensures Visits(ms, Contexts(ms, derive, ctx), req)
         == [Visit(Some(ms[0]), ctx, req)] + Visits(ms[1..], Contexts(ms[1..], derive, derive(ms[0])(ctx)), req)
  {
    var contexts, rest := Contexts(ms, derive, ctx), Contexts(ms[1..], derive, derive(ms[0])(ctx));
    assert contexts == [ctx] + rest;
    VisitsCons(ms, ctx, rest, req);
  }

  lemma VisitsCons<Q>(ms: seq<Middleware>, ctx: SpanContext, rest: seq<SpanContext>, req: Q)
    requires ms != [] && |rest| == |ms|
    ensures Visits(ms, [ctx] + rest, req) == [Visit(Some(ms[0]), ctx, req)] + Visits(ms[1..], rest, req)
  {
    forall i | 0 < i <= |ms| ensures Visits(ms, [ctx] + rest, req)[i] == Visits(ms[1..], rest, req)[i - 1] {
      assert ([ctx] + rest)[i] == rest[i - 1];
    }
  }

  /** Which contexts and visits these are: the first stage gets the incoming context, each
      later one and the handler what the stage before derives, and all the same request. */
  lemma {:induction false} ContextsByStage<Q>(
    ms: seq<Middleware>, derive: Middleware -> SpanContext -> SpanContext, ctx: SpanContext, req: Q, k: nat)
    requires k < |ms|
    ensures Contexts(ms, derive, ctx)[0] == ctx
    ensures Contexts(ms, derive, ctx)[k + 1] == derive(ms[k])(Contexts(ms, derive, ctx)[k])
    ensures var visits := Visits(ms, Contexts(ms, derive, ctx), req);
            && visits[k] == Visit(Some(ms[k]), Contexts(ms, derive, ctx)[k], req)
            && visits[|ms|] == Visit(None, Contexts(ms, derive, ctx)[|ms|], req)
  {
    if k > 0 {
      ContextsByStage(ms[1..], derive, derive(ms[0])(ctx), req, k - 1);
    }
  }

  // The first stage goes on with the rest of the chain, or refuses.
  lemma ChainStep<Q(!new), R(!new)>(
    ms: seq<Middleware>, apply: Middleware -> Wrapper<Q, R>, derive: SpanContext -> SpanContext, handler: Handler<Q, R>,
    log: Log<Q>, ctx: SpanContext, req: Q)
    requires ms != [] && Passes(apply(ms[0]), derive)
    ensures var entered := log + [Visit(Some(ms[0]), ctx, req)];
            || Chain(ms, apply, handler)(log, ctx, req) == Chain(ms[1..], apply, handler)(entered, derive(ctx), req)
            || (Chain(ms, apply, handler)(log, ctx, req).0 == entered && !Forwards(apply(ms[0]), derive))
  {
  }

  /** The stages are entered in the order of the list, each at most once, with the caller's
      request and the context that the stage before it derived; the log of the calls ends
      early only if a stage refuses. */
  lemma {:induction false} ChainEntersStagesInOrder<Q(!new), R(!new)>(
    ms: seq<Middleware>, apply: Middleware -> Wrapper<Q, R>, derive: Middleware -> SpanContext -> SpanContext,
    answer: (Log<Q>, SpanContext, Q) -> R, log: Log<Q>, ctx: SpanContext, req: Q)
    requires forall m :: m in ms ==> Passes(apply(m), derive(m))
    ensures log < Chain(ms, apply, Answering(answer))(log, ctx, req).0
    ensures Chain(ms, apply, Answering(answer))(log, ctx, req).0[|log|..] <= Visits(ms, Contexts(ms, derive, ctx), req)
  {
    if ms == [] {
      assert Visits(ms, Contexts(ms, derive, ctx), req) == [Visit(None, ctx, req)];
    } else {
      var here, handed := Visit(Some(ms[0]), ctx, req), derive(ms[0])(ctx);
      assert ms[0] in ms && forall m :: m in ms[1..] ==> m in ms;
      VisitsStep(ms, derive, ctx, req);
      ChainStep(ms, apply, derive(ms[0]), Answering(answer), log, ctx, req);
      ChainEntersStagesInOrder(ms[1..], apply, derive, answer, log + [here], handed, req);
      var after := Chain(ms, apply, Answering(answer))(log, ctx, req).0;
      if after != log + [here] {
        assert after[|log|..] == [here] + after[|log + [here]|..];
      }
    }
  }

  /** If no stage refuses, all are entered, the handler is called exactly once, last and with
      the caller's request, and its reply and error are the result. */
  lemma {:induction false} ChainCallsTheHandlerOnce<Q(!new), R(!new)>(
    ms: seq<Middleware>, apply: Middleware -> Wrapper<Q, R>, derive: Middleware -> SpanContext -> SpanContext,
    answer: (Log<Q>, SpanContext, Q) -> R, log: Log<Q>, ctx: SpanContext, req: Q)
    requires forall m :: m in ms ==> Forwards(apply(m), derive(m))
    ensures var visits := Visits(ms, Contexts(ms, derive, ctx), req);
            Chain(ms, apply, Answering(answer))(log, ctx, req)
            == (log + visits, answer(log + visits[..|ms|], visits[|ms|].ctx, req))
  {
    var visits := Visits(ms, Contexts(ms, derive, ctx), req);
    if ms == [] {
      assert visits == [Visit(None, ctx, req)];
      assert log + visits[..0] == log;
    } else {
      var here, handed := Visit(Some(ms[0]), ctx, req), derive(ms[0])(ctx);
      var inner := Visits(ms[1..], Contexts(ms[1..], derive, handed), req);
      assert ms[0] in ms && forall m :: m in ms[1..] ==> m in ms;
      VisitsStep(ms, derive, ctx, req);
      ChainStep(ms, apply, derive(ms[0]), Answering(answer), log, ctx, req);
      ChainCallsTheHandlerOnce(ms[1..], apply, derive, answer, log + [here], handed, req);
      assert log + visits == log + [here] + inner;
      assert log + visits[..|ms|] == log + [here] + inner[..|ms| - 1];
    }
  }

  // A middleware that does not turn a suppressed request into a sampled one, if it derives
  // contexts in one way.
  ghost predicate KeepsMuted(derive: SpanContext -> SpanContext) {
    forall ctx :: Muted(DecisionOf(ctx)) ==> Muted(DecisionOf(derive(ctx)))
  }

  // Calling the next handler with some request, and with a suppressed context if need be.
  ghost predicate CallsNext<Q(!new), R(!new)>(next: Handler<Q, R>, muted: bool, log: Log<Q>, after: Log<Q>) {
    exists ctx: SpanContext, req: Q :: (muted ==> Muted(DecisionOf(ctx))) && after == next(log, ctx, req).0
  }

  /** Any middleware that calls the next handler at most once and does not turn a suppressed
      request into a sampled one. It may rewrite request, reply and error, and look at all of
      them to derive the context. */
  ghost predicate KeepsSuppression<Q(!new), R(!new)>(w: Wrapper<Q, R>) {
    forall next: Handler<Q, R>, log: Log<Q>, ctx: SpanContext, req: Q ::
      w(next)(log, ctx, req).0 == log || CallsNext(next, Muted(DecisionOf(ctx)), log, w(next)(log, ctx, req).0)
  }

  // ... and one that suppresses whatever it hands on.
  ghost predicate Suppresses<Q(!new), R(!new)>(w: Wrapper<Q, R>) {
    forall next: Handler<Q, R>, log: Log<Q>, ctx: SpanContext, req: Q ::
      w(next)(log, ctx, req).0 == log || CallsNext(next, true, log, w(next)(log, ctx, req).0)
  }

  // Visits in the order of the list, suppressed from the first suppressed one on.
  ghost predicate MutedOnceMuted<Q>(ms: seq<Middleware>, visits: Log<Q>) {
    && |visits| <= |ms| + 1
    && (forall i :: 0 <= i < |visits| ==> visits[i].stage == if i < |ms| then Some(ms[i]) else None)
    && (forall i, j :: 0 <= i <= j < |visits| && Muted(DecisionOf(visits[i].ctx)) ==> Muted(DecisionOf(visits[j].ctx)))
  }

  lemma MutedOnceMutedCons<Q>(ms: seq<Middleware>, here: Visit<Q>, rest: Log<Q>)
    requires ms != [] && here.stage == Some(ms[0]) && rest != [] && MutedOnceMuted(ms[1..], rest)
    requires Muted(DecisionOf(here.ctx)) ==> Muted(DecisionOf(rest[0].ctx))
    ensures MutedOnceMuted(ms, [here] + rest)
  {
    var visits := [here] + rest;
    forall i | 0 < i < |visits| ensures visits[i].stage == if i < |ms| then Some(ms[i]) else None {
      assert visits[i] == rest[i - 1];
    }
    forall i, j | 0 <= i <= j < |visits| && Muted(DecisionOf(visits[i].ctx)) ensures Muted(DecisionOf(visits[j].ctx)) {
      if j > 0 {
        assert visits[j] == rest[j - 1] && (i > 0 ==> visits[i] == rest[i - 1]);
      }
    }
  }

  // What is called by a stage that suppresses is called with a suppressed context.
  ghost predicate MutedBySuppressors<Q(!new), R(!new)>(
    ms: seq<Middleware>, apply: Middleware -> Wrapper<Q, R>, visits: Log<Q>)
  {
    forall i :: 0 <= i < |ms| && i + 1 < |visits| && Suppresses(apply(ms[i])) ==> Muted(DecisionOf(visits[i + 1].ctx))
  }

  lemma SuppressionCons<Q(!new), R(!new)>(
    ms: seq<Middleware>, apply: Middleware -> Wrapper<Q, R>, here: Visit<Q>, rest: Log<Q>)
    requires ms != [] && rest != [] && MutedBySuppressors(ms[1..], apply, rest)
    requires Suppresses(apply(ms[0])) ==> Muted(DecisionOf(rest[0].ctx))
    ensures MutedBySuppressors(ms, apply, [here] + rest)
  {
    forall i | 0 <= i < |ms| && i < |rest| && Suppresses(apply(ms[i])) ensures Muted(DecisionOf(rest[i].ctx)) {
      if i > 0 {
        assert ms[1..][i - 1] == ms[i];
      }
    }
  }

  /** The calls of a chain follow the list, and behind a stage that was called with a
      suppressed context, or that suppresses by itself, there are suppressed ones only. */
  lemma {:induction false} ChainStaysMuted<Q(!new), R(!new)>(
    ms: seq<Middleware>, apply: Middleware -> Wrapper<Q, R>, answer: (Log<Q>, SpanContext, Q) -> R,
    log: Log<Q>, ctx: SpanContext, req: Q)
    requires forall m :: m in ms ==> KeepsSuppression(apply(m))
    ensures log < Chain(ms, apply, Answering(answer))(log, ctx, req).0
    ensures var visits := Chain(ms, apply, Answering(answer))(log, ctx, req).0[|log|..];
            && visits[0].ctx == ctx && visits[0].req == req && MutedOnceMuted(ms, visits)
            && MutedBySuppressors(ms, apply, visits)
  {
    var after := Chain(ms, apply, Answering(answer))(log, ctx, req).0;
    if ms == [] {
      assert after[|log|..] == [Visit(None, ctx, req)];
    } else {
      var here := Visit(Some(ms[0]), ctx, req);
      assert ms[0] in ms && forall m :: m in ms[1..] ==> m in ms;
      if after == log + [here] {
        assert after[|log|..] == [here];
      } else {
        var ctx', req' := StageCalls(ms, apply, Answering(answer), log, ctx, req);
        ChainStaysMuted(ms[1..], apply, answer, log + [here], ctx', req');
        StageBefore(ms, apply, log, here, after);
      }
    }
  }

  // The visits of the rest of the chain, and the first stage before them.
  lemma StageBefore<Q(!new), R(!new)>(
    ms: seq<Middleware>, apply: Middleware -> Wrapper<Q, R>, log: Log<Q>, here: Visit<Q>, after: Log<Q>)
    requires ms != [] && here.stage == Some(ms[0]) && log + [here] < after
    requires var rest := after[|log + [here]|..];
             && MutedOnceMuted(ms[1..], rest) && MutedBySuppressors(ms[1..], apply, rest)
             && (Muted(DecisionOf(here.ctx)) || Suppresses(apply(ms[0])) ==> Muted(DecisionOf(rest[0].ctx)))
    ensures log < after && after[|log|] == here
    ensures MutedOnceMuted(ms, after[|log|..]) && MutedBySuppressors(ms, apply, after[|log|..])
  {
    var rest := after[|log + [here]|..];
    assert after[|log|..] == [here] + rest;
    MutedOnceMutedCons(ms, here, rest);
    SuppressionCons(ms, apply, here, rest);
  }

  // What the first stage calls the rest of the chain with, if it does.
  lemma StageCalls<Q(!new), R(!new)>(
    ms: seq<Middleware>, apply: Middleware -> Wrapper<Q, R>, handler: Handler<Q, R>,
    log: Log<Q>, ctx: SpanContext, req: Q)
    returns (ctx': SpanContext, req': Q)
    requires ms != [] && KeepsSuppression(apply(ms[0]))
    requires Chain(ms, apply, handler)(log, ctx, req).0 != log + [Visit(Some(ms[0]), ctx, req)]
    ensures Chain(ms, apply, handler)(log, ctx, req).0
         == Chain(ms[1..], apply, handler)(log + [Visit(Some(ms[0]), ctx, req)], ctx', req').0
    ensures Muted(DecisionOf(ctx)) || Suppresses(apply(ms[0])) ==> Muted(DecisionOf(ctx'))
  {
    var next, entered := Chain(ms[1..], apply, handler), log + [Visit(Some(ms[0]), ctx, req)];
    var after := apply(ms[0])(next)(entered, ctx, req).0;
    assert Chain(ms, apply, handler)(log, ctx, req).0 == after;
    var muted := Muted(DecisionOf(ctx)) || Suppresses(apply(ms[0]));
    assert CallsNext(next, muted, entered, after);
    ctx', req' :| (muted ==> Muted(DecisionOf(ctx'))) && after == next(entered, ctx', req').0;
  }

  /** In every list that a builder makes with tracing enabled, whatever the middleware do to
      requests, replies and errors and however they derive contexts, as long as none turns a
      suppressed context into a sampled one: at most recovery is entered before tracing, and
      if tracing hands on a suppressed context, every built-in and every caller's middleware
      entered later and the handler are called with a suppressed one. */
  lemma TracingReachesAllLaterStages<Q(!new), R(!new)>(
    t: Transport, s: Side, c: MiddlewareConfig, user: seq<Middleware>, ms: seq<Middleware>,
    apply: Middleware -> Wrapper<Q, R>, answer: (Log<Q>, SpanContext, Q) -> R, log: Log<Q>, ctx: SpanContext, req: Q)
    requires IsList(t, s, Some(c), user, ms) && c.enableTracing
    requires forall m :: m in ms ==> KeepsSuppression(apply(m))
    ensures log < Chain(ms, apply, Answering(answer))(log, ctx, req).0
    ensures var visits := Chain(ms, apply, Answering(answer))(log, ctx, req).0[|log|..];
            var at := if c.enableRecovery then 1 else 0;
            && at < |ms| && ms[at] == Tracing(c.tracing)
            && |visits| <= |ms| + 1 && visits[0].ctx == ctx
            && (forall i :: 0 <= i < |visits| ==> visits[i].stage == if i < |ms| then Some(ms[i]) else None)
            && (Suppresses(apply(ms[at])) || (at + 1 < |visits| && Muted(DecisionOf(visits[at + 1].ctx))) ==>
                  forall i :: at < i < |visits| ==> Muted(DecisionOf(visits[i].ctx)))
  {
    FirstStages(t, s, c, ms[..|ms| - |user|]);
    ChainStaysMuted(ms, apply, answer, log, ctx, req);
  }

  /** So where the operation is excluded, nothing behind the tracing middleware is called
      with anything but a suppressed context, whatever the base middleware does. */
  lemma ExcludedOperationIsMutedBehindTracing<Q(!new), R(!new)>(
    t: Transport, s: Side, c: MiddlewareConfig, user: seq<Middleware>, ms: seq<Middleware>,
    base: Wrapper<Q, R>, operation: string, entropy: Entropy, apply: Middleware -> Wrapper<Q, R>,
    answer: (Log<Q>, SpanContext, Q) -> R, log: Log<Q>, ctx: SpanContext, req: Q)
    requires IsList(t, s, Some(c), user, ms) && c.enableTracing
    requires c.tracing.Some? && Excludes(c.tracing.value, operation)
    requires apply(Tracing(c.tracing)) == Skipper(base, c.tracing, operation, _ => Suppressed(entropy))
    requires forall m :: m in ms && m != Tracing(c.tracing) ==> KeepsSuppression(apply(m))
    ensures log < Chain(ms, apply, Answering(answer))(log, ctx, req).0
    ensures var visits := Chain(ms, apply, Answering(answer))(log, ctx, req).0[|log|..];
            forall i :: (if c.enableRecovery then 1 else 0) < i < |visits| ==> Muted(DecisionOf(visits[i].ctx))
  {
    SkipperSuppresses(base, c.tracing.value, operation, entropy);
    TracingReachesAllLaterStages(t, s, c, user, ms, apply, answer, log, ctx, req);
  }

  lemma SkipperSuppresses<Q(!new), R(!new)>(base: Wrapper<Q, R>, rules: Rules, operation: string, entropy: Entropy)
    requires Excludes(rules, operation)
    ensures Suppresses(Skipper(base, Some(rules), operation, _ => Suppressed(entropy)))
    ensures KeepsSuppression(Skipper(base, Some(rules), operation, _ => Suppressed(entropy)))
  {
    var w := Skipper(base, Some(rules), operation, _ => Suppressed(entropy));
    SuppressedIsAValidUnsampledParent(entropy);
    assert RuleSet([]) == {};
    forall next: Handler<Q, R>, log: Log<Q>, ctx: SpanContext, req: Q
      ensures w(next)(log, ctx, req) == next(log, Suppressed(entropy), req)
    {
    }
  }

  // Calling the next handler so many times, one after the other.
  ghost predicate CallsTimes<Q(!new), R(!new)>(
    next: Handler<Q, R>, muted: bool, log: Log<Q>, after: Log<Q>, times: nat)
    decreases times
  {
    if times == 0 then after == log
    else exists mid: Log<Q> :: CallsNext(next, muted, log, mid) && CallsTimes(next, muted, mid, after, times - 1)
  }

  // In one call of it, a middleware calls the next handler any number of times.
  ghost predicate RepeatsAt<Q(!new), R(!new)>(
    w: Wrapper<Q, R>, next: Handler<Q, R>, log: Log<Q>, ctx: SpanContext, req: Q)
  {
    exists times :: CallsTimes(next, Muted(DecisionOf(ctx)), log, w(next)(log, ctx, req).0, times)
  }

  // A middleware that may also repeat the call, such as a retry.
  ghost predicate RepeatsKeepingSuppression<Q(!new), R(!new)>(w: Wrapper<Q, R>) {
    forall next: Handler<Q, R>, log: Log<Q>, ctx: SpanContext, req: Q :: RepeatsAt(w, next, log, ctx, req)
  }

  // The calls added to a log, if any, all have a suppressed context.
  ghost predicate AddsMuted<Q>(log: Log<Q>, after: Log<Q>) {
    log <= after && forall i :: |log| <= i < |after| ==> Muted(DecisionOf(after[i].ctx))
  }

  lemma AddsMutedTwice<Q>(log: Log<Q>, mid: Log<Q>, after: Log<Q>)
    requires AddsMuted(log, mid) && AddsMuted(mid, after)
    ensures AddsMuted(log, after)
  {
    forall i | |log| <= i < |after| ensures Muted(DecisionOf(after[i].ctx)) {
      assert i < |mid| ==> after[i] == mid[i];
    }
  }

  lemma FirstOfTheCalls<Q(!new), R(!new)>(next: Handler<Q, R>, log: Log<Q>, after: Log<Q>, times: nat)
    returns (mid: Log<Q>, ctx: SpanContext, req: Q)
    requires times > 0 && CallsTimes(next, true, log, after, times)
    ensures Muted(DecisionOf(ctx)) && mid == next(log, ctx, req).0 && CallsTimes(next, true, mid, after, times - 1)
  {
    mid :| CallsNext(next, true, log, mid) && CallsTimes(next, true, mid, after, times - 1);
    ctx, req :| Muted(DecisionOf(ctx)) && mid == next(log, ctx, req).0;
  }

  lemma {:induction false} EachCallStaysMuted<Q(!new), R(!new)>(
    next: Handler<Q, R>, log: Log<Q>, after: Log<Q>, times: nat)
    requires forall log, ctx, req :: Muted(DecisionOf(ctx)) ==> AddsMuted(log, next(log, ctx, req).0)
    requires CallsTimes(next, true, log, after, times)
    ensures AddsMuted(log, after)
    decreases times
  {
    if times > 0 {
      var mid, _, _ := FirstOfTheCalls(next, log, after, times);
      EachCallStaysMuted(next, mid, after, times - 1);
      AddsMutedTwice(log, mid, after);
    }
  }

  /** Once a chain is called with a suppressed context, no stage and no handler is called
      with another one, however often the stages repeat their calls. */
  lemma {:induction false} RepeatedCallsStayMuted<Q(!new), R(!new)>(
    ms: seq<Middleware>, apply: Middleware -> Wrapper<Q, R>, answer: (Log<Q>, SpanContext, Q) -> R,
    log: Log<Q>, ctx: SpanContext, req: Q)
    requires Muted(DecisionOf(ctx)) && forall m :: m in ms ==> RepeatsKeepingSuppression(apply(m))
    ensures AddsMuted(log, Chain(ms, apply, Answering(answer))(log, ctx, req).0)
  {
    if ms != [] {
      var next, entered := Chain(ms[1..], apply, Answering(answer)), log + [Visit(Some(ms[0]), ctx, req)];
      var after := apply(ms[0])(next)(entered, ctx, req).0;
      assert ms[0] in ms && forall m :: m in ms[1..] ==> m in ms;
      forall log, ctx, req | Muted(DecisionOf(ctx)) ensures AddsMuted(log, next(log, ctx, req).0) {
        RepeatedCallsStayMuted(ms[1..], apply, answer, log, ctx, req);
      }
      assert RepeatsAt(apply(ms[0]), next, entered, ctx, req);
      var times :| CallsTimes(next, true, entered, after, times);
      EachCallStaysMuted(next, entered, after, times);
    }
  }

  /** Middleware that pass the request on, or refuse it, and keep contexts suppressed are
      among these, and so are those that rewrite requests, replies and errors. */
  lemma PassingAndRewritingKeepSuppression<Q(!new), R(!new)>(
    w: Wrapper<Q, R>, derive: SpanContext -> SpanContext, request: Q -> Q, reply: R -> R)
    requires Passes(w, derive) && KeepsMuted(derive)
    ensures KeepsSuppression(w)
    ensures KeepsSuppression(Rewriting(w, request, reply))
  {
    forall next: Handler<Q, R>, log: Log<Q>, ctx: SpanContext, req: Q
      ensures w(next)(log, ctx, req).0 == log || CallsNext(next, Muted(DecisionOf(ctx)), log, w(next)(log, ctx, req).0)
    {
      if w(next)(log, ctx, req) == next(log, derive(ctx), req) {
        assert Muted(DecisionOf(ctx)) ==> Muted(DecisionOf(derive(ctx)));
      }
    }
  }

  // A middleware that changes what goes in and what comes out.
  function Rewriting<Q, R>(w: Wrapper<Q, R>, request: Q -> Q, reply: R -> R): Wrapper<Q, R> {
    (next: Handler<Q, R>) =>
      var inner := w(next);
      ((log: Log<Q>, ctx: SpanContext, req: Q) =>
        var (after, r) := inner(log, ctx, request(req));
        (after, reply(r)))
  }

  lemma StartSpanKeepsMuted(p: Provider, ids: Ids, ctx: SpanContext)
    requires Muted(DecisionOf(ctx))
    ensures Muted(DecisionOf(StartSpan(p, ctx, ids).ctx))
  {
    StartSpanDecides(p, ctx, ids);
  }

  // A valid context that is sampled stays so at a span start.
  lemma StartSpanKeepsSampled(p: Provider, ids: Ids, ctx: SpanContext)
    requires IsValid(ctx) && ctx.sampled
    ensures !Muted(DecisionOf(StartSpan(p, ctx, ids).ctx))
  {
    StartSpanDecides(p, ctx, ids);
  }

  /** Starting a span keeps a suppressed request suppressed under every provider, and so does
      a second tracing middleware on a client. */
  lemma StartingSpansKeepsMuted(e: Endpoint, p: Provider, ctx: SpanContext)
    requires Muted(DecisionOf(ctx))
    ensures Muted(DecisionOf(StartSpan(p, ctx, e.ids).ctx))
    ensures Muted(DecisionOf(ClientEnter(e, p, ctx).ctx))
  {
    StartSpanKeepsMuted(p, e.ids, ctx);
    SuppressedIsAValidUnsampledParent(e.entropy);
  }

  /** A second tracing middleware on a server reads the header again. It keeps a suppressed
      request suppressed exactly if it is off, excludes the operation itself, or finds no
      sampled context in the header. */
  lemma SecondServerKeepsMutedExactly(e: Endpoint, p: Provider, h: Header)
    ensures KeepsMuted(ctx => ServerEnter(e, p, ctx, h).ctx)
       <==> || !e.enableTracing || Excluded(e)
            || DecisionOf(Extract(NO_SPAN, h)).None? || Muted(DecisionOf(Extract(NO_SPAN, h)))
  {
    var again := (ctx: SpanContext) => ServerEnter(e, p, ctx, h).ctx;
    var found := Extract(NO_SPAN, h);
    SuppressedIsAValidUnsampledParent(e.entropy);
    ExtractedIsValidOrNothing(h);
    if e.enableTracing && !Excluded(e) && IsValid(found) && found.sampled {
      StartSpanKeepsSampled(p, e.ids, found);
      assert again(Suppressed(e.entropy)) == StartSpan(p, found, e.ids).ctx;
    } else {
      forall ctx | Muted(DecisionOf(ctx)) ensures Muted(DecisionOf(again(ctx))) {
        assert Extract(ctx, h) in {ctx, found};
        if e.enableTracing && !Excluded(e) {
          StartSpanKeepsMuted(p, e.ids, Extract(ctx, h));
        }
      }
    }
  }

  // An accepted header gives a valid context in place of any other; a rejected one nothing.
  lemma ExtractedIsValidOrNothing(h: Header)
    ensures IsValid(Extract(NO_SPAN, h)) ==> forall ctx :: Extract(ctx, h) == Extract(NO_SPAN, h)
    ensures !IsValid(Extract(NO_SPAN, h)) ==> forall ctx :: Extract(ctx, h) == ctx
  {
    assert !IsValid(NO_SPAN);
    if TRACEPARENT in h && ReadTraceparent(h[TRACEPARENT]).Some? {
      WriteOfRead(h[TRACEPARENT]);
    }
  }

  lemma FirstStages(t: Transport, s: Side, c: MiddlewareConfig, base: seq<Middleware>)
    requires IsBuiltIn(t, s, Some(c), base) && c.enableTracing
    ensures c.enableRecovery ==> |base| > 1 && base[0] == Recovery && base[1] == Tracing(c.tracing)
    ensures !c.enableRecovery ==> |base| > 0 && base[0] == Tracing(c.tracing)
  {
    assert Tracing(c.tracing) in base;
    var i :| 0 <= i < |base| && base[i] == Tracing(c.tracing);
    if c.enableRecovery {
      assert Recovery in base;
      var j :| 0 <= j < |base| && base[j] == Recovery;
      assert j < i;
      assert base[0] in base && base[1] in base;
    } else {
      assert base[0] in base;
      assert base[0] != Recovery;
    }
  }

  // A middleware that calls the next handler a second time, such as a retry.
  function Retrying<Q, R>(): Wrapper<Q, R> {
    (next: Handler<Q, R>) =>
      ((log: Log<Q>, ctx: SpanContext, req: Q) => next(next(log, ctx, req).0, ctx, req))
  }

  /** The conditions are met by the plainest middleware of their kind: one that does nothing,
      one that refuses everything, one that calls twice. */
  lemma PlainMiddlewareMeetTheConditions<Q(!new), R(!new)>(refusal: R)
    ensures Forwards<Q, R>(next => next, ctx => ctx) && KeepsMuted(ctx => ctx)
    ensures Passes<Q, R>(next => next, ctx => ctx) && KeepsSuppression<Q, R>(next => next)
    ensures Passes<Q, R>(next => ((log: Log<Q>, ctx: SpanContext, req: Q) => (log, refusal)), ctx => ctx)
    ensures RepeatsKeepingSuppression<Q, R>(Retrying())
  {
    var same: Wrapper<Q, R> := next => next;
    var id: SpanContext -> SpanContext := ctx => ctx;
    forall next: Handler<Q, R>, log: Log<Q>, ctx: SpanContext, req: Q
      ensures CallsNext(next, Muted(DecisionOf(ctx)), log, same(next)(log, ctx, req).0)
    {
    }
    RetryingKeepsSuppression<Q, R>();
  }

  lemma RetryingKeepsSuppression<Q(!new), R(!new)>()
    ensures RepeatsKeepingSuppression<Q, R>(Retrying())
  {
    var w: Wrapper<Q, R> := Retrying();
    forall next: Handler<Q, R>, log: Log<Q>, ctx: SpanContext, req: Q
      ensures RepeatsAt(w, next, log, ctx, req)
    {
      CalledTwice(next, log, ctx, req);
      assert w(next)(log, ctx, req).0 == next(next(log, ctx, req).0, ctx, req).0;
    }
  }

  lemma CalledTwice<Q(!new), R(!new)>(next: Handler<Q, R>, log: Log<Q>, ctx: SpanContext, req: Q)
    ensures CallsTimes(next, Muted(DecisionOf(ctx)), log, next(next(log, ctx, req).0, ctx, req).0, 2)
  {
    var muted, once := Muted(DecisionOf(ctx)), next(log, ctx, req).0;
    var after := next(once, ctx, req).0;
    assert CallsTimes(next, muted, after, after, 0);
    assert CallsNext(next, muted, once, after) && CallsTimes(next, muted, once, after, 1);
    assert CallsNext(next, muted, log, once) && CallsTimes(next, muted, log, after, 2);
  }
}
