// The tracing middleware of rpc/tracing.go over an arbitrary tree of calls: what
// every side of every hop does to the span context, which spans it records, and a
// specification that looks at one path of the tree at a time.
module CallTree {
  import opened Wrappers
  import opened TraceContext
  import opened OperationRules

  // ----- services, calls and the work of a handler -----------------------------

  /** The global tracer provider of a service. tracer/tracer.go installs a ParentBased
      sampler over a trace-id ratio, here any predicate on trace ids; without trace
      configuration OpenTelemetry's default provider stays, which passes the span
      context on and records nothing. */
  datatype Provider = NoProvider | ParentBased(samplesRoot: TraceId -> bool)

  // What the SDK's id generator hands to the next span: never all zero.
  type FreshTraceId = id: TraceId | NonZero(id) witness Ones(16)
  type FreshSpanId = id: SpanId | NonZero(id) witness Ones(8)
  datatype Ids = Ids(traceId: FreshTraceId, spanId: FreshSpanId)

  // The two draws made when a context is suppressed.
  datatype Entropy = Entropy(traceDraw: TraceDraw, spanDraw: SpanDraw)

  /** One side of a call: the operation its transport reports, its middleware
      configuration, and the random choices made if it handles this call. */
  datatype Endpoint = Endpoint(
    operation: string, enableTracing: bool, rules: Option<Rules>, ids: Ids, entropy: Entropy)

  /** What handler code does: open a span of its own around more work, or call another
      service. `preset` is the request header before the tracing middleware. */
  datatype Work =
    | Local(name: string, ids: Ids, body: seq<Work>)
    | Call(client: Endpoint, preset: Header, reach: Reach)

  // Where a request ends up: nowhere, or in a service that handles it.
  datatype Reach = Lost | Served(server: Endpoint, provider: Provider, body: seq<Work>)

  // ----- the middleware -----------------------------------------------------------

  // The middleware is installed and a rule matches.
  predicate Excluded(e: Endpoint) {
    e.enableTracing && e.rules.Some? && Excludes(e.rules.value, e.operation)
  }

  // contextWithTracingSuppressed: valid, remote and not sampled.
  function Suppressed(e: Entropy): SpanContext {
    SpanContext(IdFrom(16, e.traceDraw), IdFrom(8, e.spanDraw), false, true)
  }

  // The context handed on by a middleware, and whether it opened a recording span.
  datatype Entered = Entered(ctx: SpanContext, recording: bool)

  // Tracer.Start under a provider.
  function StartSpan(p: Provider, parent: SpanContext, ids: Ids): Entered {
    match p
    case NoProvider => Entered(parent, false)
    case ParentBased(samplesRoot) =>
      var traceId: TraceId := if NonZero(parent.traceId) then parent.traceId else ids.traceId;
      var sampled := if IsValid(parent) then parent.sampled else samplesRoot(traceId);
      Entered(SpanContext(traceId, ids.spanId, sampled, false), sampled)
  }

  // tracingServer over kratosTracing.Server: extract, then start a span.
  function ServerEnter(e: Endpoint, p: Provider, ctx: SpanContext, h: Header): Entered {
    if !e.enableTracing then Entered(ctx, false)
    else if Excluded(e) then Entered(Suppressed(e.entropy), false)
    else StartSpan(p, Extract(ctx, h), e.ids)
  }

  // tracingClient over kratosTracing.Client: start a span, ...
  function ClientEnter(e: Endpoint, p: Provider, ctx: SpanContext): Entered {
    if !e.enableTracing then Entered(ctx, false)
    else if Excluded(e) then Entered(Suppressed(e.entropy), false)
    else StartSpan(p, ctx, e.ids)
  }

  // ... then inject, on the skipped branch as well.
  function ClientHeader(e: Endpoint, ctx: SpanContext, h: Header): Header {
    if e.enableTracing then Inject(ctx, h) else h
  }

  // ----- running a tree -------------------------------------------------------------

  datatype Kind = Internal | Client | Server

  // A recorded span, placed in the tree by the indices that lead to its work item.
  datatype Record = Record(path: seq<nat>, kind: Kind, operation: string, traceId: TraceId)

  function Emit(entered: Entered, path: seq<nat>, kind: Kind, operation: string): seq<Record> {
    if entered.recording then [Record(path, kind, operation, entered.ctx.traceId)] else []
  }

  // The spans recorded by works[k..] in a service with provider p under context ctx.
  function RunFrom(p: Provider, ctx: SpanContext, works: seq<Work>, k: nat, prefix: seq<nat>): seq<Record>
    requires k <= |works|
    decreases works, |works| - k
  {
    if k == |works| then []
    else RunWork(p, ctx, works[k], prefix + [k]) + RunFrom(p, ctx, works, k + 1, prefix)
  }

  function RunWork(p: Provider, ctx: SpanContext, w: Work, path: seq<nat>): seq<Record>
    decreases w, 0
  {
    match w
    case Local(name, ids, body) =>
      var entered := StartSpan(p, ctx, ids);
      Emit(entered, path, Internal, name) + RunFrom(p, entered.ctx, body, 0, path)
    case Call(client, preset, reach) =>
      var entered := ClientEnter(client, p, ctx);
      Emit(entered, path, Client, client.operation) + RunReach(ClientHeader(client, entered.ctx, preset), reach, path)
  }

  // The far side of a hop starts from a context of its own and sees only the header.
  function RunReach(h: Header, reach: Reach, path: seq<nat>): seq<Record>
    decreases reach, 0
  {
    match reach
    case Lost => []
    case Served(server, p, body) =>
      var entered := ServerEnter(server, p, NO_SPAN, h);
      Emit(entered, path, Server, server.operation) + RunFrom(p, entered.ctx, body, 0, path)
  }

  function Run(p: Provider, ctx: SpanContext, works: seq<Work>): seq<Record> {
    RunFrom(p, ctx, works, 0, [])
  }

  // ----- the specification: decisions along one path -----------------------------

  // All that matters of a span context: which trace it belongs to and its decision.
  datatype Trace = Trace(id: TraceId, sampled: bool)
  type Decision = Option<Trace>

  // The decision of a service that has no span is taken at the next span start.
  function DecisionOf(sc: SpanContext): Decision {
    if IsValid(sc) then Some(Trace(sc.traceId, sc.sampled)) else None
  }

  function Decide(p: Provider, d: Decision, ids: Ids): Decision {
    if p.ParentBased? && d.None? then Some(Trace(ids.traceId, p.samplesRoot(ids.traceId))) else d
  }

  function MutedBy(e: Entropy): Decision {
    Some(Trace(IdFrom(16, e.traceDraw), false))
  }

  // After an endpoint with tracing enabled: a matching rule overrides everything.
  function DecideAt(e: Endpoint, p: Provider, d: Decision): Decision {
    if Excluded(e) then MutedBy(e.entropy) else Decide(p, d, e.ids)
  }

  // A work item, the service it runs in and the decision that reaches it.
  datatype Point = Point(provider: Provider, decision: Decision, work: Work)

  // The decision that a request carries to the other side of the hop.
  function Carried(pt: Point): Decision
    requires pt.work.Call?
  {
    var sent := if pt.work.client.enableTracing then DecideAt(pt.work.client, pt.provider, pt.decision) else None;
    if sent.Some? then sent else DecisionOf(Extract(NO_SPAN, pt.work.preset))
  }

  // The decision under which the body of a work item runs.
  function BodyDecision(pt: Point): Decision
    requires pt.work.Local? || pt.work.reach.Served?
  {
    if pt.work.Local? then Decide(pt.provider, pt.decision, pt.work.ids)
    else if !pt.work.reach.server.enableTracing then None
    else DecideAt(pt.work.reach.server, pt.work.reach.provider, Carried(pt))
  }

  function Body(w: Work): seq<Work> {
    match w
    case Local(_, _, body) => body
    case Call(_, _, Lost) => []
    case Call(_, _, Served(_, _, body)) => body
  }

  function BodyProvider(pt: Point): Provider {
    if pt.work.Call? && pt.work.reach.Served? then pt.work.reach.provider else pt.provider
  }

  // The point at a path: the walk looks at the ancestors of the path and nothing else.
  function PointAt(p: Provider, d: Decision, works: seq<Work>, path: seq<nat>): Option<Point>
    decreases |path|
  {
    if path == [] || path[0] >= |works| then None
    else
      var pt := Point(p, d, works[path[0]]);
      if |path| == 1 then Some(pt)
      else if Body(pt.work) == [] then None
      else PointAt(BodyProvider(pt), BodyDecision(pt), Body(pt.work), path[1..])
  }

  // The span of the given kind recorded at a point, if any: its operation and trace.
  function SpanAt(pt: Point, kind: Kind): Option<(string, TraceId)> {
    match kind
    case Internal =>
      if pt.work.Local? then Sampled(pt.work.name, pt.provider, BodyDecision(pt)) else None
    case Client =>
      if pt.work.Call? && pt.work.client.enableTracing
      then Sampled(pt.work.client.operation, pt.provider, DecideAt(pt.work.client, pt.provider, pt.decision))
      else None
    case Server =>
      if pt.work.Call? && pt.work.reach.Served? && pt.work.reach.server.enableTracing
      then Sampled(pt.work.reach.server.operation, pt.work.reach.provider, BodyDecision(pt))
      else None
  }

  function Sampled(operation: string, p: Provider, d: Decision): Option<(string, TraceId)> {
    if p.ParentBased? && d.Some? && d.value.sampled then Some((operation, d.value.id)) else None
  }

  ghost predicate Expected(p: Provider, d: Decision, works: seq<Work>, r: Record) {
    var pt := PointAt(p, d, works, r.path);
    pt.Some? && SpanAt(pt.value, r.kind) == Some((r.operation, r.traceId))
  }
}
