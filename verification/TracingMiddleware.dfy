// rpc/tracing.go as it runs: contexts are values that point at the transport of the
// current call, whose request header the client middleware writes in place. Serving a
// whole tree of calls this way is proved to record what CallTree.RunFrom says.
module TracingMiddleware {
  import opened Wrappers
  import opened Text
  import opened TraceContext
  import opened OperationRules
  import opened CallTree

  // transport.Transporter, for one call on one side.
  class Transport {
    const operation: string
    var requestHeader: Header

    constructor (operation: string, requestHeader: Header)
      ensures this.operation == operation && this.requestHeader == requestHeader
    {
      this.operation := operation;
      this.requestHeader := requestHeader;
    }
  }

  // The span processor behind the tracer providers.
  class Recorder {
    var spans: seq<Record>

    constructor ()
      ensures spans == []
    {
      spans := [];
    }

    method End(entered: Entered, path: seq<nat>, kind: Kind, operation: string)
      modifies this
      ensures spans == old(spans) + Emit(entered, path, kind, operation)
    {
      if entered.recording {
        spans := spans + [Record(path, kind, operation, entered.ctx.traceId)];
      }
    }
  }

  datatype Context = Context(span: SpanContext, server: Option<Transport>, client: Option<Transport>)

  function ServerTraceOperation(ctx: Context): string {
    if ctx.server.Some? then ctx.server.value.operation else ""
  }

  function ClientTraceOperation(ctx: Context): string {
    if ctx.client.Some? then ctx.client.value.operation else ""
  }

  method ContextWithTracingSuppressed(ctx: Context, entropy: Entropy) returns (suppressed: Context)
    ensures suppressed == ctx.(span := Suppressed(entropy))
    ensures suppressed.span.traceId == IdFrom(16, entropy.traceDraw)
    ensures suppressed.span.spanId == IdFrom(8, entropy.spanDraw)
    ensures IsValid(suppressed.span) && !suppressed.span.sampled && suppressed.span.remote
  {
    var traceId := NewTraceId(entropy.traceDraw);
    var spanId := NewSpanId(entropy.spanDraw);
    suppressed := ctx.(span := SpanContext(traceId, spanId, false, true));
  }

  method InjectSuppressedTraceContext(ctx: Context)
    modifies if ctx.client.Some? then {ctx.client.value} else {}
    ensures ctx.client.Some? ==>
              ctx.client.value.requestHeader == Inject(ctx.span, old(ctx.client.value.requestHeader))
  {
    if ctx.client.Some? {
      var tr := ctx.client.value;
      if IsValid(ctx.span) {
        tr.requestHeader := tr.requestHeader[TRACEPARENT := WriteTraceparent(ctx.span)];
      }
    }
  }

  // shouldSkipTracingByOperation, after operationFn.
  method ShouldSkipTracing(operation: string, rules: Option<Rules>) returns (skip: bool)
    ensures skip <==> rules.Some? && Excludes(rules.value, operation)
  {
    if rules.None? {
      return false;
    }
    skip := TraceOperationMatches(operation, rules.value.operations, rules.value.prefixes);
  }

  // kratosTracing.Client: start a span, then inject it.
  method KratosClient(recorder: Recorder, p: Provider, ctx: Context, ids: Ids, path: seq<nat>) returns (handed: Context)
    modifies recorder, if ctx.client.Some? then {ctx.client.value} else {}
    ensures ctx.client.None? ==> handed == ctx && recorder.spans == old(recorder.spans)
    ensures ctx.client.Some? ==>
              var entered := StartSpan(p, ctx.span, ids);
              && handed == ctx.(span := entered.ctx)
              && ctx.client.value.requestHeader == Inject(entered.ctx, old(ctx.client.value.requestHeader))
              && recorder.spans == old(recorder.spans) + Emit(entered, path, Client, ctx.client.value.operation)
  {
    handed := ctx;
    if ctx.client.Some? {
      var entered := StartSpan(p, ctx.span, ids);
      handed := ctx.(span := entered.ctx);
      InjectSuppressedTraceContext(handed);
      recorder.End(entered, path, Client, ctx.client.value.operation);
    }
  }

  // kratosTracing.Server: extract, then start a span.
  method KratosServer(recorder: Recorder, p: Provider, ctx: Context, ids: Ids, path: seq<nat>) returns (handed: Context)
    modifies recorder
    ensures ctx.server.None? ==> handed == ctx && recorder.spans == old(recorder.spans)
    ensures ctx.server.Some? ==>
              var entered := StartSpan(p, Extract(ctx.span, ctx.server.value.requestHeader), ids);
              && handed == ctx.(span := entered.ctx)
              && recorder.spans == old(recorder.spans) + Emit(entered, path, Server, ctx.server.value.operation)
  {
    handed := ctx;
    if ctx.server.Some? {
      var entered := StartSpan(p, Extract(ctx.span, ctx.server.value.requestHeader), ids);
      handed := ctx.(span := entered.ctx);
      recorder.End(entered, path, Server, ctx.server.value.operation);
    }
  }

  /** tracingClient. Whether the rules are missing, empty, present or matching, the handler
      gets ClientEnter's context and the request header ends up as ClientHeader's; in
      particular the early return for empty rules changes nothing. */
  method TracingClient(recorder: Recorder, p: Provider, ctx: Context, rules: Option<Rules>, ids: Ids, entropy: Entropy,
                       path: seq<nat>)
    returns (handed: Context)
    modifies recorder, if ctx.client.Some? then {ctx.client.value} else {}
    ensures ctx.client.None? ==> handed == ctx && recorder.spans == old(recorder.spans)
    ensures ctx.client.Some? ==>
              var tr := ctx.client.value;
              var side := Endpoint(tr.operation, true, rules, ids, entropy);
              var entered := ClientEnter(side, p, ctx.span);
              && handed == ctx.(span := entered.ctx)
              && tr.requestHeader == ClientHeader(side, entered.ctx, old(tr.requestHeader))
              && recorder.spans == old(recorder.spans) + Emit(entered, path, Client, tr.operation)
    // In the rules as they are written: a match suppresses and records nothing, else the base
    // middleware runs.
    ensures ctx.client.Some? ==>
              var tr := ctx.client.value;
              var matches :=
                && rules.Some? && TrimSpace(tr.operation) != ""
                && var listed, op := rules.value, TrimSpace(tr.operation);
                   || (exists i :: 0 <= i < |listed.operations| && TrimSpace(listed.operations[i]) == op)
                   || (exists j :: 0 <= j < |listed.prefixes| && TrimSpace(listed.prefixes[j]) != ""
                                   && TrimSpace(listed.prefixes[j]) <= op);
              var entered := StartSpan(p, ctx.span, ids);
              && handed == ctx.(span := handed.span)
              && (matches ==>
                    && IsValid(handed.span) && !handed.span.sampled && handed.span.remote
                    && tr.requestHeader == old(tr.requestHeader)["traceparent" := WriteTraceparent(handed.span)]
                    && recorder.spans == old(recorder.spans))
              && (!matches ==>
                    && handed.span == entered.ctx && tr.requestHeader == Inject(entered.ctx, old(tr.requestHeader))
                    && recorder.spans == old(recorder.spans)
                       + if entered.recording then [Record(path, Client, tr.operation, entered.ctx.traceId)] else [])
  {
    if rules.Some? {
      ExcludesByIndex(rules.value, ClientTraceOperation(ctx));
    }
    if !Wraps(rules) {
      handed := KratosClient(recorder, p, ctx, ids, path);
      return;
    }
    var operation := ClientTraceOperation(ctx);
    var skip := ShouldSkipTracing(operation, rules);
    if skip {
      handed := ContextWithTracingSuppressed(ctx, entropy);
      InjectSuppressedTraceContext(handed);
    } else {
      handed := KratosClient(recorder, p, ctx, ids, path);
    }
  }

  // tracingServer; it has no header to write.
  method TracingServer(recorder: Recorder, p: Provider, ctx: Context, rules: Option<Rules>, ids: Ids, entropy: Entropy,
                       path: seq<nat>)
    returns (handed: Context)
    modifies recorder
    ensures ctx.server.None? ==> handed == ctx && recorder.spans == old(recorder.spans)
    ensures ctx.server.Some? ==>
              var tr := ctx.server.value;
              var side := Endpoint(tr.operation, true, rules, ids, entropy);
              var entered := ServerEnter(side, p, ctx.span, tr.requestHeader);
              && handed == ctx.(span := entered.ctx)
              && recorder.spans == old(recorder.spans) + Emit(entered, path, Server, tr.operation)
    // In the rules as they are written: a match suppresses and records nothing, else the base
    // middleware runs.
    ensures ctx.server.Some? ==>
              var tr := ctx.server.value;
              var matches :=
                && rules.Some? && TrimSpace(tr.operation) != ""
                && var listed, op := rules.value, TrimSpace(tr.operation);
                   || (exists i :: 0 <= i < |listed.operations| && TrimSpace(listed.operations[i]) == op)
                   || (exists j :: 0 <= j < |listed.prefixes| && TrimSpace(listed.prefixes[j]) != ""
                                   && TrimSpace(listed.prefixes[j]) <= op);
              var entered := StartSpan(p, Extract(ctx.span, tr.requestHeader), ids);
              && handed == ctx.(span := handed.span)
              && (matches ==>
                    && IsValid(handed.span) && !handed.span.sampled && handed.span.remote
                    && recorder.spans == old(recorder.spans))
              && (!matches ==>
                    && handed.span == entered.ctx
                    && recorder.spans == old(recorder.spans)
                       + if entered.recording then [Record(path, Server, tr.operation, entered.ctx.traceId)] else [])
  {
    if rules.Some? {
      ExcludesByIndex(rules.value, ServerTraceOperation(ctx));
    }
    if !Wraps(rules) {
      handed := KratosServer(recorder, p, ctx, ids, path);
      return;
    }
    var operation := ServerTraceOperation(ctx);
    var skip := ShouldSkipTracing(operation, rules);
    if skip {
      handed := ContextWithTracingSuppressed(ctx, entropy);
    } else {
      handed := KratosServer(recorder, p, ctx, ids, path);
    }
  }

  // ----- serving a tree of calls ----------------------------------------------------------

  // Handler code in a service with provider p, one work item after the other.
  method Handle(recorder: Recorder, p: Provider, ctx: Context, works: seq<Work>, prefix: seq<nat>)
    modifies recorder
    ensures recorder.spans == old(recorder.spans) + RunFrom(p, ctx.span, works, 0, prefix)
    decreases works, |works| + 1
  {
    for k := 0 to |works|
      invariant recorder.spans + RunFrom(p, ctx.span, works, k, prefix)
             == old(recorder.spans) + RunFrom(p, ctx.span, works, 0, prefix)
    {
      ghost var before := recorder.spans;
      ghost var now, later := RunWork(p, ctx.span, works[k], prefix + [k]), RunFrom(p, ctx.span, works, k + 1, prefix);
      Appended(before, now, later);
      Perform(recorder, p, ctx, works[k], prefix + [k]);
    }
  }

  lemma Appended<T>(before: seq<T>, now: seq<T>, later: seq<T>)
    ensures before + (now + later) == (before + now) + later
  {
  }

  method Perform(recorder: Recorder, p: Provider, ctx: Context, w: Work, path: seq<nat>)
    modifies recorder
    ensures recorder.spans == old(recorder.spans) + RunWork(p, ctx.span, w, path)
    decreases w, 0
  {
    match w
    case Local(name, ids, body) =>
      var entered := StartSpan(p, ctx.span, ids);
      recorder.End(entered, path, Internal, name);
      ghost var here, below := Emit(entered, path, Internal, name), RunFrom(p, entered.ctx, body, 0, path);
      Handle(recorder, p, ctx.(span := entered.ctx), body, path);
      Appended(old(recorder.spans), here, below);
    case Call(client, preset, reach) =>
      ghost var entered := ClientEnter(client, p, ctx.span);
      var header := Send(recorder, p, ctx, client, preset, path);
      Deliver(recorder, header, reach, path);
      Appended(old(recorder.spans), Emit(entered, path, Client, client.operation), RunReach(header, reach, path));
  }

  // The client side of a call, on a transport of its own.
  method Send(recorder: Recorder, p: Provider, ctx: Context, client: Endpoint, preset: Header, path: seq<nat>)
    returns (header: Header)
    modifies recorder
    ensures var entered := ClientEnter(client, p, ctx.span);
            && header == ClientHeader(client, entered.ctx, preset)
            && recorder.spans == old(recorder.spans) + Emit(entered, path, Client, client.operation)
  {
    var tr := new Transport(client.operation, preset);
    if client.enableTracing {
      var sending := ctx.(client := Some(tr));
      var handed := TracingClient(recorder, p, sending, client.rules, client.ids, client.entropy, path);
    }
    header := tr.requestHeader;
  }

  method Deliver(recorder: Recorder, header: Header, reach: Reach, path: seq<nat>)
    modifies recorder
    ensures recorder.spans == old(recorder.spans) + RunReach(header, reach, path)
    decreases reach, 0
  {
    match reach
    case Lost =>
    case Served(server, p, body) =>
      var tr := new Transport(server.operation, header);
      var handed := Context(NO_SPAN, Some(tr), None);
      if server.enableTracing {
        handed := TracingServer(recorder, p, handed, server.rules, server.ids, server.entropy, path);
      }
      ghost var entered := ServerEnter(server, p, NO_SPAN, header);
      Handle(recorder, p, handed, body, path);
      Appended(old(recorder.spans), Emit(entered, path, Server, server.operation),
               RunFrom(p, entered.ctx, body, 0, path));
  }
}
