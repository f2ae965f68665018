// What the tracing middleware guarantees for every finite call tree.
module TracingGuarantees {
  import opened Wrappers
  import opened Text
  import opened TraceContext
  import opened OperationRules
  import opened CallTree

  // ----- decisions survive the wire ---------------------------------------------

  // A context carries a whole identity or none; nothing else is ever derived.
  predicate Proper(sc: SpanContext) {
    NonZero(sc.traceId) ==> IsValid(sc)
  }

  lemma StartSpanDecides(p: Provider, parent: SpanContext, ids: Ids)
    requires Proper(parent)
    ensures var entered := StartSpan(p, parent, ids);
            var d := Decide(p, DecisionOf(parent), ids);
            && Proper(entered.ctx)
            && DecisionOf(entered.ctx) == d
            && (entered.recording <==> p.ParentBased? && d.Some? && d.value.sampled)
            && (d.Some? ==> d.value.id == entered.ctx.traceId)
  {
  }

  /** Tracer.Start in terms of the contexts alone: without a provider nothing happens; a valid
      parent passes on trace and decision; else a new trace begins and the root sampler
      decides. A span is recorded exactly when it is sampled. */
  lemma StartSpanByContract(p: Provider, parent: SpanContext, ids: Ids)
    requires Proper(parent)
    ensures p.NoProvider? ==> StartSpan(p, parent, ids) == Entered(parent, false)
    ensures p.ParentBased? && IsValid(parent) ==>
              StartSpan(p, parent, ids)
              == Entered(SpanContext(parent.traceId, ids.spanId, parent.sampled, false), parent.sampled)
    ensures p.ParentBased? && !IsValid(parent) ==>
              var sampled := p.samplesRoot(ids.traceId);
              StartSpan(p, parent, ids) == Entered(SpanContext(ids.traceId, ids.spanId, sampled, false), sampled)
  {
  }

  /** When an endpoint excludes its operation, in its rules as they are written. */
  lemma ExcludedByIndex(e: Endpoint)
    ensures Excluded(e) <==>
              && e.enableTracing && e.rules.Some?
              && var rules, op := e.rules.value, TrimSpace(e.operation);
                 && op != ""
                 && (|| (exists i :: 0 <= i < |rules.operations| && TrimSpace(rules.operations[i]) == op)
                     || (exists j :: 0 <= j < |rules.prefixes| && TrimSpace(rules.prefixes[j]) != ""
                                     && TrimSpace(rules.prefixes[j]) <= op))
  {
    if e.rules.Some? {
      ExcludesByIndex(e.rules.value, e.operation);
    }
  }

  /** Without enable_tracing neither side sees or touches anything. */
  lemma OffChangesNothing(e: Endpoint, p: Provider, ctx: SpanContext, h: Header)
    requires !e.enableTracing
    ensures ClientEnter(e, p, ctx) == Entered(ctx, false) && ClientHeader(e, ctx, h) == h
    ensures ServerEnter(e, p, ctx, h) == Entered(ctx, false)
  {
  }

  /** A suppressed context is valid, so a ParentBased sampler will not start a new root
      under it, and it is not sampled, whatever the random source returned. */
  lemma SuppressedIsAValidUnsampledParent(e: Entropy)
    ensures IsValid(Suppressed(e)) && Suppressed(e).remote
    ensures !Suppressed(e).sampled && DecisionOf(Suppressed(e)) == MutedBy(e)
    ensures forall p, ids :: !StartSpan(p, Suppressed(e), ids).recording
  {
    IdFromIsNeverZero(16, e.traceDraw);
    IdFromIsNeverZero(8, e.spanDraw);
  }

  /** What one service injects the next one extracts: same trace, same decision. A
      context without a span leaves whatever the header held before. */
  lemma HeaderCarriesDecision(sc: SpanContext, h: Header)
    ensures DecisionOf(Extract(NO_SPAN, Inject(sc, h)))
         == if IsValid(sc) then DecisionOf(sc) else DecisionOf(Extract(NO_SPAN, h))
    ensures IsValid(sc) ==> Extract(NO_SPAN, Inject(sc, h)) == sc.(remote := true)
    ensures Proper(Extract(NO_SPAN, h))
  {
    ReadOfWrite(sc);
    if TRACEPARENT in h && ReadTraceparent(h[TRACEPARENT]).Some? {
      WriteOfRead(h[TRACEPARENT]);
    }
  }

  lemma EnterDecides(e: Endpoint, p: Provider, ctx: SpanContext, h: Header)
    requires Proper(ctx)
    ensures var d := DecideAt(e, p, DecisionOf(ctx));
            var entered := ClientEnter(e, p, ctx);
            && Proper(entered.ctx)
            && (e.enableTracing ==> DecisionOf(entered.ctx) == d)
            && (entered.recording <==> e.enableTracing && Sampled("", p, d).Some?)
            && (entered.recording ==> d.Some? && d.value.id == entered.ctx.traceId)
    ensures ServerEnter(e, p, ctx, h)
         == if e.enableTracing then ClientEnter(e, p, Extract(ctx, h)) else Entered(ctx, false)
  {
    StartSpanDecides(p, ctx, e.ids);
    SuppressedIsAValidUnsampledParent(e.entropy);
  }

  // ----- the run records exactly the specified spans --------------------------------

  // The spans at or below a point, by their place relative to it.
  ghost predicate ExpectedBelow(pt: Point, r: Record) {
    if r.path == [] then SpanAt(pt, r.kind) == Some((r.operation, r.traceId))
    else Body(pt.work) != [] && Expected(BodyProvider(pt), BodyDecision(pt), Body(pt.work), r)
  }

  predicate Under(prefix: seq<nat>, path: seq<nat>) {
    prefix <= path
  }

  lemma UnderChild(prefix: seq<nat>, k: nat, path: seq<nat>)
    ensures Under(prefix + [k], path) <==> Under(prefix, path) && |prefix| < |path| && path[|prefix|] == k
  {
    if Under(prefix, path) && |prefix| < |path| && path[|prefix|] == k {
      assert path[..|prefix| + 1] == prefix + [k];
    }
  }

  lemma UnderTail(prefix: seq<nat>, path: seq<nat>)
    requires prefix != [] && path != [] && prefix[0] == path[0]
    ensures Under(prefix, path) <==> Under(prefix[1..], path[1..])
  {
    assert prefix == [prefix[0]] + prefix[1..];
    assert path == [path[0]] + path[1..];
  }

  // The record as seen from the node at prefix.
  function Relative(r: Record, prefix: seq<nat>): Record
    requires Under(prefix, r.path)
  {
    r.(path := r.path[|prefix|..])
  }

  lemma {:induction false} RunFromIsExact(
    p: Provider, ctx: SpanContext, works: seq<Work>, k: nat, prefix: seq<nat>, r: Record)
    requires k <= |works| && Proper(ctx)
    ensures r in RunFrom(p, ctx, works, k, prefix) <==>
            && Under(prefix, r.path) && |prefix| < |r.path| && k <= r.path[|prefix|]
            && Expected(p, DecisionOf(ctx), works, Relative(r, prefix))
    decreases works, |works| - k
  {
    if k < |works| {
      var here := prefix + [k];
      RunWorkIsExact(p, ctx, works[k], here, r);
      RunFromIsExact(p, ctx, works, k + 1, prefix, r);
      UnderChild(prefix, k, r.path);
      if Under(here, r.path) {
        assert Relative(r, prefix).path[1..] == Relative(r, here).path;
        assert Relative(r, prefix).path[0] == k;
      }
    }
  }

  // A span start shows up as the one record its decision calls for.
  lemma EmitIsExact(
    entered: Entered, path: seq<nat>, kind: Kind, operation: string, p: Provider, d: Decision, r: Record)
    requires entered.recording <==> p.ParentBased? && d.Some? && d.value.sampled
    requires entered.recording ==> d.value.id == entered.ctx.traceId
    ensures r in Emit(entered, path, kind, operation)
       <==> r.path == path && r.kind == kind && Sampled(operation, p, d) == Some((r.operation, r.traceId))
  {
  }

  lemma SamePath(prefix: seq<nat>, r: Record)
    requires Under(prefix, r.path)
    ensures Relative(r, prefix).path == [] <==> r.path == prefix
  {
    assert r.path == prefix + r.path[|prefix|..];
  }

  lemma {:induction false} RunWorkIsExact(p: Provider, ctx: SpanContext, w: Work, path: seq<nat>, r: Record)
    requires Proper(ctx)
    ensures r in RunWork(p, ctx, w, path) <==>
            Under(path, r.path) && ExpectedBelow(Point(p, DecisionOf(ctx), w), Relative(r, path))
    decreases w, 0
  {
    match w
    case Local(name, ids, body) =>
      StartSpanDecides(p, ctx, ids);
      RunFromIsExact(p, StartSpan(p, ctx, ids).ctx, body, 0, path, r);
      LocalIsExact(p, ctx, w, path, r);
    case Call(client, preset, reach) =>
      var pt, h := Point(p, DecisionOf(ctx), w), ClientHeader(client, ClientEnter(client, p, ctx).ctx, preset);
      SentIsCarried(p, ctx, w);
      RunReachIsExact(pt, h, path, r);
      CallIsExact(p, ctx, w, path, r);
  }

  // A local span, given what its body records.
  lemma LocalIsExact(p: Provider, ctx: SpanContext, w: Work, path: seq<nat>, r: Record)
    requires Proper(ctx) && w.Local?
    requires var entered := StartSpan(p, ctx, w.ids);
             r in RunFrom(p, entered.ctx, w.body, 0, path) <==>
             && Under(path, r.path) && |path| < |r.path|
             && Expected(p, DecisionOf(entered.ctx), w.body, Relative(r, path))
    ensures r in RunWork(p, ctx, w, path) <==>
            Under(path, r.path) && ExpectedBelow(Point(p, DecisionOf(ctx), w), Relative(r, path))
  {
    if Under(path, r.path) {
      SamePath(path, r);
    }
    var entered := StartSpan(p, ctx, w.ids);
    StartSpanDecides(p, ctx, w.ids);
    EmitIsExact(entered, path, Internal, w.name, p, DecisionOf(entered.ctx), r);
    assert RunWork(p, ctx, w, path) == Emit(entered, path, Internal, w.name) + RunFrom(p, entered.ctx, w.body, 0, path);
  }

  // The header that a call sends carries the decision of the specification.
  lemma SentIsCarried(p: Provider, ctx: SpanContext, w: Work)
    requires Proper(ctx) && w.Call?
    ensures DecisionOf(Extract(NO_SPAN, ClientHeader(w.client, ClientEnter(w.client, p, ctx).ctx, w.preset)))
         == Carried(Point(p, DecisionOf(ctx), w))
  {
    EnterDecides(w.client, p, ctx, w.preset);
    HeaderCarriesDecision(ClientEnter(w.client, p, ctx).ctx, w.preset);
  }

  // A call, given what is recorded at its far end.
  lemma CallIsExact(p: Provider, ctx: SpanContext, w: Work, path: seq<nat>, r: Record)
    requires Proper(ctx) && w.Call?
    requires var h := ClientHeader(w.client, ClientEnter(w.client, p, ctx).ctx, w.preset);
             r in RunReach(h, w.reach, path) <==>
             && Under(path, r.path)
             && (r.path == path ==> r.kind == Server)
             && ExpectedBelow(Point(p, DecisionOf(ctx), w), Relative(r, path))
    ensures r in RunWork(p, ctx, w, path) <==>
            Under(path, r.path) && ExpectedBelow(Point(p, DecisionOf(ctx), w), Relative(r, path))
  {
    if Under(path, r.path) {
      SamePath(path, r);
    }
    EnterDecides(w.client, p, ctx, w.preset);
    var entered, pt := ClientEnter(w.client, p, ctx), Point(p, DecisionOf(ctx), w);
    var emitted := Emit(entered, path, Client, w.client.operation);
    assert r in emitted <==>
           r.path == path && r.kind == Client && SpanAt(pt, Client) == Some((r.operation, r.traceId)) by {
      if w.client.enableTracing {
        EmitIsExact(entered, path, Client, w.client.operation, p, DecisionOf(entered.ctx), r);
      }
    }
    assert RunWork(p, ctx, w, path) == emitted + RunReach(ClientHeader(w.client, entered.ctx, w.preset), w.reach, path);
  }

  lemma {:induction false} RunReachIsExact(pt: Point, h: Header, path: seq<nat>, r: Record)
    requires pt.work.Call? && DecisionOf(Extract(NO_SPAN, h)) == Carried(pt)
    ensures r in RunReach(h, pt.work.reach, path) <==>
            && Under(path, r.path)
            && (r.path == path ==> r.kind == Server)
            && ExpectedBelow(pt, Relative(r, path))
    decreases pt.work.reach, 0
  {
    if Under(path, r.path) {
      SamePath(path, r);
    }
    match pt.work.reach
    case Lost =>
    case Served(server, q, body) =>
      HeaderCarriesDecision(NO_SPAN, h);
      EnterDecides(server, q, Extract(NO_SPAN, h), h);
      EnterDecides(server, q, NO_SPAN, h);
      var entered := ServerEnter(server, q, NO_SPAN, h);
      assert DecisionOf(entered.ctx) == BodyDecision(pt);
      assert r in Emit(entered, path, Server, server.operation) <==>
             r.path == path && r.kind == Server && SpanAt(pt, Server) == Some((r.operation, r.traceId)) by {
        if server.enableTracing {
          EmitIsExact(entered, path, Server, server.operation, q, DecisionOf(entered.ctx), r);
        }
      }
      RunFromIsExact(q, entered.ctx, body, 0, path, r);
  }

  /** Running the middleware over any call tree records exactly the spans that the
      path-by-path specification gives: the decision is inherited where a hop carries
      it, taken anew where it does not, and a matching rule forces "not recorded". */
  lemma RunIsExact(p: Provider, ctx: SpanContext, works: seq<Work>, r: Record)
    requires Proper(ctx)
    ensures r in Run(p, ctx, works) <==> Expected(p, DecisionOf(ctx), works, r)
  {
    RunFromIsExact(p, ctx, works, 0, [], r);
    assert Relative(r, []) == r;
  }

  // ----- no span is recorded twice ---------------------------------------------------

  ghost predicate Distinct<T>(s: seq<T>) {
    forall i, j :: 0 <= i < j < |s| ==> s[i] != s[j]
  }

  lemma DistinctConcat<T>(a: seq<T>, b: seq<T>)
    requires Distinct(a) && Distinct(b)
    requires forall x :: x in a ==> x !in b
    ensures Distinct(a + b)
  {
    forall i, j | 0 <= i < j < |a + b| ensures (a + b)[i] != (a + b)[j] {
      if i < |a| <= j {
        assert a[i] in a && b[j - |a|] in b;
      }
    }
  }

  lemma {:induction false} RunFromIsDistinct(p: Provider, ctx: SpanContext, works: seq<Work>, k: nat, prefix: seq<nat>)
    requires k <= |works| && Proper(ctx)
    ensures Distinct(RunFrom(p, ctx, works, k, prefix))
    decreases works, |works| - k
  {
    if k < |works| {
      RunWorkIsDistinct(p, ctx, works[k], prefix + [k]);
      RunFromIsDistinct(p, ctx, works, k + 1, prefix);
      var first, rest := RunWork(p, ctx, works[k], prefix + [k]), RunFrom(p, ctx, works, k + 1, prefix);
      forall r | r in first ensures r !in rest {
        RunWorkIsExact(p, ctx, works[k], prefix + [k], r);
        RunFromIsExact(p, ctx, works, k + 1, prefix, r);
        UnderChild(prefix, k, r.path);
      }
      DistinctConcat(first, rest);
    }
  }

  lemma {:induction false} RunWorkIsDistinct(p: Provider, ctx: SpanContext, w: Work, path: seq<nat>)
    requires Proper(ctx)
    ensures Distinct(RunWork(p, ctx, w, path))
    decreases w, 0
  {
    match w
    case Local(name, ids, body) =>
      StartSpanDecides(p, ctx, ids);
      RunBodyIsDistinct(p, StartSpan(p, ctx, ids), body, path, Internal, name);
    case Call(client, preset, reach) =>
      EnterDecides(client, p, ctx, preset);
      var entered := ClientEnter(client, p, ctx);
      var h := ClientHeader(client, entered.ctx, preset);
      HeaderCarriesDecision(entered.ctx, preset);
      match reach {
        case Lost =>
        case Served(server, q, body) =>
          HeaderCarriesDecision(NO_SPAN, h);
          EnterDecides(server, q, Extract(NO_SPAN, h), h);
          EnterDecides(server, q, NO_SPAN, h);
          var served := ServerEnter(server, q, NO_SPAN, h);
          RunBodyIsDistinct(q, served, body, path, Server, server.operation);
          forall r | r in Emit(entered, path, Client, client.operation) ensures r !in RunReach(h, reach, path) {
            RunFromIsExact(q, served.ctx, body, 0, path, r);
          }
          DistinctConcat(Emit(entered, path, Client, client.operation), RunReach(h, reach, path));
      }
  }

  lemma RunBodyIsDistinct(
    p: Provider, entered: Entered, body: seq<Work>, path: seq<nat>, kind: Kind, operation: string)
    requires Proper(entered.ctx)
    ensures Distinct(Emit(entered, path, kind, operation) + RunFrom(p, entered.ctx, body, 0, path))
    decreases body, |body| + 1
  {
    RunFromIsDistinct(p, entered.ctx, body, 0, path);
    forall r | r in Emit(entered, path, kind, operation) ensures r !in RunFrom(p, entered.ctx, body, 0, path) {
      RunFromIsExact(p, entered.ctx, body, 0, path, r);
    }
    DistinctConcat(Emit(entered, path, kind, operation), RunFrom(p, entered.ctx, body, 0, path));
  }

  // ----- suppression ---------------------------------------------------------------

  predicate Muted(d: Decision) {
    d.Some? && !d.value.sampled
  }

  /** A hop keeps a suppressed request suppressed: the server reads headers, and the client
      wrote one, or the server suppresses the operation again by itself, or the handler
      that made the call had passed an unsampled header on. */
  predicate HopKeeps(client: Endpoint, preset: Header, server: Endpoint) {
    && server.enableTracing
    && (client.enableTracing || Excluded(server) || Muted(DecisionOf(Extract(NO_SPAN, preset))))
  }

  predicate HopHolds(w: Work) {
    w.Call? && w.reach.Served? ==> HopKeeps(w.client, w.preset, w.reach.server)
  }

  // Every hop that leads from w down to the span at `rest` holds.
  predicate OverHops(w: Work, rest: seq<nat>, kind: Kind)
    decreases |rest|
  {
    if rest == [] then kind == Server ==> HopHolds(w)
    else HopHolds(w) && (rest[0] < |Body(w)| ==> OverHops(Body(w)[rest[0]], rest[1..], kind))
  }

  /** Nothing is recorded under an unsampled decision, however deep, as long as the hops
      on the way hold. */
  lemma {:induction false} UnsampledStaysUnsampled(pt: Point, r: Record)
    requires pt.decision.Some? && !pt.decision.value.sampled && OverHops(pt.work, r.path, r.kind)
    ensures !ExpectedBelow(pt, r)
    decreases |r.path|
  {
    if r.path != [] && Body(pt.work) != [] {
      var body := Body(pt.work);
      if r.path[0] < |body| {
        UnsampledStaysUnsampled(Point(BodyProvider(pt), BodyDecision(pt), body[r.path[0]]), Relative(r, [r.path[0]]));
      }
    }
  }

  // Below a node with a body, what is expected is what is expected of the body.
  lemma ExpectedInBody(p: Provider, d: Decision, works: seq<Work>, r: Record)
    requires |r.path| > 1 && r.path[0] < |works| && Body(works[r.path[0]]) != []
    ensures var pt := Point(p, d, works[r.path[0]]);
            && (Expected(p, d, works, r)
                <==> Expected(BodyProvider(pt), BodyDecision(pt), Body(pt.work), Relative(r, [r.path[0]])))
  {
  }

  // At the first node of a path, what is expected is what is expected below that node.
  lemma ExpectedAtFirst(p: Provider, d: Decision, works: seq<Work>, r: Record)
    requires r.path != [] && r.path[0] < |works|
    ensures Expected(p, d, works, r) <==> ExpectedBelow(Point(p, d, works[r.path[0]]), Relative(r, [r.path[0]]))
  {
    var below := Relative(r, [r.path[0]]);
    assert below.path == r.path[1..];
    if |r.path| > 1 && Body(works[r.path[0]]) != [] {
      ExpectedInBody(p, d, works, r);
    }
  }

  /** The spans of a run below a node are those expected below its point. */
  lemma {:induction false} ExpectedAtNode(p: Provider, d: Decision, works: seq<Work>, path: seq<nat>, r: Record)
    requires PointAt(p, d, works, path).Some? && Under(path, r.path)
    ensures Expected(p, d, works, r) <==> ExpectedBelow(PointAt(p, d, works, path).value, Relative(r, path))
    decreases |path|
  {
    assert path[0] == r.path[0];
    if |path| == 1 {
      assert path == [r.path[0]];
      ExpectedAtFirst(p, d, works, r);
    } else {
      var pt, below := Point(p, d, works[path[0]]), Relative(r, [path[0]]);
      UnderTail(path, r.path);
      ExpectedInBody(p, d, works, r);
      ExpectedAtNode(BodyProvider(pt), BodyDecision(pt), Body(pt.work), path[1..], below);
      assert Relative(r, path) == Relative(below, path[1..]);
    }
  }

  // The work item at a path.
  function WorkAt(works: seq<Work>, path: seq<nat>): Option<Work>
    decreases |path|
  {
    if path == [] || path[0] >= |works| then None
    else if |path| == 1 then Some(works[path[0]])
    else WorkAt(Body(works[path[0]]), path[1..])
  }

  lemma {:induction false} PointOfWork(p: Provider, d: Decision, works: seq<Work>, path: seq<nat>)
    ensures PointAt(p, d, works, path).Some? <==> WorkAt(works, path).Some?
    ensures WorkAt(works, path).Some? ==> PointAt(p, d, works, path).value.work == WorkAt(works, path).value
    decreases |path|
  {
    if |path| > 1 && path[0] < |works| && Body(works[path[0]]) != [] {
      var pt := Point(p, d, works[path[0]]);
      PointOfWork(BodyProvider(pt), BodyDecision(pt), Body(pt.work), path[1..]);
    }
  }

  /** The guarantee of the middleware, for every call tree and every node of it: when the
      client side of a call matches a rule, neither its own span nor any span that is
      reached from it over hops that hold is recorded. */
  lemma ExcludedClientSilencesItsSubtree(p: Provider, ctx: SpanContext, works: seq<Work>, path: seq<nat>, r: Record)
    requires Proper(ctx)
    requires WorkAt(works, path).Some? && WorkAt(works, path).value.Call?
    requires var e := WorkAt(works, path).value.client;
             && e.enableTracing && e.rules.Some?
             && var rules, op := e.rules.value, TrimSpace(e.operation);
                && op != ""
                && (|| (exists i :: 0 <= i < |rules.operations| && TrimSpace(rules.operations[i]) == op)
                    || (exists j :: 0 <= j < |rules.prefixes| && TrimSpace(rules.prefixes[j]) != ""
                                    && TrimSpace(rules.prefixes[j]) <= op))
    requires Under(path, r.path) && OverHops(WorkAt(works, path).value, Relative(r, path).path, r.kind)
    ensures r !in Run(p, ctx, works)
  {
    ExcludedByIndex(WorkAt(works, path).value.client);
    RunIsExact(p, ctx, works, r);
    PointOfWork(p, DecisionOf(ctx), works, path);
    ExpectedAtNode(p, DecisionOf(ctx), works, path, r);
    var pt := PointAt(p, DecisionOf(ctx), works, path).value;
    var muted := pt.(decision := MutedBy(pt.work.client.entropy));
    UnsampledStaysUnsampled(muted, Relative(r, path));
    assert Carried(pt) == Carried(muted);
  }

  /** When the server side matches, the one span left is the caller's: the server span
      and everything reached from the handler over hops that hold stay unrecorded. */
  lemma ExcludedServerSilencesItsSubtree(p: Provider, ctx: SpanContext, works: seq<Work>, path: seq<nat>, r: Record)
    requires Proper(ctx)
    requires WorkAt(works, path).Some? && WorkAt(works, path).value.Call? && WorkAt(works, path).value.reach.Served?
    requires var e := WorkAt(works, path).value.reach.server;
             && e.enableTracing && e.rules.Some?
             && var rules, op := e.rules.value, TrimSpace(e.operation);
                && op != ""
                && (|| (exists i :: 0 <= i < |rules.operations| && TrimSpace(rules.operations[i]) == op)
                    || (exists j :: 0 <= j < |rules.prefixes| && TrimSpace(rules.prefixes[j]) != ""
                                    && TrimSpace(rules.prefixes[j]) <= op))
    requires Under(path, r.path) && OverHops(WorkAt(works, path).value, Relative(r, path).path, r.kind)
    ensures r in Run(p, ctx, works) ==> r.path == path && r.kind == Client
  {
    ExcludedByIndex(WorkAt(works, path).value.reach.server);
    RunIsExact(p, ctx, works, r);
    PointOfWork(p, DecisionOf(ctx), works, path);
    ExpectedAtNode(p, DecisionOf(ctx), works, path, r);
    var pt := PointAt(p, DecisionOf(ctx), works, path).value;
    SamePath(path, r);
    if r.path != path {
      var muted := pt.(decision := MutedBy(pt.work.reach.server.entropy));
      UnsampledStaysUnsampled(muted, Relative(r, path));
      assert BodyDecision(pt) == BodyDecision(muted);
    }
  }

  // Below a work item, the work items of its body.
  lemma WorkBelow(w: Work, rest: seq<nat>)
    ensures rest == [] ==> WorkAt([w], [0] + rest) == Some(w)
    ensures rest != [] ==> WorkAt([w], [0] + rest) == WorkAt(Body(w), rest)
    ensures rest != [] && rest[0] < |Body(w)| ==> WorkAt(Body(w), rest) == WorkAt([Body(w)[rest[0]]], [0] + rest[1..])
  {
    assert ([0] + rest)[1..] == rest;
    assert rest != [] ==> ([0] + rest[1..])[1..] == rest[1..];
  }

  // The hop of the work item k steps down the path, if the path leads to one.
  predicate HoldsAt(w: Work, rest: seq<nat>, k: nat)
    requires k <= |rest|
  {
    var hop := WorkAt([w], [0] + rest[..k]);
    hop.Some? ==> HopHolds(hop.value)
  }

  lemma HoldsBelow(w: Work, rest: seq<nat>, k: nat)
    requires 0 < k <= |rest|
    ensures HoldsAt(w, rest, k) <==> rest[0] >= |Body(w)| || HoldsAt(Body(w)[rest[0]], rest[1..], k - 1)
  {
    WorkBelow(w, rest[..k]);
    assert rest[..k][1..] == rest[1..][..k - 1];
  }

  /** Which hops are meant: those of w and of every work item on the way to the span, that of
      its own work item included if it is a server span. */
  lemma {:induction false} OverHopsExactly(w: Work, rest: seq<nat>, kind: Kind)
    ensures OverHops(w, rest, kind) <==>
            forall k :: 0 <= k <= |rest| && (k < |rest| || kind == Server) ==> HoldsAt(w, rest, k)
    decreases |rest|
  {
    WorkBelow(w, rest[..0]);
    assert HoldsAt(w, rest, 0) <==> HopHolds(w);
    if rest != [] {
      forall k | 0 < k <= |rest|
        ensures HoldsAt(w, rest, k) <==> rest[0] >= |Body(w)| || HoldsAt(Body(w)[rest[0]], rest[1..], k - 1)
      {
        HoldsBelow(w, rest, k);
      }
      if rest[0] < |Body(w)| {
        OverHopsExactly(Body(w)[rest[0]], rest[1..], kind);
        assert forall k :: 0 <= k < |rest| ==> HoldsAt(Body(w)[rest[0]], rest[1..], k) == HoldsAt(w, rest, k + 1);
      }
    }
  }

  /** What a hop that holds is: the server traces, and the request that reaches it carries an
      unsampled decision or is suppressed again by the server's own rules. */
  lemma HopHoldsByConfiguration(w: Work)
    ensures HopHolds(w) <==>
              (w.Call? && w.reach.Served? ==>
                && w.reach.server.enableTracing
                && (|| w.client.enableTracing || Excluded(w.reach.server)
                    || (var found := Extract(NO_SPAN, w.preset); IsValid(found) && !found.sampled)))
  {
  }

  // Every hop of the work item and of everything below it holds.
  predicate AllHopsHold(w: Work)
    decreases w
  {
    HopHolds(w) &&
    match w
    case Local(_, _, body) => forall i :: 0 <= i < |body| ==> AllHopsHold(body[i])
    case Call(_, _, Lost) => true
    case Call(_, _, Served(_, _, body)) => forall i :: 0 <= i < |body| ==> AllHopsHold(body[i])
  }

  lemma {:induction false} AllHopsHoldOnEveryPath(w: Work, rest: seq<nat>, kind: Kind)
    requires AllHopsHold(w)
    ensures OverHops(w, rest, kind)
    decreases |rest|
  {
    if rest != [] && rest[0] < |Body(w)| {
      AllHopsHoldOnEveryPath(Body(w)[rest[0]], rest[1..], kind);
    }
  }

  // ... and no more is meant: the hops on all paths are all hops.
  lemma {:induction false} HopsOnEveryPathAreAll(w: Work)
    requires forall rest, kind :: OverHops(w, rest, kind)
    ensures AllHopsHold(w)
    decreases w
  {
    assert OverHops(w, [], Server);
    forall i | 0 <= i < |Body(w)| ensures AllHopsHold(Body(w)[i]) {
      forall rest, kind ensures OverHops(Body(w)[i], rest, kind) {
        assert OverHops(w, [i] + rest, kind) && ([i] + rest)[1..] == rest;
      }
      HopsOnEveryPathAreAll(Body(w)[i]);
    }
    AllHopsHoldInBody(w);
  }

  lemma AllHopsHoldInBody(w: Work)
    requires HopHolds(w) && forall i :: 0 <= i < |Body(w)| ==> AllHopsHold(Body(w)[i])
    ensures AllHopsHold(w)
  {
    match w
    case Local(_, _, body) => assert forall i :: 0 <= i < |body| ==> body[i] == Body(w)[i];
    case Call(_, _, Lost) =>
    case Call(_, _, Served(_, _, body)) => assert forall i :: 0 <= i < |body| ==> body[i] == Body(w)[i];
  }

  /** Where tracing is on at both ends of every call below it, a matching operation
      leaves no span in its whole subtree, in whatever services it runs; except, when it
      is the server that matches, the span of the client that made the call. */
  lemma ExcludedOperationLeavesNoSpan(p: Provider, ctx: SpanContext, works: seq<Work>, path: seq<nat>, r: Record)
    requires Proper(ctx)
    requires WorkAt(works, path).Some? && WorkAt(works, path).value.Call? && AllHopsHold(WorkAt(works, path).value)
    requires r in Run(p, ctx, works) && Under(path, r.path)
    ensures var e := WorkAt(works, path).value.client;
            !(&& e.enableTracing && e.rules.Some?
              && var rules, op := e.rules.value, TrimSpace(e.operation);
                 && op != ""
                 && (|| (exists i :: 0 <= i < |rules.operations| && TrimSpace(rules.operations[i]) == op)
                     || (exists j :: 0 <= j < |rules.prefixes| && TrimSpace(rules.prefixes[j]) != ""
                                     && TrimSpace(rules.prefixes[j]) <= op)))
    ensures WorkAt(works, path).value.reach.Served? ==>
              var e := WorkAt(works, path).value.reach.server;
              (&& e.enableTracing && e.rules.Some?
               && var rules, op := e.rules.value, TrimSpace(e.operation);
                  && op != ""
                  && (|| (exists i :: 0 <= i < |rules.operations| && TrimSpace(rules.operations[i]) == op)
                      || (exists j :: 0 <= j < |rules.prefixes| && TrimSpace(rules.prefixes[j]) != ""
                                      && TrimSpace(rules.prefixes[j]) <= op))) ==>
              r.path == path && r.kind == Client
  {
    var w := WorkAt(works, path).value;
    ExcludedByIndex(w.client);
    if w.reach.Served? {
      ExcludedByIndex(w.reach.server);
    }
    AllHopsHoldOnEveryPath(w, Relative(r, path).path, r.kind);
    if Excluded(w.client) {
      ExcludedClientSilencesItsSubtree(p, ctx, works, path, r);
    }
    if w.reach.Served? && Excluded(w.reach.server) {
      ExcludedServerSilencesItsSubtree(p, ctx, works, path, r);
    }
  }

  // ----- the condition on a hop is the exact one -------------------------------------

  // No handler, in no service, records anything behind this hop of a suppressed call,
  // except perhaps behind a further hop that does not hold.
  ghost predicate HopSilences(p: Provider, d: Decision, client: Endpoint, preset: Header, server: Endpoint) {
    forall q: Provider, body: seq<Work>, r: Record ::
      (r.path != [] && r.path[0] < |body| ==> OverHops(body[r.path[0]], r.path[1..], r.kind)) ==>
      !ExpectedBelow(Point(p, d, Call(client, preset, Served(server, q, body))), r)
  }

  // A service that samples every root, whose handler opens one span.
  function Leak(ids: Ids): (Provider, seq<Work>) {
    (ParentBased(_ => true), [Local("child", ids, [])])
  }

  // Where the hop does not hold, the handler behind it runs without a decision or under a
  // sampled one, and the service that samples every root records.
  lemma UnheldHopLeaks(p: Provider, d: Decision, client: Endpoint, preset: Header, server: Endpoint) returns (r: Record)
    requires d.Some? && !d.value.sampled && !HopKeeps(client, preset, server)
    ensures var (q, body) := Leak(server.ids);
            && r.path == [0] && r.kind == Internal
            && ExpectedBelow(Point(p, d, Call(client, preset, Served(server, q, body))), r)
  {
    var (q, body) := Leak(server.ids);
    var leaking := Point(p, d, Call(client, preset, Served(server, q, body)));
    var child := Point(q, BodyDecision(leaking), body[0]);
    assert PointAt(q, BodyDecision(leaking), body, [0]) == Some(child);
    var (operation, traceId) := SpanAt(child, Internal).value;
    r := Record([0], Internal, operation, traceId);
  }

  /** Suppression survives a hop for every service behind it exactly when the hop holds.
      The client's enable_tracing alone is not enough: a server without the tracing
      middleware never reads the header, and its spans become new roots. */
  lemma HopHoldsExactly(p: Provider, d: Decision, client: Endpoint, preset: Header, server: Endpoint)
    requires d.Some? && !d.value.sampled
    ensures HopSilences(p, d, client, preset, server)
       <==> && server.enableTracing
            && (client.enableTracing || Excluded(server) || Muted(DecisionOf(Extract(NO_SPAN, preset))))
  {
    if HopKeeps(client, preset, server) {
      forall q, body, r: Record | r.path != [] && r.path[0] < |body| ==> OverHops(body[r.path[0]], r.path[1..], r.kind)
        ensures !ExpectedBelow(Point(p, d, Call(client, preset, Served(server, q, body))), r)
      {
        UnsampledStaysUnsampled(Point(p, d, Call(client, preset, Served(server, q, body))), r);
      }
    } else {
      var (q, body) := Leak(server.ids);
      var r := UnheldHopLeaks(p, d, client, preset, server);
      assert OverHops(body[0], r.path[1..], r.kind);
    }
  }

  // ----- inheritance ------------------------------------------------------------------

  // Both sides of the hop trace and neither excludes the operation.
  predicate HopTraces(w: Work) {
    w.Call? ==>
      && w.client.enableTracing && !Excluded(w.client)
      && (w.reach.Served? ==> w.reach.server.enableTracing && !Excluded(w.reach.server))
  }

  // Every work item strictly above the end of the path.
  predicate TracedTo(works: seq<Work>, path: seq<nat>)
    decreases |path|
  {
    |path| > 1 && path[0] < |works| ==> HopTraces(works[path[0]]) && TracedTo(Body(works[path[0]]), path[1..])
  }

  // The hop of the work item k steps down the path, if the path leads to one.
  predicate TracesAt(works: seq<Work>, path: seq<nat>, k: nat)
    requires k <= |path|
  {
    var hop := WorkAt(works, path[..k]);
    hop.Some? ==> HopTraces(hop.value)
  }

  /** Which hops are meant, and what a hop that traces is. */
  lemma {:induction false} TracedToExactly(works: seq<Work>, path: seq<nat>)
    ensures TracedTo(works, path) <==> forall k :: 0 < k < |path| ==> TracesAt(works, path, k)
    ensures forall w :: HopTraces(w) <==>
              (w.Call? ==>
                && w.client.enableTracing && !Excluded(w.client)
                && (w.reach.Served? ==> w.reach.server.enableTracing && !Excluded(w.reach.server)))
    decreases |path|
  {
    if |path| > 1 {
      assert path[..1] == [path[0]];
      assert TracesAt(works, path, 1) <==> path[0] < |works| ==> HopTraces(works[path[0]]);
      forall k | 1 < k < |path|
        ensures TracesAt(works, path, k) <==>
                path[0] >= |works| || TracesAt(Body(works[path[0]]), path[1..], k - 1)
      {
        assert path[..k][1..] == path[1..][..k - 1];
      }
      if path[0] < |works| {
        var body := Body(works[path[0]]);
        TracedToExactly(body, path[1..]);
        assert forall k :: 0 < k < |path| - 1 ==> TracesAt(body, path[1..], k) == TracesAt(works, path, k + 1);
      }
    }
  }

  /** Once taken, a decision and its trace id reach every point of the tree below over
      hops that trace, unchanged: a sampled request is one trace across all services. */
  lemma {:induction false} DecisionIsInherited(p: Provider, d: Decision, works: seq<Work>, path: seq<nat>)
    requires d.Some? && TracedTo(works, path) && PointAt(p, d, works, path).Some?
    ensures PointAt(p, d, works, path).value.decision == d
    decreases |path|
  {
    if |path| > 1 {
      var pt := Point(p, d, works[path[0]]);
      DecisionIsInherited(BodyProvider(pt), BodyDecision(pt), Body(pt.work), path[1..]);
    }
  }

  /** Conversely, a sampled request loses no span on the way: wherever hops that trace
      lead, every span start under an installed provider is recorded, all in the one
      trace. */
  lemma SampledRequestIsRecordedThroughout(
    p: Provider, ctx: SpanContext, works: seq<Work>, path: seq<nat>, kind: Kind, operation: string)
    requires IsValid(ctx) && ctx.sampled
    requires TracedTo(works, path) && PointAt(p, DecisionOf(ctx), works, path).Some?
    requires var pt := PointAt(p, DecisionOf(ctx), works, path).value;
             && HopTraces(pt.work)
             && match kind
                case Internal => pt.work.Local? && operation == pt.work.name && pt.provider.ParentBased?
                case Client => pt.work.Call? && operation == pt.work.client.operation && pt.provider.ParentBased?
                case Server =>
                  && pt.work.Call? && pt.work.reach.Served? && operation == pt.work.reach.server.operation
                  && pt.work.reach.provider.ParentBased?
    ensures Record(path, kind, operation, ctx.traceId) in Run(p, ctx, works)
  {
    DecisionIsInherited(p, DecisionOf(ctx), works, path);
    RunIsExact(p, ctx, works, Record(path, kind, operation, ctx.traceId));
  }

  // ----- suppression is local to its subtree ---------------------------------------

  function WithBody(w: Work, body: seq<Work>): Work {
    match w
    case Local(_, _, _) => w.(body := body)
    case Call(_, _, Served(_, _, _)) => w.(reach := w.reach.(body := body))
    case Call(_, _, Lost) => w
  }

  // The tree with another work item at the path.
  function ReplaceAt(works: seq<Work>, path: seq<nat>, w: Work): seq<Work>
    requires WorkAt(works, path).Some?
    decreases |path|
  {
    if |path| == 1 then works[path[0] := w]
    else works[path[0] := WithBody(works[path[0]], ReplaceAt(Body(works[path[0]]), path[1..], w))]
  }

  // A node's own spans and what it hands down do not depend on its body.
  lemma BodyIsNotSeen(p: Provider, d: Decision, w: Work, body: seq<Work>)
    requires Body(w) != []
    ensures var pt, changed := Point(p, d, w), Point(p, d, WithBody(w, body));
            && Body(changed.work) == body
            && BodyProvider(changed) == BodyProvider(pt)
            && BodyDecision(changed) == BodyDecision(pt)
            && (forall kind :: SpanAt(changed, kind) == SpanAt(pt, kind))
  {
  }

  lemma {:induction false} SpansOutsideAreKept(
    p: Provider, d: Decision, works: seq<Work>, path: seq<nat>, w: Work, r: Record)
    requires WorkAt(works, path).Some? && !Under(path, r.path)
    ensures Expected(p, d, works, r) <==> Expected(p, d, ReplaceAt(works, path, w), r)
    decreases |path|
  {
    var replaced := ReplaceAt(works, path, w);
    if r.path == [] || r.path[0] != path[0] {
      assert r.path != [] && r.path[0] < |works| ==> replaced[r.path[0]] == works[r.path[0]];
    } else {
      UnderTail(path, r.path);
      var body := Body(works[path[0]]);
      assert body != [];
      var pt := Point(p, d, works[path[0]]);
      BodyIsNotSeen(p, d, works[path[0]], ReplaceAt(body, path[1..], w));
      if |r.path| > 1 {
        var below := Relative(r, [path[0]]);
        SpansOutsideAreKept(BodyProvider(pt), BodyDecision(pt), body, path[1..], w, below);
        ExpectedInBody(p, d, works, r);
        ExpectedInBody(p, d, replaced, r);
      }
    }
  }

  /** Whatever is put at a node, matching a rule or not, changes only the spans at and
      below it: ancestors, siblings and their subtrees record what they did before. */
  lemma SuppressionIsLocal(p: Provider, ctx: SpanContext, works: seq<Work>, path: seq<nat>, w: Work, r: Record)
    requires Proper(ctx) && WorkAt(works, path).Some? && !Under(path, r.path)
    ensures r in Run(p, ctx, works) <==> r in Run(p, ctx, ReplaceAt(works, path, w))
  {
    RunIsExact(p, ctx, works, r);
    RunIsExact(p, ctx, ReplaceAt(works, path, w), r);
    SpansOutsideAreKept(p, DecisionOf(ctx), works, path, w, r);
  }
}
