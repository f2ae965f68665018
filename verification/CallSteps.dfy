// The calls of a tree in flight at the same time. Handlers, requests about to be sent
// and requests on the wire take steps in any order; every request has a header of its
// own, which its client writes and its server reads.
module CallSteps {
  import opened Wrappers
  import opened Text
  import opened TraceContext
  import opened CallTree
  import opened TracingGuarantees

  datatype Task =
    // A handler with works[next..] still to start.
    | Handling(provider: Provider, ctx: SpanContext, works: seq<Work>, next: nat, prefix: seq<nat>)
    // The client middleware has its context but has not written the header yet.
    | Sending(request: nat, ctx: SpanContext, client: Endpoint, reach: Reach, path: seq<nat>)
    | Travelling(request: nat, reach: Reach, path: seq<nat>)
    | Finished

  // Request number q has the header headers[q].
  datatype State = State(tasks: seq<Task>, headers: seq<Header>, recorded: seq<Record>)

  predicate HasRequest(t: Task) {
    t.Sending? || t.Travelling?
  }

  predicate ValidTask(t: Task, headers: seq<Header>) {
    match t
    case Handling(_, _, works, next, _) => next <= |works|
    case Sending(request, _, _, _, _) => request < |headers|
    case Travelling(request, _, _) => request < |headers|
    case Finished => true
  }

  // No two tasks share a header.
  ghost predicate Valid(s: State) {
    && (forall i :: 0 <= i < |s.tasks| ==> ValidTask(s.tasks[i], s.headers))
    && (forall i, j :: 0 <= i < j < |s.tasks| && HasRequest(s.tasks[i]) && HasRequest(s.tasks[j]) ==>
          s.tasks[i].request != s.tasks[j].request)
  }

  function Initial(p: Provider, ctx: SpanContext, works: seq<Work>): State {
    State([Handling(p, ctx, works, 0, [])], [], [])
  }

  // Starting a work item: the span it records at once, the task that carries it on, and
  // the headers, with a new one for a new request.
  function Start(p: Provider, ctx: SpanContext, w: Work, path: seq<nat>, headers: seq<Header>)
    : (seq<Record>, Task, seq<Header>)
  {
    match w
    case Local(name, ids, body) =>
      var entered := StartSpan(p, ctx, ids);
      (Emit(entered, path, Internal, name), Handling(p, entered.ctx, body, 0, path), headers)
    case Call(client, preset, reach) =>
      var entered := ClientEnter(client, p, ctx);
      (Emit(entered, path, Client, client.operation),
       Sending(|headers|, entered.ctx, client, reach, path),
       headers + [preset])
  }

  // One step of task i. A handler goes on without waiting for what it started, so
  // sequential and concurrent handlers are both among the runs.
  function Step(s: State, i: nat): State
    requires i < |s.tasks| && ValidTask(s.tasks[i], s.headers)
  {
    var t := s.tasks[i];
    match t
    case Finished => s
    case Handling(p, ctx, works, next, prefix) =>
      if next == |works| then s.(tasks := s.tasks[i := Finished])
      else
        var (emitted, started, headers) := Start(p, ctx, works[next], prefix + [next], s.headers);
        State(s.tasks[i := t.(next := next + 1)] + [started], headers, s.recorded + emitted)
    case Sending(request, ctx, client, reach, path) =>
      s.(tasks := s.tasks[i := Travelling(request, reach, path)],
         headers := s.headers[request := ClientHeader(client, ctx, s.headers[request])])
    case Travelling(_, Lost, _) => s.(tasks := s.tasks[i := Finished])
    case Travelling(request, Served(server, p, body), path) =>
      var entered := ServerEnter(server, p, NO_SPAN, s.headers[request]);
      State(s.tasks[i := Handling(p, entered.ctx, body, 0, path)], s.headers,
            s.recorded + Emit(entered, path, Server, server.operation))
  }

  /** A step touches its own task and its own request's header. All other tasks keep
      their contexts, and all other requests keep their headers. */
  lemma StepIsLocal(s: State, i: nat)
    requires Valid(s) && i < |s.tasks|
    ensures Valid(Step(s, i))
    ensures forall j :: 0 <= j < |s.tasks| && j != i ==> Step(s, i).tasks[j] == s.tasks[j]
    ensures forall q :: 0 <= q < |s.headers| && !(s.tasks[i].Sending? && s.tasks[i].request == q) ==>
              Step(s, i).headers[q] == s.headers[q]
    ensures forall j :: 0 <= j < |s.tasks| && j != i && HasRequest(s.tasks[j]) ==>
              Step(s, i).headers[s.tasks[j].request] == s.headers[s.tasks[j].request]
  {
  }

  // ----- what is still to be recorded -------------------------------------------------

  ghost function Pending(t: Task, headers: seq<Header>): multiset<Record>
    requires ValidTask(t, headers)
  {
    match t
    case Handling(p, ctx, works, next, prefix) => multiset(RunFrom(p, ctx, works, next, prefix))
    case Sending(request, ctx, client, reach, path) =>
      multiset(RunReach(ClientHeader(client, ctx, headers[request]), reach, path))
    case Travelling(request, reach, path) => multiset(RunReach(headers[request], reach, path))
    case Finished => multiset{}
  }

  ghost function Sum<T>(parts: seq<multiset<T>>): multiset<T> {
    if parts == [] then multiset{} else Sum(parts[..|parts| - 1]) + parts[|parts| - 1]
  }

  lemma Regroup<T>(a: multiset<T>, b: multiset<T>, c: multiset<T>, d: multiset<T>, more: multiset<T>)
    requires a + b == c + d
    ensures (a + more) + b == (c + more) + d
  {
    assert (a + more) + b == (a + b) + more;
    assert (c + more) + d == (c + d) + more;
  }

  lemma {:induction false} SumUpdate<T>(parts: seq<multiset<T>>, i: nat, part: multiset<T>)
    requires i < |parts|
    ensures Sum(parts[i := part]) + parts[i] == Sum(parts) + part
  {
    var last := |parts| - 1;
    if i == last {
      assert parts[i := part][..last] == parts[..last];
    } else {
      var updated := parts[i := part];
      assert updated[..last] == parts[..last][i := part];
      SumUpdate(parts[..last], i, part);
      var rest := parts[..last];
      Regroup(Sum(rest[i := part]), parts[i], Sum(rest), part, parts[last]);
    }
  }

  lemma SumAppend<T>(parts: seq<multiset<T>>, part: multiset<T>)
    ensures Sum(parts + [part]) == Sum(parts) + part
  {
    assert (parts + [part])[..|parts|] == parts;
  }

  // What each task will still record.
  ghost function Parts(s: State): seq<multiset<Record>>
    requires Valid(s)
  {
    seq(|s.tasks|, i requires 0 <= i < |s.tasks| => Pending(s.tasks[i], s.headers))
  }

  // What a step records itself, and what the task it adds, if any, will record.
  ghost function Recorded(s: State, s': State): multiset<Record>
    requires |s.recorded| <= |s'.recorded|
  {
    multiset(s'.recorded[|s.recorded|..])
  }

  ghost function Added(s: State, s': State): multiset<Record>
    requires Valid(s') && |s.tasks| <= |s'.tasks| <= |s.tasks| + 1
  {
    if |s'.tasks| == |s.tasks| then multiset{} else Pending(s'.tasks[|s.tasks|], s'.headers)
  }

  // The step passes on what its task had pending: recorded, kept or handed over.
  lemma StepHandsOver(s: State, i: nat)
    requires Valid(s) && i < |s.tasks|
    ensures var s' := Step(s, i);
            && s.recorded <= s'.recorded && Valid(s') && |s.tasks| <= |s'.tasks| <= |s.tasks| + 1
            && Pending(s.tasks[i], s.headers) == Recorded(s, s') + Pending(s'.tasks[i], s'.headers) + Added(s, s')
  {
    StepIsLocal(s, i);
    var t, s' := s.tasks[i], Step(s, i);
    match t
    case Finished =>
    case Handling(p, ctx, works, next, prefix) =>
      if next < |works| {
        HandlingHandsOver(s, i);
      }
    case Sending(_, _, _, _, _) =>
    case Travelling(request, Lost, path) =>
    case Travelling(request, Served(server, p, body), path) =>
      var entered := ServerEnter(server, p, NO_SPAN, s.headers[request]);
      var emitted := Emit(entered, path, Server, server.operation);
      assert s'.recorded[|s.recorded|..] == emitted;
      assert RunReach(s.headers[request], t.reach, path) == emitted + RunFrom(p, entered.ctx, body, 0, path);
  }

  lemma HandlingHandsOver(s: State, i: nat)
    requires Valid(s) && i < |s.tasks| && s.tasks[i].Handling? && s.tasks[i].next < |s.tasks[i].works|
    ensures var s' := Step(s, i);
            && s.recorded <= s'.recorded && Valid(s') && |s'.tasks| == |s.tasks| + 1
            && Pending(s.tasks[i], s.headers) == Recorded(s, s') + Pending(s'.tasks[i], s'.headers) + Added(s, s')
  {
    StepIsLocal(s, i);
    var t, s' := s.tasks[i], Step(s, i);
    var path := t.prefix + [t.next];
    var w := t.works[t.next];
    var now, later := RunWork(t.provider, t.ctx, w, path), RunFrom(t.provider, t.ctx, t.works, t.next + 1, t.prefix);
    assert RunFrom(t.provider, t.ctx, t.works, t.next, t.prefix) == now + later;
    StartedWork(t.provider, t.ctx, w, path, s.headers);
    var (emitted, started, headers) := Start(t.provider, t.ctx, w, path, s.headers);
    assert s'.recorded == s.recorded + emitted;
    assert s'.recorded[|s.recorded|..] == emitted;
    assert s'.headers == headers && s'.tasks[|s.tasks|] == started;
    assert multiset(now + later) == (multiset(emitted) + Pending(started, headers)) + multiset(later);
  }

  // Starting a work item splits what it records into its own span and what is pending.
  lemma StartedWork(p: Provider, ctx: SpanContext, w: Work, path: seq<nat>, headers: seq<Header>)
    ensures var (emitted, started, headers') := Start(p, ctx, w, path, headers);
            && ValidTask(started, headers')
            && multiset(RunWork(p, ctx, w, path)) == multiset(emitted) + Pending(started, headers')
  {
    match w
    case Local(name, ids, body) =>
      var entered := StartSpan(p, ctx, ids);
      assert RunWork(p, ctx, w, path) == Emit(entered, path, Internal, name) + RunFrom(p, entered.ctx, body, 0, path);
    case Call(client, preset, reach) =>
      var entered := ClientEnter(client, p, ctx);
      assert RunWork(p, ctx, w, path)
          == Emit(entered, path, Client, client.operation)
           + RunReach(ClientHeader(client, entered.ctx, preset), reach, path);
  }

  // Other tasks have the same pending after the step as before.
  lemma StepKeepsParts(s: State, i: nat)
    requires Valid(s) && i < |s.tasks|
    ensures var s' := Step(s, i);
            && Valid(s') && |s.tasks| <= |s'.tasks| <= |s.tasks| + 1
            && var kept := Parts(s)[i := Pending(s'.tasks[i], s'.headers)];
               Parts(s') == if |s'.tasks| == |s.tasks| then kept else kept + [Added(s, s')]
  {
    StepIsLocal(s, i);
    var s' := Step(s, i);
    forall j | 0 <= j < |s.tasks| && j != i ensures Pending(s'.tasks[j], s'.headers) == Pending(s.tasks[j], s.headers) {
      assert ValidTask(s'.tasks[j], s'.headers);
    }
  }

  lemma HandOver<T>(recorded: multiset<T>, emitted: multiset<T>, parts: seq<multiset<T>>, i: nat, part: multiset<T>,
                    added: multiset<T>)
    requires i < |parts| && parts[i] == emitted + part + added
    ensures (recorded + emitted) + (Sum(parts[i := part]) + added) == recorded + Sum(parts)
    ensures Sum(parts[i := part] + [added]) == Sum(parts[i := part]) + added
  {
    var total := Sum(parts[i := part]);
    SumUpdate(parts, i, part);
    SumAppend(parts[i := part], added);
    calc {
      ((recorded + emitted) + (total + added)) + part;
      recorded + (total + (emitted + part + added));
      recorded + (Sum(parts) + part);
      (recorded + Sum(parts)) + part;
    }
    Cancel((recorded + emitted) + (total + added), recorded + Sum(parts), part);
  }

  lemma Cancel<T>(a: multiset<T>, b: multiset<T>, c: multiset<T>)
    requires a + c == b + c
    ensures a == b
  {
    forall x: T | x in a + b ensures a[x] == b[x] {
      assert (a + c)[x] == (b + c)[x];
    }
  }

  lemma RecordedConcat<T>(before: seq<T>, after: seq<T>)
    requires before <= after
    ensures multiset(after) == multiset(before) + multiset(after[|before|..])
  {
    assert after == before + after[|before|..];
  }

  /** Conservation: what is recorded and what is pending add up to the same multiset
      before and after every step. */
  lemma StepConserves(s: State, i: nat)
    requires Valid(s) && i < |s.tasks|
    ensures Valid(Step(s, i))
    ensures multiset(Step(s, i).recorded) + Sum(Parts(Step(s, i))) == multiset(s.recorded) + Sum(Parts(s))
  {
    StepHandsOver(s, i);
    StepKeepsParts(s, i);
    Conserves(s, Step(s, i), i);
  }

  lemma Conserves(s: State, s': State, i: nat)
    requires Valid(s) && Valid(s') && i < |s.tasks| <= |s'.tasks| <= |s.tasks| + 1 && s.recorded <= s'.recorded
    requires Pending(s.tasks[i], s.headers) == Recorded(s, s') + Pending(s'.tasks[i], s'.headers) + Added(s, s')
    requires var kept := Parts(s)[i := Pending(s'.tasks[i], s'.headers)];
             Parts(s') == if |s'.tasks| == |s.tasks| then kept else kept + [Added(s, s')]
    ensures multiset(s'.recorded) + Sum(Parts(s')) == multiset(s.recorded) + Sum(Parts(s))
  {
    RecordedConcat(s.recorded, s'.recorded);
    HandOver(multiset(s.recorded), Recorded(s, s'), Parts(s), i, Pending(s'.tasks[i], s'.headers), Added(s, s'));
  }

  // ----- every interleaving --------------------------------------------------------------

  // A schedule names the task that steps next; a name that does not exist is skipped.
  ghost function RunSchedule(s: State, schedule: seq<nat>): (s': State)
    requires Valid(s)
    ensures Valid(s')
  {
    if schedule == [] then s
    else
      var before := RunSchedule(s, schedule[..|schedule| - 1]);
      var i := schedule[|schedule| - 1];
      if i < |before.tasks| then StepIsLocal(before, i); Step(before, i) else before
  }

  predicate AllFinished(s: State) {
    forall i :: 0 <= i < |s.tasks| ==> s.tasks[i].Finished?
  }

  lemma {:induction false} ScheduleConserves(s: State, schedule: seq<nat>)
    requires Valid(s)
    ensures var s' := RunSchedule(s, schedule);
            multiset(s'.recorded) + Sum(Parts(s')) == multiset(s.recorded) + Sum(Parts(s))
  {
    if schedule != [] {
      var before := RunSchedule(s, schedule[..|schedule| - 1]);
      var i := schedule[|schedule| - 1];
      ScheduleConserves(s, schedule[..|schedule| - 1]);
      if i < |before.tasks| {
        StepConserves(before, i);
      }
    }
  }

  lemma {:induction false} NothingPendingWhenFinished(s: State, n: nat)
    requires Valid(s) && AllFinished(s) && n <= |s.tasks|
    ensures Sum(Parts(s)[..n]) == multiset{}
  {
    if n > 0 {
      assert Parts(s)[..n][..n - 1] == Parts(s)[..n - 1];
      NothingPendingWhenFinished(s, n - 1);
    }
  }

  lemma InitialPending(p: Provider, ctx: SpanContext, works: seq<Work>)
    ensures Sum(Parts(Initial(p, ctx, works))) == multiset(Run(p, ctx, works))
  {
    var whole := multiset(Run(p, ctx, works));
    assert Parts(Initial(p, ctx, works)) == [] + [whole];
    SumAppend([], whole);
  }

  /** In every state that any interleaving reaches, the recorded spans are among those of
      the sequential run; once all tasks are finished they are exactly those. The set of
      spans does not depend on the order in which concurrent calls proceed. */
  lemma InterleavingsRecordTheSameSpans(p: Provider, ctx: SpanContext, works: seq<Work>, schedule: seq<nat>)
    ensures var s := RunSchedule(Initial(p, ctx, works), schedule);
            && multiset(s.recorded) <= multiset(Run(p, ctx, works))
            && (AllFinished(s) ==> multiset(s.recorded) == multiset(Run(p, ctx, works)))
  {
    var s0 := Initial(p, ctx, works);
    InitialPending(p, ctx, works);
    ScheduleConserves(s0, schedule);
    ReachedConserved(s0, RunSchedule(s0, schedule));
  }

  lemma ReachedConserved(s0: State, s: State)
    requires Valid(s0) && Valid(s) && s0.recorded == []
    requires multiset(s.recorded) + Sum(Parts(s)) == multiset(s0.recorded) + Sum(Parts(s0))
    ensures multiset(s.recorded) <= Sum(Parts(s0))
    ensures AllFinished(s) ==> multiset(s.recorded) == Sum(Parts(s0))
  {
    var recorded, pending := multiset(s.recorded), Sum(Parts(s));
    assert multiset(s0.recorded) == multiset{};
    assert recorded <= recorded + pending;
    if AllFinished(s) {
      assert Parts(s)[..|s.tasks|] == Parts(s);
      NothingPendingWhenFinished(s, |s.tasks|);
    }
  }

  /** No schedule ever records a span at or below a call whose client side matches a rule,
      as far as the hops below it hold; not in passing either. */
  lemma ExcludedClientIsSilentInEveryInterleaving(
    p: Provider, ctx: SpanContext, works: seq<Work>, path: seq<nat>, schedule: seq<nat>, r: Record)
    requires Proper(ctx)
    requires WorkAt(works, path).Some? && WorkAt(works, path).value.Call?
    requires var e := WorkAt(works, path).value.client;
             && e.enableTracing && e.rules.Some?
             && var rules, op := e.rules.value, TrimSpace(e.operation);
                && op != ""
                && (|| (exists i :: 0 <= i < |rules.operations| && TrimSpace(rules.operations[i]) == op)
                    || (exists j :: 0 <= j < |rules.prefixes| && TrimSpace(rules.prefixes[j]) != ""
                                    && TrimSpace(rules.prefixes[j]) <= op))
    requires Under(path, r.path) && OverHops(WorkAt(works, path).value, Relative(r, path).path, r.kind)
    ensures r !in RunSchedule(Initial(p, ctx, works), schedule).recorded
  {
    InterleavingsRecordTheSameSpans(p, ctx, works, schedule);
    ExcludedClientSilencesItsSubtree(p, ctx, works, path, r);
    InRecorded(RunSchedule(Initial(p, ctx, works), schedule).recorded, Run(p, ctx, works), r);
  }

  lemma ExcludedServerIsSilentInEveryInterleaving(
    p: Provider, ctx: SpanContext, works: seq<Work>, path: seq<nat>, schedule: seq<nat>, r: Record)
    requires Proper(ctx)
    requires WorkAt(works, path).Some? && WorkAt(works, path).value.Call? && WorkAt(works, path).value.reach.Served?
    requires var e := WorkAt(works, path).value.reach.server;
             && e.enableTracing && e.rules.Some?
             && var rules, op := e.rules.value, TrimSpace(e.operation);
                && op != ""
                && (|| (exists i :: 0 <= i < |rules.operations| && TrimSpace(rules.operations[i]) == op)
                    || (exists j :: 0 <= j < |rules.prefixes| && TrimSpace(rules.prefixes[j]) != ""
                                    && TrimSpace(rules.prefixes[j]) <= op))
    requires Under(path, r.path) && OverHops(WorkAt(works, path).value, Relative(r, path).path, r.kind)
    ensures r in RunSchedule(Initial(p, ctx, works), schedule).recorded ==> r.path == path && r.kind == Client
  {
    InterleavingsRecordTheSameSpans(p, ctx, works, schedule);
    ExcludedServerSilencesItsSubtree(p, ctx, works, path, r);
    InRecorded(RunSchedule(Initial(p, ctx, works), schedule).recorded, Run(p, ctx, works), r);
  }

  lemma InRecorded(recorded: seq<Record>, all: seq<Record>, r: Record)
    requires multiset(recorded) <= multiset(all)
    ensures r in recorded ==> r in all
  {
    if r in recorded {
      assert r in multiset(recorded);
      assert multiset(recorded)[r] <= multiset(all)[r];
    }
  }

  /** Two finished runs of trees that differ only at one node, under any two schedules,
      record the same spans outside that node's subtree, each the same number of times. */
  lemma SuppressionIsLocalInEveryInterleaving(
    p: Provider, ctx: SpanContext, works: seq<Work>, path: seq<nat>, w: Work,
    schedule: seq<nat>, schedule': seq<nat>, r: Record)
    requires Proper(ctx) && WorkAt(works, path).Some? && !Under(path, r.path)
    requires AllFinished(RunSchedule(Initial(p, ctx, works), schedule))
    requires AllFinished(RunSchedule(Initial(p, ctx, ReplaceAt(works, path, w)), schedule'))
    ensures multiset(RunSchedule(Initial(p, ctx, works), schedule).recorded)[r]
         == multiset(RunSchedule(Initial(p, ctx, ReplaceAt(works, path, w)), schedule').recorded)[r]
  {
    var works' := ReplaceAt(works, path, w);
    InterleavingsRecordTheSameSpans(p, ctx, works, schedule);
    InterleavingsRecordTheSameSpans(p, ctx, works', schedule');
    SuppressionIsLocal(p, ctx, works, path, w, r);
    RunFromIsDistinct(p, ctx, works, 0, []);
    RunFromIsDistinct(p, ctx, works', 0, []);
    DistinctCount(Run(p, ctx, works), r);
    DistinctCount(Run(p, ctx, works'), r);
  }

  lemma {:induction false} DistinctCount<T>(s: seq<T>, x: T)
    requires Distinct(s)
    ensures multiset(s)[x] == if x in s then 1 else 0
  {
    if s != [] {
      DistinctCount(s[1..], x);
      assert s == [s[0]] + s[1..];
    }
  }

  // ----- every run ends -----------------------------------------------------------------

  function StepsFrom(works: seq<Work>, k: nat): nat
    requires k <= |works|
    decreases works, |works| - k
  {
    if k == |works| then 1 else StepsOf(works[k]) + StepsFrom(works, k + 1)
  }

  function StepsOf(w: Work): nat
    decreases w, 0
  {
    match w
    case Local(_, _, body) => 1 + StepsFrom(body, 0)
    case Call(_, _, reach) => 2 + StepsToReach(reach)
  }

  function StepsToReach(reach: Reach): nat
    decreases reach, 0
  {
    match reach
    case Lost => 1
    case Served(_, _, body) => 1 + StepsFrom(body, 0)
  }

  function StepsLeft(t: Task): nat
    requires t.Handling? ==> t.next <= |t.works|
  {
    match t
    case Handling(_, _, works, next, _) => StepsFrom(works, next)
    case Sending(_, _, _, reach, _) => 1 + StepsToReach(reach)
    case Travelling(_, reach, _) => StepsToReach(reach)
    case Finished => 0
  }

  function StepsLeftIn(tasks: seq<Task>): nat
    requires forall i :: 0 <= i < |tasks| ==> tasks[i].Handling? ==> tasks[i].next <= |tasks[i].works|
  {
    if tasks == [] then 0 else StepsLeftIn(tasks[..|tasks| - 1]) + StepsLeft(tasks[|tasks| - 1])
  }

  lemma {:induction false} StepsLeftUpdate(tasks: seq<Task>, i: nat, t: Task)
    requires forall i :: 0 <= i < |tasks| ==> tasks[i].Handling? ==> tasks[i].next <= |tasks[i].works|
    requires i < |tasks| && (t.Handling? ==> t.next <= |t.works|)
    ensures StepsLeftIn(tasks[i := t]) == StepsLeftIn(tasks) - StepsLeft(tasks[i]) + StepsLeft(t)
  {
    var last, updated := |tasks| - 1, tasks[i := t];
    if i == last {
      assert updated[..last] == tasks[..last];
    } else {
      assert updated[..last] == tasks[..last][i := t];
      StepsLeftUpdate(tasks[..last], i, t);
    }
  }

  // The steps of a task go to its next form and to the task it adds, less the one taken.
  lemma StepsSplit(s: State, i: nat)
    requires Valid(s) && i < |s.tasks| && !s.tasks[i].Finished?
    ensures var s' := Step(s, i);
            && Valid(s') && |s.tasks| <= |s'.tasks| <= |s.tasks| + 1
            && StepsLeft(s'.tasks[i]) + (if |s'.tasks| > |s.tasks| then StepsLeft(s'.tasks[|s.tasks|]) else 0)
               == StepsLeft(s.tasks[i]) - 1
  {
    StepIsLocal(s, i);
    var t := s.tasks[i];
    if t.Handling? && t.next < |t.works| {
      assert StepsFrom(t.works, t.next) == StepsOf(t.works[t.next]) + StepsFrom(t.works, t.next + 1);
    }
  }

  /** Every step of a task that is not finished uses up exactly one of the steps that the
      tree still allows, so every run that keeps going ends with all tasks finished,
      after a number of steps that does not depend on the schedule. */
  lemma StepMakesProgress(s: State, i: nat)
    requires Valid(s) && i < |s.tasks| && !s.tasks[i].Finished?
    ensures Valid(Step(s, i))
    ensures StepsLeftIn(Step(s, i).tasks) == StepsLeftIn(s.tasks) - 1
  {
    StepIsLocal(s, i);
    StepsSplit(s, i);
    OtherStepsStay(s.tasks, Step(s, i).tasks, i);
  }

  lemma OtherStepsStay(tasks: seq<Task>, tasks': seq<Task>, i: nat)
    requires i < |tasks| <= |tasks'| <= |tasks| + 1
    requires forall j :: 0 <= j < |tasks| && j != i ==> tasks'[j] == tasks[j]
    requires forall j :: 0 <= j < |tasks| ==> tasks[j].Handling? ==> tasks[j].next <= |tasks[j].works|
    requires forall j :: 0 <= j < |tasks'| ==> tasks'[j].Handling? ==> tasks'[j].next <= |tasks'[j].works|
    ensures StepsLeftIn(tasks') == StepsLeftIn(tasks) - StepsLeft(tasks[i]) + StepsLeft(tasks'[i])
                                   + (if |tasks'| > |tasks| then StepsLeft(tasks'[|tasks|]) else 0)
  {
    assert tasks'[..|tasks|] == tasks[i := tasks'[i]];
    StepsLeftUpdate(tasks, i, tasks'[i]);
    if |tasks'| == |tasks| {
      assert tasks' == tasks'[..|tasks|];
    }
  }

  lemma {:induction false} FinishedExactlyWhenNoStepsLeft(tasks: seq<Task>)
    requires forall i :: 0 <= i < |tasks| ==> tasks[i].Handling? ==> tasks[i].next <= |tasks[i].works|
    ensures StepsLeftIn(tasks) == 0 <==> forall i :: 0 <= i < |tasks| ==> tasks[i].Finished?
  {
    if tasks != [] {
      var last := |tasks| - 1;
      FinishedExactlyWhenNoStepsLeft(tasks[..last]);
      StepsArePositive(tasks[last]);
      assert forall i :: 0 <= i < last ==> tasks[..last][i] == tasks[i];
    }
  }

  lemma StepsArePositive(t: Task)
    requires t.Handling? ==> t.next <= |t.works|
    ensures StepsLeft(t) == 0 <==> t.Finished?
  {
    if t.Handling? {
      HandlingStepsArePositive(t.works, t.next);
    }
  }

  lemma {:induction false} HandlingStepsArePositive(works: seq<Work>, k: nat)
    requires k <= |works|
    ensures StepsFrom(works, k) > 0
    decreases |works| - k
  {
    if k < |works| {
      HandlingStepsArePositive(works, k + 1);
    }
  }

  // The schedule never names a finished or missing task.
  ghost predicate Busy(s: State, schedule: seq<nat>)
    requires Valid(s)
  {
    schedule != [] ==>
      && Busy(s, schedule[..|schedule| - 1])
      && var before := RunSchedule(s, schedule[..|schedule| - 1]);
         var i := schedule[|schedule| - 1];
         i < |before.tasks| && !before.tasks[i].Finished?
  }

  /** A run that never idles has as many steps as the tree needs if and only if it has
      finished everything, that is, cannot go on; it can never take more. */
  lemma {:induction false} EveryBusyRunEnds(p: Provider, ctx: SpanContext, works: seq<Work>, schedule: seq<nat>)
    requires Busy(Initial(p, ctx, works), schedule)
    ensures var s := RunSchedule(Initial(p, ctx, works), schedule);
            && |schedule| + StepsLeftIn(s.tasks) == StepsFrom(works, 0)
            && (AllFinished(s) <==> |schedule| == StepsFrom(works, 0))
            && (AllFinished(s) <==> forall i: nat :: !Busy(Initial(p, ctx, works), schedule + [i]))
  {
    var s0 := Initial(p, ctx, works);
    var s := RunSchedule(s0, schedule);
    if schedule == [] {
      assert s0.tasks[..0] == [];
    } else {
      EveryBusyRunEnds(p, ctx, works, schedule[..|schedule| - 1]);
      StepMakesProgress(RunSchedule(s0, schedule[..|schedule| - 1]), schedule[|schedule| - 1]);
    }
    FinishedExactlyWhenNoStepsLeft(s.tasks);
    forall i: nat ensures Busy(s0, schedule + [i]) <==> i < |s.tasks| && !s.tasks[i].Finished? {
      assert (schedule + [i])[..|schedule|] == schedule;
    }
    if i: nat :| i < |s.tasks| && !s.tasks[i].Finished? {
      assert Busy(s0, schedule + [i]);
    }
  }
}
