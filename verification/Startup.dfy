// The start-up context of context.go: registration, lookup and Run, with the stages of
// bootstrap.go that Run goes through.
module Startup {
  import opened Wrappers
  import opened CustomConfigs
  import AppIdentity
  import MetricsConfig
  import MetricsSetup
  import TracerProvider

  // ----- the registry as a value ------------------------------------------------------

  // What RegisterCustomConfig may be given for a proto.Message.
  datatype Target = NilInterface | NilPointer | NotAPointer | Pointer(message: Message)

  datatype RegisterError = EmptyKey | InvalidTarget | AfterRun | Duplicate

  datatype Lookup = Found(message: Message) | NotFound | TypeMismatch

  // The registry and whether the configuration has been loaded.
  datatype Registry = Registry(configs: map<string, Message>, loaded: bool)

  datatype Operation =
    | Register(key: string, target: Target)
    | RunLoads          // a Run that got through DoBootstrap
    | RunFailsToLoad    // a Run that panicked in DoBootstrap
    | Get(key: string)

  function Rejection(r: Registry, key: string, target: Target): Option<RegisterError> {
    if key == "" then Some(EmptyKey)
    else if !target.Pointer? then Some(InvalidTarget)
    else if r.loaded then Some(AfterRun)
    else if key in r.configs then Some(Duplicate)
    else None
  }

  function Apply(r: Registry, op: Operation): Registry {
    match op
    case Register(key, target) =>
      if Rejection(r, key, target).Some? then r else r.(configs := r.configs[key := target.message])
    case RunLoads => r.(loaded := true)
    case RunFailsToLoad => r
    case Get(_) => r
  }

  function ApplyAll(ops: seq<Operation>): Registry {
    if ops == [] then Registry(map[], false) else Apply(ApplyAll(ops[..|ops| - 1]), ops[|ops| - 1])
  }

  lemma OneMore(ops: seq<Operation>, op: Operation)
    ensures ApplyAll(ops + [op]) == Apply(ApplyAll(ops), op)
  {
    assert (ops + [op])[..|ops|] == ops;
  }

  // The configuration has not been loaded before operation i.
  predicate OpenBefore(ops: seq<Operation>, i: nat) {
    forall j :: 0 <= j < i && j < |ops| ==> !ops[j].RunLoads?
  }

  predicate Offers(op: Operation, key: string) {
    op.Register? && op.key == key && op.target.Pointer?
  }

  // The first operation that offers a usable target for the key.
  function FirstOffer(ops: seq<Operation>, key: string): (i: nat)
    ensures i <= |ops|
    ensures forall j :: 0 <= j < i ==> !Offers(ops[j], key)
    ensures i < |ops| ==> Offers(ops[i], key)
  {
    if ops == [] then 0
    else
      var last := |ops| - 1;
      var i := FirstOffer(ops[..last], key);
      if i < last || Offers(ops[last], key) then i else |ops|
  }

  lemma FirstOfferOfPrefix(ops: seq<Operation>, key: string)
    requires ops != []
    ensures var last, i := |ops| - 1, FirstOffer(ops[..|ops| - 1], key);
            FirstOffer(ops, key) == if i < last then i else if Offers(ops[last], key) then last else |ops|
  {
  }

  /** After every sequence of registrations, runs and lookups: a key is in the registry
      exactly when it is not empty and the first usable target offered for it came before
      any configuration was loaded, and then it leads to that very message. Rejected
      registrations, lookups and failed runs leave no trace. */
  lemma {:induction false} RegistryHoldsFirstOffers(ops: seq<Operation>, key: string)
    ensures var i := FirstOffer(ops, key);
            && (key in ApplyAll(ops).configs <==> key != "" && i < |ops| && OpenBefore(ops, i))
            && (key in ApplyAll(ops).configs ==> ApplyAll(ops).configs[key] == ops[i].target.message)
    ensures ApplyAll(ops).loaded <==> !OpenBefore(ops, |ops|)
  {
    if ops != [] {
      var last := |ops| - 1;
      RegistryHoldsFirstOffers(ops[..last], key);
      FirstOfferOfPrefix(ops, key);
      var i := FirstOffer(ops[..last], key);
      assert OpenBefore(ops[..last], i) <==> OpenBefore(ops, i);
      assert OpenBefore(ops[..last], last) <==> OpenBefore(ops, last);
      assert OpenBefore(ops, |ops|) <==> OpenBefore(ops, last) && !ops[last].RunLoads?;
    }
  }

  /** The documentation has registration end with Run. It ends with a run that loads; after one
      that fails to load it goes on. */
  lemma FailedRunLeavesRegistrationOpen(key: string, m: Message)
    requires key != ""
    ensures ApplyAll([RunFailsToLoad, Register(key, Pointer(m))]) == Registry(map[key := m], false)
    ensures ApplyAll([RunLoads, Register(key, Pointer(m))]) == Registry(map[], true)
  {
    var failed, loaded := [RunFailsToLoad, Register(key, Pointer(m))], [RunLoads, Register(key, Pointer(m))];
    assert failed[..1] == [RunFailsToLoad] && loaded[..1] == [RunLoads];
    assert [RunFailsToLoad][..0] == [] && [RunLoads][..0] == [];
    assert ApplyAll([RunFailsToLoad]) == Registry(map[], false);
    assert ApplyAll([RunLoads]) == Registry(map[], true);
  }

  // No key is offered two different usable targets, and nothing is loaded in between.
  ghost predicate OneTargetPerKey(ops: seq<Operation>) {
    && RunLoads !in ops
    && forall x, y, key :: x in ops && y in ops && Offers(x, key) && Offers(y, key) ==> x.target == y.target
  }

  // ops by whether anything offers the key, and what.
  lemma RegistryByOffers(ops: seq<Operation>, key: string)
    requires OneTargetPerKey(ops)
    ensures key in ApplyAll(ops).configs <==> key != "" && exists op :: op in ops && Offers(op, key)
    ensures forall op :: op in ops && Offers(op, key) && key != "" ==> ApplyAll(ops).configs[key] == op.target.message
    ensures !ApplyAll(ops).loaded
  {
    RegistryHoldsFirstOffers(ops, key);
    var i := FirstOffer(ops, key);
    assert forall j :: 0 <= j < |ops| ==> ops[j] in ops;
    if i < |ops| {
      assert Offers(ops[i], key);
    } else {
      forall op | op in ops ensures !Offers(op, key) {
        var j :| 0 <= j < |ops| && ops[j] == op;
      }
    }
  }

  /** The order of registrations does not matter: any two sequences of the same operations,
      in whatever order and however often repeated, make the same registry, the same
      sequence of targets and the same contents of every target, also of a message that is
      registered under two keys. */
  lemma RegistrationOrderDoesNotMatter(
    a: seq<Operation>, b: seq<Operation>, forA: seq<Message>, forB: seq<Message>, world: World,
    before: map<Message, Contents>)
    requires forall op :: op in a <==> op in b
    requires RunLoads !in a
    requires forall x, y ::
      (x in a && y in a && x.Register? && y.Register? && x.key == y.key && x.target.Pointer? && y.target.Pointer?)
      ==> x.target == y.target
    requires IsTargets(ApplyAll(a).configs, forA) && IsTargets(ApplyAll(b).configs, forB)
    requires ApplyAll(a).configs.Values <= before.Keys
    ensures ApplyAll(a) == ApplyAll(b)
    ensures forA == forB && Elements(forA) == ApplyAll(a).configs.Values
    ensures Filled(world, forA, before) == Filled(world, forB, before)
    ensures LoadSucceeds(world, forA, before) <==> LoadSucceeds(world, forB, before)
  {
    assert Elements(a) == Elements(b) && OneTargetPerKey(a);
    SameRegistry(a, b);
    TargetsAreDetermined(ApplyAll(a).configs, forA, forB);
    TargetsAreTheValues(ApplyAll(a).configs, forA);
  }

  lemma SameRegistry(a: seq<Operation>, b: seq<Operation>)
    requires Elements(a) == Elements(b) && OneTargetPerKey(a)
    ensures ApplyAll(a) == ApplyAll(b)
  {
    assert forall op :: op in a <==> op in Elements(a);
    assert forall op :: op in b <==> op in Elements(b);
    assert OneTargetPerKey(b);
    RegistryByOffers(a, "");
    RegistryByOffers(b, "");
    forall key ensures key in ApplyAll(a).configs <==> key in ApplyAll(b).configs {
      RegistryByOffers(a, key);
      RegistryByOffers(b, key);
    }
    forall key | key in ApplyAll(a).configs ensures ApplyAll(a).configs[key] == ApplyAll(b).configs[key] {
      RegistryByOffers(a, key);
      RegistryByOffers(b, key);
    }
  }

  // ----- the stages of Run -------------------------------------------------------------

  datatype Event = Printed | Load | Logger | Tracer | Metrics | InitApp | AppRun | Cleanup

  // How the caller's initApp ends: an app and perhaps a cleanup, an error, or a panic.
  datatype InitResult = App(cleanup: bool) | InitError | InitPanic
  datatype AppEnd = AppReturns | AppFails | AppPanics

  /** Everything outside this code: the loaded sources (or a failure to load them), the
      trace and metrics configuration in them, and the behaviour of libraries and app. */
  datatype World = World(
    host: AppIdentity.Env,
    loads: bool, scan: Scanner,
    trace: Option<TracerProvider.TracerConfig>, goEnv: string, traceExporterFails: bool,
    exporters: seq<MetricsConfig.ExporterType>, metricsEnv: MetricsSetup.Env,
    initApp: InitResult, app: AppEnd, cleanupPanics: bool)

  datatype RunEnd = Returns | Panics

  // tracer.NewTracerProvider refuses the configuration.
  predicate TracerFails(world: World) {
    && world.trace.Some? && !(world.trace.value.sampler < 0.0) && world.trace.value.endpoint != ""
    && (world.trace.value.batcher == "jaeger" || world.traceExporterFails)
  }

  function MetricsRequest(world: World): MetricsSetup.Request {
    MetricsSetup.Request(world.exporters, world.metricsEnv)
  }

  // The metrics are set up for the first request.
  function FirstRequest(
    before: Option<MetricsSetup.Request>, next: MetricsSetup.Request): Option<MetricsSetup.Request>
  {
    if before.Some? then before else Some(next)
  }

  // The provider after a run that went so far: the new one carries the given identity.
  ghost predicate ProviderIs(
    world: World, value: AppIdentity.Identity, entered: nat,
    before: Option<TracerProvider.Installed>, after: Option<TracerProvider.Installed>)
  {
    if entered > 3 && world.trace.Some? && !(world.trace.value.sampler < 0.0)
    then && after.Some? && after.value.ratio == world.trace.value.sampler
         && after.value.resource == TracerProvider.Resource(
              value.project, value.serviceName, value.version, value.instanceId,
              if world.trace.value.env != "" then world.trace.value.env else world.goEnv)
    else after == before
  }

  // The stages that can stop a run, in their order.
  const STAGES: seq<Event> := [Load, Logger, Tracer, Metrics, InitApp, AppRun]

  // PrintAppInfo: the identity of an app with an id is printed before anything else.
  function AfterPrinting(hasAppId: bool, stages: seq<Event>): seq<Event> {
    if hasAppId then [Printed] + stages else stages
  }

  // What a run leaves behind that entered so many stages, and that cleaned up or not.
  function RunLog(hasAppId: bool, entered: nat, cleaned: bool): seq<Event>
    requires entered <= |STAGES|
  {
    var stages := AfterPrinting(hasAppId, STAGES[..entered]);
    if cleaned then stages + [Cleanup] else stages
  }

  // The state that bootstrapping works on, by value.
  datatype Store = Store(
    contents: map<Message, Contents>, provider: Option<TracerProvider.Installed>,
    metricsUp: bool, metricsRan: Option<MetricsSetup.Request>)

  ghost function StoreOf(targets: set<Message>, otel: TracerProvider.Globals, metrics: MetricsSetup.Metrics): Store
    reads targets, otel, metrics
  {
    Store(ContentsOf(targets), otel.provider, metrics.initialized, metrics.ran)
  }

  // All stages up to metrics were entered, and the metrics are set up.
  predicate Booted(world: World, metricsUp: bool, entered: nat) {
    entered > 3 && !MetricsConfig.Conflicting(world.exporters) && metricsUp
  }

  /** The effect of bootstrapping that entered so many stages: the targets are filled up to
      the first error, the provider carries the identity, and the metrics are set up for the
      first request. */
  ghost predicate Bootstrapped(
    world: World, identity: AppIdentity.Identity, targets: seq<Message>, before: Store, after: Store, entered: nat)
  {
    && Elements(targets) == before.contents.Keys
    && (entered > 1 <==> LoadSucceeds(world, targets, before.contents))
    && after.contents == Filled(world, targets, before.contents)
    && (entered > 3 <==> entered > 1 && !TracerFails(world))
    && ProviderIs(world, identity, entered, before.provider, after.provider)
    && (Booted(world, after.metricsUp, entered) ==>
          after.metricsRan == FirstRequest(before.metricsRan, MetricsRequest(world)))
  }

  class Context {
    var appInfo: AppIdentity.AppInfo
    var customConfigs: map<string, Message>
    var config: Option<Message>
    // The registrations and runs so far.
    ghost var past: seq<Operation>

    // The registry is what its past makes of it.
    ghost predicate Valid()
      reads this
    {
      View() == ApplyAll(past)
    }

    function View(): Registry
      reads this
    {
      Registry(customConfigs, config.Some?)
    }

    // NewContext: the identity is normalised and shares nothing with the argument.
    constructor (info: AppIdentity.AppInfo?, env: AppIdentity.Env)
      ensures Valid() && past == [] && View() == Registry(map[], false)
      ensures fresh(appInfo) && appInfo.metadata != null && fresh(appInfo.metadata)
      ensures appInfo.View() == AppIdentity.Normalized(old(AppIdentity.ViewOf(info)), env)
    {
      var normalized := AppIdentity.NormalizeAppInfo(info, env);
      appInfo := normalized;
      customConfigs, config, past := map[], None, [];
    }

    // RegisterCustomConfig; an error stands for the panic it raises.
    method RegisterCustomConfig(key: string, target: Target) returns (rejected: Option<RegisterError>)
      requires Valid()
      modifies this`customConfigs, this`past
      ensures Valid() && past == old(past) + [Register(key, target)]
      ensures rejected == Rejection(old(View()), key, target)
      ensures View() == Apply(old(View()), Register(key, target))
      // The first objection counts.
      ensures rejected == Some(EmptyKey) <==> key == ""
      ensures rejected == Some(InvalidTarget) <==> key != "" && !target.Pointer?
      ensures rejected == Some(AfterRun) <==> key != "" && target.Pointer? && config.Some?
      ensures rejected == Some(Duplicate) <==>
                key != "" && target.Pointer? && config.None? && key in old(customConfigs)
      ensures customConfigs == if rejected.Some? then old(customConfigs) else old(customConfigs)[key := target.message]
    {
      OneMore(past, Register(key, target));
      past := past + [Register(key, target)];
      if key == "" {
        return Some(EmptyKey);
      }
      if !target.Pointer? {
        return Some(InvalidTarget);
      }
      if config.Some? {
        return Some(AfterRun);
      }
      if key in customConfigs {
        return Some(Duplicate);
      }
      customConfigs := customConfigs[key := target.message];
      rejected := None;
    }

    /** So at any time every key leads to the first usable target that was offered for it, if
        no configuration had been loaded by then, and no target is under the empty key. */
    lemma KeyHoldsFirstOffer(key: string, m: Message)
      requires Valid()
      ensures key in customConfigs && customConfigs[key] == m <==>
                && key != ""
                && exists i ::
                     && 0 <= i < |past| && past[i] == Register(key, Pointer(m)) && RunLoads !in past[..i]
                     && forall j :: 0 <= j < i ==> !(past[j].Register? && past[j].key == key && past[j].target.Pointer?)
      ensures config.Some? <==> RunLoads in past
    {
      RegistryHoldsFirstOffers(past, key);
      assert OpenBefore(past, |past|) <==> RunLoads !in past;
      var i := FirstOffer(past, key);
      if i < |past| {
        assert OpenBefore(past, i) <==> RunLoads !in past[..i];
        assert past[i] == Register(key, Pointer(past[i].target.message));
      }
      if k: nat :|
        && k < |past| && past[k] == Register(key, Pointer(m)) && RunLoads !in past[..k]
        && forall j :: 0 <= j < k ==> !(past[j].Register? && past[j].key == key && past[j].target.Pointer?)
      {
        assert Offers(past[k], key) && k == i;
      }
    }

    // GetCustomConfig for a type argument, which is a message type or an interface: `admits`
    // says which message types are assignable to it.
    method GetCustomConfig(key: string, admits: string -> bool) returns (found: Lookup)
      ensures found.NotFound? <==> key !in customConfigs
      ensures found.TypeMismatch? <==> key in customConfigs && !admits(customConfigs[key].typeName)
      ensures found.Found? ==> found.message == customConfigs[key] && admits(found.message.typeName)
    {
      if key !in customConfigs {
        return NotFound;
      }
      var message := customConfigs[key];
      if !admits(message.typeName) {
        return TypeMismatch;
      }
      found := Found(message);
    }

    // customConfigTargets: the keys come out of the map in any order.
    method CustomConfigTargets() returns (targets: seq<Message>)
      ensures IsTargets(customConfigs, targets) && Elements(targets) == customConfigs.Values
    {
      var keys, left := [], customConfigs.Keys;
      while left != {}
        invariant forall i, j :: 0 <= i < j < |keys| ==> keys[i] != keys[j]
        invariant Elements(keys) !! left && Elements(keys) + left == customConfigs.Keys
        decreases left
      {
        var key :| key in left;
        ghost var before := keys;
        keys, left := keys + [key], left - {key};
        assert Elements(keys) == Elements(before) + {key};
      }
      keys := SortStrings(keys);
      targets := [];
      for i := 0 to |keys|
        invariant |targets| == i
        invariant forall k :: 0 <= k < i ==> keys[k] in customConfigs && targets[k] == customConfigs[keys[k]]
      {
        assert keys[i] in Elements(keys);
        targets := targets + [customConfigs[keys[i]]];
      }
      assert targets == InOrder(customConfigs, keys);
      TargetsAreTheValues(customConfigs, targets);
    }

    // AppInfoFromContext: a copy, so that its holder cannot reach the context's own.
    method AppInfoFromContext() returns (info: AppIdentity.AppInfo?)
      ensures info != null && fresh(info) && (info.metadata != null ==> fresh(info.metadata))
      ensures info.View() == appInfo.View()
    {
      info := AppIdentity.CloneAppInfo(appInfo);
    }

    // DoBootstrap with the custom targets of the registry.
    method Load(world: World, otel: TracerProvider.Globals, metrics: MetricsSetup.Metrics)
      returns (loaded: Option<Message>, log: seq<Event>, ghost targets: seq<Message>)
      requires metrics.Valid()
      modifies otel, metrics, customConfigs.Values
      ensures metrics.Valid()
      ensures |log| in {1, 3, 4} && log == STAGES[..|log|]
      ensures IsTargets(customConfigs, targets)
      ensures Bootstrapped(world, old(appInfo.View()), targets, old(StoreOf(customConfigs.Values, otel, metrics)),
                           StoreOf(customConfigs.Values, otel, metrics), |log|)
      ensures loaded.Some? <==> Booted(world, metrics.initialized, |log|)
      ensures loaded.Some? ==> fresh(loaded.value) && world.scan(BOOTSTRAP, "") == Scan(loaded.value.contents, true)
    {
      var customs := CustomConfigTargets();
      targets := customs;
      loaded, log := DoBootstrap(world, appInfo.View(), otel, metrics, customs);
    }

    // The configuration is bound to the context; the custom targets stay as they are.
    method Bind(loaded: Message, ghost otel: TracerProvider.Globals, ghost metrics: MetricsSetup.Metrics)
      modifies this`config
      ensures config == Some(loaded) && unchanged(loaded)
      ensures StoreOf(customConfigs.Values, otel, metrics) == old(StoreOf(customConfigs.Values, otel, metrics))
    {
      config := Some(loaded);
    }

    ghost method Remember(op: Operation, otel: TracerProvider.Globals, metrics: MetricsSetup.Metrics)
      requires View() == Apply(ApplyAll(past), op)
      modifies this`past
      ensures Valid() && past == old(past) + [op]
      ensures StoreOf(customConfigs.Values, otel, metrics) == old(StoreOf(customConfigs.Values, otel, metrics))
    {
      OneMore(past, op);
      past := past + [op];
    }

    // The end of bootstrapping, which panics where nothing is loaded.
    method Conclude(loaded: Option<Message>, ghost otel: TracerProvider.Globals, ghost metrics: MetricsSetup.Metrics)
      requires Valid()
      modifies this`config, this`past
      ensures Valid() && past == old(past) + [if loaded.Some? then RunLoads else RunFailsToLoad]
      ensures View() == Apply(old(View()), if loaded.Some? then RunLoads else RunFailsToLoad)
      ensures config == if loaded.Some? then loaded else old(config)
      ensures loaded.Some? ==> unchanged(loaded.value)
      ensures StoreOf(customConfigs.Values, otel, metrics) == old(StoreOf(customConfigs.Values, otel, metrics))
    {
      if loaded.Some? {
        Bind(loaded.value, otel, metrics);
      }
      Remember(if loaded.Some? then RunLoads else RunFailsToLoad, otel, metrics);
    }

    // The first half of Run: the printed identity, bootstrapping, and taking over the
    // configuration.
    method Boot(world: World, otel: TracerProvider.Globals, metrics: MetricsSetup.Metrics)
      returns (panicked: bool, entered: nat, log: seq<Event>, ghost targets: seq<Message>)
      requires Valid() && metrics.Valid()
      modifies this`config, this`past, otel, metrics, customConfigs.Values
      ensures Valid() && metrics.Valid()
      ensures entered in {1, 3, 4} && log == RunLog(old(appInfo.appId) != "", entered, false)
      ensures IsTargets(customConfigs, targets)
      ensures Bootstrapped(world, old(appInfo.View()), targets, old(StoreOf(customConfigs.Values, otel, metrics)),
                           StoreOf(customConfigs.Values, otel, metrics), entered)
      ensures !panicked <==> Booted(world, metrics.initialized, entered)
      ensures past == old(past) + [if panicked then RunFailsToLoad else RunLoads]
      ensures View() == Apply(old(View()), if panicked then RunFailsToLoad else RunLoads)
      ensures panicked ==> config == old(config)
      ensures !panicked ==>
                config.Some? && fresh(config.value) && world.scan(BOOTSTRAP, "") == Scan(config.value.contents, true)
    {
      var loaded, stages;
      loaded, stages, targets := Load(world, otel, metrics);
      panicked, entered, log := loaded.None?, |stages|, AfterPrinting(appInfo.appId != "", stages);
      Conclude(loaded, otel, metrics);
    }

    // The second half of Run, with the log that it completes; nothing in the context changes.
    method RunApp(world: World, ghost otel: TracerProvider.Globals, metrics: MetricsSetup.Metrics,
                  ghost hasAppId: bool, before: seq<Event>)
      returns (end: RunEnd, entered: nat, log: seq<Event>, served: bool)
      requires before == RunLog(hasAppId, 4, false) && metrics.Valid() && metrics.initialized
      ensures entered == if world.initApp.App? then 6 else 5
      ensures log == RunLog(hasAppId, entered, world.initApp == App(true))
      ensures LogsOnce(log, Happening(hasAppId, entered, world.initApp == App(true)))
      ensures log == (if hasAppId then [Printed] else [])
                     + [Event.Load, Logger, Tracer, Metrics, InitApp, AppRun][..entered]
                     + if world.initApp == App(true) then [Cleanup] else []
      ensures multiset(log)[Cleanup] == if world.initApp == App(true) then 1 else 0
      ensures end == Returns <==>
                entered == 6 && world.app == AppReturns && !(world.initApp == App(true) && world.cleanupPanics)
      ensures served <==> MetricsConfig.PROMETHEUS in metrics.ran.value.exporters
      ensures StoreOf(customConfigs.Values, otel, metrics) == old(StoreOf(customConfigs.Values, otel, metrics))
    {
      end, entered, log, served := InitAndRun(world, metrics, hasAppId, before);
      RunLogIsInOrder(hasAppId, entered, world.initApp == App(true));
      RunLogWrittenOut(hasAppId, entered, world.initApp == App(true));
    }

    /** Run. `entered` counts the stages that were entered; a panic of any of them, or a
        failing app, ends the run. `served` is the handler that a server built by initApp
        fetches for its metrics, the real one or not. `targets` are the custom targets in
        the order in which they are filled, which the registry determines
        (CustomConfigs.TargetsAreDetermined). */
    method Run(world: World, otel: TracerProvider.Globals, metrics: MetricsSetup.Metrics)
      returns (end: RunEnd, entered: nat, log: seq<Event>, served: bool,
               ghost booting: nat, ghost targets: seq<Message>)
      requires Valid() && metrics.Valid()
      modifies this`config, this`past, otel, metrics, customConfigs.Values
      ensures Valid() && metrics.Valid()
      // The stages come in their order, the cleanup runs whatever the app does.
      ensures 1 <= entered <= |STAGES|
      ensures log == (if old(appInfo.appId) != "" then [Printed] else [])
                     + [Event.Load, Logger, Tracer, Metrics, InitApp, AppRun][..entered]
                     + if entered > 4 && world.initApp == App(true) then [Cleanup] else []
      ensures multiset(log)[Cleanup] == if entered > 4 && world.initApp == App(true) then 1 else 0
      ensures LogsOnce(log, Happening(old(appInfo.appId) != "", entered, entered > 4 && world.initApp == App(true)))
      // What bootstrapping did, and that nothing but its success leads to initApp.
      ensures IsTargets(customConfigs, targets)
      ensures Bootstrapped(world, old(appInfo.View()), targets, old(StoreOf(customConfigs.Values, otel, metrics)),
                           StoreOf(customConfigs.Values, otel, metrics), booting)
      ensures booting == if entered > 4 then 4 else entered
      ensures entered > 4 <==> Booted(world, metrics.initialized, entered)
      // On the registry: nothing is added, and registration ends with a run that loads.
      ensures past == old(past) + [if entered > 4 then RunLoads else RunFailsToLoad]
      ensures View() == Apply(old(View()), if entered > 4 then RunLoads else RunFailsToLoad)
      ensures entered <= 4 ==> config == old(config)
      ensures entered > 4 ==>
                config.Some? && fresh(config.value) && world.scan(BOOTSTRAP, "") == Scan(config.value.contents, true)
      // The metrics that initApp finds are those of the first call that set them up, and a
      // server built there serves them exactly if that call listed Prometheus.
      ensures entered > 4 ==>
                && metrics.ran == FirstRequest(old(metrics.ran), MetricsRequest(world))
                && (served <==> "prometheus" in metrics.ran.value.exporters)
      // What the app did.
      ensures entered > 5 <==> entered > 4 && world.initApp.App?
      ensures end == Returns <==>
                entered == 6 && world.app == AppReturns && !(world.initApp == App(true) && world.cleanupPanics)
    {
      ghost var hasAppId := appInfo.appId != "";
      var panicked;
      panicked, entered, log, targets := Boot(world, otel, metrics);
      booting := entered;
      if panicked {
        RunLogIsInOrder(hasAppId, entered, false);
        RunLogWrittenOut(hasAppId, entered, false);
        return Panics, entered, log, false, entered, targets;
      }
      end, entered, log, served := RunApp(world, otel, metrics, hasAppId, log);
    }
  }

  // The stages of the second half: initApp, in which a server may fetch the metrics handler, the
  // deferred cleanup, app.Run.
  method InitAndRun(world: World, metrics: MetricsSetup.Metrics, ghost hasAppId: bool, before: seq<Event>)
    returns (end: RunEnd, entered: nat, log: seq<Event>, served: bool)
    requires before == RunLog(hasAppId, 4, false) && metrics.Valid() && metrics.initialized
    ensures entered == if world.initApp.App? then 6 else 5
    ensures log == RunLog(hasAppId, entered, world.initApp == App(true))
    ensures end == Returns <==>
              entered == 6 && world.app == AppReturns && !(world.initApp == App(true) && world.cleanupPanics)
    ensures served <==> MetricsConfig.PROMETHEUS in metrics.ran.value.exporters
  {
    served := metrics.PromHandler();
    log := before + [InitApp];
    assert STAGES[..5] == STAGES[..4] + [InitApp];
    if !world.initApp.App? {
      return Panics, 5, log, served;
    }
    log := log + [AppRun];
    assert STAGES[..6] == STAGES[..5] + [AppRun];
    end := if world.app == AppReturns then Returns else Panics;
    if world.initApp.cleanup {
      log := log + [Cleanup];
      end := if world.cleanupPanics then Panics else end;
    }
    entered := 6;
  }

  // The place of each event in a run.
  function Place(e: Event): nat {
    match e
    case Printed => 0
    case Load => 1
    case Logger => 2
    case Tracer => 3
    case Metrics => 4
    case InitApp => 5
    case AppRun => 6
    case Cleanup => 7
  }

  // One after the other in this order.
  predicate Ordered(log: seq<Event>) {
    var n := |log|;
    n > 1 ==> Place(log[n - 2]) < Place(log[n - 1]) && Ordered(log[..n - 1])
  }

  // Which events happen in a run that enters so many stages, each of them once.
  ghost function Happening(hasAppId: bool, entered: nat, cleaned: bool): set<Event> {
    set e: Event | match e
                   case Printed => hasAppId
                   case Cleanup => cleaned
                   case _ => Place(e) <= entered
  }

  // A log of these events, each once and all in their order.
  ghost predicate LogsOnce(log: seq<Event>, events: set<Event>) {
    Ordered(log) && multiset(log) == multiset(events)
  }

  lemma OneMoreEvent(log: seq<Event>, events: set<Event>, e: Event)
    requires LogsOnce(log, events) && e !in events && (log == [] || Place(log[|log| - 1]) < Place(e))
    ensures LogsOnce(log + [e], events + {e})
  {
    assert (log + [e])[..|log|] == log;
    assert multiset(events + {e}) == multiset(events) + multiset{e};
  }

  lemma {:induction false} StagesAreLoggedOnce(hasAppId: bool, entered: nat)
    requires entered <= |STAGES|
    ensures var log := RunLog(hasAppId, entered, false);
            LogsOnce(log, Happening(hasAppId, entered, false)) && (log != [] ==> Place(log[|log| - 1]) == entered)
  {
    if entered == 0 {
      assert STAGES[..0] == [];
      assert Happening(hasAppId, 0, false) == if hasAppId then {Printed} else {};
    } else {
      StagesAreLoggedOnce(hasAppId, entered - 1);
      OneMoreStage(hasAppId, entered);
      OneMoreEvent(RunLog(hasAppId, entered - 1, false), Happening(hasAppId, entered - 1, false), STAGES[entered - 1]);
    }
  }

  lemma OneMoreStage(hasAppId: bool, entered: nat)
    requires 1 <= entered <= |STAGES|
    ensures var stage := STAGES[entered - 1];
            && Place(stage) == entered && stage !in Happening(hasAppId, entered - 1, false)
            && RunLog(hasAppId, entered, false) == RunLog(hasAppId, entered - 1, false) + [stage]
            && Happening(hasAppId, entered, false) == Happening(hasAppId, entered - 1, false) + {stage}
  {
    assert STAGES[..entered] == STAGES[..entered - 1] + [STAGES[entered - 1]];
  }

  /** A run logs each event that happens exactly once and no other, all in their order: initApp
      comes after every stage of bootstrapping, and the cleanup last. */
  lemma RunLogIsInOrder(hasAppId: bool, entered: nat, cleaned: bool)
    requires 1 <= entered <= |STAGES|
    ensures LogsOnce(RunLog(hasAppId, entered, cleaned), Happening(hasAppId, entered, cleaned))
  {
    StagesAreLoggedOnce(hasAppId, entered);
    if cleaned {
      CleanupComesLast(hasAppId, entered);
      OneMoreEvent(RunLog(hasAppId, entered, false), Happening(hasAppId, entered, false), Cleanup);
    }
  }

  // The log with the stages written out.
  lemma RunLogWrittenOut(hasAppId: bool, entered: nat, cleaned: bool)
    requires 1 <= entered <= 6
    ensures RunLog(hasAppId, entered, cleaned)
         == (if hasAppId then [Printed] else []) + [Event.Load, Logger, Tracer, Metrics, InitApp, AppRun][..entered]
            + if cleaned then [Cleanup] else []
    ensures multiset(RunLog(hasAppId, entered, cleaned))[Cleanup] == if cleaned then 1 else 0
  {
    RunLogIsInOrder(hasAppId, entered, cleaned);
    assert Cleanup in Happening(hasAppId, entered, cleaned) <==> cleaned;
  }

  lemma CleanupComesLast(hasAppId: bool, entered: nat)
    requires 1 <= entered <= |STAGES|
    ensures RunLog(hasAppId, entered, true) == RunLog(hasAppId, entered, false) + [Cleanup]
    ensures Happening(hasAppId, entered, true) == Happening(hasAppId, entered, false) + {Cleanup}
    ensures Cleanup !in Happening(hasAppId, entered, false)
  {
  }

  lemma {:induction false} OrderedMeansInOrder(log: seq<Event>)
    requires Ordered(log)
    ensures forall i, j :: 0 <= i < j < |log| ==> Place(log[i]) < Place(log[j])
  {
    if |log| > 1 {
      OrderedMeansInOrder(log[..|log| - 1]);
    }
  }

  // The stages of DoBootstrap after loading.
  method StartProviders(world: World, appInfo: AppIdentity.Identity, otel: TracerProvider.Globals,
                        metrics: MetricsSetup.Metrics)
    returns (ok: bool, log: seq<Event>)
    requires metrics.Valid()
    modifies otel, metrics
    ensures metrics.Valid()
    ensures |log| in {2, 3} && log == STAGES[1..|log| + 1]
    ensures |log| == 3 <==> !TracerFails(world)
    ensures ProviderIs(world, appInfo, |log| + 1, old(otel.provider), otel.provider)
    ensures ok <==> Booted(world, metrics.initialized, |log| + 1)
    ensures ok ==> metrics.ran == FirstRequest(old(metrics.ran), MetricsRequest(world))
  {
    log := [Logger, Tracer];
    var failed := otel.NewTracerProvider(world.trace, Some(appInfo), world.goEnv, world.traceExporterFails);
    if failed {
      return false, log;
    }
    log := log + [Metrics];
    var err := metrics.InitWithConfig(world.exporters, world.metricsEnv);
    ok := err.None?;
  }

  lemma LoadComesFirst(later: nat)
    requires later < |STAGES|
    ensures [Load] + STAGES[1..later + 1] == STAGES[..later + 1]
  {
  }

  /** DoBootstrap: none stands for the panic it raises. */
  method DoBootstrap(world: World, appInfo: AppIdentity.Identity, otel: TracerProvider.Globals,
                     metrics: MetricsSetup.Metrics, customConfigs: seq<Message>)
    returns (loaded: Option<Message>, log: seq<Event>)
    requires metrics.Valid()
    modifies otel, metrics, Elements(customConfigs)
    ensures metrics.Valid()
    ensures |log| in {1, 3, 4} && log == STAGES[..|log|]
    ensures Bootstrapped(world, appInfo, customConfigs, old(StoreOf(Elements(customConfigs), otel, metrics)),
                         StoreOf(Elements(customConfigs), otel, metrics), |log|)
    ensures loaded.Some? <==> Booted(world, metrics.initialized, |log|)
    ensures loaded.Some? ==> fresh(loaded.value) && world.scan(BOOTSTRAP, "") == Scan(loaded.value.contents, true)
  {
    loaded := LoadBootstrapConfig(world.loads, world.scan, customConfigs);
    if loaded.None? {
      return None, [Load];
    }
    var ok, started := StartProviders(world, appInfo, otel, metrics);
    log := [Load] + started;
    LoadComesFirst(|started|);
    if !ok {
      loaded := None;
    }
  }

  // Whether LoadBootstrapConfig yields a configuration for these targets.
  ghost predicate LoadSucceeds(world: World, targets: seq<Message>, before: map<Message, Contents>)
    requires Elements(targets) <= before.Keys
  {
    world.loads && world.scan(BOOTSTRAP, "").ok && Scanned(world.scan, targets, before).1
  }

  // What the targets hold after it.
  ghost function Filled(world: World, targets: seq<Message>, before: map<Message, Contents>): map<Message, Contents>
    requires Elements(targets) <= before.Keys
  {
    if world.loads && world.scan(BOOTSTRAP, "").ok then Scanned(world.scan, targets, before).0 else before
  }

  lemma TargetsAreTheValues(configs: map<string, Message>, targets: seq<Message>)
    requires IsTargets(configs, targets)
    ensures Elements(targets) == configs.Values
  {
    var keys :| IsSorted(keys, configs.Keys) && targets == InOrder(configs, keys);
    forall m | m in configs.Values ensures m in Elements(targets) {
      var key :| key in configs && configs[key] == m;
      assert key in Elements(keys);
      var i :| 0 <= i < |keys| && keys[i] == key;
      assert targets[i] == m;
    }
    forall i | 0 <= i < |targets| ensures targets[i] in configs.Values {
      assert keys[i] in Elements(keys);
    }
  }

  /** What bootstrapping did, in terms of the world: loading succeeds exactly with the sources,
      the bootstrap message and all targets; a tracer configuration fails exactly if it asks
      for an exporter that is refused; a provider is installed exactly if one is configured
      with a sampler that is not negative; and the metrics are those of the first request. */
  lemma BootstrappedByWorld(
    world: World, identity: AppIdentity.Identity, targets: seq<Message>, before: Store, after: Store, entered: nat)
    requires Bootstrapped(world, identity, targets, before, after, entered)
    ensures entered > 1 <==>
              world.loads && world.scan(BOOTSTRAP, "").ok && Scanned(world.scan, targets, before.contents).1
    ensures after.contents == if world.loads && world.scan(BOOTSTRAP, "").ok
                              then Scanned(world.scan, targets, before.contents).0 else before.contents
    ensures entered > 3 <==>
              entered > 1 && !(&& world.trace.Some? && !(world.trace.value.sampler < 0.0)
                               && world.trace.value.endpoint != ""
                               && (world.trace.value.batcher == "jaeger" || world.traceExporterFails))
    ensures entered <= 3 || world.trace.None? || world.trace.value.sampler < 0.0 ==> after.provider == before.provider
    ensures entered > 3 && world.trace.Some? && !(world.trace.value.sampler < 0.0) ==>
              && after.provider.Some? && after.provider.value.ratio == world.trace.value.sampler
              && var resource := after.provider.value.resource;
                 && resource.namespace == identity.project && resource.name == identity.serviceName
                 && resource.version == identity.version && resource.instance == identity.instanceId
                 && resource.env == (if world.trace.value.env != "" then world.trace.value.env else world.goEnv)
    ensures Booted(world, after.metricsUp, entered) ==>
              after.metricsRan == if before.metricsRan.Some? then before.metricsRan
                                  else Some(MetricsSetup.Request(world.exporters, world.metricsEnv))
  {
  }

  lemma FirstRequestByWorld(before: Option<MetricsSetup.Request>, world: World)
    ensures before.Some? ==> FirstRequest(before, MetricsRequest(world)) == before
    ensures before.None? ==>
              FirstRequest(before, MetricsRequest(world))
              == Some(MetricsSetup.Request(world.exporters, world.metricsEnv))
  {
  }

  /** All stages are booted exactly if the last one was entered, its exporters do not ask for
      both OTLP transports, and the metrics are set up. */
  lemma BootedByWorld(world: World, metricsUp: bool, entered: nat)
    ensures Booted(world, metricsUp, entered) <==>
              && entered > 3 && metricsUp
              && !("otlp-http" in world.exporters && ("otlp-grpc" in world.exporters || "otlp" in world.exporters))
  {
  }
}
