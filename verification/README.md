# Verification of kratos-bootstrap

A Dafny model of the parts of kratos-bootstrap that hold logic of their own, with proofs
about all inputs, all runs and all interleavings.

**Trace suppression** (`rpc/tracing.go`, `tracer/tracer.go`) is the centre. Services call each
other in an arbitrary finite tree (`CallTree.Work`). Each side of each call has its own
operation, rules and tracing switch; each service has its own tracer provider and root sampler.
The middleware of the Kratos library is taken by contract: the server extracts the incoming
header and then starts a span, the client starts a span and then injects it; a `ParentBased`
provider follows a valid parent and asks the root sampler otherwise; without a provider the
context passes through and nothing is recorded.

- `TraceContext` – identifiers, and the `traceparent` field of section 3.2.2 of W3C Trace Context.
- `OperationRules` – which operations a rule list excludes.
- `CallTree` – the middleware, the run of a tree (headers as strings, contexts with ids), and a
  specification that looks at one path of the tree only, in terms of decisions.
- `TracingGuarantees` – the run records exactly the specified spans; suppression, its exact
  condition on a hop, inheritance, locality.
- `TracingMiddleware` – the same as imperative code over transports whose headers are written in
  place.
- `CallSteps` – all calls in flight at once: conservation over every step, the same spans for
  every schedule, suppression and locality in every interleaving, every run ends.
- `MiddlewareChain` – the four middleware lists and their composition.

**Metrics** (`metrics/`): `MetricsConfig` parses, validates and builds readers; `MetricsSettings`
is the configuration built from a block; `MetricsSetup` is the once-only set-up, as a class for callers in sequence and as a step machine for any number of
concurrent callers.

**Start-up** (`context.go`, `bootstrap.go`, `config/`): `CustomConfigs` orders and fills the
registered targets, `Startup` is the registry and `Run`, `AppIdentity` the application identity,
`TracerProvider` the installation of the tracer provider.

**Transport parameters** (`rpc/grpc.go`): `TransportParams` is the 32- and 64-bit arithmetic of
durations, keepalive and message sizes.

`Text` and `Wrappers` are shared helpers. `dafny verify dfyconfig.toml` checks everything.

## Where code and documentation differ

Paths with line numbers, here and in the table below, are those of the kratos-bootstrap repository;
its README.md is not this file.

- kratos-bootstrap's README.md:216 asks only for the client's `enable_tracing`. A hop also loses
  the suppression when the downstream server runs without the tracing middleware, because nothing
  reads the header there. Conversely, a server that excludes the operation itself, or a handler that passes an
  unsampled header on, keeps it without the client. The exact condition is
  `TracingGuarantees.HopHoldsExactly`.
- kratos-bootstrap's README.md:235 gives `max_msg_size` in MB without a bound. The product is taken
  in 32 bits, so sizes from 2048 on are never honoured; 2048 is a negative limit and 4096 is zero
  (`TransportParams.MessageSizeIsHonouredUpTo2047`, `TransportParams.MessageSizeFailsAt2048And4096`).
- kratos-bootstrap's README.md:109 says that targets are registered only before `Run`. The code
  refuses them once a configuration is loaded: after a `Run` that failed to load, registration is still open
  (`Startup.FailedRunLeavesRegistrationOpen`; for every sequence of operations
  `Startup.RegistryHoldsFirstOffers`).
- The comments of api/proto/conf/v1/kratos_conf_metrics.proto:17-27 call `insecure`,
  `enable_runtime_metrics` and `enable_host_metrics` true by default. That holds only without a
  metrics block; a block that leaves one out turns it off
  (`MetricsSettings.DefaultsNeedTheSwitches`).
- api/proto/conf/v1/kratos_conf_middleware.proto:18 names `bbr` as the one supported limiter. Any
  other name is not refused but installs the rate limit with a nil limiter
  (`MiddlewareChain.NilLimiterExactly`, `MiddlewareChain.MisspeltLimiterIsInstalledAsNil`).
- metrics/options.go:155 validates a configuration, yet a list built in code can pass and fail
  outside every constructor: exactly an empty one or one with an unsupported name
  (`MetricsConfig.OnlyConstructorsFailExactly`).

## Model

| member | source | states |
|---|---|---|
| TraceContext.IdFromIsNeverZero | rpc/tracing.go:116-130 | for every outcome of the random source, also an error after a partial fill, the identifier is not all zero; a successful non-zero draw is used unchanged |
| TraceContext.NewTraceId | rpc/tracing.go:116-122 | the in-place fill yields that identifier, for 16 bytes, never all zero |
| TraceContext.NewSpanId | rpc/tracing.go:124-130 | likewise for 8 bytes |
| TraceContext.ReadOfWrite | rpc/tracing.go:16-20 | reading a written `traceparent` gives back both ids and the sampled flag, as a remote context; an invalid context is never accepted |
| TraceContext.ReadOfAnyVersion | rpc/tracing.go:16-20 | a header of any version but ff with the fields of a valid context, two flag digits and, after version 00, more fields is read as that context |
| TraceContext.WriteOfRead | rpc/tracing.go:16-20 | an accepted header is of that form: it has the fields of the one written for the context read from it, and one of version 00 is that header, up to reserved flag bits; sampled is its lowest flag bit |
| TraceContext.ValidByIds | rpc/tracing.go:95-107 | a context is valid exactly if neither id is all zero |
| TraceContext.HexByDigits | rpc/tracing.go:16-20 | each byte of an id is written as its two base-16 digits, the higher first |
| TraceContext.FieldsOfWritten | rpc/tracing.go:16-20 | which field of a written header is where, flags 01 or 00 |
| TraceContext.InjectWritesOneField | rpc/tracing.go:109-114 | a valid context is written under `traceparent` and nowhere else; an invalid one writes nothing |
| TraceContext.ExtractReadsOneField | rpc/tracing.go:16-20 | an accepted `traceparent` replaces any context, a missing or rejected one none |
| Text.SpacesByCodePoint | rpc/tracing.go:74 | what is trimmed, by code point |
| Text.PrefixByCharacters | rpc/tracing.go:87 | what a prefix is, character by character |
| OperationRules.TraceOperationMatches | rpc/tracing.go:73-93 | the early-exit loops decide membership: trimmed, non-empty, equal to an exact rule or extending a non-empty prefix rule |
| OperationRules.ExcludesByIndex | rpc/tracing.go:73-93 | the rules as written: excluded exactly if the trimmed operation is not empty and equals some trimmed exact rule or begins with some non-empty trimmed prefix rule; either list may be empty |
| OperationRules.MoreRulesExcludeMore | rpc/tracing.go:73-93 | more rules exclude at least as much; lists equal as rule sets exclude the same |
| OperationRules.PaddedRulesAreTheSameRules | rpc/tracing.go:79-89 | white space around rules changes no rule |
| OperationRules.PaddedOperationIsTheSameOperation | rpc/tracing.go:74 | white space around the operation changes no decision |
| TracingGuarantees.SuppressedIsAValidUnsampledParent | rpc/tracing.go:95-107 | the suppressed context is valid, remote and unsampled, and no provider records a span under it |
| TracingGuarantees.StartSpanByContract | tracer/tracer.go:57 | a span start keeps a valid parent's trace and decision, else begins a new trace that the root sampler decides; without a provider nothing happens |
| TracingGuarantees.ExcludedByIndex | rpc/tracing.go:30-57 | an endpoint excludes exactly if it traces, has rules, and one of them matches by index |
| TracingGuarantees.OffChangesNothing | rpc/http.go:38-40 | without tracing neither side changes context or header or records |
| TracingGuarantees.HeaderCarriesDecision | rpc/tracing.go:109-114 | what is injected is extracted with the same trace and decision; a context without a span leaves the header's own |
| TracingGuarantees.EnterDecides | rpc/tracing.go:35-47 | what either side hands on and records is the inherited, new or muted decision; with tracing off nothing changes |
| TracingGuarantees.RunIsExact | rpc/tracing.go:30-48 | a span is recorded in the run of a tree if and only if the path specification expects it, with that operation and trace id |
| TracingGuarantees.RunFromIsDistinct | rpc/tracing.go:30-48 | no span is recorded twice |
| TracingGuarantees.UnsampledStaysUnsampled | tracer/tracer.go:57 | under an unsampled decision nothing is recorded at any depth over hops that hold |
| TracingGuarantees.ExcludedClientSilencesItsSubtree | README.md:214-216 | for every tree and node: a matching client operation and all that is reached from it over holding hops stay unrecorded |
| TracingGuarantees.ExcludedServerSilencesItsSubtree | README.md:214-216 | for every tree and node: under a matching server operation at most the caller's own client span is recorded |
| TracingGuarantees.ExcludedOperationLeavesNoSpan | README.md:214-216 | where all hops below it hold, a matching operation leaves no span in its whole subtree, but for the caller's client span when it is the server that matches |
| TracingGuarantees.HopHoldsExactly | rpc/http.go:102-104 | for every request header the handler prepared, a hop keeps a suppressed request silent for every service behind it if and only if the server traces and either the client traces, or the server excludes the operation itself, or the prepared header is an unsampled one |
| TracingGuarantees.HopHoldsByConfiguration | rpc/http.go:102-104 | that condition is what a holding hop is |
| TracingGuarantees.OverHopsExactly | README.md:214-216 | which hops a path asks to hold: those of all work items on the way, and for a server span its own |
| TracingGuarantees.HopsOnEveryPathAreAll | README.md:214-216 | all hops of a tree hold if those on every path do |
| TracingGuarantees.TracedToExactly | tracer/tracer.go:57 | which hops must trace for a decision to be inherited, and what tracing means |
| TracingGuarantees.DecisionIsInherited | tracer/tracer.go:57 | over hops that trace, decision and trace id reach every point unchanged |
| TracingGuarantees.SampledRequestIsRecordedThroughout | tracer/tracer.go:57 | under a sampled request every span start that is reached over tracing hops is recorded, all in the one trace |
| TracingGuarantees.SuppressionIsLocal | rpc/tracing.go:37-45 | replacing any work item leaves all spans outside its subtree as they were |
| TracingMiddleware.ContextWithTracingSuppressed | rpc/tracing.go:95-107 | only the span changes, to a valid unsampled remote one |
| TracingMiddleware.InjectSuppressedTraceContext | rpc/tracing.go:109-114 | only the client transport's own header is written |
| TracingMiddleware.ShouldSkipTracing | rpc/tracing.go:50-57 | nil configuration never skips, otherwise the rules decide |
| TracingMiddleware.TracingClient | rpc/tracing.go:26-48 | context, header and recorded span for missing, empty, matching and other rules, by rule index: a match hands on and injects a valid unsampled context and records nothing; else the base middleware runs; the early return is no different from wrapping |
| TracingMiddleware.TracingServer | rpc/tracing.go:22-48 | the server side likewise, with nothing injected |
| TracingMiddleware.Handle | rpc/tracing.go:22-48 | serving a tree over mutable headers records exactly what `CallTree.RunFrom` gives |
| CallSteps.StepIsLocal | rpc/tracing.go:37-45 | a step writes at most its own request's header and changes no other task |
| CallSteps.StepConserves | rpc/tracing.go:30-48 | recorded and pending spans add up to the same multiset before and after every step |
| CallSteps.InterleavingsRecordTheSameSpans | rpc/tracing.go:30-48 | under every schedule the recorded spans are among the sequential run's, and are all of them when everything is finished |
| CallSteps.ExcludedClientIsSilentInEveryInterleaving | README.md:214-216 | the client guarantee in every reachable state of every interleaving |
| CallSteps.ExcludedServerIsSilentInEveryInterleaving | README.md:214-216 | the server guarantee in every reachable state of every interleaving |
| CallSteps.SuppressionIsLocalInEveryInterleaving | rpc/tracing.go:37-45 | two finished runs of trees that differ at one node record the same spans elsewhere, under any two schedules |
| CallSteps.EveryBusyRunEnds | rpc/tracing.go:35-47 | a run that never idles ends after a number of steps that the tree alone determines |
| MiddlewareChain.GrpcClientMiddleware | rpc/grpc.go:68-115 | exactly the wanted middleware, strictly in the one order, then the caller's |
| MiddlewareChain.GrpcServerMiddleware | rpc/grpc.go:183-241 | likewise |
| MiddlewareChain.HttpClientMiddleware | rpc/http.go:33-61 | likewise |
| MiddlewareChain.HttpServerMiddleware | rpc/http.go:89-139 | likewise |
| MiddlewareChain.BuiltInBySwitches | rpc/grpc.go:183-241 | which middleware each switch of the configuration puts into which list, each once, before the caller's own |
| MiddlewareChain.AuthAndMetricsBySwitches | rpc/grpc.go:207-237 | auth only with a key and on gRPC, HS256 unless HS384 or HS512 is named; metrics for what is switched on |
| MiddlewareChain.RanksInOrder | rpc/grpc.go:183-241 | the one order: recovery, tracing, validate, metadata, limiter, auth, logging, metrics |
| MiddlewareChain.NoConfigurationNoBuiltIn | rpc/grpc.go:68-115 | without a middleware section only the caller's list |
| MiddlewareChain.BuiltInIsUnique | rpc/grpc.go:183-241 | order and contents leave one list only |
| MiddlewareChain.ListsAgree | rpc/http.go:99-137 | every list is the gRPC server list without metadata and auth (HTTP), without rate limit and logging (client) |
| MiddlewareChain.NilLimiterExactly | rpc/grpc.go:199-206 | a server installs the rate limit without a limiter exactly when one is configured under a name other than `bbr` |
| MiddlewareChain.MisspeltLimiterIsInstalledAsNil | rpc/http.go:110-117 | the name `BBR` is such a one |
| MiddlewareChain.SkipperForwards | rpc/tracing.go:30-48 | for a nil configuration, empty rules and rules, matching or not: if the base middleware calls its handler once, the log of calls grows by exactly one, with the same request, and the handler's reply and error are returned; early return and wrapped form agree |
| MiddlewareChain.ChainEntersStagesInOrder | rpc/grpc.go:115-119 | the stages are entered in list order, each at most once, with the same request and the context the stage before derived; the log ends early only where a stage refuses |
| MiddlewareChain.ChainCallsTheHandlerOnce | rpc/grpc.go:115-119 | if no stage refuses, the handler is called exactly once and last, and its result is the result |
| MiddlewareChain.ContextsByStage | rpc/grpc.go:115-119 | the contexts of these calls: the incoming one, then what each stage derives from its own |
| MiddlewareChain.ChainStaysMuted | rpc/grpc.go:115-119 | the calls follow the list, and behind a stage that was called with a suppressed context, or that suppresses by itself, there are suppressed ones only |
| MiddlewareChain.TracingReachesAllLaterStages | rpc/grpc.go:68-119 | whatever the built-in and the caller's middleware do to requests, replies and errors and however they derive contexts, as long as each calls on at most once and none turns a suppressed context into a sampled one: at most recovery comes before tracing, and behind it every stage that is entered sees a suppressed context if tracing handed one on |
| MiddlewareChain.ExcludedOperationIsMutedBehindTracing | rpc/tracing.go:40-45 | so for an excluded operation every stage behind tracing sees a suppressed context only, whatever the base middleware does |
| MiddlewareChain.RepeatedCallsStayMuted | rpc/tracing.go:40-45 | a chain that is called with a suppressed context calls nothing with another one, however often its stages repeat their calls |
| MiddlewareChain.PassingAndRewritingKeepSuppression | rpc/grpc.go:68-119 | middleware that forwards or refuses with suppressed contexts kept, and any rewriting of request, reply and error around it, meets that condition |
| MiddlewareChain.StartingSpansKeepsMuted | tracer/tracer.go:57 | a span start, and a client's second tracing middleware, do not turn a suppressed context into a sampled one |
| MiddlewareChain.SecondServerKeepsMutedExactly | rpc/grpc.go:240-241 | a second tracing middleware in the server's own list does not either if and only if it is off, excludes the operation, or finds no sampled context in the header |
| MetricsConfig.ParseExporters | metrics/options.go:90-106 | the loop is the filter-map with the Prometheus default |
| MetricsConfig.NamesByText | metrics/options.go:93-100 | which text stands for which exporter, the alias otlp included; every other text is dropped |
| MetricsConfig.ParsedOrDefault | metrics/options.go:102-106 | Prometheus alone exactly when no name is accepted |
| MetricsConfig.AcceptedKeepsOrder | metrics/options.go:92-101 | the accepted names in their order, each position that parses once |
| MetricsConfig.ParsingIsIdempotent | metrics/options.go:90-106 | never empty, only canonical names, and parsing again changes nothing |
| MetricsConfig.NameSpellingIsIgnored | metrics/options.go:93 | neither white space around a name nor its case is seen |
| MetricsConfig.ValidateConfig | metrics/options.go:155-173 | accepted if and only if gRPC (or its alias) and HTTP do not both occur |
| MetricsConfig.ConflictIsInTheRawNames | metrics/options.go:90-106 | after parsing, refusal happens exactly when the raw list has a spelling of otlp or otlp-grpc and one of otlp-http |
| MetricsConfig.NewMetricReaders | metrics/exporter.go:27-43 | all readers in order, or the error of the first exporter that fails |
| MetricsConfig.ReaderFailsExactly | metrics/exporter.go:46-57 | which reader each name gets, and when it fails |
| MetricsConfig.ParsedExportersFailOnlyInConstructors | metrics/exporter.go:46-57 | after parsing, reader creation fails exactly when a constructor does |
| MetricsConfig.OnlyConstructorsFailExactly | metrics/exporter.go:27-57 | for every list, parsed or built in code: only a constructor can fail if and only if the list is not empty and all its names are supported |
| MetricsConfig.ValidatedExportersCanStillFail | metrics/exporter.go:28-30 | an empty list and an unknown name pass validation and fail later |
| MetricsSettings.NewConfigFromProto | metrics/options.go:48-87 | the defaults, overridden by what the block sets, with exact intervals and never an empty exporter list |
| MetricsSettings.DefaultsNeedTheSwitches | metrics/options.go:67-80 | a block leaves the defaults as they are exactly when it writes out the three switches and sets nothing else differently |
| MetricsSetup.Metrics.SetupBusinessMetrics | metrics/instruments.go:21-43 | the four globals after the first failing instrument, or all four set |
| MetricsSetup.Metrics.SetupMetricProvider | metrics/metrics.go:67-130 | ends with the failure of the first failing stage and leaves set exactly what came before it; the handler is set only on success with Prometheus listed |
| MetricsSetup.OutcomeByStages | metrics/metrics.go:67-130 | the error is that of the first failing stage: readers, resource, the four instruments in order |
| MetricsSetup.Metrics.InitWithConfig | metrics/metrics.go:54-65 | a conflicting list changes nothing; the first valid call decides; later ones repeat its result and change nothing; globals and result are those of a caller of the step machine that is alone |
| MetricsSetup.Metrics.PromHandler | metrics/metrics.go:133-138 | the real handler exactly when the call that ran the set-up got to its end and listed Prometheus; all instruments and the provider are then set |
| MetricsSetup.HasPrometheusExporter | metrics/metrics.go:141-148 | the loop decides membership |
| MetricsSetup.OneSetupOneResult | metrics/metrics.go:54-65 | over all interleavings: one set-up at most, conflicting callers refused, all valid callers that return report the result of the one that ran it |
| MetricsSetup.ConflictingCallerTouchesNothing | metrics/metrics.go:56-58 | a refused caller does not consume the once |
| MetricsSetup.HandlerIsRealExactlyAfterSuccess | metrics/metrics.go:60-63 | in every reachable state the handler is real exactly when the one set-up has ended without error with Prometheus listed, and `initialized` implies all four instruments |
| MetricsSetup.SomeCallerCanMove | metrics/metrics.go:60-64 | no deadlock: while somebody has not returned, some step changes the state |
| MetricsSetup.FinishIsASchedule | metrics/metrics.go:54-65 | the run of a caller alone is one of the schedules |
| MetricsSetup.FinishOfACall | metrics/metrics.go:54-130 | what such a run leaves: nothing changed on refusal, the outcome of the first failing stage and all it had set before, or the earlier result |
| MetricsSetup.EveryBusyRunReturnsAll | metrics/metrics.go:54-65 | a run that does not idle takes a bounded number of steps per caller, and cannot go on exactly when all callers have returned |
| MetricsSetup.GlobalsAreFinalAfterTheOnce | metrics/metrics.go:60-64 | after the once no further step of anybody changes the globals, so a handler fetched then stays the right one |
| CustomConfigs.IncreasingIsUnique | context.go:107-111 | a set of keys has one strictly increasing sequence |
| CustomConfigs.SortStrings | context.go:111 | the keys in strictly increasing order, none lost or added |
| CustomConfigs.TargetsAreDetermined | context.go:102-118 | the sequence of targets depends on the registry alone, not on the iteration order of its map |
| CustomConfigs.TargetsByKeys | context.go:102-118 | it is the registry's targets in strictly increasing order of their keys, each key once |
| Text.LessByFirstDifference | context.go:111 | the order of the keys: a proper prefix first, else by the first difference |
| CustomConfigs.ScanConfigs | config/config.go:44-51 | the targets' contents and the result after scanning in order up to the first error |
| CustomConfigs.ScanFillsUpToTheFirstError | config/config.go:44-51 | up to the first failing scan every message holds the result of as many scans of its own as it has places among the targets, one under two keys included; the failing scan may leave anything in its own target, and nothing else is touched |
| CustomConfigs.RescannedByScans | config/config.go:44-51 | what several scans of one message leave: each goes on from the one before |
| CustomConfigs.LoadBootstrapConfig | config/config.go:27-42 | a fresh bootstrap message first, then the custom targets; no configuration on any error |
| Startup.RegistryHoldsFirstOffers | context.go:46-67 | after every sequence of registrations, runs and lookups a key holds the first usable target offered for it, if that came before a loaded configuration |
| Startup.RegistrationOrderDoesNotMatter | context.go:102-118 | any two sequences of the same registrations give the same registry, the same target sequence, the same final contents of every target and the same success |
| Startup.FailedRunLeavesRegistrationOpen | context.go:57-59 | a registration after a run that failed to load is accepted, one after a run that loaded is not |
| Startup.Context.RegisterCustomConfig | context.go:46-67 | the rejections in their order; a rejected registration changes nothing; the registry stays what its past operations make of it |
| Startup.Context.KeyHoldsFirstOffer | context.go:46-67 | in every reachable context a key leads to the first usable target offered for it before a configuration was loaded, and never the empty key |
| Startup.Context.GetCustomConfig | context.go:70-89 | the registered object itself, or the error for a missing key or a message that the type argument, a message type or an interface, does not admit |
| Startup.Context.CustomConfigTargets | context.go:102-118 | the targets in key order, whatever order the map yields its keys in |
| Startup.Context.constructor | context.go:37-42 | an empty open registry and a normalised identity that shares nothing with the argument |
| Startup.Context.AppInfoFromContext | context.go:166-171 | a copy that shares no object with the context |
| Startup.Context.Run | context.go:121-143 | how far a run gets; its log, every event exactly once and in order, with initApp after all of bootstrapping; the contents of all targets, and when the configuration is set; registration ends exactly with a run that gets to initApp; a server built there serves the real metrics handler exactly when the first initialisation listed Prometheus; one cleanup if initApp gave an app and a cleanup, whatever the app does, and none else |
| Startup.BootstrappedByWorld | bootstrap.go:100-127 | when loading succeeds, when the tracer fails, when a provider with which identity is installed, and whose metrics are in force |
| Startup.BootedByWorld | bootstrap.go:117-127 | bootstrapping is complete exactly if the exporters do not conflict and the metrics are set up |
| Startup.RunLogIsInOrder | context.go:121-143 | each event of a run is logged exactly once, and no other, in the order of the stages: initApp after every stage of bootstrapping, the cleanup last |
| Startup.DoBootstrap | bootstrap.go:100-127 | load, logger, tracer, metrics in this order, stopping at the first failure |
| TracerProvider.NewTracerExporter | tracer/tracer.go:22-37 | jaeger is refused, the OTLP names select their exporter, all others fall back |
| TracerProvider.Globals.NewTracerProvider | tracer/tracer.go:40-84 | fails exactly for a refused exporter; installs a provider with the application's identity exactly with a configuration, an identity, a sampler that is not negative, zero included, and no failure; else keeps the current one |
| AppIdentity.ResolveHost | config/app_info.go:50-64 | the first non-blank candidate, never empty |
| AppIdentity.CloneAppInfo | config/app_info.go:97-107 | equal in content, sharing no object |
| AppIdentity.NormalizeAppInfo | config/app_info.go:20-44 | all new objects with the normalised value, the argument unchanged |
| AppIdentity.NormalizationIsStable | config/app_info.go:20-44 | keeps what is given, fills the rest, and is idempotent under any later environment |
| AppIdentity.NamesCollideExactly | config/app_info.go:84-94 | any two project and app pairs get one derived name exactly when they have the same non-empty parts or cut the name differently, at another dash or not at all; never when both are complete and no project has a dash |
| AppIdentity.NormalizedIdentitiesHaveOneName | config/app_info.go:74-94 | app, logger, tracer and metrics agree on one name exactly when it is stored or there is nothing to derive it from; always after normalisation |
| TransportParams.AsDurationClamps | rpc/grpc.go:384 | the wrapping conversion equals the exact nanoseconds clamped to 64 bits |
| TransportParams.PositiveDurationIsExact | rpc/grpc.go:377-389 | success exactly for present, valid, positive values; which error otherwise |
| TransportParams.ClientKeepaliveIsExact | rpc/grpc.go:335-359 | accepted exactly with at least ten exact seconds and a positive timeout; the parameters and errors |
| TransportParams.ServerPolicyIsExact | rpc/grpc.go:361-375 | accepted exactly with a positive minimum; the policy is that minimum, clamped, and the permit switch; which error otherwise; compatible ends stay compatible |
| TransportParams.MessageSizeIsHonouredUpTo2047 | rpc/grpc.go:254-256 | the limit is the requested size if and only if that is at most 2047 MB; when it is zero or negative |
| TransportParams.MessageSizeFailsAt2048And4096 | rpc/grpc.go:64-66 | two sizes that are not honoured |
| TransportParams.MessageSizeIsSixteenByDefault | rpc/grpc.go:254-256 | 16 MB without a positive size |
| TransportParams.IntervalNeverOverflows | metrics/options.go:64-66 | seconds to nanoseconds never overflows for any 32-bit value |

## Left out

- Baggage, service-name metadata and `tracestate`: they travel under other header keys and do not enter sampling decisions.
- ReadTraceparent: does not model a propagator that rejects reserved flag bits in version 00, which section 3.2.2 lets pass; such a header would count as absent, which matters only for the headers a handler prepares itself in `HopHoldsExactly`.
- Reserved flag bits and fields of later `traceparent` versions: ignored, as sections 3.2.2 and 3.2.4 of W3C Trace Context describe.
- Span attributes, events and end times: only which spans are recorded, in which trace; they are listed as they start.
- What makes validation, rate limit or auth refuse a request: in a chain any stage may refuse; in a call tree the handler behind it is then a tree without work.
- Limiter, JWT and CORS internals, TLS files, dialling, listening, pprof and `/metrics` routes: library or I/O behaviour.
- Exporters, resources, runtime and host collectors: each is a step that succeeds or fails; a failing runtime or host collector is only logged and has no step.
- The functional options of the metrics configuration and its resource attributes: flat setters.
- The gRPC option builders around keepalive and message sizes: they append the values proved here.
- Exporter names are compared in ASCII lower case; no other character lowers to a letter of an exporter name.
- Nil receivers of `Context` and a zero `Context` without identity: they panic or return nil at once.
- Nil against empty metadata in a cloned identity: only the content is claimed.
- Loggers, the deprecated `Bootstrap` wrapper and application options such as the stop delay: setters and forwarding.
- Configurations without the client or server section that a constructor dereferences.
