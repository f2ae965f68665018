// The metrics configuration that a process ends up with (metrics/options.go).
module MetricsSettings {
  import opened Wrappers
  import opened MetricsConfig
  import opened TransportParams

  // conf.Metrics
  datatype Block = Block(
    exporters: seq<string>, endpoint: string, interval: int32, insecure: bool, env: string,
    enableRuntime: bool, memStatsInterval: int32, enableHost: bool)

  // OTEL_EXPORTER_OTLP_ENDPOINT and GO_ENV, empty when unset.
  datatype Environment = Environment(endpoint: string, goEnv: string)

  // The value of a Config.
  datatype Settings = Settings(
    exporters: seq<ExporterType>, endpoint: string, interval: int64, insecure: bool, env: string,
    enableRuntime: bool, memStatsInterval: int64, enableHost: bool)

  function GetEnvOrDefault(value: string, default: string): string {
    if value != "" then value else default
  }

  function Defaults(e: Environment): Settings {
    Settings([PROMETHEUS], GetEnvOrDefault(e.endpoint, "localhost:4317"), 15 * SECOND, true,
             GetEnvOrDefault(e.goEnv, "test"), true, 5 * SECOND, true)
  }

  class Config {
    var exporters: seq<ExporterType>
    var endpoint: string
    var interval: int64
    var insecure: bool
    var env: string
    var enableRuntime: bool
    var memStatsInterval: int64
    var enableHost: bool

    function View(): Settings
      reads this
    {
      Settings(exporters, endpoint, interval, insecure, env, enableRuntime, memStatsInterval, enableHost)
    }

    // DefaultConfig
    constructor (e: Environment)
      ensures View() == Defaults(e)
    {
      exporters, endpoint, interval := [PROMETHEUS], GetEnvOrDefault(e.endpoint, "localhost:4317"), 15 * SECOND;
      insecure, env := true, GetEnvOrDefault(e.goEnv, "test");
      enableRuntime, memStatsInterval, enableHost := true, 5 * SECOND, true;
    }

    // The exporter part of a block.
    method SetExporting(b: Block)
      modifies this`exporters, this`endpoint, this`interval, this`insecure
      ensures exporters == if b.exporters == [] then old(exporters) else Parsed(b.exporters)
      ensures endpoint == GetEnvOrDefault(b.endpoint, old(endpoint))
      ensures interval == if b.interval > 0 then b.interval * SECOND else old(interval)
      ensures insecure == b.insecure
    {
      if |b.exporters| > 0 {
        exporters := ParseExporters(b.exporters);
      }
      if b.endpoint != "" {
        endpoint := b.endpoint;
      }
      if b.interval > 0 {
        IntervalNeverOverflows(b.interval);
        interval := IntervalNanos(b.interval);
      }
      insecure := b.insecure;
    }

    // The rest; without an environment in the block GO_ENV is read once more.
    method SetCollecting(b: Block, e: Environment)
      modifies this`env, this`enableRuntime, this`memStatsInterval, this`enableHost
      ensures env == GetEnvOrDefault(b.env, GetEnvOrDefault(e.goEnv, "test"))
      ensures enableRuntime == b.enableRuntime && enableHost == b.enableHost
      ensures memStatsInterval == if b.memStatsInterval > 0 then b.memStatsInterval * SECOND else old(memStatsInterval)
    {
      if b.env != "" {
        env := b.env;
      } else {
        env := GetEnvOrDefault(e.goEnv, "test");
      }
      enableHost := b.enableHost;
      enableRuntime := b.enableRuntime;
      if b.memStatsInterval > 0 {
        IntervalNeverOverflows(b.memStatsInterval);
        memStatsInterval := IntervalNanos(b.memStatsInterval);
      }
    }
  }

  // What a block sets: strings, names and positive intervals when they are given, the
  // three switches always.
  function Overridden(s: Settings, b: Block): Settings {
    Settings(
      if b.exporters == [] then s.exporters else Parsed(b.exporters),
      GetEnvOrDefault(b.endpoint, s.endpoint),
      if b.interval > 0 then b.interval * SECOND else s.interval,
      b.insecure,
      GetEnvOrDefault(b.env, s.env),
      b.enableRuntime,
      if b.memStatsInterval > 0 then b.memStatsInterval * SECOND else s.memStatsInterval,
      b.enableHost)
  }

  /** NewConfigFromProto: the defaults, overridden by what the block sets; the intervals
      are the exact numbers of nanoseconds. */
  method NewConfigFromProto(block: Option<Block>, e: Environment) returns (config: Config)
    ensures fresh(config)
    ensures config.View() == if block.None? then Defaults(e) else Overridden(Defaults(e), block.value)
    ensures block.Some? ==> config.exporters != []
    // Field by field.
    ensures config.exporters == if block.None? || block.value.exporters == [] then ["prometheus"]
                                else Parsed(block.value.exporters)
    ensures config.endpoint == if block.Some? && block.value.endpoint != "" then block.value.endpoint
                               else if e.endpoint != "" then e.endpoint else "localhost:4317"
    ensures config.env == if block.Some? && block.value.env != "" then block.value.env
                          else if e.goEnv != "" then e.goEnv else "test"
    ensures config.interval
         == (if block.Some? && block.value.interval > 0 then block.value.interval else 15) * 1_000_000_000
    ensures config.memStatsInterval
         == (if block.Some? && block.value.memStatsInterval > 0 then block.value.memStatsInterval else 5)
            * 1_000_000_000
    ensures config.insecure <==> block.None? || block.value.insecure
    ensures config.enableRuntime <==> block.None? || block.value.enableRuntime
    ensures config.enableHost <==> block.None? || block.value.enableHost
  {
    config := new Config(e);
    if block.None? {
      return;
    }
    ParsingIsIdempotent(block.value.exporters);
    config.SetExporting(block.value);
    config.SetCollecting(block.value, e);
  }

  /** The switches are documented to be on by default, but that is so only without a block:
      a block that leaves a switch out turns it off. The defaults remain exactly when all
      three are written out as true and everything else given equals its default. */
  lemma DefaultsNeedTheSwitches(b: Block, e: Environment)
    ensures Overridden(Defaults(e), b) == Defaults(e)
       <==> && b.insecure && b.enableRuntime && b.enableHost
            && (b.exporters == [] || Parsed(b.exporters) == [PROMETHEUS])
            && (b.endpoint == "" || b.endpoint == Defaults(e).endpoint)
            && (b.env == "" || b.env == Defaults(e).env)
            && (b.interval <= 0 || b.interval == 15)
            && (b.memStatsInterval <= 0 || b.memStatsInterval == 5)
    ensures Overridden(Defaults(e), Block([], "", 0, false, "", false, 0, false))
         == Defaults(e).(insecure := false, enableRuntime := false, enableHost := false)
  {
    ParsingIsIdempotent(b.exporters);
  }
}
