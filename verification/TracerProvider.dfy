// Installing the global tracer provider (tracer/tracer.go).
module TracerProvider {
  import opened Wrappers
  import opened AppIdentity

  datatype TracerConfig = TracerConfig(batcher: string, endpoint: string, sampler: real, env: string)

  datatype Exporter = OtlpHttp | OtlpGrpc | Stdout

  // The resource attributes of a provider.
  datatype Resource = Resource(namespace: string, name: string, version: string, instance: string, env: string)

  // A ParentBased provider over a trace-id ratio.
  datatype Installed = Installed(ratio: real, resource: Resource, batcher: Option<Exporter>)

  // NewTracerExporter: jaeger is refused, unknown names write to stdout.
  method NewTracerExporter(name: string, libraryFails: bool) returns (exporter: Option<Exporter>)
    ensures exporter.None? <==> name == "jaeger" || libraryFails
    ensures exporter.Some? ==>
              && (exporter.value == OtlpHttp <==> name == "otlp-http")
              && (exporter.value == OtlpGrpc <==> name == "otlp-grpc")
  {
    match name {
      case "jaeger" => exporter := None;
      case "otlp-http" => exporter := if libraryFails then None else Some(OtlpHttp);
      case "otlp-grpc" => exporter := if libraryFails then None else Some(OtlpGrpc);
      case _ => exporter := if libraryFails then None else Some(Stdout);
    }
  }

  // The identity that a provider carries.
  function ResourceOf(value: Identity, env: string): Resource {
    Resource(value.project, value.serviceName, value.version, value.instanceId, env)
  }

  // The OpenTelemetry globals; without a provider the default one passes contexts on.
  class Globals {
    var provider: Option<Installed>

    constructor ()
      ensures provider.None?
    {
      provider := None;
    }

    /** NewTracerProvider: it fails exactly when an exporter is asked for and refused, and
        installs a provider with the identity of the application exactly when one is
        wanted and nothing fails; otherwise the global provider stays as it was. */
    method NewTracerProvider(cfg: Option<TracerConfig>, appInfo: Option<Identity>, goEnv: string, libraryFails: bool)
      returns (failed: bool)
      modifies this
      // A sampler of zero does not switch tracing off: the provider still follows a parent.
      ensures failed <==>
                && cfg.Some? && appInfo.Some? && !(cfg.value.sampler < 0.0)
                && cfg.value.endpoint != "" && (cfg.value.batcher == "jaeger" || libraryFails)
      ensures failed || cfg.None? || appInfo.None? || cfg.value.sampler < 0.0 ==> provider == old(provider)
      ensures !failed && cfg.Some? && appInfo.Some? && !(cfg.value.sampler < 0.0) ==>
                && provider.Some?
                && provider.value.ratio == cfg.value.sampler
                && provider.value.resource.namespace == appInfo.value.project
                && provider.value.resource.name == appInfo.value.serviceName
                && provider.value.resource.version == appInfo.value.version
                && provider.value.resource.instance == appInfo.value.instanceId
                && provider.value.resource.env == (if cfg.value.env != "" then cfg.value.env else goEnv)
                && (provider.value.batcher.Some? <==> cfg.value.endpoint != "")
                && (provider.value.batcher == Some(OtlpHttp) ==> cfg.value.batcher == "otlp-http")
                && (provider.value.batcher == Some(OtlpGrpc) ==> cfg.value.batcher == "otlp-grpc")
                && (provider.value.batcher == Some(Stdout) ==> cfg.value.batcher !in {"otlp-http", "otlp-grpc"})
    {
      if cfg.None? || appInfo.None? {
        return false;
      }
      if cfg.value.sampler < 0.0 {
        return false;
      }
      var env := cfg.value.env;
      if env == "" {
        env := goEnv;
      }
      var batcher := None;
      if |cfg.value.endpoint| > 0 {
        batcher := NewTracerExporter(cfg.value.batcher, libraryFails);
        if batcher.None? {
          return true;
        }
      }
      provider := Some(Installed(cfg.value.sampler, ResourceOf(appInfo.value, env), batcher));
      failed := false;
    }
  }
}
