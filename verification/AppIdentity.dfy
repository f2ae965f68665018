// The application identity of config/app_info.go: objects on the heap, their
// normalisation, and the one service name that everybody derives from them.
module AppIdentity {
  import opened Wrappers
  import opened Text

  // A Go map[string]string.
  class Labels {
    var entries: map<string, string>

    constructor (entries: map<string, string>)
      ensures this.entries == entries
    {
      this.entries := entries;
    }
  }

  // The value of a conf.AppInfo; a nil metadata map reads as an empty one.
  datatype Identity = Identity(
    project: string, appId: string, instanceId: string, serviceName: string, version: string, hostname: string,
    metadata: map<string, string>)

  const EMPTY_IDENTITY := Identity("", "", "", "", "", "", map[])

  // conf.AppInfo
  class AppInfo {
    var project: string
    var appId: string
    var instanceId: string
    var serviceName: string
    var version: string
    var hostname: string
    var metadata: Labels?

    constructor (value: Identity)
      ensures fresh(metadata) && metadata != null && View() == value
    {
      project, appId, instanceId := value.project, value.appId, value.instanceId;
      serviceName, version, hostname := value.serviceName, value.version, value.hostname;
      metadata := new Labels(value.metadata);
    }

    function View(): Identity
      reads this, metadata
    {
      Identity(project, appId, instanceId, serviceName, version, hostname,
               if metadata == null then map[] else metadata.entries)
    }
  }

  function ViewOf(info: AppInfo?): Identity
    reads info, if info == null then null else info.metadata
  {
    if info == null then EMPTY_IDENTITY else info.View()
  }

  // POD_NAME, HOSTNAME and os.Hostname of the process.
  datatype Env = Env(podName: string, hostnameVariable: string, osHostname: Option<string>)

  const UNKNOWN_HOST := "unknown-host"
  const DEFAULT_VERSION := "1.0.0"

  // The first candidate that is not blank.
  function ResolvedHost(env: Env): string {
    if TrimSpace(env.podName) != "" then TrimSpace(env.podName)
    else if TrimSpace(env.hostnameVariable) != "" then TrimSpace(env.hostnameVariable)
    else if env.osHostname.Some? && TrimSpace(env.osHostname.value) != "" then TrimSpace(env.osHostname.value)
    else UNKNOWN_HOST
  }

  method ResolveHost(env: Env) returns (host: string)
    ensures host == ResolvedHost(env) && host != "" && Trimmed(host)
    ensures var pod, variable := TrimSpace(env.podName), TrimSpace(env.hostnameVariable);
            var os := if env.osHostname.Some? then TrimSpace(env.osHostname.value) else "";
            && (pod != "" ==> host == pod)
            && (pod == "" && variable != "" ==> host == variable)
            && (pod == "" && variable == "" && os != "" ==> host == os)
            && (pod == "" && variable == "" && os == "" ==> host == "unknown-host")
  {
    var variables := [env.podName, env.hostnameVariable];
    for i := 0 to |variables|
      invariant forall k :: 0 <= k < i ==> TrimSpace(variables[k]) == ""
    {
      host := TrimSpace(variables[i]);
      if host != "" {
        var _, _ := TrimSpaceSplits(variables[i]);
        assert variables[0] == env.podName && variables[1] == env.hostnameVariable;
        return;
      }
    }
    assert variables[0] == env.podName && variables[1] == env.hostnameVariable;
    if env.osHostname.Some? {
      host := TrimSpace(env.osHostname.value);
      if host != "" {
        var _, _ := TrimSpaceSplits(env.osHostname.value);
        return;
      }
    }
    host := UNKNOWN_HOST;
  }

  // serviceName(project, appID)
  function DerivedName(project: string, appId: string): string {
    if project == "" then appId
    else if appId == "" then project
    else project + "-" + appId
  }

  // The parts of a derived name.
  function Parts(project: string, appId: string): seq<string> {
    (if project == "" then [] else [project]) + (if appId == "" then [] else [appId])
  }

  // The name of two parts, cut at an earlier dash and at a later one.
  predicate CutsLater(project: string, appId: string, other: string, otherApp: string, between: string) {
    && |Parts(project, appId)| == |Parts(other, otherApp)| == 2
    && other == project + "-" + between && appId == between + "-" + otherApp
  }

  // The one part of the first pair is the name that the two parts of the second make up.
  predicate IsUncut(project: string, appId: string, other: string, otherApp: string) {
    |Parts(other, otherApp)| == 2 && Parts(project, appId) == [other + "-" + otherApp]
  }

  /** Which pairs share a derived name: those with the same parts, and those that cut one
      name differently, at another dash or not at all. */
  lemma NamesCollideExactly(project: string, appId: string, other: string, otherApp: string)
    ensures DerivedName(project, appId) == DerivedName(other, otherApp)
       <==> || Parts(project, appId) == Parts(other, otherApp)
            || (exists between :: CutsLater(project, appId, other, otherApp, between))
            || (exists between :: CutsLater(other, otherApp, project, appId, between))
            || IsUncut(project, appId, other, otherApp) || IsUncut(other, otherApp, project, appId)
    ensures |Parts(project, appId)| == |Parts(other, otherApp)| == 2 && '-' !in project && '-' !in other
            ==> (DerivedName(project, appId) == DerivedName(other, otherApp) <==> project == other && appId == otherApp)
  {
    var bothCut := |Parts(project, appId)| == |Parts(other, otherApp)| == 2;
    if bothCut && DerivedName(project, appId) == DerivedName(other, otherApp) {
      if |project| <= |other| {
        TwoCutsOfOneName(project, appId, other, otherApp);
      } else {
        TwoCutsOfOneName(other, otherApp, project, appId);
      }
    }
    forall between | CutsLater(project, appId, other, otherApp, between)
      ensures DerivedName(project, appId) == DerivedName(other, otherApp)
    {
      assert (project + "-" + between) + "-" + otherApp == project + "-" + (between + "-" + otherApp);
    }
    forall between | CutsLater(other, otherApp, project, appId, between)
      ensures DerivedName(project, appId) == DerivedName(other, otherApp)
    {
      assert (other + "-" + between) + "-" + appId == other + "-" + (between + "-" + appId);
    }
    OnePartIsTheName(project, appId);
    OnePartIsTheName(other, otherApp);
  }

  lemma OnePartIsTheName(project: string, appId: string)
    ensures |Parts(project, appId)| == 0 <==> DerivedName(project, appId) == ""
    ensures |Parts(project, appId)| == 1 ==> Parts(project, appId) == [DerivedName(project, appId)]
    ensures |Parts(project, appId)| == 2 ==>
              DerivedName(project, appId) == project + "-" + appId && Parts(project, appId) == [project, appId]
  {
  }

  lemma TwoCutsOfOneName(project: string, appId: string, other: string, otherApp: string)
    requires |Parts(project, appId)| == |Parts(other, otherApp)| == 2 && |project| <= |other|
    requires DerivedName(project, appId) == DerivedName(other, otherApp)
    ensures (project == other && appId == otherApp)
         || ('-' in other && exists between :: CutsLater(project, appId, other, otherApp, between))
  {
    var name, n, m := DerivedName(project, appId), |project|, |other|;
    assert name[..n] == project && name[n] == '-' && name[n + 1..] == appId;
    assert name[..m] == other && name[m] == '-' && name[m + 1..] == otherApp;
    if n < m {
      var between := name[n + 1..m];
      assert other[n] == '-';
      assert other == project + "-" + between;
      assert appId == between + "-" + otherApp;
      assert CutsLater(project, appId, other, otherApp, between);
    }
  }

  // ServiceName(info), nil included
  function ServiceName(value: Identity): string {
    if value.serviceName != "" then value.serviceName else DerivedName(value.project, value.appId)
  }

  function Or(value: string, default: string): string {
    if value == "" then default else value
  }

  // What normalisation makes of a value.
  function Normalized(value: Identity, env: Env): Identity {
    var hostname := Or(value.hostname, ResolvedHost(env));
    value.(version := Or(value.version, DEFAULT_VERSION),
           hostname := hostname,
           serviceName := Or(value.serviceName, DerivedName(value.project, value.appId)),
           instanceId := if value.appId != "" then Or(value.instanceId, hostname) else value.instanceId)
  }

  // CloneAppInfo: a copy that shares nothing with the original.
  method CloneAppInfo(info: AppInfo?) returns (cloned: AppInfo?)
    ensures cloned == null <==> info == null
    ensures cloned != null ==> fresh(cloned) && (cloned.metadata != null ==> fresh(cloned.metadata))
    ensures cloned != null ==> cloned.View() == info.View()
  {
    if info == null {
      return null;
    }
    cloned := new AppInfo(info.View());
  }

  // NormalizeAppInfo: the argument is left alone, the result is all new.
  method NormalizeAppInfo(info: AppInfo?, env: Env) returns (normalized: AppInfo)
    ensures fresh(normalized) && normalized.metadata != null && fresh(normalized.metadata)
    ensures normalized.View() == Normalized(ViewOf(info), env)
    ensures var given := if info == null then Identity("", "", "", "", "", "", map[]) else info.View();
            && normalized.project == given.project && normalized.appId == given.appId
            && normalized.metadata.entries == given.metadata
            && normalized.version == (if given.version != "" then given.version else "1.0.0")
            && normalized.hostname == (if given.hostname != "" then given.hostname else ResolvedHost(env))
            && normalized.serviceName
               == (if given.serviceName != "" then given.serviceName
                   else if given.project != "" && given.appId != "" then given.project + "-" + given.appId
                   else given.project + given.appId)
            && normalized.instanceId
               == (if given.instanceId != "" || given.appId == "" then given.instanceId else normalized.hostname)
  {
    var cloned := CloneAppInfo(info);
    if cloned == null {
      normalized := new AppInfo(EMPTY_IDENTITY);
    } else {
      normalized := cloned;
    }
    FillRuntime(normalized, env);
    FillNames(normalized);
  }

  // The first half of NormalizeAppInfo: version, host and metadata.
  method FillRuntime(info: AppInfo, env: Env)
    modifies info`version, info`hostname, info`metadata
    ensures info.metadata != null && (info.metadata == old(info.metadata) || fresh(info.metadata))
    ensures info.View() == old(info.View()).(
                             version := Or(old(info.version), DEFAULT_VERSION),
                             hostname := Or(old(info.hostname), ResolvedHost(env)))
  {
    if info.version == "" {
      info.version := DEFAULT_VERSION;
    }
    if info.hostname == "" {
      info.hostname := ResolveHost(env);
    }
    if info.metadata == null {
      info.metadata := new Labels(map[]);
    }
  }

  // The second half: the names, after the host is known.
  method FillNames(info: AppInfo)
    modifies info`serviceName, info`instanceId
    ensures info.View() == old(info.View()).(
                             serviceName := Or(old(info.serviceName), DerivedName(info.project, info.appId)),
                             instanceId := if info.appId != "" then Or(old(info.instanceId), info.hostname)
                                           else old(info.instanceId))
  {
    if info.serviceName == "" {
      info.serviceName := DerivedName(info.project, info.appId);
    }
    if info.instanceId == "" && info.appId != "" {
      info.instanceId := info.hostname;
    }
  }

  lemma ResolvedHostIsNeverEmpty(env: Env)
    ensures ResolvedHost(env) != ""
  {
  }

  /** Normalisation keeps what the caller gave, fills in what it must, and has nothing
      left to do the second time, even where the process environment has changed. */
  lemma NormalizationIsStable(value: Identity, env: Env, later: Env)
    ensures var n := Normalized(value, env);
            && Normalized(n, later) == n
            && n.version != "" && n.hostname != ""
            && (n.appId != "" ==> n.instanceId != "" && n.serviceName != "")
            && n.project == value.project && n.appId == value.appId && n.metadata == value.metadata
            && (value.version != "" ==> n.version == value.version)
            && (value.hostname != "" ==> n.hostname == value.hostname)
            && (value.serviceName != "" ==> n.serviceName == value.serviceName)
            && (value.instanceId != "" ==> n.instanceId == value.instanceId)
            && (value.appId == "" ==> n.instanceId == value.instanceId)
  {
    ResolvedHostIsNeverEmpty(env);
  }

  // The names under which the parts of a process report themselves: the Kratos app and
  // the logger derive the name, tracer and metrics take the stored field.
  datatype Reported = Reported(app: string, logger: Option<string>, tracer: string, metrics: string)

  function ReportedNames(value: Identity): Reported {
    Reported(
      ServiceName(value),
      if value.appId != "" && ServiceName(value) != "" then Some(ServiceName(value)) else None,
      value.serviceName,
      value.serviceName)
  }

  predicate OneName(r: Reported) {
    && r.app == r.tracer == r.metrics
    && (r.logger.Some? ==> r.logger.value == r.app)
  }

  /** All parts agree on one service name exactly when the stored name is there, or nothing
      to derive it from; so normalised identities always agree. */
  lemma NormalizedIdentitiesHaveOneName(value: Identity, env: Env)
    ensures OneName(ReportedNames(value)) <==> value.serviceName != "" || (value.project == "" && value.appId == "")
    ensures OneName(ReportedNames(Normalized(value, env)))
    ensures var r := ReportedNames(value);
            && (r.logger.Some? <==> value.appId != "" && r.app != "")
            && (OneName(r) <==> r.app == r.tracer && r.app == r.metrics && (r.logger.Some? ==> r.logger.value == r.app))
    ensures ServiceName(Normalized(value, env)) == Normalized(value, env).serviceName == ServiceName(value)
  {
  }
}
