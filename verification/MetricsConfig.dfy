// From raw exporter names to metric readers (metrics/options.go, metrics/exporter.go).
module MetricsConfig {
  import opened Wrappers
  import opened Text

  type ExporterType = string

  const PROMETHEUS: ExporterType := "prometheus"
  const OTLP_GRPC: ExporterType := "otlp-grpc"
  const OTLP_HTTP: ExporterType := "otlp-http"
  const OTLP: ExporterType := "otlp"

  // ----- parsing ---------------------------------------------------------------------

  // What one raw name stands for; unknown names are dropped.
  function ParseExporter(raw: string): Option<ExporterType> {
    match ToLower(TrimSpace(raw))
    case "prometheus" => Some(PROMETHEUS)
    case "otlp" => Some(OTLP_GRPC)
    case "otlp-grpc" => Some(OTLP_GRPC)
    case "otlp-http" => Some(OTLP_HTTP)
    case _ => None
  }

  /** The names that are accepted, in any case and with any white space around them; "otlp"
      is an alias, and every other name is dropped. */
  lemma NamesByText(raw: string)
    ensures var name, parsed := ToLower(TrimSpace(raw)), ParseExporter(raw);
            && (parsed == Some("prometheus") <==> name == "prometheus")
            && (parsed == Some("otlp-grpc") <==> name == "otlp" || name == "otlp-grpc")
            && (parsed == Some("otlp-http") <==> name == "otlp-http")
            && (parsed.None? <==> name !in {"prometheus", "otlp", "otlp-grpc", "otlp-http"})
  {
  }

  function FilterMap<T, U>(f: T -> Option<U>, s: seq<T>): seq<U> {
    if s == [] then []
    else
      var rest := FilterMap(f, s[..|s| - 1]);
      match f(s[|s| - 1])
      case Some(u) => rest + [u]
      case None => rest
  }

  function Accepted(raws: seq<string>): seq<ExporterType> {
    FilterMap(ParseExporter, raws)
  }

  function Parsed(raws: seq<string>): seq<ExporterType> {
    if Accepted(raws) == [] then [PROMETHEUS] else Accepted(raws)
  }

  method ParseExporters(exporters: seq<string>) returns (result: seq<ExporterType>)
    ensures result == Parsed(exporters)
  {
    result := [];
    for i := 0 to |exporters|
      invariant result == Accepted(exporters[..i])
    {
      assert exporters[..i + 1][..i] == exporters[..i];
      match ToLower(TrimSpace(exporters[i])) {
        case "prometheus" => result := result + [PROMETHEUS];
        case "otlp" => result := result + [OTLP_GRPC];
        case "otlp-grpc" => result := result + [OTLP_GRPC];
        case "otlp-http" => result := result + [OTLP_HTTP];
        case _ =>
      }
    }
    assert exporters[..|exporters|] == exporters;
    if |result| == 0 {
      result := [PROMETHEUS];
    }
  }

  /** Prometheus is the default, and no other: when not one name is accepted. */
  lemma ParsedOrDefault(raws: seq<string>)
    ensures (forall i :: 0 <= i < |raws| ==>
               ToLower(TrimSpace(raws[i])) !in {"prometheus", "otlp", "otlp-grpc", "otlp-http"})
            ==> Parsed(raws) == ["prometheus"]
    ensures (exists i :: 0 <= i < |raws| &&
               ToLower(TrimSpace(raws[i])) in {"prometheus", "otlp", "otlp-grpc", "otlp-http"})
            ==> Parsed(raws) == Accepted(raws) != []
  {
    var at := AcceptedKeepsOrder(raws);
    forall i | 0 <= i < |raws| {
      NamesByText(raws[i]);
    }
    if Accepted(raws) != [] {
      assert ParseExporter(raws[at[0]]).Some?;
    }
    if i :| 0 <= i < |raws| && ToLower(TrimSpace(raws[i])) in {"prometheus", "otlp", "otlp-grpc", "otlp-http"} {
      assert ParseExporter(raws[i]).Some? && i in at;
    }
  }

  /** The accepted names in their order, each accepted one once: the positions they come
      from increase, and no position that parses is missing. */
  lemma AcceptedKeepsOrder(raws: seq<string>) returns (at: seq<nat>)
    ensures |at| == |Accepted(raws)|
    ensures forall i :: 0 <= i < |at| ==> at[i] < |raws| && ParseExporter(raws[at[i]]) == Some(Accepted(raws)[i])
    ensures forall i, j :: 0 <= i < j < |at| ==> at[i] < at[j]
    ensures forall k {:trigger k in at} :: 0 <= k < |raws| && ParseExporter(raws[k]).Some? ==> k in at
  {
    at := FilterMapKeepsOrder(ParseExporter, raws);
  }

  lemma {:induction false} FilterMapKeepsOrder<T, U>(f: T -> Option<U>, s: seq<T>) returns (at: seq<nat>)
    ensures |at| == |FilterMap(f, s)|
    ensures forall i :: 0 <= i < |at| ==> at[i] < |s| && f(s[at[i]]) == Some(FilterMap(f, s)[i])
    ensures forall i, j :: 0 <= i < j < |at| ==> at[i] < at[j]
    ensures forall k {:trigger k in at} :: 0 <= k < |s| && f(s[k]).Some? ==> k in at
  {
    if s == [] {
      at := [];
    } else {
      var last := |s| - 1;
      at := FilterMapKeepsOrder(f, s[..last]);
      KeptInPrefix(f, s, at);
      if f(s[last]).Some? {
        at := at + [last];
      }
    }
  }

  // Positions that are right for a prefix are right for the sequence.
  lemma KeptInPrefix<T, U>(f: T -> Option<U>, s: seq<T>, at: seq<nat>)
    requires s != []
    requires var init := s[..|s| - 1];
             && |at| == |FilterMap(f, init)|
             && forall i :: 0 <= i < |at| ==> at[i] < |init| && f(init[at[i]]) == Some(FilterMap(f, init)[i])
    ensures var init := s[..|s| - 1];
            && (forall i :: 0 <= i < |at| ==> at[i] < |s| - 1 && f(s[at[i]]) == Some(FilterMap(f, init)[i]))
            && FilterMap(f, s) == FilterMap(f, init)
                                + (if f(s[|s| - 1]).Some? then [f(s[|s| - 1]).value] else [])
  {
  }

  predicate Canonical(e: ExporterType) {
    e == PROMETHEUS || e == OTLP_GRPC || e == OTLP_HTTP
  }

  lemma AcceptedIsCanonical(raws: seq<string>)
    ensures forall i :: 0 <= i < |Accepted(raws)| ==> Canonical(Accepted(raws)[i])
  {
    var at := AcceptedKeepsOrder(raws);
    forall i | 0 <= i < |at| ensures Canonical(Accepted(raws)[i]) {
      assert ParseExporter(raws[at[i]]) == Some(Accepted(raws)[i]);
    }
  }

  // A canonical name parses as itself.
  lemma CanonicalParsesAsItself(e: ExporterType)
    requires Canonical(e)
    ensures ParseExporter(e) == Some(e)
  {
    assert e == "" + e + "";
    TrimSpaceOfPadded("", e, "");
    assert ToLower(e) == e;
  }

  lemma {:induction false} AcceptedOfCanonical(es: seq<ExporterType>)
    requires forall i :: 0 <= i < |es| ==> Canonical(es[i])
    ensures Accepted(es) == es
  {
    if es != [] {
      CanonicalParsesAsItself(es[|es| - 1]);
      AcceptedOfCanonical(es[..|es| - 1]);
    }
  }

  /** Parsing what was parsed changes nothing, and the result is never empty. */
  lemma ParsingIsIdempotent(raws: seq<string>)
    ensures Parsed(raws) != [] && Parsed(Parsed(raws)) == Parsed(raws)
    ensures forall i :: 0 <= i < |Parsed(raws)| ==> Canonical(Parsed(raws)[i])
    ensures forall e :: Canonical(e) <==> e in {"prometheus", "otlp-grpc", "otlp-http"}
  {
    AcceptedIsCanonical(raws);
    AcceptedOfCanonical(Parsed(raws));
  }

  /** Case and surrounding white space of a name do not matter. */
  lemma NameSpellingIsIgnored(left: string, raw: string, right: string, other: string)
    requires Blank(left) && Blank(right) && ToLower(raw) == ToLower(other)
    ensures ParseExporter(left + raw + right) == ParseExporter(other)
  {
    TrimSpaceIgnoresPadding(left, raw, right);
    TrimSpaceOfLower(raw);
    TrimSpaceOfLower(other);
  }

  // ----- validation ----------------------------------------------------------------------

  // Both OTLP transports are asked for.
  predicate Conflicting(exporters: seq<ExporterType>) {
    (OTLP_GRPC in exporters || OTLP in exporters) && OTLP_HTTP in exporters
  }

  method ValidateConfig(exporters: seq<ExporterType>) returns (ok: bool)
    ensures ok <==> !Conflicting(exporters)
    ensures ok <==> !(("otlp-grpc" in exporters || "otlp" in exporters) && "otlp-http" in exporters)
  {
    var hasGRPC, hasHTTP := false, false;
    for i := 0 to |exporters|
      invariant hasGRPC <==> OTLP_GRPC in exporters[..i] || OTLP in exporters[..i]
      invariant hasHTTP <==> OTLP_HTTP in exporters[..i]
    {
      if exporters[i] == OTLP_GRPC || exporters[i] == OTLP {
        hasGRPC := true;
      }
      if exporters[i] == OTLP_HTTP {
        hasHTTP := true;
      }
    }
    assert exporters[..|exporters|] == exporters;
    ok := !(hasGRPC && hasHTTP);
  }

  /** In terms of the raw names: a configuration is refused exactly when some spelling of
      "otlp" or "otlp-grpc" and some spelling of "otlp-http" are both in the list. */
  lemma ConflictIsInTheRawNames(raws: seq<string>)
    ensures Conflicting(Parsed(raws))
       <==> && (exists i :: 0 <= i < |raws| && ToLower(TrimSpace(raws[i])) in {"otlp", "otlp-grpc"})
            && (exists i :: 0 <= i < |raws| && ToLower(TrimSpace(raws[i])) == "otlp-http")
  {
    var at := AcceptedKeepsOrder(raws);
    ParsingIsIdempotent(raws);
    NameIsAccepted(raws, at, OTLP_GRPC);
    NameIsAccepted(raws, at, OTLP_HTTP);
    NamedInRaws(raws);
    assert OTLP !in Parsed(raws) by {
      assert forall i :: 0 <= i < |Parsed(raws)| ==> Canonical(Parsed(raws)[i]);
      assert !Canonical(OTLP);
    }
  }

  lemma NamedInRaws(raws: seq<string>)
    ensures (exists i :: 0 <= i < |raws| && ParseExporter(raws[i]) == Some(OTLP_GRPC))
       <==> exists i :: 0 <= i < |raws| && ToLower(TrimSpace(raws[i])) in {"otlp", "otlp-grpc"}
    ensures (exists i :: 0 <= i < |raws| && ParseExporter(raws[i]) == Some(OTLP_HTTP))
       <==> exists i :: 0 <= i < |raws| && ToLower(TrimSpace(raws[i])) == "otlp-http"
  {
    forall i | 0 <= i < |raws|
      ensures ParseExporter(raws[i]) == Some(OTLP_GRPC) <==> ToLower(TrimSpace(raws[i])) in {"otlp", "otlp-grpc"}
      ensures ParseExporter(raws[i]) == Some(OTLP_HTTP) <==> ToLower(TrimSpace(raws[i])) == "otlp-http"
    {
      NamesByText(raws[i]);
    }
  }

  lemma NameIsAccepted(raws: seq<string>, at: seq<nat>, e: ExporterType)
    requires |at| == |Accepted(raws)|
    requires forall i :: 0 <= i < |at| ==> at[i] < |raws| && ParseExporter(raws[at[i]]) == Some(Accepted(raws)[i])
    requires forall k {:trigger k in at} :: 0 <= k < |raws| && ParseExporter(raws[k]).Some? ==> k in at
    ensures e in Accepted(raws) <==> exists i :: 0 <= i < |raws| && ParseExporter(raws[i]) == Some(e)
  {
    if e in Accepted(raws) {
      var i :| 0 <= i < |at| && Accepted(raws)[i] == e;
      assert ParseExporter(raws[at[i]]) == Some(e);
    }
    if exists k :: 0 <= k < |raws| && ParseExporter(raws[k]) == Some(e) {
      var k :| 0 <= k < |raws| && ParseExporter(raws[k]) == Some(e);
      assert k in at;
      var i :| 0 <= i < |at| && at[i] == k;
      assert Accepted(raws)[i] == e;
    }
  }

  // ----- readers ---------------------------------------------------------------------------

  datatype Reader = PrometheusReader | OtlpGrpcReader | OtlpHttpReader
  datatype ReaderError = NoExporter | Unsupported(index: nat) | Constructor(index: nat)
  datatype Result<T> = Ok(value: T) | Err(error: ReaderError)

  // newMetricReader for the exporter at an index; `fails` says which constructors fail.
  function NewMetricReader(exporter: ExporterType, index: nat, fails: nat -> bool): Result<Reader> {
    match exporter
    case "prometheus" => if fails(index) then Err(Constructor(index)) else Ok(PrometheusReader)
    case "otlp" => if fails(index) then Err(Constructor(index)) else Ok(OtlpGrpcReader)
    case "otlp-grpc" => if fails(index) then Err(Constructor(index)) else Ok(OtlpGrpcReader)
    case "otlp-http" => if fails(index) then Err(Constructor(index)) else Ok(OtlpHttpReader)
    case _ => Err(Unsupported(index))
  }

  // The first index that yields an error, or the number of exporters.
  function FirstFailure(exporters: seq<ExporterType>, fails: nat -> bool, from: nat): (k: nat)
    requires from <= |exporters|
    ensures from <= k <= |exporters|
    ensures forall i :: from <= i < k ==> NewMetricReader(exporters[i], i, fails).Ok?
    ensures k < |exporters| ==> NewMetricReader(exporters[k], k, fails).Err?
    decreases |exporters| - from
  {
    if from == |exporters| || NewMetricReader(exporters[from], from, fails).Err? then from
    else FirstFailure(exporters, fails, from + 1)
  }

  // What NewMetricReaders reports.
  function ReadersError(exporters: seq<ExporterType>, fails: nat -> bool): Option<ReaderError> {
    if exporters == [] then Some(NoExporter)
    else
      var k := FirstFailure(exporters, fails, 0);
      if k == |exporters| then None else Some(NewMetricReader(exporters[k], k, fails).error)
  }

  method NewMetricReaders(exporters: seq<ExporterType>, fails: nat -> bool) returns (r: Result<seq<Reader>>)
    ensures r.Err? <==> ReadersError(exporters, fails).Some?
    ensures r.Err? ==> r.error == ReadersError(exporters, fails).value
    ensures exporters == [] ==> r == Err(NoExporter)
    ensures r.Err? && exporters != [] ==>
              exists k :: 0 <= k < |exporters| && NewMetricReader(exporters[k], k, fails) == Err(r.error)
                          && forall i :: 0 <= i < k ==> NewMetricReader(exporters[i], i, fails).Ok?
    ensures r.Ok? ==> |r.value| == |exporters|
    ensures r.Ok? ==> forall i :: 0 <= i < |exporters| ==> NewMetricReader(exporters[i], i, fails) == Ok(r.value[i])
  {
    if |exporters| == 0 {
      return Err(NoExporter);
    }
    var readers := [];
    for i := 0 to |exporters|
      invariant |readers| == i
      invariant forall k :: 0 <= k < i ==> NewMetricReader(exporters[k], k, fails) == Ok(readers[k])
      invariant FirstFailure(exporters, fails, 0) == FirstFailure(exporters, fails, i)
    {
      var reader := NewMetricReader(exporters[i], i, fails);
      if reader.Err? {
        return Err(reader.error);
      }
      readers := readers + [reader.value];
    }
    r := Ok(readers);
  }

  /** With exporters that went through parsing, only a constructor can stop reader
      creation, and it does so exactly when one of them fails. */
  lemma ParsedExportersFailOnlyInConstructors(raws: seq<string>, fails: nat -> bool)
    ensures ReadersError(Parsed(raws), fails).None? <==> forall i :: 0 <= i < |Parsed(raws)| ==> !fails(i)
    ensures ReadersError(Parsed(raws), fails).Some? ==> ReadersError(Parsed(raws), fails).value.Constructor?
  {
    ParsingIsIdempotent(raws);
    var exporters := Parsed(raws);
    var k := FirstFailure(exporters, fails, 0);
    forall i | 0 <= i < |exporters| ensures NewMetricReader(exporters[i], i, fails).Err? <==> fails(i) {
      assert Canonical(exporters[i]);
    }
    if k < |exporters| {
      assert fails(k) && Canonical(exporters[k]);
    }
  }

  // What a reader exists for.
  predicate Supported(e: ExporterType) {
    Canonical(e) || e == OTLP
  }

  /** Which reader a name gets. */
  lemma ReaderFailsExactly(e: ExporterType, index: nat, fails: nat -> bool)
    ensures Supported(e) <==> e in {"prometheus", "otlp", "otlp-grpc", "otlp-http"}
    ensures NewMetricReader(e, index, fails)
         == if !Supported(e) then Err(Unsupported(index))
            else if fails(index) then Err(Constructor(index))
            else if e == "prometheus" then Ok(PrometheusReader)
            else if e == "otlp-http" then Ok(OtlpHttpReader)
            else Ok(OtlpGrpcReader)
  {
  }

  /** Lists that are built in code are not parsed. Such a list can fail only in a constructor,
      whatever the constructors do, exactly when it is not empty and every name in it is
      supported. Validation looks at neither. */
  lemma OnlyConstructorsFailExactly(exporters: seq<ExporterType>)
    ensures (forall fails :: ReadersError(exporters, fails).Some? ==> ReadersError(exporters, fails).value.Constructor?)
       <==> exporters != [] && forall i :: 0 <= i < |exporters| ==>
              exporters[i] in {"prometheus", "otlp", "otlp-grpc", "otlp-http"}
  {
    if exporters != [] {
      if i :| 0 <= i < |exporters| && !Supported(exporters[i]) {
        var none: nat -> bool := _ => false;
        ReaderFailsExactly(exporters[i], i, none);
        var k := FirstFailure(exporters, none, 0);
        assert k <= i;
        ReaderFailsExactly(exporters[k], k, none);
        assert ReadersError(exporters, none) == Some(Unsupported(k));
      } else {
        forall fails: nat -> bool | ReadersError(exporters, fails).Some?
          ensures ReadersError(exporters, fails).value.Constructor?
        {
          var k := FirstFailure(exporters, fails, 0);
          ReaderFailsExactly(exporters[k], k, fails);
        }
      }
    } else {
      assert ReadersError(exporters, _ => false) == Some(NoExporter);
    }
  }

  /** Both conditions are needed for lists that validation accepts. */
  lemma ValidatedExportersCanStillFail(fails: nat -> bool)
    ensures !Conflicting([]) && ReadersError([], fails) == Some(NoExporter)
    ensures !Conflicting(["statsd"]) && ReadersError(["statsd"], fails) == Some(Unsupported(0))
  {
    assert NewMetricReader("statsd", 0, fails) == Err(Unsupported(0));
  }
}
