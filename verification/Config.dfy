/**
  Configuration: the sink constructors with their checks, the sorting of a mixed sink list into
  one list a kind, and the resolution of texts into typed values. Numeric settings that are only
  handed on are kept together in `Knobs` records.
 */
module Config {
  import opened Prelude

  datatype Protocol = Grpc | HttpProtobuf
  datatype Sampler = AlwaysOn | AlwaysOff | ParentBasedTraceIdRatio
  datatype Temporality = Cumulative | Delta | LowMemory
  datatype Compression = Gzip | Zstd

  datatype Failure =
    | UnknownProtocol | UnknownSampler | UnknownTemporality | UnknownCompression | UnknownConsoleFormat
    | EmptyField(name: string) | UnknownSinkType

  function ParseProtocol(value: string): Result<Protocol, Failure> {
    match value
    case "grpc" => Ok(Grpc)
    case "http/protobuf" => Ok(HttpProtobuf)
    case "http" => Ok(HttpProtobuf)
    case _ => Err(UnknownProtocol)
  }

  function ParseSampler(value: string): Result<Sampler, Failure> {
    match value
    case "always_on" => Ok(AlwaysOn)
    case "always_off" => Ok(AlwaysOff)
    case "parent_based_traceid_ratio" => Ok(ParentBasedTraceIdRatio)
    case _ => Err(UnknownSampler)
  }

  /** `to_ascii_lowercase` */
  function Lowercase(s: string): string {
    if s == "" then ""
    else [if 'A' <= s[0] <= 'Z' then (s[0] as int - 'A' as int + 'a' as int) as char else s[0]] + Lowercase(s[1..])
  }

  function ParseTemporality(value: string): Result<Temporality, Failure> {
    match Lowercase(value)
    case "cumulative" => Ok(Cumulative)
    case "delta" => Ok(Delta)
    case "lowmemory" => Ok(LowMemory)
    case "low_memory" => Ok(LowMemory)
    case _ => Err(UnknownTemporality)
  }

  function ParseCompression(value: string): Result<Compression, Failure> {
    match Lowercase(value)
    case "gzip" => Ok(Gzip)
    case "zstd" => Ok(Zstd)
    case _ => Err(UnknownCompression)
  }

  /** Letter by letter. */
  lemma {:induction false} LowercaseSpelled(s: string, i: nat)
    requires i < |s|
    ensures |Lowercase(s)| == |s|
    ensures 'A' <= s[i] <= 'Z' ==> Lowercase(s)[i] as int == s[i] as int + 32
    ensures !('A' <= s[i] <= 'Z') ==> Lowercase(s)[i] == s[i]
  {
    if i > 0 {
      LowercaseSpelled(s[1..], i - 1);
    } else if |s| > 1 {
      LowercaseSpelled(s[1..], 0);
    }
  }

  /** The texts that are accepted, and what each of them means. */
  lemma TextsSpelled(text: string)
    ensures ParseProtocol(text).Ok? <==> text in {"grpc", "http/protobuf", "http"}
    ensures ParseProtocol("grpc") == Ok(Grpc)
    ensures ParseProtocol("http/protobuf") == ParseProtocol("http") == Ok(HttpProtobuf)
    ensures ParseSampler(text).Ok? <==> text in {"always_on", "always_off", "parent_based_traceid_ratio"}
    ensures ParseSampler("always_on") == Ok(AlwaysOn) && ParseSampler("always_off") == Ok(AlwaysOff)
    ensures ParseSampler("parent_based_traceid_ratio") == Ok(ParentBasedTraceIdRatio)
    ensures ParseTemporality(text).Ok? <==> Lowercase(text) in {"cumulative", "delta", "lowmemory", "low_memory"}
    ensures Lowercase(text) == "cumulative" ==> ParseTemporality(text) == Ok(Cumulative)
    ensures Lowercase(text) == "delta" ==> ParseTemporality(text) == Ok(Delta)
    ensures Lowercase(text) in {"lowmemory", "low_memory"} ==> ParseTemporality(text) == Ok(LowMemory)
    ensures ParseCompression(text).Ok? <==> Lowercase(text) in {"gzip", "zstd"}
    ensures Lowercase(text) == "gzip" ==> ParseCompression(text) == Ok(Gzip)
    ensures Lowercase(text) == "zstd" ==> ParseCompression(text) == Ok(Zstd)
    ensures ValidConsoleFormat(text) <==> text == "compact" || text == "pretty" || text == "json"
  {
    hide Lowercase;
  }

  lemma {:induction false} LowercaseTwice(s: string)
    ensures Lowercase(Lowercase(s)) == Lowercase(s)
  {
    if s != "" {
      LowercaseTwice(s[1..]);
      assert Lowercase(s)[1..] == Lowercase(s[1..]);
    }
  }

  /** Temporality and compression are read without regard to case. */
  lemma CaseIsIgnored(s: string)
    ensures ParseTemporality(Lowercase(s)) == ParseTemporality(s)
    ensures ParseCompression(Lowercase(s)) == ParseCompression(s)
  {
    hide Lowercase;
    LowercaseTwice(s);
  }

  predicate ValidConsoleFormat(value: string) {
    value in {"compact", "pretty", "json"}
  }

  const DEFAULT_PROTOCOL: string := "grpc"
  const DEFAULT_SAMPLER: string := "parent_based_traceid_ratio"
  const DEFAULT_SAMPLER_ARG: real := 1.0

  type Headers = map<string, string>

  datatype TraceKnobs = TraceKnobs(
    timeoutMs: Option<nat>, batchMaxQueue: Option<nat>, batchMaxExport: Option<nat>,
    batchScheduleDelayMs: Option<nat>, maxExportTimeoutMs: Option<nat>, maxAttributesPerSpan: Option<nat>,
    maxEventsPerSpan: Option<nat>, maxLinksPerSpan: Option<nat>, maxAttributesPerEvent: Option<nat>,
    maxAttributesPerLink: Option<nat>, compression: Option<Compression>)

  datatype MetricKnobs = MetricKnobs(
    timeoutMs: Option<nat>, exportIntervalMs: Option<nat>, exportTimeoutMs: Option<nat>,
    compression: Option<Compression>)

  datatype LogKnobs = LogKnobs(
    timeoutMs: Option<nat>, batchMaxQueue: Option<nat>, batchMaxExport: Option<nat>,
    batchScheduleDelayMs: Option<nat>, maxExportTimeoutMs: Option<nat>, compression: Option<Compression>)

  datatype TraceSink = TraceSink(endpoint: string, protocol: Option<string>, headers: Headers,
                                 sampler: Option<string>, samplerArg: Option<real>, knobs: TraceKnobs)
  datatype MetricSink = MetricSink(endpoint: string, protocol: Option<string>, headers: Headers,
                                   temporality: Option<string>, knobs: MetricKnobs)
  datatype OtlpLogSink = OtlpLogSink(endpoint: string, protocol: Option<string>, headers: Headers, knobs: LogKnobs)
  datatype SlsLogSink = SlsLogSink(endpoint: string, project: string, logstore: string, akId: string,
                                   akSecret: string, topic: string, source: string)

  predicate ProtocolParses(p: Option<string>) { p.Some? ==> ParseProtocol(p.value).Ok? }
  predicate SamplerParses(s: Option<string>) { s.Some? ==> ParseSampler(s.value).Ok? }
  predicate TemporalityParses(t: Option<string>) { t.Some? ==> ParseTemporality(t.value).Ok? }

  predicate TraceParses(s: TraceSink) { ProtocolParses(s.protocol) && SamplerParses(s.sampler) }
  predicate MetricParses(s: MetricSink) { ProtocolParses(s.protocol) && TemporalityParses(s.temporality) }

  /** What a `TraceSink` that exists satisfies; likewise for the other kinds. */
  predicate TraceSinkOk(s: TraceSink) { s.endpoint != "" && TraceParses(s) }
  predicate MetricSinkOk(s: MetricSink) { s.endpoint != "" && MetricParses(s) }
  predicate OtlpLogSinkOk(s: OtlpLogSink) { s.endpoint != "" && ProtocolParses(s.protocol) }
  predicate SlsLogSinkOk(s: SlsLogSink) {
    s.endpoint != "" && s.project != "" && s.logstore != "" && s.akId != "" && s.akSecret != ""
  }

  function NewTraceSink(s: TraceSink): (r: Result<TraceSink, Failure>)
    ensures r.Ok? <==> TraceSinkOk(s)
    ensures r.Ok? ==> r.value == s
    ensures s.endpoint == "" ==> r == Err(EmptyField("endpoint"))
    ensures s.endpoint != "" && !ProtocolParses(s.protocol) ==> r == Err(UnknownProtocol)
    ensures s.endpoint != "" && ProtocolParses(s.protocol) && !SamplerParses(s.sampler) ==> r == Err(UnknownSampler)
  {
    if s.endpoint == "" then Err(EmptyField("endpoint"))
    else if !ProtocolParses(s.protocol) then Err(UnknownProtocol)
    else if !SamplerParses(s.sampler) then Err(UnknownSampler)
    else Ok(s)
  }

  function NewMetricSink(s: MetricSink): (r: Result<MetricSink, Failure>)
    ensures r.Ok? <==> MetricSinkOk(s)
    ensures r.Ok? ==> r.value == s
    ensures s.endpoint == "" ==> r == Err(EmptyField("endpoint"))
    ensures s.endpoint != "" && !ProtocolParses(s.protocol) ==> r == Err(UnknownProtocol)
    ensures s.endpoint != "" && ProtocolParses(s.protocol) && !TemporalityParses(s.temporality) ==>
              r == Err(UnknownTemporality)
  {
    if s.endpoint == "" then Err(EmptyField("endpoint"))
    else if !ProtocolParses(s.protocol) then Err(UnknownProtocol)
    else if !TemporalityParses(s.temporality) then Err(UnknownTemporality)
    else Ok(s)
  }

  function NewOtlpLogSink(s: OtlpLogSink): (r: Result<OtlpLogSink, Failure>)
    ensures r.Ok? <==> OtlpLogSinkOk(s)
    ensures r.Ok? ==> r.value == s
    ensures s.endpoint == "" ==> r == Err(EmptyField("endpoint"))
    ensures s.endpoint != "" && !ProtocolParses(s.protocol) ==> r == Err(UnknownProtocol)
  {
    if s.endpoint == "" then Err(EmptyField("endpoint"))
    else if !ProtocolParses(s.protocol) then Err(UnknownProtocol)
    else Ok(s)
  }

  function NewSlsLogSink(s: SlsLogSink): (r: Result<SlsLogSink, Failure>)
    ensures r.Ok? <==> SlsLogSinkOk(s)
    ensures r.Ok? ==> r.value == s
    ensures s.endpoint == "" ==> r == Err(EmptyField("endpoint"))
    ensures s.endpoint != "" && s.project == "" ==> r == Err(EmptyField("project"))
    ensures s.endpoint != "" && s.project != "" && s.logstore == "" ==> r == Err(EmptyField("logstore"))
    ensures s.endpoint != "" && s.project != "" && s.logstore != "" && !SlsLogSinkOk(s) ==>
              r == Err(EmptyField("ak_id and ak_secret"))
  {
    if s.endpoint == "" then Err(EmptyField("endpoint"))
    else if s.project == "" then Err(EmptyField("project"))
    else if s.logstore == "" then Err(EmptyField("logstore"))
    else if s.akId == "" || s.akSecret == "" then Err(EmptyField("ak_id and ak_secret"))
    else Ok(s)
  }

  /** An element of the `sinks` argument: one of the four sink classes, or any other object. */
  datatype SinkObject =
    | TraceObject(trace: TraceSink) | MetricObject(metric: MetricSink)
    | OtlpObject(otlp: OtlpLogSink) | SlsObject(sls: SlsLogSink) | OtherObject

  predicate SinkObjectOk(o: SinkObject) {
    match o
    case TraceObject(s) => TraceSinkOk(s)
    case MetricObject(s) => MetricSinkOk(s)
    case OtlpObject(s) => OtlpLogSinkOk(s)
    case SlsObject(s) => SlsLogSinkOk(s)
    case OtherObject => true
  }

  datatype PyConfig = PyConfig(
    serviceName: string, resourceAttributes: map<string, string>, consoleOutput: bool, consoleFormat: string,
    traceSinks: seq<TraceSink>, metricSinks: seq<MetricSink>,
    otlpLogSinks: seq<OtlpLogSink>, slsLogSinks: seq<SlsLogSink>)

  function TracesOf(objs: seq<SinkObject>): seq<TraceSink> {
    if objs == [] then []
    else TracesOf(objs[..|objs| - 1]) + if objs[|objs| - 1].TraceObject? then [objs[|objs| - 1].trace] else []
  }

  function MetricsOf(objs: seq<SinkObject>): seq<MetricSink> {
    if objs == [] then []
    else MetricsOf(objs[..|objs| - 1]) + if objs[|objs| - 1].MetricObject? then [objs[|objs| - 1].metric] else []
  }

  function OtlpLogsOf(objs: seq<SinkObject>): seq<OtlpLogSink> {
    if objs == [] then []
    else OtlpLogsOf(objs[..|objs| - 1]) + if objs[|objs| - 1].OtlpObject? then [objs[|objs| - 1].otlp] else []
  }

  function SlsLogsOf(objs: seq<SinkObject>): seq<SlsLogSink> {
    if objs == [] then []
    else SlsLogsOf(objs[..|objs| - 1]) + if objs[|objs| - 1].SlsObject? then [objs[|objs| - 1].sls] else []
  }

  /** `PyConfig::new`: refuses an empty name, an unknown format and foreign objects, and sorts the sinks by kind. */
  method NewConfig(serviceName: string, resourceAttributes: map<string, string>, consoleOutput: bool,
                   consoleFormat: string, sinks: seq<SinkObject>)
    returns (r: Result<PyConfig, Failure>)
    ensures r.Ok? <==> serviceName != "" && ValidConsoleFormat(consoleFormat) && OtherObject !in sinks
    ensures serviceName == "" ==> r == Err(EmptyField("service_name"))
    ensures serviceName != "" && !ValidConsoleFormat(consoleFormat) ==> r == Err(UnknownConsoleFormat)
    ensures serviceName != "" && ValidConsoleFormat(consoleFormat) && OtherObject in sinks ==> r == Err(UnknownSinkType)
    ensures r.Ok? ==>
              r.value == PyConfig(serviceName, resourceAttributes, consoleOutput, consoleFormat,
                                  TracesOf(sinks), MetricsOf(sinks), OtlpLogsOf(sinks), SlsLogsOf(sinks))
  {
    if serviceName == "" {
      return Err(EmptyField("service_name"));
    }
    if !ValidConsoleFormat(consoleFormat) {
      return Err(UnknownConsoleFormat);
    }
    var traceSinks, metricSinks, otlpLogSinks, slsLogSinks := [], [], [], [];
    for i := 0 to |sinks|
      invariant OtherObject !in sinks[..i]
      invariant traceSinks == TracesOf(sinks[..i]) && metricSinks == MetricsOf(sinks[..i])
      invariant otlpLogSinks == OtlpLogsOf(sinks[..i]) && slsLogSinks == SlsLogsOf(sinks[..i])
    {
      assert sinks[..i + 1][..i] == sinks[..i];
      match sinks[i] {
        case TraceObject(s) => traceSinks := traceSinks + [s];
        case MetricObject(s) => metricSinks := metricSinks + [s];
        case OtlpObject(s) => otlpLogSinks := otlpLogSinks + [s];
        case SlsObject(s) => slsLogSinks := slsLogSinks + [s];
        case OtherObject => return Err(UnknownSinkType);
      }
    }
    assert sinks[..|sinks|] == sinks;
    r := Ok(PyConfig(serviceName, resourceAttributes, consoleOutput, consoleFormat,
                     traceSinks, metricSinks, otlpLogSinks, slsLogSinks));
  }

  ghost predicate HasAt<T>(s: seq<T>, i: nat, x: T) {
    i < |s| && s[i] == x
  }

  /** No sink is lost or invented, and the i-th object is found in its own list at the rank it has among its kind. */
  lemma {:induction false} SortingKeepsSinks(objs: seq<SinkObject>, i: nat)
    requires OtherObject !in objs && i < |objs|
    ensures |TracesOf(objs)| + |MetricsOf(objs)| + |OtlpLogsOf(objs)| + |SlsLogsOf(objs)| == |objs|
    ensures objs[i].TraceObject? ==> HasAt(TracesOf(objs), |TracesOf(objs[..i])|, objs[i].trace)
    ensures objs[i].MetricObject? ==> HasAt(MetricsOf(objs), |MetricsOf(objs[..i])|, objs[i].metric)
    ensures objs[i].OtlpObject? ==> HasAt(OtlpLogsOf(objs), |OtlpLogsOf(objs[..i])|, objs[i].otlp)
    ensures objs[i].SlsObject? ==> HasAt(SlsLogsOf(objs), |SlsLogsOf(objs[..i])|, objs[i].sls)
  {
    var front := objs[..|objs| - 1];
    if i < |front| {
      SortingKeepsSinks(front, i);
      assert front[..i] == objs[..i];
    } else if front != [] {
      SortingKeepsSinks(front, 0);
    }
  }

  /** A configuration that can exist: made by `NewConfig` from sinks that their constructors accepted. */
  ghost predicate Constructible(c: PyConfig) {
    && c.serviceName != "" && ValidConsoleFormat(c.consoleFormat)
    && (forall i :: 0 <= i < |c.traceSinks| ==> TraceSinkOk(c.traceSinks[i]))
    && (forall i :: 0 <= i < |c.metricSinks| ==> MetricSinkOk(c.metricSinks[i]))
    && (forall i :: 0 <= i < |c.otlpLogSinks| ==> OtlpLogSinkOk(c.otlpLogSinks[i]))
    && (forall i :: 0 <= i < |c.slsLogSinks| ==> SlsLogSinkOk(c.slsLogSinks[i]))
  }

  lemma {:induction false} SortedSinksOk(objs: seq<SinkObject>)
    requires forall i :: 0 <= i < |objs| ==> SinkObjectOk(objs[i])
    ensures forall i :: 0 <= i < |TracesOf(objs)| ==> TraceSinkOk(TracesOf(objs)[i])
    ensures forall i :: 0 <= i < |MetricsOf(objs)| ==> MetricSinkOk(MetricsOf(objs)[i])
    ensures forall i :: 0 <= i < |OtlpLogsOf(objs)| ==> OtlpLogSinkOk(OtlpLogsOf(objs)[i])
    ensures forall i :: 0 <= i < |SlsLogsOf(objs)| ==> SlsLogSinkOk(SlsLogsOf(objs)[i])
  {
    if objs != [] {
      SortedSinksOk(objs[..|objs| - 1]);
      assert SinkObjectOk(objs[|objs| - 1]);
    }
  }

  // ---------------------------------------------------------------- resolution

  datatype ResolvedTrace = ResolvedTrace(endpoint: string, protocol: Protocol, headers: Headers, sampler: Sampler,
                                         samplerArg: real, knobs: TraceKnobs)
  datatype ResolvedMetric = ResolvedMetric(endpoint: string, protocol: Protocol, headers: Headers,
                                           temporality: Option<Temporality>, knobs: MetricKnobs)
  datatype ResolvedOtlpLog = ResolvedOtlpLog(endpoint: string, protocol: Protocol, headers: Headers, knobs: LogKnobs)

  datatype ResolvedConfig = ResolvedConfig(
    serviceName: string, resourceAttributes: map<string, string>, consoleOutput: bool, consoleFormat: string,
    traces: seq<ResolvedTrace>, metrics: seq<ResolvedMetric>, otlpLogs: seq<ResolvedOtlpLog>, slsLogs: seq<SlsLogSink>)

  /** `r` is what `s` resolves to. */
  ghost predicate TraceResolves(s: TraceSink, r: ResolvedTrace) {
    && Ok(r.protocol) == ParseProtocol(UnwrapOr(s.protocol, DEFAULT_PROTOCOL))
    && Ok(r.sampler) == ParseSampler(UnwrapOr(s.sampler, DEFAULT_SAMPLER))
    && r.samplerArg == UnwrapOr(s.samplerArg, DEFAULT_SAMPLER_ARG)
    && r.endpoint == s.endpoint && r.headers == s.headers && r.knobs == s.knobs
  }

  ghost predicate MetricResolves(s: MetricSink, r: ResolvedMetric) {
    && Ok(r.protocol) == ParseProtocol(UnwrapOr(s.protocol, DEFAULT_PROTOCOL))
    && (s.temporality.None? ==> r.temporality.None?)
    && (s.temporality.Some? ==> r.temporality.Some? && Ok(r.temporality.value) == ParseTemporality(s.temporality.value))
    && r.endpoint == s.endpoint && r.headers == s.headers && r.knobs == s.knobs
  }

  ghost predicate OtlpLogResolves(s: OtlpLogSink, r: ResolvedOtlpLog) {
    && Ok(r.protocol) == ParseProtocol(UnwrapOr(s.protocol, DEFAULT_PROTOCOL))
    && r.endpoint == s.endpoint && r.headers == s.headers && r.knobs == s.knobs
  }

  /** An SLS sink keeps its own source, or takes the host's name, or stays empty when there is none. */
  function ResolveSls(s: SlsLogSink, hostname: Option<string>): SlsLogSink {
    s.(source := if s.source == "" then UnwrapOr(hostname, "") else s.source)
  }

  ghost predicate Resolves(c: PyConfig, hostname: Option<string>, r: ResolvedConfig) {
    && r.serviceName == c.serviceName && r.resourceAttributes == c.resourceAttributes
    && r.consoleOutput == c.consoleOutput && r.consoleFormat == c.consoleFormat
    && |r.traces| == |c.traceSinks| && |r.metrics| == |c.metricSinks|
    && |r.otlpLogs| == |c.otlpLogSinks| && |r.slsLogs| == |c.slsLogSinks|
    && (forall i :: 0 <= i < |r.traces| ==> TraceResolves(c.traceSinks[i], r.traces[i]))
    && (forall i :: 0 <= i < |r.metrics| ==> MetricResolves(c.metricSinks[i], r.metrics[i]))
    && (forall i :: 0 <= i < |r.otlpLogs| ==> OtlpLogResolves(c.otlpLogSinks[i], r.otlpLogs[i]))
    && (forall i :: 0 <= i < |r.slsLogs| ==> r.slsLogs[i] == ResolveSls(c.slsLogSinks[i], hostname))
  }

  /** What an unset text resolves to, and what an SLS sink keeps. */
  lemma DefaultsSpelled(t: TraceSink, rt: ResolvedTrace, m: MetricSink, rm: ResolvedMetric,
                        l: OtlpLogSink, rl: ResolvedOtlpLog, s: SlsLogSink)
    requires TraceResolves(t, rt) && MetricResolves(m, rm) && OtlpLogResolves(l, rl)
    ensures t.protocol.None? ==> rt.protocol == Grpc
    ensures t.protocol == Some("http") ==> rt.protocol == HttpProtobuf
    ensures t.sampler.None? ==> rt.sampler == ParentBasedTraceIdRatio
    ensures t.samplerArg.None? ==> rt.samplerArg == 1.0
    ensures m.protocol.None? ==> rm.protocol == Grpc
    ensures m.temporality.None? ==> rm.temporality.None?
    ensures l.protocol.None? ==> rl.protocol == Grpc
    ensures forall h: Option<string> {:trigger ResolveSls(s, h)} :: var r := ResolveSls(s, h);
              && r.endpoint == s.endpoint && r.project == s.project && r.logstore == s.logstore
              && r.akId == s.akId && r.akSecret == s.akSecret && r.topic == s.topic
              && (s.source != "" ==> r.source == s.source)
              && (s.source == "" && h.Some? ==> r.source == h.value)
              && (s.source == "" && h.None? ==> r.source == "")
    ensures SlsLogSinkOk(s) <==>
              s.endpoint != "" && s.project != "" && s.logstore != "" && s.akId != "" && s.akSecret != ""
  {
  }

  /** What every resolved sink keeps, and what its set texts resolve to. */
  lemma ResolvesSpelled(c: PyConfig, hostname: Option<string>, r: ResolvedConfig, i: nat)
    requires Resolves(c, hostname, r)
    ensures r.serviceName == c.serviceName && r.resourceAttributes == c.resourceAttributes
    ensures r.consoleOutput == c.consoleOutput && r.consoleFormat == c.consoleFormat
    ensures |r.traces| == |c.traceSinks| && |r.metrics| == |c.metricSinks|
    ensures |r.otlpLogs| == |c.otlpLogSinks| && |r.slsLogs| == |c.slsLogSinks|
    ensures i < |r.traces| ==>
              var s, t := c.traceSinks[i], r.traces[i];
              && t.endpoint == s.endpoint && t.headers == s.headers && t.knobs == s.knobs
              && t.samplerArg == (if s.samplerArg.Some? then s.samplerArg.value else 1.0)
              && (s.protocol.Some? ==> ParseProtocol(s.protocol.value) == Ok(t.protocol))
              && (s.sampler.Some? ==> ParseSampler(s.sampler.value) == Ok(t.sampler))
    ensures i < |r.metrics| ==>
              var s, t := c.metricSinks[i], r.metrics[i];
              && t.endpoint == s.endpoint && t.headers == s.headers && t.knobs == s.knobs
              && (s.protocol.Some? ==> ParseProtocol(s.protocol.value) == Ok(t.protocol))
              && (s.temporality.Some? ==> t.temporality.Some?)
              && (s.temporality.Some? ==> ParseTemporality(s.temporality.value) == Ok(t.temporality.value))
    ensures i < |r.otlpLogs| ==>
              var s, t := c.otlpLogSinks[i], r.otlpLogs[i];
              && t.endpoint == s.endpoint && t.headers == s.headers && t.knobs == s.knobs
              && (s.protocol.Some? ==> ParseProtocol(s.protocol.value) == Ok(t.protocol))
    ensures i < |r.slsLogs| ==> r.slsLogs[i] == ResolveSls(c.slsLogSinks[i], hostname)
  {
    hide ParseProtocol, ParseSampler, ParseTemporality;
  }

  /** Resolution fails exactly when the format or some text of a sink does not parse. */
  ghost predicate AllParse(c: PyConfig) {
    && ValidConsoleFormat(c.consoleFormat)
    && (forall i :: 0 <= i < |c.traceSinks| ==> TraceParses(c.traceSinks[i]))
    && (forall i :: 0 <= i < |c.metricSinks| ==> MetricParses(c.metricSinks[i]))
    && (forall i :: 0 <= i < |c.otlpLogSinks| ==> ProtocolParses(c.otlpLogSinks[i].protocol))
  }

  method ResolveTraces(sinks: seq<TraceSink>) returns (r: Result<seq<ResolvedTrace>, Failure>)
    ensures r.Ok? <==> forall i :: 0 <= i < |sinks| ==> TraceParses(sinks[i])
    ensures r.Err? ==> exists i :: 0 <= i < |sinks| && !TraceParses(sinks[i]) &&
                         (forall k :: 0 <= k < i ==> TraceParses(sinks[k])) &&
                         r.error == if ProtocolParses(sinks[i].protocol) then UnknownSampler else UnknownProtocol
    ensures r.Ok? ==> |r.value| == |sinks| && forall i :: 0 <= i < |sinks| ==> TraceResolves(sinks[i], r.value[i])
  {
    var traces: seq<ResolvedTrace> := [];
    for i := 0 to |sinks|
      invariant |traces| == i
      invariant forall k :: 0 <= k < i ==>
                  TraceResolves(sinks[k], traces[k]) && TraceParses(sinks[k])
    {
      var s := sinks[i];
      var protocol := ParseProtocol(UnwrapOr(s.protocol, DEFAULT_PROTOCOL));
      if protocol.Err? { return Err(protocol.error); }
      var sampler := ParseSampler(UnwrapOr(s.sampler, DEFAULT_SAMPLER));
      if sampler.Err? { return Err(sampler.error); }
      traces := traces + [ResolvedTrace(s.endpoint, protocol.value, s.headers, sampler.value,
                                        UnwrapOr(s.samplerArg, DEFAULT_SAMPLER_ARG), s.knobs)];
    }
    r := Ok(traces);
  }

  method ResolveMetrics(sinks: seq<MetricSink>) returns (r: Result<seq<ResolvedMetric>, Failure>)
    ensures r.Ok? <==> forall i :: 0 <= i < |sinks| ==> MetricParses(sinks[i])
    ensures r.Err? ==> exists i :: 0 <= i < |sinks| && !MetricParses(sinks[i]) &&
                         (forall k :: 0 <= k < i ==> MetricParses(sinks[k])) &&
                         r.error == if ProtocolParses(sinks[i].protocol) then UnknownTemporality else UnknownProtocol
    ensures r.Ok? ==> |r.value| == |sinks| && forall i :: 0 <= i < |sinks| ==> MetricResolves(sinks[i], r.value[i])
  {
    var metrics: seq<ResolvedMetric> := [];
    for i := 0 to |sinks|
      invariant |metrics| == i
      invariant forall k :: 0 <= k < i ==>
                  MetricResolves(sinks[k], metrics[k]) && MetricParses(sinks[k])
    {
      var s := sinks[i];
      var protocol := ParseProtocol(UnwrapOr(s.protocol, DEFAULT_PROTOCOL));
      if protocol.Err? { return Err(protocol.error); }
      var temporality: Option<Temporality> := None;
      if s.temporality.Some? {
        var t := ParseTemporality(s.temporality.value);
        if t.Err? { return Err(t.error); }
        temporality := Some(t.value);
      }
      metrics := metrics + [ResolvedMetric(s.endpoint, protocol.value, s.headers, temporality, s.knobs)];
    }
    r := Ok(metrics);
  }

  method ResolveOtlpLogs(sinks: seq<OtlpLogSink>) returns (r: Result<seq<ResolvedOtlpLog>, Failure>)
    ensures r.Ok? <==> forall i :: 0 <= i < |sinks| ==> ProtocolParses(sinks[i].protocol)
    ensures r.Err? ==> r.error == UnknownProtocol
    ensures r.Ok? ==> |r.value| == |sinks| && forall i :: 0 <= i < |sinks| ==> OtlpLogResolves(sinks[i], r.value[i])
  {
    var logs: seq<ResolvedOtlpLog> := [];
    for i := 0 to |sinks|
      invariant |logs| == i
      invariant forall k :: 0 <= k < i ==> OtlpLogResolves(sinks[k], logs[k]) && ProtocolParses(sinks[k].protocol)
    {
      var s := sinks[i];
      var protocol := ParseProtocol(UnwrapOr(s.protocol, DEFAULT_PROTOCOL));
      if protocol.Err? { return Err(protocol.error); }
      logs := logs + [ResolvedOtlpLog(s.endpoint, protocol.value, s.headers, s.knobs)];
    }
    r := Ok(logs);
  }

  method Resolve(c: PyConfig, hostname: Option<string>) returns (r: Result<ResolvedConfig, Failure>)
    ensures r.Ok? <==> AllParse(c)
    ensures r.Ok? ==> Resolves(c, hostname, r.value)
    ensures !ValidConsoleFormat(c.consoleFormat) ==> r == Err(UnknownConsoleFormat)
    ensures r.Err? && ValidConsoleFormat(c.consoleFormat) ==>
              r.error in {UnknownProtocol, UnknownSampler, UnknownTemporality}
  {
    if !ValidConsoleFormat(c.consoleFormat) {
      return Err(UnknownConsoleFormat);
    }
    var traces := ResolveTraces(c.traceSinks);
    if traces.Err? { return Err(traces.error); }
    var metrics := ResolveMetrics(c.metricSinks);
    if metrics.Err? { return Err(metrics.error); }
    var otlpLogs := ResolveOtlpLogs(c.otlpLogSinks);
    if otlpLogs.Err? { return Err(otlpLogs.error); }
    var slsLogs: seq<SlsLogSink> := [];
    for i := 0 to |c.slsLogSinks|
      invariant |slsLogs| == i
      invariant forall k :: 0 <= k < i ==> slsLogs[k] == ResolveSls(c.slsLogSinks[k], hostname)
    {
      slsLogs := slsLogs + [ResolveSls(c.slsLogSinks[i], hostname)];
    }
    r := Ok(ResolvedConfig(c.serviceName, c.resourceAttributes, c.consoleOutput, c.consoleFormat,
                           traces.value, metrics.value, otlpLogs.value, slsLogs));
  }

  /** One sink object as its class's constructor leaves it, if it accepts the arguments. */
  function Construct(o: SinkObject): Result<SinkObject, Failure> {
    match o
    case TraceObject(s) => var r := NewTraceSink(s); if r.Ok? then Ok(TraceObject(r.value)) else Err(r.error)
    case MetricObject(s) => var r := NewMetricSink(s); if r.Ok? then Ok(MetricObject(r.value)) else Err(r.error)
    case OtlpObject(s) => var r := NewOtlpLogSink(s); if r.Ok? then Ok(OtlpObject(r.value)) else Err(r.error)
    case SlsObject(s) => var r := NewSlsLogSink(s); if r.Ok? then Ok(SlsObject(r.value)) else Err(r.error)
    case OtherObject => Ok(OtherObject)
  }

  /**
    What a sink's constructor accepts is, apart from the endpoint, exactly what resolution can make sense
    of: so nothing that exists fails later, and nothing that would resolve is refused.
   */
  lemma AcceptedExactlyIfResolvable(t: TraceSink, m: MetricSink, l: OtlpLogSink)
    ensures NewTraceSink(t).Ok? <==> t.endpoint != "" && exists r :: TraceResolves(t, r)
    ensures NewMetricSink(m).Ok? <==> m.endpoint != "" && exists r :: MetricResolves(m, r)
    ensures NewOtlpLogSink(l).Ok? <==> l.endpoint != "" && exists r :: OtlpLogResolves(l, r)
  {
    hide ParseProtocol, ParseSampler, ParseTemporality;
    DefaultsParse();
    var protocol := ParseProtocol(UnwrapOr(t.protocol, DEFAULT_PROTOCOL));
    var sampler := ParseSampler(UnwrapOr(t.sampler, DEFAULT_SAMPLER));
    if protocol.Ok? && sampler.Ok? {
      assert TraceResolves(t, ResolvedTrace(t.endpoint, protocol.value, t.headers, sampler.value,
                                            UnwrapOr(t.samplerArg, DEFAULT_SAMPLER_ARG), t.knobs));
    }
    var metricProtocol := ParseProtocol(UnwrapOr(m.protocol, DEFAULT_PROTOCOL));
    if metricProtocol.Ok? && TemporalityParses(m.temporality) {
      var temporality := if m.temporality.Some? then Some(ParseTemporality(m.temporality.value).value) else None;
      assert MetricResolves(m, ResolvedMetric(m.endpoint, metricProtocol.value, m.headers, temporality, m.knobs));
    }
    var logProtocol := ParseProtocol(UnwrapOr(l.protocol, DEFAULT_PROTOCOL));
    if logProtocol.Ok? {
      assert OtlpLogResolves(l, ResolvedOtlpLog(l.endpoint, logProtocol.value, l.headers, l.knobs));
    }
  }

  lemma DefaultsParse()
    ensures ParseProtocol(DEFAULT_PROTOCOL).Ok? && ParseSampler(DEFAULT_SAMPLER).Ok?
  {
  }

  /** The sinks of a program one after the other, until a constructor refuses its arguments. */
  method ConstructAll(raw: seq<SinkObject>) returns (r: Result<seq<SinkObject>, Failure>)
    ensures r.Ok? <==> forall i :: 0 <= i < |raw| ==> SinkObjectOk(raw[i])
    ensures r.Ok? ==> r.value == raw
  {
    var sinks: seq<SinkObject> := [];
    for i := 0 to |raw|
      invariant sinks == raw[..i]
      invariant forall k :: 0 <= k < i ==> SinkObjectOk(raw[k])
    {
      var o := Construct(raw[i]);
      if o.Err? {
        return Err(o.error);
      }
      sinks := sinks + [o.value];
    }
    r := Ok(sinks);
  }

  /**
    From arguments to typed values. A configuration comes about exactly when every sink's constructor
    accepts its arguments, the name is not empty, the format is known and no foreign object is among the
    sinks; and one that came about always resolves.
   */
  method NewThenResolve(serviceName: string, resourceAttributes: map<string, string>, consoleOutput: bool,
                        consoleFormat: string, raw: seq<SinkObject>, hostname: Option<string>)
    returns (c: Result<PyConfig, Failure>, r: Result<ResolvedConfig, Failure>)
    ensures c.Ok? ==> r.Ok? && Resolves(c.value, hostname, r.value)
    ensures c.Ok? ==>
              && c.value.traceSinks == TracesOf(raw) && c.value.metricSinks == MetricsOf(raw)
              && c.value.otlpLogSinks == OtlpLogsOf(raw) && c.value.slsLogSinks == SlsLogsOf(raw)
    ensures c.Ok? <==>
              && (forall i :: 0 <= i < |raw| ==> SinkObjectOk(raw[i])) && OtherObject !in raw
              && serviceName != "" && ValidConsoleFormat(consoleFormat)
  {
    hide TracesOf, MetricsOf, OtlpLogsOf, SlsLogsOf, Resolves, ValidConsoleFormat;
    var sinks := ConstructAll(raw);
    if sinks.Err? {
      return Err(sinks.error), Err(sinks.error);
    }
    c := NewConfig(serviceName, resourceAttributes, consoleOutput, consoleFormat, sinks.value);
    if c.Err? {
      return c, Err(c.error);
    }
    SortedSinksOk(sinks.value);
    assert Constructible(c.value);
    r := Resolve(c.value, hostname);
  }
}
