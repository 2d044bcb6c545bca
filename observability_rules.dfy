/**
 * The observability rules: aggregate and presence rules over every
 * content, a presence rule that also looks at paths, and the first file
 * with untraced memory operations.
 */
module ObservabilityRules {
  import opened Strings
  import opened Regexes
  import opened Types
  import opened Shapes
  import opened RuleShapes

  // ---------------------------------------------------------------------
  // Aggregate rules: OBS-001, OBS-008

  const OBS001 := Finding("OBS-001", Warn, Observability, "No structured logging",
    "Replace console.log/print with a structured logger (winston, pino, structlog).")
  const Obs001Unstructured := Regex(@"console\.log\(|print\(", "")
  const Obs001Structured := Regex(@"winston|pino|bunyan|structlog|structuredLog|logger\.|logging\.", "")

  function Obs001(ctx: Context): (ds: seq<Diagnostic>)
    ensures ds != [] <==>
      (exists i :: 0 <= i < |ctx.files| && Test(ctx.engine, Obs001Unstructured, ctx.files[i].content))
      && !(exists i :: 0 <= i < |ctx.files| && Test(ctx.engine, Obs001Structured, ctx.files[i].content))
    ensures ds != [] ==> ds == [OBS001.Report()]
  {
    AggregateFinding(ctx, Obs001Unstructured, Obs001Structured, OBS001)
  }

  const OBS008 := Finding("OBS-008", Warn, Observability, "Log level not configurable",
    "Use LOG_LEVEL environment variable to control logging verbosity.")
  const Obs008Logging := Regex(@"console\.log|logger\.|logging\.", "")
  const Obs008LogLevel := Regex(@"LOG_LEVEL|log_level|setLevel|logLevel", "i")

  function Obs008(ctx: Context): (ds: seq<Diagnostic>)
    ensures ds != [] <==>
      (exists i :: 0 <= i < |ctx.files| && Test(ctx.engine, Obs008Logging, ctx.files[i].content))
      && !(exists i :: 0 <= i < |ctx.files| && Test(ctx.engine, Obs008LogLevel, ctx.files[i].content))
    ensures ds != [] ==> ds == [OBS008.Report()]
  {
    AggregateFinding(ctx, Obs008Logging, Obs008LogLevel, OBS008)
  }

  // ---------------------------------------------------------------------
  // Presence rules: OBS-002, OBS-003, OBS-004, OBS-005, OBS-006, OBS-010, OBS-011, OBS-012

  const OBS002 := Finding("OBS-002", Warn, Observability, "No distributed tracing",
    "Add OpenTelemetry or Langfuse/Langsmith for distributed tracing of agent calls.")
  const Obs002Tracing := Regex(@"opentelemetry|langfuse|langsmith|jaeger|zipkin|datadog.*trace|@opentelemetry", "i")

  function Obs002(ctx: Context): (ds: seq<Diagnostic>)
    ensures ds == [] <==> exists i :: 0 <= i < |ctx.files| && Test(ctx.engine, Obs002Tracing, ctx.files[i].content)
    ensures ds != [] ==> ds == [OBS002.Report()]
  {
    AbsenceFinding(ctx, Obs002Tracing, OBS002)
  }

  const OBS003 := Finding("OBS-003", Warn, Observability, "No alerting on tool failures",
    "Configure alerts (PagerDuty, Opsgenie, Slack) for tool failure rates.")
  const Obs003Alerting := Regex(@"pagerduty|opsgenie|alertmanager|alert\.|notify\.|slack.*error|error.*slack", "i")

  function Obs003(ctx: Context): (ds: seq<Diagnostic>)
    ensures ds == [] <==> exists i :: 0 <= i < |ctx.files| && Test(ctx.engine, Obs003Alerting, ctx.files[i].content)
    ensures ds != [] ==> ds == [OBS003.Report()]
  {
    AbsenceFinding(ctx, Obs003Alerting, OBS003)
  }

  const OBS004 := Finding("OBS-004", Warn, Observability, "No error tracking",
    "Integrate an error tracking service (Sentry, Datadog, Rollbar) to capture exceptions.")
  const Obs004ErrorTracking := Regex(@"sentry|datadog|rollbar|bugsnag|honeybadger|airbrake", "i")

  function Obs004(ctx: Context): (ds: seq<Diagnostic>)
    ensures ds == [] <==> exists i :: 0 <= i < |ctx.files| && Test(ctx.engine, Obs004ErrorTracking, ctx.files[i].content)
    ensures ds != [] ==> ds == [OBS004.Report()]
  {
    AbsenceFinding(ctx, Obs004ErrorTracking, OBS004)
  }

  const OBS005 := Finding("OBS-005", Warn, Observability, "No LLM cost tracking",
    "Log token usage from LLM responses to track and optimize costs.")
  const Obs005CostTracking := Regex(@"usage\.total_tokens|promptTokens|completionTokens|cost.*track|token.*usage|usage\.tokens", "i")

  function Obs005(ctx: Context): (ds: seq<Diagnostic>)
    ensures ds == [] <==> exists i :: 0 <= i < |ctx.files| && Test(ctx.engine, Obs005CostTracking, ctx.files[i].content)
    ensures ds != [] ==> ds == [OBS005.Report()]
  {
    AbsenceFinding(ctx, Obs005CostTracking, OBS005)
  }

  const OBS006 := Finding("OBS-006", Warn, Observability, "No request trace ID",
    "Generate and propagate a trace/request ID for each agent invocation.")
  const Obs006TraceId := Regex(@"traceId|trace_id|requestId|request_id|correlationId|uuid\(\)|uuidv4", "i")

  function Obs006(ctx: Context): (ds: seq<Diagnostic>)
    ensures ds == [] <==> exists i :: 0 <= i < |ctx.files| && Test(ctx.engine, Obs006TraceId, ctx.files[i].content)
    ensures ds != [] ==> ds == [OBS006.Report()]
  {
    AbsenceFinding(ctx, Obs006TraceId, OBS006)
  }

  const OBS010 := Finding("OBS-010", Warn, Observability, "No SLO/SLA defined",
    "Define SLOs (latency p99, error rate, uptime) for your agent service.")
  const Obs010Slo := Regex(@"SLO|SLA|service.level|uptime.*%|latency.*p99|error.rate", "i")

  function Obs010(ctx: Context): (ds: seq<Diagnostic>)
    ensures ds == [] <==> exists i :: 0 <= i < |ctx.files| && Test(ctx.engine, Obs010Slo, ctx.files[i].content)
    ensures ds != [] ==> ds == [OBS010.Report()]
  {
    AbsenceFinding(ctx, Obs010Slo, OBS010)
  }

  const OBS011 := Finding("OBS-011", Warn, Observability, "No LLM cost budget",
    "Set cost thresholds or budget alerts to prevent unexpected LLM spending.")
  const Obs011Budget := Regex(@"cost.*budget|budget.*cost|spending.*limit|cost.*limit|max.*spend", "i")

  function Obs011(ctx: Context): (ds: seq<Diagnostic>)
    ensures ds == [] <==> exists i :: 0 <= i < |ctx.files| && Test(ctx.engine, Obs011Budget, ctx.files[i].content)
    ensures ds != [] ==> ds == [OBS011.Report()]
  {
    AbsenceFinding(ctx, Obs011Budget, OBS011)
  }

  const OBS012 := Finding("OBS-012", Warn, Observability, "No user feedback signal",
    "Collect user feedback (thumbs up/down, ratings) to evaluate agent quality.")
  const Obs012Feedback := Regex(@"thumbs|rating|feedback|upvote|downvote|helpful|satisfaction", "i")

  function Obs012(ctx: Context): (ds: seq<Diagnostic>)
    ensures ds == [] <==> exists i :: 0 <= i < |ctx.files| && Test(ctx.engine, Obs012Feedback, ctx.files[i].content)
    ensures ds != [] ==> ds == [OBS012.Report()]
  {
    AbsenceFinding(ctx, Obs012Feedback, OBS012)
  }

  // ---------------------------------------------------------------------
  // OBS-007: a dashboard, found in a content or in a path

  const OBS007 := Finding("OBS-007", Warn, Observability, "No operational dashboard",
    "Set up a Grafana, Datadog, or CloudWatch dashboard to monitor agent metrics.")
  const Obs007Dashboard := Regex(@"grafana|datadog|cloudwatch|kibana|dashboard", "i")

  /** `/dashboard|grafana/.test(file)`: two literal alternatives, so two substring tests. */
  predicate IsDashboardPath(path: string) {
    Contains(path, "dashboard") || Contains(path, "grafana")
  }

  function DashboardFile(e: Engine): SourceFile -> bool {
    (file: SourceFile) => Test(e, Obs007Dashboard, file.content) || IsDashboardPath(file.path)
  }

  /** The content loop and the key loop each set `found`, so the file test is their disjunction. */
  function Obs007(ctx: Context): (ds: seq<Diagnostic>)
    ensures ds == [] <==>
      (exists i :: 0 <= i < |ctx.files| && Test(ctx.engine, Obs007Dashboard, ctx.files[i].content))
      || (exists i :: 0 <= i < |ctx.files| && IsDashboardPath(ctx.files[i].path))
    ensures ds != [] ==> ds == [OBS007.Report()]
  {
    Presence(ctx.files, DashboardFile(ctx.engine), OBS007)
  }

  /** The path test, unlike the content test, is case-sensitive. */
  lemma DashboardPathCase()
    ensures IsDashboardPath("grafana.json")
    ensures !IsDashboardPath("Grafana.json")
  {
    assert ContainsAt("grafana.json", "grafana", 0);
    var p := "Grafana.json";
    forall i | 0 <= i <= |p|
      ensures !ContainsAt(p, "grafana", i) && !ContainsAt(p, "dashboard", i)
    {
      if i + 7 <= |p| {
        assert p[i..i + 7][0] == p[i] != 'g';
      }
      if i + 9 <= |p| {
        assert p[i..i + 9][0] == p[i] != 'd';
      }
    }
  }

  // ---------------------------------------------------------------------
  // OBS-009: the first file with untraced memory operations, when a memory backend is set

  const OBS009 := Finding("OBS-009", Warn, Observability, "Memory ops not traced",
    "Add logging/tracing around memory read/write operations.")
  const Obs009MemoryOp := Regex(@"memory\.read|memory\.write|\.get\(|\.set\(|\.store\(", "")
  const Obs009Logging := Regex(@"logger\.|log\.|trace\.|span\.", "")

  function Obs009(ctx: Context): (ds: seq<Diagnostic>)
    ensures |ds| <= 1
    ensures ds != [] <==>
      ctx.projectInfo.memoryBackend != "none"
      && exists i :: 0 <= i < |ctx.files| && Test(ctx.engine, Obs009MemoryOp, ctx.files[i].content)
           && !Test(ctx.engine, Obs009Logging, ctx.files[i].content)
    ensures ds != [] ==>
      exists i :: 0 <= i < |ctx.files| && Test(ctx.engine, Obs009MemoryOp, ctx.files[i].content)
        && !Test(ctx.engine, Obs009Logging, ctx.files[i].content) && ds == [OBS009.At(ctx.files[i].path)]
        && forall j :: 0 <= j < i ==> !Test(ctx.engine, Obs009MemoryOp, ctx.files[j].content) || Test(ctx.engine, Obs009Logging, ctx.files[j].content)
  {
    if ctx.projectInfo.memoryBackend == "none" then []
    else FirstFileFinding(ctx, Obs009MemoryOp, Obs009Logging, OBS009)
  }
}
