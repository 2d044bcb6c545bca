/**
 * The reliability rules: aggregate and presence rules over every content,
 * per-file rules, the first file with an unguarded HTTP call, a heuristic
 * for self-recursive definitions, and a replica count read from YAML.
 */
module ReliabilityRules {
  import opened Strings
  import opened Regexes
  import opened Types
  import opened Shapes
  import opened RuleShapes

  // ---------------------------------------------------------------------
  // Aggregate rules: REL-001, REL-006, REL-007, REL-011

  const REL001 := Finding("REL-001", Error, Reliability, "No max_iterations limit",
    "Set max_iterations on your agent executor to prevent infinite loops.")
  const Rel001Agent := Regex(@"AgentExecutor|createAgent|new Agent|\.run\(", "")
  const Rel001Limit := Regex(@"max_iterations|maxIterations|max_steps|maxSteps", "")

  function Rel001(ctx: Context): (ds: seq<Diagnostic>)
    ensures ds != [] <==>
      (exists i :: 0 <= i < |ctx.files| && Test(ctx.engine, Rel001Agent, ctx.files[i].content))
      && !(exists i :: 0 <= i < |ctx.files| && Test(ctx.engine, Rel001Limit, ctx.files[i].content))
    ensures ds != [] ==> ds == [REL001.Report()]
  {
    AggregateFinding(ctx, Rel001Agent, Rel001Limit, REL001)
  }

  const REL006 := Finding("REL-006", Warn, Reliability, "No fallback for failed tools",
    "Implement fallback paths when primary tools fail.")
  const Rel006Error := Regex(@"catch\s*\(|except\s+Exception", "")
  const Rel006Fallback := Regex(@"fallback|alternative|default.*tool|backup.*tool|use.*instead", "i")

  function Rel006(ctx: Context): (ds: seq<Diagnostic>)
    ensures ds != [] <==>
      (exists i :: 0 <= i < |ctx.files| && Test(ctx.engine, Rel006Error, ctx.files[i].content))
      && !(exists i :: 0 <= i < |ctx.files| && Test(ctx.engine, Rel006Fallback, ctx.files[i].content))
    ensures ds != [] ==> ds == [REL006.Report()]
  {
    AggregateFinding(ctx, Rel006Error, Rel006Fallback, REL006)
  }

  const REL007 := Finding("REL-007", Warn, Reliability, "State not persisted",
    "Persist agent state to an external store for fault tolerance.")
  const Rel007State := Regex(@"state\s*=\s*\{\}|this\.state|useState|in.memory.*state", "i")
  const Rel007Persist := Regex(@"redis|postgres|sqlite|dynamodb|firestore|persist|checkpoint", "i")

  function Rel007(ctx: Context): (ds: seq<Diagnostic>)
    ensures ds != [] <==>
      (exists i :: 0 <= i < |ctx.files| && Test(ctx.engine, Rel007State, ctx.files[i].content))
      && !(exists i :: 0 <= i < |ctx.files| && Test(ctx.engine, Rel007Persist, ctx.files[i].content))
    ensures ds != [] ==> ds == [REL007.Report()]
  {
    AggregateFinding(ctx, Rel007State, Rel007Persist, REL007)
  }

  const REL011 := Finding("REL-011", Warn, Reliability, "No checkpointing",
    "Add checkpoint/resume logic for multi-step pipelines to recover from failures.")
  const Rel011MultiStep := Regex(@"step_\d|steps\s*=\s*\[|pipeline|workflow|chain", "i")
  const Rel011Checkpoint := Regex(@"checkpoint|resume|save.*state|load.*state", "i")

  function Rel011(ctx: Context): (ds: seq<Diagnostic>)
    ensures ds != [] <==>
      (exists i :: 0 <= i < |ctx.files| && Test(ctx.engine, Rel011MultiStep, ctx.files[i].content))
      && !(exists i :: 0 <= i < |ctx.files| && Test(ctx.engine, Rel011Checkpoint, ctx.files[i].content))
    ensures ds != [] ==> ds == [REL011.Report()]
  {
    AggregateFinding(ctx, Rel011MultiStep, Rel011Checkpoint, REL011)
  }

  // ---------------------------------------------------------------------
  // REL-002: a definition whose next 500 characters call it more than once

  const REL002 := Finding("REL-002", Error, Reliability, "Recursive tool call loop", "")
  const Rel002Definition := Regex(@"function\s+(\w+)|const\s+(\w+)\s*=.*=>", "g")

  /** `match[1] || match[2]`: the first group when it is non-empty, else the second. */
  function DefinedName(m: Match): string {
    if Group(m, 1) != "" then Group(m, 1) else Group(m, 2)
  }

  /** `new RegExp(`\\b${name}\\s*\\(`, "g")`. */
  function SelfCall(name: string): Regex {
    Regex(@"\b" + name + @"\s*\(", "g")
  }

  /** `content.substring(start, start + 500)`, both offsets clamped to the length. */
  function Window(content: string, start: nat): (w: string)
    ensures |w| <= 500
  {
    content[Min(start, |content|)..Min(start + 500, |content|)]
  }

  /** A named definition whose window holds more than one call of that name (the definition's own line included). */
  predicate IsSelfRecursive(e: Engine, content: string, m: Match) {
    var name := DefinedName(m);
    name != "" && |e.exec(SelfCall(name), Window(content, m.index))| > 1
  }

  function RecursionReport(file: SourceFile, m: Match): Diagnostic {
    REL002.WithRemediation("Function \"" + DefinedName(m) + "\" may call itself recursively. Add a depth guard or base case.")
      .AtLine(file.path, LineAt(file.content, m.index))
  }

  function SelfRecursive(e: Engine, content: string): Match -> bool {
    (m: Match) => IsSelfRecursive(e, content, m)
  }

  function RecursionReporter(file: SourceFile): Match -> Diagnostic {
    (m: Match) => RecursionReport(file, m)
  }

  /** One report per self-recursive definition of one file, in match order. */
  function Rel002Hits(e: Engine): SourceFile -> seq<Diagnostic> {
    (file: SourceFile) =>
      Select(e.exec(Rel002Definition, file.content), SelfRecursive(e, file.content), RecursionReporter(file))
  }

  lemma Rel002FileMembers(e: Engine, file: SourceFile, d: Diagnostic)
    ensures var ms := e.exec(Rel002Definition, file.content);
      d in Rel002Hits(e)(file) <==>
        exists k :: 0 <= k < |ms| && IsSelfRecursive(e, file.content, ms[k]) && d == RecursionReport(file, ms[k])
  {
    SelectMembers(e.exec(Rel002Definition, file.content), SelfRecursive(e, file.content), RecursionReporter(file));
  }

  function Rel002(ctx: Context): (ds: seq<Diagnostic>)
    ensures forall d :: d in ds <==>
      exists i, k :: 0 <= i < |ctx.files| && 0 <= k < |ctx.engine.exec(Rel002Definition, ctx.files[i].content)|
        && IsSelfRecursive(ctx.engine, ctx.files[i].content, ctx.engine.exec(Rel002Definition, ctx.files[i].content)[k])
        && d == RecursionReport(ctx.files[i], ctx.engine.exec(Rel002Definition, ctx.files[i].content)[k])
  {
    var e := ctx.engine;
    var ds := EachFile(ctx.files, Rel002Hits(e));
    EachFileMembers(ctx.files, Rel002Hits(e));
    forall d
      ensures d in ds <==>
        exists i, k :: 0 <= i < |ctx.files| && 0 <= k < |e.exec(Rel002Definition, ctx.files[i].content)|
          && IsSelfRecursive(e, ctx.files[i].content, e.exec(Rel002Definition, ctx.files[i].content)[k])
          && d == RecursionReport(ctx.files[i], e.exec(Rel002Definition, ctx.files[i].content)[k])
    {
      if d in ds {
        var i :| 0 <= i < |ctx.files| && d in Rel002Hits(e)(ctx.files[i]);
        Rel002FileMembers(e, ctx.files[i], d);
      }
      if exists i, k :: 0 <= i < |ctx.files| && 0 <= k < |e.exec(Rel002Definition, ctx.files[i].content)|
          && IsSelfRecursive(e, ctx.files[i].content, e.exec(Rel002Definition, ctx.files[i].content)[k])
          && d == RecursionReport(ctx.files[i], e.exec(Rel002Definition, ctx.files[i].content)[k]) {
        var i, k :| 0 <= i < |ctx.files| && 0 <= k < |e.exec(Rel002Definition, ctx.files[i].content)|
          && IsSelfRecursive(e, ctx.files[i].content, e.exec(Rel002Definition, ctx.files[i].content)[k])
          && d == RecursionReport(ctx.files[i], e.exec(Rel002Definition, ctx.files[i].content)[k]);
        Rel002FileMembers(e, ctx.files[i], d);
      }
    }
    ds
  }

  /** Every report names a non-empty function and points at a line of its file. */
  lemma Rel002Reports(ctx: Context, d: Diagnostic)
    requires d in Rel002(ctx)
    ensures Carries(d, REL002) && d.file.Some? && d.line.Some? && d.line.value >= 1
    ensures exists name :: name != "" && d.remediation == "Function \"" + name + "\" may call itself recursively. Add a depth guard or base case."
  {
    var e := ctx.engine;
    var i, k :| 0 <= i < |ctx.files| && 0 <= k < |e.exec(Rel002Definition, ctx.files[i].content)|
      && IsSelfRecursive(e, ctx.files[i].content, e.exec(Rel002Definition, ctx.files[i].content)[k])
      && d == RecursionReport(ctx.files[i], e.exec(Rel002Definition, ctx.files[i].content)[k]);
    var name := DefinedName(e.exec(Rel002Definition, ctx.files[i].content)[k]);
    assert name != "";
  }

  /** One file: the `exec` loop of the global definition pattern, skipping unnamed matches. */
  method ScanRel002File(e: Engine, file: SourceFile) returns (hits: seq<Diagnostic>)
    ensures hits == Rel002Hits(e)(file)
  {
    var ms := e.exec(Rel002Definition, file.content);
    hits := [];
    var j := 0;
    while j < |ms|
      invariant 0 <= j <= |ms|
      invariant hits == Select(ms[..j], SelfRecursive(e, file.content), RecursionReporter(file))
    {
      SelectSnoc(ms, j, SelfRecursive(e, file.content), RecursionReporter(file));
      var name := DefinedName(ms[j]);
      if name != "" {
        var nextChunk := Window(file.content, ms[j].index);
        var selfCallCount := |e.exec(SelfCall(name), nextChunk)|;
        if selfCallCount > 1 {
          hits := hits + [RecursionReport(file, ms[j])];
        }
      }
      j := j + 1;
    }
    assert ms[..j] == ms;
  }

  method ScanRel002(ctx: Context) returns (ds: seq<Diagnostic>)
    ensures ds == Rel002(ctx)
  {
    ds := [];
    var i := 0;
    while i < |ctx.files|
      invariant 0 <= i <= |ctx.files|
      invariant ds == EachFile(ctx.files[..i], Rel002Hits(ctx.engine))
    {
      var hits := ScanRel002File(ctx.engine, ctx.files[i]);
      EachFileAppend(ctx.files[..i], [ctx.files[i]], Rel002Hits(ctx.engine));
      assert ctx.files[..i + 1] == ctx.files[..i] + [ctx.files[i]];
      ds := ds + hits;
      i := i + 1;
    }
    assert ctx.files[..i] == ctx.files;
  }

  // ---------------------------------------------------------------------
  // REL-003: the first file with HTTP calls and no timeout

  const REL003 := Finding("REL-003", Error, Reliability, "No timeout on tool calls",
    "Add timeouts to HTTP calls and tool executions to prevent hanging.")
  const Rel003Http := Regex(@"fetch\(|axios\.|requests\.|httpx\.", "")
  const Rel003Timeout := Regex(@"timeout|signal.*AbortSignal|AbortController|time_limit", "i")

  function Rel003(ctx: Context): (ds: seq<Diagnostic>)
    ensures |ds| <= 1
    ensures ds == [] <==>
      forall i :: 0 <= i < |ctx.files| && Test(ctx.engine, Rel003Http, ctx.files[i].content)
        ==> Test(ctx.engine, Rel003Timeout, ctx.files[i].content)
    ensures ds != [] ==>
      exists i :: 0 <= i < |ctx.files| && Test(ctx.engine, Rel003Http, ctx.files[i].content)
        && !Test(ctx.engine, Rel003Timeout, ctx.files[i].content) && ds == [REL003.At(ctx.files[i].path)]
        && forall j :: 0 <= j < i ==> !Test(ctx.engine, Rel003Http, ctx.files[j].content) || Test(ctx.engine, Rel003Timeout, ctx.files[j].content)
  {
    FirstFileFinding(ctx, Rel003Http, Rel003Timeout, REL003)
  }

  // ---------------------------------------------------------------------
  // Per-file rules: REL-004, REL-010

  const REL004 := Finding("REL-004", Error, Reliability, "No error handling on tools",
    "Wrap tool calls in try/catch blocks to handle failures gracefully.")
  const Rel004ToolCall := Regex(@"await\s+\w+\s*\(|\.invoke\(|\.run\(", "")
  const Rel004ErrorHandling := Regex(@"try\s*\{|\.catch\(|except\s+", "")

  function Rel004(ctx: Context): (ds: seq<Diagnostic>)
    ensures |ds| <= |ctx.files|
    ensures forall d :: d in ds <==>
      exists i :: 0 <= i < |ctx.files| && Test(ctx.engine, Rel004ToolCall, ctx.files[i].content)
        && !Test(ctx.engine, Rel004ErrorHandling, ctx.files[i].content) && d == REL004.At(ctx.files[i].path)
  {
    FileFindings(ctx, Rel004ToolCall, Rel004ErrorHandling, REL004)
  }

  const REL010 := Finding("REL-010", Warn, Reliability, "Long tasks run synchronously",
    "Move long-running operations to async queues (Celery, BullMQ, etc.).")
  const Rel010SyncLongOp := Regex(@"time\.sleep\(\d{2,}|sleep\(\d{2,}|\.wait\(\d{5,}", "")
  const Rel010Async := Regex(@"async\s+def|async\s+function|await\s+|celery|rq\.|queue\.", "")

  function Rel010(ctx: Context): (ds: seq<Diagnostic>)
    ensures |ds| <= |ctx.files|
    ensures forall d :: d in ds <==>
      exists i :: 0 <= i < |ctx.files| && Test(ctx.engine, Rel010SyncLongOp, ctx.files[i].content)
        && !Test(ctx.engine, Rel010Async, ctx.files[i].content) && d == REL010.At(ctx.files[i].path)
  {
    FileFindings(ctx, Rel010SyncLongOp, Rel010Async, REL010)
  }

  // ---------------------------------------------------------------------
  // Presence rules: REL-005, REL-009, REL-014

  const REL005 := Finding("REL-005", Warn, Reliability, "No retry logic",
    "Add retry logic with exponential backoff for transient failures.")
  const Rel005Retry := Regex(@"retry|tenacity|backoff|exponential.*backoff|p-retry|async-retry", "i")

  function Rel005(ctx: Context): (ds: seq<Diagnostic>)
    ensures ds == [] <==> exists i :: 0 <= i < |ctx.files| && Test(ctx.engine, Rel005Retry, ctx.files[i].content)
    ensures ds != [] ==> ds == [REL005.Report()]
  {
    AbsenceFinding(ctx, Rel005Retry, REL005)
  }

  const REL009 := Finding("REL-009", Warn, Reliability, "No circuit breaker",
    "Implement circuit breakers to prevent cascade failures from downstream service outages.")
  const Rel009Breaker := Regex(@"circuit.*breaker|CircuitBreaker|pybreaker|opossum|resilience4j|braker", "i")

  function Rel009(ctx: Context): (ds: seq<Diagnostic>)
    ensures ds == [] <==> exists i :: 0 <= i < |ctx.files| && Test(ctx.engine, Rel009Breaker, ctx.files[i].content)
    ensures ds != [] ==> ds == [REL009.Report()]
  {
    AbsenceFinding(ctx, Rel009Breaker, REL009)
  }

  const REL014 := Finding("REL-014", Warn, Reliability, "No failure injection tests",
    "Add chaos/fault injection tests to verify system behavior under failure conditions.")
  const Rel014Chaos := Regex(@"chaos|fault.inject|failure.inject|chaos-monkey|toxiproxy", "i")

  function Rel014(ctx: Context): (ds: seq<Diagnostic>)
    ensures ds == [] <==> exists i :: 0 <= i < |ctx.files| && Test(ctx.engine, Rel014Chaos, ctx.files[i].content)
    ensures ds != [] ==> ds == [REL014.Report()]
  {
    AbsenceFinding(ctx, Rel014Chaos, REL014)
  }

  // ---------------------------------------------------------------------
  // REL-008: load tests, found in a content or in a path

  const REL008 := Finding("REL-008", Warn, Reliability, "No load testing",
    "Add load tests (k6, locust, artillery) to validate agent performance under load.")
  const Rel008LoadTest := Regex(@"locust|k6|artillery|jmeter|gatling|load.test|perf.test", "i")

  /** `/locustfile|k6|artillery/.test(file)`: three literal alternatives, so three substring tests. */
  predicate IsLoadTestPath(path: string) {
    Contains(path, "locustfile") || Contains(path, "k6") || Contains(path, "artillery")
  }

  function LoadTestFile(e: Engine): SourceFile -> bool {
    (file: SourceFile) => Test(e, Rel008LoadTest, file.content) || IsLoadTestPath(file.path)
  }

  /** The content loop and the key loop each set `found`, so the file test is their disjunction. */
  function Rel008(ctx: Context): (ds: seq<Diagnostic>)
    ensures ds == [] <==>
      (exists i :: 0 <= i < |ctx.files| && Test(ctx.engine, Rel008LoadTest, ctx.files[i].content))
      || (exists i :: 0 <= i < |ctx.files| && IsLoadTestPath(ctx.files[i].path))
    ensures ds != [] ==> ds == [REL008.Report()]
  {
    Presence(ctx.files, LoadTestFile(ctx.engine), REL008)
  }

  /** A load-test script named after its tool silences the rule whatever its content. */
  lemma Rel008ByPath(ctx: Context)
    requires exists i :: 0 <= i < |ctx.files| && ctx.files[i].path == "load/k6-smoke.js"
    ensures Rel008(ctx) == []
  {
    var i :| 0 <= i < |ctx.files| && ctx.files[i].path == "load/k6-smoke.js";
    assert ContainsAt(ctx.files[i].path, "k6", 5);
  }

  // ---------------------------------------------------------------------
  // REL-012: a Redis memory backend without persistence

  const REL012 := Finding("REL-012", Warn, Reliability, "Memory backend without persistence",
    "Enable Redis AOF or RDB persistence to survive restarts.")
  const Rel012Persistence := Regex(@"appendonly|AOF|RDB|save\s+\d|redis\.conf", "i")

  function Rel012(ctx: Context): (ds: seq<Diagnostic>)
    ensures ds != [] <==>
      ctx.projectInfo.memoryBackend == "redis"
      && !exists i :: 0 <= i < |ctx.files| && Test(ctx.engine, Rel012Persistence, ctx.files[i].content)
    ensures ds != [] ==> ds == [REL012.Report()]
  {
    if ctx.projectInfo.memoryBackend != "redis" then []
    else AbsenceFinding(ctx, Rel012Persistence, REL012)
  }

  // ---------------------------------------------------------------------
  // REL-013: no YAML file declares more than one replica

  const REL013 := Finding("REL-013", Warn, Reliability, "Single instance, no redundancy",
    "Configure at least 2 replicas for production availability.")
  const Rel013Replicas := Regex(@"replicas\s*:\s*(\d+)", "g")

  /** `parseInt(match[1]) > 1`, with `NaN > 1` false. */
  predicate MoreThanOne(m: Match) {
    var n := ParseInt(Group(m, 1));
    n.Some? && n.value > 1
  }

  predicate SomeMoreThanOne(ms: seq<Match>) {
    exists k :: 0 <= k < |ms| && MoreThanOne(ms[k])
  }

  /** A YAML file with some replica count above one. */
  predicate DeclaresReplicas(e: Engine, file: SourceFile) {
    IsYamlPath(file.path) && SomeMoreThanOne(e.exec(Rel013Replicas, file.content))
  }

  function ReplicatedFile(e: Engine): SourceFile -> bool {
    (file: SourceFile) => DeclaresReplicas(e, file)
  }

  function Rel013(ctx: Context): (ds: seq<Diagnostic>)
    ensures ds == [] <==> exists i :: 0 <= i < |ctx.files| && DeclaresReplicas(ctx.engine, ctx.files[i])
    ensures ds != [] ==> ds == [REL013.Report()]
  {
    Presence(ctx.files, ReplicatedFile(ctx.engine), REL013)
  }

  /** A count written in decimal is read back by `parseInt`, so exactly the counts above one qualify. */
  lemma {:induction false} ReplicaCountRead(m: Match, n: nat)
    requires Group(m, 1) == NatToString(n)
    ensures MoreThanOne(m) <==> n > 1
  {
    ParseIntOfNatToString(n);
  }

  /** Only YAML files are read: adding other files never changes the finding. */
  lemma Rel013IgnoresOtherFiles(ctx: Context, extra: Corpus)
    requires forall j :: 0 <= j < |extra| ==> !IsYamlPath(extra[j].path)
    ensures Rel013(ctx.(files := ctx.files + extra)) == Rel013(ctx)
  {
    PresenceIgnores(ctx.files, extra, ReplicatedFile(ctx.engine), REL013);
  }


  /** The scanned matches stay below two when one more is. */
  lemma NoneMoreThanOneSnoc(ms: seq<Match>, k: nat)
    requires k < |ms| && !MoreThanOne(ms[k])
    requires forall j :: 0 <= j < k ==> !MoreThanOne(ms[j])
    ensures forall j :: 0 <= j < k + 1 ==> !MoreThanOne(ms[j])
  {
  }

  /** The inner loop over one file's matches, leaving at the first count above one. */
  method FileDeclaresReplicas(e: Engine, file: SourceFile) returns (found: bool)
    requires IsYamlPath(file.path)
    ensures found == DeclaresReplicas(e, file)
  {
    var ms := e.exec(Rel013Replicas, file.content);
    found := false;
    var k := 0;
    while k < |ms|
      invariant 0 <= k <= |ms|
      invariant forall j :: 0 <= j < k ==> !MoreThanOne(ms[j])
    {
      if MoreThanOne(ms[k]) {
        found := true;
        break;
      }
      NoneMoreThanOneSnoc(ms, k);
      k := k + 1;
    }
    if !found {
      assert !SomeMoreThanOne(ms);
    }
  }

  /** The scanned files stay unreplicated when one more is. */
  lemma NoReplicatedFileSnoc(e: Engine, files: Corpus, i: nat)
    requires i < |files| && !DeclaresReplicas(e, files[i])
    requires forall j :: 0 <= j < i ==> !DeclaresReplicas(e, files[j])
    ensures forall j :: 0 <= j < i + 1 ==> !DeclaresReplicas(e, files[j])
  {
  }

  /** The file loop: non-YAML files are skipped, and the scan stops at the first replicated file. */
  method ScanRel013(ctx: Context) returns (ds: seq<Diagnostic>)
    ensures ds == Rel013(ctx)
  {
    var hasMultipleReplicas := false;
    var i := 0;
    while i < |ctx.files|
      invariant 0 <= i <= |ctx.files|
      invariant !hasMultipleReplicas
      invariant forall j :: 0 <= j < i ==> !DeclaresReplicas(ctx.engine, ctx.files[j])
    {
      if IsYamlPath(ctx.files[i].path) {
        hasMultipleReplicas := FileDeclaresReplicas(ctx.engine, ctx.files[i]);
        if hasMultipleReplicas {
          break;
        }
      }
      NoReplicatedFileSnoc(ctx.engine, ctx.files, i);
      i := i + 1;
    }
    if !hasMultipleReplicas {
      assert forall j :: 0 <= j < |ctx.files| ==> !ReplicatedFile(ctx.engine)(ctx.files[j]);
      ds := [REL013.Report()];
    } else {
      assert ReplicatedFile(ctx.engine)(ctx.files[i]);
      ds := [];
    }
  }
}
