/**
 * The security rules. Each rule is a function of the context whose contract
 * says, in terms of the rule's own regex tests, exactly which diagnostics it
 * returns. SEC-007, which parses package.json, is dispatched through the
 * context's `parsedChecks` in the rule index.
 */
module SecurityRules {
  import opened Strings
  import opened Regexes
  import opened Types
  import opened Shapes
  import opened RuleShapes

  // ---------------------------------------------------------------------
  // SEC-001: prompt injection risk, line by line over every file

  const SEC001 := Finding("SEC-001", Error, Security, "Prompt injection risk in tool input",
    "Sanitize or validate user-controlled input before passing to tools.")
  const Sec001Unsafe := Regex(@"user_input|message|request\.", "g")
  const Sec001Safe := Regex(@"sanitize|guardrail|validate", "")

  function Sec001(ctx: Context): (ds: seq<Diagnostic>)
    ensures forall d :: d in ds <==>
      exists i, k :: 0 <= i < |ctx.files| && 0 <= k < |Lines(ctx.files[i].content)|
        && Test(ctx.engine, Sec001Unsafe, Lines(ctx.files[i].content)[k])
        && !Test(ctx.engine, Sec001Safe, Lines(ctx.files[i].content)[k])
        && d == SEC001.AtLine(ctx.files[i].path, k + 1)
  {
    PerLineMembers(ctx.files, AllPaths, LineMatchingNot(ctx.engine, Sec001Unsafe, Sec001Safe), SEC001);
    PerLine(ctx.files, AllPaths, LineMatchingNot(ctx.engine, Sec001Unsafe, Sec001Safe), SEC001)
  }

  // ---------------------------------------------------------------------
  // SEC-002: hardcoded secrets, line by line, skipping paths containing ".env"

  const SEC002 := Finding("SEC-002", Error, Security, "Hardcoded secret or API key",
    "Move secrets to environment variables or a secrets manager.")
  const Sec002Secret := Regex(@"sk-[a-zA-Z0-9]{20,}|api_key\s*=\s*[""'][a-z0-9]{8,}|token\s*=\s*[""'][A-Za-z0-9]{8,}", "g")

  /** `/\.env/.test(file)`: the pattern is a literal, so this is a substring test. */
  predicate IsEnvPath(path: string) {
    Contains(path, ".env")
  }

  const NotEnvPath: string -> bool := (path: string) => !IsEnvPath(path)

  function Sec002(ctx: Context): (ds: seq<Diagnostic>)
    ensures forall d :: d in ds <==>
      exists i, k :: 0 <= i < |ctx.files| && !IsEnvPath(ctx.files[i].path) && 0 <= k < |Lines(ctx.files[i].content)|
        && Test(ctx.engine, Sec002Secret, Lines(ctx.files[i].content)[k])
        && d == SEC002.AtLine(ctx.files[i].path, k + 1)
  {
    PerLineMembers(ctx.files, NotEnvPath, LineMatching(ctx.engine, Sec002Secret), SEC002);
    PerLine(ctx.files, NotEnvPath, LineMatching(ctx.engine, Sec002Secret), SEC002)
  }

  // ---------------------------------------------------------------------
  // SEC-003: destructive operation without confirmation, first offending line per file

  const SEC003 := Finding("SEC-003", Error, Security, "Destructive tool without confirmation",
    "Add a confirmation step (confirmAction, FORCE flag, or requireConfirm) before destructive operations.")

  const Sec003Destructive: seq<Regex> := [
    Regex(@"\bdelete\b", "i"),
    Regex(@"\bremove\b", "i"),
    Regex(@"\bunlink\b", "i"),
    Regex(@"\brmdir\b", "i"),
    Regex(@"\brm\s*\(", "i"),
    Regex(@"\bdestroy\b", "i")
  ]

  const Sec003Safe: seq<Regex> := [
    Regex(@"\bconfirm\b", "i"),
    Regex(@"\bapproval\b", "i"),
    Regex(@"\bapprove\b", "i"),
    Regex(@"\bFORCE\b", ""),
    Regex(@"\bDRY_RUN\b", ""),
    Regex(@"\brequireConfirm\b", "i"),
    Regex(@"\bconfirmAction\b", "i"),
    Regex(@"\bif\s*\(\s*!.*FORCE", "i"),
    Regex(@"\bthrow.*Confirmation", "i")
  ]

  /** Documentation, text and YAML files are not scanned. */
  predicate Sec003Skipped(path: string) {
    EndsWith(path, ".md") || EndsWith(path, ".txt") || EndsWith(path, ".yaml") || EndsWith(path, ".yml")
  }

  predicate Sec003Candidate(e: Engine, file: SourceFile) {
    !Sec003Skipped(file.path) && AnyTest(e, Sec003Destructive, file.content) && !AnyTest(e, Sec003Safe, file.content)
  }

  function DestructiveLine(e: Engine): string -> bool {
    (line: string) => AnyTest(e, Sec003Destructive, line)
  }

  /** What one file contributes: its first destructive line, when it is a candidate. */
  function Sec003Hits(e: Engine): SourceFile -> seq<Diagnostic> {
    (file: SourceFile) =>
      if !Sec003Candidate(e, file) then []
      else match FirstWhere(Lines(file.content), 0, DestructiveLine(e))
        case None => []
        case Some(k) => [SEC003.AtLine(file.path, k + 1)]
  }

  /** Line `k` of `content` is its first destructive line. */
  predicate FirstDestructiveLine(e: Engine, content: string, k: int) {
    0 <= k < |Lines(content)| && AnyTest(e, Sec003Destructive, Lines(content)[k])
    && forall j :: 0 <= j < k ==> !AnyTest(e, Sec003Destructive, Lines(content)[j])
  }

  lemma Sec003HitsMembers(e: Engine, file: SourceFile, d: Diagnostic)
    ensures |Sec003Hits(e)(file)| <= 1
    ensures d in Sec003Hits(e)(file) <==>
      Sec003Candidate(e, file)
      && exists k :: FirstDestructiveLine(e, file.content, k) && d == SEC003.AtLine(file.path, k + 1)
  {
    if exists k :: FirstDestructiveLine(e, file.content, k) {
      var k :| FirstDestructiveLine(e, file.content, k);
      FirstWhereIs(Lines(file.content), 0, DestructiveLine(e), k);
    } else {
      var r := FirstWhere(Lines(file.content), 0, DestructiveLine(e));
      if r.Some? {
        assert FirstDestructiveLine(e, file.content, r.value);
      }
    }
  }

  function Sec003(ctx: Context): (ds: seq<Diagnostic>)
    ensures |ds| <= |ctx.files|
    ensures forall d :: d in ds <==>
      exists i, k :: 0 <= i < |ctx.files| && Sec003Candidate(ctx.engine, ctx.files[i])
        && FirstDestructiveLine(ctx.engine, ctx.files[i].content, k)
        && d == SEC003.AtLine(ctx.files[i].path, k + 1)
  {
    var e := ctx.engine;
    forall i | 0 <= i < |ctx.files| {
      Sec003HitsMembers(e, ctx.files[i], SEC003.Report());
    }
    EachFileMembers(ctx.files, Sec003Hits(e));
    EachFileAtMostOne(ctx.files, Sec003Hits(e));
    var ds := EachFile(ctx.files, Sec003Hits(e));
    forall d
      ensures d in ds <==>
        exists i, k :: 0 <= i < |ctx.files| && Sec003Candidate(e, ctx.files[i])
          && FirstDestructiveLine(e, ctx.files[i].content, k)
          && d == SEC003.AtLine(ctx.files[i].path, k + 1)
    {
      forall i | 0 <= i < |ctx.files| {
        Sec003HitsMembers(e, ctx.files[i], d);
      }
    }
    ds
  }

  /** One file of the scan: skip it, or find its first destructive line with a `break`. */
  method ScanSec003File(e: Engine, file: SourceFile) returns (hits: seq<Diagnostic>)
    ensures hits == Sec003Hits(e)(file)
  {
    hits := [];
    if Sec003Skipped(file.path) {
      return;
    }
    var hasDestructive := AnyTest(e, Sec003Destructive, file.content);
    var hasConfirmation := AnyTest(e, Sec003Safe, file.content);
    if !hasDestructive || hasConfirmation {
      return;
    }
    var lines := Lines(file.content);
    var k := 0;
    while k < |lines|
      invariant 0 <= k <= |lines|
      invariant hits == []
      invariant forall j :: 0 <= j < k ==> !AnyTest(e, Sec003Destructive, lines[j])
    {
      if AnyTest(e, Sec003Destructive, lines[k]) {
        FirstWhereIs(lines, 0, DestructiveLine(e), k);
        hits := [SEC003.AtLine(file.path, k + 1)];
        return;
      }
      k := k + 1;
    }
    FirstWhereNone(lines, 0, DestructiveLine(e));
  }

  /** The scan as written: the files in corpus order, each contributing at most one diagnostic. */
  method ScanSec003(ctx: Context) returns (ds: seq<Diagnostic>)
    ensures ds == Sec003(ctx)
  {
    ds := [];
    var i := 0;
    while i < |ctx.files|
      invariant 0 <= i <= |ctx.files|
      invariant ds == EachFile(ctx.files[..i], Sec003Hits(ctx.engine))
    {
      var hits := ScanSec003File(ctx.engine, ctx.files[i]);
      EachFileAppend(ctx.files[..i], [ctx.files[i]], Sec003Hits(ctx.engine));
      assert ctx.files[..i + 1] == ctx.files[..i] + [ctx.files[i]];
      ds := ds + hits;
      i := i + 1;
    }
    assert ctx.files[..i] == ctx.files;
  }

  // ---------------------------------------------------------------------
  // SEC-004 and the other per-file rules: a trigger without its mitigation

  const SEC004 := Finding("SEC-004", Warn, Security, "No audit logging on tool calls",
    "Add audit logging around all tool invocations to track usage.")
  const Sec004ToolCall := Regex(@"\.tool\(|invoke_tool|run_tool|call_tool", "")
  const Sec004Logging := Regex(@"logger\.|log\.|audit|logging", "")

  function Sec004(ctx: Context): (ds: seq<Diagnostic>)
    ensures |ds| <= |ctx.files|
    ensures forall d :: d in ds <==>
      exists i :: 0 <= i < |ctx.files| && Test(ctx.engine, Sec004ToolCall, ctx.files[i].content)
        && !Test(ctx.engine, Sec004Logging, ctx.files[i].content) && d == SEC004.At(ctx.files[i].path)
  {
    FileFindings(ctx, Sec004ToolCall, Sec004Logging, SEC004)
  }

  // ---------------------------------------------------------------------
  // SEC-005: too many tools

  const SEC005 := Finding("SEC-005", Warn, Security, "Excessive agent permissions", "")

  function Sec005Remediation(toolCount: nat): string {
    "Agent has " + NatToString(toolCount) + " tools registered. Review and remove unused tools to follow least-privilege principle."
  }

  function Sec005(ctx: Context): (ds: seq<Diagnostic>)
    ensures |ds| == (if ctx.projectInfo.toolCount > 20 then 1 else 0)
    ensures forall d :: d in ds ==>
        Carries(d, SEC005) && d.file.None? && d.line.None?
        && d.remediation == Sec005Remediation(ctx.projectInfo.toolCount)
  {
    if ctx.projectInfo.toolCount > 20
    then [SEC005.WithRemediation(Sec005Remediation(ctx.projectInfo.toolCount)).Report()]
    else []
  }

  /** The corpus is never consulted. */
  lemma Sec005IgnoresFiles(ctx: Context, files: Corpus)
    ensures Sec005(ctx.(files := files)) == Sec005(ctx)
  {
  }

  // ---------------------------------------------------------------------
  // SEC-006, SEC-008, SEC-011: two tests on the same line

  const SEC006 := Finding("SEC-006", Error, Security, "Untrusted data written to memory",
    "Validate and sanitize data before writing to memory stores.")
  const Sec006MemoryWrite := Regex(@"memory\.write\(|\.store\(|\.add\(", "g")
  const Sec006Untrusted := Regex(@"user_input|message|request\.", "")

  function Sec006(ctx: Context): (ds: seq<Diagnostic>)
    ensures forall d :: d in ds <==>
      exists i, k :: 0 <= i < |ctx.files| && 0 <= k < |Lines(ctx.files[i].content)|
        && Test(ctx.engine, Sec006MemoryWrite, Lines(ctx.files[i].content)[k])
        && Test(ctx.engine, Sec006Untrusted, Lines(ctx.files[i].content)[k])
        && d == SEC006.AtLine(ctx.files[i].path, k + 1)
  {
    PerLineMembers(ctx.files, AllPaths, LineMatchingBoth(ctx.engine, Sec006MemoryWrite, Sec006Untrusted), SEC006);
    PerLine(ctx.files, AllPaths, LineMatchingBoth(ctx.engine, Sec006MemoryWrite, Sec006Untrusted), SEC006)
  }

  const SEC008 := Finding("SEC-008", Error, Security, "PII logged in tool output",
    "Remove or redact PII (email, phone, SSN) from log statements.")
  const Sec008Log := Regex(@"logger\.|console\.log|print\(", "")
  const Sec008Pii := Regex(@"[a-zA-Z0-9._%+-]+@[a-zA-Z0-9.-]+\.[a-zA-Z]{2,}|\b\d{3}[-.]?\d{3}[-.]?\d{4}\b|\b\d{3}-\d{2}-\d{4}\b", "")

  function Sec008(ctx: Context): (ds: seq<Diagnostic>)
    ensures forall d :: d in ds <==>
      exists i, k :: 0 <= i < |ctx.files| && 0 <= k < |Lines(ctx.files[i].content)|
        && Test(ctx.engine, Sec008Log, Lines(ctx.files[i].content)[k])
        && Test(ctx.engine, Sec008Pii, Lines(ctx.files[i].content)[k])
        && d == SEC008.AtLine(ctx.files[i].path, k + 1)
  {
    PerLineMembers(ctx.files, AllPaths, LineMatchingBoth(ctx.engine, Sec008Log, Sec008Pii), SEC008);
    PerLine(ctx.files, AllPaths, LineMatchingBoth(ctx.engine, Sec008Log, Sec008Pii), SEC008)
  }

  const SEC009 := Finding("SEC-009", Warn, Security, "Tool results not validated",
    "Validate tool output against a schema before using in subsequent steps.")
  const Sec009ToolResult := Regex(@"tool_result|toolResult|tool\.run|invoke\(", "")
  const Sec009Validation := Regex(@"parse|validate|schema|zod|pydantic|\.safeParse", "")

  function Sec009(ctx: Context): (ds: seq<Diagnostic>)
    ensures |ds| <= |ctx.files|
    ensures forall d :: d in ds <==>
      exists i :: 0 <= i < |ctx.files| && Test(ctx.engine, Sec009ToolResult, ctx.files[i].content)
        && !Test(ctx.engine, Sec009Validation, ctx.files[i].content) && d == SEC009.At(ctx.files[i].path)
  {
    FileFindings(ctx, Sec009ToolResult, Sec009Validation, SEC009)
  }

  const SEC010 := Finding("SEC-010", Warn, Security, "No rate limiting",
    "Add rate limiting to HTTP clients to prevent abuse and API exhaustion.")
  const Sec010Http := Regex(@"fetch\(|axios\.|requests\.|httpx\.|got\(", "")
  const Sec010RateLimit := Regex(@"rateLimit|throttle|limiter|rate_limit", "")

  function Sec010(ctx: Context): (ds: seq<Diagnostic>)
    ensures |ds| <= |ctx.files|
    ensures forall d :: d in ds <==>
      exists i :: 0 <= i < |ctx.files| && Test(ctx.engine, Sec010Http, ctx.files[i].content)
        && !Test(ctx.engine, Sec010RateLimit, ctx.files[i].content) && d == SEC010.At(ctx.files[i].path)
  {
    FileFindings(ctx, Sec010Http, Sec010RateLimit, SEC010)
  }

  const SEC011 := Finding("SEC-011", Warn, Security, "Schema exposes internal details",
    "Remove internal paths, hostnames, or table names from tool descriptions/schemas.")
  const Sec011Internal := Regex(@"\/home\/|\/var\/|localhost|127\.0\.0\.1|internal\.|\.internal|_table|_schema", "")
  const Sec011Schema := Regex(@"description|schema|tool", "i")

  function Sec011(ctx: Context): (ds: seq<Diagnostic>)
    ensures forall d :: d in ds <==>
      exists i, k :: 0 <= i < |ctx.files| && 0 <= k < |Lines(ctx.files[i].content)|
        && Test(ctx.engine, Sec011Internal, Lines(ctx.files[i].content)[k])
        && Test(ctx.engine, Sec011Schema, Lines(ctx.files[i].content)[k])
        && d == SEC011.AtLine(ctx.files[i].path, k + 1)
  {
    PerLineMembers(ctx.files, AllPaths, LineMatchingBoth(ctx.engine, Sec011Internal, Sec011Schema), SEC011);
    PerLine(ctx.files, AllPaths, LineMatchingBoth(ctx.engine, Sec011Internal, Sec011Schema), SEC011)
  }

  const SEC012 := Finding("SEC-012", Warn, Security, "No secrets rotation policy",
    "Implement a secrets rotation policy with TTL or automated rotation.")
  const Sec012ApiKey := Regex(@"API_KEY|api_key|SECRET|OPENAI_API_KEY|ANTHROPIC_API_KEY", "")
  const Sec012Rotation := Regex(@"rotation|rotate|ttl|expir", "i")

  function Sec012(ctx: Context): (ds: seq<Diagnostic>)
    ensures |ds| <= |ctx.files|
    ensures forall d :: d in ds <==>
      exists i :: 0 <= i < |ctx.files| && Test(ctx.engine, Sec012ApiKey, ctx.files[i].content)
        && !Test(ctx.engine, Sec012Rotation, ctx.files[i].content) && d == SEC012.At(ctx.files[i].path)
  {
    FileFindings(ctx, Sec012ApiKey, Sec012Rotation, SEC012)
  }

  // ---------------------------------------------------------------------
  // SEC-013: the Dockerfile runs as root

  const SEC013 := Finding("SEC-013", Error, Security, "Process runs as root",
    "Add a non-root USER directive in your Dockerfile (e.g., USER node).")
  const Sec013Root := Regex(@"USER\s+root", "i")

  /** No `USER ` directive at all, or an explicit root user. */
  predicate RunsAsRoot(e: Engine, dockerfile: string) {
    !Contains(dockerfile, "USER ") || Test(e, Sec013Root, dockerfile)
  }

  function Sec013(ctx: Context): (ds: seq<Diagnostic>)
    ensures var c := Lookup(ctx.files, "Dockerfile");
      ds != [] <==> Truthy(c) && RunsAsRoot(ctx.engine, c.value)
    ensures ds != [] ==> ds == [SEC013.At("Dockerfile")]
  {
    var c := Lookup(ctx.files, "Dockerfile");
    if !Truthy(c) then []
    else if RunsAsRoot(ctx.engine, c.value) then [SEC013.At("Dockerfile")]
    else []
  }

  // ---------------------------------------------------------------------
  // SEC-014 .. SEC-018: per-file rules

  const SEC014 := Finding("SEC-014", Warn, Security, "No input length enforcement",
    "Enforce max length on agent inputs to prevent prompt flooding attacks.")
  const Sec014Input := Regex(@"user_input|message|prompt|input", "i")
  const Sec014Length := Regex(@"max_length|maxLength|maxTokens|max_tokens|\.length\s*[<>]", "")

  function Sec014(ctx: Context): (ds: seq<Diagnostic>)
    ensures |ds| <= |ctx.files|
    ensures forall d :: d in ds <==>
      exists i :: 0 <= i < |ctx.files| && Test(ctx.engine, Sec014Input, ctx.files[i].content)
        && !Test(ctx.engine, Sec014Length, ctx.files[i].content) && d == SEC014.At(ctx.files[i].path)
  {
    FileFindings(ctx, Sec014Input, Sec014Length, SEC014)
  }

  const SEC015 := Finding("SEC-015", Warn, Security, "Cross-agent trust not validated",
    "Validate agent identity/signatures when delegating between agents.")
  const Sec015MultiAgent := Regex(@"agent\.send|agent\.call|delegate|sub_agent|subagent", "i")
  const Sec015Trust := Regex(@"signature|verify|identity|authenticate|trusted", "i")

  function Sec015(ctx: Context): (ds: seq<Diagnostic>)
    ensures |ds| <= |ctx.files|
    ensures forall d :: d in ds <==>
      exists i :: 0 <= i < |ctx.files| && Test(ctx.engine, Sec015MultiAgent, ctx.files[i].content)
        && !Test(ctx.engine, Sec015Trust, ctx.files[i].content) && d == SEC015.At(ctx.files[i].path)
  {
    FileFindings(ctx, Sec015MultiAgent, Sec015Trust, SEC015)
  }

  const SEC016 := Finding("SEC-016", Warn, Security, "System prompt extractable",
    "Add instructions in the system prompt to not reveal its contents.")
  const Sec016SystemPrompt := Regex(@"system_prompt|systemPrompt|system:\s*[""'`]", "")
  const Sec016Safeguard := Regex(@"do not reveal|cannot share|must not repeat|confidential|keep.*secret", "i")

  function Sec016(ctx: Context): (ds: seq<Diagnostic>)
    ensures |ds| <= |ctx.files|
    ensures forall d :: d in ds <==>
      exists i :: 0 <= i < |ctx.files| && Test(ctx.engine, Sec016SystemPrompt, ctx.files[i].content)
        && !Test(ctx.engine, Sec016Safeguard, ctx.files[i].content) && d == SEC016.At(ctx.files[i].path)
  {
    FileFindings(ctx, Sec016SystemPrompt, Sec016Safeguard, SEC016)
  }

  const SEC017 := Finding("SEC-017", Error, Security, "No SSRF protection",
    "Add IP range checks or domain allowlist before fetching user-supplied URLs.")
  const Sec017UrlFetch := Regex(@"fetch\(.*url|requests\.get\(|httpx\.get\(|axios\.get\(", "")
  const Sec017Ssrf := Regex(@"allowlist|allowedDomains|allowed_domains|isPrivateIP|ip.*check|domain.*whitelist", "i")

  function Sec017(ctx: Context): (ds: seq<Diagnostic>)
    ensures |ds| <= |ctx.files|
    ensures forall d :: d in ds <==>
      exists i :: 0 <= i < |ctx.files| && Test(ctx.engine, Sec017UrlFetch, ctx.files[i].content)
        && !Test(ctx.engine, Sec017Ssrf, ctx.files[i].content) && d == SEC017.At(ctx.files[i].path)
  {
    FileFindings(ctx, Sec017UrlFetch, Sec017Ssrf, SEC017)
  }

  const SEC018 := Finding("SEC-018", Error, Security, "Output not sanitized before rendering",
    "Sanitize HTML output before rendering (e.g., use DOMPurify or similar).")
  const Sec018HtmlRender := Regex(@"innerHTML|dangerouslySetInnerHTML|\.html\(|render.*html", "i")
  const Sec018Sanitize := Regex(@"sanitize|DOMPurify|xss|escape|encode", "i")

  function Sec018(ctx: Context): (ds: seq<Diagnostic>)
    ensures |ds| <= |ctx.files|
    ensures forall d :: d in ds <==>
      exists i :: 0 <= i < |ctx.files| && Test(ctx.engine, Sec018HtmlRender, ctx.files[i].content)
        && !Test(ctx.engine, Sec018Sanitize, ctx.files[i].content) && d == SEC018.At(ctx.files[i].path)
  {
    FileFindings(ctx, Sec018HtmlRender, Sec018Sanitize, SEC018)
  }
}
