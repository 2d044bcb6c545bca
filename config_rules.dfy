/**
 * The configuration rules. CFG-004 (which parses JSON) and CFG-005 (which
 * parses floating-point numbers) are dispatched through the context's
 * `parsedChecks` in the rule index.
 */
module ConfigRules {
  import opened Strings
  import opened Regexes
  import opened Types
  import opened Shapes
  import opened RuleShapes
  import opened Seqs

  // ---------------------------------------------------------------------
  // Per-file rules: CFG-001, CFG-002, CFG-003, CFG-011, CFG-012

  const CFG001 := Finding("CFG-001", Warn, Category.Config, "max_tokens not set",
    "Set max_tokens on LLM calls to prevent runaway token usage.")
  const Cfg001LlmCall := Regex(@"openai\.|anthropic\.|ChatOpenAI|ChatAnthropic|createCompletion|chat\.completions", "")
  const Cfg001MaxTokens := Regex(@"max_tokens|maxTokens", "")

  function Cfg001(ctx: Context): (ds: seq<Diagnostic>)
    ensures |ds| <= |ctx.files|
    ensures forall d :: d in ds <==>
      exists i :: 0 <= i < |ctx.files| && Test(ctx.engine, Cfg001LlmCall, ctx.files[i].content)
        && !Test(ctx.engine, Cfg001MaxTokens, ctx.files[i].content) && d == CFG001.At(ctx.files[i].path)
  {
    FileFindings(ctx, Cfg001LlmCall, Cfg001MaxTokens, CFG001)
  }

  const CFG002 := Finding("CFG-002", Warn, Category.Config, "No memory TTL",
    "Set a TTL on memory entries to prevent unbounded data accumulation.")
  const Cfg002Memory := Regex(@"redis|pinecone|chroma|weaviate|memory|MemoryStore", "i")
  const Cfg002Ttl := Regex(@"ttl|expiry|expire|expiresIn|EX\s+\d", "i")

  function Cfg002(ctx: Context): (ds: seq<Diagnostic>)
    ensures |ds| <= |ctx.files|
    ensures forall d :: d in ds <==>
      exists i :: 0 <= i < |ctx.files| && Test(ctx.engine, Cfg002Memory, ctx.files[i].content)
        && !Test(ctx.engine, Cfg002Ttl, ctx.files[i].content) && d == CFG002.At(ctx.files[i].path)
  {
    FileFindings(ctx, Cfg002Memory, Cfg002Ttl, CFG002)
  }

  const CFG003 := Finding("CFG-003", Warn, Category.Config, "Required env var missing",
    "Validate required environment variables at startup and fail fast if missing.")
  const Cfg003EnvAccess := Regex(@"os\.environ\[|process\.env\.", "g")
  const Cfg003Validation := Regex(@"if\s*not\s+os\.environ|if\s*!\s*process\.env|dotenv\.config|required.*env|env.*required", "i")

  function Cfg003(ctx: Context): (ds: seq<Diagnostic>)
    ensures |ds| <= |ctx.files|
    ensures forall d :: d in ds <==>
      exists i :: 0 <= i < |ctx.files| && Test(ctx.engine, Cfg003EnvAccess, ctx.files[i].content)
        && !Test(ctx.engine, Cfg003Validation, ctx.files[i].content) && d == CFG003.At(ctx.files[i].path)
  {
    FileFindings(ctx, Cfg003EnvAccess, Cfg003Validation, CFG003)
  }

  const CFG011 := Finding("CFG-011", Warn, Category.Config, "No input schema on tools",
    "Define input schemas for tools using Zod, Pydantic, or JSON Schema.")
  const Cfg011ToolDef := Regex(@"DynamicTool|StructuredTool|@tool\b|\.tool\(", "")
  const Cfg011Schema := Regex(@"z\.object|BaseModel|inputSchema|parameters.*schema|zod\.", "i")

  function Cfg011(ctx: Context): (ds: seq<Diagnostic>)
    ensures |ds| <= |ctx.files|
    ensures forall d :: d in ds <==>
      exists i :: 0 <= i < |ctx.files| && Test(ctx.engine, Cfg011ToolDef, ctx.files[i].content)
        && !Test(ctx.engine, Cfg011Schema, ctx.files[i].content) && d == CFG011.At(ctx.files[i].path)
  {
    FileFindings(ctx, Cfg011ToolDef, Cfg011Schema, CFG011)
  }

  const CFG012 := Finding("CFG-012", Warn, Category.Config, "Streaming not configured",
    "Enable streaming for long-running tool operations to improve responsiveness.")
  const Cfg012LongOp := Regex(@"sleep|time\.sleep|await.*delay|long.*running|batch.*process", "i")
  const Cfg012Stream := Regex(@"stream\s*:\s*true|streaming\s*=\s*True|streamText|streamObject", "i")

  function Cfg012(ctx: Context): (ds: seq<Diagnostic>)
    ensures |ds| <= |ctx.files|
    ensures forall d :: d in ds <==>
      exists i :: 0 <= i < |ctx.files| && Test(ctx.engine, Cfg012LongOp, ctx.files[i].content)
        && !Test(ctx.engine, Cfg012Stream, ctx.files[i].content) && d == CFG012.At(ctx.files[i].path)
  {
    FileFindings(ctx, Cfg012LongOp, Cfg012Stream, CFG012)
  }

  // ---------------------------------------------------------------------
  // Aggregate rules: CFG-006, CFG-007, CFG-010

  const CFG006 := Finding("CFG-006", Warn, Category.Config, "No fallback model",
    "Configure a fallback model or router for resilience when primary model is unavailable.")
  const Cfg006Fallback := Regex(@"fallback|fallbackModel|backup.*model|model.*fallback|router|ModelRouter", "i")
  const Cfg006Model := Regex(@"gpt-4|gpt-3|claude-|gemini-|llama-", "i")

  function Cfg006(ctx: Context): (ds: seq<Diagnostic>)
    ensures ds != [] <==>
      (exists i :: 0 <= i < |ctx.files| && Test(ctx.engine, Cfg006Model, ctx.files[i].content))
      && !(exists i :: 0 <= i < |ctx.files| && Test(ctx.engine, Cfg006Fallback, ctx.files[i].content))
    ensures ds != [] ==> ds == [CFG006.Report()]
  {
    AggregateFinding(ctx, Cfg006Model, Cfg006Fallback, CFG006)
  }

  const CFG007 := Finding("CFG-007", Warn, Category.Config, "No system prompt",
    "Define a system prompt to set agent behavior, persona, and constraints.")
  const Cfg007Agent := Regex(@"Agent\(|createAgent|new Agent|agent\s*=\s*", "i")
  const Cfg007SystemPrompt := Regex(@"system_prompt|systemPrompt|system\s*:", "i")

  function Cfg007(ctx: Context): (ds: seq<Diagnostic>)
    ensures ds != [] <==>
      (exists i :: 0 <= i < |ctx.files| && Test(ctx.engine, Cfg007Agent, ctx.files[i].content))
      && !(exists i :: 0 <= i < |ctx.files| && Test(ctx.engine, Cfg007SystemPrompt, ctx.files[i].content))
    ensures ds != [] ==> ds == [CFG007.Report()]
  {
    AggregateFinding(ctx, Cfg007Agent, Cfg007SystemPrompt, CFG007)
  }

  const CFG010 := Finding("CFG-010", Warn, Category.Config, "No context window management",
    "Implement context trimming or summarization to handle long conversations.")
  const Cfg010Llm := Regex(@"openai\.|anthropic\.|ChatOpenAI|createCompletion", "")
  const Cfg010ContextMgmt := Regex(@"trim|summarize|sliding.*window|context.*limit|truncate|prune.*message", "i")

  function Cfg010(ctx: Context): (ds: seq<Diagnostic>)
    ensures ds != [] <==>
      (exists i :: 0 <= i < |ctx.files| && Test(ctx.engine, Cfg010Llm, ctx.files[i].content))
      && !(exists i :: 0 <= i < |ctx.files| && Test(ctx.engine, Cfg010ContextMgmt, ctx.files[i].content))
    ensures ds != [] ==> ds == [CFG010.Report()]
  {
    AggregateFinding(ctx, Cfg010Llm, Cfg010ContextMgmt, CFG010)
  }

  // ---------------------------------------------------------------------
  // CFG-008: a tool name registered more than once

  const CFG008 := Finding("CFG-008", Error, Category.Config, "Duplicate tool names", "")
  const Cfg008ToolName := Regex(@"name\s*[:=]\s*[""']([^""']+)[""']", "g")

  /** One `name: "..."` occurrence: the captured name and the file it was found in. */
  datatype Registration = Registration(name: string, file: string)

  /** The occurrences in one file, in match order. */
  function FileRegistrations(ms: seq<Match>, path: string): seq<Registration> {
    if |ms| == 0 then []
    else FileRegistrations(ms[..|ms| - 1], path) + [Registration(Group(ms[|ms| - 1], 1), path)]
  }

  /** Every occurrence, file by file in corpus order. */
  function Registrations(e: Engine, files: Corpus): seq<Registration> {
    if |files| == 0 then []
    else
      var last := files[|files| - 1];
      Registrations(e, files[..|files| - 1]) + FileRegistrations(e.exec(Cfg008ToolName, last.content), last.path)
  }

  predicate Registered(rs: seq<Registration>, name: string) {
    exists k :: 0 <= k < |rs| && rs[k].name == name
  }

  /** The files recorded for `name`: one entry per occurrence, in order. */
  function FilesNamed(rs: seq<Registration>, name: string): (fs: seq<string>)
    ensures |fs| <= |rs|
    ensures |fs| > 0 <==> Registered(rs, name)
  {
    if |rs| == 0 then []
    else
      var prev := FilesNamed(rs[..|rs| - 1], name);
      assert Registered(rs, name) <==> Registered(rs[..|rs| - 1], name) || rs[|rs| - 1].name == name by {
        if Registered(rs, name) && rs[|rs| - 1].name != name {
          var k :| 0 <= k < |rs| && rs[k].name == name;
          assert rs[..|rs| - 1][k] == rs[k];
        }
        if Registered(rs[..|rs| - 1], name) {
          var k :| 0 <= k < |rs| - 1 && rs[..|rs| - 1][k].name == name;
          assert rs[k] == rs[..|rs| - 1][k];
        }
      }
      if rs[|rs| - 1].name == name then prev + [rs[|rs| - 1].file] else prev
  }

  /** The index of the first occurrence of `name`, or `|rs|` when there is none. */
  function FirstIndex(rs: seq<Registration>, name: string): (k: nat)
    ensures k <= |rs|
    ensures k < |rs| <==> Registered(rs, name)
    ensures k < |rs| ==> rs[k].name == name
    ensures forall j :: 0 <= j < k ==> rs[j].name != name
  {
    if |rs| == 0 then 0
    else
      var init := rs[..|rs| - 1];
      var p := FirstIndex(init, name);
      assert forall j :: 0 <= j < |init| ==> rs[j] == init[j];
      if p < |init| then p
      else if rs[|rs| - 1].name == name then |init|
      else |rs|
  }

  /** Earlier names of `ns` occur first earlier in `rs`. */
  predicate FirstOccurrenceOrdered(ns: seq<string>, rs: seq<Registration>) {
    forall a, b :: 0 <= a < b < |ns| ==> FirstIndex(rs, ns[a]) < FirstIndex(rs, ns[b])
  }

  /** The distinct names in first-occurrence order: the key order of the source's map. */
  function NameOrder(rs: seq<Registration>): (ns: seq<string>)
    ensures forall n :: n in ns <==> Registered(rs, n)
    ensures NoDuplicates(ns)
  {
    if |rs| == 0 then []
    else
      var init := rs[..|rs| - 1];
      var prev := NameOrder(init);
      var n := rs[|rs| - 1].name;
      assert forall m :: Registered(rs, m) <==> Registered(init, m) || m == n by {
        forall m
          ensures Registered(rs, m) <==> Registered(init, m) || m == n
        {
          if Registered(rs, m) && m != n {
            var k :| 0 <= k < |rs| && rs[k].name == m;
            assert init[k] == rs[k];
          }
          if Registered(init, m) {
            var k :| 0 <= k < |init| && init[k].name == m;
            assert rs[k] == init[k];
          }
        }
      }
      if n in prev then prev else prev + [n]
  }

  lemma {:induction false} NameOrderOrdered(rs: seq<Registration>)
    ensures FirstOccurrenceOrdered(NameOrder(rs), rs)
  {
    if |rs| > 0 {
      var init := rs[..|rs| - 1];
      NameOrderOrdered(init);
      var prev := NameOrder(init);
      var ns := NameOrder(rs);
      forall m | Registered(init, m)
        ensures FirstIndex(rs, m) == FirstIndex(init, m)
      {
      }
      forall a, b | 0 <= a < b < |ns|
        ensures FirstIndex(rs, ns[a]) < FirstIndex(rs, ns[b])
      {
        assert ns[a] == prev[a];
        if b < |prev| {
          assert ns[b] == prev[b];
        } else {
          assert FirstIndex(init, prev[a]) < |init|;
        }
      }
    }
  }

  /** The test of the source's second loop: `files.length > 1`. */
  function IsDuplicate(rs: seq<Registration>): string -> bool {
    (n: string) => |FilesNamed(rs, n)| > 1
  }

  /** Keeping only some names of a first-occurrence-ordered list keeps it ordered. */
  lemma {:induction false} OrderedFilterKeepsFirstOccurrence(keys: seq<string>, rs: seq<Registration>, keep: string -> bool)
    requires FirstOccurrenceOrdered(keys, rs)
    ensures FirstOccurrenceOrdered(Filter(keys, keep), rs)
  {
    var dn := Filter(keys, keep);
    FilterOrdered(keys, keep);
    forall a, b | 0 <= a < b < |dn|
      ensures FirstIndex(rs, dn[a]) < FirstIndex(rs, dn[b])
    {
      var a', b' := OrderedInPair(dn, keys, a, b);
    }
  }

  /** `Tool name "<name>" is registered in multiple files: <files>. Use unique names.` */
  function DuplicateReport(name: string, files: seq<string>): Diagnostic {
    CFG008.WithRemediation("Tool name \"" + name + "\" is registered in multiple files: " + Join(files, ", ") + ". Use unique names.").Report()
  }

  /** One report per name of `dn`, in order. */
  function Reports(dn: seq<string>, rs: seq<Registration>): (ds: seq<Diagnostic>)
    ensures |ds| == |dn|
    ensures forall k :: 0 <= k < |dn| ==> ds[k] == DuplicateReport(dn[k], FilesNamed(rs, dn[k]))
  {
    if |dn| == 0 then []
    else Reports(dn[..|dn| - 1], rs) + [DuplicateReport(dn[|dn| - 1], FilesNamed(rs, dn[|dn| - 1]))]
  }

  /** The names CFG-008 reports, in the order it reports them. */
  function Cfg008Names(ctx: Context): seq<string> {
    var rs := Registrations(ctx.engine, ctx.files);
    Filter(NameOrder(rs), IsDuplicate(rs))
  }

  /** One report per duplicate name, in the order of `Cfg008Names`, quoting the files recorded for it. */
  function Cfg008(ctx: Context): (ds: seq<Diagnostic>)
    ensures |ds| == |Cfg008Names(ctx)|
    ensures forall k :: 0 <= k < |ds| ==>
      ds[k] == DuplicateReport(Cfg008Names(ctx)[k], FilesNamed(Registrations(ctx.engine, ctx.files), Cfg008Names(ctx)[k]))
    ensures forall d :: d in ds ==> Carries(d, CFG008) && d.file.None? && d.line.None?
  {
    var rs := Registrations(ctx.engine, ctx.files);
    Reports(Filter(NameOrder(rs), IsDuplicate(rs)), rs)
  }

  /** Every name recorded more than once is reported. */
  lemma {:induction false} DuplicateReported(ctx: Context, name: string)
    requires |FilesNamed(Registrations(ctx.engine, ctx.files), name)| > 1
    ensures DuplicateReport(name, FilesNamed(Registrations(ctx.engine, ctx.files), name)) in Cfg008(ctx)
  {
    var rs := Registrations(ctx.engine, ctx.files);
    var ns := NameOrder(rs);
    var dn := Filter(ns, IsDuplicate(rs));
    assert dn == Cfg008Names(ctx);
    assert Registered(rs, name);
    assert name in ns;
    assert IsDuplicate(rs)(name);
    assert name in dn;
    var k :| 0 <= k < |dn| && dn[k] == name;
    assert Cfg008(ctx)[k] == DuplicateReport(name, FilesNamed(rs, name));
  }

  /** Every report is about a name recorded more than once. */
  lemma ReportedIsDuplicate(ctx: Context, d: Diagnostic)
    requires d in Cfg008(ctx)
    ensures exists name ::
        |FilesNamed(Registrations(ctx.engine, ctx.files), name)| > 1
        && d == DuplicateReport(name, FilesNamed(Registrations(ctx.engine, ctx.files), name))
  {
    var rs := Registrations(ctx.engine, ctx.files);
    var dn := Cfg008Names(ctx);
    var k :| 0 <= k < |dn| && Cfg008(ctx)[k] == d;
    assert dn[k] in dn;
    assert IsDuplicate(rs)(dn[k]);
  }

  /** The reported names are distinct, each occurs at least twice, and they follow first-occurrence order. */
  lemma Cfg008NamesDistinct(ctx: Context)
    ensures forall n :: n in Cfg008Names(ctx) <==> |FilesNamed(Registrations(ctx.engine, ctx.files), n)| > 1
    ensures NoDuplicates(Cfg008Names(ctx))
    ensures FirstOccurrenceOrdered(Cfg008Names(ctx), Registrations(ctx.engine, ctx.files))
  {
    var rs := Registrations(ctx.engine, ctx.files);
    NameOrderOrdered(rs);
    FilterNoDuplicates(NameOrder(rs), IsDuplicate(rs));
    OrderedFilterKeepsFirstOccurrence(NameOrder(rs), rs, IsDuplicate(rs));
  }

  lemma {:induction false} FilesNamedAppend(a: seq<Registration>, b: seq<Registration>, name: string)
    ensures FilesNamed(a + b, name) == FilesNamed(a, name) + FilesNamed(b, name)
    decreases |b|
  {
    if |b| == 0 {
      assert a + b == a;
    } else {
      assert (a + b)[..|a + b| - 1] == a + b[..|b| - 1];
      FilesNamedAppend(a, b[..|b| - 1], name);
    }
  }

  /** A name occurring twice, whether in one file or in two, is a duplicate. */
  lemma {:induction false} RepeatedIsDuplicate(rs: seq<Registration>, name: string, k1: int, k2: int)
    requires 0 <= k1 < k2 < |rs| && rs[k1].name == name && rs[k2].name == name
    ensures |FilesNamed(rs, name)| > 1
  {
    FilesNamedAppend(rs[..k2], rs[k2..], name);
    assert rs[..k2] + rs[k2..] == rs;
    assert rs[..k2][k1] == rs[k1];
    assert rs[k2..][0] == rs[k2];
  }

  /** A duplicate name occurs at two different positions. */
  lemma {:induction false} DuplicateIsRepeated(rs: seq<Registration>, name: string)
    requires |FilesNamed(rs, name)| > 1
    ensures exists k1, k2 :: 0 <= k1 < k2 < |rs| && rs[k1].name == name && rs[k2].name == name
  {
    var init := rs[..|rs| - 1];
    assert |FilesNamed(rs, name)| == |FilesNamed(init, name)| + (if rs[|rs| - 1].name == name then 1 else 0);
    if rs[|rs| - 1].name == name {
      assert Registered(init, name);
      var k1 :| 0 <= k1 < |init| && init[k1].name == name;
      assert rs[k1] == init[k1];
    } else {
      DuplicateIsRepeated(init, name);
      var k1, k2 :| 0 <= k1 < k2 < |init| && init[k1].name == name && init[k2].name == name;
      assert rs[k1] == init[k1] && rs[k2] == init[k2];
    }
  }

  /** `keys` and `table` are the source's `toolNames` map after the registrations `rs`. */
  ghost predicate TableOf(keys: seq<string>, table: map<string, seq<string>>, rs: seq<Registration>) {
    keys == NameOrder(rs)
    && (forall n :: n in table <==> n in keys)
    && (forall n :: n in table ==> table[n] == FilesNamed(rs, n))
  }

  /** `if (!toolNames.has(name)) toolNames.set(name, []); toolNames.get(name)!.push(file)`. */
  method Record(keys: seq<string>, table: map<string, seq<string>>, ghost rs: seq<Registration>, name: string, file: string)
    returns (keys': seq<string>, table': map<string, seq<string>>)
    requires TableOf(keys, table, rs)
    ensures TableOf(keys', table', rs + [Registration(name, file)])
  {
    assert (rs + [Registration(name, file)])[..|rs|] == rs;
    keys', table' := keys, table;
    if name !in table' {
      table' := table'[name := []];
      keys' := keys' + [name];
    }
    table' := table'[name := table'[name] + [file]];
  }

  /** The inner loop over one file's matches. */
  method RecordFile(keys: seq<string>, table: map<string, seq<string>>, ghost rs: seq<Registration>, ms: seq<Match>, path: string)
    returns (keys': seq<string>, table': map<string, seq<string>>)
    requires TableOf(keys, table, rs)
    ensures TableOf(keys', table', rs + FileRegistrations(ms, path))
  {
    keys', table' := keys, table;
    var j := 0;
    assert rs + FileRegistrations(ms[..0], path) == rs;
    while j < |ms|
      invariant 0 <= j <= |ms|
      invariant TableOf(keys', table', rs + FileRegistrations(ms[..j], path))
    {
      assert ms[..j + 1][..j] == ms[..j];
      assert rs + FileRegistrations(ms[..j + 1], path) == rs + FileRegistrations(ms[..j], path) + [Registration(Group(ms[j], 1), path)];
      keys', table' := Record(keys', table', rs + FileRegistrations(ms[..j], path), Group(ms[j], 1), path);
      j := j + 1;
    }
    assert ms[..j] == ms;
  }

  /** The second loop: one report per key whose file list has more than one entry. */
  method ReportDuplicates(keys: seq<string>, table: map<string, seq<string>>, ghost rs: seq<Registration>)
    returns (ds: seq<Diagnostic>)
    requires TableOf(keys, table, rs)
    ensures ds == Reports(Filter(keys, IsDuplicate(rs)), rs)
  {
    ds := [];
    var k := 0;
    while k < |keys|
      invariant 0 <= k <= |keys|
      invariant ds == Reports(Filter(keys[..k], IsDuplicate(rs)), rs)
    {
      var name := keys[k];
      assert name in table;
      DuplicateStep(keys, rs, k);
      if |table[name]| > 1 {
        ds := ds + [DuplicateReport(name, table[name])];
      }
      k := k + 1;
    }
    assert keys[..k] == keys;
  }

  /** One step of the second loop: the reports for one more key. */
  lemma {:induction false} DuplicateStep(keys: seq<string>, rs: seq<Registration>, k: nat)
    requires k < |keys|
    ensures Reports(Filter(keys[..k + 1], IsDuplicate(rs)), rs) == Reports(Filter(keys[..k], IsDuplicate(rs)), rs)
      + (if IsDuplicate(rs)(keys[k]) then [DuplicateReport(keys[k], FilesNamed(rs, keys[k]))] else [])
  {
    assert keys[..k + 1][..k] == keys[..k];
    var dn := Filter(keys[..k], IsDuplicate(rs));
    assert (dn + [keys[k]])[..|dn|] == dn;
  }

  /** The scan as written: a map from name to files filled in occurrence order, then read in key order. */
  method ScanCfg008(ctx: Context) returns (ds: seq<Diagnostic>)
    ensures ds == Cfg008(ctx)
  {
    var e := ctx.engine;
    var keys: seq<string> := [];
    var table: map<string, seq<string>> := map[];
    var i := 0;
    while i < |ctx.files|
      invariant 0 <= i <= |ctx.files|
      invariant TableOf(keys, table, Registrations(e, ctx.files[..i]))
    {
      var file := ctx.files[i];
      assert ctx.files[..i + 1][..i] == ctx.files[..i];
      keys, table := RecordFile(keys, table, Registrations(e, ctx.files[..i]), e.exec(Cfg008ToolName, file.content), file.path);
      i := i + 1;
    }
    assert ctx.files[..i] == ctx.files;
    ds := ReportDuplicates(keys, table, Registrations(e, ctx.files));
  }

  // ---------------------------------------------------------------------
  // CFG-009: short tool descriptions

  const CFG009 := Finding("CFG-009", Warn, Category.Config, "Tool description too vague", "")
  const Cfg009Description := Regex(@"description\s*[:=]\s*[""']([^""']{1,50})[""']", "g")

  /** The captured description, trimmed, has fewer than 10 whitespace-separated words. */
  predicate IsVague(m: Match) {
    WordCount(Trim(Group(m, 1))) < 10
  }

  function VagueReport(file: SourceFile, m: Match): Diagnostic {
    var desc := Trim(Group(m, 1));
    CFG009.WithRemediation("Tool description \"" + desc + "\" has only " + NatToString(WordCount(desc))
      + " words. Provide at least 10 words for LLM to understand tool purpose.").AtLine(file.path, LineAt(file.content, m.index))
  }

  /** One report per vague match, in match order. */
  function VagueHits(ms: seq<Match>, file: SourceFile): seq<Diagnostic> {
    Select(ms, Vague, Reporter(file))
  }

  const Vague: Match -> bool := (m: Match) => IsVague(m)

  function Reporter(file: SourceFile): Match -> Diagnostic {
    (m: Match) => VagueReport(file, m)
  }

  function Cfg009Hits(e: Engine): SourceFile -> seq<Diagnostic> {
    (file: SourceFile) => VagueHits(e.exec(Cfg009Description, file.content), file)
  }

  lemma Cfg009FileMembers(e: Engine, file: SourceFile, d: Diagnostic)
    ensures var ms := e.exec(Cfg009Description, file.content);
      d in Cfg009Hits(e)(file) <==> exists k :: 0 <= k < |ms| && IsVague(ms[k]) && d == VagueReport(file, ms[k])
  {
    SelectMembers(e.exec(Cfg009Description, file.content), Vague, Reporter(file));
  }

  /** A report is in the concatenation exactly when some file's match yields it. */
  lemma {:induction false} Cfg009Member(e: Engine, files: Corpus, d: Diagnostic)
    ensures d in EachFile(files, Cfg009Hits(e)) <==>
      exists i, k :: 0 <= i < |files| && 0 <= k < |e.exec(Cfg009Description, files[i].content)|
        && IsVague(e.exec(Cfg009Description, files[i].content)[k])
        && d == VagueReport(files[i], e.exec(Cfg009Description, files[i].content)[k])
  {
    EachFileMembers(files, Cfg009Hits(e));
    if d in EachFile(files, Cfg009Hits(e)) {
      var i :| 0 <= i < |files| && d in Cfg009Hits(e)(files[i]);
      Cfg009FileMembers(e, files[i], d);
    }
    if exists i, k :: 0 <= i < |files| && 0 <= k < |e.exec(Cfg009Description, files[i].content)|
        && IsVague(e.exec(Cfg009Description, files[i].content)[k])
        && d == VagueReport(files[i], e.exec(Cfg009Description, files[i].content)[k]) {
      var i, k :| 0 <= i < |files| && 0 <= k < |e.exec(Cfg009Description, files[i].content)|
        && IsVague(e.exec(Cfg009Description, files[i].content)[k])
        && d == VagueReport(files[i], e.exec(Cfg009Description, files[i].content)[k]);
      Cfg009FileMembers(e, files[i], d);
    }
  }

  /** Every report carries CFG-009 and the file and line of its match. */
  lemma {:induction false} Cfg009Located(e: Engine, files: Corpus, d: Diagnostic)
    requires d in EachFile(files, Cfg009Hits(e))
    ensures Carries(d, CFG009) && d.file.Some? && d.line.Some? && d.line.value >= 1
  {
    EachFileMembers(files, Cfg009Hits(e));
    var i :| 0 <= i < |files| && d in Cfg009Hits(e)(files[i]);
    Cfg009FileMembers(e, files[i], d);
    var ms := e.exec(Cfg009Description, files[i].content);
    var k :| 0 <= k < |ms| && IsVague(ms[k]) && d == VagueReport(files[i], ms[k]);
  }

  function Cfg009(ctx: Context): (ds: seq<Diagnostic>)
    ensures forall d :: d in ds <==>
      exists i, k :: 0 <= i < |ctx.files| && 0 <= k < |ctx.engine.exec(Cfg009Description, ctx.files[i].content)|
        && IsVague(ctx.engine.exec(Cfg009Description, ctx.files[i].content)[k])
        && d == VagueReport(ctx.files[i], ctx.engine.exec(Cfg009Description, ctx.files[i].content)[k])
    ensures forall d :: d in ds ==> Carries(d, CFG009) && d.file.Some? && d.line.Some? && d.line.value >= 1
  {
    var ds := EachFile(ctx.files, Cfg009Hits(ctx.engine));
    forall d
      ensures d in ds <==>
        exists i, k :: 0 <= i < |ctx.files| && 0 <= k < |ctx.engine.exec(Cfg009Description, ctx.files[i].content)|
          && IsVague(ctx.engine.exec(Cfg009Description, ctx.files[i].content)[k])
          && d == VagueReport(ctx.files[i], ctx.engine.exec(Cfg009Description, ctx.files[i].content)[k])
    {
      Cfg009Member(ctx.engine, ctx.files, d);
    }
    forall d | d in ds
      ensures Carries(d, CFG009) && d.file.Some? && d.line.Some? && d.line.value >= 1
    {
      Cfg009Located(ctx.engine, ctx.files, d);
    }
    ds
  }

  /** One file of the scan: every match from offset 0, in order. */
  method ScanCfg009File(e: Engine, file: SourceFile) returns (hits: seq<Diagnostic>)
    ensures hits == Cfg009Hits(e)(file)
  {
    var ms := e.exec(Cfg009Description, file.content);
    hits := [];
    var j := 0;
    while j < |ms|
      invariant 0 <= j <= |ms|
      invariant hits == VagueHits(ms[..j], file)
    {
      SelectSnoc(ms, j, Vague, Reporter(file));
      var desc := Trim(Group(ms[j], 1));
      var wordCount := WordCount(desc);
      assert Vague(ms[j]) <==> wordCount < 10;
      if wordCount < 10 {
        hits := hits + [VagueReport(file, ms[j])];
      }
      j := j + 1;
    }
    assert ms[..j] == ms;
  }

  /** The scan as written: the files in corpus order, `lastIndex` reset between them. */
  method ScanCfg009(ctx: Context) returns (ds: seq<Diagnostic>)
    ensures ds == Cfg009(ctx)
  {
    ds := [];
    var i := 0;
    while i < |ctx.files|
      invariant 0 <= i <= |ctx.files|
      invariant ds == EachFile(ctx.files[..i], Cfg009Hits(ctx.engine))
    {
      var hits := ScanCfg009File(ctx.engine, ctx.files[i]);
      EachFileAppend(ctx.files[..i], [ctx.files[i]], Cfg009Hits(ctx.engine));
      assert ctx.files[..i + 1] == ctx.files[..i] + [ctx.files[i]];
      ds := ds + hits;
      i := i + 1;
    }
    assert ctx.files[..i] == ctx.files;
  }

  /** A description that is not blank counts only non-empty words free of whitespace. */
  lemma WordsOfDescription(m: Match)
    requires |Trim(Group(m, 1))| > 0
    ensures forall w :: w in SplitWs(Trim(Group(m, 1))) ==> |w| > 0 && forall c :: c in w ==> !IsSpace(c)
  {
    var desc := Trim(Group(m, 1));
    SplitWsWords(desc);
    SplitWsPiecesFree(desc);
  }

  // ---------------------------------------------------------------------
  // CFG-013: version metadata

  const CFG013 := Finding("CFG-013", Warn, Category.Config, "No agent version metadata",
    "Add a version field to your package.json or pyproject.toml to track agent versions.")
  const Cfg013PackageVersion := Regex(@"[""']version[""']\s*:", "")
  const Cfg013PyprojectVersion := Regex(@"^version\s*=", "m")

  /** A truthy package.json with a quoted version key, or a truthy pyproject.toml with a version line. */
  predicate HasVersion(e: Engine, files: Corpus) {
    var pkg := Lookup(files, "package.json");
    var pyproject := Lookup(files, "pyproject.toml");
    (Truthy(pkg) && Test(e, Cfg013PackageVersion, pkg.value))
    || (Truthy(pyproject) && Test(e, Cfg013PyprojectVersion, pyproject.value))
  }

  function Cfg013(ctx: Context): (ds: seq<Diagnostic>)
    ensures ds == [] <==> HasVersion(ctx.engine, ctx.files)
    ensures ds != [] ==> ds == [CFG013.Report()]
  {
    var pkg := Lookup(ctx.files, "package.json");
    if Truthy(pkg) && Test(ctx.engine, Cfg013PackageVersion, pkg.value) then []
    else
      var pyproject := Lookup(ctx.files, "pyproject.toml");
      if Truthy(pyproject) && Test(ctx.engine, Cfg013PyprojectVersion, pyproject.value) then []
      else [CFG013.Report()]
  }

  // ---------------------------------------------------------------------
  // CFG-014: no health check for a configured memory backend

  const CFG014 := Finding("CFG-014", Warn, Category.Config, "Memory backend unreachable at startup", "")
  const Cfg014HealthCheck := Regex(@"ping\(|health.*check|\.connect\(\)|isAlive|checkConnection", "i")

  function Cfg014Remediation(backend: string): string {
    "Add a connectivity health check for " + backend + " at startup."
  }

  function Cfg014(ctx: Context): (ds: seq<Diagnostic>)
    ensures ds != [] <==>
      ctx.projectInfo.memoryBackend != "none"
      && !exists i :: 0 <= i < |ctx.files| && Test(ctx.engine, Cfg014HealthCheck, ctx.files[i].content)
    ensures ds != [] ==> ds == [CFG014.WithRemediation(Cfg014Remediation(ctx.projectInfo.memoryBackend)).Report()]
  {
    if ctx.projectInfo.memoryBackend == "none" then []
    else AbsenceFinding(ctx, Cfg014HealthCheck, CFG014.WithRemediation(Cfg014Remediation(ctx.projectInfo.memoryBackend)))
  }
}
