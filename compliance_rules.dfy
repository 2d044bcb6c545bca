/**
 * The compliance rules: a test on the whole joined source, aggregate and
 * presence rules, and two rules that first look for a dedicated document
 * among the paths.
 */
module ComplianceRules {
  import opened Strings
  import opened Regexes
  import opened Types
  import opened Shapes
  import opened RuleShapes

  // ---------------------------------------------------------------------
  // CMP-001: both tests on the joined source

  const CMP001 := Finding("CMP-001", Error, Compliance, "OWASP Agentic Top 10 violation",
    "Multiple OWASP Agentic Top 10 issues detected. Address SEC-001, SEC-003, SEC-006, SEC-007 first.")
  const Cmp001Injection := Regex(@"user_input|message|request\.", "")
  const Cmp001Destructive := Regex(@"\b(delete|remove|send|publish)\b", "i")

  function Cmp001(ctx: Context): (ds: seq<Diagnostic>)
    ensures ds != [] <==>
      Test(ctx.engine, Cmp001Injection, AllSource(ctx.files)) && Test(ctx.engine, Cmp001Destructive, AllSource(ctx.files))
    ensures ds != [] ==> ds == [CMP001.Report()]
  {
    var source := AllSource(ctx.files);
    if Test(ctx.engine, Cmp001Injection, source) && Test(ctx.engine, Cmp001Destructive, source)
    then [CMP001.Report()]
    else []
  }

  /** The joined text of two non-empty corpora is their texts joined by one newline. */
  lemma {:induction false} AllSourceAppend(a: Corpus, b: Corpus)
    requires |a| > 0 && |b| > 0
    ensures AllSource(a + b) == AllSource(a) + "\n" + AllSource(b)
  {
    if |a| == 1 {
      assert Contents(a + b) == [a[0].content] + Contents(b);
    } else {
      assert (a + b)[1..] == a[1..] + b;
      AllSourceAppend(a[1..], b);
      assert Contents(a + b) == [a[0].content] + Contents(a[1..] + b);
      assert Contents(a) == [a[0].content] + Contents(a[1..]);
    }
  }

  // ---------------------------------------------------------------------
  // Aggregate rules: CMP-003, CMP-004, CMP-005, CMP-006, CMP-008, CMP-009

  const CMP003 := Finding("CMP-003", Warn, Compliance, "Output not validated before delivery",
    "Add content moderation or output filtering before delivering agent responses.")
  const Cmp003Output := Regex(@"return.*response|send.*response|reply\(|respond\(", "i")
  const Cmp003Moderation := Regex(@"moderat|content.filter|output.filter|safety.check|guardrail", "i")

  function Cmp003(ctx: Context): (ds: seq<Diagnostic>)
    ensures ds != [] <==>
      (exists i :: 0 <= i < |ctx.files| && Test(ctx.engine, Cmp003Output, ctx.files[i].content))
      && !(exists i :: 0 <= i < |ctx.files| && Test(ctx.engine, Cmp003Moderation, ctx.files[i].content))
    ensures ds != [] ==> ds == [CMP003.Report()]
  {
    AggregateFinding(ctx, Cmp003Output, Cmp003Moderation, CMP003)
  }

  const CMP004 := Finding("CMP-004", Warn, Compliance, "No GDPR consent",
    "Implement consent collection and records for GDPR compliance.")
  const Cmp004PersonalData := Regex(@"personal.data|user.data|GDPR|gdpr|EU.user|european", "i")
  const Cmp004Consent := Regex(@"consent|opt.in|data.agreement|privacy.accept", "i")

  function Cmp004(ctx: Context): (ds: seq<Diagnostic>)
    ensures ds != [] <==>
      (exists i :: 0 <= i < |ctx.files| && Test(ctx.engine, Cmp004PersonalData, ctx.files[i].content))
      && !(exists i :: 0 <= i < |ctx.files| && Test(ctx.engine, Cmp004Consent, ctx.files[i].content))
    ensures ds != [] ==> ds == [CMP004.Report()]
  {
    AggregateFinding(ctx, Cmp004PersonalData, Cmp004Consent, CMP004)
  }

  const CMP005 := Finding("CMP-005", Error, Compliance, "No HIPAA safeguards",
    "Implement encryption, audit logging, and access controls for HIPAA-covered data.")
  const Cmp005Health := Regex(@"patient|diagnosis|medical.record|PHI|HIPAA|healthcare|prescription", "i")
  const Cmp005Safeguard := Regex(@"encrypt|BAA|audit.log|access.control|HIPAA", "i")

  function Cmp005(ctx: Context): (ds: seq<Diagnostic>)
    ensures ds != [] <==>
      (exists i :: 0 <= i < |ctx.files| && Test(ctx.engine, Cmp005Health, ctx.files[i].content))
      && !(exists i :: 0 <= i < |ctx.files| && Test(ctx.engine, Cmp005Safeguard, ctx.files[i].content))
    ensures ds != [] ==> ds == [CMP005.Report()]
  {
    AggregateFinding(ctx, Cmp005Health, Cmp005Safeguard, CMP005)
  }

  const CMP006 := Finding("CMP-006", Warn, Compliance, "No AI disclosure",
    "Include AI/bot disclosure in the system prompt or user-facing interface.")
  const Cmp006SystemPrompt := Regex(@"system_prompt|systemPrompt|system\s*:", "i")
  const Cmp006Disclosure := Regex(@"I am an AI|This is an AI|powered by AI|AI assistant|bot disclosure|automated", "i")

  function Cmp006(ctx: Context): (ds: seq<Diagnostic>)
    ensures ds != [] <==>
      (exists i :: 0 <= i < |ctx.files| && Test(ctx.engine, Cmp006SystemPrompt, ctx.files[i].content))
      && !(exists i :: 0 <= i < |ctx.files| && Test(ctx.engine, Cmp006Disclosure, ctx.files[i].content))
    ensures ds != [] ==> ds == [CMP006.Report()]
  {
    AggregateFinding(ctx, Cmp006SystemPrompt, Cmp006Disclosure, CMP006)
  }

  const CMP008 := Finding("CMP-008", Error, Compliance, "No human oversight for high-stakes",
    "Add human-in-the-loop review for financial, medical, or legal decisions.")
  const Cmp008HighStakes := Regex(@"payment|transaction|medical.decision|legal.advice|prescri|diagnos", "i")
  const Cmp008Oversight := Regex(@"human.review|human.approval|escalate|human.in.the.loop|HITL", "i")

  function Cmp008(ctx: Context): (ds: seq<Diagnostic>)
    ensures ds != [] <==>
      (exists i :: 0 <= i < |ctx.files| && Test(ctx.engine, Cmp008HighStakes, ctx.files[i].content))
      && !(exists i :: 0 <= i < |ctx.files| && Test(ctx.engine, Cmp008Oversight, ctx.files[i].content))
    ensures ds != [] ==> ds == [CMP008.Report()]
  {
    AggregateFinding(ctx, Cmp008HighStakes, Cmp008Oversight, CMP008)
  }

  const CMP009 := Finding("CMP-009", Error, Compliance, "No PCI-DSS controls",
    "Use tokenization and a PCI-compliant payment processor; never store raw card data.")
  const Cmp009CardData := Regex(@"credit.card|card.number|CVV|CVC|cardholder|PAN\b|payment.card", "i")
  const Cmp009Controls := Regex(@"tokeniz|vault|stripe|braintree|PCI|payment.processor", "i")

  function Cmp009(ctx: Context): (ds: seq<Diagnostic>)
    ensures ds != [] <==>
      (exists i :: 0 <= i < |ctx.files| && Test(ctx.engine, Cmp009CardData, ctx.files[i].content))
      && !(exists i :: 0 <= i < |ctx.files| && Test(ctx.engine, Cmp009Controls, ctx.files[i].content))
    ensures ds != [] ==> ds == [CMP009.Report()]
  {
    AggregateFinding(ctx, Cmp009CardData, Cmp009Controls, CMP009)
  }

  // ---------------------------------------------------------------------
  // CMP-010: bias testing (presence)

  const CMP010 := Finding("CMP-010", Warn, Compliance, "No bias testing",
    "Add bias and fairness evaluation tests for your agent's outputs.")
  const Cmp010Bias := Regex(@"bias.test|fairness|demographic.parity|equalized.odds|disparate.impact", "i")

  function Cmp010(ctx: Context): (ds: seq<Diagnostic>)
    ensures ds == [] <==> exists i :: 0 <= i < |ctx.files| && Test(ctx.engine, Cmp010Bias, ctx.files[i].content)
    ensures ds != [] ==> ds == [CMP010.Report()]
  {
    AbsenceFinding(ctx, Cmp010Bias, CMP010)
  }

  // ---------------------------------------------------------------------
  // CMP-002: a retention policy file, or retention logic in some content

  const CMP002 := Finding("CMP-002", Warn, Compliance, "No data retention policy",
    "Implement a data retention policy with TTL or scheduled deletion jobs.")
  const Cmp002Retention := Regex(@"retention|data.expiry|delete.*after|purge.*after|ttl", "i")

  /** The lower-cased key names a retention or data policy. */
  predicate IsPolicyPath(path: string) {
    var p := ToLower(path);
    Contains(p, "retention") || Contains(p, "data-policy") || Contains(p, "data-retention")
  }

  function Cmp002(ctx: Context): (ds: seq<Diagnostic>)
    ensures ds == [] <==>
      (exists i :: 0 <= i < |ctx.files| && IsPolicyPath(ctx.files[i].path))
      || (exists i :: 0 <= i < |ctx.files| && Test(ctx.engine, Cmp002Retention, ctx.files[i].content))
    ensures ds != [] ==> ds == [CMP002.Report()]
  {
    if exists i :: 0 <= i < |ctx.files| && IsPolicyPath(ctx.files[i].path) then []
    else AbsenceFinding(ctx, Cmp002Retention, CMP002)
  }

  // ---------------------------------------------------------------------
  // CMP-007: a model card file, or a README that documents the model

  const CMP007 := Finding("CMP-007", Warn, Compliance, "No model card",
    "Create a model card documenting the agent's capabilities, limitations, and intended use.")
  const Cmp007ModelCard := Regex(@"model.card|model\s+information|capabilities|limitations", "i")

  predicate IsModelCardPath(path: string) {
    var p := ToLower(path);
    Contains(p, "model-card") || Contains(p, "model_card") || Contains(p, "modelcard")
  }

  /**
   * `/README/i.test(file)`. Without the `u` flag a case-insensitive match
   * never maps a non-ASCII character to an ASCII one, so folding ASCII
   * letters is exact here.
   */
  predicate IsReadmePath(path: string) {
    Contains(ToLower(path), "readme")
  }

  /** `ctx.files.get(file) || ""`. */
  function StoredContent(files: Corpus, key: string): string {
    var c := Lookup(files, key);
    if c.Some? then c.value else ""
  }

  /** A README key whose stored content documents the model. */
  predicate DocumentingReadme(e: Engine, files: Corpus, i: int) {
    0 <= i < |files| && IsReadmePath(files[i].path) && Test(e, Cmp007ModelCard, StoredContent(files, files[i].path))
  }

  function Cmp007(ctx: Context): (ds: seq<Diagnostic>)
    ensures ds == [] <==>
      (exists i :: 0 <= i < |ctx.files| && IsModelCardPath(ctx.files[i].path))
      || (exists i :: 0 <= i < |ctx.files| && DocumentingReadme(ctx.engine, ctx.files, i))
    ensures ds != [] ==> ds == [CMP007.Report()]
  {
    if exists i :: 0 <= i < |ctx.files| && IsModelCardPath(ctx.files[i].path) then []
    else if exists i :: 0 <= i < |ctx.files| && DocumentingReadme(ctx.engine, ctx.files, i) then []
    else [CMP007.Report()]
  }

  /** With distinct keys, as in the map the corpus comes from, the stored content is the file's own content. */
  lemma StoredContentOfKey(files: Corpus, i: nat)
    requires i < |files|
    requires forall j, k :: 0 <= j < k < |files| ==> files[j].path != files[k].path
    ensures StoredContent(files, files[i].path) == files[i].content
  {
    assert HasPath(files, files[i].path);
    var c := Lookup(files, files[i].path);
    var j :| 0 <= j < |files| && files[j].path == files[i].path && files[j].content == c.value;
    assert j == i;
  }

  /** With distinct keys, CMP-007 is silenced by a README whose own content documents the model. */
  lemma Cmp007DistinctKeys(ctx: Context)
    requires forall j, k :: 0 <= j < k < |ctx.files| ==> ctx.files[j].path != ctx.files[k].path
    ensures Cmp007(ctx) == [] <==>
      (exists i :: 0 <= i < |ctx.files| && IsModelCardPath(ctx.files[i].path))
      || (exists i :: 0 <= i < |ctx.files| && IsReadmePath(ctx.files[i].path)
            && Test(ctx.engine, Cmp007ModelCard, ctx.files[i].content))
  {
    forall i | 0 <= i < |ctx.files|
      ensures DocumentingReadme(ctx.engine, ctx.files, i) <==>
        IsReadmePath(ctx.files[i].path) && Test(ctx.engine, Cmp007ModelCard, ctx.files[i].content)
    {
      StoredContentOfKey(ctx.files, i);
    }
  }

  // ---------------------------------------------------------------------
  // CMP-011: an incident plan, in a content or a path

  const CMP011 := Finding("CMP-011", Warn, Compliance, "No AI incident response plan",
    "Create an incident response playbook for AI failures and hallucinations.")
  const Cmp011Incident := Regex(@"incident.response|runbook|playbook|postmortem|on.call", "i")

  function IncidentFile(e: Engine): SourceFile -> bool {
    (file: SourceFile) => Test(e, Cmp011Incident, file.content) || Test(e, Cmp011Incident, file.path)
  }

  function Cmp011(ctx: Context): (ds: seq<Diagnostic>)
    ensures ds == [] <==>
      exists i :: 0 <= i < |ctx.files|
        && (Test(ctx.engine, Cmp011Incident, ctx.files[i].content) || Test(ctx.engine, Cmp011Incident, ctx.files[i].path))
    ensures ds != [] ==> ds == [CMP011.Report()]
  {
    Presence(ctx.files, IncidentFile(ctx.engine), CMP011)
  }
}
