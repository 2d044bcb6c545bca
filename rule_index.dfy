/**
 * The rule index: the 82 rules in their fixed order, and the selection of
 * the rules that apply to a configuration.
 */
module RuleIndex {
  import opened Strings
  import opened Types
  import opened Seqs
  import SecurityRules
  import ConfigRules
  import DeploymentRules
  import ReliabilityRules
  import ObservabilityRules
  import ComplianceRules
  import CompiledRules

  /**
   * A rule: its metadata, the protection it may be suppressed by, and its
   * check.
   */
  datatype Rule = Rule(
    id: string,
    category: Category,
    severity: Severity,
    title: string,
    protectionKey: Option<string>,
    check: RuleCheck)

  /**
   * The function each rule's `check` is, one constructor per rule, and one
   * more for each of the four rules whose compiled body differs.
   */
  datatype RuleCheck =
    Sec001 | Sec002 | Sec003 | Sec004 | Sec005 | Sec006 | Sec007 | Sec008
    | Sec009 | Sec010 | Sec011 | Sec012 | Sec013 | Sec014 | Sec015 | Sec016
    | Sec017 | Sec018 | Cfg001 | Cfg002 | Cfg003 | Cfg004 | Cfg005 | Cfg006
    | Cfg007 | Cfg008 | Cfg009 | Cfg010 | Cfg011 | Cfg012 | Cfg013 | Cfg014
    | Dep001 | Dep002 | Dep003 | Dep004 | Dep005 | Dep006 | Dep007 | Dep008
    | Dep009 | Dep010 | Dep011 | Dep012 | Dep013 | Rel001 | Rel002 | Rel003
    | Rel004 | Rel005 | Rel006 | Rel007 | Rel008 | Rel009 | Rel010 | Rel011
    | Rel012 | Rel013 | Rel014 | Obs001 | Obs002 | Obs003 | Obs004 | Obs005
    | Obs006 | Obs007 | Obs008 | Obs009 | Obs010 | Obs011 | Obs012 | Cmp001
    | Cmp002 | Cmp003 | Cmp004 | Cmp005 | Cmp006 | Cmp007 | Cmp008 | Cmp009
    | Cmp010 | Cmp011
    | CompiledSec003 | CompiledCmp002 | CompiledCmp007 | CompiledDep002

  /**
   * What running a check on a context gives. SEC-007, CFG-004 and CFG-005
   * parse JSON or floating-point text; their outcome is the context's
   * `parsedChecks` entry for the rule's id.
   */
  function Run(check: RuleCheck, ctx: Context): Outcome {
    match check
    case Sec001 => Returned(SecurityRules.Sec001(ctx))
    case Sec002 => Returned(SecurityRules.Sec002(ctx))
    case Sec003 => Returned(SecurityRules.Sec003(ctx))
    case Sec004 => Returned(SecurityRules.Sec004(ctx))
    case Sec005 => Returned(SecurityRules.Sec005(ctx))
    case Sec006 => Returned(SecurityRules.Sec006(ctx))
    case Sec007 => ctx.parsedChecks("SEC-007")
    case Sec008 => Returned(SecurityRules.Sec008(ctx))
    case Sec009 => Returned(SecurityRules.Sec009(ctx))
    case Sec010 => Returned(SecurityRules.Sec010(ctx))
    case Sec011 => Returned(SecurityRules.Sec011(ctx))
    case Sec012 => Returned(SecurityRules.Sec012(ctx))
    case Sec013 => Returned(SecurityRules.Sec013(ctx))
    case Sec014 => Returned(SecurityRules.Sec014(ctx))
    case Sec015 => Returned(SecurityRules.Sec015(ctx))
    case Sec016 => Returned(SecurityRules.Sec016(ctx))
    case Sec017 => Returned(SecurityRules.Sec017(ctx))
    case Sec018 => Returned(SecurityRules.Sec018(ctx))
    case Cfg001 => Returned(ConfigRules.Cfg001(ctx))
    case Cfg002 => Returned(ConfigRules.Cfg002(ctx))
    case Cfg003 => Returned(ConfigRules.Cfg003(ctx))
    case Cfg004 => ctx.parsedChecks("CFG-004")
    case Cfg005 => ctx.parsedChecks("CFG-005")
    case Cfg006 => Returned(ConfigRules.Cfg006(ctx))
    case Cfg007 => Returned(ConfigRules.Cfg007(ctx))
    case Cfg008 => Returned(ConfigRules.Cfg008(ctx))
    case Cfg009 => Returned(ConfigRules.Cfg009(ctx))
    case Cfg010 => Returned(ConfigRules.Cfg010(ctx))
    case Cfg011 => Returned(ConfigRules.Cfg011(ctx))
    case Cfg012 => Returned(ConfigRules.Cfg012(ctx))
    case Cfg013 => Returned(ConfigRules.Cfg013(ctx))
    case Cfg014 => Returned(ConfigRules.Cfg014(ctx))
    case Dep001 => Returned(DeploymentRules.Dep001(ctx))
    case Dep002 => Returned(DeploymentRules.Dep002(ctx))
    case Dep003 => Returned(DeploymentRules.Dep003(ctx))
    case Dep004 => Returned(DeploymentRules.Dep004(ctx))
    case Dep005 => Returned(DeploymentRules.Dep005(ctx))
    case Dep006 => Returned(DeploymentRules.Dep006(ctx))
    case Dep007 => Returned(DeploymentRules.Dep007(ctx))
    case Dep008 => Returned(DeploymentRules.Dep008(ctx))
    case Dep009 => Returned(DeploymentRules.Dep009(ctx))
    case Dep010 => Returned(DeploymentRules.Dep010(ctx))
    case Dep011 => Returned(DeploymentRules.Dep011(ctx))
    case Dep012 => Returned(DeploymentRules.Dep012(ctx))
    case Dep013 => Returned(DeploymentRules.Dep013(ctx))
    case Rel001 => Returned(ReliabilityRules.Rel001(ctx))
    case Rel002 => Returned(ReliabilityRules.Rel002(ctx))
    case Rel003 => Returned(ReliabilityRules.Rel003(ctx))
    case Rel004 => Returned(ReliabilityRules.Rel004(ctx))
    case Rel005 => Returned(ReliabilityRules.Rel005(ctx))
    case Rel006 => Returned(ReliabilityRules.Rel006(ctx))
    case Rel007 => Returned(ReliabilityRules.Rel007(ctx))
    case Rel008 => Returned(ReliabilityRules.Rel008(ctx))
    case Rel009 => Returned(ReliabilityRules.Rel009(ctx))
    case Rel010 => Returned(ReliabilityRules.Rel010(ctx))
    case Rel011 => Returned(ReliabilityRules.Rel011(ctx))
    case Rel012 => Returned(ReliabilityRules.Rel012(ctx))
    case Rel013 => Returned(ReliabilityRules.Rel013(ctx))
    case Rel014 => Returned(ReliabilityRules.Rel014(ctx))
    case Obs001 => Returned(ObservabilityRules.Obs001(ctx))
    case Obs002 => Returned(ObservabilityRules.Obs002(ctx))
    case Obs003 => Returned(ObservabilityRules.Obs003(ctx))
    case Obs004 => Returned(ObservabilityRules.Obs004(ctx))
    case Obs005 => Returned(ObservabilityRules.Obs005(ctx))
    case Obs006 => Returned(ObservabilityRules.Obs006(ctx))
    case Obs007 => Returned(ObservabilityRules.Obs007(ctx))
    case Obs008 => Returned(ObservabilityRules.Obs008(ctx))
    case Obs009 => Returned(ObservabilityRules.Obs009(ctx))
    case Obs010 => Returned(ObservabilityRules.Obs010(ctx))
    case Obs011 => Returned(ObservabilityRules.Obs011(ctx))
    case Obs012 => Returned(ObservabilityRules.Obs012(ctx))
    case Cmp001 => Returned(ComplianceRules.Cmp001(ctx))
    case Cmp002 => Returned(ComplianceRules.Cmp002(ctx))
    case Cmp003 => Returned(ComplianceRules.Cmp003(ctx))
    case Cmp004 => Returned(ComplianceRules.Cmp004(ctx))
    case Cmp005 => Returned(ComplianceRules.Cmp005(ctx))
    case Cmp006 => Returned(ComplianceRules.Cmp006(ctx))
    case Cmp007 => Returned(ComplianceRules.Cmp007(ctx))
    case Cmp008 => Returned(ComplianceRules.Cmp008(ctx))
    case Cmp009 => Returned(ComplianceRules.Cmp009(ctx))
    case Cmp010 => Returned(ComplianceRules.Cmp010(ctx))
    case Cmp011 => Returned(ComplianceRules.Cmp011(ctx))
    case CompiledSec003 => Returned(CompiledRules.Sec003(ctx))
    case CompiledCmp002 => Returned(CompiledRules.Cmp002(ctx))
    case CompiledCmp007 => Returned(CompiledRules.Cmp007(ctx))
    case CompiledDep002 => Returned(CompiledRules.Dep002(ctx))
  }

  const SECURITY_RULES: seq<Rule> := [
    Rule("SEC-001", Security, Error, "Prompt injection risk in tool input", None, Sec001),
    Rule("SEC-002", Security, Error, "Hardcoded secret or API key", None, Sec002),
    Rule("SEC-003", Security, Error, "Destructive tool without confirmation", None, Sec003),
    Rule("SEC-004", Security, Warn, "No audit logging on tool calls", None, Sec004),
    Rule("SEC-005", Security, Warn, "Excessive agent permissions", None, Sec005),
    Rule("SEC-006", Security, Error, "Untrusted data written to memory", None, Sec006),
    Rule("SEC-007", Security, Warn, "Unverified third-party tool", None, Sec007),
    Rule("SEC-008", Security, Error, "PII logged in tool output", None, Sec008),
    Rule("SEC-009", Security, Warn, "Tool results not validated", None, Sec009),
    Rule("SEC-010", Security, Warn, "No rate limiting", None, Sec010),
    Rule("SEC-011", Security, Warn, "Schema exposes internal details", None, Sec011),
    Rule("SEC-012", Security, Warn, "No secrets rotation policy", None, Sec012),
    Rule("SEC-013", Security, Error, "Process runs as root", None, Sec013),
    Rule("SEC-014", Security, Warn, "No input length enforcement", None, Sec014),
    Rule("SEC-015", Security, Warn, "Cross-agent trust not validated", None, Sec015),
    Rule("SEC-016", Security, Warn, "System prompt extractable", None, Sec016),
    Rule("SEC-017", Security, Error, "No SSRF protection", None, Sec017),
    Rule("SEC-018", Security, Error, "Output not sanitized before rendering", None, Sec018)]

  const CONFIG_RULES: seq<Rule> := [
    Rule("CFG-001", Category.Config, Warn, "max_tokens not set", None, Cfg001),
    Rule("CFG-002", Category.Config, Warn, "No memory TTL", None, Cfg002),
    Rule("CFG-003", Category.Config, Warn, "Required env var missing", None, Cfg003),
    Rule("CFG-004", Category.Config, Error, "MCP schema invalid", None, Cfg004),
    Rule("CFG-005", Category.Config, Warn, "Temperature too high", None, Cfg005),
    Rule("CFG-006", Category.Config, Warn, "No fallback model", None, Cfg006),
    Rule("CFG-007", Category.Config, Warn, "No system prompt", None, Cfg007),
    Rule("CFG-008", Category.Config, Error, "Duplicate tool names", None, Cfg008),
    Rule("CFG-009", Category.Config, Warn, "Tool description too vague", None, Cfg009),
    Rule("CFG-010", Category.Config, Warn, "No context window management", None, Cfg010),
    Rule("CFG-011", Category.Config, Warn, "No input schema on tools", None, Cfg011),
    Rule("CFG-012", Category.Config, Warn, "Streaming not configured", None, Cfg012),
    Rule("CFG-013", Category.Config, Warn, "No agent version metadata", None, Cfg013),
    Rule("CFG-014", Category.Config, Warn, "Memory backend unreachable at startup", None, Cfg014)]

  const DEPLOYMENT_RULES: seq<Rule> := [
    Rule("DEP-001", Deployment, Warn, "No Dockerfile", None, Dep001),
    Rule("DEP-002", Deployment, Warn, "No CI/CD pipeline", None, Dep002),
    Rule("DEP-003", Deployment, Warn, "No rollback strategy", None, Dep003),
    Rule("DEP-004", Deployment, Warn, "No health check endpoint", None, Dep004),
    Rule("DEP-005", Deployment, Warn, "Dev and prod config not separated", None, Dep005),
    Rule("DEP-006", Deployment, Warn, "No dependency lockfile", None, Dep006),
    Rule("DEP-007", Deployment, Error, "Container runs as root", None, Dep007),
    Rule("DEP-008", Deployment, Warn, "No resource limits", None, Dep008),
    Rule("DEP-009", Deployment, Error, "Secrets in container definition", None, Dep009),
    Rule("DEP-010", Deployment, Warn, "No staging environment", None, Dep010),
    Rule("DEP-011", Deployment, Warn, "Base image not pinned", None, Dep011),
    Rule("DEP-012", Deployment, Warn, "No graceful shutdown", None, Dep012),
    Rule("DEP-013", Deployment, Warn, "No multi-AZ / HA", None, Dep013)]

  const RELIABILITY_RULES: seq<Rule> := [
    Rule("REL-001", Reliability, Error, "No max_iterations limit", Some("max-iterations"), Rel001),
    Rule("REL-002", Reliability, Error, "Recursive tool call loop", None, Rel002),
    Rule("REL-003", Reliability, Error, "No timeout on tool calls", None, Rel003),
    Rule("REL-004", Reliability, Error, "No error handling on tools", None, Rel004),
    Rule("REL-005", Reliability, Warn, "No retry logic", None, Rel005),
    Rule("REL-006", Reliability, Warn, "No fallback for failed tools", None, Rel006),
    Rule("REL-007", Reliability, Warn, "State not persisted", None, Rel007),
    Rule("REL-008", Reliability, Warn, "No load testing", None, Rel008),
    Rule("REL-009", Reliability, Warn, "No circuit breaker", None, Rel009),
    Rule("REL-010", Reliability, Warn, "Long tasks run synchronously", None, Rel010),
    Rule("REL-011", Reliability, Warn, "No checkpointing", None, Rel011),
    Rule("REL-012", Reliability, Warn, "Memory backend without persistence", None, Rel012),
    Rule("REL-013", Reliability, Warn, "Single instance, no redundancy", None, Rel013),
    Rule("REL-014", Reliability, Warn, "No failure injection tests", None, Rel014)]

  const OBSERVABILITY_RULES: seq<Rule> := [
    Rule("OBS-001", Observability, Warn, "No structured logging", Some("structured-logging"), Obs001),
    Rule("OBS-002", Observability, Warn, "No distributed tracing", None, Obs002),
    Rule("OBS-003", Observability, Warn, "No alerting on tool failures", Some("tool-alerting"), Obs003),
    Rule("OBS-004", Observability, Warn, "No error tracking", Some("error-tracking"), Obs004),
    Rule("OBS-005", Observability, Warn, "No LLM cost tracking", Some("cost-tracking"), Obs005),
    Rule("OBS-006", Observability, Warn, "No request trace ID", None, Obs006),
    Rule("OBS-007", Observability, Warn, "No operational dashboard", None, Obs007),
    Rule("OBS-008", Observability, Warn, "Log level not configurable", None, Obs008),
    Rule("OBS-009", Observability, Warn, "Memory ops not traced", None, Obs009),
    Rule("OBS-010", Observability, Warn, "No SLO/SLA defined", None, Obs010),
    Rule("OBS-011", Observability, Warn, "No LLM cost budget", None, Obs011),
    Rule("OBS-012", Observability, Warn, "No user feedback signal", None, Obs012)]

  const COMPLIANCE_RULES: seq<Rule> := [
    Rule("CMP-001", Compliance, Error, "OWASP Agentic Top 10 violation", None, Cmp001),
    Rule("CMP-002", Compliance, Warn, "No data retention policy", None, Cmp002),
    Rule("CMP-003", Compliance, Warn, "Output not validated before delivery", None, Cmp003),
    Rule("CMP-004", Compliance, Warn, "No GDPR consent", None, Cmp004),
    Rule("CMP-005", Compliance, Error, "No HIPAA safeguards", None, Cmp005),
    Rule("CMP-006", Compliance, Warn, "No AI disclosure", None, Cmp006),
    Rule("CMP-007", Compliance, Warn, "No model card", None, Cmp007),
    Rule("CMP-008", Compliance, Error, "No human oversight for high-stakes", Some("human-oversight"), Cmp008),
    Rule("CMP-009", Compliance, Error, "No PCI-DSS controls", None, Cmp009),
    Rule("CMP-010", Compliance, Warn, "No bias testing", None, Cmp010),
    Rule("CMP-011", Compliance, Warn, "No AI incident response plan", None, Cmp011)]

  /** `ALL_RULES`: the six groups in order. */
  const ALL_RULES: seq<Rule> :=
    SECURITY_RULES + CONFIG_RULES + DEPLOYMENT_RULES + RELIABILITY_RULES + OBSERVABILITY_RULES + COMPLIANCE_RULES

  /** The number of rules of category `c`. */
  function CountIn(rules: seq<Rule>, c: Category): nat {
    if |rules| == 0 then 0
    else CountIn(rules[..|rules| - 1], c) + (if rules[|rules| - 1].category == c then 1 else 0)
  }

  lemma {:induction false} CountInAppend(a: seq<Rule>, b: seq<Rule>, c: Category)
    ensures CountIn(a + b, c) == CountIn(a, c) + CountIn(b, c)
    decreases |b|
  {
    if |b| > 0 {
      assert (a + b)[..|a + b| - 1] == a + b[..|b| - 1];
      CountInAppend(a, b[..|b| - 1], c);
    } else {
      assert a + b == a;
    }
  }

  /** In a group of one category, that category counts every rule and the others none. */
  lemma {:induction false} CountInGroup(rules: seq<Rule>, g: Category, c: Category)
    requires forall i :: 0 <= i < |rules| ==> rules[i].category == g
    ensures CountIn(rules, c) == if c == g then |rules| else 0
  {
    if |rules| > 0 {
      CountInGroup(rules[..|rules| - 1], g, c);
    }
  }

  predicate InCategory(rules: seq<Rule>, c: Category) {
    forall i :: 0 <= i < |rules| ==> rules[i].category == c
  }

  lemma GroupCategories()
    ensures InCategory(SECURITY_RULES, Security)
    ensures InCategory(CONFIG_RULES, Category.Config)
    ensures InCategory(DEPLOYMENT_RULES, Deployment)
    ensures InCategory(RELIABILITY_RULES, Reliability)
    ensures InCategory(OBSERVABILITY_RULES, Observability)
    ensures InCategory(COMPLIANCE_RULES, Compliance)
  {
  }

  /** The count of one category over the six groups. */
  lemma {:induction false} CountInAll(c: Category)
    ensures CountIn(ALL_RULES, c) ==
      CountIn(SECURITY_RULES, c) + CountIn(CONFIG_RULES, c) + CountIn(DEPLOYMENT_RULES, c)
      + CountIn(RELIABILITY_RULES, c) + CountIn(OBSERVABILITY_RULES, c) + CountIn(COMPLIANCE_RULES, c)
  {
    var a := SECURITY_RULES;
    var b := a + CONFIG_RULES;
    var d := b + DEPLOYMENT_RULES;
    var e := d + RELIABILITY_RULES;
    var f := e + OBSERVABILITY_RULES;
    CountInAppend(a, CONFIG_RULES, c);
    CountInAppend(b, DEPLOYMENT_RULES, c);
    CountInAppend(d, RELIABILITY_RULES, c);
    CountInAppend(e, OBSERVABILITY_RULES, c);
    CountInAppend(f, COMPLIANCE_RULES, c);
  }

  /** 82 rules: 18 security, 14 config, 13 deployment, 14 reliability, 12 observability, 11 compliance. */
  lemma AllRulesCounts()
    ensures |ALL_RULES| == 82
    ensures CountIn(ALL_RULES, Security) == 18
    ensures CountIn(ALL_RULES, Category.Config) == 14
    ensures CountIn(ALL_RULES, Deployment) == 13
    ensures CountIn(ALL_RULES, Reliability) == 14
    ensures CountIn(ALL_RULES, Observability) == 12
    ensures CountIn(ALL_RULES, Compliance) == 11
  {
    GroupCategories();
    forall c: Category
      ensures CountIn(ALL_RULES, c) ==
        (if c == Security then 18 else 0) + (if c == Category.Config then 14 else 0)
        + (if c == Deployment then 13 else 0) + (if c == Reliability then 14 else 0)
        + (if c == Observability then 12 else 0) + (if c == Compliance then 11 else 0)
    {
      CountInAll(c);
      CountInGroup(SECURITY_RULES, Security, c);
      CountInGroup(CONFIG_RULES, Category.Config, c);
      CountInGroup(DEPLOYMENT_RULES, Deployment, c);
      CountInGroup(RELIABILITY_RULES, Reliability, c);
      CountInGroup(OBSERVABILITY_RULES, Observability, c);
      CountInGroup(COMPLIANCE_RULES, Compliance, c);
    }
  }

  /**
   * `getApplicableRules`: the rules whose id is not ignored, in index order.
   * The project information and the deep-analysis flag are not read.
   */
  function GetApplicableRules(projectInfo: ProjectInfo, config: Config, deepAnalysis: bool): (rules: seq<Rule>)
    ensures forall r :: r in rules <==> r in ALL_RULES && r.id !in config.ignore.rules
    ensures OrderedIn(rules, ALL_RULES)
    ensures config.ignore.rules == [] ==> rules == ALL_RULES
  {
    var keep := (r: Rule) => r.id !in config.ignore.rules;
    FilterOrdered(ALL_RULES, keep);
    if config.ignore.rules == [] then
      FilterKeepsAll(ALL_RULES, keep);
      Filter(ALL_RULES, keep)
    else
      Filter(ALL_RULES, keep)
  }

  // ---------------------------------------------------------------------
  // The compiled index under `dist/`

  /** The check the compiled index runs in place of a source check. */
  function CompiledCheck(check: RuleCheck): (c: RuleCheck)
    ensures c != check <==> check in {Sec003, Cmp002, Cmp007, Dep002}
  {
    match check
    case Sec003 => CompiledSec003
    case Cmp002 => CompiledCmp002
    case Cmp007 => CompiledCmp007
    case Dep002 => CompiledDep002
    case _ => check
  }

  /** A compiled rule: the same metadata, no protection key, and its compiled check. */
  function Compiled(rule: Rule): Rule {
    rule.(protectionKey := None, check := CompiledCheck(rule.check))
  }

  /** `rules`, each compiled, in order. */
  function CompileAll(rules: seq<Rule>): (r: seq<Rule>)
    ensures |r| == |rules| && forall i :: 0 <= i < |rules| ==> r[i] == Compiled(rules[i])
  {
    if |rules| == 0 then [] else CompileAll(rules[..|rules| - 1]) + [Compiled(rules[|rules| - 1])]
  }

  /** The compiled `ALL_RULES`: the same rules in the same order. */
  const COMPILED_RULES: seq<Rule> := CompileAll(ALL_RULES)

  /**
   * The compiled index lists the 82 rules in the source order with the same
   * ids, categories, severities and titles, carries no protection keys, and
   * runs a different check exactly for SEC-003, CMP-002, CMP-007 and DEP-002.
   */
  lemma CompiledRulesMatch()
    ensures |COMPILED_RULES| == |ALL_RULES| == 82
    ensures forall i :: 0 <= i < |ALL_RULES| ==>
      COMPILED_RULES[i].id == ALL_RULES[i].id && COMPILED_RULES[i].category == ALL_RULES[i].category
      && COMPILED_RULES[i].severity == ALL_RULES[i].severity && COMPILED_RULES[i].title == ALL_RULES[i].title
      && COMPILED_RULES[i].protectionKey.None?
    ensures forall i :: 0 <= i < |ALL_RULES| ==>
      (COMPILED_RULES[i].check != ALL_RULES[i].check <==> ALL_RULES[i].id in {"SEC-003", "CMP-002", "CMP-007", "DEP-002"})
  {
    AllRulesCounts();
    AllChecksNameIds();
  }

  /** A rule runs one of the four replaced checks exactly when its id is one of theirs. */
  predicate CheckNamesId(r: Rule) {
    r.check in {Sec003, Cmp002, Cmp007, Dep002} <==> r.id in {"SEC-003", "CMP-002", "CMP-007", "DEP-002"}
  }

  predicate AllCheckNamesId(rules: seq<Rule>) {
    forall i :: 0 <= i < |rules| ==> CheckNamesId(rules[i])
  }

  lemma CheckNamesIdAppend(a: seq<Rule>, b: seq<Rule>)
    requires AllCheckNamesId(a) && AllCheckNamesId(b)
    ensures AllCheckNamesId(a + b)
  {
    forall i | 0 <= i < |a + b|
      ensures CheckNamesId((a + b)[i])
    {
      if i < |a| {
        assert (a + b)[i] == a[i];
      } else {
        assert (a + b)[i] == b[i - |a|];
      }
    }
  }

  lemma SecurityChecksNameIds()
    ensures AllCheckNamesId(SECURITY_RULES)
  {
  }

  lemma ConfigChecksNameIds()
    ensures AllCheckNamesId(CONFIG_RULES)
  {
  }

  lemma DeploymentChecksNameIds()
    ensures AllCheckNamesId(DEPLOYMENT_RULES)
  {
  }

  lemma ReliabilityChecksNameIds()
    ensures AllCheckNamesId(RELIABILITY_RULES)
  {
  }

  lemma ObservabilityChecksNameIds()
    ensures AllCheckNamesId(OBSERVABILITY_RULES)
  {
  }

  lemma ComplianceChecksNameIds()
    ensures AllCheckNamesId(COMPLIANCE_RULES)
  {
  }

  /** Throughout the index, the four replaced checks sit at the rules with their ids. */
  lemma AllChecksNameIds()
    ensures AllCheckNamesId(ALL_RULES)
  {
    SecurityChecksNameIds();
    ConfigChecksNameIds();
    DeploymentChecksNameIds();
    ReliabilityChecksNameIds();
    ObservabilityChecksNameIds();
    ComplianceChecksNameIds();
    var a := SECURITY_RULES;
    var b := a + CONFIG_RULES;
    var d := b + DEPLOYMENT_RULES;
    var e := d + RELIABILITY_RULES;
    var f := e + OBSERVABILITY_RULES;
    CheckNamesIdAppend(a, CONFIG_RULES);
    CheckNamesIdAppend(b, DEPLOYMENT_RULES);
    CheckNamesIdAppend(d, RELIABILITY_RULES);
    CheckNamesIdAppend(e, OBSERVABILITY_RULES);
    CheckNamesIdAppend(f, COMPLIANCE_RULES);
  }

  /** The compiled `getApplicableRules`: the compiled rules whose id is not ignored, in index order. */
  function CompiledApplicableRules(config: Config): (rules: seq<Rule>)
    ensures forall r :: r in rules <==> r in COMPILED_RULES && r.id !in config.ignore.rules
    ensures OrderedIn(rules, COMPILED_RULES)
    ensures config.ignore.rules == [] ==> rules == COMPILED_RULES
  {
    var keep := (r: Rule) => r.id !in config.ignore.rules;
    FilterOrdered(COMPILED_RULES, keep);
    if config.ignore.rules == [] then
      FilterKeepsAll(COMPILED_RULES, keep);
      Filter(COMPILED_RULES, keep)
    else
      Filter(COMPILED_RULES, keep)
  }
}
