/**
 * The protection registry: for each protection key, the patterns that
 * reveal the protection in the joined source text, how many of them must
 * match, and a confidence boost. A rule's findings may be suppressed or
 * downgraded when the protection its key names is found.
 */
module Protection {
  import opened Strings
  import opened Regexes
  import opened Seqs

  datatype ProtectionConfig = ProtectionConfig(patterns: seq<Regex>, minMatches: nat, confidenceBoost: nat)

  datatype ProtectionResult = ProtectionResult(found: bool, confidence: int, matchedPatterns: seq<string>)

  const NOT_FOUND := ProtectionResult(false, 0, [])

  /** The one entry that asks for two matching patterns. */
  const GRACEFUL_SHUTDOWN := ProtectionConfig([
      Regex(@"SIGINT|SIGTERM", "i"),
      Regex(@"isShuttingDown|shuttingDown", "i"),
      Regex(@"gracefulShutdown|graceful_shutdown", "i")], 2, 30)

  /** `PROTECTION_REGISTRY`, in the order its keys are written. */
  const PROTECTION_REGISTRY: seq<(string, ProtectionConfig)> := [
    // Security
    ("prompt-injection", ProtectionConfig([
      Regex(@"sanitize.*input", "i"),
      Regex(@"INJECTION_PATTERNS", "i"),
      Regex(@"filter.*prompt", "i"),
      Regex(@"validateToolInput", "i"),
      Regex(@"guardrail", "i"),
      Regex(@"dompurify", "i"),
      Regex(@"zod.*\.safeParse", "")], 1, 40)),
    ("input-length", ProtectionConfig([
      Regex(@"maxInputLen|max_input_len|MAX_INPUT_LEN", "i"),
      Regex(@"maxLength.*\d+", "i"),
      Regex(@"input\.length\s*>\s*\d+", ""),
      Regex(@"truncate|slice\(0,\s*\d+\)", "i")], 1, 35)),
    ("env-validation", ProtectionConfig([
      Regex(@"REQUIRED_ENV.*=.*\[", "i"),
      Regex(@"process\.env\[.*\]\s*\|\|\s*(process\.exit|throw)", "i"),
      Regex(@"if\s*\(\s*!process\.env\[", "")], 1, 40)),
    ("human-oversight", ProtectionConfig([
      Regex(@"humanOversight|human_oversight", "i"),
      Regex(@"humanInTheLoop|human_in_the_loop", "i"),
      Regex(@"requiresApproval|requires_approval", "i"),
      Regex(@"HIGH_STAKES", "i"),
      Regex(@"approvalWorkflow", "i")], 1, 35)),
    // Reliability
    ("circuit-breaker", ProtectionConfig([
      Regex(@"CircuitBreaker|circuitBreaker", "i"),
      Regex(@"opossum|cockatiel", "i"),
      Regex(@"isOpen\(\)|recordFailure|recordSuccess", "i")], 1, 40)),
    ("retry-logic", ProtectionConfig([
      Regex(@"withRetry|retry\s*\(", "i"),
      Regex(@"exponential.*backoff", "i"),
      Regex(@"p-retry|async-retry", "i"),
      Regex(@"attempts?\s*[<>=]\s*\d+", "")], 1, 40)),
    ("graceful-shutdown", GRACEFUL_SHUTDOWN),
    ("recursion-guard", ProtectionConfig([
      Regex(@"isShuttingDown\s*\)\s*return", "i"),
      Regex(@"if\s*\(\s*\w+Running\s*\)\s*return", "i"),
      Regex(@"while\s*\(", ""),
      Regex(@"depth\s*[>=]", ""),
      Regex(@"if\s*\(\s*\w+\s*\)\s*return\s*;", "")], 1, 40)),
    ("max-iterations", ProtectionConfig([
      Regex(@"maxIterations|max_iterations|MAX_ITERATIONS", "i"),
      Regex(@"iterationCount|iteration_count", "i")], 1, 35)),
    // Config
    ("system-prompt", ProtectionConfig([
      Regex(@"SYSTEM_PROMPT|system_prompt", "i"),
      Regex(@"instructions\s*:", "i"),
      Regex(@"systemMessage|system_message", "i")], 1, 40)),
    ("fallback-model", ProtectionConfig([
      Regex(@"fallbackAgent|fallback_agent", "i"),
      Regex(@"fallbackModel|FALLBACK_MODEL", "i"),
      Regex(@"backup.*model|secondary.*model", "i")], 1, 35)),
    ("stream-config", ProtectionConfig([
      Regex(@"streamEnabled|stream_enabled|STREAM_ENABLED", "i"),
      Regex(@"\.stream\(", ""),
      Regex(@"stream\s*:\s*(true|1)", "i")], 1, 35)),
    // Observability
    ("structured-logging", ProtectionConfig([
      Regex(@"winston|pino|bunyan", "i"),
      Regex(@"createLogger|getLogger", "i"),
      Regex(@"logger\.(info|warn|error)\s*\(", "i")], 1, 40)),
    ("cost-tracking", ProtectionConfig([
      Regex(@"costTracker|cost_tracker", "i"),
      Regex(@"totalTokens|tokenCount", "i"),
      Regex(@"estimatedUSD|token.*budget", "i")], 1, 35)),
    ("error-tracking", ProtectionConfig([
      Regex(@"Sentry\.|captureException", "i"),
      Regex(@"Datadog|Rollbar|Bugsnag", "i")], 1, 40)),
    ("health-check", ProtectionConfig([
      Regex(@"healthCheck|health_check", "i"),
      Regex(@"\/health|\/ping|\/status", "i")], 1, 40)),
    ("slo-tracking", ProtectionConfig([
      Regex(@"p99|p95|percentile", "i"),
      Regex(@"SLO\s*=|slo\.", "i"),
      Regex(@"latenc(y|ies)", "i"),
      Regex(@"errorRate|error_rate", "i")], 1, 35)),
    ("tool-alerting", ProtectionConfig([
      Regex(@"withToolAlert|toolAlert", "i"),
      Regex(@"onToolError|toolErrorHandler", "i"),
      Regex(@"captureException.*tool", "i")], 1, 40))
  ]

  /** The keys of some registry entries, as a set. */
  function KeysOf(entries: seq<(string, ProtectionConfig)>): (keys: set<string>)
    ensures forall key :: key in keys <==> exists i :: 0 <= i < |entries| && entries[i].0 == key
  {
    if |entries| == 0 then {}
    else
      var init := entries[..|entries| - 1];
      assert forall i :: 0 <= i < |init| ==> init[i] == entries[i];
      KeysOf(init) + {entries[|entries| - 1].0}
  }

  /** `key` is one of the registry's own keys. */
  predicate IsRegistryKey(key: string) {
    exists i :: 0 <= i < |PROTECTION_REGISTRY| && PROTECTION_REGISTRY[i].0 == key
  }

  /** `PROTECTION_REGISTRY[key]`, looked up among the registry's own keys. */
  function ConfigFor(key: string): (c: Option<ProtectionConfig>)
    ensures c.Some? <==> IsRegistryKey(key)
    ensures c.Some? ==> exists i :: 0 <= i < |PROTECTION_REGISTRY| && PROTECTION_REGISTRY[i] == (key, c.value)
  {
    Find(PROTECTION_REGISTRY, key)
  }

  function Find(entries: seq<(string, ProtectionConfig)>, key: string): (c: Option<ProtectionConfig>)
    ensures c.Some? <==> exists i :: 0 <= i < |entries| && entries[i].0 == key
    ensures c.Some? ==> exists i :: 0 <= i < |entries| && entries[i] == (key, c.value)
  {
    if |entries| == 0 then None
    else if entries[0].0 == key then Some(entries[0].1)
    else
      var c := Find(entries[1..], key);
      assert forall i :: 1 <= i < |entries| ==> entries[i] == entries[1..][i - 1];
      c
  }

  /** The lookup yields the entry of the first occurrence of the key. */
  lemma {:induction false} FindFirst(entries: seq<(string, ProtectionConfig)>, k: nat, key: string)
    requires k < |entries| && entries[k].0 == key
    requires forall j :: 0 <= j < k ==> entries[j].0 != key
    ensures Find(entries, key) == Some(entries[k].1)
    decreases k
  {
    if k > 0 {
      var rest := entries[1..];
      assert entries[0].0 != key;
      assert forall j :: 0 <= j < k - 1 ==> rest[j] == entries[j + 1];
      FindFirst(rest, k - 1, key);
    }
  }

  /** Every configuration has at least one pattern and asks for at least one match. */
  predicate WellFormed(c: ProtectionConfig) {
    |c.patterns| > 0 && c.minMatches >= 1
  }

  lemma RegistryWellFormed()
    ensures forall i :: 0 <= i < |PROTECTION_REGISTRY| ==> WellFormed(PROTECTION_REGISTRY[i].1)
  {
  }

  /** The sources of the patterns that test true on `source`, in pattern order. */
  function MatchedPatterns(e: Engine, patterns: seq<Regex>, source: string): (ms: seq<string>)
    ensures |ms| <= |patterns|
    ensures forall s :: s in ms <==>
      exists i :: 0 <= i < |patterns| && Test(e, patterns[i], source) && patterns[i].source == s
    ensures |ms| == |patterns| <==> forall i :: 0 <= i < |patterns| ==> Test(e, patterns[i], source)
  {
    if |patterns| == 0 then []
    else
      var init := patterns[..|patterns| - 1];
      var last := patterns[|patterns| - 1];
      assert forall i :: 0 <= i < |init| ==> init[i] == patterns[i];
      var ms := MatchedPatterns(e, init, source);
      if Test(e, last, source) then ms + [last.source] else ms
  }

  /** `patterns.map(p => p.source)`. */
  function Sources(patterns: seq<Regex>): (r: seq<string>)
    ensures |r| == |patterns| && forall i :: 0 <= i < |patterns| ==> r[i] == patterns[i].source
  {
    if |patterns| == 0 then [] else Sources(patterns[..|patterns| - 1]) + [patterns[|patterns| - 1].source]
  }

  /** The patterns that test true on `source`. */
  function TestsOn(e: Engine, source: string): Regex -> bool {
    (p: Regex) => Test(e, p, source)
  }

  /**
   * The list is exactly the patterns that test true, kept in pattern order
   * and with one entry each (duplicates included), mapped to their sources.
   */
  lemma {:induction false} MatchedPatternsFiltered(e: Engine, patterns: seq<Regex>, source: string)
    ensures MatchedPatterns(e, patterns, source) == Sources(Filter(patterns, TestsOn(e, source)))
  {
    if |patterns| > 0 {
      var init := patterns[..|patterns| - 1];
      var last := patterns[|patterns| - 1];
      var f := Filter(init, TestsOn(e, source));
      MatchedPatternsFiltered(e, init, source);
      if Test(e, last, source) {
        assert Filter(patterns, TestsOn(e, source)) == f + [last];
        assert (f + [last])[..|f + [last]| - 1] == f;
      } else {
        assert Filter(patterns, TestsOn(e, source)) == f;
      }
    }
  }

  /** The first entry is the source of the first pattern that tests true. */
  lemma {:induction false} MatchedPatternsFirst(e: Engine, patterns: seq<Regex>, source: string, j: nat)
    requires j < |patterns| && Test(e, patterns[j], source)
    requires forall i :: 0 <= i < j ==> !Test(e, patterns[i], source)
    ensures |MatchedPatterns(e, patterns, source)| > 0
    ensures MatchedPatterns(e, patterns, source)[0] == patterns[j].source
  {
    var init := patterns[..|patterns| - 1];
    if j < |patterns| - 1 {
      MatchedPatternsFirst(e, init, source, j);
    } else {
      assert forall i :: 0 <= i < |init| ==> !Test(e, init[i], source);
      MatchedPatternsNone(e, init, source);
    }
  }

  /** No pattern tests true: nothing is listed. */
  lemma {:induction false} MatchedPatternsNone(e: Engine, patterns: seq<Regex>, source: string)
    requires forall i :: 0 <= i < |patterns| ==> !Test(e, patterns[i], source)
    ensures MatchedPatterns(e, patterns, source) == []
  {
    if |patterns| > 0 {
      var init := patterns[..|patterns| - 1];
      assert forall i :: 0 <= i < |init| ==> init[i] == patterns[i];
      MatchedPatternsNone(e, init, source);
    }
  }

  function RealMin(a: real, b: real): real { if a <= b then a else b }

  /** `Math.round` on a non-negative number: halves round up. */
  function Round(x: real): (n: int)
    requires x >= 0.0
    ensures n as real - 0.5 <= x < n as real + 0.5
  {
    (x + 0.5).Floor
  }

  /** `min(100, 50 + 50 * matched / total + boost)`, before rounding. */
  function RawConfidence(matched: nat, total: nat, boost: nat): (x: real)
    requires total > 0
    ensures 50.0 <= x <= 100.0
  {
    RealMin(100.0, 50.0 + (matched as real / total as real) * 50.0 + boost as real)
  }

  /**
   * What `checkProtection` gives for a configuration: found when at least
   * `minMatches` patterns match, with a confidence from the share of
   * matching patterns and the boost; otherwise not found, whatever matched.
   */
  function ResultFor(e: Engine, sourceCode: string, config: ProtectionConfig): (r: ProtectionResult)
    requires WellFormed(config)
    ensures r.found <==> |MatchedPatterns(e, config.patterns, sourceCode)| >= config.minMatches
    ensures !r.found ==> r == NOT_FOUND
    ensures r.found ==>
      50 <= r.confidence <= 100
      && r.matchedPatterns == MatchedPatterns(e, config.patterns, sourceCode)
    ensures 0 <= r.confidence <= 100
  {
    var matched := MatchedPatterns(e, config.patterns, sourceCode);
    if |matched| >= config.minMatches then
      ProtectionResult(true, Round(RawConfidence(|matched|, |config.patterns|, config.confidenceBoost)), matched)
    else NOT_FOUND
  }

  /** The configuration a registry key names is well formed. */
  function RegisteredConfig(protectionKey: string): (c: Option<ProtectionConfig>)
    ensures c.Some? <==> IsRegistryKey(protectionKey)
    ensures c.Some? ==> WellFormed(c.value)
  {
    RegistryWellFormed();
    ConfigFor(protectionKey)
  }

  /** `checkProtection`: an unknown key is not found. */
  function ProtectionOf(e: Engine, sourceCode: string, protectionKey: string): (r: ProtectionResult)
    ensures !IsRegistryKey(protectionKey) ==> r == NOT_FOUND
    ensures 0 <= r.confidence <= 100
  {
    match RegisteredConfig(protectionKey)
    case None => NOT_FOUND
    case Some(config) => ResultFor(e, sourceCode, config)
  }

  /** `checkProtection`, with its loop over the patterns. */
  method CheckProtection(e: Engine, sourceCode: string, protectionKey: string) returns (r: ProtectionResult)
    ensures r == ProtectionOf(e, sourceCode, protectionKey)
  {
    var config := RegisteredConfig(protectionKey);
    if config.None? {
      return NOT_FOUND;
    }
    r := CheckConfig(e, sourceCode, config.value);
  }

  /** The pattern loop of `checkProtection`. */
  method CheckConfig(e: Engine, sourceCode: string, config: ProtectionConfig) returns (r: ProtectionResult)
    requires WellFormed(config)
    ensures r == ResultFor(e, sourceCode, config)
  {
    var patterns := config.patterns;
    var matched: seq<string> := [];
    var i := 0;
    while i < |patterns|
      invariant 0 <= i <= |patterns|
      invariant matched == MatchedPatterns(e, patterns[..i], sourceCode)
    {
      assert patterns[..i + 1][..i] == patterns[..i];
      if Test(e, patterns[i], sourceCode) {
        matched := matched + [patterns[i].source];
      }
      i := i + 1;
    }
    assert patterns[..i] == patterns;
    if |matched| >= config.minMatches {
      var confidence := RawConfidence(|matched|, |patterns|, config.confidenceBoost);
      return ProtectionResult(true, Round(confidence), matched);
    }
    return NOT_FOUND;
  }

  /** `checkAllProtections`: every registry key, mapped to its check. */
  method CheckAllProtections(e: Engine, sourceCode: string) returns (results: map<string, ProtectionResult>)
    ensures forall key :: key in results <==> IsRegistryKey(key)
    ensures forall key :: key in results ==> results[key] == ProtectionOf(e, sourceCode, key)
  {
    var registry := PROTECTION_REGISTRY;
    results := CheckEach(e, sourceCode, registry);
  }

  /** The loop of `checkAllProtections`, over the given entries' keys. */
  method CheckEach(e: Engine, sourceCode: string, entries: seq<(string, ProtectionConfig)>)
    returns (results: map<string, ProtectionResult>)
    ensures results.Keys == KeysOf(entries)
    ensures forall key :: key in results ==> results[key] == ProtectionOf(e, sourceCode, key)
  {
    results := map[];
    var i := 0;
    while i < |entries|
      invariant 0 <= i <= |entries|
      invariant results.Keys == KeysOf(entries[..i])
      invariant forall key :: key in results ==> results[key] == ProtectionOf(e, sourceCode, key)
    {
      var key := entries[i].0;
      var r := CheckProtection(e, sourceCode, key);
      KeysOfSnoc(entries, i);
      results := results[key := r];
      i := i + 1;
    }
    assert entries[..i] == entries;
  }

  /** The keys of one more entry. */
  lemma KeysOfSnoc(entries: seq<(string, ProtectionConfig)>, i: nat)
    requires i < |entries|
    ensures KeysOf(entries[..i + 1]) == KeysOf(entries[..i]) + {entries[i].0}
  {
    assert entries[..i + 1][..i] == entries[..i];
  }

  // ---------------------------------------------------------------------
  // Properties of the shipped registry

  /** A larger share of matching patterns never lowers the raw confidence. */
  lemma RawConfidenceMonotone(m0: nat, m: nat, total: nat, boost: nat)
    requires total > 0 && m0 <= m
    ensures RawConfidence(m0, total, boost) <= RawConfidence(m, total, boost)
  {
    var t := total as real;
    assert m0 as real / t <= m as real / t by {
      assert (m as real / t - m0 as real / t) * t == m as real - m0 as real;
    }
  }

  /** The raw confidence at the fewest matches a found protection can have. */
  function LeastConfidence(c: ProtectionConfig): real
    requires WellFormed(c)
  {
    50.0 + (c.minMatches as real / |c.patterns| as real) * 50.0 + c.confidenceBoost as real
  }

  lemma RegistryLeastConfidence()
    ensures forall i :: 0 <= i < |PROTECTION_REGISTRY| ==>
      WellFormed(PROTECTION_REGISTRY[i].1) && LeastConfidence(PROTECTION_REGISTRY[i].1) >= 95.0
  {
  }

  /**
   * With the shipped registry a protection that is found has confidence at
   * least 95, so it always suppresses the findings of a rule that names it.
   * The least value comes from human-oversight: 50 + 50 / 5 + 35.
   */
  lemma FoundIsConfident(e: Engine, sourceCode: string, protectionKey: string)
    ensures ProtectionOf(e, sourceCode, protectionKey).found ==> ProtectionOf(e, sourceCode, protectionKey).confidence >= 95
  {
    var r := ProtectionOf(e, sourceCode, protectionKey);
    if r.found {
      var c := RegisteredConfig(protectionKey).value;
      var i :| 0 <= i < |PROTECTION_REGISTRY| && PROTECTION_REGISTRY[i] == (protectionKey, c);
      RegistryLeastConfidence();
      var m := |MatchedPatterns(e, c.patterns, sourceCode)|;
      RawConfidenceMonotone(c.minMatches, m, |c.patterns|, c.confidenceBoost);
      assert RawConfidence(c.minMatches, |c.patterns|, c.confidenceBoost) >= 95.0;
    }
  }

  /** human-oversight meets the bound exactly when one of its five patterns matches. */
  lemma HumanOversightLeast()
    ensures RegisteredConfig("human-oversight").Some?
    ensures LeastConfidence(RegisteredConfig("human-oversight").value) == 95.0
  {
    var c := PROTECTION_REGISTRY[3].1;
    RegistryKeysDistinct();
    FindFirst(PROTECTION_REGISTRY, 3, "human-oversight");
    assert |c.patterns| == 5 && c.minMatches == 1 && c.confidenceBoost == 35;
    assert LeastConfidence(c) == 95.0 by {
      assert 1.0 / 5.0 == 0.2;
    }
  }

  /**
   * graceful-shutdown asks for two of its three patterns: a single match
   * leaves it not found, with no matched patterns reported.
   */
  lemma {:induction false} GracefulShutdownNeedsTwo(e: Engine, sourceCode: string)
    ensures RegisteredConfig("graceful-shutdown").Some?
    ensures |MatchedPatterns(e, RegisteredConfig("graceful-shutdown").value.patterns, sourceCode)| < 2 ==>
      ProtectionOf(e, sourceCode, "graceful-shutdown") == NOT_FOUND
  {
    RegistryKeysDistinct();
    FindFirst(PROTECTION_REGISTRY, 6, "graceful-shutdown");
  }

  /** The keys are distinct, so the registry is a proper record. */
  lemma RegistryKeysDistinct()
    ensures forall i, j :: 0 <= i < j < |PROTECTION_REGISTRY| ==> PROTECTION_REGISTRY[i].0 != PROTECTION_REGISTRY[j].0
  {
  }
}
