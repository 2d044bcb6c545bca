/**
 * The engine: builds the corpus without the tool's own files, runs the
 * audit pass (each rule's check, then protection-based suppression), the
 * dead-tool pass and the optional AI analysis.
 */
module AuditEngine {
  import opened Strings
  import opened Regexes
  import opened Types
  import opened Seqs
  import opened Protection
  import opened RuleIndex
  import opened DeadTools
  import opened AiAnalyst

  // ---------------------------------------------------------------------
  // The corpus, a `Map<string, string>` filled in a loop
  // ---------------------------------------------------------------------

  /** `Map.prototype.set`: an existing key keeps its place and takes the new text. */
  function CorpusSet(files: Corpus, path: string, content: string): (r: Corpus)
    ensures HasPath(files, path) ==> |r| == |files|
    ensures !HasPath(files, path) ==> r == files + [SourceFile(path, content)]
  {
    if |files| == 0 then [SourceFile(path, content)]
    else if files[0].path == path then [SourceFile(path, content)] + files[1..]
    else
      assert HasPath(files, path) <==> HasPath(files[1..], path) by {
        if HasPath(files, path) {
          var j :| 0 <= j < |files| && files[j].path == path;
          assert files[1..][j - 1] == files[j];
        }
        if HasPath(files[1..], path) {
          var j :| 0 <= j < |files[1..]| && files[1..][j].path == path;
          assert files[j + 1] == files[1..][j];
        }
      }
      [files[0]] + CorpusSet(files[1..], path, content)
  }

  /** After a set, the key reads the new text and every other key reads what it did. */
  lemma {:induction false} CorpusSetLookup(files: Corpus, path: string, content: string, other: string)
    ensures Lookup(CorpusSet(files, path, content), path) == Some(content)
    ensures other != path ==> Lookup(CorpusSet(files, path, content), other) == Lookup(files, other)
  {
    if |files| > 0 && files[0].path != path {
      CorpusSetLookup(files[1..], path, content, other);
      var r := CorpusSet(files, path, content);
      assert r[1..] == CorpusSet(files[1..], path, content);
    }
  }

  /** The corpus after the loop: every raw file whose path is not the tool's own. */
  function WithoutSelf(rawFiles: Corpus, isSelf: string -> bool): Corpus {
    if |rawFiles| == 0 then []
    else
      var files := WithoutSelf(rawFiles[..|rawFiles| - 1], isSelf);
      var f := rawFiles[|rawFiles| - 1];
      if isSelf(f.path) then files else CorpusSet(files, f.path, f.content)
  }

  /** No two entries share a path, as in a map. */
  predicate DistinctPaths(files: Corpus) {
    forall a, b :: 0 <= a < b < |files| ==> files[a].path != files[b].path
  }

  /** `(f) => !isSelf(f.path)`. */
  function NotSelf(isSelf: string -> bool): SourceFile -> bool {
    (f: SourceFile) => !isSelf(f.path)
  }

  /**
   * On a map's entries the loop keeps exactly the files that are not the
   * tool's own, in their order, so the file count is their number.
   */
  lemma {:induction false} WithoutSelfFilters(rawFiles: Corpus, isSelf: string -> bool)
    requires DistinctPaths(rawFiles)
    ensures WithoutSelf(rawFiles, isSelf) == Filter(rawFiles, NotSelf(isSelf))
  {
    if |rawFiles| > 0 {
      var init := rawFiles[..|rawFiles| - 1];
      var f := rawFiles[|rawFiles| - 1];
      assert DistinctPaths(init);
      WithoutSelfFilters(init, isSelf);
      if !isSelf(f.path) {
        var kept := Filter(init, NotSelf(isSelf));
        forall j | 0 <= j < |kept|
          ensures kept[j].path != f.path
        {
          assert kept[j] in kept;
          var i :| 0 <= i < |init| && init[i] == kept[j];
          assert rawFiles[i] == init[i];
        }
      }
    }
  }

  /** No kept file is the tool's own. */
  lemma {:induction false} WithoutSelfClean(rawFiles: Corpus, isSelf: string -> bool)
    ensures forall i :: 0 <= i < |WithoutSelf(rawFiles, isSelf)| ==> !isSelf(WithoutSelf(rawFiles, isSelf)[i].path)
  {
    if |rawFiles| > 0 {
      var init := rawFiles[..|rawFiles| - 1];
      WithoutSelfClean(init, isSelf);
      var f := rawFiles[|rawFiles| - 1];
      if !isSelf(f.path) {
        CorpusSetKeeps(WithoutSelf(init, isSelf), f.path, f.content);
      }
    }
  }

  /** A set introduces no path but its own. */
  lemma {:induction false} CorpusSetKeeps(files: Corpus, path: string, content: string)
    ensures forall i :: 0 <= i < |CorpusSet(files, path, content)| ==>
      CorpusSet(files, path, content)[i].path == path || exists j :: 0 <= j < |files| && files[j].path == CorpusSet(files, path, content)[i].path
  {
    if |files| > 0 && files[0].path != path {
      CorpusSetKeeps(files[1..], path, content);
      var r := CorpusSet(files, path, content);
      forall i | 1 <= i < |r| && r[i].path != path
        ensures exists j :: 0 <= j < |files| && files[j].path == r[i].path
      {
        var j :| 0 <= j < |files[1..]| && files[1..][j].path == r[i].path;
        assert files[j + 1] == files[1..][j];
      }
    }
  }

  /** The loop over the raw files. */
  method BuildCorpus(rawFiles: Corpus, isSelf: string -> bool) returns (files: Corpus)
    ensures files == WithoutSelf(rawFiles, isSelf)
  {
    files := [];
    for i := 0 to |rawFiles|
      invariant files == WithoutSelf(rawFiles[..i], isSelf)
    {
      assert rawFiles[..i + 1][..i] == rawFiles[..i];
      var f := rawFiles[i];
      if !isSelf(f.path) {
        files := CorpusSet(files, f.path, f.content);
      }
    }
    assert rawFiles[..|rawFiles|] == rawFiles;
  }

  // ---------------------------------------------------------------------
  // The audit pass
  // ---------------------------------------------------------------------

  /** `protection.matchedPatterns[0]` in a template: "undefined" when there is none. */
  function FirstPattern(p: ProtectionResult): string {
    if |p.matchedPatterns| > 0 then p.matchedPatterns[0] else "undefined"
  }

  /** A finding that may already be handled: a warning, with a note naming the protection. */
  function Downgrade(d: Diagnostic, pattern: string): (r: Diagnostic)
    ensures r.severity == Warn
    ensures r.remediation == d.remediation + " (Note: Possible protection: " + pattern + ")"
    ensures r.(severity := d.severity, remediation := d.remediation) == d
  {
    d.(severity := Warn, remediation := d.remediation + " (Note: Possible protection: " + pattern + ")")
  }

  /** Every finding downgraded, in place: same count and order, each a warning with the note, nothing else changed. */
  function DowngradeAll(ds: seq<Diagnostic>, pattern: string): (r: seq<Diagnostic>)
    ensures |r| == |ds|
    ensures forall i :: 0 <= i < |ds| ==>
      r[i].severity == Warn
      && r[i].remediation == ds[i].remediation + " (Note: Possible protection: " + pattern + ")"
      && r[i].(severity := ds[i].severity, remediation := ds[i].remediation) == ds[i]
  {
    seq(|ds|, i requires 0 <= i < |ds| => Downgrade(ds[i], pattern))
  }

  /**
   * What a protection does to a rule's findings: found with confidence 70
   * or more drops them, found with 40 to 69 downgrades every one of them
   * with a note naming the first matched pattern, otherwise they stay.
   */
  function Suppress(ds: seq<Diagnostic>, p: ProtectionResult): (r: seq<Diagnostic>)
    ensures p.found && p.confidence >= 70 ==> r == []
    ensures p.found && 40 <= p.confidence < 70 ==>
      |r| == |ds| && forall i :: 0 <= i < |ds| ==>
        r[i].severity == Warn
        && r[i].remediation == ds[i].remediation + " (Note: Possible protection: " + FirstPattern(p) + ")"
        && r[i].(severity := ds[i].severity, remediation := ds[i].remediation) == ds[i]
    ensures !p.found || p.confidence < 40 ==> r == ds
  {
    if p.found && p.confidence >= 70 then []
    else if p.found && p.confidence >= 40 then DowngradeAll(ds, FirstPattern(p))
    else ds
  }

  /** The protection consulted for a rule's findings, if any. */
  predicate Consulted(rule: Rule, ds: seq<Diagnostic>) {
    |ds| > 0 && Truthy(rule.protectionKey)
  }

  /** One rule's share of the audit pass; `allSource` is the joined corpus text. */
  function RuleOutput(ctx: Context, allSource: string, rule: Rule): seq<Diagnostic> {
    match Run(rule.check, ctx)
    case Threw => []
    case Returned(ds) =>
      if Consulted(rule, ds) then Suppress(ds, ProtectionOf(ctx.engine, allSource, rule.protectionKey.value)) else ds
  }

  /**
   * The bands: a throwing check gives nothing; no findings or no protection
   * key leaves the findings; a protection found with confidence 70 or more
   * drops them all; 40 to 69 keeps them as annotated warnings; otherwise
   * they are kept as they are.
   */
  lemma RuleOutputBands(ctx: Context, allSource: string, rule: Rule)
    ensures Run(rule.check, ctx).Threw? ==> RuleOutput(ctx, allSource, rule) == []
    ensures Run(rule.check, ctx).Returned? && !Consulted(rule, Run(rule.check, ctx).diagnostics) ==>
      RuleOutput(ctx, allSource, rule) == Run(rule.check, ctx).diagnostics
    ensures Run(rule.check, ctx).Returned? && Consulted(rule, Run(rule.check, ctx).diagnostics) ==>
      var ds := Run(rule.check, ctx).diagnostics;
      var p := ProtectionOf(ctx.engine, allSource, rule.protectionKey.value);
      var r := RuleOutput(ctx, allSource, rule);
      (p.found && p.confidence >= 70 ==> r == [])
      && (p.found && 40 <= p.confidence < 70 ==>
            |r| == |ds| && forall i :: 0 <= i < |ds| ==>
              r[i].severity == Warn
              && r[i].remediation == ds[i].remediation + " (Note: Possible protection: " + FirstPattern(p) + ")"
              && r[i].(severity := ds[i].severity, remediation := ds[i].remediation) == ds[i])
      && (!p.found || p.confidence < 40 ==> r == ds)
  {
  }

  /**
   * With the shipped registry a found protection always has confidence of
   * at least 95, so a rule's findings are either all dropped or all kept
   * unchanged: the downgrade band is never reached.
   */
  lemma NoDowngradeWithRegistry(ctx: Context, allSource: string, rule: Rule)
    requires Run(rule.check, ctx).Returned?
    ensures RuleOutput(ctx, allSource, rule) == [] || RuleOutput(ctx, allSource, rule) == Run(rule.check, ctx).diagnostics
  {
    var ds := Run(rule.check, ctx).diagnostics;
    if Consulted(rule, ds) {
      FoundIsConfident(ctx.engine, allSource, rule.protectionKey.value);
    }
  }

  /** `results.flat()`. */
  function Flatten(parts: seq<seq<Diagnostic>>): seq<Diagnostic> {
    if |parts| == 0 then [] else Flatten(parts[..|parts| - 1]) + parts[|parts| - 1]
  }

  lemma {:induction false} FlattenAppend(a: seq<seq<Diagnostic>>, b: seq<seq<Diagnostic>>)
    ensures Flatten(a + b) == Flatten(a) + Flatten(b)
  {
    if |b| > 0 {
      FlattenAppend(a, b[..|b| - 1]);
      assert (a + b)[..|a + b| - 1] == a + b[..|b| - 1];
    } else {
      assert a + b == a;
    }
  }

  lemma {:induction false} FlattenMembers(parts: seq<seq<Diagnostic>>)
    ensures forall d :: d in Flatten(parts) <==> exists k :: 0 <= k < |parts| && d in parts[k]
  {
    if |parts| > 0 {
      var init := parts[..|parts| - 1];
      FlattenMembers(init);
      assert forall k :: 0 <= k < |init| ==> init[k] == parts[k];
    }
  }

  /** `rules.map(...)`: each rule's output, in rule order. */
  function RuleOutputs(ctx: Context, allSource: string, rules: seq<Rule>): (outs: seq<seq<Diagnostic>>)
    ensures |outs| == |rules| && forall i :: 0 <= i < |rules| ==> outs[i] == RuleOutput(ctx, allSource, rules[i])
  {
    seq(|rules|, i requires 0 <= i < |rules| => RuleOutput(ctx, allSource, rules[i]))
  }

  /** The flattened per-rule outputs. */
  function AuditOf(ctx: Context, allSource: string, rules: seq<Rule>): seq<Diagnostic> {
    Flatten(RuleOutputs(ctx, allSource, rules))
  }

  /** `runAuditPass`: the protection text is every file's content joined by newlines. */
  function RunAuditPass(ctx: Context, rules: seq<Rule>): (r: seq<Diagnostic>)
    ensures forall d :: d in r <==> exists k :: 0 <= k < |rules| && d in RuleOutput(ctx, AllSource(ctx.files), rules[k])
  {
    AuditMembers(ctx, AllSource(ctx.files), rules);
    AuditOf(ctx, AllSource(ctx.files), rules)
  }

  /** The output of a list of rules is the output of its parts, in order. */
  lemma AuditAppend(ctx: Context, allSource: string, a: seq<Rule>, b: seq<Rule>)
    ensures AuditOf(ctx, allSource, a + b) == AuditOf(ctx, allSource, a) + AuditOf(ctx, allSource, b)
  {
    assert RuleOutputs(ctx, allSource, a + b) == RuleOutputs(ctx, allSource, a) + RuleOutputs(ctx, allSource, b);
    FlattenAppend(RuleOutputs(ctx, allSource, a), RuleOutputs(ctx, allSource, b));
  }

  /** A rule that throws contributes nothing, and the rules around it are unaffected. */
  lemma ThrowingRuleIsolated(ctx: Context, allSource: string, before: seq<Rule>, rule: Rule, after: seq<Rule>)
    requires Run(rule.check, ctx).Threw?
    ensures AuditOf(ctx, allSource, before + [rule] + after) == AuditOf(ctx, allSource, before) + AuditOf(ctx, allSource, after)
  {
    AuditAppend(ctx, allSource, before + [rule], after);
    AuditAppend(ctx, allSource, before, [rule]);
    var one := RuleOutputs(ctx, allSource, [rule]);
    assert one == [[]];
    assert Flatten(one) == Flatten(one[..0]) + one[0];
  }

  /** A diagnostic is in the pass's output exactly when it is in some rule's output. */
  lemma AuditMembers(ctx: Context, allSource: string, rules: seq<Rule>)
    ensures forall d :: d in AuditOf(ctx, allSource, rules) <==>
      exists k :: 0 <= k < |rules| && d in RuleOutput(ctx, allSource, rules[k])
  {
    FlattenMembers(RuleOutputs(ctx, allSource, rules));
  }

  // ---------------------------------------------------------------------
  // runEngine
  // ---------------------------------------------------------------------

  /** The engine options; absent ones take these defaults. */
  datatype EngineOptions = EngineOptions(rules: bool, aiVerify: bool, deepAnalysis: bool, deadTools: bool)

  const DEFAULT_OPTIONS := EngineOptions(true, false, false, true)

  datatype EngineResult = EngineResult(
    diagnostics: seq<Diagnostic>,
    deadTools: seq<DeadTool>,
    projectInfo: ProjectInfo,
    fileCount: nat,
    aiAnalysis: Option<AiAnalysis>)

  /** How the promise `runEngine` returns settles: with a result, or rejected when the AI analysis rejects. */
  datatype EngineRun = Completed(result: EngineResult) | EngineRejected

  /** The context the rules see. */
  function ContextOf(projectPath: string, files: Corpus, projectInfo: ProjectInfo, config: Config, deepAnalysis: bool,
                     e: Engine, parsedChecks: string -> Outcome): Context {
    Context(projectPath, files, projectInfo, config, deepAnalysis, e, parsedChecks)
  }

  /**
   * `runEngine`. The detected project, the loaded files, the self-file test
   * (which resolves paths against the installed package), the regex engine,
   * the outcome of the parsing rules, the configured model and the model's
   * reply are parameters. The run rejects exactly when the AI analysis does.
   */
  method RunEngine(
    projectPath: string, config: Config, options: EngineOptions,
    projectInfo: ProjectInfo, rawFiles: Corpus, isSelf: string -> bool,
    e: Engine, parsedChecks: string -> Outcome,
    modelName: Option<string>, reply: LlmOutcome)
    returns (r: EngineRun)
    ensures var files := WithoutSelf(rawFiles, isSelf);
      var ctx := ContextOf(projectPath, files, projectInfo, config, options.deepAnalysis, e, parsedChecks);
      var diagnostics := if options.rules then RunAuditPass(ctx, GetApplicableRules(projectInfo, config, options.deepAnalysis)) else [];
      var ai := if options.aiVerify then AiAnalysisOf(modelName, diagnostics, reply) else Resolved(None);
      && (r.EngineRejected? <==> ai.Rejected?)
      && (r.Completed? ==>
            r.result.diagnostics == diagnostics
            && r.result.deadTools == (if options.rules && options.deadTools then DeadToolsOf(e, files) else [])
            && r.result.fileCount == |files|
            && r.result.projectInfo == projectInfo
            && r.result.aiAnalysis == ai.analysis)
  {
    var files := BuildCorpus(rawFiles, isSelf);
    var ctx := ContextOf(projectPath, files, projectInfo, config, options.deepAnalysis, e, parsedChecks);
    var diagnostics: seq<Diagnostic> := [];
    var deadToolsList: seq<DeadTool> := [];
    if options.rules {
      var applicableRules := GetApplicableRules(projectInfo, config, options.deepAnalysis);
      diagnostics := RunAuditPass(ctx, applicableRules);
      if options.deadTools {
        deadToolsList := DetectDeadTools(e, files);
      }
    }
    var aiAnalysis: Option<AiAnalysis> := None;
    if options.aiVerify {
      var analysis := RunAiAnalysis(modelName, diagnostics, reply);
      if analysis.Rejected? {
        return EngineRejected;
      }
      if analysis.analysis.Some? {
        aiAnalysis := analysis.analysis;
      }
    }
    r := Completed(EngineResult(diagnostics, deadToolsList, projectInfo, |files|, aiAnalysis));
  }
}
