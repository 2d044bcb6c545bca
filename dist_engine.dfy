/**
 * The compiled engine: it strips the tool's own source and build files
 * from the corpus, runs every rule's check without protection lookups,
 * and drops diagnostics whose file matches an ignore glob.
 */
module DistEngine {
  import opened Strings
  import opened Regexes
  import opened Types
  import opened Seqs
  import opened RuleIndex
  import opened DeadTools
  import opened AuditEngine
  import opened Protection

  // ---------------------------------------------------------------------
  // Self files
  // ---------------------------------------------------------------------

  /** `[\\/]`. */
  predicate IsSep(c: char) {
    c == '/' || c == '\\'
  }

  /** `packages<sep>agent-doctor<sep><dir><sep>` starts at offset `i` of `s`. */
  predicate MarkerAt(s: string, dir: string, i: int) {
    0 <= i && i + 23 + |dir| <= |s|
    && s[i..i + 8] == "packages" && IsSep(s[i + 8])
    && s[i + 9..i + 21] == "agent-doctor" && IsSep(s[i + 21])
    && s[i + 22..i + 22 + |dir|] == dir && IsSep(s[i + 22 + |dir|])
  }

  /** `SELF_FILE_PATTERNS.some(p => p.test(file))`: the path passes through the tool's `src` or `dist`. */
  predicate IsSelfFile(file: string) {
    (exists i :: 0 <= i <= |file| && MarkerAt(file, "src", i))
    || (exists i :: 0 <= i <= |file| && MarkerAt(file, "dist", i))
  }

  /** Any path of the form `<root>packages<sep>agent-doctor<sep><dir><sep><rest>` carries the marker after the root. */
  lemma MarkerBuilt(root: string, a: char, b: char, dir: string, c: char, rest: string)
    requires IsSep(a) && IsSep(b) && IsSep(c)
    ensures MarkerAt(root + "packages" + [a] + "agent-doctor" + [b] + dir + [c] + rest, dir, |root|)
  {
    var s := root + "packages" + [a] + "agent-doctor" + [b] + dir + [c] + rest;
    var i := |root|;
    assert s[i..i + 8] == "packages";
    assert s[i + 8] == a;
    assert s[i + 9..i + 21] == "agent-doctor";
    assert s[i + 21] == b;
    assert s[i + 22..i + 22 + |dir|] == dir;
    assert s[i + 22 + |dir|] == c;
  }

  /** A path through the tool's own sources is a self file ... */
  lemma SelfFileExamples()
    ensures IsSelfFile("packages/agent-doctor/src/engine.ts")
  {
    var a := "packages/agent-doctor/src/engine.ts";
    assert forall k :: 0 <= k < 8 ==> a[k] == "packages"[k];
    assert a[..8] == "packages";
    assert forall k :: 0 <= k < 12 ==> a[9 + k] == "agent-doctor"[k];
    assert a[9..21] == "agent-doctor";
    assert forall k :: 0 <= k < 3 ==> a[22 + k] == "src"[k];
    assert a[22..25] == "src";
    assert MarkerAt(a, "src", 0);
  }

  /** ... and so does a Windows path under another root. */
  lemma SelfFileWindowsExample()
    ensures IsSelfFile("repo\\packages\\agent-doctor\\dist\\cli.js")
  {
    var b := "repo\\packages\\agent-doctor\\dist\\cli.js";
    assert forall k :: 0 <= k < 8 ==> b[5 + k] == "packages"[k];
    assert b[5..13] == "packages";
    assert forall k :: 0 <= k < 12 ==> b[14 + k] == "agent-doctor"[k];
    assert b[14..26] == "agent-doctor";
    assert forall k :: 0 <= k < 4 ==> b[27 + k] == "dist"[k];
    assert b[27..31] == "dist";
    assert MarkerAt(b, "dist", 5);
  }

  /** Other directories of the tool, and a bare `src`, are not self files. */
  lemma NotSelfFileExamples()
    ensures !IsSelfFile("packages/agent-doctor/test/agent.ts")
    ensures !IsSelfFile("src/engine.ts")
  {
    var t := "packages/agent-doctor/test/agent.ts";
    forall i | 0 <= i <= |t|
      ensures !MarkerAt(t, "src", i) && !MarkerAt(t, "dist", i)
    {
      if 0 < i && i + 8 <= |t| {
        assert t[i..i + 8] != "packages" by {
          assert t[i..i + 8][0] == t[i] && t[i] != 'p';
        }
      } else if i == 0 {
        assert t[22..25][0] == 't' && t[22..26][0] == 't';
      }
    }
    var u := "src/engine.ts";
    forall i | 0 <= i <= |u|
      ensures !MarkerAt(u, "src", i) && !MarkerAt(u, "dist", i)
    {
    }
  }

  /** A path inside a self file's directory is a self file wherever the tree is mounted. */
  lemma SelfFileUnderAnyRoot(root: string, file: string)
    requires IsSelfFile(file)
    ensures IsSelfFile(root + file)
  {
    var s := root + file;
    if exists i :: 0 <= i <= |file| && MarkerAt(file, "src", i) {
      var i :| 0 <= i <= |file| && MarkerAt(file, "src", i);
      assert s[|root| + i..|root| + i + 26] == file[i..i + 26];
      assert MarkerAt(s, "src", |root| + i);
    } else {
      var i :| 0 <= i <= |file| && MarkerAt(file, "dist", i);
      assert s[|root| + i..|root| + i + 27] == file[i..i + 27];
      assert MarkerAt(s, "dist", |root| + i);
    }
  }

  /** The corpus the dist engine scans, and its file count. */
  lemma {:induction false} DistCorpusClean(rawFiles: Corpus)
    ensures forall i :: 0 <= i < |WithoutSelf(rawFiles, IsSelfFile)| ==> !IsSelfFile(WithoutSelf(rawFiles, IsSelfFile)[i].path)
    ensures DistinctPaths(rawFiles) ==> |WithoutSelf(rawFiles, IsSelfFile)| == |Filter(rawFiles, NotSelf(IsSelfFile))|
  {
    WithoutSelfClean(rawFiles, IsSelfFile);
    if DistinctPaths(rawFiles) {
      WithoutSelfFilters(rawFiles, IsSelfFile);
    }
  }

  // ---------------------------------------------------------------------
  // Ignore globs
  // ---------------------------------------------------------------------

  // `pattern.replace(/\*/g, ".*")`: every star becomes `.*` and every other
  // character is kept, so the result grows by one character per star and
  // keeps the number of stars.
  function StarsToDotStar(p: string): (r: string)
    ensures |r| == |p| + Count(p, '*')
    ensures Count(r, '*') == Count(p, '*')
  {
    if |p| == 0 then ""
    else if p[0] == '*' then ".*" + StarsToDotStar(p[1..])
    else [p[0]] + StarsToDotStar(p[1..])
  }

  /**
   * The rewrite works character by character: it maps `*` to `.*`, any other
   * character to itself, and distributes over concatenation; in particular
   * a pattern without stars is left as it is.
   */
  lemma {:induction false} StarsRewrite(a: string, b: string, c: char)
    ensures StarsToDotStar("*") == ".*"
    ensures c != '*' ==> StarsToDotStar([c]) == [c]
    ensures StarsToDotStar(a + b) == StarsToDotStar(a) + StarsToDotStar(b)
    ensures (forall i :: 0 <= i < |a| ==> a[i] != '*') ==> StarsToDotStar(a) == a
  {
    StarsAppend(a, b);
    StarsFree(a);
  }

  lemma {:induction false} StarsAppend(a: string, b: string)
    ensures StarsToDotStar(a + b) == StarsToDotStar(a) + StarsToDotStar(b)
  {
    if |a| == 0 {
      assert a + b == b;
    } else {
      assert (a + b)[0] == a[0] && (a + b)[1..] == a[1..] + b;
      StarsAppend(a[1..], b);
    }
  }

  lemma {:induction false} StarsFree(a: string)
    ensures (forall i :: 0 <= i < |a| ==> a[i] != '*') ==> StarsToDotStar(a) == a
  {
    if |a| > 0 && forall i :: 0 <= i < |a| ==> a[i] != '*' {
      StarsFree(a[1..]);
      assert forall i :: 0 <= i < |a[1..]| ==> a[1..][i] == a[i + 1];
      assert a == [a[0]] + a[1..];
    }
  }

  // `new RegExp("^" + pattern.replace(/\*/g, ".*") + "$")`.
  function GlobRegex(pattern: string): Regex {
    Regex("^" + StarsToDotStar(pattern) + "$", "")
  }

  /** Some ignore pattern's regex accepts the path. */
  predicate Ignored(e: Engine, patterns: seq<string>, file: string) {
    exists k :: 0 <= k < |patterns| && Test(e, GlobRegex(patterns[k]), file)
  }

  /** A diagnostic with no file (or an empty one) is kept; otherwise it is kept when no pattern accepts its file. */
  predicate KeepDiagnostic(e: Engine, patterns: seq<string>, d: Diagnostic) {
    !Truthy(d.file) || !Ignored(e, patterns, d.file.value)
  }

  /** The ignore-files filter. */
  function FilterIgnored(e: Engine, patterns: seq<string>, ds: seq<Diagnostic>): (r: seq<Diagnostic>)
    ensures forall d :: d in r <==> d in ds && KeepDiagnostic(e, patterns, d)
    ensures OrderedIn(r, ds)
    ensures patterns == [] ==> r == ds
  {
    var keep := (d: Diagnostic) => KeepDiagnostic(e, patterns, d);
    FilterOrdered(ds, keep);
    if patterns == [] then
      FilterKeepsAll(ds, keep);
      Filter(ds, keep)
    else
      Filter(ds, keep)
  }

  /** `\n`, `\r`, U+2028 and U+2029, which `.` does not match. */
  predicate LineTerminator(c: char) {
    c == '\n' || c == '\r' || c == '\U{2028}' || c == '\U{2029}'
  }

  /** No regex metacharacter other than `*`. */
  predicate PlainGlob(p: string) {
    forall i :: 0 <= i < |p| ==> p[i] !in ".+?^${}()|[]\\"
  }

  /** What the anchored regex of a plain glob accepts: `*` is any run of characters other than line terminators. */
  function GlobMatch(p: string, s: string): bool
    decreases |p| + |s|
  {
    if |p| == 0 then |s| == 0
    else if p[0] == '*' then GlobMatch(p[1..], s) || (|s| > 0 && !LineTerminator(s[0]) && GlobMatch(p, s[1..]))
    else |s| > 0 && s[0] == p[0] && GlobMatch(p[1..], s[1..])
  }

  /** A glob without `*` accepts only itself. */
  lemma {:induction false} GlobLiteral(p: string, s: string)
    requires forall i :: 0 <= i < |p| ==> p[i] != '*'
    ensures GlobMatch(p, s) <==> s == p
  {
    if |p| > 0 && |s| > 0 {
      GlobLiteral(p[1..], s[1..]);
      if s[0] == p[0] && s[1..] == p[1..] {
        assert s == [s[0]] + s[1..] && p == [p[0]] + p[1..];
      }
    }
  }

  /** `*` alone accepts every path without a line terminator. */
  lemma {:induction false} GlobStar(s: string)
    ensures GlobMatch("*", s) <==> forall i :: 0 <= i < |s| ==> !LineTerminator(s[i])
  {
    assert GlobMatch("", s) <==> |s| == 0;
    if |s| > 0 {
      GlobStar(s[1..]);
      assert forall i :: 1 <= i < |s| ==> s[i] == s[1..][i - 1];
    }
  }

  /** `prefix*` accepts exactly the paths that start with the prefix and continue on one line. */
  lemma {:induction false} GlobPrefix(prefix: string, s: string)
    requires forall i :: 0 <= i < |prefix| ==> prefix[i] != '*'
    ensures GlobMatch(prefix + "*", s) <==>
      StartsWith(s, prefix) && forall i :: |prefix| <= i < |s| ==> !LineTerminator(s[i])
  {
    if |prefix| == 0 {
      assert prefix + "*" == "*";
      GlobStar(s);
    } else {
      assert (prefix + "*")[1..] == prefix[1..] + "*";
      if |s| > 0 {
        GlobPrefix(prefix[1..], s[1..]);
        assert forall i :: |prefix| <= i < |s| ==> s[i] == s[1..][i - 1];
        if s[0] == prefix[0] && StartsWith(s[1..], prefix[1..]) {
          assert s[..|prefix|] == [s[0]] + s[1..][..|prefix| - 1];
          assert prefix == [prefix[0]] + prefix[1..];
        }
        if StartsWith(s, prefix) {
          assert s[1..][..|prefix| - 1] == s[..|prefix|][1..];
        }
      }
    }
  }

  /**
   * For plain globs, and an engine that implements their anchored regexes,
   * a diagnostic is kept exactly when it has no file or no glob accepts its
   * file.
   */
  lemma FilterIgnoredGlobs(e: Engine, patterns: seq<string>, ds: seq<Diagnostic>)
    requires forall k :: 0 <= k < |patterns| ==> PlainGlob(patterns[k])
    requires forall k, f :: 0 <= k < |patterns| ==> (Test(e, GlobRegex(patterns[k]), f) <==> GlobMatch(patterns[k], f))
    ensures forall d :: d in FilterIgnored(e, patterns, ds) <==>
      d in ds && (!Truthy(d.file) || forall k :: 0 <= k < |patterns| ==> !GlobMatch(patterns[k], d.file.value))
  {
  }

  // ---------------------------------------------------------------------
  // The audit pass and runEngine
  // ---------------------------------------------------------------------

  /** A rule's share: its findings, or nothing when its check throws. */
  function DistRuleOutput(ctx: Context, rule: Rule): seq<Diagnostic> {
    match Run(rule.check, ctx)
    case Threw => []
    case Returned(ds) => ds
  }

  function DistRuleOutputs(ctx: Context, rules: seq<Rule>): (outs: seq<seq<Diagnostic>>)
    ensures |outs| == |rules| && forall i :: 0 <= i < |rules| ==> outs[i] == DistRuleOutput(ctx, rules[i])
  {
    seq(|rules|, i requires 0 <= i < |rules| => DistRuleOutput(ctx, rules[i]))
  }

  /** `runAuditPass` of the compiled engine: a diagnostic is in its output exactly when some rule returned it. */
  function DistAuditPass(ctx: Context, rules: seq<Rule>): (r: seq<Diagnostic>)
    ensures forall d :: d in r <==> exists k :: 0 <= k < |rules| && d in DistRuleOutput(ctx, rules[k])
  {
    FlattenMembers(DistRuleOutputs(ctx, rules));
    Flatten(DistRuleOutputs(ctx, rules))
  }

  /** The pass over two rule lists is the two passes concatenated. */
  lemma DistAuditAppend(ctx: Context, a: seq<Rule>, b: seq<Rule>)
    ensures DistAuditPass(ctx, a + b) == DistAuditPass(ctx, a) + DistAuditPass(ctx, b)
  {
    assert DistRuleOutputs(ctx, a + b) == DistRuleOutputs(ctx, a) + DistRuleOutputs(ctx, b);
    FlattenAppend(DistRuleOutputs(ctx, a), DistRuleOutputs(ctx, b));
  }

  /** A throwing rule contributes nothing, and the rules around it are unaffected. */
  lemma DistThrowingRuleIsolated(ctx: Context, before: seq<Rule>, rule: Rule, after: seq<Rule>)
    requires Run(rule.check, ctx).Threw?
    ensures DistAuditPass(ctx, before + [rule] + after) == DistAuditPass(ctx, before) + DistAuditPass(ctx, after)
  {
    DistAuditAppend(ctx, before + [rule], after);
    DistAuditAppend(ctx, before, [rule]);
    var one := DistRuleOutputs(ctx, [rule]);
    assert one == [[]];
    assert Flatten(one) == Flatten(one[..0]) + one[0];
  }

  /**
   * Apart from SEC-003, CMP-002, CMP-007 and DEP-002, an entry of the
   * compiled index returns exactly what the source entry's check returns.
   */
  lemma CompiledEntryAgrees(ctx: Context, i: nat)
    requires i < |ALL_RULES|
    requires ALL_RULES[i].id !in {"SEC-003", "CMP-002", "CMP-007", "DEP-002"}
    ensures DistRuleOutput(ctx, COMPILED_RULES[i]) == DistRuleOutput(ctx, ALL_RULES[i])
  {
    CompiledRulesMatch();
  }

  /**
   * Running the same check, the source engine only drops a rule's findings
   * or turns them into annotated warnings where the compiled engine keeps
   * them.
   */
  lemma SourceEngineRefines(ctx: Context, allSource: string, rule: Rule)
    ensures var r := RuleOutput(ctx, allSource, rule);
      var base := DistRuleOutput(ctx, rule);
      r == [] || r == base || exists pattern :: r == DowngradeAll(base, pattern)
  {
    var r := RuleOutput(ctx, allSource, rule);
    if Run(rule.check, ctx).Returned? {
      var ds := Run(rule.check, ctx).diagnostics;
      if Consulted(rule, ds) {
        var p := ProtectionOf(ctx.engine, allSource, rule.protectionKey.value);
        if p.found && 40 <= p.confidence < 70 {
          assert r == DowngradeAll(ds, FirstPattern(p));
        }
      }
    }
  }

  datatype DistOptions = DistOptions(audit: bool, deadTools: bool)

  const DEFAULT_DIST_OPTIONS := DistOptions(true, true)

  datatype DistResult = DistResult(diagnostics: seq<Diagnostic>, deadTools: seq<DeadTool>, projectInfo: ProjectInfo, fileCount: nat)

  /**
   * `runEngine` of the compiled engine, over the compiled rule index. The
   * context has no deep-analysis flag, which reads as false.
   */
  method RunDistEngine(
    projectPath: string, config: Config, options: DistOptions,
    projectInfo: ProjectInfo, rawFiles: Corpus, e: Engine, parsedChecks: string -> Outcome)
    returns (r: DistResult)
    ensures var files := WithoutSelf(rawFiles, IsSelfFile);
      var ctx := ContextOf(projectPath, files, projectInfo, config, false, e, parsedChecks);
      var audited := if options.audit then DistAuditPass(ctx, CompiledApplicableRules(config)) else [];
      && r.diagnostics == FilterIgnored(e, config.ignore.files, audited)
      && r.deadTools == (if options.deadTools then DeadToolsOf(e, files) else [])
      && r.fileCount == |files|
    ensures !options.audit ==> r.diagnostics == []
    ensures r.projectInfo == projectInfo
  {
    var files := BuildCorpus(rawFiles, IsSelfFile);
    var ctx := ContextOf(projectPath, files, projectInfo, config, false, e, parsedChecks);
    var rules := CompiledApplicableRules(config);
    var diagnostics: seq<Diagnostic> := [];
    if options.audit {
      diagnostics := DistAuditPass(ctx, rules);
    }
    var deadToolsList: seq<DeadTool> := [];
    if options.deadTools {
      deadToolsList := DetectDeadTools(e, files);
    }
    var filtered := FilterIgnored(e, config.ignore.files, diagnostics);
    r := DistResult(filtered, deadToolsList, projectInfo, |files|);
  }
}
