# agent-doctor diagnostic engine, modelled in Dafny

agent-doctor scans the source tree of an AI-agent project and reports
problems. This project models its diagnostic core: the 82 static rules in
six categories (security, config, deployment, reliability, observability,
compliance) that turn a corpus of files into diagnostics, the protection
registry, and the audit pass that drops or downgrades a rule's findings
when the project already shows a matching protection. It also models the
dead-tool detector (tools that are registered but never invoked), the
health score with its label, configuration loading, and framework,
provider and memory-backend detection. On top of that come the
post-processing of an AI review and the choice of diagnostics handed to
the fix agent. The model has both engines: the TypeScript engine
(`src/engine.ts`) and the compiled one (`dist/engine.js`). The compiled
engine filters its own files and the ignored paths, and it runs the
compiled rule index under `dist/rules/`. That index has no protection
keys, and four of its rules (SEC-003, CMP-002, CMP-007, DEP-002) do
something other than their TypeScript sources; they are modelled in
`compiled_rules.dfy`, each with a lemma that shows where it differs.

Layout, one module per file:

- `strings.dfy`, `seqs.dfy`: string and sequence helpers. They include JavaScript's `includes`, `endsWith`, `split`, `trim` and `toLowerCase`, order-preserving filters, and subsequence order.
- `regexes.dfy`: a regex is its source and flags. What it matches is decided by an `Engine` value the caller supplies. Every regex test of the engine is a pure function of pattern and text, because the code resets `lastIndex` or uses non-global patterns.
- `types.dfy`: diagnostics, rules, findings, the configuration and the rule context. The corpus is a sequence of (path, content) entries in insertion order.
- `shapes.dfy`, `rule_shapes.dfy`: the loop shapes the rules share, each written as a specification function and as the `while` loop of the source proved equal to it. The shapes are presence, aggregate, per-file, per-line, first-flagged and per-match.
- Rule files: `security_rules.dfy`, `config_rules.dfy`, `deployment_rules.dfy`, `reliability_rules.dfy`, `observability_rules.dfy`, `compliance_rules.dfy`. Each rule has a contract that says, in terms of its own patterns, exactly which diagnostics it returns.
- `rule_index.dfy`: `ALL_RULES` and `getApplicableRules`, and the compiled index built from them.
- `protection.dfy`: the protection registry, `checkProtection` and `checkAllProtections`.
- `engine.dfy`, `dist_engine.dfy`: the two engines and their audit passes.
- `compiled_rules.dfy`: the four compiled rules that differ from their sources.
- `import_tracer.dfy`, `call_graph.dfy`, `dead_tools.dfy`: the dead-tool detector.
- `scorer.dfy`, `config_loader.dfy`, `detector.dfy`, `ai_analyst.dfy`, `fix_agent.dfy`: the remaining core files.

Where a source function works with a loop, the model has a `method` with
that loop, proved equal to a specification function. The properties the
source promises are proved about that function. A pure decision becomes a
function whose contract states the decision in full. Sources are cited
relative to the repository root.

## Model

| member | source | states |
|---|---|---|
| Scorer.CategoriesComplete | packages/agent-doctor/src/scorer.ts:4-11 | the six categories are all listed once and their weights sum to 100 |
| Scorer.PenaltyCounts | packages/agent-doctor/src/scorer.ts:31-36 | a category penalty is 8 per error plus 3 per warning |
| Scorer.PenaltyAppend | packages/agent-doctor/src/scorer.ts:33-36 | penalties add up over concatenated diagnostic lists |
| Scorer.PenaltyZero | packages/agent-doctor/src/scorer.ts:33-36 | a penalty is zero exactly when there are no diagnostics |
| Scorer.CategoryScore | packages/agent-doctor/src/scorer.ts:29-44 | a category score lies in 0..weight and is full exactly when the category's penalty, dead tools included for reliability, is zero |
| Scorer.TotalScore | packages/agent-doctor/src/scorer.ts:46-47 | the total, the sum of the six category scores, lies in 0..100 |
| Scorer.DimensionsShape | packages/agent-doctor/src/scorer.ts:42-43 | every category has a dimension whose `max` is its weight and whose score lies in 0..max |
| Scorer.LabelOf | packages/agent-doctor/src/scorer.ts:49-52 | "Great" exactly for 75 and up, "Needs work" exactly for 50..74, "Critical" exactly below 50 |
| Scorer.SumScoresBounds | packages/agent-doctor/src/scorer.ts:46-47 | the sum of category scores lies in 0..sum of weights, and reaches the top exactly when every category is full |
| Scorer.ChargedCategory | packages/agent-doctor/src/scorer.ts:29-44 | with any diagnostic or dead tool, some category scores below its weight |
| Scorer.PerfectScore | packages/agent-doctor/src/scorer.ts:29-52 | the total is 100 exactly when there are no diagnostics and no dead tools, and then the label is "Great" |
| Scorer.SumScoresAntitone | packages/agent-doctor/src/scorer.ts:42-47 | larger penalties in every category never raise the summed score |
| Scorer.AddDiagnosticNeverRaises | packages/agent-doctor/src/scorer.ts:33-42 | inserting a diagnostic anywhere never raises any category score or the total |
| Scorer.AddDeadToolNeverRaises | packages/agent-doctor/src/scorer.ts:38-42 | one more dead tool never raises any category score or the total |
| Scorer.CategoryIsolation | packages/agent-doctor/src/scorer.ts:30-40 | a category score depends only on that category's diagnostics, and dead tools affect only reliability |
| Scorer.RoundInteger | packages/agent-doctor/src/scorer.ts:46-47 | rounding an integer sum gives it back |
| Scorer.SumPenalty | packages/agent-doctor/src/scorer.ts:33-36 | the penalty loop computes the specified penalty |
| Scorer.FillDimensions | packages/agent-doctor/src/scorer.ts:29-44 | the category loop builds exactly the specified dimension map |
| Scorer.CalculateScore | packages/agent-doctor/src/scorer.ts:17-65 | dimensions, total and label are the specified ones with the total in 0..100; diagnostics, dead tools, file count, project info, duration and AI analysis pass through unchanged |
| Protection.KeysOf | packages/agent-doctor/src/analysis/protection-registry.ts:219-227 | a key is in the set exactly when some registry entry carries it |
| Protection.ConfigFor | packages/agent-doctor/src/analysis/protection-registry.ts:197 | a configuration is found exactly for registry keys, and it is that key's entry |
| Protection.Find | packages/agent-doctor/src/analysis/protection-registry.ts:197 | the lookup succeeds exactly when some entry carries the key, and returns that entry's configuration |
| Protection.RegistryWellFormed | packages/agent-doctor/src/analysis/protection-registry.ts:7-185 | every shipped configuration has at least one pattern and `minMatches` of at least 1 |
| Protection.MatchedPatterns | packages/agent-doctor/src/analysis/protection-registry.ts:200-206 | at most one entry per pattern; a pattern source is listed exactly when that pattern tests true on the code; all are listed exactly when every pattern matches |
| Protection.MatchedPatternsFiltered | packages/agent-doctor/src/analysis/protection-registry.ts:200-206 | the matched list is exactly the sources of the patterns that test true, in registry order, each once |
| Protection.MatchedPatternsFirst | packages/agent-doctor/src/engine.ts:124-128 | the first matched pattern, which the downgrade note names, is the first registry pattern that tests true |
| Protection.MatchedPatternsNone | packages/agent-doctor/src/analysis/protection-registry.ts:200-206 | when no pattern tests true nothing is matched |
| Protection.Round | packages/agent-doctor/src/analysis/protection-registry.ts:213 | `Math.round` for a non-negative value: the nearest integer, ties rounded up |
| Protection.RawConfidence | packages/agent-doctor/src/analysis/protection-registry.ts:211-212 | the confidence before rounding lies in 50..100 whatever the counts and the boost |
| Protection.ResultFor | packages/agent-doctor/src/analysis/protection-registry.ts:200-216 | found exactly when at least `minMatches` patterns match; then the confidence lies in 50..100 and the matched list is returned; otherwise the not-found result with confidence 0 and no patterns |
| Protection.RegisteredConfig | packages/agent-doctor/src/analysis/protection-registry.ts:197 | a configuration exists exactly for registry keys and is well formed |
| Protection.ProtectionOf | packages/agent-doctor/src/analysis/protection-registry.ts:193-217 | an unknown key gives found false, confidence 0 and no patterns; the confidence always lies in 0..100 |
| Protection.CheckProtection | packages/agent-doctor/src/analysis/protection-registry.ts:193-217 | the pattern loop computes the specified result |
| Protection.CheckConfig | packages/agent-doctor/src/analysis/protection-registry.ts:200-216 | the loop over one configuration's patterns computes `ResultFor` |
| Protection.CheckAllProtections | packages/agent-doctor/src/analysis/protection-registry.ts:219-227 | the result has exactly the registry's keys, each mapped to that key's check |
| Protection.CheckEach | packages/agent-doctor/src/analysis/protection-registry.ts:222-224 | the loop over registry entries fills every key with its check |
| Protection.RawConfidenceMonotone | packages/agent-doctor/src/analysis/protection-registry.ts:211-212 | more matched patterns never lower the confidence |
| Protection.RegistryLeastConfidence | packages/agent-doctor/src/analysis/protection-registry.ts:7-213 | for every shipped configuration, the least confidence reachable when found is at least 95 |
| Protection.FoundIsConfident | packages/agent-doctor/src/analysis/protection-registry.ts:7-213 | with the shipped registry, a found protection has confidence at least 95 |
| Protection.HumanOversightLeast | packages/agent-doctor/src/analysis/protection-registry.ts:41-52 | the human-oversight entry reaches the minimum 50 + 10 + 35 = 95 |
| Protection.GracefulShutdownNeedsTwo | packages/agent-doctor/src/analysis/protection-registry.ts:73-80 | graceful shutdown with fewer than two matching patterns is not found, whatever matched |
| Protection.RegistryKeysDistinct | packages/agent-doctor/src/analysis/protection-registry.ts:7-185 | registry keys are distinct |
| AuditEngine.CorpusSet | packages/agent-doctor/src/engine.ts:57-60 | `Map.set`: an existing path keeps its place and the size; a new path is appended |
| AuditEngine.CorpusSetLookup | packages/agent-doctor/src/engine.ts:57-60 | after a set, the path maps to the new content and every other path is unchanged |
| AuditEngine.WithoutSelfFilters | packages/agent-doctor/src/engine.ts:57-60 | over distinct paths, the built corpus is the raw corpus with self files removed, in order |
| AuditEngine.WithoutSelfClean | packages/agent-doctor/src/engine.ts:57-60 | no self file survives into the corpus |
| AuditEngine.CorpusSetKeeps | packages/agent-doctor/src/engine.ts:57-60 | every entry after a set is either the new entry or an entry that was already there |
| AuditEngine.BuildCorpus | packages/agent-doctor/src/engine.ts:56-60 | the file loop builds exactly the specified corpus |
| AuditEngine.Downgrade | packages/agent-doctor/src/engine.ts:124-128 | severity becomes warn, the remediation gains " (Note: Possible protection: <pattern>)", and every other field is unchanged |
| AuditEngine.DowngradeAll | packages/agent-doctor/src/engine.ts:124-128 | same length; each diagnostic becomes a warning whose remediation gains the note naming the pattern, and every other field is the input's |
| AuditEngine.RuleOutputBands | packages/agent-doctor/src/engine.ts:113-136 | a throwing check gives nothing; without findings or protection key the findings are kept; found at 70 or more gives nothing; found at 40..69 downgrades them all; otherwise they are kept |
| AuditEngine.Suppress | packages/agent-doctor/src/engine.ts:119-133 | found at 70 or more drops the findings; found at 40..69 downgrades them field by field with the first matched pattern; below 40 keeps them unchanged |
| AuditEngine.NoDowngradeWithRegistry | packages/agent-doctor/src/engine.ts:119-133 | with the shipped registry a rule's output is either empty or its findings unchanged; the downgrade band is never reached |
| AuditEngine.FlattenAppend | packages/agent-doctor/src/engine.ts:139 | flattening distributes over concatenation |
| AuditEngine.FlattenMembers | packages/agent-doctor/src/engine.ts:139 | a diagnostic is in the flattening exactly when it is in one of the parts |
| AuditEngine.AuditAppend | packages/agent-doctor/src/engine.ts:111-139 | the pass over two rule lists is the two passes concatenated |
| AuditEngine.ThrowingRuleIsolated | packages/agent-doctor/src/engine.ts:113-136 | a throwing rule contributes nothing, and the rules around it are unaffected |
| AuditEngine.AuditMembers | packages/agent-doctor/src/engine.ts:111-139 | a diagnostic is in the pass output exactly when some rule's output holds it |
| AuditEngine.RunAuditPass | packages/agent-doctor/src/engine.ts:105-139 | a diagnostic is in the pass output exactly when some rule's output holds it |
| AuditEngine.RunEngine | packages/agent-doctor/src/engine.ts:39-103 | the diagnostics are the audit pass over the applicable rules when `rules` is set, else empty; dead tools run only with both `rules` and `deadTools`; `fileCount` is the corpus size; the AI analysis is attached only with `aiVerify` and never changes the diagnostics; the project info passes through; the run rejects exactly when the AI analysis rejects |
| DistEngine.MarkerBuilt | packages/agent-doctor/dist/engine.js:8-11 | any path of the form `<root>packages<sep>agent-doctor<sep><dir><sep><rest>` carries the marker after the root |
| DistEngine.SelfFileExamples | packages/agent-doctor/dist/engine.js:8-14 | a path through the tool's own `src` is a self file |
| DistEngine.SelfFileWindowsExample | packages/agent-doctor/dist/engine.js:8-14 | a path with backslashes through the tool's `dist` under another root is a self file |
| DistEngine.NotSelfFileExamples | packages/agent-doctor/dist/engine.js:8-14 | the tool's `test` directory and a bare `src/` path are not self files |
| DistEngine.SelfFileUnderAnyRoot | packages/agent-doctor/dist/engine.js:9-10 | the unanchored patterns make a self file stay one under any prefix |
| DistEngine.DistCorpusClean | packages/agent-doctor/dist/engine.js:20-42 | no self file remains, and over distinct paths the file count is the number of non-self files |
| DistEngine.StarsToDotStar | packages/agent-doctor/dist/engine.js:38 | the rewritten pattern is one character longer per `*` and has as many `*` as the glob |
| DistEngine.StarsRewrite | packages/agent-doctor/dist/engine.js:38 | `replace(/\*/g, ".*")` maps `*` to `.*` and every other character to itself, distributes over concatenation, and leaves a star-free glob unchanged |
| DistEngine.FilterIgnored | packages/agent-doctor/dist/engine.js:33-41 | a diagnostic is kept exactly when it has no file or no pattern accepts its file; kept diagnostics keep their order; an empty pattern list keeps everything |
| DistEngine.GlobLiteral | packages/agent-doctor/dist/engine.js:38-39 | a glob without `*` accepts only the identical path |
| DistEngine.GlobStar | packages/agent-doctor/dist/engine.js:38-39 | `*` alone accepts exactly the paths without a line terminator |
| DistEngine.GlobPrefix | packages/agent-doctor/dist/engine.js:38-39 | `prefix*` accepts exactly the paths that start with the prefix and have no line terminator after it |
| DistEngine.FilterIgnoredGlobs | packages/agent-doctor/dist/engine.js:33-41 | for plain globs under an engine that implements them, a diagnostic is kept exactly when it has no file or no glob accepts its file |
| DistEngine.DistAuditPass | packages/agent-doctor/dist/engine.js:44-54 | a diagnostic is in the pass output exactly when some rule returned it |
| DistEngine.DistAuditAppend | packages/agent-doctor/dist/engine.js:44-54 | the pass over two rule lists is the two passes concatenated |
| DistEngine.DistThrowingRuleIsolated | packages/agent-doctor/dist/engine.js:46-51 | a throwing rule contributes nothing, and the rules around it are unaffected |
| DistEngine.CompiledEntryAgrees | packages/agent-doctor/dist/rules/index.js:93-114 | apart from SEC-003, CMP-002, CMP-007 and DEP-002, a compiled index entry returns what the source entry returns |
| DistEngine.SourceEngineRefines | packages/agent-doctor/src/engine.ts:113-136 | running the same check, the source pass empties a rule's output, keeps it, or downgrades all of it |
| DistEngine.RunDistEngine | packages/agent-doctor/dist/engine.js:15-43 | self files are dropped and `fileCount` counts what remains; diagnostics are the audit pass over the compiled index minus the ignored rule ids when `audit` is set, else empty, then the ignore filter; dead tools run only with `deadTools`; the project info passes through |
| RuleIndex.CountInAppend | packages/agent-doctor/src/rules/index.ts:98-121 | per-category counts add up over concatenated rule lists |
| RuleIndex.CountInGroup | packages/agent-doctor/src/rules/index.ts:98-121 | a group of one category counts its length for that category and zero for the others |
| RuleIndex.GroupCategories | packages/agent-doctor/src/rules/index.ts:98-121 | each of the six groups holds rules of its own category only |
| RuleIndex.CountInAll | packages/agent-doctor/src/rules/index.ts:98-121 | each category's count in `ALL_RULES` is its group's size |
| RuleIndex.AllRulesCounts | packages/agent-doctor/src/rules/index.ts:98-121 | `ALL_RULES` has 82 rules: 18 security, 14 config, 13 deployment, 14 reliability, 12 observability, 11 compliance |
| RuleIndex.GetApplicableRules | packages/agent-doctor/src/rules/index.ts:123-129 | a rule is kept exactly when its id is not ignored; the result is in `ALL_RULES` order; an empty ignore list gives `ALL_RULES`; project info and deep analysis play no part |
| ConfigLoader.MergeConfig | packages/agent-doctor/src/config.ts:42-51 | present ignore lists are kept verbatim, missing ones become empty, and threshold and output are copied whether set or not |
| ConfigLoader.MergeToPartial | packages/agent-doctor/src/config.ts:42-51 | normalising a configuration written out in full gives it back |
| ConfigLoader.MergeIdempotent | packages/agent-doctor/src/config.ts:42-51 | normalising twice is normalising once |
| ConfigLoader.MergeEmpty | packages/agent-doctor/src/config.ts:5-51 | an empty configuration, or one with an empty ignore object, normalises to the default |
| ConfigLoader.LoadConfig | packages/agent-doctor/src/config.ts:12-40 | a usable config file wins; otherwise a usable `agentDoctor` entry of package.json; otherwise the default with empty lists |
| ConfigLoader.LoadedIsNormal | packages/agent-doctor/src/config.ts:12-51 | whatever the sources hold, the loaded configuration is a normalised one and survives a round trip |
| Detector.JsLowerAppend | packages/agent-doctor/src/detector.ts:67 | lower-casing distributes over concatenation |
| Detector.JsLowerIdempotent | packages/agent-doctor/src/detector.ts:67 | lower-casing twice is lower-casing once |
| Detector.WindowHasSpace | packages/agent-doctor/src/detector.ts:64 | an occurrence that straddles the joining space contains a space |
| Detector.ContainsAroundSpace | packages/agent-doctor/src/detector.ts:116-117 | a space-free term occurs in `a + " " + b` exactly when it occurs in `a` or in `b` |
| Detector.JoinedKeys | packages/agent-doctor/src/detector.ts:64 | a space-free term occurs in the space-joined keys exactly when it occurs inside one key |
| Detector.CombinedText | packages/agent-doctor/src/detector.ts:116-117 | a space-free term occurs in `keys + " " + lower(text)` exactly when it occurs in a key or in the lower-cased text |
| Detector.DetectFramework | packages/agent-doctor/src/detector.ts:63-77 | the result is one of the seven framework labels |
| Detector.DetectModelProvider | packages/agent-doctor/src/detector.ts:79-88 | the result is one of the five provider labels |
| Detector.DetectMemoryBackend | packages/agent-doctor/src/detector.ts:115-127 | the result is one of the seven backend labels |
| Detector.ContainsInner | packages/agent-doctor/src/detector.ts:66-69 | a string holding a term holds every substring of that term |
| Detector.InKeysInner | packages/agent-doctor/src/detector.ts:66-69 | keys holding a term hold every substring of it |
| Detector.FrameworkByName | packages/agent-doctor/src/detector.ts:63-77 | equal to a decision list over single names: langchain in a name, crewai or autogen in the lower-cased text, mcp, mastra or llamaindex in a name, langchain in the text, else "custom"; the longer redundant terms change nothing |
| Detector.ProviderByName | packages/agent-doctor/src/detector.ts:79-88 | the provider is the first of openai, anthropic, google, ollama whose term is in a single name or the lower-cased text, else "unknown" |
| Detector.BackendByName | packages/agent-doctor/src/detector.ts:115-127 | the backend is the first of redis, pinecone, chroma, weaviate, pgvector (or pg-vector), qdrant named in a single name or the lower-cased text, else "none" |
| Detector.TextCaseFree | packages/agent-doctor/src/detector.ts:63-127 | lower-casing the requirement text first changes no detector |
| Detector.NamesCaseSensitive | packages/agent-doctor/src/detector.ts:82 | a name `OpenAI` is not detected while the text `OpenAI` is: names are read case-sensitively |
| ImportTracer.MatchCandidatesFrom | packages/agent-doctor/src/dead-tools/import-tracer.ts:39-49 | every candidate has a name of 3 or more characters outside the common type names, names that file, and comes from one of the matches in it |
| ImportTracer.PatternCandidatesFrom | packages/agent-doctor/src/dead-tools/import-tracer.ts:36-50 | every candidate of a file is acceptable and names that file |
| ImportTracer.FileCandidatesFrom | packages/agent-doctor/src/dead-tools/import-tracer.ts:25-51 | candidates come only from files ending in .ts, .js, .py or .mjs |
| ImportTracer.CandidatesFrom | packages/agent-doctor/src/dead-tools/import-tracer.ts:23-52 | every candidate is acceptable and lies in a scanned file of the corpus |
| ImportTracer.RegisterAllFirst | packages/agent-doctor/src/dead-tools/import-tracer.ts:47-49 | registration keeps one entry per name, the first candidate of that name, and exactly the names seen |
| ImportTracer.RegisteredFirst | packages/agent-doctor/src/dead-tools/import-tracer.ts:23-52 | the tracer's map keeps the first registration per name, in file, pattern and offset order, and never overwrites |
| ImportTracer.IndexOfName | packages/agent-doctor/src/dead-tools/import-tracer.ts:47 | the position of the first candidate with a name, or the candidate count when there is none |
| ImportTracer.RegisterAllOrdered | packages/agent-doctor/src/dead-tools/import-tracer.ts:47-49 | each map entry is the candidate at its name's first position, and the entries are listed by increasing first position (insertion order of `Map.set`) |
| ImportTracer.RegisteredOrder | packages/agent-doctor/src/dead-tools/import-tracer.ts:23-52 | the tracer's map lists names in the order they are first registered, by file, pattern and offset |
| ImportTracer.RegisteredSources | packages/agent-doctor/src/dead-tools/import-tracer.ts:46-49 | every entry's file is a scanned path of the corpus and its name is acceptable |
| ImportTracer.CandidateLine | packages/agent-doctor/src/dead-tools/import-tracer.ts:46 | the recorded line is 1 plus the number of newlines before the match |
| ImportTracer.RegisterMatches | packages/agent-doctor/src/dead-tools/import-tracer.ts:39-50 | the match loop registers exactly as specified |
| ImportTracer.RegisterFile | packages/agent-doctor/src/dead-tools/import-tracer.ts:36-51 | the pattern loop of one file registers exactly as specified, each pattern scanning from offset 0 |
| ImportTracer.TraceRegisteredTools | packages/agent-doctor/src/dead-tools/import-tracer.ts:18-55 | the file loop gives exactly the specified registration map |
| CallGraph.MatchNamesMembers | packages/agent-doctor/src/dead-tools/call-graph.ts:29-36 | a name is added exactly when some match captures it and it has 3 or more characters |
| CallGraph.PatternNamesMembers | packages/agent-doctor/src/dead-tools/call-graph.ts:27-37 | a file's names are those captured by some invocation pattern |
| CallGraph.InvokedMembers | packages/agent-doctor/src/dead-tools/call-graph.ts:15-37 | the invoked set is the union over scanned files of their names |
| CallGraph.InvokedSources | packages/agent-doctor/src/dead-tools/call-graph.ts:18-25 | every invoked name comes from a file ending in .ts, .js, .py or .mjs and has 3 or more characters |
| CallGraph.InvokedOrderFree | packages/agent-doctor/src/dead-tools/call-graph.ts:15-37 | the invoked set does not depend on file order |
| CallGraph.InvokedGrows | packages/agent-doctor/src/dead-tools/call-graph.ts:15-37 | adding files never removes a name |
| CallGraph.AddMatches | packages/agent-doctor/src/dead-tools/call-graph.ts:29-36 | the match loop adds exactly the acceptable captured names |
| CallGraph.AddFile | packages/agent-doctor/src/dead-tools/call-graph.ts:27-37 | the pattern loop adds exactly the file's names |
| CallGraph.AddFiles | packages/agent-doctor/src/dead-tools/call-graph.ts:17-38 | the file loop gives exactly the specified set, empty for an empty corpus |
| CallGraph.BuildCallGraph | packages/agent-doctor/src/dead-tools/call-graph.ts:14-40 | `buildCallGraph` returns the specified invoked set |
| DeadTools.DeadOfMembers | packages/agent-doctor/src/dead-tools/index.ts:11-19 | a dead entry is reported exactly for a registered tool whose name is not invoked, and there are never more than registered |
| DeadTools.DeadOfUnique | packages/agent-doctor/src/dead-tools/index.ts:11-19 | over uniquely named registrations, dead names are distinct |
| DeadTools.DeadToolsExact | packages/agent-doctor/src/dead-tools/index.ts:5-22 | a name is dead exactly when it is registered and not invoked; its file and line are its first registration; names are distinct |
| DeadTools.DeadOfFiltered | packages/agent-doctor/src/dead-tools/index.ts:11-19 | the loop over the map equals filtering the registrations by "not invoked" and mapping each to its report entry |
| DeadTools.DeadOfOrdered | packages/agent-doctor/src/dead-tools/index.ts:11-19 | two dead tools appear in the order of the registrations they come from |
| DeadTools.DeadToolsOrdered | packages/agent-doctor/src/dead-tools/index.ts:5-22 | dead tools are reported in registration-map order, that is by the position of each name's first registration |
| DeadTools.AllInvokedNoneDead | packages/agent-doctor/src/dead-tools/index.ts:9-21 | when every registered name is invoked, nothing is dead |
| DeadTools.DeadOfNone | packages/agent-doctor/src/dead-tools/index.ts:11-19 | when every registration is invoked, the list is empty |
| DeadTools.CollectDead | packages/agent-doctor/src/dead-tools/index.ts:11-19 | the loop over the registration map gives exactly the specified list |
| DeadTools.DetectDeadTools | packages/agent-doctor/src/dead-tools/index.ts:5-22 | `detectDeadTools` returns the specified list |
| AiAnalyst.SuggestionsOfMembers | packages/agent-doctor/src/agents/ai-analyst.ts:106-111 | an id has a suggestion exactly when some usable entry names it, and its value comes from the last usable entry for it |
| AiAnalyst.BuildSuggestions | packages/agent-doctor/src/agents/ai-analyst.ts:106-111 | the suggestion loop builds exactly the specified map |
| AiAnalyst.AiAnalysisOf | packages/agent-doctor/src/agents/ai-analyst.ts:72-127 | no model or no diagnostics gives no analysis; an unreadable reply rejects, and nothing else does; otherwise the model name, no adjustments, the reply's verifications (or none), the counts of confirmed and unconfirmed ones, exactly the reply's `AI-` findings in order, its summary or "", the call's tokens and the map of its usable suggestions; a failed call gives an empty analysis with 0 tokens |
| AiAnalyst.RunAiAnalysis | packages/agent-doctor/src/agents/ai-analyst.ts:72-127 | `runAiAnalysis` after the reply computes the specified analysis, rejecting on an unreadable reply |
| AiAnalyst.DismissedIds | packages/agent-doctor/src/agents/ai-analyst.ts:138-140 | an id is dismissed exactly when some verification of it is unconfirmed |
| AiAnalyst.WithSuggestion | packages/agent-doctor/src/agents/ai-analyst.ts:145-148 | only the suggestion may change; a non-empty AI suggestion overrides; an empty or missing one leaves the diagnostic as it was |
| AiAnalyst.AttachSuggestions | packages/agent-doctor/src/agents/ai-analyst.ts:145-148 | same length, each diagnostic given its suggestion |
| AiAnalyst.KeptStatic | packages/agent-doctor/src/agents/ai-analyst.ts:138-142 | a diagnostic is kept exactly when its rule is not dismissed, in order |
| AiAnalyst.KeptExtras | packages/agent-doctor/src/agents/ai-analyst.ts:153-157 | an AI finding is kept exactly when its id starts with `AI-` and it has no file, no file list is given, or its file is listed; in order |
| AiAnalyst.ApplyAiAnalysis | packages/agent-doctor/src/agents/ai-analyst.ts:129-160 | the kept static diagnostics, with suggestions, in order, followed by the kept AI findings in order; every undismissed input diagnostic is represented |
| AiAnalyst.NeutralAnalysis | packages/agent-doctor/src/agents/ai-analyst.ts:129-160 | an analysis that dismisses nothing, adds nothing and suggests nothing returns the diagnostics unchanged |
| FixAgent.CandidatesShape | packages/agent-doctor/src/agents/fix-agent.ts:62-65 | the candidates are the errors followed by the warnings: same length, same members, errors first |
| FixAgent.CandidatesOrder | packages/agent-doctor/src/agents/fix-agent.ts:62-65 | the candidates are a permutation of the input, and the errors, and the warnings, keep their input order |
| FixAgent.FindRule | packages/agent-doctor/src/agents/fix-agent.ts:66 | `findIndex` gives the first position with that rule id, or -1 when there is none |
| FixAgent.FindRuleFirst | packages/agent-doctor/src/agents/fix-agent.ts:66 | a candidate passes the filter exactly when no earlier candidate has its rule id |
| FixAgent.FirstPerRuleKept | packages/agent-doctor/src/agents/fix-agent.ts:66 | every kept candidate is the first of its rule id |
| FixAgent.FirstPerRuleDistinct | packages/agent-doctor/src/agents/fix-agent.ts:66 | kept candidates have distinct rule ids |
| FixAgent.FirstPerRuleCovers | packages/agent-doctor/src/agents/fix-agent.ts:66 | every rule id among the candidates is kept |
| FixAgent.FirstPerRuleErrorsFirst | packages/agent-doctor/src/agents/fix-agent.ts:66 | the filter keeps errors before warnings |
| FixAgent.ErrorsFirstAppend | packages/agent-doctor/src/agents/fix-agent.ts:62-66 | appending a warning, or an error after errors only, keeps errors first |
| FixAgent.OnePerRuleFromInput | packages/agent-doctor/src/agents/fix-agent.ts:62-66 | every selected diagnostic comes from the input |
| FixAgent.OnePerRuleCovers | packages/agent-doctor/src/agents/fix-agent.ts:62-66 | every rule of the input is represented |
| FixAgent.OnePerRulePrefersErrors | packages/agent-doctor/src/agents/fix-agent.ts:62-66 | a rule with any error is represented by an error |
| FixAgent.SelectToFixProperties | packages/agent-doctor/src/agents/fix-agent.ts:62-67 | at most 5, taken from the input, distinct rule ids, errors first, a rule with an error is represented by one, and fewer than 5 means every rule is covered |
| FixAgent.SelectToFixFirst | packages/agent-doctor/src/agents/fix-agent.ts:66 | each selected diagnostic is the first candidate of its rule id |
| FixAgent.SelectToFixOrdered | packages/agent-doctor/src/agents/fix-agent.ts:66-67 | the selected diagnostics appear in candidate order |
| FixAgent.SelectToFixPrefix | packages/agent-doctor/src/agents/fix-agent.ts:66-67 | a rule whose first candidate comes before a selected one is selected too, so the kept rules are the first ones in candidate order |
| FixAgent.FixMapEntries | packages/agent-doctor/src/agents/fix-agent.ts:69-89 | a rule id has a fix exactly when some selected diagnostic got a reply, and the fix is that reply |
| FixAgent.CollectFixes | packages/agent-doctor/src/agents/fix-agent.ts:69-89 | the fix loop builds exactly the specified map |
| FixAgent.GenerateFixes | packages/agent-doctor/src/agents/fix-agent.ts:50-92 | no model gives an empty map; otherwise the fixes for the selected diagnostics |
| FixAgent.GenerateFixesEntries | packages/agent-doctor/src/agents/fix-agent.ts:62-89 | a rule id has a fix exactly when its selected diagnostic got a reply, and the fix is that reply |
| Shapes.ScanPresence | packages/agent-doctor/src/rules/deployment/dep-003.ts:10-25 | the presence loop with its early exit reports exactly when no file is a hit |
| Shapes.PresenceMonotone | packages/agent-doctor/src/rules/deployment/dep-003.ts:12-16 | a corpus that satisfies a presence rule still does with more files |
| Shapes.PresenceIgnores | packages/agent-doctor/src/rules/deployment/dep-003.ts:12-16 | files that are not hits do not change a presence rule |
| Shapes.ScanAggregate | packages/agent-doctor/src/rules/config/cfg-006.ts:13-21 | the two-flag loop reports exactly when some file triggers and none mitigates |
| Shapes.AggregateOrderFree | packages/agent-doctor/src/rules/config/cfg-006.ts:16-19 | an aggregate rule depends only on which files are present, not their order |
| Shapes.PerFile | packages/agent-doctor/src/rules/security/sec-004.ts:13-25 | at most one diagnostic per file |
| Shapes.PerFileMembers | packages/agent-doctor/src/rules/security/sec-004.ts:13-25 | a per-file diagnostic is reported exactly for a flagged file, at its path |
| Shapes.PerFileAppend | packages/agent-doctor/src/rules/security/sec-004.ts:13-25 | per-file findings of two corpora concatenate, so they are local to each file |
| Shapes.ScanPerFile | packages/agent-doctor/src/rules/security/sec-004.ts:13-25 | the per-file loop computes the specified findings |
| Shapes.Lines | packages/agent-doctor/src/rules/security/sec-001.ts:14 | `split("\n")` gives one more line than there are newlines |
| Shapes.LineHits | packages/agent-doctor/src/rules/security/sec-001.ts:15-29 | at most one diagnostic per line, each with the file and a line number inside the range |
| Shapes.LineHitsMembers | packages/agent-doctor/src/rules/security/sec-001.ts:15-29 | line i+1 is reported exactly when line i is flagged |
| Shapes.LineHitsAscending | packages/agent-doctor/src/rules/security/sec-001.ts:15-29 | line diagnostics come in ascending line order |
| Shapes.LineHitsAppend | packages/agent-doctor/src/rules/security/sec-001.ts:15-29 | line hits of two line blocks concatenate with shifted numbers |
| Shapes.PerLine | packages/agent-doctor/src/rules/security/sec-001.ts:13-30 | every per-line diagnostic has a file and a line of at least 1 |
| Shapes.PerLineMembers | packages/agent-doctor/src/rules/security/sec-001.ts:13-30 | a per-line diagnostic is reported exactly for a flagged line of an in-scope file, at line k+1 |
| Shapes.PerLineAppend | packages/agent-doctor/src/rules/security/sec-001.ts:13-30 | per-line findings of two corpora concatenate: file order, then line order |
| Shapes.ScanLines | packages/agent-doctor/src/rules/security/sec-001.ts:14-29 | the line loop of one file computes its specified hits |
| Shapes.ScanPerLine | packages/agent-doctor/src/rules/security/sec-001.ts:13-30 | the file and line loops compute the specified findings |
| Shapes.FirstFlagged | packages/agent-doctor/src/rules/reliability/rel-003.ts:12-25 | at most one diagnostic, for the first flagged file, and none exactly when no file is flagged |
| Shapes.ScanFirstFlagged | packages/agent-doctor/src/rules/reliability/rel-003.ts:12-25 | the early-return loop computes the specified finding |
| Shapes.EachFileMembers | packages/agent-doctor/src/rules/security/sec-003.ts:31-57 | a diagnostic is in the output exactly when some file's hits hold it |
| Shapes.EachFileAtMostOne | packages/agent-doctor/src/rules/security/sec-003.ts:31-57 | one hit at most per file gives at most one diagnostic per file |
| Shapes.EachFileAppend | packages/agent-doctor/src/rules/security/sec-003.ts:31-57 | per-file hits of two corpora concatenate |
| Shapes.FirstWhere | packages/agent-doctor/src/rules/security/sec-003.ts:41-43 | the first line satisfying the test, or none when no line does |
| Shapes.FirstWhereIs | packages/agent-doctor/src/rules/security/sec-003.ts:41-43 | the first satisfying line is found |
| Shapes.FirstWhereNone | packages/agent-doctor/src/rules/security/sec-003.ts:41-43 | no satisfying line gives none |
| Shapes.Select | packages/agent-doctor/src/rules/config/cfg-009.ts:15-29 | at most one diagnostic per match |
| Shapes.SelectMembers | packages/agent-doctor/src/rules/config/cfg-009.ts:15-29 | a diagnostic is reported exactly for a match that passes the test |
| RuleShapes.FileFindings | packages/agent-doctor/src/rules/security/sec-004.ts:13-25 | a file is reported exactly when its content matches the trigger and not the mitigation, at most one per file |
| RuleShapes.FileFindingsLocal | packages/agent-doctor/src/rules/security/sec-004.ts:13-25 | a file's finding depends only on its own content; output follows corpus order |
| RuleShapes.AbsenceFinding | packages/agent-doctor/src/rules/deployment/dep-003.ts:9-25 | one diagnostic without file exactly when no file matches the pattern |
| RuleShapes.AbsenceMonotone | packages/agent-doctor/src/rules/deployment/dep-003.ts:12-16 | adding files before or after never makes an absence rule fire |
| RuleShapes.AggregateFinding | packages/agent-doctor/src/rules/config/cfg-006.ts:8-31 | one diagnostic without file exactly when some file matches the trigger and none matches the mitigation |
| RuleShapes.AggregateFindingOrderFree | packages/agent-doctor/src/rules/config/cfg-006.ts:16-19 | an aggregate rule does not depend on corpus order |
| RuleShapes.FirstFileFinding | packages/agent-doctor/src/rules/reliability/rel-003.ts:12-25 | at most one diagnostic, naming the first file that triggers without mitigation, and none exactly when no such file exists |
| SecurityRules.Sec001 | packages/agent-doctor/src/rules/security/sec-001.ts:10-28 | a diagnostic at line k+1 of a file exactly when line k shows user-controlled input and no sanitising |
| SecurityRules.Sec002 | packages/agent-doctor/src/rules/security/sec-002.ts:11-29 | a diagnostic at line k+1 of a file exactly when line k holds a key or token literal, skipping paths containing `.env` |
| SecurityRules.Sec003HitsMembers | packages/agent-doctor/src/rules/security/sec-003.ts:16-55 | a file contributes at most one diagnostic: its first destructive line, when the file is scanned, destructive and unconfirmed |
| SecurityRules.Sec003 | packages/agent-doctor/src/rules/security/sec-003.ts:16-55 | a diagnostic at the first destructive line of each file that is not documentation, text or YAML, mentions a destructive operation and no confirmation; at most one per file |
| SecurityRules.ScanSec003File | packages/agent-doctor/src/rules/security/sec-003.ts:16-55 | one file's scan with its early returns and `break` gives exactly its specified hits |
| SecurityRules.ScanSec003 | packages/agent-doctor/src/rules/security/sec-003.ts:16-55 | the file loop computes the specified findings |
| SecurityRules.Sec004 | packages/agent-doctor/src/rules/security/sec-004.ts:10-25 | a diagnostic at a file's path exactly when its content shows a tool call and not logging; at most one per file |
| SecurityRules.Sec005 | packages/agent-doctor/src/rules/security/sec-005.ts:8-21 | one project-level diagnostic exactly when more than 20 tools are registered, naming the count |
| SecurityRules.Sec005IgnoresFiles | packages/agent-doctor/src/rules/security/sec-005.ts:8-21 | the corpus plays no part |
| SecurityRules.Sec006 | packages/agent-doctor/src/rules/security/sec-006.ts:10-28 | a diagnostic at line k+1 of a file exactly when line k writes to memory and mentions untrusted input |
| SecurityRules.Sec008 | packages/agent-doctor/src/rules/security/sec-008.ts:10-27 | a diagnostic at line k+1 of a file exactly when line k logs and holds an e-mail, phone or social security number |
| SecurityRules.Sec009 | packages/agent-doctor/src/rules/security/sec-009.ts:10-25 | a diagnostic at a file's path exactly when its content shows a tool result and not validation; at most one per file |
| SecurityRules.Sec010 | packages/agent-doctor/src/rules/security/sec-010.ts:10-25 | a diagnostic at a file's path exactly when its content shows an HTTP client and not rate limiting; at most one per file |
| SecurityRules.Sec011 | packages/agent-doctor/src/rules/security/sec-011.ts:10-26 | a diagnostic at line k+1 of a file exactly when line k names an internal host or table and a schema or description |
| SecurityRules.Sec012 | packages/agent-doctor/dist/rules/security/sec-012.js:11-25 | a diagnostic at a file's path exactly when its content shows an API key name and not a rotation policy; at most one per file |
| SecurityRules.Sec013 | packages/agent-doctor/src/rules/security/sec-013.ts:10-20 | a diagnostic at `Dockerfile` exactly when its stored content is non-empty and has no `USER ` directive or a root user |
| SecurityRules.Sec014 | packages/agent-doctor/src/rules/security/sec-014.ts:10-25 | a diagnostic at a file's path exactly when its content shows user input and not a length limit; at most one per file |
| SecurityRules.Sec015 | packages/agent-doctor/src/rules/security/sec-015.ts:10-25 | a diagnostic at a file's path exactly when its content shows agent delegation and not a trust check; at most one per file |
| SecurityRules.Sec016 | packages/agent-doctor/src/rules/security/sec-016.ts:10-25 | a diagnostic at a file's path exactly when its content shows a system prompt and not a non-disclosure safeguard; at most one per file |
| SecurityRules.Sec017 | packages/agent-doctor/src/rules/security/sec-017.ts:10-25 | a diagnostic at a file's path exactly when its content shows a URL fetch and not an SSRF allowlist; at most one per file |
| SecurityRules.Sec018 | packages/agent-doctor/src/rules/security/sec-018.ts:10-25 | a diagnostic at a file's path exactly when its content shows HTML rendering and not sanitising; at most one per file |
| ConfigRules.Cfg001 | packages/agent-doctor/src/rules/config/cfg-001.ts:10-25 | a diagnostic at a file's path exactly when its content shows an LLM call and not `max_tokens`; at most one per file |
| ConfigRules.Cfg002 | packages/agent-doctor/src/rules/config/cfg-002.ts:10-25 | a diagnostic at a file's path exactly when its content shows a memory store and not a TTL; at most one per file |
| ConfigRules.Cfg003 | packages/agent-doctor/dist/rules/config/cfg-003.js:11-27 | a diagnostic at a file's path exactly when its content shows an environment variable read and not startup validation; at most one per file |
| ConfigRules.Cfg011 | packages/agent-doctor/src/rules/config/cfg-011.ts:10-25 | a diagnostic at a file's path exactly when its content shows a tool definition and not an input schema; at most one per file |
| ConfigRules.Cfg012 | packages/agent-doctor/src/rules/config/cfg-012.ts:10-25 | a diagnostic at a file's path exactly when its content shows a long-running operation and not streaming; at most one per file |
| ConfigRules.Cfg006 | packages/agent-doctor/src/rules/config/cfg-006.ts:10-29 | one project-level diagnostic exactly when some file shows a model name and no file shows fallback routing |
| ConfigRules.Cfg007 | packages/agent-doctor/src/rules/config/cfg-007.ts:10-29 | one project-level diagnostic exactly when some file shows an agent and no file shows a system prompt |
| ConfigRules.Cfg010 | packages/agent-doctor/src/rules/config/cfg-010.ts:10-29 | one project-level diagnostic exactly when some file shows an LLM call and no file shows context management |
| ConfigRules.FilesNamed | packages/agent-doctor/src/rules/config/cfg-008.ts:17-18 | one recorded file per occurrence of the name; none exactly when the name never occurs |
| ConfigRules.FirstIndex | packages/agent-doctor/src/rules/config/cfg-008.ts:17 | the position of the first occurrence of a name, or past the end when it never occurs |
| ConfigRules.NameOrder | packages/agent-doctor/src/rules/config/cfg-008.ts:17-23 | the map's keys: exactly the names that occur, each once |
| ConfigRules.NameOrderOrdered | packages/agent-doctor/src/rules/config/cfg-008.ts:17-23 | the keys come in order of first occurrence |
| ConfigRules.OrderedFilterKeepsFirstOccurrence | packages/agent-doctor/src/rules/config/cfg-008.ts:23-24 | keeping only some keys keeps first-occurrence order |
| ConfigRules.Reports | packages/agent-doctor/src/rules/config/cfg-008.ts:23-33 | one report per chosen name, quoting the files recorded for it |
| ConfigRules.Cfg008 | packages/agent-doctor/src/rules/config/cfg-008.ts:13-34 | one project-level error per duplicate name, in key order, listing its files joined by ", " |
| ConfigRules.DuplicateReported | packages/agent-doctor/src/rules/config/cfg-008.ts:23-33 | every name recorded more than once is reported |
| ConfigRules.ReportedIsDuplicate | packages/agent-doctor/src/rules/config/cfg-008.ts:23-33 | every report is about a name recorded more than once |
| ConfigRules.Cfg008NamesDistinct | packages/agent-doctor/src/rules/config/cfg-008.ts:23-33 | the reported names are exactly the duplicates, distinct and in first-occurrence order |
| ConfigRules.FilesNamedAppend | packages/agent-doctor/src/rules/config/cfg-008.ts:13-21 | the files recorded over two corpora concatenate |
| ConfigRules.RepeatedIsDuplicate | packages/agent-doctor/src/rules/config/cfg-008.ts:15-19 | a name occurring twice, in one file or in two, is a duplicate |
| ConfigRules.DuplicateIsRepeated | packages/agent-doctor/src/rules/config/cfg-008.ts:24 | a duplicate name occurs at two positions |
| ConfigRules.Record | packages/agent-doctor/src/rules/config/cfg-008.ts:16-18 | one `has`/`set`/`push` step keeps the map equal to the specified table |
| ConfigRules.RecordFile | packages/agent-doctor/src/rules/config/cfg-008.ts:14-20 | the `exec` loop over one file keeps the map equal to the specified table |
| ConfigRules.ReportDuplicates | packages/agent-doctor/src/rules/config/cfg-008.ts:23-33 | the key loop reports exactly the keys with more than one file |
| ConfigRules.ScanCfg008 | packages/agent-doctor/src/rules/config/cfg-008.ts:9-34 | the two loops compute the specified finding list |
| ConfigRules.Cfg009FileMembers | packages/agent-doctor/src/rules/config/cfg-009.ts:14-29 | a file's diagnostics are exactly the reports of its vague descriptions |
| ConfigRules.Cfg009 | packages/agent-doctor/src/rules/config/cfg-009.ts:14-30 | a diagnostic at the line of each captured description with fewer than 10 words, naming the word count; every diagnostic has a file and a line of at least 1 |
| ConfigRules.ScanCfg009File | packages/agent-doctor/src/rules/config/cfg-009.ts:14-29 | the `exec` loop over one file gives its specified hits |
| ConfigRules.ScanCfg009 | packages/agent-doctor/src/rules/config/cfg-009.ts:12-31 | the file loop, with `lastIndex` reset, computes the specified findings |
| ConfigRules.WordsOfDescription | packages/agent-doctor/src/rules/config/cfg-009.ts:15-16 | a non-blank description counts only non-empty, whitespace-free words |
| ConfigRules.Cfg013 | packages/agent-doctor/src/rules/config/cfg-013.ts:10-25 | one project-level diagnostic exactly when neither a non-empty package.json has a quoted version key nor a non-empty pyproject.toml has a version line |
| ConfigRules.Cfg014 | packages/agent-doctor/src/rules/config/cfg-014.ts:10-30 | one diagnostic naming the backend exactly when a memory backend is detected and no file has a health check |
| DeploymentRules.Dep001 | packages/agent-doctor/src/rules/deployment/dep-001.ts:8-24 | one project-level diagnostic exactly when none of the Dockerfile names is a corpus key |
| DeploymentRules.Dep001Monotone | packages/agent-doctor/src/rules/deployment/dep-001.ts:8-24 | adding files never brings the finding back |
| DeploymentRules.Dep002 | packages/agent-doctor/src/rules/deployment/dep-002.ts:9-28 | one project-level diagnostic exactly when no path looks like a CI pipeline |
| DeploymentRules.ContainsPrefixOf | packages/agent-doctor/src/rules/deployment/dep-002.ts:9-28 | a string containing `t + u` contains `t` |
| DeploymentRules.CiPathWithoutRedundantTest | packages/agent-doctor/src/rules/deployment/dep-002.ts:9-28 | the `.github/workflows/` test is implied by the `.github/workflows` test |
| DeploymentRules.Dep003 | packages/agent-doctor/src/rules/deployment/dep-003.ts:9-26 | one project-level diagnostic exactly when no file shows a rollback strategy |
| DeploymentRules.Dep004 | packages/agent-doctor/src/rules/deployment/dep-004.ts:9-26 | one project-level diagnostic exactly when no file shows a health endpoint |
| DeploymentRules.Dep005 | packages/agent-doctor/dist/rules/deployment/dep-005.js:10-27 | one project-level diagnostic exactly when no file shows environment separation |
| DeploymentRules.Dep010 | packages/agent-doctor/src/rules/deployment/dep-010.ts:9-26 | one project-level diagnostic exactly when no file shows a staging environment |
| DeploymentRules.Dep012 | packages/agent-doctor/src/rules/deployment/dep-012.ts:9-26 | one project-level diagnostic exactly when no file shows graceful shutdown handling |
| DeploymentRules.Dep006 | packages/agent-doctor/dist/rules/deployment/dep-006.js:9-25 | one project-level diagnostic exactly when no lockfile name is a corpus key |
| DeploymentRules.Dep006Keys | packages/agent-doctor/dist/rules/deployment/dep-006.js:9-25 | any of the five lockfile names suffices, and nothing else does |
| DeploymentRules.Dep007 | packages/agent-doctor/src/rules/deployment/dep-007.ts:9-18 | a diagnostic at `Dockerfile` exactly when its stored content is non-empty and runs as root |
| DeploymentRules.Dep007MatchesSec013 | packages/agent-doctor/src/rules/deployment/dep-007.ts:9-18 | DEP-007 fires exactly when SEC-013 fires |
| DeploymentRules.Dep007ExcludesDep001 | packages/agent-doctor/src/rules/deployment/dep-007.ts:9-18 | a root-user finding rules out the missing-Dockerfile finding |
| DeploymentRules.Dep008 | packages/agent-doctor/src/rules/deployment/dep-008.ts:9-30 | one project-level diagnostic exactly when a compose or Kubernetes path exists and no YAML file sets resource limits |
| DeploymentRules.Dep008OnlyYamlMitigates | packages/agent-doctor/src/rules/deployment/dep-008.ts:9-30 | a compose file with no YAML file in the corpus always gives the finding |
| DeploymentRules.Dep009 | packages/agent-doctor/src/rules/deployment/dep-009.ts:13-27 | a diagnostic at line k+1 of a file exactly when line k of a Dockerfile or YAML file sets a secret with `ENV` |
| DeploymentRules.Dep009Local | packages/agent-doctor/src/rules/deployment/dep-009.ts:13-27 | the findings of a split corpus are those of its parts, in order |
| DeploymentRules.BaseImage | packages/agent-doctor/src/rules/deployment/dep-011.ts:9-27 | an image is read exactly when the Dockerfile is non-empty and has a `FROM` line |
| DeploymentRules.Dep011 | packages/agent-doctor/src/rules/deployment/dep-011.ts:9-27 | a diagnostic at `Dockerfile` naming the image exactly when the first base image is untagged or `latest` |
| DeploymentRules.UnpinnedExamples | packages/agent-doctor/src/rules/deployment/dep-011.ts:9-27 | `node:20.11.0-alpine` is pinned; `node` and `node:latest` are not |
| DeploymentRules.Dep011ExcludesDep001 | packages/agent-doctor/src/rules/deployment/dep-011.ts:9-27 | an unpinned-image finding rules out the missing-Dockerfile finding |
| DeploymentRules.Dep013 | packages/agent-doctor/src/rules/deployment/dep-013.ts:9-26 | one project-level diagnostic exactly when no YAML file shows high availability |
| DeploymentRules.Dep013IgnoresOtherFiles | packages/agent-doctor/src/rules/deployment/dep-013.ts:9-26 | files that are not YAML never change the finding |
| ObservabilityRules.Obs001 | packages/agent-doctor/src/rules/observability/obs-001.ts:8-30 | one project-level diagnostic exactly when some file shows unstructured printing and no file shows a structured logger |
| ObservabilityRules.Obs008 | packages/agent-doctor/src/rules/observability/obs-008.ts:9-29 | one project-level diagnostic exactly when some file shows logging and no file shows a configurable log level |
| ObservabilityRules.Obs002 | packages/agent-doctor/src/rules/observability/obs-002.ts:9-26 | one project-level diagnostic exactly when no file shows distributed tracing |
| ObservabilityRules.Obs003 | packages/agent-doctor/src/rules/observability/obs-003.ts:8-26 | one project-level diagnostic exactly when no file shows alerting |
| ObservabilityRules.Obs004 | packages/agent-doctor/src/rules/observability/obs-004.ts:8-26 | one project-level diagnostic exactly when no file shows error tracking |
| ObservabilityRules.Obs005 | packages/agent-doctor/src/rules/observability/obs-005.ts:8-26 | one project-level diagnostic exactly when no file shows token cost tracking |
| ObservabilityRules.Obs006 | packages/agent-doctor/src/rules/observability/obs-006.ts:9-26 | one project-level diagnostic exactly when no file shows a trace or request id |
| ObservabilityRules.Obs010 | packages/agent-doctor/src/rules/observability/obs-010.ts:9-26 | one project-level diagnostic exactly when no file shows an SLO or SLA |
| ObservabilityRules.Obs011 | packages/agent-doctor/src/rules/observability/obs-011.ts:9-26 | one project-level diagnostic exactly when no file shows a cost budget |
| ObservabilityRules.Obs012 | packages/agent-doctor/src/rules/observability/obs-012.ts:9-26 | one project-level diagnostic exactly when no file shows a user feedback signal |
| ObservabilityRules.Obs007 | packages/agent-doctor/src/rules/observability/obs-007.ts:9-27 | one project-level diagnostic exactly when no content mentions a dashboard tool and no path contains `dashboard` or `grafana` |
| ObservabilityRules.DashboardPathCase | packages/agent-doctor/src/rules/observability/obs-007.ts:9-27 | the path test is case-sensitive: `grafana.json` counts, `Grafana.json` does not |
| ObservabilityRules.Obs009 | packages/agent-doctor/src/rules/observability/obs-009.ts:9-27 | with a memory backend, at most one diagnostic, at the first file with memory operations and no tracing; none exactly when there is no backend or no such file |
| ReliabilityRules.Rel001 | packages/agent-doctor/src/rules/reliability/rel-001.ts:8-29 | one project-level diagnostic exactly when some file shows an agent run and no file shows an iteration limit |
| ReliabilityRules.Rel006 | packages/agent-doctor/dist/rules/reliability/rel-006.js:10-29 | one project-level diagnostic exactly when some file shows error catching and no file shows a fallback |
| ReliabilityRules.Rel007 | packages/agent-doctor/src/rules/reliability/rel-007.ts:9-29 | one project-level diagnostic exactly when some file shows in-memory state and no file shows persistence |
| ReliabilityRules.Rel011 | packages/agent-doctor/src/rules/reliability/rel-011.ts:9-29 | one project-level diagnostic exactly when some file shows a multi-step pipeline and no file shows checkpointing |
| ReliabilityRules.Window | packages/agent-doctor/src/rules/reliability/rel-002.ts:13-35 | the 500-character window from a definition, shorter at the end of the content |
| ReliabilityRules.Rel002FileMembers | packages/agent-doctor/src/rules/reliability/rel-002.ts:13-35 | a file's diagnostics are exactly the reports of its named definitions whose window calls the name more than once |
| ReliabilityRules.Rel002 | packages/agent-doctor/src/rules/reliability/rel-002.ts:13-35 | a diagnostic at the line of each named definition whose 500-character window holds more than one call of that name |
| ReliabilityRules.Rel002Reports | packages/agent-doctor/src/rules/reliability/rel-002.ts:13-35 | every report carries a file, a line of at least 1, and a non-empty function name |
| ReliabilityRules.ScanRel002File | packages/agent-doctor/src/rules/reliability/rel-002.ts:13-35 | the `exec` loop over one file, skipping unnamed matches, gives its specified hits |
| ReliabilityRules.ScanRel002 | packages/agent-doctor/src/rules/reliability/rel-002.ts:13-35 | the file loop computes the specified findings |
| ReliabilityRules.Rel003 | packages/agent-doctor/src/rules/reliability/rel-003.ts:12-25 | at most one diagnostic, at the first file with HTTP calls and no timeout; none exactly when every HTTP-calling file has a timeout |
| ReliabilityRules.Rel004 | packages/agent-doctor/src/rules/reliability/rel-004.ts:10-25 | a diagnostic at a file's path exactly when its content shows a tool call and not error handling; at most one per file |
| ReliabilityRules.Rel010 | packages/agent-doctor/src/rules/reliability/rel-010.ts:10-25 | a diagnostic at a file's path exactly when its content shows a long synchronous sleep and not asynchronous work; at most one per file |
| ReliabilityRules.Rel005 | packages/agent-doctor/src/rules/reliability/rel-005.ts:9-26 | one project-level diagnostic exactly when no file shows retry logic |
| ReliabilityRules.Rel009 | packages/agent-doctor/src/rules/reliability/rel-009.ts:9-26 | one project-level diagnostic exactly when no file shows a circuit breaker |
| ReliabilityRules.Rel014 | packages/agent-doctor/src/rules/reliability/rel-014.ts:9-26 | one project-level diagnostic exactly when no file shows failure injection |
| ReliabilityRules.Rel008 | packages/agent-doctor/src/rules/reliability/rel-008.ts:9-27 | one project-level diagnostic exactly when no content mentions load testing and no path contains `locustfile`, `k6` or `artillery` |
| ReliabilityRules.Rel008ByPath | packages/agent-doctor/src/rules/reliability/rel-008.ts:9-27 | a k6 script path silences the rule whatever its content |
| ReliabilityRules.Rel012 | packages/agent-doctor/src/rules/reliability/rel-012.ts:9-27 | one project-level diagnostic exactly when the backend is redis and no file shows persistence |
| ReliabilityRules.Rel013 | packages/agent-doctor/src/rules/reliability/rel-013.ts:13-30 | one project-level diagnostic exactly when no YAML file declares more than one replica |
| ReliabilityRules.ReplicaCountRead | packages/agent-doctor/src/rules/reliability/rel-013.ts:13-30 | a decimal count is read back by `parseInt`, so exactly counts above one qualify |
| ReliabilityRules.Rel013IgnoresOtherFiles | packages/agent-doctor/src/rules/reliability/rel-013.ts:13-30 | files that are not YAML never change the finding |
| ReliabilityRules.FileDeclaresReplicas | packages/agent-doctor/src/rules/reliability/rel-013.ts:13-30 | the match loop with its `break` decides whether a YAML file declares more than one replica |
| ReliabilityRules.ScanRel013 | packages/agent-doctor/src/rules/reliability/rel-013.ts:13-30 | the file loop, skipping non-YAML files and stopping at the first replicated one, computes the specified finding |
| ComplianceRules.Cmp001 | packages/agent-doctor/src/rules/compliance/cmp-001.ts:10-25 | one project-level error exactly when the newline-joined source shows both user input and a destructive or sending action |
| ComplianceRules.AllSourceAppend | packages/agent-doctor/src/rules/compliance/cmp-001.ts:10-25 | the joined source of two non-empty corpora is their joined sources separated by one newline |
| ComplianceRules.Cmp003 | packages/agent-doctor/src/rules/compliance/cmp-003.ts:9-29 | one project-level diagnostic exactly when some file shows a response being returned and no file shows moderation |
| ComplianceRules.Cmp004 | packages/agent-doctor/src/rules/compliance/cmp-004.ts:9-29 | one project-level diagnostic exactly when some file shows personal data and no file shows consent |
| ComplianceRules.Cmp005 | packages/agent-doctor/src/rules/compliance/cmp-005.ts:9-29 | one project-level diagnostic exactly when some file shows health data and no file shows a safeguard |
| ComplianceRules.Cmp006 | packages/agent-doctor/src/rules/compliance/cmp-006.ts:9-29 | one project-level diagnostic exactly when some file shows a system prompt and no file shows an AI disclosure |
| ComplianceRules.Cmp008 | packages/agent-doctor/src/rules/compliance/cmp-008.ts:8-30 | one project-level diagnostic exactly when some file shows a high-stakes decision and no file shows human oversight |
| ComplianceRules.Cmp009 | packages/agent-doctor/src/rules/compliance/cmp-009.ts:9-29 | one project-level diagnostic exactly when some file shows card data and no file shows PCI controls |
| ComplianceRules.Cmp010 | packages/agent-doctor/src/rules/compliance/cmp-010.ts:9-26 | one project-level diagnostic exactly when no file shows bias testing |
| ComplianceRules.Cmp002 | packages/agent-doctor/src/rules/compliance/cmp-002.ts:11-34 | one project-level diagnostic exactly when no lower-cased path names a retention or data policy and no content shows retention logic |
| ComplianceRules.Cmp007 | packages/agent-doctor/src/rules/compliance/cmp-007.ts:9-35 | one project-level diagnostic exactly when no path names a model card and no README key's stored content documents the model |
| ComplianceRules.StoredContentOfKey | packages/agent-doctor/src/rules/compliance/cmp-007.ts:9-35 | over distinct keys the stored content of a key is that file's content |
| ComplianceRules.Cmp007DistinctKeys | packages/agent-doctor/src/rules/compliance/cmp-007.ts:9-35 | over distinct keys, a README whose own content documents the model silences the rule |
| ComplianceRules.Cmp011 | packages/agent-doctor/src/rules/compliance/cmp-011.ts:9-27 | one project-level diagnostic exactly when no file shows an incident plan in its content or path |
| Shapes.SameFilesSameAny | packages/agent-doctor/src/rules/config/cfg-006.ts:16-19 | two corpora with the same files have the same aggregate flags |
| CompiledRules.Sec003 | packages/agent-doctor/dist/rules/security/sec-003.js:9-30 | every line of every file that names a destructive verb and no confirmation word is reported at its line |
| CompiledRules.Sec003ScansSkippedPaths | packages/agent-doctor/dist/rules/security/sec-003.js:13-16 | a flagged line of a documentation or YAML file is reported by the compiled rule, never by the source rule |
| CompiledRules.Cmp002 | packages/agent-doctor/dist/rules/compliance/cmp-002.js:9-28 | one warning exactly when no content shows retention logic; when the compiled rule is silent so is the source rule |
| CompiledRules.Cmp002PolicyPathOnlyInSource | packages/agent-doctor/dist/rules/compliance/cmp-002.js:12-18 | a policy file without retention logic silences the source rule but not the compiled one |
| CompiledRules.Cmp007 | packages/agent-doctor/dist/rules/compliance/cmp-007.js:9-31 | one warning exactly when no model-card or README key has model-card content or a model-card path |
| CompiledRules.Cmp007DistinctKeys | packages/agent-doctor/dist/rules/compliance/cmp-007.js:12-15 | over distinct keys the content looked up is the key's own content |
| CompiledRules.Dep002 | packages/agent-doctor/dist/rules/deployment/dep-002.js:9-25 | one warning exactly when no key passes the five CI substring tests; when the compiled rule is silent so is the source rule |
| CompiledRules.Dep002YamlOnlyInSource | packages/agent-doctor/dist/rules/deployment/dep-002.js:10-14 | a `.yml` workflow path outside the five tests silences the source rule but not the compiled one |
| RuleIndex.CompiledCheck | packages/agent-doctor/dist/rules/index.js:93-114 | the compiled index swaps the check of exactly SEC-003, CMP-002, CMP-007 and DEP-002 |
| RuleIndex.CompileAll | packages/agent-doctor/dist/rules/index.js:93-114 | the compiled index has one entry per source entry, in the same order |
| RuleIndex.CompiledRulesMatch | packages/agent-doctor/dist/rules/index.js:93-114 | 82 compiled rules with the source ids, categories, severities and titles, no protection key, and a different check exactly for the four rebuilt rules |
| RuleIndex.CompiledApplicableRules | packages/agent-doctor/dist/rules/index.js:115-117 | the compiled index in order, minus the rules whose id is ignored |

## Left out

- Regular-expression semantics: no regex engine is modelled. Each pattern is kept as its source and flags, and matching is delegated to the `Engine` parameter. A handful of path tests are literal substrings (`/\.env/`, `/dashboard|grafana/`, `/locustfile|k6|artillery/`, `/README/i`); those are modelled concretely.
- File-system, glob and environment I/O: these decide the corpus and the project information, which the model takes as inputs. They cover `loadProjectFiles`, `detectProject`, `detectLanguage`, `detectMcpCompliance`, `detectToolCount` and the file reads of `loadConfig`.
- `loadConfig` read failures: an unreadable file, invalid JSON, a `null` value or a missing `agentDoctor` entry are folded into one `Unusable` source. The source handles all of these by falling through to the next source.
- `buildSelfFilter` resolves paths against the installed module's directory, so it is a parameter `isSelf` of `AuditEngine.RunEngine`. The compiled engine's fixed filter is modelled exactly, as `DistEngine.IsSelfFile`.
- The stderr progress output and the timing with `Date.now` are left out: they do not affect any result. `durationMs` is a parameter of `Scorer.CalculateScore`.
- Calls to the language model: `buildModel`, prompt construction, `generateText`, `createFixAgent` and `agent.generate` are reduced to an `LlmOutcome` value or a `respond` function. The JSON parse of the reply is included in those, and so are the fix prompt text and the snippet truncation.
- SEC-007, CFG-004 and CFG-005: these depend on `JSON.parse` and `parseFloat` with a float comparison. Their metadata is in `ALL_RULES`, and their outcome is taken from the context's `parsedChecks` parameter.
- Floating point: the protection confidence is computed over reals and then rounded, rather than in IEEE doubles. The rounding is `Math.round` for non-negative values.
- Concurrency: `Promise.all` over the synchronous rule checks is modelled as a sequential map followed by a concatenation.
- `DistEngine.FilterIgnored`: a glob containing regex metacharacters other than `*` is passed to `new RegExp` unescaped. It may then mean something else or throw; the model does not capture that throw. Glob meaning is proved only for metacharacter-free globs, in `DistEngine.FilterIgnoredGlobs`.
- `Protection.CheckProtection`: the lookup `PROTECTION_REGISTRY[key]` also finds inherited `Object.prototype` names such as `constructor`. Such a key makes the source throw; here only the registry's own keys are known.
- `Detector.JsLowerAppend`: `JsLower` maps exactly those characters whose lower case contains ASCII: the ASCII capitals, U+0130 and the Kelvin sign. Every other character is kept as it is rather than mapped to its non-ASCII lower case. That makes no difference to any search, because every search term is ASCII.
- String lengths count characters, not UTF-16 code units. The only length-dependent results are the 500-character window of REL-002 and the name-length limits of the dead-tool detector; they differ only for characters outside the Basic Multilingual Plane.
- `Object.keys` puts integer-like keys first. The detectors join dependency names in the given order, which can differ for integer-like package names. That affects no detection, because a term is found in a name regardless of position.
- `ReliabilityRules.Rel009`: `rel-009.ts` declares no `protectionKey`, so the circuit-breaker protection never suppresses it. The model follows the code.
- `ConfigLoader.MergeConfig`: a threshold is modelled as an integer, and fields of the wrong JSON type are not modelled.
- Reporters, the CLI, the API wrapper, `test/agent.ts` and the fixtures are not part of this model. The same holds for the `dist/` copies of files whose `src/` version is modelled, apart from `dist/engine.js`, `dist/rules/index.js` and the four compiled rules that differ from their sources. The other 78 compiled rules are taken to run their source checks.
- `AiAnalyst.LlmOutcome`: which JSON shapes of a reply make the reads after the `try` throw (a `null` reply or array entry, a non-string `ruleId`) is folded into one `Unreadable` outcome, decided by the caller-supplied reply.
