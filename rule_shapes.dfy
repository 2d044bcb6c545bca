/**
 * The four common rule shapes instantiated with regex tests on file
 * contents, each with its contract stated directly in terms of `Test`,
 * plus the laws that hold for every rule of that shape.
 */
module RuleShapes {
  import opened Strings
  import opened Regexes
  import opened Types
  import opened Shapes

  function Matching(e: Engine, pattern: Regex): SourceFile -> bool {
    (file: SourceFile) => Test(e, pattern, file.content)
  }

  function Unmitigated(e: Engine, trigger: Regex, mitigation: Regex): SourceFile -> bool {
    (file: SourceFile) => Test(e, trigger, file.content) && !Test(e, mitigation, file.content)
  }

  /** Line tests of the per-line rules. */
  function LineMatching(e: Engine, pattern: Regex): string -> bool {
    (line: string) => Test(e, pattern, line)
  }

  function LineMatchingBoth(e: Engine, a: Regex, b: Regex): string -> bool {
    (line: string) => Test(e, a, line) && Test(e, b, line)
  }

  function LineMatchingNot(e: Engine, a: Regex, b: Regex): string -> bool {
    (line: string) => Test(e, a, line) && !Test(e, b, line)
  }

  const AllPaths: string -> bool := (path: string) => true

  /** `file.endsWith(".yaml") || file.endsWith(".yml")`. */
  predicate IsYamlPath(path: string) {
    EndsWith(path, ".yaml") || EndsWith(path, ".yml")
  }

  // ---------------------------------------------------------------------
  // Per-file: `if (!trigger.test(content)) continue; if (!mitigation.test(content)) push`

  function FileFindings(ctx: Context, trigger: Regex, mitigation: Regex, f: Finding): (ds: seq<Diagnostic>)
    ensures |ds| <= |ctx.files|
    ensures forall d :: d in ds <==>
      exists i :: 0 <= i < |ctx.files| && Test(ctx.engine, trigger, ctx.files[i].content)
        && !Test(ctx.engine, mitigation, ctx.files[i].content) && d == f.At(ctx.files[i].path)
  {
    PerFileMembers(ctx.files, Unmitigated(ctx.engine, trigger, mitigation), f);
    PerFile(ctx.files, Unmitigated(ctx.engine, trigger, mitigation), f)
  }

  /** A file's finding depends only on that file, and the output follows corpus order. */
  lemma FileFindingsLocal(ctx: Context, a: Corpus, b: Corpus, trigger: Regex, mitigation: Regex, f: Finding)
    ensures FileFindings(ctx.(files := a + b), trigger, mitigation, f)
      == FileFindings(ctx.(files := a), trigger, mitigation, f) + FileFindings(ctx.(files := b), trigger, mitigation, f)
  {
    PerFileAppend(a, b, Unmitigated(ctx.engine, trigger, mitigation), f);
  }

  // ---------------------------------------------------------------------
  // Presence: `found = true; break` on the first matching content

  function AbsenceFinding(ctx: Context, pattern: Regex, f: Finding): (ds: seq<Diagnostic>)
    ensures ds == [] <==> exists i :: 0 <= i < |ctx.files| && Test(ctx.engine, pattern, ctx.files[i].content)
    ensures ds != [] ==> ds == [f.Report()]
  {
    Presence(ctx.files, Matching(ctx.engine, pattern), f)
  }

  /** Adding files can only remove an absence finding. */
  lemma AbsenceMonotone(ctx: Context, extra: Corpus, pattern: Regex, f: Finding)
    requires AbsenceFinding(ctx, pattern, f) == []
    ensures AbsenceFinding(ctx.(files := ctx.files + extra), pattern, f) == []
    ensures AbsenceFinding(ctx.(files := extra + ctx.files), pattern, f) == []
  {
    var i :| 0 <= i < |ctx.files| && Test(ctx.engine, pattern, ctx.files[i].content);
    assert (ctx.files + extra)[i] == ctx.files[i];
    assert (extra + ctx.files)[|extra| + i] == ctx.files[i];
  }

  // ---------------------------------------------------------------------
  // Aggregate: two flags over all contents

  function AggregateFinding(ctx: Context, trigger: Regex, mitigation: Regex, f: Finding): (ds: seq<Diagnostic>)
    ensures ds != [] <==>
      (exists i :: 0 <= i < |ctx.files| && Test(ctx.engine, trigger, ctx.files[i].content))
      && !(exists i :: 0 <= i < |ctx.files| && Test(ctx.engine, mitigation, ctx.files[i].content))
    ensures ds != [] ==> ds == [f.Report()]
  {
    Aggregate(ctx.files, Matching(ctx.engine, trigger), Matching(ctx.engine, mitigation), f)
  }

  /** The finding depends only on which files are present, not on their order or repetition. */
  lemma AggregateFindingOrderFree(ctx: Context, files: Corpus, trigger: Regex, mitigation: Regex, f: Finding)
    requires forall x :: x in ctx.files <==> x in files
    ensures AggregateFinding(ctx.(files := files), trigger, mitigation, f) == AggregateFinding(ctx, trigger, mitigation, f)
  {
    AggregateOrderFree(ctx.files, files, Matching(ctx.engine, trigger), Matching(ctx.engine, mitigation), f);
  }

  // ---------------------------------------------------------------------
  // First flagged file: `return [{ file, ... }]` inside the loop

  function FirstFileFinding(ctx: Context, trigger: Regex, mitigation: Regex, f: Finding): (ds: seq<Diagnostic>)
    ensures |ds| <= 1
    ensures ds == [] <==>
      forall i :: 0 <= i < |ctx.files| && Test(ctx.engine, trigger, ctx.files[i].content)
        ==> Test(ctx.engine, mitigation, ctx.files[i].content)
    ensures ds != [] ==>
      exists i :: 0 <= i < |ctx.files| && Test(ctx.engine, trigger, ctx.files[i].content)
        && !Test(ctx.engine, mitigation, ctx.files[i].content) && ds == [f.At(ctx.files[i].path)]
        && forall j :: 0 <= j < i ==> !Test(ctx.engine, trigger, ctx.files[j].content) || Test(ctx.engine, mitigation, ctx.files[j].content)
  {
    FirstFlagged(ctx.files, Unmitigated(ctx.engine, trigger, mitigation), f)
  }
}
