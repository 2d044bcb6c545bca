/**
 * The four rules whose compiled copies under `dist/` differ from their
 * TypeScript sources. The compiled engine runs these bodies; every other
 * compiled rule does what its source does. Each contract is stated in the
 * rule's own tests, and a lemma beside it says how it differs from the
 * source rule.
 */
module CompiledRules {
  import opened Strings
  import opened Regexes
  import opened Types
  import opened Shapes
  import opened RuleShapes
  import SecurityRules
  import ComplianceRules
  import DeploymentRules

  // ---------------------------------------------------------------------
  // SEC-003: every destructive line of every file, one pattern pair

  const SEC003 := Finding("SEC-003", Error, Security, "Destructive tool without confirmation",
    "Add a confirmation or approval step before executing destructive operations.")
  const Sec003Destructive := Regex(@"\b(delete|remove|send|publish)\b", "i")
  const Sec003Safe := Regex(@"\b(confirm|approval|approve)\b", "i")

  /** Each line that names a destructive verb and no confirmation word is reported, in every file. */
  function Sec003(ctx: Context): (ds: seq<Diagnostic>)
    ensures forall d :: d in ds <==>
      exists i, k :: 0 <= i < |ctx.files| && 0 <= k < |Lines(ctx.files[i].content)|
        && Test(ctx.engine, Sec003Destructive, Lines(ctx.files[i].content)[k])
        && !Test(ctx.engine, Sec003Safe, Lines(ctx.files[i].content)[k])
        && d == SEC003.AtLine(ctx.files[i].path, k + 1)
  {
    PerLineMembers(ctx.files, AllPaths, LineMatchingNot(ctx.engine, Sec003Destructive, Sec003Safe), SEC003);
    PerLine(ctx.files, AllPaths, LineMatchingNot(ctx.engine, Sec003Destructive, Sec003Safe), SEC003)
  }

  /**
   * The compiled rule scans documentation too: a flagged line of a `.md`,
   * `.txt` or YAML file is reported by it, while the source rule never
   * reports on such a path.
   */
  lemma Sec003ScansSkippedPaths(ctx: Context, i: nat, k: nat)
    requires i < |ctx.files| && SecurityRules.Sec003Skipped(ctx.files[i].path)
    requires k < |Lines(ctx.files[i].content)|
    requires Test(ctx.engine, Sec003Destructive, Lines(ctx.files[i].content)[k])
    requires !Test(ctx.engine, Sec003Safe, Lines(ctx.files[i].content)[k])
    ensures SEC003.AtLine(ctx.files[i].path, k + 1) in Sec003(ctx)
    ensures forall d :: d in SecurityRules.Sec003(ctx) ==> d.file != Some(ctx.files[i].path)
  {
    forall d | d in SecurityRules.Sec003(ctx)
      ensures d.file != Some(ctx.files[i].path)
    {
      var j, m :| 0 <= j < |ctx.files| && SecurityRules.Sec003Candidate(ctx.engine, ctx.files[j])
        && SecurityRules.FirstDestructiveLine(ctx.engine, ctx.files[j].content, m)
        && d == SecurityRules.SEC003.AtLine(ctx.files[j].path, m + 1);
      assert !SecurityRules.Sec003Skipped(ctx.files[j].path);
    }
  }

  // ---------------------------------------------------------------------
  // CMP-002: retention logic in some content; no policy-path test

  /** One project-level warning exactly when no content shows retention logic. */
  function Cmp002(ctx: Context): (ds: seq<Diagnostic>)
    ensures ds == [] <==> exists i :: 0 <= i < |ctx.files| && Test(ctx.engine, ComplianceRules.Cmp002Retention, ctx.files[i].content)
    ensures ds != [] ==> ds == [ComplianceRules.CMP002.Report()]
    ensures ds == [] ==> ComplianceRules.Cmp002(ctx) == []
  {
    AbsenceFinding(ctx, ComplianceRules.Cmp002Retention, ComplianceRules.CMP002)
  }

  /** A policy file alone silences the source rule but not the compiled one. */
  lemma Cmp002PolicyPathOnlyInSource(ctx: Context, i: nat)
    requires i < |ctx.files| && ComplianceRules.IsPolicyPath(ctx.files[i].path)
    requires forall j :: 0 <= j < |ctx.files| ==> !Test(ctx.engine, ComplianceRules.Cmp002Retention, ctx.files[j].content)
    ensures ComplianceRules.Cmp002(ctx) == []
    ensures Cmp002(ctx) == [ComplianceRules.CMP002.Report()]
  {
  }

  // ---------------------------------------------------------------------
  // CMP-007: a model-card or README path whose content or path names a model card

  const Cmp007CardPath := Regex(@"model.card|MODEL_CARD", "i")
  const Cmp007ModelCard := Regex(@"model.card|MODEL.CARD|model-card", "i")

  /** The key's path passes the gate, and its stored content or the path itself names a model card. */
  predicate ModelCardFile(e: Engine, files: Corpus, i: int) {
    0 <= i < |files|
    && (Test(e, Cmp007CardPath, files[i].path) || ComplianceRules.IsReadmePath(files[i].path))
    && (Test(e, Cmp007ModelCard, ComplianceRules.StoredContent(files, files[i].path))
        || Test(e, Cmp007ModelCard, files[i].path))
  }

  /** One project-level warning exactly when no key is a model-card file. */
  function Cmp007(ctx: Context): (ds: seq<Diagnostic>)
    ensures ds == [] <==> exists i :: 0 <= i < |ctx.files| && ModelCardFile(ctx.engine, ctx.files, i)
    ensures ds != [] ==> ds == [ComplianceRules.CMP007.Report()]
  {
    if exists i :: 0 <= i < |ctx.files| && ModelCardFile(ctx.engine, ctx.files, i) then [] else [ComplianceRules.CMP007.Report()]
  }

  /** With distinct keys, the content tested is the key's own content. */
  lemma Cmp007DistinctKeys(ctx: Context)
    requires forall j, k :: 0 <= j < k < |ctx.files| ==> ctx.files[j].path != ctx.files[k].path
    ensures Cmp007(ctx) == [] <==>
      exists i :: 0 <= i < |ctx.files|
        && (Test(ctx.engine, Cmp007CardPath, ctx.files[i].path) || ComplianceRules.IsReadmePath(ctx.files[i].path))
        && (Test(ctx.engine, Cmp007ModelCard, ctx.files[i].content) || Test(ctx.engine, Cmp007ModelCard, ctx.files[i].path))
  {
    forall i | 0 <= i < |ctx.files|
      ensures ModelCardFile(ctx.engine, ctx.files, i) <==>
        (Test(ctx.engine, Cmp007CardPath, ctx.files[i].path) || ComplianceRules.IsReadmePath(ctx.files[i].path))
        && (Test(ctx.engine, Cmp007ModelCard, ctx.files[i].content) || Test(ctx.engine, Cmp007ModelCard, ctx.files[i].path))
    {
      ComplianceRules.StoredContentOfKey(ctx.files, i);
    }
  }

  // ---------------------------------------------------------------------
  // DEP-002: five substring tests on the keys

  predicate IsCiPath(f: string) {
    Contains(f, ".github/workflows")
    || Contains(f, ".gitlab-ci.yml")
    || Contains(f, "Jenkinsfile")
    || Contains(f, ".circleci")
    || Contains(f, "azure-pipelines")
  }

  const CiFile: SourceFile -> bool := (file: SourceFile) => IsCiPath(file.path)

  /**
   * One project-level warning exactly when no key passes the five tests;
   * the source rule accepts every such key, so the compiled rule is silent
   * only when the source rule is.
   */
  function Dep002(ctx: Context): (ds: seq<Diagnostic>)
    ensures ds == [] <==> exists i :: 0 <= i < |ctx.files| && IsCiPath(ctx.files[i].path)
    ensures ds != [] ==> ds == [DeploymentRules.DEP002.Report()]
    ensures ds == [] ==> DeploymentRules.Dep002(ctx) == []
  {
    Presence(ctx.files, CiFile, DeploymentRules.DEP002)
  }

  /** The source's two YAML tests have no compiled counterpart. */
  lemma Dep002YamlOnlyInSource(ctx: Context, i: nat)
    requires i < |ctx.files|
    requires EndsWith(ctx.files[i].path, ".yml") && Contains(ctx.files[i].path, "workflow")
    requires forall j :: 0 <= j < |ctx.files| ==> !IsCiPath(ctx.files[j].path)
    ensures DeploymentRules.Dep002(ctx) == []
    ensures Dep002(ctx) == [DeploymentRules.DEP002.Report()]
  {
  }
}
