/**
 * The health score: six weighted categories, each losing points for the
 * diagnostics of that category (and reliability for dead tools too),
 * summed to a 0..100 total with a label.
 */
module Scorer {
  import opened Strings
  import opened Types
  import opened Seqs
  import opened AiAnalyst
  import Protection

  const ERROR_PENALTY: nat := 8
  const WARN_PENALTY: nat := 3
  const DEAD_TOOL_PENALTY: nat := 2

  /** `WEIGHTS`. */
  function Weight(c: Category): nat {
    match c
    case Security => 25
    case Reliability => 20
    case Config => 20
    case Deployment => 15
    case Observability => 10
    case Compliance => 10
  }

  /** `Object.keys(WEIGHTS)`, in the order the weights are declared. */
  const CATEGORIES: seq<Category> := [Security, Reliability, Category.Config, Deployment, Observability, Compliance]

  datatype DimensionScore = DimensionScore(score: int, max: int)

  /** The result record; `files` is the optional file count. */
  datatype DiagnoseResult = DiagnoseResult(
    score: int,
    scoreLabel: string,
    dimensions: map<Category, DimensionScore>,
    diagnostics: seq<Diagnostic>,
    files: Option<nat>,
    deadTools: seq<DeadTool>,
    projectInfo: ProjectInfo,
    durationMs: int,
    aiAnalysis: Option<AiAnalysis>)

  /** Every category is listed once, and the weights sum to 100. */
  lemma CategoriesComplete()
    ensures forall c: Category :: c in CATEGORIES
    ensures forall a, b :: 0 <= a < b < |CATEGORIES| ==> CATEGORIES[a] != CATEGORIES[b]
    ensures SumWeights(CATEGORIES) == 100
  {
    forall c: Category
      ensures c in CATEGORIES
    {
      match c
      case Security => assert CATEGORIES[0] == c;
      case Reliability => assert CATEGORIES[1] == c;
      case Config => assert CATEGORIES[2] == c;
      case Deployment => assert CATEGORIES[3] == c;
      case Observability => assert CATEGORIES[4] == c;
      case Compliance => assert CATEGORIES[5] == c;
    }
    var s5 := [Security, Reliability, Category.Config, Deployment, Observability];
    var s4 := [Security, Reliability, Category.Config, Deployment];
    var s3 := [Security, Reliability, Category.Config];
    assert CATEGORIES[..5] == s5 && s5[..4] == s4 && s4[..3] == s3;
    assert s3[..2] == [Security, Reliability] && [Security, Reliability][..1] == [Security];
    assert [Security][..0] == [];
  }

  function SumWeights(cats: seq<Category>): nat {
    if |cats| == 0 then 0 else SumWeights(cats[..|cats| - 1]) + Weight(cats[|cats| - 1])
  }

  /** `d => d.category === cat`. */
  function OfCategory(cat: Category): Diagnostic -> bool {
    (d: Diagnostic) => d.category == cat
  }

  /** What one diagnostic costs. */
  function Cost(d: Diagnostic): nat {
    if d.severity == Error then ERROR_PENALTY else WARN_PENALTY
  }

  /** The summed cost of a list of diagnostics. */
  function PenaltyOf(ds: seq<Diagnostic>): nat {
    if |ds| == 0 then 0 else PenaltyOf(ds[..|ds| - 1]) + Cost(ds[|ds| - 1])
  }

  /** The penalty is 8 per error plus 3 per warning. */
  lemma {:induction false} PenaltyCounts(ds: seq<Diagnostic>)
    ensures PenaltyOf(ds) == ERROR_PENALTY * |Filter(ds, IsError)| + WARN_PENALTY * |Filter(ds, IsWarn)|
  {
    if |ds| > 0 {
      PenaltyCounts(ds[..|ds| - 1]);
    }
  }

  /** Penalties add up over concatenation. */
  lemma {:induction false} PenaltyAppend(a: seq<Diagnostic>, b: seq<Diagnostic>)
    ensures PenaltyOf(a + b) == PenaltyOf(a) + PenaltyOf(b)
  {
    if |b| > 0 {
      PenaltyAppend(a, b[..|b| - 1]);
      assert (a + b)[..|a + b| - 1] == a + b[..|b| - 1];
    } else {
      assert a + b == a;
    }
  }

  /** Only an empty list costs nothing. */
  lemma {:induction false} PenaltyZero(ds: seq<Diagnostic>)
    ensures PenaltyOf(ds) == 0 <==> ds == []
  {
    if |ds| > 0 {
      PenaltyZero(ds[..|ds| - 1]);
    }
  }

  /** The penalty of a category: its diagnostics, plus 2 per dead tool for reliability. */
  function CategoryPenalty(ds: seq<Diagnostic>, deadCount: nat, cat: Category): nat {
    PenaltyOf(Filter(ds, OfCategory(cat))) + (if cat == Reliability then deadCount * DEAD_TOOL_PENALTY else 0)
  }

  /** `Math.max(0, weight - penalty)`: within 0..weight, and full exactly when nothing is charged. */
  function CategoryScore(ds: seq<Diagnostic>, deadCount: nat, cat: Category): (s: int)
    ensures 0 <= s <= Weight(cat)
    ensures s == Weight(cat) <==> CategoryPenalty(ds, deadCount, cat) == 0
  {
    var penalty := CategoryPenalty(ds, deadCount, cat);
    if Weight(cat) - penalty >= 0 then Weight(cat) - penalty else 0
  }

  /** The `dimensions` record. */
  function DimensionsOf(ds: seq<Diagnostic>, deadCount: nat): map<Category, DimensionScore> {
    map c | c in CATEGORIES :: DimensionScore(CategoryScore(ds, deadCount, c), Weight(c))
  }

  /** Every category has an entry whose `max` is its weight and whose score lies in 0..max. */
  lemma DimensionsShape(ds: seq<Diagnostic>, deadCount: nat)
    ensures forall c: Category :: c in DimensionsOf(ds, deadCount)
    ensures forall c: Category :: DimensionsOf(ds, deadCount)[c].max == Weight(c)
    ensures forall c: Category :: 0 <= DimensionsOf(ds, deadCount)[c].score <= DimensionsOf(ds, deadCount)[c].max
  {
    CategoriesComplete();
  }

  /** The summed scores of the given categories. */
  function SumScores(ds: seq<Diagnostic>, deadCount: nat, cats: seq<Category>): int {
    if |cats| == 0 then 0 else SumScores(ds, deadCount, cats[..|cats| - 1]) + CategoryScore(ds, deadCount, cats[|cats| - 1])
  }

  /** The total score: the weights sum to 100, so it lies in 0..100. */
  function TotalScore(ds: seq<Diagnostic>, deadCount: nat): (t: int)
    ensures 0 <= t <= 100
  {
    CategoriesComplete();
    SumScoresBounds(ds, deadCount, CATEGORIES);
    SumScores(ds, deadCount, CATEGORIES)
  }

  /** The label of a score. */
  function LabelOf(score: int): (l: string)
    ensures l == "Great" <==> score >= 75
    ensures l == "Needs work" <==> 50 <= score < 75
    ensures l == "Critical" <==> score < 50
  {
    if score >= 75 then "Great" else if score >= 50 then "Needs work" else "Critical"
  }

  /** A sum of scores lies between 0 and the sum of the weights, and reaches it only when every score is full. */
  lemma {:induction false} SumScoresBounds(ds: seq<Diagnostic>, deadCount: nat, cats: seq<Category>)
    ensures 0 <= SumScores(ds, deadCount, cats) <= SumWeights(cats)
    ensures SumScores(ds, deadCount, cats) == SumWeights(cats) <==>
      forall i :: 0 <= i < |cats| ==> CategoryScore(ds, deadCount, cats[i]) == Weight(cats[i])
  {
    if |cats| > 0 {
      var init := cats[..|cats| - 1];
      SumScoresBounds(ds, deadCount, init);
      assert forall i :: 0 <= i < |init| ==> init[i] == cats[i];
    }
  }

  /** A diagnostic or a dead tool leaves some category below its weight. */
  lemma ChargedCategory(ds: seq<Diagnostic>, deadCount: nat) returns (i: nat)
    requires ds != [] || deadCount > 0
    ensures i < |CATEGORIES| && CategoryScore(ds, deadCount, CATEGORIES[i]) < Weight(CATEGORIES[i])
  {
    CategoriesComplete();
    if ds != [] {
      var c := ds[0].category;
      assert ds[0] in Filter(ds, OfCategory(c));
      PenaltyZero(Filter(ds, OfCategory(c)));
      assert c in CATEGORIES;
      i :| 0 <= i < |CATEGORIES| && CATEGORIES[i] == c;
    } else {
      i := 1;
    }
  }

  /** The total is 100 exactly when there are no diagnostics and no dead tools. */
  lemma PerfectScore(ds: seq<Diagnostic>, deadCount: nat)
    ensures TotalScore(ds, deadCount) == 100 <==> ds == [] && deadCount == 0
    ensures TotalScore([], 0) == 100 && LabelOf(TotalScore([], 0)) == "Great"
  {
    CategoriesComplete();
    SumScoresBounds(ds, deadCount, CATEGORIES);
    SumScoresBounds([], 0, CATEGORIES);
    if ds != [] || deadCount > 0 {
      var i := ChargedCategory(ds, deadCount);
    }
  }

  /** Scores only fall when every category is charged at least as much. */
  lemma {:induction false} SumScoresAntitone(ds: seq<Diagnostic>, n: nat, more: seq<Diagnostic>, m: nat, cats: seq<Category>)
    requires forall c: Category :: CategoryPenalty(ds, n, c) <= CategoryPenalty(more, m, c)
    ensures SumScores(more, m, cats) <= SumScores(ds, n, cats)
  {
    if |cats| > 0 {
      SumScoresAntitone(ds, n, more, m, cats[..|cats| - 1]);
    }
  }

  /** Adding a diagnostic anywhere never raises a category score or the total. */
  lemma AddDiagnosticNeverRaises(before: seq<Diagnostic>, d: Diagnostic, after: seq<Diagnostic>, deadCount: nat)
    ensures forall c: Category :: CategoryScore(before + [d] + after, deadCount, c) <= CategoryScore(before + after, deadCount, c)
    ensures TotalScore(before + [d] + after, deadCount) <= TotalScore(before + after, deadCount)
  {
    forall c: Category
      ensures CategoryPenalty(before + after, deadCount, c) <= CategoryPenalty(before + [d] + after, deadCount, c)
    {
      var keep := OfCategory(c);
      FilterAppend(before, after, keep);
      FilterAppend(before + [d], after, keep);
      FilterAppend(before, [d], keep);
      PenaltyAppend(Filter(before, keep), Filter(after, keep));
      PenaltyAppend(Filter(before, keep), Filter([d], keep));
      PenaltyAppend(Filter(before, keep) + Filter([d], keep), Filter(after, keep));
    }
    SumScoresAntitone(before + after, deadCount, before + [d] + after, deadCount, CATEGORIES);
  }

  /** Adding a dead tool never raises a category score or the total. */
  lemma AddDeadToolNeverRaises(ds: seq<Diagnostic>, deadCount: nat)
    ensures forall c: Category :: CategoryScore(ds, deadCount + 1, c) <= CategoryScore(ds, deadCount, c)
    ensures TotalScore(ds, deadCount + 1) <= TotalScore(ds, deadCount)
  {
    SumScoresAntitone(ds, deadCount, ds, deadCount + 1, CATEGORIES);
  }

  /**
   * A category's score depends only on the diagnostics of that category, and
   * dead tools affect only reliability.
   */
  lemma {:induction false} CategoryIsolation(ds: seq<Diagnostic>, deadCount: nat, cat: Category)
    ensures CategoryScore(ds, deadCount, cat) == CategoryScore(Filter(ds, OfCategory(cat)), deadCount, cat)
    ensures cat != Reliability ==> CategoryScore(ds, deadCount, cat) == CategoryScore(ds, 0, cat)
  {
    var own := Filter(ds, OfCategory(cat));
    forall i | 0 <= i < |own|
      ensures OfCategory(cat)(own[i])
    {
      assert own[i] in own;
    }
    FilterKeepsAll(own, OfCategory(cat));
  }

  /** `Math.round` of an integer is that integer. */
  lemma RoundInteger(n: nat)
    ensures Protection.Round(n as real) == n
  {
  }

  /** The per-category penalty loop. */
  method SumPenalty(catDiagnostics: seq<Diagnostic>) returns (penalty: nat)
    ensures penalty == PenaltyOf(catDiagnostics)
  {
    penalty := 0;
    for k := 0 to |catDiagnostics|
      invariant penalty == PenaltyOf(catDiagnostics[..k])
    {
      assert catDiagnostics[..k + 1][..k] == catDiagnostics[..k];
      penalty := penalty + (if catDiagnostics[k].severity == Error then ERROR_PENALTY else WARN_PENALTY);
    }
    assert catDiagnostics[..|catDiagnostics|] == catDiagnostics;
  }

  /** The category loop: fills the `dimensions` record. */
  method FillDimensions(diagnostics: seq<Diagnostic>, deadCount: nat) returns (dimensions: map<Category, DimensionScore>)
    ensures dimensions == DimensionsOf(diagnostics, deadCount)
  {
    var categories := CATEGORIES;
    dimensions := map[];
    for i := 0 to |categories|
      invariant forall c :: c in dimensions <==> c in categories[..i]
      invariant forall c :: c in dimensions ==> dimensions[c] == DimensionScore(CategoryScore(diagnostics, deadCount, c), Weight(c))
    {
      var cat := categories[i];
      var weight := Weight(cat);
      var penalty := SumPenalty(Filter(diagnostics, OfCategory(cat)));
      if cat == Reliability {
        penalty := penalty + deadCount * DEAD_TOOL_PENALTY;
      }
      var score := if weight - penalty >= 0 then weight - penalty else 0;
      assert categories[..i + 1] == categories[..i] + [cat];
      dimensions := dimensions[cat := DimensionScore(score, weight)];
    }
    assert categories[..|categories|] == categories;
  }

  /** `calculateScore`. */
  method CalculateScore(
    diagnostics: seq<Diagnostic>,
    deadTools: seq<DeadTool>,
    projectInfo: ProjectInfo,
    durationMs: int,
    fileCount: Option<nat>,
    aiAnalysis: Option<AiAnalysis>)
    returns (r: DiagnoseResult)
    ensures r.dimensions == DimensionsOf(diagnostics, |deadTools|)
    ensures r.score == TotalScore(diagnostics, |deadTools|) && 0 <= r.score <= 100
    ensures r.scoreLabel == LabelOf(r.score)
    ensures r.diagnostics == diagnostics && r.deadTools == deadTools && r.projectInfo == projectInfo
    ensures r.files == fileCount && r.durationMs == durationMs && r.aiAnalysis == aiAnalysis
  {
    var categories := CATEGORIES;
    var dimensions := FillDimensions(diagnostics, |deadTools|);
    var totalScore := 0;
    for i := 0 to |categories|
      invariant totalScore == SumScores(diagnostics, |deadTools|, categories[..i])
    {
      assert categories[..i + 1][..i] == categories[..i];
      totalScore := totalScore + dimensions[categories[i]].score;
    }
    assert categories[..|categories|] == categories;
    assert totalScore == TotalScore(diagnostics, |deadTools|);
    var score := Protection.Round(totalScore as real);
    var scoreLabel;
    if score >= 75 {
      scoreLabel := "Great";
    } else if score >= 50 {
      scoreLabel := "Needs work";
    } else {
      scoreLabel := "Critical";
    }
    r := DiagnoseResult(score, scoreLabel, dimensions, diagnostics, fileCount, deadTools, projectInfo, durationMs, aiAnalysis);
  }
}
