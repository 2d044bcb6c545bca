/**
 * The shapes almost every rule has. Each shape is a specification function
 * over the corpus, and a method with the loop the rules use, proved to
 * compute it:
 *   - Presence:  one project-level finding when no file has a trait;
 *   - Aggregate: one project-level finding when some file has a trigger and
 *                no file has the mitigation;
 *   - PerFile:   one finding per file that has the trigger and lacks the
 *                mitigation;
 *   - PerLine:   one finding per line (of the files in scope) that satisfies
 *                a line test;
 *   - FirstFlagged: one finding for the first flagged file, if any.
 * The traits are given as functions of a file or a line, so each rule
 * instantiates a shape with its own regex tests.
 */
module Shapes {
  import opened Strings
  import opened Types

  // ---------------------------------------------------------------------
  // Presence

  function Presence(files: Corpus, hit: SourceFile -> bool, f: Finding): seq<Diagnostic> {
    if exists i :: 0 <= i < |files| && hit(files[i]) then [] else [f.Report()]
  }

  /** The `found` flag set in a loop with `break`. */
  method ScanPresence(files: Corpus, hit: SourceFile -> bool, f: Finding) returns (ds: seq<Diagnostic>)
    ensures ds == Presence(files, hit, f)
  {
    var found := false;
    var i := 0;
    while i < |files|
      invariant 0 <= i <= |files|
      invariant !found
      invariant forall j :: 0 <= j < i ==> !hit(files[j])
    {
      if hit(files[i]) {
        found := true;
        break;
      }
      i := i + 1;
    }
    if !found {
      ds := [f.Report()];
    } else {
      ds := [];
    }
  }

  /** A corpus that holds every file of another can only remove a presence finding. */
  lemma PresenceMonotone(small: Corpus, large: Corpus, hit: SourceFile -> bool, f: Finding)
    requires forall x :: x in small ==> x in large
    requires Presence(small, hit, f) == []
    ensures Presence(large, hit, f) == []
  {
    var i :| 0 <= i < |small| && hit(small[i]);
    assert small[i] in large;
    var j :| 0 <= j < |large| && large[j] == small[i];
  }

  /** Files without the trait, appended anywhere after the corpus, do not change a presence finding. */
  lemma PresenceIgnores(files: Corpus, extra: Corpus, hit: SourceFile -> bool, f: Finding)
    requires forall j :: 0 <= j < |extra| ==> !hit(extra[j])
    ensures Presence(files + extra, hit, f) == Presence(files, hit, f)
  {
    var all := files + extra;
    if exists i :: 0 <= i < |files| && hit(files[i]) {
      var i :| 0 <= i < |files| && hit(files[i]);
      assert all[i] == files[i];
    }
    if exists i :: 0 <= i < |all| && hit(all[i]) {
      var i :| 0 <= i < |all| && hit(all[i]);
      if i < |files| {
        assert all[i] == files[i];
      }
    }
  }

  // ---------------------------------------------------------------------
  // Aggregate

  function Aggregate(files: Corpus, trigger: SourceFile -> bool, mitigation: SourceFile -> bool, f: Finding): seq<Diagnostic> {
    if (exists i :: 0 <= i < |files| && trigger(files[i])) && !(exists i :: 0 <= i < |files| && mitigation(files[i]))
    then [f.Report()]
    else []
  }

  /** Two flags set in a loop over all files, without `break`. */
  method ScanAggregate(files: Corpus, trigger: SourceFile -> bool, mitigation: SourceFile -> bool, f: Finding)
    returns (ds: seq<Diagnostic>)
    ensures ds == Aggregate(files, trigger, mitigation, f)
  {
    var hasTrigger := false;
    var hasMitigation := false;
    var i := 0;
    while i < |files|
      invariant 0 <= i <= |files|
      invariant hasTrigger <==> exists j :: 0 <= j < i && trigger(files[j])
      invariant hasMitigation <==> exists j :: 0 <= j < i && mitigation(files[j])
    {
      if trigger(files[i]) {
        hasTrigger := true;
      }
      if mitigation(files[i]) {
        hasMitigation := true;
      }
      i := i + 1;
    }
    if hasTrigger && !hasMitigation {
      ds := [f.Report()];
    } else {
      ds := [];
    }
  }

  /** An aggregate finding depends only on which files are present, not on their order. */
  lemma AggregateOrderFree(a: Corpus, b: Corpus, trigger: SourceFile -> bool, mitigation: SourceFile -> bool, f: Finding)
    requires forall x :: x in a <==> x in b
    ensures Aggregate(a, trigger, mitigation, f) == Aggregate(b, trigger, mitigation, f)
  {
    SameFilesSameAny(a, b, trigger);
    SameFilesSameAny(a, b, mitigation);
  }

  lemma SameFilesSameAny(a: Corpus, b: Corpus, p: SourceFile -> bool)
    requires forall x :: x in a <==> x in b
    ensures (exists i :: 0 <= i < |a| && p(a[i])) <==> (exists i :: 0 <= i < |b| && p(b[i]))
  {
    if exists i :: 0 <= i < |a| && p(a[i]) {
      var i :| 0 <= i < |a| && p(a[i]);
      assert a[i] in b;
      var j :| 0 <= j < |b| && b[j] == a[i];
    }
    if exists i :: 0 <= i < |b| && p(b[i]) {
      var i :| 0 <= i < |b| && p(b[i]);
      assert b[i] in a;
      var j :| 0 <= j < |a| && a[j] == b[i];
    }
  }

  // ---------------------------------------------------------------------
  // PerFile

  function PerFile(files: Corpus, flag: SourceFile -> bool, f: Finding): (ds: seq<Diagnostic>)
    ensures |ds| <= |files|
  {
    if |files| == 0 then []
    else (if flag(files[0]) then [f.At(files[0].path)] else []) + PerFile(files[1..], flag, f)
  }

  /** Exactly the flagged files are reported, each at its own path. */
  lemma {:induction false} PerFileMembers(files: Corpus, flag: SourceFile -> bool, f: Finding)
    ensures forall d :: d in PerFile(files, flag, f) <==>
      exists i :: 0 <= i < |files| && flag(files[i]) && d == f.At(files[i].path)
  {
    if |files| > 0 {
      PerFileMembers(files[1..], flag, f);
      forall d
        ensures d in PerFile(files, flag, f) <==>
          exists i :: 0 <= i < |files| && flag(files[i]) && d == f.At(files[i].path)
      {
        if d in PerFile(files[1..], flag, f) {
          var i :| 0 <= i < |files[1..]| && flag(files[1..][i]) && d == f.At(files[1..][i].path);
          assert files[i + 1] == files[1..][i];
        }
        if exists i :: 1 <= i < |files| && flag(files[i]) && d == f.At(files[i].path) {
          var i :| 1 <= i < |files| && flag(files[i]) && d == f.At(files[i].path);
          assert files[1..][i - 1] == files[i];
        }
      }
    }
  }

  /** A file's finding depends only on that file: the result over a concatenation is the concatenation of the results. */
  lemma {:induction false} PerFileAppend(a: Corpus, b: Corpus, flag: SourceFile -> bool, f: Finding)
    ensures PerFile(a + b, flag, f) == PerFile(a, flag, f) + PerFile(b, flag, f)
  {
    if |a| == 0 {
      assert a + b == b;
    } else {
      assert (a + b)[1..] == a[1..] + b;
      PerFileAppend(a[1..], b, flag, f);
    }
  }

  /** The loop over files pushing one diagnostic per flagged file. */
  method ScanPerFile(files: Corpus, flag: SourceFile -> bool, f: Finding) returns (ds: seq<Diagnostic>)
    ensures ds == PerFile(files, flag, f)
  {
    ds := [];
    var i := 0;
    while i < |files|
      invariant 0 <= i <= |files|
      invariant ds == PerFile(files[..i], flag, f)
    {
      if flag(files[i]) {
        ds := ds + [f.At(files[i].path)];
      }
      PerFileAppend(files[..i], [files[i]], flag, f);
      assert files[..i + 1] == files[..i] + [files[i]];
      i := i + 1;
    }
    assert files[..i] == files;
  }

  // ---------------------------------------------------------------------
  // PerLine

  /** `content.split("\n")`. */
  function Lines(content: string): (lines: seq<string>)
    ensures |lines| == 1 + Count(content, '\n')
  {
    SplitLength(content, '\n');
    Split(content, '\n')
  }

  /** The diagnostics for `lines`, the first of which is line `from + 1` of `path`. */
  function LineHits(lines: seq<string>, from: nat, path: string, flag: string -> bool, f: Finding): (ds: seq<Diagnostic>)
    ensures |ds| <= |lines|
    ensures forall j :: 0 <= j < |ds| ==> ds[j].file == Some(path) && ds[j].line.Some? && from < ds[j].line.value <= from + |lines|
  {
    if |lines| == 0 then []
    else (if flag(lines[0]) then [f.AtLine(path, from + 1)] else []) + LineHits(lines[1..], from + 1, path, flag, f)
  }

  /** Exactly the lines satisfying `flag` are reported, each with its own 1-based number. */
  lemma {:induction false} LineHitsMembers(lines: seq<string>, from: nat, path: string, flag: string -> bool, f: Finding)
    ensures forall d :: d in LineHits(lines, from, path, flag, f) <==>
      exists k :: 0 <= k < |lines| && flag(lines[k]) && d == f.AtLine(path, from + k + 1)
  {
    if |lines| > 0 {
      LineHitsMembers(lines[1..], from + 1, path, flag, f);
      forall d
        ensures d in LineHits(lines, from, path, flag, f) <==>
          exists k :: 0 <= k < |lines| && flag(lines[k]) && d == f.AtLine(path, from + k + 1)
      {
        if d in LineHits(lines[1..], from + 1, path, flag, f) {
          var k :| 0 <= k < |lines[1..]| && flag(lines[1..][k]) && d == f.AtLine(path, from + 1 + k + 1);
          assert lines[k + 1] == lines[1..][k];
        }
        if exists k :: 1 <= k < |lines| && flag(lines[k]) && d == f.AtLine(path, from + k + 1) {
          var k :| 1 <= k < |lines| && flag(lines[k]) && d == f.AtLine(path, from + k + 1);
          assert lines[1..][k - 1] == lines[k];
        }
      }
    }
  }

  /** Every diagnostic has a line, and line numbers strictly increase along `ds`. */
  predicate AscendingLines(ds: seq<Diagnostic>) {
    forall a, b :: 0 <= a < b < |ds| ==> ds[a].line.Some? && ds[b].line.Some? && ds[a].line.value < ds[b].line.value
  }

  /** Line numbers strictly increase along the result. */
  lemma {:induction false} LineHitsAscending(lines: seq<string>, from: nat, path: string, flag: string -> bool, f: Finding)
    ensures AscendingLines(LineHits(lines, from, path, flag, f))
  {
    if |lines| > 0 {
      LineHitsAscending(lines[1..], from + 1, path, flag, f);
      var rest := LineHits(lines[1..], from + 1, path, flag, f);
      if flag(lines[0]) {
        var ds := LineHits(lines, from, path, flag, f);
        assert ds == [f.AtLine(path, from + 1)] + rest;
        forall a, b | 0 <= a < b < |ds|
          ensures ds[a].line.Some? && ds[b].line.Some? && ds[a].line.value < ds[b].line.value
        {
          assert ds[b] == rest[b - 1];
          if a > 0 {
            assert ds[a] == rest[a - 1];
            assert rest[a - 1].line.value < rest[b - 1].line.value;
          } else {
            assert ds[a].line.value == from + 1;
            assert rest[b - 1].line.value > from + 1;
          }
        }
      }
    }
  }

  lemma {:induction false} LineHitsAppend(a: seq<string>, b: seq<string>, from: nat, path: string, flag: string -> bool, f: Finding)
    ensures LineHits(a + b, from, path, flag, f) == LineHits(a, from, path, flag, f) + LineHits(b, from + |a|, path, flag, f)
  {
    if |a| == 0 {
      assert a + b == b;
    } else {
      assert (a + b)[1..] == a[1..] + b;
      LineHitsAppend(a[1..], b, from + 1, path, flag, f);
    }
  }

  /** The diagnostics of every line of `file` that satisfies `flag`, in ascending line order. */
  function FileLineHits(file: SourceFile, flag: string -> bool, f: Finding): seq<Diagnostic> {
    LineHits(Lines(file.content), 0, file.path, flag, f)
  }

  function PerLine(files: Corpus, scope: string -> bool, flag: string -> bool, f: Finding): (ds: seq<Diagnostic>)
    ensures forall j :: 0 <= j < |ds| ==> ds[j].file.Some? && ds[j].line.Some? && ds[j].line.value >= 1
  {
    if |files| == 0 then []
    else (if scope(files[0].path) then FileLineHits(files[0], flag, f) else []) + PerLine(files[1..], scope, flag, f)
  }

  /** Exactly the flagged lines of the files in scope are reported. */
  lemma {:induction false} PerLineMembers(files: Corpus, scope: string -> bool, flag: string -> bool, f: Finding)
    ensures forall d :: d in PerLine(files, scope, flag, f) <==>
      exists i, k :: 0 <= i < |files| && scope(files[i].path) && 0 <= k < |Lines(files[i].content)|
        && flag(Lines(files[i].content)[k]) && d == f.AtLine(files[i].path, k + 1)
  {
    if |files| > 0 {
      PerLineMembers(files[1..], scope, flag, f);
      LineHitsMembers(Lines(files[0].content), 0, files[0].path, flag, f);
      forall d
        ensures d in PerLine(files, scope, flag, f) <==>
          exists i, k :: 0 <= i < |files| && scope(files[i].path) && 0 <= k < |Lines(files[i].content)|
            && flag(Lines(files[i].content)[k]) && d == f.AtLine(files[i].path, k + 1)
      {
        if d in PerLine(files[1..], scope, flag, f) {
          var i, k :| 0 <= i < |files[1..]| && scope(files[1..][i].path) && 0 <= k < |Lines(files[1..][i].content)|
            && flag(Lines(files[1..][i].content)[k]) && d == f.AtLine(files[1..][i].path, k + 1);
          assert files[i + 1] == files[1..][i];
        }
        if exists i, k :: 1 <= i < |files| && scope(files[i].path) && 0 <= k < |Lines(files[i].content)|
            && flag(Lines(files[i].content)[k]) && d == f.AtLine(files[i].path, k + 1) {
          var i, k :| 1 <= i < |files| && scope(files[i].path) && 0 <= k < |Lines(files[i].content)|
            && flag(Lines(files[i].content)[k]) && d == f.AtLine(files[i].path, k + 1);
          assert files[1..][i - 1] == files[i];
        }
      }
    }
  }

  /** Per-line findings are local to each file and keep corpus order. */
  lemma {:induction false} PerLineAppend(a: Corpus, b: Corpus, scope: string -> bool, flag: string -> bool, f: Finding)
    ensures PerLine(a + b, scope, flag, f) == PerLine(a, scope, flag, f) + PerLine(b, scope, flag, f)
  {
    if |a| == 0 {
      assert a + b == b;
    } else {
      assert (a + b)[1..] == a[1..] + b;
      PerLineAppend(a[1..], b, scope, flag, f);
    }
  }

  /** The `forEach` over the lines of one file. */
  method ScanLines(file: SourceFile, flag: string -> bool, f: Finding) returns (hits: seq<Diagnostic>)
    ensures hits == FileLineHits(file, flag, f)
  {
    var lines := Lines(file.content);
    hits := [];
    var k := 0;
    while k < |lines|
      invariant 0 <= k <= |lines|
      invariant hits == LineHits(lines[..k], 0, file.path, flag, f)
    {
      if flag(lines[k]) {
        hits := hits + [f.AtLine(file.path, k + 1)];
      }
      LineHitsAppend(lines[..k], [lines[k]], 0, file.path, flag, f);
      assert lines[..k + 1] == lines[..k] + [lines[k]];
      k := k + 1;
    }
    assert lines[..k] == lines;
  }

  /** The file loop around the line loop, for the files in scope. */
  method ScanPerLine(files: Corpus, scope: string -> bool, flag: string -> bool, f: Finding) returns (ds: seq<Diagnostic>)
    ensures ds == PerLine(files, scope, flag, f)
  {
    ds := [];
    var i := 0;
    while i < |files|
      invariant 0 <= i <= |files|
      invariant ds == PerLine(files[..i], scope, flag, f)
    {
      var hits: seq<Diagnostic> := [];
      if scope(files[i].path) {
        hits := ScanLines(files[i], flag, f);
      }
      PerLineAppend(files[..i], [files[i]], scope, flag, f);
      assert files[..i + 1] == files[..i] + [files[i]];
      ds := ds + hits;
      i := i + 1;
    }
    assert files[..i] == files;
  }

  // ---------------------------------------------------------------------
  // FirstFlagged

  function FirstFlagged(files: Corpus, flag: SourceFile -> bool, f: Finding): (ds: seq<Diagnostic>)
    ensures |ds| <= 1
    ensures ds == [] <==> forall i :: 0 <= i < |files| ==> !flag(files[i])
    ensures ds != [] ==> exists i :: (0 <= i < |files| && flag(files[i]) && ds == [f.At(files[i].path)]
      && forall j :: 0 <= j < i ==> !flag(files[j]))
  {
    if |files| == 0 then []
    else if flag(files[0]) then [f.At(files[0].path)]
    else
      var rest := FirstFlagged(files[1..], flag, f);
      assert (forall i :: 1 <= i < |files| ==> !flag(files[i])) <==> (forall i :: 0 <= i < |files[1..]| ==> !flag(files[1..][i])) by {
        assert forall i :: 1 <= i < |files| ==> files[i] == files[1..][i - 1];
      }
      assert rest != [] ==> exists i :: (0 <= i < |files| && flag(files[i]) && rest == [f.At(files[i].path)]
        && forall j :: 0 <= j < i ==> !flag(files[j])) by {
        if rest != [] {
          var i :| 0 <= i < |files[1..]| && flag(files[1..][i]) && rest == [f.At(files[1..][i].path)]
            && forall j :: 0 <= j < i ==> !flag(files[1..][j]);
          assert files[i + 1] == files[1..][i];
          assert forall j :: 1 <= j < i + 1 ==> files[j] == files[1..][j - 1];
        }
      }
      rest
  }

  /** The file loop that returns at the first flagged file. */
  method ScanFirstFlagged(files: Corpus, flag: SourceFile -> bool, f: Finding) returns (ds: seq<Diagnostic>)
    ensures ds == FirstFlagged(files, flag, f)
  {
    var i := 0;
    while i < |files|
      invariant 0 <= i <= |files|
      invariant FirstFlagged(files, flag, f) == FirstFlagged(files[i..], flag, f)
    {
      if flag(files[i]) {
        return [f.At(files[i].path)];
      }
      assert files[i..][1..] == files[i + 1..];
      i := i + 1;
    }
    return [];
  }

  // ---------------------------------------------------------------------
  // EachFile: rules with their own per-file scan

  /** The concatenation, in corpus order, of what `hits` yields for each file. */
  function EachFile(files: Corpus, hits: SourceFile -> seq<Diagnostic>): seq<Diagnostic> {
    if |files| == 0 then [] else hits(files[0]) + EachFile(files[1..], hits)
  }

  /** A diagnostic is in the result iff some file yields it. */
  lemma {:induction false} EachFileMembers(files: Corpus, hits: SourceFile -> seq<Diagnostic>)
    ensures forall d :: d in EachFile(files, hits) <==> exists i :: 0 <= i < |files| && d in hits(files[i])
  {
    if |files| > 0 {
      EachFileMembers(files[1..], hits);
      forall d
        ensures d in EachFile(files, hits) <==> exists i :: 0 <= i < |files| && d in hits(files[i])
      {
        if d in EachFile(files[1..], hits) {
          var i :| 0 <= i < |files[1..]| && d in hits(files[1..][i]);
          assert files[i + 1] == files[1..][i];
        }
        if exists i :: 1 <= i < |files| && d in hits(files[i]) {
          var i :| 1 <= i < |files| && d in hits(files[i]);
          assert files[1..][i - 1] == files[i];
        }
      }
    }
  }

  /** When no file yields more than one diagnostic, there are at most as many diagnostics as files. */
  lemma {:induction false} EachFileAtMostOne(files: Corpus, hits: SourceFile -> seq<Diagnostic>)
    requires forall i :: 0 <= i < |files| ==> |hits(files[i])| <= 1
    ensures |EachFile(files, hits)| <= |files|
  {
    if |files| > 0 {
      EachFileAtMostOne(files[1..], hits);
    }
  }

  lemma {:induction false} EachFileAppend(a: Corpus, b: Corpus, hits: SourceFile -> seq<Diagnostic>)
    ensures EachFile(a + b, hits) == EachFile(a, hits) + EachFile(b, hits)
  {
    if |a| == 0 {
      assert a + b == b;
    } else {
      assert (a + b)[1..] == a[1..] + b;
      EachFileAppend(a[1..], b, hits);
    }
  }

  // ---------------------------------------------------------------------
  // FirstWhere: the first line that satisfies a test

  /** The index of the first of `lines[from..]` satisfying `p`. */
  function FirstWhere(lines: seq<string>, from: nat, p: string -> bool): (k: Option<nat>)
    requires from <= |lines|
    ensures k.Some? ==> from <= k.value < |lines| && p(lines[k.value])
    ensures k.Some? ==> forall j :: from <= j < k.value ==> !p(lines[j])
    ensures k.None? ==> forall j :: from <= j < |lines| ==> !p(lines[j])
    decreases |lines| - from
  {
    if from == |lines| then None
    else if p(lines[from]) then Some(from)
    else FirstWhere(lines, from + 1, p)
  }

  /** The first line satisfying `p` is the one FirstWhere finds. */
  lemma {:induction false} FirstWhereIs(lines: seq<string>, from: nat, p: string -> bool, k: nat)
    requires from <= k < |lines| && p(lines[k])
    requires forall j :: from <= j < k ==> !p(lines[j])
    ensures FirstWhere(lines, from, p) == Some(k)
  {
  }

  /** When no line of `lines[from..]` satisfies `p`, FirstWhere finds nothing. */
  lemma {:induction false} FirstWhereNone(lines: seq<string>, from: nat, p: string -> bool)
    requires from <= |lines|
    requires forall j :: from <= j < |lines| ==> !p(lines[j])
    ensures FirstWhere(lines, from, p) == None
  {
  }

  // ---------------------------------------------------------------------
  // Select: one report per accepted item, for rules that loop over matches

  /** `report(x)` for each `x` of `xs` that `keep` accepts, in order. */
  function Select<T>(xs: seq<T>, keep: T -> bool, report: T -> Diagnostic): (ds: seq<Diagnostic>)
    ensures |ds| <= |xs|
  {
    if |xs| == 0 then []
    else Select(xs[..|xs| - 1], keep, report) + (if keep(xs[|xs| - 1]) then [report(xs[|xs| - 1])] else [])
  }

  /** One more item adds its report exactly when it is accepted. */
  lemma SelectSnoc<T>(xs: seq<T>, j: nat, keep: T -> bool, report: T -> Diagnostic)
    requires j < |xs|
    ensures Select(xs[..j + 1], keep, report) == Select(xs[..j], keep, report) + (if keep(xs[j]) then [report(xs[j])] else [])
  {
    assert xs[..j + 1][..j] == xs[..j];
  }

  /** Exactly the reports of accepted items are selected. */
  lemma {:induction false} SelectMembers<T>(xs: seq<T>, keep: T -> bool, report: T -> Diagnostic)
    ensures forall d :: d in Select(xs, keep, report) <==> exists k :: 0 <= k < |xs| && keep(xs[k]) && d == report(xs[k])
  {
    if |xs| > 0 {
      var init := xs[..|xs| - 1];
      SelectMembers(init, keep, report);
      forall d
        ensures d in Select(xs, keep, report) <==> exists k :: 0 <= k < |xs| && keep(xs[k]) && d == report(xs[k])
      {
        if d in Select(init, keep, report) {
          var k :| 0 <= k < |init| && keep(init[k]) && d == report(init[k]);
          assert xs[k] == init[k];
        }
        if exists k :: 0 <= k < |xs| - 1 && keep(xs[k]) && d == report(xs[k]) {
          var k :| 0 <= k < |xs| - 1 && keep(xs[k]) && d == report(xs[k]);
          assert init[k] == xs[k];
        }
      }
    }
  }
}
