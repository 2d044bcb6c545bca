/**
 * The call-graph builder of the dead-tool pass: the set of tool names that
 * some scanned source file invokes.
 */
module CallGraph {
  import opened Regexes
  import opened Types
  import opened ImportTracer

  /** `invoke("x")`, `run_tool("x")`, `call_tool("x")`, `tools: [... "x"]`, `tool_choice: "x"`, `await x(`. */
  const INVOCATION_PATTERNS: seq<Regex> := [
    Regex(@"\binvoke\s*\(\s*[""']([^""']+)[""']", "g"),
    Regex(@"\brun_tool\s*\(\s*[""']([^""']+)[""']", "g"),
    Regex(@"\bcall_tool\s*\(\s*[""']([^""']+)[""']", "g"),
    Regex(@"tools\s*[:=]\s*\[[^\]]*[""']([a-z_][a-z0-9_-]{2,40})[""']", "g"),
    Regex(@"\btool_choice\s*[:=]\s*[""']([^""']+)[""']", "g"),
    Regex(@"\bawait\s+([a-z_][a-z0-9_]{2,40})\s*\(", "g")
  ]

  /** A captured name is recorded when it has at least three characters. */
  predicate Invocable(name: string) {
    |name| >= 3
  }

  /** The names captured by the successive matches of one pattern. */
  function MatchNames(ms: seq<Match>): set<string> {
    if |ms| == 0 then {}
    else
      var name := Group(ms[|ms| - 1], 1);
      MatchNames(ms[..|ms| - 1]) + (if Invocable(name) then {name} else {})
  }

  /** A name is captured exactly when it is invocable and some match's first group is that name. */
  lemma {:induction false} MatchNamesMembers(ms: seq<Match>)
    ensures forall n :: n in MatchNames(ms) <==> Invocable(n) && exists k :: 0 <= k < |ms| && Group(ms[k], 1) == n
  {
    if |ms| > 0 {
      var init := ms[..|ms| - 1];
      MatchNamesMembers(init);
      assert forall k :: 0 <= k < |init| ==> init[k] == ms[k];
    }
  }

  /** Some pattern's matches in `content` capture `n`. */
  predicate CapturedBy(e: Engine, content: string, patterns: seq<Regex>, n: string) {
    exists p :: 0 <= p < |patterns| && n in MatchNames(e.exec(patterns[p], content))
  }

  /** The names one file invokes through the given patterns. */
  function PatternNames(e: Engine, content: string, patterns: seq<Regex>): set<string> {
    if |patterns| == 0 then {}
    else PatternNames(e, content, patterns[..|patterns| - 1]) + MatchNames(e.exec(patterns[|patterns| - 1], content))
  }

  /** A name is invoked by a file exactly when one of the patterns captures it there. */
  lemma {:induction false} PatternNamesMembers(e: Engine, content: string, patterns: seq<Regex>)
    ensures forall n :: n in PatternNames(e, content, patterns) <==> CapturedBy(e, content, patterns, n)
  {
    if |patterns| > 0 {
      var init := patterns[..|patterns| - 1];
      PatternNamesMembers(e, content, init);
      assert forall p :: 0 <= p < |init| ==> init[p] == patterns[p];
    }
  }

  /** The names one file invokes; files that are not scanned invoke nothing. */
  function FileNames(e: Engine, patterns: seq<Regex>, file: SourceFile): set<string> {
    if IsScannedPath(file.path) then PatternNames(e, file.content, patterns) else {}
  }

  /** Some file of the corpus invokes `n`. */
  predicate InvokedIn(e: Engine, patterns: seq<Regex>, files: Corpus, n: string) {
    exists i :: 0 <= i < |files| && n in FileNames(e, patterns, files[i])
  }

  /** The names the files invoke through the given patterns. */
  function Invoked(e: Engine, patterns: seq<Regex>, files: Corpus): set<string> {
    if |files| == 0 then {}
    else Invoked(e, patterns, files[..|files| - 1]) + FileNames(e, patterns, files[|files| - 1])
  }

  /** `buildCallGraph`: every name some file of the corpus invokes. */
  function CallGraphOf(e: Engine, files: Corpus): set<string> {
    Invoked(e, INVOCATION_PATTERNS, files)
  }

  /** A name is in the graph exactly when some file of the corpus invokes it. */
  lemma {:induction false} InvokedMembers(e: Engine, patterns: seq<Regex>, files: Corpus)
    ensures forall n :: n in Invoked(e, patterns, files) <==> InvokedIn(e, patterns, files, n)
  {
    if |files| > 0 {
      var init, last := files[..|files| - 1], files[|files| - 1];
      InvokedMembers(e, patterns, init);
      assert Invoked(e, patterns, files) == Invoked(e, patterns, init) + FileNames(e, patterns, last);
      forall n
        ensures n in Invoked(e, patterns, files) <==> InvokedIn(e, patterns, files, n)
      {
        if n in Invoked(e, patterns, init) {
          var i :| 0 <= i < |init| && n in FileNames(e, patterns, init[i]);
          assert init[i] == files[i];
        } else if n in FileNames(e, patterns, last) {
          assert n in FileNames(e, patterns, files[|files| - 1]);
        }
      }
    }
  }

  /** Every invoked name has at least three characters and comes from a scanned file. */
  lemma {:induction false} InvokedSources(e: Engine, patterns: seq<Regex>, files: Corpus)
    ensures forall n :: n in Invoked(e, patterns, files) ==>
      Invocable(n) && exists i :: 0 <= i < |files| && IsScannedPath(files[i].path) && n in FileNames(e, patterns, files[i])
  {
    InvokedMembers(e, patterns, files);
    forall n | n in Invoked(e, patterns, files)
      ensures Invocable(n) && exists i :: 0 <= i < |files| && IsScannedPath(files[i].path) && n in FileNames(e, patterns, files[i])
    {
      var i :| 0 <= i < |files| && n in FileNames(e, patterns, files[i]);
      PatternNamesMembers(e, files[i].content, patterns);
      var p :| 0 <= p < |patterns| && n in MatchNames(e.exec(patterns[p], files[i].content));
      MatchNamesMembers(e.exec(patterns[p], files[i].content));
    }
  }

  /** The graph does not depend on the order in which the files are visited. */
  lemma {:induction false} InvokedOrderFree(e: Engine, patterns: seq<Regex>, files: Corpus, others: Corpus)
    requires multiset(files) == multiset(others)
    ensures Invoked(e, patterns, files) == Invoked(e, patterns, others)
  {
    InvokedMembers(e, patterns, files);
    InvokedMembers(e, patterns, others);
    forall n | n in Invoked(e, patterns, files)
      ensures n in Invoked(e, patterns, others)
    {
      var i :| 0 <= i < |files| && n in FileNames(e, patterns, files[i]);
      assert files[i] in multiset(others);
      var j :| 0 <= j < |others| && others[j] == files[i];
    }
    forall n | n in Invoked(e, patterns, others)
      ensures n in Invoked(e, patterns, files)
    {
      var j :| 0 <= j < |others| && n in FileNames(e, patterns, others[j]);
      assert others[j] in multiset(files);
      var i :| 0 <= i < |files| && files[i] == others[j];
    }
  }

  /** Adding files to the corpus can only add invoked names. */
  lemma {:induction false} InvokedGrows(e: Engine, patterns: seq<Regex>, files: Corpus, more: Corpus)
    ensures Invoked(e, patterns, files) <= Invoked(e, patterns, files + more)
  {
    InvokedMembers(e, patterns, files);
    InvokedMembers(e, patterns, files + more);
    forall n | n in Invoked(e, patterns, files)
      ensures n in Invoked(e, patterns, files + more)
    {
      var i :| 0 <= i < |files| && n in FileNames(e, patterns, files[i]);
      assert (files + more)[i] == files[i];
    }
  }

  /** The innermost loop: the matches of one pattern. */
  method AddMatches(ms: seq<Match>, names: set<string>) returns (invoked: set<string>)
    ensures invoked == names + MatchNames(ms)
  {
    invoked := names;
    var j := 0;
    while j < |ms|
      invariant 0 <= j <= |ms|
      invariant invoked == names + MatchNames(ms[..j])
    {
      assert ms[..j + 1][..j] == ms[..j];
      var name := Group(ms[j], 1);
      if |name| >= 3 {
        invoked := invoked + {name};
      }
      j := j + 1;
    }
    assert ms[..j] == ms;
  }

  /** The pattern loop for one scanned file. */
  method AddFile(e: Engine, content: string, patterns: seq<Regex>, names: set<string>) returns (invoked: set<string>)
    ensures invoked == names + PatternNames(e, content, patterns)
  {
    invoked := names;
    var p := 0;
    while p < |patterns|
      invariant 0 <= p <= |patterns|
      invariant invoked == names + PatternNames(e, content, patterns[..p])
    {
      assert patterns[..p + 1][..p] == patterns[..p];
      invoked := AddMatches(e.exec(patterns[p], content), invoked);
      p := p + 1;
    }
    assert patterns[..p] == patterns;
  }

  /** The loop over files, for any list of patterns. */
  method AddFiles(e: Engine, patterns: seq<Regex>, files: Corpus) returns (invoked: set<string>)
    ensures invoked == Invoked(e, patterns, files)
  {
    invoked := {};
    var i := 0;
    while i < |files|
      invariant 0 <= i <= |files|
      invariant invoked == Invoked(e, patterns, files[..i])
    {
      assert files[..i + 1][..i] == files[..i];
      var file := files[i];
      if IsScannedPath(file.path) {
        invoked := AddFile(e, file.content, patterns, invoked);
      }
      i := i + 1;
    }
    assert files[..i] == files;
  }

  /** `buildCallGraph`. */
  method BuildCallGraph(e: Engine, files: Corpus) returns (invoked: set<string>)
    ensures invoked == CallGraphOf(e, files)
  {
    var patterns := INVOCATION_PATTERNS;
    invoked := AddFiles(e, patterns, files);
  }
}
