/**
 * The registration tracer of the dead-tool pass: it records, for each tool
 * name registered in a source file, the first place it is registered.
 */
module ImportTracer {
  import opened Strings
  import opened Regexes
  import opened Types

  datatype RegisteredTool = RegisteredTool(name: string, file: string, line: nat)

  /** `.tool("x")`, `register_tool("x")`, `Tool({ name: "x" })`-like calls and `name: "x"`. */
  const REGISTRATION_PATTERNS: seq<Regex> := [
    Regex(@"\.tool\s*\(\s*[""']([^""']+)[""']", "g"),
    Regex(@"register_tool\s*\(\s*[""']([^""']+)[""']", "g"),
    Regex(@"(?:DynamicTool|StructuredTool|Tool)\s*\(\s*\{[^}]*name\s*:\s*[""']([^""']+)[""']", "g"),
    Regex(@"\bname\s*:\s*[""']([a-z_][a-z0-9_-]{2,40})[""']", "g")
  ]

  /** Only TypeScript, JavaScript, Python and ES-module files are scanned. */
  predicate IsScannedPath(path: string) {
    EndsWith(path, ".ts") || EndsWith(path, ".js") || EndsWith(path, ".py") || EndsWith(path, ".mjs")
  }

  /** Names that are type words rather than tools. */
  const COMMON_TYPE_NAMES: set<string> :=
    {"string", "number", "boolean", "object", "array", "null", "undefined", "true", "false"}

  /** A captured name is recorded when it has at least three characters and is not a type word. */
  predicate Acceptable(name: string) {
    |name| >= 3 && name !in COMMON_TYPE_NAMES
  }

  /** The registration a match stands for: its name, the file, and the line of its offset. */
  function Candidate(file: SourceFile, m: Match): RegisteredTool {
    RegisteredTool(Group(m, 1), file.path, LineAt(file.content, m.index))
  }

  /** The registrations of the successive matches of one pattern in one file. */
  function MatchCandidates(file: SourceFile, ms: seq<Match>): seq<RegisteredTool> {
    if |ms| == 0 then []
    else
      var m := ms[|ms| - 1];
      var init := MatchCandidates(file, ms[..|ms| - 1]);
      if Acceptable(Group(m, 1)) then init + [Candidate(file, m)] else init
  }

  /** Every candidate is acceptable, names the file, and stands for one of the matches. */
  lemma {:induction false} MatchCandidatesFrom(file: SourceFile, ms: seq<Match>)
    ensures forall c :: c in MatchCandidates(file, ms) ==>
      Acceptable(c.name) && c.file == file.path && exists k :: 0 <= k < |ms| && c == Candidate(file, ms[k])
  {
    if |ms| > 0 {
      var init := ms[..|ms| - 1];
      MatchCandidatesFrom(file, init);
      assert forall k :: 0 <= k < |init| ==> init[k] == ms[k];
    }
  }

  /** The registrations of a file, pattern after pattern. */
  function PatternCandidates(e: Engine, file: SourceFile, patterns: seq<Regex>): seq<RegisteredTool> {
    if |patterns| == 0 then []
    else
      PatternCandidates(e, file, patterns[..|patterns| - 1])
      + MatchCandidates(file, e.exec(patterns[|patterns| - 1], file.content))
  }

  /** Every candidate of a file is acceptable and names that file. */
  lemma {:induction false} PatternCandidatesFrom(e: Engine, file: SourceFile, patterns: seq<Regex>)
    ensures forall c :: c in PatternCandidates(e, file, patterns) ==> Acceptable(c.name) && c.file == file.path
  {
    if |patterns| > 0 {
      PatternCandidatesFrom(e, file, patterns[..|patterns| - 1]);
      MatchCandidatesFrom(file, e.exec(patterns[|patterns| - 1], file.content));
    }
  }

  function FileCandidates(e: Engine, file: SourceFile): seq<RegisteredTool> {
    if IsScannedPath(file.path) then PatternCandidates(e, file, REGISTRATION_PATTERNS) else []
  }

  /** Only scanned files have candidates. */
  lemma FileCandidatesFrom(e: Engine, file: SourceFile)
    ensures forall c :: c in FileCandidates(e, file) ==> Acceptable(c.name) && c.file == file.path && IsScannedPath(c.file)
  {
    PatternCandidatesFrom(e, file, REGISTRATION_PATTERNS);
  }

  /** Every registration the tracer meets, in the order it meets them: by file, pattern, then offset. */
  function Candidates(e: Engine, files: Corpus): seq<RegisteredTool> {
    if |files| == 0 then []
    else Candidates(e, files[..|files| - 1]) + FileCandidates(e, files[|files| - 1])
  }

  /** Every candidate is acceptable and lies in a scanned file of the corpus. */
  lemma {:induction false} CandidatesFrom(e: Engine, files: Corpus)
    ensures forall c :: c in Candidates(e, files) ==>
      Acceptable(c.name) && IsScannedPath(c.file) && exists i :: 0 <= i < |files| && files[i].path == c.file
  {
    if |files| > 0 {
      var init := files[..|files| - 1];
      CandidatesFrom(e, init);
      FileCandidatesFrom(e, files[|files| - 1]);
      assert forall i :: 0 <= i < |init| ==> init[i] == files[i];
    }
  }

  /** `registered.has(name)`. */
  predicate HasName(tools: seq<RegisteredTool>, name: string) {
    exists k :: 0 <= k < |tools| && tools[k].name == name
  }

  /** `if (!registered.has(name)) registered.set(name, ...)`. */
  function Register(tools: seq<RegisteredTool>, c: RegisteredTool): seq<RegisteredTool> {
    if HasName(tools, c.name) then tools else tools + [c]
  }

  /** The registrations kept from `cs`, in map insertion order: the first one of each name. */
  function RegisterAll(cs: seq<RegisteredTool>): seq<RegisteredTool> {
    if |cs| == 0 then [] else Register(RegisterAll(cs[..|cs| - 1]), cs[|cs| - 1])
  }

  /** `traceRegisteredTools`, as the entries of the map it returns. */
  function Registered(e: Engine, files: Corpus): seq<RegisteredTool> {
    RegisterAll(Candidates(e, files))
  }

  /** No name occurs twice, so the entries are those of a map keyed by name. */
  predicate UniqueNames(tools: seq<RegisteredTool>) {
    forall a, b :: 0 <= a < b < |tools| ==> tools[a].name != tools[b].name
  }

  /** `cs[j]` is the first candidate with its name. */
  predicate FirstOfName(cs: seq<RegisteredTool>, j: int) {
    0 <= j < |cs| && forall j' :: 0 <= j' < j ==> cs[j'].name != cs[j].name
  }

  /** Every entry of `tools` is the first candidate of `cs` with its name. */
  predicate FirstRegistrations(cs: seq<RegisteredTool>, tools: seq<RegisteredTool>) {
    forall k :: 0 <= k < |tools| ==> IsFirstRegistration(cs, tools[k])
  }

  /** `t` is the first candidate of `cs` with its name. */
  predicate IsFirstRegistration(cs: seq<RegisteredTool>, t: RegisteredTool) {
    exists j :: 0 <= j < |cs| && FirstOfName(cs, j) && cs[j] == t
  }

  /** One more candidate: kept exactly when its name is new. */
  lemma {:induction false} RegisterAllSnoc(cs: seq<RegisteredTool>)
    requires |cs| > 0
    ensures RegisterAll(cs) == Register(RegisterAll(cs[..|cs| - 1]), cs[|cs| - 1])
    ensures forall j :: 0 <= j < |cs| - 1 ==> cs[..|cs| - 1][j] == cs[j]
  {
  }

  /** A name is kept exactly when some candidate carries it. */
  lemma {:induction false} RegisterAllNames(cs: seq<RegisteredTool>)
    ensures forall name :: HasName(RegisterAll(cs), name) <==> HasName(cs, name)
  {
    if |cs| > 0 {
      var init := cs[..|cs| - 1];
      RegisterAllNames(init);
      RegisterAllSnoc(cs);
      var r0 := RegisterAll(init);
      var r := RegisterAll(cs);
      forall name
        ensures HasName(r, name) <==> HasName(cs, name)
      {
        if HasName(r, name) {
          var k :| 0 <= k < |r| && r[k].name == name;
          if k < |r0| {
            assert r[k] == r0[k];
            assert HasName(r0, name);
            var j :| 0 <= j < |init| && init[j].name == name;
            assert cs[j] == init[j];
          } else {
            assert cs[|cs| - 1].name == name;
          }
        }
        if exists j :: 0 <= j < |cs| && cs[j].name == name {
          var j :| 0 <= j < |cs| && cs[j].name == name;
          if j < |cs| - 1 {
            assert init[j].name == name;
            assert HasName(r0, name);
            var k :| 0 <= k < |r0| && r0[k].name == name;
            assert r[k] == r0[k];
          } else if !HasName(r0, name) {
            assert r[|r| - 1].name == name;
          } else {
            var k :| 0 <= k < |r0| && r0[k].name == name;
            assert r[k] == r0[k];
          }
        }
      }
    }
  }

  /** No name is kept twice. */
  lemma {:induction false} RegisterAllUnique(cs: seq<RegisteredTool>)
    ensures UniqueNames(RegisterAll(cs))
  {
    if |cs| > 0 {
      var init := cs[..|cs| - 1];
      var c := cs[|cs| - 1];
      RegisterAllUnique(init);
      RegisterAllSnoc(cs);
      var r0 := RegisterAll(init);
      if !HasName(r0, c.name) {
        forall a, b | 0 <= a < b < |r0 + [c]|
          ensures (r0 + [c])[a].name != (r0 + [c])[b].name
        {
          if b == |r0| {
            assert (r0 + [c])[a] == r0[a];
          } else {
            assert (r0 + [c])[a] == r0[a] && (r0 + [c])[b] == r0[b];
          }
        }
      }
    }
  }

  /** Every kept registration is the first candidate with its name. */
  lemma {:induction false} RegisterAllFirstOf(cs: seq<RegisteredTool>)
    ensures FirstRegistrations(cs, RegisterAll(cs))
  {
    if |cs| > 0 {
      var init := cs[..|cs| - 1];
      var c := cs[|cs| - 1];
      RegisterAllFirstOf(init);
      RegisterAllNames(init);
      RegisterAllSnoc(cs);
      var r0 := RegisterAll(init);
      var r := RegisterAll(cs);
      forall k | 0 <= k < |r|
        ensures IsFirstRegistration(cs, r[k])
      {
        if k < |r0| {
          assert r[k] == r0[k];
          assert IsFirstRegistration(init, r0[k]);
          var j :| 0 <= j < |init| && FirstOfName(init, j) && init[j] == r0[k];
          assert forall j' :: 0 <= j' <= j ==> init[j'] == cs[j'];
          assert FirstOfName(cs, j);
        } else {
          assert !HasName(r0, c.name) && r[k] == c;
          assert !exists j :: 0 <= j < |init| && init[j].name == c.name;
          assert FirstOfName(cs, |cs| - 1);
        }
      }
    }
  }

  /**
   * The kept registrations have distinct names, each is the first candidate
   * with its name, and every candidate's name is kept.
   */
  lemma {:induction false} RegisterAllFirst(cs: seq<RegisteredTool>)
    ensures UniqueNames(RegisterAll(cs))
    ensures FirstRegistrations(cs, RegisterAll(cs))
    ensures forall name :: HasName(RegisterAll(cs), name) <==> HasName(cs, name)
  {
    RegisterAllUnique(cs);
    RegisterAllFirstOf(cs);
    RegisterAllNames(cs);
  }

  /**
   * The tracer's result is a map keyed by name whose entry for a name is the
   * first registration of that name, and it has an entry for every name
   * registered anywhere.
   */
  lemma {:induction false} RegisteredFirst(e: Engine, files: Corpus)
    ensures UniqueNames(Registered(e, files))
    ensures FirstRegistrations(Candidates(e, files), Registered(e, files))
    ensures forall name :: HasName(Registered(e, files), name) <==> HasName(Candidates(e, files), name)
  {
    RegisterAllFirst(Candidates(e, files));
  }

  /** The position of the first candidate called `name`, or `|cs|` when there is none. */
  function IndexOfName(cs: seq<RegisteredTool>, name: string): (j: nat)
    ensures j <= |cs|
    ensures j < |cs| ==> cs[j].name == name
    ensures forall j' :: 0 <= j' < j ==> cs[j'].name != name
  {
    if |cs| == 0 then 0
    else if cs[0].name == name then 0
    else 1 + IndexOfName(cs[1..], name)
  }

  /** Appending a candidate leaves the first position of an earlier name where it was. */
  lemma {:induction false} IndexOfNameSnoc(cs: seq<RegisteredTool>, c: RegisteredTool, name: string)
    ensures IndexOfName(cs + [c], name) ==
      if IndexOfName(cs, name) < |cs| then IndexOfName(cs, name)
      else if c.name == name then |cs| else |cs| + 1
  {
    if |cs| > 0 && cs[0].name != name {
      assert (cs + [c])[1..] == cs[1..] + [c];
      IndexOfNameSnoc(cs[1..], c, name);
    }
  }

  /**
   * The map lists its entries in the order their names first occur among
   * the candidates: `Map.set` of a new key appends it, and a known key is
   * never set again. Each entry is the candidate at that first position.
   */
  lemma {:induction false} RegisterAllOrdered(cs: seq<RegisteredTool>)
    ensures forall k :: 0 <= k < |RegisterAll(cs)| ==>
      IndexOfName(cs, RegisterAll(cs)[k].name) < |cs| && cs[IndexOfName(cs, RegisterAll(cs)[k].name)] == RegisterAll(cs)[k]
    ensures forall a, b :: 0 <= a < b < |RegisterAll(cs)| ==>
      IndexOfName(cs, RegisterAll(cs)[a].name) < IndexOfName(cs, RegisterAll(cs)[b].name)
  {
    if |cs| > 0 {
      var init := cs[..|cs| - 1];
      var c := cs[|cs| - 1];
      assert cs == init + [c];
      RegisterAllOrdered(init);
      RegisterAllSnoc(cs);
      RegisterAllNames(init);
      var r0 := RegisterAll(init);
      var r := RegisterAll(cs);
      forall k | 0 <= k < |r0|
        ensures IndexOfName(cs, r0[k].name) == IndexOfName(init, r0[k].name) < |init|
        ensures cs[IndexOfName(cs, r0[k].name)] == r0[k]
      {
        IndexOfNameSnoc(init, c, r0[k].name);
        assert cs[IndexOfName(init, r0[k].name)] == init[IndexOfName(init, r0[k].name)];
      }
      if !HasName(r0, c.name) {
        assert r == r0 + [c];
        assert !HasName(init, c.name);
        IndexOfNameSnoc(init, c, c.name);
        assert IndexOfName(cs, c.name) == |init|;
        forall k | 0 <= k < |r|
          ensures IndexOfName(cs, r[k].name) < |cs| && cs[IndexOfName(cs, r[k].name)] == r[k]
        {
          if k < |r0| { assert r[k] == r0[k]; }
        }
        forall a, b | 0 <= a < b < |r|
          ensures IndexOfName(cs, r[a].name) < IndexOfName(cs, r[b].name)
        {
          assert r[a] == r0[a];
          if b < |r0| { assert r[b] == r0[b]; }
        }
      }
    }
  }

  /**
   * `traceRegisteredTools` returns its entries in the order of first
   * registration: by file, then pattern, then offset.
   */
  lemma RegisteredOrder(e: Engine, files: Corpus)
    ensures forall a, b :: 0 <= a < b < |Registered(e, files)| ==>
      IndexOfName(Candidates(e, files), Registered(e, files)[a].name) < IndexOfName(Candidates(e, files), Registered(e, files)[b].name)
  {
    RegisterAllOrdered(Candidates(e, files));
  }

  /** Every recorded name is acceptable and every recorded file is a scanned path of the corpus. */
  lemma RegisteredSources(e: Engine, files: Corpus)
    ensures forall t :: t in Registered(e, files) ==>
      Acceptable(t.name) && IsScannedPath(t.file) && exists i :: 0 <= i < |files| && files[i].path == t.file
  {
    var cs := Candidates(e, files);
    var r := Registered(e, files);
    RegisterAllFirst(cs);
    CandidatesFrom(e, files);
    forall t | t in r
      ensures Acceptable(t.name) && IsScannedPath(t.file) && exists i :: 0 <= i < |files| && files[i].path == t.file
    {
      var k :| 0 <= k < |r| && r[k] == t;
      var j :| FirstOfName(cs, j) && cs[j] == t;
      assert t in cs;
    }
  }

  /** A registration's line is one more than the number of newlines before its offset. */
  lemma CandidateLine(file: SourceFile, m: Match)
    ensures Candidate(file, m).line == 1 + Count(file.content[..Min(m.index, |file.content|)], '\n')
  {
  }

  /** One more match registers its candidate when the name is acceptable. */
  lemma {:induction false} RegisterMatchStep(file: SourceFile, ms: seq<Match>, j: nat, before: seq<RegisteredTool>)
    requires j < |ms|
    ensures RegisterAll(before + MatchCandidates(file, ms[..j + 1])) ==
      if Acceptable(Group(ms[j], 1)) then Register(RegisterAll(before + MatchCandidates(file, ms[..j])), Candidate(file, ms[j]))
      else RegisterAll(before + MatchCandidates(file, ms[..j]))
  {
    var prefix := ms[..j + 1];
    assert prefix[..j] == ms[..j] && prefix[j] == ms[j];
    var mc := MatchCandidates(file, ms[..j]);
    if Acceptable(Group(ms[j], 1)) {
      assert MatchCandidates(file, prefix) == mc + [Candidate(file, ms[j])];
      assert before + (mc + [Candidate(file, ms[j])]) == (before + mc) + [Candidate(file, ms[j])];
      RegisterAllAppendOne(before + mc, Candidate(file, ms[j]));
    } else {
      assert MatchCandidates(file, prefix) == mc;
    }
  }

  lemma {:induction false} RegisterAllAppendOne(cs: seq<RegisteredTool>, c: RegisteredTool)
    ensures RegisterAll(cs + [c]) == Register(RegisterAll(cs), c)
  {
    assert (cs + [c])[..|cs|] == cs;
  }

  /** The inner loop of `traceRegisteredTools`: the matches of one pattern in one file. */
  method RegisterMatches(file: SourceFile, ms: seq<Match>, tools: seq<RegisteredTool>, ghost before: seq<RegisteredTool>)
    returns (registered: seq<RegisteredTool>)
    requires tools == RegisterAll(before)
    ensures registered == RegisterAll(before + MatchCandidates(file, ms))
  {
    registered := tools;
    assert before + MatchCandidates(file, ms[..0]) == before;
    var j := 0;
    while j < |ms|
      invariant 0 <= j <= |ms|
      invariant registered == RegisterAll(before + MatchCandidates(file, ms[..j]))
    {
      RegisterMatchStep(file, ms, j, before);
      var name := Group(ms[j], 1);
      if Acceptable(name) {
        var lineNum := LineAt(file.content, ms[j].index);
        if !HasName(registered, name) {
          registered := registered + [RegisteredTool(name, file.path, lineNum)];
        }
      }
      j := j + 1;
    }
    assert ms[..j] == ms;
  }

  /** The pattern loop of `traceRegisteredTools` for one scanned file. */
  method RegisterFile(e: Engine, file: SourceFile, patterns: seq<Regex>, tools: seq<RegisteredTool>,
                      ghost done: seq<RegisteredTool>)
    returns (registered: seq<RegisteredTool>)
    requires tools == RegisterAll(done)
    ensures registered == RegisterAll(done + PatternCandidates(e, file, patterns))
  {
    registered := tools;
    assert done + PatternCandidates(e, file, patterns[..0]) == done;
    var p := 0;
    while p < |patterns|
      invariant 0 <= p <= |patterns|
      invariant registered == RegisterAll(done + PatternCandidates(e, file, patterns[..p]))
    {
      ghost var next := patterns[..p + 1];
      assert next[..p] == patterns[..p] && next[p] == patterns[p];
      ghost var before := done + PatternCandidates(e, file, patterns[..p]);
      var ms := e.exec(patterns[p], file.content);
      registered := RegisterMatches(file, ms, registered, before);
      assert PatternCandidates(e, file, next) == PatternCandidates(e, file, patterns[..p]) + MatchCandidates(file, ms);
      assert before + MatchCandidates(file, ms) == done + PatternCandidates(e, file, next);
      p := p + 1;
    }
    assert patterns[..p] == patterns;
  }

  /** `traceRegisteredTools`, with its loop over files. */
  method TraceRegisteredTools(e: Engine, files: Corpus) returns (registered: seq<RegisteredTool>)
    ensures registered == Registered(e, files)
  {
    registered := [];
    var i := 0;
    while i < |files|
      invariant 0 <= i <= |files|
      invariant registered == RegisterAll(Candidates(e, files[..i]))
    {
      assert files[..i + 1][..i] == files[..i];
      var file := files[i];
      if IsScannedPath(file.path) {
        var patterns := REGISTRATION_PATTERNS;
        registered := RegisterFile(e, file, patterns, registered, Candidates(e, files[..i]));
      } else {
        assert Candidates(e, files[..i + 1]) == Candidates(e, files[..i]);
      }
      i := i + 1;
    }
    assert files[..i] == files;
  }
}
