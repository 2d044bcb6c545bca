/**
 * The records of the diagnostic engine: severities, categories,
 * diagnostics, dead tools, project information, configuration, and the
 * context a rule is checked in.
 */
module Types {
  import opened Strings
  import opened Regexes

  datatype Severity = Error | Warn

  predicate IsError(d: Diagnostic) { d.severity == Error }

  predicate IsWarn(d: Diagnostic) { d.severity == Warn }

  datatype Category = Security | Config | Deployment | Reliability | Observability | Compliance

  /** A finding. Absent optional fields are `None`. */
  datatype Diagnostic = Diagnostic(
    ruleId: string,
    severity: Severity,
    category: Category,
    title: string,
    file: Option<string>,
    line: Option<nat>,
    column: Option<nat>,
    remediation: string,
    suggestion: Option<string>)

  /** A registered tool that is never invoked. */
  datatype DeadTool = DeadTool(name: string, registeredIn: string, registeredAt: nat)

  datatype ProjectInfo = ProjectInfo(
    framework: string,
    modelProvider: string,
    toolCount: nat,
    memoryBackend: string,
    mcpCompliant: bool,
    language: string,
    projectPath: string)

  datatype IgnoreLists = IgnoreLists(rules: seq<string>, files: seq<string>)

  datatype Config = Config(ignore: IgnoreLists, threshold: Option<int>, output: Option<string>)

  /** One entry of the scanned corpus: a project-relative path and its text. */
  datatype SourceFile = SourceFile(path: string, content: string)

  /** The corpus, in the insertion order of the map it comes from. */
  type Corpus = seq<SourceFile>

  /** What a rule's `check` did: returned a list, or threw. */
  datatype Outcome = Returned(diagnostics: seq<Diagnostic>) | Threw

  /**
   * The context a rule is checked in. `engine` decides every regex test;
   * `parsedChecks` gives the outcome of the rules whose checks parse JSON
   * or floating-point numbers, which are not modelled.
   */
  datatype Context = Context(
    projectPath: string,
    files: Corpus,
    projectInfo: ProjectInfo,
    config: Config,
    deepAnalysis: bool,
    engine: Engine,
    parsedChecks: string -> Outcome)

  /** The constant part of a rule's diagnostics. */
  datatype Finding = Finding(ruleId: string, severity: Severity, category: Category, title: string, remediation: string)
  {
    /** The diagnostic with no file and no line. */
    function Report(): Diagnostic {
      Diagnostic(ruleId, severity, category, title, None, None, None, remediation, None)
    }

    /** The diagnostic for a whole file. */
    function At(file: string): Diagnostic {
      Diagnostic(ruleId, severity, category, title, Some(file), None, None, remediation, None)
    }

    /** The diagnostic for one line of a file. */
    function AtLine(file: string, line: nat): Diagnostic {
      Diagnostic(ruleId, severity, category, title, Some(file), Some(line), None, remediation, None)
    }

    function WithRemediation(text: string): Finding {
      Finding(ruleId, severity, category, title, text)
    }
  }

  /** `d` carries the rule id, severity, category and title of `f`. */
  predicate Carries(d: Diagnostic, f: Finding) {
    d.ruleId == f.ruleId && d.severity == f.severity && d.category == f.category && d.title == f.title
  }

  function Contents(files: Corpus): (cs: seq<string>)
    ensures |cs| == |files|
    ensures forall i :: 0 <= i < |files| ==> cs[i] == files[i].content
  {
    if |files| == 0 then [] else [files[0].content] + Contents(files[1..])
  }

  /** `Array.from(files.values()).join("\n")`. */
  function AllSource(files: Corpus): string {
    Join(Contents(files), "\n")
  }

  /** `files.has(key)`. */
  predicate HasPath(files: Corpus, key: string) {
    exists i :: 0 <= i < |files| && files[i].path == key
  }

  /** `files.get(key)`: the content stored under `key`. */
  function Lookup(files: Corpus, key: string): (r: Option<string>)
    ensures r.Some? <==> HasPath(files, key)
    ensures r.Some? ==> exists i :: 0 <= i < |files| && files[i].path == key && files[i].content == r.value
  {
    if |files| == 0 then None
    else if files[0].path == key then Some(files[0].content)
    else
      var r := Lookup(files[1..], key);
      assert r.Some? ==> exists i :: 1 <= i < |files| && files[i].path == key && files[i].content == r.value by {
        if r.Some? {
          var j :| 0 <= j < |files[1..]| && files[1..][j].path == key && files[1..][j].content == r.value;
          assert files[j + 1] == files[1..][j];
        }
      }
      assert HasPath(files, key) ==> HasPath(files[1..], key) by {
        if HasPath(files, key) {
          var j :| 0 <= j < |files| && files[j].path == key;
          assert files[1..][j - 1] == files[j];
        }
      }
      r
  }

  /** JavaScript truthiness of an optional string: present and not empty. */
  predicate Truthy(s: Option<string>) {
    s.Some? && |s.value| > 0
  }
}
