/**
 * The deployment rules. Most are presence rules (one project-level finding
 * when no file shows a practice); the rest look at particular files by name
 * or by extension.
 */
module DeploymentRules {
  import opened Strings
  import opened Regexes
  import opened Types
  import opened Shapes
  import opened RuleShapes
  import SecurityRules

  // ---------------------------------------------------------------------
  // DEP-001: no Dockerfile (exact keys)

  const DEP001 := Finding("DEP-001", Warn, Deployment, "No Dockerfile",
    "Add a Dockerfile to containerize your agent for consistent deployments.")

  predicate HasDocker(files: Corpus) {
    HasPath(files, "Dockerfile") || HasPath(files, "docker-compose.yml") || HasPath(files, "docker-compose.yaml")
  }

  function Dep001(ctx: Context): (ds: seq<Diagnostic>)
    ensures ds == [] <==> HasDocker(ctx.files)
    ensures ds != [] ==> ds == [DEP001.Report()]
  {
    if HasDocker(ctx.files) then [] else [DEP001.Report()]
  }

  /** Adding files never brings the finding back: keys, once present, stay present. */
  lemma Dep001Monotone(ctx: Context, extra: Corpus)
    requires Dep001(ctx) == []
    ensures Dep001(ctx.(files := ctx.files + extra)) == []
  {
    forall key | HasPath(ctx.files, key)
      ensures HasPath(ctx.files + extra, key)
    {
      var i :| 0 <= i < |ctx.files| && ctx.files[i].path == key;
      assert (ctx.files + extra)[i] == ctx.files[i];
    }
  }

  // ---------------------------------------------------------------------
  // DEP-002: no CI/CD pipeline (path tests)

  const DEP002 := Finding("DEP-002", Warn, Deployment, "No CI/CD pipeline",
    "Set up a CI/CD pipeline (GitHub Actions, GitLab CI, etc.) to automate testing and deployment.")

  /** The disjunction of the key test, with `&&` binding tighter than `||` as in JavaScript. */
  predicate IsCiPath(f: string) {
    Contains(f, ".github/workflows")
    || Contains(f, ".github/workflows/")
    || Contains(f, ".gitlab-ci.yml")
    || Contains(f, "Jenkinsfile")
    || Contains(f, ".circleci")
    || Contains(f, "azure-pipelines")
    || (EndsWith(f, ".yml") && Contains(f, "workflow"))
    || (EndsWith(f, ".yaml") && Contains(f, "ci"))
  }

  const CiFile: SourceFile -> bool := (file: SourceFile) => IsCiPath(file.path)

  function Dep002(ctx: Context): (ds: seq<Diagnostic>)
    ensures ds == [] <==> exists i :: 0 <= i < |ctx.files| && IsCiPath(ctx.files[i].path)
    ensures ds != [] ==> ds == [DEP002.Report()]
  {
    Presence(ctx.files, CiFile, DEP002)
  }

  /** A string containing `t + u` contains `t`. */
  lemma ContainsPrefixOf(s: string, t: string, u: string)
    requires Contains(s, t + u)
    ensures Contains(s, t)
  {
    var i :| 0 <= i <= |s| && ContainsAt(s, t + u, i);
    assert s[i..i + |t|] == s[i..i + |t + u|][..|t|] == (t + u)[..|t|] == t;
    assert ContainsAt(s, t, i);
  }

  /** The `.github/workflows/` test is subsumed by the `.github/workflows` test. */
  lemma CiPathWithoutRedundantTest(f: string)
    ensures IsCiPath(f) <==>
      Contains(f, ".github/workflows")
      || Contains(f, ".gitlab-ci.yml")
      || Contains(f, "Jenkinsfile")
      || Contains(f, ".circleci")
      || Contains(f, "azure-pipelines")
      || (EndsWith(f, ".yml") && Contains(f, "workflow"))
      || (EndsWith(f, ".yaml") && Contains(f, "ci"))
  {
    if Contains(f, ".github/workflows/") {
      assert ".github/workflows/" == ".github/workflows" + "/";
      ContainsPrefixOf(f, ".github/workflows", "/");
    }
  }

  // ---------------------------------------------------------------------
  // Presence rules over every content: DEP-003, DEP-004, DEP-005, DEP-010, DEP-012

  const DEP003 := Finding("DEP-003", Warn, Deployment, "No rollback strategy",
    "Document and implement a rollback strategy (blue-green, canary) for failed deployments.")
  const Dep003Rollback := Regex(@"rollback|blue.green|canary|zero.downtime", "i")

  function Dep003(ctx: Context): (ds: seq<Diagnostic>)
    ensures ds == [] <==> exists i :: 0 <= i < |ctx.files| && Test(ctx.engine, Dep003Rollback, ctx.files[i].content)
    ensures ds != [] ==> ds == [DEP003.Report()]
  {
    AbsenceFinding(ctx, Dep003Rollback, DEP003)
  }

  const DEP004 := Finding("DEP-004", Warn, Deployment, "No health check endpoint",
    "Add /health and /ready endpoints for container orchestration health checks.")
  const Dep004Health := Regex(@"\/health|\/ready|\/ping|\/livez|\/readyz", "")

  function Dep004(ctx: Context): (ds: seq<Diagnostic>)
    ensures ds == [] <==> exists i :: 0 <= i < |ctx.files| && Test(ctx.engine, Dep004Health, ctx.files[i].content)
    ensures ds != [] ==> ds == [DEP004.Report()]
  {
    AbsenceFinding(ctx, Dep004Health, DEP004)
  }

  const DEP005 := Finding("DEP-005", Warn, Deployment, "Dev and prod config not separated",
    "Use environment-specific config files or DEPLOY_ENV checks to separate dev/prod settings.")
  const Dep005EnvSeparation := Regex(@"NODE_ENV|DEPLOY_ENV|APP_ENV|\.env\.prod|\.env\.dev|config\/prod|config\/dev", "")

  function Dep005(ctx: Context): (ds: seq<Diagnostic>)
    ensures ds == [] <==> exists i :: 0 <= i < |ctx.files| && Test(ctx.engine, Dep005EnvSeparation, ctx.files[i].content)
    ensures ds != [] ==> ds == [DEP005.Report()]
  {
    AbsenceFinding(ctx, Dep005EnvSeparation, DEP005)
  }

  const DEP010 := Finding("DEP-010", Warn, Deployment, "No staging environment",
    "Set up a staging environment to test changes before production deployment.")
  const Dep010Staging := Regex(@"staging|stage|pre-prod|preprod", "i")

  function Dep010(ctx: Context): (ds: seq<Diagnostic>)
    ensures ds == [] <==> exists i :: 0 <= i < |ctx.files| && Test(ctx.engine, Dep010Staging, ctx.files[i].content)
    ensures ds != [] ==> ds == [DEP010.Report()]
  {
    AbsenceFinding(ctx, Dep010Staging, DEP010)
  }

  const DEP012 := Finding("DEP-012", Warn, Deployment, "No graceful shutdown",
    "Handle SIGTERM to gracefully finish in-flight requests before shutting down.")
  const Dep012Shutdown := Regex(@"signal\.signal|process\.on\(['""]SIGTERM|SIGTERM|graceful.*shutdown|shutdown.*handler", "i")

  function Dep012(ctx: Context): (ds: seq<Diagnostic>)
    ensures ds == [] <==> exists i :: 0 <= i < |ctx.files| && Test(ctx.engine, Dep012Shutdown, ctx.files[i].content)
    ensures ds != [] ==> ds == [DEP012.Report()]
  {
    AbsenceFinding(ctx, Dep012Shutdown, DEP012)
  }

  // ---------------------------------------------------------------------
  // DEP-006: no dependency lockfile (exact keys)

  const DEP006 := Finding("DEP-006", Warn, Deployment, "No dependency lockfile",
    "Commit a lockfile (package-lock.json, poetry.lock, etc.) for reproducible builds.")

  /** The four `has` tests and the `some(f => f === "requirements.txt")` over the keys. */
  predicate HasLockfile(files: Corpus) {
    HasPath(files, "package-lock.json") || HasPath(files, "yarn.lock") || HasPath(files, "pnpm-lock.yaml")
    || HasPath(files, "poetry.lock") || (exists i :: 0 <= i < |files| && files[i].path == "requirements.txt")
  }

  function Dep006(ctx: Context): (ds: seq<Diagnostic>)
    ensures ds == [] <==> HasLockfile(ctx.files)
    ensures ds != [] ==> ds == [DEP006.Report()]
  {
    if HasLockfile(ctx.files) then [] else [DEP006.Report()]
  }

  /** Any one of the five names suffices, and nothing else does. */
  lemma Dep006Keys(ctx: Context)
    ensures Dep006(ctx) == [] <==>
      exists i :: 0 <= i < |ctx.files|
        && ctx.files[i].path in {"package-lock.json", "yarn.lock", "pnpm-lock.yaml", "poetry.lock", "requirements.txt"}
  {
    if HasLockfile(ctx.files) {
      var i :| 0 <= i < |ctx.files|
        && ctx.files[i].path in {"package-lock.json", "yarn.lock", "pnpm-lock.yaml", "poetry.lock", "requirements.txt"};
    }
  }

  // ---------------------------------------------------------------------
  // DEP-007: the container runs as root

  const DEP007 := Finding("DEP-007", Error, Deployment, "Container runs as root",
    "Add a non-root USER in Dockerfile to avoid running as root.")

  function Dep007(ctx: Context): (ds: seq<Diagnostic>)
    ensures var c := Lookup(ctx.files, "Dockerfile");
      ds != [] <==> Truthy(c) && SecurityRules.RunsAsRoot(ctx.engine, c.value)
    ensures ds != [] ==> ds == [DEP007.At("Dockerfile")]
  {
    var c := Lookup(ctx.files, "Dockerfile");
    if !Truthy(c) then []
    else if SecurityRules.RunsAsRoot(ctx.engine, c.value) then [DEP007.At("Dockerfile")]
    else []
  }

  /** DEP-007 and SEC-013 apply the same test to the same file. */
  lemma Dep007MatchesSec013(ctx: Context)
    ensures Dep007(ctx) != [] <==> SecurityRules.Sec013(ctx) != []
  {
  }

  /** A root-user finding means the Dockerfile exists, so there is no missing-Dockerfile finding. */
  lemma Dep007ExcludesDep001(ctx: Context)
    requires Dep007(ctx) != []
    ensures Dep001(ctx) == []
  {
    assert HasPath(ctx.files, "Dockerfile");
  }

  // ---------------------------------------------------------------------
  // DEP-008: no resource limits, once compose or Kubernetes files exist

  const DEP008 := Finding("DEP-008", Warn, Deployment, "No resource limits",
    "Set CPU and memory limits in your Kubernetes/docker-compose config.")
  const Dep008Resources := Regex(@"resources.*limits|limits.*cpu|limits.*memory|mem_limit", "i")

  predicate IsComposeOrK8sPath(path: string) {
    Contains(path, "docker-compose") || IsYamlPath(path)
  }

  const ComposeOrK8sFile: SourceFile -> bool := (file: SourceFile) => IsComposeOrK8sPath(file.path)

  function YamlMatching(e: Engine, pattern: Regex): SourceFile -> bool {
    (file: SourceFile) => IsYamlPath(file.path) && Test(e, pattern, file.content)
  }

  function Dep008(ctx: Context): (ds: seq<Diagnostic>)
    ensures ds != [] <==>
      (exists i :: 0 <= i < |ctx.files| && IsComposeOrK8sPath(ctx.files[i].path))
      && !(exists i :: 0 <= i < |ctx.files| && IsYamlPath(ctx.files[i].path)
             && Test(ctx.engine, Dep008Resources, ctx.files[i].content))
    ensures ds != [] ==> ds == [DEP008.Report()]
  {
    Aggregate(ctx.files, ComposeOrK8sFile, YamlMatching(ctx.engine, Dep008Resources), DEP008)
  }

  /**
   * Only YAML files can carry the limits: a compose file under any other
   * name opens the rule but can never close it.
   */
  lemma Dep008OnlyYamlMitigates(ctx: Context, i: nat)
    requires i < |ctx.files| && Contains(ctx.files[i].path, "docker-compose")
    requires forall j :: 0 <= j < |ctx.files| ==> !IsYamlPath(ctx.files[j].path)
    ensures Dep008(ctx) == [DEP008.Report()]
  {
  }

  // ---------------------------------------------------------------------
  // DEP-009: secrets in Dockerfiles and YAML, line by line

  const DEP009 := Finding("DEP-009", Error, Deployment, "Secrets in container definition",
    "Use secrets management (Vault, K8s Secrets, AWS Secrets Manager) instead of ENV.")
  const Dep009SecretInEnv := Regex(@"ENV\s+(API_KEY|SECRET|TOKEN|PASSWORD)\s*=\s*\S+", "i")

  predicate IsContainerDefinition(path: string) {
    Contains(path, "Dockerfile") || IsYamlPath(path)
  }

  const ContainerDefinition: string -> bool := (path: string) => IsContainerDefinition(path)

  function Dep009(ctx: Context): (ds: seq<Diagnostic>)
    ensures forall d :: d in ds <==>
      exists i, k :: 0 <= i < |ctx.files| && IsContainerDefinition(ctx.files[i].path)
        && 0 <= k < |Lines(ctx.files[i].content)|
        && Test(ctx.engine, Dep009SecretInEnv, Lines(ctx.files[i].content)[k])
        && d == DEP009.AtLine(ctx.files[i].path, k + 1)
  {
    PerLineMembers(ctx.files, ContainerDefinition, LineMatching(ctx.engine, Dep009SecretInEnv), DEP009);
    PerLine(ctx.files, ContainerDefinition, LineMatching(ctx.engine, Dep009SecretInEnv), DEP009)
  }

  /** The findings of a split corpus are those of its parts, in order. */
  lemma Dep009Local(ctx: Context, a: Corpus, b: Corpus)
    ensures Dep009(ctx.(files := a + b)) == Dep009(ctx.(files := a)) + Dep009(ctx.(files := b))
  {
    PerLineAppend(a, b, ContainerDefinition, LineMatching(ctx.engine, Dep009SecretInEnv), DEP009);
  }

  // ---------------------------------------------------------------------
  // DEP-011: the base image is not pinned

  const DEP011 := Finding("DEP-011", Warn, Deployment, "Base image not pinned", "")
  const Dep011From := Regex(@"^FROM\s+(\S+)", "m")

  /** `image.endsWith(":latest") || !image.includes(":")`. */
  predicate Unpinned(image: string) {
    EndsWith(image, ":latest") || !Contains(image, ":")
  }

  function Dep011Remediation(image: string): string {
    "Pin the base image to a specific version (e.g., node:20.11.0-alpine) instead of \"" + image + "\"."
  }

  /** The image named by the first `FROM` line of a truthy Dockerfile. */
  function BaseImage(e: Engine, files: Corpus): (image: Option<string>)
    ensures var c := Lookup(files, "Dockerfile");
      image.Some? <==> Truthy(c) && Test(e, Dep011From, c.value)
  {
    var c := Lookup(files, "Dockerfile");
    if !Truthy(c) then None
    else match First(e, Dep011From, c.value)
      case None => None
      case Some(m) => Some(Group(m, 1))
  }

  function Dep011(ctx: Context): (ds: seq<Diagnostic>)
    ensures var image := BaseImage(ctx.engine, ctx.files);
      ds != [] <==> image.Some? && Unpinned(image.value)
    ensures ds != [] ==>
      ds == [DEP011.WithRemediation(Dep011Remediation(BaseImage(ctx.engine, ctx.files).value)).At("Dockerfile")]
  {
    match BaseImage(ctx.engine, ctx.files)
    case None => []
    case Some(image) =>
      if Unpinned(image) then [DEP011.WithRemediation(Dep011Remediation(image)).At("Dockerfile")] else []
  }

  /** A tag other than `latest` pins the image; a bare name or `latest` does not. */
  lemma UnpinnedExamples()
    ensures !Unpinned("node:20.11.0-alpine")
    ensures Unpinned("node")
    ensures Unpinned("node:latest")
  {
    assert ContainsAt("node:20.11.0-alpine", ":", 4);
    assert !EndsWith("node:20.11.0-alpine", ":latest") by {
      assert "node:20.11.0-alpine"[|"node:20.11.0-alpine"| - 7..] != ":latest";
    }
    assert ContainsAt("node:latest", ":", 4);
    assert !Contains("node", ":") by {
      forall i | 0 <= i <= |"node"| - |":"|
        ensures !ContainsAt("node", ":", i)
      {
        assert "node"[i] != ':';
      }
    }
  }

  /** An unpinned image means the Dockerfile exists, so there is no missing-Dockerfile finding. */
  lemma Dep011ExcludesDep001(ctx: Context)
    requires Dep011(ctx) != []
    ensures Dep001(ctx) == []
  {
    assert HasPath(ctx.files, "Dockerfile");
  }

  // ---------------------------------------------------------------------
  // DEP-013: no high availability in YAML files

  const DEP013 := Finding("DEP-013", Warn, Deployment, "No multi-AZ / HA",
    "Configure multiple replicas and multi-AZ deployment for high availability.")
  const Dep013Ha := Regex(@"replicas\s*:\s*[2-9]|multi.az|availability.zone|HighAvailability|replication", "i")

  function Dep013(ctx: Context): (ds: seq<Diagnostic>)
    ensures ds == [] <==>
      exists i :: 0 <= i < |ctx.files| && IsYamlPath(ctx.files[i].path) && Test(ctx.engine, Dep013Ha, ctx.files[i].content)
    ensures ds != [] ==> ds == [DEP013.Report()]
  {
    Presence(ctx.files, YamlMatching(ctx.engine, Dep013Ha), DEP013)
  }

  /** Files that are not YAML do not affect the rule, wherever they appear. */
  lemma Dep013IgnoresOtherFiles(ctx: Context, extra: Corpus)
    requires forall j :: 0 <= j < |extra| ==> !IsYamlPath(extra[j].path)
    ensures Dep013(ctx.(files := ctx.files + extra)) == Dep013(ctx)
  {
    PresenceIgnores(ctx.files, extra, YamlMatching(ctx.engine, Dep013Ha), DEP013);
  }

}
