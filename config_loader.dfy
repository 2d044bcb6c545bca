/**
 * Configuration loading: a partial configuration read from the project is
 * normalised into a complete one, and the first usable source wins.
 */
module ConfigLoader {
  import opened Strings
  import opened Types

  /** The `ignore` object as written; an absent or null list is `None`. */
  datatype PartialIgnore = PartialIgnore(rules: Option<seq<string>>, files: Option<seq<string>>)

  /** A configuration as written in a file; every field may be missing. */
  datatype PartialConfig = PartialConfig(ignore: Option<PartialIgnore>, threshold: Option<int>, output: Option<string>)

  /**
   * What one configuration source yields: nothing there; something there
   * that cannot be used (unreadable, not JSON, a JSON `null`, or for
   * `package.json` an `agentDoctor` entry that is missing or not an
   * object), which falls through to the next source; or a configuration.
   */
  datatype ConfigSource = Absent | Unusable | Found(partial: PartialConfig)

  /** Empty ignore lists, no threshold, no output. */
  const DEFAULT_CONFIG: Config := Config.Config(IgnoreLists([], []), None, None)

  /** `list ?? []`. */
  function ListOrEmpty(s: Option<seq<string>>): seq<string> {
    if s.Some? then s.value else []
  }

  /** `partial.ignore?.<field>`. */
  function IgnoredRules(p: PartialConfig): Option<seq<string>> {
    if p.ignore.Some? then p.ignore.value.rules else None
  }

  function IgnoredFiles(p: PartialConfig): Option<seq<string>> {
    if p.ignore.Some? then p.ignore.value.files else None
  }

  /**
   * `mergeConfig`: present ignore lists are kept verbatim, missing ones
   * become empty, and the threshold and output are copied, absent or not.
   */
  function MergeConfig(p: PartialConfig): (c: Config)
    ensures IgnoredRules(p).Some? ==> c.ignore.rules == IgnoredRules(p).value
    ensures IgnoredRules(p).None? ==> c.ignore.rules == []
    ensures IgnoredFiles(p).Some? ==> c.ignore.files == IgnoredFiles(p).value
    ensures IgnoredFiles(p).None? ==> c.ignore.files == []
    ensures c.threshold == p.threshold && c.output == p.output
  {
    Config.Config(IgnoreLists(ListOrEmpty(IgnoredRules(p)), ListOrEmpty(IgnoredFiles(p))), p.threshold, p.output)
  }

  /** A complete configuration written out in full. */
  function ToPartial(c: Config): PartialConfig {
    PartialConfig(Some(PartialIgnore(Some(c.ignore.rules), Some(c.ignore.files))), c.threshold, c.output)
  }

  /** Normalising a configuration written out in full gives it back. */
  lemma MergeToPartial(c: Config)
    ensures MergeConfig(ToPartial(c)) == c
  {
  }

  /** Normalising twice is normalising once. */
  lemma MergeIdempotent(p: PartialConfig)
    ensures MergeConfig(ToPartial(MergeConfig(p))) == MergeConfig(p)
  {
    MergeToPartial(MergeConfig(p));
  }

  /** An empty configuration object normalises to the default. */
  lemma MergeEmpty()
    ensures MergeConfig(PartialConfig(None, None, None)) == DEFAULT_CONFIG
    ensures MergeConfig(PartialConfig(Some(PartialIgnore(None, None)), None, None)) == DEFAULT_CONFIG
  {
  }

  /**
   * `loadConfig`: `agent-doctor.config.json` first, then the `agentDoctor`
   * entry of `package.json`, then the default.
   */
  function LoadConfig(configFile: ConfigSource, packageEntry: ConfigSource): (c: Config)
    ensures configFile.Found? ==> c == MergeConfig(configFile.partial)
    ensures !configFile.Found? && packageEntry.Found? ==> c == MergeConfig(packageEntry.partial)
    ensures !configFile.Found? && !packageEntry.Found? ==> c == DEFAULT_CONFIG
  {
    match configFile
    case Found(p) => MergeConfig(p)
    case _ =>
      match packageEntry
      case Found(p) => MergeConfig(p)
      case _ => Config.Config(IgnoreLists([], []), None, None)
  }

  /** Whatever the sources hold, the loaded configuration is a normalised one. */
  lemma {:induction false} LoadedIsNormal(configFile: ConfigSource, packageEntry: ConfigSource)
    ensures exists p :: LoadConfig(configFile, packageEntry) == MergeConfig(p)
    ensures MergeConfig(ToPartial(LoadConfig(configFile, packageEntry))) == LoadConfig(configFile, packageEntry)
  {
    if !configFile.Found? && !packageEntry.Found? {
      MergeEmpty();
      assert LoadConfig(configFile, packageEntry) == MergeConfig(PartialConfig(None, None, None));
    }
    MergeToPartial(LoadConfig(configFile, packageEntry));
  }
}
