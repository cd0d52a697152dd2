/**
 * The plugin's module-level state (the loaded data and the settings), the
 * fallback value used when the data file cannot be read, and the test that
 * decides whether a view holds a Jenkins pipeline file.
 */
module Utils {
  import opened Text
  import opened Wrappers
  import opened Knowledge

  /**
   * The settings the core reads, each already resolved to the value
   * `settings.get(key, default)` yields.
   */
  datatype Settings = Settings(
    enabled: bool,
    detectGroovyFiles: bool,
    detectJenkinsfile: bool,
    additionalFilePatterns: seq<string>,
    showStatusBar: bool,
    statusBarText: string,
    showInstructionCount: bool,
    showHoverDocs: bool,
    enableGotoDefinition: bool,
    showGotoPopup: bool)

  /** The defaults the source passes to `settings.get`. */
  const DefaultSettings := Settings(true, true, true, [], true, "JenkinsDoc", false, true, true, true)

  /** The module globals `_jenkins_data` and `_settings`, both `None` at import. */
  class PluginState {
    var jenkinsData: Option<JenkinsData>
    var settings: Option<Settings>

    constructor()
      ensures jenkinsData == None && settings == None
    {
      jenkinsData := None;
      settings := None;
    }

    method GetJenkinsData() returns (d: Option<JenkinsData>)
      ensures d == jenkinsData
    {
      d := jenkinsData;
    }

    method SetJenkinsData(d: Option<JenkinsData>)
      modifies this
      ensures jenkinsData == d && settings == old(settings)
    {
      jenkinsData := d;
    }

    method GetSettings() returns (s: Option<Settings>)
      ensures s == settings
    {
      s := settings;
    }

    method SetSettings(s: Option<Settings>)
      modifies this
      ensures settings == s && jenkinsData == old(jenkinsData)
    {
      settings := s;
    }
  }

  /** Storing a value and reading it back gives that value, `None` included; the other global is untouched. */
  method SetThenGet(st: PluginState, d: Option<JenkinsData>, s: Option<Settings>)
    returns (d': Option<JenkinsData>, s': Option<Settings>)
    modifies st
    ensures d' == d && s' == s
  {
    st.SetJenkinsData(d);
    st.SetSettings(s);
    d' := st.GetJenkinsData();
    s' := st.GetSettings();
  }

  /** What reading and parsing the data file produced. */
  datatype ReadOutcome =
    | Parsed(value: Option<Document>)  // `json.load` succeeded; `None` for a falsy document
    | ReadFailed                       // `open` or `json.load` raised

  /** `load_jenkins_data`: the parsed document, or the five-empty-lists record on failure. */
  function LoadJenkinsData(outcome: ReadOutcome): (r: Option<JenkinsData>)
    ensures outcome.ReadFailed? ==> r.Some? && r.value.lookup.None?
    ensures outcome.ReadFailed? ==> var d := r.value.doc;
      d.plugins == [] && d.instructions == [] && d.sections == [] && d.directives == [] && d.environmentVariables == []
    ensures outcome.Parsed? ==> (r.Some? <==> outcome.value.Some?)
    ensures r.Some? ==> r.value.lookup.None?
    ensures outcome.Parsed? && r.Some? ==> r.value.doc == outcome.value.value
  {
    match outcome
    case ReadFailed => Some(JenkinsData(EmptyDocument, None))
    case Parsed(v) => if v.Some? then Some(JenkinsData(v.value, None)) else None
  }

  /** Some additional pattern matches the full path or the basename. */
  function AnyPatternMatches(patterns: seq<string>, fileName: string, baseName: string,
                             fnmatch: (string, string) -> bool): (r: bool)
    ensures r <==> exists k :: 0 <= k < |patterns| && (fnmatch(fileName, patterns[k]) || fnmatch(baseName, patterns[k]))
    decreases |patterns|
  {
    if patterns == [] then false
    else if fnmatch(fileName, patterns[0]) || fnmatch(baseName, patterns[0]) then true
    else
      var r := AnyPatternMatches(patterns[1..], fileName, baseName, fnmatch);
      assert forall k :: 1 <= k < |patterns| ==> patterns[1..][k - 1] == patterns[k];
      r
  }

  /**
   * `is_jenkins_file`. `fileName` is `view.file_name() or ""`, `scope` the
   * syntax scope (`None` when the view has no syntax), and `fnmatch` stands
   * for `fnmatch.fnmatch(name, pattern)`.
   */
  function IsJenkinsFile(settings: Option<Settings>, fileName: string, scope: Option<string>,
                         fnmatch: (string, string) -> bool): (r: bool)
    ensures r <==> (
      && settings.Some?
      && settings.value.enabled
      && (|| (settings.value.detectGroovyFiles && scope.Some? && Contains(Lower(scope.value), "groovy"))
          || (settings.value.detectJenkinsfile && Contains(Basename(fileName), "Jenkinsfile"))
          || (exists k :: 0 <= k < |settings.value.additionalFilePatterns| &&
                (fnmatch(fileName, settings.value.additionalFilePatterns[k]) ||
                 fnmatch(Basename(fileName), settings.value.additionalFilePatterns[k])))))
  {
    if settings.None? || !settings.value.enabled then false
    else
      var s := settings.value;
      var baseName := Basename(fileName);
      if s.detectGroovyFiles && scope.Some? && Contains(Lower(scope.value), "groovy") then true
      else if s.detectJenkinsfile && (Contains(baseName, "Jenkinsfile") || baseName == "Jenkinsfile") then
        assert baseName == "Jenkinsfile" ==> OccursAt(baseName, "Jenkinsfile", 0);
        true
      else AnyPatternMatches(s.additionalFilePatterns, fileName, baseName, fnmatch)
  }

  /** Without settings, or with the plugin disabled, no file is a Jenkins file. */
  lemma DisabledNeverJenkins(settings: Option<Settings>, fileName: string, scope: Option<string>,
                             fnmatch: (string, string) -> bool)
    requires settings.None? || !settings.value.enabled
    ensures !IsJenkinsFile(settings, fileName, scope, fnmatch)
  {
  }

  /** With groovy detection on, a scope mentioning groovy in any letter case is enough. */
  lemma GroovyScopeDetected(s: Settings, fileName: string, scope: string, fnmatch: (string, string) -> bool)
    requires s.enabled && s.detectGroovyFiles && Contains(Lower(scope), "groovy")
    ensures IsJenkinsFile(Some(s), fileName, Some(scope), fnmatch)
  {
  }

  /** With groovy detection off, the syntax scope plays no part in the answer. */
  lemma GroovyOffScopeIgnored(s: Settings, fileName: string, scope1: Option<string>, scope2: Option<string>,
                              fnmatch: (string, string) -> bool)
    requires !s.detectGroovyFiles
    ensures IsJenkinsFile(Some(s), fileName, scope1, fnmatch) == IsJenkinsFile(Some(s), fileName, scope2, fnmatch)
  {
  }

  /** A file named `Jenkinsfile`, `Jenkinsfile.groovy`, `Jenkinsfile.dev` or the like, in any directory, is detected. */
  lemma JenkinsfileInAnyDirectory(s: Settings, dir: string, name: string, scope: Option<string>,
                                  fnmatch: (string, string) -> bool)
    requires s.enabled && s.detectJenkinsfile
    requires '/' !in name && Contains(name, "Jenkinsfile")
    ensures IsJenkinsFile(Some(s), dir + "/" + name, scope, fnmatch)
  {
    BasenameOfJoin(dir, name);
  }

  /**
   * Only the basename is inspected for the `Jenkinsfile` rule: two paths
   * with the same basename get the same answer when no pattern is set.
   */
  lemma OnlyBasenameInspected(s: Settings, f1: string, f2: string, scope: Option<string>,
                              fnmatch: (string, string) -> bool)
    requires s.additionalFilePatterns == []
    requires Basename(f1) == Basename(f2)
    ensures IsJenkinsFile(Some(s), f1, scope, fnmatch) == IsJenkinsFile(Some(s), f2, scope, fnmatch)
  {
  }

  /** One additional pattern matching the full path or the basename suffices. */
  lemma PatternDetected(s: Settings, fileName: string, scope: Option<string>,
                        fnmatch: (string, string) -> bool, k: int)
    requires s.enabled && 0 <= k < |s.additionalFilePatterns|
    requires fnmatch(fileName, s.additionalFilePatterns[k]) || fnmatch(Basename(fileName), s.additionalFilePatterns[k])
    ensures IsJenkinsFile(Some(s), fileName, scope, fnmatch)
  {
  }

  /** With both detections off and no pattern, nothing is a Jenkins file. */
  lemma NothingEnabledNotJenkins(s: Settings, fileName: string, scope: Option<string>,
                                 fnmatch: (string, string) -> bool)
    requires !s.detectGroovyFiles && !s.detectJenkinsfile && s.additionalFilePatterns == []
    ensures !IsJenkinsFile(Some(s), fileName, scope, fnmatch)
  {
  }
}
