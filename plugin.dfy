/**
 * Start-up and reload of the plugin: load the settings and the data file,
 * build the `_lookup` index (at start-up only) and store both globals.
 */
module Plugin {
  import opened Text
  import opened Wrappers
  import opened Knowledge
  import opened Index
  import opened Utils
  import opened Hover

  /** `jenkins_data["_lookup"] = {...}` applied when the loaded data is truthy. */
  function WithLookup(d: Option<JenkinsData>): (r: Option<JenkinsData>)
    ensures r.Some? <==> d.Some?
    ensures r.Some? ==> r.value.doc == d.value.doc && r.value.lookup == Some(BuildLookup(d.value.doc))
  {
    if d.Some? then Some(JenkinsData(d.value.doc, Some(BuildLookup(d.value.doc)))) else None
  }

  /** `plugin_loaded`: the settings `load_settings` returned and the data `load_jenkins_data` produced. */
  method PluginLoaded(st: PluginState, settings: Settings, outcome: ReadOutcome)
    modifies st
    ensures st.settings == Some(settings)
    ensures st.jenkinsData == WithLookup(LoadJenkinsData(outcome))
  {
    st.SetSettings(Some(settings));
    var data := LoadJenkinsData(outcome);
    if data.Some? {
      data := Some(JenkinsData(data.value.doc, Some(BuildLookup(data.value.doc))));
    }
    st.SetJenkinsData(data);
  }

  /**
   * After start-up the index covers exactly the names in the loaded lists,
   * and a failed read still leaves an (empty) indexed record behind.
   */
  lemma LoadedIndexCoversDocument(outcome: ReadOutcome)
    ensures var d := WithLookup(LoadJenkinsData(outcome));
      d.Some? ==> (
        && d.value.lookup.Some?
        && d.value.lookup.value.instructions.Keys == KeysOf(d.value.doc.instructions, CommandOf)
        && d.value.lookup.value.environmentVariables.Keys == KeysOf(d.value.doc.environmentVariables, EnvName)
        && d.value.lookup.value.sections.Keys == KeysOf(d.value.doc.sections, ConstructName)
        && d.value.lookup.value.directives.Keys == KeysOf(d.value.doc.directives, ConstructName))
    ensures outcome.ReadFailed? ==> WithLookup(LoadJenkinsData(outcome)).Some?
    ensures outcome == Parsed(None) ==> WithLookup(LoadJenkinsData(outcome)) == None
  {
  }

  /** The status message `JenkinsDocReloadCommand.run` shows for the new data. */
  function ReloadMessage(d: Option<JenkinsData>): string {
    if d.Some? then
      "JenkinsDoc: Reloaded " + NatToString(|d.value.doc.plugins|) + " plugins with "
        + NatToString(|d.value.doc.instructions|) + " instructions"
    else "JenkinsDoc: Failed to reload data"
  }

  /** The reload message reports counts exactly for truthy data and a failure otherwise. */
  lemma ReloadMessageReports(d: Option<JenkinsData>)
    ensures StartsWith(ReloadMessage(d), "JenkinsDoc: Reloaded ") <==> d.Some?
    ensures d.None? <==> ReloadMessage(d) == "JenkinsDoc: Failed to reload data"
    ensures d.Some? ==> EndsWith(ReloadMessage(d), " instructions")
  {
    var ok := "JenkinsDoc: Reloaded ";
    var failed := "JenkinsDoc: Failed to reload data";
    assert ok[12] == 'R' && failed[12] == 'F';
    if d.Some? {
      var m := ReloadMessage(d);
      assert m[..|ok|] == ok;
      assert m[12] == 'R';
    } else {
      assert failed[..|ok|][12] == 'F';
    }
  }

  /**
   * `JenkinsDocReloadCommand.run`: the data global is replaced wholesale by the
   * freshly loaded record, without an index, and the message is returned.
   */
  method Reload(st: PluginState, settings: Settings, outcome: ReadOutcome) returns (message: string)
    modifies st
    ensures st.settings == Some(settings)
    ensures st.jenkinsData == LoadJenkinsData(outcome)
    ensures st.jenkinsData.Some? ==> st.jenkinsData.value.lookup.None?
    ensures message == ReloadMessage(st.jenkinsData)
  {
    st.SetSettings(Some(settings));
    var data := LoadJenkinsData(outcome);
    st.SetJenkinsData(data);
    if data.Some? {
      message := "JenkinsDoc: Reloaded " + NatToString(|data.value.doc.plugins|) + " plugins with "
        + NatToString(|data.value.doc.instructions|) + " instructions";
    } else {
      message := "JenkinsDoc: Failed to reload data";
    }
  }

  /**
   * With unique names in every list, a hover resolves each word to the same
   * record before and after a reload, although only the start-up data carries
   * an index. (With a duplicate name the two can differ: see
   * `Index.DuplicateKeyDisagrees`.)
   */
  lemma ReloadKeepsHoverAnswers(outcome: ReadOutcome, word: string)
    requires var d := LoadJenkinsData(outcome);
      d.Some? ==>
        && UniqueKeys(d.value.doc.instructions, CommandOf)
        && UniqueKeys(d.value.doc.environmentVariables, EnvName)
        && UniqueKeys(d.value.doc.sections, ConstructName)
        && UniqueKeys(d.value.doc.directives, ConstructName)
    ensures Resolve(word, WithLookup(LoadJenkinsData(outcome))) == Resolve(word, LoadJenkinsData(outcome))
  {
    var d := LoadJenkinsData(outcome);
    if d.Some? {
      IndexedMatchesLinear(word, d.value.doc);
    }
  }
}
