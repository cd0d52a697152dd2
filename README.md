# JenkinsDoc core in Dafny

JenkinsDoc is a Sublime Text plugin for Jenkins pipeline files. It offers
completions for pipeline steps, sections, directives and environment
variables. It shows an HTML popup documenting the word under the mouse, and a
"go to definition" link for `file.function` words. It keeps a status-bar
indicator and decides which views hold Jenkins files. A knowledge base (a JSON
document of plugins, steps, sections, directives and environment variables)
is loaded at start-up and indexed by name. A reload command replaces it.

This project models that decision logic. The editor is replaced by plain
values:
- a view is its file name, its syntax scope, the text of the line up to the
  cursor, or the text before the cursor;
- the clock is a `now` parameter in seconds;
- what the plugin does to the editor (move the cursor, open a file, show a
  status message, set or erase the status key) is returned as a value.

Files and modules:
- `wrappers.dfy` (`Wrappers`): the `Option` type.
- `text.dfy` (`Text`): the string operations the plugin relies on:
  - ASCII lowering, `startswith`/`endswith`/`in`;
  - `str.split` with `str.join`, and their round trips;
  - counting a character and `os.path.basename`.
- `html.dfy` (`Html`):
  - `html.escape` and its inverse;
  - HTML as a sequence of tags and text tokens, rendered to a string;
  - the well-formedness facts that let a marker string be traced back to the
    tag that produced it.
- `knowledge.dfy` (`Knowledge`): the knowledge-base records
  (`Instruction`, `Parameter`, `EnvVar`, `Construct`, `Document`), the
  `_lookup` maps and the loaded data.
- `index.dfy` (`Index`): the name-keyed dict comprehensions and the linear
  first-match search.
- `utils.dfy` (`Utils`):
  - the two module globals (`PluginState`);
  - `load_jenkins_data`'s outcome and its failure fallback;
  - `is_jenkins_file`.
- `plugin.dfy` (`Plugin`): `plugin_loaded` and `JenkinsDocReloadCommand.run`.
- `context.dfy` (`Context`): the three regular expressions of the completion
  code, written out as scanners with their meaning proved, and
  `_is_inside_post_block`.
- `completions.dfy` (`Completions`): every completion builder and
  `on_query_completions`.
- `popuptags.dfy` (`PopupTags`): the fixed attribute strings of the popup
  template, none of which carries an angle bracket.
- `hover.dfy` (`Hover`): `_find_documentation`, the four `_format_*`
  builders and `on_hover`.
- `goto.dfy` (`GoTo`): the `goto:` link and its parsing, the line arithmetic,
  the two file-matching rules, the folder cache with its 60 s TTL, the
  searches, and the `JenkinsGoToDefinitionCommand` class.
- `statusbar.dfy` (`StatusBar`): the 500 ms per-view throttle and the status
  text.

Where the source updates state in place, the model is a class:
- `PluginState` holds the module globals;
- `GoToDefinition` holds `_file_cache` and `_cache_time`;
- `StatusBarListener` holds `_last_update`.

Each class method is proved against a function on values, and the properties
are proved about those functions. Loops of the source are `while` loops with
invariants:
- the instruction, environment-variable, section and directive builders;
- the HTML formatter;
- the brace counter;
- the cache rebuild;
- the folder and file searches.

## Model

| member | source | states |
|---|---|---|
| Utils.PluginState.constructor | modules/utils.py:17-36 | Both globals start as `None`. |
| Utils.PluginState.SetJenkinsData | modules/utils.py:22-25 | Setting the data global leaves the settings global untouched. |
| Utils.PluginState.SetSettings | modules/utils.py:33-36 | Setting the settings global leaves the data global untouched. |
| Utils.SetThenGet | modules/utils.py:17-36 | A value stored in either global is read back unchanged, `None` included. |
| Utils.LoadJenkinsData | modules/utils.py:39-52 | A failed read yields a record whose five lists are all empty and which has no index. A parsed document is returned as is, and a falsy one gives no data. |
| Utils.AnyPatternMatches | modules/utils.py:74-78 | True iff some additional pattern matches the full path or the basename. |
| Utils.IsJenkinsFile | modules/utils.py:55-80 | True iff the settings exist and are enabled, and one of three rules fires: groovy detection sees a scope containing "groovy" in any case; Jenkinsfile detection sees "Jenkinsfile" in the basename; or some additional pattern matches the path or basename. |
| Utils.DisabledNeverJenkins | modules/utils.py:57-58 | Without settings, or when disabled, no file is a Jenkins file. |
| Utils.GroovyScopeDetected | modules/utils.py:65-66 | With groovy detection on, a scope mentioning groovy in any letter case is enough. |
| Utils.GroovyOffScopeIgnored | modules/utils.py:65-66 | With groovy detection off, the scope cannot change the answer. |
| Utils.JenkinsfileInAnyDirectory | modules/utils.py:69-71 | Any file whose basename contains `Jenkinsfile`, in any directory, is detected. |
| Utils.OnlyBasenameInspected | modules/utils.py:61-71 | Without patterns, two paths with the same basename get the same answer. |
| Utils.PatternDetected | modules/utils.py:74-78 | One pattern matching the path or the basename suffices. |
| Utils.NothingEnabledNotJenkins | modules/utils.py:80 | With both detections off and no pattern, the answer is False. |
| Index.FirstBy | modules/listeners.py:257-271 | The linear search finds an entry with the key, or reports none exactly when no entry has it. |
| Index.IndexKeys | jenkins_doc.py:59-62 | A comprehension map's keys are exactly the keys occurring in its list. |
| Index.IndexLastWins | jenkins_doc.py:59-62 | For a key, the map holds the last entry carrying it. |
| Index.FirstByFirst | modules/listeners.py:257-271 | The linear search returns the first entry carrying the key. |
| Index.IndexAgreesWithSearch | jenkins_doc.py:58-63 | With unique keys, the map and the linear search find the same entry for every key. |
| Index.DuplicateKeyDisagrees | jenkins_doc.py:59-62 | With a duplicated key, the map holds the second entry and the search returns the first. |
| Index.BuildLookup | jenkins_doc.py:58-63 | Steps are keyed by command and the other three lists by name; each key set is that of its list. |
| Plugin.WithLookup | jenkins_doc.py:57-63 | The index is added exactly when data was loaded, and the document itself is kept. |
| Plugin.PluginLoaded | jenkins_doc.py:47-65 | Start-up stores the settings, and stores the loaded data with its index when there is data. |
| Plugin.LoadedIndexCoversDocument | jenkins_doc.py:54-63 | After start-up each index covers exactly the names of its list. A failed read still stores an indexed empty record; a falsy document stores nothing. |
| Plugin.ReloadMessageReports | jenkins_doc.py:123-132 | The reload message reports counts exactly when there is data, and reads "Failed to reload data" otherwise. |
| Plugin.Reload | jenkins_doc.py:112-132 | Reload replaces the data global wholesale, without an index, and returns the message for the new data. |
| Plugin.ReloadKeepsHoverAnswers | jenkins_doc.py:112-132 | With unique names in every list, a hover resolves every word the same way after the reload (linear search) as after start-up (index). |
| Context.TrailingWordStart | modules/listeners.py:475 | Finds the start of the maximal run of word characters ending the text. |
| Context.EnvAccessAtEndCorrect | modules/listeners.py:475 | The scanner fires iff `env\.\w*$` matches the line somewhere. |
| Context.SkipSpacesUnique | modules/listeners.py:711 | A maximal run of whitespace has exactly one end, the one the scanner finds. |
| Context.SkipWordUnique | modules/listeners.py:711 | A maximal run of word characters has exactly one end, the one the scanner finds. |
| Context.NoOpenerAhead | modules/listeners.py:711 | The negative lookahead `(?!.*[{(])`: no `{` or `(` before the next newline. |
| Context.CloserFrom | modules/listeners.py:711 | Some position in the range holds a `(` or space that the lookahead accepts. |
| Context.CallMatchAtShape | modules/listeners.py:711 | The matcher at one position succeeds with an identifier's bounds iff the pattern matches there with that group. |
| Context.CallMatchAtSound | modules/listeners.py:711 | Every match the matcher reports has the shape the pattern describes. |
| Context.CallMatchAtComplete | modules/listeners.py:711 | Every occurrence of the pattern's shape at a position is reported there, with the same identifier bounds. |
| Context.CallSearchSound | modules/listeners.py:711 | A reported identifier is the group of a match, and no match starts earlier. |
| Context.CallSearchComplete | modules/listeners.py:711 | When any match exists at or after the start, the search reports one. |
| Context.CallContextCorrect | modules/listeners.py:711-715 | `re.search` succeeds iff the pattern matches somewhere, and yields the group of the leftmost match. |
| Context.PostMatchAt | modules/listeners.py:765 | A match of `\bpost\s*\{` ends after its `{`. |
| Context.PostMatchesDisjoint | modules/listeners.py:765 | Two matches of the post pattern never overlap. |
| Context.LastPostStart | modules/listeners.py:765-771 | Finds the last match start of the post pattern, or shows there is none. |
| Context.IsInsidePostBlock | modules/listeners.py:757-784 | The brace-counting loop computes the predicate: false without a post match; otherwise true iff the depth, starting at 1 after the last match, stays positive up to the cursor. |
| Context.UnclosedPostBlockIsInside | modules/listeners.py:774-784 | With no `}` after the last `post {`, the cursor is inside. |
| Context.DepthDropsAtClose | modules/listeners.py:776-782 | A `}` with no `{` before it closes the block. |
| Context.ClosedPostBlockIsOutside | modules/listeners.py:774-784 | A `}` after the last `post {`, with no `{` before it, puts the cursor outside. |
| Completions.PriorityPartSound | modules/listeners.py:457-461 | Each priority completion comes from a command that matches the prefix. Every matching command's lowercased name is recorded, and nothing else is. |
| Completions.PriorityPartPrefix | modules/listeners.py:457-461 | The completions for the first j commands are a prefix of the completions for all of them. |
| Completions.PriorityPartComplete | modules/listeners.py:457-461 | Every command the prefix admits is offered, at its rank: the number of admitted commands before it. |
| Completions.PriorityPartOrder | modules/listeners.py:457-461 | An admitted command has a smaller rank than every later command, so the group keeps the declared order. |
| Completions.ExceptionFallbackIsPriority | modules/listeners.py:539-546 | The error fallback is the echo, sh and pipeline priority completions. |
| Completions.InstructionSnippet | modules/listeners.py:578-583 | The snippet is `cmd(${1})` iff the step has parameters and `cmd()` otherwise; the label is `cmd\tJenkins Step`. |
| Completions.SelectCorrect | modules/listeners.py:567-584 | Each chosen step matches the prefix and was not yet recorded, and no two share a lowercased command. The set grows by exactly the chosen commands, and ends up holding every matching step's lowercased command. The chosen steps are exactly the first occurrences, in list order. |
| Completions.SelectAddedAll | modules/listeners.py:567-584 | The set ends up as the initial commands plus the lowercased command of every matching step. |
| Completions.SelectIsKept | modules/listeners.py:567-584 | The loop chooses exactly the first occurrences, in list order. A first occurrence is a matching step whose lowercased command was not recorded and that no earlier matching step shares. |
| Completions.LaterDuplicateDropped | modules/listeners.py:571-584 | Of two matching steps with one lowercased command, the later one is never a first occurrence, so the first one is kept. |
| Completions.SelectChosen | modules/listeners.py:566-583 | Every chosen step is one of the steps, matches the prefix and was not already recorded. |
| Completions.SelectDistinct | modules/listeners.py:570-583 | No two chosen steps share a lowercased command. |
| Completions.SelectAdded | modules/listeners.py:570-583 | The recorded set grows by exactly the lowercased commands of the chosen steps. |
| Completions.SelectRecordsMatches | modules/listeners.py:566-583 | Every step that matches the prefix ends up recorded. |
| Completions.InstructionCompletions | modules/listeners.py:548-588 | The loop returns the completions of the selected steps and the grown `added_commands` set. |
| Completions.EnvCompletions | modules/listeners.py:590-612 | The loop returns one completion per variable, in order. |
| Completions.EnvCompletionModes | modules/listeners.py:600-610 | Both modes give one completion per variable with the same label. The bare mode inserts the name, and the prefixed mode inserts `env.` before it. |
| Completions.PreviewOfInner | modules/listeners.py:625-630 | The label preview is a prefix of the full join of the inner names. It is the whole list when there are at most three, and ends in `...` when there are more. |
| Completions.BlockSnippetListsAll | modules/listeners.py:632-634 | The snippet comment lists every inner name. |
| Completions.BlockCompletions | modules/listeners.py:614-668 | The loop returns one completion per section or directive, in order. |
| Completions.SectionCompletions | modules/listeners.py:614-640 | The section builder's completions. |
| Completions.DirectiveCompletions | modules/listeners.py:642-668 | The directive builder's completions. |
| Completions.PostCompletions | modules/listeners.py:670-701 | No data gives nothing. Otherwise there is one `c {\n\t$0\n}` completion per post condition, in order. |
| Completions.PostConditionsFromFirstPost | modules/listeners.py:679-696 | The post conditions come from the first section named `post` when its inner list is non-empty, and are the fallback list otherwise. |
| Completions.PostConditionsFallback | modules/listeners.py:681-694 | Without a `post` section, the ten fixed names are used. |
| Completions.InsertTextByType | modules/listeners.py:740-749 | The insert text is quoted for String and for Enum with values, `${1:true}` for boolean, and bare `name: ` for any other type. |
| Completions.ParameterCompletions | modules/listeners.py:703-755 | The loop returns one completion per parameter of the called step. |
| Completions.ParameterCompletionsInCall | modules/listeners.py:711-753 | The result is non-empty iff the call pattern matched, its identifier is the command of a known step, and the first such step has parameters. In that case there is one completion per parameter of that step, in order. |
| Completions.QueryBlocksSound | modules/listeners.py:498-515 | Each section or directive offered matches the prefix, and there are no more of them than list entries. |
| Completions.QueryBlocksPrefix | modules/listeners.py:498-515 | The entries for the first j records are a prefix of the entries for all of them. |
| Completions.QueryBlocksComplete | modules/listeners.py:498-515 | Every record whose name matches the prefix is offered, at its rank among the matching records. |
| Completions.QueryBlocksOrder | modules/listeners.py:498-515 | A matching record has a smaller rank than every later record, so the group keeps the records' order. |
| Completions.MatchingBlocks | modules/listeners.py:499-515 | The loop returns the prefix-matching sections or directives. |
| Completions.Cap | modules/listeners.py:490-495 | A one-character prefix keeps at most the first 50; any other prefix keeps all. |
| Completions.OnQueryCompletions | modules/listeners.py:401-531 | The method returns the specified list for the view's Jenkins-file status, prefix, line and data. |
| Completions.PriorityCompletions | modules/listeners.py:454-461 | The priority loop yields the admitted priority completions in declared order, and records their lowercased commands. |
| Completions.QueryNoneCases | modules/listeners.py:413-416 | A non-Jenkins file gets `None`, and a returned list is never empty. Also modelled: lines 526-531 of the same file. |
| Completions.QueryEnvShortCircuit | modules/listeners.py:475-481 | After `env.` with variables known, only the bare variable names are returned, unfiltered. |
| Completions.QueryAssembly | modules/listeners.py:457-531 | Output is priority, then instructions, then sections, then directives; without steps in the data, only the priority group. |
| Completions.QueryPriorityGroup | modules/listeners.py:457-461 | The first group holds exactly the priority commands the prefix admits: each entry is admitted, each admitted command appears at its rank, and ranks follow the declared order. |
| Completions.SelectAfterPriority | modules/listeners.py:485-487 | No step completion duplicates a matching priority command or another step, whatever the letter case. Also modelled: lines 567-584 of the same file. |
| Completions.QueryInstructionGroup | modules/listeners.py:485-495 | The step group is a prefix of the selected steps' completions, at most 50 for a one-character prefix, with no duplicates. |
| Completions.QueryInstructionsKept | modules/listeners.py:485-495 | The step group is the completions of the first occurrences, in list order. It holds the first 50 of them for a one-character prefix when there are more than 50, and all of them otherwise. |
| Completions.QueryBlockGroup | modules/listeners.py:497-515 | The section (or directive) group holds exactly the records whose name matches the prefix: each entry comes from a matching record, each matching record appears at its rank, and ranks follow the records' order. |
| Html.EscapeIsMarkupFree | modules/listeners.py:277-278 | Escaped text holds no `<`, `>`, `"` or `'`. |
| Html.EscapeUnchanged | modules/listeners.py:277-278 | Text without markup characters or `&` is unchanged by escaping. |
| Html.UnescapeEscape | modules/listeners.py:277-278 | Escaping loses nothing: unescaping gives the original text back. |
| Html.EscapedTextWellFormed | modules/listeners.py:277-325 | Escaped text cannot open or close a tag in the popup. |
| Hover.FormatParameter | modules/listeners.py:288-318 | The loop builds the HTML of one parameter, including its values list. |
| Hover.FormatInstructionDoc | modules/listeners.py:275-327 | The nested loops build exactly the rendered step document. |
| Hover.InstructionDocHeading | modules/listeners.py:286-287 | The step popup has a Parameters heading iff the step has parameters. |
| Hover.InstructionDocValues | modules/listeners.py:306-311 | The step popup has a Values list iff some parameter has values. |
| Hover.InstructionDocOptional | modules/listeners.py:289 | The step popup labels a parameter `(Optional)` iff some parameter is optional. Also modelled: line 300 of the same file. |
| Hover.InstructionDocLink | modules/listeners.py:323-325 | The step popup has a documentation link iff the step has a url. |
| Hover.ConstructDocAllowed | modules/listeners.py:354-361 | A section or directive popup has the Allowed box iff `allowed` is non-empty. Also modelled: lines 381-388 of the same file. |
| Hover.ConstructDocLink | modules/listeners.py:365-367 | A section or directive popup has a documentation link iff it has a url. Also modelled: lines 392-394 of the same file. |
| Hover.InstructionWellFormed | modules/listeners.py:275-327 | Whatever the data holds, the step popup's tags are exactly the formatter's own. |
| Hover.ConstructWellFormed | modules/listeners.py:343-395 | Whatever the data holds, the section or directive popup's tags are exactly the formatter's own. |
| Hover.DocShowsName | modules/listeners.py:277-280 | Every popup shows the record's escaped name as its heading. Also modelled: lines 331-335, 345-348, 372-375 of the same file. |
| Hover.FindDocumentation | modules/listeners.py:238-273 | The method returns the specified documentation of the resolved record. |
| Hover.LinearResolveNone | modules/listeners.py:255-273 | The linear search finds nothing iff the word is in none of the four lists. |
| Hover.ResolvePrecedence | modules/listeners.py:255-271 | The linear search returns a step iff a step has the word. It returns a variable iff no step has the word and a variable does, and likewise for sections and then directives. The record returned is in its list and carries the word. |
| Hover.ResolveIndexedPrecedence | modules/listeners.py:244-253 | The indexed lookup returns a step iff the step map holds the word. It returns a variable iff the step map does not hold the word and the variable map does, and likewise for sections and then directives. The record returned is the one its map holds. |
| Hover.IndexedMatchesLinear | modules/listeners.py:243-271 | With unique names, the indexed and linear lookups resolve every word alike. |
| Hover.OnHover | modules/listeners.py:206-236 | The method returns the specified popup. |
| Hover.HoverPopupConditions | modules/listeners.py:206-236 | A popup appears iff the mouse is over text, hover docs are on, the file is a Jenkins file, the word is non-empty and it resolves. |
| GoTo.GotoLink | modules/listeners.py:846-855 | A link is offered iff the extended word has a dot and splits into exactly two parts. |
| GoTo.ParseHrefCases | modules/listeners.py:863-875 | Hrefs without `goto:` are ignored. Exactly two `:`-parts give a file and a function; otherwise the first part is used alone. |
| GoTo.LinkRoundTrip | modules/listeners.py:846-875 | For dot- and colon-free names, the popup's link parses back to the same file and function. |
| GoTo.SingleNameHref | modules/listeners.py:873-875 | A colon-free single name parses to that name alone. |
| GoTo.DefinitionLineCounts | modules/listeners.py:905-907 | There is a line iff the declaration matches. The line is the number of newlines before the match start, is at most that start, and is 0 iff the match is on the first line. Also modelled: lines 970-971 of the same file. |
| GoTo.SameLineBothWays | modules/listeners.py:907 | The other-file search opens the file at the current-file search's 0-based line plus 1, and finds it exactly when that search would. Also modelled: lines 971-973 of the same file. |
| GoTo.ExactImpliesSubstring | modules/listeners.py:933 | The exact-basename rule implies the substring rule. Also modelled: line 952 of the same file. |
| GoTo.SubstringIsLooser | modules/listeners.py:933 | The substring rule accepts `ci/my_utils.groovy` for `utils`, and the exact rule does not. Also modelled: line 952 of the same file. |
| GoTo.EmptyNameMatchesEverything | modules/listeners.py:933 | An empty file name passes the substring rule for every path. |
| GoTo.PathJoinBasename | modules/listeners.py:814 | The basename of a joined path is the file's own name. Also modelled: line 951 of the same file. |
| GoTo.GroovyInMembers | modules/listeners.py:812-814 | The files listed for one directory are exactly its `.groovy` files, joined to the root. |
| GoTo.GroovyFilesMembers | modules/listeners.py:807-814 | The rebuilt list holds exactly the `.groovy` files of the walk, joined to their roots. |
| GoTo.GroovyFilesAreGroovy | modules/listeners.py:807-814 | Every listed path's basename ends in `.groovy`. |
| GoTo.LookupCases | modules/listeners.py:801-819 | A fresh entry is returned with the cache unchanged. Otherwise the walk's list is stored and returned with time `now`, and other folders are untouched. |
| GoTo.RepeatedLookupStable | modules/listeners.py:801-804 | A lookup less than 60 s after the recorded time returns the same list and changes nothing. A hit does not renew the time. |
| GoTo.ExpiredLookupRebuilds | modules/listeners.py:801-819 | A lookup 60 s or more after a rebuild rebuilds from the new walk. |
| GoTo.FirstHitIsFirst | modules/listeners.py:932-935 | The file loop stops at the first path that succeeds, and finds nothing iff no path succeeds. Also modelled: lines 950-954 of the same file. |
| GoTo.ProbeMeaning | modules/listeners.py:933-934 | A function search succeeds on a path iff the substring rule holds, the file reads and the declaration matches; it then opens at line + 1. A file search succeeds iff the exact rule holds, and opens the file. Also modelled: lines 952-953, 958-978 of the same file. |
| GoTo.Listings | modules/listeners.py:927-929 | One path list per folder, each looked up through the cache the previous lookup left. Also modelled: lines 946-948 of the same file. |
| GoTo.SearchFoldersNone | modules/listeners.py:927-935 | The folder loop finds nothing iff no path in any folder's listing yields a hit. Also modelled: lines 946-954 of the same file. |
| GoTo.SearchFoldersFirst | modules/listeners.py:927-935 | A found action is the probe of path i of listing k, with no hit in an earlier listing or at an earlier path of listing k. Also modelled: lines 946-954 of the same file. |
| GoTo.SearchFoldersHit | modules/listeners.py:927-935 | The folder loop finds nothing iff no listed path yields a hit. Otherwise its action is the first hit in listing order, the probe of a listed path. Also modelled: lines 946-954 of the same file. |
| GoTo.DefinitionSearchOpens | modules/listeners.py:918-937 | "No project folder open" iff there are no folders. With folders, the not-found message iff no listed path yields a hit. Otherwise an open, at line ≥ 1, of a listed path passing the substring rule. |
| GoTo.FileSearchOpens | modules/listeners.py:939-956 | "No project folder open" iff there are no folders. With folders, the not-found message iff no listed path yields a hit. Otherwise the opening of a listed path passing the exact rule. |
| GoTo.EmptyFunctionNameIsSingleName | modules/listeners.py:883-892 | An empty function name is treated as a single-word goto. |
| GoTo.CurrentFileFirst | modules/listeners.py:888-890 | A single word defined in the current file moves the cursor there, without searching or touching the cache. |
| GoTo.GoToDefinition.constructor | modules/listeners.py:790-793 | The cache starts empty. |
| GoTo.GoToDefinition.GetGroovyFiles | modules/listeners.py:795-819 | The method returns the specified cached list and cache state, rebuilding with nested loops. |
| GoTo.GoToDefinition.FindFunctionInFiles | modules/listeners.py:918-937 | The nested loops return the specified search action and cache state. |
| GoTo.GoToDefinition.FindAndOpenFile | modules/listeners.py:939-956 | The nested loops return the specified search action and cache state. |
| GoTo.GoToDefinition.GotoDefinitionIn | modules/listeners.py:877-892 | The method returns the specified dispatch action and cache state. |
| GoTo.GoToDefinition.HandleGoto | modules/listeners.py:863-875 | The method parses the href and dispatches as specified. |
| GoTo.OnGotoHover | modules/listeners.py:821-861 | A link popup appears iff every gate passes: text zone, setting on, Jenkins file, non-empty word, popup setting on, and a two-part dotted word. |
| StatusBar.ThrottleRecords | modules/listeners.py:23-36 | An update is refused iff the same view passed less than 0.5 s ago. A refusal records nothing; a pass records `now` for that view only. |
| StatusBar.ThrottleWindow | modules/listeners.py:30-36 | After a pass at `t`, that view is refused exactly while less than 0.5 s has passed. |
| StatusBar.ViewsIndependent | modules/listeners.py:23-36 | The throttle of one view never affects another. |
| StatusBar.FirstUpdatePasses | modules/listeners.py:30-36 | A view's first update always passes. |
| StatusBar.StatusCases | modules/listeners.py:63-90 | The key is erased unless the bar is on and the file is a Jenkins file. Then the text is shown, followed by the step count when asked for and there are steps, or by ` (no data)` when there are none. |
| StatusBar.StatusBarListener.constructor | modules/listeners.py:19-21 | No view has been updated yet. |
| StatusBar.StatusBarListener.ShouldUpdate | modules/listeners.py:23-36 | The method gives the throttle's answer and leaves the throttle's timestamp map. |
| StatusBar.StatusBarListener.UpdateStatus | modules/listeners.py:63-90 | A refused update changes nothing. A passed one gives the view's status text. |

## Left out

- `str.lower()` is modelled for ASCII letters only, and `\w` as the ASCII word characters; Unicode case mapping and Unicode letters and digits are not modelled. `\s` is modelled in full, as the whitespace set of Python's `str` patterns.
- `fnmatch.fnmatch` is a function parameter; its glob semantics are not modelled.
- The Groovy declaration regular expression of go-to-definition is a parameter giving the match start. An answer beyond the end of the content counts as no match. Only the line arithmetic around it is modelled.
- `os.walk` and its directory exclusion are replaced by the walk's `(root, files)` entries as input. File reading is a function from path to `Option` content, where `None` is a read error.
- `time.time()` is a `now` parameter, a real number without float rounding. One search uses one `now` for all its cache lookups.
- Editor calls become returned values: `show_popup`, `status_message`, `set_status`/`erase_status`, `open_file` and cursor moves. Popup sizes and flags are left out, as is the CSS prefix of the hover popup.
- `sublime.INHIBIT_WORD_COMPLETIONS`: every non-`None` answer of `on_query_completions` pairs its list with this constant flag (modules/listeners.py:481, 527, 539-546). `Completions.QueryCompletions` and `Completions.OnQueryCompletions` return only the list, because the flag never varies.
- `view.word`, `expand_by_class` and `view.line` are inputs (word, extended word, line up to the cursor); how the editor computes them is not modelled.
- Debug and console `print` calls and traceback output are left out.
- `on_query_completions`' exception fallback is the constant `Completions.ExceptionFallback`. Which inputs raise (a record missing a key) is not modelled: records always carry every field.
- Records always carry their fields, so `param.get("type", "Unknown")`'s default and missing-key errors do not arise.
- `_get_parameter_completions` builds a `desc_parts` description that it never uses; the model leaves it out.
- The status-bar event hooks (`on_activated`, `on_new`, `on_load`, `on_clone`, `on_post_save`, and `on_post_text_command` for `set_file_type`) only call `_update_status`. They are not modelled separately.
- The settings file name, the data file path and `show_console_messages` are left out. `load_jenkins_data` is modelled by its outcome, parsed or failed.
- `GoTo.GoToDefinition.FindAndOpenFile` takes the read and declaration oracles as ghost parameters only, so its contract can name the shared search function; the file search itself never reads files.
- `Hover.FormatInstructionDoc` is split into helper methods (`AppendParamItems`, `FormatParameter`, `AppendValueItems`) that follow its nested loops.
- The popup templates are token lists that keep the source's text, indentation included; `Html.Render` turns them into the strings the source builds with `format` and `+=`.
- `JenkinsDocShowCommand`, `OpenUrlCommand`, the diagnostics commands and the scraper are not part of this model (dialogs, a browser, network access).
