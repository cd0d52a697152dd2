/**
 * Go-to-definition for Groovy helpers (`JenkinsGoToDefinitionCommand`):
 * the hover link offered over `file.function`, the parsing of the `goto:`
 * link it navigates to, the two ways a project file is matched by name, the
 * line a definition is opened at, and the per-folder cache of `.groovy` files.
 *
 * Everything outside the plugin is a parameter: the directory walk of a
 * folder (`walks`), reading a file (`read`, `None` when `open` raises), the
 * start of the first match of the declaration regex for a function name in a
 * text (`declStart`), and the clock (`now`, in seconds). The editor calls the
 * source makes are returned as an `Action`.
 */
module GoTo {
  import opened Wrappers
  import opened Text
  import opened Utils

  // ---------------------------------------------------------------------
  // The hover link and the `goto:` href
  // ---------------------------------------------------------------------

  function GotoHref(fileName: string, functionName: string): string {
    "goto:" + fileName + ":" + functionName
  }

  /** The link shown for an extended word `a.b` with exactly two dot-separated parts. */
  function GotoLink(extendedWord: string): (r: Option<string>)
    ensures r.Some? <==> '.' in extendedWord && |Split(extendedWord, '.')| == 2
  {
    if '.' !in extendedWord then None
    else
      var parts := Split(extendedWord, '.');
      if |parts| != 2 then None
      else Some("<a href=\"" + GotoHref(parts[0], parts[1]) + "\">Go to definition of " + extendedWord + "</a>")
  }

  /**
   * `on_hover` of the go-to listener: the popup it shows, if any. `word` is
   * the text of `view.word(point)` (empty when the region is empty) and
   * `extendedWord` that of the region grown over word characters, `.` and `_`.
   */
  function GotoPopup(isTextZone: bool, settings: Option<Settings>, isJenkins: bool,
                     word: string, extendedWord: string): Option<string>
  {
    if !isTextZone || settings.None? || !settings.value.enableGotoDefinition || !isJenkins || word == "" then None
    else if !settings.value.showGotoPopup then None
    else GotoLink(extendedWord)
  }

  /** What `_handle_goto` hands to `_goto_definition`: a name and an optional function name. */
  datatype Target = Target(fileOrFunction: string, functionName: Option<string>)

  /** `_handle_goto`'s parsing: hrefs not starting with `goto:` are ignored. */
  function ParseHref(href: string): Option<Target> {
    if !StartsWith(href, "goto:") then None
    else
      var parts := Split(href[5..], ':');
      if |parts| == 2 then Some(Target(parts[0], Some(parts[1])))
      else Some(Target(parts[0], None))
  }

  /** An href is parsed exactly when it starts with `goto:`; two parts give a pair, any other count the first part alone. */
  lemma ParseHrefCases(href: string)
    ensures ParseHref(href).None? <==> !StartsWith(href, "goto:")
    ensures StartsWith(href, "goto:") ==>
      var parts := Split(href[5..], ':');
      && ParseHref(href).value.fileOrFunction == parts[0]
      && (ParseHref(href).value.functionName.Some? <==> |parts| == 2)
      && (|parts| == 2 ==> ParseHref(href).value.functionName == Some(parts[1]))
  {
  }

  lemma JoinTwo(sep: string, a: string, b: string)
    ensures Join(sep, [a, b]) == a + sep + b
  {
    assert [a, b][..1] == [a];
  }

  /**
   * The link shown over `f.fn` (both free of `.` and `:`) carries the href
   * `goto:f:fn`, and following it dispatches exactly the pair (f, fn).
   */
  lemma LinkRoundTrip(f: string, fn: string)
    requires '.' !in f && '.' !in fn && ':' !in f && ':' !in fn
    ensures GotoLink(f + "." + fn) ==
      Some("<a href=\"" + GotoHref(f, fn) + "\">Go to definition of " + (f + "." + fn) + "</a>")
    ensures ParseHref(GotoHref(f, fn)) == Some(Target(f, Some(fn)))
  {
    var w := f + "." + fn;
    JoinTwo(".", f, fn);
    SplitJoin([f, fn], '.');
    assert Split(w, '.') == [f, fn];
    assert w[|f|] == '.';
    var h := GotoHref(f, fn);
    assert h == "goto:" + (f + ":" + fn);
    assert h[..5] == "goto:";
    assert h[5..] == f + ":" + fn;
    JoinTwo(":", f, fn);
    SplitJoin([f, fn], ':');
  }

  /** An href without a second `:` names one target, which is looked up on its own. */
  lemma SingleNameHref(name: string)
    requires ':' !in name
    ensures ParseHref("goto:" + name) == Some(Target(name, None))
  {
    var h := "goto:" + name;
    assert h[..5] == "goto:";
    assert h[5..] == name;
    SplitFree(name, ':');
  }

  // ---------------------------------------------------------------------
  // Line numbers
  // ---------------------------------------------------------------------

  /**
   * The 0-based line of the first declaration of `name` in `content`: the
   * number of newlines before the match start. A regex match always starts
   * inside the searched text, so an oracle answer past its end is read as no
   * match.
   */
  function DefinitionLine(content: string, name: string, declStart: (string, string) -> Option<nat>): Option<nat> {
    var m := declStart(content, name);
    if m.Some? && m.value <= |content| then Some(CountChar(content[..m.value], '\n')) else None
  }

  /** The line is the number of newline characters strictly before the match start, and at most that start. */
  lemma DefinitionLineCounts(content: string, name: string, declStart: (string, string) -> Option<nat>)
    ensures DefinitionLine(content, name, declStart).Some? <==>
      (declStart(content, name).Some? && declStart(content, name).value <= |content|)
    ensures DefinitionLine(content, name, declStart).Some? ==>
      var start := declStart(content, name).value;
      && DefinitionLine(content, name, declStart).value == multiset(content[..start])['\n']
      && DefinitionLine(content, name, declStart).value <= start
      && (DefinitionLine(content, name, declStart).value == 0 <==> '\n' !in content[..start])
  {
    var m := declStart(content, name);
    if m.Some? && m.value <= |content| {
      var pre := content[..m.value];
      CountCharMultiset(pre, '\n');
      assert multiset(pre)['\n'] <= |multiset(pre)|;
      assert '\n' in pre <==> '\n' in multiset(pre);
    }
  }

  /** The editor actions the go-to listener can end with. */
  datatype Action =
    | NoAction
    | MoveCursor(line: nat)               // `view.text_point(line, 0)` in the current view: 0-based line
    | OpenAt(path: string, line: nat)     // `open_file("path:line:0", ENCODED_POSITION)`: 1-based line
    | OpenFile(path: string)
    | Status(message: string)

  /** `_find_function_in_current_file`: move the cursor to the line of the declaration. */
  function InCurrentFile(content: string, name: string, declStart: (string, string) -> Option<nat>): Option<Action> {
    var l := DefinitionLine(content, name, declStart);
    if l.Some? then Some(MoveCursor(l.value)) else None
  }

  /** `_find_and_open_function_in_file`: open the file one line past the 0-based count. */
  function OpenDefinition(path: string, name: string, read: string -> Option<string>,
                          declStart: (string, string) -> Option<nat>): Option<Action>
  {
    var content := read(path);
    if content.None? then None
    else
      var l := DefinitionLine(content.value, name, declStart);
      if l.Some? then Some(OpenAt(path, l.value + 1)) else None
  }

  /**
   * A definition found in the current view and the same text found in another
   * file land on the same line: the cursor goes to the 0-based line and the
   * file is opened at its 1-based number.
   */
  lemma SameLineBothWays(path: string, name: string, content: string, read: string -> Option<string>,
                         declStart: (string, string) -> Option<nat>)
    requires read(path) == Some(content)
    ensures InCurrentFile(content, name, declStart).Some? <==> OpenDefinition(path, name, read, declStart).Some?
    ensures InCurrentFile(content, name, declStart).Some? ==>
      && OpenDefinition(path, name, read, declStart).value.OpenAt?
      && OpenDefinition(path, name, read, declStart).value.path == path
      && OpenDefinition(path, name, read, declStart).value.line >= 1
      && OpenDefinition(path, name, read, declStart).value.line ==
         InCurrentFile(content, name, declStart).value.line + 1
  {
  }

  // ---------------------------------------------------------------------
  // Matching files by name
  // ---------------------------------------------------------------------

  /** The rule `_find_function_in_files` uses: the name occurs anywhere in the basename. */
  predicate SubstringRule(path: string, fileName: string) {
    Contains(Basename(path), fileName)
  }

  /** The rule `_find_and_open_file` uses: the basename is the name, with or without `.groovy`. */
  predicate ExactRule(path: string, fileName: string) {
    Basename(path) == fileName + ".groovy" || Basename(path) == fileName
  }

  /** Every file the exact rule accepts, the substring rule accepts too. */
  lemma ExactImpliesSubstring(path: string, fileName: string)
    requires ExactRule(path, fileName)
    ensures SubstringRule(path, fileName)
  {
    var b := Basename(path);
    assert b[..|fileName|] == fileName;
    assert OccursAt(b, fileName, 0);
  }

  /** The converse fails: `utils` occurs in `my_utils.groovy` but is not its name. */
  lemma SubstringIsLooser()
    ensures SubstringRule("ci/my_utils.groovy", "utils")
    ensures !ExactRule("ci/my_utils.groovy", "utils")
  {
    BasenameOfJoin("ci", "my_utils.groovy");
    assert "ci" + "/" + "my_utils.groovy" == "ci/my_utils.groovy";
    var b := "my_utils.groovy";
    assert b[3..3 + 5] == "utils";
    assert OccursAt(b, "utils", 3);
    assert |"utils" + ".groovy"| == 12 && |b| == 15;
  }

  /** An empty file name is a substring of every basename: `.fn` searches every file for `fn`. */
  lemma EmptyNameMatchesEverything(path: string)
    ensures SubstringRule(path, "")
  {
    assert OccursAt(Basename(path), "", 0);
  }

  // ---------------------------------------------------------------------
  // The `.groovy` listing of a folder
  // ---------------------------------------------------------------------

  /** One `(root, dirs, files)` triple of `os.walk`; the directory names are left out. */
  datatype WalkEntry = WalkEntry(root: string, files: seq<string>)

  /** `os.path.join(root, name)` for a plain file name. */
  function PathJoin(root: string, name: string): string {
    if root == "" || root[|root| - 1] == '/' then root + name else root + "/" + name
  }

  /** The basename of a joined path is the file name. */
  lemma PathJoinBasename(root: string, name: string)
    requires '/' !in name
    ensures Basename(PathJoin(root, name)) == name
  {
    if root == "" {
      assert PathJoin(root, name) == "" + "/" + name || PathJoin(root, name) == name;
      assert "" + name == name;
      BasenameOfJoin("", name);
      BasenameSlashFree(name);
    } else if root[|root| - 1] == '/' {
      var dir := root[..|root| - 1];
      assert root == dir + "/";
      assert root + name == dir + "/" + name;
      BasenameOfJoin(dir, name);
    } else {
      BasenameOfJoin(root, name);
    }
  }

  /** A name without a slash is its own basename. */
  lemma {:induction false} BasenameSlashFree(name: string)
    requires '/' !in name
    ensures Basename(name) == name
    decreases |name|
  {
    if name != [] {
      var init := name[..|name| - 1];
      assert name[|name| - 1] in name;
      assert forall k :: 0 <= k < |init| ==> init[k] == name[k];
      BasenameSlashFree(init);
      assert init + [name[|name| - 1]] == name;
    }
  }

  /** The `.groovy` files of one walk entry, joined to its root, in listing order. */
  function GroovyIn(root: string, files: seq<string>): seq<string>
    decreases |files|
  {
    if files == [] then []
    else
      var last := files[|files| - 1];
      GroovyIn(root, files[..|files| - 1]) + (if EndsWith(last, ".groovy") then [PathJoin(root, last)] else [])
  }

  /** The list `_get_groovy_files` builds from a walk. */
  function GroovyFiles(walk: seq<WalkEntry>): seq<string>
    decreases |walk|
  {
    if walk == [] then []
    else GroovyFiles(walk[..|walk| - 1]) + GroovyIn(walk[|walk| - 1].root, walk[|walk| - 1].files)
  }

  lemma {:induction false} GroovyInMembers(root: string, files: seq<string>, p: string)
    ensures p in GroovyIn(root, files) <==>
      exists j :: 0 <= j < |files| && EndsWith(files[j], ".groovy") && p == PathJoin(root, files[j])
    decreases |files|
  {
    if files != [] {
      var init := files[..|files| - 1];
      GroovyInMembers(root, init, p);
      assert forall j :: 0 <= j < |init| ==> init[j] == files[j];
      if p in GroovyIn(root, files) && p !in GroovyIn(root, init) {
        assert EndsWith(files[|files| - 1], ".groovy") && p == PathJoin(root, files[|files| - 1]);
      }
    }
  }

  /** A path is listed exactly when it joins some walk root to a file of that root ending in `.groovy`. */
  lemma {:induction false} GroovyFilesMembers(walk: seq<WalkEntry>, p: string)
    ensures p in GroovyFiles(walk) <==>
      exists k, j :: 0 <= k < |walk| && 0 <= j < |walk[k].files| &&
        EndsWith(walk[k].files[j], ".groovy") && p == PathJoin(walk[k].root, walk[k].files[j])
    decreases |walk|
  {
    if walk != [] {
      var init := walk[..|walk| - 1];
      var e := walk[|walk| - 1];
      GroovyFilesMembers(init, p);
      GroovyInMembers(e.root, e.files, p);
      assert forall k :: 0 <= k < |init| ==> init[k] == walk[k];
      if p in GroovyIn(e.root, e.files) {
        var j :| 0 <= j < |e.files| && EndsWith(e.files[j], ".groovy") && p == PathJoin(e.root, e.files[j]);
        assert walk[|walk| - 1].files[j] == e.files[j];
      }
      if exists k, j :: 0 <= k < |walk| && 0 <= j < |walk[k].files| &&
          EndsWith(walk[k].files[j], ".groovy") && p == PathJoin(walk[k].root, walk[k].files[j]) {
        var k, j :| 0 <= k < |walk| && 0 <= j < |walk[k].files| &&
          EndsWith(walk[k].files[j], ".groovy") && p == PathJoin(walk[k].root, walk[k].files[j]);
        if k == |walk| - 1 {
          assert p in GroovyIn(e.root, e.files);
        } else {
          assert p in GroovyFiles(init);
        }
      }
    }
  }

  /** Every listed path has a `.groovy` basename when the walk's file names have no slash. */
  lemma GroovyFilesAreGroovy(walk: seq<WalkEntry>, p: string)
    requires forall k, j :: 0 <= k < |walk| && 0 <= j < |walk[k].files| ==> '/' !in walk[k].files[j]
    requires p in GroovyFiles(walk)
    ensures EndsWith(Basename(p), ".groovy")
  {
    GroovyFilesMembers(walk, p);
    var k, j :| 0 <= k < |walk| && 0 <= j < |walk[k].files| &&
      EndsWith(walk[k].files[j], ".groovy") && p == PathJoin(walk[k].root, walk[k].files[j]);
    PathJoinBasename(walk[k].root, walk[k].files[j]);
  }

  // ---------------------------------------------------------------------
  // The cache
  // ---------------------------------------------------------------------

  /** `_cache_ttl`, in seconds. */
  const CacheTtl: real := 60.0

  /** A folder's cached list may be reused: it was recorded less than the TTL before `now`. */
  predicate Fresh(times: map<string, real>, folder: string, now: real) {
    folder in times && now - times[folder] < CacheTtl
  }

  /** The cache as values: the file lists and the times they were recorded, over the same folders. */
  datatype Cache = Cache(files: map<string, seq<string>>, times: map<string, real>)

  predicate CacheValid(c: Cache) {
    c.files.Keys == c.times.Keys
  }

  /**
   * `_get_groovy_files(folder)` on a cache: the list it returns and the cache
   * it leaves. `walk` is what `os.walk(folder)` yields at that moment.
   */
  function Lookup(c: Cache, folder: string, now: real, walk: seq<WalkEntry>): (r: (seq<string>, Cache))
    requires CacheValid(c)
    ensures CacheValid(r.1)
  {
    if Fresh(c.times, folder, now) then (c.files[folder], c)
    else
      var list := GroovyFiles(walk);
      (list, Cache(c.files[folder := list], c.times[folder := now]))
  }

  /**
   * Within the TTL the cached list comes back unchanged and the cache is left
   * as it is; otherwise the list is rebuilt from the walk and recorded with
   * `now`, and no other folder's entry changes.
   */
  lemma LookupCases(c: Cache, folder: string, now: real, walk: seq<WalkEntry>)
    requires CacheValid(c)
    ensures Fresh(c.times, folder, now) ==> Lookup(c, folder, now, walk) == (c.files[folder], c)
    ensures !Fresh(c.times, folder, now) ==>
      var r := Lookup(c, folder, now, walk);
      && r.0 == GroovyFiles(walk)
      && r.1.files[folder] == GroovyFiles(walk) && r.1.times[folder] == now
      && (forall g :: g != folder ==> (g in r.1.files <==> g in c.files))
      && (forall g :: g != folder && g in c.files ==> r.1.files[g] == c.files[g] && r.1.times[g] == c.times[g])
  {
  }

  /**
   * A lookup leaves the folder recorded, and any later lookup less than the
   * TTL after that recorded time returns the same list and changes nothing,
   * whatever the walk says by then. A cache hit does not renew the recorded
   * time: a list expires the TTL after it was built, however often it is used.
   */
  lemma RepeatedLookupStable(c: Cache, folder: string, now: real, later: real, walk: seq<WalkEntry>,
                             walk2: seq<WalkEntry>)
    requires CacheValid(c)
    ensures var r := Lookup(c, folder, now, walk);
      && folder in r.1.times
      && (!Fresh(c.times, folder, now) ==> r.1.times[folder] == now)
      && (Fresh(c.times, folder, now) ==> r.1.times[folder] == c.times[folder])
      && (later - r.1.times[folder] < CacheTtl ==> Lookup(r.1, folder, later, walk2) == r)
  {
  }

  /** Once the TTL has passed after a rebuild, the next lookup walks the folder again. */
  lemma ExpiredLookupRebuilds(c: Cache, folder: string, now: real, later: real, walk: seq<WalkEntry>,
                              walk2: seq<WalkEntry>)
    requires CacheValid(c)
    requires !Fresh(c.times, folder, now)
    requires later >= now + CacheTtl
    ensures var r := Lookup(c, folder, now, walk);
      Lookup(r.1, folder, later, walk2).0 == GroovyFiles(walk2)
  {
  }

  // ---------------------------------------------------------------------
  // Searching the project
  // ---------------------------------------------------------------------

  /** The two project searches: a function inside a file matched by substring, or a file matched exactly. */
  datatype Rule = Definition(fileName: string, functionName: string) | FileByName(fileName: string)

  /** The action one path yields under a rule, if the search stops there. */
  function Probe(rule: Rule, path: string, read: string -> Option<string>,
                 declStart: (string, string) -> Option<nat>): Option<Action>
  {
    match rule
    case Definition(f, fn) => if SubstringRule(path, f) then OpenDefinition(path, fn, read, declStart) else None
    case FileByName(f) => if ExactRule(path, f) then Some(OpenFile(path)) else None
  }

  /** The first path of a folder's list at which the search stops. */
  function FirstHit(rule: Rule, paths: seq<string>, read: string -> Option<string>,
                    declStart: (string, string) -> Option<nat>): Option<Action>
    decreases |paths|
  {
    if paths == [] then None
    else
      var a := Probe(rule, paths[0], read, declStart);
      if a.Some? then a else FirstHit(rule, paths[1..], read, declStart)
  }

  /** The search stops at the first path whose probe succeeds, and nowhere else. */
  lemma {:induction false} FirstHitIsFirst(rule: Rule, paths: seq<string>, read: string -> Option<string>,
                                           declStart: (string, string) -> Option<nat>)
    ensures FirstHit(rule, paths, read, declStart).None? <==>
      forall i :: 0 <= i < |paths| ==> Probe(rule, paths[i], read, declStart).None?
    ensures FirstHit(rule, paths, read, declStart).Some? ==>
      exists i :: 0 <= i < |paths| && FirstHit(rule, paths, read, declStart) == Probe(rule, paths[i], read, declStart)
        && forall j :: 0 <= j < i ==> Probe(rule, paths[j], read, declStart).None?
    decreases |paths|
  {
    if paths != [] {
      var tail := paths[1..];
      FirstHitIsFirst(rule, tail, read, declStart);
      assert forall i :: 1 <= i < |paths| ==> paths[i] == tail[i - 1];
      if Probe(rule, paths[0], read, declStart).None? && FirstHit(rule, tail, read, declStart).Some? {
        var i :| 0 <= i < |tail| && FirstHit(rule, tail, read, declStart) == Probe(rule, tail[i], read, declStart)
          && forall j :: 0 <= j < i ==> Probe(rule, tail[j], read, declStart).None?;
        assert FirstHit(rule, paths, read, declStart) == Probe(rule, paths[i + 1], read, declStart);
        assert forall j :: 0 <= j < i + 1 ==> Probe(rule, paths[j], read, declStart).None? by {
          forall j | 0 <= j < i + 1
            ensures Probe(rule, paths[j], read, declStart).None?
          {
            if j > 0 {
              assert paths[j] == tail[j - 1];
            }
          }
        }
      }
    }
  }

  /** What a successful probe means under each rule. */
  lemma ProbeMeaning(rule: Rule, path: string, read: string -> Option<string>,
                     declStart: (string, string) -> Option<nat>)
    ensures rule.Definition? ==>
      (Probe(rule, path, read, declStart).Some? <==>
        && SubstringRule(path, rule.fileName)
        && read(path).Some?
        && DefinitionLine(read(path).value, rule.functionName, declStart).Some?)
    ensures rule.Definition? && Probe(rule, path, read, declStart).Some? ==>
      Probe(rule, path, read, declStart).value ==
        OpenAt(path, DefinitionLine(read(path).value, rule.functionName, declStart).value + 1)
    ensures rule.FileByName? ==>
      (Probe(rule, path, read, declStart).Some? <==> ExactRule(path, rule.fileName))
    ensures rule.FileByName? && Probe(rule, path, read, declStart).Some? ==>
      Probe(rule, path, read, declStart).value == OpenFile(path)
  {
  }

  /**
   * The folders in order, each listed through the cache, until one of them
   * yields a hit; the folders after it are not listed. All lookups of one
   * search use the same clock reading.
   */
  function SearchFolders(rule: Rule, c: Cache, folders: seq<string>, now: real, walks: string -> seq<WalkEntry>,
                         read: string -> Option<string>, declStart: (string, string) -> Option<nat>)
    : (r: (Option<Action>, Cache))
    requires CacheValid(c)
    ensures CacheValid(r.1)
    decreases |folders|
  {
    if folders == [] then (None, c)
    else
      var l := Lookup(c, folders[0], now, walks(folders[0]));
      var hit := FirstHit(rule, l.0, read, declStart);
      if hit.Some? then (hit, l.1) else SearchFolders(rule, l.1, folders[1..], now, walks, read, declStart)
  }

  /** The message shown when no folder yields a hit. */
  function NotFound(rule: Rule): string {
    match rule
    case Definition(f, fn) => "Definition not found: " + fn + " in " + f + ".groovy"
    case FileByName(f) => "File not found: " + f + ".groovy"
  }

  /** `_find_function_in_files` / `_find_and_open_file`: the action and the cache afterwards. */
  function Search(rule: Rule, c: Cache, folders: seq<string>, now: real, walks: string -> seq<WalkEntry>,
                  read: string -> Option<string>, declStart: (string, string) -> Option<nat>): (Action, Cache)
    requires CacheValid(c)
  {
    if folders == [] then (Status("No project folder open"), c)
    else
      var r := SearchFolders(rule, c, folders, now, walks, read, declStart);
      if r.0.Some? then (r.0.value, r.1) else (Status(NotFound(rule)), r.1)
  }

  /**
   * The lists the folders yield when each is listed in turn through the
   * cache, every lookup seeing the cache the previous one left.
   */
  function Listings(c: Cache, folders: seq<string>, now: real, walks: string -> seq<WalkEntry>): (r: seq<seq<string>>)
    requires CacheValid(c)
    ensures |r| == |folders|
    decreases |folders|
  {
    if folders == [] then []
    else
      var l := Lookup(c, folders[0], now, walks(folders[0]));
      [l.0] + Listings(l.1, folders[1..], now, walks)
  }

  /** No path of the list yields a hit under the rule. */
  predicate NoHit(rule: Rule, paths: seq<string>, read: string -> Option<string>,
                  declStart: (string, string) -> Option<nat>)
  {
    forall i :: 0 <= i < |paths| ==> Probe(rule, paths[i], read, declStart).None?
  }

  /** No path of any of the lists yields a hit under the rule. */
  predicate NoHitIn(rule: Rule, ls: seq<seq<string>>, read: string -> Option<string>,
                    declStart: (string, string) -> Option<nat>)
  {
    forall k :: 0 <= k < |ls| ==> NoHit(rule, ls[k], read, declStart)
  }

  /**
   * `a` is the probe of path `i` of list `k`, the first hit in list order:
   * no earlier list has a hit and no earlier path of list `k` has one.
   */
  predicate FirstHitAt(rule: Rule, ls: seq<seq<string>>, k: int, i: int, a: Option<Action>,
                       read: string -> Option<string>, declStart: (string, string) -> Option<nat>)
  {
    && 0 <= k < |ls| && 0 <= i < |ls[k]| && a == Probe(rule, ls[k][i], read, declStart)
    && NoHitIn(rule, ls[..k], read, declStart)
    && (forall j :: 0 <= j < i ==> Probe(rule, ls[k][j], read, declStart).None?)
  }

  lemma NoHitInCons(rule: Rule, head: seq<string>, rest: seq<seq<string>>, read: string -> Option<string>,
                    declStart: (string, string) -> Option<nat>)
    ensures NoHitIn(rule, [head] + rest, read, declStart) <==>
      NoHit(rule, head, read, declStart) && NoHitIn(rule, rest, read, declStart)
  {
    var ls := [head] + rest;
    assert ls[0] == head;
    assert forall k :: 0 <= k < |rest| ==> ls[k + 1] == rest[k];
  }

  lemma FirstHitAtCons(rule: Rule, head: seq<string>, rest: seq<seq<string>>, k: int, i: int, a: Option<Action>,
                       read: string -> Option<string>, declStart: (string, string) -> Option<nat>)
    requires NoHit(rule, head, read, declStart)
    requires FirstHitAt(rule, rest, k, i, a, read, declStart)
    ensures FirstHitAt(rule, [head] + rest, k + 1, i, a, read, declStart)
  {
    var ls := [head] + rest;
    assert ls[k + 1] == rest[k];
    assert ls[..k + 1] == [head] + rest[..k];
    NoHitInCons(rule, head, rest[..k], read, declStart);
  }

  /** The folder loop finds nothing exactly when no listed path of any folder yields a hit. */
  lemma {:induction false} SearchFoldersNone(rule: Rule, c: Cache, folders: seq<string>, now: real,
                                             walks: string -> seq<WalkEntry>, read: string -> Option<string>,
                                             declStart: (string, string) -> Option<nat>)
    requires CacheValid(c)
    ensures SearchFolders(rule, c, folders, now, walks, read, declStart).0.None? <==>
      NoHitIn(rule, Listings(c, folders, now, walks), read, declStart)
    decreases |folders|
  {
    if folders != [] {
      var l := Lookup(c, folders[0], now, walks(folders[0]));
      var rest := Listings(l.1, folders[1..], now, walks);
      assert Listings(c, folders, now, walks) == [l.0] + rest;
      FirstHitIsFirst(rule, l.0, read, declStart);
      NoHitInCons(rule, l.0, rest, read, declStart);
      if FirstHit(rule, l.0, read, declStart).None? {
        SearchFoldersNone(rule, l.1, folders[1..], now, walks, read, declStart);
      }
    }
  }

  /** Otherwise its action is the first hit in list order: the probe of a listed path. */
  lemma {:induction false} SearchFoldersFirst(rule: Rule, c: Cache, folders: seq<string>, now: real,
                                              walks: string -> seq<WalkEntry>, read: string -> Option<string>,
                                              declStart: (string, string) -> Option<nat>)
    requires CacheValid(c)
    ensures var a := SearchFolders(rule, c, folders, now, walks, read, declStart).0;
      a.Some? ==> exists k, i :: FirstHitAt(rule, Listings(c, folders, now, walks), k, i, a, read, declStart)
    decreases |folders|
  {
    if folders != [] {
      var l := Lookup(c, folders[0], now, walks(folders[0]));
      var rest := Listings(l.1, folders[1..], now, walks);
      var ls := Listings(c, folders, now, walks);
      assert ls == [l.0] + rest;
      var hit := FirstHit(rule, l.0, read, declStart);
      FirstHitIsFirst(rule, l.0, read, declStart);
      if hit.Some? {
        var i :| 0 <= i < |l.0| && hit == Probe(rule, l.0[i], read, declStart)
          && forall j :: 0 <= j < i ==> Probe(rule, l.0[j], read, declStart).None?;
        assert ls[0] == l.0 && ls[..0] == [];
        assert FirstHitAt(rule, ls, 0, i, hit, read, declStart);
      } else {
        SearchFoldersFirst(rule, l.1, folders[1..], now, walks, read, declStart);
        var a := SearchFolders(rule, l.1, folders[1..], now, walks, read, declStart).0;
        if a.Some? {
          var k, i :| FirstHitAt(rule, rest, k, i, a, read, declStart);
          FirstHitAtCons(rule, l.0, rest, k, i, a, read, declStart);
        }
      }
    }
  }

  /**
   * The folder loop finds nothing exactly when no listed path of any folder
   * yields a hit; otherwise its action is the probe of a listed path, the
   * first hit of the first folder that has one.
   */
  lemma SearchFoldersHit(rule: Rule, c: Cache, folders: seq<string>, now: real,
                         walks: string -> seq<WalkEntry>, read: string -> Option<string>,
                         declStart: (string, string) -> Option<nat>)
    requires CacheValid(c)
    ensures var a := SearchFolders(rule, c, folders, now, walks, read, declStart).0;
      var ls := Listings(c, folders, now, walks);
      && (a.None? <==> NoHitIn(rule, ls, read, declStart))
      && (a.Some? ==> exists k, i :: FirstHitAt(rule, ls, k, i, a, read, declStart))
      && (a.Some? ==> exists k, i :: 0 <= k < |ls| && 0 <= i < |ls[k]| && a == Probe(rule, ls[k][i], read, declStart))
  {
    SearchFoldersNone(rule, c, folders, now, walks, read, declStart);
    SearchFoldersFirst(rule, c, folders, now, walks, read, declStart);
  }

  /**
   * The definition search: "No project folder open" exactly when there are
   * no folders; otherwise the not-found message exactly when no listed path
   * yields a hit, and else the opening, at a line numbered from 1, of a
   * listed path whose basename contains the name.
   */
  lemma DefinitionSearchOpens(fileName: string, functionName: string, c: Cache, folders: seq<string>, now: real,
                              walks: string -> seq<WalkEntry>, read: string -> Option<string>,
                              declStart: (string, string) -> Option<nat>)
    requires CacheValid(c)
    ensures var rule := Definition(fileName, functionName);
      var a := Search(rule, c, folders, now, walks, read, declStart).0;
      var ls := Listings(c, folders, now, walks);
      && (folders == [] <==> a == Status("No project folder open"))
      && (folders != [] ==>
            (a == Status(NotFound(rule)) <==> NoHitIn(rule, ls, read, declStart)))
      && (a.Status? || (a.OpenAt? && SubstringRule(a.path, fileName) && a.line >= 1))
      && (a.OpenAt? ==> exists k, i :: 0 <= k < |ls| && 0 <= i < |ls[k]| && a.path == ls[k][i])
  {
    var rule := Definition(fileName, functionName);
    SearchFoldersHit(rule, c, folders, now, walks, read, declStart);
    var r := SearchFolders(rule, c, folders, now, walks, read, declStart);
    var ls := Listings(c, folders, now, walks);
    if folders != [] {
      if r.0.Some? {
        var k, i :| 0 <= k < |ls| && 0 <= i < |ls[k]| && r.0 == Probe(rule, ls[k][i], read, declStart);
        ProbeMeaning(rule, ls[k][i], read, declStart);
      } else {
        var m := NotFound(rule);
        assert m[0] == 'D';
        assert "No project folder open"[0] == 'N';
      }
    }
  }

  /**
   * The file search: "No project folder open" exactly when there are no
   * folders; otherwise the not-found message exactly when no listed path
   * yields a hit, and else the opening of a listed path whose basename is
   * exactly the name, with or without `.groovy`.
   */
  lemma FileSearchOpens(fileName: string, c: Cache, folders: seq<string>, now: real,
                        walks: string -> seq<WalkEntry>, read: string -> Option<string>,
                        declStart: (string, string) -> Option<nat>)
    requires CacheValid(c)
    ensures var rule := FileByName(fileName);
      var a := Search(rule, c, folders, now, walks, read, declStart).0;
      var ls := Listings(c, folders, now, walks);
      && (folders == [] <==> a == Status("No project folder open"))
      && (folders != [] ==>
            (a == Status(NotFound(rule)) <==> NoHitIn(rule, ls, read, declStart)))
      && (a.Status? || (a.OpenFile? && ExactRule(a.path, fileName)))
      && (a.OpenFile? ==> exists k, i :: 0 <= k < |ls| && 0 <= i < |ls[k]| && a.path == ls[k][i])
  {
    var rule := FileByName(fileName);
    SearchFoldersHit(rule, c, folders, now, walks, read, declStart);
    var r := SearchFolders(rule, c, folders, now, walks, read, declStart);
    var ls := Listings(c, folders, now, walks);
    if folders != [] {
      if r.0.Some? {
        var k, i :| 0 <= k < |ls| && 0 <= i < |ls[k]| && r.0 == Probe(rule, ls[k][i], read, declStart);
        ProbeMeaning(rule, ls[k][i], read, declStart);
      } else {
        var m := NotFound(rule);
        assert m[0] == 'F';
        assert "No project folder open"[0] == 'N';
      }
    }
  }

  /**
   * `_goto_definition`: nothing without a window; a non-empty function name
   * searches the project's files; otherwise the current view is searched
   * first and then a file of that name is looked for.
   */
  function GotoDefinition(c: Cache, hasWindow: bool, target: Target, currentContent: string, folders: seq<string>,
                          now: real, walks: string -> seq<WalkEntry>, read: string -> Option<string>,
                          declStart: (string, string) -> Option<nat>): (Action, Cache)
    requires CacheValid(c)
  {
    if !hasWindow then (NoAction, c)
    else if target.functionName.Some? && target.functionName.value != "" then
      Search(Definition(target.fileOrFunction, target.functionName.value), c, folders, now, walks, read, declStart)
    else
      var here := InCurrentFile(currentContent, target.fileOrFunction, declStart);
      if here.Some? then (here.value, c)
      else Search(FileByName(target.fileOrFunction), c, folders, now, walks, read, declStart)
  }

  /**
   * Following `goto:a:` behaves like following `goto:a`: the empty function
   * name is falsy, so `a` is looked up on its own.
   */
  lemma EmptyFunctionNameIsSingleName(c: Cache, hasWindow: bool, name: string, currentContent: string,
                                      folders: seq<string>, now: real, walks: string -> seq<WalkEntry>,
                                      read: string -> Option<string>, declStart: (string, string) -> Option<nat>)
    requires CacheValid(c)
    ensures GotoDefinition(c, hasWindow, Target(name, Some("")), currentContent, folders, now, walks, read, declStart)
         == GotoDefinition(c, hasWindow, Target(name, None), currentContent, folders, now, walks, read, declStart)
  {
  }

  /** A single name found in the current view moves the cursor there and leaves the cache alone. */
  lemma CurrentFileFirst(c: Cache, name: string, currentContent: string, folders: seq<string>, now: real,
                         walks: string -> seq<WalkEntry>, read: string -> Option<string>,
                         declStart: (string, string) -> Option<nat>)
    requires CacheValid(c)
    requires DefinitionLine(currentContent, name, declStart).Some?
    ensures GotoDefinition(c, true, Target(name, None), currentContent, folders, now, walks, read, declStart)
         == (MoveCursor(DefinitionLine(currentContent, name, declStart).value), c)
  {
  }

  /** The whole navigation a popup link triggers: `_handle_goto` followed by `_goto_definition`. */
  function Navigate(c: Cache, href: string, hasWindow: bool, currentContent: string, folders: seq<string>,
                    now: real, walks: string -> seq<WalkEntry>, read: string -> Option<string>,
                    declStart: (string, string) -> Option<nat>): (Action, Cache)
    requires CacheValid(c)
  {
    var t := ParseHref(href);
    if t.None? then (NoAction, c)
    else GotoDefinition(c, hasWindow, t.value, currentContent, folders, now, walks, read, declStart)
  }

  // ---------------------------------------------------------------------
  // The listener object
  // ---------------------------------------------------------------------

  /** `JenkinsGoToDefinitionCommand` with its two cache dictionaries. */
  class GoToDefinition {
    var fileCache: map<string, seq<string>>
    var cacheTime: map<string, real>

    /** Both dictionaries are always written together. */
    ghost predicate Valid()
      reads this
    {
      fileCache.Keys == cacheTime.Keys
    }

    function State(): Cache
      reads this
    {
      Cache(fileCache, cacheTime)
    }

    constructor()
      ensures Valid() && fileCache == map[] && cacheTime == map[]
    {
      fileCache := map[];
      cacheTime := map[];
    }

    /** `_get_groovy_files`; `walk` is what `os.walk(folder)` yields now. */
    method GetGroovyFiles(folder: string, now: real, walk: seq<WalkEntry>) returns (files: seq<string>)
      requires Valid()
      modifies this
      ensures Valid()
      ensures (files, State()) == Lookup(old(State()), folder, now, walk)
    {
      if folder in cacheTime && now - cacheTime[folder] < CacheTtl {
        return fileCache[folder];
      }
      files := [];
      var k := 0;
      while k < |walk|
        invariant 0 <= k <= |walk|
        invariant files == GroovyFiles(walk[..k])
      {
        var root := walk[k].root;
        var names := walk[k].files;
        var j := 0;
        while j < |names|
          invariant 0 <= j <= |names|
          invariant files == GroovyFiles(walk[..k]) + GroovyIn(root, names[..j])
        {
          if EndsWith(names[j], ".groovy") {
            files := files + [PathJoin(root, names[j])];
          }
          assert names[..j + 1][..j] == names[..j];
          j := j + 1;
        }
        assert names[..j] == names;
        assert walk[..k + 1][..k] == walk[..k];
        k := k + 1;
      }
      assert walk[..k] == walk;
      fileCache := fileCache[folder := files];
      cacheTime := cacheTime[folder := now];
    }

    /** `_find_function_in_files`. */
    method FindFunctionInFiles(folders: seq<string>, fileName: string, functionName: string, now: real,
                               walks: string -> seq<WalkEntry>, read: string -> Option<string>,
                               declStart: (string, string) -> Option<nat>) returns (action: Action)
      requires Valid()
      modifies this
      ensures Valid()
      ensures (action, State()) ==
        Search(Definition(fileName, functionName), old(State()), folders, now, walks, read, declStart)
    {
      var rule := Definition(fileName, functionName);
      if folders == [] {
        return Status("No project folder open");
      }
      var i := 0;
      while i < |folders|
        invariant 0 <= i <= |folders| && Valid()
        invariant SearchFolders(rule, old(State()), folders, now, walks, read, declStart)
               == SearchFolders(rule, State(), folders[i..], now, walks, read, declStart)
      {
        ghost var before := State();
        var folder := folders[i];
        var paths := GetGroovyFiles(folder, now, walks(folder));
        assert folders[i..][1..] == folders[i + 1..];
        var j := 0;
        while j < |paths|
          invariant 0 <= j <= |paths|
          invariant FirstHit(rule, paths, read, declStart) == FirstHit(rule, paths[j..], read, declStart)
        {
          if SubstringRule(paths[j], fileName) {
            var found := OpenDefinition(paths[j], functionName, read, declStart);
            if found.Some? {
              assert FirstHit(rule, paths[j..], read, declStart) == found;
              assert SearchFolders(rule, before, folders[i..], now, walks, read, declStart) == (found, State());
              return found.value;
            }
          }
          assert paths[j..][1..] == paths[j + 1..];
          j := j + 1;
        }
        assert paths[j..] == [];
        i := i + 1;
      }
      action := Status(NotFound(rule));
    }

    /** `_find_and_open_file`. */
    method FindAndOpenFile(folders: seq<string>, fileName: string, now: real, walks: string -> seq<WalkEntry>,
                           ghost read: string -> Option<string>, ghost declStart: (string, string) -> Option<nat>)
      returns (action: Action)
      requires Valid()
      modifies this
      ensures Valid()
      ensures (action, State()) == Search(FileByName(fileName), old(State()), folders, now, walks, read, declStart)
    {
      ghost var rule := FileByName(fileName);
      if folders == [] {
        return Status("No project folder open");
      }
      var i := 0;
      while i < |folders|
        invariant 0 <= i <= |folders| && Valid()
        invariant SearchFolders(rule, old(State()), folders, now, walks, read, declStart)
               == SearchFolders(rule, State(), folders[i..], now, walks, read, declStart)
      {
        ghost var before := State();
        var folder := folders[i];
        var paths := GetGroovyFiles(folder, now, walks(folder));
        assert folders[i..][1..] == folders[i + 1..];
        var j := 0;
        while j < |paths|
          invariant 0 <= j <= |paths|
          invariant FirstHit(rule, paths, read, declStart) == FirstHit(rule, paths[j..], read, declStart)
        {
          var baseName := Basename(paths[j]);
          if baseName == fileName + ".groovy" || baseName == fileName {
            assert FirstHit(rule, paths[j..], read, declStart) == Some(OpenFile(paths[j]));
            assert SearchFolders(rule, before, folders[i..], now, walks, read, declStart)
                == (Some(OpenFile(paths[j])), State());
            return OpenFile(paths[j]);
          }
          assert paths[j..][1..] == paths[j + 1..];
          j := j + 1;
        }
        assert paths[j..] == [];
        i := i + 1;
      }
      action := Status("File not found: " + fileName + ".groovy");
    }

    /** `_goto_definition`. */
    method GotoDefinitionIn(hasWindow: bool, target: Target, currentContent: string, folders: seq<string>,
                            now: real, walks: string -> seq<WalkEntry>, read: string -> Option<string>,
                            declStart: (string, string) -> Option<nat>) returns (action: Action)
      requires Valid()
      modifies this
      ensures Valid()
      ensures (action, State()) ==
        GotoDefinition(old(State()), hasWindow, target, currentContent, folders, now, walks, read, declStart)
    {
      if !hasWindow {
        return NoAction;
      }
      if target.functionName.Some? && target.functionName.value != "" {
        action := FindFunctionInFiles(folders, target.fileOrFunction, target.functionName.value, now,
                                      walks, read, declStart);
      } else {
        var here := InCurrentFile(currentContent, target.fileOrFunction, declStart);
        if here.Some? {
          return here.value;
        }
        action := FindAndOpenFile(folders, target.fileOrFunction, now, walks, read, declStart);
      }
    }

    /** `_handle_goto`: parse the href and dispatch. */
    method HandleGoto(href: string, hasWindow: bool, currentContent: string, folders: seq<string>,
                      now: real, walks: string -> seq<WalkEntry>, read: string -> Option<string>,
                      declStart: (string, string) -> Option<nat>) returns (action: Action)
      requires Valid()
      modifies this
      ensures Valid()
      ensures (action, State()) == Navigate(old(State()), href, hasWindow, currentContent, folders, now,
                                             walks, read, declStart)
    {
      var t := ParseHref(href);
      if t.None? {
        return NoAction;
      }
      action := GotoDefinitionIn(hasWindow, t.value, currentContent, folders, now, walks, read, declStart);
    }
  }

  /** `on_hover` of the go-to listener, with `is_jenkins_file` evaluated on the view. */
  function OnGotoHover(isTextZone: bool, settings: Option<Settings>, fileName: string, scope: Option<string>,
                       fnmatch: (string, string) -> bool, word: string, extendedWord: string): (r: Option<string>)
    ensures r.Some? <==>
      && isTextZone && settings.Some? && settings.value.enableGotoDefinition
      && IsJenkinsFile(settings, fileName, scope, fnmatch) && word != ""
      && settings.value.showGotoPopup && '.' in extendedWord && |Split(extendedWord, '.')| == 2
  {
    GotoPopup(isTextZone, settings, IsJenkinsFile(settings, fileName, scope, fnmatch), word, extendedWord)
  }
}
