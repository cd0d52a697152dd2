/**
 * The completion lists `JenkinsCompletions` offers. Each entry is a pair of
 * a trigger (the label, with a tab before its annotation) and the snippet
 * inserted.
 */
module Completions {
  import opened Wrappers
  import opened Text
  import opened Knowledge
  import opened Index
  import opened Context
  import opened Utils

  datatype Completion = Completion(trigger: string, contents: string)

  /** The source's prefix test: an empty prefix admits every name; otherwise a case-insensitive `startswith`. */
  predicate MatchesPrefix(name: string, prefix: string) {
    prefix == "" || StartsWith(Lower(name), Lower(prefix))
  }

  // ---------------------------------------------------------------------
  // Priority commands
  // ---------------------------------------------------------------------

  /** The `priority_commands` dictionary in its insertion order. */
  const PriorityCommands: seq<(string, string)> := [
    ("echo", "echo '${1:message}'"),
    ("sh", "sh '${1:script}'"),
    ("git", "git url: '${1:url}'"),
    ("checkout", "checkout scm"),
    ("stage", "stage('${1:name}') {\n\t${0}\n}"),
    ("steps", "steps {\n\t${0}\n}"),
    ("pipeline", "pipeline {\n\t${0}\n}"),
    ("agent", "agent ${1:any}"),
    ("node", "node('${1:label}') {\n\t${0}\n}"),
    ("script", "script {\n\t${0}\n}"),
    ("bat", "bat '${1:script}'"),
    ("powershell", "powershell '${1:script}'"),
    ("pwd", "pwd()"),
    ("dir", "dir('${1:path}') {\n\t${0}\n}"),
    ("deleteDir", "deleteDir()"),
    ("error", "error '${1:message}'"),
    ("unstable", "unstable '${1:message}'"),
    ("retry", "retry(${1:3}) {\n\t${0}\n}"),
    ("timeout", "timeout(time: ${1:1}, unit: '${2:HOURS}') {\n\t${0}\n}"),
    ("waitUntil", "waitUntil {\n\t${0}\n}"),
    ("sleep", "sleep ${1:60}"),
    ("input", "input '${1:Proceed?}'"),
    ("parallel", "parallel {\n\t${0}\n}"),
    ("when", "when {\n\t${0}\n}"),
    ("post", "post {\n\t${0}\n}")
  ]

  function PriorityCompletion(entry: (string, string)): Completion {
    Completion(entry.0 + "\tJenkins", entry.1)
  }

  /** The priority completions admitted by the prefix, in declared order. */
  function PriorityPart(cmds: seq<(string, string)>, prefix: string): seq<Completion>
    decreases |cmds|
  {
    if cmds == [] then []
    else
      var init := PriorityPart(cmds[..|cmds| - 1], prefix);
      var last := cmds[|cmds| - 1];
      if MatchesPrefix(last.0, prefix) then init + [PriorityCompletion(last)] else init
  }

  /** The lowercased priority commands recorded in `added_commands`. */
  function PriorityAdded(cmds: seq<(string, string)>, prefix: string): set<string>
    decreases |cmds|
  {
    if cmds == [] then {}
    else
      var init := PriorityAdded(cmds[..|cmds| - 1], prefix);
      var last := cmds[|cmds| - 1];
      if MatchesPrefix(last.0, prefix) then init + {Lower(last.0)} else init
  }

  /** Every priority completion offered comes from an admitted entry, and every admitted entry is recorded. */
  lemma {:induction false} PriorityPartSound(cmds: seq<(string, string)>, prefix: string)
    ensures forall c :: c in PriorityPart(cmds, prefix) ==>
      exists e :: e in cmds && MatchesPrefix(e.0, prefix) && c == PriorityCompletion(e)
    ensures forall e :: e in cmds && MatchesPrefix(e.0, prefix) ==> Lower(e.0) in PriorityAdded(cmds, prefix)
    ensures forall a :: a in PriorityAdded(cmds, prefix) ==>
      exists e :: e in cmds && MatchesPrefix(e.0, prefix) && a == Lower(e.0)
    decreases |cmds|
  {
    if cmds != [] {
      var init := cmds[..|cmds| - 1];
      PriorityPartSound(init, prefix);
      assert forall e :: e in cmds ==> e in init || e == cmds[|cmds| - 1];
      assert forall e :: e in init ==> e in cmds;
    }
  }

  /** How many admitted entries come before position `i`: the place of entry `i` in the group. */
  function PriorityRank(cmds: seq<(string, string)>, prefix: string, i: int): nat
    requires 0 <= i <= |cmds|
  {
    |PriorityPart(cmds[..i], prefix)|
  }

  /** The group for a prefix of the commands is a prefix of the group. */
  lemma {:induction false} PriorityPartPrefix(cmds: seq<(string, string)>, prefix: string, j: int)
    requires 0 <= j <= |cmds|
    ensures PriorityPart(cmds[..j], prefix) <= PriorityPart(cmds, prefix)
    decreases |cmds|
  {
    if j < |cmds| {
      var init := cmds[..|cmds| - 1];
      assert init[..j] == cmds[..j];
      PriorityPartPrefix(init, prefix, j);
    } else {
      assert cmds[..j] == cmds;
    }
  }

  /** Every admitted entry is offered, at its rank. */
  lemma PriorityPartComplete(cmds: seq<(string, string)>, prefix: string, i: int)
    requires 0 <= i < |cmds| && MatchesPrefix(cmds[i].0, prefix)
    ensures PriorityRank(cmds, prefix, i) < |PriorityPart(cmds, prefix)|
    ensures PriorityPart(cmds, prefix)[PriorityRank(cmds, prefix, i)] == PriorityCompletion(cmds[i])
  {
    assert cmds[..i + 1][..i] == cmds[..i];
    assert PriorityPart(cmds[..i + 1], prefix) == PriorityPart(cmds[..i], prefix) + [PriorityCompletion(cmds[i])];
    PriorityPartPrefix(cmds, prefix, i + 1);
  }

  /** Admitted entries keep their declared order: an earlier one has a smaller rank. */
  lemma PriorityPartOrder(cmds: seq<(string, string)>, prefix: string, i: int, j: int)
    requires 0 <= i < j <= |cmds| && MatchesPrefix(cmds[i].0, prefix)
    ensures PriorityRank(cmds, prefix, i) < PriorityRank(cmds, prefix, j)
  {
    assert cmds[..i + 1][..i] == cmds[..i];
    assert PriorityPart(cmds[..i + 1], prefix) == PriorityPart(cmds[..i], prefix) + [PriorityCompletion(cmds[i])];
    assert cmds[..j][..i + 1] == cmds[..i + 1];
    PriorityPartPrefix(cmds[..j], prefix, i + 1);
  }

  /** In the error handler, the three fixed completions are those of `echo`, `sh` and `pipeline`. */
  const ExceptionFallback: seq<Completion> := [
    Completion("echo\tJenkins", "echo '${1:message}'"),
    Completion("sh\tJenkins", "sh '${1:script}'"),
    Completion("pipeline\tJenkins", "pipeline {\n\t${0}\n}")
  ]

  lemma FallbackEcho()
    ensures ExceptionFallback[0] == PriorityCompletion(PriorityCommands[0])
  {
    assert "echo" + "\tJenkins" == "echo\tJenkins";
  }

  lemma FallbackSh()
    ensures ExceptionFallback[1] == PriorityCompletion(PriorityCommands[1])
  {
    assert "sh" + "\tJenkins" == "sh\tJenkins";
  }

  lemma FallbackPipeline()
    ensures ExceptionFallback[2] == PriorityCompletion(PriorityCommands[6])
  {
    assert "pipeline" + "\tJenkins" == "pipeline\tJenkins";
  }

  lemma ExceptionFallbackIsPriority()
    ensures |ExceptionFallback| == 3
    ensures ExceptionFallback[0] == PriorityCompletion(PriorityCommands[0])
    ensures ExceptionFallback[1] == PriorityCompletion(PriorityCommands[1])
    ensures ExceptionFallback[2] == PriorityCompletion(PriorityCommands[6])
  {
    FallbackEcho();
    FallbackSh();
    FallbackPipeline();
  }

  // ---------------------------------------------------------------------
  // `_get_instruction_completions`
  // ---------------------------------------------------------------------

  /** `cmd(${1})` for a step with parameters, `cmd()` otherwise. */
  function InstructionCompletion(i: Instruction): Completion {
    Completion(i.command + "\tJenkins Step",
               if i.parameters != [] then i.command + "(${1})" else i.command + "()")
  }

  /** The snippet has a placeholder exactly when the step has parameters; the label names the step. */
  lemma InstructionSnippet(i: Instruction)
    ensures InstructionCompletion(i).contents == i.command + "(${1})" <==> i.parameters != []
    ensures InstructionCompletion(i).contents == i.command + "()" <==> i.parameters == []
    ensures InstructionCompletion(i).trigger == i.command + "\tJenkins Step"
  {
    var c := InstructionCompletion(i).contents;
    if i.parameters == [] {
      assert |c| != |i.command + "(${1})"|;
    } else {
      assert |c| != |i.command + "()"|;
    }
  }

  /** The steps chosen so far and the `added_commands` set after them. */
  datatype Selection = Selection(chosen: seq<Instruction>, added: set<string>)

  /** The loop of `_get_instruction_completions` over the first steps of `instrs`. */
  function Select(instrs: seq<Instruction>, prefix: string, added: set<string>): Selection
    decreases |instrs|
  {
    if instrs == [] then Selection([], added)
    else
      var r := Select(instrs[..|instrs| - 1], prefix, added);
      var i := instrs[|instrs| - 1];
      if Lower(i.command) in r.added || !MatchesPrefix(i.command, prefix) then r
      else Selection(r.chosen + [i], r.added + {Lower(i.command)})
  }

  ghost function LowerCommands(xs: seq<Instruction>): set<string> {
    set k | 0 <= k < |xs| :: Lower(xs[k].command)
  }

  lemma LowerCommandsSnoc(xs: seq<Instruction>, i: Instruction)
    ensures LowerCommands(xs + [i]) == LowerCommands(xs) + {Lower(i.command)}
  {
    var ch := xs + [i];
    forall a | a in LowerCommands(ch) ensures a in LowerCommands(xs) + {Lower(i.command)} {
      var k :| 0 <= k < |ch| && a == Lower(ch[k].command);
      if k < |xs| {
        assert ch[k] == xs[k];
      }
    }
    forall a | a in LowerCommands(xs) ensures a in LowerCommands(ch) {
      var k :| 0 <= k < |xs| && a == Lower(xs[k].command);
      assert ch[k] == xs[k];
    }
    assert ch[|ch| - 1] == i;
  }

  /** The set grows by exactly the chosen commands. */
  lemma {:induction false} SelectAdded(instrs: seq<Instruction>, prefix: string, added: set<string>)
    ensures Select(instrs, prefix, added).added == added + LowerCommands(Select(instrs, prefix, added).chosen)
    decreases |instrs|
  {
    if instrs != [] {
      var init := instrs[..|instrs| - 1];
      var i := instrs[|instrs| - 1];
      SelectAdded(init, prefix, added);
      var r0 := Select(init, prefix, added);
      if !(Lower(i.command) in r0.added || !MatchesPrefix(i.command, prefix)) {
        LowerCommandsSnoc(r0.chosen, i);
      }
    }
  }

  /** Each chosen step is one of the steps, matches the prefix and was not already recorded. */
  lemma {:induction false} SelectChosen(instrs: seq<Instruction>, prefix: string, added: set<string>)
    ensures var r := Select(instrs, prefix, added);
      forall k :: 0 <= k < |r.chosen| ==>
        r.chosen[k] in instrs && MatchesPrefix(r.chosen[k].command, prefix) && Lower(r.chosen[k].command) !in added
    decreases |instrs|
  {
    if instrs != [] {
      var init := instrs[..|instrs| - 1];
      var i := instrs[|instrs| - 1];
      SelectChosen(init, prefix, added);
      SelectAdded(init, prefix, added);
      var r0 := Select(init, prefix, added);
      assert forall x :: x in init ==> x in instrs;
      if !(Lower(i.command) in r0.added || !MatchesPrefix(i.command, prefix)) {
        var ch := r0.chosen + [i];
        forall k | 0 <= k < |ch|
          ensures ch[k] in instrs && MatchesPrefix(ch[k].command, prefix) && Lower(ch[k].command) !in added
        {
          if k < |r0.chosen| {
            assert ch[k] == r0.chosen[k];
          }
        }
      }
    }
  }

  /** No two chosen steps share a lowercased command. */
  lemma {:induction false} SelectDistinct(instrs: seq<Instruction>, prefix: string, added: set<string>)
    ensures var r := Select(instrs, prefix, added);
      forall j, k :: 0 <= j < k < |r.chosen| ==> Lower(r.chosen[j].command) != Lower(r.chosen[k].command)
    decreases |instrs|
  {
    if instrs != [] {
      var init := instrs[..|instrs| - 1];
      var i := instrs[|instrs| - 1];
      SelectDistinct(init, prefix, added);
      SelectAdded(init, prefix, added);
      var r0 := Select(init, prefix, added);
      if !(Lower(i.command) in r0.added || !MatchesPrefix(i.command, prefix)) {
        var ch := r0.chosen + [i];
        forall j, k | 0 <= j < k < |ch| ensures Lower(ch[j].command) != Lower(ch[k].command) {
          if k == |ch| - 1 {
            assert ch[j] == r0.chosen[j];
            assert Lower(ch[j].command) in LowerCommands(r0.chosen);
          } else {
            assert ch[j] == r0.chosen[j] && ch[k] == r0.chosen[k];
          }
        }
      }
    }
  }

  /** Every matching step ends up recorded. */
  lemma {:induction false} SelectRecordsMatches(instrs: seq<Instruction>, prefix: string, added: set<string>)
    ensures var r := Select(instrs, prefix, added);
      forall i :: i in instrs && MatchesPrefix(i.command, prefix) ==> Lower(i.command) in r.added
    decreases |instrs|
  {
    if instrs != [] {
      var init := instrs[..|instrs| - 1];
      SelectRecordsMatches(init, prefix, added);
      assert forall x :: x in instrs ==> x in init || x == instrs[|instrs| - 1];
    }
  }

  /** The lowercased commands of the steps that match the prefix. */
  ghost function MatchedLowers(instrs: seq<Instruction>, prefix: string): set<string> {
    set j | 0 <= j < |instrs| && MatchesPrefix(instrs[j].command, prefix) :: Lower(instrs[j].command)
  }

  /**
   * Step `k` is the first occurrence of a new command: it matches, its
   * lowercased command was not recorded beforehand, and no earlier matching
   * step has the same lowercased command.
   */
  ghost predicate FirstOccurrence(instrs: seq<Instruction>, prefix: string, added: set<string>, k: int)
    requires 0 <= k < |instrs|
  {
    && MatchesPrefix(instrs[k].command, prefix)
    && Lower(instrs[k].command) !in added
    && forall j :: 0 <= j < k ==>
         !(MatchesPrefix(instrs[j].command, prefix) && Lower(instrs[j].command) == Lower(instrs[k].command))
  }

  /** The steps that are first occurrences, in list order: an independent account of what the loop keeps. */
  ghost function Kept(instrs: seq<Instruction>, prefix: string, added: set<string>): seq<Instruction>
    decreases |instrs|
  {
    if instrs == [] then []
    else
      Kept(instrs[..|instrs| - 1], prefix, added)
        + (if FirstOccurrence(instrs, prefix, added, |instrs| - 1) then [instrs[|instrs| - 1]] else [])
  }

  /** The set ends up holding the initial commands and every matching step's lowercased command. */
  lemma {:induction false} SelectAddedAll(instrs: seq<Instruction>, prefix: string, added: set<string>)
    ensures Select(instrs, prefix, added).added == added + MatchedLowers(instrs, prefix)
    decreases |instrs|
  {
    if instrs != [] {
      var init := instrs[..|instrs| - 1];
      var i := instrs[|instrs| - 1];
      SelectAddedAll(init, prefix, added);
      assert forall j :: 0 <= j < |init| ==> init[j] == instrs[j];
      if MatchesPrefix(i.command, prefix) {
        assert MatchedLowers(instrs, prefix) == MatchedLowers(init, prefix) + {Lower(i.command)};
      } else {
        assert MatchedLowers(instrs, prefix) == MatchedLowers(init, prefix);
      }
    }
  }

  /**
   * The loop keeps exactly the first occurrences, in list order: of several
   * steps with one lowercased command, the first matching one is kept.
   */
  lemma {:induction false} SelectIsKept(instrs: seq<Instruction>, prefix: string, added: set<string>)
    ensures Select(instrs, prefix, added).chosen == Kept(instrs, prefix, added)
    decreases |instrs|
  {
    if instrs != [] {
      var init := instrs[..|instrs| - 1];
      var i := instrs[|instrs| - 1];
      SelectIsKept(init, prefix, added);
      SelectAddedAll(init, prefix, added);
      assert forall j :: 0 <= j < |init| ==> init[j] == instrs[j];
      assert Lower(i.command) in MatchedLowers(init, prefix) <==>
        exists j :: 0 <= j < |instrs| - 1 && MatchesPrefix(instrs[j].command, prefix) && Lower(instrs[j].command) == Lower(i.command);
    }
  }

  /** Of two matching steps with one lowercased command, the later one is never kept. */
  lemma LaterDuplicateDropped(instrs: seq<Instruction>, prefix: string, added: set<string>, j: int, k: int)
    requires 0 <= j < k < |instrs|
    requires MatchesPrefix(instrs[j].command, prefix)
    requires Lower(instrs[j].command) == Lower(instrs[k].command)
    ensures !FirstOccurrence(instrs, prefix, added, k)
  {
  }

  /**
   * Each chosen step matches the prefix and was not already recorded; no
   * two chosen steps share a lowercased command; the set grows by exactly
   * the chosen commands; every matching step ends up recorded; and the
   * chosen steps are the first occurrences, in list order.
   */
  lemma SelectCorrect(instrs: seq<Instruction>, prefix: string, added: set<string>)
    ensures var r := Select(instrs, prefix, added);
      forall k :: 0 <= k < |r.chosen| ==>
        r.chosen[k] in instrs && MatchesPrefix(r.chosen[k].command, prefix) && Lower(r.chosen[k].command) !in added
    ensures var r := Select(instrs, prefix, added);
      forall j, k :: 0 <= j < k < |r.chosen| ==> Lower(r.chosen[j].command) != Lower(r.chosen[k].command)
    ensures var r := Select(instrs, prefix, added);
      r.added == added + LowerCommands(r.chosen)
    ensures var r := Select(instrs, prefix, added);
      forall i :: i in instrs && MatchesPrefix(i.command, prefix) ==> Lower(i.command) in r.added
    ensures Select(instrs, prefix, added).chosen == Kept(instrs, prefix, added)
    ensures Select(instrs, prefix, added).added == added + MatchedLowers(instrs, prefix)
  {
    SelectIsKept(instrs, prefix, added);
    SelectAddedAll(instrs, prefix, added);
    SelectChosen(instrs, prefix, added);
    SelectDistinct(instrs, prefix, added);
    SelectAdded(instrs, prefix, added);
    SelectRecordsMatches(instrs, prefix, added);
  }

  function CompletionsOf(chosen: seq<Instruction>): (r: seq<Completion>)
    ensures |r| == |chosen|
  {
    seq(|chosen|, k requires 0 <= k < |chosen| => InstructionCompletion(chosen[k]))
  }

  /** The instructions of the loaded data, or none when there is no data. */
  function InstructionsOf(data: Option<JenkinsData>): seq<Instruction> {
    if data.Some? then data.value.doc.instructions else []
  }

  /**
   * `_get_instruction_completions`; `added` is the `added_commands` set
   * passed in, `added'` the same set after the call.
   */
  method InstructionCompletions(data: Option<JenkinsData>, prefix: string, added: set<string>)
    returns (completions: seq<Completion>, added': set<string>)
    ensures completions == CompletionsOf(Select(InstructionsOf(data), prefix, added).chosen)
    ensures added' == Select(InstructionsOf(data), prefix, added).added
  {
    completions := [];
    added' := added;
    if data.None? || data.value.doc.instructions == [] {
      return;
    }
    var instrs := data.value.doc.instructions;
    var k := 0;
    while k < |instrs|
      invariant 0 <= k <= |instrs|
      invariant completions == CompletionsOf(Select(instrs[..k], prefix, added).chosen)
      invariant added' == Select(instrs[..k], prefix, added).added
    {
      assert instrs[..k + 1][..k] == instrs[..k];
      var instruction := instrs[k];
      var command := instruction.command;
      if Lower(command) in added' || (prefix != "" && !StartsWith(Lower(command), Lower(prefix))) {
        k := k + 1;
        continue;
      }
      var contents := if instruction.parameters != [] then command + "(${1})" else command + "()";
      completions := completions + [Completion(command + "\tJenkins Step", contents)];
      added' := added' + {Lower(command)};
      k := k + 1;
    }
    assert instrs[..k] == instrs;
  }

  // ---------------------------------------------------------------------
  // `_get_env_completions`
  // ---------------------------------------------------------------------

  function EnvVarsOf(data: Option<JenkinsData>): seq<EnvVar> {
    if data.Some? then data.value.doc.environmentVariables else []
  }

  function EnvCompletion(v: EnvVar, includePrefix: bool): Completion {
    Completion(v.name + "\tEnvironment Variable", if includePrefix then "env." + v.name else v.name)
  }

  function EnvCompletionList(data: Option<JenkinsData>, includePrefix: bool): (r: seq<Completion>)
    ensures |r| == |EnvVarsOf(data)|
  {
    var vars := EnvVarsOf(data);
    seq(|vars|, k requires 0 <= k < |vars| => EnvCompletion(vars[k], includePrefix))
  }

  method EnvCompletions(data: Option<JenkinsData>, includePrefix: bool) returns (completions: seq<Completion>)
    ensures completions == EnvCompletionList(data, includePrefix)
  {
    completions := [];
    if data.None? {
      return;
    }
    var vars := data.value.doc.environmentVariables;
    var k := 0;
    while k < |vars|
      invariant 0 <= k <= |vars|
      invariant |completions| == k
      invariant forall j :: 0 <= j < k ==> completions[j] == EnvCompletion(vars[j], includePrefix)
    {
      var trigger := vars[k].name + "\tEnvironment Variable";
      var contents := if includePrefix then "env." + vars[k].name else vars[k].name;
      completions := completions + [Completion(trigger, contents)];
      k := k + 1;
    }
  }

  /**
   * One completion per variable, in order, with the same label in both
   * modes; after `env.` the bare name is inserted, otherwise `env.` + name.
   */
  lemma EnvCompletionModes(data: Option<JenkinsData>)
    ensures |EnvCompletionList(data, true)| == |EnvCompletionList(data, false)| == |EnvVarsOf(data)|
    ensures forall k :: 0 <= k < |EnvVarsOf(data)| ==>
      && EnvCompletionList(data, false)[k].contents == EnvVarsOf(data)[k].name
      && EnvCompletionList(data, true)[k].contents == "env." + EnvCompletionList(data, false)[k].contents
      && EnvCompletionList(data, true)[k].trigger == EnvCompletionList(data, false)[k].trigger
  {
  }

  // ---------------------------------------------------------------------
  // `_get_section_completions` and `_get_directive_completions`
  // ---------------------------------------------------------------------

  datatype BlockKind = SectionKind | DirectiveKind

  function KindLabel(kind: BlockKind): string {
    match kind
    case SectionKind => "Section"
    case DirectiveKind => "Directive"
  }

  /** The label hint: the first three inner names, and `...` when there are more. */
  function Preview(inner: seq<string>): string {
    Join(", ", inner[..if |inner| < 3 then |inner| else 3]) + (if |inner| > 3 then "..." else "")
  }

  function BlockCompletion(c: Construct, kind: BlockKind): Completion {
    if c.innerInstructions != [] then
      Completion(c.name + "\tJenkins " + KindLabel(kind) + " (" + Preview(c.innerInstructions) + ")",
                 c.name + " {\n\t${1:// " + Join(", ", c.innerInstructions) + "}\n}")
    else
      Completion(c.name + "\tJenkins " + KindLabel(kind), c.name + " {\n\t$0\n}")
  }

  /**
   * The label shows a prefix of the full list of inner names, all of it when
   * there are at most three, and ends in `...` when some are left out; the
   * snippet's comment lists every name.
   */
  lemma PreviewOfInner(inner: seq<string>)
    ensures StartsWith(Join(", ", inner), Join(", ", inner[..if |inner| < 3 then |inner| else 3]))
    ensures |inner| <= 3 ==> Preview(inner) == Join(", ", inner)
    ensures |inner| > 3 ==> EndsWith(Preview(inner), "...")
  {
    JoinPrefix(", ", inner, if |inner| < 3 then |inner| else 3);
    if |inner| <= 3 {
      assert inner[..|inner|] == inner;
    }
  }

  lemma BlockSnippetListsAll(c: Construct, kind: BlockKind)
    requires c.innerInstructions != []
    ensures Contains(BlockCompletion(c, kind).contents, Join(", ", c.innerInstructions))
  {
    var j := Join(", ", c.innerInstructions);
    var pre := c.name + " {\n\t${1:// ";
    assert BlockCompletion(c, kind).contents == pre + j + "}\n}";
    assert OccursAt(j, j, 0);
    ContainsInMiddle(pre, j, "}\n}", j);
  }

  function ConstructsOf(data: Option<JenkinsData>, kind: BlockKind): seq<Construct> {
    if data.None? then []
    else match kind
      case SectionKind => data.value.doc.sections
      case DirectiveKind => data.value.doc.directives
  }

  function BlockCompletionList(data: Option<JenkinsData>, kind: BlockKind): (r: seq<Completion>)
    ensures |r| == |ConstructsOf(data, kind)|
  {
    var cs := ConstructsOf(data, kind);
    seq(|cs|, k requires 0 <= k < |cs| => BlockCompletion(cs[k], kind))
  }

  /** The shared loop of `_get_section_completions` and `_get_directive_completions`. */
  method BlockCompletions(data: Option<JenkinsData>, kind: BlockKind) returns (completions: seq<Completion>)
    ensures completions == BlockCompletionList(data, kind)
  {
    completions := [];
    if data.None? {
      return;
    }
    var cs := ConstructsOf(data, kind);
    var k := 0;
    while k < |cs|
      invariant 0 <= k <= |cs|
      invariant |completions| == k
      invariant forall j :: 0 <= j < k ==> completions[j] == BlockCompletion(cs[j], kind)
    {
      var c := cs[k];
      var trigger, contents;
      if c.innerInstructions != [] {
        var innerList := Join(", ", c.innerInstructions[..if |c.innerInstructions| < 3 then |c.innerInstructions| else 3]);
        if |c.innerInstructions| > 3 {
          innerList := innerList + "...";
        } else {
          assert innerList + "" == innerList;
        }
        assert innerList == Preview(c.innerInstructions);
        trigger := c.name + "\tJenkins " + KindLabel(kind) + " (" + innerList + ")";
        contents := c.name + " {\n\t${1:// " + Join(", ", c.innerInstructions) + "}\n}";
      } else {
        trigger := c.name + "\tJenkins " + KindLabel(kind);
        contents := c.name + " {\n\t$0\n}";
      }
      assert Completion(trigger, contents) == BlockCompletion(c, kind);
      completions := completions + [Completion(trigger, contents)];
      k := k + 1;
    }
  }

  method SectionCompletions(data: Option<JenkinsData>) returns (completions: seq<Completion>)
    ensures completions == BlockCompletionList(data, SectionKind)
  {
    completions := BlockCompletions(data, SectionKind);
  }

  method DirectiveCompletions(data: Option<JenkinsData>) returns (completions: seq<Completion>)
    ensures completions == BlockCompletionList(data, DirectiveKind)
  {
    completions := BlockCompletions(data, DirectiveKind);
  }

  // ---------------------------------------------------------------------
  // `_get_post_completions`
  // ---------------------------------------------------------------------

  const FallbackPostConditions: seq<string> := [
    "always", "changed", "fixed", "regression", "aborted",
    "failure", "success", "unstable", "unsuccessful", "cleanup"
  ]

  /** The inner names of the first section called `post`, or the ten fixed names. */
  function PostConditions(sections: seq<Construct>): seq<string> {
    var post := FirstBy(sections, ConstructName, "post");
    if post.None? || post.value.innerInstructions == [] then FallbackPostConditions
    else post.value.innerInstructions
  }

  function PostCompletions(data: Option<JenkinsData>): (r: seq<Completion>)
    ensures data.None? ==> r == []
    ensures data.Some? ==> |r| == |PostConditions(data.value.doc.sections)|
    ensures data.Some? ==> forall k :: 0 <= k < |r| ==>
      var c := PostConditions(data.value.doc.sections)[k];
      r[k] == Completion(c + "\tPost Condition", c + " {\n\t$0\n}")
  {
    if data.None? then []
    else
      var conds := PostConditions(data.value.doc.sections);
      seq(|conds|, k requires 0 <= k < |conds| => Completion(conds[k] + "\tPost Condition", conds[k] + " {\n\t$0\n}"))
  }

  /** The conditions come from the first section named `post` when it lists any. */
  lemma PostConditionsFromFirstPost(sections: seq<Construct>, i: int)
    requires 0 <= i < |sections| && sections[i].name == "post"
    requires forall j :: 0 <= j < i ==> sections[j].name != "post"
    ensures sections[i].innerInstructions != [] ==> PostConditions(sections) == sections[i].innerInstructions
    ensures sections[i].innerInstructions == [] ==> PostConditions(sections) == FallbackPostConditions
  {
    FirstByFirst(sections, ConstructName, i);
  }

  /** Without a section named `post` the ten fixed conditions are offered. */
  lemma PostConditionsFallback(sections: seq<Construct>)
    requires forall j :: 0 <= j < |sections| ==> sections[j].name != "post"
    ensures PostConditions(sections) == FallbackPostConditions
    ensures |PostConditions(sections)| == 10
  {
  }

  // ---------------------------------------------------------------------
  // `_get_parameter_completions`
  // ---------------------------------------------------------------------

  /** The insertion text chosen by the parameter's type. */
  function InsertText(p: Parameter): string {
    if p.paramType == "String" then p.name + ": '${1}'"
    else if p.paramType == "boolean" then p.name + ": ${1:true}"
    else if p.paramType == "Enum" && p.values != [] then p.name + ": '${1}'"
    else p.name + ": "
  }

  /** Quoted for strings and for enums with values, `true` for booleans, a bare `name: ` otherwise. */
  lemma InsertTextByType(p: Parameter)
    ensures InsertText(p) == p.name + ": '${1}'" <==> p.paramType == "String" || (p.paramType == "Enum" && p.values != [])
    ensures InsertText(p) == p.name + ": ${1:true}" <==> p.paramType == "boolean"
    ensures InsertText(p) == p.name + ": " <==>
      p.paramType != "String" && p.paramType != "boolean" && !(p.paramType == "Enum" && p.values != [])
  {
    var quoted := p.name + ": '${1}'";
    var boolean := p.name + ": ${1:true}";
    var bare := p.name + ": ";
    assert |quoted| == |p.name| + 8 && |boolean| == |p.name| + 11 && |bare| == |p.name| + 2;
  }

  function ParameterCompletion(p: Parameter): Completion {
    Completion(p.name + "\t" + p.paramType + " " + (if p.isOptional then "(Optional)" else ""), InsertText(p))
  }

  /** The step the line up to the cursor is calling, when it is known and takes parameters. */
  function CallTarget(data: Option<JenkinsData>, line: string): Option<Instruction> {
    var name := CallContext(line);
    if name.None? || data.None? then None
    else
      var found := FirstBy(data.value.doc.instructions, CommandOf, name.value);
      if found.None? || found.value.parameters == [] then None else found
  }

  function ParameterCompletionList(data: Option<JenkinsData>, line: string): seq<Completion> {
    var target := CallTarget(data, line);
    if target.None? then []
    else
      var ps := target.value.parameters;
      seq(|ps|, k requires 0 <= k < |ps| => ParameterCompletion(ps[k]))
  }

  method ParameterCompletions(data: Option<JenkinsData>, line: string) returns (completions: seq<Completion>)
    ensures completions == ParameterCompletionList(data, line)
  {
    completions := [];
    var name := CallContext(line);
    if name.None? || data.None? {
      return;
    }
    var instruction := FirstBy(data.value.doc.instructions, CommandOf, name.value);
    if instruction.None? || instruction.value.parameters == [] {
      return;
    }
    var ps := instruction.value.parameters;
    var k := 0;
    while k < |ps|
      invariant 0 <= k <= |ps|
      invariant |completions| == k
      invariant forall j :: 0 <= j < k ==> completions[j] == ParameterCompletion(ps[j])
    {
      var param := ps[k];
      var optionalLabel := if param.isOptional then "(Optional)" else "";
      var insertText;
      if param.paramType == "String" {
        insertText := param.name + ": '${1}'";
      } else if param.paramType == "boolean" {
        insertText := param.name + ": ${1:true}";
      } else if param.paramType == "Enum" && param.values != [] {
        insertText := param.name + ": '${1}'";
      } else {
        insertText := param.name + ": ";
      }
      completions := completions + [Completion(param.name + "\t" + param.paramType + " " + optionalLabel, insertText)];
      k := k + 1;
    }
  }

  /**
   * Parameter completions appear exactly inside a call: the line has a `{`,
   * then an identifier followed by `(` or a blank with no `{` or `(` after
   * it, the identifier is the command of a known step and the first such
   * step takes parameters; then there is one completion per parameter of
   * that step, in order, and otherwise none.
   */
  lemma ParameterCompletionsInCall(data: Option<JenkinsData>, line: string)
    ensures ParameterCompletionList(data, line) != [] <==>
      && data.Some? && CallContext(line).Some?
      && FirstBy(data.value.doc.instructions, CommandOf, CallContext(line).value).Some?
      && FirstBy(data.value.doc.instructions, CommandOf, CallContext(line).value).value.parameters != []
    ensures ParameterCompletionList(data, line) != [] ==>
      exists p, a, b, d :: CallShape(line, p, a, b, d) && CallContext(line) == Some(line[a..b])
    ensures data.Some? && CallContext(line).Some? ==>
      var found := FirstBy(data.value.doc.instructions, CommandOf, CallContext(line).value);
      found.Some? && found.value.parameters != [] ==>
        && found.value.command == CallContext(line).value
        && |ParameterCompletionList(data, line)| == |found.value.parameters|
        && (forall k :: 0 <= k < |found.value.parameters| ==>
              ParameterCompletionList(data, line)[k] == ParameterCompletion(found.value.parameters[k]))
  {
    CallContextCorrect(line);
  }

  // ---------------------------------------------------------------------
  // `on_query_completions`
  // ---------------------------------------------------------------------

  /** The section or directive entries of the query list: no preview, filtered by the prefix. */
  function QueryBlockCompletion(c: Construct, kind: BlockKind): Completion {
    Completion(c.name + "\tJenkins " + KindLabel(kind), c.name + " {\n\t$0\n}")
  }

  function QueryBlocks(cs: seq<Construct>, prefix: string, kind: BlockKind): seq<Completion>
    decreases |cs|
  {
    if cs == [] then []
    else
      var init := QueryBlocks(cs[..|cs| - 1], prefix, kind);
      var c := cs[|cs| - 1];
      if MatchesPrefix(c.name, prefix) then init + [QueryBlockCompletion(c, kind)] else init
  }

  /** Only matching entries, each from one of the records. */
  lemma {:induction false} QueryBlocksSound(cs: seq<Construct>, prefix: string, kind: BlockKind)
    ensures forall x :: x in QueryBlocks(cs, prefix, kind) ==>
      exists c :: c in cs && MatchesPrefix(c.name, prefix) && x == QueryBlockCompletion(c, kind)
    ensures |QueryBlocks(cs, prefix, kind)| <= |cs|
    decreases |cs|
  {
    if cs != [] {
      QueryBlocksSound(cs[..|cs| - 1], prefix, kind);
      assert forall c :: c in cs[..|cs| - 1] ==> c in cs;
    }
  }

  /** How many matching records come before position `i`: the place of record `i` in the group. */
  function BlockRank(cs: seq<Construct>, prefix: string, kind: BlockKind, i: int): nat
    requires 0 <= i <= |cs|
  {
    |QueryBlocks(cs[..i], prefix, kind)|
  }

  /** The group for a prefix of the records is a prefix of the group. */
  lemma {:induction false} QueryBlocksPrefix(cs: seq<Construct>, prefix: string, kind: BlockKind, j: int)
    requires 0 <= j <= |cs|
    ensures QueryBlocks(cs[..j], prefix, kind) <= QueryBlocks(cs, prefix, kind)
    decreases |cs|
  {
    if j < |cs| {
      var init := cs[..|cs| - 1];
      assert init[..j] == cs[..j];
      QueryBlocksPrefix(init, prefix, kind, j);
    } else {
      assert cs[..j] == cs;
    }
  }

  /** Every matching record is offered, at its rank. */
  lemma QueryBlocksComplete(cs: seq<Construct>, prefix: string, kind: BlockKind, i: int)
    requires 0 <= i < |cs| && MatchesPrefix(cs[i].name, prefix)
    ensures BlockRank(cs, prefix, kind, i) < |QueryBlocks(cs, prefix, kind)|
    ensures QueryBlocks(cs, prefix, kind)[BlockRank(cs, prefix, kind, i)] == QueryBlockCompletion(cs[i], kind)
  {
    assert cs[..i + 1][..i] == cs[..i];
    assert QueryBlocks(cs[..i + 1], prefix, kind) == QueryBlocks(cs[..i], prefix, kind) + [QueryBlockCompletion(cs[i], kind)];
    QueryBlocksPrefix(cs, prefix, kind, i + 1);
  }

  /** Matching records keep their order: an earlier one has a smaller rank. */
  lemma QueryBlocksOrder(cs: seq<Construct>, prefix: string, kind: BlockKind, i: int, j: int)
    requires 0 <= i < j <= |cs| && MatchesPrefix(cs[i].name, prefix)
    ensures BlockRank(cs, prefix, kind, i) < BlockRank(cs, prefix, kind, j)
  {
    assert cs[..i + 1][..i] == cs[..i];
    assert QueryBlocks(cs[..i + 1], prefix, kind) == QueryBlocks(cs[..i], prefix, kind) + [QueryBlockCompletion(cs[i], kind)];
    assert cs[..j][..i + 1] == cs[..i + 1];
    QueryBlocksPrefix(cs[..j], prefix, kind, i + 1);
  }

  method MatchingBlocks(cs: seq<Construct>, prefix: string, kind: BlockKind) returns (completions: seq<Completion>)
    ensures completions == QueryBlocks(cs, prefix, kind)
  {
    completions := [];
    var k := 0;
    while k < |cs|
      invariant 0 <= k <= |cs|
      invariant completions == QueryBlocks(cs[..k], prefix, kind)
    {
      assert cs[..k + 1][..k] == cs[..k];
      var c := cs[k];
      if prefix == "" || StartsWith(Lower(c.name), Lower(prefix)) {
        completions := completions + [Completion(c.name + "\tJenkins " + KindLabel(kind), c.name + " {\n\t$0\n}")];
      }
      k := k + 1;
    }
    assert cs[..k] == cs;
  }

  /** At most the first 50 instruction completions for a one-character prefix. */
  function Cap(prefix: string, cs: seq<Completion>): (r: seq<Completion>)
    ensures |prefix| == 1 ==> |r| <= 50
    ensures |r| <= |cs| && r == cs[..|r|]
    ensures |prefix| != 1 ==> r == cs
  {
    if |prefix| == 1 && |cs| > 50 then cs[..50] else cs
  }

  /** The four groups the response is assembled from, in this order. */
  datatype QueryParts = QueryParts(
    priority: seq<Completion>,
    instructions: seq<Completion>,
    sections: seq<Completion>,
    directives: seq<Completion>)

  /** After `env.` with variables known, the variable names alone are offered. */
  predicate EnvShortCircuit(line: string, data: Option<JenkinsData>) {
    HasInstructions(data) && EnvAccessAtEnd(line) && EnvCompletionList(data, false) != []
  }

  function Parts(prefix: string, data: Option<JenkinsData>): QueryParts {
    var priority := PriorityPart(PriorityCommands, prefix);
    if !HasInstructions(data) then QueryParts(priority, [], [], [])
    else
      var sel := Select(data.value.doc.instructions, prefix, PriorityAdded(PriorityCommands, prefix));
      QueryParts(priority, Cap(prefix, CompletionsOf(sel.chosen)),
                 QueryBlocks(data.value.doc.sections, prefix, SectionKind),
                 QueryBlocks(data.value.doc.directives, prefix, DirectiveKind))
  }

  /** The list `on_query_completions` returns, `None` standing for Python's `None`. */
  function QueryCompletions(isJenkins: bool, prefix: string, line: string, data: Option<JenkinsData>): Option<seq<Completion>> {
    if !isJenkins then None
    else if EnvShortCircuit(line, data) then Some(EnvCompletionList(data, false))
    else
      var p := Parts(prefix, data);
      var all := p.priority + p.instructions + p.sections + p.directives;
      if all == [] then None else Some(all)
  }

  /** The first loop of `on_query_completions`, over the priority commands `cmds`. */
  method PriorityCompletions(cmds: seq<(string, string)>, prefix: string)
    returns (completions: seq<Completion>, added: set<string>)
    ensures completions == PriorityPart(cmds, prefix)
    ensures added == PriorityAdded(cmds, prefix)
  {
    completions := [];
    added := {};
    var k := 0;
    while k < |cmds|
      invariant 0 <= k <= |cmds|
      invariant completions == PriorityPart(cmds[..k], prefix)
      invariant added == PriorityAdded(cmds[..k], prefix)
    {
      assert cmds[..k + 1][..k] == cmds[..k];
      var (cmd, snippet) := cmds[k];
      if prefix == "" || StartsWith(Lower(cmd), Lower(prefix)) {
        completions := completions + [Completion(cmd + "\tJenkins", snippet)];
        added := added + {Lower(cmd)};
      }
      k := k + 1;
    }
    assert cmds[..k] == cmds;
  }

  /**
   * `on_query_completions` with the view replaced by the file name and
   * syntax scope (for `is_jenkins_file`) and the text of the line up to the
   * cursor.
   */
  method OnQueryCompletions(settings: Option<Settings>, fileName: string, scope: Option<string>,
                            fnmatch: (string, string) -> bool,
                            prefix: string, lineUpToCursor: string, data: Option<JenkinsData>)
    returns (result: Option<seq<Completion>>)
    ensures result == QueryCompletions(IsJenkinsFile(settings, fileName, scope, fnmatch), prefix, lineUpToCursor, data)
  {
    if !IsJenkinsFile(settings, fileName, scope, fnmatch) {
      return None;
    }
    var completions, added := PriorityCompletions(PriorityCommands, prefix);
    if data.Some? && data.value.doc.instructions != [] {
      if EnvAccessAtEnd(lineUpToCursor) {
        var envCompletions := EnvCompletions(data, false);
        if envCompletions != [] {
          return Some(envCompletions);
        }
      }
      assert !EnvShortCircuit(lineUpToCursor, data);
      var instructionCompletions, _ := InstructionCompletions(data, prefix, added);
      if |prefix| == 1 && |instructionCompletions| > 50 {
        completions := completions + instructionCompletions[..50];
      } else {
        completions := completions + instructionCompletions;
      }
      var sectionCompletions := MatchingBlocks(data.value.doc.sections, prefix, SectionKind);
      completions := completions + sectionCompletions;
      var directiveCompletions := MatchingBlocks(data.value.doc.directives, prefix, DirectiveKind);
      completions := completions + directiveCompletions;
      ghost var p := Parts(prefix, data);
      assert completions == p.priority + p.instructions + p.sections + p.directives;
    } else {
      ghost var p := Parts(prefix, data);
      assert completions == p.priority + p.instructions + p.sections + p.directives;
    }
    if completions != [] {
      return Some(completions);
    }
    return None;
  }

  /** Nothing is offered outside Jenkins files; `None` replaces an empty list. */
  lemma QueryNoneCases(isJenkins: bool, prefix: string, line: string, data: Option<JenkinsData>)
    ensures !isJenkins ==> QueryCompletions(isJenkins, prefix, line, data).None?
    ensures QueryCompletions(isJenkins, prefix, line, data).Some? ==> QueryCompletions(isJenkins, prefix, line, data).value != []
  {
  }

  /** After `env.` the response is the variable names alone, one per variable, in order. */
  lemma QueryEnvShortCircuit(prefix: string, line: string, data: Option<JenkinsData>)
    requires EnvShortCircuit(line, data)
    ensures QueryCompletions(true, prefix, line, data) == Some(EnvCompletionList(data, false))
    ensures forall k :: 0 <= k < |EnvVarsOf(data)| ==>
      QueryCompletions(true, prefix, line, data).value[k].contents == EnvVarsOf(data)[k].name
  {
    EnvCompletionModes(data);
  }

  /** Outside the `env.` case the groups are concatenated in this order. */
  lemma QueryAssembly(prefix: string, line: string, data: Option<JenkinsData>)
    requires !EnvShortCircuit(line, data)
    ensures var p := Parts(prefix, data);
      var all := p.priority + p.instructions + p.sections + p.directives;
      QueryCompletions(true, prefix, line, data) == (if all == [] then None else Some(all))
    ensures !HasInstructions(data) ==>
      (Parts(prefix, data).instructions == [] && Parts(prefix, data).sections == [] && Parts(prefix, data).directives == [])
  {
  }

  /**
   * The priority group holds exactly the priority commands the prefix
   * admits, in declared order: every entry offered is admitted, every
   * admitted command is offered at its rank, and ranks follow the order.
   */
  lemma QueryPriorityGroup(prefix: string, data: Option<JenkinsData>)
    ensures forall c :: c in Parts(prefix, data).priority ==>
      exists e :: e in PriorityCommands && MatchesPrefix(e.0, prefix) && c == PriorityCompletion(e)
    ensures forall i :: 0 <= i < |PriorityCommands| && MatchesPrefix(PriorityCommands[i].0, prefix) ==>
      && PriorityRank(PriorityCommands, prefix, i) < |Parts(prefix, data).priority|
      && Parts(prefix, data).priority[PriorityRank(PriorityCommands, prefix, i)] == PriorityCompletion(PriorityCommands[i])
    ensures forall i, j :: 0 <= i < j < |PriorityCommands| && MatchesPrefix(PriorityCommands[i].0, prefix) ==>
      PriorityRank(PriorityCommands, prefix, i) < PriorityRank(PriorityCommands, prefix, j)
  {
    PriorityPartSound(PriorityCommands, prefix);
    forall i | 0 <= i < |PriorityCommands| && MatchesPrefix(PriorityCommands[i].0, prefix)
      ensures PriorityRank(PriorityCommands, prefix, i) < |PriorityPart(PriorityCommands, prefix)|
      ensures PriorityPart(PriorityCommands, prefix)[PriorityRank(PriorityCommands, prefix, i)] == PriorityCompletion(PriorityCommands[i])
    {
      PriorityPartComplete(PriorityCommands, prefix, i);
    }
    forall i, j | 0 <= i < j < |PriorityCommands| && MatchesPrefix(PriorityCommands[i].0, prefix)
      ensures PriorityRank(PriorityCommands, prefix, i) < PriorityRank(PriorityCommands, prefix, j)
    {
      PriorityPartOrder(PriorityCommands, prefix, i, j);
    }
  }

  /** The selection after a priority group never repeats one of its commands, case-insensitively. */
  lemma SelectAfterPriority(cmds: seq<(string, string)>, instrs: seq<Instruction>, prefix: string)
    ensures var sel := Select(instrs, prefix, PriorityAdded(cmds, prefix));
      && (forall k :: 0 <= k < |sel.chosen| ==>
            && sel.chosen[k] in instrs
            && MatchesPrefix(sel.chosen[k].command, prefix)
            && (forall e :: e in cmds && MatchesPrefix(e.0, prefix) ==> Lower(e.0) != Lower(sel.chosen[k].command)))
      && (forall j, k :: 0 <= j < k < |sel.chosen| ==> Lower(sel.chosen[j].command) != Lower(sel.chosen[k].command))
  {
    PriorityPartSound(cmds, prefix);
    SelectCorrect(instrs, prefix, PriorityAdded(cmds, prefix));
  }

  /**
   * The instruction group holds at most 50 entries for a one-character
   * prefix, is an initial part of the selected steps, and never repeats a
   * priority command or itself, case-insensitively.
   */
  lemma QueryInstructionGroup(prefix: string, data: Option<JenkinsData>)
    requires HasInstructions(data)
    ensures |prefix| == 1 ==> |Parts(prefix, data).instructions| <= 50
    ensures var sel := Select(data.value.doc.instructions, prefix, PriorityAdded(PriorityCommands, prefix));
      && Parts(prefix, data).instructions == CompletionsOf(sel.chosen)[..|Parts(prefix, data).instructions|]
      && (forall k :: 0 <= k < |sel.chosen| ==>
            && sel.chosen[k] in data.value.doc.instructions
            && MatchesPrefix(sel.chosen[k].command, prefix)
            && (forall e :: e in PriorityCommands && MatchesPrefix(e.0, prefix) ==> Lower(e.0) != Lower(sel.chosen[k].command)))
      && (forall j, k :: 0 <= j < k < |sel.chosen| ==> Lower(sel.chosen[j].command) != Lower(sel.chosen[k].command))
  {
    SelectAfterPriority(PriorityCommands, data.value.doc.instructions, prefix);
  }

  /**
   * The instruction group is the completions of the first occurrences, in
   * list order: their first 50 for a one-character prefix, all of them
   * otherwise.
   */
  lemma QueryInstructionsKept(prefix: string, data: Option<JenkinsData>)
    requires HasInstructions(data)
    ensures var kept := Kept(data.value.doc.instructions, prefix, PriorityAdded(PriorityCommands, prefix));
      var group := Parts(prefix, data).instructions;
      && |group| <= |kept|
      && group == CompletionsOf(kept)[..|group|]
      && (|prefix| == 1 && |kept| > 50 ==> |group| == 50)
      && (|prefix| != 1 || |kept| <= 50 ==> |group| == |kept|)
  {
    var added := PriorityAdded(PriorityCommands, prefix);
    var sel := Select(data.value.doc.instructions, prefix, added);
    assert Parts(prefix, data).instructions == Cap(prefix, CompletionsOf(sel.chosen));
    SelectIsKept(data.value.doc.instructions, prefix, added);
  }

  /**
   * The section (or directive) group holds exactly the records whose name
   * matches the prefix, in their order: every entry offered comes from a
   * matching record, every matching record is offered at its rank, and
   * ranks follow the order of the records.
   */
  lemma QueryBlockGroup(prefix: string, data: Option<JenkinsData>, kind: BlockKind)
    requires HasInstructions(data)
    ensures var cs := if kind == SectionKind then data.value.doc.sections else data.value.doc.directives;
      var group := if kind == SectionKind then Parts(prefix, data).sections else Parts(prefix, data).directives;
      && (forall x :: x in group ==>
            exists c :: c in cs && MatchesPrefix(c.name, prefix) && x == QueryBlockCompletion(c, kind))
      && (forall i :: 0 <= i < |cs| && MatchesPrefix(cs[i].name, prefix) ==>
            BlockRank(cs, prefix, kind, i) < |group| && group[BlockRank(cs, prefix, kind, i)] == QueryBlockCompletion(cs[i], kind))
      && (forall i, j :: 0 <= i < j < |cs| && MatchesPrefix(cs[i].name, prefix) ==>
            BlockRank(cs, prefix, kind, i) < BlockRank(cs, prefix, kind, j))
  {
    var cs := if kind == SectionKind then data.value.doc.sections else data.value.doc.directives;
    assert Parts(prefix, data).sections == QueryBlocks(data.value.doc.sections, prefix, SectionKind);
    assert Parts(prefix, data).directives == QueryBlocks(data.value.doc.directives, prefix, DirectiveKind);
    QueryBlocksSound(cs, prefix, kind);
    forall i | 0 <= i < |cs| && MatchesPrefix(cs[i].name, prefix)
      ensures BlockRank(cs, prefix, kind, i) < |QueryBlocks(cs, prefix, kind)|
      ensures QueryBlocks(cs, prefix, kind)[BlockRank(cs, prefix, kind, i)] == QueryBlockCompletion(cs[i], kind)
    {
      QueryBlocksComplete(cs, prefix, kind, i);
    }
    forall i, j | 0 <= i < j < |cs| && MatchesPrefix(cs[i].name, prefix)
      ensures BlockRank(cs, prefix, kind, i) < BlockRank(cs, prefix, kind, j)
    {
      QueryBlocksOrder(cs, prefix, kind, i, j);
    }
  }
}
