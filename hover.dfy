/**
 * `JenkinsDocHoverCommand`: resolving the word under the mouse to a record of
 * the knowledge base and rendering that record as the popup's HTML.
 *
 * Each template is written as a token list (see `Html`); every value taken
 * from a record enters it through `Escape`.
 */
module Hover {
  import opened Wrappers
  import opened Text
  import opened Html
  import opened PopupTags
  import opened Knowledge
  import opened Index
  import opened Utils

  // ---------------------------------------------------------------------
  // Template pieces
  // ---------------------------------------------------------------------

  function Spaces(n: nat): (r: string)
    ensures |r| == n && forall k :: 0 <= k < n ==> r[k] == ' '
  {
    seq(n, k => ' ')
  }

  /** A line break followed by `n` spaces of template indentation. */
  function Break(n: nat): (t: Token)
    ensures t.Text? && AngleFree(t.text)
  {
    Text("\n" + Spaces(n))
  }

  function LinkTag(url: string): string {
    "a href=\"" + Escape(url) + "\" class=\"doc-link\""
  }

  /** The record's name as the popup's heading. */
  function NameHeading(name: string): seq<Token> {
    [Tag("h3"), Text(Escape(name)), Tag("/h3")]
  }

  function HeadRest(description: string, caption: string): seq<Token> {
    [Break(20), Tag(SectionInfo), Text(caption), Tag("/div"),
     Break(20), Tag("p"), Text(Escape(description)), Tag("/p"), Tag("/div")]
  }

  /** The common head of the step, section and directive popups. */
  function HeadTokens(name: string, description: string, caption: string): seq<Token> {
    [Tag(ContentWrapper), Break(20)] + NameHeading(name) + HeadRest(description, caption)
  }

  /** The documentation link, present only for a non-empty `url`. */
  function LinkTokens(url: string): seq<Token> {
    if url == "" then [] else [Tag(LinkTag(url)), Text("View Documentation"), Tag("/a")]
  }

  // ---------------------------------------------------------------------
  // `_format_instruction_doc`
  // ---------------------------------------------------------------------

  function OptionalLabel(p: Parameter): string {
    if p.isOptional then "(Optional)" else ""
  }

  /** One `<span>` line of a parameter entry. */
  function Field(cls: string, value: string): seq<Token> {
    [Break(28), Tag(cls), Text(Escape(value)), Tag("/span")]
  }

  const ParamOpen: seq<Token> := [Break(20), Tag("li"), Break(24), Tag("div")]
  const ParamHeadClose: seq<Token> := [Break(24), Tag("/div")]

  function ParamHead(p: Parameter): seq<Token> {
    ParamOpen + Field(ParamNameTag, p.name) + Field(ParamTypeTag, p.paramType)
      + Field(ParamOptionalTag, OptionalLabel(p)) + ParamHeadClose
  }

  const ValuesOpen: seq<Token> := [Tag(ValuesBox), Tag("strong"), Text("Values:"), Tag("/strong"), Tag(ValuesList)]
  const ValuesClose: seq<Token> := [Tag("/ul"), Tag("/div")]

  function ValueItem(v: string): seq<Token> {
    [Tag(ValueItemTag), Text(Escape(v)), Tag("/li")]
  }

  function ValueItems(vs: seq<string>): seq<Token>
    decreases |vs|
  {
    if vs == [] then [] else ValueItems(vs[..|vs| - 1]) + ValueItem(vs[|vs| - 1])
  }

  /** The allowed values of an enum parameter, only when it lists some. */
  function ValuesBlock(vs: seq<string>): seq<Token> {
    if vs == [] then [] else ValuesOpen + ValueItems(vs) + ValuesClose
  }

  function ParamTail(p: Parameter): seq<Token> {
    [Tag(ParamDescTag), Text(Escape(p.description)), Tag("/div"), Tag("/li")]
  }

  function ParamTokens(p: Parameter): seq<Token> {
    ParamHead(p) + ValuesBlock(p.values) + ParamTail(p)
  }

  function ParamItems(ps: seq<Parameter>): seq<Token>
    decreases |ps|
  {
    if ps == [] then [] else ParamItems(ps[..|ps| - 1]) + ParamTokens(ps[|ps| - 1])
  }

  const ParametersOpen: seq<Token> := [Tag("h4"), Text("Parameters"), Tag("/h4"), Tag("ul")]

  /** The parameter list, only for a step that has parameters. */
  function ParametersBlock(ps: seq<Parameter>): seq<Token> {
    if ps == [] then [] else ParametersOpen + ParamItems(ps) + [Tag("/ul")]
  }

  function InstructionTokens(i: Instruction): seq<Token> {
    HeadTokens(i.name, i.description, "Pipeline Step") + ParametersBlock(i.parameters) + [Tag("/div")] + LinkTokens(i.url)
  }

  lemma Assoc(a: string, b: string, c: string)
    ensures (a + b) + c == a + (b + c)
  {
  }

  lemma ValueItemsStep(vs: seq<string>, j: nat)
    requires j < |vs|
    ensures Render(ValueItems(vs[..j + 1])) == Render(ValueItems(vs[..j])) + Render(ValueItem(vs[j]))
  {
    assert vs[..j + 1][..j] == vs[..j];
    RenderAppend(ValueItems(vs[..j]), ValueItem(vs[j]));
  }

  lemma ParamItemsStep(ps: seq<Parameter>, k: nat)
    requires k < |ps|
    ensures Render(ParamItems(ps[..k + 1])) == Render(ParamItems(ps[..k])) + Render(ParamTokens(ps[k]))
  {
    assert ps[..k + 1][..k] == ps[..k];
    RenderAppend(ParamItems(ps[..k]), ParamTokens(ps[k]));
  }

  lemma ValuesBlockRender(vs: seq<string>)
    requires vs != []
    ensures Render(ValuesBlock(vs)) == Render(ValuesOpen) + Render(ValueItems(vs)) + Render(ValuesClose)
  {
    RenderAppend(ValuesOpen + ValueItems(vs), ValuesClose);
    RenderAppend(ValuesOpen, ValueItems(vs));
  }

  lemma ParamRender(p: Parameter)
    ensures Render(ParamTokens(p)) == Render(ParamHead(p)) + Render(ValuesBlock(p.values)) + Render(ParamTail(p))
  {
    RenderAppend(ParamHead(p) + ValuesBlock(p.values), ParamTail(p));
    RenderAppend(ParamHead(p), ValuesBlock(p.values));
  }

  lemma ParametersBlockRender(ps: seq<Parameter>)
    requires ps != []
    ensures Render(ParametersBlock(ps)) == Render(ParametersOpen) + Render(ParamItems(ps)) + Render([Tag("/ul")])
  {
    RenderAppend(ParametersOpen + ParamItems(ps), [Tag("/ul")]);
    RenderAppend(ParametersOpen, ParamItems(ps));
  }

  lemma InstructionRender(i: Instruction)
    ensures Render(InstructionTokens(i)) == Render(HeadTokens(i.name, i.description, "Pipeline Step"))
      + Render(ParametersBlock(i.parameters)) + Render([Tag("/div")]) + Render(LinkTokens(i.url))
  {
    var head := HeadTokens(i.name, i.description, "Pipeline Step");
    var pb := ParametersBlock(i.parameters);
    RenderAppend(head + pb + [Tag("/div")], LinkTokens(i.url));
    RenderAppend(head + pb, [Tag("/div")]);
    RenderAppend(head, pb);
  }

  /** The values loop: `start` followed by the rendered items of `vs`. */
  method AppendValueItems(start: string, vs: seq<string>) returns (doc: string)
    ensures doc == start + Render(ValueItems(vs))
  {
    doc := start;
    var j := 0;
    assert vs[..0] == [];
    while j < |vs|
      invariant 0 <= j <= |vs|
      invariant doc == start + Render(ValueItems(vs[..j]))
    {
      ValueItemsStep(vs, j);
      var item := Render(ValueItem(vs[j]));
      Assoc(start, Render(ValueItems(vs[..j])), item);
      doc := doc + item;
      j := j + 1;
    }
    assert vs[..j] == vs;
  }

  /** One entry of the parameter list, with its loop over the allowed values. */
  method FormatParameter(param: Parameter) returns (paramDoc: string)
    ensures paramDoc == Render(ParamTokens(param))
  {
    var head := Render(ParamHead(param));
    var block := Render(ValuesBlock(param.values));
    var tail := Render(ParamTail(param));
    paramDoc := head;
    if param.values != [] {
      var open := Render(ValuesOpen);
      var items := Render(ValueItems(param.values));
      var close := Render(ValuesClose);
      paramDoc := paramDoc + open;
      paramDoc := AppendValueItems(paramDoc, param.values);
      paramDoc := paramDoc + close;
      ValuesBlockRender(param.values);
      Assoc(head, open, items);
      Assoc(head, open + items, close);
    } else {
      assert block == "";
    }
    assert paramDoc == head + block;
    paramDoc := paramDoc + tail;
    ParamRender(param);
  }

  /** The parameters loop: `start` followed by the rendered entries of `ps`. */
  method AppendParamItems(start: string, ps: seq<Parameter>) returns (doc: string)
    ensures doc == start + Render(ParamItems(ps))
  {
    doc := start;
    var k := 0;
    assert ps[..0] == [];
    while k < |ps|
      invariant 0 <= k <= |ps|
      invariant doc == start + Render(ParamItems(ps[..k]))
    {
      ParamItemsStep(ps, k);
      var paramDoc := FormatParameter(ps[k]);
      Assoc(start, Render(ParamItems(ps[..k])), paramDoc);
      doc := doc + paramDoc;
      k := k + 1;
    }
    assert ps[..k] == ps;
  }

  /** `_format_instruction_doc`. */
  method FormatInstructionDoc(i: Instruction) returns (html: string)
    ensures html == Render(InstructionTokens(i))
  {
    var head := Render(HeadTokens(i.name, i.description, "Pipeline Step"));
    var block := Render(ParametersBlock(i.parameters));
    html := head;
    if i.parameters != [] {
      var open := Render(ParametersOpen);
      var items := Render(ParamItems(i.parameters));
      var close := Render([Tag("/ul")]);
      html := html + open;
      html := AppendParamItems(html, i.parameters);
      html := html + close;
      ParametersBlockRender(i.parameters);
      Assoc(head, open, items);
      Assoc(head, open + items, close);
    } else {
      assert block == "";
    }
    assert html == head + block;
    html := html + Render([Tag("/div")]);
    html := html + Render(LinkTokens(i.url));
    InstructionRender(i);
  }

  // ---------------------------------------------------------------------
  // `_format_env_var_doc`, `_format_section_doc`, `_format_directive_doc`
  // ---------------------------------------------------------------------

  function EnvRest(v: EnvVar): seq<Token> {
    [Break(16), Tag(SectionInfo), Text("Environment Variable"), Tag("/div"),
     Break(16), Tag("p"), Text(Escape(v.description)), Tag("/p"),
     Break(12), Tag("/div"), Break(8)]
  }

  function EnvVarTokens(v: EnvVar): seq<Token> {
    [Break(12), Tag(ContentWrapper), Break(16)] + NameHeading(v.name) + EnvRest(v)
  }

  /** The "Allowed" box, only for a non-empty `allowed`. */
  function AllowedBlock(allowed: string): seq<Token> {
    if allowed == "" then []
    else [Tag(SectionInfo), Break(24), Tag(TypeLabel), Text("Allowed"), Tag("/span"),
          Break(24), Text(Escape(allowed)), Break(22), Tag("/div")]
  }

  /** The section and directive popups differ only in their caption. */
  function ConstructTokens(c: Construct, caption: string): seq<Token> {
    HeadTokens(c.name, c.description, caption) + AllowedBlock(c.allowed) + [Tag("/div")] + LinkTokens(c.url)
  }

  // ---------------------------------------------------------------------
  // `_find_documentation`
  // ---------------------------------------------------------------------

  /** The record a word resolves to, tagged with the list it came from. */
  datatype Entry =
    | InstructionEntry(instruction: Instruction)
    | EnvEntry(envVar: EnvVar)
    | SectionEntry(section: Construct)
    | DirectiveEntry(directive: Construct)

  /** The lookup through the `_lookup` maps: steps first, then variables, sections, directives. */
  function ResolveIndexed(word: string, lookup: Lookup): Option<Entry> {
    if word in lookup.instructions then Some(InstructionEntry(lookup.instructions[word]))
    else if word in lookup.environmentVariables then Some(EnvEntry(lookup.environmentVariables[word]))
    else if word in lookup.sections then Some(SectionEntry(lookup.sections[word]))
    else if word in lookup.directives then Some(DirectiveEntry(lookup.directives[word]))
    else None
  }

  /** The fallback linear search, in the same order. */
  function ResolveLinear(word: string, doc: Document): Option<Entry> {
    var i := FirstBy(doc.instructions, CommandOf, word);
    var e := FirstBy(doc.environmentVariables, EnvName, word);
    var s := FirstBy(doc.sections, ConstructName, word);
    var d := FirstBy(doc.directives, ConstructName, word);
    if i.Some? then Some(InstructionEntry(i.value))
    else if e.Some? then Some(EnvEntry(e.value))
    else if s.Some? then Some(SectionEntry(s.value))
    else if d.Some? then Some(DirectiveEntry(d.value))
    else None
  }

  function Resolve(word: string, data: Option<JenkinsData>): Option<Entry> {
    if data.None? then None
    else if data.value.lookup.Some? then ResolveIndexed(word, data.value.lookup.value)
    else ResolveLinear(word, data.value.doc)
  }

  function EntryTokens(e: Entry): seq<Token> {
    match e
    case InstructionEntry(i) => InstructionTokens(i)
    case EnvEntry(v) => EnvVarTokens(v)
    case SectionEntry(c) => ConstructTokens(c, "Pipeline Section")
    case DirectiveEntry(c) => ConstructTokens(c, "Pipeline Directive")
  }

  function Documentation(word: string, data: Option<JenkinsData>): Option<string> {
    var e := Resolve(word, data);
    if e.None? then None else Some(Render(EntryTokens(e.value)))
  }

  method FindDocumentation(word: string, data: Option<JenkinsData>) returns (doc: Option<string>)
    ensures doc == Documentation(word, data)
  {
    var entry := Resolve(word, data);
    if entry.None? {
      return None;
    }
    match entry.value
    case InstructionEntry(i) =>
      var html := FormatInstructionDoc(i);
      doc := Some(html);
    case EnvEntry(v) =>
      doc := Some(Render(EnvVarTokens(v)));
    case SectionEntry(c) =>
      doc := Some(Render(ConstructTokens(c, "Pipeline Section")));
    case DirectiveEntry(c) =>
      doc := Some(Render(ConstructTokens(c, "Pipeline Directive")));
  }

  /** `on_hover`: the popup body (the stylesheet prefix left out), or nothing. */
  function HoverPopup(isTextZone: bool, settings: Option<Settings>, isJenkins: bool,
                      word: string, data: Option<JenkinsData>): Option<string>
  {
    if !isTextZone || settings.None? || !settings.value.showHoverDocs || !isJenkins || word == "" then None
    else
      var doc := Documentation(word, data);
      if doc.None? then None else Some("<div class='container'>" + doc.value + "</div>")
  }

  method OnHover(isTextZone: bool, settings: Option<Settings>, fileName: string, scope: Option<string>,
                 fnmatch: (string, string) -> bool, word: string, data: Option<JenkinsData>)
    returns (popup: Option<string>)
    ensures popup == HoverPopup(isTextZone, settings, IsJenkinsFile(settings, fileName, scope, fnmatch), word, data)
  {
    if !isTextZone {
      return None;
    }
    if settings.None? || !settings.value.showHoverDocs {
      return None;
    }
    if !IsJenkinsFile(settings, fileName, scope, fnmatch) {
      return None;
    }
    if word == "" {
      return None;
    }
    var doc := FindDocumentation(word, data);
    if doc.Some? {
      popup := Some("<div class='container'>" + doc.value + "</div>");
    } else {
      popup := None;
    }
  }

  // ---------------------------------------------------------------------
  // Properties
  // ---------------------------------------------------------------------

  /** A popup appears only over text, with hover docs on, in a Jenkins file, for a known word. */
  lemma HoverPopupConditions(isTextZone: bool, settings: Option<Settings>, isJenkins: bool,
                             word: string, data: Option<JenkinsData>)
    ensures HoverPopup(isTextZone, settings, isJenkins, word, data).Some? <==>
      (&& isTextZone && settings.Some? && settings.value.showHoverDocs && isJenkins && word != ""
       && Resolve(word, data).Some?)
  {
  }

  /** With no data, or a word in none of the four lists, there is no documentation. */
  lemma LinearResolveNone(word: string, doc: Document)
    ensures ResolveLinear(word, doc).None? <==>
      (&& (forall k :: 0 <= k < |doc.instructions| ==> doc.instructions[k].command != word)
       && (forall k :: 0 <= k < |doc.environmentVariables| ==> doc.environmentVariables[k].name != word)
       && (forall k :: 0 <= k < |doc.sections| ==> doc.sections[k].name != word)
       && (forall k :: 0 <= k < |doc.directives| ==> doc.directives[k].name != word))
  {
  }

  /**
   * The linear fallback resolves a word to the first list that holds it, in
   * the order steps, variables, sections, directives: each kind of result
   * means that no earlier list holds the word and its own list does, and
   * the record returned carries the word.
   */
  lemma ResolvePrecedence(word: string, doc: Document)
    ensures var r := ResolveLinear(word, doc);
      (r.Some? && r.value.InstructionEntry?) <==> word in KeysOf(doc.instructions, CommandOf)
    ensures var r := ResolveLinear(word, doc);
      (r.Some? && r.value.EnvEntry?) <==>
        word !in KeysOf(doc.instructions, CommandOf) && word in KeysOf(doc.environmentVariables, EnvName)
    ensures var r := ResolveLinear(word, doc);
      (r.Some? && r.value.SectionEntry?) <==>
        && word !in KeysOf(doc.instructions, CommandOf) && word !in KeysOf(doc.environmentVariables, EnvName)
        && word in KeysOf(doc.sections, ConstructName)
    ensures var r := ResolveLinear(word, doc);
      (r.Some? && r.value.DirectiveEntry?) <==>
        && word !in KeysOf(doc.instructions, CommandOf) && word !in KeysOf(doc.environmentVariables, EnvName)
        && word !in KeysOf(doc.sections, ConstructName) && word in KeysOf(doc.directives, ConstructName)
    ensures var r := ResolveLinear(word, doc);
      r.Some? ==> match r.value
        case InstructionEntry(i) => i in doc.instructions && i.command == word
        case EnvEntry(v) => v in doc.environmentVariables && v.name == word
        case SectionEntry(c) => c in doc.sections && c.name == word
        case DirectiveEntry(c) => c in doc.directives && c.name == word
  {
    KeysOfSearch(doc.instructions, CommandOf, word);
    KeysOfSearch(doc.environmentVariables, EnvName, word);
    KeysOfSearch(doc.sections, ConstructName, word);
    KeysOfSearch(doc.directives, ConstructName, word);
  }

  /**
   * The indexed lookup follows the same precedence over the four maps: each
   * kind of result means that no earlier map holds the word, and the record
   * returned is the one its own map holds.
   */
  lemma ResolveIndexedPrecedence(word: string, lookup: Lookup)
    ensures var r := ResolveIndexed(word, lookup);
      (r.Some? && r.value.InstructionEntry?) <==> word in lookup.instructions
    ensures var r := ResolveIndexed(word, lookup);
      (r.Some? && r.value.EnvEntry?) <==> word !in lookup.instructions && word in lookup.environmentVariables
    ensures var r := ResolveIndexed(word, lookup);
      (r.Some? && r.value.SectionEntry?) <==>
        word !in lookup.instructions && word !in lookup.environmentVariables && word in lookup.sections
    ensures var r := ResolveIndexed(word, lookup);
      (r.Some? && r.value.DirectiveEntry?) <==>
        && word !in lookup.instructions && word !in lookup.environmentVariables && word !in lookup.sections
        && word in lookup.directives
    ensures var r := ResolveIndexed(word, lookup);
      r.Some? ==> match r.value
        case InstructionEntry(i) => i == lookup.instructions[word]
        case EnvEntry(v) => v == lookup.environmentVariables[word]
        case SectionEntry(c) => c == lookup.sections[word]
        case DirectiveEntry(c) => c == lookup.directives[word]
  {
  }

  /**
   * With the index built at start-up and no duplicate names in any list, the
   * indexed lookup and the linear fallback resolve every word alike.
   */
  lemma IndexedMatchesLinear(word: string, doc: Document)
    requires UniqueKeys(doc.instructions, CommandOf)
    requires UniqueKeys(doc.environmentVariables, EnvName)
    requires UniqueKeys(doc.sections, ConstructName)
    requires UniqueKeys(doc.directives, ConstructName)
    ensures ResolveIndexed(word, BuildLookup(doc)) == ResolveLinear(word, doc)
  {
    IndexAgreesWithSearch(doc.instructions, CommandOf, word);
    IndexAgreesWithSearch(doc.environmentVariables, EnvName, word);
    IndexAgreesWithSearch(doc.sections, ConstructName, word);
    IndexAgreesWithSearch(doc.directives, ConstructName, word);
  }

  // --- well-formedness: no value from the data carries markup into the popup

  lemma FixedTagLengths(url: string)
    ensures |ContentWrapper| == 27 && |SectionInfo| == 24 && |TypeLabel| == 23
    ensures |ParamNameTag| == 23 && |ParamTypeTag| == 23 && |ParamOptionalTag| == 27
    ensures |ValuesBox| == 47 && |ValuesList| == 45 && |ValueItemTag| == 26 && |ParamDescTag| == 22
    ensures |LinkTag(url)| >= 25
    ensures ParamNameTag[12] == 'p' && ParamTypeTag[12] == 'p' && TypeLabel[12] == 't'
  {
  }

  lemma HeadWellFormed(name: string, description: string, caption: string)
    requires AngleFree(caption)
    ensures WellFormed(HeadTokens(name, description, caption))
  {
    FixedTagsFree();
    EscapedTextWellFormed(name);
    EscapedTextWellFormed(description);
    var open := [Tag(ContentWrapper), Break(20)];
    assert WellFormed(open);
    assert WellFormed(NameHeading(name));
    assert WellFormed(HeadRest(description, caption));
    WellFormedAppend(open, NameHeading(name));
    WellFormedAppend(open + NameHeading(name), HeadRest(description, caption));
  }

  lemma LinkTagFree(url: string)
    ensures AngleFree(LinkTag(url))
  {
    var head := "a href=\"";
    var tail := "\" class=\"doc-link\"";
    EscapedTextWellFormed(url);
    assert AngleFree(head) && AngleFree(tail);
    AngleFreeAppend(head, Escape(url));
    AngleFreeAppend(head + Escape(url), tail);
  }

  lemma LinkTextFree()
    ensures AngleFree("View Documentation") && AngleFree("/a")
  {
    assert AngleFree("View ") && AngleFree("Documentation");
    AngleFreeAppend("View ", "Documentation");
    assert "View " + "Documentation" == "View Documentation";
  }

  lemma LinkWellFormed(url: string)
    ensures WellFormed(LinkTokens(url))
  {
    if url != "" {
      LinkTagFree(url);
      LinkTextFree();
      var ts := LinkTokens(url);
      forall k | 0 <= k < |ts|
        ensures AngleFree(Content(ts[k]))
      {
        if k == 1 {
          assert Content(ts[k]) == "View Documentation";
        }
      }
    }
  }

  lemma {:induction false} ValueItemsWellFormed(vs: seq<string>)
    ensures WellFormed(ValueItems(vs))
    decreases |vs|
  {
    if vs != [] {
      ValueItemsWellFormed(vs[..|vs| - 1]);
      EscapedTextWellFormed(vs[|vs| - 1]);
      FixedTagsFree();
      assert WellFormed(ValueItem(vs[|vs| - 1]));
      WellFormedAppend(ValueItems(vs[..|vs| - 1]), ValueItem(vs[|vs| - 1]));
    }
  }

  lemma FieldWellFormed(cls: string, value: string)
    requires AngleFree(cls)
    ensures WellFormed(Field(cls, value))
  {
    EscapedTextWellFormed(value);
  }

  lemma ParamHeadWellFormed(p: Parameter)
    ensures WellFormed(ParamHead(p)) && WellFormed(ParamTail(p))
  {
    FixedTagsFree();
    assert WellFormed(ParamOpen) && WellFormed(ParamHeadClose);
    var f1 := Field(ParamNameTag, p.name);
    var f2 := Field(ParamTypeTag, p.paramType);
    var f3 := Field(ParamOptionalTag, OptionalLabel(p));
    FieldWellFormed(ParamNameTag, p.name);
    FieldWellFormed(ParamTypeTag, p.paramType);
    FieldWellFormed(ParamOptionalTag, OptionalLabel(p));
    WellFormedAppend(ParamOpen, f1);
    WellFormedAppend(ParamOpen + f1, f2);
    WellFormedAppend(ParamOpen + f1 + f2, f3);
    WellFormedAppend(ParamOpen + f1 + f2 + f3, ParamHeadClose);
    EscapedTextWellFormed(p.description);
    assert WellFormed(ParamTail(p));
  }

  lemma ValuesBlockWellFormed(vs: seq<string>)
    ensures WellFormed(ValuesBlock(vs))
  {
    if vs != [] {
      FixedTagsFree();
      assert WellFormed(ValuesOpen);
      assert WellFormed(ValuesClose);
      ValueItemsWellFormed(vs);
      WellFormedAppend(ValuesOpen, ValueItems(vs));
      WellFormedAppend(ValuesOpen + ValueItems(vs), ValuesClose);
    }
  }

  lemma ParamWellFormed(p: Parameter)
    ensures WellFormed(ParamTokens(p))
  {
    ParamHeadWellFormed(p);
    ValuesBlockWellFormed(p.values);
    WellFormedAppend(ParamHead(p), ValuesBlock(p.values));
    WellFormedAppend(ParamHead(p) + ValuesBlock(p.values), ParamTail(p));
  }

  lemma {:induction false} ParamItemsWellFormed(ps: seq<Parameter>)
    ensures WellFormed(ParamItems(ps))
    decreases |ps|
  {
    if ps != [] {
      ParamItemsWellFormed(ps[..|ps| - 1]);
      ParamWellFormed(ps[|ps| - 1]);
      WellFormedAppend(ParamItems(ps[..|ps| - 1]), ParamTokens(ps[|ps| - 1]));
    }
  }

  lemma ParametersOpenWellFormed()
    ensures WellFormed(ParametersOpen)
  {
    assert AngleFree("h4") && AngleFree("Parameters") && AngleFree("/h4") && AngleFree("ul");
    forall k | 0 <= k < |ParametersOpen|
      ensures AngleFree(Content(ParametersOpen[k]))
    {
      if k == 1 {
        assert Content(ParametersOpen[k]) == "Parameters";
      }
    }
  }

  lemma ParametersBlockWellFormed(ps: seq<Parameter>)
    ensures WellFormed(ParametersBlock(ps))
  {
    if ps != [] {
      ParametersOpenWellFormed();
      assert WellFormed([Tag("/ul")]);
      ParamItemsWellFormed(ps);
      WellFormedAppend(ParametersOpen, ParamItems(ps));
      WellFormedAppend(ParametersOpen + ParamItems(ps), [Tag("/ul")]);
    }
  }

  /** Every value from a step record enters its popup escaped: no token holds an angle bracket. */
  lemma InstructionWellFormed(i: Instruction)
    ensures WellFormed(InstructionTokens(i))
  {
    var a := HeadTokens(i.name, i.description, "Pipeline Step");
    HeadWellFormed(i.name, i.description, "Pipeline Step");
    ParametersBlockWellFormed(i.parameters);
    WellFormedAppend(a, ParametersBlock(i.parameters));
    assert WellFormed([Tag("/div")]);
    WellFormedAppend(a + ParametersBlock(i.parameters), [Tag("/div")]);
    LinkWellFormed(i.url);
    WellFormedAppend(a + ParametersBlock(i.parameters) + [Tag("/div")], LinkTokens(i.url));
  }

  lemma AllowedWellFormed(allowed: string)
    ensures WellFormed(AllowedBlock(allowed))
  {
    FixedTagsFree();
    EscapedTextWellFormed(allowed);
  }

  /** The same for section and directive records. */
  lemma ConstructWellFormed(c: Construct, caption: string)
    requires AngleFree(caption)
    ensures WellFormed(ConstructTokens(c, caption))
  {
    var a := HeadTokens(c.name, c.description, caption);
    HeadWellFormed(c.name, c.description, caption);
    AllowedWellFormed(c.allowed);
    WellFormedAppend(a, AllowedBlock(c.allowed));
    assert WellFormed([Tag("/div")]);
    WellFormedAppend(a + AllowedBlock(c.allowed), [Tag("/div")]);
    LinkWellFormed(c.url);
    WellFormedAppend(a + AllowedBlock(c.allowed) + [Tag("/div")], LinkTokens(c.url));
  }

  // --- the optional parts of a popup appear exactly when their data is present

  /** The part holds none of the four tags that mark an optional part. */
  predicate Plain(ts: seq<Token>) {
    Tag("h4") !in ts && Tag("strong") !in ts && Tag("/a") !in ts && Tag(TypeLabel) !in ts
  }

  lemma HeadRestPlain(description: string, caption: string)
    ensures Plain(HeadRest(description, caption))
  {
    FixedTagLengths("");
  }

  lemma HeadPlain(name: string, description: string, caption: string)
    ensures Plain(HeadTokens(name, description, caption))
  {
    FixedTagLengths("");
    HeadRestPlain(description, caption);
    assert Plain(NameHeading(name));
  }

  lemma FieldPlain(cls: string, value: string)
    requires |cls| > 6 && cls != TypeLabel
    ensures Plain(Field(cls, value))
  {
  }

  lemma ParamHeadPlain(p: Parameter)
    ensures Plain(ParamHead(p)) && Plain(ParamTail(p))
  {
    FixedTagLengths("");
    assert ParamNameTag != TypeLabel && ParamTypeTag != TypeLabel;
    FieldPlain(ParamNameTag, p.name);
    FieldPlain(ParamTypeTag, p.paramType);
    FieldPlain(ParamOptionalTag, OptionalLabel(p));
    assert Plain(ParamOpen) && Plain(ParamHeadClose);
    assert Plain(ParamTail(p));
  }

  lemma {:induction false} ValueItemsPlain(vs: seq<string>)
    ensures Plain(ValueItems(vs))
    decreases |vs|
  {
    if vs != [] {
      ValueItemsPlain(vs[..|vs| - 1]);
      FixedTagLengths("");
      assert Plain(ValueItem(vs[|vs| - 1]));
    }
  }

  /** A parameter's entry holds a `<strong>` tag exactly when it lists allowed values, and no other marker. */
  lemma ParamMarkers(p: Parameter)
    ensures Tag("h4") !in ParamTokens(p) && Tag("/a") !in ParamTokens(p) && Tag(TypeLabel) !in ParamTokens(p)
    ensures Tag("strong") in ParamTokens(p) <==> p.values != []
  {
    ParamHeadPlain(p);
    FixedTagLengths("");
    if p.values != [] {
      ValueItemsPlain(p.values);
      assert Tag("h4") !in ValuesOpen && Tag("/a") !in ValuesOpen && Tag(TypeLabel) !in ValuesOpen;
      assert Plain(ValuesClose);
      assert Tag("strong") in ValuesOpen;
    }
  }

  /** Some parameter of the list lists allowed values. */
  function AnyHasValues(ps: seq<Parameter>): bool
    decreases |ps|
  {
    ps != [] && (AnyHasValues(ps[..|ps| - 1]) || ps[|ps| - 1].values != [])
  }

  lemma {:induction false} AnyHasValuesExists(ps: seq<Parameter>)
    ensures AnyHasValues(ps) <==> exists k :: 0 <= k < |ps| && ps[k].values != []
    decreases |ps|
  {
    if ps != [] {
      var init := ps[..|ps| - 1];
      AnyHasValuesExists(init);
      assert forall k :: 0 <= k < |init| ==> init[k] == ps[k];
    }
  }

  lemma {:induction false} ParamItemsMarkers(ps: seq<Parameter>)
    ensures Tag("h4") !in ParamItems(ps) && Tag("/a") !in ParamItems(ps) && Tag(TypeLabel) !in ParamItems(ps)
    ensures Tag("strong") in ParamItems(ps) <==> AnyHasValues(ps)
    decreases |ps|
  {
    if ps != [] {
      ParamItemsMarkers(ps[..|ps| - 1]);
      ParamMarkers(ps[|ps| - 1]);
    }
  }

  lemma ParametersBlockMarkers(ps: seq<Parameter>)
    ensures Tag("/a") !in ParametersBlock(ps) && Tag(TypeLabel) !in ParametersBlock(ps)
    ensures Tag("h4") in ParametersBlock(ps) <==> ps != []
    ensures Tag("strong") in ParametersBlock(ps) <==> AnyHasValues(ps)
  {
    FixedTagLengths("");
    if ps != [] {
      ParamItemsMarkers(ps);
      assert Tag("h4") in ParametersOpen;
      assert Tag("/a") !in ParametersOpen && Tag(TypeLabel) !in ParametersOpen && Tag("strong") !in ParametersOpen;
    }
  }

  lemma LinkMarkers(url: string)
    ensures Tag("h4") !in LinkTokens(url) && Tag("strong") !in LinkTokens(url) && Tag(TypeLabel) !in LinkTokens(url)
    ensures Tag("/a") in LinkTokens(url) <==> url != ""
  {
    FixedTagLengths(url);
    if url != "" {
      assert LinkTokens(url)[2] == Tag("/a");
    }
  }

  lemma AllowedMarkers(allowed: string)
    ensures Tag("h4") !in AllowedBlock(allowed) && Tag("strong") !in AllowedBlock(allowed) && Tag("/a") !in AllowedBlock(allowed)
    ensures Tag(TypeLabel) in AllowedBlock(allowed) <==> allowed != ""
  {
    FixedTagLengths("");
    if allowed != "" {
      assert AllowedBlock(allowed)[2] == Tag(TypeLabel);
    }
  }

  /** The markers as written in the source, spelled as rendered tags. */
  lemma MarkerSpellings()
    ensures "<" + "h4" + ">" == "<h4>"
    ensures "<" + "strong" + ">" == "<strong>"
    ensures "<" + "/a" + ">" == "</a>"
  {
  }

  /** The rendered step popup holds a `<h4>` heading exactly when the step has parameters. */
  lemma InstructionDocHeading(i: Instruction)
    ensures Contains(Render(InstructionTokens(i)), "<h4>") <==> i.parameters != []
  {
    InstructionWellFormed(i);
    TagOccurs(InstructionTokens(i), "h4");
    MarkerSpellings();
    HeadPlain(i.name, i.description, "Pipeline Step");
    ParametersBlockMarkers(i.parameters);
    LinkMarkers(i.url);
  }

  /** It holds a `<strong>` values box exactly when some parameter lists allowed values. */
  lemma InstructionDocValues(i: Instruction)
    ensures Contains(Render(InstructionTokens(i)), "<strong>") <==>
      exists k :: 0 <= k < |i.parameters| && i.parameters[k].values != []
  {
    AnyHasValuesExists(i.parameters);
    InstructionWellFormed(i);
    TagOccurs(InstructionTokens(i), "strong");
    MarkerSpellings();
    HeadPlain(i.name, i.description, "Pipeline Step");
    ParametersBlockMarkers(i.parameters);
    LinkMarkers(i.url);
  }

  /** It ends in a documentation link exactly when the step has a `url`. */
  lemma InstructionDocLink(i: Instruction)
    ensures Contains(Render(InstructionTokens(i)), "</a>") <==> i.url != ""
  {
    InstructionWellFormed(i);
    TagOccurs(InstructionTokens(i), "/a");
    MarkerSpellings();
    HeadPlain(i.name, i.description, "Pipeline Step");
    ParametersBlockMarkers(i.parameters);
    LinkMarkers(i.url);
  }

  /** A section or directive popup holds the "Allowed" label exactly when `allowed` is set. */
  lemma ConstructDocAllowed(c: Construct, caption: string)
    requires AngleFree(caption)
    ensures Contains(Render(ConstructTokens(c, caption)), "<" + TypeLabel + ">") <==> c.allowed != ""
  {
    ConstructWellFormed(c, caption);
    FixedTagsFree();
    TagOccurs(ConstructTokens(c, caption), TypeLabel);
    HeadPlain(c.name, c.description, caption);
    AllowedMarkers(c.allowed);
    LinkMarkers(c.url);
  }

  /** ... and a documentation link exactly when `url` is. */
  lemma ConstructDocLink(c: Construct, caption: string)
    requires AngleFree(caption)
    ensures Contains(Render(ConstructTokens(c, caption)), "</a>") <==> c.url != ""
  {
    ConstructWellFormed(c, caption);
    TagOccurs(ConstructTokens(c, caption), "/a");
    MarkerSpellings();
    HeadPlain(c.name, c.description, caption);
    AllowedMarkers(c.allowed);
    LinkMarkers(c.url);
  }

  // --- the "(Optional)" label of each parameter

  /** At `k` the tokens hold a complete optional-flag span reading `x`. */
  predicate SlotAt(ts: seq<Token>, k: int, x: string) {
    && 0 <= k && k + 2 < |ts|
    && ts[k] == Tag(ParamOptionalTag) && ts[k + 1] == Text(x) && ts[k + 2] == Tag("/span")
  }

  /**
   * Every optional-flag tag opens a complete span reading either nothing or
   * `(Optional)`, and `b` says whether some span reads `(Optional)`.
   */
  ghost predicate SlotsOk(ts: seq<Token>, b: bool) {
    && (forall k :: 0 <= k < |ts| && ts[k] == Tag(ParamOptionalTag) ==>
          SlotAt(ts, k, "") || SlotAt(ts, k, "(Optional)"))
    && ((exists k :: SlotAt(ts, k, "(Optional)")) <==> b)
  }

  lemma NoSlot(ts: seq<Token>)
    requires Tag(ParamOptionalTag) !in ts
    ensures SlotsOk(ts, false)
  {
    assert forall k :: 0 <= k < |ts| ==> ts[k] != Tag(ParamOptionalTag);
  }

  /** Spans never straddle the seam of two well-behaved parts. */
  lemma SlotsAppend(a: seq<Token>, b: seq<Token>, ba: bool, bb: bool)
    requires SlotsOk(a, ba) && SlotsOk(b, bb)
    ensures SlotsOk(a + b, ba || bb)
  {
    var ab := a + b;
    forall k | 0 <= k < |ab| && ab[k] == Tag(ParamOptionalTag)
      ensures SlotAt(ab, k, "") || SlotAt(ab, k, "(Optional)")
    {
      if k < |a| {
        assert a[k] == ab[k];
        assert SlotAt(a, k, "") || SlotAt(a, k, "(Optional)");
        assert ab[k + 1] == a[k + 1] && ab[k + 2] == a[k + 2];
      } else {
        assert b[k - |a|] == ab[k];
        assert SlotAt(b, k - |a|, "") || SlotAt(b, k - |a|, "(Optional)");
        assert ab[k + 1] == b[k - |a| + 1] && ab[k + 2] == b[k - |a| + 2];
      }
    }
    if exists k :: SlotAt(ab, k, "(Optional)") {
      var k :| SlotAt(ab, k, "(Optional)");
      if k < |a| {
        assert a[k] == ab[k];
        assert SlotAt(a, k, "") || SlotAt(a, k, "(Optional)");
        assert ab[k + 1] == a[k + 1];
        assert SlotAt(a, k, "(Optional)");
      } else {
        assert b[k - |a|] == ab[k];
        assert SlotAt(b, k - |a|, "") || SlotAt(b, k - |a|, "(Optional)");
        assert ab[k + 1] == b[k - |a| + 1];
        assert SlotAt(b, k - |a|, "(Optional)");
      }
    }
    if ba {
      var k :| SlotAt(a, k, "(Optional)");
      assert ab[k] == a[k] && ab[k + 1] == a[k + 1] && ab[k + 2] == a[k + 2];
      assert SlotAt(ab, k, "(Optional)");
    }
    if bb {
      var k :| SlotAt(b, k, "(Optional)");
      assert ab[|a| + k] == b[k] && ab[|a| + k + 1] == b[k + 1] && ab[|a| + k + 2] == b[k + 2];
      assert SlotAt(ab, |a| + k, "(Optional)");
    }
  }

  lemma OptionalTagDistinct()
    ensures ParamOptionalTag != ContentWrapper && ParamOptionalTag != SectionInfo
    ensures ParamOptionalTag != ParamNameTag && ParamOptionalTag != ParamTypeTag
    ensures ParamOptionalTag != ValuesBox && ParamOptionalTag != ValuesList
    ensures ParamOptionalTag != ValueItemTag && ParamOptionalTag != ParamDescTag
    ensures forall url :: ParamOptionalTag != LinkTag(url)
  {
    FixedTagLengths("");
    assert ContentWrapper[0] == 'd';
    assert ParamOptionalTag[0] == 's';
    forall url ensures ParamOptionalTag != LinkTag(url) {
      assert LinkTag(url)[0] == 'a';
    }
  }

  /** A lone four-token span: a text, the optional-flag tag, its text and the closing tag. */
  lemma SpanSlot(f: seq<Token>, x: string)
    requires |f| == 4 && f[0].Text? && f[1] == Tag(ParamOptionalTag) && f[2] == Text(x) && f[3] == Tag("/span")
    requires x == "" || x == "(Optional)"
    requires ParamOptionalTag != "/span"
    ensures SlotsOk(f, x == "(Optional)")
  {
    assert SlotAt(f, 1, x);
    assert forall k :: SlotAt(f, k, "(Optional)") ==> k == 1;
  }

  /** The flag text needs no escaping. */
  lemma OptionalLabelField(p: Parameter)
    ensures Field(ParamOptionalTag, OptionalLabel(p))[2] == Text(OptionalLabel(p))
  {
    if p.isOptional {
      EscapeUnchanged("(Optional)");
    }
  }

  lemma OptionalFieldSlot(p: Parameter)
    ensures SlotsOk(Field(ParamOptionalTag, OptionalLabel(p)), p.isOptional)
  {
    OptionalLabelField(p);
    FixedTagLengths("");
    SpanSlot(Field(ParamOptionalTag, OptionalLabel(p)), OptionalLabel(p));
  }

  lemma ParamHeadSlot(p: Parameter)
    ensures SlotsOk(ParamHead(p), p.isOptional)
  {
    OptionalTagDistinct();
    var f1 := Field(ParamNameTag, p.name);
    var f2 := Field(ParamTypeTag, p.paramType);
    var f3 := Field(ParamOptionalTag, OptionalLabel(p));
    NoSlot(ParamOpen);
    NoSlot(f1);
    NoSlot(f2);
    OptionalFieldSlot(p);
    FixedTagLengths("");
    NoSlot(ParamHeadClose);
    SlotsAppend(ParamOpen, f1, false, false);
    SlotsAppend(ParamOpen + f1, f2, false, false);
    SlotsAppend(ParamOpen + f1 + f2, f3, false, p.isOptional);
    SlotsAppend(ParamOpen + f1 + f2 + f3, ParamHeadClose, p.isOptional, false);
  }

  lemma {:induction false} ValueItemsNoSlot(vs: seq<string>)
    ensures Tag(ParamOptionalTag) !in ValueItems(vs)
    decreases |vs|
  {
    if vs != [] {
      ValueItemsNoSlot(vs[..|vs| - 1]);
      OptionalTagDistinct();
      FixedTagLengths("");
      assert Tag(ParamOptionalTag) !in ValueItem(vs[|vs| - 1]);
    }
  }

  lemma ParamSlot(p: Parameter)
    ensures SlotsOk(ParamTokens(p), p.isOptional)
  {
    OptionalTagDistinct();
    FixedTagLengths("");
    ParamHeadSlot(p);
    if p.values != [] {
      ValueItemsNoSlot(p.values);
      assert Tag(ParamOptionalTag) !in ValuesOpen && Tag(ParamOptionalTag) !in ValuesClose;
    }
    NoSlot(ValuesBlock(p.values));
    NoSlot(ParamTail(p));
    SlotsAppend(ParamHead(p), ValuesBlock(p.values), p.isOptional, false);
    SlotsAppend(ParamHead(p) + ValuesBlock(p.values), ParamTail(p), p.isOptional, false);
  }

  /** Some parameter of the list is optional. */
  function AnyOptional(ps: seq<Parameter>): bool
    decreases |ps|
  {
    ps != [] && (AnyOptional(ps[..|ps| - 1]) || ps[|ps| - 1].isOptional)
  }

  lemma {:induction false} AnyOptionalExists(ps: seq<Parameter>)
    ensures AnyOptional(ps) <==> exists k :: 0 <= k < |ps| && ps[k].isOptional
    decreases |ps|
  {
    if ps != [] {
      var init := ps[..|ps| - 1];
      AnyOptionalExists(init);
      assert forall k :: 0 <= k < |init| ==> init[k] == ps[k];
    }
  }

  lemma {:induction false} ParamItemsSlots(ps: seq<Parameter>)
    ensures SlotsOk(ParamItems(ps), AnyOptional(ps))
    decreases |ps|
  {
    if ps == [] {
      NoSlot([]);
    } else {
      var init := ps[..|ps| - 1];
      var last := ps[|ps| - 1];
      ParamItemsSlots(init);
      ParamSlot(last);
      SlotsAppend(ParamItems(init), ParamTokens(last), AnyOptional(init), last.isOptional);
    }
  }

  lemma HeadNoSlot(name: string, description: string, caption: string)
    ensures SlotsOk(HeadTokens(name, description, caption), false)
  {
    OptionalTagDistinct();
    FixedTagLengths("");
    assert Tag(ParamOptionalTag) !in HeadTokens(name, description, caption);
    NoSlot(HeadTokens(name, description, caption));
  }

  lemma LinkNoSlot(url: string)
    ensures SlotsOk(LinkTokens(url), false)
  {
    OptionalTagDistinct();
    assert Tag(ParamOptionalTag) !in LinkTokens(url);
    NoSlot(LinkTokens(url));
  }

  lemma ParametersBlockSlots(ps: seq<Parameter>)
    ensures SlotsOk(ParametersBlock(ps), AnyOptional(ps))
  {
    if ps == [] {
      NoSlot(ParametersBlock(ps));
    } else {
      var b := AnyOptional(ps);
      FixedTagLengths("");
      ParamItemsSlots(ps);
      NoSlot(ParametersOpen);
      NoSlot([Tag("/ul")]);
      SlotsAppend(ParametersOpen, ParamItems(ps), false, b);
      SlotsAppend(ParametersOpen + ParamItems(ps), [Tag("/ul")], b, false);
    }
  }

  lemma InstructionSlots(i: Instruction)
    ensures SlotsOk(InstructionTokens(i), AnyOptional(i.parameters))
  {
    var ps := i.parameters;
    var b := AnyOptional(ps);
    var head := HeadTokens(i.name, i.description, "Pipeline Step");
    HeadNoSlot(i.name, i.description, "Pipeline Step");
    ParametersBlockSlots(ps);
    SlotsAppend(head, ParametersBlock(ps), false, b);
    FixedTagLengths("");
    NoSlot([Tag("/div")]);
    SlotsAppend(head + ParametersBlock(ps), [Tag("/div")], b, false);
    LinkNoSlot(i.url);
    SlotsAppend(head + ParametersBlock(ps) + [Tag("/div")], LinkTokens(i.url), b, false);
  }

  /** What follows the tag of a span determines the rendered text right after it. */
  lemma SlotRenders(ts: seq<Token>, k: int)
    requires SlotAt(ts, k, "") || SlotAt(ts, k, "(Optional)")
    ensures SlotAt(ts, k, "") ==> |Render(ts[k + 1..])| > 0 && Render(ts[k + 1..])[0] == '<'
    ensures SlotAt(ts, k, "(Optional)") ==> Render(ts[k + 1..]) == "(Optional)" + Render(ts[k + 2..])
  {
    assert ts[k + 1..][1..] == ts[k + 2..];
    assert ts[k + 2..][1..] == ts[k + 3..];
    if SlotAt(ts, k, "") {
      assert Render(ts[k + 1..]) == "" + Render(ts[k + 2..]);
      assert Render(ts[k + 2..]) == "<" + "/span" + ">" + Render(ts[k + 3..]);
    }
  }

  lemma OptionalTagFree()
    ensures AngleFree(ParamOptionalTag)
  {
    assert AngleFree(ParamOptionalTag);
  }

  /** A rendered `(Optional)` flag comes from a span that reads `(Optional)`. */
  lemma FlagFromSlot(ts: seq<Token>, b: bool)
    requires WellFormed(ts) && SlotsOk(ts, b)
    requires Contains(Render(ts), "<" + ParamOptionalTag + ">" + "(Optional)")
    ensures b
  {
    OptionalTagFree();
    TagAligned(ts, ParamOptionalTag, "(Optional)");
    var k :| 0 <= k < |ts| && ts[k] == Tag(ParamOptionalTag) && StartsWith(Render(ts[k + 1..]), "(Optional)");
    SlotRenders(ts, k);
    StartsWithFirst(Render(ts[k + 1..]), "(Optional)");
    assert SlotAt(ts, k, "(Optional)");
  }

  /** A span reading `(Optional)` renders the flag. */
  lemma SlotShowsFlag(ts: seq<Token>, k: int)
    requires SlotAt(ts, k, "(Optional)")
    ensures Contains(Render(ts), "<" + ParamOptionalTag + ">" + "(Optional)")
  {
    TagTextShown(ts, k, ParamOptionalTag, "(Optional)");
  }

  /**
   * The rendered step popup shows a `(Optional)` flag exactly when some
   * parameter is optional. A description reading `(Optional)` does not
   * count: the flag is the text inside the parameter's optional-flag span.
   */
  lemma InstructionDocOptional(i: Instruction)
    ensures Contains(Render(InstructionTokens(i)), "<" + ParamOptionalTag + ">" + "(Optional)") <==>
      exists k :: 0 <= k < |i.parameters| && i.parameters[k].isOptional
  {
    var ts := InstructionTokens(i);
    var b := AnyOptional(i.parameters);
    AnyOptionalExists(i.parameters);
    InstructionSlots(i);
    InstructionWellFormed(i);
    if Contains(Render(ts), "<" + ParamOptionalTag + ">" + "(Optional)") {
      FlagFromSlot(ts, b);
    }
    if b {
      var k :| SlotAt(ts, k, "(Optional)");
      SlotShowsFlag(ts, k);
    }
  }

  lemma NameHeadingRender(name: string)
    ensures Render(NameHeading(name)) == "<h3>" + Escape(name) + "</h3>"
  {
    var h := NameHeading(name);
    assert h[1..][1..][1..] == [];
    assert Render(h[1..][1..]) == "</h3>";
    assert Render(h[1..]) == Escape(name) + "</h3>";
  }

  /** The heading shows the name wherever it sits among other tokens. */
  lemma NameHeadingShown(before: seq<Token>, name: string, after: seq<Token>)
    ensures Contains(Render(before + NameHeading(name) + after), "<h3>" + Escape(name) + "</h3>")
  {
    var h := NameHeading(name);
    RenderAppend(before + h, after);
    RenderAppend(before, h);
    NameHeadingRender(name);
    assert OccursAt(Render(h), Render(h), 0);
    ContainsInMiddle(Render(before), Render(h), Render(after), Render(h));
  }

  /** The common head shows the name whatever follows it. */
  lemma HeadShowsName(name: string, description: string, caption: string, tail: seq<Token>)
    ensures Contains(Render(HeadTokens(name, description, caption) + tail), "<h3>" + Escape(name) + "</h3>")
  {
    var open := [Tag(ContentWrapper), Break(20)];
    var r := HeadRest(description, caption);
    SeqAssoc(open + NameHeading(name), r, tail);
    NameHeadingShown(open, name, r + tail);
  }

  lemma InstructionShowsName(i: Instruction)
    ensures Contains(Render(InstructionTokens(i)), "<h3>" + Escape(i.name) + "</h3>")
  {
    var head := HeadTokens(i.name, i.description, "Pipeline Step");
    var pb, close, link := ParametersBlock(i.parameters), [Tag("/div")], LinkTokens(i.url);
    SeqAssoc(head, pb, close);
    SeqAssoc(head, pb + close, link);
    HeadShowsName(i.name, i.description, "Pipeline Step", pb + close + link);
  }

  lemma EnvShowsName(v: EnvVar)
    ensures Contains(Render(EnvVarTokens(v)), "<h3>" + Escape(v.name) + "</h3>")
  {
    NameHeadingShown([Break(12), Tag(ContentWrapper), Break(16)], v.name, EnvRest(v));
  }

  lemma ConstructShowsName(c: Construct, caption: string)
    ensures Contains(Render(ConstructTokens(c, caption)), "<h3>" + Escape(c.name) + "</h3>")
  {
    var head := HeadTokens(c.name, c.description, caption);
    var ab, close, link := AllowedBlock(c.allowed), [Tag("/div")], LinkTokens(c.url);
    SeqAssoc(head, ab, close);
    SeqAssoc(head, ab + close, link);
    HeadShowsName(c.name, c.description, caption, ab + close + link);
  }

  /** Every popup shows the record's name, escaped, as its `<h3>` heading. */
  lemma DocShowsName(e: Entry)
    ensures var name := match e
        case InstructionEntry(i) => i.name
        case EnvEntry(v) => v.name
        case SectionEntry(c) => c.name
        case DirectiveEntry(c) => c.name;
      Contains(Render(EntryTokens(e)), "<h3>" + Escape(name) + "</h3>")
  {
    match e
    case InstructionEntry(i) => InstructionShowsName(i);
    case EnvEntry(v) => EnvShowsName(v);
    case SectionEntry(c) => ConstructShowsName(c, "Pipeline Section");
    case DirectiveEntry(c) => ConstructShowsName(c, "Pipeline Directive");
  }
}
