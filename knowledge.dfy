/**
 * The knowledge base the plugin loads from its JSON data file: Jenkins
 * pipeline steps ("instructions"), environment variables, pipeline sections
 * and directives, and the index built over them when the plugin starts.
 *
 * A JSON field the source reads with `.get(key)` and only tests for
 * truthiness is modelled by its empty value: an absent `url` or `allowed` is
 * the empty string, an absent list is the empty sequence.
 */
module Knowledge {
  import opened Wrappers

  /** One parameter of a pipeline step. */
  datatype Parameter = Parameter(
    name: string,
    paramType: string,
    description: string,
    isOptional: bool,
    values: seq<string>)

  /** A pipeline step, looked up by its `command`. */
  datatype Instruction = Instruction(
    command: string,
    name: string,
    description: string,
    parameters: seq<Parameter>,
    url: string)

  /** A pipeline section or directive (both records have the same fields). */
  datatype Construct = Construct(
    name: string,
    description: string,
    allowed: string,
    innerInstructions: seq<string>,
    url: string)

  datatype EnvVar = EnvVar(name: string, description: string)

  /** The top-level JSON object of the data file. */
  datatype Document = Document(
    plugins: seq<string>,
    instructions: seq<Instruction>,
    sections: seq<Construct>,
    directives: seq<Construct>,
    environmentVariables: seq<EnvVar>)

  /** The `_lookup` entry: four maps from a name to its record. */
  datatype Lookup = Lookup(
    instructions: map<string, Instruction>,
    environmentVariables: map<string, EnvVar>,
    sections: map<string, Construct>,
    directives: map<string, Construct>)

  /**
   * The loaded data as the rest of the plugin sees it. A falsy JSON value
   * (`null`, `{}`) is represented one level up, as `None`.
   */
  datatype JenkinsData = JenkinsData(doc: Document, lookup: Option<Lookup>)

  /** The data holds a non-empty `instructions` list, the test both the status bar and the completions make. */
  predicate HasInstructions(data: Option<JenkinsData>) {
    data.Some? && data.value.doc.instructions != []
  }

  /** The record with five empty lists. */
  const EmptyDocument := Document([], [], [], [], [])
}
