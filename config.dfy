/** The records the builder reads and writes: the parsed build configuration
    (config/build_config.yaml), the assistant configuration it hands to the
    deployer (gpt_config.json) and the diagnostic build record
    (build_info.json). A configuration entry that may be missing from the
    parsed file is an `Option`; looking up a missing required entry raises
    `KeyError` in the source, which is `MissingKey` here. */
module Config {
  import opened Results

  datatype BuildConfig = BuildConfig(
    gptName: Option<string>,
    description: Option<string>,
    visibility: Option<string>,
    components: map<string, string>,      // component kind -> path
    capabilities: Option<map<string, bool>>,
    conversationStarters: Option<seq<string>>)

  datatype BuildError = MissingKey(key: string)

  datatype GptConfig = GptConfig(
    name: string,
    description: string,
    instructions: string,
    conversationStarters: seq<string>,
    knowledgeFiles: seq<string>,
    capabilities: map<string, bool>,
    visibility: string)

  /** The diagnostic record; its "build_time" entry is a fixed placeholder
      text and is not part of this model. */
  datatype BuildInfo = BuildInfo(promptLength: nat, knowledgeFilesCount: nat, config: BuildConfig)

  const DefaultVisibility := "private"

  /** The configuration written out when config/build_config.yaml is
      missing. */
  const DefaultConfig := BuildConfig(
    Some("MyCustomGPT"),
    Some("カスタムGPTの説明"),
    Some("private"),
    map[
      "role_definition" := "src/prompts/role_definition.md",
      "instructions" := "src/instructions/main_instructions.md",
      "examples" := "src/examples/",
      "knowledge" := "src/knowledge/"],
    Some(map["web_browsing" := true, "dalle" := false, "code_interpreter" := true]),
    Some([
      "何について相談したいですか？",
      "どのような支援が必要ですか？",
      "具体的な課題を教えてください",
      "まずは概要を説明してください"]))

  /** `config["components"][kind]`. */
  function Component(config: BuildConfig, kind: string): Result<string, BuildError>
  {
    if kind in config.components then Success(config.components[kind]) else Failure(MissingKey(kind))
  }

  /** `create_gpt_config` once the knowledge files are known: the prompt
      becomes the instructions, name and description are copied (both
      required), and missing starters, capabilities and visibility take the
      defaults [], {} and "private". */
  function MakeGptConfig(config: BuildConfig, prompt: string, knowledge: seq<string>): (r: Result<GptConfig, BuildError>)
    ensures r.Success? <==> config.gptName.Some? && config.description.Some?
    ensures config.gptName.None? ==> r == Failure(MissingKey("gpt_name"))
    ensures config.gptName.Some? && config.description.None? ==> r == Failure(MissingKey("description"))
    ensures r.Success? ==>
      && r.value.instructions == prompt
      && r.value.knowledgeFiles == knowledge
      && r.value.name == config.gptName.value
      && r.value.description == config.description.value
    ensures r.Success? ==>
      && (config.conversationStarters.None? ==> r.value.conversationStarters == [])
      && (config.conversationStarters.Some? ==> r.value.conversationStarters == config.conversationStarters.value)
      && (config.capabilities.None? ==> r.value.capabilities == map[])
      && (config.capabilities.Some? ==> r.value.capabilities == config.capabilities.value)
      && (config.visibility.None? ==> r.value.visibility == "private")
      && (config.visibility.Some? ==> r.value.visibility == config.visibility.value)
  {
    match config.gptName
    case None => Failure(MissingKey("gpt_name"))
    case Some(name) =>
      match config.description
      case None => Failure(MissingKey("description"))
      case Some(description) =>
        Success(GptConfig(
          name,
          description,
          prompt,
          config.conversationStarters.GetOr([]),
          knowledge,
          config.capabilities.GetOr(map[]),
          config.visibility.GetOr(DefaultVisibility)))
  }

  /** The record for a successful build. */
  function MakeBuildInfo(config: BuildConfig, prompt: string, gpt: GptConfig): BuildInfo
  {
    BuildInfo(|prompt|, |gpt.knowledgeFiles|, config)
  }
}
