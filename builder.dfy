/** The build pipeline of `PromptBuilder`: read the build configuration,
    assemble the instructions from the component files, collect the
    knowledge files, fill in the assistant configuration, validate it and,
    only when it passes, write the three build artifacts. */
module Builder {
  import opened Results
  import opened Seqs
  import opened Text
  import opened Paths
  import opened FileSystem
  import opened Config
  import opened Prompt
  import opened Validation

  /** What the build writes into build/. */
  datatype Artifact =
    | PromptText(text: string)          // main_prompt.txt
    | ConfigJson(gpt: GptConfig)        // gpt_config.json
    | InfoJson(info: BuildInfo)         // build_info.json

  const MainPromptFile := "main_prompt.txt"
  const GptConfigFile := "gpt_config.json"
  const BuildInfoFile := "build_info.json"

  /** `build_main_prompt`, specified: the prompt assembled from the role
      file, the instructions file and the fragments of the examples
      directory, or the first missing component entry. */
  function MainPrompt(t: Tree, config: BuildConfig): Result<string, BuildError>
  {
    match Component(config, "role_definition")
    case Failure(e) => Failure(e)
    case Success(rolePath) =>
      match Component(config, "instructions")
      case Failure(e) => Failure(e)
      case Success(instructionsPath) =>
        match Component(config, "examples")
        case Failure(e) => Failure(e)
        case Success(examplesPath) =>
          Success(AssemblePrompt(
            LoadComponent(t, Resolve(rolePath)),
            LoadComponent(t, Resolve(instructionsPath)),
            Fragments(t, Resolve(examplesPath))))
  }

  /** Once the three components are loaded, the main prompt is assembled
      from them. */
  lemma MainPromptFound(t: Tree, config: BuildConfig, role: string, instructions: string, examples: seq<string>)
    requires "role_definition" in config.components && "instructions" in config.components && "examples" in config.components
    requires role == LoadComponent(t, Resolve(config.components["role_definition"]))
    requires instructions == LoadComponent(t, Resolve(config.components["instructions"]))
    requires examples == Fragments(t, Resolve(config.components["examples"]))
    ensures MainPrompt(t, config) == Success(AssemblePrompt(role, instructions, examples))
  {
  }

  /** `collect_knowledge_files`, specified. */
  function Knowledge(t: Tree, config: BuildConfig): Result<seq<string>, BuildError>
  {
    match Component(config, "knowledge")
    case Failure(e) => Failure(e)
    case Success(dir) => Success(KnowledgeFiles(t, Resolve(dir)))
  }

  /** `create_gpt_config`, specified: the knowledge entry is looked up
      before the name and the description. */
  function GptConfigFor(t: Tree, config: BuildConfig, prompt: string): Result<GptConfig, BuildError>
  {
    match Knowledge(t, config)
    case Failure(e) => Failure(e)
    case Success(files) => MakeGptConfig(config, prompt, files)
  }

  /** How a build ends: written, stopped by a missing configuration entry
      (a `KeyError` the build catches), or rejected by validation. */
  datatype Outcome =
    | Built(prompt: string, gpt: GptConfig, info: BuildInfo)
    | ConfigError(error: BuildError)
    | Rejected(issues: seq<Issue>)

  /** `build`, specified on the configuration it reads. */
  function BuildOutcome(t: Tree, config: BuildConfig): Outcome
  {
    match MainPrompt(t, config)
    case Failure(e) => ConfigError(e)
    case Success(prompt) =>
      match GptConfigFor(t, config, prompt)
      case Failure(e) => ConfigError(e)
      case Success(gpt) =>
        if Issues(gpt) != [] then Rejected(Issues(gpt))
        else Built(prompt, gpt, MakeBuildInfo(config, prompt, gpt))
  }

  /** The configuration the build reads: the parsed file, or the default
      configuration when there is none. */
  function EffectiveConfig(configFile: Option<BuildConfig>): BuildConfig
  {
    configFile.GetOr(DefaultConfig)
  }

  /** The output directory after a successful build. */
  function Written(output: map<string, Artifact>, prompt: string, gpt: GptConfig, info: BuildInfo): map<string, Artifact>
  {
    output[MainPromptFile := PromptText(prompt)][GptConfigFile := ConfigJson(gpt)][BuildInfoFile := InfoJson(info)]
  }

  /** The prompt can be assembled exactly when the role, instructions and
      examples entries are configured; otherwise the first missing one, in
      that order, is reported. */
  lemma MainPromptSucceedsIff(t: Tree, config: BuildConfig)
    ensures MainPrompt(t, config).Success? <==>
      "role_definition" in config.components && "instructions" in config.components && "examples" in config.components
    ensures "role_definition" !in config.components ==> MainPrompt(t, config) == Failure(MissingKey("role_definition"))
    ensures "role_definition" in config.components && "instructions" !in config.components ==>
      MainPrompt(t, config) == Failure(MissingKey("instructions"))
    ensures "role_definition" in config.components && "instructions" in config.components && "examples" !in config.components ==>
      MainPrompt(t, config) == Failure(MissingKey("examples"))
  {
  }

  /** A build writes its artifacts exactly when every configuration entry
      it needs is there, the configuration has a non-empty name, the
      assembled prompt is between 100 and 8000 characters long and there
      are at most four conversation starters. The prompt is never empty,
      so the empty-instructions check never fails during a build. */
  lemma BuildSucceedsIff(t: Tree, config: BuildConfig)
    ensures BuildOutcome(t, config).Built? <==>
      && MainPrompt(t, config).Success?
      && "knowledge" in config.components
      && config.gptName.Some? && config.gptName.value != ""
      && config.description.Some?
      && MinInstructionsLength <= |MainPrompt(t, config).value| <= MaxInstructionsLength
      && |config.conversationStarters.GetOr([])| <= MaxConversationStarters
  {
    MainPromptSucceedsIff(t, config);
    var prompt := MainPrompt(t, config);
    if prompt.Success? {
      var c := config.components;
      PromptNeverEmpty(LoadComponent(t, Resolve(c["role_definition"])), LoadComponent(t, Resolve(c["instructions"])), Fragments(t, Resolve(c["examples"])));
      var gpt := GptConfigFor(t, config, prompt.value);
      if gpt.Success? {
        ValidIff(gpt.value);
      }
    }
  }

  /** A successful build records the prompt's length and the number of
      knowledge files, and the assistant configuration carries the prompt
      as its instructions and the knowledge directory's files. */
  lemma BuildInfoFaithful(t: Tree, config: BuildConfig)
    requires BuildOutcome(t, config).Built?
    ensures var outcome := BuildOutcome(t, config);
      && "knowledge" in config.components
      && MainPrompt(t, config) == Success(outcome.prompt)
      && outcome.gpt.instructions == outcome.prompt
      && outcome.gpt.knowledgeFiles == KnowledgeFiles(t, Resolve(config.components["knowledge"]))
      && outcome.info.promptLength == |outcome.prompt|
      && outcome.info.knowledgeFilesCount == |KnowledgeFiles(t, Resolve(config.components["knowledge"]))|
      && outcome.info.config == config
  {
  }

  /** A build whose entries are all missing or empty produces only the
      92-character trailer, which is too short: it is rejected, never
      written. */
  lemma EmptyComponentsRejected(t: Tree, config: BuildConfig)
    requires "role_definition" in config.components && "instructions" in config.components
    requires "examples" in config.components && "knowledge" in config.components
    requires config.gptName.Some? && config.description.Some?
    requires LoadComponent(t, Resolve(config.components["role_definition"])) == ""
    requires LoadComponent(t, Resolve(config.components["instructions"])) == ""
    requires Fragments(t, Resolve(config.components["examples"])) == []
    ensures BuildOutcome(t, config).Rejected?
    ensures InstructionsTooShort in BuildOutcome(t, config).issues
  {
    TrailerOnly();
    TrailerLength();
    assert MainPrompt(t, config) == Success(TrailerText);
    var gpt := GptConfigFor(t, config, TrailerText).value;
    assert gpt.instructions == TrailerText;
    IssueReported(gpt, InstructionsTooShort);
  }

  /** With the default configuration the name, description, knowledge
      entry and the four starters pass, so the build succeeds exactly when
      the assembled prompt is between 100 and 8000 characters long. */
  lemma DefaultConfigBuild(t: Tree)
    ensures MainPrompt(t, DefaultConfig).Success?
    ensures BuildOutcome(t, DefaultConfig).Built? <==>
      MinInstructionsLength <= |MainPrompt(t, DefaultConfig).value| <= MaxInstructionsLength
  {
    BuildSucceedsIff(t, DefaultConfig);
    MainPromptSucceedsIff(t, DefaultConfig);
  }

  /** The examples section of `build_main_prompt`: its header, then for
      each example, numbered from 1, a heading, the example and a blank
      line; nothing at all when there is no example. */
  method CollectExamples(examples: seq<string>) returns (parts: seq<string>)
    ensures parts == ExamplesSection(examples)
  {
    parts := [];
    if examples != [] {
      parts := [ExamplesHeader];
      for i := 0 to |examples|
        invariant parts == [ExamplesHeader] + ExampleLines(examples[..i])
      {
        ExampleLinesStep(examples, i);
        parts := parts + [ExampleHeading(i + 1), examples[i], ""];
      }
      assert examples[..|examples|] == examples;
    }
  }

  class PromptBuilder {
    /** The project directory, as the builder reads it. */
    var tree: Tree
    /** config/build_config.yaml once parsed; `None` while it is absent. */
    var configFile: Option<BuildConfig>
    /** The files of build/, by name. */
    var output: map<string, Artifact>

    constructor(tree: Tree, configFile: Option<BuildConfig>, output: map<string, Artifact>)
      ensures this.tree == tree && this.configFile == configFile && this.output == output
    {
      this.tree := tree;
      this.configFile := configFile;
      this.output := output;
    }

    /** `load_build_config`: a missing configuration file is created with
        the default configuration, which is then what is read. */
    method LoadBuildConfig() returns (config: BuildConfig)
      modifies this`configFile
      ensures config == EffectiveConfig(old(configFile))
      ensures old(configFile).None? ==> config == DefaultConfig
      ensures configFile == Some(config)
    {
      if configFile.None? {
        configFile := Some(DefaultConfig);
      }
      config := configFile.value;
    }

    /** `load_component`, for a path given relative to the project root: a
        missing path loads as "", a readable file as its stripped text, and
        the text is "" exactly when nothing readable and non-blank is there. */
    method LoadComponent(componentPath: string) returns (text: string)
      ensures text == FileSystem.LoadComponent(tree, Resolve(componentPath))
      ensures !Exists(tree, Resolve(componentPath)) ==> text == ""
      ensures IsReadable(tree, Resolve(componentPath)) ==> text == Strip(Contents(tree, Resolve(componentPath)))
      ensures text == "" <==> !IsReadable(tree, Resolve(componentPath)) || AllSpace(Contents(tree, Resolve(componentPath)))
    {
      var path := Resolve(componentPath);
      text := FileSystem.LoadComponent(tree, path);
      LoadComponentSpec(tree, path);
    }

    /** `load_directory_components`. */
    method LoadDirectoryComponents(dir: string) returns (components: seq<string>)
      ensures components == Fragments(tree, Resolve(dir))
    {
      var directory := Resolve(dir);
      if !Exists(tree, directory) {
        return [];
      }
      var paths := MarkdownGlob(tree, directory);
      components := [];
      for i := 0 to |paths|
        invariant components == Filter(LoadAll(tree, paths[..i]), NonEmpty)
      {
        var component := FileSystem.LoadComponent(tree, paths[i]);
        LoadAllStep(tree, paths, i);
        FilterSnoc(LoadAll(tree, paths[..i]), component, NonEmpty);
        if component != "" {
          components := components + [component];
        }
      }
      assert paths[..|paths|] == paths;
    }

    /** `build_main_prompt`: the lines are collected section by section and
        joined with newlines. */
    method BuildMainPrompt(config: BuildConfig) returns (r: Result<string, BuildError>)
      ensures r == MainPrompt(tree, config)
    {
      var parts: seq<string> := [];
      if "role_definition" !in config.components {
        return Failure(MissingKey("role_definition"));
      }
      var role := LoadComponent(config.components["role_definition"]);
      if role != "" {
        parts := parts + [RoleHeader, role, ""];
      }
      assert parts == Section(RoleHeader, role);
      if "instructions" !in config.components {
        return Failure(MissingKey("instructions"));
      }
      var instructions := LoadComponent(config.components["instructions"]);
      if instructions != "" {
        parts := parts + [InstructionsHeader, instructions, ""];
      }
      if "examples" !in config.components {
        return Failure(MissingKey("examples"));
      }
      var examples := LoadDirectoryComponents(config.components["examples"]);
      ghost var before := parts;
      assert before == Section(RoleHeader, role) + Section(InstructionsHeader, instructions);
      var exampleParts := CollectExamples(examples);
      parts := parts + exampleParts;
      parts := parts + Trailer;
      PromptLinesOf(role, instructions, examples, before, exampleParts);
      MainPromptFound(tree, config, role, instructions, examples);
      return Success(JoinLines(parts));
    }

    /** `collect_knowledge_files`. */
    method CollectKnowledgeFiles(config: BuildConfig) returns (r: Result<seq<string>, BuildError>)
      ensures r == Knowledge(tree, config)
    {
      if "knowledge" !in config.components {
        return Failure(MissingKey("knowledge"));
      }
      var knowledgeDir := Resolve(config.components["knowledge"]);
      if !Exists(tree, knowledgeDir) {
        return Success([]);
      }
      var entries := RecursiveGlob(tree, knowledgeDir);
      var files: seq<string> := [];
      for i := 0 to |entries|
        invariant files == Filter(entries[..i], KnowledgeFilter(tree))
      {
        var entry := entries[i];
        KnowledgeStep(tree, entries, i);
        if IsKnowledgeFile(tree, entry) {
          files := files + [entry];
        }
      }
      assert entries[..|entries|] == entries;
      return Success(files);
    }

    /** `create_gpt_config`. */
    method CreateGptConfig(config: BuildConfig, prompt: string) returns (r: Result<GptConfig, BuildError>)
      ensures r == GptConfigFor(tree, config, prompt)
    {
      var files := CollectKnowledgeFiles(config);
      if files.Failure? {
        return Failure(files.error);
      }
      return MakeGptConfig(config, prompt, files.value);
    }

    /** `validate_build`: each failing check appends its issue; the build
        passes when there is none. */
    method ValidateBuild(gpt: GptConfig) returns (valid: bool, issues: seq<Issue>)
      ensures issues == Issues(gpt)
      ensures valid <==> issues == []
    {
      issues := [];
      NoChecksNoIssues(gpt);
      ghost var before := issues;
      if gpt.name == "" {
        issues := issues + [NameMissing];
      }
      IssuesStep(gpt, 0, NameMissing, gpt.name == "", before, issues);
      before := issues;
      if gpt.instructions == "" {
        issues := issues + [InstructionsEmpty];
      }
      IssuesStep(gpt, 1, InstructionsEmpty, gpt.instructions == "", before, issues);
      before := issues;
      if |gpt.instructions| < MinInstructionsLength {
        issues := issues + [InstructionsTooShort];
      }
      IssuesStep(gpt, 2, InstructionsTooShort, |gpt.instructions| < MinInstructionsLength, before, issues);
      before := issues;
      if |gpt.instructions| > MaxInstructionsLength {
        issues := issues + [InstructionsTooLong];
      }
      IssuesStep(gpt, 3, InstructionsTooLong, |gpt.instructions| > MaxInstructionsLength, before, issues);
      before := issues;
      if |gpt.conversationStarters| > MaxConversationStarters {
        issues := issues + [TooManyStarters];
      }
      IssuesStep(gpt, 4, TooManyStarters, |gpt.conversationStarters| > MaxConversationStarters, before, issues);
      valid := issues == [];
    }

    /** `build`: the artifacts are written only after validation passes; a
        missing configuration entry or a failed validation leaves build/
        as it was. */
    method Build() returns (success: bool)
      modifies this`configFile, this`output
      ensures configFile == Some(EffectiveConfig(old(configFile)))
      ensures var outcome := BuildOutcome(tree, EffectiveConfig(old(configFile)));
        && (success <==> outcome.Built?)
        && (!success ==> output == old(output))
        && (success ==> output == Written(old(output), outcome.prompt, outcome.gpt, outcome.info))
    {
      var config := LoadBuildConfig();
      ghost var outcome := BuildOutcome(tree, config);
      var mainPrompt := BuildMainPrompt(config);
      if mainPrompt.Failure? {
        assert outcome.ConfigError?;
        return false;
      }
      var gpt := CreateGptConfig(config, mainPrompt.value);
      if gpt.Failure? {
        assert outcome.ConfigError?;
        return false;
      }
      var valid, _ := ValidateBuild(gpt.value);
      if !valid {
        assert outcome.Rejected?;
        return false;
      }
      assert outcome == Built(mainPrompt.value, gpt.value, MakeBuildInfo(config, mainPrompt.value, gpt.value));
      output := output[MainPromptFile := PromptText(mainPrompt.value)];
      output := output[GptConfigFile := ConfigJson(gpt.value)];
      var info := MakeBuildInfo(config, mainPrompt.value, gpt.value);
      output := output[BuildInfoFile := InfoJson(info)];
      return true;
    }
  }
}
