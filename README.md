# GPTMAKER prompt builder, modelled in Dafny

GPTMAKER builds the configuration of a custom ChatGPT assistant from
component files in a project tree. Its build step, the class `PromptBuilder`
in `scripts/build_prompts.py`, works in five stages:

1. It reads `config/build_config.yaml`. A default file is written when none exists.
2. It assembles the instructions text:
   - a role section (`# あなたの役割`),
   - an instructions section (`# 指示・制約`),
   - an examples section (`# 応答例`) with one `## 例 n` subsection per non-empty markdown fragment of the examples directory,
   - a fixed block of general constraints (`# 重要な制約`).
3. It collects the knowledge files: regular files under the knowledge directory with extension `.pdf`, `.txt`, `.md` or `.docx`.
4. It fills in the assistant configuration.
5. It validates that configuration. Only when validation passes does it write `build/main_prompt.txt`, `build/gpt_config.json` and `build/build_info.json`.

This project models that class and proves what it guarantees.

The modules are:

- `Results`: `Option` and `Result`.
- `Seqs`: order-preserving filtering, with a characterisation that does not depend on how the filter is computed.
- `Text`: three string operations.
  - `"\n".join`, with the position of every line in the joined text.
  - `str.strip()`, using Python's whitespace set, which includes U+3000.
  - The decimal rendering of numbers used in `## 例 {i}`.
- `Paths`: `pathlib`'s resolution of trailing separators, `Path.name` and `Path.suffix`.
- `FileSystem`: the project tree as a value.
  - A map from path to node (a file with readable text, a file that fails to read, or a directory).
  - What `glob("*.md")` and `rglob("*")` enumerate under each directory.
  - The specification functions `LoadComponent`, `Fragments` and `KnowledgeFiles`.
- `Config`: the build configuration, the assistant configuration and the build record, plus the default configuration.
  - `Config.MakeGptConfig` is `create_gpt_config` once the knowledge files are known.
  - A configuration entry the source reads with `config[...]` is required. When it is missing, the source raises `KeyError` and the build catches it. Here that is an error result, `MissingKey`.
- `Prompt`: the lines the instructions text is made of (`PromptLines`) and the joined text (`AssemblePrompt`), with lemmas on layout, order and numbering.
- `Validation`: the five checks of `validate_build` and the ordered issue list (`Issues`) they produce.
- `Builder`: the specification functions for the whole build and `class PromptBuilder`.
  - The specification functions are `MainPrompt`, `Knowledge`, `GptConfigFor` and `BuildOutcome`.
  - The class's fields are the project tree, the parsed configuration file (absent until written) and the contents of `build/`.
  - Its methods follow the source's methods one by one. Each loop is proved equal to its specification function.
  - `Build` writes the three artifacts only after validation, and leaves `build/` unchanged otherwise.
- `Scenarios`: concrete situations proved from the general model.

The model uses no clock, no randomness and no real file system. The tree and the configuration file are state of the class, and so is the output directory.

The builder does not truncate the conversation starters to four. It only reports more than four as a validation issue, and so does the model.

## Model

| member | source | states |
|---|---|---|
| Text.Strip | scripts/build_prompts.py:80 | the stripped text is a slice of the input with only whitespace removed on either side, and it neither starts nor ends with whitespace |
| Text.StripEmptyIffAllSpace | scripts/build_prompts.py:80 | stripping gives "" exactly when the file holds only whitespace |
| Text.StripIdempotent | scripts/build_prompts.py:80 | loaded text is already stripped: stripping it again changes nothing |
| Text.NatToString | scripts/build_prompts.py:124 | the example number is a non-empty run of digits with no leading zero |
| Text.NatToStringValue | scripts/build_prompts.py:124 | reading the digits back gives the example's number |
| Text.NatToStringInjective | scripts/build_prompts.py:124 | different examples get different numbers |
| Text.JoinLinesWholeLine | scripts/build_prompts.py:138 | every collected line appears as a whole line of the joined text at its offset |
| Text.OffsetStrictlyIncreasing | scripts/build_prompts.py:138 | a later line starts later in the joined text |
| Paths.Resolve | scripts/build_prompts.py:87 | a configured path such as "src/examples/" denotes the same place without its trailing separators |
| Paths.Name | scripts/build_prompts.py:149 | the file name is the part of the path after its last separator |
| Paths.SuffixShape | scripts/build_prompts.py:149 | a suffix is empty or a dot followed by at least one character with no further dot |
| Paths.SuffixOfExtension | scripts/build_prompts.py:149 | a file named stem + ".ext" has suffix ".ext", whatever dots the stem holds |
| Paths.SuffixEndsPath | scripts/build_prompts.py:149 | a non-empty suffix is the end of the path, preceded by a character of the file name rather than a separator |
| Paths.HiddenFileHasNoSuffix | scripts/build_prompts.py:149 | a hidden file such as ".md" has no suffix |
| Seqs.Filter | scripts/build_prompts.py:93-97 | the kept elements are no more than the input and all satisfy the test |
| Seqs.FilterMembership | scripts/build_prompts.py:93-97 | an element is kept exactly when it is in the input and passes the test |
| Seqs.FilterIsSubsequence | scripts/build_prompts.py:147-150 | filtering keeps enumeration order |
| Seqs.FilterUnique | scripts/build_prompts.py:147-150 | the filtered list is the only order-preserving selection of all passing elements |
| FileSystem.LoadComponentSpec | scripts/build_prompts.py:70-83 | a readable file loads as its stripped text; a missing path, a directory, an unreadable file or a blank file loads as "", and nothing else does |
| FileSystem.FragmentsCharacterised | scripts/build_prompts.py:85-99 | the fragments are the non-empty loaded texts, in enumeration order, all of them |
| FileSystem.KnowledgeFilesCharacterised | scripts/build_prompts.py:140-152 | the knowledge files are exactly the enumerated regular files with a listed suffix, in enumeration order |
| FileSystem.KnowledgeByExtension | scripts/build_prompts.py:149 | a regular file named stem + extension is knowledge exactly when the extension is .pdf, .txt, .md or .docx, whatever the stem |
| FileSystem.KnowledgeFileEndsInExtension | scripts/build_prompts.py:149 | every knowledge file is a regular file whose name ends in .pdf, .txt, .md or .docx, after a non-empty stem |
| Config.MakeGptConfig | scripts/build_prompts.py:154-168 | instructions are the prompt, name and description are copied and required, starters, capabilities and visibility default to [], {} and "private", and the knowledge files are the collected ones |
| Prompt.ExampleLinesAt | scripts/build_prompts.py:123-126 | example k is introduced by the heading numbered k + 1, followed by its text and a blank line |
| Prompt.PromptLayout | scripts/build_prompts.py:101-138 | the role, instructions and examples sections come in that order, each only when non-empty, followed by the fixed trailer |
| Prompt.PromptExampleAt | scripts/build_prompts.py:119-126 | the examples' lines sit after the other sections, three per example, numbered from 1 |
| Prompt.RoleHeaderPresence | scripts/build_prompts.py:105-110 | the role header appears exactly when the role text is non-empty, unless another section's text is that header |
| Prompt.InstructionsHeaderPresence | scripts/build_prompts.py:112-117 | the instructions header appears exactly when the instructions text is non-empty, unless another section's text is that header |
| Prompt.ExamplesHeaderPresence | scripts/build_prompts.py:119-122 | the examples header appears exactly when there is an example, unless another section's text is that header |
| Prompt.TrailerOnly | scripts/build_prompts.py:128-138 | with every section empty the prompt is exactly the constraints block, ending in a newline |
| Prompt.TrailerLength | scripts/build_prompts.py:129-136 | the constraints block alone is 92 characters |
| Prompt.SectionOrder | scripts/build_prompts.py:101-138 | in the text, the role header starts before the instructions header, which starts before the examples header, which starts before the trailer header, each on a line of its own |
| Prompt.ExampleNumbering | scripts/build_prompts.py:123-126 | in the text, example k appears as the line "## 例 k+1", then its own text, then an empty line |
| Prompt.PromptNeverEmpty | scripts/build_prompts.py:128-138 | the prompt always holds the trailer, so it is never empty |
| Validation.IssueReported | scripts/build_prompts.py:174-190 | each issue is reported exactly when its check fails |
| Validation.ValidIff | scripts/build_prompts.py:170-199 | validation passes exactly when the name is non-empty, the instructions are non-empty and 100 to 8000 characters long (both bounds allowed), and there are at most four starters |
| Validation.IssuesInCheckOrder | scripts/build_prompts.py:172-190 | the issues come in check order, each at most once |
| Validation.EmptyInstructionsReportedTwice | scripts/build_prompts.py:178-182 | empty instructions are reported as empty and as too short, one after the other |
| Builder.PromptBuilder.constructor | scripts/build_prompts.py:20-27 | the builder starts on the given tree, configuration file and output directory |
| Builder.PromptBuilder.LoadBuildConfig | scripts/build_prompts.py:33-68 | a missing configuration file is created with the default configuration; the file's configuration is then what is read |
| Builder.PromptBuilder.LoadComponent | scripts/build_prompts.py:70-83 | the component at the resolved path loads as "" when the path is missing; a readable file loads as its stripped text; the text is "" exactly when nothing readable is there or the file holds only whitespace |
| Builder.PromptBuilder.LoadDirectoryComponents | scripts/build_prompts.py:85-99 | the loop collects exactly the directory's fragments |
| Builder.CollectExamples | scripts/build_prompts.py:119-126 | the loop collects exactly the examples section: its header and, per example numbered from 1, a heading, the text and a blank line; nothing when there is no example |
| Builder.PromptBuilder.BuildMainPrompt | scripts/build_prompts.py:101-138 | the collected and joined lines are the assembled prompt, or the first missing component entry is reported |
| Builder.PromptBuilder.CollectKnowledgeFiles | scripts/build_prompts.py:140-152 | the loop collects exactly the knowledge files; a missing directory gives [] |
| Builder.PromptBuilder.CreateGptConfig | scripts/build_prompts.py:154-168 | the knowledge entry is read before the name and description, then the configuration is filled in |
| Builder.PromptBuilder.ValidateBuild | scripts/build_prompts.py:170-199 | the appended issues are exactly the issue list, and the build is valid exactly when it is empty |
| Builder.PromptBuilder.Build | scripts/build_prompts.py:201-248 | the default configuration is written when none exists; the three artifacts are written exactly when the build succeeds, and otherwise nothing in build/ changes |
| Builder.MainPromptSucceedsIff | scripts/build_prompts.py:106-120 | the prompt can be built exactly when the role, instructions and examples entries exist; otherwise the first missing one is reported |
| Builder.BuildSucceedsIff | scripts/build_prompts.py:201-217 | a build succeeds exactly when all entries are present, the name is non-empty, the prompt is 100 to 8000 characters long and there are at most four starters |
| Builder.BuildInfoFaithful | scripts/build_prompts.py:229-234 | the build record's prompt length is the prompt's length and its knowledge count is the number of knowledge files |
| Builder.EmptyComponentsRejected | scripts/build_prompts.py:128-136 | with every component empty or missing, the prompt is the 92-character trailer and the build is rejected as too short |
| Builder.DefaultConfigBuild | scripts/build_prompts.py:39-60 | with the default configuration a build succeeds exactly when the prompt length is in range |
| Scenarios.KnowledgeExcludesOtherExtensions | scripts/build_prompts.py:148-150 | of files named with .pdf, .txt, .png, .md and .docx only the image is dropped, and order is kept |
| Scenarios.HiddenMarkdownIsNotKnowledge | scripts/build_prompts.py:149 | a file named ".md" is not knowledge |
| Scenarios.LengthBoundaries | scripts/build_prompts.py:181-185 | 100 and 8000 characters pass the length checks, 99 and 8001 fail |
| Scenarios.StarterBoundary | scripts/build_prompts.py:188-190 | four starters pass, five fail |
| Scenarios.DefaultConfigIssues | scripts/build_prompts.py:39-60 | the default configuration has four starters and visibility "private", so only the prompt's length can fail validation |

## Left out

- `scripts/chatgpt_deployer.py`, `test_deployment.py` and the `main` entry point (argument parsing, `--clean`) are not part of this model.
- YAML and JSON encoding are not modelled. The configuration is a record, and the artifacts are values in a map from file name to content. So `json.dump` formatting and reading the default configuration back through YAML are not modelled.
- Several inputs are taken as given rather than computed:
  - the order in which `glob` and `rglob` enumerate a directory;
  - what a file's bytes decode to;
  - whether a read fails.
- Logging is left out, and so are the log messages themselves. `Validation.Message` keeps the issue texts only as data.
- The `build_time` entry of `build_info.json` is a fixed placeholder text in the source and is not modelled.
- The `mkdir` of `build/` in the constructor is not modelled, because the output directory is a map that always exists.
- Failures the source catches while writing configuration or artifacts are not modelled. These include a missing `config/` directory, a disk error, or an exception part-way through the three writes (which would leave earlier files written).
- Configuration values are assumed to have the types the code expects: strings, a list of strings, a map of booleans. Values that would raise `TypeError` in the source are not modelled. Examples are an empty YAML file, or `conversation_starters: null`, where `len(None)` raises in `validate_build`.
- A `gpt_name` entry that is present but null cannot be written in the model, whose name is a string or absent.
  - The source copies the null into the assistant configuration and reports it as the name-missing issue.
  - The model can express that case only as an absent entry, `MissingKey("gpt_name")`. The build still fails without writing anything, but for a different reason.
  - The same holds for a null `description`. The source would pass it through unchecked.
- The output directory and the configuration file are kept apart from the project tree the build reads (`tree`), and `Build` never changes `tree`. In the source, `build/` and `config/` lie inside the project root.
  - So what one build writes can be read by the next one. For example, with the knowledge directory set to `.` or `build/`, the next build's recursive enumeration finds `build/main_prompt.txt` and collects it as a knowledge file.
  - The model does not capture this aliasing: two builds on the same builder see the same tree and collect the same knowledge files.
- A whole missing `components` entry is modelled as an empty component map. The build fails the same way without writing anything, but the reported key differs.
- Paths are relative to the project root. Only trailing separators are normalised. Absolute component paths, `..`, and doubled separators are not modelled.
- Builder.PromptBuilder.LoadDirectoryComponents calls `FileSystem.LoadComponent` on each enumerated path directly, rather than `Builder.PromptBuilder.LoadComponent`.
  - Reason: the source re-joins the path relative to the project root, and the enumerated paths are taken as already in that form.
- Builder.PromptBuilder.BuildMainPrompt has the examples loop collect its lines in a separate method, `Builder.CollectExamples`, and appends them to the prompt lines afterwards. The source instead appends each line directly.
  - The resulting lines are the same.
  - Reason: it keeps the loop's proof small.
