/** Concrete situations the builder is expected to handle, each proved
    from the general model. */
module Scenarios {
  import opened Seqs
  import opened Paths
  import opened FileSystem
  import opened Config
  import opened Validation

  /** A stem that names a file once an extension is appended: not empty
      and not ending in a separator. */
  predicate IsStem(stem: string)
  {
    stem != [] && stem[|stem| - 1] != '/'
  }

  /** A directory whose entries are files named with the extensions .pdf,
      .txt, .png, .md and .docx yields all but the image, in enumeration
      order. */
  lemma KnowledgeExcludesOtherExtensions(t: Tree, dir: string, a: string, b: string, c: string, d: string, e: string)
    requires Exists(t, dir)
    requires RecursiveGlob(t, dir) == [a + ".pdf", b + ".txt", c + ".png", d + ".md", e + ".docx"]
    requires IsStem(a) && IsStem(b) && IsStem(c) && IsStem(d) && IsStem(e)
    requires IsFile(t, a + ".pdf") && IsFile(t, b + ".txt") && IsFile(t, c + ".png")
    requires IsFile(t, d + ".md") && IsFile(t, e + ".docx")
    ensures KnowledgeFiles(t, dir) == [a + ".pdf", b + ".txt", d + ".md", e + ".docx"]
  {
    ExtensionsOfScenario();
    KnowledgeByExtension(t, a, ".pdf");
    KnowledgeByExtension(t, b, ".txt");
    KnowledgeByExtension(t, c, ".png");
    KnowledgeByExtension(t, d, ".md");
    KnowledgeByExtension(t, e, ".docx");
    KeepAllButThird(RecursiveGlob(t, dir), KnowledgeFilter(t), a + ".pdf", b + ".txt", c + ".png", d + ".md", e + ".docx");
  }

  /** The five extensions of the scenario, and which of them are listed. */
  lemma ExtensionsOfScenario()
    ensures IsExtension(".pdf") && IsExtension(".txt") && IsExtension(".png")
    ensures IsExtension(".md") && IsExtension(".docx")
    ensures ".pdf" in KnowledgeSuffixes && ".txt" in KnowledgeSuffixes && ".png" !in KnowledgeSuffixes
    ensures ".md" in KnowledgeSuffixes && ".docx" in KnowledgeSuffixes
  {
    assert ".png"[2] != ".pdf"[2];
  }

  /** A hidden file named ".md" has no suffix, so it is never knowledge. */
  lemma HiddenMarkdownIsNotKnowledge(t: Tree, dir: string)
    ensures !IsKnowledgeFile(t, dir + "/" + ".md")
  {
    HiddenFileHasNoSuffix(dir, ".md");
  }

  /** The length bounds are inclusive: 100 and 8000 characters pass the
      length checks, 99 is too short and 8001 too long. */
  lemma LengthBoundaries(gpt: GptConfig)
    ensures |gpt.instructions| == 100 || |gpt.instructions| == 8000 ==>
      InstructionsTooShort !in Issues(gpt) && InstructionsTooLong !in Issues(gpt)
    ensures |gpt.instructions| == 99 ==> InstructionsTooShort in Issues(gpt)
    ensures |gpt.instructions| == 8001 ==> InstructionsTooLong in Issues(gpt)
  {
    IssueReported(gpt, InstructionsTooShort);
    IssueReported(gpt, InstructionsTooLong);
  }

  /** Four conversation starters pass; five are too many. */
  lemma StarterBoundary(gpt: GptConfig)
    ensures |gpt.conversationStarters| == 4 ==> TooManyStarters !in Issues(gpt)
    ensures |gpt.conversationStarters| == 5 ==> TooManyStarters in Issues(gpt)
  {
    IssueReported(gpt, TooManyStarters);
  }

  /** The default configuration has four starters, visibility "private"
      and a non-empty name, so validation can only object to the length of
      the prompt it is given. */
  lemma DefaultConfigIssues(prompt: string, knowledge: seq<string>)
    ensures MakeGptConfig(DefaultConfig, prompt, knowledge).Success?
    ensures var gpt := MakeGptConfig(DefaultConfig, prompt, knowledge).value;
      && gpt.visibility == "private"
      && |gpt.conversationStarters| == 4
      && (forall issue :: issue in Issues(gpt) ==> issue == InstructionsEmpty || issue == InstructionsTooShort || issue == InstructionsTooLong)
  {
    var gpt := MakeGptConfig(DefaultConfig, prompt, knowledge).value;
    IssueReported(gpt, NameMissing);
    IssueReported(gpt, TooManyStarters);
    forall issue | issue in Issues(gpt)
      ensures issue == InstructionsEmpty || issue == InstructionsTooShort || issue == InstructionsTooLong
    {
      IssueReported(gpt, issue);
    }
  }
}
