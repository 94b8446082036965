/** The text of the assembled instructions (`build_main_prompt`): a role
    section, an instructions section, one numbered subsection per example
    and a fixed block of general constraints, as lines joined with "\n". A
    section whose content is empty is left out together with its header. */
module Prompt {
  import opened Text

  const RoleHeader := "# あなたの役割"
  const InstructionsHeader := "# 指示・制約"
  const ExamplesHeader := "# 応答例"
  const TrailerHeader := "# 重要な制約"

  /** The fixed block that closes every prompt; its last line is empty, so
      the prompt ends with a newline. */
  const Trailer: seq<string> := [
    TrailerHeader,
    "- 回答は正確で有用な情報を提供する",
    "- 不適切な内容には応答しない",
    "- 不明な点は素直に「わからない」と伝える",
    "- ユーザーの質問に対して構造化された回答を心がける",
    ""]

  /** The prompt when role, instructions and examples are all empty: the
      trailer's lines, each ended by a newline (the last line is empty). */
  const TrailerText :=
    "# 重要な制約" + "\n"
    + "- 回答は正確で有用な情報を提供する" + "\n"
    + "- 不適切な内容には応答しない" + "\n"
    + "- 不明な点は素直に「わからない」と伝える" + "\n"
    + "- ユーザーの質問に対して構造化された回答を心がける" + "\n"

  /** f"## 例 {n}" */
  function ExampleHeading(n: nat): string
  {
    "## 例 " + NatToString(n)
  }

  /** A header, its text and a blank line; nothing when the text is empty. */
  function Section(header: string, body: string): seq<string>
  {
    if body == "" then [] else [header, body, ""]
  }

  /** The numbered subsections for `examples`, numbered from 1. */
  function ExampleLines(examples: seq<string>): seq<string>
  {
    if examples == [] then []
    else ExampleLines(examples[..|examples| - 1]) + [ExampleHeading(|examples|), examples[|examples| - 1], ""]
  }

  function ExamplesSection(examples: seq<string>): seq<string>
  {
    if examples == [] then [] else [ExamplesHeader] + ExampleLines(examples)
  }

  /** The lines `build_main_prompt` collects in `prompt_parts`. */
  function PromptLines(role: string, instructions: string, examples: seq<string>): seq<string>
  {
    Section(RoleHeader, role) + Section(InstructionsHeader, instructions) + ExamplesSection(examples) + Trailer
  }

  /** The prompt's lines, from the first two sections and the examples
      section built separately. */
  lemma PromptLinesOf(role: string, instructions: string, examples: seq<string>, sections: seq<string>, exampleLines: seq<string>)
    requires sections == Section(RoleHeader, role) + Section(InstructionsHeader, instructions)
    requires exampleLines == ExamplesSection(examples)
    ensures sections + exampleLines + Trailer == PromptLines(role, instructions, examples)
  {
  }

  /** The assembled prompt. */
  function AssemblePrompt(role: string, instructions: string, examples: seq<string>): string
  {
    JoinLines(PromptLines(role, instructions, examples))
  }

  /** How many lines the section for `body` takes. */
  function SectionSize(body: string): nat
  {
    if body == "" then 0 else 3
  }

  function ExamplesSize(examples: seq<string>): nat
  {
    if examples == [] then 0 else 1 + 3 * |examples|
  }

  /** One example more adds its three lines. */
  lemma ExampleLinesStep(examples: seq<string>, i: nat)
    requires i < |examples|
    ensures ExampleLines(examples[..i + 1]) == ExampleLines(examples[..i]) + [ExampleHeading(i + 1), examples[i], ""]
  {
    assert examples[..i + 1][..i] == examples[..i];
  }

  /** Each example takes three lines. */
  lemma {:induction false} ExampleLinesLength(examples: seq<string>)
    ensures |ExampleLines(examples)| == 3 * |examples|
  {
    if examples != [] {
      ExampleLinesLength(examples[..|examples| - 1]);
    }
  }

  /** Example `k` (from 0) is introduced by the heading numbered `k + 1`,
      followed by its own text and a blank line. */
  lemma {:induction false} ExampleLinesAt(examples: seq<string>, k: nat)
    requires k < |examples|
    ensures |ExampleLines(examples)| == 3 * |examples|
    ensures ExampleLines(examples)[3 * k] == ExampleHeading(k + 1)
    ensures ExampleLines(examples)[3 * k + 1] == examples[k]
    ensures ExampleLines(examples)[3 * k + 2] == ""
  {
    var n := |examples|;
    var init := examples[..n - 1];
    var front, last := ExampleLines(init), [ExampleHeading(n), examples[n - 1], ""];
    assert ExampleLines(examples) == front + last;
    ExampleLinesLength(init);
    if k < n - 1 {
      ExampleLinesAt(init, k);
      assert init[k] == examples[k];
      OffsetTriple(front + last, [], front, last, 3 * k);
    } else {
      OffsetTriple(front + last, front, last, [], 0);
    }
  }

  /** The lines of one section: header, text and blank line, or nothing. */
  lemma SectionAt(header: string, body: string)
    ensures |Section(header, body)| == SectionSize(body)
    ensures body != "" ==> Section(header, body) == [header, body, ""]
  {
  }

  /** The examples section: its header, then three lines per example. */
  lemma {:induction false} ExamplesSectionAt(examples: seq<string>, k: nat)
    requires k < |examples|
    ensures |ExamplesSection(examples)| == ExamplesSize(examples)
    ensures ExamplesSection(examples)[0] == ExamplesHeader
    ensures ExamplesSection(examples)[1 + 3 * k] == ExampleHeading(k + 1)
    ensures ExamplesSection(examples)[2 + 3 * k] == examples[k]
    ensures ExamplesSection(examples)[3 + 3 * k] == ""
  {
    ExampleLinesLength(examples);
    var h, x := ExampleHeading(k + 1), examples[k];
    assert ExamplesSection(examples)[1 + 3 * k] == h && ExamplesSection(examples)[2 + 3 * k] == x
        && ExamplesSection(examples)[3 + 3 * k] == "" by {
      ExampleLinesAt(examples, k);
      PlacedTripleAfter(ExamplesSection(examples), [ExamplesHeader], ExampleLines(examples), 3 * k,
        1 + 3 * k, h, x, "");
    }
  }

  /** Known entries of the second part of a concatenation, found at their
      place in the whole. */
  lemma PlacedTripleAfter(s: seq<string>, a: seq<string>, c: seq<string>, j: nat,
                          base: nat, x0: string, x1: string, x2: string)
    requires s == a + c && base == |a| + j && j + 2 < |c|
    requires c[j] == x0 && c[j + 1] == x1 && c[j + 2] == x2
    ensures base + 2 < |s| && s[base] == x0 && s[base + 1] == x1 && s[base + 2] == x2
  {
  }

  lemma ExamplesSectionSize(examples: seq<string>)
    ensures |ExamplesSection(examples)| == ExamplesSize(examples)
  {
    ExampleLinesLength(examples);
  }

  /** The position of the section headers in the prompt lines: role
      section, instructions section and examples section in that order,
      each only when its content is non-empty, then the fixed trailer. */
  lemma PromptLayout(role: string, instructions: string, examples: seq<string>)
    ensures var lines := PromptLines(role, instructions, examples);
      var r, i, e := SectionSize(role), SectionSize(instructions), ExamplesSize(examples);
      && |lines| == r + i + e + |Trailer|
      && (role != "" ==> lines[0] == RoleHeader && lines[1] == role && lines[2] == "")
      && (instructions != "" ==> lines[r] == InstructionsHeader && lines[r + 1] == instructions && lines[r + 2] == "")
      && (examples != [] ==> lines[r + i] == ExamplesHeader)
      && lines[r + i + e..] == Trailer
  {
    var a, b, c := Section(RoleHeader, role), Section(InstructionsHeader, instructions), ExamplesSection(examples);
    SectionAt(RoleHeader, role);
    SectionAt(InstructionsHeader, instructions);
    ExamplesSectionSize(examples);
    if examples != [] {
      ExamplesSectionAt(examples, 0);
    }
    var lines := a + b + c + Trailer;
    assert lines == PromptLines(role, instructions, examples);
    assert lines[|a| + |b| + |c|..] == Trailer;
    assert |a| > 0 ==> lines[0] == a[0] && lines[1] == a[1] && lines[2] == a[2];
    assert |b| > 0 ==> lines[|a|] == b[0] && lines[|a| + 1] == b[1] && lines[|a| + 2] == b[2];
    assert |c| > 0 ==> lines[|a| + |b|] == c[0];
  }

  /** Where example `k` (from 0) lies among the prompt lines: the heading
      numbered `k + 1`, then its own text, then a blank line. */
  lemma {:induction false} PromptExampleAt(role: string, instructions: string, examples: seq<string>, k: nat)
    requires k < |examples|
    ensures var lines := PromptLines(role, instructions, examples);
      var base := SectionSize(role) + SectionSize(instructions) + 1 + 3 * k;
      && base + 2 < |lines|
      && lines[base] == ExampleHeading(k + 1)
      && lines[base + 1] == examples[k]
      && lines[base + 2] == ""
  {
    ExampleInLines(role, instructions, examples, Trailer, k);
  }

  /** `PromptExampleAt` for the section lines followed by any trailer. */
  lemma {:induction false} ExampleInLines(role: string, instructions: string, examples: seq<string>, trailer: seq<string>, k: nat)
    requires k < |examples|
    ensures var lines := Section(RoleHeader, role) + Section(InstructionsHeader, instructions) + ExamplesSection(examples) + trailer;
      var base := SectionSize(role) + SectionSize(instructions) + 1 + 3 * k;
      && base + 2 < |lines|
      && lines[base] == ExampleHeading(k + 1)
      && lines[base + 1] == examples[k]
      && lines[base + 2] == ""
  {
    var ab, c := Section(RoleHeader, role) + Section(InstructionsHeader, instructions), ExamplesSection(examples);
    var lines := ab + c + trailer;
    var base := SectionSize(role) + SectionSize(instructions) + 1 + 3 * k;
    var h, x := ExampleHeading(k + 1), examples[k];
    var j := 1 + 3 * k;
    assert base == |ab| + j by {
      SectionLength(RoleHeader, role);
      SectionLength(InstructionsHeader, instructions);
    }
    assert j + 2 < |c| && c[j] == h && c[j + 1] == x && c[j + 2] == "" by {
      ExamplesSectionAt(examples, k);
    }
    PlacedTriple(lines, ab, c, trailer, j, base, h, x, "");
  }

  /** Known entries of the middle part of a concatenation, found at their
      place in the whole. */
  lemma PlacedTriple(s: seq<string>, a: seq<string>, c: seq<string>, d: seq<string>, j: nat,
                     base: nat, x0: string, x1: string, x2: string)
    requires s == a + c + d && base == |a| + j && j + 2 < |c|
    requires c[j] == x0 && c[j + 1] == x1 && c[j + 2] == x2
    ensures base + 2 < |s| && s[base] == x0 && s[base + 1] == x1 && s[base + 2] == x2
  {
    OffsetTriple(s, a, c, d, j);
  }

  /** Three consecutive entries of the middle part of a concatenation. */
  lemma OffsetTriple(s: seq<string>, a: seq<string>, c: seq<string>, d: seq<string>, j: nat)
    requires s == a + c + d && j + 2 < |c|
    ensures |a| + j + 2 < |s|
    ensures s[|a| + j] == c[j] && s[|a| + j + 1] == c[j + 1] && s[|a| + j + 2] == c[j + 2]
  {
  }

  lemma SectionLength(header: string, body: string)
    ensures |Section(header, body)| == SectionSize(body)
  {
  }

  lemma ConcatMember(a: seq<string>, b: seq<string>, c: seq<string>, d: seq<string>, x: string)
    ensures x in a + b + c + d <==> x in a || x in b || x in c || x in d
  {
  }

  /** No line of the example subsections is a section header unless it is
      the text of an example. */
  lemma {:induction false} ExampleLinesMembers(examples: seq<string>, x: string)
    requires x in ExampleLines(examples)
    ensures x in examples || x == "" || (|x| > 2 && x[..2] == "##")
  {
    var n := |examples|;
    var init := examples[..n - 1];
    assert ExampleLines(examples) == ExampleLines(init) + [ExampleHeading(n), examples[n - 1], ""];
    if x in ExampleLines(init) {
      ExampleLinesMembers(init, x);
      if x in init {
        var k :| 0 <= k < |init| && init[k] == x;
        assert examples[k] == x;
      }
    } else if x == ExampleHeading(n) {
      assert x[..2] == "##";
    }
  }

  /** Every example text occurs among the example lines. */
  lemma ExampleTextsPresent(examples: seq<string>, x: string)
    requires x in examples
    ensures x in ExampleLines(examples)
  {
    var k :| 0 <= k < |examples| && examples[k] == x;
    ExampleLinesAt(examples, k);
  }

  lemma HeadersDistinct()
    ensures RoleHeader != InstructionsHeader && RoleHeader != ExamplesHeader && InstructionsHeader != ExamplesHeader
    ensures RoleHeader !in Trailer && InstructionsHeader !in Trailer && ExamplesHeader !in Trailer
    ensures RoleHeader[..2] != "##" && InstructionsHeader[..2] != "##" && ExamplesHeader[..2] != "##"
  {
    assert RoleHeader[2] != InstructionsHeader[2] && RoleHeader[2] != ExamplesHeader[2];
    assert InstructionsHeader[2] != ExamplesHeader[2];
    assert RoleHeader[1] == ' ' && InstructionsHeader[1] == ' ' && ExamplesHeader[1] == ' ';
    assert RoleHeader[2] != TrailerHeader[2];
    assert InstructionsHeader[2] != TrailerHeader[2];
    assert ExamplesHeader[2] != TrailerHeader[2];
  }

  /** A header line appears in the prompt exactly when its section has
      content, or when some other section's text is itself that header:
      empty sections are omitted and nothing else emits a header. */
  lemma RoleHeaderPresence(role: string, instructions: string, examples: seq<string>)
    ensures RoleHeader in PromptLines(role, instructions, examples)
      <==> role != "" || instructions == RoleHeader || RoleHeader in examples
  {
    HeadersDistinct();
    HeaderInExamples(examples, RoleHeader);
    ConcatMember(Section(RoleHeader, role), Section(InstructionsHeader, instructions), ExamplesSection(examples), Trailer, RoleHeader);
  }

  lemma InstructionsHeaderPresence(role: string, instructions: string, examples: seq<string>)
    ensures InstructionsHeader in PromptLines(role, instructions, examples)
      <==> instructions != "" || role == InstructionsHeader || InstructionsHeader in examples
  {
    HeadersDistinct();
    HeaderInExamples(examples, InstructionsHeader);
    ConcatMember(Section(RoleHeader, role), Section(InstructionsHeader, instructions), ExamplesSection(examples), Trailer, InstructionsHeader);
  }

  lemma ExamplesHeaderPresence(role: string, instructions: string, examples: seq<string>)
    ensures ExamplesHeader in PromptLines(role, instructions, examples)
      <==> examples != [] || role == ExamplesHeader || instructions == ExamplesHeader
  {
    HeadersDistinct();
    if ExamplesHeader in ExampleLines(examples) { ExampleLinesMembers(examples, ExamplesHeader); }
    ConcatMember(Section(RoleHeader, role), Section(InstructionsHeader, instructions), ExamplesSection(examples), Trailer, ExamplesHeader);
  }

  /** A top-level header is among the example lines only as an example's
      own text. */
  lemma HeaderInExamples(examples: seq<string>, h: string)
    requires |h| > 2 && h[..2] != "##" && h != ExamplesHeader
    ensures h in ExamplesSection(examples) <==> h in examples
  {
    if h in ExampleLines(examples) { ExampleLinesMembers(examples, h); }
    if h in examples { ExampleTextsPresent(examples, h); }
  }

  /** With every section empty the prompt is the trailer alone. */
  lemma TrailerOnly()
    ensures PromptLines("", "", []) == Trailer
    ensures AssemblePrompt("", "", []) == TrailerText
  {
    var t := Trailer;
    assert t[..1] == [t[0]];
    assert t[..2][..1] == t[..1];
    assert t[..3][..2] == t[..2];
    assert t[..4][..3] == t[..3];
    assert t[..5][..4] == t[..4];
    assert t[..6][..5] == t[..5] && t[..6] == t;
    assert JoinLines(t[..2]) == t[0] + "\n" + t[1];
    assert JoinLines(t[..3]) == t[0] + "\n" + t[1] + "\n" + t[2];
    assert JoinLines(t[..4]) == t[0] + "\n" + t[1] + "\n" + t[2] + "\n" + t[3];
    assert JoinLines(t[..5]) == t[0] + "\n" + t[1] + "\n" + t[2] + "\n" + t[3] + "\n" + t[4];
    assert JoinLines(t) == t[0] + "\n" + t[1] + "\n" + t[2] + "\n" + t[3] + "\n" + t[4] + "\n" + t[5];
    assert t[0] + "\n" + t[1] + "\n" + t[2] + "\n" + t[3] + "\n" + t[4] + "\n" + t[5] == TrailerText;
  }

  /** In the prompt text the role header comes first, then the instructions
      header, then the examples header, then the trailer header, each as a
      line of its own; a present section starts strictly before the next. */
  lemma SectionOrder(role: string, instructions: string, examples: seq<string>)
    ensures var lines := PromptLines(role, instructions, examples);
      var r, i, e := SectionSize(role), SectionSize(instructions), ExamplesSize(examples);
      var p := AssemblePrompt(role, instructions, examples);
      && r + i + e < |lines|
      && (role != "" ==> WholeLineAt(p, RoleHeader, 0) && 0 < Offset(lines, r))
      && (instructions != "" ==> WholeLineAt(p, InstructionsHeader, Offset(lines, r)) && Offset(lines, r) < Offset(lines, r + i))
      && (examples != [] ==> WholeLineAt(p, ExamplesHeader, Offset(lines, r + i)) && Offset(lines, r + i) < Offset(lines, r + i + e))
      && WholeLineAt(p, TrailerHeader, Offset(lines, r + i + e))
      && Offset(lines, r) <= Offset(lines, r + i) <= Offset(lines, r + i + e)
  {
    HeaderLines(role, instructions, examples);
    SectionStartsOrdered(role, instructions, examples);
  }

  /** Each present header is a whole line of the prompt text at the start
      of its section. */
  lemma {:induction false} HeaderLines(role: string, instructions: string, examples: seq<string>)
    ensures var lines := PromptLines(role, instructions, examples);
      var r, i, e := SectionSize(role), SectionSize(instructions), ExamplesSize(examples);
      var p := JoinLines(lines);
      && r + i + e < |lines|
      && (role != "" ==> WholeLineAt(p, RoleHeader, 0))
      && (instructions != "" ==> WholeLineAt(p, InstructionsHeader, Offset(lines, r)))
      && (examples != [] ==> WholeLineAt(p, ExamplesHeader, Offset(lines, r + i)))
      && WholeLineAt(p, TrailerHeader, Offset(lines, r + i + e))
  {
    HeaderPositions(role, instructions, examples);
    HeadersOfJoin(PromptLines(role, instructions, examples),
      SectionSize(role), SectionSize(instructions), ExamplesSize(examples),
      role != "", instructions != "", examples != [],
      RoleHeader, InstructionsHeader, ExamplesHeader, TrailerHeader);
  }

  /** Known first lines of three consecutive groups of lines, and the known
      line after them, are whole lines of the joined text at their offsets. */
  lemma HeadersOfJoin(lines: seq<string>, r: nat, i: nat, e: nat,
                      hasR: bool, hasI: bool, hasE: bool,
                      hR: string, hI: string, hE: string, hT: string)
    requires r + i + e < |lines|
    requires hasR ==> lines[0] == hR
    requires hasI ==> lines[r] == hI
    requires hasE ==> lines[r + i] == hE
    requires lines[r + i + e] == hT
    ensures var p := JoinLines(lines);
      && (hasR ==> WholeLineAt(p, hR, 0))
      && (hasI ==> WholeLineAt(p, hI, Offset(lines, r)))
      && (hasE ==> WholeLineAt(p, hE, Offset(lines, r + i)))
      && WholeLineAt(p, hT, Offset(lines, r + i + e))
  {
    JoinLinesWholeLine(lines, 0);
    JoinLinesWholeLine(lines, r);
    JoinLinesWholeLine(lines, r + i);
    JoinLinesWholeLine(lines, r + i + e);
  }

  /** A present section starts strictly before the next one. */
  lemma {:induction false} SectionStartsOrdered(role: string, instructions: string, examples: seq<string>)
    ensures var lines := PromptLines(role, instructions, examples);
      var r, i, e := SectionSize(role), SectionSize(instructions), ExamplesSize(examples);
      && r + i + e < |lines|
      && (role != "" ==> 0 < Offset(lines, r))
      && (instructions != "" ==> Offset(lines, r) < Offset(lines, r + i))
      && (examples != [] ==> Offset(lines, r + i) < Offset(lines, r + i + e))
      && Offset(lines, r) <= Offset(lines, r + i) <= Offset(lines, r + i + e)
  {
    HeaderPositions(role, instructions, examples);
    OffsetsOrdered(PromptLines(role, instructions, examples),
      SectionSize(role), SectionSize(instructions), ExamplesSize(examples));
  }

  /** Three consecutive groups of lines start in order, strictly so when
      the group before is not empty. */
  lemma OffsetsOrdered(lines: seq<string>, r: nat, i: nat, e: nat)
    requires r + i + e < |lines|
    ensures 0 < r ==> 0 < Offset(lines, r)
    ensures 0 < i ==> Offset(lines, r) < Offset(lines, r + i)
    ensures 0 < e ==> Offset(lines, r + i) < Offset(lines, r + i + e)
    ensures Offset(lines, r) <= Offset(lines, r + i) <= Offset(lines, r + i + e)
  {
    if 0 < r {
      OffsetStrictlyIncreasing(lines, 0, r);
    }
    if 0 < i {
      OffsetStrictlyIncreasing(lines, r, r + i);
    }
    if 0 < e {
      OffsetStrictlyIncreasing(lines, r + i, r + i + e);
    }
  }

  /** Which line holds each header. */
  lemma HeaderPositions(role: string, instructions: string, examples: seq<string>)
    ensures var lines := PromptLines(role, instructions, examples);
      var r, i, e := SectionSize(role), SectionSize(instructions), ExamplesSize(examples);
      && r + i + e < |lines|
      && (role != "" ==> lines[0] == RoleHeader)
      && (instructions != "" ==> lines[r] == InstructionsHeader)
      && (examples != [] ==> lines[r + i] == ExamplesHeader)
      && lines[r + i + e] == TrailerHeader
  {
    var lines := PromptLines(role, instructions, examples);
    var r, i, e := SectionSize(role), SectionSize(instructions), ExamplesSize(examples);
    PromptLayout(role, instructions, examples);
    assert lines[r + i + e] == lines[r + i + e..][0];
  }

  /** The prompt is never empty: it always holds the trailer. */
  lemma PromptNeverEmpty(role: string, instructions: string, examples: seq<string>)
    ensures |AssemblePrompt(role, instructions, examples)| >= |TrailerHeader|
  {
    SectionOrder(role, instructions, examples);
  }

  /** The trailer alone is 92 characters long. */
  lemma TrailerLength()
    ensures |TrailerText| == 92
  {
  }

  /** In the prompt text example `k` (from 0) appears as the line
      "## 例 k+1", then its own text, then an empty line, and the later
      examples follow it. */
  lemma {:induction false} ExampleNumbering(role: string, instructions: string, examples: seq<string>, k: nat)
    requires k < |examples|
    ensures var p := AssemblePrompt(role, instructions, examples);
      var lines := PromptLines(role, instructions, examples);
      var base := SectionSize(role) + SectionSize(instructions) + 1 + 3 * k;
      && base + 2 < |lines|
      && WholeLineAt(p, ExampleHeading(k + 1), Offset(lines, base))
      && WholeLineAt(p, examples[k], Offset(lines, base + 1))
      && WholeLineAt(p, "", Offset(lines, base + 2))
      && Offset(lines, base) < Offset(lines, base + 1) < Offset(lines, base + 2)
  {
    var lines := PromptLines(role, instructions, examples);
    var base := SectionSize(role) + SectionSize(instructions) + 1 + 3 * k;
    PromptExampleAt(role, instructions, examples, k);
    TripleOfJoin(lines, base);
    var h, x := lines[base], lines[base + 1];
    assert h == ExampleHeading(k + 1) && x == examples[k];
  }

  /** Three consecutive lines appear in the joined text one after the
      other, each as a whole line. */
  lemma TripleOfJoin(lines: seq<string>, base: nat)
    requires base + 2 < |lines|
    ensures var p := JoinLines(lines);
      && WholeLineAt(p, lines[base], Offset(lines, base))
      && WholeLineAt(p, lines[base + 1], Offset(lines, base + 1))
      && WholeLineAt(p, lines[base + 2], Offset(lines, base + 2))
      && Offset(lines, base) < Offset(lines, base + 1) < Offset(lines, base + 2)
  {
    JoinLinesWholeLine(lines, base);
    JoinLinesWholeLine(lines, base + 1);
    JoinLinesWholeLine(lines, base + 2);
    OffsetStrictlyIncreasing(lines, base, base + 1);
    OffsetStrictlyIncreasing(lines, base + 1, base + 2);
  }
}
