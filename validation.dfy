/** The checks `validate_build` runs on an assistant configuration before
    anything is written: a name, non-empty instructions of 100 to 8000
    characters, and at most four conversation starters. Every failing check
    contributes one issue, in the order the checks are made. */
module Validation {
  import opened Seqs
  import opened Config

  datatype Issue = NameMissing | InstructionsEmpty | InstructionsTooShort | InstructionsTooLong | TooManyStarters

  const MinInstructionsLength := 100
  const MaxInstructionsLength := 8000
  const MaxConversationStarters := 4

  /** The checks, in the order they are made. */
  const CheckOrder := [NameMissing, InstructionsEmpty, InstructionsTooShort, InstructionsTooLong, TooManyStarters]

  /** The message logged for each issue. */
  function Message(issue: Issue): string
  {
    match issue
    case NameMissing => "GPT名が設定されていません"
    case InstructionsEmpty => "指示文が空です"
    case InstructionsTooShort => "指示文が短すぎます（100文字以上推奨）"
    case InstructionsTooLong => "指示文が長すぎます（8000文字以下推奨）"
    case TooManyStarters => "会話スターターが多すぎます（4個まで）"
  }

  /** Whether `gpt` fails the check for `issue`. */
  predicate Violates(gpt: GptConfig, issue: Issue)
  {
    match issue
    case NameMissing => gpt.name == ""
    case InstructionsEmpty => gpt.instructions == ""
    case InstructionsTooShort => |gpt.instructions| < MinInstructionsLength
    case InstructionsTooLong => |gpt.instructions| > MaxInstructionsLength
    case TooManyStarters => |gpt.conversationStarters| > MaxConversationStarters
  }

  function ViolatedBy(gpt: GptConfig): Issue -> bool
  {
    issue => Violates(gpt, issue)
  }

  /** The issues found for `gpt`: the failing checks, in check order. */
  function Issues(gpt: GptConfig): seq<Issue>
  {
    Filter(CheckOrder, ViolatedBy(gpt))
  }

  /** Before any check is made, no issue has been found. */
  lemma NoChecksNoIssues(gpt: GptConfig)
    ensures Filter(CheckOrder[..0], ViolatedBy(gpt)) == []
  {
    assert CheckOrder[..0] == [];
  }

  /** Making the check at position `i`: the issues found so far, followed by
      its issue when `gpt` fails it, are the issues of the first `i + 1`
      checks. */
  lemma IssuesStep(gpt: GptConfig, i: nat, issue: Issue, failed: bool, before: seq<Issue>, after: seq<Issue>)
    requires i < |CheckOrder| && CheckOrder[i] == issue
    requires failed <==> Violates(gpt, issue)
    requires before == Filter(CheckOrder[..i], ViolatedBy(gpt))
    requires after == if failed then before + [issue] else before
    ensures after == Filter(CheckOrder[..i + 1], ViolatedBy(gpt))
    ensures i + 1 == |CheckOrder| ==> after == Issues(gpt)
  {
    assert CheckOrder[..|CheckOrder|] == CheckOrder;
    FilterPrefixStep(CheckOrder, i, issue, ViolatedBy(gpt), failed, before, after);
  }

  /** An issue is reported exactly when its check fails. */
  lemma IssueReported(gpt: GptConfig, issue: Issue)
    ensures issue in Issues(gpt) <==> Violates(gpt, issue)
  {
    FilterMembership(CheckOrder, ViolatedBy(gpt), issue);
    assert issue in CheckOrder by {
      match issue
      case NameMissing => assert CheckOrder[0] == issue;
      case InstructionsEmpty => assert CheckOrder[1] == issue;
      case InstructionsTooShort => assert CheckOrder[2] == issue;
      case InstructionsTooLong => assert CheckOrder[3] == issue;
      case TooManyStarters => assert CheckOrder[4] == issue;
    }
  }

  /** A configuration passes validation exactly when it has a name, its
      instructions are non-empty and between 100 and 8000 characters long
      (both bounds allowed), and it has at most four starters. */
  lemma ValidIff(gpt: GptConfig)
    ensures Issues(gpt) == [] <==>
      && gpt.name != ""
      && gpt.instructions != ""
      && MinInstructionsLength <= |gpt.instructions| <= MaxInstructionsLength
      && |gpt.conversationStarters| <= MaxConversationStarters
  {
    IssueReported(gpt, NameMissing);
    IssueReported(gpt, InstructionsEmpty);
    IssueReported(gpt, InstructionsTooShort);
    IssueReported(gpt, InstructionsTooLong);
    IssueReported(gpt, TooManyStarters);
    if Issues(gpt) != [] {
      IssueReported(gpt, Issues(gpt)[0]);
    }
  }

  /** The issues are reported in check order, each at most once. */
  lemma IssuesInCheckOrder(gpt: GptConfig)
    ensures IsSubsequence(Issues(gpt), CheckOrder)
  {
    FilterIsSubsequence(CheckOrder, ViolatedBy(gpt));
  }

  /** Empty instructions are reported twice, as empty and as too short, one
      right after the other, and never as too long. */
  lemma EmptyInstructionsReportedTwice(gpt: GptConfig)
    requires gpt.instructions == ""
    ensures Issues(gpt) ==
      (if gpt.name == "" then [NameMissing] else [])
      + [InstructionsEmpty, InstructionsTooShort]
      + (if |gpt.conversationStarters| > MaxConversationStarters then [TooManyStarters] else [])
  {
    var e := CheckOrder;
    var p := ViolatedBy(gpt);
    assert e[..1][..0] == [];
    assert e[..2][..1] == e[..1];
    assert e[..3][..2] == e[..2];
    assert e[..4][..3] == e[..3];
    assert e[..5][..4] == e[..4] && e[..5] == e;
    var head := if gpt.name == "" then [NameMissing] else [];
    assert Filter(e[..1], p) == head;
    assert Filter(e[..2], p) == head + [InstructionsEmpty];
    assert Filter(e[..3], p) == head + [InstructionsEmpty, InstructionsTooShort];
    assert Filter(e[..4], p) == Filter(e[..3], p);
  }
}
