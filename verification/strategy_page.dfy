/** ui/pages/step4_strategy.py: the strategy chat. The page checks that a
    research report and a posting exist, asks the strategy model for a first
    strategy once, lets the user refine it in a chat, and on confirmation
    stores the most recent AI message as the structured strategy. The chat
    list, its flags and the stored strategy live in the session (module
    SessionModel); this module holds what the page computes from them. */
module StrategyPage {
  import opened Wrappers
  import opened Text
  import opened LlmUtil
  import opened State

  /** The report's content when a report is stored (lines 65-71). */
  function ResearchContent(research: Option<Research>): Option<string> {
    if research.Some? then Some(research.value.content) else None
  }

  /** The page goes past its guard only with a non-empty report and a
      non-empty posting (lines 73-76). */
  predicate StrategyReady(s: ResumeState) {
    ResearchContent(s.companyResearch).GetOr("") != "" && s.jobPosting.GetOr("") != ""
  }

  lemma StrategyReadyMeans(s: ResumeState)
    ensures StrategyReady(s) <==> ResearchText(s.companyResearch) != "" && s.jobPosting.Some? && s.jobPosting.value != ""
  {
  }

  const NoResearchText := "리서치 정보 없음"

  /** The research text sent to the strategy model (lines 120-126): the
      report's content, or the fixed "리서치 정보 없음" when none is stored. */
  function ResearchForStrategy(research: Option<Research>): (r: string)
    ensures research.Some? ==> r == research.value.content
    ensures research.None? ==> r == NoResearchText
  {
    ResearchContent(research).GetOr(NoResearchText)
  }

  /** Past the guard the fallback is never used: the model always gets the
      stored report. */
  lemma ReadyUsesStoredResearch(s: ResumeState)
    requires StrategyReady(s)
    ensures s.companyResearch.Some? && ResearchForStrategy(s.companyResearch) == ResearchText(s.companyResearch) != ""
  {
  }

  /** Question `i` as the strategy prompt lists it: "<i+1>. <text>". */
  function NumberedLine(i: nat, q: EssayQuestion): string {
    NatToString(i + 1) + ". " + q.questionText
  }

  function NumberedLines(qs: seq<EssayQuestion>): (r: seq<string>)
    ensures |r| == |qs|
    ensures forall i :: 0 <= i < |qs| ==> r[i] == NumberedLine(i, qs[i])
  {
    seq(|qs|, i requires 0 <= i < |qs| => NumberedLine(i, qs[i]))
  }

  /** The questions numbered from 1, one per line (line 133). */
  function NumberedQuestions(qs: seq<EssayQuestion>): string {
    Join(NumberedLines(qs), "\n")
  }

  /** When no question text holds a line break, the numbered block splits back
      into exactly one line per question, in order, each starting with its
      own 1-based number. */
  lemma NumberedQuestionsLines(qs: seq<EssayQuestion>)
    requires qs != []
    requires forall i :: 0 <= i < |qs| ==> '\n' !in qs[i].questionText
    ensures Split(NumberedQuestions(qs), '\n') == NumberedLines(qs)
  {
    var lines := NumberedLines(qs);
    forall i | 0 <= i < |lines| ensures '\n' !in lines[i] {
      var d := NatToString(i + 1);
      assert lines[i] == d + ". " + qs[i].questionText;
      forall k | 0 <= k < |lines[i]| ensures lines[i][k] != '\n' {
        if k < |d| {
          assert lines[i][k] == d[k];
        } else if k >= |d| + 2 {
          assert lines[i][k] == qs[i].questionText[k - |d| - 2];
        }
      }
    }
    SplitJoin(lines, '\n');
  }

  /** The named arguments of the first-strategy prompt (lines 128-135). */
  datatype StrategyInput = StrategyInput(
    companyName: string,
    positionName: string,
    jobPosting: string,
    companyResearch: string,
    essayQuestions: string,
    userExperiences: string)

  function StrategyInputOf(s: ResumeState): (r: StrategyInput)
    ensures r.companyResearch == ResearchForStrategy(s.companyResearch)
    ensures r.essayQuestions == NumberedQuestions(Questions(s))
    ensures r.jobPosting == s.jobPosting.GetOr("")
  {
    StrategyInput(s.companyName.GetOr(""), s.positionName.GetOr(""), s.jobPosting.GetOr(""),
                  ResearchForStrategy(s.companyResearch), NumberedQuestions(Questions(s)),
                  s.userExperiences.GetOr(""))
  }

  /** `model_keys[current_index]` (lines 111-113, 212-214): the model at the
      selector's index. */
  function SelectedModel(index: nat): (r: string)
    requires index < ModelCount
    ensures r in ModelProviderMap
  {
    ModelKeysCount();
    ModelKeysListTable();
    ModelKeys[index]
  }

  /** The first-strategy model: model name and prompt arguments in, the
      answer's text out, or the exception it raised. */
  type InitialStrategyModel = (string, StrategyInput) -> Result<string, string>

  /** The feedback model: model name, the chat so far and the new request in,
      the answer's text out, or the exception it raised. */
  type FeedbackModel = (string, seq<Message<string>>, string) -> Result<string, string>

  /** The extraction model: the confirmed text in, the structured strategy out,
      or the exception it raised. */
  type ExtractionModel = string -> Result<Strategy, string>

  /** The position of the most recent AI message: every later message is of
      another kind; None when the chat has no AI message at all. */
  function LastAiIndex(messages: seq<Message<string>>): (r: Option<nat>)
    ensures r.Some? ==> r.value < |messages| && messages[r.value].role == Ai
    ensures r.Some? ==> forall j :: r.value < j < |messages| ==> messages[j].role != Ai
    ensures r.None? ==> forall j :: 0 <= j < |messages| ==> messages[j].role != Ai
  {
    if messages == [] then None
    else if messages[|messages| - 1].role == Ai then Some(|messages| - 1)
    else LastAiIndex(messages[..|messages| - 1])
  }

  /** An AI message followed only by other kinds of message is the latest
      one. */
  lemma LastAiIndexUnique(messages: seq<Message<string>>, w: nat)
    requires w < |messages| && messages[w].role == Ai
    requires forall j :: w < j < |messages| ==> messages[j].role != Ai
    ensures LastAiIndex(messages) == Some(w)
  {
    var r := LastAiIndex(messages);
    assert r.Some?;
    assert r.value <= w by {
      assert messages[r.value].role == Ai;
    }
  }

  /** The most recent AI message's content. */
  function LastAiContent(messages: seq<Message<string>>): (r: Option<string>)
    ensures r.Some? <==> LastAiIndex(messages).Some?
    ensures r.Some? ==> messages[LastAiIndex(messages).value] == Message(Ai, r.value)
  {
    var i := LastAiIndex(messages);
    if i.Some? then Some(messages[i.value].content) else None
  }

  /** The loop of lines 183-187: walk the chat backwards and stop at the first
      AI message. */
  method FindLastAi(messages: seq<Message<string>>) returns (r: Option<string>)
    ensures r == LastAiContent(messages)
  {
    var i := |messages|;
    while i > 0
      invariant 0 <= i <= |messages|
      invariant forall j :: i <= j < |messages| ==> messages[j].role != Ai
    {
      if messages[i - 1].role == Ai {
        LastAiIndexUnique(messages, i - 1);
        return Some(messages[i - 1].content);
      }
      i := i - 1;
    }
    r := None;
  }

  /** What confirming does with the chat (lines 189-196): nothing to save when
      there is no AI message or the latest one is empty, otherwise that text. */
  function ConfirmedText(messages: seq<Message<string>>): (r: Option<string>)
    ensures r.Some? ==> r.value != "" && LastAiContent(messages) == r
    ensures r.None? <==> LastAiContent(messages).GetOr("") == ""
  {
    var last := LastAiContent(messages);
    if last.Some? && last.value != "" then last else None
  }

  /** An empty latest AI answer hides any earlier one: the scan stops at the
      latest AI message even when it is empty. */
  lemma EmptyLatestAnswerBlocksConfirm(earlier: seq<Message<string>>, after: seq<Message<string>>)
    requires forall j :: 0 <= j < |after| ==> after[j].role != Ai
    ensures ConfirmedText(earlier + [Message(Ai, "")] + after) == None
  {
    var ms := earlier + [Message(Ai, "")] + after;
    var k := |earlier|;
    assert ms[k] == Message(Ai, "");
    forall j | k < j < |ms| ensures ms[j].role != Ai {
      assert ms[j] == after[j - k - 1];
    }
    LastAiIndexUnique(ms, k);
  }

  /** What `_save_strategy` stores (lines 34-41): the structured strategy the
      extraction model returned, with its text replaced by the confirmed chat
      text; None when extraction raised. */
  function ExtractedStrategy(extract: ExtractionModel, text: string): (r: Option<Strategy>)
    ensures r.Some? <==> extract(text).Success?
    ensures r.Some? ==> r.value.content == text && r.value.(content := extract(text).value.content) == extract(text).value
  {
    match extract(text)
    case Success(st) => Some(st.(content := text))
    case Failure(_) => None
  }
}
