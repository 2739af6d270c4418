/** chains/review_chain.py: the final essays. For each question the chain
    gathers a review context from the state (question, selected draft,
    feedback, guidelines, company, position, experience), renders it into a
    system and a human message and asks the final model for the finished
    essay; the answers are keyed "1".."N". */
module ReviewChain {
  import opened Wrappers
  import opened Text
  import opened LlmUtil
  import opened State
  import opened Gather

  /** The guidelines of a context: the stored text, or the default guideline
      of the prompt configuration. */
  datatype Guideline = DefaultGuideline | GivenGuideline(text: string)

  /** `ReviewContext`. */
  datatype ReviewContext = ReviewContext(
    question: string,
    draft: string,
    feedback: string,
    guidelines: Guideline,
    companyName: string,
    positionName: string,
    userExperiences: string)

  const NoDraftText := "선택된 초안이 없습니다."
  const NoFeedbackText := "별도의 수정 요청사항 없음 (자연스럽게 다듬어주세요)"
  const UnknownCompany := "회사명 미상"
  const UnknownPosition := "직무 미상"

  /** The selection index of question key `qid`, 0 when none is recorded. */
  function SelectionOf(s: ResumeState, qid: string): nat {
    var selections := s.draftSelections.GetOr(map[]);
    if qid in selections then selections[qid] else 0
  }

  /** The drafts of question key `qid`, [] when none are stored. */
  function DraftsOf(s: ResumeState, qid: string): seq<string> {
    var drafts := s.generatedDrafts.GetOr(map[]);
    if qid in drafts then drafts[qid] else []
  }

  /** The feedback of question key `qid`, "" when none is recorded. */
  function FeedbackOf(s: ResumeState, qid: string): string {
    var feedbacks := s.draftFeedbacks.GetOr(map[]);
    if qid in feedbacks then feedbacks[qid] else ""
  }

  /** `_initialize_context` for the question at 0-based index `idx`. */
  function InitializeContext(s: ResumeState, idx: nat): (c: ReviewContext)
    requires idx < |Questions(s)|
    ensures c.question == Questions(s)[idx].questionText
    ensures var sel, list := SelectionOf(s, Key(idx)), DraftsOf(s, Key(idx));
      (sel < |list| ==> c.draft == list[sel]) && (sel >= |list| ==> c.draft == NoDraftText)
    ensures FeedbackOf(s, Key(idx)) != "" ==> c.feedback == FeedbackOf(s, Key(idx))
    ensures FeedbackOf(s, Key(idx)) == "" ==> c.feedback == NoFeedbackText
    ensures c.guidelines == DefaultGuideline <==> !(s.writingGuidelines.Value? && s.writingGuidelines.value != "")
    ensures c.guidelines.GivenGuideline? ==> c.guidelines == GivenGuideline(s.writingGuidelines.value)
    ensures c.companyName == s.companyName.GetOr(UnknownCompany)
    ensures c.positionName == s.positionName.GetOr(UnknownPosition)
    ensures c.userExperiences == s.userExperiences.GetOr("")
  {
    var qid := Key(idx);
    var sel := SelectionOf(s, qid);
    var list := DraftsOf(s, qid);
    var draft := if list != [] && |list| > sel then list[sel] else NoDraftText;
    var feedback := FeedbackOf(s, qid);
    var guidelines :=
      match s.writingGuidelines
      case Value(g) => if g == "" then DefaultGuideline else GivenGuideline(g)
      case _ => DefaultGuideline;
    ReviewContext(Questions(s)[idx].questionText, draft,
                  if feedback == "" then NoFeedbackText else feedback,
                  guidelines,
                  s.companyName.GetOr(UnknownCompany), s.positionName.GetOr(UnknownPosition),
                  s.userExperiences.GetOr(""))
  }

  /** The context never carries an empty feedback: the model is always told
      what to change, or that nothing was asked. */
  lemma FeedbackNeverEmpty(s: ResumeState, idx: nat)
    requires idx < |Questions(s)|
    ensures InitializeContext(s, idx).feedback != ""
  {
  }

  /** The company and position defaults apply only to an absent key: an
      empty stored name reaches the prompt as the empty string. */
  lemma {:induction false} NameDefaultsOnlyWhenAbsent(s: ResumeState, idx: nat)
    requires idx < |Questions(s)|
    requires s.companyName == Some("") && s.positionName == Some("")
    ensures InitializeContext(s, idx).companyName == "" && InitializeContext(s, idx).positionName == ""
  {
  }

  /** The named arguments of the two review templates. */
  datatype ReviewPart =
    | ReviewSystem(guidelines: Guideline, companyName: string, positionName: string, userExperiences: string)
    | ReviewHuman(question: string, draft: string, feedback: string)

  /** `_make_prompt`: exactly a system message and then a human message. */
  function MakeReviewPrompt(c: ReviewContext): (r: seq<Message<ReviewPart>>)
    ensures |r| == 2 && r[0].role == System && r[1].role == Human
    ensures r[0].content.ReviewSystem? && r[1].content.ReviewHuman?
  {
    [Message(System, ReviewSystem(c.guidelines, c.companyName, c.positionName, c.userExperiences)),
     Message(Human, ReviewHuman(c.question, c.draft, c.feedback))]
  }

  /** The context a review prompt was built from, read back from its two
      messages. */
  function ContextOfPrompt(p: seq<Message<ReviewPart>>): (c: Option<ReviewContext>)
    ensures c.Some? ==> |p| == 2
  {
    if |p| == 2 && p[0].content.ReviewSystem? && p[1].content.ReviewHuman? then
      var sys, hum := p[0].content, p[1].content;
      Some(ReviewContext(hum.question, hum.draft, hum.feedback, sys.guidelines,
                         sys.companyName, sys.positionName, sys.userExperiences))
    else None
  }

  /** Every field of the context reaches the model: the prompt determines
      the context it was made from. */
  lemma PromptKeepsContext(c: ReviewContext)
    ensures ContextOfPrompt(MakeReviewPrompt(c)) == Some(c)
  {
  }

  /** The final model: the prompt in, the response content out, or the
      exception it raised. */
  type ReviewModel = seq<Message<ReviewPart>> -> Result<Content, string>

  /** `_generate_single_final_draft`: the model's content for the question's
      prompt, normalised to text. */
  function FinalDraft(llm: ReviewModel, s: ResumeState, idx: nat): (r: Result<string, string>)
    requires idx < |Questions(s)|
    ensures var answer := llm(MakeReviewPrompt(InitializeContext(s, idx)));
      (answer.Success? ==> r == Success(ContentText(answer.value))) && (answer.Failure? ==> r == Failure(answer.error))
  {
    match llm(MakeReviewPrompt(InitializeContext(s, idx)))
    case Success(content) => Success(ContentText(content))
    case Failure(e) => Failure(e)
  }

  /** The task of question `idx`: its key and its final text. */
  function FinalTask(llm: ReviewModel, s: ResumeState, idx: nat): Result<(string, string), string>
    requires idx < |Questions(s)|
  {
    match FinalDraft(llm, s, idx)
    case Success(text) => Success((Key(idx), text))
    case Failure(e) => Failure(e)
  }

  /** `dict(results)` over pairs whose keys are "1".."N" in order: every key
      maps to its own pair's text. */
  method ToDict(pairs: seq<(string, string)>) returns (d: map<string, string>)
    requires forall i :: 0 <= i < |pairs| ==> pairs[i].0 == Key(i)
    ensures d.Keys == KeysBelow(|pairs|)
    ensures forall i :: 0 <= i < |pairs| ==> d[Key(i)] == pairs[i].1
  {
    d := map[];
    for k := 0 to |pairs|
      invariant d.Keys == KeysBelow(k)
      invariant forall i :: 0 <= i < k ==> d[Key(i)] == pairs[i].1
    {
      forall i | 0 <= i < k ensures Key(i) != Key(k) {
        KeyInjective(i, k);
      }
      KeysBelowStep(k);
      d := d[pairs[k].0 := pairs[k].1];
    }
  }

  /** `generate_final_essays`: one task per question, in order, gathered
      all-or-nothing. On success there is exactly one entry per question,
      keyed "1".."N", holding that question's final text; otherwise the
      exception of some question's model call propagates. */
  method GenerateFinalEssays(llm: ReviewModel, s: ResumeState) returns (r: Result<map<string, string>, string>)
    ensures r.Failure? <==> exists i :: 0 <= i < |Questions(s)| && FinalDraft(llm, s, i).Failure?
    ensures r.Failure? ==> exists i :: 0 <= i < |Questions(s)| && FinalDraft(llm, s, i) == Failure(r.error)
    ensures r.Success? ==> r.value.Keys == KeysBelow(|Questions(s)|)
    ensures r.Success? ==> forall i :: 0 <= i < |Questions(s)| ==> Success(r.value[Key(i)]) == FinalDraft(llm, s, i)
  {
    var questions := Questions(s);
    var tasks: seq<Result<(string, string), string>> := [];
    for i := 0 to |questions|
      invariant |tasks| == i
      invariant forall k :: 0 <= k < i ==> tasks[k] == FinalTask(llm, s, k)
    {
      tasks := tasks + [FinalTask(llm, s, i)];
    }
    var gathered := GatherAll(tasks);
    if gathered.Failure? {
      var k :| 0 <= k < |tasks| && tasks[k] == Failure(gathered.error);
      assert FinalDraft(llm, s, k) == Failure(gathered.error);
      return Failure(gathered.error);
    }
    var pairs := gathered.value;
    forall i | 0 <= i < |pairs| ensures pairs[i].0 == Key(i) && FinalDraft(llm, s, i) == Success(pairs[i].1) {
      assert tasks[i] == FinalTask(llm, s, i);
    }
    var d := ToDict(pairs);
    r := Success(d);
  }
}
