/** test.py: the test entry point of the wizard. It creates the initial
    state, routes the current step to its page, lets the tester jump to any
    step and injects fixed data sets ("levels") that skip the model calls.
    The session-level parts (chat history, reset) are in module
    SessionModel. */
module TestHarness {
  import opened Wrappers
  import opened LlmUtil
  import opened State
  import opened Sidebar
  import opened StrategyPage
  import opened ValidationNode
  import opened EssayPage
  import opened FinalPage
  import opened GuidelinesPage

  /** `get_base_inputs()` (lines 37-75). Its "need_validation" entry lands in
      the workflow state, where no page reads it. */
  const BaseCompany := "테크스타트업"
  const BasePosition := "백엔드 개발자"
  const BasePosting := "\n        [주요업무]\n        - Python/Django 기반의 웹 서비스 서버 개발\n        - 대용량 트래픽 처리를 위한 시스템 아키텍처 설계\n        - AWS 클라우드 인프라 운영 및 관리\n        \n        [자격요건]\n        - Python 개발 경력 3년 이상\n        - RESTful API 설계 및 구현 경험\n        - RDBMS 및 NoSQL 데이터베이스 경험\n        \n        [우대사항]\n        - MSA 환경에서의 개발 경험\n        - Docker, Kubernetes 등 컨테이너 환경 경험\n        "
  const BaseUrl := "https://example.com/job/123"
  const BaseQuestions: seq<EssayQuestion> := [
    EssayQuestion("1", "지원 동기와 본인이 해당 직무에 적합하다고 생각하는 이유를 서술하시오.", Value(1000)),
    EssayQuestion("2", "가장 어려웠던 기술적 챌린지와 그것을 극복한 과정을 구체적으로 서술하시오.", Value(1000))
  ]
  const BaseExperience := "\n        1. 프로젝트: 이커머스 백엔드 리팩토링\n        - 기간: 2023.01 - 2023.06\n        - 역할: 백엔드 리드\n        - 내용: 레거시 모놀리식 아키텍처를 MSA로 전환. 주문 처리 속도 50% 향상.\n        - 기술: Python, FastAPI, Kafka, Redis\n        \n        2. 프로젝트: 실시간 로그 분석 시스템\n        - 기간: 2022.05 - 2022.12\n        - 내용: ELK 스택을 활용한 로그 수집 파이프라인 구축\n        "
  const BaseStatus: map<string, string> := map["company_name" := "충분", "job_posting" := "충분", "essay_questions" := "충분", "user_experiences" := "충분"]

  /** `get_research_data()`. */
  const ResearchFixture := Research("\n        [기업 개요]\n        테크스타트업은 2020년 설립된 핀테크 기업으로, AI 기반의 자산 관리 솔루션을 제공합니다.\n        \n        [주요 사업]\n        - AI 로보어드바이저\n        - 마이데이터 기반 신용 분석\n        \n        [인재상]\n        - 기술적 깊이를 추구하는 개발자\n        - 주도적으로 문제를 해결하는 사람\n        - 끊임없이 학습하는 러너\n        ")

  /** `get_strategy_data()`. */
  const StrategyFixture := Strategy(
    ["Python 전문성", "시스템 설계 능력", "문제 해결력"],
    ["주도성", "기술적 깊이"],
    ["MSA 전환 경험", "성능 최적화 성과"],
    ["금융 도메인 경험 부족"],
    map["1" := "지원 동기에는 핀테크 산업에 대한 관심과 MSA 경험을 연결하여 기여 가능성을 강조", "2" := "이커머스 리팩토링 프로젝트를 중심으로 문제 해결 과정을 STAR 기법으로 상세 기술"],
    ["추상적인 표현 지양", "성과는 구체적인 수치로 제시"],
    "\n## 1. 핵심 전략\n- **MSA 전환 경험 강조**: 지원 동기와 기술적 챌린지 항목 모두에서 MSA 전환을 통한 성능 개선 경험을 핵심 강점으로 내세웁니다.\n- **핀테크 도메인 관심 연결**: 금융 데이터 처리의 중요성과 본인의 기술적 강점(대용량 트래픽 처리)을 연결합니다.\n\n## 2. 문항별 작성 포인트\n### Q1. 지원 동기 및 적합성\n- **접근**: 단순히 \'코딩이 좋아서\'가 아니라, \'금융 서비스의 기술적 혁신\'에 기여하고 싶다는 명확한 목표를 제시하세요.\n- **소재**: Kafka와 Redis를 활용한 대용량 트래픽 처리 경험이 테크스타트업의 시스템 아키텍처에 어떻게 기여할 수 있는지 구체적으로 언급합니다.\n\n### Q2. 기술적 챌린지\n- **접근**: STAR 기법을 활용하여 상황(S), 과제(T), 행동(A), 결과(R)를 명확히 구분합니다.\n- **소재**: 모놀리식에서 MSA로 전환하며 겪었던 데이터 정합성 문제나 네트워크 레이턴시 이슈를 해결한 과정을 상세히 기술합니다.\n\n## 3. 주의사항\n- \'열심히 하겠습니다\'와 같은 추상적인 표현은 지양하고, 수치(속도 50% 향상 등)를 근거로 제시하세요.\n")

  /** `get_draft_data()`. */
  const DraftFixture: map<string, seq<string>> := map[
    "1" := ["(옵션 A) 저는 어릴 때부터 코딩을 좋아했습니다. 다양한 토이 프로젝트를 통해 실력을 쌓아왔으며...", "(옵션 B) 사용자의 불편함을 해결하는 백엔드 개발자가 되고 싶습니다. 기술적 한계를 극복하는 과정에서..."],
    "2" := ["(옵션 A) 레거시 시스템을 MSA로 전환하며 트래픽 처리를 개선했습니다. 이 과정에서 병목 현상을 발견하고...", "(옵션 B) Kafka를 도입하여 데이터 파이프라인을 구축했습니다. 실시간 데이터 처리의 정합성을 보장하기 위해..."]
  ]

  /** The model names the draft fixtures claim (line 263). */
  const FixtureModels: seq<string> := ["Mock-GPT-4", "Mock-Claude-3"]

  const Level4Feedback := "좀 더 구체적으로 써주세요"
  const Level5Feedback1 := "성과 수치를 더 구체적으로 언급해주고, 문체를 더 전문적으로 바꿔주세요."
  const Level5Feedback2 := "기술적인 챌린지 극복 과정을 조금 더 강조해서 수정해주세요."

  const FeedbackHead := "\n\n--- [AI 피드백 반영 완료] ---\n요청하신 피드백: '"
  const FeedbackTail := "' 내용을 반영하여 문장을 다듬고 내용을 보강하였습니다.\n최종적으로 정합성이 확보된 버전입니다."
  const NoFeedbackNote := "\n\n[" + "AI 수정 사항: 선택하신 초안을 문법 및 가독성 중심으로 최종 검토하였습니다.]"

  /** The simulated final text of one question (lines 144-152): the chosen
      draft, then either the quoted feedback in a fixed frame or a fixed note
      when there is no feedback. */
  function FinalEssayText(selected: string, feedback: string): (r: string)
    ensures |r| > |selected| && r[..|selected|] == selected
  {
    if feedback != "" then selected + FeedbackHead + feedback + FeedbackTail
    else selected + NoFeedbackNote
  }

  /** The character right after the draft's two line breaks tells the two
      frames apart: '-' opens the feedback frame, '[' the plain note. */
  lemma FrameMarker(selected: string, feedback: string)
    ensures FinalEssayText(selected, feedback)[|selected| + 2] == (if feedback != "" then '-' else '[')
  {
    var r := FinalEssayText(selected, feedback);
    if feedback != "" {
      assert r[|selected| + 2] == FeedbackHead[2];
    } else {
      assert r[|selected| + 2] == NoFeedbackNote[2];
    }
  }

  /** The simulated text determines both the chosen draft and the feedback it
      claims to have applied: different inputs never give the same text. */
  lemma FinalEssayTextInjective(a: string, f: string, b: string, g: string)
    requires |a| == |b|
    ensures FinalEssayText(a, f) == FinalEssayText(b, g) ==> a == b && f == g
  {
    var x, y := FinalEssayText(a, f), FinalEssayText(b, g);
    if x == y {
      assert a == x[..|a|] == y[..|b|] == b;
      FrameMarker(a, f);
      FrameMarker(b, g);
      assert (f != "") == (g != "");
      if f != "" {
        var sx, sy := x[|a|..], y[|a|..];
        assert sx == FeedbackHead + f + FeedbackTail;
        assert sy == FeedbackHead + g + FeedbackTail;
        assert |f| == |g|;
        assert f == sx[|FeedbackHead|..|FeedbackHead| + |f|];
        assert g == sy[|FeedbackHead|..|FeedbackHead| + |g|];
      }
    }
  }

  /** `selections.get(q_id, 0)` */
  function SelectionFor(selections: map<string, nat>, k: string): nat {
    if k in selections then selections[k] else 0
  }

  /** `feedbacks.get(q_id, "")` */
  function FeedbackFor(feedbacks: map<string, string>, k: string): string {
    if k in feedbacks then feedbacks[k] else ""
  }

  /** Every draft list holds the draft its selection points at. */
  predicate SelectionsInRange(drafts: map<string, seq<string>>, selections: map<string, nat>) {
    forall k :: k in drafts ==> SelectionFor(selections, k) < |drafts[k]|
  }

  /** `get_final_essays_data`: one simulated final text per draft key, or the
      IndexError (None) raised when some selection points past its list. */
  function FinalEssaysSpec(drafts: map<string, seq<string>>, selections: map<string, nat>,
                           feedbacks: map<string, string>): (r: Option<map<string, string>>)
    ensures r.Some? <==> SelectionsInRange(drafts, selections)
    ensures r.Some? ==> r.value.Keys == drafts.Keys
    ensures r.Some? ==> forall k :: k in drafts ==>
      var chosen := drafts[k][SelectionFor(selections, k)];
      |r.value[k]| > |chosen| && r.value[k][..|chosen|] == chosen
  {
    if SelectionsInRange(drafts, selections) then
      Some(map k | k in drafts :: FinalEssayText(drafts[k][SelectionFor(selections, k)], FeedbackFor(feedbacks, k)))
    else None
  }

  /** The loop of lines 139-153 over the draft keys; the order of the keys
      does not matter, since any out-of-range selection aborts the whole
      call. */
  method FinalEssaysData(drafts: map<string, seq<string>>, selections: map<string, nat>,
                         feedbacks: map<string, string>) returns (r: Option<map<string, string>>)
    ensures r == FinalEssaysSpec(drafts, selections, feedbacks)
  {
    var final: map<string, string> := map[];
    var remaining := drafts.Keys;
    while remaining != {}
      invariant remaining <= drafts.Keys
      invariant final.Keys == drafts.Keys - remaining
      invariant forall k :: k in final ==> (SelectionFor(selections, k) < |drafts[k]| &&
        final[k] == FinalEssayText(drafts[k][SelectionFor(selections, k)], FeedbackFor(feedbacks, k)))
      decreases remaining
    {
      var k :| k in remaining;
      var selIdx := SelectionFor(selections, k);
      if selIdx >= |drafts[k]| {
        assert !SelectionsInRange(drafts, selections);
        return None;
      }
      final := final[k := FinalEssayText(drafts[k][selIdx], FeedbackFor(feedbacks, k))];
      remaining := remaining - {k};
    }
    assert SelectionsInRange(drafts, selections);
    ghost var spec := FinalEssaysSpec(drafts, selections, feedbacks).value;
    assert forall k :: k in final ==> final[k] == spec[k];
    assert final == spec;
    r := Some(final);
  }

  /** The data sets of the test panel. */
  datatype Level = Level1 | Level2 | Level25 | Level3 | Level4 | Level5

  /** The step each level lands on. */
  function FixtureStep(level: Level): int {
    match level
    case Level1 => 2
    case Level2 => 4
    case Level25 | Level3 => 6
    case Level4 | Level5 => 7
  }

  const Level3Selections: map<string, nat> := map["1" := 0, "2" := 0]
  const Level3Feedbacks: map<string, string> := map["1" := "", "2" := ""]
  const Level4Selections: map<string, nat> := map["1" := 1, "2" := 0]
  const Level4Feedbacks: map<string, string> := map["1" := Level4Feedback, "2" := ""]
  const Level5Feedbacks: map<string, string> := map["1" := Level5Feedback1, "2" := Level5Feedback2]

  /** The data a level injects, gathered in one record so that what the
      levels do can be stated for any data and checked once for the data of
      the test panel. */
  datatype Fixtures = Fixtures(
    company: string,
    position: string,
    posting: string,
    url: string,
    questions: seq<EssayQuestion>,
    experience: string,
    status: map<string, string>,
    research: Research,
    strategy: Strategy,
    guidelines: string,
    drafts: map<string, seq<string>>,
    models: seq<string>,
    firstSelections: map<string, nat>,
    firstFeedbacks: map<string, string>,
    laterSelections: map<string, nat>,
    level4Feedbacks: map<string, string>,
    level5Feedbacks: map<string, string>)

  /** The data of the test panel (lines 37-134, 263-265, 290-291, 322-326). */
  const TestFixtures := Fixtures(
    BaseCompany, BasePosition, BasePosting, BaseUrl, BaseQuestions, BaseExperience, BaseStatus,
    ResearchFixture, StrategyFixture, DefaultGuidelineText, DraftFixture, FixtureModels,
    Level3Selections, Level3Feedbacks, Level4Selections, Level4Feedbacks, Level5Feedbacks)

  /** `state.update(get_base_inputs())`: the input keys are replaced, every
      other key keeps its value. */
  function WithBaseInputs(s: ResumeState, f: Fixtures): ResumeState {
    s.(companyName := Some(f.company), positionName := Some(f.position),
       jobPosting := Some(f.posting), jobPostingUrl := Some(f.url),
       essayQuestions := Some(f.questions), userExperiences := Some(f.experience),
       validationStatus := Some(f.status), additionalQuestions := Some([]))
  }

  /** The workflow state after a level's button (lines 197-336), for data
      `f`. Levels replace only the keys they name: a key a level does not
      mention keeps whatever an earlier level or the user left in it. */
  function FixtureState(s: ResumeState, level: Level, f: Fixtures): (r: ResumeState)
    ensures r.currentStep == FixtureStep(level)
    ensures r.completedSteps == seq(FixtureStep(level) - 1, i => i + 1)
    ensures r.essayQuestions == Some(f.questions) && r.validationStatus == Some(f.status)
    ensures forall x :: x in r.completedSteps ==> 1 <= x < r.currentStep
    ensures !s.writingGuidelines.Missing? ==> !r.writingGuidelines.Missing?
    ensures (s.generatedDrafts.Some? ==> s.draftSelections.Some? && s.draftFeedbacks.Some?) ==>
      (r.generatedDrafts.Some? ==> r.draftSelections.Some? && r.draftFeedbacks.Some?)
  {
    var b := WithBaseInputs(s, f);
    var completed := seq(FixtureStep(level) - 1, i => i + 1);
    match level
    case Level1 => b.(currentStep := 2, completedSteps := completed)
    case Level2 => b.(companyResearch := Some(f.research), currentStep := 4, completedSteps := completed)
    case Level25 =>
      b.(companyResearch := Some(f.research), writingStrategy := Some(f.strategy),
         writingGuidelines := Value(f.guidelines), generatedDrafts := None,
         currentStep := 6, completedSteps := completed)
    case Level3 =>
      b.(companyResearch := Some(f.research), writingStrategy := Some(f.strategy),
         writingGuidelines := Value(f.guidelines), generatedDrafts := Some(f.drafts),
         draftModels := Some(f.models), draftSelections := Some(f.firstSelections),
         draftFeedbacks := Some(f.firstFeedbacks), currentStep := 6, completedSteps := completed)
    case Level4 =>
      b.(companyResearch := Some(f.research), writingStrategy := Some(f.strategy),
         writingGuidelines := Value(f.guidelines), generatedDrafts := Some(f.drafts),
         draftModels := Some(f.models), draftSelections := Some(f.laterSelections),
         draftFeedbacks := Some(f.level4Feedbacks), confirmedEssays := None,
         currentStep := 7, completedSteps := completed)
    case Level5 =>
      b.(companyResearch := Some(f.research), writingStrategy := Some(f.strategy),
         writingGuidelines := Value(f.guidelines), generatedDrafts := Some(f.drafts),
         draftModels := Some(f.models), draftSelections := Some(f.laterSelections),
         draftFeedbacks := Some(f.level5Feedbacks),
         confirmedEssays := FinalEssaysSpec(f.drafts, f.laterSelections, f.level5Feedbacks),
         currentStep := 7, completedSteps := completed)
  }

  /** Every level lands on a step of the wizard that the sidebar lets the
      user reach, with the steps before it marked completed, once each. */
  lemma FixtureStepReachable(s: ResumeState, level: Level, f: Fixtures)
    ensures IsStep(FixtureState(s, level, f).currentStep)
    ensures MaxAccessibleStep(FixtureState(s, level, f).completedSteps) == FixtureState(s, level, f).currentStep
    ensures NoDuplicates(FixtureState(s, level, f).completedSteps)
  {
    PrefixCompletedReach(FixtureStep(level) - 1);
  }

  /** Two questions, every status 충분, and a non-empty report and posting. */
  predicate InputsSound(f: Fixtures) {
    && |f.questions| == 2
    && f.posting != "" && f.research.content != ""
    && (forall k :: k in f.status ==> f.status[k] == "충분")
  }

  /** Two drafts for each of the two questions, and a selection of option A
      or B and a feedback for each. */
  predicate DraftsSound(f: Fixtures) {
    && f.drafts.Keys == KeysBelow(2)
    && (forall k :: k in f.drafts ==> |f.drafts[k]| == 2)
    && f.firstSelections.Keys == f.drafts.Keys && f.firstFeedbacks.Keys == f.drafts.Keys
    && f.laterSelections.Keys == f.drafts.Keys && f.level4Feedbacks.Keys == f.drafts.Keys
    && f.level5Feedbacks.Keys == f.drafts.Keys
    && (forall k :: k in f.firstSelections ==> f.firstSelections[k] <= 1)
    && (forall k :: k in f.laterSelections ==> f.laterSelections[k] <= 1)
  }

  predicate FixturesSound(f: Fixtures) {
    InputsSound(f) && DraftsSound(f)
  }

  /** The keys of two questions are "1" and "2". */
  lemma TwoKeys()
    ensures Key(0) == "1" && Key(1) == "2"
    ensures KeysBelow(2) == {"1", "2"}
  {
    KeysBelowStep(0);
    KeysBelowStep(1);
  }

  /** The base inputs and the report of the test panel are sound. */
  lemma TestInputsSound(f: Fixtures)
    requires f.questions == BaseQuestions && f.posting == BasePosting
    requires f.research == ResearchFixture && f.status == BaseStatus
    ensures InputsSound(f)
  {
    assert |BasePosting| == 344;
    assert |ResearchFixture.content| == 258;
  }

  /** The drafts of the test panel: two for each of questions "1" and "2". */
  lemma DraftFixtureShape()
    ensures DraftFixture.Keys == KeysBelow(2)
    ensures forall k :: k in DraftFixture ==> |DraftFixture[k]| == 2
  {
    TwoKeys();
  }

  /** The feedback maps of the test panel name questions "1" and "2". */
  lemma FeedbackFixtureKeys()
    ensures Level3Feedbacks.Keys == {"1", "2"} && Level4Feedbacks.Keys == {"1", "2"}
    ensures Level5Feedbacks.Keys == {"1", "2"}
  {
  }

  /** The drafts, selections and feedbacks of the test panel are sound. */
  lemma TestDraftsSound(f: Fixtures)
    requires f.drafts.Keys == KeysBelow(2)
    requires forall k :: k in f.drafts ==> |f.drafts[k]| == 2
    requires f.firstSelections == Level3Selections && f.laterSelections == Level4Selections
    requires f.firstFeedbacks.Keys == f.level4Feedbacks.Keys == f.level5Feedbacks.Keys == {"1", "2"}
    ensures DraftsSound(f)
  {
    TwoKeys();
  }

  /** With sound data, the base inputs pass step 2's check, and once research
      is loaded the step-4 guard passes. */
  lemma FixtureInputsPass(s: ResumeState, level: Level, f: Fixtures)
    requires FixturesSound(f)
    ensures AllPass(FixtureState(s, level, f).validationStatus)
    ensures level != Level1 ==> StrategyReady(FixtureState(s, level, f))
  {
  }

  /** With sound data, the draft levels give each question a pair of drafts,
      a selection and a feedback, so step 6 shows both options of every
      question and step 7 finds its input. */
  lemma DraftFixturesComplete(s: ResumeState, level: Level, f: Fixtures)
    requires FixturesSound(f)
    requires level == Level3 || level == Level4 || level == Level5
    ensures var r := FixtureState(s, level, f);
      r.generatedDrafts == Some(f.drafts) && f.drafts.Keys == KeysBelow(|Questions(r)|) &&
      r.draftSelections.Some? && r.draftSelections.value.Keys == f.drafts.Keys &&
      r.draftFeedbacks.Some? && r.draftFeedbacks.value.Keys == f.drafts.Keys &&
      SelectionsInRange(f.drafts, r.draftSelections.value) &&
      forall i :: 0 <= i < |Questions(r)| ==> ShownDrafts(f.drafts, i) == Some((f.drafts[Key(i)][0], f.drafts[Key(i)][1]))
  {
    var r := FixtureState(s, level, f);
    forall i | 0 <= i < |Questions(r)|
      ensures ShownDrafts(f.drafts, i) == Some((f.drafts[Key(i)][0], f.drafts[Key(i)][1]))
    {
      assert Key(i) in KeysBelow(2);
    }
  }

  /** With sound data, Level 5 stores a final text for both questions, so the
      result page opens. */
  lemma FinalFixtureOpensResult(s: ResumeState, f: Fixtures)
    requires FixturesSound(f)
    ensures var r := FixtureState(s, Level5, f);
      r.confirmedEssays.Some? && r.confirmedEssays.value.Keys == KeysBelow(|Questions(r)|) && FinalReady(r.confirmedEssays)
  {
    Level5Essays(s, f);
    LaterSelectionsInRange(f);
    assert Key(0) in KeysBelow(2);
  }

  /** Level 5 stores what `get_final_essays_data` returns for its selections
      and feedbacks. */
  lemma Level5Essays(s: ResumeState, f: Fixtures)
    ensures FixtureState(s, Level5, f).confirmedEssays == FinalEssaysSpec(f.drafts, f.laterSelections, f.level5Feedbacks)
  {
  }

  lemma LaterSelectionsInRange(f: Fixtures)
    requires DraftsSound(f)
    ensures SelectionsInRange(f.drafts, f.laterSelections)
  {
  }

  /** Level 4 removes the final texts, so step 8 stays closed until step 7
      generates them. */
  lemma DraftFixtureClosesResult(s: ResumeState, f: Fixtures)
    ensures !FinalReady(FixtureState(s, Level4, f).confirmedEssays)
  {
  }

  /** The page `main` routes the current step to (lines 363-384): the step's
      own page for 1..8, the error message otherwise. */
  function Route(step: int): (r: Option<int>)
    ensures r.Some? <==> IsStep(step)
    ensures r.Some? ==> r.value == step
  {
    if 1 <= step <= 8 then Some(step) else None
  }
}
