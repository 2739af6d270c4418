/** ui/pages/step5_guidelines.py: the common writing guidelines. On entry a
    missing or empty guideline is replaced by the default text; an edit is
    sent to a reviewing model only when it is non-empty and differs from the
    stored text; proceeding stores the edited text as it is. The default text
    itself is defined in chains/guideline_chain.py (lines 6-17). */
module GuidelinesPage {
  import opened Wrappers

  const DefaultGuidelineText: string := "### [기본 작성 원칙]\n- 스타일: 간결하고 명확한 서술형 (불필요한 수식어 및 미사여구 지양, 객관적 사실 기반)\n- 톤: 업무 문서 수준 (전문적이고 신뢰감 있는 어조), 감정 표현 최소화\n- 구조: 핵심 요지 -> 근거 경험/성과 (STAR 기법 활용) -> 직무·기업과의 연결\n- 목표 표현: 현실적이고 구체적 (기간·행동 중심, 측정 가능한 성과 지향)\n\n### [필수 준수 사항]\n# - AI 특유의 말투 및 표현 금지: AI가 생성한 듯한 정형화되거나 상투적인 표현, 과도한 긍정적 수식어 사용 금지 (예: \'도움이 되겠습니다\', \'열정적인\', \'최선을 다하는\')\n# - 괄호 안 영어 병기 금지: 국문 자기소개서 내 괄호 안 영어 병기 지양- 순수 텍스트만 사용: 불필요한 이모지나 특수문자 사용 금지\n# - 과장된 비전이나 추상적인 포부 지양: 구체적인 계획과 실행 가능성에 초점\n# - 직무 역량 강조: 지원 직무와 관련된 핵심 역량 및 경험을 명확히 제시\n# - 정확성 및 완성도: 오탈자 및 비문 검토 필수"

  lemma DefaultGuidelineNotEmpty()
    ensures DefaultGuidelineText != ""
  {
    assert |DefaultGuidelineText| == 521;
  }

  /** The guidelines after the page is entered (lines 15-16). */
  function GuidelinesOnEntry(g: Slot<string>): (r: Slot<string>)
    ensures r.Value? && r.value != ""
    ensures g.Value? && g.value != "" ==> r == g
    ensures !(g.Value? && g.value != "") ==> r == Value(DefaultGuidelineText)
  {
    DefaultGuidelineNotEmpty();
    if g.Value? && g.value != "" then g else Value(DefaultGuidelineText)
  }

  /** Entering the page twice is entering it once: the defaulting is
      idempotent and never touches a guideline the user has written. */
  lemma EntryIdempotent(g: Slot<string>)
    ensures GuidelinesOnEntry(GuidelinesOnEntry(g)) == GuidelinesOnEntry(g)
  {
  }

  /** The reviewing model (`ai_validate_guidelines`): the edited text in, the
      improved guideline out, or the exception it raised. */
  type GuidelineReviewer = string -> Result<string, string>

  /** What the update button does (lines 37-45). */
  datatype GuidelineUpdate =
    | NothingChanged            // "변경된 내용이 없습니다": the edit is empty or the same
    | ReviewFailed(error: string) // the reviewer raised; nothing is stored
    | Reviewed(text: string)    // the reviewer's text replaces the guidelines

  function UpdateGuidelines(stored: string, edited: string, review: GuidelineReviewer): (r: GuidelineUpdate)
    ensures r == NothingChanged <==> edited == "" || edited == stored
    ensures r.Reviewed? <==> edited != "" && edited != stored && review(edited).Success?
    ensures r.Reviewed? ==> r.text == review(edited).value
    ensures r.ReviewFailed? ==> review(edited) == Failure(r.error)
  {
    if edited == "" || edited == stored then NothingChanged
    else
      match review(edited)
      case Success(t) => Reviewed(t)
      case Failure(e) => ReviewFailed(e)
  }

  /** Submitting the stored text again never calls the reviewer. */
  lemma ResubmitIsNoOp(stored: string, review: GuidelineReviewer)
    ensures UpdateGuidelines(stored, stored, review) == NothingChanged
  {
  }
}
