/** ui/pages/step3_research.py: the research page. It shows a prompt for an
    external research tool, built from the company, the position and the
    posting, and stores the report the user pastes back. */
module ResearchPage {
  import opened Wrappers
  import opened Text
  import opened State

  /** The fixed text between the fields of the prompt template. */
  const ResearchPiece0 := "당신은 기업 분석 전문가입니다. 아래 채용 공고를 바탕으로 \'"
  const ResearchPiece1 := "\' 기업과 \'"
  const ResearchPiece2 := "\' 직무에 대한 심층 리서치 보고서를 작성해주세요.\n\n[분석 대상]\n- 기업명: "
  const ResearchPiece3 := "\n- 지원 직무: "
  const ResearchPiece4 := "\n\n[채용 공고 내용]\n"
  const ResearchPiece5 := "\n\n[요청 사항]\n다음 항목들을 포함하여 상세하게 분석해주세요:\n1. 기업 개요 및 주요 사업 영역 (최근 실적 포함)\n2. 최근 1년 내 주요 이슈 및 뉴스 (긍정/부정)\n3. 현재 경영 방향 및 비전 (신년사, CEO 메시지 등 참고)\n4. 조직 문화 및 인재상\n5. 해당 직무("
  const ResearchPiece6 := ")의 핵심 역할 및 요구 역량 분석\n6. 업계 동향 및 경쟁사 현황\n\n보고서는 자기소개서 작성 전략 수립에 활용될 예정이므로, 구체적인 사실(Fact) 위주로 정리해주세요."

  /** The template filled in: the fixed pieces with the fields between them,
      in the order of the f-string (company, position, company, position,
      posting, position). */
  function Fill(p: seq<string>, company: string, position: string, posting: string): string
    requires |p| == 7
  {
    p[0] + company + p[1] + position + p[2] + company +
    p[3] + position + p[4] + posting + p[5] + position + p[6]
  }

  const ResearchPieces: seq<string> := [ResearchPiece0, ResearchPiece1, ResearchPiece2, ResearchPiece3,
                                        ResearchPiece4, ResearchPiece5, ResearchPiece6]

  /** `_generate_research_prompt` on the three values it reads. */
  function ResearchPrompt(company: string, position: string, posting: string): string {
    Fill(ResearchPieces, company, position, posting)
  }

  /** The prompt for a state: each field defaults to "" when absent. */
  function ResearchPromptOf(s: ResumeState): string {
    ResearchPrompt(s.companyName.GetOr(""), s.positionName.GetOr(""), s.jobPosting.GetOr(""))
  }

  /** `q` occurs in `s` at index `i`. */
  predicate OccursAt(q: string, s: string, i: int) {
    0 <= i && i + |q| <= |s| && forall t :: 0 <= t < |q| ==> s[i + t] == q[t]
  }

  /** Where the filled template places each field: the company right after
      piece 2, the position right after piece 3, the posting between pieces
      4 and 5; it starts with piece 0 and ends with piece 6. */
  lemma FillEmbeds(p: seq<string>, company: string, position: string, posting: string)
    requires |p| == 7
    ensures var r := Fill(p, company, position, posting);
      var i := |p[0]| + |company| + |p[1]| + |position| + |p[2]|;
      var j := i + |company| + |p[3]|;
      var k := j + |position| + |p[4]|;
      && OccursAt(p[0], r, 0)
      && OccursAt(p[2] + company + p[3], r, i - |p[2]|)
      && OccursAt(position + p[4] + posting + p[5], r, j)
      && OccursAt(p[6], r, |r| - |p[6]|)
      && OccursAt(posting, r, k)
  {
  }

  /** The text area's starting value as written (lines 27-30): nothing stored
      gives "", but a stored report is a `CompanyResearch` model, which has
      no `get`, so the page raises AttributeError before its buttons are
      drawn. */
  function ResearchPrefillAsWritten(research: Option<Research>): (r: Result<string, string>)
    ensures research.None? ==> r == Success("")
    ensures research.Some? ==> r == Failure("AttributeError: 'CompanyResearch' object has no attribute 'get'")
  {
    if research.None? then Success("")
    else Failure("AttributeError: 'CompanyResearch' object has no attribute 'get'")
  }

  /** The finding: once a report has been saved (by this page or by a test
      fixture) the page can no longer be drawn, so the saved report can be
      neither shown nor replaced here. */
  lemma SavedResearchBreaksPageAsWritten(text: string)
    ensures ResearchPrefillAsWritten(Some(Research(text))).Failure?
    ensures ResearchPrefillAsWritten(None) == Success("")
  {
  }

  /** The evident intent, as steps 4 and 8 do it: the stored report's content,
      "" when there is none. */
  function ResearchPrefill(research: Option<Research>): (r: string)
    ensures research.Some? ==> r == research.value.content
    ensures research.None? ==> r == ""
  {
    ResearchText(research)
  }

  /** With the corrected page a saved report comes back as the text area's
      value, so saving it again unchanged stores the same report. */
  lemma SavedResearchShown(text: string)
    ensures ResearchPrefill(Some(Research(text))) == text
    ensures Research(ResearchPrefill(Some(Research(text)))) == Research(text)
  {
  }

  /** Saving is refused exactly when the pasted text is blank; otherwise the
      text is kept as pasted, unstripped (lines 49-53). */
  function SavedResearch(text: string): (r: Option<Research>)
    ensures r.None? <==> Strip(text) == ""
    ensures r.Some? ==> r.value.content == text
  {
    if Strip(text) == "" then None else Some(Research(text))
  }
}
