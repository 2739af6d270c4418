/** chains/validation_chain.py: the checks `validate_resume_input` makes before
    it asks the model whether the input is good enough, and the structured
    answer the model gives. */
module ValidationChain {
  import opened Wrappers
  import opened Text
  import opened State

  /** `ValidationItem.status`: 충분 (sufficient), 부족 (insufficient) or
      불명확 (unclear). */
  datatype ItemStatus = Sufficient | Insufficient | Unclear

  function StatusText(s: ItemStatus): (r: string)
    ensures r in {"충분", "부족", "불명확"}
  {
    match s
    case Sufficient => "충분"
    case Insufficient => "부족"
    case Unclear => "불명확"
  }

  lemma StatusTextInjective(a: ItemStatus, b: ItemStatus)
    ensures StatusText(a) == StatusText(b) <==> a == b
  {
  }

  datatype OverallStatus = Pass | Fail

  datatype ValidationItem = ValidationItem(status: ItemStatus, reason: string)

  datatype ValidationResult = ValidationResult(
    companyName: ValidationItem,
    jobPosting: ValidationItem,
    cleanedJobPosting: string,
    overallStatus: OverallStatus,
    additionalQuestions: seq<string>)

  /** What the chain is invoked with. */
  datatype ValidationInput = ValidationInput(companyName: string, positionName: string, jobPosting: string)

  /** Why `validate_resume_input` raised. */
  datatype ValidationError =
    | ExperienceTooShort
    | NoQuestions
    | NoJobPosting
    | LlmSetupError
    | ModelError(message: string)

  /** The text of each ValueError, and the message of a model call that raised. */
  function ErrorText(e: ValidationError): string {
    match e
    case ExperienceTooShort => "사용자 경험/경력 정보가 부족합니다. 최소 50자 이상의 경험을 입력해주세요."
    case NoQuestions => "자기소개서 문항이 없습니다. 최소 1개 이상의 문항을 입력해주세요."
    case NoJobPosting => "채용공고 내용이 없습니다. 채용공고 URL을 스크래핑하거나 직접 입력해주세요."
    case LlmSetupError => "LLM 설정 오류"
    case ModelError(m) => m
  }

  /** The least number of characters the stripped experience text must have. */
  const MinExperienceLength := 50

  predicate ExperienceOk(s: ResumeState) {
    |Strip(s.userExperiences.GetOr(""))| >= MinExperienceLength
  }

  predicate HasQuestions(s: ResumeState) {
    Questions(s) != []
  }

  predicate HasPosting(s: ResumeState) {
    Strip(s.jobPosting.GetOr("")) != []
  }

  /** `validate_resume_input`. `chainAvailable` is false when
      `create_validation_chain` could not build its model, and `llm` is the
      structured model call, which may raise. The three checks run in order
      (experience, questions, posting) and the first that fails is the error;
      the model is only reached when all three pass. */
  function ValidateResumeInput(s: ResumeState, chainAvailable: bool,
                               llm: ValidationInput -> Result<ValidationResult, string>)
    : (r: Result<ValidationResult, ValidationError>)
    ensures r == Failure(ExperienceTooShort) <==> !ExperienceOk(s)
    ensures r == Failure(NoQuestions) <==> ExperienceOk(s) && !HasQuestions(s)
    ensures r == Failure(NoJobPosting) <==> ExperienceOk(s) && HasQuestions(s) && !HasPosting(s)
    ensures r == Failure(LlmSetupError) <==> ExperienceOk(s) && HasQuestions(s) && HasPosting(s) && !chainAvailable
    ensures r.Success? ==> ExperienceOk(s) && HasQuestions(s) && HasPosting(s) && chainAvailable
    ensures (ExperienceOk(s) && HasQuestions(s) && HasPosting(s) && chainAvailable) ==>
      var answer := llm(ValidationInput(s.companyName.GetOr(""), s.positionName.GetOr(""), s.jobPosting.GetOr("")));
      (answer.Success? ==> r == Success(answer.value)) && (answer.Failure? ==> r == Failure(ModelError(answer.error)))
  {
    var exp := s.userExperiences.GetOr("");
    if exp == "" || |Strip(exp)| < MinExperienceLength then Failure(ExperienceTooShort)
    else if Questions(s) == [] then Failure(NoQuestions)
    else if Strip(s.jobPosting.GetOr("")) == [] then Failure(NoJobPosting)
    else if !chainAvailable then Failure(LlmSetupError)
    else
      var answer := llm(ValidationInput(s.companyName.GetOr(""), s.positionName.GetOr(""), s.jobPosting.GetOr("")));
      match answer
      case Success(v) => Success(v)
      case Failure(e) => Failure(ModelError(e))
  }

  /** Experience of exactly 50 characters once stripped passes the first check,
      49 does not, and surrounding whitespace never counts. */
  lemma ExperienceBoundary(s: ResumeState, core: string, pad: string)
    requires core != [] && !IsSpace(core[0]) && !IsSpace(core[|core| - 1])
    requires SpaceBetween(pad, 0, |pad|)
    requires s.userExperiences == Some(pad + core + pad)
    ensures ExperienceOk(s) <==> |core| >= 50
  {
    StripAroundCore(pad, core);
  }

  lemma StripAroundCore(pad: string, core: string)
    requires core != [] && !IsSpace(core[0]) && !IsSpace(core[|core| - 1])
    requires SpaceBetween(pad, 0, |pad|)
    ensures Strip(pad + core + pad) == core
  {
    var t := pad + core + pad;
    var lo := |t| - |StripLeft(t)|;
    var r := Strip(t);
    assert t[|pad|] == core[0];
    assert t[|pad| + |core| - 1] == core[|core| - 1];
    assert lo == |pad|;
    assert |r| == |core|;
    assert t[|pad|..|pad| + |core|] == core;
  }
}
