/** workflow/nodes/validation_node.py: `validate_info` turns a validation
    result into an update of the workflow state and turns every exception
    into a message. Both the node as written and the corrected node are here;
    see the findings in the README. */
module ValidationNode {
  import opened Wrappers
  import opened Text
  import opened State
  import opened ValidationChain

  /** The dict `validate_info` returns: a key is None when the dict lacks it. */
  datatype StateUpdate = StateUpdate(
    validationStatus: Option<map<string, string>>,
    additionalQuestions: seq<string>,
    jobPosting: Option<string>)

  /** `state.update(result)`: the keys of the update replace those of the state. */
  function Merge(s: ResumeState, u: StateUpdate): (r: ResumeState)
    ensures r.validationStatus == (if u.validationStatus.Some? then u.validationStatus else s.validationStatus)
    ensures r.jobPosting == (if u.jobPosting.Some? then u.jobPosting else s.jobPosting)
    ensures r.additionalQuestions == Some(u.additionalQuestions)
    ensures r.(validationStatus := s.validationStatus, jobPosting := s.jobPosting,
               additionalQuestions := s.additionalQuestions) == s
  {
    s.(validationStatus := if u.validationStatus.Some? then u.validationStatus else s.validationStatus,
       jobPosting := if u.jobPosting.Some? then u.jobPosting else s.jobPosting,
       additionalQuestions := Some(u.additionalQuestions))
  }

  /** The status map built from a successful result. */
  function StatusMap(v: ValidationResult): (m: map<string, string>)
    ensures m.Keys == {"company_name", "job_posting"}
    ensures m["company_name"] == StatusText(v.companyName.status)
    ensures m["job_posting"] == StatusText(v.jobPosting.status)
  {
    map["company_name" := StatusText(v.companyName.status), "job_posting" := StatusText(v.jobPosting.status)]
  }

  function ErrorMessage(e: ValidationError): string {
    "시스템 에러가 발생했습니다: " + ErrorText(e)
  }

  /** `validate_info` as written: on success the two statuses, the questions
      and the cleaned posting; on any exception only the question list with
      one error message. */
  function ValidateInfoAsWritten(s: ResumeState, chainAvailable: bool,
                                 llm: ValidationInput -> Result<ValidationResult, string>)
    : (u: StateUpdate)
    ensures var v := ValidateResumeInput(s, chainAvailable, llm);
      && (v.Success? ==> u == StateUpdate(Some(StatusMap(v.value)), v.value.additionalQuestions,
                                          Some(v.value.cleanedJobPosting)))
      && (v.Failure? ==> u == StateUpdate(None, [ErrorMessage(v.error)], None))
  {
    match ValidateResumeInput(s, chainAvailable, llm)
    case Success(v) => StateUpdate(Some(StatusMap(v)), v.additionalQuestions, Some(v.cleanedJobPosting))
    case Failure(e) => StateUpdate(None, [ErrorMessage(e)], None)
  }

  /** Step 2's `all_pass`: every recorded status is 충분; an absent or empty
      map passes. */
  predicate AllPass(status: Option<map<string, string>>) {
    forall k :: k in status.GetOr(map[]) ==> status.GetOr(map[])[k] == "충분"
  }

  /** The finding: with the node as written, a validation that raises (here:
      experience too short) leaves the empty status map of a fresh session in
      place, and step 2 then lets the user go on. */
  lemma FailedValidationPassesAsWritten(s: ResumeState, chainAvailable: bool,
                                        llm: ValidationInput -> Result<ValidationResult, string>)
    requires s.validationStatus == Some(map[])
    requires ValidateResumeInput(s, chainAvailable, llm).Failure?
    ensures AllPass(Merge(s, ValidateInfoAsWritten(s, chainAvailable, llm)).validationStatus)
  {
  }

  /** A concrete instance: the fresh state, which has no experience at all. */
  lemma FreshSessionFailurePasses(chainAvailable: bool,
                                  llm: ValidationInput -> Result<ValidationResult, string>)
    ensures ValidateResumeInput(InitialState, chainAvailable, llm) == Failure(ExperienceTooShort)
    ensures AllPass(Merge(InitialState, ValidateInfoAsWritten(InitialState, chainAvailable, llm)).validationStatus)
  {
    var s := InitialState;
    assert !ExperienceOk(s) by {
      assert s.userExperiences.GetOr("") == "";
      assert |Strip("")| == 0;
    }
    assert s.validationStatus == Some(map[]);
    FailedValidationPassesAsWritten(s, chainAvailable, llm);
  }

  /** The status recorded when validation could not be carried out. */
  const UnclearStatus: map<string, string> :=
    map["company_name" := StatusText(Unclear), "job_posting" := StatusText(Unclear)]

  /** `validate_info` as evidently intended ("treat everything as unclear" on
      error): a failure also records both statuses as 불명확. */
  function ValidateInfo(s: ResumeState, chainAvailable: bool,
                        llm: ValidationInput -> Result<ValidationResult, string>)
    : (u: StateUpdate)
    ensures u.validationStatus.Some? && u.validationStatus.value.Keys == {"company_name", "job_posting"}
    ensures var v := ValidateResumeInput(s, chainAvailable, llm);
      && (v.Success? ==> u == StateUpdate(Some(StatusMap(v.value)), v.value.additionalQuestions,
                                          Some(v.value.cleanedJobPosting)))
      && (v.Failure? ==> u == StateUpdate(Some(UnclearStatus), [ErrorMessage(v.error)], None))
  {
    match ValidateResumeInput(s, chainAvailable, llm)
    case Success(v) => StateUpdate(Some(StatusMap(v)), v.additionalQuestions, Some(v.cleanedJobPosting))
    case Failure(e) => StateUpdate(Some(UnclearStatus), [ErrorMessage(e)], None)
  }

  /** With the corrected node, step 2 lets the user on exactly when validation
      succeeded and the model judged both items 충분, whatever was stored
      before. */
  lemma PassOnlyOnSufficient(s: ResumeState, chainAvailable: bool,
                             llm: ValidationInput -> Result<ValidationResult, string>)
    ensures var v := ValidateResumeInput(s, chainAvailable, llm);
      AllPass(Merge(s, ValidateInfo(s, chainAvailable, llm)).validationStatus) <==>
        v.Success? && v.value.companyName.status == Sufficient && v.value.jobPosting.status == Sufficient
  {
    var v := ValidateResumeInput(s, chainAvailable, llm);
    var merged := Merge(s, ValidateInfo(s, chainAvailable, llm)).validationStatus;
    var st := merged.value;
    assert merged == Some(st) && merged.GetOr(map[]) == st;
    assert "company_name" in st && "job_posting" in st;
    if v.Success? {
      assert st == StatusMap(v.value);
      StatusTextInjective(v.value.companyName.status, Sufficient);
      StatusTextInjective(v.value.jobPosting.status, Sufficient);
      if st["company_name"] == "충분" && st["job_posting"] == "충분" {
        forall k | k in st ensures st[k] == "충분" {
          assert k in st.Keys;
        }
      }
    } else {
      assert st["company_name"] == "불명확";
    }
  }
}
