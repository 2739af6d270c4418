/** The Streamlit session as one object: the workflow state `resume_state`
    and the other session keys the pages keep (validation flags, the question
    editor's working list, the posting text area, the strategy chat, the
    model choice). Every button of every page is a
    method whose precondition says that the button is on screen; each states
    the new session in full and keeps `Valid()`. */
module SessionModel {
  import opened Wrappers
  import opened Text
  import opened LlmUtil
  import opened State
  import opened Sidebar
  import opened ValidationChain
  import opened ValidationNode
  import opened InputForms
  import opened ResearchPage
  import opened StrategyPage
  import opened GuidelinesPage
  import opened WritingChain
  import opened EssayPage
  import opened ReviewChain
  import opened ReviewPage
  import opened FinalPage
  import opened TestHarness

  /** The session keys other than `resume_state`, as one value. A flag read
      with `get(..., False)` is false when absent; the others are None when
      absent. */
  datatype SessionKeys = SessionKeys(
    needValidation: bool,
    validationDone: bool,
    tempQuestions: Option<seq<EssayQuestion>>,
    questionsShared: bool,
    postingInput: Option<string>,
    strategyMessages: Option<seq<Message<string>>>,
    strategyInitialGenerated: bool,
    strategyModelIndex: nat)

  /** No key at all: a new or cleared session. */
  const NoKeys := SessionKeys(false, false, None, false, None, None, false, 0)

  /** The strategy chat and its controls are on screen: step 4 past its
      guard, the chat exists, and the first generation is not pending
      (step4_strategy.py:76-150). */
  predicate ChatOnScreen(r: ResumeState, k: SessionKeys) {
    && r.currentStep == 4 && StrategyReady(r) && k.strategyMessages.Some?
    && (k.strategyInitialGenerated || k.strategyMessages.value != [])
  }

  /** The keys after the run that draws the page of `r`: Streamlit deletes a
      keyed widget's value after a run that does not draw the widget. The
      posting area is drawn on step 1 only (input_forms.py:60-67), the model
      selector only with the chat (step4_strategy.py:158-169). */
  function AfterRun(r: ResumeState, k: SessionKeys): SessionKeys {
    k.(postingInput := if r.currentStep == 1 then k.postingInput else None,
       strategyModelIndex := if ChatOnScreen(r, k) then k.strategyModelIndex else 0)
  }

  /** The "keep or overwrite" dialog of the strategy page (step4_strategy.py:15-28). */
  datatype OverwriteChoice = KeepSaved | Overwrite | CloseDialog

  class Session {
    /** `st.session_state.resume_state`. */
    var resume: ResumeState
    /** The other keys of `st.session_state`. */
    var keys: SessionKeys

    /** What every handler keeps: the step is one of the wizard's, completed
        steps are 1..7 and listed once each, the guidelines key is always
        present (so the step-6 guard never fires), drafts never exist without
        their selections and feedbacks, the working list is never empty and,
        while shared, is the stored list, and the selected model exists; a
        widget's value is kept only while its page draws it. */
    ghost predicate Valid()
      reads this
    {
      && IsStep(resume.currentStep)
      && NoDuplicates(resume.completedSteps)
      && (forall x :: x in resume.completedSteps ==> 1 <= x <= 7)
      && !resume.writingGuidelines.Missing?
      && (resume.generatedDrafts.Some? ==> resume.draftSelections.Some? && resume.draftFeedbacks.Some?)
      && (keys.tempQuestions.Some? ==> keys.tempQuestions.value != [])
      && (keys.questionsShared ==> keys.tempQuestions.Some? && resume.essayQuestions == keys.tempQuestions)
      && (keys.strategyInitialGenerated ==> keys.strategyMessages.Some?)
      && keys.strategyModelIndex < ModelCount
      && (resume.currentStep != 1 ==> keys.postingInput.None?)
      && (!ChatOnScreen(resume, keys) ==> keys.strategyModelIndex == 0)
    }

    /** `init_session_state` on a new session (test.py:157-175). */
    constructor ()
      ensures Valid()
      ensures resume == InitialState && keys == NoKeys
    {
      resume := InitialState;
      keys := NoKeys;
    }

    /** `st.session_state.clear()` followed by the rerun's
        `init_session_state`: the test panel's reset and step 8's "start
        over". Every key goes. */
    method Reset()
      modifies this
      ensures Valid()
      ensures resume == InitialState && keys == NoKeys
    {
      resume := InitialState;
      keys := NoKeys;
    }

    // ---- navigation outside the pages ----

    /** A click on an enabled sidebar button (sidebar.py:46-48). */
    method SidebarClick(n: int)
      requires Valid() && IsStep(n) && !IsDisabled(n, resume.completedSteps)
      modifies this
      ensures Valid()
      ensures resume == old(resume).(currentStep := n) && keys == AfterRun(resume, old(keys))
      ensures n <= MaxAccessibleStep(resume.completedSteps)
    {
      ClickStaysReachable(n, resume.completedSteps);
      resume := resume.(currentStep := n);
      keys := AfterRun(resume, keys);
    }

    /** The test panel's step field (test.py:186-189), bounded to 1..8. */
    method ForceStep(target: int)
      requires Valid() && 1 <= target <= 8
      modifies this
      ensures Valid()
      ensures resume == old(resume).(currentStep := target) && keys == AfterRun(resume, old(keys))
    {
      if target != resume.currentStep {
        resume := resume.(currentStep := target);
      }
      keys := AfterRun(resume, keys);
    }

    /** A level button of the test panel (test.py:197-336) with data `f`. From
        Level 2.5 on the strategy chat is replaced by one AI message holding
        the strategy text. `state.update` puts a new question list in place,
        so the working list is no longer the stored one. */
    method LoadFixture(level: Level, f: Fixtures)
      requires Valid()
      modifies this
      ensures Valid()
      ensures resume == FixtureState(old(resume), level, f)
      ensures keys == AfterRun(resume,
                         if level == Level1 || level == Level2 then old(keys).(questionsShared := false)
                         else old(keys).(questionsShared := false, strategyInitialGenerated := true,
                                           strategyMessages := Some([Message(Ai, f.strategy.content)])))
    {
      FixtureStepReachable(resume, level, f);
      resume := FixtureState(resume, level, f);
      keys := keys.(questionsShared := false);
      if level != Level1 && level != Level2 {
        keys := keys.(strategyInitialGenerated := true, strategyMessages := Some([Message(Ai, f.strategy.content)]));
      }
      keys := AfterRun(resume, keys);
    }

    // ---- step 1 (step1_input.py, input_forms.py) ----

    /** The value the posting text area holds: what was typed or scraped into
        it, or else the stored posting it starts from. */
    function PostingWidget(): string
      reads this
    {
      keys.postingInput.GetOr(resume.jobPosting.GetOr(""))
    }

    /** Typing into the posting text area. */
    method TypePosting(text: string)
      requires Valid() && resume.currentStep == 1
      modifies this
      ensures Valid()
      ensures resume == old(resume) && keys == old(keys).(postingInput := Some(text))
      ensures PostingWidget() == text
    {
      keys := keys.(postingInput := Some(text));
    }

    /** The scrape button (input_forms.py:41-58): only a scraped, non-empty
        text reaches the text area. */
    method Scrape(urlInput: string, fetch: string -> Option<string>)
      requires Valid() && resume.currentStep == 1
      modifies this
      ensures Valid()
      ensures resume == old(resume)
      ensures var outcome := ScrapeButton(urlInput, fetch);
        keys == (if outcome.Scraped? then old(keys).(postingInput := Some(outcome.text)) else old(keys))
      ensures PostingWidget() != old(PostingWidget()) ==> PostingWidget() != ""
    {
      var outcome := ScrapeButton(urlInput, fetch);
      if outcome.Scraped? {
        keys := keys.(postingInput := Some(outcome.text));
      }
    }

    /** The start of the question form (input_forms.py:75-80): the working
        list is created once, sharing the stored list when there is one. */
    method OpenQuestionsForm(freshId: string)
      requires Valid() && resume.currentStep == 1
      modifies this
      ensures Valid()
      ensures resume == old(resume)
      ensures old(keys.tempQuestions).Some? ==> keys == old(keys)
      ensures old(keys.tempQuestions).None? ==>
        var (list, shared) := InitialWorkingList(resume.essayQuestions, freshId);
        keys == old(keys).(tempQuestions := Some(list), questionsShared := shared)
      ensures keys.tempQuestions.Some? && keys.tempQuestions.value != []
    {
      if keys.tempQuestions.None? {
        var (list, shared) := InitialWorkingList(resume.essayQuestions, freshId);
        keys := keys.(tempQuestions := Some(list), questionsShared := shared);
      }
    }

    /** The add button (input_forms.py:83-89): one blank question at the end,
        seen through the stored list as well while the two are shared. */
    method AddQuestion(freshId: string)
      requires Valid() && resume.currentStep == 1 && keys.tempQuestions.Some?
      modifies this
      ensures Valid()
      ensures keys.tempQuestions == Some(old(keys.tempQuestions.value) + [BlankQuestion(freshId)])
      ensures resume == (if keys.questionsShared then old(resume).(essayQuestions := keys.tempQuestions) else old(resume))
      ensures keys == old(keys).(tempQuestions := keys.tempQuestions)
    {
      keys := keys.(tempQuestions := Some(keys.tempQuestions.value + [BlankQuestion(freshId)]));
      if keys.questionsShared {
        resume := resume.(essayQuestions := keys.tempQuestions);
      }
    }

    /** One run of the question editor (input_forms.py:92-127): every question
        takes its widgets' text and limit in place, then the clicked delete
        button, if any and if offered, removes its question. */
    method EditQuestionForms(texts: seq<string>, limits: seq<nat>, clicked: Option<nat>)
      requires Valid() && resume.currentStep == 1 && keys.tempQuestions.Some?
      requires |texts| == |keys.tempQuestions.value| && |limits| == |keys.tempQuestions.value|
      modifies this
      ensures Valid()
      ensures var qs := old(keys.tempQuestions.value);
        keys.tempQuestions == Some(Unmarked(EditedAll(qs, texts, limits), DeleteMarks(|qs|, clicked)))
      ensures resume == (if keys.questionsShared then old(resume).(essayQuestions := keys.tempQuestions) else old(resume))
      ensures keys == old(keys).(tempQuestions := keys.tempQuestions)
    {
      var qs := keys.tempQuestions.value;
      var edited, toRemove := EditQuestions(qs, texts, limits, ClickSet(clicked));
      CollectedMarks(|qs|, clicked, toRemove);
      var kept := PopDescending(edited, toRemove);
      assert edited == EditedAll(qs, texts, limits);
      DeleteKeepsOne(edited, clicked);
      keys := keys.(tempQuestions := Some(kept));
      if keys.questionsShared {
        resume := resume.(essayQuestions := keys.tempQuestions);
      }
    }

    /** `_save_and_proceed` (step1_input.py:30-75), run after the forms: the
        four required fields are stripped and must all be non-empty, or
        nothing changes; otherwise the inputs are stored (the working list by
        reference), validation is requested and the wizard moves to step 2,
        whose run drops the posting area's value. */
    method SaveAndProceed(company: string, position: string, url: string, experience: string)
      requires Valid() && resume.currentStep == 1
      modifies this
      ensures Valid()
      ensures var posting := Strip(old(PostingWidget()));
        var ready := Strip(company) != "" && Strip(position) != "" && Strip(url) != "" && posting != "";
        && (!ready ==> resume == old(resume) && keys == old(keys))
        && (ready ==>
              && resume == old(resume).(companyName := Some(Strip(company)), positionName := Some(Strip(position)),
                                        jobPosting := Some(posting), jobPostingUrl := Some(Strip(url)),
                                        essayQuestions := if old(keys.tempQuestions).Some? then old(keys.tempQuestions) else old(resume.essayQuestions),
                                        userExperiences := Some(Strip(experience)), currentStep := 2,
                                        completedSteps := Complete(old(resume.completedSteps), 1))
              && keys == old(keys).(needValidation := true, validationDone := false,
                                        questionsShared := old(keys.tempQuestions).Some?, postingInput := None))
    {
      var cn, pn, ju, jc := Strip(company), Strip(position), Strip(url), Strip(PostingWidget());
      if cn == "" || pn == "" || ju == "" || jc == "" {
        return;
      }
      resume := resume.(companyName := Some(cn), positionName := Some(pn), jobPosting := Some(jc),
                        jobPostingUrl := Some(ju));
      if keys.tempQuestions.Some? {
        resume := resume.(essayQuestions := keys.tempQuestions);
        keys := keys.(questionsShared := true);
      }
      resume := resume.(userExperiences := Some(Strip(experience)));
      keys := keys.(needValidation := true, validationDone := false, postingInput := None);
      resume := resume.(currentStep := 2, completedSteps := Complete(resume.completedSteps, 1));
    }

    // ---- step 2 (step2_validation.py) ----

    /** The validation run on entering step 2 after a save (lines 12-22), with
        the corrected node: the update is merged into the state and the flags
        say that validation is done. */
    method RunValidation(chainAvailable: bool, llm: ValidationInput -> Result<ValidationResult, string>)
      requires Valid() && resume.currentStep == 2 && keys.needValidation
      modifies this
      ensures Valid()
      ensures resume == Merge(old(resume), ValidateInfo(old(resume), chainAvailable, llm))
      ensures keys == old(keys).(needValidation := false, validationDone := true)
      ensures AllPass(resume.validationStatus) <==>
        var v := ValidateResumeInput(old(resume), chainAvailable, llm);
        v.Success? && v.value.companyName.status == Sufficient && v.value.jobPosting.status == Sufficient
    {
      PassOnlyOnSufficient(resume, chainAvailable, llm);
      resume := Merge(resume, ValidateInfo(resume, chainAvailable, llm));
      keys := keys.(validationDone := true, needValidation := false);
    }

    /** Back to step 1 when no validation has been done (lines 33-38). */
    method BackUnvalidated()
      requires Valid() && resume.currentStep == 2 && !keys.needValidation && !keys.validationDone
      modifies this
      ensures Valid()
      ensures resume == old(resume).(currentStep := 1) && keys == old(keys)
      ensures PostingWidget() == resume.jobPosting.GetOr("")
    {
      resume := resume.(currentStep := 1);
    }

    /** Either back button after a validation (lines 58-65 when something is
        missing, 76-82 when all passed): step 1, and both flags cleared so
        that the next save validates again. */
    method BackToEdit()
      requires Valid() && resume.currentStep == 2 && !keys.needValidation && keys.validationDone
      modifies this
      ensures Valid()
      ensures resume == old(resume).(currentStep := 1)
      ensures keys == old(keys).(needValidation := false, validationDone := false)
      ensures PostingWidget() == resume.jobPosting.GetOr("")
    {
      resume := resume.(currentStep := 1);
      keys := keys.(validationDone := false, needValidation := false);
    }

    /** Start research (lines 84-93), offered only when every status passes. */
    method ProceedToResearch()
      requires Valid() && resume.currentStep == 2 && !keys.needValidation && keys.validationDone
      requires AllPass(resume.validationStatus)
      modifies this
      ensures Valid()
      ensures resume == old(resume).(currentStep := 3, completedSteps := Complete(old(resume.completedSteps), 2))
      ensures keys == old(keys)
    {
      resume := resume.(currentStep := 3, completedSteps := Complete(resume.completedSteps, 2));
    }

    // ---- step 3 (step3_research.py, with the corrected prefill) ----

    method ResearchBack()
      requires Valid() && resume.currentStep == 3
      modifies this
      ensures Valid()
      ensures resume == old(resume).(currentStep := 2) && keys == old(keys)
    {
      resume := resume.(currentStep := 2);
    }

    /** Save and go on (lines 48-64): a blank text only warns; any other text
        is stored as pasted and the wizard moves to step 4. */
    method SaveResearch(text: string)
      requires Valid() && resume.currentStep == 3
      modifies this
      ensures Valid()
      ensures keys == old(keys)
      ensures Strip(text) == "" ==> resume == old(resume)
      ensures Strip(text) != "" ==>
        resume == old(resume).(companyResearch := Some(Research(text)), currentStep := 4,
                               completedSteps := Complete(old(resume.completedSteps), 3))
    {
      var saved := SavedResearch(text);
      if saved.Some? {
        resume := resume.(companyResearch := saved, currentStep := 4,
                          completedSteps := Complete(resume.completedSteps, 3));
      }
    }

    // ---- step 4 (step4_strategy.py) ----

    /** The only button when the report or the posting is missing (lines 76-83). */
    method StrategyGuardBack()
      requires Valid() && resume.currentStep == 4 && !StrategyReady(resume)
      modifies this
      ensures Valid()
      ensures resume == old(resume).(currentStep := 3) && keys == old(keys)
    {
      resume := resume.(currentStep := 3);
    }

    /** The chat list is created once per session (lines 86-88). */
    method OpenChat()
      requires Valid() && resume.currentStep == 4 && StrategyReady(resume)
      modifies this
      ensures Valid()
      ensures resume == old(resume)
      ensures old(keys.strategyMessages).Some? ==> keys == old(keys)
      ensures old(keys.strategyMessages).None? ==>
        keys == old(keys).(strategyMessages := Some([]), strategyInitialGenerated := false)
    {
      if keys.strategyMessages.None? {
        keys := keys.(strategyMessages := Some([]), strategyInitialGenerated := false);
      }
    }

    /** The first strategy (lines 107-148), asked of the selected model only
        while nothing was generated and the chat is empty; a failure leaves
        the chat as it was. */
    method GenerateInitialStrategy(llm: InitialStrategyModel)
      requires Valid() && resume.currentStep == 4 && StrategyReady(resume)
      requires keys.strategyMessages == Some([]) && !keys.strategyInitialGenerated
      modifies this
      ensures Valid()
      ensures resume == old(resume)
      ensures old(keys.strategyModelIndex) == 0
      ensures var answer := llm(SelectedModel(old(keys.strategyModelIndex)), StrategyInputOf(old(resume)));
        && (answer.Success? ==> keys == old(keys).(strategyMessages := Some([Message(Ai, answer.value)]),
                                                        strategyInitialGenerated := true))
        && (answer.Failure? ==> keys == old(keys))
    {
      var answer := llm(SelectedModel(keys.strategyModelIndex), StrategyInputOf(resume));
      if answer.Success? {
        keys := keys.(strategyMessages := Some([Message(Ai, answer.value)]), strategyInitialGenerated := true);
      }
    }

    /** The chat and its controls are on screen: the guard passed, the chat
        exists, and the first generation is not pending. */
    ghost predicate ChatShown()
      reads this
    {
      ChatOnScreen(resume, keys)
    }

    /** The model selector (lines 158-169): an index into the model table. */
    method SelectModel(index: nat)
      requires Valid() && ChatShown() && index < ModelCount
      modifies this
      ensures Valid()
      ensures resume == old(resume) && keys == old(keys).(strategyModelIndex := index)
    {
      keys := keys.(strategyModelIndex := index);
    }

    /** Back to step 3 (lines 176-178), whose run drops the selector's value. */
    method StrategyBack()
      requires Valid() && ChatShown()
      modifies this
      ensures Valid()
      ensures resume == old(resume).(currentStep := 3) && keys == old(keys).(strategyModelIndex := 0)
    {
      resume := resume.(currentStep := 3);
      keys := keys.(strategyModelIndex := 0);
    }

    /** `_save_strategy` (lines 30-55): the extracted strategy, carrying the
        chat text, is stored, step 4 completed and step 5 opened (whose run
        drops the selector's value); a failed extraction changes nothing. */
    method SaveStrategy(content: string, extract: ExtractionModel)
      requires Valid() && resume.currentStep == 4
      modifies this
      ensures Valid()
      ensures keys == (if resume.currentStep == 5 then old(keys).(strategyModelIndex := 0) else old(keys))
      ensures var saved := ExtractedStrategy(extract, content);
        && (saved.Some? ==> resume == old(resume).(writingStrategy := saved, currentStep := 5,
                                                   completedSteps := Complete(old(resume.completedSteps), 4)))
        && (saved.None? ==> resume == old(resume))
    {
      var saved := ExtractedStrategy(extract, content);
      if saved.Some? {
        resume := resume.(writingStrategy := saved, currentStep := 5,
                          completedSteps := Complete(resume.completedSteps, 4));
        keys := keys.(strategyModelIndex := 0);
      }
    }

    /** The confirm button (lines 181-196): the latest AI message is saved at
        once when no strategy is stored; otherwise the dialog decides, and
        "keep" moves on to step 5 without touching the stored strategy or the
        completed steps. */
    method ConfirmStrategy(choice: OverwriteChoice, extract: ExtractionModel)
      requires Valid() && ChatShown()
      modifies this
      ensures Valid()
      ensures keys == (if resume.currentStep == 5 then old(keys).(strategyModelIndex := 0) else old(keys))
      ensures var text := ConfirmedText(old(keys.strategyMessages.value));
        var save := text.Some? && (old(resume.writingStrategy).None? || choice == Overwrite);
        var saved := if save then ExtractedStrategy(extract, text.value) else None;
        resume == (if saved.Some? then
                     old(resume).(writingStrategy := saved, currentStep := 5,
                                  completedSteps := Complete(old(resume.completedSteps), 4))
                   else if text.Some? && old(resume.writingStrategy).Some? && choice == KeepSaved then
                     old(resume).(currentStep := 5)
                   else old(resume))
    {
      var last := FindLastAi(keys.strategyMessages.value);
      if last.None? || last.value == "" {
        return;
      }
      if resume.writingStrategy.Some? {
        if choice == KeepSaved {
          resume := resume.(currentStep := 5);
          keys := keys.(strategyModelIndex := 0);
        } else if choice == Overwrite {
          SaveStrategy(last.value, extract);
        }
      } else {
        SaveStrategy(last.value, extract);
      }
    }

    /** A chat request (lines 199-234): the request joins the chat at once;
        the answer of the selected model, given the chat before the request,
        follows it unless the call failed. An empty input sends nothing. */
    method SendFeedback(input: string, llm: FeedbackModel)
      requires Valid() && ChatShown()
      modifies this
      ensures Valid()
      ensures resume == old(resume)
      ensures var ms := old(keys.strategyMessages.value);
        var answer := llm(SelectedModel(old(keys.strategyModelIndex)), ms, input);
        keys.strategyMessages == Some(if input == "" then ms
                                 else ms + [Message(Human, input)] +
                                      (if answer.Success? then [Message(Ai, answer.value)] else []))
      ensures keys == old(keys).(strategyMessages := keys.strategyMessages)
    {
      if input == "" {
        return;
      }
      var history := keys.strategyMessages.value;
      keys := keys.(strategyMessages := Some(history + [Message(Human, input)]));
      var answer := llm(SelectedModel(keys.strategyModelIndex), history, input);
      if answer.Success? {
        keys := keys.(strategyMessages := Some(history + [Message(Human, input)] + [Message(Ai, answer.value)]));
      } else {
        assert history + [Message(Human, input)] + [] == history + [Message(Human, input)];
      }
    }

    // ---- step 5 (step5_guidelines.py) ----

    /** Entering the page (lines 15-16): a missing, None or empty guideline
        becomes the default text. */
    method EnterGuidelines()
      requires Valid() && resume.currentStep == 5
      modifies this
      ensures Valid()
      ensures resume == old(resume).(writingGuidelines := GuidelinesOnEntry(old(resume.writingGuidelines)))
      ensures keys == old(keys)
      ensures GuidelinesEntered()
    {
      resume := resume.(writingGuidelines := GuidelinesOnEntry(resume.writingGuidelines));
    }

    /** The page's buttons are on screen once the guideline is set. */
    ghost predicate GuidelinesEntered()
      reads this
    {
      resume.currentStep == 5 && resume.writingGuidelines.Value? && resume.writingGuidelines.value != ""
    }

    /** The update button (lines 37-45): only a reviewed text replaces the
        guideline. */
    method SubmitGuidelines(edited: string, review: GuidelineReviewer)
      requires Valid() && GuidelinesEntered()
      modifies this
      ensures Valid()
      ensures keys == old(keys)
      ensures var u := UpdateGuidelines(old(resume.writingGuidelines.value), edited, review);
        resume == (if u.Reviewed? then old(resume).(writingGuidelines := Value(u.text)) else old(resume))
    {
      var u := UpdateGuidelines(resume.writingGuidelines.value, edited, review);
      if u.Reviewed? {
        resume := resume.(writingGuidelines := Value(u.text));
      }
    }

    method GuidelinesBack()
      requires Valid() && GuidelinesEntered()
      modifies this
      ensures Valid()
      ensures resume == old(resume).(currentStep := 4) && keys == old(keys)
      ensures keys.strategyModelIndex == 0
    {
      resume := resume.(currentStep := 4);
    }

    /** Proceed (lines 57-63): the text area's content is stored as it is,
        even when emptied, and the wizard moves to step 6. */
    method ProceedToDrafts(edited: string)
      requires Valid() && GuidelinesEntered()
      modifies this
      ensures Valid()
      ensures resume == old(resume).(writingGuidelines := Value(edited), currentStep := 6,
                                     completedSteps := Complete(old(resume.completedSteps), 5))
      ensures keys == old(keys)
    {
      resume := resume.(writingGuidelines := Value(edited), currentStep := 6,
                        completedSteps := Complete(resume.completedSteps, 5));
    }

    // ---- step 6 (step6_essay.py) ----

    /** The one-time generation (lines 25-45): with the two fixed models; on
        success the drafts, the model list, selection 0 and empty feedback for
        every draft key are stored, on failure nothing. */
    method GenerateDraftPairs(llm: DraftModel)
      requires Valid() && resume.currentStep == 6 && resume.generatedDrafts.None?
      modifies this
      ensures Valid()
      ensures keys == old(keys)
      ensures var n := |Questions(old(resume))|;
        var failed := exists i, j :: (0 <= i < n && 0 <= j < |DraftModelsUsed| &&
          SingleDraft(llm, old(resume), Questions(old(resume))[i], DraftModelsUsed[j]).Failure?);
        && (failed ==> resume == old(resume))
        && (!failed ==>
              && resume.generatedDrafts.Some? && resume.generatedDrafts.value.Keys == KeysBelow(n)
              && resume == old(resume).(generatedDrafts := resume.generatedDrafts, draftModels := Some(DraftModelsUsed),
                                        draftSelections := Some(ZeroSelections(KeysBelow(n))),
                                        draftFeedbacks := Some(BlankFeedbacks(KeysBelow(n))))
              && (forall i :: 0 <= i < n ==> |resume.generatedDrafts.value[Key(i)]| == |DraftModelsUsed|)
              && (forall i, j :: 0 <= i < n && 0 <= j < |DraftModelsUsed| ==>
                    resume.generatedDrafts.value[Key(i)][j] ==
                    SingleDraft(llm, old(resume), Questions(old(resume))[i], DraftModelsUsed[j]).value)
              && (forall i :: 0 <= i < n ==> ShownDrafts(resume.generatedDrafts.value, i).Some?))
    {
      DraftModelsListed();
      var r := GenerateDrafts(llm, resume, DraftModelsUsed);
      if r.Failure? {
        return;
      }
      var drafts := r.value;
      forall i | 0 <= i < |Questions(resume)| ensures ShownDrafts(drafts, i).Some? {
        GeneratedDraftsShown(drafts, |Questions(resume)|, i);
      }
      resume := resume.(generatedDrafts := Some(drafts), draftModels := Some(DraftModelsUsed),
                        draftSelections := Some(ZeroSelections(drafts.Keys)),
                        draftFeedbacks := Some(BlankFeedbacks(drafts.Keys)));
    }

    /** The form's submit (lines 111-131), offered once every question's pair
        of drafts is on screen: each question's radio choice (0 or 1) and
        feedback are written under its key, 6 is completed and step 7 opens. */
    method SubmitChoices(picks: seq<nat>, texts: seq<string>)
      requires Valid() && resume.currentStep == 6 && resume.generatedDrafts.Some?
      requires forall i :: 0 <= i < |Questions(resume)| ==> ShownDrafts(resume.generatedDrafts.value, i).Some?
      requires |picks| == |Questions(resume)| && |texts| == |picks|
      requires forall i :: 0 <= i < |picks| ==> picks[i] <= 1
      modifies this
      ensures Valid()
      ensures keys == old(keys)
      ensures resume.draftSelections.Some? && resume.draftFeedbacks.Some?
      ensures resume == old(resume).(draftSelections := resume.draftSelections, draftFeedbacks := resume.draftFeedbacks,
                                     currentStep := 7, completedSteps := Complete(old(resume.completedSteps), 6))
      ensures var sel, fb := resume.draftSelections.value, resume.draftFeedbacks.value;
        && sel.Keys == old(resume.draftSelections.value).Keys + KeysBelow(|picks|)
        && fb.Keys == old(resume.draftFeedbacks.value).Keys + KeysBelow(|picks|)
        && (forall i :: 0 <= i < |picks| ==> sel[Key(i)] == picks[i] && fb[Key(i)] == texts[i])
    {
      var sel, fb := RecordChoices(resume.draftSelections.value, resume.draftFeedbacks.value, picks, texts);
      resume := resume.(draftSelections := Some(sel), draftFeedbacks := Some(fb),
                        currentStep := 7, completedSteps := Complete(resume.completedSteps, 6));
    }

    /** The back button under the form (lines 134-136). */
    method DraftsBack()
      requires Valid() && resume.currentStep == 6 && resume.generatedDrafts.Some?
      requires forall i :: 0 <= i < |Questions(resume)| ==> ShownDrafts(resume.generatedDrafts.value, i).Some?
      modifies this
      ensures Valid()
      ensures resume == old(resume).(currentStep := 5) && keys == old(keys)
    {
      resume := resume.(currentStep := 5);
    }

    // ---- step 7 (step7_review.py) ----

    /** The only button before any selection exists (lines 11-16). */
    method ReviewGuardBack()
      requires Valid() && resume.currentStep == 7 && resume.draftSelections.None?
      modifies this
      ensures Valid()
      ensures resume == old(resume).(currentStep := 6) && keys == old(keys)
    {
      resume := resume.(currentStep := 6);
    }

    /** The generate button (lines 32-40): the final texts replace the stored
        ones; a failing question changes nothing. */
    method GenerateFinal(llm: ReviewModel)
      requires Valid() && resume.currentStep == 7 && resume.draftSelections.Some?
      modifies this
      ensures Valid()
      ensures keys == old(keys)
      ensures var n := |Questions(old(resume))|;
        var failed := exists i :: 0 <= i < n && FinalDraft(llm, old(resume), i).Failure?;
        && (failed ==> resume == old(resume))
        && (!failed ==>
              && resume.confirmedEssays.Some? && resume == old(resume).(confirmedEssays := resume.confirmedEssays)
              && resume.confirmedEssays.value.Keys == KeysBelow(n)
              && (forall i :: 0 <= i < n ==> Success(resume.confirmedEssays.value[Key(i)]) == FinalDraft(llm, old(resume), i)))
    {
      var r := GenerateFinalEssays(llm, resume);
      if r.Success? {
        resume := resume.(confirmedEssays := Some(r.value));
      }
    }

    method ReviewBack()
      requires Valid() && resume.currentStep == 7 && resume.draftSelections.Some? && resume.confirmedEssays.Some?
      modifies this
      ensures Valid()
      ensures resume == old(resume).(currentStep := 6) && keys == old(keys)
    {
      resume := resume.(currentStep := 6);
    }

    /** Confirm (lines 78-91): every non-empty text area overwrites its
        question's final text, 7 is completed and the result page opens. */
    method ConfirmEssays(edits: seq<string>)
      requires Valid() && resume.currentStep == 7 && resume.draftSelections.Some? && resume.confirmedEssays.Some?
      requires |edits| == |Questions(resume)|
      modifies this
      ensures Valid()
      ensures keys == old(keys)
      ensures resume.confirmedEssays.Some?
      ensures resume == old(resume).(confirmedEssays := resume.confirmedEssays, currentStep := 8,
                                     completedSteps := Complete(old(resume.completedSteps), 7))
      ensures var before, after := old(resume.confirmedEssays.value), resume.confirmedEssays.value;
        && after.Keys == before.Keys + EditedKeys(edits)
        && (forall i :: 0 <= i < |edits| && edits[i] != "" ==> after[Key(i)] == edits[i])
        && (forall k :: k in before && k !in EditedKeys(edits) ==> after[k] == before[k])
    {
      var essays := ApplyEssayEdits(resume.confirmedEssays.value, edits);
      resume := resume.(confirmedEssays := Some(essays), currentStep := 8,
                        completedSteps := Complete(resume.completedSteps, 7));
    }

    // ---- step 8 (step8_final.py) ----

    /** The only button while no final text is stored (lines 11-16). */
    method FinalGuardBack()
      requires Valid() && resume.currentStep == 8 && !FinalReady(resume.confirmedEssays)
      modifies this
      ensures Valid()
      ensures resume == old(resume).(currentStep := 7) && keys == old(keys)
    {
      resume := resume.(currentStep := 7);
    }
  }
}
