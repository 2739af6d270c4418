# Resume assistant wizard: a Dafny model

The modelled system is a Streamlit application that walks a job applicant through
eight steps, from a job posting to finished cover-letter answers. The steps are:

1. Input: company, position, posting (typed or scraped from a URL), essay
   questions and experience.
2. Validation: code-level checks, then a model judges company and posting.
3. Research: the user pastes an external research report.
4. Strategy: a chat with a selectable model.
5. Guidelines: a writing guide, reviewed by a model when edited.
6. Drafts: two drafts per question from two fixed models; the user picks
   one and leaves feedback.
7. Review: the final texts are generated and can be edited.
8. Result: everything is shown.

A sidebar lets the user jump back to any reached step. The wizard runs from
the test entry point `test.py`, whose panel also injects fixed data sets
("levels") that skip the model calls. The deployed entry point
`streamlit_app.py` puts an access-key gate in front of `app.main`, which only
draws a title and a welcome line; that gate is modelled on its own session
(`AccessGate.GateSession`), since nothing gates the wizard.

The model has one module per source component, plus:

- `SessionModel`, the Streamlit session as a class. Its field `resume` is
  `resume_state`. Its field `keys` holds the other session keys: the
  validation flags, the question editor's working list, the posting text
  area, the strategy chat and the model index. A keyed widget's value lives
  only while its page draws it, as in Streamlit: leaving step 1 drops the
  posting area's value, and hiding the chat drops the model choice.
- `Text`, the Python string operations the code relies on: `strip`,
  `split`, `join`, `str(n)` and `isspace`.

Every page button is a method of `Session`:

- Its precondition says the button is on screen.
- Its postcondition gives the complete new session.
- It preserves `Valid()`. That invariant says, among other things, that the
  step is one of 1..8, that completed steps are listed once each, and that
  the question editor's working list, while it is shared with the stored
  list, is that list.

Model calls, the network and the clock are parameters: a model is a function
returning `Result`, and a failure stands for the exception it raised.

## Model

| member | source | states |
|---|---|---|
| Text.Strip | tools/web_scraper.py:35-36 | `str.strip()`: the result is a contiguous piece of the input, neither of its ends is whitespace, and everything cut away on either side is whitespace |
| Text.StripEmptyIffAllSpace | chains/validation_chain.py:121-123 | `not s.strip()` holds exactly when every character of `s` is whitespace |
| Text.SplitJoin | tools/web_scraper.py:37 | joining pieces without the separator and splitting again returns the same pieces in the same order |
| Text.NatToString | chains/writing_chain.py:108 | `str(n)` is a non-empty string of decimal digits, one digit exactly for n < 10 |
| Text.NatToStringInjective | chains/writing_chain.py:108 | different numbers print differently, so the 1-based question keys never collide |
| WebScraper.Lines | tools/web_scraper.py:35 | cutting at line breaks leaves no newline inside a piece |
| WebScraper.Phrases | tools/web_scraper.py:36 | `line.split("  ")`: the first phrase is a prefix of the line and no phrase contains a double space |
| WebScraper.StripKeepsClean | tools/web_scraper.py:36 | stripping a phrase keeps it free of double spaces and newlines |
| WebScraper.Chunks | tools/web_scraper.py:35-37 | every chunk that survives the filter is non-empty, trimmed, and free of double spaces and newlines |
| WebScraper.CleanTextIsChunkLines | tools/web_scraper.py:35-37 | the cleaned text split at newlines gives back exactly the chunks, in line-then-phrase order; no chunks give "" |
| WebScraper.BlankLineDropped | tools/web_scraper.py:35-37 | a whitespace-only line contributes nothing to the cleaned text |
| WebScraper.EmptyPhraseDropped | tools/web_scraper.py:36-37 | an empty phrase is filtered out |
| WebScraper.ScrapeJobPosting | tools/web_scraper.py:7-46 | None exactly when the request or parsing failed, otherwise the cleaned page text |
| LlmUtil.ModelKeysListTable | tools/llm_util.py:10-18 | the ordered model list holds exactly the table's models, each once |
| LlmUtil.GetProviderForModel | tools/llm_util.py:31-45 | success exactly for a listed model, with provider google_genai or openai; any other name gives the "지원하지 않는 모델입니다" error naming the model |
| LlmUtil.ProviderFollowsModelFamily | tools/llm_util.py:10-18 | a listed model is served by google_genai exactly when its name starts with "gemini-" |
| LlmUtil.ItemTexts | tools/llm_util.py:64-72 | one text per list element, in order: the "text" entry, the `.text` attribute, the string itself, or `str(item)` |
| LlmUtil.ParseLlmResponseContent | tools/llm_util.py:47-78 | the loop computes the content's text: a string as is, a list joined with newlines, a dict's "text", otherwise `str()` |
| LlmUtil.ListContentLines | tools/llm_util.py:62-73 | a list response gives one line per element, in order, when no element text holds a newline; an empty list gives "" |
| LlmUtil.BlockList | tools/llm_util.py:84-90 | one header-and-content block per message, in message order, with SYSTEM PROMPT, USER PROMPT or the message type as header |
| LlmUtil.StartsWithFirstHeader | tools/llm_util.py:80-92 | the stripped text of a non-empty message list begins with the first message's header |
| LlmUtil.FormattedTextShape | tools/llm_util.py:80-92 | the stripped blocks never begin or end with whitespace, are "" for no messages and otherwise begin with the first message's header |
| LlmUtil.FormatMessagesToText | tools/llm_util.py:80-92 | the loop's result is the stripped concatenation of the blocks, in message order |
| State.Key | chains/writing_chain.py:108 | `str(i + 1)` is a non-empty digit string |
| State.KeyInjective | chains/review_chain.py:50 | two questions have the same key exactly when they are the same question |
| State.Complete | ui/pages/step2_validation.py:88-91 | the step is added once: it is then completed, nothing else is added, and a list without duplicates stays without duplicates |
| ValidationChain.StatusText | chains/validation_chain.py:10 | a status prints as 충분, 부족 or 불명확 |
| ValidationChain.StatusTextInjective | chains/validation_chain.py:10 | the three statuses print differently |
| ValidationChain.ValidateResumeInput | chains/validation_chain.py:95-139 | the checks run in order (experience of at least 50 stripped characters, at least one question, a non-blank posting, an available chain); the first that fails is the error; only when all pass is the model called, and its answer or exception is the result |
| ValidationChain.ExperienceBoundary | chains/validation_chain.py:107-112 | surrounding whitespace never counts: a padded text passes exactly when its core has at least 50 characters |
| ValidationNode.Merge | ui/pages/step2_validation.py:19 | `state.update`: keys present in the update replace the state's, every other key is unchanged |
| ValidationNode.StatusMap | workflow/nodes/validation_node.py:13-16 | exactly the keys company_name and job_posting, each with its item's status text |
| ValidationNode.ValidateInfoAsWritten | workflow/nodes/validation_node.py:4-31 | success: statuses, questions and cleaned posting; any failure: only the one-line error question, no status |
| ValidationNode.FailedValidationPassesAsWritten | workflow/nodes/validation_node.py:26-31 | as written, a failed validation on a session with the empty status map leaves step 2's all-pass check true |
| ValidationNode.FreshSessionFailurePasses | ui/pages/step2_validation.py:40-48 | concretely: the fresh session fails the experience check, yet step 2 then offers to proceed |
| ValidationNode.ValidateInfo | workflow/nodes/validation_node.py:26-31 | corrected node: a failure records both statuses as 불명확 along with the error question; success as before |
| ValidationNode.PassOnlyOnSufficient | ui/pages/step2_validation.py:44-48 | with the corrected node, step 2 lets the user on exactly when validation succeeded and both items are 충분, whatever was stored before |
| Gather.GatherAll | chains/writing_chain.py:104 | all outputs in task order when every task succeeds; otherwise the exception of the first failing task |
| WritingChain.SlotText | chains/writing_chain.py:49-52 | `state.get(key, default)` rendered: the default when absent, "None" for None, the value otherwise |
| WritingChain.NoLimitTextOnlyWhenMissing | chains/writing_chain.py:74 | "제한 없음" is used exactly when the question has no char_limit key |
| WritingChain.MakeDraftPrompt | chains/writing_chain.py:48-79 | a system message with posting, strategy text, experience and guidelines, then a human message with the question text and its limit |
| WritingChain.SingleDraft | chains/writing_chain.py:29-46 | an unlisted model fails with the provider error before any call; otherwise the model's content as text, or its exception |
| WritingChain.Row | chains/writing_chain.py:98-101 | the inner loop yields (i, 0) .. (i, m-1) |
| WritingChain.Pairs | chains/writing_chain.py:97-101 | n*m task entries, each a valid (question, model) pair |
| WritingChain.PairsIndex | chains/writing_chain.py:97-101 | task i*m+j is the pair (i, j) |
| WritingChain.PairsDistinct | chains/writing_chain.py:97-101 | no pair occurs twice in the task list |
| WritingChain.PairsCover | chains/writing_chain.py:97-101 | every (question, model) pair has a task |
| WritingChain.Blank | chains/writing_chain.py:110 | the placeholder list has one slot per model |
| WritingChain.BuildTasks | chains/writing_chain.py:94-101 | the nested loops build the metadata of all pairs in question-major order and, for each, the draft task of that pair |
| WritingChain.Reshape | chains/writing_chain.py:107-111 | one list of m slots per question that has a task, and every task's output in its own slot |
| WritingChain.PlaceStep | chains/writing_chain.py:107-111 | placing one more output keeps every earlier output in its slot |
| WritingChain.TaskKeysOfPairs | chains/writing_chain.py:107-113 | the reshaped keys are those of all questions, none when there are no models |
| WritingChain.PairPlaced | chains/writing_chain.py:104-111 | after the reshaping of the pair tasks' outputs, slot j of question i's list holds the output of the task of pair (i, j) |
| WritingChain.PlaceDrafts | chains/writing_chain.py:104-113 | keys "1".."N" (none without models), one slot per model, slot j of question i holding the draft by model j |
| WritingChain.GenerateDrafts | chains/writing_chain.py:81-132 | fails exactly when some (question, model) draft fails, with that draft's exception; otherwise keys "1".."N", one draft per model, slot j of question i the draft of model j |
| ReviewChain.InitializeContext | chains/review_chain.py:106-149 | question text, the selected draft or "선택된 초안이 없습니다." when the selection is out of range, the feedback or the no-request note when empty, the stored guideline or the default when empty, and the name defaults only for absent keys |
| ReviewChain.FeedbackNeverEmpty | chains/review_chain.py:127-130 | the model is always given a non-empty feedback |
| ReviewChain.NameDefaultsOnlyWhenAbsent | chains/review_chain.py:137-138 | an empty stored company or position reaches the prompt as "", not as the default |
| ReviewChain.MakeReviewPrompt | chains/review_chain.py:151-171 | exactly a system message, then a human message |
| ReviewChain.PromptKeepsContext | chains/review_chain.py:151-171 | the prompt determines the context it was built from: no field is lost |
| ReviewChain.FinalDraft | chains/review_chain.py:92-103 | the model's content for the question's prompt as text, or its exception |
| ReviewChain.ToDict | chains/review_chain.py:56-57 | `dict(results)` over keyed pairs: keys "1".."N", each with its own pair's text |
| ReviewChain.GenerateFinalEssays | chains/review_chain.py:32-76 | fails exactly when some question's call fails, with that exception; otherwise one entry per question, keyed "1".."N", holding its final text |
| Sidebar.StepName | ui/components/sidebar.py:12-21 | step n's name is the n-th of the eight names |
| Sidebar.Max | ui/components/sidebar.py:42 | `max()` is an element not below any other |
| Sidebar.MaxAccessibleStep | ui/components/sidebar.py:42 | 1 with nothing completed; otherwise one past a completed step and above every completed step |
| Sidebar.Prefix | ui/components/sidebar.py:30-34 | the done mark exactly for completed steps, the current mark for the current step when not completed, nothing otherwise |
| Sidebar.LabelsDistinct | ui/components/sidebar.py:36 | two different steps never share a label, whatever the statuses |
| Sidebar.ClickTarget | ui/components/sidebar.py:43-47 | a click moves to the button's step exactly when the button is enabled |
| Sidebar.ClickStaysReachable | ui/components/sidebar.py:42-47 | a click lands on a step of 1..8 at most one past a completed step |
| Sidebar.PrefixCompletedReach | ui/components/sidebar.py:42 | with steps 1..k completed, exactly steps 1..k+1 are reachable |
| InputForms.ShownLimit | ui/components/input_forms.py:105-107 | the number field shows the stored limit, or 0 for None and for a missing key |
| InputForms.StoredLimit | ui/components/input_forms.py:116 | 0 is stored as None, any other number as itself |
| InputForms.LimitRoundTrip | ui/components/input_forms.py:105-116 | the number shown is always the one entered, and re-storing a shown limit changes nothing for every limit the editor can store |
| InputForms.BlankQuestion | ui/components/input_forms.py:84-88 | a new question has the fresh id, no text and no limit |
| InputForms.InitialWorkingList | ui/components/input_forms.py:75-80 | never empty; the stored list, shared, when it is non-empty, else one blank question |
| InputForms.Edited | ui/components/input_forms.py:97-116 | the id stays, the text is the typed one, the limit shows as entered |
| InputForms.EditQuestions | ui/components/input_forms.py:92-121 | the loop edits every question in place from its own widgets and collects, in ascending order, the clicked indices, only while more than one question exists |
| InputForms.EditedAll | ui/components/input_forms.py:93-116 | every question edited with its own widgets' values |
| InputForms.DeleteMarks | ui/components/input_forms.py:119-121 | a run deletes nothing, or the one clicked question when the list has more than one |
| InputForms.CollectedMarks | ui/components/input_forms.py:119-121 | the indices the loop collects for a run's click are the run's delete marks |
| InputForms.DeleteKeepsOne | ui/components/input_forms.py:119-127 | a run never empties the list; a delete removes exactly the clicked question and keeps the rest in order |
| InputForms.Kept | ui/components/input_forms.py:124-127 | deleting never lengthens the list |
| InputForms.PopDescending | ui/components/input_forms.py:124-126 | popping the ascending indices from the largest down leaves the list without exactly the marked questions |
| InputForms.DeleteOneLeavesRest | ui/components/input_forms.py:119-127 | deleting one of at least two questions leaves all the others, in order |
| InputForms.ScrapeButton | ui/components/input_forms.py:41-58 | a blank URL is a warning; the text area is filled exactly when the scraped text is non-empty, with the cleaned page text; otherwise the error |
| InputForms.BlankPageIsFailure | ui/components/input_forms.py:47-58 | a page whose cleaned text is empty is reported like a failed fetch |
| ResearchPage.FillEmbeds | ui/pages/step3_research.py:66-92 | the prompt starts and ends with the fixed text and holds company, position and posting at their places |
| ResearchPage.ResearchPrefillAsWritten | ui/pages/step3_research.py:26-29 | as written: "" with no report, and an AttributeError once a report is stored |
| ResearchPage.SavedResearchBreaksPageAsWritten | ui/pages/step3_research.py:26-29 | as written, a saved report makes the page fail before its buttons are drawn |
| ResearchPage.ResearchPrefill | ui/pages/step3_research.py:26-29 | corrected: the stored report's content, "" without one |
| ResearchPage.SavedResearchShown | ui/pages/step3_research.py:26-36 | corrected: a saved report comes back in the text area, and saving it unchanged stores the same report |
| ResearchPage.SavedResearch | ui/pages/step3_research.py:49-53 | refused exactly for a blank text; otherwise the text is stored as pasted |
| StrategyPage.StrategyReadyMeans | ui/pages/step4_strategy.py:63-76 | the guard passes exactly with a non-empty report and a non-empty posting |
| StrategyPage.ResearchForStrategy | ui/pages/step4_strategy.py:119-126 | the report's content, or "리서치 정보 없음" without a report |
| StrategyPage.ReadyUsesStoredResearch | ui/pages/step4_strategy.py:119-126 | past the guard the fallback text is never sent |
| StrategyPage.NumberedLines | ui/pages/step4_strategy.py:133 | line i is "<i+1>. <question text>" |
| StrategyPage.NumberedQuestionsLines | ui/pages/step4_strategy.py:133 | without newlines in the questions, the block splits back into exactly one numbered line per question, in order |
| StrategyPage.StrategyInputOf | ui/pages/step4_strategy.py:128-135 | the prompt carries the research text, the numbered questions and the posting |
| StrategyPage.SelectedModel | ui/pages/step4_strategy.py:111-113 | the selector's index names a model of the provider table |
| StrategyPage.LastAiIndex | ui/pages/step4_strategy.py:182-187 | the position of an AI message with no AI message after it; None when there is no AI message |
| StrategyPage.LastAiIndexUnique | ui/pages/step4_strategy.py:182-187 | an AI message followed only by other messages is the latest one |
| StrategyPage.LastAiContent | ui/pages/step4_strategy.py:182-187 | the latest AI message's content, present exactly when there is an AI message |
| StrategyPage.FindLastAi | ui/pages/step4_strategy.py:182-187 | the backward scan returns the latest AI message's content |
| StrategyPage.ConfirmedText | ui/pages/step4_strategy.py:189-196 | nothing to save exactly when there is no AI message or the latest is empty; otherwise that text |
| StrategyPage.EmptyLatestAnswerBlocksConfirm | ui/pages/step4_strategy.py:183-190 | an empty latest AI answer hides every earlier one |
| StrategyPage.ExtractedStrategy | ui/pages/step4_strategy.py:30-41 | stored exactly when extraction succeeds: the extracted strategy with its text replaced by the chat text |
| GuidelinesPage.DefaultGuidelineNotEmpty | chains/guideline_chain.py:6-17 | the default guide is not empty |
| GuidelinesPage.GuidelinesOnEntry | ui/pages/step5_guidelines.py:14-16 | a missing, None or empty guide becomes the default; a written one is kept |
| GuidelinesPage.EntryIdempotent | ui/pages/step5_guidelines.py:14-16 | entering twice is entering once |
| GuidelinesPage.UpdateGuidelines | ui/pages/step5_guidelines.py:36-45 | nothing changes for an empty or unchanged edit; otherwise the reviewer's text, or its failure |
| GuidelinesPage.ResubmitIsNoOp | ui/pages/step5_guidelines.py:37-38 | resubmitting the stored text never calls the reviewer |
| EssayPage.DraftModelsListed | ui/pages/step6_essay.py:27 | both draft models are in the provider table |
| EssayPage.ZeroSelections | ui/pages/step6_essay.py:36-37 | selection 0 for every draft key and no other key |
| EssayPage.BlankFeedbacks | ui/pages/step6_essay.py:38-39 | empty feedback for every draft key and no other key |
| EssayPage.RecordStep | ui/pages/step6_essay.py:113-122 | writing question n's value keeps all earlier questions' values |
| EssayPage.RecordChoices | ui/pages/step6_essay.py:111-122 | the submit loop writes each question's pick and feedback under its key and leaves all other keys as they were |
| EssayPage.ShownDrafts | ui/pages/step6_essay.py:63-80 | the stored pair, "내용 없음" twice for a missing key, an IndexError for a list shorter than two |
| EssayPage.GeneratedDraftsShown | ui/pages/step6_essay.py:63-80 | drafts generated on this page show both options of every question |
| ReviewPage.ShownEssay | ui/pages/step7_review.py:59-60 | the stored final text, or "내용이 생성되지 않았습니다." |
| ReviewPage.ShownEssays | ui/pages/step7_review.py:52-67 | one text area per question with its shown text |
| ReviewPage.ApplyEssayEdits | ui/pages/step7_review.py:78-85 | every non-empty text area overwrites its question's entry; all other entries stay |
| ReviewPage.ConfirmUnedited | ui/pages/step7_review.py:62-85 | confirming without edits stores what was shown, the notice included |
| FinalPage.FinalEssayShown | ui/pages/step8_final.py:72-78 | the stored final text, or "내용 없음" |
| FinalPage.GuidelinesShown | ui/pages/step8_final.py:65-66 | the guide text, or "" for a missing or None guide |
| FinalPage.FinalPageView | ui/pages/step8_final.py:4-82 | the page opens exactly when at least one final text is stored, and shows research, strategy, guide and one text per question |
| FinalPage.GeneratedEssaysShown | ui/pages/step8_final.py:11-78 | generated final texts for a non-empty question list open the page, each question showing its own text |
| TestHarness.FinalEssayText | test.py:144-152 | the simulated final text begins with the chosen draft |
| TestHarness.FrameMarker | test.py:144-152 | the character after the draft tells the feedback frame from the plain note |
| TestHarness.FinalEssayTextInjective | test.py:144-152 | the simulated text determines the chosen draft and the feedback |
| TestHarness.FinalEssaysSpec | test.py:136-153 | one text per draft key, beginning with the chosen draft; an IndexError exactly when a selection is out of range |
| TestHarness.FinalEssaysData | test.py:136-153 | the loop computes that result |
| TestHarness.FixtureState | test.py:197-336 | each level lands on its step with the steps before it completed and the base questions and statuses stored; a present guidelines key stays present, and drafts are never stored without their selections and feedbacks |
| TestHarness.FixtureStepReachable | test.py:197-336 | every level lands on a step the sidebar lets the user reach, with completed steps listed once |
| TestHarness.TestInputsSound | test.py:37-92 | the panel's base inputs have two questions, every status 충분, and a non-empty posting and report |
| TestHarness.DraftFixtureShape | test.py:124-134 | the panel's drafts are two for each of questions "1" and "2" |
| TestHarness.TestDraftsSound | test.py:262-291 | the panel's drafts, selections and feedbacks fit one another |
| TestHarness.FixtureInputsPass | test.py:197-336 | with sound data, every level passes step 2's check and, from Level 2 on, the step-4 guard |
| TestHarness.DraftFixturesComplete | test.py:244-336 | the draft levels give every question a pair of drafts, a selection and a feedback, so step 6 shows both options |
| TestHarness.FinalFixtureOpensResult | test.py:303-336 | Level 5 stores a final text for every question, so the result page opens |
| TestHarness.DraftFixtureClosesResult | test.py:294-295 | Level 4 removes the final texts, so the result page stays closed |
| TestHarness.Route | test.py:363-384 | steps 1..8 go to their own page, anything else to the error |
| AccessGate.AccessScreen | streamlit_app.py:26-63 | the main page exactly when no key is configured or the entry matched; the prompt without error before any entry; with the error after a wrong entry |
| AccessGate.GateSession.constructor | streamlit_app.py:42-47 | a new session has neither key, so with a key configured the prompt shows without an error |
| AccessGate.GateSession.PasswordEntered | streamlit_app.py:34-40 | a match records True, deletes the entry and opens the main page; a mismatch records False, keeps the entry and shows the error |
| SessionModel.Session.constructor | test.py:157-175 | the initial state and no other session key |
| SessionModel.Session.Reset | test.py:340-342 | every key is cleared and the state re-initialised |
| SessionModel.Session.SidebarClick | ui/components/sidebar.py:46-48 | an enabled button moves to its step, which is reachable; the new page's run drops the values of widgets it does not draw |
| SessionModel.Session.ForceStep | test.py:186-189 | the step field moves to any step 1..8; the new page's run drops the values of widgets it does not draw |
| SessionModel.Session.LoadFixture | test.py:197-336 | the state becomes the level's; from Level 2.5 on the chat is one AI message with the strategy text; the working list stops being shared; the new page's run drops the values of widgets it does not draw |
| SessionModel.Session.TypePosting | ui/components/input_forms.py:60-67 | the posting text area holds the typed text |
| SessionModel.Session.Scrape | ui/components/input_forms.py:41-58 | only a non-empty scraped text reaches the posting text area; nothing else changes |
| SessionModel.Session.OpenQuestionsForm | ui/components/input_forms.py:74-80 | the working list is created once, non-empty, sharing the stored list when there is one |
| SessionModel.Session.AddQuestion | ui/components/input_forms.py:82-89 | one blank question at the end, visible in the stored list too while shared |
| SessionModel.Session.EditQuestionForms | ui/components/input_forms.py:91-127 | the working list becomes the edited list without the clicked question; it stays non-empty, and the stored list follows while shared |
| SessionModel.Session.SaveAndProceed | ui/pages/step1_input.py:30-75 | nothing changes unless company, position, URL and posting are non-blank; otherwise the stripped inputs and the working list are stored, validation is requested, 1 is completed, step 2 opens and the posting area's value is dropped |
| SessionModel.Session.RunValidation | ui/pages/step2_validation.py:12-22 | the node's update is merged and validation marked done; the all-pass check then holds exactly when both items were judged 충분 |
| SessionModel.Session.BackUnvalidated | ui/pages/step2_validation.py:33-38 | back to step 1, nothing else changes; the posting area shows the stored posting |
| SessionModel.Session.BackToEdit | ui/pages/step2_validation.py:58-65 | back to step 1 with both validation flags cleared; the posting area shows the stored posting, the cleaned one after a successful validation |
| SessionModel.Session.ProceedToResearch | ui/pages/step2_validation.py:84-93 | step 3, with 2 completed |
| SessionModel.Session.ResearchBack | ui/pages/step3_research.py:43-45 | back to step 2 |
| SessionModel.Session.SaveResearch | ui/pages/step3_research.py:48-64 | a blank text changes nothing; otherwise the report is stored as pasted, 3 completed, step 4 opened |
| SessionModel.Session.StrategyGuardBack | ui/pages/step4_strategy.py:76-83 | back to step 3 |
| SessionModel.Session.OpenChat | ui/pages/step4_strategy.py:85-88 | the empty chat is created once |
| SessionModel.Session.GenerateInitialStrategy | ui/pages/step4_strategy.py:103-148 | the model of the default index 0 (the selector is never on screen before the first strategy) gives the first strategy, which becomes the chat's only message; a failure changes nothing |
| SessionModel.Session.SelectModel | ui/pages/step4_strategy.py:158-169 | the model index changes, nothing else |
| SessionModel.Session.StrategyBack | ui/pages/step4_strategy.py:176-178 | back to step 3; the model choice is dropped |
| SessionModel.Session.SaveStrategy | ui/pages/step4_strategy.py:30-55 | the extracted strategy is stored, 4 completed, step 5 opened and the model choice dropped; a failed extraction changes nothing |
| SessionModel.Session.ConfirmStrategy | ui/pages/step4_strategy.py:180-196 | nothing without a non-empty latest AI message; saved at once when no strategy is stored; otherwise keep moves to step 5 and overwrite saves; leaving step 4 drops the model choice |
| SessionModel.Session.SendFeedback | ui/pages/step4_strategy.py:198-234 | the request joins the chat, followed by the model's answer to the earlier chat unless the call failed; an empty input sends nothing |
| SessionModel.Session.EnterGuidelines | ui/pages/step5_guidelines.py:14-16 | a missing, None or empty guide becomes the default and the page's buttons appear |
| SessionModel.Session.SubmitGuidelines | ui/pages/step5_guidelines.py:36-45 | only a reviewed text replaces the guide |
| SessionModel.Session.GuidelinesBack | ui/pages/step5_guidelines.py:51-54 | back to step 4, where the selector starts again from index 0 |
| SessionModel.Session.ProceedToDrafts | ui/pages/step5_guidelines.py:56-63 | the text area is stored as it is, 5 completed, step 6 opened |
| SessionModel.Session.GenerateDraftPairs | ui/pages/step6_essay.py:24-45 | on success the drafts of the two fixed models, selection 0 and empty feedback per key are stored and both options of every question are shown; on failure nothing changes |
| SessionModel.Session.SubmitChoices | ui/pages/step6_essay.py:110-131 | each question's pick and feedback are stored under its key, 6 completed, step 7 opened |
| SessionModel.Session.DraftsBack | ui/pages/step6_essay.py:133-136 | back to step 5 |
| SessionModel.Session.ReviewGuardBack | ui/pages/step7_review.py:10-16 | back to step 6 |
| SessionModel.Session.GenerateFinal | ui/pages/step7_review.py:31-40 | on success one final text per question replaces the stored ones; on failure nothing changes |
| SessionModel.Session.ReviewBack | ui/pages/step7_review.py:72-75 | back to step 6 |
| SessionModel.Session.ConfirmEssays | ui/pages/step7_review.py:77-91 | non-empty text areas overwrite their entries, the others stay, 7 completed, step 8 opened |
| SessionModel.Session.FinalGuardBack | ui/pages/step8_final.py:10-16 | back to step 7 |

## Left out

- Model calls are function parameters returning `Result`; a `Failure` stands for the raised exception. Chain construction, prompt templates and provider clients are not part of this model: `get_chat_model`, the `create_*_chain` functions and `config/prompts.py`. Prompts carry their template's named arguments instead of rendered text.
- The research prompt's full text is placed by `ResearchPage.FillEmbeds` only. The model does not state the whole rendered string.
- The draft and review chains run their tasks sequentially and gather them all-or-nothing. The asyncio event-loop variants (`nest_asyncio`, `asyncio.run`) all run the same tasks, so they are not modelled. The `except RuntimeError` and `except ImportError` fallbacks (chains/writing_chain.py:125-130, chains/review_chain.py:68-74) also catch such an exception raised by a task, and then run the whole fan-out again, so each model call may happen twice. The model makes each call once; since its model functions are deterministic, the second run would raise the same exception and the result is the same. The unused `_generate_single_draft_test` and `_generate_single_final_draft_test` are not modelled either.
- The HTTP request and BeautifulSoup's text extraction are a `fetch` parameter giving the page text or None.
- `WebScraper.Lines` cuts at every line-break character. Unlike `splitlines()`, it also yields empty pieces. Those yield no chunk, so the cleaned text is the same.
- Rendering is not modelled: headers, spinners, success, error and info messages, the progress bar, captions, the debug panel, `_render_status_card`, `MODEL_DISPLAY_NAMES` and chat bubbles.
- Widget values are parameters of the method for the button that reads them, except the two keyed widgets other code writes or reads back: the posting area (`postingInput`) and the model selector (`strategyModelIndex`). Their values are dropped after a run that does not draw them (`SessionModel.AfterRun`). One run handles at most one click (`clicked: Option<nat>`).
- `streamlit_app.py` lines 5-24 are not modelled: copying secrets into the environment, `load_dotenv` and `set_page_config`. `app.main` draws only a title and a welcome line; it is the `MainPage` screen.
- The step-2 `except` branch (ui/pages/step2_validation.py:23-30) cannot run, because `validate_info` catches every exception itself.
- The step-6 guard (ui/pages/step6_essay.py:10-16) cannot fire, because `Valid()` keeps the guidelines key present.
- `ai_validate_guidelines` reads `.content` off a structured result (chains/guideline_chain.py:83). It is an uninterpreted reviewer that may fail.
- SessionModel.Session.LoadFixture: the level data is a parameter `f`. The test panel's own constants are shown sound by `TestHarness.TestInputsSound`, `TestHarness.DraftFixtureShape` and `TestHarness.TestDraftsSound`.
- Python integers are unbounded, and so are the model's. The number widgets never produce negative values, so limits, picks and indices are `nat`.
- `str()` of arbitrary objects and the `.text` attribute of response parts are carried as given strings (`shown`, `TextObject`).
- SessionModel.Session.RunValidation: merges the corrected node `ValidationNode.ValidateInfo`, which records both statuses as 불명확 on failure. As written, the node returns only `additional_questions` on failure, so a fresh session's empty status map passes step 2 and "proceed" is drawn. That behaviour is stated at node level by `ValidationNode.FailedValidationPassesAsWritten` and `ValidationNode.FreshSessionFailurePasses` (first Findings row), not by the session.
- SessionModel.Session.ResearchBack: runs the corrected step-3 page. As written, the page raises AttributeError before drawing either button once a report is stored (after step 3's own save, or Levels 2-5), so the button is then not on screen. That behaviour is stated at page level by `ResearchPage.SavedResearchBreaksPageAsWritten` (second Findings row).
- SessionModel.Session.SaveResearch: runs the corrected step-3 page, like `ResearchBack`; as written, the button is not on screen once a report is stored.
- The "keep or overwrite" dialog is a choice parameter of `ConfirmStrategy`. Closing the dialog changes nothing.

## Findings

| source | as written | input that shows it | evidently intended | confidence | as-written member | corrected member |
|---|---|---|---|---|---|---|
| workflow/nodes/validation_node.py:26-31 | on any exception only `additional_questions` is returned, so `validation_status` keeps its old value, the empty map of a fresh session, and step 2's `all(...)` over it is true | a fresh session saved with experience shorter than 50 characters: validation raises, yet step 2 shows the "proceed to research" button | the comment says to treat everything as unclear: record both statuses as 불명확 so step 2 sends the user back | high (not executed) | ValidationNode.FreshSessionFailurePasses | ValidationNode.PassOnlyOnSufficient |
| ui/pages/step3_research.py:28-29 | `.get("content", "")` is called on the stored `CompanyResearch` pydantic model, which has no `get` | any session where a report was saved (step 3's own save, or test Levels 2-5), then step 3 is opened again: AttributeError before the buttons are drawn | read `.content`, as steps 4 and 8 do | high (not executed) | ResearchPage.SavedResearchBreaksPageAsWritten | ResearchPage.SavedResearchShown |
