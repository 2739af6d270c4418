/** The workflow state every page reads and writes (`resume_state`), and the
    records stored in it. A key the application reads with a default is an
    `Option` (None: the key is absent); `writing_guidelines` can also hold
    Python's None, so it is a `Slot`. */
module State {
  import opened Wrappers
  import opened Text

  /** One essay question of the list editor. `charLimit` is Missing when the
      dict has no "char_limit" key and Null when it holds None. */
  datatype EssayQuestion = EssayQuestion(id: string, questionText: string, charLimit: Slot<nat>)

  /** `CompanyResearch`: the pasted report. */
  datatype Research = Research(content: string)

  /** `WritingStrategy`: the structured strategy and its full text. */
  datatype Strategy = Strategy(
    coreCompetencies: seq<string>,
    talentTraits: seq<string>,
    userStrengths: seq<string>,
    userGaps: seq<string>,
    questionStrategy: map<string, string>,
    cautions: seq<string>,
    content: string)

  /** The keys of `resume_state` the wizard uses. */
  datatype ResumeState = ResumeState(
    companyName: Option<string>,
    positionName: Option<string>,
    jobPosting: Option<string>,
    jobPostingUrl: Option<string>,
    essayQuestions: Option<seq<EssayQuestion>>,
    userExperiences: Option<string>,
    validationStatus: Option<map<string, string>>,
    additionalQuestions: Option<seq<string>>,
    currentStep: int,
    completedSteps: seq<int>,
    companyResearch: Option<Research>,
    writingStrategy: Option<Strategy>,
    writingGuidelines: Slot<string>,
    generatedDrafts: Option<map<string, seq<string>>>,
    draftModels: Option<seq<string>>,
    draftSelections: Option<map<string, nat>>,
    draftFeedbacks: Option<map<string, string>>,
    confirmedEssays: Option<map<string, string>>)

  /** The state `init_session_state` creates (test.py:157-175). */
  const InitialState := ResumeState(
    Some(""), Some(""), Some(""), Some(""), Some([]), Some(""),
    Some(map[]), Some([]), 1, [],
    None, None, Null,
    None, None, None, None, None)

  /** The questions, or [] when the key is absent. */
  function Questions(s: ResumeState): seq<EssayQuestion> {
    s.essayQuestions.GetOr([])
  }

  /** The key of the question at 0-based index `i`: `str(i + 1)`. */
  function Key(i: nat): (r: string)
    ensures r != [] && forall k :: 0 <= k < |r| ==> '0' <= r[k] <= '9'
  {
    NatToString(i + 1)
  }

  lemma KeyInjective(i: nat, j: nat)
    ensures Key(i) == Key(j) <==> i == j
  {
    if Key(i) == Key(j) {
      NatToStringInjective(i + 1, j + 1);
    }
  }

  /** The keys of the first `n` questions. */
  function KeysBelow(n: nat): set<string> {
    set i | 0 <= i < n :: Key(i)
  }

  lemma KeysBelowStep(n: nat)
    ensures KeysBelow(n + 1) == KeysBelow(n) + {Key(n)}
  {
  }

  lemma KeyNotBelow(n: nat, i: nat)
    requires i >= n
    ensures Key(i) !in KeysBelow(n)
  {
    if Key(i) in KeysBelow(n) {
      var k :| 0 <= k < n && Key(k) == Key(i);
      KeyInjective(k, i);
    }
  }

  /** Marks `step` completed unless it already is (every `if n not in
      completed_steps: append(n)` of the pages). */
  function Complete(completed: seq<int>, step: int): (r: seq<int>)
    ensures step in r
    ensures forall x :: x in r <==> x in completed || x == step
    ensures NoDuplicates(completed) ==> NoDuplicates(r)
  {
    if step in completed then completed else completed + [step]
  }

  predicate NoDuplicates(xs: seq<int>) {
    forall i, j :: 0 <= i < j < |xs| ==> xs[i] != xs[j]
  }

  /** The research text, "" when none is stored (step8_final.py:38-45). */
  function ResearchText(r: Option<Research>): string {
    if r.Some? then r.value.content else ""
  }

  /** The strategy text, "" when none is stored (writing_chain.py:55-62,
      step8_final.py:50-56). */
  function StrategyText(s: Option<Strategy>): string {
    if s.Some? then s.value.content else ""
  }
}
