/** ui/pages/step8_final.py: the result page. It opens only once some final
    text is stored; it then shows the inputs, the research and strategy
    texts, the guidelines and one final text per question. */
module FinalPage {
  import opened Wrappers
  import opened State

  /** The guard of lines 11-16: final texts are stored and there is at least
      one. */
  predicate FinalReady(confirmed: Option<map<string, string>>) {
    confirmed.Some? && confirmed.value != map[]
  }

  const NoContentText := "내용 없음"

  /** The final text shown under question i (line 78). */
  function FinalEssayShown(confirmed: map<string, string>, i: nat): (r: string)
    ensures Key(i) in confirmed ==> r == confirmed[Key(i)]
    ensures Key(i) !in confirmed ==> r == NoContentText
  {
    if Key(i) in confirmed then confirmed[Key(i)] else NoContentText
  }

  /** The guidelines text area (line 65): a missing key shows "", and so does
      Python's None, which the text area renders as empty. */
  function GuidelinesShown(g: Slot<string>): (r: string)
    ensures g.Value? ==> r == g.value
    ensures !g.Value? ==> r == ""
  {
    if g.Value? then g.value else ""
  }

  /** What the page shows, given that its guard passed. */
  datatype FinalView = FinalView(
    companyName: string,
    positionName: string,
    jobPosting: string,
    userExperiences: string,
    research: string,
    strategy: string,
    guidelines: string,
    essays: seq<string>)

  /** The page for state `s`: None when the guard sends the user back to
      step 7, the shown texts otherwise. */
  function FinalPageView(s: ResumeState): (r: Option<FinalView>)
    ensures r.Some? <==> FinalReady(s.confirmedEssays)
    ensures r.Some? ==> |r.value.essays| == |Questions(s)|
    ensures r.Some? ==> forall i :: 0 <= i < |Questions(s)| ==>
      r.value.essays[i] == FinalEssayShown(s.confirmedEssays.value, i)
    ensures r.Some? ==> (r.value.research == ResearchText(s.companyResearch) &&
      r.value.strategy == StrategyText(s.writingStrategy) && r.value.guidelines == GuidelinesShown(s.writingGuidelines))
  {
    if !FinalReady(s.confirmedEssays) then None
    else
      var c := s.confirmedEssays.value;
      var n := |Questions(s)|;
      Some(FinalView(
        s.companyName.GetOr(""), s.positionName.GetOr(""), s.jobPosting.GetOr(""),
        s.userExperiences.GetOr(""), ResearchText(s.companyResearch),
        StrategyText(s.writingStrategy), GuidelinesShown(s.writingGuidelines),
        seq(n, i requires 0 <= i < n => FinalEssayShown(c, i))))
  }

  /** Final texts generated for a non-empty question list open the page, and
      every question then shows its own generated text, never the notice. */
  lemma GeneratedEssaysShown(s: ResumeState)
    requires s.confirmedEssays.Some?
    requires s.confirmedEssays.value.Keys == KeysBelow(|Questions(s)|)
    requires Questions(s) != []
    ensures FinalPageView(s).Some?
    ensures forall i :: 0 <= i < |Questions(s)| ==>
      Key(i) in s.confirmedEssays.value && FinalPageView(s).value.essays[i] == s.confirmedEssays.value[Key(i)]
  {
    assert Key(0) in KeysBelow(|Questions(s)|);
    assert Key(0) in s.confirmedEssays.value;
  }
}
