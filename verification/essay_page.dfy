/** ui/pages/step6_essay.py: the drafts page. Drafts are generated once, with
    a fixed pair of models; every draft key starts with selection 0 and empty
    feedback; the form then records one selection and one feedback per
    question. */
module EssayPage {
  import opened Wrappers
  import opened LlmUtil
  import opened State

  /** The models compared on this page (line 27): option A, then option B. */
  const DraftModelsUsed: seq<string> := ["gemini-3-pro-preview", "gpt-4.1"]

  /** Both models are in the provider table, so no draft of this page fails
      for an unknown model name. */
  lemma DraftModelsListed()
    ensures |DraftModelsUsed| == 2
    ensures forall j :: 0 <= j < |DraftModelsUsed| ==> DraftModelsUsed[j] in ModelProviderMap
  {
  }

  /** `{k: 0 for k in drafts.keys()}`. */
  function ZeroSelections(keys: set<string>): (m: map<string, nat>)
    ensures m.Keys == keys
    ensures forall k :: k in m ==> m[k] == 0
  {
    map k | k in keys :: 0
  }

  /** `{k: "" for k in drafts.keys()}`. */
  function BlankFeedbacks(keys: set<string>): (m: map<string, string>)
    ensures m.Keys == keys
    ensures forall k :: k in m ==> m[k] == ""
  {
    map k | k in keys :: ""
  }

  /** `m` is `before` with the first `n` values written under keys
      "1".."n", and every other key untouched. */
  ghost predicate Recorded<V>(before: map<string, V>, m: map<string, V>, values: seq<V>, n: nat)
    requires n <= |values|
  {
    && m.Keys == before.Keys + KeysBelow(n)
    && (forall i :: 0 <= i < n ==> m[Key(i)] == values[i])
    && (forall k :: k in before && k !in KeysBelow(n) ==> m[k] == before[k])
  }

  lemma RecordStep<V>(before: map<string, V>, m: map<string, V>, values: seq<V>, n: nat)
    requires n < |values| && Recorded(before, m, values, n)
    ensures Recorded(before, m[Key(n) := values[n]], values, n + 1)
  {
    forall k | 0 <= k < n ensures Key(k) != Key(n) {
      KeyInjective(k, n);
    }
    KeysBelowStep(n);
  }

  /** The submit loop of lines 113-122: question i's radio choice and feedback
      text are written under key str(i+1), in place; keys of other questions
      keep their entries. */
  method RecordChoices(selections: map<string, nat>, feedbacks: map<string, string>,
                       picks: seq<nat>, texts: seq<string>)
    returns (sel: map<string, nat>, fb: map<string, string>)
    requires |picks| == |texts|
    ensures sel.Keys == selections.Keys + KeysBelow(|picks|)
    ensures fb.Keys == feedbacks.Keys + KeysBelow(|picks|)
    ensures forall i :: 0 <= i < |picks| ==> sel[Key(i)] == picks[i] && fb[Key(i)] == texts[i]
    ensures forall k :: k in selections && k !in KeysBelow(|picks|) ==> sel[k] == selections[k]
    ensures forall k :: k in feedbacks && k !in KeysBelow(|picks|) ==> fb[k] == feedbacks[k]
  {
    sel, fb := selections, feedbacks;
    for i := 0 to |picks|
      invariant Recorded(selections, sel, picks, i)
      invariant Recorded(feedbacks, fb, texts, i)
    {
      RecordStep(selections, sel, picks, i);
      RecordStep(feedbacks, fb, texts, i);
      sel := sel[Key(i) := picks[i]];
      fb := fb[Key(i) := texts[i]];
    }
  }

  const NoDraftShown := "내용 없음"

  /** The two drafts shown side by side for question i (lines 63-80): the
      stored pair, both "내용 없음" when the key is missing, and an IndexError
      (None) when the stored list holds fewer than two drafts. */
  function ShownDrafts(drafts: map<string, seq<string>>, i: nat): (r: Option<(string, string)>)
    ensures Key(i) !in drafts ==> r == Some((NoDraftShown, NoDraftShown))
    ensures Key(i) in drafts ==> (r.Some? <==> |drafts[Key(i)]| >= 2)
    ensures Key(i) in drafts && r.Some? ==> r.value == (drafts[Key(i)][0], drafts[Key(i)][1])
  {
    if Key(i) !in drafts then Some((NoDraftShown, NoDraftShown))
    else
      var d := drafts[Key(i)];
      if |d| >= 2 then Some((d[0], d[1])) else None
  }

  /** Drafts generated on this page show, for every question, option A from
      the first model and option B from the second. */
  lemma GeneratedDraftsShown(drafts: map<string, seq<string>>, n: nat, i: nat)
    requires drafts.Keys == KeysBelow(n)
    requires forall k :: 0 <= k < n ==> |drafts[Key(k)]| == |DraftModelsUsed|
    requires i < n
    ensures ShownDrafts(drafts, i) == Some((drafts[Key(i)][0], drafts[Key(i)][1]))
  {
    assert Key(i) in KeysBelow(n);
  }
}
