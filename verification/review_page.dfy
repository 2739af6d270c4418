/** ui/pages/step7_review.py: the review page. The final texts are generated
    on request; each question's text area shows the stored final text or a
    fixed notice, and confirming writes every non-empty text area back. */
module ReviewPage {
  import opened Wrappers
  import opened State

  const MissingEssayText := "내용이 생성되지 않았습니다."

  /** The initial content of question i's text area (line 60). */
  function ShownEssay(confirmed: map<string, string>, i: nat): (r: string)
    ensures Key(i) in confirmed ==> r == confirmed[Key(i)]
    ensures Key(i) !in confirmed ==> r == MissingEssayText
  {
    if Key(i) in confirmed then confirmed[Key(i)] else MissingEssayText
  }

  /** The text areas as shown, before any edit. */
  function ShownEssays(confirmed: map<string, string>, n: nat): (r: seq<string>)
    ensures |r| == n
    ensures forall i :: 0 <= i < n ==> r[i] == ShownEssay(confirmed, i)
  {
    seq(n, i requires 0 <= i < n => ShownEssay(confirmed, i))
  }

  /** The keys of the first `n` text areas that are non-empty. */
  function EditedBelow(edits: seq<string>, n: nat): set<string>
    requires n <= |edits|
  {
    set i | 0 <= i < n && edits[i] != "" :: Key(i)
  }

  /** The keys whose text area is non-empty. */
  function EditedKeys(edits: seq<string>): set<string> {
    EditedBelow(edits, |edits|)
  }

  lemma EditedBelowStep(edits: seq<string>, n: nat)
    requires n < |edits|
    ensures EditedBelow(edits, n + 1) == EditedBelow(edits, n) + (if edits[n] != "" then {Key(n)} else {})
  {
  }

  /** After the first `n` text areas: every non-empty one has overwritten its
      question's entry, and every other entry is as it was. */
  predicate Applied(confirmed: map<string, string>, edits: seq<string>, n: nat, r: map<string, string>)
    requires n <= |edits|
  {
    && r.Keys == confirmed.Keys + EditedBelow(edits, n)
    && (forall k :: 0 <= k < n && edits[k] != "" ==> r[Key(k)] == edits[k])
    && (forall k :: k in confirmed && k !in EditedBelow(edits, n) ==> r[k] == confirmed[k])
  }

  lemma AppliedStep(confirmed: map<string, string>, edits: seq<string>, i: nat, r: map<string, string>)
    requires i < |edits| && Applied(confirmed, edits, i, r)
    ensures Applied(confirmed, edits, i + 1, if edits[i] != "" then r[Key(i) := edits[i]] else r)
  {
    EditedBelowStep(edits, i);
    if edits[i] != "" {
      AppliedWrite(confirmed, edits, i, r);
    }
  }

  /** A non-empty text area: its entry is overwritten, no other entry moves. */
  lemma AppliedWrite(confirmed: map<string, string>, edits: seq<string>, i: nat, r: map<string, string>)
    requires i < |edits| && edits[i] != "" && Applied(confirmed, edits, i, r)
    requires EditedBelow(edits, i + 1) == EditedBelow(edits, i) + {Key(i)}
    ensures Applied(confirmed, edits, i + 1, r[Key(i) := edits[i]])
  {
    var r' := r[Key(i) := edits[i]];
    forall k | 0 <= k < i + 1 && edits[k] != "" ensures r'[Key(k)] == edits[k] {
      if k < i {
        KeyInjective(k, i);
      }
    }
    forall k | k in confirmed && k !in EditedBelow(edits, i + 1) ensures r'[k] == confirmed[k] {
      assert k != Key(i);
    }
  }

  /** The confirm loop of lines 80-85: a non-empty text area overwrites its
      question's entry; an emptied one leaves the entry as it was. */
  method ApplyEssayEdits(confirmed: map<string, string>, edits: seq<string>) returns (r: map<string, string>)
    ensures r.Keys == confirmed.Keys + EditedKeys(edits)
    ensures forall i :: 0 <= i < |edits| && edits[i] != "" ==> r[Key(i)] == edits[i]
    ensures forall k :: k in confirmed && k !in EditedKeys(edits) ==> r[k] == confirmed[k]
  {
    r := confirmed;
    assert EditedBelow(edits, 0) == {};
    for i := 0 to |edits|
      invariant Applied(confirmed, edits, i, r)
    {
      AppliedStep(confirmed, edits, i, r);
      if edits[i] != "" {
        r := r[Key(i) := edits[i]];
      }
    }
  }

  /** Confirming without touching any text area stores what was shown: every
      question then has an entry, the notice for a question that had none. */
  lemma ConfirmUnedited(confirmed: map<string, string>, n: nat, r: map<string, string>)
    requires r.Keys == confirmed.Keys + EditedKeys(ShownEssays(confirmed, n))
    requires forall i :: 0 <= i < n && ShownEssays(confirmed, n)[i] != "" ==> r[Key(i)] == ShownEssays(confirmed, n)[i]
    requires forall k :: k in confirmed && k !in EditedKeys(ShownEssays(confirmed, n)) ==> r[k] == confirmed[k]
    ensures KeysBelow(n) <= r.Keys
    ensures forall i :: 0 <= i < n ==> r[Key(i)] == ShownEssay(confirmed, i)
    ensures forall i :: 0 <= i < n && Key(i) !in confirmed ==> r[Key(i)] == MissingEssayText
  {
    var shown := ShownEssays(confirmed, n);
    forall k | k in KeysBelow(n) ensures k in r.Keys {
      var i :| 0 <= i < n && k == Key(i);
      if k !in confirmed {
        assert shown[i] == MissingEssayText;
        assert |shown[i]| > 0;
        assert k in EditedKeys(shown);
      }
    }
  }
}
