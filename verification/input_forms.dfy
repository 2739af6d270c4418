/** ui/components/input_forms.py: the step-1 forms. The question editor keeps
    a working list (`temp_questions`) that it creates once, grows by one blank
    question per click, edits in place and shrinks by popping the marked
    questions in descending index order; the scrape button fills the posting
    text area. The list itself is a field of the session (module
    SessionModel); this module holds what the editor computes. */
module InputForms {
  import opened Wrappers
  import opened Text
  import opened State
  import opened WebScraper

  /** The number the limit field shows for a stored limit: 0 for None and for
      a question without the key. */
  function ShownLimit(c: Slot<nat>): (n: nat)
    ensures c.Value? ==> n == c.value
    ensures !c.Value? ==> n == 0
  {
    if c.Value? then c.value else 0
  }

  /** The limit stored for the number entered: 0 means "no limit" and is
      stored as None; anything else is stored as it is. */
  function StoredLimit(n: nat): (c: Slot<nat>)
    ensures c == Null <==> n == 0
    ensures c != Missing
    ensures c.Value? ==> c.value == n && n > 0
  {
    if n > 0 then Value(n) else Null
  }

  /** Showing a stored limit and storing it again changes nothing, for every
      limit the editor itself can store; the number shown is always the one
      that was entered. */
  lemma LimitRoundTrip(n: nat, c: Slot<nat>)
    ensures ShownLimit(StoredLimit(n)) == n
    ensures c == Null || (c.Value? && c.value > 0) ==> StoredLimit(ShownLimit(c)) == c
    ensures StoredLimit(ShownLimit(Missing)) == Null
  {
  }

  /** A question just added: a fresh id, no text, no limit. */
  function BlankQuestion(freshId: string): (q: EssayQuestion)
    ensures q.id == freshId && q.questionText == "" && q.charLimit == Null
  {
    EssayQuestion(freshId, "", Null)
  }

  /** The working list created when the session has none (lines 75-80): the
      stored questions when there are any, otherwise one blank question. The
      second component says whether the working list IS the stored list (the
      assignment shares the list object rather than copying it). */
  function InitialWorkingList(stored: Option<seq<EssayQuestion>>, freshId: string)
    : (r: (seq<EssayQuestion>, bool))
    ensures r.0 != []
    ensures r.1 <==> stored.GetOr([]) != []
    ensures r.1 ==> r.0 == stored.value
    ensures !r.1 ==> r.0 == [BlankQuestion(freshId)]
  {
    var current := stored.GetOr([]);
    if current == [] then ([BlankQuestion(freshId)], false) else (current, true)
  }

  /** What one pass of the edit loop writes into a question: the text typed
      and the normalised limit; the id stays. */
  function Edited(q: EssayQuestion, text: string, limit: nat): (r: EssayQuestion)
    ensures r.id == q.id
    ensures r.questionText == text
    ensures ShownLimit(r.charLimit) == limit && r.charLimit != Missing
  {
    q.(questionText := text, charLimit := StoredLimit(limit))
  }

  /** The edit loop of lines 93-116: question i takes the text and the limit
      of its own widgets, in place; a delete button is offered next to every
      question only while there is more than one, and the clicked ones are
      collected in index order. */
  method EditQuestions(qs: seq<EssayQuestion>, texts: seq<string>, limits: seq<nat>, clicked: set<nat>)
    returns (r: seq<EssayQuestion>, toRemove: seq<nat>)
    requires |texts| == |qs| && |limits| == |qs|
    ensures |r| == |qs|
    ensures forall i :: 0 <= i < |qs| ==> r[i] == Edited(qs[i], texts[i], limits[i])
    ensures |qs| <= 1 ==> toRemove == []
    ensures forall k :: 0 <= k < |toRemove| ==> toRemove[k] < |qs| && toRemove[k] in clicked
    ensures |qs| > 1 ==> forall i :: 0 <= i < |qs| && i in clicked ==> i in toRemove
    ensures Ascending(toRemove)
  {
    r := qs;
    toRemove := [];
    var offered := |qs| > 1;
    for i := 0 to |qs|
      invariant |r| == |qs|
      invariant forall k :: 0 <= k < i ==> r[k] == Edited(qs[k], texts[k], limits[k])
      invariant forall k :: i <= k < |qs| ==> r[k] == qs[k]
      invariant !offered ==> toRemove == []
      invariant forall k :: 0 <= k < |toRemove| ==> toRemove[k] < i && toRemove[k] in clicked
      invariant offered ==> forall k :: 0 <= k < i && k in clicked ==> k in toRemove
      invariant Ascending(toRemove)
    {
      r := r[i := Edited(r[i], texts[i], limits[i])];
      if offered && i in clicked {
        toRemove := toRemove + [i];
      }
    }
  }

  /** Every question with the values of its own widgets. */
  function EditedAll(qs: seq<EssayQuestion>, texts: seq<string>, limits: seq<nat>): (r: seq<EssayQuestion>)
    requires |texts| == |qs| && |limits| == |qs|
    ensures |r| == |qs|
    ensures forall i :: 0 <= i < |qs| ==> r[i] == Edited(qs[i], texts[i], limits[i])
  {
    seq(|qs|, i requires 0 <= i < |qs| => Edited(qs[i], texts[i], limits[i]))
  }

  /** The indices a run deletes: a run has at most one button click, and the
      delete buttons exist only while the list holds more than one question. */
  function DeleteMarks(n: nat, clicked: Option<nat>): (m: set<nat>)
    ensures m == {} || (n > 1 && clicked.Some? && clicked.value < n && m == {clicked.value})
  {
    if n > 1 && clicked.Some? && clicked.value < n then {clicked.value} else {}
  }

  /** The delete buttons clicked in a run: none or one. */
  function ClickSet(clicked: Option<nat>): set<nat> {
    if clicked.Some? then {clicked.value} else {}
  }

  /** The indices the edit loop collects for a run's click are the run's
      delete marks. */
  lemma CollectedMarks(n: nat, clicked: Option<nat>, toRemove: seq<nat>)
    requires n <= 1 ==> toRemove == []
    requires forall k :: 0 <= k < |toRemove| ==> toRemove[k] < n && toRemove[k] in ClickSet(clicked)
    requires n > 1 ==> forall i :: 0 <= i < n && i in ClickSet(clicked) ==> i in toRemove
    ensures (set k | 0 <= k < |toRemove| :: toRemove[k]) == DeleteMarks(n, clicked)
  {
    var collected := set k | 0 <= k < |toRemove| :: toRemove[k];
    forall x | x in collected ensures x in DeleteMarks(n, clicked) {
      var k :| 0 <= k < |toRemove| && toRemove[k] == x;
    }
    forall x | x in DeleteMarks(n, clicked) ensures x in collected {
      assert x in toRemove;
      var k :| 0 <= k < |toRemove| && toRemove[k] == x;
    }
  }

  /** A run of the editor never empties the list: without a delete the list
      is unchanged, and a delete removes exactly the clicked question. */
  lemma DeleteKeepsOne<T>(qs: seq<T>, clicked: Option<nat>)
    requires qs != []
    ensures Unmarked(qs, DeleteMarks(|qs|, clicked)) != []
    ensures DeleteMarks(|qs|, clicked) == {} ==> Unmarked(qs, {}) == qs
    ensures DeleteMarks(|qs|, clicked) != {} ==>
      Unmarked(qs, DeleteMarks(|qs|, clicked)) == qs[..clicked.value] + qs[clicked.value + 1..]
  {
    if DeleteMarks(|qs|, clicked) == {} {
      KeptBlock(qs, {}, 0, |qs|);
      assert qs[0..|qs|] == qs;
    } else {
      DeleteOneLeavesRest(qs, clicked.value);
    }
  }

  /** Strictly increasing indices. */
  predicate Ascending(xs: seq<nat>) {
    forall i, j :: 0 <= i < j < |xs| ==> xs[i] < xs[j]
  }

  /** The elements of `qs` from index `lo` on whose index is not marked, in
      order. */
  function Kept<T>(qs: seq<T>, marked: set<nat>, lo: nat): (r: seq<T>)
    requires lo <= |qs|
    ensures |r| <= |qs| - lo
    decreases |qs| - lo
  {
    if lo == |qs| then []
    else (if lo in marked then [] else [qs[lo]]) + Kept(qs, marked, lo + 1)
  }

  /** The list without the marked indices: what deleting the marked questions
      is meant to leave. */
  function Unmarked<T>(qs: seq<T>, marked: set<nat>): seq<T> {
    Kept(qs, marked, 0)
  }

  /** With no marked index in [lo, hi), those elements are kept as a block. */
  lemma {:induction false} KeptBlock<T>(qs: seq<T>, marked: set<nat>, lo: nat, hi: nat)
    requires lo <= hi <= |qs|
    requires forall i :: lo <= i < hi ==> i !in marked
    ensures Kept(qs, marked, lo) == qs[lo..hi] + Kept(qs, marked, hi)
    decreases hi - lo
  {
    if lo < hi {
      KeptBlock(qs, marked, lo + 1, hi);
      var rest := Kept(qs, marked, hi);
      calc {
        Kept(qs, marked, lo);
        { assert lo !in marked; }
        [qs[lo]] + Kept(qs, marked, lo + 1);
        [qs[lo]] + (qs[lo + 1..hi] + rest);
        ([qs[lo]] + qs[lo + 1..hi]) + rest;
        { assert qs[lo..hi] == [qs[lo]] + qs[lo + 1..hi]; }
        qs[lo..hi] + rest;
      }
    }
  }

  /** Lines 124-127: the collected indices popped from the largest down.
      Each pop removes exactly the element first marked at that index, so
      the result is the list without the marked questions. */
  method PopDescending<T>(qs: seq<T>, toRemove: seq<nat>) returns (r: seq<T>)
    requires Ascending(toRemove)
    requires forall k :: 0 <= k < |toRemove| ==> toRemove[k] < |qs|
    ensures r == Unmarked(qs, set k | 0 <= k < |toRemove| :: toRemove[k])
  {
    var marked := set k | 0 <= k < |toRemove| :: toRemove[k];
    r := qs;
    var t := |toRemove|;
    var bound := |qs|;
    while t > 0
      invariant 0 <= t <= |toRemove|
      invariant bound == (if t < |toRemove| then toRemove[t] else |qs|)
      invariant r == qs[..bound] + Kept(qs, marked, bound)
    {
      t := t - 1;
      var p := toRemove[t];
      forall k | 0 <= k < |toRemove| ensures toRemove[k] <= p || toRemove[k] >= bound {
        if k > t {
          assert toRemove[t + 1] <= toRemove[k];
        }
      }
      PopStep(qs, marked, p, bound, r);
      r := r[..p] + r[p + 1..];
      bound := p;
    }
    forall k | 0 <= k < |toRemove| ensures toRemove[k] >= bound {
      if k > 0 {
        assert toRemove[0] < toRemove[k];
      }
    }
    KeptBlock(qs, marked, 0, bound);
  }

  /** Popping index `p` when the indices marked above it are already gone:
      the list then lacks every marked index from `p` on. */
  lemma PopStep<T>(qs: seq<T>, marked: set<nat>, p: nat, bound: nat, r: seq<T>)
    requires p < bound <= |qs| && p in marked
    requires forall i :: p < i < bound ==> i !in marked
    requires r == qs[..bound] + Kept(qs, marked, bound)
    ensures r[..p] + r[p + 1..] == qs[..p] + Kept(qs, marked, p)
  {
    KeptBlock(qs, marked, p + 1, bound);
    var head, kb := qs[..bound], Kept(qs, marked, bound);
    assert r[..p] == head[..p] == qs[..p];
    assert r[p + 1..] == head[p + 1..] + kb;
    assert head[p + 1..] == qs[p + 1..bound];
    assert Kept(qs, marked, p) == Kept(qs, marked, p + 1);
  }

  /** Deleting one question from a list of at least two leaves all the others,
      in order, so the list never becomes empty. */
  lemma {:induction false} DeleteOneLeavesRest<T>(qs: seq<T>, i: nat)
    requires |qs| > 1 && i < |qs|
    ensures Unmarked(qs, {i}) == qs[..i] + qs[i + 1..]
    ensures Unmarked(qs, {i}) != []
  {
    var marked: set<nat> := {i};
    KeptBlock(qs, marked, i + 1, |qs|);
    var after := Kept(qs, marked, i + 1);
    assert after == qs[i + 1..] by {
      assert Kept(qs, marked, |qs|) == [];
      assert qs[i + 1..|qs|] == qs[i + 1..];
    }
    assert Kept(qs, marked, i) == after;
    KeptBlock(qs, marked, 0, i);
    assert qs[0..i] == qs[..i];
    assert |qs[..i] + after| == |qs| - 1;
  }

  /** The outcome of the scrape button (lines 41-58). */
  datatype ScrapeOutcome =
    | UrlMissing            // warning, the scraper is not called
    | ScrapeFailed          // error, the text area keeps its content
    | Scraped(text: string) // the text area receives the cleaned text

  /** `fetch` stands for the request and parsing of the stripped URL: the page
      text, or None when they failed. */
  function ScrapeButton(urlInput: string, fetch: string -> Option<string>): (r: ScrapeOutcome)
    ensures r == UrlMissing <==> Strip(urlInput) == ""
    ensures r.Scraped? <==> Strip(urlInput) != "" && ScrapeJobPosting(fetch(Strip(urlInput))).GetOr("") != ""
    ensures r.Scraped? ==> r.text == CleanText(fetch(Strip(urlInput)).value) && r.text != ""
  {
    var url := Strip(urlInput);
    if url == "" then UrlMissing
    else
      var scraped := ScrapeJobPosting(fetch(url));
      if scraped.Some? && scraped.value != "" then Scraped(scraped.value) else ScrapeFailed
  }

  /** A page whose cleaned text is empty fails like a page that could not be
      fetched: the posting text area is only ever filled with text. */
  lemma BlankPageIsFailure(urlInput: string, fetch: string -> Option<string>)
    requires Strip(urlInput) != ""
    requires fetch(Strip(urlInput)).Some? && Chunks(fetch(Strip(urlInput)).value) == []
    ensures ScrapeButton(urlInput, fetch) == ScrapeFailed
  {
    CleanTextIsChunkLines(fetch(Strip(urlInput)).value);
  }
}
