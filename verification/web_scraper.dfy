/** tools/web_scraper.py: the clean-up applied to the text of a fetched job
    posting. The page is cut into lines, each line is stripped and cut into
    phrases at every double space, each phrase is stripped, the empty ones are
    dropped and the rest are joined one per line. */
module WebScraper {
  import opened Wrappers
  import opened Text

  /** The text cut at every line-break character. Unlike `str.splitlines()`
      this also yields an empty piece inside "\r\n", after a final line break
      and for the empty text; every such piece is empty and so yields no
      chunk, which leaves the cleaned text the same. */
  function Lines(s: string): (r: seq<string>)
    ensures |r| >= 1
    ensures forall k :: 0 <= k < |r| ==> '\n' !in r[k]
  {
    if s == [] then [""]
    else if IsLineBreak(s[0]) then [""] + Lines(s[1..])
    else
      var rest := Lines(s[1..]);
      [[s[0]] + rest[0]] + rest[1..]
  }

  /** `line.split("  ")`: the text cut at each double space, scanning from the
      left, so no phrase holds a double space of its own. */
  function Phrases(s: string): (r: seq<string>)
    ensures |r| >= 1
    ensures |r[0]| <= |s| && r[0] == s[..|r[0]|]
    ensures forall k :: 0 <= k < |r| ==> !HasDoubleSpace(r[k])
    ensures '\n' !in s ==> forall k :: 0 <= k < |r| ==> '\n' !in r[k]
  {
    if |s| < 2 then [s]
    else if s[0] == ' ' && s[1] == ' ' then [""] + Phrases(s[2..])
    else
      var rest := Phrases(s[1..]);
      PrependKeepsNoDoubleSpace(s, rest[0]);
      [[s[0]] + rest[0]] + rest[1..]
  }

  lemma PrependKeepsNoDoubleSpace(s: string, p: string)
    requires |s| >= 2 && !(s[0] == ' ' && s[1] == ' ')
    requires |p| <= |s| - 1 && p == s[1..][..|p|]
    requires !HasDoubleSpace(p)
    ensures !HasDoubleSpace([s[0]] + p)
  {
    var q := [s[0]] + p;
    forall k | 0 <= k < |q| - 1
      ensures !(q[k] == ' ' && q[k + 1] == ' ')
    {
      if k > 0 {
        assert q[k] == p[k - 1] && q[k + 1] == p[k];
      } else {
        assert q[1] == s[1];
      }
    }
  }

  /** A line of the cleaned text: not empty, no whitespace at either end, no
      double space and no newline. */
  predicate IsChunk(c: string) {
    && c != []
    && !IsSpace(c[0]) && !IsSpace(c[|c| - 1])
    && !HasDoubleSpace(c)
    && '\n' !in c
  }

  /** Stripping keeps a piece that has no double space and no newline free of both. */
  lemma StripKeepsClean(s: string)
    requires !HasDoubleSpace(s) && '\n' !in s
    ensures !HasDoubleSpace(Strip(s)) && '\n' !in Strip(s)
  {
    var r := Strip(s);
    var lo := |s| - |StripLeft(s)|;
    assert lo + |r| <= |s| && r == s[lo..lo + |r|];
    SliceKeepsClean(s, lo, lo + |r|);
  }

  lemma SliceKeepsClean(s: string, lo: nat, hi: nat)
    requires lo <= hi <= |s|
    requires !HasDoubleSpace(s) && '\n' !in s
    ensures !HasDoubleSpace(s[lo..hi]) && '\n' !in s[lo..hi]
  {
    var r := s[lo..hi];
    forall k | 0 <= k < |r| - 1
      ensures !(r[k] == ' ' && r[k + 1] == ' ')
    {
      assert r[k] == s[lo + k] && r[k + 1] == s[lo + k + 1];
    }
    forall k | 0 <= k < |r|
      ensures r[k] != '\n'
    {
      assert r[k] == s[lo + k];
    }
  }

  /** The stripped, non-empty phrases, in order. */
  function PhraseChunks(phrases: seq<string>): (r: seq<string>)
    requires forall k :: 0 <= k < |phrases| ==> !HasDoubleSpace(phrases[k]) && '\n' !in phrases[k]
    ensures |r| <= |phrases|
    ensures forall k :: 0 <= k < |r| ==> IsChunk(r[k])
  {
    if phrases == [] then []
    else
      var c := Strip(phrases[0]);
      StripKeepsClean(phrases[0]);
      (if c == [] then [] else [c]) + PhraseChunks(phrases[1..])
  }

  /** The chunks of every line, line by line and phrase by phrase. */
  function LineChunks(lines: seq<string>): (r: seq<string>)
    requires forall k :: 0 <= k < |lines| ==> '\n' !in lines[k]
    ensures forall k :: 0 <= k < |r| ==> IsChunk(r[k])
  {
    if lines == [] then []
    else
      var line := Strip(lines[0]);
      PhraseChunks(Phrases(line)) + LineChunks(lines[1..])
  }

  function Chunks(text: string): (r: seq<string>)
    ensures forall k :: 0 <= k < |r| ==> IsChunk(r[k])
  {
    LineChunks(Lines(text))
  }

  /** The cleaned text of lines 35-37. */
  function CleanText(text: string): string {
    Join(Chunks(text), "\n")
  }

  /** The cleaned text is its chunks one per line: splitting it at newlines
      gives back exactly the chunks in line-then-phrase order, and every line
      is non-empty, trimmed and free of double spaces; no chunks give "". */
  lemma {:induction false} CleanTextIsChunkLines(text: string)
    ensures Chunks(text) == [] ==> CleanText(text) == ""
    ensures Chunks(text) != [] ==> Split(CleanText(text), '\n') == Chunks(text)
  {
    JoinedChunks(Chunks(text));
  }

  lemma JoinedChunks(cs: seq<string>)
    requires forall k :: 0 <= k < |cs| ==> IsChunk(cs[k])
    ensures cs == [] ==> Join(cs, "\n") == ""
    ensures cs != [] ==> Split(Join(cs, "\n"), '\n') == cs
  {
    if cs != [] {
      SplitJoin(cs, '\n');
    }
  }

  /** A whitespace-only line contributes nothing. */
  lemma {:induction false} BlankLineDropped(line: string, rest: seq<string>)
    requires '\n' !in line && SpaceBetween(line, 0, |line|)
    requires forall k :: 0 <= k < |rest| ==> '\n' !in rest[k]
    ensures LineChunks([line] + rest) == LineChunks(rest)
  {
    var ls := [line] + rest;
    assert ls[0] == line && ls[1..] == rest;
    StripEmptyIffAllSpace(line);
    assert Strip(line) == [];
    assert Phrases([]) == [[]];
    EmptyPhraseDropped();
  }

  lemma EmptyPhraseDropped()
    ensures PhraseChunks([[]]) == []
  {
    var ps: seq<string> := [[]];
    assert ps[1..] == [];
    assert Strip(ps[0]) == [];
  }

  /** `scrape_job_posting`: `page` is the text BeautifulSoup extracts, or None
      when the request, the status check or the parsing raised. The result is
      None exactly in that case, and otherwise the cleaned text. */
  function ScrapeJobPosting(page: Option<string>): (r: Option<string>)
    ensures r.None? <==> page.None?
    ensures r.Some? ==> r.value == CleanText(page.value)
  {
    match page
    case None => None
    case Some(text) => Some(CleanText(text))
  }
}
