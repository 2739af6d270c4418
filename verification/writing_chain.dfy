/** chains/writing_chain.py: one draft per (question, model) pair. The prompt
    of each draft is built from the state; every pair becomes one task, the
    tasks are gathered, and the outputs are put back into one list per
    question, ordered like the model list. */
module WritingChain {
  import opened Wrappers
  import opened Text
  import opened LlmUtil
  import opened State
  import opened Gather

  /** The named arguments of the two draft templates, already rendered with
      `str()`. */
  datatype DraftPart =
    | DraftSystem(jobPosting: string, strategyContent: string, userExperiences: string, writingGuidelines: string)
    | DraftHuman(questionText: string, charLimit: string)

  /** A chat model call: provider, model name and prompt in, the response
      content out, or the exception it raised. */
  type DraftModel = (string, string, seq<Message<DraftPart>>) -> Result<Content, string>

  /** `state.get(key, default)` rendered by `str.format`: a stored None prints "None". */
  function SlotText(s: Slot<string>, default: string): (r: string)
    ensures s.Missing? ==> r == default
    ensures s.Null? ==> r == "None"
    ensures s.Value? ==> r == s.value
  {
    match s
    case Missing => default
    case Null => "None"
    case Value(v) => v
  }

  const NoLimitText := "제한 없음"

  /** `question.get('char_limit', '제한 없음')` rendered by `str.format`. */
  function CharLimitText(c: Slot<nat>): string {
    match c
    case Missing => NoLimitText
    case Null => "None"
    case Value(n) => NatToString(n)
  }

  /** The no-limit text is used exactly when the question has no
      "char_limit" key; a stored None reaches the template as "None". */
  lemma NoLimitTextOnlyWhenMissing(c: Slot<nat>)
    ensures CharLimitText(c) == NoLimitText <==> c.Missing?
  {
    if c.Value? {
      assert NatToString(c.value)[0] != NoLimitText[0];
    }
    if c.Null? {
      assert "None"[0] != NoLimitText[0];
    }
  }

  /** `_make_prompt`: the system message carries the posting, the strategy
      text, the experience and the guidelines, the human message the
      question and its limit. */
  function MakeDraftPrompt(s: ResumeState, q: EssayQuestion): (r: seq<Message<DraftPart>>)
    ensures |r| == 2 && r[0].role == System && r[1].role == Human
    ensures r[0].content.DraftSystem? && r[1].content.DraftHuman?
    ensures r[1].content.questionText == q.questionText
    ensures r[0].content.strategyContent == StrategyText(s.writingStrategy)
    ensures r[0].content.jobPosting == s.jobPosting.GetOr("") && r[0].content.userExperiences == s.userExperiences.GetOr("")
    ensures r[0].content.writingGuidelines == SlotText(s.writingGuidelines, "")
    ensures r[1].content.charLimit == CharLimitText(q.charLimit)
  {
    var system := DraftSystem(s.jobPosting.GetOr(""), StrategyText(s.writingStrategy),
                              s.userExperiences.GetOr(""), SlotText(s.writingGuidelines, ""));
    var human := DraftHuman(q.questionText, CharLimitText(q.charLimit));
    [Message(System, system), Message(Human, human)]
  }

  /** `_generate_single_draft`: an unknown model fails before any call;
      otherwise the model's content, normalised to text, or its exception. */
  function SingleDraft(llm: DraftModel, s: ResumeState, q: EssayQuestion, model: string): (r: Result<string, string>)
    ensures model !in ModelProviderMap ==> r == Failure("지원하지 않는 모델입니다: " + model)
    ensures model in ModelProviderMap ==>
      var answer := llm(ModelProviderMap[model], model, MakeDraftPrompt(s, q));
      (answer.Failure? ==> r == Failure(answer.error)) && (answer.Success? ==> r == Success(ContentText(answer.value)))
  {
    match GetProviderForModel(model)
    case Failure(e) => Failure(e)
    case Success(provider) =>
      match llm(provider, model, MakeDraftPrompt(s, q))
      case Failure(e) => Failure(e)
      case Success(c) => Success(ContentText(c))
  }

  /** Question `i` paired with each of the first `j` models. */
  function Row(i: int, j: nat): (r: seq<(int, int)>)
    ensures |r| == j && forall k :: 0 <= k < j ==> r[k] == (i, k)
  {
    seq(j, k => (i, k))
  }

  /** The task metadata of the first `n` questions and `m` models, question-major. */
  function Pairs(n: nat, m: nat): (r: seq<(int, int)>)
    ensures |r| == n * m
    ensures forall k :: 0 <= k < |r| ==> 0 <= r[k].0 < n && 0 <= r[k].1 < m
  {
    if n == 0 then [] else Pairs(n - 1, m) + Row(n - 1, m)
  }

  /** Task `i * m + j` is the pair (i, j): one task per pair, in order. */
  lemma {:induction false} PairsIndex(n: nat, m: nat, i: nat, j: nat)
    requires i < n && j < m
    ensures i * m + j < n * m && Pairs(n, m)[i * m + j] == (i, j)
  {
    assert (n - 1) * m + m == n * m;
    if i < n - 1 {
      PairsIndex(n - 1, m, i, j);
    } else {
      assert i * m + j - (n - 1) * m == j;
    }
  }

  /** No pair occurs twice in the task list. */
  lemma {:induction false} PairsDistinct(n: nat, m: nat)
    ensures forall a, b :: 0 <= a < b < |Pairs(n, m)| ==> Pairs(n, m)[a] != Pairs(n, m)[b]
  {
    if n > 0 {
      PairsDistinct(n - 1, m);
      var p: seq<(int, int)>, q: seq<(int, int)> := Pairs(n - 1, m), Row(n - 1, m);
      assert Pairs(n, m) == p + q;
      forall a, b | 0 <= a < b < |p + q| ensures (p + q)[a] != (p + q)[b] {
        if b < |p| {
        } else if a < |p| {
          assert (p + q)[a].0 < n - 1 && (p + q)[b].0 == n - 1;
        } else {
          assert (p + q)[a] == q[a - |p|] && (p + q)[b] == q[b - |p|];
        }
      }
    }
  }

  /** Every (question, model) pair has a task. */
  lemma {:induction false} PairsCover(n: nat, m: nat, i: int, j: int)
    requires 0 <= i < n && 0 <= j < m
    ensures (i, j) in Pairs(n, m)
  {
    var p: seq<(int, int)>, q: seq<(int, int)> := Pairs(n - 1, m), Row(n - 1, m);
    assert Pairs(n, m) == p + q;
    if i < n - 1 {
      PairsCover(n - 1, m, i, j);
      var k :| 0 <= k < |p| && p[k] == (i, j);
      assert (p + q)[k] == (i, j);
    } else {
      assert (p + q)[|p| + j] == (i, j);
    }
  }

  /** The placeholder list `[None] * len(models)` before any slot is filled. */
  function Blank(k: nat): (r: seq<string>)
    ensures |r| == k
  {
    seq(k, _ => "")
  }

  /** The questions that tasks `0..t` belong to, as keys. */
  ghost function TaskKeys(meta: seq<(int, int)>, t: nat): set<string>
    requires t <= |meta| && forall k :: 0 <= k < |meta| ==> meta[k].0 >= 0
  {
    set k | 0 <= k < t :: Key(meta[k].0)
  }

  /** The draft of question `p.0` by model `p.1`. */
  function PairDraft(llm: DraftModel, s: ResumeState, questions: seq<EssayQuestion>, models: seq<string>,
                     p: (int, int)): Result<string, string>
    requires 0 <= p.0 < |questions| && 0 <= p.1 < |models|
  {
    SingleDraft(llm, s, questions[p.0], models[p.1])
  }

  /** The nested loops of `_process_all_questions`: for each question, for
      each model, one task and its metadata (question index, model index). */
  method BuildTasks(llm: DraftModel, s: ResumeState, questions: seq<EssayQuestion>, models: seq<string>)
    returns (tasks: seq<Result<string, string>>, meta: seq<(int, int)>)
    ensures meta == Pairs(|questions|, |models|) && |tasks| == |meta|
    ensures forall k :: 0 <= k < |meta| ==> tasks[k] == PairDraft(llm, s, questions, models, meta[k])
  {
    var n, m := |questions|, |models|;
    tasks, meta := [], [];
    for i := 0 to n
      invariant meta == Pairs(i, m) && |tasks| == |meta|
      invariant forall k :: 0 <= k < |meta| ==> tasks[k] == PairDraft(llm, s, questions, models, meta[k])
    {
      for j := 0 to m
        invariant meta == Pairs(i, m) + Row(i, j) && |tasks| == |meta|
        invariant forall k :: 0 <= k < |meta| ==> tasks[k] == PairDraft(llm, s, questions, models, meta[k])
      {
        assert Row(i, j) + [(i, j)] == Row(i, j + 1);
        tasks := tasks + [PairDraft(llm, s, questions, models, (i, j))];
        meta := meta + [(i, j)];
      }
    }
  }

  /** The reshaping loop of `_process_all_questions`: output t goes to slot
      `m_idx` of the list of key `str(q_idx + 1)`, the list being created full
      of placeholders the first time its key is seen. Since no (question,
      model) pair occurs twice, no output overwrites another: each task's
      output is in its own slot, and every question that has a task has a list. */
  method Reshape(outputs: seq<string>, meta: seq<(int, int)>, m: nat)
    returns (results: map<string, seq<string>>)
    requires |outputs| == |meta|
    requires forall k :: 0 <= k < |meta| ==> meta[k].0 >= 0 && 0 <= meta[k].1 < m
    requires forall a, b :: 0 <= a < b < |meta| ==> meta[a] != meta[b]
    ensures results.Keys == TaskKeys(meta, |meta|)
    ensures forall key :: key in results ==> |results[key]| == m
    ensures forall k :: 0 <= k < |meta| ==> results[Key(meta[k].0)][meta[k].1] == outputs[k]
    ensures Placed(results, outputs, meta, m, |meta|)
  {
    results := map[];
    for t := 0 to |meta|
      invariant Placed(results, outputs, meta, m, t)
    {
      var idx := Key(meta[t].0);
      PlaceStep(results, outputs, meta, m, t);
      if idx !in results {
        results := results[idx := Blank(m)];
      }
      results := results[idx := results[idx][meta[t].1 := outputs[t]]];
    }
  }

  /** What the reshaping loop has built after `t` tasks: one list of `m`
      slots per question seen so far, each task's output in its slot. */
  ghost predicate Placed(results: map<string, seq<string>>, outputs: seq<string>, meta: seq<(int, int)>, m: nat, t: nat)
    requires t <= |meta| == |outputs|
    requires forall k :: 0 <= k < |meta| ==> meta[k].0 >= 0 && 0 <= meta[k].1 < m
  {
    && results.Keys == TaskKeys(meta, t)
    && (forall key :: key in results ==> |results[key]| == m)
    && (forall k :: 0 <= k < t ==> results[Key(meta[k].0)][meta[k].1] == outputs[k])
  }

  /** Placing task `t`'s output keeps every earlier output in its slot. */
  lemma PlaceStep(results: map<string, seq<string>>, outputs: seq<string>, meta: seq<(int, int)>, m: nat, t: nat)
    requires t < |meta| == |outputs|
    requires forall k :: 0 <= k < |meta| ==> meta[k].0 >= 0 && 0 <= meta[k].1 < m
    requires forall a, b :: 0 <= a < b < |meta| ==> meta[a] != meta[b]
    requires Placed(results, outputs, meta, m, t)
    ensures var idx := Key(meta[t].0);
      var withList := if idx !in results then results[idx := Blank(m)] else results;
      Placed(withList[idx := withList[idx][meta[t].1 := outputs[t]]], outputs, meta, m, t + 1)
  {
    var idx := Key(meta[t].0);
    var withList := if idx !in results then results[idx := Blank(m)] else results;
    assert withList.Keys == TaskKeys(meta, t) + {idx};
    assert forall key :: key in withList ==> |withList[key]| == m;
    assert forall k :: 0 <= k < t ==> withList[Key(meta[k].0)][meta[k].1] == outputs[k];
    TaskKeysStep(meta, t);
    PlaceSlots(withList, outputs, meta, m, t);
  }

  /** Writing task `t`'s slot into a map that already has a list of `m`
      slots for its question. */
  lemma PlaceSlots(withList: map<string, seq<string>>, outputs: seq<string>, meta: seq<(int, int)>, m: nat, t: nat)
    requires t < |meta| == |outputs|
    requires forall k :: 0 <= k < |meta| ==> meta[k].0 >= 0 && 0 <= meta[k].1 < m
    requires forall a, b :: 0 <= a < b < |meta| ==> meta[a] != meta[b]
    requires withList.Keys == TaskKeys(meta, t + 1)
    requires forall key :: key in withList ==> |withList[key]| == m
    requires forall k :: 0 <= k < t ==> withList[Key(meta[k].0)][meta[k].1] == outputs[k]
    ensures var idx := Key(meta[t].0);
      Placed(withList[idx := withList[idx][meta[t].1 := outputs[t]]], outputs, meta, m, t + 1)
  {
    var idx := Key(meta[t].0);
    var placed := withList[idx := withList[idx][meta[t].1 := outputs[t]]];
    forall k | 0 <= k < t
      ensures placed[Key(meta[k].0)][meta[k].1] == outputs[k]
    {
      SlotKept(withList, outputs, meta, t, k);
    }
  }

  lemma TaskKeysStep(meta: seq<(int, int)>, t: nat)
    requires t < |meta| && forall k :: 0 <= k < |meta| ==> meta[k].0 >= 0
    ensures TaskKeys(meta, t + 1) == TaskKeys(meta, t) + {Key(meta[t].0)}
  {
  }

  /** An earlier task's slot is not the one task `t` writes. */
  lemma SlotKept(withList: map<string, seq<string>>, outputs: seq<string>, meta: seq<(int, int)>, t: nat, k: nat)
    requires k < t < |meta| == |outputs|
    requires forall k :: 0 <= k < |meta| ==> meta[k].0 >= 0 && meta[k].1 >= 0
    requires meta[k] != meta[t]
    requires Key(meta[t].0) in withList && meta[t].1 < |withList[Key(meta[t].0)]|
    requires Key(meta[k].0) in withList && meta[k].1 < |withList[Key(meta[k].0)]|
    requires withList[Key(meta[k].0)][meta[k].1] == outputs[k]
    ensures var idx := Key(meta[t].0);
      withList[idx := withList[idx][meta[t].1 := outputs[t]]][Key(meta[k].0)][meta[k].1] == outputs[k]
  {
    KeyInjective(meta[k].0, meta[t].0);
  }

  /** With the task list of all pairs, the keys are those of the questions
      (none when there are no models). */
  lemma TaskKeysOfPairs(n: nat, m: nat)
    ensures forall k :: 0 <= k < |Pairs(n, m)| ==> Pairs(n, m)[k].0 >= 0
    ensures TaskKeys(Pairs(n, m), n * m) == (if m == 0 then {} else KeysBelow(n))
  {
    var meta := Pairs(n, m);
    if m > 0 {
      forall i | 0 <= i < n ensures Key(i) in TaskKeys(meta, n * m) {
        PairsCover(n, m, i, 0);
      }
    }
  }

  /** After the reshaping, slot j of question i's list holds the output of
      the task of pair (i, j). */
  lemma PairPlaced(n: nat, m: nat, meta: seq<(int, int)>, outputs: seq<string>,
                   results: map<string, seq<string>>, i: nat, j: nat)
    requires meta == Pairs(n, m) && |meta| == |outputs|
    requires forall k :: 0 <= k < |meta| ==> Key(meta[k].0) in results && meta[k].1 < |results[Key(meta[k].0)]|
    requires forall k :: 0 <= k < |meta| ==> results[Key(meta[k].0)][meta[k].1] == outputs[k]
    requires i < n && j < m
    ensures exists k :: (0 <= k < |meta| && meta[k] == (i, j) && Key(i) in results && j < |results[Key(i)]| &&
                         results[Key(i)][j] == outputs[k])
  {
    PairsIndex(n, m, i, j);
    var k := i * m + j;
    assert results[Key(meta[k].0)][meta[k].1] == outputs[k];
  }

  /** The drafts of a gather that succeeded, reshaped: one list per
      question, slot j holding the draft by `models[j]`. */
  method PlaceDrafts(llm: DraftModel, s: ResumeState, questions: seq<EssayQuestion>, models: seq<string>,
                     tasks: seq<Result<string, string>>, meta: seq<(int, int)>, outputs: seq<string>)
    returns (results: map<string, seq<string>>)
    requires meta == Pairs(|questions|, |models|) && |tasks| == |meta| == |outputs|
    requires forall k :: 0 <= k < |meta| ==> tasks[k] == PairDraft(llm, s, questions, models, meta[k])
    requires forall k :: 0 <= k < |tasks| ==> tasks[k] == Success(outputs[k])
    ensures results.Keys == (if models == [] then {} else KeysBelow(|questions|))
    ensures forall key :: key in results ==> |results[key]| == |models|
    ensures forall i, j :: 0 <= i < |questions| && 0 <= j < |models| ==>
      SingleDraft(llm, s, questions[i], models[j]) == Success(results[Key(i)][j])
  {
    var n, m := |questions|, |models|;
    PairsDistinct(n, m);
    TaskKeysOfPairs(n, m);
    results := Reshape(outputs, meta, m);
    forall i, j | 0 <= i < n && 0 <= j < m
      ensures Key(i) in results && j < |results[Key(i)]|
      ensures SingleDraft(llm, s, questions[i], models[j]) == Success(results[Key(i)][j])
    {
      DraftInSlot(llm, s, questions, models, tasks, meta, outputs, results, i, j);
    }
  }

  /** The output of the task of pair (i, j) is question i's slot j, and it is
      that pair's draft. */
  lemma DraftInSlot(llm: DraftModel, s: ResumeState, questions: seq<EssayQuestion>, models: seq<string>,
                    tasks: seq<Result<string, string>>, meta: seq<(int, int)>, outputs: seq<string>,
                    results: map<string, seq<string>>, i: nat, j: nat)
    requires meta == Pairs(|questions|, |models|) && |tasks| == |meta| == |outputs|
    requires forall k :: 0 <= k < |meta| ==> tasks[k] == PairDraft(llm, s, questions, models, meta[k])
    requires forall k :: 0 <= k < |tasks| ==> tasks[k] == Success(outputs[k])
    requires forall k :: 0 <= k < |meta| ==> Key(meta[k].0) in results && meta[k].1 < |results[Key(meta[k].0)]|
    requires forall k :: 0 <= k < |meta| ==> results[Key(meta[k].0)][meta[k].1] == outputs[k]
    requires i < |questions| && j < |models|
    ensures Key(i) in results && j < |results[Key(i)]|
    ensures SingleDraft(llm, s, questions[i], models[j]) == Success(results[Key(i)][j])
  {
    PairPlaced(|questions|, |models|, meta, outputs, results, i, j);
    var k :| (0 <= k < |meta| && meta[k] == (i, j) && Key(i) in results && j < |results[Key(i)]| &&
              results[Key(i)][j] == outputs[k]);
    assert tasks[k] == PairDraft(llm, s, questions, models, (i, j));
  }

  /** `generate_drafts`. Tasks are made in nested loops, gathered in task
      order (the first failing task's exception propagates and no drafts are
      returned), and reshaped so that slot j of question i's list is the draft
      for `models[j]`. Keys are "1".."N"; no models or no questions give the
      empty map. */
  method GenerateDrafts(llm: DraftModel, s: ResumeState, models: seq<string>)
    returns (r: Result<map<string, seq<string>>, string>)
    ensures r.Failure? <==> exists i, j :: (0 <= i < |Questions(s)| && 0 <= j < |models| &&
      SingleDraft(llm, s, Questions(s)[i], models[j]).Failure?)
    ensures r.Failure? ==> exists i, j :: (0 <= i < |Questions(s)| && 0 <= j < |models| &&
      SingleDraft(llm, s, Questions(s)[i], models[j]) == Failure(r.error))
    ensures r.Success? ==> r.value.Keys == (if models == [] then {} else KeysBelow(|Questions(s)|))
    ensures r.Success? ==> forall i :: 0 <= i < |Questions(s)| && models != [] ==> |r.value[Key(i)]| == |models|
    ensures r.Success? ==> forall i, j :: 0 <= i < |Questions(s)| && 0 <= j < |models| ==>
      r.value[Key(i)][j] == SingleDraft(llm, s, Questions(s)[i], models[j]).value
  {
    var questions := Questions(s);
    var n, m := |questions|, |models|;
    var tasks, meta := BuildTasks(llm, s, questions, models);
    var gathered := GatherAll(tasks);
    if gathered.Failure? {
      var k :| 0 <= k < |tasks| && tasks[k] == Failure(gathered.error);
      var i, j := meta[k].0, meta[k].1;
      assert SingleDraft(llm, s, questions[i], models[j]) == Failure(gathered.error);
      return Failure(gathered.error);
    }
    var results := PlaceDrafts(llm, s, questions, models, tasks, meta, gathered.value);
    r := Success(results);
  }
}
