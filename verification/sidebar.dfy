/** ui/components/sidebar.py: the step list of the sidebar. Every step has a
    button labelled with a status prefix, its number and its name; a step is
    reachable when it is at most one past the highest completed step. */
module Sidebar {
  import opened Wrappers
  import opened Text

  /** The names of steps 1..8, in order. */
  const StepNames: seq<string> := [
    "입력 수집", "필수 정보 검증", "기업/직무 리서치", "전략 수립",
    "작성 요령 가이드", "초안 작성", "종합 검토", "최종 결과"
  ]

  /** The number of steps. */
  const StepCount: nat := 8

  lemma StepNamesCount()
    ensures |StepNames| == StepCount
  {
  }

  /** The wizard's steps: exactly 1..8, one per name. */
  predicate IsStep(n: int) {
    1 <= n <= StepCount
  }

  function StepName(n: int): (r: string)
    requires IsStep(n)
    ensures r == StepNames[n - 1]
  {
    StepNamesCount();
    StepNames[n - 1]
  }

  /** The largest element of a non-empty list. */
  function Max(xs: seq<int>): (m: int)
    requires xs != []
    ensures m in xs
    ensures forall k :: 0 <= k < |xs| ==> xs[k] <= m
  {
    if |xs| == 1 then xs[0]
    else
      var rest := Max(xs[1..]);
      if xs[0] >= rest then xs[0] else rest
  }

  /** `max(completed_steps) + 1`, or 1 when nothing is completed: one past the
      highest completed step, and step 1 when that step is not reached by the
      rule. */
  function MaxAccessibleStep(completed: seq<int>): (r: int)
    ensures completed == [] ==> r == 1
    ensures completed != [] ==> r - 1 in completed
    ensures forall k :: 0 <= k < |completed| ==> completed[k] < r
  {
    if completed == [] then 1 else Max(completed) + 1
  }

  /** A step button is disabled exactly when its step is beyond the maximum
      accessible step. */
  predicate IsDisabled(n: int, completed: seq<int>) {
    n > MaxAccessibleStep(completed)
  }

  const DoneMark := "✅ "
  const CurrentMark := "🔵 "

  /** The status prefix: the completed mark wins over the current mark, and a
      step that is neither gets none. */
  function Prefix(n: int, current: int, completed: seq<int>): (p: string)
    ensures p == DoneMark <==> n in completed
    ensures p == CurrentMark <==> n !in completed && n == current
    ensures p == "" <==> n !in completed && n != current
  {
    if n in completed then DoneMark
    else if n == current then CurrentMark
    else ""
  }

  /** `f"{prefix}{step_num}. {step_name}"`. */
  function Label(n: int, current: int, completed: seq<int>): string
    requires IsStep(n)
  {
    Prefix(n, current, completed) + NatToString(n) + ". " + StepName(n)
  }

  /** Each button shows its own step: the first character after the prefix is
      the step's digit, so two different steps never share a label whatever
      the statuses. */
  lemma LabelsDistinct(a: int, b: int, current: int, completed: seq<int>)
    requires IsStep(a) && IsStep(b) && a != b
    ensures Label(a, current, completed) != Label(b, current, completed)
  {
    var la, lb := Label(a, current, completed), Label(b, current, completed);
    var pa, pb := Prefix(a, current, completed), Prefix(b, current, completed);
    var da, db := NatToString(a), NatToString(b);
    assert da == [Digit(a)] && db == [Digit(b)];
    assert Digit(a) != Digit(b);
    assert la[|pa|] == da[0] && lb[|pb|] == db[0];
    if pa == pb {
      assert la[|pa|] != lb[|pa|];
    } else {
      assert la[0] == (if pa == "" then da[0] else pa[0]);
      assert lb[0] == (if pb == "" then db[0] else pb[0]);
      assert la[0] != lb[0];
    }
  }

  /** A click on the button of step `n`: the step to show next, or None when
      the button is disabled and the click does nothing. */
  function ClickTarget(n: int, completed: seq<int>): (r: Option<int>)
    ensures r.Some? <==> !IsDisabled(n, completed)
    ensures r.Some? ==> r.value == n
  {
    if IsDisabled(n, completed) then None else Some(n)
  }

  /** Jumping never leaves the reachable steps: a step reached by a click is at
      most one past the highest completed step, and a click on a step of the
      wizard stays in 1..8. */
  lemma ClickStaysReachable(n: int, completed: seq<int>)
    requires IsStep(n)
    requires ClickTarget(n, completed).Some?
    ensures IsStep(ClickTarget(n, completed).value)
    ensures ClickTarget(n, completed).value <= MaxAccessibleStep(completed)
    ensures completed != [] ==> exists k :: 0 <= k < |completed| && ClickTarget(n, completed).value <= completed[k] + 1
  {
    var m := MaxAccessibleStep(completed);
    if completed != [] {
      var k :| 0 <= k < |completed| && completed[k] == m - 1;
    }
  }

  /** Completing steps 1..k in order makes exactly steps 1..k+1 reachable. */
  lemma {:induction false} PrefixCompletedReach(k: nat)
    ensures MaxAccessibleStep(seq(k, i => i + 1)) == k + 1
  {
    var c := seq(k, i => i + 1);
    if k > 0 {
      assert c[k - 1] == k;
    }
  }
}
