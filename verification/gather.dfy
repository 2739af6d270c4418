/** `asyncio.gather` over coroutines whose outcomes are already fixed: the
    chains start every task at once and wait for all of them. */
module Gather {
  import opened Wrappers

  /** All outputs in task order, or the exception of the first task (in task
      order) that raised; with no exception every task has produced its
      output. */
  method GatherAll<T>(tasks: seq<Result<T, string>>) returns (r: Result<seq<T>, string>)
    ensures r.Success? <==> forall k :: 0 <= k < |tasks| ==> tasks[k].Success?
    ensures r.Success? ==> |r.value| == |tasks| && forall k :: 0 <= k < |tasks| ==> tasks[k] == Success(r.value[k])
    ensures r.Failure? ==> exists k :: (0 <= k < |tasks| && tasks[k] == Failure(r.error) &&
      forall k' :: 0 <= k' < k ==> tasks[k'].Success?)
  {
    var outputs: seq<T> := [];
    for t := 0 to |tasks|
      invariant |outputs| == t
      invariant forall k :: 0 <= k < t ==> tasks[k] == Success(outputs[k])
    {
      if tasks[t].Failure? {
        return Failure(tasks[t].error);
      }
      outputs := outputs + [tasks[t].value];
    }
    return Success(outputs);
  }
}
