/**
 * `FutureExecutionDetails::GetExecutionDetails`: which (policy, thread) pair a
 * new future's function runs with. The thread the caller is on, which the
 * source asks the task graph for, is a parameter.
 */
module FutureExecutionDetails {
  import opened Scheduling
  import opened ExpectedFutureOptions

  /** Without an antecedent: ThreadPool runs on any pool thread, NamedThread on
      the desired thread, and Inline falls back to Current on the caller's thread. */
  function GetExecutionDetails<R>(options: Options<R>, currentThread: Thread): (d: ExecutionDetails)
    ensures d.executionPolicy != Inline
    ensures d.executionPolicy == ThreadPool <==> options.GetExecutionPolicy() == ThreadPool
    ensures d.executionPolicy == NamedThread <==> options.GetExecutionPolicy() == NamedThread
    ensures d.executionPolicy == ThreadPool ==> d.executionThread == AnyThread
    ensures d.executionPolicy == NamedThread ==> d.executionThread == options.GetDesiredExecutionThread()
    ensures d.executionPolicy == Current ==> d.executionThread == currentThread
  {
    if options.GetExecutionPolicy() == ThreadPool then
      ExecutionDetails(ThreadPool, AnyThread)
    else
      match options.GetExecutionPolicy()
      case NamedThread => ExecutionDetails(NamedThread, options.GetDesiredExecutionThread())
      case _ => ExecutionDetails(Current, currentThread)
  }

  /** With an antecedent future: Inline copies the antecedent's details, and
      every other policy ignores the antecedent. */
  function GetExecutionDetailsAfter<R>(options: Options<R>, antecedent: ExecutionDetails, currentThread: Thread): (d: ExecutionDetails)
    ensures options.GetExecutionPolicy() == Inline ==> d == antecedent
    ensures options.GetExecutionPolicy() != Inline ==> d == GetExecutionDetails(options, currentThread)
  {
    if options.GetExecutionPolicy() == Inline then antecedent else GetExecutionDetails(options, currentThread)
  }

  /** Apart from Inline, the antecedent makes no difference. */
  lemma AntecedentIgnoredUnlessInline<R>(options: Options<R>, a1: ExecutionDetails, a2: ExecutionDetails, currentThread: Thread)
    requires options.GetExecutionPolicy() != Inline
    ensures GetExecutionDetailsAfter(options, a1, currentThread) == GetExecutionDetailsAfter(options, a2, currentThread)
  {
  }

  /** Details resolved from sane options never ask for NamedThread on UnusedAnchor. */
  lemma SaneOptionsNeverTargetUnusedAnchor<R>(options: Options<R>, currentThread: Thread)
    requires Sane(options.properties)
    ensures var d := GetExecutionDetails(options, currentThread);
      d.executionPolicy == NamedThread ==> d.executionThread != UnusedAnchor
  {
  }

  /** A chain of continuations keeps Inline out of every resolved policy:
      if the antecedent's policy is not Inline, neither is the new one. */
  lemma InlineNeverRecorded<R>(options: Options<R>, antecedent: ExecutionDetails, currentThread: Thread)
    requires antecedent.executionPolicy != Inline
    ensures GetExecutionDetailsAfter(options, antecedent, currentThread).executionPolicy != Inline
  {
  }

  /** The chain of policies, first future first: every step that is Inline
      runs where the step before it ran; the first step has no antecedent. */
  function ChainDetails<R>(chain: seq<Options<R>>, threads: seq<Thread>): (ds: seq<ExecutionDetails>)
    requires |threads| == |chain|
    ensures |ds| == |chain|
    ensures forall i :: 0 <= i < |ds| ==> ds[i].executionPolicy != Inline
    decreases |chain|
  {
    if chain == [] then []
    else if |chain| == 1 then [GetExecutionDetails(chain[0], threads[0])]
    else
      var before := ChainDetails(chain[..|chain| - 1], threads[..|chain| - 1]);
      before + [GetExecutionDetailsAfter(chain[|chain| - 1], before[|before| - 1], threads[|chain| - 1])]
  }
}
