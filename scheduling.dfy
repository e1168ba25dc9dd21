/**
 * Where a future's function body runs: the execution policies, the engine's
 * named threads, and the (policy, thread) pair a promise records.
 */
module Scheduling {
  /** `EExpectedFutureExecutionPolicy`. */
  datatype ExecutionPolicy = Current | Inline | NamedThread | ThreadPool

  /** `ENamedThreads::Type`, kept abstract apart from the three values the
      library names; every other thread is `OtherThread(id)`. */
  datatype Thread = UnusedAnchor | AnyThread | GameThread | OtherThread(id: nat)

  /** `FExecutionDetails`. */
  datatype ExecutionDetails = ExecutionDetails(executionPolicy: ExecutionPolicy, executionThread: Thread)

  /** The default-constructed `FExecutionDetails`, which every promise built
      without details carries. */
  const DefaultExecutionDetails := ExecutionDetails(Current, AnyThread)
}
