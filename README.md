# SD future extensions, modelled in Dafny

This project models the `SD` futures library, an extension of Unreal Engine's futures. Its pieces:

- **Result type.** `TExpected<R>` is a four-state result: Incomplete, Completed with a value, Cancelled, or Error with an `Error` record. It comes with construction, assignment and the state-preserving conversions `Convert` and `ConvertIncomplete`.
- **Options.** `FExpectedFutureOptions` and its builder carry a weak cancellation handle, an execution policy and a desired thread. They are repaired by `Sanitize`.
- **Execution details.** `GetExecutionDetails` resolves those options, with or without an antecedent future, to a (policy, thread) pair.
- **Promises.** `TExpectedPromise` is set once and keeps only its first value. A `TExpectedFuture` is a read-only view of its slot.
- **Cancellation.** `FCancellationHandle` holds a cancelled flag and a list of promises to cancel. Registration either records a promise or cancels it at once.
- **Continuation dispatch.** `ExecuteInitialFunction`/`ExecuteContinuationFunction` decide whether a user function runs and what the next promise receives.
- **Tasks.** The task and thread-pool wrappers run a function only while their promise is unset. Abandoned thread-pool work is cancelled.
- **Type traits.** The compile-time traits pick the dispatch overload: `TUnwrap`, the return and parameter classes, and the initial/continuation specialisations.
- **Combinators.** `WhenAll`, `WhenAny`, and the void `WhenAll` with its Full and Fast fail modes.

Modules:

- `ErrorType`, `ExpectedResult`: `Error`, the `Expected` record, and the class `ExpectedVariable` for the in-place assignments.
- `Scheduling`, `ExpectedFutureOptions`, `FutureExecutionDetails`: policies, threads, options, the builder (a class) and execution-details resolution.
- `ExpectedPromise`: the `Promise` class, the `Future` view and the ready-future helpers.
- `Cancellation`: the `CancellationHandle` class and `TryAddPromiseToCancellationHandle`.
- `FutureExtensionTaskGraph`: dispatch functions, `DoTask`/`DoWork` guards and the `QueuedWork` class.
- `FutureExtensionTypeTraits`: types described by a `TypeDesc` datatype and functors by the argument lists they accept.
- `Deliveries`, `StaticFuncs`: the combinators.

A combinator's inputs deliver their results to callbacks one at a time, in an order the scheduler chooses. The model feeds a combinator a *run*. A run is a sequence of input results in delivery order, each input at most once (`IsRunOf`: a sub-multiset of the inputs' results). Each combinator is a method that runs its callback class over the run. It is proved to leave its output promise holding a specification function of the run.

Callers are modelled as their own source shows. The library's public operations only produce `Expected` values in one of the four canonical forms (`Expected.Valid`). Operations that read an Error's payload or a Completed value therefore take that as a precondition, since the source `checkf`s it.

## Model

| member | source | states |
|---|---|---|
| ErrorType.ErrorOfCode | Source/SDFutureExtensions/Public/Error.h:13-15 | the code is stored, context is 0 and there is no info string |
| ErrorType.ErrorWithContext | Source/SDFutureExtensions/Public/Error.h:17-20 | code and context are stored, info is absent |
| ErrorType.ErrorWithInfo | Source/SDFutureExtensions/Public/Error.h:22-25 | code and info are stored, context defaults to 0 |
| ErrorType.ErrorWithContextAndInfo | Source/SDFutureExtensions/Public/Error.h:27-31 | all three values are stored as given |
| ErrorType.ConstructorsAreInjective | Source/SDFutureExtensions/Public/Error.h:27-56 | the getters give back exactly what was constructed: two full errors are equal iff all three inputs are; an error without info never equals one with info; `Error(c, x)` equals `Error(c')` iff `c == c'` and `x == 0` |
| ExpectedResult.Expected.GetError | Source/SDFutureExtensions/Public/ExpectedResult.h:82-86 | requires the Error state with a stored error and returns that error |
| ExpectedResult.Expected.GetValue | Source/SDFutureExtensions/Public/ExpectedResult.h:181-201 | requires Completed and returns the stored value |
| ExpectedResult.DefaultExpected | Source/SDFutureExtensions/Public/ExpectedResult.h:21-23 | a default expected is Incomplete, with no value and no error |
| ExpectedResult.MakeReadyExpected | Source/SDFutureExtensions/Public/ExpectedResult.h:272-282 | Completed, and `GetValue` returns the given value |
| ExpectedResult.MakeErrorExpected | Source/SDFutureExtensions/Public/ExpectedResult.h:284-294 | Error state, `GetError` returns the given error, no value |
| ExpectedResult.MakeCancelledExpected | Source/SDFutureExtensions/Public/ExpectedResult.h:296-300 | Cancelled, with neither value nor error |
| ExpectedResult.StateQueriesExclusive | Source/SDFutureExtensions/Public/ExpectedResult.h:62-75 | at most one of IsCompleted/IsError/IsCancelled holds, and none holds iff the state is Incomplete |
| ExpectedResult.ValidIsCanonical | Source/SDFutureExtensions/Public/ExpectedResult.h:17-60 | every well-formed expected is one of the four forms the constructors build |
| ExpectedResult.Convert | Source/SDFutureExtensions/Public/ExpectedResult.h:322-354 | the state is kept: Completed gets the supplied value, Error keeps the same error, Cancelled and Incomplete stay as they are |
| ExpectedResult.ConvertIncomplete | Source/SDFutureExtensions/Public/ExpectedResult.h:356-388 | must not be given a Completed result; keeps the state and the error payload, never holds a value |
| ExpectedResult.ConvertIncompleteIsConvert | Source/SDFutureExtensions/Public/ExpectedResult.h:322-400 | on a result that did not complete, `ConvertIncomplete` (and `MakeErrorExpected(TExpected)`) equals `Convert` with any value |
| ExpectedResult.ConvertComposes | Source/SDFutureExtensions/Public/ExpectedResult.h:322-337 | converting twice equals converting once with the last value |
| ExpectedResult.ConvertToSelf | Source/SDFutureExtensions/Public/ExpectedResult.h:322-371 | converting a result to its own type with its own value is the identity |
| ExpectedResult.ExpectedVariable.constructor | Source/SDFutureExtensions/Public/ExpectedResult.h:21-23 | a new variable holds the default (Incomplete) expected |
| ExpectedResult.ExpectedVariable.FromValue | Source/SDFutureExtensions/Public/ExpectedResult.h:115-127 | the value constructor stores the value, then completes: the variable equals `MakeReadyExpected(v)` |
| ExpectedResult.ExpectedVariable.FromError | Source/SDFutureExtensions/Public/ExpectedResult.h:157-163 | the error constructor gives `MakeErrorExpected(err)` |
| ExpectedResult.ExpectedVariable.SetComplete | Source/SDFutureExtensions/Public/ExpectedResult.h:97-103 | requires Incomplete; afterwards Completed with the error cleared and the value untouched |
| ExpectedResult.ExpectedVariable.AssignValue | Source/SDFutureExtensions/Public/ExpectedResult.h:141-155 | assigning a value requires Incomplete and leaves exactly `MakeReadyExpected(v)` |
| ExpectedResult.ExpectedVariable.AssignError | Source/SDFutureExtensions/Public/ExpectedResult.h:165-179 | assigning an error in any state gives the Error state with that error and clears the value |
| ExpectedResult.ExpectedVariable.Assign | Source/SDFutureExtensions/Public/ExpectedResult.h:134-139 | the defaulted copy assignment copies all three fields |
| ExpectedFutureOptions.Sanitize | Source/SDFutureExtensions/Public/ExpectedFutureOptions.h:147-156 | the result is always sane; NamedThread with UnusedAnchor becomes Current; every other combination is unchanged |
| ExpectedFutureOptions.SanitizeIdempotent | Source/SDFutureExtensions/Public/ExpectedFutureOptions.h:147-156 | sanitising twice is sanitising once, and only the policy can change |
| ExpectedFutureOptions.DefaultOptions | Source/SDFutureExtensions/Public/ExpectedFutureOptions.h:32-59 | default options carry no handle, policy Current and thread UnusedAnchor, which is sane |
| ExpectedFutureOptions.OptionsWithHandle | Source/SDFutureExtensions/Public/ExpectedFutureOptions.h:107-111 | the handle is stored, the policy and thread keep their defaults |
| ExpectedFutureOptions.OptionsWithPolicy | Source/SDFutureExtensions/Public/ExpectedFutureOptions.h:113-117 | the policy is stored, except that NamedThread without a thread is sanitised to Current |
| ExpectedFutureOptions.OptionsWithThread | Source/SDFutureExtensions/Public/ExpectedFutureOptions.h:119-124 | the thread is stored with policy NamedThread, or Current when the thread is UnusedAnchor |
| ExpectedFutureOptions.OptionsBuilder.constructor | Source/SDFutureExtensions/Public/ExpectedFutureOptions.h:52-76 | a new builder holds the default properties |
| ExpectedFutureOptions.OptionsBuilder.SetCancellationTokenHandle | Source/SDFutureExtensions/Public/ExpectedFutureOptions.h:79-84 | only the handle changes, and the same builder is returned |
| ExpectedFutureOptions.OptionsBuilder.SetExecutionPolicy | Source/SDFutureExtensions/Public/ExpectedFutureOptions.h:86-91 | only the policy changes, and the same builder is returned |
| ExpectedFutureOptions.OptionsBuilder.SetDesiredExecutionThread | Source/SDFutureExtensions/Public/ExpectedFutureOptions.h:93-99 | the policy becomes NamedThread and the thread is stored; nothing else changes |
| ExpectedFutureOptions.OptionsBuilder.Build | Source/SDFutureExtensions/Public/ExpectedFutureOptions.h:101-105 | the builder's own properties are sanitised in place, then copied into sane options |
| ExpectedFutureOptions.BuildWithThreadAfterPolicy | Source/SDFutureExtensions/Public/ExpectedFutureOptions.h:86-105 | a thread set after any policy wins: NamedThread on that thread, or Current for UnusedAnchor; the handle set first is kept |
| ExpectedFutureOptions.BuildWithPolicyAfterThread | Source/SDFutureExtensions/Public/ExpectedFutureOptions.h:86-105 | a policy set after a thread wins and the thread is kept, unless that leaves NamedThread on UnusedAnchor; the handle set first is kept |
| FutureExecutionDetails.GetExecutionDetails | Source/SDFutureExtensions/Public/ExpectedFuture.h:56-77 | ThreadPool gives (ThreadPool, AnyThread), NamedThread gives (NamedThread, desired thread), Inline and Current give (Current, current thread); never Inline |
| FutureExecutionDetails.GetExecutionDetailsAfter | Source/SDFutureExtensions/Public/ExpectedFuture.h:79-91 | Inline copies the antecedent's details; every other policy resolves as without an antecedent |
| FutureExecutionDetails.AntecedentIgnoredUnlessInline | Source/SDFutureExtensions/Public/ExpectedFuture.h:79-91 | apart from Inline, the antecedent makes no difference |
| FutureExecutionDetails.SaneOptionsNeverTargetUnusedAnchor | Source/SDFutureExtensions/Public/ExpectedFutureOptions.h:147-156 | details resolved from sane options never ask for NamedThread on UnusedAnchor |
| FutureExecutionDetails.InlineNeverRecorded | Source/SDFutureExtensions/Public/ExpectedFuture.h:56-91 | a non-Inline antecedent never yields an Inline policy |
| FutureExecutionDetails.ChainDetails | Source/SDFutureExtensions/Public/ExpectedFuture.h:98-170 | along a chain of futures (the first created without an antecedent, each later one after the previous) no recorded policy is Inline |
| ExpectedPromise.Promise.constructor | Source/SDFutureExtensions/Public/ExpectedFuture.h:268-274 | a new promise is unset and records its execution details |
| ExpectedPromise.Promise.SetValue | Source/SDFutureExtensions/Public/ExpectedFuture.h:291-302 | the first value is stored and `IsSet` becomes true; later calls change nothing |
| ExpectedPromise.Promise.SetRawValue | Source/SDFutureExtensions/Public/ExpectedFuture.h:304-312 | setting a raw value is setting `MakeReadyExpected` of it, first value wins |
| ExpectedPromise.Promise.Cancel | Source/SDFutureExtensions/Public/ExpectedFuture.h:321-324 | stores Cancelled only if nothing is set yet; a resolved promise keeps its value |
| ExpectedPromise.Promise.GetFuture | Source/SDFutureExtensions/Public/ExpectedFuture.h:284-289 | the future views this promise and reports its execution details |
| ExpectedPromise.Future.Get | Source/SDFutureExtensions/Public/ExpectedFuture.h:223-247 | a ready future yields its promise's stored result |
| ExpectedPromise.MakeReadyFuture | Source/SDFutureExtensions/Public/ExpectedFuture.h:477-498 | a fresh future already holding Completed with the value, with default execution details (Current, AnyThread) |
| ExpectedPromise.MakeReadyFutureOf | Source/SDFutureExtensions/Public/ExpectedFuture.h:485-491 | a fresh future already holding the given result unchanged |
| ExpectedPromise.MakeReadyFutureFromExpected | Source/SDFutureExtensions/Public/ExpectedFuture.h:500-506 | when the types match, the result is passed through unchanged |
| ExpectedPromise.MakeReadyFutureFromOtherExpected | Source/SDFutureExtensions/Public/ExpectedFuture.h:508-512 | when the types differ, the future holds `Convert` of the result: same state and error, value defaulted |
| ExpectedPromise.MakeErrorFuture | Source/SDFutureExtensions/Public/ExpectedFuture.h:514-520 | a fresh future already holding the given error |
| ExpectedPromise.FirstValueWins | Source/SDFutureExtensions/Public/ExpectedFuture.h:296-324 | on a fresh promise, a second value and a later cancellation both lose to the first value |
| Cancellation.CancelledSlot | Source/SDFutureExtensions/Public/ExpectedFuture.h:321-324 | what `Cancel` leaves in a slot: always set, and unchanged if it was already set |
| Cancellation.CancellationHandle.constructor | SDFutureExtensions/Source/SDFutureExtensions/Public/CancellationHandle.h:63-72 | a fresh handle is not cancelled and holds no promises |
| Cancellation.CancellationHandle.AddPromise | SDFutureExtensions/Source/SDFutureExtensions/Public/CancellationHandle.h:33-45 | before `Cancel` the promise is appended and left untouched; after `Cancel` it is cancelled at once and not stored |
| Cancellation.CancellationHandle.Cancel | SDFutureExtensions/Source/SDFutureExtensions/Public/CancellationHandle.h:47-61 | the flag is set, every registered promise still alive is cancelled, expired ones are skipped, and the list is emptied; once cancelled, the list stays empty |
| Cancellation.TryAddPromiseToCancellationHandle | Source/SDFutureExtensions/Private/FutureExtensionTaskGraph.h:305-315 | an empty or expired handle changes nothing; a live one behaves as `AddPromise` |
| FutureExtensionTypeTraits.Unwrap | Source/SDFutureExtensions/Private/FutureExtensionsTypeTraits.h:52-67 | the result is never a wrapper, and a non-wrapper is returned unchanged |
| FutureExtensionTypeTraits.UnwrapProperties | Source/SDFutureExtensions/Private/FutureExtensionsTypeTraits.h:52-67 | unwrapping is idempotent, strips every layer, and sees through any added wrapper |
| FutureExtensionTypeTraits.ReturnKindOf | Source/SDFutureExtensions/Private/FutureExtensionsTypeTraits.h:83-94 | every return type is in exactly one of IsExpectedFuture / IsPlainValueOrExpected / IsNonExpectedAndVoid |
| FutureExtensionTypeTraits.ParamKindOf | Source/SDFutureExtensions/Private/FutureExtensionsTypeTraits.h:96-103 | every parameter type is in exactly one of IsVoidValueBased / IsNonVoidValueBased / IsExpectedBased |
| FutureExtensionTypeTraits.ExactlyOneShape | Source/SDFutureExtensions/Private/FutureExtensionsTypeTraits.h:198-254 | the nine continuation specialisations are pairwise exclusive and one applies to every (return, parameter) pair |
| FutureExtensionTypeTraits.InitialSpecialization | Source/SDFutureExtensions/Private/FutureExtensionsTypeTraits.h:74-124 | an initial functor is accepted iff it is callable without arguments, and then exactly its return class is chosen |
| FutureExtensionTypeTraits.ContinuationParamType | Source/SDFutureExtensions/Private/FutureExtensionsTypeTraits.h:147-169 | `TExpected<P>` is preferred to `P` (to no argument when `P` is void); a functor accepting neither is rejected |
| FutureExtensionTypeTraits.ContinuationSpecialization | Source/SDFutureExtensions/Private/FutureExtensionsTypeTraits.h:259-277 | an accepted continuation gets the one enabled shape for its return type and chosen parameter type |
| FutureExtensionTypeTraits.ContinuationResultType | Source/SDFutureExtensions/Public/ExpectedFuture.h:139-148 | accepted exactly when the continuation is; the new future then carries `Unwrap` of the return type of the call with the chosen parameter, which has no wrapper left |
| FutureExtensionTaskGraph.Delivered | Source/SDFutureExtensions/Private/FutureExtensionTaskGraph.h:39-64 | a plain value is made ready, an expected is set as it is, and a returned future's eventual result is forwarded |
| FutureExtensionTaskGraph.ExecuteVoidInitialFunction | Source/SDFutureExtensions/Private/FutureExtensionTaskGraph.h:71-79 | a void initial function is run, then the promise receives a completed void |
| FutureExtensionTaskGraph.ExecuteContinuationFunction | Source/SDFutureExtensions/Private/FutureExtensionTaskGraph.h:88-229 | an expected-based continuation is always called with the previous result; value- and void-based ones only on Completed; otherwise the promise receives `ConvertIncomplete` of the previous result |
| FutureExtensionTaskGraph.ExecuteVoidContinuationFunction | Source/SDFutureExtensions/Private/FutureExtensionTaskGraph.h:238-302 | void-returning continuations run under the same condition and then set a completed void; otherwise the previous result is converted |
| FutureExtensionTaskGraph.VoidReturnIsUnitReturn | Source/SDFutureExtensions/Private/FutureExtensionTaskGraph.h:168-302 | the void-returning overloads behave as the value-returning ones with a functor returning a completed void |
| FutureExtensionTaskGraph.InitialIsContinuationOfReadyVoid | Source/SDFutureExtensions/Private/FutureExtensionTaskGraph.h:39-64 | an initial function behaves as a void-based continuation of a completed void future |
| FutureExtensionTaskGraph.FailurePassesThrough | Source/SDFutureExtensions/Private/FutureExtensionTaskGraph.h:186-229 | an Error or a cancellation reaches the next promise unchanged, with the same error, and the continuation is not called |
| FutureExtensionTaskGraph.RunChain | Source/SDFutureExtensions/Private/FutureExtensionTaskGraph.h:168-229 | a chain of value-based continuations calls at most one function per link, and none at all after a result that did not complete |
| FutureExtensionTaskGraph.FailureSkipsChain | Source/SDFutureExtensions/Private/FutureExtensionTaskGraph.h:186-229 | a result that did not complete runs down a whole chain of value-based continuations without calling any of them |
| FutureExtensionTaskGraph.CompletedChainRunsEveryLink | Source/SDFutureExtensions/Private/FutureExtensionTaskGraph.h:186-229 | after a Completed result, a chain whose links return plain values calls every link and ends Completed with the links applied in order |
| FutureExtensionTaskGraph.DoInitialTask | Source/SDFutureExtensions/Private/FutureExtensionTaskGraph.h:368-375 | the initial function runs iff the promise is unset, and the promise then receives its delivered result |
| FutureExtensionTaskGraph.DoContinuationTask | Source/SDFutureExtensions/Private/FutureExtensionTaskGraph.h:395-402 | a task whose promise is already set (for instance cancelled) does not run its continuation and leaves the promise alone |
| FutureExtensionTaskGraph.QueuedWork.constructor | Source/SDFutureExtensions/Private/FutureExtensionTaskGraph.h:450-461 | thread-pool work always holds a handle: the options' handle if it is still alive, with the promise appended to its existing list (or cancelled at once if the handle was already cancelled), otherwise a fresh handle holding only the promise; the user handle's flags are unchanged |
| FutureExtensionTaskGraph.QueuedWork.Abandon | Source/SDFutureExtensions/Private/FutureExtensionTaskGraph.h:463-469 | abandonment cancels the work's handle: every live promise registered on it, including siblings on a shared handle, ends up Cancelled unless already set, expired ones are untouched, and the list is emptied |
| FutureExtensionTaskGraph.CancelledContinuationNeverRuns | Source/SDFutureExtensions/Private/FutureExtensionTaskGraph.h:383-402 | a continuation whose handle is cancelled before its task runs is never called, and its future holds Cancelled |
| Deliveries.RunLength | Source/SDFutureExtensions/Public/FutureExtensionsStaticFuncs.h:28-49 | each input delivers at most once: a run is no longer than the inputs, and a full run is a reordering of them |
| Deliveries.CountCompleted | Source/SDFutureExtensions/Public/FutureExtensionsStaticFuncs.h:32-39 | the Completed results counted never exceed the run's length, and equal it iff every result completed |
| Deliveries.FirstFailure | Source/SDFutureExtensions/Public/FutureExtensionsStaticFuncs.h:40-47 | the position of the first Error or Cancelled result, with none before it |
| Deliveries.FirstNotCompleted | Source/SDFutureExtensions/Private/FutureExtensionsStaticFuncs.cpp:31-34 | the position of the first result that did not complete, with none before it |
| Deliveries.CompletedValuesPermutation | Source/SDFutureExtensions/Public/FutureExtensionsStaticFuncs.h:32-39 | reordering the delivered results reorders the accumulated values as a multiset |
| StaticFuncs.WhenAllOutcome | Source/SDFutureExtensions/Public/FutureExtensionsStaticFuncs.h:20-23 | an empty input array gives a completed empty array |
| StaticFuncs.AllJoin.OnResult | Source/SDFutureExtensions/Public/FutureExtensionsStaticFuncs.h:30-48 | a Completed result is appended and counted, and the count reaching zero sets the array; Error and Cancelled are set at once; Incomplete does nothing; the promise keeps its first value |
| StaticFuncs.WhenAll | Source/SDFutureExtensions/Public/FutureExtensionsStaticFuncs.h:17-51 | the returned future holds `WhenAllOutcome` of the run; the older copy's rvalue and const-ref overloads share this body |
| StaticFuncs.WhenAllFirstFailureWins | Source/SDFutureExtensions/Public/FutureExtensionsStaticFuncs.h:40-47 | the first Error (with the same error) or Cancelled result decides the outcome |
| StaticFuncs.WhenAllNoSuccessAfterFailure | Source/SDFutureExtensions/Public/FutureExtensionsStaticFuncs.h:32-47 | the counter drops only on Completed, so after a failure the outcome is set and is never a success |
| StaticFuncs.WhenAllOutcomeFinal | FutureExtensionsStaticFuncs.h:24-42 | once the outcome is set, later deliveries cannot change it |
| StaticFuncs.WhenAllValuesArePermutation | Source/SDFutureExtensions/Public/FutureExtensionsStaticFuncs.h:28-39 | when every input completes, the array holds every input's value once, in delivery order: a permutation of the inputs' values |
| StaticFuncs.WhenAnyOutcome | Source/SDFutureExtensions/Public/FutureExtensionsStaticFuncs.h:55-70 | empty input gives an error with code `ERROR_INVALID_ARGUMENT` (1) and the "at least one element" message; otherwise the outcome is set iff something was delivered |
| StaticFuncs.WhenAny | FutureExtensionsStaticFuncs.h:86-120 | the returned future holds `WhenAnyOutcome` of the run, for both overloads |
| StaticFuncs.WhenAnyFirstWins | Source/SDFutureExtensions/Public/FutureExtensionsStaticFuncs.h:62-70 | the first delivered result, in any state, wins; it is one of the inputs' results and later deliveries do not replace it |
| StaticFuncs.RecordedOutcome | Source/SDFutureExtensions/Private/FutureExtensionsStaticFuncs.cpp:29-45 | the recorded outcome is the first result that did not complete, as delivered, or success once every input completed |
| StaticFuncs.VoidJoin.constructor | Source/SDFutureExtensions/Private/FutureExtensionsStaticFuncs.cpp:13-15 | the counter starts at the input count and both promises are fresh and unset |
| StaticFuncs.VoidJoin.SetPromise | Source/SDFutureExtensions/Private/FutureExtensionsStaticFuncs.cpp:17-20 | the output is chained to the recorded outcome from now on |
| StaticFuncs.VoidJoin.Record | Source/SDFutureExtensions/Private/FutureExtensionsStaticFuncs.cpp:33-38 | the recorded outcome keeps its first value, and a chained output follows it |
| StaticFuncs.VoidJoin.OnResult | Source/SDFutureExtensions/Private/FutureExtensionsStaticFuncs.cpp:29-45 | every result is counted, failures included; a result that did not complete is recorded; the count reaching zero records success and, unless Fast, chains the output |
| StaticFuncs.WhenAllVoid | Source/SDFutureExtensions/Private/FutureExtensionsStaticFuncs.cpp:6-48 | the returned future holds `WhenAllVoidOutcome` of the run: success without inputs, the recorded outcome at once in Fast mode, and only after every delivery in Full mode |
| StaticFuncs.WhenAllVoidDefault | Source/SDFutureExtensions/Private/FutureExtensionsStaticFuncs.cpp:50-53 | the one-argument overload is Full mode |
| StaticFuncs.FailModesAgree | Source/SDFutureExtensions/Private/FutureExtensionsStaticFuncs.cpp:17-44 | both modes end with the same value; Full sets nothing before the last delivery; whatever Full holds, Fast holds too |
| StaticFuncs.FastFailsAtFirstFailure | Source/SDFutureExtensions/Private/FutureExtensionsStaticFuncs.cpp:17-34 | Fast mode fails at the first result that did not complete and keeps it whatever comes later |
| StaticFuncs.VoidWhenAllForwardsIncomplete | Source/SDFutureExtensions/Private/FutureExtensionsStaticFuncs.cpp:31-34 | an Incomplete input result becomes the void `WhenAll` outcome, while the typed `WhenAll` ignores it |

## Left out

- Task-graph and thread-pool dispatch are not modelled: `TGraphTask`, `GThreadPool->AddQueuedWork`, completion events, `Then`/`ThenImpl` and `CreateExpectedFuture` scheduling. Where a scheduler picks an order, a run or an explicit call sequence stands for it.
- Atomics and locks (`ValueSetSync`, `FScopeLock`, `std::atomic`) are not modelled. Only the sequential behaviour they protect is, so the "cancel or set" races are one call order each.
- The current thread (`GetCurrentThreadIfKnown`) is a parameter. Logging and `ensureMsgf` in `Sanitize` are left out.
- `WaitAsync` is not part of this model. It depends on the engine ticker and a floating-point delay.
- Shared and weak pointer lifetime is not modelled. Expiry is an `alive` flag on promises and handles; `Finalize` and `delete this` are left out.
- Move-only futures, `IsValid` and `TExpectedFuture`'s completion-event plumbing are left out. A future is a read-only view of its promise's slot.
- The `Async` wrappers are left out. They only forward to `CreateExpectedFuture`.
- The test harness, the test specs and the build files are not part of this model.
- Cancellation.CancellationHandle: a handle holds promises of one result type. The source's type-erased `FCancellablePromise` list, which mixes result types, is not modelled.
- FutureExtensionTypeTraits.Functor: a functor is described by the argument lists it accepts and the return type of each. Implicit conversions and overload resolution inside a functor are not modelled.
- FutureExtensionTaskGraph.Delivered: a returned future is modelled by what it eventually resolves to. One that never resolves is `AsFuture(None)`, and the next promise then stays unset.
- FutureExtensionTaskGraph.ExecuteInitialFunction: it has no contract of its own. It is `Delivered` of the function's return, and its behaviour is stated through `DoInitialTask` and `InitialIsContinuationOfReadyVoid`.
- FutureExtensionTaskGraph.RunChain: the chain stops at a returned future that never resolves, and at a result outside the four canonical forms, which no public operation produces.
- FutureExtensionTaskGraph.Delivered, FutureExtensionTaskGraph.DoInitialTask, FutureExtensionTaskGraph.DoContinuationTask: when a function returns a future, the source moves the task's promise into the callback that waits for that future (Source/SDFutureExtensions/Private/FutureExtensionTaskGraph.h:47, 98, 122, 151). The cancellation handle is then left holding a moved-from promise, so a later `Cancel` no longer reaches the user's future and the inner result is still delivered. The model keeps one slot per promise, so a `Cancel` after a returned future that has not resolved makes the user's future Cancelled; the moved-from copy is not modelled.
- StaticFuncs.AllJoin: the counter is an unbounded integer, so 32-bit overflow of `int32` counts is not modelled; no array holds that many futures.
- StaticFuncs.WhenAll: inputs are required to be well-formed `Expected` values, which every public constructor guarantees.
- FutureExtensionTypeTraits.ContinuationSpecialization: "the parameter class is TakesExpected iff the functor accepts `TExpected<prev>`" is stated only when `prev` is not itself a `TExpected`. Otherwise a functor taking `prev` also takes an expected.
- ExpectedResult.ExpectedVariable: the `TExpected<void>` assignments are the same methods at `R = ()`. The move overloads are not modelled separately from the copy ones.

A note on behaviour: the typed `WhenAll` ignores an Incomplete input result, because none of its branches matches one. The void `WhenAll` treats it as a failure and forwards it. `StaticFuncs.VoidWhenAllForwardsIncomplete` states both.
