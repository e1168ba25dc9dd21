/**
 * `FExpectedFutureOptions` and its builder: a weak cancellation handle, an
 * execution policy and a desired thread. `Sanitize` repairs the one
 * inconsistent combination, NamedThread without a thread.
 */
module ExpectedFutureOptions {
  import opened Wrappers
  import opened Scheduling
  import opened Cancellation

  /** `FExpectedFutureOptions::Properties`. */
  datatype Properties<R> = Properties(
    cancellationTokenHandle: Option<CancellationHandle<R>>,
    executionPolicy: ExecutionPolicy,
    desiredExecutionThread: Thread)

  /** The member initialisers: no handle, Current, UnusedAnchor. */
  function DefaultProperties<R>(): Properties<R> {
    Properties(None, Current, UnusedAnchor)
  }

  /** No NamedThread policy without a thread to run on. */
  predicate Sane<R>(p: Properties<R>) {
    !(p.executionPolicy == NamedThread && p.desiredExecutionThread == UnusedAnchor)
  }

  /** `Properties::Sanitize`, which rewrites the policy in place: the result is
      always sane, and sane properties are left as they are. */
  function Sanitize<R>(p: Properties<R>): (q: Properties<R>)
    ensures Sane(q)
    ensures Sane(p) ==> q == p
    ensures !Sane(p) ==> q == p.(executionPolicy := Current)
  {
    if p.executionPolicy == NamedThread && p.desiredExecutionThread == UnusedAnchor then
      p.(executionPolicy := Current)
    else
      p
  }

  /** Sanitising twice is sanitising once, and only the policy can change. */
  lemma SanitizeIdempotent<R>(p: Properties<R>)
    ensures Sanitize(Sanitize(p)) == Sanitize(p)
    ensures Sanitize(p).cancellationTokenHandle == p.cancellationTokenHandle
    ensures Sanitize(p).desiredExecutionThread == p.desiredExecutionThread
  {
  }

  /** `FExpectedFutureOptions`; the getters are the field selectors. */
  datatype Options<R> = Options(properties: Properties<R>)
  {
    function GetCancellationTokenHandle(): Option<CancellationHandle<R>> { properties.cancellationTokenHandle }
    function GetExecutionPolicy(): ExecutionPolicy { properties.executionPolicy }
    function GetDesiredExecutionThread(): Thread { properties.desiredExecutionThread }
  }

  /** `FExpectedFutureOptions()`. */
  function DefaultOptions<R>(): (o: Options<R>)
    ensures Sane(o.properties) && o.properties.cancellationTokenHandle == None
    ensures o.properties.executionPolicy == Current && o.properties.desiredExecutionThread == UnusedAnchor
  {
    Options(DefaultProperties())
  }

  /** `FExpectedFutureOptions(CancellationHandle)`. */
  function OptionsWithHandle<R>(h: CancellationHandle<R>): (o: Options<R>)
    ensures Sane(o.properties)
    ensures o.GetCancellationTokenHandle() == Some(h)
    ensures o.GetExecutionPolicy() == Current && o.GetDesiredExecutionThread() == UnusedAnchor
  {
    Options(Sanitize(DefaultProperties().(cancellationTokenHandle := Some(h))))
  }

  /** `FExpectedFutureOptions(ExecutionPolicy)`: a NamedThread policy given
      this way has no thread, so it is sanitised to Current. */
  function OptionsWithPolicy<R>(policy: ExecutionPolicy): (o: Options<R>)
    ensures Sane(o.properties) && o.properties.cancellationTokenHandle == None
    ensures o.properties.executionPolicy == (if policy == NamedThread then Current else policy)
    ensures o.properties.desiredExecutionThread == UnusedAnchor
  {
    Options(Sanitize(DefaultProperties().(executionPolicy := policy)))
  }

  /** `FExpectedFutureOptions(DesiredExecutionThread)`: policy NamedThread,
      unless the thread is UnusedAnchor. */
  function OptionsWithThread<R>(desired: Thread): (o: Options<R>)
    ensures Sane(o.properties) && o.properties.cancellationTokenHandle == None
    ensures o.properties.executionPolicy == (if desired == UnusedAnchor then Current else NamedThread)
    ensures o.properties.desiredExecutionThread == desired
  {
    Options(Sanitize(Properties(None, NamedThread, desired)))
  }

  /** `FExpectedFutureOptionsBuilder`: each setter changes its own fields and
      returns the builder itself, so calls chain and the last policy set wins. */
  class OptionsBuilder<R> {
    var optionsProperties: Properties<R>

    constructor ()
      ensures optionsProperties == DefaultProperties()
    {
      optionsProperties := DefaultProperties();
    }

    method SetCancellationTokenHandle(h: CancellationHandle<R>) returns (builder: OptionsBuilder<R>)
      modifies this
      ensures builder == this
      ensures optionsProperties == old(optionsProperties).(cancellationTokenHandle := Some(h))
    {
      optionsProperties := optionsProperties.(cancellationTokenHandle := Some(h));
      builder := this;
    }

    method SetExecutionPolicy(policy: ExecutionPolicy) returns (builder: OptionsBuilder<R>)
      modifies this
      ensures builder == this
      ensures optionsProperties == old(optionsProperties).(executionPolicy := policy)
    {
      optionsProperties := optionsProperties.(executionPolicy := policy);
      builder := this;
    }

    /** Setting a thread also sets the policy to NamedThread. */
    method SetDesiredExecutionThread(thread: Thread) returns (builder: OptionsBuilder<R>)
      modifies this
      ensures builder == this
      ensures optionsProperties == old(optionsProperties).(executionPolicy := NamedThread, desiredExecutionThread := thread)
    {
      optionsProperties := optionsProperties.(executionPolicy := NamedThread, desiredExecutionThread := thread);
      builder := this;
    }

    /** `Build`: sanitises the builder's own properties, then copies them. */
    method Build() returns (o: Options<R>)
      modifies this
      ensures optionsProperties == Sanitize(old(optionsProperties))
      ensures o.properties == optionsProperties && Sane(o.properties)
    {
      optionsProperties := Sanitize(optionsProperties);
      o := Options(optionsProperties);
    }
  }

  /** A chain of setters ending in a thread gives NamedThread on that thread,
      whatever policy was set before; with UnusedAnchor it gives Current. The
      handle set first is kept. */
  method BuildWithThreadAfterPolicy<R>(h: CancellationHandle<R>, policy: ExecutionPolicy, thread: Thread)
    returns (o: Options<R>)
    ensures Sane(o.properties) && o.GetCancellationTokenHandle() == Some(h)
    ensures o.GetDesiredExecutionThread() == thread
    ensures o.GetExecutionPolicy() == (if thread == UnusedAnchor then Current else NamedThread)
  {
    var b := new OptionsBuilder<R>();
    b := b.SetCancellationTokenHandle(h);
    b := b.SetExecutionPolicy(policy);
    b := b.SetDesiredExecutionThread(thread);
    o := b.Build();
  }

  /** A chain ending in a policy keeps the thread set before it but uses
      the later policy, unless that leaves NamedThread without a thread. The
      handle set first is kept. */
  method BuildWithPolicyAfterThread<R>(h: CancellationHandle<R>, thread: Thread, policy: ExecutionPolicy)
    returns (o: Options<R>)
    ensures Sane(o.properties) && o.GetCancellationTokenHandle() == Some(h)
    ensures o.GetDesiredExecutionThread() == thread
    ensures o.GetExecutionPolicy() == (if policy == NamedThread && thread == UnusedAnchor then Current else policy)
  {
    var b := new OptionsBuilder<R>();
    b := b.SetCancellationTokenHandle(h);
    b := b.SetDesiredExecutionThread(thread);
    b := b.SetExecutionPolicy(policy);
    o := b.Build();
  }
}
