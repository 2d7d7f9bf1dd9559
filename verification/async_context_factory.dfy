/**
 `DefaultAsyncContextFactory` as a state machine. The factory's own fields never
 change after construction; the shared generator's counter is the only state a
 call advances. Every call the factory makes into code outside it (the registry
 lookup, `Provider.get()`, `nextAsyncId()`) is recorded, in order, in `log`.
 */
module ContextFactory {
  import opened Wrappers
  import opened AsyncIdGenerator
  import opened AsyncTypes

  /** Which required reference was found null; the check order follows the source. */
  datatype Rejection =
    | NullTraceFactoryProvider
    | NullAsyncIdGenerator
    | NullRegistry
    | NullTraceRoot
    | NullAsyncState

  /** A call from the factory into a collaborator. */
  datatype Event<P> =
    | LookupAsyncMethod          // registry.getAsyncMethodDescriptor()
    | ProviderGet(provider: P)   // traceFactoryProvider.get()
    | DrawId(id: int)            // asyncIdGenerator.nextAsyncId() returned id

  /** The factory's final fields. `P` is the opaque trace-factory provider. */
  datatype Factory<P> = Factory(traceFactoryProvider: P, registry: Registry, asyncMethodApiId: int)

  /** A constructed factory together with the state of the generator it was given. */
  datatype Machine<P> = Machine(factory: Factory<P>, generator: Generator, log: seq<Event<P>>)

  /** The result of one call and the machine after it. */
  datatype Step<T, P> = Step(result: Result<T, Rejection>, next: Machine<P>)

  /** The ids drawn from the generator, in the order the log records them. */
  function Draws<P>(log: seq<Event<P>>): seq<int> {
    if |log| == 0 then []
    else if log[|log| - 1].DrawId? then Draws(log[..|log| - 1]) + [log[|log| - 1].id]
    else Draws(log[..|log| - 1])
  }

  /** How many times the trace-factory provider was resolved. */
  function Resolutions<P>(log: seq<Event<P>>): nat {
    if |log| == 0 then 0
    else Resolutions(log[..|log| - 1]) + (if log[|log| - 1].ProviderGet? then 1 else 0)
  }

  /**
   What every reachable machine satisfies: the cached API id is the registry's,
   the registry was consulted exactly once and first, and the ids drawn so far
   are strictly increasing and no larger than the generator's counter.
   */
  ghost predicate Valid<P>(m: Machine<P>) {
    && m.factory.asyncMethodApiId == m.factory.registry.asyncMethodDescriptor.apiId
    && |m.log| > 0
    && m.log[0].LookupAsyncMethod?
    && (forall i :: 0 < i < |m.log| ==> !m.log[i].LookupAsyncMethod?)
    && StrictlyIncreasing(Draws(m.log))
    && (forall k :: 0 <= k < |Draws(m.log)| ==> Draws(m.log)[k] <= m.generator.last)
  }

  /** `getAsyncMethodApiId`: the API id of the registry's async-method descriptor. */
  function GetAsyncMethodApiId(registry: Registry): int {
    registry.asyncMethodDescriptor.apiId
  }

  /**
   The constructor: rejects a null provider, generator or registry (checked in
   that order), otherwise caches the async-method API id with one registry
   lookup and draws no id.
   */
  function New<P>(provider: Option<P>, generator: Option<Generator>, registry: Option<Registry>)
    : (r: Result<Machine<P>, Rejection>)
    ensures r.Success? <==> provider.Some? && generator.Some? && registry.Some?
    ensures provider.None? ==> r == Failure(NullTraceFactoryProvider)
    ensures provider.Some? && generator.None? ==> r == Failure(NullAsyncIdGenerator)
    ensures provider.Some? && generator.Some? && registry.None? ==> r == Failure(NullRegistry)
    ensures r.Success? ==>
      && r.value.factory.traceFactoryProvider == provider.value
      && r.value.factory.registry == registry.value
      && r.value.factory.asyncMethodApiId == registry.value.asyncMethodDescriptor.apiId
      && r.value.generator == generator.value
      && Draws(r.value.log) == []
      && Resolutions(r.value.log) == 0
      && Valid(r.value)
  {
    if provider.None? then Failure(NullTraceFactoryProvider)
    else if generator.None? then Failure(NullAsyncIdGenerator)
    else if registry.None? then Failure(NullRegistry)
    else
      var apiId := GetAsyncMethodApiId(registry.value);
      Success(Machine(Factory(provider.value, registry.value, apiId), generator.value, [LookupAsyncMethod]))
  }

  /**
   `newAsyncContext(traceRoot)`: rejects a null root without touching anything;
   otherwise resolves the provider once, then draws exactly one id, and returns
   a context holding the resolved factory, the root, that id and the cached API id.
   `resolved` is the value the provider's `get()` returns on this call.
   */
  function NewAsyncContext<P, TF, TR>(m: Machine<P>, traceRoot: Option<TR>, resolved: TF)
    : (s: Step<AsyncContext<TF, TR>, P>)
    ensures traceRoot.None? ==> s == Step(Failure(NullTraceRoot), m)
    ensures traceRoot.Some? ==>
      && s.result.Success?
      && s.result.value.traceFactory == resolved
      && s.result.value.traceRoot == traceRoot.value
      && s.result.value.asyncMethodApiId == m.factory.asyncMethodApiId
      && s.result.value.asyncId > m.generator.last
      && s.next.generator == Generator(s.result.value.asyncId, m.generator.issued + [s.result.value.asyncId])
      && s.next == Machine(m.factory, s.next.generator,
                           m.log + [ProviderGet(m.factory.traceFactoryProvider), DrawId(s.result.value.asyncId)])
  {
    if traceRoot.None? then Step(Failure(NullTraceRoot), m)
    else
      var traceFactory := resolved;
      var d := NextAsyncId(m.generator);
      var events := [ProviderGet(m.factory.traceFactoryProvider), DrawId(d.id)];
      Step(Success(DefaultAsyncContext(traceFactory, traceRoot.value, d.id, m.factory.asyncMethodApiId)),
           Machine(m.factory, d.next, m.log + events))
  }

  /**
   `newAsyncTraceId(traceRoot)`: rejects a null root without touching anything;
   otherwise draws exactly one id and returns the plain variant, with no async state.
   */
  function NewAsyncTraceId<P, TR>(m: Machine<P>, traceRoot: Option<TR>)
    : (s: Step<DefaultAsyncTraceId<TR>, P>)
    ensures traceRoot.None? ==> s == Step(Failure(NullTraceRoot), m)
    ensures traceRoot.Some? ==>
      && s.result.Success?
      && s.result.value.traceRoot == traceRoot.value
      && s.result.value.asyncId > m.generator.last
      && s.next.generator == Generator(s.result.value.asyncId, m.generator.issued + [s.result.value.asyncId])
      && s.next == Machine(m.factory, s.next.generator, m.log + [DrawId(s.result.value.asyncId)])
  {
    if traceRoot.None? then Step(Failure(NullTraceRoot), m)
    else
      var d := NextAsyncId(m.generator);
      Step(Success(DefaultAsyncTraceId(traceRoot.value, d.id)), Machine(m.factory, d.next, m.log + [DrawId(d.id)]))
  }

  /**
   `newAsyncTraceId(traceRoot, asyncState)`: rejects a null root, then a null
   state, before any id is drawn; otherwise draws exactly one id and returns the
   stateful variant carrying exactly the given state.
   */
  function NewStatefulAsyncTraceId<P, TR, S>(m: Machine<P>, traceRoot: Option<TR>, asyncState: Option<S>)
    : (s: Step<StatefulAsyncTraceId<TR, S>, P>)
    ensures traceRoot.None? ==> s == Step(Failure(NullTraceRoot), m)
    ensures traceRoot.Some? && asyncState.None? ==> s == Step(Failure(NullAsyncState), m)
    ensures traceRoot.Some? && asyncState.Some? ==>
      && s.result.Success?
      && s.result.value.traceRoot == traceRoot.value
      && s.result.value.asyncState == asyncState.value
      && s.result.value.asyncId > m.generator.last
      && s.next.generator == Generator(s.result.value.asyncId, m.generator.issued + [s.result.value.asyncId])
      && s.next == Machine(m.factory, s.next.generator, m.log + [DrawId(s.result.value.asyncId)])
  {
    if traceRoot.None? then Step(Failure(NullTraceRoot), m)
    else if asyncState.None? then Step(Failure(NullAsyncState), m)
    else
      var d := NextAsyncId(m.generator);
      Step(Success(StatefulAsyncTraceId(traceRoot.value, d.id, asyncState.value)),
           Machine(m.factory, d.next, m.log + [DrawId(d.id)]))
  }

  /** Appending one event extends `Draws` by its id exactly when it is a draw. */
  lemma DrawsSnoc<P>(log: seq<Event<P>>, e: Event<P>)
    ensures Draws(log + [e]) == if e.DrawId? then Draws(log) + [e.id] else Draws(log)
  {
  }

  /** Appending one event adds one resolution exactly when it is a provider call. */
  lemma ResolutionsSnoc<P>(log: seq<Event<P>>, e: Event<P>)
    ensures Resolutions(log + [e]) == Resolutions(log) + (if e.ProviderGet? then 1 else 0)
  {
  }

  /**
   Drawing one fresh id keeps a valid machine valid: the new id is above the
   counter, so it extends the increasing sequence of draws, and no lookup is added.
   `pre` is what an operation logs before its draw: the one provider call of
   `newAsyncContext`, or nothing for the two trace-id operations.
   */
  lemma DrawPreservesValid<P>(m: Machine<P>, pre: seq<Event<P>>, id: int)
    requires Valid(m)
    requires id > m.generator.last
    requires pre == [] || pre == [ProviderGet(m.factory.traceFactoryProvider)]
    ensures Valid(Machine(m.factory, Generator(id, m.generator.issued + [id]), m.log + pre + [DrawId(id)]))
    ensures Draws(m.log + pre + [DrawId(id)]) == Draws(m.log) + [id]
  {
    var log' := m.log + pre + [DrawId(id)];
    if pre == [] {
      assert m.log + pre == m.log;
    } else {
      DrawsSnoc(m.log, pre[0]);
    }
    DrawsSnoc(m.log + pre, DrawId(id));
    var ds := Draws(m.log);
    assert Draws(log') == ds + [id];
    forall i, j | 0 <= i < j < |ds + [id]|
      ensures (ds + [id])[i] < (ds + [id])[j]
    {
      if j == |ds| {
        assert ds[i] <= m.generator.last;
      }
    }
    forall i | 0 < i < |log'|
      ensures !log'[i].LookupAsyncMethod?
    {
      if i < |m.log| {
        assert log'[i] == m.log[i];
      } else if i < |m.log| + |pre| {
        assert log'[i] == pre[i - |m.log|];
      }
    }
  }

  /** `newAsyncContext` keeps a valid machine valid. */
  lemma NewAsyncContextPreservesValid<P, TF, TR>(m: Machine<P>, traceRoot: Option<TR>, resolved: TF)
    requires Valid(m)
    ensures Valid(NewAsyncContext(m, traceRoot, resolved).next)
  {
    if traceRoot.Some? {
      var c := NewAsyncContext(m, traceRoot, resolved);
      var pre := [ProviderGet(m.factory.traceFactoryProvider)];
      DrawPreservesValid(m, pre, c.result.value.asyncId);
      assert m.log + [ProviderGet(m.factory.traceFactoryProvider), DrawId(c.result.value.asyncId)]
          == m.log + pre + [DrawId(c.result.value.asyncId)];
    }
  }

  /** `newAsyncTraceId(traceRoot)` keeps a valid machine valid. */
  lemma NewAsyncTraceIdPreservesValid<P, TR>(m: Machine<P>, traceRoot: Option<TR>)
    requires Valid(m)
    ensures Valid(NewAsyncTraceId(m, traceRoot).next)
  {
  }

  /** `newAsyncTraceId(traceRoot, asyncState)` keeps a valid machine valid. */
  lemma NewStatefulAsyncTraceIdPreservesValid<P, TR, S>(m: Machine<P>, traceRoot: Option<TR>, asyncState: Option<S>)
    requires Valid(m)
    ensures Valid(NewStatefulAsyncTraceId(m, traceRoot, asyncState).next)
  {
  }

  /** Two plain trace ids drawn in sequence for the same root differ, the later one being larger. */
  lemma SequentialTraceIdsDiffer<P, TR>(m: Machine<P>, root: TR)
    ensures var first := NewAsyncTraceId(m, Some(root));
            var second := NewAsyncTraceId(first.next, Some(root));
            && first.result.Success? && second.result.Success?
            && first.result.value.asyncId < second.result.value.asyncId
  {
  }
}
