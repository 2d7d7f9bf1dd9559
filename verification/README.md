# Async context factory of the Pinpoint profiler, modelled in Dafny

This project models `DefaultAsyncContextFactory`, the entry point the Pinpoint
profiler's instrumentation calls when a traced call crosses an asynchronous
boundary. The factory is built from three collaborators: a provider of the
`TraceFactory`, the shared `AsyncIdGenerator`, and the predefined
method-descriptor registry. At construction it caches one integer, the API id
of the registry's "async method" descriptor. After that it offers three calls,
each of which takes the caller's `TraceRoot` and draws one fresh async id:

- `newAsyncContext(traceRoot)` returns an `AsyncContext`. The context holds the
  trace factory the provider yields on that call, the root, the id and the
  cached API id.
- `newAsyncTraceId(traceRoot)` returns a plain `AsyncTraceId`.
- `newAsyncTraceId(traceRoot, asyncState)` returns the stateful variant. It
  also carries the caller's `AsyncState`.

A null argument or collaborator is rejected.

The model is a pure state machine (`ContextFactory.Machine`). It holds:

- the factory's final fields (`Factory`: provider, registry, cached API id);
- the state of the generator the factory was given (`Generator`): its last
  id and its record of issued ids, which each `NextAsyncId` extends by one;
- a log of the calls the factory makes into its collaborators, in order. These
  are the registry lookup, `Provider.get()` and `nextAsyncId()`.

Each operation is a function from a machine and its (`Option`-typed)
arguments to a `Step`: a `Result` (success value, or a `Rejection` naming
the null reference) together with the machine afterwards. `TraceRoot`,
`AsyncState`, `TraceFactory` and the provider are opaque type parameters.
The registry is reduced to the API id of its async-method descriptor.

`FactoryRuns` drives a factory through any sequence of calls, mixing the three
operations freely. It proves the run-level properties:

- each accepted call draws exactly one id and a rejected call draws none;
- the ids come out strictly increasing in call order, so they are pairwise
  distinct;
- inputs are carried into results unchanged;
- the provider is resolved once per context produced;
- the factory's fields, including the cached API id, never change.

Files:

- `wrappers.dfy`: `Option` and `Result`.
- `async_id_generator.dfy`: the generator, seen sequentially.
- `async_types.dfy`: `DefaultAsyncTraceId`, `StatefulAsyncTraceId`, `AsyncContext`, the registry and the method descriptor.
- `async_context_factory.dfy`: the factory's construction, its three operations and the invariant `Valid`.
- `factory_runs.dfy`: sequences of calls and the lemmas about them.

`newAsyncContext` calls `traceFactoryProvider.get()` on every accepted call
(`DefaultAsyncContextFactory.java:59`), before `nextAsyncId()` (:60). The model
follows that order: each accepted `newAsyncContext` logs `ProviderGet` and then
`DrawId`, and `resolved` stands for the value `get()` returns on that call.

## Model

| member | source | states |
|---|---|---|
| ContextFactory.New | profiler/src/main/java/com/navercorp/pinpoint/profiler/context/DefaultAsyncContextFactory.java:41-53 | Construction succeeds iff the provider, the generator and the registry are all non-null. A null one is rejected, checked in the order provider, generator, registry. On success the factory holds exactly the given collaborators, and the cached API id is the one on the registry's async-method descriptor. The generator is unchanged, since construction draws no id. The registry is consulted exactly once, and the resulting machine satisfies the invariant `Valid`. That lookup is `getAsyncMethodApiId` (:50-53), modelled by `GetAsyncMethodApiId`, which reads the API id of the registry's async-method descriptor. |
| AsyncIdGenerator.NextAsyncId | profiler/src/main/java/com/navercorp/pinpoint/profiler/context/DefaultAsyncContextFactory.java:60 | The assumed contract of the generator, whose code is not part of this model: each draw returns an id strictly greater than the generator's last id. The generator remembers it as its latest and appends exactly that one id to its record of issued ids. |
| AsyncIdGenerator.NextAsyncIdIsFresh | profiler/src/main/java/com/navercorp/pinpoint/profiler/context/DefaultAsyncContextFactory.java:60 | On a consistent generator, meaning its record is increasing and bounded by its last id, a draw returns an id larger than every id issued before. So the id is not in the record, and the generator stays consistent. |
| ContextFactory.NewAsyncContext | profiler/src/main/java/com/navercorp/pinpoint/profiler/context/DefaultAsyncContextFactory.java:55-62 | A null root is rejected with the machine left exactly as it was: no provider call and no draw. Otherwise the context holds the given root, the provider's trace factory, a fresh id above the generator's counter, and the factory's cached API id. The only state change is one provider resolution followed by exactly one draw: the generator's issued ids grow by exactly the returned id, and the log by `ProviderGet` then `DrawId`. The factory's fields are unchanged. |
| ContextFactory.NewAsyncTraceId | profiler/src/main/java/com/navercorp/pinpoint/profiler/context/DefaultAsyncContextFactory.java:64-70 | A null root is rejected with the machine unchanged. Otherwise the result is a plain `DefaultAsyncTraceId` holding the given root and a fresh id; that type has no async-state field. The generator issues exactly the returned id, exactly one draw is logged, no provider call is made, and the factory's fields are unchanged. |
| ContextFactory.NewStatefulAsyncTraceId | profiler/src/main/java/com/navercorp/pinpoint/profiler/context/DefaultAsyncContextFactory.java:72-79 | A null root is rejected first, then a null state, and either rejection happens before any id is drawn, leaving the machine unchanged. Otherwise the result is a `StatefulAsyncTraceId` holding the given root, a fresh id and exactly the given state. The generator issues exactly that one id, and one draw is logged. The factory's fields are unchanged. |
| ContextFactory.DrawPreservesValid | profiler/src/main/java/com/navercorp/pinpoint/profiler/context/DefaultAsyncContextFactory.java:59-60 | On a valid machine, logging at most the one provider call and then one draw of an id above the counter keeps the machine valid. The drawn ids are extended by exactly that id. |
| ContextFactory.NewAsyncContextPreservesValid | profiler/src/main/java/com/navercorp/pinpoint/profiler/context/DefaultAsyncContextFactory.java:55-62 | `newAsyncContext` keeps a valid machine valid. The cached API id still matches the registry, there is still exactly one lookup, and the drawn ids stay strictly increasing and bounded by the counter. |
| ContextFactory.NewAsyncTraceIdPreservesValid | profiler/src/main/java/com/navercorp/pinpoint/profiler/context/DefaultAsyncContextFactory.java:64-70 | `newAsyncTraceId(traceRoot)` keeps a valid machine valid. |
| ContextFactory.NewStatefulAsyncTraceIdPreservesValid | profiler/src/main/java/com/navercorp/pinpoint/profiler/context/DefaultAsyncContextFactory.java:72-79 | `newAsyncTraceId(traceRoot, asyncState)` keeps a valid machine valid. |
| ContextFactory.SequentialTraceIdsDiffer | profiler/src/main/java/com/navercorp/pinpoint/profiler/context/DefaultAsyncContextFactory.java:64-70 | Two `newAsyncTraceId` calls in sequence with the same root both succeed, and the second id is strictly larger than the first. |
| FactoryRuns.Apply | profiler/src/main/java/com/navercorp/pinpoint/profiler/context/DefaultAsyncContextFactory.java:55-79 | A call of any of the three kinds succeeds iff none of its required references is null. A rejected call leaves the machine unchanged. An accepted call returns the matching variant carrying its inputs and the cached API id, with an id above the counter. The generator issues exactly that id. Its log entries are exactly one provider call (contexts only) followed by one draw, and the factory's fields never change. |
| FactoryRuns.Run | profiler/src/main/java/com/navercorp/pinpoint/profiler/context/DefaultAsyncContextFactory.java:55-79 | A run returns one result per call. Call `i` succeeds iff it is accepted, and then its result carries that call's inputs and the factory's API id. Its id lies above the counter at the start and at or below the counter at the end. The factory's fields are the same at the end. |
| FactoryRuns.ApplyDrawsOnceIfAccepted | profiler/src/main/java/com/navercorp/pinpoint/profiler/context/DefaultAsyncContextFactory.java:55-79 | A single call of any kind adds exactly its result's id to the drawn ids when accepted, and adds nothing when rejected. |
| FactoryRuns.ApplyResolvesOnceIfContext | profiler/src/main/java/com/navercorp/pinpoint/profiler/context/DefaultAsyncContextFactory.java:55-79 | A single call resolves the provider exactly once when it produces a context, and not at all otherwise. |
| FactoryRuns.RunDrawsOncePerAcceptedCall | profiler/src/main/java/com/navercorp/pinpoint/profiler/context/DefaultAsyncContextFactory.java:55-79 | The draws a run adds to the log are exactly the ids of its successful results, in call order: one draw per accepted call and none per rejected call. |
| FactoryRuns.RunIssuesOncePerAcceptedCall | profiler/src/main/java/com/navercorp/pinpoint/profiler/context/DefaultAsyncContextFactory.java:55-79 | Over a run, the generator issues exactly the ids of the successful results, in call order: one `nextAsyncId()` per accepted call (:60, :68, :77) and none per rejected call. |
| FactoryRuns.RunKeepsGeneratorConsistent | profiler/src/main/java/com/navercorp/pinpoint/profiler/context/DefaultAsyncContextFactory.java:55-79 | A run started on a consistent generator leaves it consistent. The generator's whole record of issued ids, before and during the run, is then pairwise distinct. |
| FactoryRuns.RunResolvesOncePerContext | profiler/src/main/java/com/navercorp/pinpoint/profiler/context/DefaultAsyncContextFactory.java:55-62 | The provider calls a run adds are exactly one per context produced. Trace-id calls and rejected calls resolve nothing. |
| FactoryRuns.RunIdCountIsAcceptedCount | profiler/src/main/java/com/navercorp/pinpoint/profiler/context/DefaultAsyncContextFactory.java:55-79 | A run yields exactly as many ids as it has accepted calls. |
| FactoryRuns.RunPreservesValid | profiler/src/main/java/com/navercorp/pinpoint/profiler/context/DefaultAsyncContextFactory.java:36-79 | Every machine reached by any sequence of calls from a valid machine is valid. |
| FactoryRuns.RunIdsUniqueInCallOrder | profiler/src/main/java/com/navercorp/pinpoint/profiler/context/DefaultAsyncContextFactory.java:55-79 | On a valid machine, the ids a run hands out are strictly increasing in call order, and so pairwise distinct. Each is larger than every id the factory drew before the run. |
| FactoryRuns.RunContextsCarryRegistryApiId | profiler/src/main/java/com/navercorp/pinpoint/profiler/context/DefaultAsyncContextFactory.java:39-61 | On a valid machine, every context from a run carries the API id of the registry's async-method descriptor. |
| FactoryRuns.ConstructedFactoryRun | profiler/src/main/java/com/navercorp/pinpoint/profiler/context/DefaultAsyncContextFactory.java:41-79 | A factory built from non-null collaborators hands out strictly increasing, pairwise distinct ids under any mix of calls, one per accepted call. Every context it produces carries the registry's async-method API id. If the generator it was given is consistent, the generator's whole record of issued ids has no duplicate at the end. |

## Left out

- Concurrency: the generator is shared and incremented atomically by many threads. The model is sequential, one call after another, and treats atomicity of `nextAsyncId()` as an assumption.
- AsyncIdGenerator.NextAsyncId: the generator's implementation is not part of this model. Its contract, an id above the last one, is an assumption, and its body is a plain counter increment. The constructor accepts a generator in any state: that ids are fresh relative to the generator's whole history holds only for a consistent generator (`Consistent`), an assumption about the shared generator's code, not something the factory checks. Ids are unbounded integers, so 32-bit overflow and wrap-around of the Java `int` counter are not modelled.
- `Provider.get()`: Guice provider semantics are not modelled. The value the provider returns on a call is a parameter (`resolved`), and the call itself is recorded as a log event.
- `TraceFactory`, `TraceRoot` and `AsyncState` are opaque type parameters. What a `DefaultAsyncContext` does when activated is not part of this model.
- `PredefinedMethodDescriptorRegistry` and `MethodDescriptor`: reduced to the API id of the async-method descriptor. The registry is assumed to return a descriptor; a null one would fail at `getApiId()`, and that case is not modelled.
- `Assert.requireNonNull`: the exception type and message text are not modelled. A rejection is a `Failure` naming the null reference.
