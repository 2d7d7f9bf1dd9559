/**
 Any sequence of calls on one factory, the three operations mixed freely. The
 lemmas here state what holds of a whole run: every accepted call draws exactly
 one id and every rejected one none, the ids come out strictly increasing in call
 order, inputs are carried into results unchanged, and the factory's fields, its
 cached API id among them, never change.
 */
module FactoryRuns {
  import opened Wrappers
  import opened AsyncIdGenerator
  import opened AsyncTypes
  import opened ContextFactory

  /** One call on the factory, with its (possibly null) arguments. */
  datatype Call<TF, TR, S> =
    | ContextCall(root: Option<TR>, resolved: TF)
    | TraceIdCall(root: Option<TR>)
    | StatefulTraceIdCall(root: Option<TR>, state: Option<S>)

  /** What an accepted call hands back. */
  datatype Handoff<TF, TR, S> =
    | Context(context: AsyncContext<TF, TR>)
    | TraceId(traceId: DefaultAsyncTraceId<TR>)
    | StatefulTraceId(statefulTraceId: StatefulAsyncTraceId<TR, S>)

  /** The results of a run in call order, and the machine at its end. */
  datatype Trace<TF, TR, S, P> = Trace(results: seq<Result<Handoff<TF, TR, S>, Rejection>>, final: Machine<P>)

  /** A call none of whose required references is null. */
  predicate Accepted<TF, TR, S>(c: Call<TF, TR, S>) {
    c.root.Some? && (c.StatefulTraceIdCall? ==> c.state.Some?)
  }

  function AsyncIdOf<TF, TR, S>(h: Handoff<TF, TR, S>): int {
    match h
    case Context(ctx) => ctx.asyncId
    case TraceId(tid) => tid.asyncId
    case StatefulTraceId(sid) => sid.asyncId
  }

  /**
   What the result of an accepted call holds: the call's root, its resolved
   trace factory or its state, the right variant, and for a context the given API id.
   */
  ghost predicate Carries<TF, TR, S>(c: Call<TF, TR, S>, h: Handoff<TF, TR, S>, apiId: int)
    requires Accepted(c)
  {
    match c
    case ContextCall(root, resolved) =>
      && h.Context?
      && h.context == DefaultAsyncContext(resolved, root.value, h.context.asyncId, apiId)
    case TraceIdCall(root) =>
      && h.TraceId?
      && h.traceId == DefaultAsyncTraceId(root.value, h.traceId.asyncId)
    case StatefulTraceIdCall(root, state) =>
      && h.StatefulTraceId?
      && h.statefulTraceId == StatefulAsyncTraceId(root.value, h.statefulTraceId.asyncId, state.value)
  }

  /** Dispatches one call to the matching factory operation. */
  function Apply<P, TF, TR, S>(m: Machine<P>, c: Call<TF, TR, S>): (s: Step<Handoff<TF, TR, S>, P>)
    ensures s.result.Success? <==> Accepted(c)
    ensures !Accepted(c) ==> s.next == m
    ensures s.next.factory == m.factory
    ensures Accepted(c) ==>
      && Carries(c, s.result.value, m.factory.asyncMethodApiId)
      && AsyncIdOf(s.result.value) > m.generator.last
      && s.next.generator == Generator(AsyncIdOf(s.result.value), m.generator.issued + [AsyncIdOf(s.result.value)])
      && s.next.log == m.log + (if c.ContextCall? then [ProviderGet(m.factory.traceFactoryProvider)] else [])
                              + [DrawId(AsyncIdOf(s.result.value))]
  {
    match c
    case ContextCall(root, resolved) =>
      var st := NewAsyncContext(m, root, resolved);
      var result := if st.result.Success? then Success(Context(st.result.value)) else Failure(st.result.error);
      Step(result, st.next)
    case TraceIdCall(root) =>
      var st := NewAsyncTraceId(m, root);
      var result := if st.result.Success? then Success(TraceId(st.result.value)) else Failure(st.result.error);
      Step(result, st.next)
    case StatefulTraceIdCall(root, state) =>
      var st := NewStatefulAsyncTraceId(m, root, state);
      var result := if st.result.Success? then Success(StatefulTraceId(st.result.value)) else Failure(st.result.error);
      Step(result, st.next)
  }

  /** Performs the calls in order, each on the machine the previous one left behind. */
  function Run<P, TF, TR, S>(m: Machine<P>, calls: seq<Call<TF, TR, S>>): (t: Trace<TF, TR, S, P>)
    ensures |t.results| == |calls|
    ensures t.final.factory == m.factory
    ensures t.final.generator.last >= m.generator.last
    ensures forall i :: 0 <= i < |calls| ==> (t.results[i].Success? <==> Accepted(calls[i]))
    ensures forall i :: 0 <= i < |calls| && Accepted(calls[i]) ==>
      && Carries(calls[i], t.results[i].value, m.factory.asyncMethodApiId)
      && m.generator.last < AsyncIdOf(t.results[i].value) <= t.final.generator.last
    decreases |calls|
  {
    if |calls| == 0 then Trace([], m)
    else
      var prev := Run(m, calls[..|calls| - 1]);
      var s := Apply(prev.final, calls[|calls| - 1]);
      Trace(prev.results + [s.result], s.next)
  }

  /** The ids of the accepted calls' results, in call order. */
  function IdsOf<TF, TR, S>(results: seq<Result<Handoff<TF, TR, S>, Rejection>>): seq<int> {
    if |results| == 0 then []
    else
      IdsOf(results[..|results| - 1]) + ResultIds(results[|results| - 1])
  }

  /** How many results are contexts (each of which resolved the provider once). */
  function ContextCount<TF, TR, S>(results: seq<Result<Handoff<TF, TR, S>, Rejection>>): nat {
    if |results| == 0 then 0
    else
      ContextCount(results[..|results| - 1]) + ContextsIn(results[|results| - 1])
  }

  /** How many of the calls are accepted. */
  function AcceptedCount<TF, TR, S>(calls: seq<Call<TF, TR, S>>): nat {
    if |calls| == 0 then 0
    else AcceptedCount(calls[..|calls| - 1]) + (if Accepted(calls[|calls| - 1]) then 1 else 0)
  }

  /**
   Exactly one draw per accepted call and none per rejected call: the generator
   calls a run adds to the log are precisely the ids of its results, in order.
   */
  lemma {:induction false} RunDrawsOncePerAcceptedCall<P, TF, TR, S>(m: Machine<P>, calls: seq<Call<TF, TR, S>>)
    ensures Draws(Run(m, calls).final.log) == Draws(m.log) + IdsOf(Run(m, calls).results)
    decreases |calls|
  {
    if |calls| > 0 {
      var init := calls[..|calls| - 1];
      RunDrawsOncePerAcceptedCall(m, init);
      var prev := Run(m, init);
      var s := Apply(prev.final, calls[|calls| - 1]);
      ApplyDrawsOnceIfAccepted(prev.final, calls[|calls| - 1]);
      var t := Run(m, calls);
      assert t.results[..|t.results| - 1] == prev.results;
      assert IdsOf(t.results) == IdsOf(prev.results) + ResultIds(s.result);
    }
  }

  /** The id of a successful result, as a sequence of at most one element. */
  function ResultIds<TF, TR, S>(r: Result<Handoff<TF, TR, S>, Rejection>): seq<int> {
    if r.Success? then [AsyncIdOf(r.value)] else []
  }

  /** One call adds exactly its result's id to the draws if accepted, and nothing if rejected. */
  lemma ApplyDrawsOnceIfAccepted<P, TF, TR, S>(m: Machine<P>, c: Call<TF, TR, S>)
    ensures Draws(Apply(m, c).next.log) == Draws(m.log) + ResultIds(Apply(m, c).result)
  {
    var s := Apply(m, c);
    if Accepted(c) {
      var id := AsyncIdOf(s.result.value);
      var pre := if c.ContextCall? then [ProviderGet(m.factory.traceFactoryProvider)] else [];
      DrawsSnoc(m.log + pre, DrawId(id));
      if c.ContextCall? {
        DrawsSnoc(m.log, pre[0]);
      } else {
        assert m.log + pre == m.log;
      }
    }
  }

  /**
   The generator side of the same promise: over a run, the generator issues
   exactly the ids of the run's successful results, in call order, and nothing else.
   */
  lemma {:induction false} RunIssuesOncePerAcceptedCall<P, TF, TR, S>(m: Machine<P>, calls: seq<Call<TF, TR, S>>)
    ensures Run(m, calls).final.generator.issued == m.generator.issued + IdsOf(Run(m, calls).results)
    decreases |calls|
  {
    if |calls| > 0 {
      var init := calls[..|calls| - 1];
      RunIssuesOncePerAcceptedCall(m, init);
      var prev := Run(m, init);
      var s := Apply(prev.final, calls[|calls| - 1]);
      var t := Run(m, calls);
      assert t.results[..|t.results| - 1] == prev.results;
      assert IdsOf(t.results) == IdsOf(prev.results) + ResultIds(s.result);
    }
  }

  /**
   A run started on a consistent generator leaves it consistent, so the
   generator's whole record of issued ids, before and during the run, has no
   duplicate.
   */
  lemma {:induction false} RunKeepsGeneratorConsistent<P, TF, TR, S>(m: Machine<P>, calls: seq<Call<TF, TR, S>>)
    requires Consistent(m.generator)
    ensures Consistent(Run(m, calls).final.generator)
    ensures PairwiseDistinct(Run(m, calls).final.generator.issued)
    decreases |calls|
  {
    if |calls| > 0 {
      var init := calls[..|calls| - 1];
      RunKeepsGeneratorConsistent(m, init);
      var prev := Run(m, init).final;
      var c := calls[|calls| - 1];
      if Accepted(c) {
        IssueKeepsConsistent(prev.generator, AsyncIdOf(Apply(prev, c).result.value));
      }
    }
    var issued := Run(m, calls).final.generator.issued;
    forall i, j | 0 <= i < |issued| && 0 <= j < |issued| && i != j
      ensures issued[i] != issued[j]
    {
      if i < j {
        assert issued[i] < issued[j];
      } else {
        assert issued[j] < issued[i];
      }
    }
  }

  /** One provider resolution per context produced, and none for trace ids or rejected calls. */
  lemma {:induction false} RunResolvesOncePerContext<P, TF, TR, S>(m: Machine<P>, calls: seq<Call<TF, TR, S>>)
    ensures Resolutions(Run(m, calls).final.log) == Resolutions(m.log) + ContextCount(Run(m, calls).results)
    decreases |calls|
  {
    if |calls| > 0 {
      var init := calls[..|calls| - 1];
      RunResolvesOncePerContext(m, init);
      var prev := Run(m, init);
      ApplyResolvesOnceIfContext(prev.final, calls[|calls| - 1]);
      var t := Run(m, calls);
      assert t.results[..|t.results| - 1] == prev.results;
    }
  }

  /** 1 if the result is a context, else 0. */
  function ContextsIn<TF, TR, S>(r: Result<Handoff<TF, TR, S>, Rejection>): nat {
    if r.Success? && r.value.Context? then 1 else 0
  }

  /** One call resolves the provider once if it produces a context, and otherwise not at all. */
  lemma ApplyResolvesOnceIfContext<P, TF, TR, S>(m: Machine<P>, c: Call<TF, TR, S>)
    ensures Resolutions(Apply(m, c).next.log) == Resolutions(m.log) + ContextsIn(Apply(m, c).result)
  {
    var s := Apply(m, c);
    if Accepted(c) {
      var id := AsyncIdOf(s.result.value);
      var pre := if c.ContextCall? then [ProviderGet(m.factory.traceFactoryProvider)] else [];
      ResolutionsSnoc(m.log + pre, DrawId(id));
      if c.ContextCall? {
        ResolutionsSnoc(m.log, pre[0]);
      } else {
        assert m.log + pre == m.log;
      }
    }
  }

  /** A run yields exactly as many ids as it has accepted calls. */
  lemma {:induction false} RunIdCountIsAcceptedCount<P, TF, TR, S>(m: Machine<P>, calls: seq<Call<TF, TR, S>>)
    ensures |IdsOf(Run(m, calls).results)| == AcceptedCount(calls)
    decreases |calls|
  {
    if |calls| > 0 {
      var init := calls[..|calls| - 1];
      RunIdCountIsAcceptedCount(m, init);
      var t := Run(m, calls);
      assert t.results[..|t.results| - 1] == Run(m, init).results;
    }
  }

  /**
   On a valid machine, the ids of a run's results are strictly increasing in call
   order, hence pairwise distinct, and all of them are fresh: larger than every
   id the factory drew before the run.
   */
  lemma RunIdsUniqueInCallOrder<P, TF, TR, S>(m: Machine<P>, calls: seq<Call<TF, TR, S>>)
    requires Valid(m)
    ensures StrictlyIncreasing(IdsOf(Run(m, calls).results))
    ensures PairwiseDistinct(IdsOf(Run(m, calls).results))
    ensures forall k, j :: 0 <= k < |Draws(m.log)| && 0 <= j < |IdsOf(Run(m, calls).results)| ==>
      Draws(m.log)[k] < IdsOf(Run(m, calls).results)[j]
  {
    RunPreservesValid(m, calls);
    RunDrawsOncePerAcceptedCall(m, calls);
    var t := Run(m, calls);
    var ds := Draws(m.log);
    var ids := IdsOf(t.results);
    assert Draws(t.final.log) == ds + ids;
    forall i, j | 0 <= i < j < |ids|
      ensures ids[i] < ids[j]
    {
      assert ids[i] == (ds + ids)[|ds| + i];
      assert ids[j] == (ds + ids)[|ds| + j];
    }
    forall k, j | 0 <= k < |ds| && 0 <= j < |ids|
      ensures ds[k] < ids[j]
    {
      assert ds[k] == (ds + ids)[k];
      assert ids[j] == (ds + ids)[|ds| + j];
    }
  }

  /** Every machine a run reaches from a valid machine is valid. */
  lemma {:induction false} RunPreservesValid<P, TF, TR, S>(m: Machine<P>, calls: seq<Call<TF, TR, S>>)
    requires Valid(m)
    ensures Valid(Run(m, calls).final)
    decreases |calls|
  {
    if |calls| > 0 {
      var init := calls[..|calls| - 1];
      RunPreservesValid(m, init);
      var prev := Run(m, init).final;
      match calls[|calls| - 1]
      case ContextCall(root, resolved) =>
        NewAsyncContextPreservesValid(prev, root, resolved);
      case TraceIdCall(root) =>
        NewAsyncTraceIdPreservesValid(prev, root);
      case StatefulTraceIdCall(root, state) =>
        NewStatefulAsyncTraceIdPreservesValid(prev, root, state);
    }
  }

  /**
   The API id is resolved once and never changes: on a valid machine, every
   context a run produces carries the API id of the registry's async-method
   descriptor, and the factory's fields are the same at the end of the run.
   */
  lemma RunContextsCarryRegistryApiId<P, TF, TR, S>(m: Machine<P>, calls: seq<Call<TF, TR, S>>)
    requires Valid(m)
    ensures forall i :: 0 <= i < |calls| && calls[i].ContextCall? && calls[i].root.Some? ==>
      && Run(m, calls).results[i].Success?
      && Run(m, calls).results[i].value.Context?
      && Run(m, calls).results[i].value.context.asyncMethodApiId == m.factory.registry.asyncMethodDescriptor.apiId
  {
  }

  /**
   From construction onwards: a factory built from non-null collaborators,
   driven by any sequence of calls, hands out strictly increasing and hence
   pairwise distinct ids, one per accepted call, and every context it produces
   carries the registry's async-method API id.
   */
  lemma ConstructedFactoryRun<P, TF, TR, S>(
    provider: P, generator: Generator, registry: Registry, calls: seq<Call<TF, TR, S>>)
    ensures New(Some(provider), Some(generator), Some(registry)).Success?
    ensures var t := Run(New(Some(provider), Some(generator), Some(registry)).value, calls);
      && StrictlyIncreasing(IdsOf(t.results))
      && PairwiseDistinct(IdsOf(t.results))
      && |IdsOf(t.results)| == AcceptedCount(calls)
      && (forall i :: 0 <= i < |calls| && calls[i].ContextCall? && calls[i].root.Some? ==>
            t.results[i].value.context.asyncMethodApiId == registry.asyncMethodDescriptor.apiId)
      && (Consistent(generator) ==> PairwiseDistinct(t.final.generator.issued))
  {
    var m := New<P>(Some(provider), Some(generator), Some(registry)).value;
    RunIdsUniqueInCallOrder(m, calls);
    RunIdCountIsAcceptedCount(m, calls);
    RunContextsCarryRegistryApiId(m, calls);
    if Consistent(generator) {
      RunKeepsGeneratorConsistent(m, calls);
    }
  }
}
