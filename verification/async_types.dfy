/**
 The values the factory produces and the one registry lookup it consumes.
 `TR` (trace root), `S` (async state) and `TF` (trace factory) are opaque: the
 factory only threads them through.
 */
module AsyncTypes {

  /** A method descriptor, reduced to the API id that labels recorded spans. */
  datatype MethodDescriptor = MethodDescriptor(apiId: int)

  /** The predefined method-descriptor registry, reduced to the descriptor of the "async method". */
  datatype Registry = Registry(asyncMethodDescriptor: MethodDescriptor)

  /** An async hop: the root it descends from and its id. */
  datatype DefaultAsyncTraceId<TR> = DefaultAsyncTraceId(traceRoot: TR, asyncId: int)

  /** An async hop that also carries the caller's async state, for completion signalling. */
  datatype StatefulAsyncTraceId<TR, S> = StatefulAsyncTraceId(traceRoot: TR, asyncId: int, asyncState: S)

  /** A not-yet-activated recording session for one async hop. */
  datatype AsyncContext<TF, TR> =
    DefaultAsyncContext(traceFactory: TF, traceRoot: TR, asyncId: int, asyncMethodApiId: int)
}
