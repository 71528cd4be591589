/** The service-latency interceptor example: a helper that rebuilds a method
    handler around a transformed behaviour, a terminator handler, and an
    interceptor that times every behaviour. The measured time itself is not
    modelled; only the calls of the collector are counted. */
module ServiceLatency {
  import opened Core
  import opened PyHandlers

  /** `_wrap_rpc_behavior(handler, fn)`: None stays None; otherwise the
      behaviour matching the handler's two streaming flags is passed to `fn`
      together with those flags, and the result goes into a new handler of the
      same shape with the same marshallers. */
  function WrapRpcBehavior(handler: Option<RpcMethodHandler>, fn: (Option<Behavior>, bool, bool) -> Behavior)
    : (r: Option<RpcMethodHandler>)
    ensures handler.None? <==> r.None?
    ensures handler.Some? ==>
      var h := handler.value;
      var shape := HandlerShape(h);
      && r.value.requestStreaming == h.requestStreaming
      && r.value.responseStreaming == h.responseStreaming
      && r.value.requestDeserializer == h.requestDeserializer
      && r.value.responseSerializer == h.responseSerializer
      && Slot(r.value, shape) == Some(fn(Slot(h, shape), h.requestStreaming, h.responseStreaming))
      && forall other :: other != shape ==> Slot(r.value, other).None?
  {
    if handler.None? then None
    else
      var h := handler.value;
      var (behaviorFn, factoryShape) :=
        if h.requestStreaming && h.responseStreaming then (h.streamStream, DuplexStreaming)
        else if h.requestStreaming && !h.responseStreaming then (h.streamUnary, ClientStreaming)
        else if !h.requestStreaming && h.responseStreaming then (h.unaryStream, ServerStreaming)
        else (h.unaryUnary, Unary);
      Some(MethodHandler(factoryShape, Some(fn(behaviorFn, h.requestStreaming, h.responseStreaming)),
                         h.requestDeserializer, h.responseSerializer))
  }

  /** `_unary_unary_rpc_terminator(code, details)`: a unary-unary handler
      without marshallers whose behaviour aborts the call with that status. */
  function UnaryUnaryRpcTerminator(code: StatusCode, details: string): (r: RpcMethodHandler)
    ensures !r.requestStreaming && !r.responseStreaming
    ensures r.requestDeserializer.None? && r.responseSerializer.None?
    ensures Execute(Slot(r, Unary)) == Execution(AbortedWith(code, details), 0)
    ensures forall other :: other != Unary ==> Slot(r, other).None?
  {
    MethodHandler(Unary, Some(Terminate(code, details)), None, None)
  }

  /** `latency_wrapper`: the behaviour becomes `new_behavior`, which runs it
      and calls the collector in a `finally` block. */
  function LatencyWrapper(behavior: Option<Behavior>, requestStreaming: bool, responseStreaming: bool): (r: Behavior)
    ensures Execute(Some(r)).outcome == Execute(behavior).outcome
    ensures Execute(Some(r)).collected == Execute(behavior).collected + 1
  {
    Timed(behavior)
  }

  /** `ServiceLatencyInterceptor.intercept_service`: the continuation is
      called once with the call details, and whatever handler it returns is
      rebuilt with every behaviour timed. */
  function InterceptService(continuation: HandlerCallDetails -> Option<RpcMethodHandler>, details: HandlerCallDetails)
    : (r: Option<RpcMethodHandler>)
    ensures r.None? <==> continuation(details).None?
    ensures r.Some? ==>
      var h := continuation(details).value;
      && HandlerShape(r.value) == HandlerShape(h)
      && r.value.requestDeserializer == h.requestDeserializer
      && r.value.responseSerializer == h.responseSerializer
  {
    WrapRpcBehavior(continuation(details), LatencyWrapper)
  }

  /** Each call of a method behind the latency interceptor ends as the
      original behaviour ends, whether it returns or raises, and calls the
      collector exactly once more than the original did. */
  lemma CollectorCalledOncePerCall(continuation: HandlerCallDetails -> Option<RpcMethodHandler>,
                                   details: HandlerCallDetails)
    requires continuation(details).Some?
    ensures var h := continuation(details).value;
      var wrapped := InterceptService(continuation, details).value;
      var shape := HandlerShape(h);
      && Execute(Slot(wrapped, shape)).outcome == Execute(Slot(h, shape)).outcome
      && Execute(Slot(wrapped, shape)).collected == Execute(Slot(h, shape)).collected + 1
  {
  }

  /** The four-way selection covers every pair of flags, and each pair selects
      the slot of its own shape: a handler built by a factory keeps its
      behaviour in the slot `_wrap_rpc_behavior` reads for it. */
  lemma SelectionMatchesFactory(shape: CallShape, behavior: Option<Behavior>,
                                requestDeserializer: Option<nat>, responseSerializer: Option<nat>,
                                fn: (Option<Behavior>, bool, bool) -> Behavior)
    ensures var h := MethodHandler(shape, behavior, requestDeserializer, responseSerializer);
      WrapRpcBehavior(Some(h), fn)
      == Some(MethodHandler(shape, Some(fn(behavior, RequestStreaming(shape), ResponseStreaming(shape))),
                            requestDeserializer, responseSerializer))
  {
  }
}
