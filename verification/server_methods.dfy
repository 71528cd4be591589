/** The server half of an interceptor (`Interceptor` and `ServerInterceptor`
    share it word for word): one override point per call shape, the
    pass-through defaults, and the `WrapUtil` builders that turn a handler
    delegate into one that runs the interceptor first. */
module ServerMethods {
  import opened Core

  /** What a handler or interceptor can throw. */
  datatype Exception =
    | RpcException(status: Status, trailers: Metadata)
    | ArgumentException
    | OtherException(description: string)

  /** The first argument a server handler receives: one request message
      (unary, server streaming) or the request stream, unread (client
      streaming, duplex). */
  datatype RequestArg = RequestMessage(message: Message) | RequestStream

  /** The parts of a `ServerCallContext` that handlers and interceptors change. */
  datatype CallState = CallState(
    requestHeaders: Metadata,
    status: Status,
    responseTrailers: Metadata,
    writeOptions: Option<WriteOptions>)

  /** How a handler's task ends: it completes (with a response for unary and
      client-streaming handlers, none for the others) or it throws. */
  datatype Outcome = Returned(response: Option<Message>) | Threw(e: Exception)

  /** Registered application logic, reduced to its effect on the call: the
      status it sets, the trailers it adds, the write options it sets and how
      it ends. The transport-facing side (stream reads and writes) is abstracted. */
  datatype Behavior = Behavior(
    setStatus: Option<Status>,
    addTrailers: Metadata,
    setWriteOptions: Option<WriteOptions>,
    outcome: Outcome)

  /** What one interceptor does for one call shape. */
  datatype ServerOverride =
    | Continue                      // the base-class default: return continuation(...)
    | AddRequestHeader(entry: Entry)  // context.RequestHeaders.Add(entry), then continue
    | Abort(e: Exception)            // throw without calling the continuation

  /** A server interceptor: its four per-shape server handlers. */
  datatype ServerInterceptor = ServerInterceptor(
    unary: ServerOverride,
    clientStreaming: ServerOverride,
    serverStreaming: ServerOverride,
    duplexStreaming: ServerOverride)

  /** An interceptor that overrides nothing. */
  const DefaultInterceptor := ServerInterceptor(Continue, Continue, Continue, Continue)

  /** The override the interceptor supplies for `shape`. */
  function OverrideFor(i: ServerInterceptor, shape: CallShape): ServerOverride {
    match shape
    case Unary => i.unary
    case ClientStreaming => i.clientStreaming
    case ServerStreaming => i.serverStreaming
    case DuplexStreaming => i.duplexStreaming
  }

  /** A handler delegate (`UnaryServerMethod`, ...): the registered logic, or a
      lambda that runs one interceptor override with the inner delegate as its
      continuation. */
  datatype ServerMethod =
    | Registered(behavior: Behavior)
    | Intercepted(override: ServerOverride, continuation: ServerMethod)

  /** What the registered logic received when it ran. */
  datatype Reached = Reached(request: RequestArg, requestHeaders: Metadata)

  /** The result of invoking a handler delegate: how it ended, the context
      afterwards, and what the registered logic saw (None when an interceptor
      did not let the call reach it). */
  datatype Run = Run(outcome: Outcome, state: CallState, reached: Option<Reached>)

  /** The effect of the registered logic on the call context. */
  function Perform(b: Behavior, st: CallState): CallState {
    CallState(
      st.requestHeaders,
      if b.setStatus.Some? then b.setStatus.value else st.status,
      st.responseTrailers + b.addTrailers,
      if b.setWriteOptions.Some? then b.setWriteOptions else st.writeOptions)
  }

  /** The registered logic at the bottom of a stack of interceptor layers. */
  function Innermost(m: ServerMethod): Behavior
    decreases m
  {
    match m
    case Registered(b) => b
    case Intercepted(_, k) => Innermost(k)
  }

  /** Invokes a handler delegate with its request argument on a context.
      Interceptor layers only add request headers or throw: when the
      registered logic is reached it gets the request unchanged and the
      headers with entries appended, and the status, trailers and write
      options are what it makes of the context; when it is not reached the
      call throws and none of them changes. A normal return is always the
      registered logic's. */
  function Invoke(m: ServerMethod, request: RequestArg, st: CallState): (r: Run)
    ensures r.reached.Some? ==>
      && r.reached.value.request == request
      && |st.requestHeaders| <= |r.reached.value.requestHeaders|
      && r.reached.value.requestHeaders[..|st.requestHeaders|] == st.requestHeaders
      && r.outcome == Innermost(m).outcome
      && r.state.status == (if Innermost(m).setStatus.Some? then Innermost(m).setStatus.value else st.status)
      && r.state.responseTrailers == st.responseTrailers + Innermost(m).addTrailers
      && r.state.writeOptions == (if Innermost(m).setWriteOptions.Some? then Innermost(m).setWriteOptions else st.writeOptions)
    ensures r.reached.None? ==>
      && r.outcome.Threw?
      && r.state.status == st.status
      && r.state.responseTrailers == st.responseTrailers
      && r.state.writeOptions == st.writeOptions
    decreases m
  {
    match m
    case Registered(b) => Run(b.outcome, Perform(b, st), Some(Reached(request, st.requestHeaders)))
    case Intercepted(o, k) =>
      match o
      case Continue => Invoke(k, request, st)
      case AddRequestHeader(e) =>
        var r := Invoke(k, request, st.(requestHeaders := st.requestHeaders + [e]));
        assert r.reached.Some? ==> r.reached.value.requestHeaders[..|st.requestHeaders|]
                                   == (st.requestHeaders + [e])[..|st.requestHeaders|];
        r
      case Abort(e) => Run(Threw(e), st, None)
  }

  /** `WrapUtil.Unary`, `.ClientStreaming`, `.ServerStreaming`, `.DuplexStreaming`:
      a handler of the same shape whose invocation runs the interceptor's
      handler for that shape, with `handler` as the continuation. */
  function WrapUtil(shape: CallShape, handler: ServerMethod, interceptor: ServerInterceptor): (r: ServerMethod)
    ensures r.Intercepted? && r.continuation == handler
    ensures forall request, st :: Invoke(r, request, st) == Invoke(Intercepted(OverrideFor(interceptor, shape), handler), request, st)
  {
    match shape
    case Unary => Intercepted(interceptor.unary, handler)
    case ClientStreaming => Intercepted(interceptor.clientStreaming, handler)
    case ServerStreaming => Intercepted(interceptor.serverStreaming, handler)
    case DuplexStreaming => Intercepted(interceptor.duplexStreaming, handler)
  }

  /** The four default server handlers pass the call through: wrapping any
      handler, of any shape, with an interceptor that overrides nothing changes
      nothing the call can observe. */
  lemma DefaultHandlersPassThrough(shape: CallShape, handler: ServerMethod, request: RequestArg, st: CallState)
    ensures Invoke(WrapUtil(shape, handler, DefaultInterceptor), request, st) == Invoke(handler, request, st)
  {
  }

  /** A header an interceptor adds before continuing is what the registered
      handler finds as the last entry with that key, and the request reaches
      it unchanged. */
  lemma AddedHeaderVisibleToHandler(shape: CallShape, i: ServerInterceptor, b: Behavior, request: RequestArg, st: CallState)
    requires OverrideFor(i, shape).AddRequestHeader?
    ensures var run := Invoke(WrapUtil(shape, Registered(b), i), request, st);
      var e := OverrideFor(i, shape).entry;
      && run.reached == Some(Reached(request, st.requestHeaders + [e]))
      && LastValue(run.reached.value.requestHeaders, e.key) == Some(e.value)
      && run.outcome == b.outcome
  {
  }

  /** A stack of overrides around a handler, outermost first. */
  function WrapAll(overrides: seq<ServerOverride>, handler: ServerMethod): ServerMethod
    decreases |overrides|
  {
    if overrides == [] then handler
    else Intercepted(overrides[0], WrapAll(overrides[1..], handler))
  }

  /** Adding one more override innermost. */
  lemma {:induction false} WrapAllSnoc(overrides: seq<ServerOverride>, o: ServerOverride, handler: ServerMethod)
    ensures WrapAll(overrides + [o], handler) == WrapAll(overrides, Intercepted(o, handler))
    decreases |overrides|
  {
    if overrides != [] {
      assert (overrides + [o])[1..] == overrides[1..] + [o];
      WrapAllSnoc(overrides[1..], o, handler);
    }
  }

  function HeaderEntries(overrides: seq<ServerOverride>): Metadata
    requires forall k :: 0 <= k < |overrides| ==> overrides[k].AddRequestHeader?
  {
    if overrides == [] then [] else [overrides[0].entry] + HeaderEntries(overrides[1..])
  }

  /** Outer overrides run first: a stack of header-adding overrides delivers
      its headers to the registered handler in outermost-first order, after
      the ones the call arrived with. */
  lemma {:induction false} HeadersArriveOutermostFirst(overrides: seq<ServerOverride>, b: Behavior, request: RequestArg, st: CallState)
    requires forall k :: 0 <= k < |overrides| ==> overrides[k].AddRequestHeader?
    ensures Invoke(WrapAll(overrides, Registered(b)), request, st).reached
         == Some(Reached(request, st.requestHeaders + HeaderEntries(overrides)))
    decreases |overrides|
  {
    if overrides != [] {
      var st' := st.(requestHeaders := st.requestHeaders + [overrides[0].entry]);
      HeadersArriveOutermostFirst(overrides[1..], b, request, st');
      assert Invoke(WrapAll(overrides, Registered(b)), request, st)
          == Invoke(WrapAll(overrides[1..], Registered(b)), request, st');
      assert HeaderEntries(overrides) == [overrides[0].entry] + HeaderEntries(overrides[1..]);
      assert st'.requestHeaders + HeaderEntries(overrides[1..]) == st.requestHeaders + HeaderEntries(overrides);
    } else {
      assert st.requestHeaders + HeaderEntries(overrides) == st.requestHeaders;
    }
  }

  /** The first override that throws stops the call there: the registered
      handler never runs and that exception is the outcome. */
  lemma {:induction false} AbortShortCircuits(overrides: seq<ServerOverride>, k: nat, b: Behavior, request: RequestArg, st: CallState)
    requires k < |overrides| && overrides[k].Abort?
    requires forall j :: 0 <= j < k ==> !overrides[j].Abort?
    ensures var run := Invoke(WrapAll(overrides, Registered(b)), request, st);
      run.reached.None? && run.outcome == Threw(overrides[k].e)
    decreases k
  {
    if k > 0 {
      var st' := match overrides[0]
        case AddRequestHeader(e) => st.(requestHeaders := st.requestHeaders + [e])
        case _ => st;
      AbortShortCircuits(overrides[1..], k - 1, b, request, st');
    }
  }
}
