/** The server call handlers: how a handler keeps the interceptors applied to
    it, and how one inbound call is driven through the (intercepted) handler to
    exactly one status send. */
module ServerCallHandlers {
  import opened Core
  import opened ServerMethods

  /** The handler interceptor a call handler keeps (`ServerHandlerInterceptor<T>`):
      the first interceptor applied, or the handler interceptor already kept
      composed with a later one. */
  datatype HandlerInterceptor =
    | Single(interceptor: ServerInterceptor)
    | Composed(existing: HandlerInterceptor, added: ServerInterceptor)

  /** Runs a handler interceptor on a handler. A composed one computes
      `existing(ctx, added(ctx, handler))`. */
  function ApplyHandlerInterceptor(hi: HandlerInterceptor, shape: CallShape, handler: ServerMethod): (r: ServerMethod)
    ensures r.Intercepted? && Innermost(r) == Innermost(handler)
    decreases hi
  {
    match hi
    case Single(i) => WrapUtil(shape, handler, i)
    case Composed(existing, added) => ApplyHandlerInterceptor(existing, shape, WrapUtil(shape, handler, added))
  }

  /** The `if (interceptor != null)` step of `HandleCall`. */
  function ApplyOptional(hi: Option<HandlerInterceptor>, shape: CallShape, handler: ServerMethod): ServerMethod {
    if hi.None? then handler else ApplyHandlerInterceptor(hi.value, shape, handler)
  }

  /** `UnaryServerCallHandler`, `ClientStreamingServerCallHandler`,
      `ServerStreamingServerCallHandler`, `DuplexStreamingServerCallHandler`:
      the shape tells which; the readonly fields are the handler and the
      (possibly null) handler interceptor. */
  datatype ServerCallHandler = ServerCallHandler(
    shape: CallShape,
    handler: ServerMethod,
    interceptor: Option<HandlerInterceptor>)

  /** The handler a call actually runs: interceptor layers around the
      registered logic, which they never replace. */
  function EffectiveHandler(h: ServerCallHandler): (r: ServerMethod)
    ensures Innermost(r) == Innermost(h.handler)
    ensures h.interceptor.None? ==> r == h.handler
  {
    ApplyOptional(h.interceptor, h.shape, h.handler)
  }

  /** `IInterceptableCallHandler.Intercept`: a null interceptor returns the same
      handler; otherwise a new handler of the same shape whose handler
      interceptor first lets the new interceptor wrap the handler and then
      hands the result to the interceptors applied earlier. */
  function Intercept(h: ServerCallHandler, serverInterceptor: Option<ServerInterceptor>): (r: ServerCallHandler)
    ensures serverInterceptor.None? ==> r == h
    ensures r.shape == h.shape && r.handler == h.handler
    ensures serverInterceptor.Some? ==>
      forall m :: ApplyOptional(r.interceptor, h.shape, m)
               == ApplyOptional(h.interceptor, h.shape, WrapUtil(h.shape, m, serverInterceptor.value))
  {
    if serverInterceptor.None? then h
    else if h.interceptor.None? then
      ServerCallHandler(h.shape, h.handler, Some(Single(serverInterceptor.value)))
    else
      ServerCallHandler(h.shape, h.handler, Some(Composed(h.interceptor.value, serverInterceptor.value)))
  }

  /** Applies `Intercept` once per interceptor, in list order. */
  function InterceptEach(h: ServerCallHandler, interceptors: seq<ServerInterceptor>): (r: ServerCallHandler)
    ensures r.shape == h.shape && r.handler == h.handler
    decreases |interceptors|
  {
    if interceptors == [] then h
    else Intercept(InterceptEach(h, interceptors[..|interceptors| - 1]), Some(interceptors[|interceptors| - 1]))
  }

  /** The overrides a list of interceptors supplies for one shape. */
  function OverridesFor(interceptors: seq<ServerInterceptor>, shape: CallShape): (os: seq<ServerOverride>)
    ensures |os| == |interceptors|
    ensures forall k :: 0 <= k < |os| ==> os[k] == OverrideFor(interceptors[k], shape)
  {
    seq(|interceptors|, k requires 0 <= k < |interceptors| => OverrideFor(interceptors[k], shape))
  }

  /** Interception order: after intercepting with I1, ..., In in that order,
      I1 is the outermost layer (runs first) and In the innermost, all of them
      inside whatever the handler had been intercepted with before. */
  lemma {:induction false} InterceptEachNests(h: ServerCallHandler, interceptors: seq<ServerInterceptor>, m: ServerMethod)
    ensures ApplyOptional(InterceptEach(h, interceptors).interceptor, h.shape, m)
         == ApplyOptional(h.interceptor, h.shape, WrapAll(OverridesFor(interceptors, h.shape), m))
    decreases |interceptors|
  {
    if interceptors != [] {
      var init := interceptors[..|interceptors| - 1];
      var last := interceptors[|interceptors| - 1];
      var o := OverrideFor(last, h.shape);
      var inner := InterceptEach(h, init);
      assert ApplyOptional(InterceptEach(h, interceptors).interceptor, h.shape, m)
          == ApplyOptional(inner.interceptor, h.shape, WrapUtil(h.shape, m, last));
      assert WrapUtil(h.shape, m, last) == Intercepted(o, m);
      InterceptEachNests(h, init, Intercepted(o, m));
      WrapAllSnoc(OverridesFor(init, h.shape), o, m);
      assert OverridesFor(init, h.shape) + [o] == OverridesFor(interceptors, h.shape);
    }
  }

  /** The server call context of one call; the handler and interceptors read
      and change it. Deadline, peer, cancellation and the response stream are
      not part of this model. */
  class ServerCallContext {
    var requestHeaders: Metadata
    var status: Status
    var responseTrailers: Metadata
    var writeOptions: Option<WriteOptions>

    /** The context built for a new call (`HandlerUtils.NewContext`). */
    constructor (requestMetadata: Metadata)
      ensures State() == InitialState(requestMetadata)
    {
      requestHeaders := requestMetadata;
      status := DefaultSuccess;
      responseTrailers := [];
      writeOptions := None;
    }

    function State(): CallState
      reads this
    {
      CallState(requestHeaders, status, responseTrailers, writeOptions)
    }
  }

  function InitialState(requestMetadata: Metadata): CallState {
    CallState(requestMetadata, DefaultSuccess, [], None)
  }

  const HandlerExceptionDetail := "Exception was thrown by handler."

  /** The status a thrown exception maps to. */
  function StatusFromException(e: Exception): Status {
    if e.RpcException? then e.status else Status(Unknown, HandlerExceptionDetail)
  }

  /** The trailers a thrown exception contributes. */
  function ThrownTrailers(e: Exception): Metadata {
    if e.RpcException? then e.trailers else []
  }

  /** `HandlerUtils.GetStatusFromExceptionAndMergeTrailers`: an `RpcException`
      appends each of its trailers, in order, to the context's response
      trailers and yields its own status; any other exception yields
      `Unknown` and leaves the trailers alone. */
  method GetStatusFromExceptionAndMergeTrailers(e: Exception, context: ServerCallContext) returns (status: Status)
    modifies context`responseTrailers
    ensures status == StatusFromException(e)
    ensures context.responseTrailers == old(context.responseTrailers) + ThrownTrailers(e)
  {
    if e.RpcException? {
      var i := 0;
      while i < |e.trailers|
        invariant 0 <= i <= |e.trailers|
        invariant context.responseTrailers == old(context.responseTrailers) + e.trailers[..i]
      {
        context.responseTrailers := context.responseTrailers + [e.trailers[i]];
        i := i + 1;
      }
      assert e.trailers[..i] == e.trailers;
      return e.status;
    }
    return Status(Unknown, HandlerExceptionDetail);
  }

  /** `HandlerUtils.GetWriteFlags`. */
  function GetWriteFlags(writeOptions: Option<WriteOptions>): WriteFlags {
    if writeOptions.Some? then writeOptions.value.flags else DefaultWriteFlags
  }

  /** Unary and server-streaming calls read their single request before the
      handler runs; the other shapes hand the request stream over unread. */
  predicate ReadsRequestFirst(shape: CallShape) {
    !RequestStreaming(shape)
  }

  /** Unary and client-streaming handlers return the response to send with the status. */
  predicate SendsResponse(shape: CallShape) {
    !ResponseStreaming(shape)
  }

  /** What the transport offers one inbound call: its request metadata, the
      first request message if one arrives, and whether sending the status
      succeeds. */
  datatype IncomingCall = IncomingCall(requestMetadata: Metadata, request: Option<Message>, sendSucceeds: bool)

  /** `Tuple<TResponse, WriteFlags>`. */
  datatype ResponseTuple = ResponseTuple(response: Option<Message>, flags: WriteFlags)

  /** The arguments of `SendStatusFromServerAsync`. */
  datatype SentStatus = SentStatus(status: Status, trailers: Metadata, response: Option<ResponseTuple>)

  /** The steps of `HandleCall` that touch the interceptor, the handler or the transport. */
  datatype Action =
    | ApplyInterceptor
    | ReadRequest
    | RunHandler
    | SendStatus(sent: SentStatus)
    | Cancel
    | AwaitFinished

  /** How `HandleCall` ends: normally, or rethrowing the failure of the status send. */
  datatype CallResult = Finished | SendFailed

  /** The handler runs unless the call needed a first request and none arrived. */
  predicate HandlerRuns(h: ServerCallHandler, rpc: IncomingCall) {
    !(ReadsRequestFirst(h.shape) && rpc.request.None?)
  }

  /** The request argument the handler gets. */
  function RequestFor(shape: CallShape, request: Option<Message>): RequestArg {
    if ReadsRequestFirst(shape) && request.Some? then RequestMessage(request.value) else RequestStream
  }

  /** Running the effective handler on a fresh context. */
  function HandlerRun(h: ServerCallHandler, rpc: IncomingCall): Run {
    Invoke(EffectiveHandler(h), RequestFor(h.shape, rpc.request), InitialState(rpc.requestMetadata))
  }

  /** What the call sends as its final status. A response only goes out for
      a shape that has one and a handler that ran; a call whose handler never
      ran sends Unknown with no trailers; otherwise the trailers the handler
      left in the context come first and none is dropped. */
  function Finalize(h: ServerCallHandler, rpc: IncomingCall): (r: SentStatus)
    ensures r.response.Some? ==> SendsResponse(h.shape) && HandlerRuns(h, rpc)
    ensures !HandlerRuns(h, rpc) ==> r.status.code == Unknown && r.trailers == [] && r.response.None?
    ensures HandlerRuns(h, rpc) ==> HandlerRun(h, rpc).state.responseTrailers <= r.trailers
  {
    if !HandlerRuns(h, rpc) then
      SentStatus(StatusFromException(ArgumentException), [], None)
    else
      var run := HandlerRun(h, rpc);
      match run.outcome
      case Returned(response) =>
        SentStatus(run.state.status, run.state.responseTrailers,
          if SendsResponse(h.shape) then Some(ResponseTuple(response, GetWriteFlags(run.state.writeOptions))) else None)
      case Threw(e) =>
        SentStatus(StatusFromException(e), run.state.responseTrailers + ThrownTrailers(e), None)
  }

  /** The actions of one call before the status is sent. */
  function Prelude(h: ServerCallHandler, rpc: IncomingCall): seq<Action> {
    (if h.interceptor.Some? then [ApplyInterceptor] else [])
    + (if ReadsRequestFirst(h.shape) then [ReadRequest] else [])
    + (if HandlerRuns(h, rpc) then [RunHandler] else [])
  }

  /** The actions of one call, in order. */
  function CallTrace(h: ServerCallHandler, rpc: IncomingCall): seq<Action> {
    Prelude(h, rpc)
    + [SendStatus(Finalize(h, rpc))]
    + (if rpc.sendSucceeds then [AwaitFinished] else [Cancel])
  }

  /** The try/catch part of `HandleCall`: apply the interceptor, read the first
      request (unary, server streaming), run the handler on a fresh context and
      compute the status, trailers and response to send, from the context or
      from the exception thrown. */
  method RunToStatus(h: ServerCallHandler, rpc: IncomingCall) returns (steps: seq<Action>, sent: SentStatus)
    ensures steps == Prelude(h, rpc)
    ensures sent == Finalize(h, rpc)
  {
    var context := new ServerCallContext(rpc.requestMetadata);
    var status: Status;
    var responseTuple: Option<ResponseTuple> := None;
    var thrown: Option<Exception> := None;
    steps := [];

    // try
    var handler := h.handler;
    if h.interceptor.Some? {
      handler := ApplyHandlerInterceptor(h.interceptor.value, h.shape, handler);
      steps := steps + [ApplyInterceptor];
    }
    assert handler == EffectiveHandler(h);
    var request := RequestStream;
    if ReadsRequestFirst(h.shape) {
      steps := steps + [ReadRequest];
      if rpc.request.Some? {
        request := RequestMessage(rpc.request.value);
      } else {
        // GrpcPreconditions.CheckArgument(false)
        thrown := Some(ArgumentException);
      }
    }
    assert thrown.None? <==> HandlerRuns(h, rpc);
    if thrown.None? {
      steps := steps + [RunHandler];
      assert request == RequestFor(h.shape, rpc.request);
      var run := Invoke(handler, request, context.State());
      assert run == HandlerRun(h, rpc);
      context.requestHeaders, context.status := run.state.requestHeaders, run.state.status;
      context.responseTrailers, context.writeOptions := run.state.responseTrailers, run.state.writeOptions;
      if run.outcome.Returned? && SendsResponse(h.shape) {
        responseTuple := Some(ResponseTuple(run.outcome.response, GetWriteFlags(context.writeOptions)));
      } else if run.outcome.Threw? {
        thrown := Some(run.outcome.e);
      }
    } else {
      assert context.responseTrailers == [];
    }

    // catch
    if thrown.Some? {
      status := GetStatusFromExceptionAndMergeTrailers(thrown.value, context);
    } else {
      status := context.status;
    }
    sent := SentStatus(status, context.responseTrailers, responseTuple);
  }

  /** `HandleCall` of the four call handlers: run the handler to a status, send
      it once, cancel the call and rethrow if the send fails, otherwise wait
      for the call to finish. */
  method HandleCall(h: ServerCallHandler, rpc: IncomingCall) returns (trace: seq<Action>, result: CallResult)
    ensures trace == CallTrace(h, rpc)
    ensures result == (if rpc.sendSucceeds then Finished else SendFailed)
  {
    var sent;
    trace, sent := RunToStatus(h, rpc);
    trace := trace + [SendStatus(sent)];
    if !rpc.sendSucceeds {
      trace := trace + [Cancel];
      return trace, SendFailed;
    }
    trace := trace + [AwaitFinished];
    result := Finished;
  }

  /** Number of status sends in a trace. */
  function CountSends(trace: seq<Action>): nat {
    if trace == [] then 0 else (if trace[0].SendStatus? then 1 else 0) + CountSends(trace[1..])
  }

  lemma {:induction false} CountSendsAppend(a: seq<Action>, b: seq<Action>)
    ensures CountSends(a + b) == CountSends(a) + CountSends(b)
    decreases |a|
  {
    if a != [] {
      assert (a + b)[0] == a[0];
      assert (a + b)[1..] == a[1..] + b;
      CountSendsAppend(a[1..], b);
    } else {
      assert a + b == b;
    }
  }

  /** Whatever the handler does, the status is sent exactly once. A failed send
      is followed by the cancellation and nothing else (no retry); a successful
      one by the wait for completion, which is the last action and happens only
      after a successful send. */
  lemma StatusSentExactlyOnce(h: ServerCallHandler, rpc: IncomingCall)
    ensures var t := CallTrace(h, rpc);
      && CountSends(t) == 1
      && |t| >= 2 && t[|t| - 2] == SendStatus(Finalize(h, rpc))
      && (rpc.sendSucceeds ==> t[|t| - 1] == AwaitFinished && Cancel !in t)
      && (!rpc.sendSucceeds ==> t[|t| - 1] == Cancel && AwaitFinished !in t)
      && AwaitFinished !in t[..|t| - 1] && Cancel !in t[..|t| - 1]
  {
    var pre := Prelude(h, rpc);
    var last := if rpc.sendSucceeds then [AwaitFinished] else [Cancel];
    var t := CallTrace(h, rpc);
    assert t == pre + [SendStatus(Finalize(h, rpc))] + last;
    assert CountSends(pre) == 0 by {
      assert forall k :: 0 <= k < |pre| ==> !pre[k].SendStatus?;
      NoSends(pre);
    }
    CountSendsAppend(pre, [SendStatus(Finalize(h, rpc))]);
    CountSendsAppend(pre + [SendStatus(Finalize(h, rpc))], last);
    assert t[..|t| - 1] == pre + [SendStatus(Finalize(h, rpc))];
  }

  lemma {:induction false} NoSends(trace: seq<Action>)
    requires forall k :: 0 <= k < |trace| ==> !trace[k].SendStatus?
    ensures CountSends(trace) == 0
    decreases |trace|
  {
    if trace != [] {
      NoSends(trace[1..]);
    }
  }

  /** The interceptor is applied before the request is read, and the single
      read comes before the handler runs; streaming requests are never read by
      the call handler itself. */
  lemma ReadComesBeforeHandler(h: ServerCallHandler, rpc: IncomingCall)
    ensures var t := CallTrace(h, rpc);
      var at := if h.interceptor.Some? then 1 else 0;
      && (h.interceptor.Some? ==> t[0] == ApplyInterceptor)
      && (ReadRequest in t <==> ReadsRequestFirst(h.shape))
      && (ReadsRequestFirst(h.shape) ==> t[at] == ReadRequest && (HandlerRuns(h, rpc) ==> t[at + 1] == RunHandler))
      && (RunHandler in t <==> HandlerRuns(h, rpc))
  {
  }

  /** No request for a unary or server-streaming call: the precondition check
      throws inside the try block, so the call ends with `Unknown`, no response
      and no trailers. */
  lemma MissingRequestGivesUnknown(h: ServerCallHandler, rpc: IncomingCall)
    requires ReadsRequestFirst(h.shape) && rpc.request.None?
    ensures Finalize(h, rpc) == SentStatus(Status(Unknown, HandlerExceptionDetail), [], None)
  {
  }

  /** A thrown `RpcException`: its status is sent verbatim, and its trailers
      follow the context's trailers in order, nothing dropped, duplicate keys kept. */
  lemma RpcExceptionStatusVerbatim(h: ServerCallHandler, rpc: IncomingCall, s: Status, thrown: Metadata)
    requires HandlerRuns(h, rpc) && HandlerRun(h, rpc).outcome == Threw(RpcException(s, thrown))
    ensures Finalize(h, rpc) == SentStatus(s, HandlerRun(h, rpc).state.responseTrailers + thrown, None)
  {
  }

  /** Any other exception: `Unknown` with the fixed message; the context's
      trailers are sent as they are. */
  lemma OtherExceptionGivesUnknown(h: ServerCallHandler, rpc: IncomingCall)
    requires HandlerRuns(h, rpc) && HandlerRun(h, rpc).outcome.Threw?
    requires !HandlerRun(h, rpc).outcome.e.RpcException?
    ensures Finalize(h, rpc) == SentStatus(Status(Unknown, HandlerExceptionDetail), HandlerRun(h, rpc).state.responseTrailers, None)
  {
  }

  /** A response goes out only when a unary or client-streaming handler
      returns normally, with the write flags the context holds then; the status
      is then whatever the context holds. */
  lemma ResponseOnlyOnNormalReturn(h: ServerCallHandler, rpc: IncomingCall)
    ensures var f := Finalize(h, rpc);
      f.response.Some? <==> (SendsResponse(h.shape) && HandlerRuns(h, rpc) && HandlerRun(h, rpc).outcome.Returned?)
    ensures HandlerRuns(h, rpc) && HandlerRun(h, rpc).outcome.Returned? ==>
      var run := HandlerRun(h, rpc);
      && Finalize(h, rpc).status == run.state.status
      && (SendsResponse(h.shape) ==>
            Finalize(h, rpc).response == Some(ResponseTuple(run.outcome.response, GetWriteFlags(run.state.writeOptions))))
  {
  }

  /** A call whose handler returns normally, with interceptors or without,
      finishes with `OK` unless the registered logic set a status: interceptor
      layers cannot set one. */
  lemma UnsetStatusIsOk(h: ServerCallHandler, rpc: IncomingCall)
    requires HandlerRuns(h, rpc) && HandlerRun(h, rpc).outcome.Returned?
    requires Innermost(h.handler).setStatus.None?
    ensures Finalize(h, rpc).status == DefaultSuccess
  {
  }

  /** The response of a unary or client-streaming call that returns normally
      goes out with the flags of the write options the registered logic set,
      or with the default flags when it set none (`GetWriteFlags` of a null
      `WriteOptions`); interceptor layers cannot set write options. */
  lemma ResponseWriteFlags(h: ServerCallHandler, rpc: IncomingCall)
    requires SendsResponse(h.shape) && HandlerRuns(h, rpc) && HandlerRun(h, rpc).outcome.Returned?
    ensures Finalize(h, rpc).response.Some?
    ensures var w := Innermost(h.handler).setWriteOptions;
      Finalize(h, rpc).response.value.flags == (if w.Some? then w.value.flags else DefaultWriteFlags)
  {
  }

  /** A handler that adds trailer a:1 and then throws an `RpcException`
      carrying trailer b:2 sends both, in that order. */
  lemma TrailerMergeKeepsBoth(shape: CallShape, s: Status, rpc: IncomingCall)
    requires !ReadsRequestFirst(shape) || rpc.request.Some?
    ensures var b := Behavior(None, [Entry("a", "1")], None, Threw(RpcException(s, [Entry("b", "2")])));
      Finalize(ServerCallHandler(shape, Registered(b), None), rpc).trailers == [Entry("a", "1"), Entry("b", "2")]
  {
  }

  /** The handler behind `UnimplementedMethodCallHandler`: a duplex handler
      whose registered logic only sets `Unimplemented` with an empty message. */
  function UnimplementedMethodCallHandler(): (r: ServerCallHandler)
    ensures !ReadsRequestFirst(r.shape) && !SendsResponse(r.shape)
    ensures forall request, st ::
      && Invoke(EffectiveHandler(r), request, st).outcome == Returned(None)
      && Invoke(EffectiveHandler(r), request, st).state.status == Status(Unimplemented, "")
  {
    ServerCallHandler(DuplexStreaming,
      Registered(Behavior(Some(Status(Unimplemented, "")), [], None, Returned(None))),
      None)
  }

  /** Any call to an unregistered method ends with `Unimplemented`, with no
      request read, no response and no trailers. */
  lemma UnimplementedFallback(rpc: IncomingCall)
    ensures Finalize(UnimplementedMethodCallHandler(), rpc) == SentStatus(Status(Unimplemented, ""), [], None)
    ensures ReadRequest !in CallTrace(UnimplementedMethodCallHandler(), rpc)
  {
  }
}
