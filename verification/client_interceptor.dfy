/** The client half of an interceptor (`ClientInterceptor`, and the client
    members of `Interceptor`): the call context it receives, the five call
    kinds, and one override point per kind with a pass-through default. */
module ClientInterceptors {
  import opened Core

  /** The five ways a client starts a call. */
  datatype CallKind =
    | BlockingUnary
    | AsyncUnary
    | AsyncServerStreaming
    | AsyncClientStreaming
    | AsyncDuplexStreaming

  /** The call shape each kind belongs to. */
  function KindShape(kind: CallKind): (shape: CallShape)
    ensures RequestStreaming(shape) <==> kind == AsyncClientStreaming || kind == AsyncDuplexStreaming
    ensures ResponseStreaming(shape) <==> kind == AsyncServerStreaming || kind == AsyncDuplexStreaming
  {
    match kind
    case BlockingUnary => Unary
    case AsyncUnary => Unary
    case AsyncServerStreaming => ServerStreaming
    case AsyncClientStreaming => ClientStreaming
    case AsyncDuplexStreaming => DuplexStreaming
  }

  /** A method descriptor, reduced to its shape and full name. */
  datatype MethodDescriptor = MethodDescriptor(shape: CallShape, fullName: string)

  /** Call options, reduced to the outgoing headers and the deadline (opaque ticks). */
  datatype CallOptions = CallOptions(headers: Metadata, deadline: Option<nat>)

  /** `ClientInterceptorContext`: the method, host (null meaning the default
      host) and options of one invocation. Its properties are get-only, so an
      interceptor changes them only by building a new context. */
  datatype ClientInterceptorContext = ClientInterceptorContext(
    rpcMethod: MethodDescriptor,
    host: Option<string>,
    options: CallOptions)

  /** Why a client call did not start. */
  datatype ClientError =
    | RpcError(status: Status)   // an interceptor threw an RpcException
    | NotImplemented             // the invoker behind the parameterless client constructor

  /** The call object an invocation returns: the call the transport started
      (with the arguments that reached it) or the exception raised instead. */
  datatype ClientCall =
    | Started(channel: nat, kind: CallKind, rpcMethod: MethodDescriptor, host: Option<string>,
              options: CallOptions, request: Option<Message>)
    | Failed(error: ClientError)

  /** What one client interceptor does for one call kind. */
  datatype ClientOverride =
    | Continue                    // the base-class default: return continuation(context, request)
    | ReplaceHost(host: Option<string>)
    | AddHeader(entry: Entry)
    | Fail(status: Status)        // throw without calling the continuation

  /** A client interceptor: its five per-kind methods. */
  datatype ClientInterceptor = ClientInterceptor(
    blockingUnary: ClientOverride,
    asyncUnary: ClientOverride,
    asyncServerStreaming: ClientOverride,
    asyncClientStreaming: ClientOverride,
    asyncDuplexStreaming: ClientOverride)

  /** An interceptor that overrides nothing. */
  const DefaultClientInterceptor := ClientInterceptor(Continue, Continue, Continue, Continue, Continue)

  /** The interceptor's method for `kind`. */
  function OverrideFor(i: ClientInterceptor, kind: CallKind): ClientOverride {
    match kind
    case BlockingUnary => i.blockingUnary
    case AsyncUnary => i.asyncUnary
    case AsyncServerStreaming => i.asyncServerStreaming
    case AsyncClientStreaming => i.asyncClientStreaming
    case AsyncDuplexStreaming => i.asyncDuplexStreaming
  }

  /** The context a non-throwing interceptor method hands to its
      continuation: always for the same method; the default hands on the
      context it got, a host override rebuilds it with the new host, a header
      override appends the entry to the outgoing headers. */
  function ContextFor(o: ClientOverride, context: ClientInterceptorContext): (c: ClientInterceptorContext)
    requires !o.Fail?
    ensures c.rpcMethod == context.rpcMethod
    ensures o.Continue? ==> c == context
    ensures o.ReplaceHost? ==> c.host == o.host && c.options == context.options
    ensures o.AddHeader? ==>
      && c.host == context.host
      && c.options.deadline == context.options.deadline
      && c.options.headers == context.options.headers + [o.entry]
      && LastValue(c.options.headers, o.entry.key) == Some(o.entry.value)
  {
    match o
    case Continue => context
    case ReplaceHost(host) => ClientInterceptorContext(context.rpcMethod, host, context.options)
    case AddHeader(e) => context.(options := context.options.(headers := context.options.headers + [e]))
  }

  /** A request is present exactly for the kinds whose request is not a
      stream: the unary and server-streaming methods take one, the
      client-streaming and duplex methods take none. */
  predicate WellFormedCall(kind: CallKind, request: Option<Message>) {
    request.Some? <==> !RequestStreaming(KindShape(kind))
  }

  /** The call, if it started, is for the given method and carries the given request. */
  predicate StartsAsAsked(call: ClientCall, rpcMethod: MethodDescriptor, request: Option<Message>) {
    call.Started? ==> call.rpcMethod == rpcMethod && call.request == request
  }

  /** Runs one interceptor method: a failing one throws without calling the
      continuation; the others call it once, with the context `ContextFor`
      gives and the request as given, and return its call object unchanged.
      So no interceptor method redirects a call to another method or swaps
      its request: when the continuation starts calls as asked, so does the
      intercepted call. */
  function InterceptCall(o: ClientOverride, context: ClientInterceptorContext, request: Option<Message>,
                         continuation: (ClientInterceptorContext, Option<Message>) -> ClientCall): (r: ClientCall)
    ensures (forall c, q :: StartsAsAsked(continuation(c, q), c.rpcMethod, q)) ==>
      StartsAsAsked(r, context.rpcMethod, request)
  {
    if o.Fail? then Failed(RpcError(o.status)) else continuation(ContextFor(o, context), request)
  }

  /** The five client defaults pass the call through: one call of the
      continuation with the same context and request, whose result is returned. */
  lemma DefaultClientPassThrough(kind: CallKind, context: ClientInterceptorContext, request: Option<Message>,
                                 continuation: (ClientInterceptorContext, Option<Message>) -> ClientCall)
    ensures InterceptCall(OverrideFor(DefaultClientInterceptor, kind), context, request, continuation)
         == continuation(context, request)
  {
  }

  /** A throwing interceptor method never calls its continuation: the call
      fails with the thrown status whatever the continuation would do. */
  lemma FailIgnoresContinuation(o: ClientOverride, context: ClientInterceptorContext, request: Option<Message>,
                                k1: (ClientInterceptorContext, Option<Message>) -> ClientCall,
                                k2: (ClientInterceptorContext, Option<Message>) -> ClientCall)
    requires o.Fail?
    ensures InterceptCall(o, context, request, k1) == InterceptCall(o, context, request, k2)
    ensures InterceptCall(o, context, request, k1) == Failed(RpcError(o.status))
  {
  }
}
