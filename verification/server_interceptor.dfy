/** The server-side entry points of an interceptor: `WrapDelegate`, which picks
    the `WrapUtil` builder matching a handler delegate's shape, and
    `WrapServerCallHandler`, which intercepts a call handler when it can be
    intercepted. The reflection over delegate types is replaced by a closed
    view of what the reflection can find. */
module ServerInterceptors {
  import opened Core
  import opened ServerMethods
  import opened ServerCallHandlers

  /** A delegate as `WrapDelegate` classifies it: null, of a non-generic type,
      one of the four generic handler delegate types (the shape), or of some
      other generic type. */
  datatype Delegate =
    | NullDelegate
    | NonGenericDelegate(name: string)
    | HandlerDelegate(shape: CallShape, handler: ServerMethod)
    | OtherGenericDelegate(definition: string)

  /** `WrapDelegate`: a handler delegate becomes one of the same shape that runs
      the interceptor's handler for that shape, with the original delegate as
      the continuation; anything else comes back unchanged. */
  function WrapDelegate(i: ServerInterceptor, d: Delegate): (r: Delegate)
    ensures !d.HandlerDelegate? ==> r == d
    ensures d.HandlerDelegate? ==>
      && r.HandlerDelegate?
      && r.shape == d.shape
      && r.handler.Intercepted?
      && r.handler.override == OverrideFor(i, d.shape)
      && r.handler.continuation == d.handler
  {
    match d
    case HandlerDelegate(shape, handler) =>
      (match shape
      case Unary => HandlerDelegate(Unary, WrapUtil(Unary, handler, i))
      case ClientStreaming => HandlerDelegate(ClientStreaming, WrapUtil(ClientStreaming, handler, i))
      case ServerStreaming => HandlerDelegate(ServerStreaming, WrapUtil(ServerStreaming, handler, i))
      case DuplexStreaming => HandlerDelegate(DuplexStreaming, WrapUtil(DuplexStreaming, handler, i)))
    case _ => d
  }

  /** The four-way dispatch is one-to-one: two handler delegates that wrap to
      the same delegate were the same delegate. */
  lemma WrapDelegateInjective(i: ServerInterceptor, d1: Delegate, d2: Delegate)
    requires d1.HandlerDelegate? && d2.HandlerDelegate?
    ensures WrapDelegate(i, d1) == WrapDelegate(i, d2) ==> d1 == d2
  {
  }

  /** The shapes do not overlap: wrapping a delegate of one shape depends only
      on the interceptor's handler for that shape. */
  lemma WrapDelegateUsesOwnShape(i1: ServerInterceptor, i2: ServerInterceptor, shape: CallShape, handler: ServerMethod)
    requires OverrideFor(i1, shape) == OverrideFor(i2, shape)
    ensures WrapDelegate(i1, HandlerDelegate(shape, handler)) == WrapDelegate(i2, HandlerDelegate(shape, handler))
  {
  }

  /** A registered server call handler: one of the four interceptable call
      handlers, the unimplemented-method handler, or any other implementation
      of `IServerCallHandler`. */
  datatype CallHandler =
    | Interceptable(callHandler: ServerCallHandler)
    | UnimplementedMethod
    | OtherHandler(id: nat)

  /** `WrapServerCallHandler`: an interceptable handler is intercepted by this
      interceptor, whose new layer wraps each handler as `WrapDelegate` does;
      any other handler is returned unchanged. */
  function WrapServerCallHandler(i: ServerInterceptor, h: CallHandler): (r: CallHandler)
    ensures !h.Interceptable? ==> r == h
    ensures h.Interceptable? ==>
      var s := h.callHandler.shape;
      && r.Interceptable?
      && r.callHandler.shape == s
      && r.callHandler.handler == h.callHandler.handler
      && forall m :: ApplyOptional(r.callHandler.interceptor, s, m)
                  == ApplyOptional(h.callHandler.interceptor, s, WrapDelegate(i, HandlerDelegate(s, m)).handler)
  {
    if h.Interceptable? then Interceptable(Intercept(h.callHandler, Some(i))) else h
  }
}
