/** `ServerServiceDefinitionExtensions.Intercept`: a service definition whose
    every call handler is wrapped by one server interceptor. */
module ServiceDefinitions {
  import opened Core
  import opened ServerMethods
  import opened ServerCallHandlers
  import opened ServerInterceptors

  /** A service definition: the call handlers by fully qualified method name. */
  datatype ServerServiceDefinition = ServerServiceDefinition(callHandlers: map<string, CallHandler>)

  /** `SubstituteHandlers`: the same methods, each handler replaced by `f` of it. */
  function SubstituteHandlers(service: ServerServiceDefinition, f: CallHandler -> CallHandler): (r: ServerServiceDefinition)
    ensures r.callHandlers.Keys == service.callHandlers.Keys
    ensures forall name :: name in r.callHandlers ==> r.callHandlers[name] == f(service.callHandlers[name])
  {
    ServerServiceDefinition(map name | name in service.callHandlers :: f(service.callHandlers[name]))
  }

  /** `Intercept(service, interceptor)`: both arguments must be non-null; every
      method keeps its name and gets `interceptor.WrapServerCallHandler` of its
      handler. */
  function Intercept(service: Option<ServerServiceDefinition>, interceptor: Option<ServerInterceptor>)
    : (r: Result<ServerServiceDefinition, ArgumentNullException>)
    ensures service.None? ==> r == Err(ArgumentNullException(Some("service")))
    ensures service.Some? && interceptor.None? ==> r == Err(ArgumentNullException(Some("interceptor")))
    ensures service.Some? && interceptor.Some? ==>
      && r.Ok?
      && r.value.callHandlers.Keys == service.value.callHandlers.Keys
      && forall name :: name in r.value.callHandlers ==>
           r.value.callHandlers[name] == WrapServerCallHandler(interceptor.value, service.value.callHandlers[name])
  {
    if service.None? then Err(ArgumentNullException(Some("service")))
    else if interceptor.None? then Err(ArgumentNullException(Some("interceptor")))
    else Ok(SubstituteHandlers(service.value, h => WrapServerCallHandler(interceptor.value, h)))
  }

  /** Handlers that cannot be intercepted (the unimplemented-method handler,
      foreign implementations) are kept as they are. */
  lemma NonInterceptableKept(service: ServerServiceDefinition, i: ServerInterceptor, name: string)
    requires name in service.callHandlers && !service.callHandlers[name].Interceptable?
    ensures Intercept(Some(service), Some(i)).value.callHandlers[name] == service.callHandlers[name]
  {
  }

  /** Intercepting a service first with `i1` and then with `i2` makes `i1` the
      outer layer: a call runs `i1`'s handler, then `i2`'s, then the
      registered one. */
  lemma FirstInterceptorOutermost(service: ServerServiceDefinition, i1: ServerInterceptor, i2: ServerInterceptor,
                                  name: string, shape: CallShape, handler: ServerMethod)
    requires name in service.callHandlers
    requires service.callHandlers[name] == Interceptable(ServerCallHandler(shape, handler, None))
    ensures var once := Intercept(Some(service), Some(i1)).value;
      var twice := Intercept(Some(once), Some(i2)).value;
      && twice.callHandlers[name].Interceptable?
      && EffectiveHandler(twice.callHandlers[name].callHandler)
         == Intercepted(OverrideFor(i1, shape), Intercepted(OverrideFor(i2, shape), handler))
  {
    var h := ServerCallHandler(shape, handler, None);
    var twice := Intercept(Some(Intercept(Some(service), Some(i1)).value), Some(i2)).value;
    assert twice.callHandlers[name] == Interceptable(ServerCallHandlers.Intercept(ServerCallHandlers.Intercept(h, Some(i1)), Some(i2)));
    assert [i1, i2][..1] == [i1];
    assert [i1][..0] == [];
    assert InterceptEach(h, [i1]) == ServerCallHandlers.Intercept(InterceptEach(h, []), Some(i1));
    assert InterceptEach(h, [i1, i2]) == ServerCallHandlers.Intercept(InterceptEach(h, [i1]), Some(i2));
    assert InterceptEach(h, [i1, i2]) == ServerCallHandlers.Intercept(ServerCallHandlers.Intercept(h, Some(i1)), Some(i2));
    InterceptEachNests(h, [i1, i2], handler);
  }

  /** An interceptor that adds a request header on unary calls, applied to a
      service with a unary handler: the handler finds that header as the last
      entry with its key, and the call ends as the handler ends it. */
  lemma InterceptedHandlerSeesAddedHeader(service: ServerServiceDefinition, name: string, b: Behavior,
                                          e: Entry, rpc: IncomingCall)
    requires name in service.callHandlers
    requires service.callHandlers[name] == Interceptable(ServerCallHandler(Unary, Registered(b), None))
    requires rpc.request.Some?
    ensures var i := DefaultInterceptor.(unary := AddRequestHeader(e));
      var h := Intercept(Some(service), Some(i)).value.callHandlers[name];
      && h.Interceptable?
      && HandlerRun(h.callHandler, rpc).reached == Some(Reached(RequestMessage(rpc.request.value), rpc.requestMetadata + [e]))
      && LastValue(HandlerRun(h.callHandler, rpc).reached.value.requestHeaders, e.key) == Some(e.value)
      && HandlerRun(h.callHandler, rpc).outcome == b.outcome
  {
    var i := DefaultInterceptor.(unary := AddRequestHeader(e));
    var h := Intercept(Some(service), Some(i)).value.callHandlers[name];
    assert EffectiveHandler(h.callHandler) == WrapUtil(Unary, Registered(b), i);
    AddedHeaderVisibleToHandler(Unary, i, b, RequestMessage(rpc.request.value), InitialState(rpc.requestMetadata));
  }
}
