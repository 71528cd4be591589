/** `ClientBase` and its `ClientBaseConfiguration`: a client stub calls through
    an invoker decorated with one header interceptor that fixes the host. */
module ClientBases {
  import opened Core
  import opened ClientInterceptors
  import opened CallInvokers

  /** `ClientBaseConfiguration`: the invoker to decorate and the host (null
      meaning the default host), both readonly. */
  datatype ClientBaseConfiguration = ClientBaseConfiguration(undecoratedCallInvoker: CallInvoker, host: Option<string>)

  /** The configuration constructor: the invoker must be non-null (the check
      names no parameter); the host may be null. */
  function NewClientBaseConfiguration(undecoratedCallInvoker: Option<CallInvoker>, host: Option<string>)
    : (r: Result<ClientBaseConfiguration, ArgumentNullException>)
    ensures undecoratedCallInvoker.None? ==> r == Err(ArgumentNullException(None))
    ensures r.Ok? <==> undecoratedCallInvoker.Some?
    ensures r.Ok? ==> r.value.undecoratedCallInvoker == undecoratedCallInvoker.value && r.value.host == host
  {
    if undecoratedCallInvoker.None? then Err(ArgumentNullException(None))
    else Ok(ClientBaseConfiguration(undecoratedCallInvoker.value, host))
  }

  /** `ClientHeaderInterceptor` with the configuration's header function: on
      every kind of call the continuation gets a new context with the
      configured host, the method and options unchanged, and the request as
      given. */
  function ClientHeaderInterceptor(host: Option<string>): (r: ClientInterceptor)
    ensures forall kind, context, request, continuation ::
      InterceptCall(OverrideFor(r, kind), context, request, continuation)
      == continuation(ClientInterceptorContext(context.rpcMethod, host, context.options), request)
  {
    ClientInterceptor(ReplaceHost(host), ReplaceHost(host), ReplaceHost(host), ReplaceHost(host), ReplaceHost(host))
  }

  /** `CreateDecoratedCallInvoker`: the undecorated invoker wrapped by exactly
      one header interceptor, so every call reaches it with the configured host
      and the caller's method, options and request. */
  function CreateDecoratedCallInvoker(configuration: ClientBaseConfiguration): (r: CallInvoker)
    ensures r.InterceptingCallInvoker? && r.invoker == configuration.undecoratedCallInvoker
    ensures forall kind, rpcMethod, host, options, request ::
      Invoke(r, kind, rpcMethod, host, options, request)
      == Invoke(configuration.undecoratedCallInvoker, kind, rpcMethod, configuration.host, options, request)
  {
    InterceptingCallInvoker(configuration.undecoratedCallInvoker, ClientHeaderInterceptor(configuration.host))
  }

  /** `ClientBaseConfiguration.WithHost`: a non-null host gives a new
      configuration with the same invoker and that host; the receiver is a
      value and is not changed. */
  function WithHost(configuration: ClientBaseConfiguration, host: Option<string>)
    : (r: Result<ClientBaseConfiguration, ArgumentNullException>)
    ensures host.None? ==> r == Err(ArgumentNullException(Some("host")))
    ensures r.Ok? <==> host.Some?
    ensures r.Ok? ==> r.value.undecoratedCallInvoker == configuration.undecoratedCallInvoker && r.value.host == host
  {
    if host.None? then Err(ArgumentNullException(Some("host")))
    else Ok(ClientBaseConfiguration(configuration.undecoratedCallInvoker, host))
  }

  /** A client stub: its configuration and the decorated invoker its calls use. */
  datatype ClientBase = ClientBase(configuration: ClientBaseConfiguration, callInvoker: CallInvoker)

  /** `ClientBase(configuration)`: non-null configuration; calls go through the
      invoker it decorates. */
  function FromConfiguration(configuration: Option<ClientBaseConfiguration>)
    : (r: Result<ClientBase, ArgumentNullException>)
    ensures configuration.None? ==> r == Err(ArgumentNullException(Some("configuration")))
    ensures r.Ok? <==> configuration.Some?
    ensures r.Ok? ==> r.value.configuration == configuration.value
                      && r.value.callInvoker == CreateDecoratedCallInvoker(configuration.value)
  {
    if configuration.None? then Err(ArgumentNullException(Some("configuration")))
    else Ok(ClientBase(configuration.value, CreateDecoratedCallInvoker(configuration.value)))
  }

  /** `ClientBase(callInvoker)`: a configuration with host null. */
  function FromCallInvoker(callInvoker: Option<CallInvoker>): (r: Result<ClientBase, ArgumentNullException>)
    ensures callInvoker.None? ==> r == Err(ArgumentNullException(None))
    ensures r.Ok? <==> callInvoker.Some?
    ensures r.Ok? ==> r.value.configuration == ClientBaseConfiguration(callInvoker.value, None)
  {
    var configuration := NewClientBaseConfiguration(callInvoker, None);
    if configuration.Err? then Err(configuration.error) else FromConfiguration(Some(configuration.value))
  }

  /** `ClientBase(channel)`: the default invoker on that channel. */
  function FromChannel(channel: nat): (r: ClientBase)
    ensures r.configuration == ClientBaseConfiguration(DefaultCallInvoker(channel), None)
  {
    FromCallInvoker(Some(DefaultCallInvoker(channel))).value
  }

  /** The parameterless constructor: an `UnimplementedCallInvoker`. */
  function Parameterless(): (r: ClientBase)
    ensures r.configuration.undecoratedCallInvoker == UnimplementedCallInvoker
  {
    FromCallInvoker(Some(UnimplementedCallInvoker)).value
  }

  /** `ClientBase<T>.WithHost`: a new client from the configuration with the new host. */
  function ClientWithHost(client: ClientBase, host: Option<string>): (r: Result<ClientBase, ArgumentNullException>)
    ensures host.None? ==> r == Err(ArgumentNullException(Some("host")))
    ensures r.Ok? <==> host.Some?
    ensures r.Ok? ==> r.value.configuration
                      == ClientBaseConfiguration(client.configuration.undecoratedCallInvoker, host)
  {
    var configuration := WithHost(client.configuration, host);
    if configuration.Err? then Err(configuration.error) else FromConfiguration(Some(configuration.value))
  }

  /** A client built on an invoker calls that invoker with host null (the
      default host), leaving method, options and request as the caller gave them. */
  lemma CallInvokerClientUsesDefaultHost(inv: CallInvoker, kind: CallKind, rpcMethod: MethodDescriptor,
                                         host: Option<string>, options: CallOptions, request: Option<Message>)
    ensures var client := FromCallInvoker(Some(inv)).value;
      Invoke(client.callInvoker, kind, rpcMethod, host, options, request)
      == Invoke(inv, kind, rpcMethod, None, options, request)
  {
  }

  /** After `WithHost(h)`, every call reaches the same underlying invoker with host h. */
  lemma WithHostRoutesToHost(client: ClientBase, h: string, kind: CallKind, rpcMethod: MethodDescriptor,
                             host: Option<string>, options: CallOptions, request: Option<Message>)
    ensures var next := ClientWithHost(client, Some(h)).value;
      Invoke(next.callInvoker, kind, rpcMethod, host, options, request)
      == Invoke(client.configuration.undecoratedCallInvoker, kind, rpcMethod, Some(h), options, request)
  {
  }

  /** The parameterless client fails every call with `NotImplementedException`. */
  lemma ParameterlessClientNotImplemented(kind: CallKind, rpcMethod: MethodDescriptor, host: Option<string>,
                                          options: CallOptions, request: Option<Message>)
    ensures Invoke(Parameterless().callInvoker, kind, rpcMethod, host, options, request) == Failed(NotImplemented)
  {
  }

  /** Against the transport, a client created with `WithHost(h)` starts its
      calls on host h with the options the caller passed. */
  lemma ChannelClientWithHost(channel: nat, h: string, kind: CallKind, rpcMethod: MethodDescriptor,
                              host: Option<string>, options: CallOptions, request: Option<Message>)
    ensures var client := ClientWithHost(FromChannel(channel), Some(h)).value;
      Invoke(client.callInvoker, kind, rpcMethod, host, options, request)
      == Started(channel, kind, rpcMethod, Some(h), options, request)
  {
  }
}
