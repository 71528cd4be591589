/** `CallInvokerExtensions`: an invoker that routes each call through one
    client interceptor, with the wrapped invoker as the continuation. */
module CallInvokers {
  import opened Core
  import opened ClientInterceptors

  /** A call invoker: the transport on a channel, the invoker that raises
      `NotImplementedException` on every call, or an intercepting invoker
      holding its inner invoker and its interceptor (both readonly). */
  datatype CallInvoker =
    | DefaultCallInvoker(channel: nat)
    | UnimplementedCallInvoker
    | InterceptingCallInvoker(invoker: CallInvoker, interceptor: ClientInterceptor)

  /** Starts a call of the given kind: the five `CallInvoker` methods. An
      intercepting invoker runs the interceptor's method for the same kind on
      a context built from the arguments; unless that method throws, the inner
      invoker's method for that kind continues with the context it hands on
      (`InvokeRunsInterceptor` states this as a continuation call). Kinds
      are never crossed: whatever interceptors sit in between, a call the
      transport starts is of the kind the caller asked for, for the same
      method, with the request the caller gave, so a well-formed call stays
      well-formed. */
  function Invoke(inv: CallInvoker, kind: CallKind, rpcMethod: MethodDescriptor, host: Option<string>,
                  options: CallOptions, request: Option<Message>): (r: ClientCall)
    ensures r.Started? ==> r.kind == kind && r.rpcMethod == rpcMethod && r.request == request
    ensures r.Started? ==> (WellFormedCall(r.kind, r.request) <==> WellFormedCall(kind, request))
    decreases inv
  {
    match inv
    case DefaultCallInvoker(channel) => Started(channel, kind, rpcMethod, host, options, request)
    case UnimplementedCallInvoker => Failed(NotImplemented)
    case InterceptingCallInvoker(inner, i) =>
      var o := OverrideFor(i, kind);
      if o.Fail? then Failed(RpcError(o.status))
      else
        var c := ContextFor(o, ClientInterceptorContext(rpcMethod, host, options));
        Invoke(inner, kind, c.rpcMethod, c.host, c.options, request)
  }

  /** The inner invoker's method for `kind`, as the continuation an
      intercepting invoker passes to its interceptor. */
  function InnerContinuation(inner: CallInvoker, kind: CallKind): (ClientInterceptorContext, Option<Message>) -> ClientCall {
    (c: ClientInterceptorContext, q: Option<Message>) => Invoke(inner, kind, c.rpcMethod, c.host, c.options, q)
  }

  /** A call through an intercepting invoker is the interceptor's method for
      that kind, given the context of the call's arguments and the inner
      invoker's method as its continuation. */
  lemma InvokeRunsInterceptor(inner: CallInvoker, i: ClientInterceptor, kind: CallKind, rpcMethod: MethodDescriptor,
                              host: Option<string>, options: CallOptions, request: Option<Message>)
    ensures Invoke(InterceptingCallInvoker(inner, i), kind, rpcMethod, host, options, request)
         == InterceptCall(OverrideFor(i, kind), ClientInterceptorContext(rpcMethod, host, options), request,
                          InnerContinuation(inner, kind))
  {
  }

  /** The `InterceptingCallInvoker` constructor: neither argument may be null. */
  function NewInterceptingCallInvoker(invoker: Option<CallInvoker>, interceptor: Option<ClientInterceptor>)
    : (r: Result<CallInvoker, ArgumentNullException>)
    ensures invoker.None? ==> r == Err(ArgumentNullException(Some("invoker")))
    ensures invoker.Some? && interceptor.None? ==> r == Err(ArgumentNullException(Some("interceptor")))
    ensures r.Ok? <==> invoker.Some? && interceptor.Some?
    ensures r.Ok? ==> r.value.InterceptingCallInvoker? && r.value.invoker == invoker.value
                      && r.value.interceptor == interceptor.value
  {
    if invoker.None? then Err(ArgumentNullException(Some("invoker")))
    else if interceptor.None? then Err(ArgumentNullException(Some("interceptor")))
    else Ok(InterceptingCallInvoker(invoker.value, interceptor.value))
  }

  /** `invoker.Intercept(interceptor)`: a new invoker around exactly that pair;
      the original invoker is a value and stays as it was. */
  function Intercept(invoker: Option<CallInvoker>, interceptor: Option<ClientInterceptor>)
    : (r: Result<CallInvoker, ArgumentNullException>)
    ensures r.Ok? <==> invoker.Some? && interceptor.Some?
    ensures r.Ok? ==> r.value == InterceptingCallInvoker(invoker.value, interceptor.value)
    ensures r.Ok? ==> forall kind, rpcMethod, host, options, request ::
      Invoke(r.value, kind, rpcMethod, host, options, request)
      == InterceptCall(OverrideFor(interceptor.value, kind), ClientInterceptorContext(rpcMethod, host, options), request,
                       InnerContinuation(invoker.value, kind))
  {
    NewInterceptingCallInvoker(invoker, interceptor)
  }

  /** One layer of an intercepting invoker, unfolded: what the inner invoker
      is asked for under each kind of interceptor method. */
  lemma InterceptingStep(inner: CallInvoker, i: ClientInterceptor, kind: CallKind, rpcMethod: MethodDescriptor,
                         host: Option<string>, options: CallOptions, request: Option<Message>)
    ensures Invoke(InterceptingCallInvoker(inner, i), kind, rpcMethod, host, options, request)
         == match OverrideFor(i, kind)
            case Continue => Invoke(inner, kind, rpcMethod, host, options, request)
            case ReplaceHost(h) => Invoke(inner, kind, rpcMethod, h, options, request)
            case AddHeader(e) => Invoke(inner, kind, rpcMethod, host, options.(headers := options.headers + [e]), request)
            case Fail(s) => Failed(RpcError(s))
  {
  }

  /** An interceptor that overrides nothing is invisible. */
  lemma DefaultInterceptorTransparent(inner: CallInvoker, kind: CallKind, rpcMethod: MethodDescriptor,
                                      host: Option<string>, options: CallOptions, request: Option<Message>)
    ensures Invoke(InterceptingCallInvoker(inner, DefaultClientInterceptor), kind, rpcMethod, host, options, request)
         == Invoke(inner, kind, rpcMethod, host, options, request)
  {
  }

  /** `Intercept` applied once per interceptor, in list order. */
  function InterceptEach(inv: CallInvoker, interceptors: seq<ClientInterceptor>): CallInvoker
    decreases |interceptors|
  {
    if interceptors == [] then inv
    else InterceptingCallInvoker(InterceptEach(inv, interceptors[..|interceptors| - 1]), interceptors[|interceptors| - 1])
  }

  /** The headers the header-adding interceptors of a stack add, in
      application order. */
  function AddedHeaders(interceptors: seq<ClientInterceptor>, kind: CallKind): Metadata
    decreases |interceptors|
  {
    if interceptors == [] then []
    else
      var o := OverrideFor(interceptors[|interceptors| - 1], kind);
      AddedHeaders(interceptors[..|interceptors| - 1], kind) + (if o.AddHeader? then [o.entry] else [])
  }

  function Reversed<T>(s: seq<T>): seq<T>
    decreases |s|
  {
    if s == [] then [] else [s[|s| - 1]] + Reversed(s[..|s| - 1])
  }

  /** One header-adding layer: the inner invoker gets the same call with the
      entry appended to the outgoing headers. */
  lemma AddHeaderStep(inner: CallInvoker, i: ClientInterceptor, kind: CallKind, rpcMethod: MethodDescriptor,
                      host: Option<string>, options: CallOptions, request: Option<Message>)
    requires OverrideFor(i, kind).AddHeader?
    ensures Invoke(InterceptingCallInvoker(inner, i), kind, rpcMethod, host, options, request)
         == Invoke(inner, kind, rpcMethod, host, options.(headers := options.headers + [OverrideFor(i, kind).entry]), request)
  {
    InterceptingStep(inner, i, kind, rpcMethod, host, options, request);
  }

  lemma ReversedSnoc<T>(s: seq<T>, x: T)
    ensures Reversed(s + [x]) == [x] + Reversed(s)
  {
    assert (s + [x])[..|s|] == s;
  }

  /** Appending `e` first and the earlier headers reversed after it is the
      reverse of the headers with `e` last. */
  lemma PrependReversed(headers: Metadata, added: Metadata, e: Entry)
    ensures (headers + [e]) + Reversed(added) == headers + Reversed(added + [e])
  {
    ReversedSnoc(added, e);
  }

  /** The last interceptor applied is the outermost and runs first: a stack of
      header-adding interceptors delivers its headers to the transport in the
      reverse of the order the interceptors were applied. */
  lemma {:induction false} LastAppliedRunsFirst(channel: nat, interceptors: seq<ClientInterceptor>, kind: CallKind,
                                                rpcMethod: MethodDescriptor, host: Option<string>,
                                                options: CallOptions, request: Option<Message>)
    requires forall k :: 0 <= k < |interceptors| ==> OverrideFor(interceptors[k], kind).AddHeader?
    ensures Invoke(InterceptEach(DefaultCallInvoker(channel), interceptors), kind, rpcMethod, host, options, request)
         == Started(channel, kind, rpcMethod, host,
                    options.(headers := options.headers + Reversed(AddedHeaders(interceptors, kind))), request)
    decreases |interceptors|
  {
    if interceptors != [] {
      var init := interceptors[..|interceptors| - 1];
      var last := interceptors[|interceptors| - 1];
      var e := OverrideFor(last, kind).entry;
      var inner := InterceptEach(DefaultCallInvoker(channel), init);
      assert InterceptEach(DefaultCallInvoker(channel), interceptors) == InterceptingCallInvoker(inner, last);
      AddHeaderStep(inner, last, kind, rpcMethod, host, options, request);
      assert forall k :: 0 <= k < |init| ==> init[k] == interceptors[k];
      LastAppliedRunsFirst(channel, init, kind, rpcMethod, host, options.(headers := options.headers + [e]), request);
      assert AddedHeaders(interceptors, kind) == AddedHeaders(init, kind) + [e];
      PrependReversed(options.headers, AddedHeaders(init, kind), e);
    } else {
      assert options.(headers := options.headers + []) == options;
    }
  }

  /** An interceptor adding `e` to every kind of call. */
  function AddingHeader(e: Entry): ClientInterceptor {
    ClientInterceptor(AddHeader(e), AddHeader(e), AddHeader(e), AddHeader(e), AddHeader(e))
  }

  /** Applying an interceptor adding a:1 and then one adding b:2: the transport
      sees b:2 before a:1. */
  lemma TwoHeaderOrder(channel: nat, kind: CallKind, rpcMethod: MethodDescriptor, host: Option<string>, request: Option<Message>)
    ensures var inv := InterceptingCallInvoker(
              InterceptingCallInvoker(DefaultCallInvoker(channel), AddingHeader(Entry("a", "1"))),
              AddingHeader(Entry("b", "2")));
      Invoke(inv, kind, rpcMethod, host, CallOptions([], None), request)
      == Started(channel, kind, rpcMethod, host, CallOptions([Entry("b", "2"), Entry("a", "1")], None), request)
  {
    var inner := InterceptingCallInvoker(DefaultCallInvoker(channel), AddingHeader(Entry("a", "1")));
    AddHeaderStep(inner, AddingHeader(Entry("b", "2")), kind, rpcMethod, host, CallOptions([], None), request);
    AddHeaderStep(DefaultCallInvoker(channel), AddingHeader(Entry("a", "1")), kind, rpcMethod, host,
                  CallOptions([Entry("b", "2")], None), request);
    assert [Entry("b", "2")] + [Entry("a", "1")] == [Entry("b", "2"), Entry("a", "1")];
  }

  /** The outermost failing interceptor decides: when the interceptor applied
      at position k throws and none applied after it does, the call fails with
      its status and neither the inner interceptors nor the transport run. */
  lemma {:induction false} OutermostFailureWins(inv: CallInvoker, interceptors: seq<ClientInterceptor>, k: nat,
                                                kind: CallKind, rpcMethod: MethodDescriptor, host: Option<string>,
                                                options: CallOptions, request: Option<Message>)
    requires k < |interceptors| && OverrideFor(interceptors[k], kind).Fail?
    requires forall j :: k < j < |interceptors| ==> !OverrideFor(interceptors[j], kind).Fail?
    ensures Invoke(InterceptEach(inv, interceptors), kind, rpcMethod, host, options, request)
         == Failed(RpcError(OverrideFor(interceptors[k], kind).status))
    decreases |interceptors|
  {
    var n := |interceptors|;
    if k < n - 1 {
      var init := interceptors[..n - 1];
      var o := OverrideFor(interceptors[n - 1], kind);
      InterceptingStep(InterceptEach(inv, init), interceptors[n - 1], kind, rpcMethod, host, options, request);
      match o
      case Continue =>
        OutermostFailureWins(inv, init, k, kind, rpcMethod, host, options, request);
      case ReplaceHost(h) =>
        OutermostFailureWins(inv, init, k, kind, rpcMethod, h, options, request);
      case AddHeader(e) =>
        OutermostFailureWins(inv, init, k, kind, rpcMethod, host, options.(headers := options.headers + [e]), request);
    }
  }
}
