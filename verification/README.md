# gRPC call interception, modelled in Dafny

This project models how gRPC routes calls through interceptors, in C# (Grpc.Core) and in Python (grpcio).

**C# server side.**
- A server interceptor has four per-shape handlers: unary, client streaming, server streaming and duplex streaming. By default each one calls its continuation.
- `WrapUtil` and `WrapDelegate` turn a handler delegate into one that runs the interceptor first.
- `WrapServerCallHandler` and `ServerServiceDefinitionExtensions.Intercept` apply an interceptor to every call handler of a service definition.
- A call handler stores the chain of interceptors applied to it and composes them. The interceptor applied first ends up outermost.
- `HandleCall` drives one inbound call:
  1. apply the interceptors;
  2. read the first request (unary and server streaming only);
  3. run the handler on a fresh server call context;
  4. turn a thrown exception into a status, merging the trailers of an `RpcException` into the context's trailers;
  5. send the status exactly once;
  6. cancel the call and rethrow if the send fails, otherwise wait for the call to finish.

**C# client side.**
- A client interceptor has five per-kind methods, which by default call their continuation with the same context.
- `CallInvokerExtensions.Intercept` wraps an invoker so that every call goes through the interceptor, with the inner invoker as the continuation. The interceptor applied last ends up outermost.
- `ClientBase` decorates its invoker with one header interceptor that pins the configured host.

**Python.**
- `_ServicePipeline` chains `intercept_service` calls through index-bound continuations, ending in the handler lookup ("thunk").
- The request-header example interceptor appends one metadata pair to each unary-unary call.
- The service-latency example interceptor rebuilds the method handler so that each behaviour is timed. The latency collector is called once per call, whether the behaviour returns or raises.

**How the model represents things.**
- Pure code is modelled as datatypes and functions. Interceptors become closed datatypes of what their methods do (pass through, add a header, replace the host, throw).
- The server call context is a class whose fields the handler changes. Merging exception trailers into it is a method with a loop, proved against the function that specifies it.
- `HandleCall` is a method that records the actions of one call. Its result is proved equal to a reference trace function, and the ordering and exactly-once properties are proved about that function.
- The Python request-header interceptor, which builds a list step by step, is a method proved against a function.

## Model

| member | source | states |
|---|---|---|
| `Core.LastValue` | src/csharp/Grpc.Core.Tests/Interceptors/ServerInterceptorTest.cs:67 | None exactly when no entry has the key; otherwise the value of an entry with that key after which no entry has the key (the "last entry with that key" read the test performs) |
| `Core.ShapeOf` | examples/python/interceptors/service-latency-interceptor/service_latency_interceptor.py:33-44 | the shape picked for two streaming flags has exactly those flags |
| `Core.ShapeOfFlags` | examples/python/interceptors/service-latency-interceptor/service_latency_interceptor.py:33-44 | the four-way split is a bijection: the flags of a shape select that shape again |
| `ServerMethods.Invoke` | src/csharp/Grpc.Core/Interceptors/Interceptor.cs:306-336 | interceptor layers only append request headers or throw: when the registered logic is reached it gets the request unchanged and the call's headers as a prefix, the outcome is the registered logic's, and status, trailers and write options are what that logic makes of the context; when it is not reached the call throws and the context is unchanged |
| `ServerMethods.WrapUtil` | src/csharp/Grpc.Core/Interceptors/Interceptor.cs:302-337 | the wrapped handler keeps the original as its continuation, and invoking it runs the interceptor's handler for that shape around the original |
| `ServerMethods.DefaultHandlersPassThrough` | src/csharp/Grpc.Core/Interceptors/Interceptor.cs:240-295 | for every shape, wrapping with an interceptor that overrides nothing leaves the outcome, the context and what the handler sees unchanged |
| `ServerMethods.AddedHeaderVisibleToHandler` | src/csharp/Grpc.Core.Tests/Interceptors/ServerInterceptorTest.cs:45-49 | a header an interceptor adds before continuing reaches the handler as the last entry with its key; the request and outcome are unchanged |
| `ServerMethods.HeadersArriveOutermostFirst` | src/csharp/Grpc.Core/Interceptors/Interceptor.cs:306-336 | with a stack of header-adding layers, the handler sees the call's headers followed by the added ones in outermost-first order |
| `ServerMethods.AbortShortCircuits` | src/csharp/Grpc.Core/Interceptors/Interceptor.cs:240-248 | the first layer that throws ends the call with its exception, and the registered handler never runs |
| `ServerCallHandlers.Intercept` | src/csharp/Grpc.Core/Internal/ServerCallHandler.cs:106-126 | a null interceptor returns the same handler; otherwise shape and handler are kept, and the new handler interceptor wraps the handler with the new interceptor before handing it to the interceptors applied earlier |
| `ServerCallHandlers.ApplyHandlerInterceptor` | src/csharp/Grpc.Core/Internal/ServerCallHandler.cs:117-125 | the composed handler interceptor always yields an intercepted handler around the same registered logic |
| `ServerCallHandlers.EffectiveHandler` | src/csharp/Grpc.Core/Internal/ServerCallHandler.cs:76-80 | without an interceptor the call runs the registered handler itself; with one, layers around the same registered logic |
| `ServerCallHandlers.InterceptEach` | src/csharp/Grpc.Core/Internal/ServerCallHandler.cs:117-125 | repeated interception never changes the shape or the registered handler |
| `ServerCallHandlers.InterceptEachNests` | src/csharp/Grpc.Core/Internal/ServerCallHandler.cs:122-125 | after intercepting with I1..In in that order, the handler runs inside I1 (outermost) through In (innermost), all inside the earlier interceptors |
| `ServerCallHandlers.ServerCallContext.constructor` | src/csharp/Grpc.Core/Internal/ServerCallHandler.cs:443-451 | a new context holds the call's request metadata, status OK, no trailers and no write options |
| `ServerCallHandlers.GetStatusFromExceptionAndMergeTrailers` | src/csharp/Grpc.Core/Internal/ServerCallHandler.cs:417-436 | an `RpcException` yields its own status and appends its trailers, in order, after the context's trailers; any other exception yields Unknown with the fixed message and leaves the trailers alone |
| `ServerCallHandlers.Finalize` | src/csharp/Grpc.Core/Internal/ServerCallHandler.cs:73-93 | a response is sent only for a unary or client-streaming handler that ran; a call whose handler never ran sends Unknown with no trailers and no response; the trailers the handler left in the context are sent first and none is dropped |
| `ServerCallHandlers.RunToStatus` | src/csharp/Grpc.Core/Internal/ServerCallHandler.cs:70-93 | the try/catch block yields the actions and the status, trailers and response that the reference `Finalize` prescribes |
| `ServerCallHandlers.HandleCall` | src/csharp/Grpc.Core/Internal/ServerCallHandler.cs:58-104 | the actions of a call are exactly the reference trace; the call ends normally if the send succeeds and rethrows if it fails |
| `ServerCallHandlers.StatusSentExactlyOnce` | src/csharp/Grpc.Core/Internal/ServerCallHandler.cs:94-103 | every call sends one status; after a failed send only the cancellation follows, after a good send only the wait; neither happens earlier |
| `ServerCallHandlers.ReadComesBeforeHandler` | src/csharp/Grpc.Core/Internal/ServerCallHandler.cs:75-82 | the interceptor is applied first; the request is read iff the shape reads one, and right before the handler; the handler runs iff it got its request |
| `ServerCallHandlers.MissingRequestGivesUnknown` | src/csharp/Grpc.Core/Internal/ServerCallHandler.cs:80-92 | a unary or server-streaming call with no request ends with Unknown, no trailers and no response |
| `ServerCallHandlers.RpcExceptionStatusVerbatim` | src/csharp/Grpc.Core/Internal/ServerCallHandler.cs:417-432 | a thrown `RpcException` sends its status verbatim, with the context's trailers followed by the thrown ones |
| `ServerCallHandlers.OtherExceptionGivesUnknown` | src/csharp/Grpc.Core/Internal/ServerCallHandler.cs:86-96 | any other exception sends Unknown with the fixed message and the context's trailers |
| `ServerCallHandlers.ResponseOnlyOnNormalReturn` | src/csharp/Grpc.Core/Internal/ServerCallHandler.cs:82-84 | a response is sent iff a unary or client-streaming handler returns, with the write flags of the context; on return the status is the context's |
| `ServerCallHandlers.UnsetStatusIsOk` | src/csharp/Grpc.Core/Internal/ServerCallHandler.cs:82-83 | through any interceptors, a call whose handler returns normally finishes with OK unless the registered logic set a status |
| `ServerCallHandlers.ResponseWriteFlags` | src/csharp/Grpc.Core/Internal/ServerCallHandler.cs:438-441 | the response of a unary or client-streaming call that returns normally goes out with the flags of the write options the registered logic set, or with the default flags when it set none, interceptors or not |
| `ServerCallHandlers.TrailerMergeKeepsBoth` | src/csharp/Grpc.Core/Internal/ServerCallHandler.cs:422-430 | a trailer added to the context and a trailer carried by the thrown exception are both sent, in that order |
| `ServerCallHandlers.UnimplementedMethodCallHandler` | src/csharp/Grpc.Core/Internal/ServerCallHandler.cs:389-407 | a duplex handler, so it reads no request first and sends no response; its logic returns normally with status Unimplemented and an empty message |
| `ServerCallHandlers.UnimplementedFallback` | src/csharp/Grpc.Core/Internal/ServerCallHandler.cs:387-413 | any call to the unimplemented-method handler ends with Unimplemented and an empty message, without reading a request, sending a response or sending trailers |
| `ServerInterceptors.WrapDelegate` | src/csharp/Grpc.Core/Interceptors/Interceptor.cs:348-388 | null, non-generic and unrelated generic delegates come back unchanged; a handler delegate gets the same shape and runs this interceptor's handler for that shape around the original |
| `ServerInterceptors.WrapDelegateInjective` | src/csharp/Grpc.Core/Interceptors/Interceptor.cs:361-385 | different handler delegates wrap to different delegates |
| `ServerInterceptors.WrapDelegateUsesOwnShape` | src/csharp/Grpc.Core/Interceptors/Interceptor.cs:361-385 | wrapping a delegate of one shape depends only on the interceptor's handler for that shape |
| `ServerInterceptors.WrapServerCallHandler` | src/csharp/Grpc.Core/Interceptors/Interceptor.cs:399-408 | a handler that cannot be intercepted is returned unchanged; an interceptable one keeps its shape and handler and gains one layer that wraps as `WrapDelegate` does |
| `ServiceDefinitions.SubstituteHandlers` | src/csharp/Grpc.Core/Interceptors/ServerServiceDefinitionExtensions.cs:37 | the same method names, each mapped to the substituted handler |
| `ServiceDefinitions.Intercept` | src/csharp/Grpc.Core/Interceptors/ServerServiceDefinitionExtensions.cs:33-38 | a null service fails naming "service", then a null interceptor fails naming "interceptor"; otherwise every method keeps its name and gets its handler wrapped |
| `ServiceDefinitions.NonInterceptableKept` | src/csharp/Grpc.Core/Interceptors/Interceptor.cs:401-405 | handlers that cannot be intercepted survive interception of the service unchanged |
| `ServiceDefinitions.FirstInterceptorOutermost` | src/csharp/Grpc.Core/Internal/ServerCallHandler.cs:117-125 | intercepting a service with i1 and then i2 runs i1's handler, then i2's, then the registered handler |
| `ServiceDefinitions.InterceptedHandlerSeesAddedHeader` | src/csharp/Grpc.Core.Tests/Interceptors/ServerInterceptorTest.cs:60-76 | a unary handler behind a header-adding server interceptor finds the header as the last entry with its key and ends the call as it would have alone |
| `ClientInterceptors.KindShape` | src/csharp/Grpc.Core/Interceptors/CallInvokerExtensions.cs:49-84 | the five call kinds map to shapes: request streaming iff client or duplex streaming, response streaming iff server or duplex streaming |
| `ClientInterceptors.ContextFor` | src/csharp/Grpc.Core/ClientBase.cs:164-171 | the context handed on always has the same method; the default hands on the same context, a host override keeps the options, and a header override keeps the host and deadline and makes the entry the last with its key |
| `ClientInterceptors.InterceptCall` | src/csharp/Grpc.Core/Interceptors/ClientInterceptor.cs:65-110 | no interceptor method redirects a call to another method or swaps its request: if the continuation only starts calls as asked, so does the intercepted call |
| `ClientInterceptors.FailIgnoresContinuation` | src/csharp/Grpc.Core/Interceptors/ClientInterceptor.cs:65-110 | a throwing interceptor method never calls its continuation: the call fails with the thrown status whatever the continuation is |
| `ClientInterceptors.DefaultClientPassThrough` | src/csharp/Grpc.Core/Interceptors/ClientInterceptor.cs:65-110 | each of the five defaults returns the continuation's result on the same context and request |
| `CallInvokers.NewInterceptingCallInvoker` | src/csharp/Grpc.Core/Interceptors/CallInvokerExtensions.cs:40-44 | a null invoker fails naming "invoker", then a null interceptor fails naming "interceptor"; otherwise the invoker holds exactly that pair |
| `CallInvokers.Intercept` | src/csharp/Grpc.Core/Interceptors/CallInvokerExtensions.cs:90-93 | the new invoker is the pair; each call runs the interceptor's method for its kind with the inner invoker's method as the continuation |
| `CallInvokers.InvokeRunsInterceptor` | src/csharp/Grpc.Core/Interceptors/CallInvokerExtensions.cs:49-84 | each of the five methods of an intercepting invoker is the interceptor's method for that kind, given the arguments' context and the inner invoker's method of the same kind |
| `CallInvokers.InterceptingStep` | src/csharp/Grpc.Core/Interceptors/CallInvokerExtensions.cs:49-84 | one layer, by case: the inner invoker gets the same call, the new host, or the options with the header appended; a throwing method fails the call |
| `CallInvokers.DefaultInterceptorTransparent` | src/csharp/Grpc.Core/Interceptors/CallInvokerExtensions.cs:49-52 | an interceptor that overrides nothing changes no call |
| `CallInvokers.Invoke` | src/csharp/Grpc.Core/Interceptors/CallInvokerExtensions.cs:49-84 | through any stack of interceptors, a call the transport starts has the caller's kind, method and request, and it is well-formed (a request present exactly when its kind takes one) iff the caller's call was |
| `CallInvokers.LastAppliedRunsFirst` | src/csharp/Grpc.Core/Interceptors/CallInvokerExtensions.cs:90-93 | header-adding interceptors applied in order deliver their headers to the transport in reverse order |
| `CallInvokers.TwoHeaderOrder` | src/csharp/Grpc.Core/Interceptors/CallInvokerExtensions.cs:90-93 | applying an a:1 adder and then a b:2 adder puts b:2 before a:1 |
| `CallInvokers.OutermostFailureWins` | src/csharp/Grpc.Core/Interceptors/CallInvokerExtensions.cs:49-52 | the outermost throwing interceptor decides the failure; nothing inside it runs |
| `ClientBases.NewClientBaseConfiguration` | src/csharp/Grpc.Core/ClientBase.cs:177-181 | a null invoker fails without a parameter name; otherwise the configuration holds the invoker and the host, which may be null |
| `ClientBases.ClientHeaderInterceptor` | src/csharp/Grpc.Core/ClientBase.cs:164-171 | on every call kind the continuation gets a new context with the configured host, the same method and options, and the request as given |
| `ClientBases.CreateDecoratedCallInvoker` | src/csharp/Grpc.Core/ClientBase.cs:183-186 | one interceptor around the undecorated invoker; every call reaches that invoker with the configured host and the caller's method, options and request |
| `ClientBases.WithHost` | src/csharp/Grpc.Core/ClientBase.cs:188-192 | a null host fails naming "host"; otherwise the same invoker with the new host |
| `ClientBases.FromConfiguration` | src/csharp/Grpc.Core/ClientBase.cs:106-110 | a null configuration fails naming "configuration"; otherwise the client keeps it and uses its decorated invoker |
| `ClientBases.FromCallInvoker` | src/csharp/Grpc.Core/ClientBase.cs:124-126 | the configuration is the invoker with a null host; a null invoker fails |
| `ClientBases.FromChannel` | src/csharp/Grpc.Core/ClientBase.cs:116-118 | the configuration is the default invoker on the channel with a null host |
| `ClientBases.Parameterless` | src/csharp/Grpc.Core/ClientBase.cs:98-100 | the configuration's invoker is the unimplemented invoker |
| `ClientBases.ClientWithHost` | src/csharp/Grpc.Core/ClientBase.cs:72-76 | a null host fails naming "host"; otherwise a new client on the same invoker with the new host |
| `ClientBases.CallInvokerClientUsesDefaultHost` | src/csharp/Grpc.Core/ClientBase.cs:124-126 | a client built on an invoker calls it with the default (null) host, whatever host the call names |
| `ClientBases.WithHostRoutesToHost` | src/csharp/Grpc.Core/ClientBase.cs:183-192 | after `WithHost(h)` every call reaches the same underlying invoker with host h |
| `ClientBases.ParameterlessClientNotImplemented` | src/csharp/Grpc.Core/ClientBase.cs:98-100 | the parameterless client fails every call with not-implemented |
| `ClientBases.ChannelClientWithHost` | src/csharp/Grpc.Core/ClientBase.cs:72-76 | on a channel client, `WithHost(h)` starts transport calls on host h with the caller's options and request |
| `PyHandlers.Execute` | examples/python/interceptors/service-latency-interceptor/service_latency_interceptor.py:60-65 | running a behaviour calls the collector once per timing layer and ends as the servicer code underneath ends, returning or aborting; an empty slot is not callable |
| `PyHandlers.MethodHandler` | examples/python/interceptors/service-latency-interceptor/service_latency_interceptor.py:46-50 | the handler a factory builds declares the factory's shape, holds the behaviour in that shape's slot only, and keeps the marshallers |
| `RequestHeaders.WithHeader` | examples/python/header_interceptor/request_add_header_interceptor.py:35-42 | method, timeout and credentials are kept; the metadata is the original entries (none for None) followed by exactly the one pair |
| `RequestHeaders.InterceptUnaryUnary` | examples/python/header_interceptor/request_add_header_interceptor.py:34-43 | the result is the continuation's result on the details with the pair appended and on the same request |
| `RequestHeaders.HeaderIsLastWithItsKey` | examples/python/header_interceptor/request_add_header_interceptor.py:38 | the added pair is the last entry with its key that the next stage sees |
| `RequestHeaders.TwoInterceptorsAppendInOrder` | examples/python/header_interceptor/request_add_header_interceptor.py:35-43 | two interceptors in a chain append their pairs after the original entries, in chain order |
| `ServiceLatency.WrapRpcBehavior` | examples/python/interceptors/service-latency-interceptor/service_latency_interceptor.py:29-50 | None stays None; otherwise same flags and marshallers, the slot of the handler's shape holds `fn` of that slot's behaviour and flags, and the other slots are empty |
| `ServiceLatency.UnaryUnaryRpcTerminator` | examples/python/interceptors/service-latency-interceptor/service_latency_interceptor.py:21-26 | a unary-unary handler without marshallers whose only behaviour aborts with the given code and details |
| `ServiceLatency.LatencyWrapper` | examples/python/interceptors/service-latency-interceptor/service_latency_interceptor.py:59-66 | the wrapped behaviour ends as the original does and calls the collector once more |
| `ServiceLatency.InterceptService` | examples/python/interceptors/service-latency-interceptor/service_latency_interceptor.py:58-68 | no handler iff the continuation gives none; otherwise the same shape and marshallers |
| `ServiceLatency.CollectorCalledOncePerCall` | examples/python/interceptors/service-latency-interceptor/service_latency_interceptor.py:60-65 | behind the interceptor, each call ends as the original behaviour ends (returns or raises) and calls the collector exactly once more |
| `ServiceLatency.SelectionMatchesFactory` | examples/python/interceptors/service-latency-interceptor/service_latency_interceptor.py:33-50 | for a handler built by any factory, the behaviour selected is the one the factory stored, and the rebuilt handler is that factory's |
| `ServicePipelines.Continuation` | src/python/grpcio/grpc/_interceptor.py:22-23 | the continuation for an index, called with any details, is the pipeline run from that index; bound past the end it is the thunk call; it calls the thunk at most once, and exactly once when no later interceptor short-circuits |
| `ServicePipelines.InterceptAt` | src/python/grpcio/grpc/_interceptor.py:25-30 | a run from any index calls the thunk at most once, and exactly once when no interceptor from that index on short-circuits |
| `ServicePipelines.ExecutePipeline` | src/python/grpcio/grpc/_interceptor.py:32-33 | a pipeline run performs the handler lookup at most once, and exactly once unless an interceptor short-circuits |
| `ServicePipelines.ServicePipelineOf` | src/python/grpcio/grpc/_interceptor.py:36-39 | no pipeline for None or an empty list; otherwise a pipeline over exactly those interceptors |
| `ServicePipelines.PastEndCallsThunk` | src/python/grpcio/grpc/_interceptor.py:30 | past the last interceptor the thunk is called once with the details and its handler is returned |
| `ServicePipelines.OnionOrder` | src/python/grpcio/grpc/_interceptor.py:25-30 | with logging interceptors, a run from any index enters them in order, calls the thunk once, exits in reverse, and returns the thunk's handler |
| `ServicePipelines.OnionOrderOfThree` | src/python/grpcio/grpc/_interceptor.py:32-33 | three interceptors: enter 0, 1, 2, thunk, exit 2, 1, 0 |
| `ServicePipelines.ShortCircuitStops` | src/python/grpcio/grpc/_interceptor.py:25-30 | an interceptor that does not continue hides every later interceptor and the thunk; the thunk is never called |
| `ServicePipelines.MetadataAccumulates` | src/python/grpcio/grpc/_interceptor.py:25-30 | entries added by interceptors reach the thunk appended in pipeline order |
| `ServicePipelines.ExecuteAsWritten` | src/python/grpcio/grpc/_interceptor.py:29 | as written, every non-empty pipeline whose first interceptor calls or reads its arguments raises before any handler lookup |
| `ServicePipelines.ArgumentOrderDiscrepancy` | src/python/grpcio/grpc/_interceptor.py:29 | one pass-through interceptor: `TypeError` as written; one thunk call with the details as intended |

## Left out

- Asynchrony, the completion queue, marshalling, and the message streams themselves. A request is one optional message, a stream is an unread token, and a send either succeeds or fails.
- Logging, the clock, and the measured latency value. The latency interceptor is modelled only through how often it calls the collector.
- Deadline, peer, host, method, cancellation token and response-header writer of the server call context (`NewContext`). The model keeps only the request headers, status, trailers and write options.
- Concurrency: two calls sharing one interceptor instance, and the thread safety of the metadata lists.
- Reflection in `WrapDelegate`. A delegate is classified by a closed datatype: null, non-generic, one of the four handler types, or another generic type.
- Interceptors are closed datatypes of what their methods do: pass through, add a header, replace the host, throw, or (Python only) log, short-circuit or time. Arbitrary user code in an interceptor is not modelled. `Logging` in the Python pipeline is such a device, used to observe ordering.
- `ChannelExtensions`, `HeaderInterceptor`, `InvocationLifecycleInterceptor`, `LifecycleObserver`, `GenericInterceptor` and `DefaultCallInvoker` internals are not part of this model. The default invoker is the point where a call starts on the transport.
- `ServerServiceDefinition` is not part of this model, and neither is its `SubstituteHandlers`. It is modelled as a map over the handler table.
- `ServerCallHandlers.Intercept`: the four call handlers ask the interceptor for a handler interceptor through `GetUnaryServerHandlerInterceptor`, `GetServerStreamingServerHandlerInterceptor`, `GetClientStreamingServerHandlerInterceptor` and `GetDuplexStreamingServerHandlerInterceptor` (ServerCallHandler.cs lines 113, 200, 287 and 371). Neither `Interceptor` nor `ServerInterceptor` declares these getters; only `LifecycleObserverInterceptor` overrides them (LifecycleObserver.cs lines 183, 206, 218 and 231), and it is not part of this model. The model's handler interceptor wraps the handler with `WrapUtil` for the handler's shape.
- `ServerInterceptors.WrapServerCallHandler`: `Interceptor.WrapServerCallHandler` (Interceptor.cs line 407) and `ServerInterceptor.WrapServerCallHandler` (ServerInterceptor.cs line 181) both pass the method group `WrapDelegate` to `Intercept`, whose parameter is an interceptor. The model intercepts with the interceptor itself, whose wrapping is what `WrapDelegate` does.
- `CallInvokers.Invoke`: the source calls the interceptor with arguments that do not match its signature (CallInvokerExtensions.cs line 51). The model builds the `ClientInterceptorContext` from method, host and options, as the client interceptor's methods expect.
- `ServerCallHandlers.OtherExceptionGivesUnknown`: on an exception other than `RpcException` the call still sends the context's trailers, including any the handler added before throwing (ServerCallHandler.cs lines 86-96), and so does the model.
- `ServerCallHandlers.GetWriteFlags` has no contract of its own: it only selects between the options' flags and the default, and `ResponseWriteFlags` states what that means for the response a call sends.
- "The continuation is called exactly once" is stated as equality of the result with one continuation call on fixed arguments. Pure functions cannot count calls.
- The Python pipeline's freezing of the interceptor list (`tuple(...)`) is implicit: sequences are values in the model.
- Python's keyword arguments and duck typing are not modelled. The as-written pipeline distinguishes only the errors its argument swap provokes.

## Findings

| source | as written | input that shows it | evidently intended | confidence | as-written member | corrected member |
|---|---|---|---|---|---|---|
| src/python/grpcio/grpc/_interceptor.py:29 | `_intercept_at` calls `intercept_service(context, thunk)`, but interceptors declare `intercept_service(continuation, handler_call_details)` (service_latency_interceptor.py line 58). The call details land in the continuation parameter. | a pipeline holding one interceptor that returns `continuation(handler_call_details)`: it calls the call-details object and raises `TypeError`, and the handler lookup never runs | pass the continuation first: `intercept_service(thunk, context)`, so each interceptor continues into the next and the last into the thunk | high, not executed | `ServicePipelines.ExecuteAsWritten`, `ServicePipelines.ArgumentOrderDiscrepancy` | `ServicePipelines.InterceptAt`, `ServicePipelines.OnionOrder` |
