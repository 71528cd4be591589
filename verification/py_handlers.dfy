/** The Python server's view of a method: the call details an interceptor
    receives, the method handler it returns, and the behaviours a handler
    runs. */
module PyHandlers {
  import opened Core

  /** `grpc.HandlerCallDetails`: the method name and the invocation metadata. */
  datatype HandlerCallDetails = HandlerCallDetails(rpcMethod: string, invocationMetadata: Metadata)

  /** How running a behaviour ends. */
  datatype CallOutcome =
    | Responded(response: Message)
    | AbortedWith(code: StatusCode, details: string)   // context.abort raised
    | NotCallable                                    // the behaviour slot held None

  /** A behaviour function: servicer code (reduced to how it ends), the
      terminator that aborts with a fixed status, or a behaviour wrapped by the
      latency interceptor's `new_behavior`. */
  datatype Behavior =
    | Servicer(name: string, outcome: CallOutcome)
    | Terminate(code: StatusCode, details: string)
    | Timed(inner: Option<Behavior>)

  /** What one invocation of a behaviour produces: how it ended and how many
      times the latency collector was called. */
  datatype Execution = Execution(outcome: CallOutcome, collected: nat)

  /** The behaviour under all its timing layers. */
  function Unwrapped(b: Option<Behavior>): (r: Option<Behavior>)
    ensures r.Some? ==> !r.value.Timed?
    decreases b
  {
    match b
    case Some(Timed(inner)) => Unwrapped(inner)
    case _ => b
  }

  /** The number of timing layers around a behaviour. */
  function Layers(b: Option<Behavior>): nat
    decreases b
  {
    match b
    case Some(Timed(inner)) => Layers(inner) + 1
    case _ => 0
  }

  /** Runs a behaviour. `new_behavior` calls the collector in a `finally`
      block, so once whether the wrapped behaviour returns or raises: the
      collector is called once per timing layer, and the call ends as the
      servicer code underneath ends (its response or its abort), or fails as
      not callable when that slot is empty. */
  function Execute(b: Option<Behavior>): (r: Execution)
    ensures r.collected == Layers(b)
    ensures Unwrapped(b).None? ==> r.outcome == NotCallable
    ensures Unwrapped(b).Some? && Unwrapped(b).value.Servicer? ==> r.outcome == Unwrapped(b).value.outcome
    ensures Unwrapped(b).Some? && Unwrapped(b).value.Terminate? ==>
      r.outcome == AbortedWith(Unwrapped(b).value.code, Unwrapped(b).value.details)
    decreases b
  {
    match b
    case None => Execution(NotCallable, 0)
    case Some(Servicer(_, outcome)) => Execution(outcome, 0)
    case Some(Terminate(code, details)) => Execution(AbortedWith(code, details), 0)
    case Some(Timed(inner)) =>
      var e := Execute(inner);
      Execution(e.outcome, e.collected + 1)
  }

  /** `grpc.RpcMethodHandler`: the streaming flags, the (opaque) marshallers
      and the four behaviour slots. */
  datatype RpcMethodHandler = RpcMethodHandler(
    requestStreaming: bool,
    responseStreaming: bool,
    requestDeserializer: Option<nat>,
    responseSerializer: Option<nat>,
    unaryUnary: Option<Behavior>,
    unaryStream: Option<Behavior>,
    streamUnary: Option<Behavior>,
    streamStream: Option<Behavior>)

  /** The behaviour slot belonging to a shape. */
  function Slot(h: RpcMethodHandler, shape: CallShape): Option<Behavior> {
    match shape
    case Unary => h.unaryUnary
    case ServerStreaming => h.unaryStream
    case ClientStreaming => h.streamUnary
    case DuplexStreaming => h.streamStream
  }

  /** The shape a handler declares through its flags. */
  function HandlerShape(h: RpcMethodHandler): CallShape {
    ShapeOf(h.requestStreaming, h.responseStreaming)
  }

  /** `grpc.unary_unary_rpc_method_handler` and its three siblings, as one
      factory taking the shape: a handler with that shape's flags, the given
      marshallers, and the behaviour in that shape's slot only. */
  function MethodHandler(shape: CallShape, behavior: Option<Behavior>,
                         requestDeserializer: Option<nat>, responseSerializer: Option<nat>): (r: RpcMethodHandler)
    ensures HandlerShape(r) == shape
    ensures Slot(r, shape) == behavior
    ensures forall other :: other != shape ==> Slot(r, other).None?
    ensures r.requestDeserializer == requestDeserializer && r.responseSerializer == responseSerializer
  {
    match shape
    case Unary =>
      RpcMethodHandler(false, false, requestDeserializer, responseSerializer, behavior, None, None, None)
    case ServerStreaming =>
      RpcMethodHandler(false, true, requestDeserializer, responseSerializer, None, behavior, None, None)
    case ClientStreaming =>
      RpcMethodHandler(true, false, requestDeserializer, responseSerializer, None, None, behavior, None)
    case DuplexStreaming =>
      RpcMethodHandler(true, true, requestDeserializer, responseSerializer, None, None, None, behavior)
  }
}
