/** The Python server's interceptor pipeline (`_ServicePipeline`): interceptor
    i is handed a continuation that runs interceptor i+1, and the continuation
    past the last interceptor calls the base thunk (the handler lookup). */
module ServicePipelines {
  import opened Core
  import opened PyHandlers
  import opened ServiceLatency

  /** A server interceptor, by what its `intercept_service` does. */
  datatype ServiceInterceptor =
    | PassThrough                                   // return continuation(details)
    | Logging(tag: nat)                             // log Enter(tag), continue, log Exit(tag)
    | ShortCircuit(code: StatusCode, details: string) // return a terminator without continuing
    | AddMetadata(entry: Entry)                     // continue with one more invocation metadata entry
    | ServiceLatencyInterceptor                     // the service-latency interceptor

  /** What the pipeline observes: an interceptor's log lines and the call of the base thunk. */
  datatype Event = Enter(tag: nat) | Exit(tag: nat) | ThunkCalled(details: HandlerCallDetails)

  /** The handler a stage returns, with the events it caused, in order. */
  datatype Outcome = Outcome(handler: Option<RpcMethodHandler>, events: seq<Event>)

  /** `intercept_service(continuation, handler_call_details)` of each kind of interceptor. */
  function InterceptService(i: ServiceInterceptor, continuation: HandlerCallDetails -> Outcome,
                            details: HandlerCallDetails): Outcome
  {
    match i
    case PassThrough => continuation(details)
    case Logging(tag) =>
      var o := continuation(details);
      Outcome(o.handler, [Enter(tag)] + o.events + [Exit(tag)])
    case ShortCircuit(code, msg) => Outcome(Some(UnaryUnaryRpcTerminator(code, msg)), [])
    case AddMetadata(e) =>
      continuation(details.(invocationMetadata := details.invocationMetadata + [e]))
    case ServiceLatencyInterceptor =>
      var o := continuation(details);
      Outcome(ServiceLatency.InterceptService((d: HandlerCallDetails) => continuation(d).handler, details), o.events)
  }

  /** The details an interceptor hands to its continuation. */
  function Forwarded(i: ServiceInterceptor, details: HandlerCallDetails): HandlerCallDetails {
    if i.AddMetadata? then details.(invocationMetadata := details.invocationMetadata + [i.entry]) else details
  }

  /** How many times the events record a call of the base thunk. */
  function ThunkCount(events: seq<Event>): nat {
    if events == [] then 0 else (if events[0].ThunkCalled? then 1 else 0) + ThunkCount(events[1..])
  }

  lemma {:induction false} ThunkCountAppend(a: seq<Event>, b: seq<Event>)
    ensures ThunkCount(a + b) == ThunkCount(a) + ThunkCount(b)
  {
    if a == [] {
      assert a + b == b;
    } else {
      assert (a + b)[1..] == a[1..] + b;
      ThunkCountAppend(a[1..], b);
    }
  }

  /** A short circuit records no thunk call; every other interceptor records
      exactly the thunk calls of one call of its continuation, on the details
      it forwards. */
  lemma InterceptServiceThunks(i: ServiceInterceptor, continuation: HandlerCallDetails -> Outcome,
                               details: HandlerCallDetails)
    ensures i.ShortCircuit? ==> ThunkCount(InterceptService(i, continuation, details).events) == 0
    ensures !i.ShortCircuit? ==>
      ThunkCount(InterceptService(i, continuation, details).events) == ThunkCount(continuation(Forwarded(i, details)).events)
  {
    if i.Logging? {
      var e := continuation(details).events;
      ThunkCountAppend([Enter(i.tag)], e);
      ThunkCountAppend([Enter(i.tag)] + e, [Exit(i.tag)]);
    }
  }

  /** The base thunk: the lookup of the registered handler, which the
      pipeline calls once it has run out of interceptors. */
  function CallThunk(thunk: HandlerCallDetails -> Option<RpcMethodHandler>, details: HandlerCallDetails): Outcome {
    Outcome(thunk(details), [ThunkCalled(details)])
  }

  /** `_continuation(index, thunk)`: the rest of the pipeline from `index`
      on, for whatever details it is given. Bound past the last interceptor it
      is the thunk call itself; otherwise it calls the thunk at most once, and
      exactly once when no interceptor from `index` on short-circuits. */
  function Continuation(interceptors: seq<ServiceInterceptor>, index: nat,
                        thunk: HandlerCallDetails -> Option<RpcMethodHandler>): (k: HandlerCallDetails -> Outcome)
    requires index <= |interceptors|
    ensures forall details :: k(details) == InterceptAt(interceptors, index, details, thunk)
    ensures index == |interceptors| ==> forall details :: k(details) == CallThunk(thunk, details)
    ensures forall details :: ThunkCount(k(details).events) <= 1
    ensures (forall j :: index <= j < |interceptors| ==> !interceptors[j].ShortCircuit?) ==>
      forall details :: ThunkCount(k(details).events) == 1
    decreases |interceptors| - index, 1
  {
    (details: HandlerCallDetails) => InterceptAt(interceptors, index, details, thunk)
  }

  /** `_intercept_at(index, context, thunk)`: the interceptor at `index` runs
      with the continuation bound to `index + 1`; past the end the thunk is
      called with the details. */
  function InterceptAt(interceptors: seq<ServiceInterceptor>, index: nat, details: HandlerCallDetails,
                       thunk: HandlerCallDetails -> Option<RpcMethodHandler>): (r: Outcome)
    ensures ThunkCount(r.events) <= 1
    ensures (forall j :: index <= j < |interceptors| ==> !interceptors[j].ShortCircuit?) ==> ThunkCount(r.events) == 1
    decreases if index <= |interceptors| then |interceptors| - index else 0, 0
  {
    if index < |interceptors| then
      var k := Continuation(interceptors, index + 1, thunk);
      InterceptServiceThunks(interceptors[index], k, details);
      InterceptService(interceptors[index], k, details)
    else
      CallThunk(thunk, details)
  }

  /** `_ServicePipeline`: the interceptors, frozen when the pipeline is built. */
  datatype ServicePipeline = ServicePipeline(interceptors: seq<ServiceInterceptor>)

  /** `execute(context, thunk)`: start at the first interceptor. The handler
      lookup runs at most once per call, and exactly once unless an
      interceptor short-circuits. */
  function ExecutePipeline(p: ServicePipeline, details: HandlerCallDetails,
                           thunk: HandlerCallDetails -> Option<RpcMethodHandler>): (r: Outcome)
    ensures ThunkCount(r.events) <= 1
    ensures (forall j :: 0 <= j < |p.interceptors| ==> !p.interceptors[j].ShortCircuit?) ==> ThunkCount(r.events) == 1
  {
    InterceptAt(p.interceptors, 0, details, thunk)
  }

  /** `service_pipeline(interceptors)`: no pipeline for None or an empty
      list, otherwise a pipeline over exactly those interceptors. */
  function ServicePipelineOf(interceptors: Option<seq<ServiceInterceptor>>): (r: Option<ServicePipeline>)
    ensures r.None? <==> interceptors.None? || |interceptors.value| == 0
    ensures r.Some? ==> r.value.interceptors == interceptors.value
  {
    if interceptors.None? || |interceptors.value| == 0 then None
    else Some(ServicePipeline(interceptors.value))
  }

  /** Past the last interceptor, the thunk is called once, directly, with the details. */
  lemma PastEndCallsThunk(interceptors: seq<ServiceInterceptor>, index: nat, details: HandlerCallDetails,
                          thunk: HandlerCallDetails -> Option<RpcMethodHandler>)
    requires index >= |interceptors|
    ensures InterceptAt(interceptors, index, details, thunk) == Outcome(thunk(details), [ThunkCalled(details)])
  {
  }

  /** Tags entered from `i` up to `n - 1`, in increasing order. */
  function EntersFrom(i: nat, n: nat): seq<Event>
    decreases n - i
  {
    if i >= n then [] else [Enter(i)] + EntersFrom(i + 1, n)
  }

  /** Tags exited from `n - 1` down to `i`. */
  function ExitsDownTo(i: nat, n: nat): seq<Event>
    decreases n - i
  {
    if i >= n then [] else ExitsDownTo(i + 1, n) + [Exit(i)]
  }

  /** Onion order: when interceptor k logs with tag k, running the pipeline
      from `index` enters index, ..., n-1 in order, calls the thunk once, and
      exits n-1, ..., index in reverse; the handler is the thunk's. */
  lemma {:induction false} OnionOrder(interceptors: seq<ServiceInterceptor>, index: nat, details: HandlerCallDetails,
                                      thunk: HandlerCallDetails -> Option<RpcMethodHandler>)
    requires index <= |interceptors|
    requires forall k :: 0 <= k < |interceptors| ==> interceptors[k] == Logging(k)
    ensures var o := InterceptAt(interceptors, index, details, thunk);
      && o.handler == thunk(details)
      && o.events == EntersFrom(index, |interceptors|) + [ThunkCalled(details)] + ExitsDownTo(index, |interceptors|)
    decreases |interceptors| - index
  {
    var n := |interceptors|;
    if index < n {
      OnionOrder(interceptors, index + 1, details, thunk);
      var inner := InterceptAt(interceptors, index + 1, details, thunk);
      assert InterceptAt(interceptors, index, details, thunk)
          == Outcome(inner.handler, [Enter(index)] + inner.events + [Exit(index)]);
      assert EntersFrom(index, n) == [Enter(index)] + EntersFrom(index + 1, n);
      assert ExitsDownTo(index, n) == ExitsDownTo(index + 1, n) + [Exit(index)];
    } else {
      assert EntersFrom(index, n) == [] && ExitsDownTo(index, n) == [];
    }
  }

  /** Three logging interceptors: enter 0, 1, 2, the thunk, exit 2, 1, 0. */
  lemma OnionOrderOfThree(details: HandlerCallDetails, thunk: HandlerCallDetails -> Option<RpcMethodHandler>)
    ensures ExecutePipeline(ServicePipeline([Logging(0), Logging(1), Logging(2)]), details, thunk).events
         == [Enter(0), Enter(1), Enter(2), ThunkCalled(details), Exit(2), Exit(1), Exit(0)]
  {
    var p := [Logging(0), Logging(1), Logging(2)];
    OnionOrder(p, 0, details, thunk);
    assert EntersFrom(0, 3) == [Enter(0), Enter(1), Enter(2)] by {
      assert EntersFrom(3, 3) == [];
    }
    assert ExitsDownTo(0, 3) == [Exit(2), Exit(1), Exit(0)] by {
      assert ExitsDownTo(3, 3) == [];
    }
  }

  /** A short circuit at k stops the pipeline there: the outcome does not
      depend on any interceptor after k nor on the thunk, and the thunk is not
      called. */
  lemma {:induction false} ShortCircuitStops(p: seq<ServiceInterceptor>, q: seq<ServiceInterceptor>, k: nat, index: nat,
                                             details: HandlerCallDetails,
                                             thunk: HandlerCallDetails -> Option<RpcMethodHandler>,
                                             otherThunk: HandlerCallDetails -> Option<RpcMethodHandler>)
    requires index <= k < |p| && k < |q| && p[..k + 1] == q[..k + 1] && p[k].ShortCircuit?
    ensures InterceptAt(p, index, details, thunk) == InterceptAt(q, index, details, otherThunk)
    ensures forall ev :: ev in InterceptAt(p, index, details, thunk).events ==> !ev.ThunkCalled?
    decreases k - index
  {
    assert p[index] == p[..k + 1][index] == q[..k + 1][index] == q[index];
    if index < k {
      var next := Forwarded(p[index], details);
      ShortCircuitStops(p, q, k, index + 1, next, thunk, otherThunk);
      var kp := Continuation(p, index + 1, thunk);
      var kq := Continuation(q, index + 1, otherThunk);
      InterceptServiceCongruent(p[index], kp, kq, details);
      InterceptServiceEvents(p[index], kp, details);
    }
  }

  /** What an interceptor returns depends on its continuation only through
      the one call it makes, on the details it forwards. */
  lemma InterceptServiceCongruent(i: ServiceInterceptor, k1: HandlerCallDetails -> Outcome,
                                  k2: HandlerCallDetails -> Outcome, details: HandlerCallDetails)
    requires k1(Forwarded(i, details)) == k2(Forwarded(i, details))
    ensures InterceptService(i, k1, details) == InterceptService(i, k2, details)
  {
  }

  /** An interceptor adds no thunk call of its own: every thunk call among its
      events comes from its continuation. */
  lemma InterceptServiceEvents(i: ServiceInterceptor, k: HandlerCallDetails -> Outcome, details: HandlerCallDetails)
    ensures forall ev :: ev in InterceptService(i, k, details).events && ev.ThunkCalled? ==>
      ev in k(Forwarded(i, details)).events
  {
  }

  /** Metadata entries added by interceptors, in pipeline order. */
  function AddedEntries(interceptors: seq<ServiceInterceptor>): Metadata
    requires forall k :: 0 <= k < |interceptors| ==> interceptors[k].AddMetadata?
  {
    if interceptors == [] then [] else [interceptors[0].entry] + AddedEntries(interceptors[1..])
  }

  /** Registration order is entry order: when every interceptor adds a
      metadata entry before continuing, the thunk sees them appended in
      pipeline order. */
  lemma {:induction false} MetadataAccumulates(interceptors: seq<ServiceInterceptor>, index: nat,
                                               details: HandlerCallDetails,
                                               thunk: HandlerCallDetails -> Option<RpcMethodHandler>)
    requires index <= |interceptors|
    requires forall k :: 0 <= k < |interceptors| ==> interceptors[k].AddMetadata?
    ensures var seen := details.(invocationMetadata := details.invocationMetadata + AddedEntries(interceptors[index..]));
      InterceptAt(interceptors, index, details, thunk) == Outcome(thunk(seen), [ThunkCalled(seen)])
    decreases |interceptors| - index
  {
    if index < |interceptors| {
      var e := interceptors[index].entry;
      var next := details.(invocationMetadata := details.invocationMetadata + [e]);
      MetadataAccumulates(interceptors, index + 1, next, thunk);
      assert interceptors[index..][1..] == interceptors[index + 1..];
      assert AddedEntries(interceptors[index..]) == [e] + AddedEntries(interceptors[index + 1..]);
      assert next.invocationMetadata + AddedEntries(interceptors[index + 1..])
          == details.invocationMetadata + AddedEntries(interceptors[index..]);
    } else {
      assert interceptors[index..] == [];
      assert details.(invocationMetadata := details.invocationMetadata + []) == details;
    }
  }

  /** The error a Python interceptor raises when handed the wrong argument. */
  datatype PyError =
    | TypeError        // the details object is called as if it were the continuation
    | AttributeError   // the continuation is read as if it were the details

  /** `execute` as written: `_intercept_at` passes `(context, thunk)`
      positionally to `intercept_service(continuation, handler_call_details)`,
      so the first interceptor finds the call details in its continuation
      parameter and the continuation in its details parameter. A short circuit
      uses neither and succeeds; the metadata adder reads the metadata of its
      details parameter and fails; every other kind calls its continuation
      parameter and fails. */
  function ExecuteAsWritten(p: ServicePipeline, details: HandlerCallDetails,
                            thunk: HandlerCallDetails -> Option<RpcMethodHandler>): (r: Result<Outcome, PyError>)
    ensures |p.interceptors| > 0 && !p.interceptors[0].ShortCircuit? ==> r.Err?
  {
    if |p.interceptors| == 0 then Ok(CallThunk(thunk, details))
    else
      match p.interceptors[0]
      case ShortCircuit(code, msg) => Ok(Outcome(Some(UnaryUnaryRpcTerminator(code, msg)), []))
      case AddMetadata(_) => Err(AttributeError)
      case _ => Err(TypeError)
  }

  /** A pipeline holding one pass-through interceptor: as written the call
      fails with `TypeError` before the handler lookup; as intended the
      lookup runs once with the call details. */
  lemma ArgumentOrderDiscrepancy(details: HandlerCallDetails, thunk: HandlerCallDetails -> Option<RpcMethodHandler>)
    ensures ExecuteAsWritten(ServicePipeline([PassThrough]), details, thunk) == Err(TypeError)
    ensures ExecutePipeline(ServicePipeline([PassThrough]), details, thunk) == Outcome(thunk(details), [ThunkCalled(details)])
  {
  }
}
