/** The request-header client interceptor example: every unary-unary call
    goes out with one more metadata entry. */
module RequestHeaders {
  import opened Core

  /** `_ClientCallDetails`: method, timeout, metadata (None or a list of
      pairs) and credentials; timeout and credentials are opaque. */
  datatype ClientCallDetails = ClientCallDetails(
    rpcMethod: string,
    timeout: Option<nat>,
    metadata: Option<Metadata>,
    credentials: Option<nat>)

  /** `RequestAddHeaderInterceptor(header, value)`. */
  datatype RequestAddHeaderInterceptor = RequestAddHeaderInterceptor(header: string, value: string)

  /** The metadata a call carries, with None read as no entries. */
  function MetadataOf(details: ClientCallDetails): Metadata {
    if details.metadata.Some? then details.metadata.value else []
  }

  /** The call details the interceptor hands on: the original entries in
      their order, then exactly one `(header, value)` pair; method, timeout
      and credentials unchanged. */
  function WithHeader(i: RequestAddHeaderInterceptor, details: ClientCallDetails): (r: ClientCallDetails)
    ensures r.rpcMethod == details.rpcMethod && r.timeout == details.timeout && r.credentials == details.credentials
    ensures r.metadata.Some?
    ensures |r.metadata.value| == |MetadataOf(details)| + 1
    ensures r.metadata.value[..|MetadataOf(details)|] == MetadataOf(details)
    ensures r.metadata.value[|MetadataOf(details)|] == Entry(i.header, i.value)
    ensures details.metadata.None? ==> r.metadata == Some([Entry(i.header, i.value)])
  {
    var before := MetadataOf(details);
    var after := before + [Entry(i.header, i.value)];
    assert after[..|before|] == before;
    ClientCallDetails(details.rpcMethod, details.timeout, Some(after), details.credentials)
  }

  /** `intercept_unary_unary`: copies the incoming metadata into a fresh list
      (or starts an empty one), appends the pair, builds new call details and
      returns what one call of the continuation returns. */
  method InterceptUnaryUnary<R>(i: RequestAddHeaderInterceptor, continuation: (ClientCallDetails, Message) -> R,
                                details: ClientCallDetails, request: Message) returns (r: R)
    ensures r == continuation(WithHeader(i, details), request)
  {
    var metadata: Metadata := [];
    if details.metadata.Some? {
      metadata := details.metadata.value;
    }
    metadata := metadata + [Entry(i.header, i.value)];
    var newDetails := ClientCallDetails(details.rpcMethod, details.timeout, Some(metadata), details.credentials);
    r := continuation(newDetails, request);
  }

  /** The header is the last entry with its key in what the next stage sees,
      whatever the call carried before. */
  lemma HeaderIsLastWithItsKey(i: RequestAddHeaderInterceptor, details: ClientCallDetails)
    ensures LastValue(WithHeader(i, details).metadata.value, i.header) == Some(i.value)
  {
  }

  /** Applying the interceptor twice (two instances in a chain) appends both
      pairs, in order, after the original entries. */
  lemma TwoInterceptorsAppendInOrder(i1: RequestAddHeaderInterceptor, i2: RequestAddHeaderInterceptor,
                                     details: ClientCallDetails)
    ensures WithHeader(i2, WithHeader(i1, details)).metadata
         == Some(MetadataOf(details) + [Entry(i1.header, i1.value), Entry(i2.header, i2.value)])
  {
    var once := WithHeader(i1, details);
    var m1 := once.metadata.value;
    assert m1 == m1[..|MetadataOf(details)|] + [m1[|MetadataOf(details)|]];
    var m2 := WithHeader(i2, once).metadata.value;
    assert m2 == m2[..|MetadataOf(once)|] + [m2[|MetadataOf(once)|]];
    assert MetadataOf(once) == m1;
    assert m2 == (MetadataOf(details) + [Entry(i1.header, i1.value)]) + [Entry(i2.header, i2.value)];
    assert (MetadataOf(details) + [Entry(i1.header, i1.value)]) + [Entry(i2.header, i2.value)]
        == MetadataOf(details) + [Entry(i1.header, i1.value), Entry(i2.header, i2.value)];
  }
}
