/** Vocabulary shared by the client and server halves of the interception
    pipeline: optional values and results, metadata lists, status codes, the
    four call shapes and write flags. */
module Core {

  datatype Option<T> = None | Some(value: T)

  /** A value, or the exception the source throws instead of returning. */
  datatype Result<T, E> = Ok(value: T) | Err(error: E)

  /** `ArgumentNullException` thrown by `GrpcPreconditions.CheckNotNull`;
      the parameter name is absent when the check was called without one. */
  datatype ArgumentNullException = ArgumentNullException(paramName: Option<string>)

  /** A payload unit; marshalling is outside the model. */
  type Message = string

  /** One metadata entry. Metadata is a list: keys may repeat and order matters. */
  datatype Entry = Entry(key: string, value: string)

  type Metadata = seq<Entry>

  /** The value of the last entry carrying `key`, as LINQ's
      `Last(m => m.Key == key).Value` reads it (None where that throws). */
  function LastValue(md: Metadata, key: string): (r: Option<string>)
    ensures r.None? <==> forall i :: 0 <= i < |md| ==> md[i].key != key
    ensures r.Some? ==>
      exists i :: 0 <= i < |md| && md[i] == Entry(key, r.value) &&
        forall j :: i < j < |md| ==> md[j].key != key
  {
    if |md| == 0 then None
    else if md[|md| - 1].key == key then Some(md[|md| - 1].value)
    else
      var r := LastValue(md[..|md| - 1], key);
      assert forall j :: 0 <= j < |md| - 1 ==> md[..|md| - 1][j] == md[j];
      r
  }

  /** The gRPC status codes. */
  datatype StatusCode =
    | OK | Cancelled | Unknown | InvalidArgument | DeadlineExceeded | NotFound
    | AlreadyExists | PermissionDenied | ResourceExhausted | FailedPrecondition
    | Aborted | OutOfRange | Unimplemented | Internal | Unavailable | DataLoss
    | Unauthenticated

  datatype Status = Status(code: StatusCode, detail: string)

  /** The status a server call context holds until a handler sets another. */
  const DefaultSuccess := Status(OK, "")

  /** The four call shapes; fixed per method. */
  datatype CallShape = Unary | ClientStreaming | ServerStreaming | DuplexStreaming

  /** The client sends a stream of requests. */
  predicate RequestStreaming(shape: CallShape) {
    shape == ClientStreaming || shape == DuplexStreaming
  }

  /** The server sends a stream of responses. */
  predicate ResponseStreaming(shape: CallShape) {
    shape == ServerStreaming || shape == DuplexStreaming
  }

  /** The shape named by a pair of streaming flags (the four-way split of
      `_wrap_rpc_behavior`). */
  function ShapeOf(requestStreaming: bool, responseStreaming: bool): (shape: CallShape)
    ensures RequestStreaming(shape) == requestStreaming
    ensures ResponseStreaming(shape) == responseStreaming
  {
    if requestStreaming && responseStreaming then DuplexStreaming
    else if requestStreaming then ClientStreaming
    else if responseStreaming then ServerStreaming
    else Unary
  }

  /** The flags determine the shape: the four cases are exhaustive and do not overlap. */
  lemma ShapeOfFlags(shape: CallShape)
    ensures ShapeOf(RequestStreaming(shape), ResponseStreaming(shape)) == shape
  {
  }

  /** `WriteFlags`: BufferHint and NoCompress. */
  datatype WriteFlags = WriteFlags(bufferHint: bool, noCompress: bool)

  /** `default(WriteFlags)`: no flag set. */
  const DefaultWriteFlags := WriteFlags(false, false)

  datatype WriteOptions = WriteOptions(flags: WriteFlags)
}
