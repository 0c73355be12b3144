/**
 How a cognitive engine's return value becomes a Result message, as coded twice:
 in the network engine runner, which tears the session down on a malformed value,
 and in the local engine process, which carries on.
 */
module HandlerResults {
  import opened Protocol

  datatype HandlerPayload =
    | NothingReturned
    | TextReturned(text: string)
    | BytesReturned(bytes: Blob)
    | AnyReturned(any: Blob)
    | OtherReturned

  // What handle() gave back.
  datatype HandlerValue =
    | NotAResult
    | WithoutStatus(payload: HandlerPayload)
    | WithStatus(code: StatusCode, payload: HandlerPayload)

  // Either the result to send, or the error result to send before giving up.
  datatype Built = Fine(result: Result) | Malformed(result: Result)

  function ErrorResult(engineId: EngineId, job: Job): Result {
    Result(EngineError, NoPayload, engineId, 0, Some(job))
  }

  function PayloadOf(p: HandlerPayload): Option<ResultPayload> {
    match p
    case NothingReturned => None
    case TextReturned(t) => Some(Text(t))
    case BytesReturned(b) => Some(Bytes(b))
    case AnyReturned(a) => Some(Packed(a))
    case OtherReturned => None
  }

  // What a client is to be told of a handler's value: its status and, on success, its payload as
  // text, bytes or message according to its type; an engine error for anything else.
  predicate Reports(value: HandlerValue, code: StatusCode, payload: ResultPayload) {
    match value
    case NotAResult => code == EngineError && payload == NoPayload
    case WithoutStatus(_) => code == EngineError && payload == NoPayload
    case WithStatus(status, given) =>
      if status != Success then code == status && payload == NoPayload
      else if given.TextReturned? then code == Success && payload == Text(given.text)
      else if given.BytesReturned? then code == Success && payload == Bytes(given.bytes)
      else if given.AnyReturned? then code == Success && payload == Packed(given.any)
      else code == EngineError && payload == NoPayload
  }

  function BuildResultProto(engineId: EngineId, job: Job, value: HandlerValue): (b: Built)
    ensures b.result.engineId == engineId && b.result.origin == Some(job)
    ensures b.Malformed? <==> !Wellformed(value)
    ensures Reports(value, b.result.code, b.result.payload)
  {
    if value.NotAResult? then Malformed(ErrorResult(engineId, job))
    else if value.WithoutStatus? then Malformed(ErrorResult(engineId, job))
    else if value.code != Success then Fine(Result(value.code, NoPayload, engineId, 0, Some(job)))
    else
      match PayloadOf(value.payload)
      case None => Malformed(ErrorResult(engineId, job))
      case Some(p) => Fine(Result(Success, p, engineId, 0, Some(job)))
  }

  // A value the engine is allowed to return.
  predicate Wellformed(value: HandlerValue) {
    value.WithStatus? &&
    (value.code == Success ==> !value.payload.NothingReturned? && !value.payload.OtherReturned?)
  }

  // A payload reaches the result exactly as the handler returned it on success, and in its own type.
  lemma PayloadCarried(engineId: EngineId, job: Job, value: HandlerValue, t: string, b: Blob, a: Blob)
    ensures var r := BuildResultProto(engineId, job, value).result;
      && (r.payload == Text(t) <==> value == WithStatus(Success, TextReturned(t)))
      && (r.payload == Bytes(b) <==> value == WithStatus(Success, BytesReturned(b)))
      && (r.payload == Packed(a) <==> value == WithStatus(Success, AnyReturned(a)))
      && (r.code == Success <==> r.payload != NoPayload)
  {
  }

  // The local engine's loop body: the frame id travels with the input and is copied over.
  method LocalResult(engineId: EngineId, frame: Frame, value: HandlerValue) returns (r: Result)
    ensures r == BuildResultProto(engineId, JobOf(frame), value).result.(frameId := frame.metadata.frameId)
    ensures Reports(value, r.code, r.payload) && r.frameId == frame.metadata.frameId && r.engineId == engineId
  {
    r := Result(Unspecified, NoPayload, engineId, frame.metadata.frameId, Some(JobOf(frame)));
    if value.NotAResult? {
      r := r.(code := EngineError);
      return;
    }
    if value.WithoutStatus? {
      r := r.(code := EngineError);
      return;
    }
    r := r.(code := value.code);
    if value.code != Success {
      return;
    }
    match value.payload {
      case NothingReturned => r := r.(code := EngineError);
      case TextReturned(t) => r := r.(payload := Text(t));
      case BytesReturned(b) => r := r.(payload := Bytes(b));
      case AnyReturned(a) => r := r.(payload := Packed(a));
      case OtherReturned => r := r.(code := EngineError);
    }
  }
}
