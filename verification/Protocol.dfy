/**
 The vocabulary of the Gabriel protocol: identifiers, input frames, engine
 results and the messages exchanged between clients, server and engines.
 Protobuf messages become plain datatypes.
 */
module Protocol {

  datatype Option<+T> = None | Some(value: T)

  // The session id under which the server knows a client.
  type Address = string

  type ProducerId = string

  type EngineId = string

  // One engine stream. A stream is never reopened under the same number.
  type Context = nat

  // Serialized protobuf content that the protocol never looks into.
  type Blob = seq<nat>

  datatype StatusCode =
    | Unspecified
    | Success
    | UnspecifiedError
    | EngineError
    | WrongInputFormat
    | NoEngineForInput
    | NoTokens
    | ServerDroppedFrame

  datatype Metadata = Metadata(
    frameId: int,
    producerId: ProducerId,
    address: Address,
    targets: seq<EngineId>,
    clientInfo: Blob)

  datatype Frame = Frame(metadata: Metadata, payload: Blob)

  // What an engine's handle() is given. No frame id is part of it.
  datatype Job = Job(payload: Blob, clientInfo: Blob)

  function JobOf(f: Frame): Job {
    Job(f.payload, f.metadata.clientInfo)
  }

  datatype ResultPayload = NoPayload | Text(text: string) | Bytes(bytes: Blob) | Packed(any: Blob)

  // `origin` is the job the handler was working on when it produced the result;
  // it is carried along for specification and is never inspected by a step.
  // It is None for results the server makes up itself.
  datatype Result = Result(
    code: StatusCode,
    payload: ResultPayload,
    engineId: EngineId,
    frameId: int,
    origin: Option<Job>)

  datatype ToClient =
    | Registered(numTokens: nat, engineIds: set<EngineId>)
    | EngineIdsUpdate(engineIds: set<EngineId>)
    | ResultWrapper(producerId: ProducerId, returnToken: bool, result: Result)

  datatype Input = Input(frameId: int, producerId: ProducerId, targets: seq<EngineId>, payload: Blob)

  datatype FromClient =
    | Registration(clientInfo: Blob)
    | InputMessage(input: Input)

  ghost predicate NoDup<T>(s: seq<T>) {
    forall i, j :: 0 <= i < j < |s| ==> s[i] != s[j]
  }

  function Metas(s: seq<Frame>): (r: seq<Metadata>)
    ensures |r| == |s|
    ensures forall i :: 0 <= i < |s| ==> r[i] == s[i].metadata
  {
    seq(|s|, i requires 0 <= i < |s| => s[i].metadata)
  }
}
