/**
 The server's frame scheduler as a state machine over values: what each handler
 of the server does to engine workers and producers. Histories (accepted,
 returned, displaced, sent, completed, claimed, forwarded) record what happened;
 no step reads them.
 */
module Scheduler {
  import opened Protocol

  datatype Producer = Producer(
    queue: seq<Frame>,
    latest: Option<Frame>,
    pending: bool,
    accepted: seq<Frame>,
    returned: seq<Frame>,
    displaced: seq<Frame>)

  datatype Worker = Worker(
    engineId: EngineId,
    allResponses: bool,
    current: Option<Metadata>,
    rotation: seq<ProducerId>,
    last: map<ProducerId, Metadata>,
    sent: seq<Frame>,
    completed: seq<Metadata>,
    claimed: seq<Metadata>,
    forwarded: seq<Metadata>)

  type Workers = map<Context, Worker>

  type Producers = map<ProducerId, Producer>

  datatype State = State(
    capacity: nat,
    workers: Workers,
    producers: Producers,
    engineIds: set<EngineId>)

  // What a handler makes the client-facing server do, in order.
  datatype Effect =
    | Send(address: Address, producerId: ProducerId, result: Result, returnToken: bool)
    | Announce(engineIds: set<EngineId>)

  const NEW_PRODUCER := Producer([], None, false, [], [], [])

  function NewWorker(engineId: EngineId, allResponses: bool): Worker {
    Worker(engineId, allResponses, None, [], map[], [], [], [], [])
  }

  function Init(capacity: nat): State {
    State(capacity, map[], map[], {})
  }

  // ---------- Operations of a producer ----------

  function Enqueue(p: Producer, f: Frame): Producer {
    p.(queue := p.queue + [f], accepted := p.accepted + [f])
  }

  // A direct dispatch makes the frame the in-flight one. If another frame was
  // still waiting for its token, that frame is displaced.
  function Dispatch(p: Producer, f: Frame): Producer {
    p.(latest := Some(f),
       pending := true,
       accepted := p.accepted + [f],
       displaced := p.displaced + InFlight(p))
  }

  function Dequeue(p: Producer): Producer
    requires p.queue != []
  {
    p.(queue := p.queue[1..], latest := Some(p.queue[0]), pending := true)
  }

  function Claim(p: Producer): Producer {
    p.(pending := false, returned := p.returned + InFlight(p))
  }

  // The frame awaiting its token return, if any.
  function InFlight(p: Producer): seq<Frame> {
    if p.pending && p.latest.Some? then [p.latest.value] else []
  }

  predicate AwaitsToken(p: Producer, md: Metadata) {
    p.pending && p.latest.Some? && p.latest.value.metadata == md
  }

  // ---------- Operations of an engine worker ----------

  function SendPayload(w: Worker, f: Frame): Worker {
    w.(current := Some(f.metadata),
       last := w.last[f.metadata.producerId := f.metadata],
       sent := w.sent + [f])
  }

  function AddProducer(w: Worker, pid: ProducerId): Worker {
    if pid in w.rotation then w else w.(rotation := w.rotation + [pid])
  }

  // A producer has a queued frame that the gate lets through.
  predicate CanDequeue(p: Producer) {
    !p.pending && p.queue != []
  }

  // The producer's in-flight frame is newer than what this worker last got from it.
  predicate CanCatchUp(w: Worker, pid: ProducerId, p: Producer) {
    p.latest.Some? && pid in w.last && p.latest.value.metadata.frameId > w.last[pid].frameId
  }

  predicate Ready(w: Worker, ps: Producers, pid: ProducerId) {
    pid in ps && (CanDequeue(ps[pid]) || CanCatchUp(w, pid, ps[pid]))
  }

  // The producer tried k-th by a call: positions 1, 2, ..., n-1 and finally 0.
  function Tried(rotation: seq<ProducerId>, k: nat): ProducerId
    requires 1 <= k <= |rotation|
  {
    if k == |rotation| then rotation[0] else rotation[k]
  }

  function Rotated(rotation: seq<ProducerId>, k: nat): seq<ProducerId>
    requires k <= |rotation|
  {
    rotation[k..] + rotation[..k]
  }

  // The first attempt from the k-th on that finds a ready producer; |rotation| + 1 if none does.
  function FirstReady(w: Worker, ps: Producers, k: nat): (r: nat)
    requires 1 <= k <= |w.rotation| + 1
    ensures k <= r <= |w.rotation| + 1
    ensures r <= |w.rotation| ==> Ready(w, ps, Tried(w.rotation, r))
    ensures forall i :: k <= i < r ==> !Ready(w, ps, Tried(w.rotation, i))
    decreases |w.rotation| + 1 - k
  {
    if k > |w.rotation| then k
    else if Ready(w, ps, Tried(w.rotation, k)) then k
    else FirstReady(w, ps, k + 1)
  }

  function ServeWorker(w: Worker, p: Producer, pid: ProducerId): Worker
    requires CanDequeue(p) || CanCatchUp(w, pid, p)
  {
    if CanDequeue(p) then SendPayload(w, p.queue[0]) else SendPayload(w, p.latest.value)
  }

  function ServeProducer(p: Producer): Producer {
    if CanDequeue(p) then Dequeue(p) else p
  }

  function SendNextWorker(w: Worker, ps: Producers): Worker {
    var k := FirstReady(w, ps, 1);
    if k > |w.rotation| then w.(current := None)
    else
      var pid := Tried(w.rotation, k);
      ServeWorker(w.(rotation := Rotated(w.rotation, k)), ps[pid], pid)
  }

  function SendNextProducers(w: Worker, ps: Producers): Producers {
    var k := FirstReady(w, ps, 1);
    if k > |w.rotation| then ps
    else
      var pid := Tried(w.rotation, k);
      ps[pid := ServeProducer(ps[pid])]
  }

  // ---------- Client input ----------

  // What a targeted worker does with a new input: join the rotation and, if idle, start on it.
  function Offer(w: Worker, f: Frame): Worker {
    var joined := AddProducer(w, f.metadata.producerId);
    if joined.current.None? then SendPayload(joined, f) else joined
  }

  predicate Targets(f: Frame, w: Worker) {
    w.engineId in f.metadata.targets
  }

  predicate HasTarget(workers: Workers, f: Frame) {
    exists c :: c in workers && Targets(f, workers[c])
  }

  predicate HasIdleTarget(workers: Workers, f: Frame) {
    exists c :: c in workers && Targets(f, workers[c]) && workers[c].current.None?
  }

  function OfferAll(workers: Workers, f: Frame): Workers {
    map c | c in workers :: if Targets(f, workers[c]) then Offer(workers[c], f) else workers[c]
  }

  function WithProducer(ps: Producers, pid: ProducerId): (r: Producers)
    ensures pid in r
  {
    if pid in ps then ps else ps[pid := NEW_PRODUCER]
  }

  function InputStatus(st: State, f: Frame): StatusCode {
    if !HasTarget(st.workers, f) then NoEngineForInput
    else if HasIdleTarget(st.workers, f) then Success
    else if |WithProducer(st.producers, f.metadata.producerId)[f.metadata.producerId].queue| == st.capacity
    then ServerDroppedFrame
    else Success
  }

  function ClientInput(st: State, f: Frame): State {
    var pid := f.metadata.producerId;
    var ps := WithProducer(st.producers, pid);
    if !HasTarget(st.workers, f) then st.(producers := ps)
    else if HasIdleTarget(st.workers, f) then
      st.(workers := OfferAll(st.workers, f), producers := ps[pid := Dispatch(ps[pid], f)])
    else if |ps[pid].queue| == st.capacity then
      st.(workers := OfferAll(st.workers, f), producers := ps)
    else
      st.(workers := OfferAll(st.workers, f), producers := ps[pid := Enqueue(ps[pid], f)])
  }

  // ---------- Engine result ----------

  predicate Answers(st: State, c: Context) {
    c in st.workers && st.workers[c].current.Some? &&
    st.workers[c].current.value.producerId in st.producers
  }

  // Whether the result of worker c returns the token of its frame.
  predicate Claims(st: State, c: Context) {
    Answers(st, c) &&
    AwaitsToken(st.producers[st.workers[c].current.value.producerId], st.workers[c].current.value)
  }

  function AfterClaim(st: State, c: Context): Producers
    requires Answers(st, c)
  {
    var pid := st.workers[c].current.value.producerId;
    if Claims(st, c) then st.producers[pid := Claim(st.producers[pid])] else st.producers
  }

  // The worker's record of an answer.
  function LogAnswer(w: Worker, claims: bool): Worker
    requires w.current.Some?
  {
    var md := w.current.value;
    w.(completed := w.completed + [md],
       claimed := w.claimed + if claims then [md] else [],
       forwarded := w.forwarded + if claims || w.allResponses then [md] else [])
  }

  function Logged(st: State, c: Context): Worker
    requires Answers(st, c)
  {
    LogAnswer(st.workers[c], Claims(st, c))
  }

  function EngineResult(st: State, c: Context): State {
    if !Answers(st, c) then st
    else
      var w := Logged(st, c);
      var ps := AfterClaim(st, c);
      st.(workers := st.workers[c := SendNextWorker(w, ps)], producers := SendNextProducers(w, ps))
  }

  function EngineResultEffects(st: State, c: Context, r: Result): seq<Effect> {
    if !Answers(st, c) then []
    else
      var md := st.workers[c].current.value;
      if Claims(st, c) || st.workers[c].allResponses
      then [Send(md.address, md.producerId, r.(frameId := md.frameId), Claims(st, c))]
      else []
  }

  // ---------- Engine connection and disconnection ----------

  function AfterLoss(st: State, c: Context): Producers {
    if Answers(st, c) then AfterClaim(st, c) else st.producers
  }

  function Disconnect(st: State, c: Context): State {
    if c !in st.workers then st
    else
      st.(workers := st.workers - {c},
          producers := AfterLoss(st, c),
          engineIds := st.engineIds - {st.workers[c].engineId})
  }

  // The disconnecting worker holds its producer's latest frame.
  predicate HoldsLatest(st: State, c: Context) {
    Answers(st, c) &&
    var p := st.producers[st.workers[c].current.value.producerId];
    p.latest.Some? && p.latest.value.metadata == st.workers[c].current.value
  }

  // What the client of the frame being worked on is told, and whether its token goes back.
  function LossNotice(st: State, c: Context): seq<Effect> {
    if HoldsLatest(st, c) && (Claims(st, c) || st.workers[c].allResponses) then
      var w := st.workers[c];
      var md := w.current.value;
      [Send(md.address, md.producerId, Result(EngineError, NoPayload, w.engineId, md.frameId, None), Claims(st, c))]
    else []
  }

  function DisconnectEffects(st: State, c: Context): seq<Effect> {
    if c !in st.workers then []
    else LossNotice(st, c) + [Announce(st.engineIds - {st.workers[c].engineId})]
  }

  // The connected worker that a new engine with this id pushes out.
  ghost function Incumbent(st: State, id: EngineId): Option<Context> {
    if id in st.engineIds && exists c :: c in st.workers && st.workers[c].engineId == id
    then
      var c :| c in st.workers && st.workers[c].engineId == id;
      Some(c)
    else None
  }

  function Join(st: State, c: Context, id: EngineId, allResponses: bool): State {
    st.(workers := st.workers[c := NewWorker(id, allResponses)], engineIds := st.engineIds + {id})
  }

  ghost function Evict(st: State, id: EngineId): State {
    var incumbent := Incumbent(st, id);
    if incumbent.Some? then Disconnect(st, incumbent.value) else st
  }

  ghost function Connect(st: State, c: Context, id: EngineId, allResponses: bool): State {
    Join(Evict(st, id), c, id, allResponses)
  }

  ghost function ConnectEffects(st: State, id: EngineId): seq<Effect> {
    var incumbent := Incumbent(st, id);
    (if incumbent.Some? then DisconnectEffects(st, incumbent.value) else []) +
    [Announce(Evict(st, id).engineIds + {id})]
  }

  // ---------- Runs ----------

  datatype Step =
    | OnInput(frame: Frame)
    | OnResult(context: Context, result: Result)
    | OnConnect(context: Context, engineId: EngineId, allResponses: bool)
    | OnDisconnect(context: Context)

  ghost function Next(st: State, step: Step): State {
    match step
    case OnInput(f) => ClientInput(st, f)
    case OnResult(c, r) => EngineResult(st, c)
    case OnConnect(c, id, all) => Connect(st, c, id, all)
    case OnDisconnect(c) => Disconnect(st, c)
  }

  ghost function Effects(st: State, step: Step): seq<Effect> {
    match step
    case OnInput(f) => []
    case OnResult(c, r) => EngineResultEffects(st, c, r)
    case OnConnect(c, id, all) => ConnectEffects(st, id)
    case OnDisconnect(c) => DisconnectEffects(st, c)
  }

  // Within one session, a producer numbers its frames upwards.
  predicate Newer(p: Producer, f: Frame) {
    forall g :: g in p.accepted && g.metadata.address == f.metadata.address
      ==> g.metadata.frameId < f.metadata.frameId
  }

  // The environment's only obligations: frame ids grow within a session's producer,
  // and a new engine stream is a new stream.
  ghost predicate Legal(st: State, step: Step) {
    match step
    case OnInput(f) => f.metadata.producerId in st.producers ==> Newer(st.producers[f.metadata.producerId], f)
    case OnResult(c, r) => true
    case OnConnect(c, id, all) => c !in st.workers
    case OnDisconnect(c) => true
  }

  ghost function Exec(st: State, steps: seq<Step>): State
    decreases |steps|
  {
    if steps == [] then st
    else Next(Exec(st, steps[..|steps| - 1]), steps[|steps| - 1])
  }

  ghost predicate LegalRun(st: State, steps: seq<Step>)
    decreases |steps|
  {
    steps == [] ||
    (LegalRun(st, steps[..|steps| - 1]) && Legal(Exec(st, steps[..|steps| - 1]), steps[|steps| - 1]))
  }

  lemma ExecSnoc(st: State, steps: seq<Step>, step: Step)
    ensures Exec(st, steps + [step]) == Next(Exec(st, steps), step)
    ensures LegalRun(st, steps + [step]) <==> LegalRun(st, steps) && Legal(Exec(st, steps), step)
  {
    assert (steps + [step])[..|steps|] == steps;
  }
}
