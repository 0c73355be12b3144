/**
 A server, its clients and its engines, with every message in transit, as one
 machine. Conforming clients follow the client library; other sessions may send
 whatever they like as long as they number their frames upwards. Channels are
 logs with a read position: a session's outbound stream and an engine's input
 stream belong to the server, uploads to the client, results to the engine.
 */
module Deployment {
  import opened Protocol
  import opened Scheduler
  import opened HandlerResults
  import opened Accounts
  import opened Client
  import opened EngineRunner

  datatype World = World(
    server: Server,
    clients: map<Address, Client>,
    engines: map<Context, Runner>)

  function Boot(numTokens: nat, capacity: nat): World {
    World(NewServer(numTokens, capacity), map[], map[])
  }

  datatype Action =
    // A conforming client
    | OpenSession(address: Address, info: Blob)
    | SendRegistration(address: Address)
    | StartProducer(address: Address, producerId: ProducerId)
    | AcquireToken(address: Address, producerId: ProducerId)
    | AbandonFrame(address: Address, producerId: ProducerId)
    | SendFrame(address: Address, producerId: ProducerId, targets: seq<EngineId>, payload: Blob)
    | ConsumeMessage(address: Address, consumerFails: bool)
    // The server, towards clients
    | DeliverRegistration(address: Address)
    | DeliverInput(address: Address, producerId: ProducerId)
    | CloseSession(address: Address)
    | Foreign(step: ServerStep)
    // Engines
    | ConnectEngine(context: Context, engineId: EngineId, allResponses: bool)
    | ReceiveFrame(context: Context)
    | BeginJob(context: Context)
    | EndJob(context: Context, value: HandlerValue)
    | StopEngine(context: Context)
    | DeliverResult(context: Context)
    | DisconnectEngine(context: Context)

  predicate Live(w: World, a: Address) {
    a in w.clients && w.clients[a].fault.None?
  }

  predicate Looping(w: World, a: Address, pid: ProducerId) {
    a in w.clients && Running(w.clients[a], pid)
  }

  predicate Attached(w: World, c: Context) {
    c in w.server.sched.workers && c in w.engines
  }

  // A step of a session that is not one of the conforming clients'.
  ghost predicate Outsider(w: World, step: ServerStep) {
    match step
    case Opens(a) => true
    case Closes(a) => a !in w.clients
    case Receives(a, m) => a !in w.clients
    case Engines(e) => false
  }

  ghost predicate Enabled(w: World, act: Action) {
    match act
    case OpenSession(a, info) => a !in w.server.used
    case SendRegistration(a) => Live(w, a) && w.clients[a].numTokens.None?
    case StartProducer(a, pid) => a in w.clients && CanStart(w.clients[a], pid)
    case AcquireToken(a, pid) => Looping(w, a, pid) && CanAcquire(w.clients[a].loops[pid])
    case AbandonFrame(a, pid) => Looping(w, a, pid) && w.clients[a].loops[pid].held
    case SendFrame(a, pid, targets, payload) => Looping(w, a, pid) && w.clients[a].loops[pid].held
    case ConsumeMessage(a, consumerFails) =>
      Live(w, a) && a in w.server.clients && w.clients[a].consumed < |w.server.clients[a].outbox|
    case DeliverRegistration(a) => a in w.clients && w.clients[a].registrations > 0
    case DeliverInput(a, pid) =>
      a in w.clients && pid in w.clients[a].loops && w.clients[a].loops[pid].wire != []
    case CloseSession(a) => a in w.clients
    case Foreign(step) => Outsider(w, step) && ServerLegal(w.server, step)
    case ConnectEngine(c, id, all) => c !in w.engines
    case ReceiveFrame(c) =>
      Attached(w, c) && !w.engines[c].stopped && w.engines[c].read < |w.server.sched.workers[c].sent|
    case BeginJob(c) => c in w.engines && CanTake(w.engines[c])
    case EndJob(c, value) => c in w.engines && CanFinish(w.engines[c])
    case StopEngine(c) => c in w.engines
    case DeliverResult(c) => Attached(w, c) && w.engines[c].out != []
    case DisconnectEngine(c) => c in w.server.sched.workers
  }

  // The server's part in an action.
  ghost function ServerPart(w: World, act: Action): Option<ServerStep>
    requires Enabled(w, act)
  {
    match act
    case OpenSession(a, info) => Some(Opens(a))
    case DeliverRegistration(a) => Some(Receives(a, Registration(w.clients[a].info)))
    case DeliverInput(a, pid) => Some(Receives(a, InputMessage(w.clients[a].loops[pid].wire[0])))
    case CloseSession(a) => Some(Closes(a))
    case Foreign(step) => Some(step)
    case ConnectEngine(c, id, all) => Some(Engines(OnConnect(c, id, all)))
    case DeliverResult(c) => Some(Engines(OnResult(c, w.engines[c].out[0])))
    case DisconnectEngine(c) => Some(Engines(OnDisconnect(c)))
    case _ => None
  }

  function Popped(c: Client, pid: ProducerId): Client
    requires pid in c.loops && c.loops[pid].wire != []
  {
    WithLoop(c, pid, c.loops[pid].(wire := c.loops[pid].wire[1..]))
  }

  // The clients' part in an action.
  ghost function ClientsNext(w: World, act: Action): map<Address, Client>
    requires Enabled(w, act)
  {
    var cs := w.clients;
    match act
    case OpenSession(a, info) => cs[a := NewClient(info)]
    case SendRegistration(a) => cs[a := cs[a].(registrations := cs[a].registrations + 1)]
    case StartProducer(a, pid) => cs[a := Start(cs[a], pid)]
    case AcquireToken(a, pid) => cs[a := Acquire(cs[a], pid)]
    case AbandonFrame(a, pid) => cs[a := Abandon(cs[a], pid)]
    case SendFrame(a, pid, targets, payload) => cs[a := SendInput(cs[a], pid, targets, payload)]
    case ConsumeMessage(a, consumerFails) =>
      cs[a := Consume(cs[a], w.server.clients[a].outbox[cs[a].consumed], consumerFails)]
    case DeliverRegistration(a) => cs[a := cs[a].(registrations := cs[a].registrations - 1)]
    case DeliverInput(a, pid) => cs[a := Popped(cs[a], pid)]
    case _ => cs
  }

  // The engines' part in an action.
  ghost function EnginesNext(w: World, act: Action): map<Context, Runner>
    requires Enabled(w, act)
  {
    var es := w.engines;
    match act
    case ConnectEngine(c, id, all) => es[c := NewRunner(id)]
    case ReceiveFrame(c) => es[c := EngineRunner.ReadFrame(es[c], w.server.sched.workers[c].sent[es[c].read])]
    case BeginJob(c) => es[c := TakeJob(es[c])]
    case EndJob(c, value) => es[c := FinishJob(es[c], value)]
    case StopEngine(c) => es[c := es[c].(stopped := true)]
    case DeliverResult(c) => es[c := es[c].(out := es[c].out[1..])]
    case _ => es
  }

  ghost function WorldNext(w: World, act: Action): World
    requires Enabled(w, act)
  {
    var part := ServerPart(w, act);
    World(if part.Some? then ServerNext(w.server, part.value) else w.server, ClientsNext(w, act), EnginesNext(w, act))
  }

  // ---------- Runs ----------

  // An action that is not possible in a world leaves it as it is.
  ghost function Act(w: World, act: Action): World {
    if Enabled(w, act) then WorldNext(w, act) else w
  }

  // The world after a run of any actions in any order.
  ghost function After(w: World, acts: seq<Action>): World
    decreases |acts|
  {
    if acts == [] then w else Act(After(w, acts[..|acts| - 1]), acts[|acts| - 1])
  }
}
