/**
 Where content comes from, over whole runs of a deployment. What an engine is given
 is what a client sent, with the client info it registered; what a client is told is
 what a handler returned for it. Senders, numbers, targets, payloads and status codes
 are compared with the actions of the run that introduced them.
 */
module Provenance {
  import opened Protocol
  import opened Scheduler
  import opened Guarantees
  import opened HandlerResults
  import opened Sessions
  import opened Accounts
  import opened Client
  import opened EngineRunner
  import opened Deployment
  import opened Conservation
  import opened WorldInvariant

  // ---------- What happened in a run ----------

  // The client opened this session with this client info.
  ghost predicate Opened(w: World, acts: seq<Action>, a: Address, info: Blob)
    decreases |acts|
  {
    acts != [] &&
    var before, act := acts[..|acts| - 1], acts[|acts| - 1];
    || Opened(w, before, a, info)
    || (act == OpenSession(a, info) && Enabled(After(w, before), act))
  }

  // How many frames the producer's loop has tried to send in this session.
  ghost function Attempts(w: World, acts: seq<Action>, a: Address, pid: ProducerId): nat
    decreases |acts|
  {
    if acts == [] then 0
    else
      var before, act := acts[..|acts| - 1], acts[|acts| - 1];
      Attempts(w, before, a, pid) +
      if act.SendFrame? && act.address == a && act.producerId == pid && Enabled(After(w, before), act) then 1 else 0
  }

  // The producer sent this payload to these targets, all of which its client knew to be connected,
  // as its frame of this number: its first attempt is number 1, and so on.
  ghost predicate Uploaded(w: World, acts: seq<Action>, a: Address, pid: ProducerId, number: int,
                           targets: seq<EngineId>, payload: Blob)
    decreases |acts|
  {
    acts != [] &&
    var before, act := acts[..|acts| - 1], acts[|acts| - 1];
    || Uploaded(w, before, a, pid, number, targets, payload)
    || (&& act == SendFrame(a, pid, targets, payload) && Enabled(After(w, before), act)
        && (forall id :: id in targets ==> id in After(w, before).clients[a].view)
        && number == 1 + Attempts(w, before, a, pid))
  }

  // The engine stream connected under this id.
  ghost predicate ConnectedAs(w: World, acts: seq<Action>, c: Context, id: EngineId)
    decreases |acts|
  {
    acts != [] &&
    var before, act := acts[..|acts| - 1], acts[|acts| - 1];
    || ConnectedAs(w, before, c, id)
    || (act.ConnectEngine? && act.context == c && act.engineId == id && Enabled(After(w, before), act))
  }

  // An engine of this id finished this job with a value that has this status and payload.
  ghost predicate Produced(w: World, acts: seq<Action>, id: EngineId, job: Job, code: StatusCode,
                           payload: ResultPayload)
    decreases |acts|
  {
    acts != [] &&
    var before, act := acts[..|acts| - 1], acts[|acts| - 1];
    || Produced(w, before, id, job, code, payload)
    || (&& act.EndJob? && Enabled(After(w, before), act)
        && ConnectedAs(w, before, act.context, id)
        && After(w, before).engines[act.context].handling == Some(job)
        && Reports(act.value, code, payload))
  }

  // ---------- Frames ----------

  ghost predicate WireKnown(w0: World, acts: seq<Action>, a: Address, c: Client) {
    forall pid, i :: pid in c.loops && i in c.loops[pid].wire ==>
      i.producerId == pid && Uploaded(w0, acts, a, pid, i.frameId, i.targets, i.payload)
  }

  ghost predicate ClientKnown(w0: World, acts: seq<Action>, a: Address, c: Client) {
    && Opened(w0, acts, a, c.info)
    && (forall pid :: pid in c.loops ==> c.loops[pid].frameId == 1 + Attempts(w0, acts, a, pid))
    && (forall pid :: pid !in c.loops ==> Attempts(w0, acts, a, pid) == 0)
    && WireKnown(w0, acts, a, c)
  }

  ghost predicate FrameKnown(w0: World, acts: seq<Action>, a: Address, info: Blob, pid: ProducerId, f: Frame) {
    && Uploaded(w0, acts, a, pid, f.metadata.frameId, f.metadata.targets, f.payload)
    && f.metadata.clientInfo == info
  }

  ghost predicate LedgerKnown(w0: World, acts: seq<Action>, st: State, a: Address, info: Blob) {
    forall pid, f :: f in AcceptedOf(st, pid) && f.metadata.address == a ==> FrameKnown(w0, acts, a, info, pid, f)
  }

  // The server has the client info the client gave.
  ghost predicate InfoKept(s: Server, a: Address, c: Client) {
    a in s.clients && s.clients[a].clientInfo.Some? ==> s.clients[a].clientInfo.value == c.info
  }

  ghost predicate FramesKnown(w0: World, acts: seq<Action>, w: World) {
    forall a :: a in w.clients ==>
      && ClientKnown(w0, acts, a, w.clients[a])
      && InfoKept(w.server, a, w.clients[a])
      && LedgerKnown(w0, acts, w.server.sched, a, w.clients[a].info)
  }

  // ---------- One action ----------

  // What an action does to a client's wires and numbers.
  ghost predicate ClientMoves(c: Client, act: Action, a: Address, d: Client) {
    && d.info == c.info
    && c.loops.Keys <= d.loops.Keys
    && (forall pid :: pid in d.loops ==>
          var tried := act.SendFrame? && act.address == a && act.producerId == pid;
          && (pid !in c.loops ==> d.loops[pid].frameId == 1 && d.loops[pid].wire == [] && !tried)
          && (pid in c.loops ==> d.loops[pid].frameId == c.loops[pid].frameId + if tried then 1 else 0)
          && (forall i :: i in d.loops[pid].wire ==>
                || (pid in c.loops && i in c.loops[pid].wire)
                || (&& tried && pid in c.loops && (forall id :: id in act.targets ==> id in c.view)
                    && i.frameId == c.loops[pid].frameId && i.producerId == pid
                    && i.targets == act.targets && i.payload == act.payload)))
  }

  predicate Tries(act: Action, a: Address) {
    act.SendFrame? && act.address == a
  }

  lemma LoopsUntouched(c: Client, act: Action, a: Address, d: Client)
    requires d.info == c.info && d.loops == c.loops && !Tries(act, a)
    ensures ClientMoves(c, act, a, d)
  {
  }

  // One loop takes or gives tokens, or loses an input to the server; or it starts.
  lemma LoopQuiet(c: Client, act: Action, a: Address, pid: ProducerId, d: Client)
    requires d.info == c.info && !Tries(act, a) && pid in d.loops && d.loops == c.loops[pid := d.loops[pid]]
    requires pid in c.loops ==> d.loops[pid].frameId == c.loops[pid].frameId
    requires pid in c.loops ==> forall i :: i in d.loops[pid].wire ==> i in c.loops[pid].wire
    requires pid !in c.loops ==> d.loops[pid].frameId == 1 && d.loops[pid].wire == []
    ensures ClientMoves(c, act, a, d)
  {
  }

  lemma LoopSends(c: Client, a: Address, pid: ProducerId, targets: seq<EngineId>, payload: Blob)
    requires Running(c, pid)
    ensures ClientMoves(c, SendFrame(a, pid, targets, payload), a, SendInput(c, pid, targets, payload))
  {
  }

  lemma ReturnQuiet(c: Client, act: Action, a: Address, m: ToClient, consumerFails: bool)
    requires !Tries(act, a)
    ensures ClientMoves(c, act, a, Consume(c, m, consumerFails))
  {
    hide ClientMoves;
    var d := Consume(c, m, consumerFails);
    if d.loops == c.loops {
      LoopsUntouched(c, act, a, d);
    } else {
      LoopQuiet(c, act, a, m.producerId, d);
    }
  }

  lemma ClientStep(w: World, act: Action, a: Address)
    requires Enabled(w, act) && a in w.clients && (act.OpenSession? ==> act.address != a)
    ensures a in ClientsNext(w, act) && ClientMoves(w.clients[a], act, a, ClientsNext(w, act)[a])
    ensures ClientsNext(w, act)[a].info == w.clients[a].info
    ensures act.SendFrame? && act.address == a ==> act.producerId in w.clients[a].loops
  {
    hide ServerLegal, ClientMoves, Consume;
    var c, d := w.clients[a], ClientsNext(w, act)[a];
    match act
    case SendFrame(b, pid, targets, payload) =>
      if a == b {
        LoopSends(c, a, pid, targets, payload);
      } else {
        LoopsUntouched(c, act, a, d);
      }
    case ConsumeMessage(b, fails) =>
      if a == b {
        ConsumeInfo(c, w.server.clients[a].outbox[c.consumed], fails);
        ReturnQuiet(c, act, a, w.server.clients[a].outbox[c.consumed], fails);
      } else {
        LoopsUntouched(c, act, a, d);
      }
    case StartProducer(b, pid) => QuietAction(c, act, a, pid, b, d);
    case AcquireToken(b, pid) => QuietAction(c, act, a, pid, b, d);
    case AbandonFrame(b, pid) => QuietAction(c, act, a, pid, b, d);
    case DeliverInput(b, pid) => QuietAction(c, act, a, pid, b, d);
    case _ => LoopsUntouched(c, act, a, d);
  }

  lemma ConsumeInfo(c: Client, m: ToClient, fails: bool)
    ensures Consume(c, m, fails).info == c.info
  {
  }

  lemma QuietAction(c: Client, act: Action, a: Address, pid: ProducerId, b: Address, d: Client)
    requires d.info == c.info && !Tries(act, a) && (a != b ==> d == c)
    requires d.loops == c.loops || (pid in d.loops && d.loops == c.loops[pid := d.loops[pid]])
    requires pid in c.loops && pid in d.loops ==> d.loops[pid].frameId == c.loops[pid].frameId
    requires pid in c.loops && pid in d.loops ==> forall i :: i in d.loops[pid].wire ==> i in c.loops[pid].wire
    requires pid !in c.loops && pid in d.loops ==> d.loops[pid].frameId == 1 && d.loops[pid].wire == []
    ensures ClientMoves(c, act, a, d)
  {
    hide ClientMoves;
    if d.loops == c.loops {
      LoopsUntouched(c, act, a, d);
    } else {
      LoopQuiet(c, act, a, pid, d);
    }
  }

  lemma WireStays(w0: World, acts: seq<Action>, a: Address, c: Client, d: Client)
    requires acts != []
    requires var before, act := acts[..|acts| - 1], acts[|acts| - 1];
      && ClientKnown(w0, before, a, c) && ClientMoves(c, act, a, d)
      && a in After(w0, before).clients && After(w0, before).clients[a] == c
      && (act.SendFrame? && act.address == a ==> Enabled(After(w0, before), act) && act.producerId in c.loops)
    ensures ClientKnown(w0, acts, a, d)
  {
    hide After, Enabled;
    var before, act := acts[..|acts| - 1], acts[|acts| - 1];
    forall pid
      ensures Attempts(w0, acts, a, pid) == Attempts(w0, before, a, pid)
        + if act.SendFrame? && act.address == a && act.producerId == pid then 1 else 0
    {
    }
    forall pid, i | pid in d.loops && i in d.loops[pid].wire
      ensures i.producerId == pid && Uploaded(w0, acts, a, pid, i.frameId, i.targets, i.payload)
    {
      if pid in c.loops && i in c.loops[pid].wire {
        assert Uploaded(w0, before, a, pid, i.frameId, i.targets, i.payload);
      }
    }
  }

  // Nothing known is forgotten.
  lemma KnownLater(w0: World, acts: seq<Action>, a: Address, c: Client)
    requires acts != [] && !Enabled(After(w0, acts[..|acts| - 1]), acts[|acts| - 1])
    requires ClientKnown(w0, acts[..|acts| - 1], a, c)
    ensures ClientKnown(w0, acts, a, c)
  {
    hide After, Enabled;
    forall pid
      ensures Attempts(w0, acts, a, pid) == Attempts(w0, acts[..|acts| - 1], a, pid)
    {
    }
  }

  lemma LedgerLater(w0: World, acts: seq<Action>, st: State, a: Address, info: Blob)
    requires acts != [] && LedgerKnown(w0, acts[..|acts| - 1], st, a, info)
    ensures LedgerKnown(w0, acts, st, a, info)
  {
    hide AcceptedOf, After, Enabled;
  }

  lemma {:induction false} StrangersSendNothing(w0: World, acts: seq<Action>, a: Address, pid: ProducerId)
    requires a !in After(w0, acts).clients
    ensures Attempts(w0, acts, a, pid) == 0
    decreases |acts|
  {
    if acts != [] {
      StrangersSendNothing(w0, acts[..|acts| - 1], a, pid);
    }
  }

  // ---------- The server's side ----------

  // Only a registration changes a session's client info.
  lemma InfoUnchanged(s: Server, step: ServerStep, a: Address)
    requires a in s.clients && a in ServerNext(s, step).clients && !Registers(step, a)
    requires step.Opens? ==> step.address != a
    ensures ServerNext(s, step).clients[a].clientInfo == s.clients[a].clientInfo
  {
    hide Next, Effects, Apply, Verdict, ReceiveState;
    match step
    case Opens(b) =>
    case Closes(b) =>
    case Receives(b, m) =>
    case Engines(e) => MailDelivered(s.clients, Effects(s.sched, e), a);
  }

  lemma InfoStays(w: World, act: Action, a: Address)
    requires WorldInv(w) && Enabled(w, act) && ServerPart(w, act).Some?
    requires a in w.clients && InfoKept(w.server, a, w.clients[a])
    ensures InfoKept(ServerNext(w.server, ServerPart(w, act).value), a, w.clients[a])
  {
    hide ServerInv, EnginesOk, MailOk, InSync, WellRun, ServerNext;
    var s, step := w.server, ServerPart(w, act).value;
    if a in ServerNext(s, step).clients {
      assert ClientOk(s, a, w.clients[a]);
      PartLegal(w, act);
      SessionOlder(s, step, a);
      if Registers(step, a) {
        RegisteredInfo(s, a, w.clients[a].info);
      } else {
        InfoUnchanged(s, step, a);
      }
    }
  }

  lemma RegisteredInfo(s: Server, a: Address, info: Blob)
    requires a in s.clients
    ensures var t := ServerNext(s, Receives(a, Registration(info)));
      a in t.clients && t.clients[a].clientInfo == Some(info)
  {
  }

  // A conforming client's accepted input was on its wire.
  lemma LedgerStays(w0: World, acts: seq<Action>, w: World, act: Action, a: Address)
    requires WorldInv(w) && Enabled(w, act) && ServerPart(w, act).Some? && a in w.clients
    requires ClientKnown(w0, acts, a, w.clients[a]) && InfoKept(w.server, a, w.clients[a])
    requires LedgerKnown(w0, acts, w.server.sched, a, w.clients[a].info)
    ensures LedgerKnown(w0, acts, ServerNext(w.server, ServerPart(w, act).value).sched, a, w.clients[a].info)
  {
    hide WorldInv, Uploaded, Opened, Attempts, ServerNext, AcceptedOf, InputStatus;
    var s, step := w.server, ServerPart(w, act).value;
    PartLegal(w, act);
    LegalEngines(s, step);
    forall pid, f | f in AcceptedOf(ServerNext(s, step).sched, pid) && f.metadata.address == a
      ensures FrameKnown(w0, acts, a, w.clients[a].info, pid, f)
    {
      LedgerGrows(s, step, pid);
      if f !in AcceptedOf(s.sched, pid) {
        assert act.DeliverInput? && act.address == a;
        assert step.message.input in w.clients[a].loops[act.producerId].wire;
      }
    }
  }

  lemma NewcomerKnown(w0: World, acts: seq<Action>, w: World, a: Address, info: Blob)
    requires acts != [] && w == After(w0, acts[..|acts| - 1]) && acts[|acts| - 1] == OpenSession(a, info)
    requires WorldInv(w) && Enabled(w, OpenSession(a, info)) && a !in w.clients
    ensures var v := WorldNext(w, OpenSession(a, info));
      && ClientKnown(w0, acts, a, v.clients[a]) && InfoKept(v.server, a, v.clients[a])
      && LedgerKnown(w0, acts, v.server.sched, a, v.clients[a].info)
  {
    hide After, ClientsOk, EnginesOk, MailOk, SessionsOk, WithinAllowance, AcceptedOf;
    forall pid
      ensures Attempts(w0, acts, a, pid) == 0
      ensures forall f :: f in AcceptedOf(w.server.sched, pid) ==> f.metadata.address != a
    {
      StrangersSendNothing(w0, acts[..|acts| - 1], a, pid);
      NoneFrom(AcceptedOf(w.server.sched, pid), a);
    }
  }

  lemma ActKnown(w0: World, acts: seq<Action>, a: Address)
    requires acts != []
    requires var w, act := After(w0, acts[..|acts| - 1]), acts[|acts| - 1];
      && WorldInv(w) && Enabled(w, act) && FramesKnown(w0, acts[..|acts| - 1], w) && a in WorldNext(w, act).clients
    ensures var v := WorldNext(After(w0, acts[..|acts| - 1]), acts[|acts| - 1]);
      && ClientKnown(w0, acts, a, v.clients[a]) && InfoKept(v.server, a, v.clients[a])
      && LedgerKnown(w0, acts, v.server.sched, a, v.clients[a].info)
  {
    hide After, WorldInv, Enabled, ServerPart, ServerNext, ClientKnown, LedgerKnown, InfoKept, ClientMoves, ClientsNext;
    var before, act := acts[..|acts| - 1], acts[|acts| - 1];
    var w := After(w0, before);
    OpensOnce(w, act);
    if act.OpenSession? && act.address == a {
      NewcomerKnown(w0, acts, w, a, act.info);
    } else {
      ClientStep(w, act, a);
      WireStays(w0, acts, a, w.clients[a], ClientsNext(w, act)[a]);
      if ServerPart(w, act).Some? {
        InfoStays(w, act, a);
        LedgerStays(w0, before, w, act, a);
        LedgerLater(w0, acts, ServerNext(w.server, ServerPart(w, act).value).sched, a, w.clients[a].info);
      } else {
        LedgerLater(w0, acts, w.server.sched, a, w.clients[a].info);
      }
      SameInfo(WorldNext(w, act).server, a, w.clients[a], ClientsNext(w, act)[a]);
    }
  }

  lemma SameInfo(s: Server, a: Address, c: Client, d: Client)
    requires d.info == c.info
    ensures InfoKept(s, a, c) <==> InfoKept(s, a, d)
  {
  }

  lemma {:induction false} FramesReachable(n: nat, capacity: nat, acts: seq<Action>)
    ensures FramesKnown(Boot(n, capacity), acts, After(Boot(n, capacity), acts))
    decreases |acts|
  {
    hide WorldInv, WorldNext, Enabled, ClientKnown, LedgerKnown, InfoKept;
    if acts != [] {
      var w0, before, act := Boot(n, capacity), acts[..|acts| - 1], acts[|acts| - 1];
      var w := After(w0, before);
      FramesReachable(n, capacity, before);
      WorldReachable(n, capacity, before);
      forall a | a in After(w0, acts).clients
        ensures ClientKnown(w0, acts, a, After(w0, acts).clients[a])
        ensures InfoKept(After(w0, acts).server, a, After(w0, acts).clients[a])
        ensures LedgerKnown(w0, acts, After(w0, acts).server.sched, a, After(w0, acts).clients[a].info)
      {
        if Enabled(w, act) {
          ActKnown(w0, acts, a);
        } else {
          KnownLater(w0, acts, a, w.clients[a]);
          LedgerLater(w0, acts, w.server.sched, a, w.clients[a].info);
        }
      }
    }
  }

  // Every frame the server ever accepted from a conforming client was sent by the producer it
  // names: this payload, to these targets, under this number, after opening the session with this
  // client info.
  lemma AcceptedAsSent(n: nat, capacity: nat, acts: seq<Action>, a: Address, pid: ProducerId, f: Frame)
    requires var w := After(Boot(n, capacity), acts);
      a in w.clients && f in AcceptedOf(w.server.sched, pid) && f.metadata.address == a
    ensures Uploaded(Boot(n, capacity), acts, a, pid, f.metadata.frameId, f.metadata.targets, f.payload)
    ensures Opened(Boot(n, capacity), acts, a, f.metadata.clientInfo)
  {
    hide After, Uploaded, Opened, AcceptedOf, Attempts;
    FramesReachable(n, capacity, acts);
    var w := After(Boot(n, capacity), acts);
    assert FrameKnown(Boot(n, capacity), acts, a, w.clients[a].info, pid, f);
  }

  // A producer's loop numbers its attempts from 1.
  lemma NumberedFromOne(n: nat, capacity: nat, acts: seq<Action>, a: Address, pid: ProducerId)
    requires var w := After(Boot(n, capacity), acts); a in w.clients && pid in w.clients[a].loops
    ensures After(Boot(n, capacity), acts).clients[a].loops[pid].frameId ==
            1 + Attempts(Boot(n, capacity), acts, a, pid)
  {
    hide After, WireKnown, Opened, LedgerKnown, Attempts;
    FramesReachable(n, capacity, acts);
  }

  // ---------- Results ----------

  ghost predicate ResultKnown(w0: World, acts: seq<Action>, r: Result) {
    r.origin.Some? ==> Produced(w0, acts, r.engineId, r.origin.value, r.code, r.payload)
  }

  ghost predicate RunnerKnown(w0: World, acts: seq<Action>, c: Context, e: Runner) {
    && ConnectedAs(w0, acts, c, e.engineId)
    && forall r :: r in e.out ==> r.origin.Some? && ResultKnown(w0, acts, r)
  }

  ghost predicate StreamKnown(w0: World, acts: seq<Action>, ms: seq<ToClient>) {
    forall m :: m in ms && m.ResultWrapper? ==> ResultKnown(w0, acts, m.result)
  }

  ghost predicate ResultsKnown(w0: World, acts: seq<Action>, w: World) {
    && (forall c :: c in w.engines ==> RunnerKnown(w0, acts, c, w.engines[c]))
    && (forall a :: a in w.server.clients ==> StreamKnown(w0, acts, w.server.clients[a].outbox))
  }

  lemma ResultLater(w0: World, acts: seq<Action>, r: Result)
    requires acts != [] && ResultKnown(w0, acts[..|acts| - 1], r)
    ensures ResultKnown(w0, acts, r)
  {
    hide After, Enabled;
  }

  lemma RunnerLater(w0: World, acts: seq<Action>, c: Context, e: Runner)
    requires acts != [] && RunnerKnown(w0, acts[..|acts| - 1], c, e)
    ensures RunnerKnown(w0, acts, c, e)
  {
    hide After, Enabled, ResultKnown;
    forall r | r in e.out
      ensures ResultKnown(w0, acts, r)
    {
      ResultLater(w0, acts, r);
    }
  }

  // What an action does to an engine's results.
  lemma RunnerStep(w: World, act: Action, c: Context, r: Result)
    requires Enabled(w, act) && c in EnginesNext(w, act) && r in EnginesNext(w, act)[c].out
    ensures c in w.engines
    ensures r in w.engines[c].out ||
      (&& act.EndJob? && act.context == c && r.origin == w.engines[c].handling && r.origin.Some?
       && r.engineId == w.engines[c].engineId && Reports(act.value, r.code, r.payload))
  {
    hide BuildResultProto, Reports;
  }

  lemma RunnerId(w: World, act: Action, c: Context)
    requires Enabled(w, act) && c in EnginesNext(w, act)
    ensures c in w.engines ==> EnginesNext(w, act)[c].engineId == w.engines[c].engineId
    ensures c !in w.engines ==>
      act.ConnectEngine? && act.context == c && EnginesNext(w, act)[c].engineId == act.engineId
  {
  }

  lemma RunnerStays(w0: World, acts: seq<Action>, c: Context)
    requires acts != []
    requires var w, act := After(w0, acts[..|acts| - 1]), acts[|acts| - 1];
      && Enabled(w, act) && c in EnginesNext(w, act)
      && (c in w.engines ==> RunnerKnown(w0, acts[..|acts| - 1], c, w.engines[c]))
    ensures RunnerKnown(w0, acts, c, EnginesNext(After(w0, acts[..|acts| - 1]), acts[|acts| - 1])[c])
  {
    hide After, Enabled, EnginesNext, Reports;
    var before, act := acts[..|acts| - 1], acts[|acts| - 1];
    var w := After(w0, before);
    RunnerId(w, act, c);
    forall r | r in EnginesNext(w, act)[c].out
      ensures r.origin.Some? && ResultKnown(w0, acts, r)
    {
      RunnerStep(w, act, c, r);
      if r in w.engines[c].out {
        ResultLater(w0, acts, r);
      }
    }
  }

  // What the server posts is an engine's result, up to its number, or of its own making.
  lemma PostedKnown(w0: World, acts: seq<Action>, w: World, act: Action, a: Address, m: ToClient)
    requires WorldInv(w) && Enabled(w, act) && ServerPart(w, act).Some? && ResultsKnown(w0, acts, w)
    requires a in w.server.clients && a in ServerNext(w.server, ServerPart(w, act).value).clients
    requires m in Posted(w.server, ServerPart(w, act).value, a) && m.ResultWrapper?
    ensures ResultKnown(w0, acts, m.result)
  {
    hide Produced, ClientsOk, EnginesOk, MailOk, SessionsOk, WithinAllowance, Untouched, Continues, Verdict, Mail,
         Effects, Answers;
    var s, step := w.server, ServerPart(w, act).value;
    match step
    case Receives(b, msg) => ReceiveContinues(s, b, msg, a, "");
    case Engines(e) =>
      PartLegal(w, act);
      LegalEngines(s, step);
      EngineContinues(s, e, a, "");
      var x := MailFromEffect(Effects(s.sched, e), a, m);
      EffectCases(s.sched, e, x);
      if e.OnResult? {
        assert w.engines[act.context].out[0] in w.engines[act.context].out;
      }
    case _ =>
  }

  lemma StreamStays(w0: World, acts: seq<Action>, a: Address)
    requires acts != []
    requires var w, act := After(w0, acts[..|acts| - 1]), acts[|acts| - 1];
      && WorldInv(w) && Enabled(w, act) && ResultsKnown(w0, acts[..|acts| - 1], w)
      && a in WorldNext(w, act).server.clients
    ensures var v := WorldNext(After(w0, acts[..|acts| - 1]), acts[|acts| - 1]);
      StreamKnown(w0, acts, v.server.clients[a].outbox)
  {
    hide After, WorldInv, Enabled, ServerPart, ServerNext, ResultKnown, RunnerKnown;
    var before, act := acts[..|acts| - 1], acts[|acts| - 1];
    var w := After(w0, before);
    var outbox := WorldNext(w, act).server.clients[a].outbox;
    forall m | m in outbox && m.ResultWrapper?
      ensures ResultKnown(w0, acts, m.result)
    {
      if ServerPart(w, act).Some? {
        FreshSession(w, act, a);
        StreamGrows(w, act, a);
        if m !in w.server.clients[a].outbox {
          PostedKnown(w0, before, w, act, a, m);
        }
      }
      ResultLater(w0, acts, m.result);
    }
  }

  lemma StreamGrows(w: World, act: Action, a: Address)
    requires WorldInv(w) && Enabled(w, act) && ServerPart(w, act).Some? && a in w.server.clients
    requires a in ServerNext(w.server, ServerPart(w, act).value).clients
    ensures var step := ServerPart(w, act).value;
      ServerNext(w.server, step).clients[a].outbox == w.server.clients[a].outbox + Posted(w.server, step, a)
  {
    hide ServerInv, ServerLegal, ClientsOk, EnginesOk, MailOk, Enabled, ServerPart, ServerNext, Posted;
    PartLegal(w, act);
    TokensMove(w.server, ServerPart(w, act).value, a, "");
  }

  lemma {:induction false} ResultsReachable(n: nat, capacity: nat, acts: seq<Action>)
    ensures ResultsKnown(Boot(n, capacity), acts, After(Boot(n, capacity), acts))
    decreases |acts|
  {
    hide WorldInv, Enabled, RunnerKnown, StreamKnown, EnginesNext, ServerNext, ServerPart;
    if acts != [] {
      var w0, before, act := Boot(n, capacity), acts[..|acts| - 1], acts[|acts| - 1];
      var w := After(w0, before);
      ResultsReachable(n, capacity, before);
      WorldReachable(n, capacity, before);
      forall c | c in After(w0, acts).engines
        ensures RunnerKnown(w0, acts, c, After(w0, acts).engines[c])
      {
        if Enabled(w, act) {
          RunnerStays(w0, acts, c);
        } else {
          RunnerLater(w0, acts, c, w.engines[c]);
        }
      }
      forall a | a in After(w0, acts).server.clients
        ensures StreamKnown(w0, acts, After(w0, acts).server.clients[a].outbox)
      {
        if Enabled(w, act) {
          StreamStays(w0, acts, a);
        } else {
          StreamLater(w0, acts, w.server.clients[a].outbox);
        }
      }
    }
  }

  lemma StreamLater(w0: World, acts: seq<Action>, ms: seq<ToClient>)
    requires acts != [] && StreamKnown(w0, acts[..|acts| - 1], ms)
    ensures StreamKnown(w0, acts, ms)
  {
    hide ResultKnown;
    forall m | m in ms && m.ResultWrapper?
      ensures ResultKnown(w0, acts, m.result)
    {
      ResultLater(w0, acts, m.result);
    }
  }

  // Every handler's result in any session's stream has status and payload of a value that an engine
  // of the id it names returned for the job it was computed from.
  lemma ResultsAsReturned(n: nat, capacity: nat, acts: seq<Action>, a: Address, m: ToClient)
    requires var s := After(Boot(n, capacity), acts).server; a in s.clients && m in s.clients[a].outbox
    requires m.ResultWrapper? && m.result.origin.Some?
    ensures Produced(Boot(n, capacity), acts, m.result.engineId, m.result.origin.value, m.result.code, m.result.payload)
  {
    hide After, Produced, RunnerKnown;
    ResultsReachable(n, capacity, acts);
    assert ResultKnown(Boot(n, capacity), acts, m.result);
  }

  // The whole way there and back, for a conforming client: the job behind a result consists of the
  // payload that the producer sent under the result's number and of the client info its session was
  // opened with, and the result is what a handler returned for that job.
  lemma ThereAndBack(n: nat, capacity: nat, acts: seq<Action>, a: Address, m: ToClient)
    requires var w := After(Boot(n, capacity), acts);
      a in w.clients && a in w.server.clients && m in w.server.clients[a].outbox
    requires m.ResultWrapper? && m.result.origin.Some?
    ensures var job := m.result.origin.value;
      && (exists targets :: Uploaded(Boot(n, capacity), acts, a, m.producerId, m.result.frameId, targets, job.payload))
      && Opened(Boot(n, capacity), acts, a, job.clientInfo)
      && Produced(Boot(n, capacity), acts, m.result.engineId, job, m.result.code, m.result.payload)
  {
    hide After, Uploaded, Opened, Produced, ServerInv, ClientsOk, EnginesOk, Complaint, AcceptedOf;
    ResultsAsReturned(n, capacity, acts, a, m);
    WorldReachable(n, capacity, acts);
    var w := After(Boot(n, capacity), acts);
    assert MessageOk(w.server.sched, a, true, m);
    var f :| ResultOf(w.server.sched, a, m, f);
    AcceptedAsSent(n, capacity, acts, a, m.producerId, f);
  }
}
