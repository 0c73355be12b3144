/**
 The server in the form of its source: producers, engine workers and the server
 itself are objects that their methods update in place, with the client-facing
 server beside them. Each method is proved to do exactly what the corresponding
 function of the state machine says, and to keep its invariant.
 */
module ServerRunner {
  import opened Protocol
  import opened Scheduler
  import opened Sessions

  // ---------- Producers ----------

  class ProducerInfo {
    const producerId: ProducerId
    const maxlen: nat
    var queue: seq<Frame>
    var latest: Option<Frame>
    var pending: bool
    ghost var accepted: seq<Frame>
    ghost var returned: seq<Frame>
    ghost var displaced: seq<Frame>

    ghost function View(): Producer
      reads this
    {
      Producer(queue, latest, pending, accepted, returned, displaced)
    }

    constructor (producerId: ProducerId, maxlen: nat)
      ensures this.producerId == producerId && this.maxlen == maxlen && View() == NEW_PRODUCER
    {
      this.producerId := producerId;
      this.maxlen := maxlen;
      queue, latest, pending := [], None, false;
      accepted, returned, displaced := [], [], [];
    }

    method AddInputToQueue(frame: Frame) returns (added: bool)
      modifies this
      ensures added <==> old(|queue|) != maxlen
      ensures View() == if added then Enqueue(old(View()), frame) else old(View())
    {
      if |queue| == maxlen {
        return false;
      }
      queue := queue + [frame];
      accepted := accepted + [frame];
      return true;
    }

    method GetInputFromQueue() returns (frame: Option<Frame>)
      modifies this
      ensures old(queue) == [] ==> frame.None? && View() == old(View())
      ensures old(queue) != [] ==> frame == Some(old(queue)[0]) && View() == Dequeue(old(View()))
    {
      if queue == [] {
        return None;
      }
      frame := Some(queue[0]);
      latest := frame;
      pending := true;
      queue := queue[1..];
    }

    // Clear the pending flag; the in-flight frame's token goes back.
    method ReleaseToken()
      modifies this
      ensures View() == Claim(old(View()))
    {
      returned := returned + InFlight(View());
      pending := false;
    }

    // Record a directly dispatched frame as the one in flight.
    method MarkInFlight(frame: Frame)
      modifies this
      ensures View() == Dispatch(old(View()), frame)
    {
      displaced := displaced + InFlight(View());
      accepted := accepted + [frame];
      latest := Some(frame);
      pending := true;
    }

    // The connected workers whose ids the input names.
    method FindTargets(workers: map<Context, EngineWorker>, frame: Frame) returns (targets: set<Context>)
      ensures targets == set c | c in workers && workers[c].engineId in frame.metadata.targets
    {
      targets := {};
      var todo := workers.Keys;
      while todo != {}
        invariant todo <= workers.Keys
        invariant targets == set c | c in workers && c !in todo && workers[c].engineId in frame.metadata.targets
        decreases |todo|
      {
        var c :| c in todo;
        todo := todo - {c};
        if workers[c].engineId in frame.metadata.targets {
          targets := targets + {c};
        }
      }
    }

    // Offer the input to every target in turn, and report whether all of them were busy.
    method OfferToTargets(workers: map<Context, EngineWorker>, targets: set<Context>, frame: Frame)
      returns (allBusy: bool)
      requires frame.metadata.producerId == producerId
      requires targets == set c | c in workers && workers[c].engineId in frame.metadata.targets
      requires DistinctWorkers(workers) && AllKnow(workers, this) && AllWired(workers)
      modifies workers.Values
      ensures WorkerViews(workers) == OfferAll(old(WorkerViews(workers)), frame)
      ensures AllAdd(old(Rotations(workers)), this, Rotations(workers)) && AllWired(workers)
      ensures allBusy <==> !HasIdleTarget(old(WorkerViews(workers)), frame)
    {
      hide Offer, Offered, OfferAll, HasIdleTarget, AllAdd, AllWired, AllKnow, AllBusy, Rotations, DistinctWorkers,
           WorkerViews;
      ghost var ws, rs := WorkerViews(workers), Rotations(workers);
      allBusy := true;
      var todo := targets;
      ghost var done: set<Context> := {};
      TargetsOf(workers, frame, targets);
      OfferedNone(ws, frame);
      AllBusyNone(ws);
      AllAddNothing(rs, this);
      while todo != {}
        invariant Split(done, todo, targets)
        invariant Offered(ws, WorkerViews(workers), done, frame)
        invariant AllAdd(rs, this, Rotations(workers)) && AllWired(workers) && AllKnow(workers, this)
        invariant allBusy <==> AllBusy(ws, done)
        decreases |todo|
      {
        var c :| c in todo;
        assert c in targets && c !in done;
        SplitMove(done, todo, targets, c);
        todo := todo - {c};
        ghost var rs' := Rotations(workers);
        OfferedOneMore(ws, WorkerViews(workers), done, c, frame);
        var idle := OfferToOne(workers, c, frame);
        AllAddTrans(rs, rs', Rotations(workers), this);
        AllBusyOneMore(ws, done, c);
        allBusy := allBusy && !idle;
        done := done + {c};
      }
      assert done == targets;
      OfferedAll(ws, WorkerViews(workers), targets, frame);
    }

    method OfferToOne(workers: map<Context, EngineWorker>, c: Context, frame: Frame) returns (idle: bool)
      requires frame.metadata.producerId == producerId && c in workers
      requires DistinctWorkers(workers) && AllKnow(workers, this) && AllWired(workers)
      modifies workers[c]
      ensures WorkerViews(workers) == old(WorkerViews(workers))[c := Offer(old(WorkerViews(workers))[c], frame)]
      ensures AllAdd(old(Rotations(workers)), this, Rotations(workers))
      ensures AllKnow(workers, this) && AllWired(workers)
      ensures idle <==> old(WorkerViews(workers))[c].current.None?
    {
      hide Offer, AllAdd;
      ghost var ws, rs := WorkerViews(workers), Rotations(workers);
      idle := workers[c].TakeOffer(this, frame);
      OneWorkerChanged(ws, WorkerViews(workers), c);
      AllAddOne(rs, Rotations(workers), c, this);
    }

    // Queue the frame if every target was busy, otherwise record it as in flight.
    method Settle(frame: Frame, allBusy: bool) returns (status: StatusCode)
      modifies this
      ensures status == if allBusy && |old(queue)| == maxlen then ServerDroppedFrame else Success
      ensures View() == (if status != Success then old(View())
                         else if allBusy then Enqueue(old(View()), frame) else Dispatch(old(View()), frame))
    {
      if allBusy {
        var added := AddInputToQueue(frame);
        return if added then Success else ServerDroppedFrame;
      }
      MarkInFlight(frame);
      return Success;
    }

    // Hand a new input to every idle target, or queue it if all targets are busy.
    method ProcessInputFromClient(workers: map<Context, EngineWorker>, frame: Frame) returns (status: StatusCode)
      requires frame.metadata.producerId == producerId
      requires DistinctWorkers(workers) && AllKnow(workers, this) && AllWired(workers)
      modifies this, workers.Values
      ensures AllAdd(old(Rotations(workers)), this, Rotations(workers)) && AllWired(workers)
      ensures var ws := old(WorkerViews(workers));
        WorkerViews(workers) == if HasTarget(ws, frame) then OfferAll(ws, frame) else ws
      ensures status == InputOutcome(old(WorkerViews(workers)), |old(queue)| == maxlen, frame)
      ensures View() == ProducerAfterInput(old(WorkerViews(workers)), old(View()), status, frame)
    {
      hide OfferAll, HasTarget, HasIdleTarget, Dispatch, Enqueue, AllAdd, AllWired, AllKnow, DistinctWorkers,
           WorkerViews, Rotations;
      ghost var ws, p := WorkerViews(workers), View();
      var targets := FindTargets(workers, frame);
      TargetsOf(workers, frame, targets);
      TargetSet(WorkerViews(workers), frame, targets);
      AllAddNothing(Rotations(workers), this);
      if targets == {} {
        return NoEngineForInput;
      }
      var allBusy := OfferToTargets(workers, targets, frame);
      ghost var ws', rs' := WorkerViews(workers), Rotations(workers);
      assert View() == p;
      status := Settle(frame, allBusy);
      assert WorkerViews(workers) == ws' && Rotations(workers) == rs';
    }
  }

  function InputOutcome(ws: Workers, full: bool, frame: Frame): StatusCode {
    if !HasTarget(ws, frame) then NoEngineForInput
    else if !HasIdleTarget(ws, frame) && full then ServerDroppedFrame
    else Success
  }

  function ProducerAfterInput(ws: Workers, p: Producer, status: StatusCode, frame: Frame): Producer {
    if status != Success then p
    else if HasIdleTarget(ws, frame) then Dispatch(p, frame)
    else Enqueue(p, frame)
  }

  ghost predicate AllKnow(workers: map<Context, EngineWorker>, p: ProducerInfo)
    reads workers.Values
  {
    forall c :: c in workers ==> workers[c].Knows(p)
  }

  ghost predicate AllWired(workers: map<Context, EngineWorker>)
    reads workers.Values
  {
    forall c :: c in workers ==> workers[c].WireOk()
  }

  ghost function Rotations(workers: map<Context, EngineWorker>): map<Context, seq<ProducerInfo>>
    reads workers.Values
  {
    map c | c in workers :: workers[c].rotation
  }

  // Rotations only gain this producer.
  ghost predicate AllAdd(before: map<Context, seq<ProducerInfo>>, p: ProducerInfo,
                         after: map<Context, seq<ProducerInfo>>)
  {
    after.Keys == before.Keys &&
    forall c, q :: c in before && q in after[c] ==> q in before[c] || q == p
  }

  lemma AllAddOne(before: map<Context, seq<ProducerInfo>>, after: map<Context, seq<ProducerInfo>>,
                  c: Context, p: ProducerInfo)
    requires after.Keys == before.Keys && c in before && OnlyAdds(before[c], p, after[c])
    requires forall d :: d in before && d != c ==> after[d] == before[d]
    ensures AllAdd(before, p, after)
  {
  }

  lemma OneWorkerChanged(ws: Workers, ws': Workers, c: Context)
    requires c in ws && ws'.Keys == ws.Keys && forall d :: d in ws && d != c ==> ws'[d] == ws[d]
    ensures ws' == ws[c := ws'[c]]
  {
  }

  lemma AllAddTrans(a: map<Context, seq<ProducerInfo>>, b: map<Context, seq<ProducerInfo>>,
                    c: map<Context, seq<ProducerInfo>>, p: ProducerInfo)
    requires AllAdd(a, p, b) && AllAdd(b, p, c)
    ensures AllAdd(a, p, c)
  {
  }

  lemma AllAddNothing(rotations: map<Context, seq<ProducerInfo>>, p: ProducerInfo)
    ensures AllAdd(rotations, p, rotations)
  {
  }

  ghost predicate AllBusy(ws: Workers, done: set<Context>) {
    forall c :: c in done && c in ws ==> ws[c].current.Some?
  }

  lemma AllBusyNone(ws: Workers)
    ensures AllBusy(ws, {})
  {
  }

  lemma AllBusyOneMore(ws: Workers, done: set<Context>, c: Context)
    requires c in ws
    ensures AllBusy(ws, done + {c}) <==> AllBusy(ws, done) && ws[c].current.Some?
  {
  }

  // The elements already visited and those still to visit.
  ghost predicate Split(done: set<Context>, todo: set<Context>, all: set<Context>) {
    done !! todo && done + todo == all
  }

  lemma SplitMove(done: set<Context>, todo: set<Context>, all: set<Context>, c: Context)
    requires Split(done, todo, all) && c in todo
    ensures Split(done + {c}, todo - {c}, all)
  {
  }

  // The workers in `done` have taken the offer, the others are as before.
  ghost predicate Offered(ws: Workers, ws': Workers, done: set<Context>, frame: Frame) {
    ws'.Keys == ws.Keys &&
    forall c :: c in ws ==> ws'[c] == if c in done then Offer(ws[c], frame) else ws[c]
  }

  lemma OfferedNone(ws: Workers, frame: Frame)
    ensures Offered(ws, ws, {}, frame)
  {
  }

  lemma OfferedOneMore(ws: Workers, ws': Workers, done: set<Context>, c: Context, frame: Frame)
    requires c in ws && c !in done && Offered(ws, ws', done, frame)
    ensures ws'[c] == ws[c] && Offered(ws, ws'[c := Offer(ws[c], frame)], done + {c}, frame)
  {
  }

  // Offering to exactly the targets is offering to all.
  lemma OfferedAll(ws: Workers, ws': Workers, targets: set<Context>, frame: Frame)
    requires targets == set c | c in ws && Targets(frame, ws[c])
    requires Offered(ws, ws', targets, frame)
    ensures ws' == OfferAll(ws, frame)
    ensures HasIdleTarget(ws, frame) <==> !AllBusy(ws, targets)
  {
  }

  lemma TargetsOf(workers: map<Context, EngineWorker>, frame: Frame, targets: set<Context>)
    requires targets == set c | c in workers && workers[c].engineId in frame.metadata.targets
    ensures targets == set c | c in WorkerViews(workers) && Targets(frame, WorkerViews(workers)[c])
  {
  }

  lemma TargetSet(ws: Workers, frame: Frame, targets: set<Context>)
    requires targets == set c | c in ws && Targets(frame, ws[c])
    ensures HasTarget(ws, frame) <==> targets != {}
    ensures HasIdleTarget(ws, frame) <==> exists c :: c in targets && ws[c].current.None?
  {
    if c :| c in ws && Targets(frame, ws[c]) {
      assert c in targets;
    }
  }

  // ---------- Engine workers ----------

  ghost function Ids(producers: seq<ProducerInfo>): (ids: seq<ProducerId>)
    ensures |ids| == |producers|
    ensures forall i :: 0 <= i < |ids| ==> ids[i] == producers[i].producerId
  {
    seq(|producers|, i requires 0 <= i < |producers| => producers[i].producerId)
  }

  class EngineWorker {
    const context: Context
    const engineId: EngineId
    const allResponses: bool
    var current: Option<Metadata>
    var rotation: seq<ProducerInfo>
    var last: map<ProducerId, Metadata>
    // The messages written to the engine's stream.
    var written: seq<Job>
    ghost var sent: seq<Frame>
    ghost var completed: seq<Metadata>
    ghost var claimed: seq<Metadata>
    ghost var forwarded: seq<Metadata>

    ghost function View(): Worker
      reads this
    {
      Worker(engineId, allResponses, current, Ids(rotation), last, sent, completed, claimed, forwarded)
    }

    // No other producer object in the rotation passes for this one.
    ghost predicate Knows(p: ProducerInfo)
      reads this
    {
      forall q :: q in rotation && q.producerId == p.producerId ==> q == p
    }

    // What is on the wire is the jobs of the frames sent, and nothing more of them.
    ghost predicate WireOk()
      reads this
    {
      written == Jobs(sent)
    }

    constructor (context: Context, engineId: EngineId, allResponses: bool)
      ensures this.context == context && View() == NewWorker(engineId, allResponses)
      ensures this.engineId == engineId && this.allResponses == allResponses
      ensures rotation == [] && WireOk()
    {
      this.context := context;
      this.engineId := engineId;
      this.allResponses := allResponses;
      current, rotation, last, written := None, [], map[], [];
      sent, completed, claimed, forwarded := [], [], [], [];
      new;
      assert Ids([]) == [];
    }

    method SendPayload(frame: Frame)
      modifies this
      ensures View() == Scheduler.SendPayload(old(View()), frame)
      ensures written == old(written) + [Job(frame.payload, frame.metadata.clientInfo)]
      ensures rotation == old(rotation)
      ensures old(WireOk()) ==> WireOk()
    {
      current := Some(frame.metadata);
      last := last[frame.metadata.producerId := frame.metadata];
      written := written + [JobOf(frame)];
      sent := sent + [frame];
    }

    method AddProducer(p: ProducerInfo)
      requires Knows(p)
      modifies this
      ensures View() == Scheduler.AddProducer(old(View()), p.producerId)
      ensures OnlyAdds(old(rotation), p, rotation) && Knows(p)
      ensures old(WireOk()) ==> WireOk()
    {
      IdsMember(rotation, p);
      if p in rotation {
        return;
      }
      rotation := rotation + [p];
      assert Ids(rotation) == old(Ids(rotation)) + [p.producerId];
    }

    // Join the producer to the rotation and, if idle, start on its frame.
    method TakeOffer(p: ProducerInfo, frame: Frame) returns (idle: bool)
      requires Knows(p) && frame.metadata.producerId == p.producerId
      modifies this
      ensures View() == Offer(old(View()), frame) && (idle <==> old(current).None?)
      ensures OnlyAdds(old(rotation), p, rotation)
      ensures old(WireOk()) ==> WireOk()
    {
      AddProducer(p);
      idle := current.None?;
      if idle {
        SendPayload(frame);
      }
    }

    // Take this producer's next queued frame if its gate is open, else its in-flight frame if newer.
    method TryProducer(p: ProducerInfo) returns (served: bool)
      modifies this, p
      ensures served <==> old(CanDequeue(p.View()) || CanCatchUp(View(), p.producerId, p.View()))
      ensures served ==> View() == ServeWorker(old(View()), old(p.View()), p.producerId)
      ensures served ==> p.View() == ServeProducer(old(p.View()))
      ensures !served ==> View() == old(View()) && p.View() == old(p.View())
      ensures rotation == old(rotation)
      ensures old(WireOk()) ==> WireOk()
    {
      if !p.pending {
        var frame := p.GetInputFromQueue();
        if frame.Some? {
          SendPayload(frame.value);
          return true;
        }
      }
      if p.latest.Some? {
        if p.producerId in last && p.latest.value.metadata.frameId > last[p.producerId].frameId {
          SendPayload(p.latest.value);
          return true;
        }
      }
      return false;
    }

    ghost method RecordAnswer(claims: bool)
      requires current.Some?
      modifies this
      ensures View() == LogAnswer(old(View()), claims) && rotation == old(rotation)
      ensures old(WireOk()) ==> WireOk()
    {
      var md := current.value;
      completed := completed + [md];
      claimed := claimed + if claims then [md] else [];
      forwarded := forwarded + if claims || allResponses then [md] else [];
    }

    // Move the next producer to the front.
    method ShiftFront() returns (p: ProducerInfo)
      requires rotation != []
      modifies this
      ensures rotation == Shift(old(rotation)) && p == rotation[0] && p in old(rotation)
      ensures View() == old(View()).(rotation := Ids(rotation))
      ensures old(WireOk()) ==> WireOk()
    {
      p := if |rotation| > 1 then rotation[1] else rotation[0];
      rotation := rotation[1..] + [rotation[0]];
    }

    method ClearCurrent()
      modifies this
      ensures View() == old(View()).(current := None) && rotation == old(rotation)
      ensures old(WireOk()) ==> WireOk()
    {
      current := None;
    }

    // Move the next producer to the front and try it.
    method TryFront(ghost table: map<ProducerId, ProducerInfo>) returns (served: bool)
      requires InTable(table, rotation) && rotation != [] && WireOk()
      modifies this, rotation
      ensures rotation == Shift(old(rotation)) && rotation[0].producerId in table && WireOk()
      ensures served <==> Ready(old(View()), old(ProducerViews(table)), rotation[0].producerId)
      ensures var w, ps := old(View()).(rotation := Ids(rotation)), old(ProducerViews(table));
        var pid := rotation[0].producerId;
        && View() == (if served then ServeWorker(w, ps[pid], pid) else w)
        && ProducerViews(table) == (if served then ps[pid := ServeProducer(ps[pid])] else ps)
    {
      hide EngineWorker.View, ServeProducer, CanDequeue, CanCatchUp, InFlight;
      ghost var w, ps := View(), ProducerViews(table);
      var p := ShiftFront();
      assert p in old(rotation);
      ReadyAnyOrder(w, Ids(rotation), ps, p.producerId);
      assert ps[p.producerId] == p.View();
      served := TryProducer(p);
      OneChanged(ps, ProducerViews(table), p.producerId);
    }

    // The search has tried and rejected the first i producers.
    ghost predicate Searching(table: map<ProducerId, ProducerInfo>, r: seq<ProducerInfo>,
                              w: Worker, ps: Producers, i: nat)
      reads this, table.Values
    {
      && i <= |r| && w.rotation == Ids(r) && rotation == r[i..] + r[..i]
      && View() == w.(rotation := Ids(rotation))
      && ProducerViews(table) == ps && WireOk()
      && NoneReady(w, ps, i)
    }

    method TryNext(ghost table: map<ProducerId, ProducerInfo>, ghost r: seq<ProducerInfo>,
                   ghost w: Worker, ghost ps: Producers, ghost i: nat) returns (served: bool)
      requires InTable(table, r) && i < |r| && Searching(table, r, w, ps, i)
      modifies this, r
      ensures !served ==> Searching(table, r, w, ps, i + 1)
      ensures served ==> Found(table, r, w, ps)
    {
      hide EngineWorker.View, Ready, NoneReady, SendNextWorker, SendNextProducers, ProducerViews, ServeWorker,
           ServeProducer;
      NextAttempt(w, ps, r, i);
      served := TryFront(table);
    }

    // The search has ended as the specification says.
    ghost predicate Found(table: map<ProducerId, ProducerInfo>, r: seq<ProducerInfo>, w: Worker, ps: Producers)
      reads this, table.Values
    {
      && View() == SendNextWorker(w, ps) && ProducerViews(table) == SendNextProducers(w, ps)
      && (forall p :: p in rotation ==> p in r) && (forall p :: p in r ==> p in rotation) && WireOk()
    }

    // Find this engine its next input, trying its producers round-robin.
    method SendNextInput(ghost table: map<ProducerId, ProducerInfo>)
      requires InTable(table, rotation) && WireOk()
      modifies this, rotation
      ensures View() == SendNextWorker(old(View()), old(ProducerViews(table)))
      ensures ProducerViews(table) == SendNextProducers(old(View()), old(ProducerViews(table)))
      ensures forall p :: p in rotation <==> p in old(rotation)
      ensures WireOk()
    {
      ghost var w, ps, r := View(), ProducerViews(table), rotation;
      var n := |rotation|;
      var i := 0;
      SearchStarts(table, r, w, ps);
      while i < n
        invariant 0 <= i <= n == |r|
        invariant Searching(table, r, w, ps, i)
      {
        hide Searching, Found;
        var served := TryNext(table, r, w, ps, i);
        i := i + 1;
        if served {
          assert Found(table, r, w, ps);
          FoundMeans(table, r, w, ps);
          return;
        }
      }
      assert rotation == r && View() == w;
      ClearCurrent();
      NoneServed(w, ps);
    }

    lemma SearchStarts(table: map<ProducerId, ProducerInfo>, r: seq<ProducerInfo>, w: Worker, ps: Producers)
      requires r == rotation && w == View() && ps == ProducerViews(table) && WireOk()
      ensures Searching(table, r, w, ps, 0)
    {
      NoneReadyYet(w, ps);
    }

    lemma FoundMeans(table: map<ProducerId, ProducerInfo>, r: seq<ProducerInfo>, w: Worker, ps: Producers)
      requires Found(table, r, w, ps)
      ensures View() == SendNextWorker(w, ps) && ProducerViews(table) == SendNextProducers(w, ps)
      ensures (forall p :: p in rotation <==> p in r) && WireOk()
    {
    }
  }

  function Shift(r: seq<ProducerInfo>): seq<ProducerInfo>
    requires r != []
  {
    r[1..] + [r[0]]
  }

  // Changing one producer of the table changes one entry of its value.
  lemma OneChanged(ps: Producers, ps': Producers, pid: ProducerId)
    requires pid in ps && ps'.Keys == ps.Keys
    requires forall id :: id in ps && id != pid ==> ps'[id] == ps[id]
    ensures ps' == ps[pid := ps'[pid]]
  {
  }

  // Whether a producer is ready has nothing to do with the order of the rotation.
  lemma ReadyAnyOrder(w: Worker, rotation: seq<ProducerId>, ps: Producers, pid: ProducerId)
    ensures Ready(w.(rotation := rotation), ps, pid) <==> Ready(w, ps, pid)
    ensures pid in ps ==> (Ready(w, ps, pid) <==>
      CanDequeue(ps[pid]) || CanCatchUp(w.(rotation := rotation), pid, ps[pid]))
  {
  }

  // One more attempt of a search: either it ends there, or one more producer is ruled out.
  lemma NextAttempt(w: Worker, ps: Producers, r: seq<ProducerInfo>, i: nat)
    requires w.rotation == Ids(r) && i < |r| && NoneReady(w, ps, i)
    ensures var s := r[i..] + r[..i];
      var front := Shift(s);
      var pid := front[0].producerId;
      && front == r[i + 1..] + r[..i + 1]
      && (forall p :: p in front ==> p in r) && (forall p :: p in r ==> p in front)
      && (Ready(w.(rotation := Ids(s)), ps, pid) <==> Ready(w, ps, pid))
      && (Ready(w, ps, pid) ==>
            && pid in ps && (CanDequeue(ps[pid]) || CanCatchUp(w.(rotation := Ids(front)), pid, ps[pid]))
            && SendNextWorker(w, ps) == ServeWorker(w.(rotation := Ids(front)), ps[pid], pid)
            && SendNextProducers(w, ps) == ps[pid := ServeProducer(ps[pid])])
      && (!Ready(w, ps, pid) ==> NoneReady(w, ps, i + 1))
  {
    hide Ready, NoneReady, ServeWorker, ServeProducer, SendNextWorker, SendNextProducers, Tried, Rotated;
    IdsRotated(r, i + 1);
    FrontRotated(r, i);
    var pid := Tried(w.rotation, i + 1);
    ReadyAnyOrder(w, Ids(r[i..] + r[..i]), ps, pid);
    ReadyAnyOrder(w, Ids(r[i + 1..] + r[..i + 1]), ps, pid);
    if Ready(w, ps, pid) {
      ReadyInTable(w, ps, pid);
      ServedAt(w, ps, i + 1);
    } else {
      NoneReadyStep(w, ps, i + 1);
    }
  }

  lemma ReadyInTable(w: Worker, ps: Producers, pid: ProducerId)
    requires Ready(w, ps, pid)
    ensures pid in ps
  {
  }

  lemma FrontRotated(r: seq<ProducerInfo>, k: nat)
    requires k < |r|
    ensures var front := Shift(r[k..] + r[..k]);
      front == r[k + 1..] + r[..k + 1] && front[0].producerId == Tried(Ids(r), k + 1)
  {
    assert r[..k + 1] == r[..k] + [r[k]];
  }

  lemma IdsRotated(r: seq<ProducerInfo>, k: nat)
    requires k <= |r|
    ensures Ids(r[k..] + r[..k]) == Rotated(Ids(r), k)
    ensures forall p :: p in r[k..] + r[..k] <==> p in r
  {
    assert r == r[..k] + r[k..];
  }

  function Jobs(frames: seq<Frame>): seq<Job> {
    seq(|frames|, i requires 0 <= i < |frames| => JobOf(frames[i]))
  }

  // The rotation is unchanged, or has this producer added at its end.
  ghost predicate OnlyAdds(before: seq<ProducerInfo>, p: ProducerInfo, after: seq<ProducerInfo>) {
    after == before || after == before + [p]
  }

  // Every producer of a rotation is the one the server's table has under its id.
  ghost predicate InTable(table: map<ProducerId, ProducerInfo>, rotation: seq<ProducerInfo>) {
    && (forall id :: id in table ==> table[id].producerId == id)
    && (forall p :: p in rotation ==> p.producerId in table && table[p.producerId] == p)
  }

  ghost function ProducerViews(table: map<ProducerId, ProducerInfo>): (ps: Producers)
    reads table.Values
    ensures ps.Keys == table.Keys
  {
    map id | id in table :: table[id].View()
  }

  lemma IdsMember(rotation: seq<ProducerInfo>, p: ProducerInfo)
    requires forall q :: q in rotation && q.producerId == p.producerId ==> q == p
    ensures p.producerId in Ids(rotation) <==> p in rotation
  {
    if p.producerId in Ids(rotation) {
      var i :| 0 <= i < |rotation| && Ids(rotation)[i] == p.producerId;
      assert rotation[i] in rotation;
    }
    if p in rotation {
      var i :| 0 <= i < |rotation| && rotation[i] == p;
      assert Ids(rotation)[i] == p.producerId;
    }
  }

  // The first k attempts find nothing.
  ghost predicate NoneReady(w: Worker, ps: Producers, k: nat)
    requires k <= |w.rotation|
  {
    forall i :: 1 <= i <= k ==> !Ready(w, ps, Tried(w.rotation, i))
  }

  lemma NoneReadyStep(w: Worker, ps: Producers, k: nat)
    requires 1 <= k <= |w.rotation| && NoneReady(w, ps, k - 1) && !Ready(w, ps, Tried(w.rotation, k))
    ensures NoneReady(w, ps, k)
  {
  }

  lemma NoneReadyYet(w: Worker, ps: Producers)
    ensures NoneReady(w, ps, 0)
  {
  }

  // The search stops at the first attempt that finds a ready producer.
  lemma ServedAt(w: Worker, ps: Producers, k: nat)
    requires 1 <= k <= |w.rotation| && Ready(w, ps, Tried(w.rotation, k)) && NoneReady(w, ps, k - 1)
    ensures var pid := Tried(w.rotation, k);
      && SendNextWorker(w, ps) == ServeWorker(w.(rotation := Rotated(w.rotation, k)), ps[pid], pid)
      && SendNextProducers(w, ps) == ps[pid := ServeProducer(ps[pid])]
  {
    assert FirstReady(w, ps, 1) == k;
  }

  lemma NoneServed(w: Worker, ps: Producers)
    requires NoneReady(w, ps, |w.rotation|)
    ensures SendNextWorker(w, ps) == w.(current := None) && SendNextProducers(w, ps) == ps
  {
    assert FirstReady(w, ps, 1) == |w.rotation| + 1;
  }

  ghost predicate DistinctWorkers(workers: map<Context, EngineWorker>) {
    forall c, d :: c in workers && d in workers && c != d ==> workers[c] != workers[d]
  }

  ghost function WorkerViews(workers: map<Context, EngineWorker>): (ws: Workers)
    reads workers.Values
    ensures ws.Keys == workers.Keys
  {
    map c | c in workers :: workers[c].View()
  }

  // ---------- The client-facing server ----------

  // The set of connected engine ids, one object shared by both servers.
  class EngineIdSet {
    var ids: set<EngineId>

    constructor ()
      ensures ids == {}
    {
      ids := {};
    }
  }

  class ClientServer {
    const numTokens: nat
    const engineIds: EngineIdSet
    var clients: Clients

    constructor (numTokens: nat, engineIds: EngineIdSet)
      ensures this.numTokens == numTokens && this.engineIds == engineIds && clients == map[]
    {
      this.numTokens := numTokens;
      this.engineIds := engineIds;
      clients := map[];
    }

    method OpenSession(address: Address)
      modifies this
      ensures clients == old(clients)[address := NEW_SESSION]
    {
      clients := clients[address := NEW_SESSION];
    }

    method CloseSession(address: Address)
      requires address in clients
      modifies this
      ensures clients == old(clients) - {address}
    {
      clients := clients - {address};
    }

    // Credit the producer's token account if a token goes back, and write to the control stream.
    method SendResult(address: Address, producerId: ProducerId, result: Result, returnToken: bool) returns (ok: bool)
      modifies this
      ensures clients == Sessions.SendResult(old(clients), address, producerId, result, returnToken)
      ensures ok <==> address in old(clients)
    {
      if address !in clients {
        return false;
      }
      var client := clients[address];
      if producerId in client.tokens && returnToken {
        client := client.(tokens := client.tokens[producerId := client.tokens[producerId] + 1]);
      }
      client := client.(outbox := client.outbox + [ResultWrapper(producerId, returnToken, result)]);
      clients := clients[address := client];
      return true;
    }

    // Store the client's info and acknowledge.
    method Register(address: Address, info: Blob)
      requires address in clients
      modifies this
      ensures clients == old(clients)[address :=
        Post(old(clients)[address].(clientInfo := Some(info)), Registered(numTokens, engineIds.ids))]
    {
      var client := clients[address].(clientInfo := Some(info));
      clients := clients[address := client.(outbox := client.outbox + [Registered(numTokens, engineIds.ids)])];
    }

    // The registration gate and the token check; the producer's account is opened in between.
    method CheckInput(address: Address, i: Input) returns (refusal: Option<StatusCode>)
      requires address in clients
      modifies this
      ensures var s := old(clients)[address];
        && clients == old(clients)[address := if s.clientInfo.None? then s else WithAccount(s, numTokens, i.producerId)]
        && refusal == (if s.clientInfo.None? then Some(UnspecifiedError)
                       else if TokensFor(s, numTokens, i.producerId) < 1 then Some(NoTokens)
                       else None)
    {
      var client := clients[address];
      if client.clientInfo.None? {
        return Some(UnspecifiedError);
      }
      if i.producerId !in client.tokens {
        client := client.(tokens := client.tokens[i.producerId := numTokens]);
        clients := clients[address := client];
      }
      if client.tokens[i.producerId] < 1 {
        return Some(NoTokens);
      }
      return None;
    }

    // Take the token of an accepted input, or answer a refused one, returning its token.
    method FinishInput(address: Address, i: Input, status: StatusCode)
      requires address in clients
      requires status == Success ==> i.producerId in clients[address].tokens
      modifies this
      ensures var s := old(clients)[address];
        clients == old(clients)[address :=
          if status == Success then s.(tokens := s.tokens[i.producerId := s.tokens[i.producerId] - 1])
          else Post(s, ResultWrapper(i.producerId, true, Result(status, NoPayload, "", i.frameId, None)))]
    {
      var client := clients[address];
      if status == Success {
        client := client.(tokens := client.tokens[i.producerId := client.tokens[i.producerId] - 1]);
      } else {
        client := client.(outbox := client.outbox + [ErrorResponse(i, status)]);
      }
      clients := clients[address := client];
    }

    // Tell every client which engines are connected.
    method EnginesUpdated()
      modifies this
      ensures clients == Broadcast(old(clients), engineIds.ids)
    {
      var message := EngineIdsUpdate(engineIds.ids);
      var todo := clients.Keys;
      while todo != {}
        invariant todo <= old(clients).Keys && clients.Keys == old(clients).Keys
        invariant forall a :: a in clients ==>
          clients[a] == if a in todo then old(clients)[a] else Post(old(clients)[a], message)
        decreases |todo|
      {
        var a :| a in todo;
        clients := clients[a := clients[a].(outbox := clients[a].outbox + [message])];
        todo := todo - {a};
      }
    }
  }
}
