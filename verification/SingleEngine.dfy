/**
 With one engine that stays connected, the network scheduler is a first-in
 first-out line for every producer, however many producers share the engine.
 */
module SingleEngine {
  import opened Protocol
  import opened Scheduler
  import opened Invariant
  import opened Guarantees
  import opened Stranding
  import opened Fifo

  // At most one engine ever connects, and it never leaves.
  ghost predicate Solo(st: State, step: Step) {
    match step
    case OnConnect(c, id, all) => st.workers == map[]
    case OnDisconnect(c) => c !in st.workers
    case _ => true
  }

  ghost predicate SoloRun(st: State, steps: seq<Step>)
    decreases |steps|
  {
    steps == [] ||
    (SoloRun(st, steps[..|steps| - 1]) && Solo(Exec(st, steps[..|steps| - 1]), steps[|steps| - 1]))
  }

  // One producer's line: its in-flight frame, then its queue; finished are the returned frames.
  function LineOf(p: Producer): Line {
    Line(InFlight(p) + p.queue, p.returned)
  }

  function LineAt(st: State, pid: ProducerId): Line {
    if pid in st.producers then LineOf(st.producers[pid]) else EMPTY_LINE
  }

  // Results sent to clients for one producer by one handler.
  function RepliesFor(effects: seq<Effect>, pid: ProducerId): seq<Reply> {
    if effects == [] then []
    else
      var e := effects[0];
      (if e.Send? && e.producerId == pid then [Reply(e.address, pid, e.result.frameId, e.returnToken)] else [])
      + RepliesFor(effects[1..], pid)
  }

  // The engine is up to date with every producer.
  ghost predicate CaughtUp(w: Worker, ps: Producers) {
    forall pid :: pid in ps && ps[pid].latest.Some?
      ==> pid in w.last && w.last[pid] == ps[pid].latest.value.metadata
  }

  // What it works on awaits its token, and it rests only when nothing waits.
  ghost predicate InStep(w: Worker, ps: Producers) {
    && CaughtUp(w, ps)
    && (w.current.Some? ==> w.current.value.producerId in ps
                            && AwaitsToken(ps[w.current.value.producerId], w.current.value))
    && (w.current.None? ==> forall pid :: pid in ps ==> ps[pid].queue == [])
  }

  ghost predicate SoloInv(st: State) {
    && Inv(st)
    && AllAttended(st)
    && (forall c, d :: c in st.workers && d in st.workers ==> c == d)
    && (forall c :: c in st.workers ==> InStep(st.workers[c], st.producers))
    && (st.workers == map[] ==> forall pid :: pid in st.producers ==>
          st.producers[pid].latest.None? && st.producers[pid].queue == [])
  }

  // With a single engine, a pending token is held by that engine.
  lemma PendingIsCurrent(st: State, c: Context, pid: ProducerId)
    requires SoloInv(st) && c in st.workers && pid in st.producers && st.producers[pid].pending
    ensures st.producers[pid].latest.Some?
    ensures st.workers[c].current == Some(st.producers[pid].latest.value.metadata)
    ensures st.workers[c].current.value.producerId == pid
  {
    hide Inv, AllAttended, InStep;
    var d := Holder(st, pid);
  }

  lemma SoloInStep(st: State, c: Context)
    requires SoloInv(st) && c in st.workers
    ensures InStep(st.workers[c], st.producers) && WorkerOk(st.workers[c])
  {
    hide AllOk, AllHeld, IdsOk, Fits, WorkerOk, InStep;
  }

  // ---------- Inputs ----------

  lemma TargetIsSolo(st: State, f: Frame, c: Context)
    requires SoloInv(st) && c in st.workers
    ensures HasTarget(st.workers, f) <==> Targets(f, st.workers[c])
    ensures HasIdleTarget(st.workers, f) <==> Targets(f, st.workers[c]) && st.workers[c].current.None?
    ensures OfferAll(st.workers, f) == if Targets(f, st.workers[c]) then st.workers[c := Offer(st.workers[c], f)]
                                       else st.workers
  {
    hide Inv, AllAttended, InStep, Offer;
  }

  lemma NewProducerInStep(w: Worker, ps: Producers, pid: ProducerId)
    requires InStep(w, ps)
    ensures InStep(w, WithProducer(ps, pid))
  {
  }

  lemma OfferIdleInStep(w: Worker, ps: Producers, f: Frame)
    requires InStep(w, ps) && w.current.None? && f.metadata.producerId in ps
    ensures InStep(Offer(w, f), ps[f.metadata.producerId := Dispatch(ps[f.metadata.producerId], f)])
  {
  }

  lemma OfferBusyInStep(w: Worker, ps: Producers, f: Frame)
    requires InStep(w, ps) && w.current.Some? && f.metadata.producerId in ps
    ensures InStep(Offer(w, f), ps)
    ensures InStep(Offer(w, f), ps[f.metadata.producerId := Enqueue(ps[f.metadata.producerId], f)])
  {
  }

  lemma InputSoloInStep(st: State, f: Frame, c: Context)
    requires SoloInv(st) && c in st.workers
    ensures c in ClientInput(st, f).workers
    ensures InStep(ClientInput(st, f).workers[c], ClientInput(st, f).producers)
  {
    hide SoloInv, InStep, Offer, Dispatch, Enqueue, WorkerOk;
    TargetIsSolo(st, f, c);
    SoloInStep(st, c);
    var w, pid := st.workers[c], f.metadata.producerId;
    var ps := WithProducer(st.producers, pid);
    NewProducerInStep(w, st.producers, pid);
    if w.current.Some? {
      OfferBusyInStep(w, ps, f);
    } else {
      OfferIdleInStep(w, ps, f);
    }
  }

  lemma DispatchJoins(p: Producer, f: Frame)
    requires !p.pending && p.queue == []
    ensures Accepts(LineOf(p), f, LineOf(Dispatch(p, f)))
  {
  }

  lemma EnqueueJoins(p: Producer, f: Frame)
    ensures Accepts(LineOf(p), f, LineOf(Enqueue(p, f)))
  {
    assert InFlight(p) + (p.queue + [f]) == InFlight(p) + p.queue + [f];
  }

  // An idle engine has nothing in line.
  lemma IdleMeansEmptyLine(st: State, c: Context, pid: ProducerId)
    requires SoloInv(st) && c in st.workers && st.workers[c].current.None? && pid in st.producers
    ensures !st.producers[pid].pending && st.producers[pid].queue == []
  {
    SoloInStep(st, c);
    if st.producers[pid].pending {
      PendingIsCurrent(st, c, pid);
    }
  }

  // An accepted input joins the end of its producer's line.
  lemma AcceptedJoins(st: State, f: Frame)
    requires SoloInv(st) && InputStatus(st, f) == Success
    ensures Accepts(LineAt(st, f.metadata.producerId), f, LineAt(ClientInput(st, f), f.metadata.producerId))
  {
    hide SoloInv, LineOf, Accepts, Dispatch, Enqueue, OfferAll;
    var pid := f.metadata.producerId;
    var p := WithProducer(st.producers, pid)[pid];
    assert LineOf(NEW_PRODUCER) == EMPTY_LINE by {
      NewLine();
    }
    assert LineAt(st, pid) == LineOf(p);
    if HasIdleTarget(st.workers, f) {
      var c :| c in st.workers && Targets(f, st.workers[c]) && st.workers[c].current.None?;
      if pid in st.producers {
        IdleMeansEmptyLine(st, c, pid);
      }
      DispatchJoins(p, f);
    } else {
      EnqueueJoins(p, f);
    }
  }

  lemma NewLine()
    ensures LineOf(NEW_PRODUCER) == EMPTY_LINE
  {
  }

  lemma RefusedKeepsLine(st: State, f: Frame, pid: ProducerId)
    requires pid != f.metadata.producerId || InputStatus(st, f) != Success
    ensures LineAt(ClientInput(st, f), pid) == LineAt(st, pid)
  {
  }

  lemma InputMoves(st: State, f: Frame, pid: ProducerId)
    requires SoloInv(st)
    ensures Moves(LineAt(st, pid), Admitted(st, OnInput(f), pid), [], LineAt(ClientInput(st, f), pid))
  {
    hide SoloInv, ClientInput, InputStatus, LineAt, Accepts;
    if pid == f.metadata.producerId && InputStatus(st, f) == Success {
      AcceptedJoins(st, f);
    } else {
      RefusedKeepsLine(st, f, pid);
    }
  }

  lemma InputWithoutEngine(st: State, f: Frame)
    requires st.workers == map[]
    ensures ClientInput(st, f) == st.(producers := WithProducer(st.producers, f.metadata.producerId))
  {
  }

  lemma InputKeys(st: State, f: Frame)
    ensures ClientInput(st, f).workers.Keys == st.workers.Keys
  {
  }

  lemma InputSolo(st: State, f: Frame)
    requires SoloInv(st) && Legal(st, OnInput(f))
    ensures SoloInv(ClientInput(st, f))
  {
    hide Inv, AllAttended, InStep, ClientInput;
    InputKeeps(st, f);
    AttendedKept(st, OnInput(f));
    InputKeys(st, f);
    var st' := ClientInput(st, f);
    forall c | c in st'.workers
      ensures InStep(st'.workers[c], st'.producers)
    {
      InputSoloInStep(st, f, c);
    }
    if st'.workers == map[] {
      assert st.workers.Keys == {};
      InputWithoutEngine(st, f);
    }
  }

  // ---------- Answers ----------

  // After the claim nobody's token is pending any more.
  lemma ClaimedSolo(st: State, c: Context)
    requires SoloInv(st) && c in st.workers && st.workers[c].current.Some?
    ensures Answers(st, c) && Claims(st, c)
    ensures forall q :: q in AfterClaim(st, c) ==> !AfterClaim(st, c)[q].pending
  {
    SoloInStep(st, c);
    forall q | q in AfterClaim(st, c)
      ensures !AfterClaim(st, c)[q].pending
    {
      if st.producers[q].pending {
        PendingIsCurrent(st, c, q);
      }
    }
  }

  // The engine never needs to catch up, so all it ever takes next is a queued frame.
  lemma OnlyQueuesAreReady(st: State, c: Context, q: ProducerId)
    requires SoloInv(st) && c in st.workers && st.workers[c].current.Some? && Answers(st, c)
    requires Ready(Logged(st, c), AfterClaim(st, c), q)
    ensures q in st.producers && CanDequeue(AfterClaim(st, c)[q])
  {
    SoloInStep(st, c);
  }

  // Choosing the next frame does not change any producer's line.
  lemma SearchKeepsLines(st: State, c: Context, pid: ProducerId)
    requires SoloInv(st) && Answers(st, c)
    ensures LineAt(EngineResult(st, c), pid) == LineAt(st.(producers := AfterClaim(st, c)), pid)
  {
    hide SoloInv, FirstReady, SendNextWorker, SendNextProducers, LineOf;
    var ps, w := AfterClaim(st, c), Logged(st, c);
    var k, q := SendNextCases(w, ps);
    if k <= |w.rotation| {
      OnlyQueuesAreReady(st, c, q);
      LineAfterDequeue(ps[q]);
    }
  }

  lemma ClaimMoves(st: State, c: Context, r: Result, pid: ProducerId)
    requires SoloInv(st) && Answers(st, c)
    ensures Moves(LineAt(st, pid), None, RepliesFor(EngineResultEffects(st, c, r), pid),
                  LineAt(st.(producers := AfterClaim(st, c)), pid))
    ensures st.workers[c].current.value.producerId == pid ==>
      Finishes(LineAt(st, pid), LineAt(st.(producers := AfterClaim(st, c)), pid))
  {
    hide SoloInv, LineOf, Accepts, Finishes, Claim;
    ClaimedSolo(st, c);
    var md := st.workers[c].current.value;
    var effects := EngineResultEffects(st, c, r);
    assert effects == [Send(md.address, md.producerId, r.(frameId := md.frameId), true)];
    assert effects[1..] == [];
    if pid == md.producerId {
      LineAfterClaim(st.producers[pid], md);
      assert RepliesFor(effects, pid) == [TokenFor(LineOf(st.producers[pid]).waiting[0])];
    } else {
      assert RepliesFor(effects, pid) == [];
    }
  }

  lemma ResultMoves(st: State, c: Context, r: Result, pid: ProducerId)
    requires SoloInv(st)
    ensures Moves(LineAt(st, pid), None, RepliesFor(EngineResultEffects(st, c, r), pid),
                  LineAt(EngineResult(st, c), pid))
    ensures Answers(st, c) && st.workers[c].current.value.producerId == pid ==>
      Finishes(LineAt(st, pid), LineAt(EngineResult(st, c), pid))
  {
    if Answers(st, c) {
      hide SoloInv, EngineResult, EngineResultEffects, LineAt, Moves, Finishes;
      ClaimMoves(st, c, r, pid);
      SearchKeepsLines(st, c, pid);
    }
  }

  lemma LineAfterDequeue(p: Producer)
    requires CanDequeue(p)
    ensures LineOf(Dequeue(p)) == LineOf(p)
  {
  }

  lemma LineAfterClaim(p: Producer, md: Metadata)
    requires AwaitsToken(p, md)
    ensures LineOf(p).waiting != [] && LineOf(p).waiting[0].metadata == md
    ensures Finishes(LineOf(p), LineOf(Claim(p)))
  {
  }

  lemma ClaimCaughtUp(st: State, c: Context)
    requires SoloInv(st) && Answers(st, c)
    ensures CaughtUp(Logged(st, c), AfterClaim(st, c))
  {
    SoloInStep(st, c);
    hide SoloInv, WorkerOk;
    var ps, w := AfterClaim(st, c), st.workers[c];
    forall pid | pid in ps && ps[pid].latest.Some?
      ensures pid in w.last && w.last[pid] == ps[pid].latest.value.metadata
    {
      assert st.producers[pid].latest == ps[pid].latest;
    }
  }

  lemma DequeueInStep(w: Worker, ps: Producers, q: ProducerId)
    requires CaughtUp(w, ps) && q in ps && CanDequeue(ps[q]) && ps[q].queue[0].metadata.producerId == q
    ensures InStep(SendPayload(w, ps[q].queue[0]), ps[q := Dequeue(ps[q])])
  {
  }

  lemma ResultSoloInStep(st: State, c: Context)
    requires SoloInv(st) && Answers(st, c)
    ensures c in EngineResult(st, c).workers
    ensures InStep(EngineResult(st, c).workers[c], EngineResult(st, c).producers)
  {
    hide SoloInv, FirstReady, SendNextWorker, SendNextProducers, InStep, CaughtUp, SendPayload;
    ClaimedSolo(st, c);
    ClaimCaughtUp(st, c);
    var ps, w := AfterClaim(st, c), Logged(st, c);
    var k, q := SendNextCases(w, ps);
    if k <= |w.rotation| {
      OnlyQueuesAreReady(st, c, q);
      QueuedIsOwn(st, q);
      var v := w.(rotation := Rotated(w.rotation, k));
      RotatedCaughtUp(w, k, ps);
      DequeueInStep(v, ps, q);
    } else {
      forall pid | pid in ps
        ensures ps[pid].queue == []
      {
        if ps[pid].queue != [] {
          SoloAttends(st, c, pid);
          assert false;
        }
      }
      IdleInStep(w, ps);
    }
  }

  lemma RotatedCaughtUp(w: Worker, k: nat, ps: Producers)
    requires CaughtUp(w, ps) && k <= |w.rotation|
    ensures CaughtUp(w.(rotation := Rotated(w.rotation, k)), ps)
  {
  }

  lemma IdleInStep(w: Worker, ps: Producers)
    requires CaughtUp(w, ps) && forall pid :: pid in ps ==> ps[pid].queue == []
    ensures InStep(w.(current := None), ps)
  {
  }

  lemma QueuedIsOwn(st: State, q: ProducerId)
    requires SoloInv(st) && q in st.producers && st.producers[q].queue != []
    ensures st.producers[q].queue[0].metadata.producerId == q
  {
    hide AllFit, AllHeld, IdsOk, AllAttended, InStep;
    assert ProducerOk(q, st.producers[q]);
    QueuedIsAccepted(q, st.producers[q], st.producers[q].queue[0]);
  }

  lemma SoloAttends(st: State, c: Context, pid: ProducerId)
    requires SoloInv(st) && c in st.workers && pid in st.producers && st.producers[pid].queue != []
    ensures pid in st.workers[c].rotation
  {
    hide Inv, InStep;
    assert Attended(st, pid);
    var d :| Serves(st.workers, d, pid);
  }

  lemma ResultSolo(st: State, c: Context)
    requires SoloInv(st)
    ensures SoloInv(EngineResult(st, c))
  {
    hide Inv, AllAttended, InStep, SendNextWorker, SendNextProducers;
    ResultKeeps(st, c);
    AttendedKept(st, OnResult(c, Result(Success, NoPayload, "", 0, None)));
    if Answers(st, c) {
      ResultSoloInStep(st, c);
    }
  }

  // ---------- Refinement ----------

  lemma ConnectSolo(st: State, c: Context, id: EngineId, all: bool)
    requires SoloInv(st) && st.workers == map[]
    ensures SoloInv(Connect(st, c, id, all)) && Connect(st, c, id, all).producers == st.producers
  {
    hide AllOk, AllFit, AllHeld, AllAttended;
    assert st.engineIds == {};
    ConnectKeeps(st, c, id, all);
    AttendedKept(st, OnConnect(c, id, all));
  }

  lemma SoloKept(st: State, step: Step)
    requires SoloInv(st) && Legal(st, step) && Solo(st, step)
    ensures SoloInv(Next(st, step))
  {
    hide SoloInv, ClientInput, EngineResult, Connect;
    match step
    case OnInput(f) => InputSolo(st, f);
    case OnResult(c, r) => ResultSolo(st, c);
    case OnConnect(c, id, all) => ConnectSolo(st, c, id, all);
    case OnDisconnect(c) =>
  }

  // The step is the engine's answer to a frame of this producer.
  predicate Completes(st: State, step: Step, pid: ProducerId) {
    step.OnResult? && Answers(st, step.context) && st.workers[step.context].current.value.producerId == pid
  }

  lemma StepMoves(st: State, step: Step, pid: ProducerId)
    requires SoloInv(st) && Solo(st, step)
    ensures Moves(LineAt(st, pid), Admitted(st, step, pid), RepliesFor(Effects(st, step), pid),
                  LineAt(Next(st, step), pid))
    ensures Completes(st, step, pid) ==> Finishes(LineAt(st, pid), LineAt(Next(st, step), pid))
  {
    hide SoloInv, ClientInput, EngineResult, EngineResultEffects, Connect;
    match step
    case OnInput(f) => InputMoves(st, f, pid);
    case OnResult(c, r) => ResultMoves(st, c, r, pid);
    case OnConnect(c, id, all) =>
      ConnectSolo(st, c, id, all);
      assert ConnectEffects(st, id)[1..] == [];
    case OnDisconnect(c) =>
  }

  lemma {:induction false} SoloReachable(capacity: nat, steps: seq<Step>)
    requires LegalRun(Init(capacity), steps) && SoloRun(Init(capacity), steps)
    ensures SoloInv(Exec(Init(capacity), steps))
    decreases |steps|
  {
    if steps != [] {
      SoloReachable(capacity, steps[..|steps| - 1]);
      SoloKept(Exec(Init(capacity), steps[..|steps| - 1]), steps[|steps| - 1]);
    }
  }

  // Every step of a one-engine run is a move of every producer's line: it admits exactly the
  // accepted input, and each answer finishes the head of the line with one result and one token.
  lemma NetworkRefinesFifo(capacity: nat, steps: seq<Step>, step: Step, pid: ProducerId)
    requires LegalRun(Init(capacity), steps + [step]) && SoloRun(Init(capacity), steps + [step])
    ensures var st := Exec(Init(capacity), steps);
      && Moves(LineAt(st, pid), Admitted(st, step, pid), RepliesFor(Effects(st, step), pid),
               LineAt(Exec(Init(capacity), steps + [step]), pid))
      && (Completes(st, step, pid) ==> Finishes(LineAt(st, pid), LineAt(Exec(Init(capacity), steps + [step]), pid)))
    ensures LineAt(Init(capacity), pid) == EMPTY_LINE
  {
    assert (steps + [step])[..|steps|] == steps;
    SoloReachable(capacity, steps);
    StepMoves(Exec(Init(capacity), steps), step, pid);
  }

  lemma MoveKeepsOrder(l: Line, admitted: Option<Frame>, replies: seq<Reply>, l': Line)
    requires Moves(l, admitted, replies, l')
    ensures l'.finished + l'.waiting == l.finished + l.waiting + AsSeq(admitted)
  {
  }

  // In a one-engine run every producer's frames are finished in the order they were accepted,
  // and none is overtaken, skipped or lost.
  lemma {:induction false} AcceptanceOrder(capacity: nat, steps: seq<Step>, pid: ProducerId)
    requires LegalRun(Init(capacity), steps) && SoloRun(Init(capacity), steps)
    requires pid in Exec(Init(capacity), steps).producers
    ensures var p := Exec(Init(capacity), steps).producers[pid];
      p.accepted == p.returned + InFlight(p) + p.queue
  {
    LineHoldsAccepted(capacity, steps, pid);
    var p := Exec(Init(capacity), steps).producers[pid];
    assert p.returned + (InFlight(p) + p.queue) == p.returned + InFlight(p) + p.queue;
  }

  lemma {:induction false} LineHoldsAccepted(capacity: nat, steps: seq<Step>, pid: ProducerId)
    requires LegalRun(Init(capacity), steps) && SoloRun(Init(capacity), steps)
    ensures var l := LineAt(Exec(Init(capacity), steps), pid);
      AcceptedOf(Exec(Init(capacity), steps), pid) == l.finished + l.waiting
    decreases |steps|
  {
    if steps != [] {
      hide SoloInv, LineAt, Next, Moves;
      var before, step := steps[..|steps| - 1], steps[|steps| - 1];
      var st := Exec(Init(capacity), before);
      LineHoldsAccepted(capacity, before, pid);
      SoloReachable(capacity, before);
      StepMoves(st, step, pid);
      AcceptedGrows(st, step, pid);
      MoveKeepsOrder(LineAt(st, pid), Admitted(st, step, pid), RepliesFor(Effects(st, step), pid),
                     LineAt(Next(st, step), pid));
    }
  }
}
