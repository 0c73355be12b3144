/**
 The local server: one engine process behind a pipe, fed from one bounded queue.
 The communication loop and the engine process each advance between their
 suspension points; a readiness event wakes the loop and may be left over from
 an earlier result. Whatever the interleaving, the server is a first-in
 first-out line and matches every result with its own input.
 */
module LocalServer {
  import opened Protocol
  import opened Fifo
  import opened HandlerResults

  // Where the communication loop stands.
  datatype Phase =
    | Fetching                 // waiting for the input queue
    | Awaiting(frame: Frame)   // input written to the pipe, waiting for the readiness event
    | Reading(frame: Frame)    // event consumed, blocked reading the pipe

  datatype Local = Local(
    engineId: EngineId,
    maxSize: int,
    queue: seq<Frame>,
    phase: Phase,
    toEngine: seq<Frame>,
    fromEngine: seq<Result>,
    resultReady: bool,
    finished: seq<Frame>)

  function NewLocal(engineId: EngineId, maxSize: int): Local {
    Local(engineId, maxSize, [], Fetching, [], [], false, [])
  }

  // A non-positive maximum size means an unbounded queue.
  predicate Full(l: Local) {
    0 < l.maxSize <= |l.queue|
  }

  datatype LocalStep =
    | Submit(frame: Frame)
    | Fetch
    | Process(value: HandlerValue)
    | Readable
    | Wake
    | Receive

  predicate Enabled(l: Local, step: LocalStep) {
    match step
    case Submit(f) => true
    case Fetch => l.phase.Fetching? && l.queue != []
    case Process(v) => l.toEngine != []
    case Readable => l.fromEngine != []
    case Wake => l.phase.Awaiting? && l.resultReady
    case Receive => l.phase.Reading? && l.fromEngine != []
  }

  function LocalNext(l: Local, step: LocalStep): Local
    requires Enabled(l, step)
  {
    match step
    case Submit(f) => if Full(l) then l else l.(queue := l.queue + [f])
    case Fetch => l.(queue := l.queue[1..], phase := Awaiting(l.queue[0]), toEngine := l.toEngine + [l.queue[0]])
    case Process(v) =>
      var f := l.toEngine[0];
      var r := BuildResultProto(l.engineId, JobOf(f), v).result.(frameId := f.metadata.frameId);
      l.(toEngine := l.toEngine[1..], fromEngine := l.fromEngine + [r])
    case Readable => l.(resultReady := true)
    case Wake => l.(resultReady := false, phase := Reading(l.phase.frame))
    case Receive =>
      l.(fromEngine := l.fromEngine[1..], phase := Fetching, finished := l.finished + [l.phase.frame])
  }

  // What the loop hands to the client-facing server: the result read from the pipe, addressed
  // with the input the loop remembers.
  datatype Delivery = Delivery(address: Address, producerId: ProducerId, result: Result, returnToken: bool)

  function Deliveries(l: Local, step: LocalStep): seq<Delivery>
    requires Enabled(l, step)
  {
    if step.Receive? then
      var md := l.phase.frame.metadata;
      [Delivery(md.address, md.producerId, l.fromEngine[0], true)]
    else []
  }

  // ---------- The server object ----------

  class Server {
    const engineId: EngineId
    const maxSize: int
    var queue: seq<Frame>
    var phase: Phase
    var toEngine: seq<Frame>
    var fromEngine: seq<Result>
    var resultReady: bool
    ghost var finished: seq<Frame>

    ghost function View(): Local
      reads this
    {
      Local(engineId, maxSize, queue, phase, toEngine, fromEngine, resultReady, finished)
    }

    constructor (engineId: EngineId, maxSize: int)
      ensures View() == NewLocal(engineId, maxSize)
    {
      this.engineId := engineId;
      this.maxSize := maxSize;
      queue := [];
      phase := Fetching;
      toEngine := [];
      fromEngine := [];
      resultReady := false;
      finished := [];
    }

    method SendToEngine(frame: Frame) returns (status: StatusCode)
      modifies this
      ensures View() == LocalNext(old(View()), Submit(frame))
      ensures status == Success <==> maxSize <= 0 || |old(queue)| < maxSize
      ensures status == Success ==> queue == old(queue) + [frame]
      ensures status != Success ==> status == ServerDroppedFrame && queue == old(queue)
    {
      if 0 < maxSize <= |queue| {
        return ServerDroppedFrame;
      }
      queue := queue + [frame];
      status := Success;
    }

    // The loop takes the next input and writes it to the pipe.
    method FetchInput()
      requires Enabled(View(), Fetch)
      modifies this
      ensures View() == LocalNext(old(View()), Fetch)
    {
      var frame := queue[0];
      queue := queue[1..];
      toEngine := toEngine + [frame];
      phase := Awaiting(frame);
    }

    // The engine process reads one input, handles it and writes one result.
    method RunEngine(value: HandlerValue)
      requires Enabled(View(), Process(value))
      modifies this
      ensures View() == LocalNext(old(View()), Process(value))
    {
      var frame := toEngine[0];
      toEngine := toEngine[1..];
      var r := LocalResult(engineId, frame, value);
      fromEngine := fromEngine + [r];
    }

    method PipeReadable()
      requires Enabled(View(), Readable)
      modifies this
      ensures View() == LocalNext(old(View()), Readable)
    {
      resultReady := true;
    }

    method WakeUp()
      requires Enabled(View(), Wake)
      modifies this
      ensures View() == LocalNext(old(View()), Wake)
    {
      resultReady := false;
      phase := Reading(phase.frame);
    }

    method ReceiveResult() returns (d: Delivery)
      requires Enabled(View(), Receive)
      modifies this
      ensures View() == LocalNext(old(View()), Receive)
      ensures [d] == Deliveries(old(View()), Receive)
    {
      var frame := phase.frame;
      d := Delivery(frame.metadata.address, frame.metadata.producerId, fromEngine[0], true);
      fromEngine := fromEngine[1..];
      finished := finished + [frame];
      phase := Fetching;
    }
  }

  // ---------- Correlation and order ----------

  ghost predicate IsResultFor(l: Local, r: Result, f: Frame) {
    r.frameId == f.metadata.frameId && r.origin == Some(JobOf(f)) && r.engineId == l.engineId
  }

  // At most one input is in the pipe, and it is the one the loop remembers.
  ghost predicate LocalInv(l: Local) {
    match l.phase
    case Fetching => l.toEngine == [] && l.fromEngine == []
    case Awaiting(f) => InPipe(l, f)
    case Reading(f) => InPipe(l, f)
  }

  ghost predicate InPipe(l: Local, f: Frame) {
    || (l.toEngine == [f] && l.fromEngine == [])
    || (l.toEngine == [] && |l.fromEngine| == 1 && IsResultFor(l, l.fromEngine[0], f))
  }

  ghost predicate LocalRun(l: Local, steps: seq<LocalStep>)
    decreases |steps|, 0
  {
    steps == [] ||
    (LocalRun(l, steps[..|steps| - 1]) && Enabled(LocalExec(l, steps[..|steps| - 1]), steps[|steps| - 1]))
  }

  ghost function LocalExec(l: Local, steps: seq<LocalStep>): Local
    requires LocalRun(l, steps)
    decreases |steps|, 1
  {
    if steps == [] then l else LocalNext(LocalExec(l, steps[..|steps| - 1]), steps[|steps| - 1])
  }

  lemma LocalInvKept(l: Local, step: LocalStep)
    requires LocalInv(l) && Enabled(l, step)
    ensures LocalInv(LocalNext(l, step))
  {
  }

  lemma {:induction false} LocalReachable(engineId: EngineId, maxSize: int, steps: seq<LocalStep>)
    requires LocalRun(NewLocal(engineId, maxSize), steps)
    ensures LocalInv(LocalExec(NewLocal(engineId, maxSize), steps))
    ensures LocalExec(NewLocal(engineId, maxSize), steps).engineId == engineId
    decreases |steps|
  {
    if steps != [] {
      var before := steps[..|steps| - 1];
      LocalReachable(engineId, maxSize, before);
      LocalInvKept(LocalExec(NewLocal(engineId, maxSize), before), steps[|steps| - 1]);
    }
  }

  function LineOf(l: Local): Line {
    Line((if l.phase.Fetching? then [] else [l.phase.frame]) + l.queue, l.finished)
  }

  function LocalAdmitted(l: Local, step: LocalStep): Option<Frame> {
    if step.Submit? && !Full(l) then Some(step.frame) else None
  }

  function ReplyOf(d: Delivery): Reply {
    Reply(d.address, d.producerId, d.result.frameId, d.returnToken)
  }

  function RepliesOf(ds: seq<Delivery>): seq<Reply> {
    if ds == [] then [] else [ReplyOf(ds[0])] + RepliesOf(ds[1..])
  }

  // Every step of the local server is a move of its line, for all producers together, and every
  // result handed on is the engine's output for the input at the head of the line.
  lemma LocalRefinesFifo(engineId: EngineId, maxSize: int, steps: seq<LocalStep>, step: LocalStep)
    requires LocalRun(NewLocal(engineId, maxSize), steps + [step])
    ensures LocalRun(NewLocal(engineId, maxSize), steps)
    ensures var l := LocalExec(NewLocal(engineId, maxSize), steps);
      && Enabled(l, step)
      && Moves(LineOf(l), LocalAdmitted(l, step), RepliesOf(Deliveries(l, step)), LineOf(LocalNext(l, step)))
      && (step.Receive? ==> Finishes(LineOf(l), LineOf(LocalNext(l, step))))
      && (forall d :: d in Deliveries(l, step) ==>
            d.result.origin == Some(JobOf(LineOf(l).waiting[0])) && d.result.engineId == engineId)
    ensures LineOf(NewLocal(engineId, maxSize)) == EMPTY_LINE
  {
    assert (steps + [step])[..|steps|] == steps;
    LocalReachable(engineId, maxSize, steps);
    var l := LocalExec(NewLocal(engineId, maxSize), steps);
    LocalStepMoves(l, step);
  }

  lemma LocalStepMoves(l: Local, step: LocalStep)
    requires LocalInv(l) && Enabled(l, step)
    ensures Moves(LineOf(l), LocalAdmitted(l, step), RepliesOf(Deliveries(l, step)), LineOf(LocalNext(l, step)))
    ensures step.Receive? ==>
      Finishes(LineOf(l), LineOf(LocalNext(l, step))) && IsResultFor(l, l.fromEngine[0], LineOf(l).waiting[0])
  {
    var l' := LocalNext(l, step);
    match step
    case Submit(f) =>
      if !Full(l) {
        assert LineOf(l').waiting == LineOf(l).waiting + [f];
      }
    case Fetch => assert l.queue == [l.queue[0]] + l.queue[1..];
    case Process(v) =>
    case Readable =>
    case Wake =>
    case Receive =>
      assert Deliveries(l, step)[1..] == [];
      assert LineOf(l).waiting == [l.phase.frame] + l.queue;
  }

  // ---------- Admission and results ----------

  // An input is admitted exactly when the queue is unbounded or has room, and goes to its end.
  lemma AdmittedExactlyWhen(l: Local, f: Frame)
    ensures LocalAdmitted(l, Submit(f)) == Some(f) <==> l.maxSize <= 0 || |l.queue| < l.maxSize
    ensures LocalNext(l, Submit(f)).queue ==
            l.queue + if l.maxSize <= 0 || |l.queue| < l.maxSize then [f] else []
  {
  }

  // In every run a bounded queue holds at most its maximum.
  lemma {:induction false} QueueBounded(engineId: EngineId, maxSize: int, steps: seq<LocalStep>)
    requires LocalRun(NewLocal(engineId, maxSize), steps)
    ensures var l := LocalExec(NewLocal(engineId, maxSize), steps);
      l.maxSize == maxSize && (0 < maxSize ==> |l.queue| <= maxSize)
    decreases |steps|
  {
    if steps != [] {
      QueueBounded(engineId, maxSize, steps[..|steps| - 1]);
    }
  }

  function Count(steps: seq<LocalStep>, step: LocalStep): nat {
    multiset(steps)[step]
  }

  // In every run, the loop wakes up at most once for each time the pipe was found readable.
  lemma {:induction false} WakesOncePerSignal(engineId: EngineId, maxSize: int, steps: seq<LocalStep>)
    requires LocalRun(NewLocal(engineId, maxSize), steps)
    ensures var l := LocalExec(NewLocal(engineId, maxSize), steps);
      Count(steps, Wake) + (if l.resultReady then 1 else 0) <= Count(steps, Readable)
    decreases |steps|
  {
    if steps != [] {
      WakesOncePerSignal(engineId, maxSize, steps[..|steps| - 1]);
      assert steps == steps[..|steps| - 1] + [steps[|steps| - 1]];
    }
  }

  // In this run the engine read this input, and the value its handler returned has the result's
  // status and payload.
  ghost predicate Handled(l: Local, steps: seq<LocalStep>, f: Frame, r: Result)
    requires LocalRun(l, steps)
    decreases |steps|
  {
    steps != [] &&
    var before, step := steps[..|steps| - 1], steps[|steps| - 1];
    || Handled(l, before, f, r)
    || (step.Process? && LocalExec(l, before).toEngine[0] == f && Reports(step.value, r.code, r.payload))
  }

  lemma {:induction false} PipeHandled(engineId: EngineId, maxSize: int, steps: seq<LocalStep>)
    requires LocalRun(NewLocal(engineId, maxSize), steps)
    requires LocalExec(NewLocal(engineId, maxSize), steps).fromEngine != []
    ensures var l := LocalExec(NewLocal(engineId, maxSize), steps);
      !l.phase.Fetching? && Handled(NewLocal(engineId, maxSize), steps, l.phase.frame, l.fromEngine[0])
    decreases |steps|
  {
    LocalReachable(engineId, maxSize, steps);
    var before, step := steps[..|steps| - 1], steps[|steps| - 1];
    LocalReachable(engineId, maxSize, before);
    var l := LocalExec(NewLocal(engineId, maxSize), before);
    if l.fromEngine != [] {
      PipeHandled(engineId, maxSize, before);
    }
  }

  // In every run, a result handed on has status and payload of the value the handler returned for
  // the input it is addressed with, and was computed from that input's payload and client info.
  lemma DeliveredAsHandled(engineId: EngineId, maxSize: int, steps: seq<LocalStep>)
    requires LocalRun(NewLocal(engineId, maxSize), steps)
    requires Enabled(LocalExec(NewLocal(engineId, maxSize), steps), Receive)
    ensures var l := LocalExec(NewLocal(engineId, maxSize), steps);
      var f, d := l.phase.frame, Deliveries(l, Receive)[0];
      && Handled(NewLocal(engineId, maxSize), steps, f, d.result)
      && d.address == f.metadata.address && d.producerId == f.metadata.producerId && d.returnToken
      && d.result.frameId == f.metadata.frameId && d.result.engineId == engineId
      && d.result.origin == Some(Job(f.payload, f.metadata.clientInfo))
  {
    hide Handled;
    LocalReachable(engineId, maxSize, steps);
    PipeHandled(engineId, maxSize, steps);
  }

  // The same line, seen by one producer: the specification the network scheduler meets too.
  lemma LocalRefinesFifoPerProducer(engineId: EngineId, maxSize: int, steps: seq<LocalStep>, step: LocalStep,
                                    pid: ProducerId)
    requires LocalRun(NewLocal(engineId, maxSize), steps + [step])
    ensures LocalRun(NewLocal(engineId, maxSize), steps)
    ensures var l := LocalExec(NewLocal(engineId, maxSize), steps);
      && Enabled(l, step)
      && Moves(ShareOfLine(LineOf(l), pid), ShareOfAdmitted(LocalAdmitted(l, step), pid),
               ShareOfReplies(RepliesOf(Deliveries(l, step)), pid), ShareOfLine(LineOf(LocalNext(l, step)), pid))
  {
    LocalRefinesFifo(engineId, maxSize, steps, step);
    var l := LocalExec(NewLocal(engineId, maxSize), steps);
    ShareMoves(LineOf(l), LocalAdmitted(l, step), RepliesOf(Deliveries(l, step)), LineOf(LocalNext(l, step)), pid);
  }
}
