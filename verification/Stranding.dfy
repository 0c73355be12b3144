/**
 Queued frames left behind. A queued frame moves on only when some busy engine
 that serves its producer finishes. Without engine removal there always is one; a
 removal breaks this exactly when it takes away the last one. A queue without one
 stays as it is, over any run, until an input of its own producer finds a target or
 an input sets an idle engine to work that serves the producer; then it has one.
 */
module Stranding {
  import opened Protocol
  import opened Scheduler
  import opened Invariant
  import opened Guarantees

  ghost predicate Serves(workers: Workers, c: Context, pid: ProducerId) {
    c in workers && workers[c].current.Some? && pid in workers[c].rotation
  }

  // A non-empty queue has a busy engine that will look at it.
  ghost predicate Attended(st: State, pid: ProducerId) {
    pid in st.producers && st.producers[pid].queue != [] ==> exists c :: Serves(st.workers, c, pid)
  }

  ghost predicate AllAttended(st: State) {
    forall pid :: pid in st.producers ==> Attended(st, pid)
  }

  // The step takes a connected engine away.
  ghost predicate Removes(st: State, step: Step) {
    match step
    case OnDisconnect(c) => c in st.workers
    case OnConnect(c, id, all) => id in st.engineIds
    case _ => false
  }

  // A pending token is held by an engine that serves the producer.
  lemma PendingIsServed(st: State, pid: ProducerId) returns (c: Context)
    requires Inv(st) && pid in st.producers && st.producers[pid].pending
    ensures Serves(st.workers, c, pid) && Holds(st.workers, c, st.producers[pid].latest.value.metadata)
  {
    hide AllOk, AllHeld, IdsOk, Fits;
    c := Holder(st, pid);
    assert WorkerOk(st.workers[c]);
  }

  lemma OfferAllServes(workers: Workers, f: Frame, c: Context, pid: ProducerId)
    requires Serves(workers, c, pid)
    ensures Serves(OfferAll(workers, f), c, pid)
  {
  }

  // Any accepted input leaves its producer attended, even one that was stranded before.
  lemma AcceptedInputAttends(st: State, f: Frame)
    requires InputStatus(st, f) == Success
    ensures Attended(ClientInput(st, f), f.metadata.producerId)
  {
    var st' := ClientInput(st, f);
    var c :| c in st.workers && Targets(f, st.workers[c]);
    assert Serves(st'.workers, c, f.metadata.producerId);
  }

  lemma InputAttends(st: State, f: Frame, pid: ProducerId)
    requires pid in st.producers ==> Attended(st, pid)
    ensures Attended(ClientInput(st, f), pid)
  {
    hide InputStatus;
    var st' := ClientInput(st, f);
    if pid == f.metadata.producerId && InputStatus(st, f) == Success {
      AcceptedInputAttends(st, f);
    } else if pid in st'.producers && st'.producers[pid].queue != [] {
      InputQueue(st, f, pid);
      var c :| Serves(st.workers, c, pid);
      OfferAllServes(st.workers, f, c, pid);
      assert Serves(st'.workers, c, pid);
    }
  }

  lemma InputQueue(st: State, f: Frame, pid: ProducerId)
    requires pid in ClientInput(st, f).producers
    requires pid != f.metadata.producerId || InputStatus(st, f) != Success
    ensures pid in st.producers ==> ClientInput(st, f).producers[pid].queue == st.producers[pid].queue
    ensures pid !in st.producers ==> ClientInput(st, f).producers[pid].queue == []
    ensures ClientInput(st, f).workers in {st.workers, OfferAll(st.workers, f)}
  {
  }

  lemma SendNextServes(w: Worker, ps: Producers, pid: ProducerId)
    requires pid in w.rotation && pid in ps
    ensures pid in SendNextWorker(w, ps).rotation
    ensures SendNextWorker(w, ps).current.None? ==> !Ready(w, ps, pid)
  {
    var k, _ := SendNextCases(w, ps);
    if k <= |w.rotation| {
      assert w.rotation == w.rotation[..k] + w.rotation[k..];
    }
  }

  lemma SendNextQueues(w: Worker, ps: Producers, pid: ProducerId)
    requires pid in SendNextProducers(w, ps) && SendNextProducers(w, ps)[pid].queue != []
    ensures pid in ps && ps[pid].queue != []
  {
    var _, _ := SendNextCases(w, ps);
  }

  lemma ResultAttends(st: State, c: Context, pid: ProducerId)
    requires Inv(st) && AllAttended(st)
    ensures Attended(EngineResult(st, c), pid)
  {
    hide Inv, FirstReady, SendNextWorker, SendNextProducers;
    var st' := EngineResult(st, c);
    if Answers(st, c) && pid in st'.producers && st'.producers[pid].queue != [] {
      var w, ps := Logged(st, c), AfterClaim(st, c);
      SendNextQueues(w, ps, pid);
      assert Attended(st, pid);
      var d :| Serves(st.workers, d, pid);
      if d != c {
        assert Serves(st'.workers, d, pid);
      } else {
        SendNextServes(w, ps, pid);
        if st'.workers[c].current.Some? {
          assert Serves(st'.workers, c, pid);
        } else {
          assert ps[pid].pending;
          var e := HeldElsewhere(st, c, pid);
          HolderServes(st, pid, e);
          assert Serves(st'.workers, e, pid);
        }
      }
    }
  }

  lemma HolderServes(st: State, pid: ProducerId, e: Context)
    requires Inv(st) && pid in st.producers && st.producers[pid].pending && st.producers[pid].latest.Some?
    requires Holds(st.workers, e, st.producers[pid].latest.value.metadata)
    ensures Serves(st.workers, e, pid)
  {
    hide AllHeld, IdsOk, Fits, Increasing, Ledger;
    assert ProducerOk(pid, st.producers[pid]);
    assert WorkerOk(st.workers[e]);
  }

  // A newcomer serves nobody yet.
  lemma JoinServes(st: State, c: Context, id: EngineId, all: bool, d: Context, pid: ProducerId)
    requires c !in st.workers
    ensures Serves(Join(st, c, id, all).workers, d, pid) <==> Serves(st.workers, d, pid)
  {
  }

  lemma JoinAttends(st: State, c: Context, id: EngineId, all: bool, pid: ProducerId)
    requires c !in st.workers
    ensures Attended(Join(st, c, id, all), pid) <==> Attended(st, pid)
  {
    hide Serves;
    var st' := Join(st, c, id, all);
    if d :| Serves(st.workers, d, pid) {
      JoinServes(st, c, id, all, d, pid);
    }
    if d :| Serves(st'.workers, d, pid) {
      JoinServes(st, c, id, all, d, pid);
    }
  }

  lemma AttendedKept(st: State, step: Step)
    requires Inv(st) && Legal(st, step) && AllAttended(st) && !Removes(st, step)
    ensures AllAttended(Next(st, step))
  {
    hide Attended, Inv, ClientInput, EngineResult, Join;
    match step
    case OnInput(f) =>
      forall pid | pid in Next(st, step).producers
        ensures Attended(Next(st, step), pid)
      {
        InputAttends(st, f, pid);
      }
    case OnResult(c, r) =>
      forall pid | pid in Next(st, step).producers
        ensures Attended(Next(st, step), pid)
      {
        ResultAttends(st, c, pid);
      }
    case OnConnect(c, id, all) =>
      forall pid | pid in Next(st, step).producers
        ensures Attended(Next(st, step), pid)
      {
        NobodyEvicted(st, id);
        JoinProducers(st, c, id, all);
        JoinAttends(st, c, id, all, pid);
      }
    case OnDisconnect(c) =>
  }

  lemma NobodyEvicted(st: State, id: EngineId)
    requires id !in st.engineIds
    ensures Evict(st, id) == st
  {
  }

  ghost predicate RemovalFree(st: State, steps: seq<Step>)
    decreases |steps|
  {
    steps == [] ||
    (RemovalFree(st, steps[..|steps| - 1]) && !Removes(Exec(st, steps[..|steps| - 1]), steps[|steps| - 1]))
  }

  // In every run without engine removal, queued frames are never orphaned.
  lemma {:induction false} QueuesAttended(capacity: nat, steps: seq<Step>)
    requires LegalRun(Init(capacity), steps) && RemovalFree(Init(capacity), steps)
    ensures AllAttended(Exec(Init(capacity), steps))
    decreases |steps|
  {
    if steps != [] {
      var before := steps[..|steps| - 1];
      QueuesAttended(capacity, before);
      ReachableOk(capacity, before);
      AttendedKept(Exec(Init(capacity), before), steps[|steps| - 1]);
    }
  }

  // ---------- Removals ----------

  // The engine that a removal takes away: the one that disconnects, or the one whose id a
  // newcomer takes over.
  ghost function Departing(st: State, step: Step): Option<Context> {
    match step
    case OnDisconnect(c) => if c in st.workers then Some(c) else None
    case OnConnect(c, id, all) => Incumbent(st, id)
    case _ => None
  }

  // Each non-empty queue has a busy engine serving it other than this one.
  ghost predicate Covered(st: State, c: Context) {
    forall pid :: pid in st.producers && st.producers[pid].queue != [] ==>
      exists d :: d != c && Serves(st.workers, d, pid)
  }

  lemma DisconnectServes(st: State, c: Context, d: Context, pid: ProducerId)
    requires c in st.workers
    ensures Serves(Disconnect(st, c).workers, d, pid) <==> d != c && Serves(st.workers, d, pid)
  {
  }

  lemma DisconnectQueues(st: State, c: Context, pid: ProducerId)
    requires c in st.workers
    ensures pid in Disconnect(st, c).producers <==> pid in st.producers
    ensures pid in st.producers ==> Disconnect(st, c).producers[pid].queue == st.producers[pid].queue
  {
  }

  lemma DepartureAttends(st: State, c: Context)
    requires c in st.workers
    ensures AllAttended(Disconnect(st, c)) <==> Covered(st, c)
  {
    hide Disconnect, Serves;
    var st' := Disconnect(st, c);
    forall pid
      ensures pid in st'.producers <==> pid in st.producers
      ensures pid in st.producers ==> st'.producers[pid].queue == st.producers[pid].queue
    {
      DisconnectQueues(st, c, pid);
    }
    forall d, pid
      ensures Serves(st'.workers, d, pid) <==> d != c && Serves(st.workers, d, pid)
    {
      DisconnectServes(st, c, d, pid);
    }
    if AllAttended(st') {
      forall pid | pid in st.producers && st.producers[pid].queue != []
        ensures exists d :: d != c && Serves(st.workers, d, pid)
      {
        assert Attended(st', pid);
      }
    }
  }

  // A removal, by disconnect or by takeover, leaves every queue attended exactly when each
  // non-empty queue has another busy engine serving it.
  lemma RemovalAttendsExactlyWhen(st: State, step: Step)
    requires Inv(st) && Legal(st, step) && Removes(st, step)
    ensures Departing(st, step).Some? && Departing(st, step).value in st.workers
    ensures AllAttended(Next(st, step)) <==> Covered(st, Departing(st, step).value)
  {
    hide Inv, Disconnect, Join, Covered, Attended, Incumbent;
    if step.OnConnect? {
      IncumbentIsTheOne(st, step.engineId);
      var mid := Evict(st, step.engineId);
      forall pid
        ensures Attended(Next(st, step), pid) <==> Attended(mid, pid)
      {
        JoinAttends(mid, step.context, step.engineId, step.allResponses, pid);
      }
      JoinProducers(mid, step.context, step.engineId, step.allResponses);
    }
    DepartureAttends(st, Departing(st, step).value);
  }

  lemma JoinProducers(st: State, c: Context, id: EngineId, all: bool)
    ensures Join(st, c, id, all).producers == st.producers
  {
  }

  // Every queue is attended at every point of the run.
  ghost predicate AlwaysAttended(st: State, steps: seq<Step>)
    decreases |steps|
  {
    AllAttended(Exec(st, steps)) && (steps == [] || AlwaysAttended(st, steps[..|steps| - 1]))
  }

  // Whenever an engine is removed, the queues have other busy engines.
  ghost predicate CoveredRun(st: State, steps: seq<Step>)
    decreases |steps|
  {
    steps == [] ||
    var before, step := steps[..|steps| - 1], steps[|steps| - 1];
    && CoveredRun(st, before)
    && (Removes(Exec(st, before), step) ==>
          Departing(Exec(st, before), step).Some? &&
          Covered(Exec(st, before), Departing(Exec(st, before), step).value))
  }

  // Over runs: no queue is ever left without a busy engine exactly when every removal was covered.
  lemma {:induction false} AlwaysAttendedExactlyWhen(capacity: nat, steps: seq<Step>)
    requires LegalRun(Init(capacity), steps)
    ensures AlwaysAttended(Init(capacity), steps) <==> CoveredRun(Init(capacity), steps)
    decreases |steps|
  {
    hide AllAttended, Covered, Next, Removes, Departing;
    if steps == [] {
      NothingToAttend(capacity);
    } else {
      var before, step := steps[..|steps| - 1], steps[|steps| - 1];
      var st := Exec(Init(capacity), before);
      AlwaysAttendedExactlyWhen(capacity, before);
      ReachableOk(capacity, before);
      if Removes(st, step) {
        RemovalAttendsExactlyWhen(st, step);
      } else if AlwaysAttended(Init(capacity), before) {
        AttendedKept(st, step);
      }
    }
  }

  lemma NothingToAttend(capacity: nat)
    ensures AllAttended(Init(capacity))
  {
  }

  // ---------- A queue nobody attends ----------

  // The input leaves this engine busy and serving the producer: it targets the engine, and it is
  // the producer's own, or the engine was idle and serves the producer already.
  ghost predicate Starts(workers: Workers, f: Frame, c: Context, pid: ProducerId) {
    && c in workers && Targets(f, workers[c])
    && (f.metadata.producerId == pid || (workers[c].current.None? && pid in workers[c].rotation))
  }

  ghost predicate Wakes(st: State, step: Step, pid: ProducerId) {
    step.OnInput? && exists c :: Starts(st.workers, step.frame, c, pid)
  }

  lemma OfferServes(workers: Workers, f: Frame, c: Context, pid: ProducerId)
    ensures Serves(OfferAll(workers, f), c, pid) <==> Serves(workers, c, pid) || Starts(workers, f, c, pid)
  {
  }

  ghost predicate Unserved(workers: Workers, pid: ProducerId) {
    forall c :: !Serves(workers, c, pid)
  }

  lemma InputWakes(st: State, f: Frame, pid: ProducerId)
    requires Unserved(st.workers, pid)
    ensures Unserved(ClientInput(st, f).workers, pid) <==> !Wakes(st, OnInput(f), pid)
  {
    hide ClientInput, Serves;
    InputWorkers(st, f);
    forall c
      ensures Serves(OfferAll(st.workers, f), c, pid) <==> Starts(st.workers, f, c, pid)
    {
      OfferServes(st.workers, f, c, pid);
    }
    if c :| Starts(st.workers, f, c, pid) {
      assert Serves(OfferAll(st.workers, f), c, pid);
    }
  }

  // Nobody serves the producer, so its token is not out with an engine.
  lemma UnservedNotPending(st: State, pid: ProducerId)
    requires Inv(st) && pid in st.producers && Unserved(st.workers, pid)
    ensures !st.producers[pid].pending
  {
    hide Inv;
    if st.producers[pid].pending {
      var c := PendingIsServed(st, pid);
      assert false;
    }
  }

  lemma InputLeaves(st: State, f: Frame, pid: ProducerId)
    requires pid in st.producers && Unserved(st.workers, pid) && !Wakes(st, OnInput(f), pid)
    ensures pid in ClientInput(st, f).producers && ClientInput(st, f).producers[pid] == st.producers[pid]
  {
    hide HasIdleTarget, Serves;
    if f.metadata.producerId == pid {
      forall c | c in st.workers
        ensures !Targets(f, st.workers[c])
      {
        assert !Starts(st.workers, f, c, pid);
      }
    }
  }

  // The search of an engine that does not serve the producer passes it by.
  lemma SearchLeaves(w: Worker, ps: Producers, pid: ProducerId)
    requires pid !in w.rotation && pid in ps
    ensures pid !in SendNextWorker(w, ps).rotation
    ensures pid in SendNextProducers(w, ps) && SendNextProducers(w, ps)[pid] == ps[pid]
  {
    var k, _ := SendNextCases(w, ps);
    if k <= |w.rotation| {
      assert w.rotation == w.rotation[..k] + w.rotation[k..];
    }
  }

  lemma ResultLeaves(st: State, c: Context, pid: ProducerId)
    requires pid in st.producers && !st.producers[pid].pending && Unserved(st.workers, pid)
    ensures Unserved(EngineResult(st, c).workers, pid)
    ensures pid in EngineResult(st, c).producers && EngineResult(st, c).producers[pid] == st.producers[pid]
  {
    hide SendNextWorker, SendNextProducers;
    if Answers(st, c) {
      assert !Serves(st.workers, c, pid);
      SearchLeaves(Logged(st, c), AfterClaim(st, c), pid);
      forall d
        ensures !Serves(EngineResult(st, c).workers, d, pid)
      {
        assert !Serves(st.workers, d, pid);
      }
    }
  }

  lemma DisconnectLeaves(st: State, c: Context, pid: ProducerId)
    requires pid in st.producers && !st.producers[pid].pending && Unserved(st.workers, pid)
    ensures Unserved(Disconnect(st, c).workers, pid)
    ensures pid in Disconnect(st, c).producers && Disconnect(st, c).producers[pid] == st.producers[pid]
  {
    forall d
      ensures !Serves(Disconnect(st, c).workers, d, pid)
    {
      assert !Serves(st.workers, d, pid);
    }
  }

  lemma ConnectLeaves(st: State, c: Context, id: EngineId, all: bool, pid: ProducerId)
    requires Inv(st) && c !in st.workers
    requires pid in st.producers && !st.producers[pid].pending && Unserved(st.workers, pid)
    ensures Unserved(Connect(st, c, id, all).workers, pid)
    ensures pid in Connect(st, c, id, all).producers && Connect(st, c, id, all).producers[pid] == st.producers[pid]
  {
    hide Inv, Disconnect, Serves, Incumbent;
    IncumbentIsTheOne(st, id);
    if Incumbent(st, id).Some? {
      DisconnectLeaves(st, Incumbent(st, id).value, pid);
    }
    forall d
      ensures !Serves(Connect(st, c, id, all).workers, d, pid)
    {
      JoinServes(Evict(st, id), c, id, all, d, pid);
    }
  }

  // While no busy engine serves a producer, no step changes anything about it, except an input
  // that wakes it; and exactly those inputs give it a busy engine again.
  lemma WokenExactlyWhen(st: State, step: Step, pid: ProducerId)
    requires Inv(st) && Legal(st, step) && pid in st.producers && Unserved(st.workers, pid)
    ensures Unserved(Next(st, step).workers, pid) <==> !Wakes(st, step, pid)
    ensures !Wakes(st, step, pid) ==>
      pid in Next(st, step).producers && Next(st, step).producers[pid] == st.producers[pid]
  {
    hide Inv, ClientInput, EngineResult, Disconnect, Connect, Unserved, Starts;
    UnservedNotPending(st, pid);
    match step
    case OnInput(f) =>
      InputWakes(st, f, pid);
      if !Wakes(st, step, pid) {
        InputLeaves(st, f, pid);
      }
    case OnResult(c, r) => ResultLeaves(st, c, pid);
    case OnConnect(c, id, all) => ConnectLeaves(st, c, id, all, pid);
    case OnDisconnect(c) => DisconnectLeaves(st, c, pid);
  }

  ghost predicate NeverWoken(st: State, steps: seq<Step>, pid: ProducerId)
    decreases |steps|
  {
    steps == [] ||
    (NeverWoken(st, steps[..|steps| - 1], pid) && !Wakes(Exec(st, steps[..|steps| - 1]), steps[|steps| - 1], pid))
  }

  // A queue that no busy engine serves stays exactly as it is, with every token it stands for
  // still out, for as long as no input wakes it.
  lemma {:induction false} StrandedUntilWoken(st: State, steps: seq<Step>, pid: ProducerId)
    requires Inv(st) && LegalRun(st, steps) && pid in st.producers && Unserved(st.workers, pid)
    requires NeverWoken(st, steps, pid)
    ensures var st' := Exec(st, steps);
      && Unserved(st'.workers, pid)
      && pid in st'.producers && st'.producers[pid] == st.producers[pid]
    decreases |steps|
  {
    hide Inv, Next, Legal, Unserved, Wakes;
    if steps != [] {
      var before := steps[..|steps| - 1];
      StrandedUntilWoken(st, before, pid);
      RunKeeps(st, before);
      WokenExactlyWhen(Exec(st, before), steps[|steps| - 1], pid);
    }
  }

  // No connected engine, busy or idle, knows the producer.
  ghost predicate Abandoned(workers: Workers, pid: ProducerId) {
    forall c :: c in workers ==> pid !in workers[c].rotation
  }

  lemma AbandonedUnserved(workers: Workers, pid: ProducerId)
    requires Abandoned(workers, pid)
    ensures Unserved(workers, pid)
  {
  }

  // Only an input of the producer itself that has a target makes an engine know it.
  lemma AbandonedExactlyUntil(st: State, step: Step, pid: ProducerId)
    requires Inv(st) && Legal(st, step) && Abandoned(st.workers, pid)
    ensures Abandoned(Next(st, step).workers, pid) <==>
            !(step.OnInput? && step.frame.metadata.producerId == pid && HasTarget(st.workers, step.frame))
  {
    hide Inv, ClientInput, SendNextWorker, SendNextProducers, AfterClaim, AfterLoss, Incumbent;
    match step
    case OnInput(f) =>
      InputWorkers(st, f);
      if f.metadata.producerId == pid && HasTarget(st.workers, f) {
        var c :| c in st.workers && Targets(f, st.workers[c]);
        assert c in OfferAll(st.workers, f) && pid in OfferAll(st.workers, f)[c].rotation;
      }
    case OnResult(c, r) =>
      if Answers(st, c) {
        SearchKnows(Logged(st, c), AfterClaim(st, c), pid);
      }
    case OnConnect(c, id, all) =>
    case OnDisconnect(c) =>
  }

  lemma SearchKnows(w: Worker, ps: Producers, pid: ProducerId)
    ensures pid in SendNextWorker(w, ps).rotation <==> pid in w.rotation
  {
    var k, _ := SendNextCases(w, ps);
    if k <= |w.rotation| {
      assert w.rotation == w.rotation[..k] + w.rotation[k..];
    }
  }

  lemma AbandonedNotWoken(st: State, step: Step, pid: ProducerId)
    requires Abandoned(st.workers, pid) && (step.OnInput? ==> step.frame.metadata.producerId != pid)
    ensures !Wakes(st, step, pid)
  {
  }

  // A producer that no connected engine knows is stranded until it sends again, whatever all
  // others do.
  lemma {:induction false} AbandonedUntilInput(st: State, steps: seq<Step>, pid: ProducerId)
    requires Inv(st) && LegalRun(st, steps) && pid in st.producers && Abandoned(st.workers, pid)
    requires forall s :: s in steps && s.OnInput? ==> s.frame.metadata.producerId != pid
    ensures NeverWoken(st, steps, pid) && Abandoned(Exec(st, steps).workers, pid)
    ensures pid in Exec(st, steps).producers && Exec(st, steps).producers[pid] == st.producers[pid]
    decreases |steps|
  {
    hide Inv, Next, Legal, Abandoned, Wakes;
    AbandonedUnserved(st.workers, pid);
    if steps != [] {
      var before, step := steps[..|steps| - 1], steps[|steps| - 1];
      AbandonedUntilInput(st, before, pid);
      RunKeeps(st, before);
      AbandonedNotWoken(Exec(st, before), step, pid);
      AbandonedExactlyUntil(Exec(st, before), step, pid);
    }
    StrandedUntilWoken(st, steps, pid);
  }

  // Once a run without removals has come to rest, every accepted frame has been answered: its
  // token was returned, or the frame was displaced.
  lemma RestMeansAllAnswered(capacity: nat, steps: seq<Step>, pid: ProducerId)
    requires LegalRun(Init(capacity), steps) && RemovalFree(Init(capacity), steps)
    requires var st := Exec(Init(capacity), steps);
      pid in st.producers && forall c :: c in st.workers ==> st.workers[c].current.None?
    ensures var p := Exec(Init(capacity), steps).producers[pid];
      && p.queue == [] && !p.pending
      && multiset(p.accepted) == multiset(p.returned) + multiset(p.displaced)
  {
    ReachableOk(capacity, steps);
    QueuesAttended(capacity, steps);
    var st := Exec(Init(capacity), steps);
    var p := st.producers[pid];
    if p.pending {
      var c := PendingIsServed(st, pid);
      assert false;
    }
    assert Attended(st, pid);
    assert p.queue == [];
    assert ProducerOk(pid, p) && InFlight(p) == [];
  }

  // ---------- A removal that strands a frame ----------

  function SampleFrame(id: int): Frame {
    Frame(Metadata(id, "camera", "session", ["a"], []), [])
  }

  const F1 := SampleFrame(1)
  const F2 := SampleFrame(2)

  const SAMPLE_RUN: seq<Step> :=
    [OnConnect(0, "a", false), OnInput(F1), OnInput(F2), OnDisconnect(0), OnConnect(1, "a", false)]

  const W1 := Worker("a", false, Some(F1.metadata), ["camera"], map["camera" := F1.metadata], [F1], [], [], [])
  const P1 := Producer([], Some(F1), true, [F1], [], [])
  const P2 := Producer([F2], Some(F1), true, [F1, F2], [], [])
  const P3 := Producer([F2], Some(F1), false, [F1, F2], [F1], [])

  lemma SampleConnects()
    ensures Connect(Init(2), 0, "a", false) == State(2, map[0 := NewWorker("a", false)], map[], {"a"})
    ensures Connect(State(2, map[], map["camera" := P3], {}), 1, "a", false) ==
            State(2, map[1 := NewWorker("a", false)], map["camera" := P3], {"a"})
  {
  }

  lemma SampleFirstInput()
    ensures ClientInput(State(2, map[0 := NewWorker("a", false)], map[], {"a"}), F1) ==
            State(2, map[0 := W1], map["camera" := P1], {"a"})
  {
    assert Offer(NewWorker("a", false), F1) == W1 && Dispatch(NEW_PRODUCER, F1) == P1;
    assert OfferAll(map[0 := NewWorker("a", false)], F1) == map[0 := W1];
    var ws: Workers := map[0 := NewWorker("a", false)];
    assert 0 in ws && Targets(F1, ws[0]) && ws[0].current.None?;
    assert HasTarget(ws, F1) && HasIdleTarget(ws, F1);
  }

  lemma SampleSecondInput()
    ensures ClientInput(State(2, map[0 := W1], map["camera" := P1], {"a"}), F2) ==
            State(2, map[0 := W1], map["camera" := P2], {"a"})
  {
    assert Offer(W1, F2) == W1 && OfferAll(map[0 := W1], F2) == map[0 := W1];
    assert Enqueue(P1, F2) == P2 by {
      assert [F1] + [F2] == [F1, F2];
    }
    var ws: Workers := map[0 := W1];
    assert 0 in ws && Targets(F2, ws[0]);
    assert HasTarget(ws, F2) && !HasIdleTarget(ws, F2);
  }

  lemma SampleDeparture()
    ensures Disconnect(State(2, map[0 := W1], map["camera" := P2], {"a"}), 0) ==
            State(2, map[], map["camera" := P3], {})
  {
    assert Claim(P2) == P3;
    assert Claims(State(2, map[0 := W1], map["camera" := P2], {"a"}), 0);
  }

  // The engine is replaced while a frame is queued. The new engine does not know the producer, so
  // until the producer sends again the frame stays queued and its token out.
  lemma StrandingHappens()
    ensures LegalRun(Init(2), SAMPLE_RUN)
    ensures var st := Exec(Init(2), SAMPLE_RUN);
      && Inv(st) && st.workers == map[1 := NewWorker("a", false)] && Abandoned(st.workers, "camera")
      && st.producers == map["camera" := P3] && P3.queue == [F2] && F2 !in P3.returned
  {
    ReachSample();
    ReachableOk(2, SAMPLE_RUN);
  }

  lemma StrandedForGood(more: seq<Step>)
    requires LegalRun(Exec(Init(2), SAMPLE_RUN), more)
    requires forall s :: s in more && s.OnInput? ==> s.frame.metadata.producerId != "camera"
    ensures var st := Exec(Exec(Init(2), SAMPLE_RUN), more);
      "camera" in st.producers && st.producers["camera"].queue == [F2] && F2 !in st.producers["camera"].returned
  {
    hide Exec, LegalRun, Inv, Abandoned;
    StrandingHappens();
    AbandonedUntilInput(Exec(Init(2), SAMPLE_RUN), more, "camera");
  }

  lemma ReachSample()
    ensures LegalRun(Init(2), SAMPLE_RUN)
    ensures Exec(Init(2), SAMPLE_RUN) == State(2, map[1 := NewWorker("a", false)], map["camera" := P3], {"a"})
  {
    hide ClientInput, Disconnect, Connect;
    SampleConnects();
    SampleFirstInput();
    SampleSecondInput();
    SampleDeparture();
    var s := SAMPLE_RUN;
    assert s[..0] == [] && s[..1] == s[..0] + [s[0]] && s[..2] == s[..1] + [s[1]];
    assert s[..3] == s[..2] + [s[2]] && s[..4] == s[..3] + [s[3]] && s == s[..4] + [s[4]];
    ExecSnoc(Init(2), s[..0], s[0]);
    ExecSnoc(Init(2), s[..1], s[1]);
    ExecSnoc(Init(2), s[..2], s[2]);
    ExecSnoc(Init(2), s[..3], s[3]);
    ExecSnoc(Init(2), s[..4], s[4]);
  }
}
