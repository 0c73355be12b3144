/**
 Lost tokens. A direct dispatch while another frame of the producer still awaits
 its token displaces that frame: no later answer returns its token. These lemmas
 say exactly which inputs do it, that it happens, and two settings in which it
 cannot.
 */
module Displacement {
  import opened Protocol
  import opened Scheduler
  import opened Invariant

  // The guard a sender could evaluate before the input arrives: the producer's in-flight frame
  // still awaits its token and some target engine is idle.
  predicate Displaces(st: State, step: Step, pid: ProducerId) {
    step.OnInput? && step.frame.metadata.producerId == pid && pid in st.producers
    && st.producers[pid].pending && HasIdleTarget(st.workers, step.frame)
  }

  function DisplacedOf(st: State, pid: ProducerId): seq<Frame> {
    if pid in st.producers then st.producers[pid].displaced else []
  }

  lemma EvictDisplaced(st: State, id: EngineId, pid: ProducerId)
    ensures DisplacedOf(Evict(st, id), pid) == DisplacedOf(st, pid)
  {
    var incumbent := Incumbent(st, id);
    if incumbent.Some? {
      DisconnectDisplaced(st, incumbent.value, pid);
    }
  }

  lemma DisconnectDisplaced(st: State, c: Context, pid: ProducerId)
    ensures DisplacedOf(Disconnect(st, c), pid) == DisplacedOf(st, pid)
  {
  }

  lemma ResultDisplaced(st: State, c: Context, pid: ProducerId)
    ensures DisplacedOf(EngineResult(st, c), pid) == DisplacedOf(st, pid)
  {
    if Answers(st, c) {
      var _, _ := SendNextCases(Logged(st, c), AfterClaim(st, c));
    }
  }

  lemma InputDisplaced(st: State, f: Frame, pid: ProducerId)
    requires pid in st.producers && st.producers[pid].pending ==> st.producers[pid].latest.Some?
    ensures DisplacedOf(ClientInput(st, f), pid) ==
            DisplacedOf(st, pid) + if Displaces(st, OnInput(f), pid) then [st.producers[pid].latest.value] else []
  {
  }

  // One step displaces at most one frame, and does so exactly under the guard.
  lemma DisplacedExactlyWhen(st: State, step: Step, pid: ProducerId)
    requires Inv(st)
    ensures pid in st.producers && st.producers[pid].pending ==> st.producers[pid].latest.Some?
    ensures DisplacedOf(Next(st, step), pid) ==
            DisplacedOf(st, pid) + if Displaces(st, step, pid) then [st.producers[pid].latest.value] else []
  {
    hide AllFit, AllHeld, IdsOk, ClientInput, EngineResult, Disconnect, Connect, Increasing, Ledger;
    assert pid in st.producers ==> ProducerOk(pid, st.producers[pid]);
    match step
    case OnInput(f) => InputDisplaced(st, f, pid);
    case OnResult(c, r) => ResultDisplaced(st, c, pid);
    case OnDisconnect(c) => DisconnectDisplaced(st, c, pid);
    case OnConnect(c, id, all) => ConnectDisplaced(st, c, id, all, pid);
  }

  lemma ConnectDisplaced(st: State, c: Context, id: EngineId, all: bool, pid: ProducerId)
    ensures DisplacedOf(Connect(st, c, id, all), pid) == DisplacedOf(st, pid)
  {
    EvictDisplaced(st, id, pid);
  }

  // How many inputs of a run displaced a frame.
  ghost function Displacements(st: State, steps: seq<Step>, pid: ProducerId): nat
    decreases |steps|
  {
    if steps == [] then 0
    else
      var before := steps[..|steps| - 1];
      Displacements(st, before, pid) +
      if Displaces(Exec(st, before), steps[|steps| - 1], pid) then 1 else 0
  }

  lemma {:induction false} DisplacedCount(capacity: nat, steps: seq<Step>, pid: ProducerId)
    requires LegalRun(Init(capacity), steps)
    ensures |DisplacedOf(Exec(Init(capacity), steps), pid)| == Displacements(Init(capacity), steps, pid)
    decreases |steps|
  {
    if steps != [] {
      var before := steps[..|steps| - 1];
      DisplacedCount(capacity, before, pid);
      ReachableOk(capacity, before);
      DisplacedExactlyWhen(Exec(Init(capacity), before), steps[|steps| - 1], pid);
    }
  }

  // Every accepted frame is returned, queued or in flight if and only if no input of the run
  // came while the producer's token was pending and a target was idle.
  lemma TokensKeptExactlyWhen(capacity: nat, steps: seq<Step>, pid: ProducerId)
    requires LegalRun(Init(capacity), steps) && pid in Exec(Init(capacity), steps).producers
    ensures var p := Exec(Init(capacity), steps).producers[pid];
      && |p.accepted| == |p.returned| + |p.queue| + (if p.pending then 1 else 0)
                         + Displacements(Init(capacity), steps, pid)
      && (multiset(p.accepted) == multiset(p.returned) + multiset(p.queue) + multiset(InFlight(p))
          <==> Displacements(Init(capacity), steps, pid) == 0)
  {
    DisplacedCount(capacity, steps, pid);
    ReachableOk(capacity, steps);
    var p := Exec(Init(capacity), steps).producers[pid];
    assert ProducerOk(pid, p);
    assert |multiset(p.accepted)| == |p.accepted| && |multiset(p.queue)| == |p.queue|
        && |multiset(p.returned)| == |p.returned| && |multiset(p.displaced)| == |p.displaced|
        && |multiset(InFlight(p))| == |InFlight(p)|;
  }

  // ---------- It happens ----------

  function SampleFrame(id: int, engine: EngineId): Frame {
    Frame(Metadata(id, "camera", "session", [engine], []), [])
  }

  const F1 := SampleFrame(1, "a")
  const F2 := SampleFrame(2, "b")
  const ANSWER := Result(Success, NoPayload, "", 0, None)

  const RETARGETING: seq<Step> :=
    [OnConnect(0, "a", false), OnConnect(1, "b", false), OnInput(F1), OnInput(F2), OnResult(0, ANSWER)]

  const SAMPLE_RUN: seq<Step> := RETARGETING + [OnResult(1, ANSWER)]

  // Worker "a" was sent F1 and then caught up with F2; worker "b" was sent F2.
  const A1 := Worker("a", false, Some(F1.metadata), ["camera"], map["camera" := F1.metadata], [F1], [], [], [])
  const A2 := Worker("a", false, Some(F2.metadata), ["camera"], map["camera" := F2.metadata],
                     [F1, F2], [F1.metadata], [], [])
  const B1 := Worker("b", false, Some(F2.metadata), ["camera"], map["camera" := F2.metadata], [F2], [], [], [])
  const B2 := Worker("b", false, None, ["camera"], map["camera" := F2.metadata],
                     [F2], [F2.metadata], [F2.metadata], [F2.metadata])
  const P1 := Producer([], Some(F1), true, [F1], [], [])
  const P2 := Producer([], Some(F2), true, [F1, F2], [], [F1])
  const P3 := Producer([], Some(F2), false, [F1, F2], [F2], [F1])
  const BOTH: set<EngineId> := {"a", "b"}

  function SampleState(workers: Workers, producers: Producers): State {
    State(2, workers, producers, BOTH)
  }

  lemma SampleConnects()
    ensures Connect(Init(2), 0, "a", false) == State(2, map[0 := NewWorker("a", false)], map[], {"a"})
    ensures Connect(State(2, map[0 := NewWorker("a", false)], map[], {"a"}), 1, "b", false) ==
            SampleState(map[0 := NewWorker("a", false), 1 := NewWorker("b", false)], map[])
  {
  }

  // Direct dispatch to exactly one idle target.
  lemma DirectTo(st: State, f: Frame, c: Context)
    requires c in st.workers && Targets(f, st.workers[c]) && st.workers[c].current.None?
    requires forall d :: d in st.workers && d != c ==> !Targets(f, st.workers[d])
    ensures var ps := WithProducer(st.producers, f.metadata.producerId);
      ClientInput(st, f) ==
      st.(workers := st.workers[c := Offer(st.workers[c], f)],
          producers := ps[f.metadata.producerId := Dispatch(ps[f.metadata.producerId], f)])
  {
    assert OfferAll(st.workers, f) == st.workers[c := Offer(st.workers[c], f)];
  }

  lemma SampleParts()
    ensures Offer(NewWorker("a", false), F1) == A1 && Offer(NewWorker("b", false), F2) == B1
    ensures Dispatch(NEW_PRODUCER, F1) == P1 && Dispatch(P1, F2) == P2 && Claim(P2) == P3
  {
    assert InFlight(P1) == [F1] && [F1] + [F2] == [F1, F2];
  }

  lemma SampleFirstInput()
    ensures ClientInput(SampleState(map[0 := NewWorker("a", false), 1 := NewWorker("b", false)], map[]), F1) ==
            SampleState(map[0 := A1, 1 := NewWorker("b", false)], map["camera" := P1])
  {
    hide Offer, Dispatch, ClientInput;
    SampleParts();
    DirectTo(SampleState(map[0 := NewWorker("a", false), 1 := NewWorker("b", false)], map[]), F1, 0);
  }

  lemma SampleSecondInput()
    ensures ClientInput(SampleState(map[0 := A1, 1 := NewWorker("b", false)], map["camera" := P1]), F2) ==
            SampleState(map[0 := A1, 1 := B1], map["camera" := P2])
  {
    hide Offer, Dispatch, ClientInput;
    SampleParts();
    DirectTo(SampleState(map[0 := A1, 1 := NewWorker("b", false)], map["camera" := P1]), F2, 1);
  }

  lemma SampleFirstAnswer()
    ensures EngineResult(SampleState(map[0 := A1, 1 := B1], map["camera" := P2]), 0) ==
            SampleState(map[0 := A2, 1 := B1], map["camera" := P2])
  {
    var st := SampleState(map[0 := A1, 1 := B1], map["camera" := P2]);
    assert !Claims(st, 0) && AfterClaim(st, 0) == map["camera" := P2];
    var w := Logged(st, 0);
    var _, _ := SendNextCases(w, AfterClaim(st, 0));
    assert w.rotation == ["camera"];
    assert Rotated(["camera"], 1) == ["camera"];
    assert SendNextWorker(w, AfterClaim(st, 0)) == A2;
  }

  lemma SampleSecondAnswer()
    ensures EngineResult(SampleState(map[0 := A2, 1 := B1], map["camera" := P2]), 1) ==
            SampleState(map[0 := A2, 1 := B2], map["camera" := P3])
  {
    SampleParts();
    var st := SampleState(map[0 := A2, 1 := B1], map["camera" := P2]);
    assert Claims(st, 1);
    assert AfterClaim(st, 1) == map["camera" := P3];
    var w := Logged(st, 1);
    var _, _ := SendNextCases(w, AfterClaim(st, 1));
    assert w.rotation == ["camera"];
    assert SendNextWorker(w, AfterClaim(st, 1)) == B2;
  }

  lemma SampleRetargeting()
    ensures LegalRun(Init(2), RETARGETING)
    ensures Exec(Init(2), RETARGETING) == SampleState(map[0 := A2, 1 := B1], map["camera" := P2])
  {
    hide ClientInput, Connect, EngineResult;
    SampleConnects();
    SampleFirstInput();
    SampleSecondInput();
    SampleFirstAnswer();
    var s := RETARGETING;
    assert s[..0] == [] && s[..1] == s[..0] + [s[0]] && s[..2] == s[..1] + [s[1]];
    assert s[..3] == s[..2] + [s[2]] && s[..4] == s[..3] + [s[3]] && s == s[..4] + [s[4]];
    ExecSnoc(Init(2), s[..0], s[0]);
    ExecSnoc(Init(2), s[..1], s[1]);
    ExecSnoc(Init(2), s[..2], s[2]);
    ExecSnoc(Init(2), s[..3], s[3]);
    ExecSnoc(Init(2), s[..4], s[4]);
  }

  // Two engines and one producer that retargets between its first two frames. The second input
  // displaces the first frame: its engine has answered it, no engine holds it, and its token
  // has not gone back.
  lemma DisplacementHappens()
    ensures LegalRun(Init(2), SAMPLE_RUN)
    ensures var st := Exec(Init(2), SAMPLE_RUN);
      && "camera" in st.producers
      && st.producers["camera"].accepted == [F1, F2]
      && st.producers["camera"].returned == [F2]
      && st.producers["camera"].displaced == [F1]
      && (forall c :: c in st.workers ==> st.workers[c].current != Some(F1.metadata))
  {
    hide ClientInput, Connect, EngineResult;
    SampleRetargeting();
    SampleSecondAnswer();
    ExecSnoc(Init(2), RETARGETING, OnResult(1, ANSWER));
  }

  // ---------- When it cannot ----------

  // At most one engine is connected at every point of the run. Engines may come, go, crash and
  // take over from one another.
  ghost predicate AtMostOneEngine(st: State, steps: seq<Step>)
    decreases |steps|
  {
    |Exec(st, steps).workers| <= 1 && (steps == [] || AtMostOneEngine(st, steps[..|steps| - 1]))
  }

  lemma OnlyWorker(workers: Workers, c: Context, d: Context)
    requires |workers| <= 1 && c in workers && d in workers
    ensures c == d
  {
    if c != d {
      assert {c, d} <= workers.Keys;
      CardinalityUpTo({c, d}, workers.Keys);
      assert false;
    }
  }

  lemma CardinalityUpTo(a: set<Context>, b: set<Context>)
    requires a <= b
    ensures |a| <= |b|
  {
    assert b == a + (b - a);
  }

  lemma OneEngineCannotDisplace(st: State, step: Step, pid: ProducerId)
    requires Inv(st) && |st.workers| <= 1
    ensures !Displaces(st, step, pid)
  {
    hide Inv;
    if Displaces(st, step, pid) {
      var c := Holder(st, pid);
      var d :| d in st.workers && Targets(step.frame, st.workers[d]) && st.workers[d].current.None?;
      OnlyWorker(st.workers, c, d);
      assert false;
    }
  }

  // With one engine at a time, whatever the producers do, no token is ever lost.
  lemma {:induction false} OneEngineLosesNothing(capacity: nat, steps: seq<Step>, pid: ProducerId)
    requires LegalRun(Init(capacity), steps) && AtMostOneEngine(Init(capacity), steps)
    ensures Displacements(Init(capacity), steps, pid) == 0
    decreases |steps|
  {
    if steps != [] {
      var before := steps[..|steps| - 1];
      OneEngineLosesNothing(capacity, before, pid);
      ReachableOk(capacity, before);
      OneEngineCannotDisplace(Exec(Init(capacity), before), steps[|steps| - 1], pid);
    }
  }
}
