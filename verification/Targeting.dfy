/**
 Which engines see a frame. An input is dispatched only to engines it names, but
 an engine looking for more work checks no targets: it serves every producer that
 ever named it. These lemmas say exactly when an engine is sent a frame that does
 not name it, that it happens, and that it cannot while producers keep their
 targets.
 */
module Targeting {
  import opened Protocol
  import opened Scheduler
  import opened Invariant
  import opened Guarantees
  import opened Displacement

  // ---------- What one step sends ----------

  // What an engine looking for work finds: of the first ready producer in its rotation, the
  // oldest queued frame if the gate is open, otherwise the in-flight frame.
  function NextFrame(w: Worker, ps: Producers): Option<Frame> {
    var k := FirstReady(w, ps, 1);
    if k > |w.rotation| then None
    else
      var p := ps[Tried(w.rotation, k)];
      if CanDequeue(p) then Some(p.queue[0]) else p.latest
  }

  // What a step sends to a connected engine.
  function Given(st: State, step: Step, c: Context): Option<Frame>
    requires c in st.workers
  {
    match step
    case OnInput(f) => if Targets(f, st.workers[c]) && st.workers[c].current.None? then Some(f) else None
    case OnResult(d, r) =>
      if d == c && Answers(st, c) then NextFrame(Logged(st, c), AfterClaim(st, c)) else None
    case _ => None
  }

  lemma SearchGives(w: Worker, ps: Producers)
    ensures SendNextWorker(w, ps).sent == w.sent + AsSeq(NextFrame(w, ps))
    ensures SendNextWorker(w, ps).engineId == w.engineId
    ensures forall pid :: pid in SendNextWorker(w, ps).rotation <==> pid in w.rotation
  {
    var k, _ := SendNextCases(w, ps);
    if k <= |w.rotation| {
      assert w.rotation == w.rotation[..k] + w.rotation[k..];
    }
  }

  // The producer has this frame for the engine.
  predicate OffersTo(w: Worker, pid: ProducerId, p: Producer, f: Frame) {
    if !p.pending && p.queue != [] then f == p.queue[0]
    else p.latest == Some(f) && pid in w.last && f.metadata.frameId > w.last[pid].frameId
  }

  // What a search gives is the oldest queued frame of a producer whose token is not out, or else an
  // in-flight frame numbered above the last the engine got from that producer. It gives nothing only
  // if no producer in the rotation has either.
  lemma SearchOutcome(w: Worker, ps: Producers)
    requires forall pid :: pid in w.rotation ==> pid in ps
    ensures var next := NextFrame(w, ps);
      && (next.None? <==> forall pid :: pid in w.rotation ==>
            && (ps[pid].pending || ps[pid].queue == [])
            && (ps[pid].latest.Some? && pid in w.last ==>
                  ps[pid].latest.value.metadata.frameId <= w.last[pid].frameId))
      && (next.Some? ==> exists pid :: pid in w.rotation && OffersTo(w, pid, ps[pid], next.value))
  {
    var k, q := SendNextCases(w, ps);
    if k <= |w.rotation| {
      assert Ready(w, ps, q) && OffersTo(w, q, ps[q], NextFrame(w, ps).value);
    } else {
      forall pid | pid in w.rotation
        ensures ps[pid].pending || ps[pid].queue == []
        ensures ps[pid].latest.Some? && pid in w.last ==>
                  ps[pid].latest.value.metadata.frameId <= w.last[pid].frameId
      {
        assert !Ready(w, ps, pid);
      }
    }
  }

  // The step keeps the engine, sends it exactly that, and adds at most the input's producer to
  // its rotation.
  lemma StepGives(st: State, step: Step, c: Context)
    requires Legal(st, step) && c in st.workers && c in Next(st, step).workers
    ensures var w, v := st.workers[c], Next(st, step).workers[c];
      && v.engineId == w.engineId
      && v.sent == w.sent + AsSeq(Given(st, step, c))
      && forall pid :: pid in v.rotation <==>
           pid in w.rotation || (step.OnInput? && step.frame.metadata.producerId == pid && Targets(step.frame, w))
  {
    hide SendNextWorker, SendNextProducers, NextFrame, AfterClaim, AfterLoss, Incumbent, ClientInput;
    var w := st.workers[c];
    assert w.sent + [] == w.sent;
    match step
    case OnInput(f) =>
      InputWorkers(st, f);
      assert Targets(f, w) ==> HasTarget(st.workers, f);
    case OnResult(d, r) =>
      if Answers(st, d) {
        SearchGives(Logged(st, d), AfterClaim(st, d));
      }
    case OnConnect(d, id, all) =>
    case OnDisconnect(d) =>
  }

  // An answer of the engine makes the server look for more work, and what it finds names other
  // engines.
  predicate Misdirects(st: State, step: Step, c: Context) {
    step.OnResult? && step.context == c && Answers(st, c) &&
    var next := NextFrame(Logged(st, c), AfterClaim(st, c));
    next.Some? && !Targets(next.value, st.workers[c])
  }

  // An engine is sent a frame that does not name it exactly by such an answer; never by an input.
  lemma MisdirectedExactlyWhen(st: State, step: Step, c: Context)
    requires Legal(st, step) && c in st.workers && c in Next(st, step).workers
    ensures var w, v := st.workers[c], Next(st, step).workers[c];
      && w.sent <= v.sent
      && ((exists f :: f in v.sent[|w.sent|..] && !Targets(f, v)) <==> Misdirects(st, step, c))
  {
    hide Next, NextFrame, Legal, Answers;
    StepGives(st, step, c);
    var w, v := st.workers[c], Next(st, step).workers[c];
    assert v.sent[|w.sent|..] == AsSeq(Given(st, step, c));
    if Misdirects(st, step, c) {
      assert Given(st, step, c).value in v.sent[|w.sent|..];
    }
  }

  // ---------- Over runs ----------

  lemma StepNewcomer(st: State, step: Step, c: Context)
    requires Legal(st, step) && c !in st.workers && c in Next(st, step).workers
    ensures step.OnConnect? && step.context == c
    ensures Next(st, step).workers[c] == NewWorker(step.engineId, step.allResponses)
  {
    hide SendNextWorker, SendNextProducers, AfterLoss, Incumbent, HasTarget, HasIdleTarget;
  }

  predicate Joins(step: Step, c: Context) {
    step.OnConnect? && step.context == c
  }

  // Since engine stream c connected, an answer of it was misdirected.
  ghost predicate EverMisdirected(st: State, steps: seq<Step>, c: Context)
    decreases |steps|
  {
    steps != [] &&
    var before, step := steps[..|steps| - 1], steps[|steps| - 1];
    !Joins(step, c) && (EverMisdirected(st, before, c) || Misdirects(Exec(st, before), step, c))
  }

  ghost predicate OffTarget(w: Worker) {
    exists f :: f in w.sent && !Targets(f, w)
  }

  lemma OffTargetGrows(w: Worker, v: Worker, f: Option<Frame>)
    requires v.engineId == w.engineId && v.sent == w.sent + AsSeq(f)
    ensures OffTarget(v) <==> OffTarget(w) || (f.Some? && !Targets(f.value, v))
  {
    if g :| g in w.sent && !Targets(g, w) {
      assert g in v.sent;
    }
    if f.Some? {
      assert f.value in v.sent;
    }
  }

  // In every run, a connected engine has been sent a frame that does not name it if and only if
  // one of its answers was misdirected.
  lemma {:induction false} OffTargetExactlyWhen(capacity: nat, steps: seq<Step>, c: Context)
    requires LegalRun(Init(capacity), steps) && c in Exec(Init(capacity), steps).workers
    ensures OffTarget(Exec(Init(capacity), steps).workers[c]) <==> EverMisdirected(Init(capacity), steps, c)
    decreases |steps|
  {
    hide Next, Legal, OffTarget, NextFrame, Answers;
    var before, step := steps[..|steps| - 1], steps[|steps| - 1];
    var st := Exec(Init(capacity), before);
    if c !in st.workers {
      StepNewcomer(st, step, c);
      NothingOffTarget(step.engineId, step.allResponses);
    } else {
      OffTargetExactlyWhen(capacity, before, c);
      NotJoined(st, step, c);
      StepGives(st, step, c);
      OffTargetGrows(st.workers[c], Next(st, step).workers[c], Given(st, step, c));
    }
  }

  lemma NothingOffTarget(id: EngineId, all: bool)
    ensures !OffTarget(NewWorker(id, all))
  {
  }

  lemma NotJoined(st: State, step: Step, c: Context)
    requires Legal(st, step) && c in st.workers
    ensures !Joins(step, c)
  {
  }

  // Since engine stream c connected, an input of the producer named it.
  ghost predicate NamedSince(st: State, steps: seq<Step>, c: Context, pid: ProducerId)
    decreases |steps|
  {
    steps != [] &&
    var before, step := steps[..|steps| - 1], steps[|steps| - 1];
    && !Joins(step, c)
    && (NamedSince(st, before, c, pid) ||
        (step.OnInput? && step.frame.metadata.producerId == pid &&
         c in Exec(st, before).workers && Targets(step.frame, Exec(st, before).workers[c])))
  }

  // In every run, an engine serves exactly the producers that named it at some time since it
  // connected: a producer that turns to other engines is never taken out.
  lemma {:induction false} RotationExactly(capacity: nat, steps: seq<Step>, c: Context, pid: ProducerId)
    requires LegalRun(Init(capacity), steps) && c in Exec(Init(capacity), steps).workers
    ensures pid in Exec(Init(capacity), steps).workers[c].rotation <==> NamedSince(Init(capacity), steps, c, pid)
    decreases |steps|
  {
    hide Next, Legal;
    var before, step := steps[..|steps| - 1], steps[|steps| - 1];
    var st := Exec(Init(capacity), before);
    if c !in st.workers {
      StepNewcomer(st, step, c);
    } else {
      RotationExactly(capacity, before, c, pid);
      NotJoined(st, step, c);
      StepGives(st, step, c);
    }
  }

  // ---------- When producers keep their targets ----------

  ghost predicate SameTargets(f: Frame, g: Frame) {
    forall id :: id in f.metadata.targets <==> id in g.metadata.targets
  }

  // All inputs of a producer name the same engines.
  ghost predicate SteadyTargets(steps: seq<Step>) {
    forall s, t :: s in steps && t in steps && s.OnInput? && t.OnInput? ==> Agree(s.frame, t.frame)
  }

  ghost predicate Agree(f: Frame, g: Frame) {
    f.metadata.producerId == g.metadata.producerId ==> SameTargets(f, g)
  }

  lemma {:induction false} AcceptedWereInputs(capacity: nat, steps: seq<Step>, pid: ProducerId, f: Frame)
    requires f in AcceptedOf(Exec(Init(capacity), steps), pid)
    ensures OnInput(f) in steps && f.metadata.producerId == pid
    decreases |steps|
  {
    hide Next;
    var before, step := steps[..|steps| - 1], steps[|steps| - 1];
    AcceptedGrows(Exec(Init(capacity), before), step, pid);
    if f in AcceptedOf(Exec(Init(capacity), before), pid) {
      AcceptedWereInputs(capacity, before, pid, f);
    }
  }

  // An engine's rotation holds only producers of which some input names it.
  lemma {:induction false} NamingInput(capacity: nat, steps: seq<Step>, c: Context, pid: ProducerId) returns (f: Frame)
    requires LegalRun(Init(capacity), steps) && c in Exec(Init(capacity), steps).workers
    requires pid in Exec(Init(capacity), steps).workers[c].rotation
    ensures OnInput(f) in steps && f.metadata.producerId == pid
    ensures Targets(f, Exec(Init(capacity), steps).workers[c])
    decreases |steps|
  {
    hide Next, Legal;
    var before, step := steps[..|steps| - 1], steps[|steps| - 1];
    var st := Exec(Init(capacity), before);
    if c !in st.workers {
      StepNewcomer(st, step, c);
      assert false;
    } else {
      StepGives(st, step, c);
      if pid in st.workers[c].rotation {
        f := NamingInput(capacity, before, c, pid);
      } else {
        f := step.frame;
      }
    }
  }

  // What a search finds was accepted from a producer in the rotation.
  lemma FoundWasAccepted(st: State, c: Context) returns (pid: ProducerId)
    requires Inv(st) && Answers(st, c) && NextFrame(Logged(st, c), AfterClaim(st, c)).Some?
    ensures pid in st.workers[c].rotation
    ensures NextFrame(Logged(st, c), AfterClaim(st, c)).value in AcceptedOf(st, pid)
  {
    hide AllHeld, IdsOk, Increasing, Ledger;
    var w, ps := Logged(st, c), AfterClaim(st, c);
    var k, q := SendNextCases(w, ps);
    pid := q;
    assert pid in st.producers && ps[pid].queue == st.producers[pid].queue
           && ps[pid].latest == st.producers[pid].latest;
    assert ProducerOk(pid, st.producers[pid]);
    if CanDequeue(ps[pid]) {
      QueuedIsAccepted(pid, st.producers[pid], ps[pid].queue[0]);
    }
  }

  lemma SteadyBefore(steps: seq<Step>)
    requires steps != [] && SteadyTargets(steps)
    ensures SteadyTargets(steps[..|steps| - 1])
  {
  }

  lemma SteadyAnswer(capacity: nat, steps: seq<Step>, step: Step, c: Context)
    requires LegalRun(Init(capacity), steps) && SteadyTargets(steps) && c in Exec(Init(capacity), steps).workers
    ensures !Misdirects(Exec(Init(capacity), steps), step, c)
  {
    hide LegalRun, Exec, Inv, NextFrame, Logged, AfterClaim, SteadyTargets;
    var st := Exec(Init(capacity), steps);
    if step.OnResult? && step.context == c && Answers(st, c) {
      var next := NextFrame(Logged(st, c), AfterClaim(st, c));
      if next.Some? {
        ReachableOk(capacity, steps);
        var pid := FoundWasAccepted(st, c);
        AcceptedWereInputs(capacity, steps, pid, next.value);
        var f := NamingInput(capacity, steps, c, pid);
        SteadyPair(steps, f, next.value);
      }
    }
  }

  lemma SteadyPair(steps: seq<Step>, f: Frame, g: Frame)
    requires SteadyTargets(steps) && OnInput(f) in steps && OnInput(g) in steps
    requires f.metadata.producerId == g.metadata.producerId
    ensures SameTargets(f, g)
  {
  }

  // In every run in which each producer keeps its targets, engines see only frames that name them.
  lemma {:induction false} SteadyTargetsObeyed(capacity: nat, steps: seq<Step>, c: Context)
    requires LegalRun(Init(capacity), steps) && SteadyTargets(steps) && c in Exec(Init(capacity), steps).workers
    ensures forall f :: f in Exec(Init(capacity), steps).workers[c].sent ==>
      Targets(f, Exec(Init(capacity), steps).workers[c])
  {
    hide LegalRun, Exec, EverMisdirected;
    OffTargetExactlyWhen(capacity, steps, c);
    NeverMisdirected(capacity, steps, c);
  }

  lemma {:induction false} NeverMisdirected(capacity: nat, steps: seq<Step>, c: Context)
    requires LegalRun(Init(capacity), steps) && SteadyTargets(steps) && c in Exec(Init(capacity), steps).workers
    ensures !EverMisdirected(Init(capacity), steps, c)
    decreases |steps|
  {
    hide Misdirects, SteadyTargets, Next, Legal;
    if steps != [] {
      var before, step := steps[..|steps| - 1], steps[|steps| - 1];
      var st := Exec(Init(capacity), before);
      SteadyBefore(steps);
      if c in st.workers {
        NeverMisdirected(capacity, before, c);
        SteadyAnswer(capacity, before, step, c);
      } else {
        StepNewcomer(st, step, c);
      }
    }
  }

  // ---------- It happens ----------

  const MISDIRECTED_RUN: seq<Step> := RETARGETING + [OnResult(0, ANSWER)]

  // Engine "a" has answered both frames and claimed the token of the second.
  const A3 := Worker("a", false, None, ["camera"], map["camera" := F2.metadata],
                     [F1, F2], [F1.metadata, F2.metadata], [F2.metadata], [F2.metadata])

  lemma SampleOwnAnswer()
    ensures EngineResult(SampleState(map[0 := A2, 1 := B1], map["camera" := P2]), 0) ==
            SampleState(map[0 := A3, 1 := B1], map["camera" := P3])
  {
    SampleParts();
    var st := SampleState(map[0 := A2, 1 := B1], map["camera" := P2]);
    assert Claims(st, 0);
    assert AfterClaim(st, 0) == map["camera" := P3];
    var w := Logged(st, 0);
    var _, _ := SendNextCases(w, AfterClaim(st, 0));
    assert w.rotation == ["camera"];
    assert [F1.metadata] + [F2.metadata] == [F1.metadata, F2.metadata];
    assert SendNextWorker(w, AfterClaim(st, 0)) == A3;
  }

  // A producer sends one frame to engine "a" and the next to engine "b". Engine "a" is sent the
  // second frame as well, and its answer is the one that returns the token, while "b" is still
  // working on it.
  lemma MisdirectionHappens()
    ensures LegalRun(Init(2), MISDIRECTED_RUN)
    ensures var st := Exec(Init(2), MISDIRECTED_RUN);
      && st.workers == map[0 := A3, 1 := B1] && A3.engineId == "a" && F2.metadata.targets == ["b"]
      && OffTarget(A3) && A3.claimed == [F2.metadata] && B1.current == Some(F2.metadata)
      && "camera" in st.producers && st.producers["camera"].returned == [F2]
  {
    hide ClientInput, Connect, EngineResult;
    SampleRetargeting();
    SampleOwnAnswer();
    ExecSnoc(Init(2), RETARGETING, OnResult(0, ANSWER));
    assert F2 in A3.sent && !Targets(F2, A3);
  }
}
