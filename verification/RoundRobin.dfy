/**
 Fairness of an engine's rotation over its producers. Each search for work that
 passes over a ready producer brings that producer strictly closer to its turn, and
 producers that join later do not get in before it, so it is passed over a bounded
 number of times. A search that finds nothing leaves the rotation as it was.
 */
module RoundRobin {
  import opened Protocol
  import opened Scheduler
  import opened Invariant
  import opened Guarantees

  function Index(rotation: seq<ProducerId>, pid: ProducerId): (i: nat)
    requires pid in rotation
    ensures i < |rotation| && rotation[i] == pid
  {
    if rotation[0] == pid then 0 else 1 + Index(rotation[1..], pid)
  }

  // How many attempts from now the producer is tried: the front of the rotation comes last.
  function Turn(rotation: seq<ProducerId>, pid: ProducerId): (t: nat)
    requires pid in rotation
    ensures 1 <= t <= |rotation| && Tried(rotation, t) == pid
  {
    if Index(rotation, pid) == 0 then |rotation| else Index(rotation, pid)
  }

  lemma IndexUnique(rotation: seq<ProducerId>, i: nat)
    requires NoDup(rotation) && i < |rotation|
    ensures Index(rotation, rotation[i]) == i
  {
  }

  lemma TurnAfterRotation(rotation: seq<ProducerId>, pid: ProducerId, k: nat)
    requires NoDup(rotation) && pid in rotation && 1 <= k < Turn(rotation, pid)
    ensures pid in Rotated(rotation, k) && Turn(Rotated(rotation, k), pid) == Turn(rotation, pid) - k
  {
    var n, i := |rotation|, Index(rotation, pid);
    var r := Rotated(rotation, k);
    var j := if i == 0 then n - k else i - k;
    assert r[j] == pid;
    RotatedOk(rotation, k);
    IndexUnique(r, j);
  }

  // The producer a search serves, if any.
  function Choice(w: Worker, ps: Producers): Option<ProducerId> {
    var k := FirstReady(w, ps, 1);
    if k > |w.rotation| then None else Some(Tried(w.rotation, k))
  }

  // A ready producer is served or moves closer to its turn.
  lemma ServedOrCloser(w: Worker, ps: Producers, pid: ProducerId)
    requires NoDup(w.rotation) && pid in w.rotation && Ready(w, ps, pid)
    ensures Choice(w, ps).Some?
    ensures Choice(w, ps) != Some(pid) ==>
      && pid in SendNextWorker(w, ps).rotation
      && Turn(SendNextWorker(w, ps).rotation, pid) < Turn(w.rotation, pid)
  {
    var k, q := SendNextCases(w, ps);
    if k < Turn(w.rotation, pid) {
      TurnAfterRotation(w.rotation, pid, k);
    }
  }

  lemma NothingFound(w: Worker, ps: Producers)
    ensures Choice(w, ps).None? <==> forall pid :: pid in w.rotation ==> !Ready(w, ps, pid)
    ensures Choice(w, ps).None? ==> SendNextWorker(w, ps) == w.(current := None) && SendNextProducers(w, ps) == ps
  {
    var k, q := SendNextCases(w, ps);
  }

  // ---------- Over runs ----------

  // The engine stays connected.
  ghost predicate Stays(st: State, step: Step, c: Context) {
    c in st.workers &&
    match step
    case OnInput(f) => true
    case OnResult(d, r) => true
    case OnConnect(d, id, all) => d != c && id != st.workers[c].engineId
    case OnDisconnect(d) => d != c
  }

  // The step adds a producer to the engine's rotation.
  ghost predicate Adds(st: State, step: Step, c: Context) {
    && step.OnInput? && c in st.workers && st.workers[c].engineId in step.frame.metadata.targets
    && step.frame.metadata.producerId !in st.workers[c].rotation
  }

  // At this answer of the engine the producer is ready but another one is served.
  ghost predicate PassesOver(st: State, step: Step, c: Context, pid: ProducerId) {
    step.OnResult? && step.context == c && Answers(st, c)
    && Ready(Logged(st, c), AfterClaim(st, c), pid)
    && Choice(Logged(st, c), AfterClaim(st, c)) != Some(pid)
  }

  // Throughout the run the engine stays, and each of its answers passes over the producer.
  ghost predicate WaitsInVain(st: State, steps: seq<Step>, c: Context, pid: ProducerId)
    decreases |steps|
  {
    steps == [] ||
    var before, step := steps[..|steps| - 1], steps[|steps| - 1];
    var s := Exec(st, before);
    && WaitsInVain(st, before, c, pid)
    && Stays(s, step, c)
    && (step.OnResult? && step.context == c && Answers(s, c) ==> PassesOver(s, step, c, pid))
  }

  // How many times the engine answered during the run.
  ghost function AnswerCount(st: State, steps: seq<Step>, c: Context): nat
    decreases |steps|
  {
    if steps == [] then 0
    else
      var before, step := steps[..|steps| - 1], steps[|steps| - 1];
      AnswerCount(st, before, c) +
      if step.OnResult? && step.context == c && Answers(Exec(st, before), c) then 1 else 0
  }

  // How many producers joined the engine's rotation during the run.
  ghost function JoinCount(st: State, steps: seq<Step>, c: Context): nat
    decreases |steps|
  {
    if steps == [] then 0
    else
      var before, step := steps[..|steps| - 1], steps[|steps| - 1];
      JoinCount(st, before, c) + if Adds(Exec(st, before), step, c) then 1 else 0
  }

  // A producer that joins goes to the end: only the one just served, at the front, waits longer.
  lemma TurnAfterJoin(rotation: seq<ProducerId>, q: ProducerId, pid: ProducerId)
    requires NoDup(rotation) && pid in rotation && q !in rotation
    ensures Turn(rotation + [q], pid) == Turn(rotation, pid) + if rotation[0] == pid then 1 else 0
  {
    var i := Index(rotation, pid);
    assert (rotation + [q])[i] == pid;
    IndexUnique(rotation + [q], i);
  }

  lemma OfferRotation(st: State, f: Frame, c: Context)
    requires c in st.workers
    ensures c in ClientInput(st, f).workers
    ensures ClientInput(st, f).workers[c].rotation ==
            st.workers[c].rotation + if Adds(st, OnInput(f), c) then [f.metadata.producerId] else []
  {
    hide ClientInput;
    InputWorkers(st, f);
    assert Targets(f, st.workers[c]) ==> HasTarget(st.workers, f);
    assert st.workers[c].rotation + [] == st.workers[c].rotation;
  }

  lemma ConnectRotation(st: State, c: Context, d: Context, id: EngineId, all: bool)
    requires Inv(st) && c in st.workers && d != c && id != st.workers[c].engineId
    ensures c in Connect(st, d, id, all).workers && Connect(st, d, id, all).workers[c] == st.workers[c]
  {
    hide Inv;
    IncumbentIsTheOne(st, id);
  }

  lemma OtherStepRotation(st: State, step: Step, c: Context)
    requires Inv(st) && Stays(st, step, c)
    requires !(step.OnResult? && step.context == c && Answers(st, c))
    ensures c in Next(st, step).workers
    ensures Next(st, step).workers[c].rotation ==
            st.workers[c].rotation + if Adds(st, step, c) then [step.frame.metadata.producerId] else []
  {
    hide Inv, ClientInput, Connect;
    match step
    case OnInput(f) => OfferRotation(st, f, c);
    case OnResult(d, r) =>
    case OnConnect(d, id, all) => ConnectRotation(st, c, d, id, all);
    case OnDisconnect(d) =>
  }

  lemma RotationNoDup(st: State, c: Context)
    requires Inv(st) && c in st.workers
    ensures NoDup(st.workers[c].rotation)
  {
    hide AllOk, AllHeld, IdsOk, Fits;
    assert WorkerOk(st.workers[c]);
  }

  // Where a waiting producer stands after so many fruitless answers.
  ghost predicate Waiting(r0: seq<ProducerId>, r: seq<ProducerId>, pid: ProducerId, answers: nat, joins: nat)
    requires pid in r0
  {
    && pid in r && |r| == |r0| + joins
    && answers + Turn(r, pid) <= |r|
    && (pid != r0[0] ==> pid != r[0] && answers + Turn(r, pid) <= Turn(r0, pid))
  }

  lemma WaitingJoin(r0: seq<ProducerId>, r: seq<ProducerId>, pid: ProducerId, answers: nat, joins: nat, q: ProducerId)
    requires pid in r0 && Waiting(r0, r, pid, answers, joins) && NoDup(r) && q !in r
    ensures Waiting(r0, r + [q], pid, answers, joins + 1)
  {
    hide Turn;
    TurnAfterJoin(r, q, pid);
  }

  lemma WaitingAnswer(r0: seq<ProducerId>, r: seq<ProducerId>, pid: ProducerId, answers: nat, joins: nat,
                      r': seq<ProducerId>)
    requires pid in r0 && Waiting(r0, r, pid, answers, joins)
    requires pid in r' && |r'| == |r| && Turn(r', pid) < Turn(r, pid)
    ensures Waiting(r0, r', pid, answers + 1, joins)
  {
  }

  // Each fruitless answer uses up at least one place in the rotation.
  lemma {:induction false} WaitingShrinks(st: State, steps: seq<Step>, c: Context, pid: ProducerId)
    requires Inv(st) && LegalRun(st, steps) && WaitsInVain(st, steps, c, pid)
    requires c in st.workers && pid in st.workers[c].rotation
    ensures c in Exec(st, steps).workers
    ensures Waiting(st.workers[c].rotation, Exec(st, steps).workers[c].rotation, pid,
                    AnswerCount(st, steps, c), JoinCount(st, steps, c))
    decreases |steps|
  {
    hide Inv, Next, Waiting, Adds;
    if steps == [] {
      WaitingStarts(st.workers[c].rotation, pid);
    } else {
      var before, step := steps[..|steps| - 1], steps[|steps| - 1];
      var s := Exec(st, before);
      WaitingShrinks(st, before, c, pid);
      RunKeeps(st, before);
      WaitingStep(st, s, step, c, pid, AnswerCount(st, before, c), JoinCount(st, before, c));
    }
  }

  lemma WaitingStarts(r: seq<ProducerId>, pid: ProducerId)
    requires pid in r
    ensures Waiting(r, r, pid, 0, 0)
  {
  }

  lemma WaitingStep(st: State, s: State, step: Step, c: Context, pid: ProducerId, answers: nat, joins: nat)
    requires Inv(s) && c in st.workers && c in s.workers && pid in st.workers[c].rotation && Stays(s, step, c)
    requires Waiting(st.workers[c].rotation, s.workers[c].rotation, pid, answers, joins)
    requires step.OnResult? && step.context == c && Answers(s, c) ==> PassesOver(s, step, c, pid)
    ensures c in Next(s, step).workers
    ensures Waiting(st.workers[c].rotation, Next(s, step).workers[c].rotation, pid,
                    answers + (if step.OnResult? && step.context == c && Answers(s, c) then 1 else 0),
                    joins + if Adds(s, step, c) then 1 else 0)
  {
    hide Inv, Next, Waiting, PassesOver;
    var r0, r := st.workers[c].rotation, s.workers[c].rotation;
    RotationNoDup(s, c);
    WaitingMember(r0, r, pid, answers, joins);
    if step.OnResult? && step.context == c && Answers(s, c) {
      AnswerShrinks(s, step, c, pid);
      WaitingAnswer(r0, r, pid, answers, joins, Next(s, step).workers[c].rotation);
    } else {
      OtherStepRotation(s, step, c);
      if Adds(s, step, c) {
        WaitingJoin(r0, r, pid, answers, joins, step.frame.metadata.producerId);
      } else {
        assert r + [] == r;
      }
    }
  }

  lemma WaitingMember(r0: seq<ProducerId>, r: seq<ProducerId>, pid: ProducerId, answers: nat, joins: nat)
    requires pid in r0 && Waiting(r0, r, pid, answers, joins)
    ensures pid in r
  {
  }

  lemma AnswerShrinks(st: State, step: Step, c: Context, pid: ProducerId)
    requires PassesOver(st, step, c, pid) && NoDup(st.workers[c].rotation) && pid in st.workers[c].rotation
    ensures c in Next(st, step).workers && pid in Next(st, step).workers[c].rotation
    ensures |Next(st, step).workers[c].rotation| == |st.workers[c].rotation|
    ensures Turn(Next(st, step).workers[c].rotation, pid) < Turn(st.workers[c].rotation, pid)
  {
    hide SendNextWorker, SendNextProducers, Choice, Ready;
    ServedOrCloser(Logged(st, c), AfterClaim(st, c), pid);
    var _, _ := SendNextCases(Logged(st, c), AfterClaim(st, c));
  }

  // Bounded waiting: a producer that is ready at each of the engine's answers is passed over fewer
  // times than the rotation is long, counting those who join meanwhile; and if it is not the one just
  // served, fewer times than it is away from its turn, whoever joins.
  lemma BoundedWaiting(st: State, steps: seq<Step>, c: Context, pid: ProducerId)
    requires Inv(st) && LegalRun(st, steps) && WaitsInVain(st, steps, c, pid)
    requires c in st.workers && pid in st.workers[c].rotation
    ensures AnswerCount(st, steps, c) < |st.workers[c].rotation| + JoinCount(st, steps, c)
    ensures pid != st.workers[c].rotation[0] ==> AnswerCount(st, steps, c) < Turn(st.workers[c].rotation, pid)
  {
    hide Inv, LegalRun, WaitsInVain, AnswerCount, JoinCount, Turn;
    WaitingShrinks(st, steps, c, pid);
  }
}
