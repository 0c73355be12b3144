/**
 How work runs out. When no inputs arrive and engines only answer, every answer
 uses up some of a finite stock: a queued frame, an in-flight frame an engine has
 yet to catch up with, or a busy engine. So the engines come to rest, and without
 removals every frame has then been answered.
 */
module Draining {
  import opened Protocol
  import opened Scheduler
  import opened Invariant
  import opened Stranding

  // Places in the producers' queues.
  function Backlog(ps: Producers): set<(ProducerId, nat)> {
    set pid, i: nat | pid in ps && i < |ps[pid].queue| :: (pid, i)
  }

  // Engines that would be sent a producer's in-flight frame if they looked.
  function Gaps(ws: Workers, ps: Producers): set<(Context, ProducerId)> {
    set c, pid | c in ws && pid in ps && CanCatchUp(ws[c], pid, ps[pid]) :: (c, pid)
  }

  function Busy(ws: Workers): set<Context> {
    set c | c in ws && ws[c].current.Some?
  }

  // A queued frame is worth as many answers as there are engines: the one that takes it from the
  // queue and the others that may catch up with it.
  function Work(ws: Workers, ps: Producers): nat {
    |Backlog(ps)| * |ws| + |Gaps(ws, ps)| + |Busy(ws)|
  }

  // ---------- Every answer uses up some work ----------

  lemma Smaller<T>(a: set<T>, b: set<T>, x: T)
    requires a <= b && x in b && x !in a
    ensures |a| < |b|
  {
    UpTo(a, b - {x});
  }

  lemma {:induction false} UpTo<T>(a: set<T>, b: set<T>)
    requires a <= b
    ensures |a| <= |b|
    decreases a
  {
    if x :| x in a {
      UpTo(a - {x}, b - {x});
    }
  }

  // Logging and claiming move no frame.
  lemma ClaimMovesNothing(st: State, c: Context)
    requires Answers(st, c)
    ensures Work(st.workers[c := Logged(st, c)], AfterClaim(st, c)) == Work(st.workers, st.producers)
  {
    hide Claims;
    var ws, ps := st.workers[c := Logged(st, c)], AfterClaim(st, c);
    SameSize(ws, st.workers);
    assert ps.Keys == st.producers.Keys;
    assert forall pid :: pid in ps ==>
      ps[pid].queue == st.producers[pid].queue && ps[pid].latest == st.producers[pid].latest;
    assert Backlog(ps) == Backlog(st.producers);
    assert Gaps(ws, ps) == Gaps(st.workers, st.producers);
    assert Busy(ws) == Busy(st.workers);
  }

  lemma SameSize(ws: Workers, ws': Workers)
    requires ws.Keys == ws'.Keys
    ensures |ws| == |ws'|
  {
    assert |ws| == |ws.Keys| && |ws'| == |ws'.Keys|;
  }

  lemma IdlingFrees(ws: Workers, ps: Producers, c: Context)
    requires c in ws && ws[c].current.Some?
    ensures var ws' := ws[c := ws[c].(current := None)];
      Gaps(ws', ps) == Gaps(ws, ps) && |Busy(ws')| < |Busy(ws)|
  {
    var ws' := ws[c := ws[c].(current := None)];
    Smaller(Busy(ws'), Busy(ws), c);
  }

  lemma CatchingUpCloses(ws: Workers, ps: Producers, c: Context, pid: ProducerId, rotation: seq<ProducerId>)
    requires c in ws && ws[c].current.Some? && pid in ps && CanCatchUp(ws[c], pid, ps[pid])
    requires ps[pid].latest.value.metadata.producerId == pid
    ensures var ws' := ws[c := SendPayload(ws[c].(rotation := rotation), ps[pid].latest.value)];
      |Gaps(ws', ps)| < |Gaps(ws, ps)| && Busy(ws') == Busy(ws)
  {
    var ws' := ws[c := SendPayload(ws[c].(rotation := rotation), ps[pid].latest.value)];
    assert Gaps(ws', ps) <= Gaps(ws, ps);
    Smaller(Gaps(ws', ps), Gaps(ws, ps), (c, pid));
  }

  function Column(cs: set<Context>, pid: ProducerId): set<(Context, ProducerId)> {
    set c | c in cs :: (c, pid)
  }

  lemma {:induction false} ColumnSize(cs: set<Context>, pid: ProducerId)
    ensures |Column(cs, pid)| == |cs|
    decreases cs
  {
    if c :| c in cs {
      ColumnSize(cs - {c}, pid);
      assert Column(cs, pid) == Column(cs - {c}, pid) + {(c, pid)};
    } else {
      assert Column(cs, pid) == {};
    }
  }

  lemma DequeuingShortens(ps: Producers, pid: ProducerId)
    requires pid in ps && CanDequeue(ps[pid])
    ensures |Backlog(ps[pid := Dequeue(ps[pid])])| < |Backlog(ps)|
  {
    var ps' := ps[pid := Dequeue(ps[pid])];
    Smaller(Backlog(ps'), Backlog(ps), (pid, |ps[pid].queue| - 1));
  }

  lemma DequeuingOpens(ws: Workers, ps: Producers, c: Context, pid: ProducerId, rotation: seq<ProducerId>)
    requires c in ws && ws[c].current.Some? && pid in ps && CanDequeue(ps[pid])
    requires ps[pid].queue[0].metadata.producerId == pid
    ensures var ws' := ws[c := SendPayload(ws[c].(rotation := rotation), ps[pid].queue[0])];
      && |Gaps(ws', ps[pid := Dequeue(ps[pid])])| <= |Gaps(ws, ps)| + |ws| - 1
      && Busy(ws') == Busy(ws)
  {
    var ws' := ws[c := SendPayload(ws[c].(rotation := rotation), ps[pid].queue[0])];
    var after := Gaps(ws', ps[pid := Dequeue(ps[pid])]);
    var others := Column(ws.Keys - {c}, pid);
    assert after <= Gaps(ws, ps) + others;
    UpTo(after, Gaps(ws, ps) + others);
    ColumnSize(ws.Keys - {c}, pid);
    assert |ws| == |ws.Keys|;
  }

  // The frames a producer offers are its own.
  ghost predicate OwnFrames(ps: Producers) {
    forall pid :: pid in ps ==>
      && (ps[pid].queue != [] ==> ps[pid].queue[0].metadata.producerId == pid)
      && (ps[pid].latest.Some? ==> ps[pid].latest.value.metadata.producerId == pid)
  }

  lemma ClaimedOwnFrames(st: State, c: Context)
    requires Inv(st) && Answers(st, c)
    ensures OwnFrames(AfterClaim(st, c))
  {
    hide AllFit, AllHeld, IdsOk, Increasing;
    forall pid | pid in st.producers
      ensures st.producers[pid].queue != [] ==> st.producers[pid].queue[0].metadata.producerId == pid
      ensures st.producers[pid].latest.Some? ==> st.producers[pid].latest.value.metadata.producerId == pid
    {
      assert ProducerOk(pid, st.producers[pid]);
      if st.producers[pid].queue != [] {
        QueuedIsAccepted(pid, st.producers[pid], st.producers[pid].queue[0]);
      }
    }
  }

  lemma LessWork(b: nat, b': nat, w: nat, g: nat, g': nat)
    requires b' < b && g' < g + w
    ensures b' * w + g' < b * w + g
  {
    assert b * w == (b - 1) * w + w;
    assert b' * w <= (b - 1) * w;
  }

  lemma SearchUsesWork(ws: Workers, ps: Producers, c: Context)
    requires c in ws && ws[c].current.Some? && OwnFrames(ps)
    ensures Work(ws[c := SendNextWorker(ws[c], ps)], SendNextProducers(ws[c], ps)) < Work(ws, ps)
  {
    hide Backlog, Gaps, Busy, SendNextWorker, SendNextProducers, SendPayload;
    var w := ws[c];
    var k, pid := SendNextCases(w, ps);
    SameSize(ws[c := SendNextWorker(w, ps)], ws);
    if k > |w.rotation| {
      IdlingFrees(ws, ps, c);
    } else if CanDequeue(ps[pid]) {
      DequeuingShortens(ps, pid);
      DequeuingOpens(ws, ps, c, pid, Rotated(w.rotation, k));
      var ps' := SendNextProducers(w, ps);
      LessWork(|Backlog(ps)|, |Backlog(ps')|, |ws|, |Gaps(ws, ps)|, |Gaps(ws[c := SendNextWorker(w, ps)], ps')|);
    } else {
      CatchingUpCloses(ws, ps, c, pid, Rotated(w.rotation, k));
      assert ps[pid := ps[pid]] == ps;
    }
  }

  lemma AnswerUsesWork(st: State, c: Context)
    requires Inv(st) && Answers(st, c)
    ensures var st' := EngineResult(st, c); Work(st'.workers, st'.producers) < Work(st.workers, st.producers)
  {
    hide Inv, Work, SendNextWorker, SendNextProducers, Claims, AfterClaim, OwnFrames;
    var w, ps := Logged(st, c), AfterClaim(st, c);
    ClaimMovesNothing(st, c);
    ClaimedOwnFrames(st, c);
    SearchUsesWork(st.workers[c := w], ps, c);
    assert EngineResult(st, c).workers == st.workers[c := w][c := SendNextWorker(w, ps)];
  }

  // ---------- Engines come to rest ----------

  // Nothing happens but engines answering the frames they are working on.
  ghost predicate OnlyAnswers(st: State, steps: seq<Step>)
    decreases |steps|
  {
    steps == [] ||
    var before, step := steps[..|steps| - 1], steps[|steps| - 1];
    OnlyAnswers(st, before) && step.OnResult? && Answers(Exec(st, before), step.context)
  }

  ghost predicate AllIdle(workers: Workers) {
    forall c :: c in workers ==> workers[c].current.None?
  }

  lemma {:induction false} AnswersAreLegal(st: State, steps: seq<Step>)
    requires OnlyAnswers(st, steps)
    ensures LegalRun(st, steps) && RemovalFree(st, steps)
    decreases |steps|
  {
    if steps != [] {
      AnswersAreLegal(st, steps[..|steps| - 1]);
    }
  }

  // A run of answers is no longer than the work there was at its start.
  lemma {:induction false} AnswersRunOut(st: State, steps: seq<Step>)
    requires Inv(st) && OnlyAnswers(st, steps)
    ensures var st' := Exec(st, steps);
      |steps| + Work(st'.workers, st'.producers) <= Work(st.workers, st.producers)
    decreases |steps|
  {
    hide Inv, Work, EngineResult, Answers;
    if steps != [] {
      var before := steps[..|steps| - 1];
      AnswersRunOut(st, before);
      AnswersAreLegal(st, before);
      RunKeeps(st, before);
      AnswerUsesWork(Exec(st, before), steps[|steps| - 1].context);
    }
  }

  lemma BusyCanAnswer(st: State, c: Context)
    requires Inv(st) && c in st.workers && st.workers[c].current.Some?
    ensures Answers(st, c)
  {
    hide AllOk, AllHeld, IdsOk;
    assert WorkerOk(st.workers[c]) && Fits(st.workers[c], st.producers);
  }

  // From every state there is such a run after which all engines are idle.
  lemma ComesToRest(st: State, r: Result) returns (steps: seq<Step>)
    requires Inv(st)
    ensures OnlyAnswers(st, steps) && AllIdle(Exec(st, steps).workers)
    ensures |steps| <= Work(st.workers, st.producers)
  {
    hide Inv, Work, Next, Answers;
    steps := [];
    while !AllIdle(Exec(st, steps).workers)
      invariant OnlyAnswers(st, steps) && Inv(Exec(st, steps))
      decreases Work(Exec(st, steps).workers, Exec(st, steps).producers)
    {
      var now := Exec(st, steps);
      var c :| c in now.workers && now.workers[c].current.Some?;
      BusyCanAnswer(now, c);
      AnswerUsesWork(now, c);
      ResultKeeps(now, c);
      ExecSnoc(st, steps, OnResult(c, r));
      assert (steps + [OnResult(c, r)])[..|steps|] == steps;
      Unfold(now, c, r);
      steps := steps + [OnResult(c, r)];
    }
    AnswersRunOut(st, steps);
  }

  // ---------- Every frame is answered ----------

  lemma {:induction false} RunsAppend(st: State, steps: seq<Step>, more: seq<Step>)
    ensures Exec(st, steps + more) == Exec(Exec(st, steps), more)
    ensures LegalRun(st, steps + more) <==> LegalRun(st, steps) && LegalRun(Exec(st, steps), more)
    ensures RemovalFree(st, steps + more) <==> RemovalFree(st, steps) && RemovalFree(Exec(st, steps), more)
    decreases |more|
  {
    hide Next, Legal, Removes;
    if more == [] {
      assert steps + more == steps;
    } else {
      assert (steps + more)[..|steps + more| - 1] == steps + more[..|more| - 1];
      RunsAppend(st, steps, more[..|more| - 1]);
    }
  }

  // After any run without removals: if from then on engines only answer, there are no more
  // answers than work, and once all engines are idle every accepted frame has had its token
  // returned or was displaced.
  lemma EveryFrameAnswered(capacity: nat, steps: seq<Step>, more: seq<Step>, pid: ProducerId)
    requires LegalRun(Init(capacity), steps) && RemovalFree(Init(capacity), steps)
    requires OnlyAnswers(Exec(Init(capacity), steps), more)
    requires pid in Exec(Exec(Init(capacity), steps), more).producers
    ensures var st := Exec(Init(capacity), steps);
      var end := Exec(st, more);
      && |more| + Work(end.workers, end.producers) <= Work(st.workers, st.producers)
      && (AllIdle(end.workers) ==>
            && end.producers[pid].queue == [] && !end.producers[pid].pending
            && multiset(end.producers[pid].accepted) ==
               multiset(end.producers[pid].returned) + multiset(end.producers[pid].displaced))
  {
    hide Exec, LegalRun, RemovalFree, OnlyAnswers, Work;
    var st := Exec(Init(capacity), steps);
    ReachableOk(capacity, steps);
    AnswersRunOut(st, more);
    AnswersAreLegal(st, more);
    RunsAppend(Init(capacity), steps, more);
    if AllIdle(Exec(st, more).workers) {
      RestMeansAllAnswered(capacity, steps + more, pid);
    }
  }
}
