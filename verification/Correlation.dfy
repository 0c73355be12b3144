/**
 Matching results to frames without ids on the wire. Across the server's record,
 both directions of an engine's stream, the runner's queue and the handler, an
 engine has exactly one frame outstanding while the server records one, and none
 otherwise; so the frame the server stamps on a result is the frame the handler
 was given.
 */
module Correlation {
  import opened Protocol
  import opened Scheduler
  import opened Invariant
  import opened Guarantees
  import opened HandlerResults
  import opened Accounts
  import opened EngineRunner

  // ---------- The pipeline of one engine ----------

  function Origins(out: seq<Result>): (r: seq<Option<Job>>)
    ensures |r| == |out|
    ensures forall i :: 0 <= i < |out| ==> r[i] == out[i].origin
  {
    seq(|out|, i requires 0 <= i < |out| => out[i].origin)
  }

  function Queued(queue: seq<Job>): (r: seq<Option<Job>>)
    ensures |r| == |queue|
    ensures forall i :: 0 <= i < |queue| ==> r[i] == Some(queue[i])
  {
    seq(|queue|, i requires 0 <= i < |queue| => Some(queue[i]))
  }

  function Jobs(frames: seq<Frame>): (r: seq<Option<Job>>)
    ensures |r| == |frames|
    ensures forall i :: 0 <= i < |frames| ==> r[i] == Some(JobOf(frames[i]))
  {
    seq(|frames|, i requires 0 <= i < |frames| => Some(JobOf(frames[i])))
  }

  function Handling(r: Runner): seq<Option<Job>> {
    if r.handling.Some? then [r.handling] else []
  }

  // Everything between the server's two ends of the engine's stream, oldest first: results
  // on their way back, the job being handled, queued jobs, frames on their way out.
  function Pipeline(r: Runner, sent: seq<Frame>): seq<Option<Job>>
    requires r.read <= |sent|
  {
    Origins(r.out) + Handling(r) + Queued(r.queue) + Jobs(sent[r.read..])
  }

  // The server's record says the same.
  ghost predicate RunnerOk(w: Worker, r: Runner) {
    && w.engineId == r.engineId
    && r.read <= |w.sent| && |w.completed| <= |w.sent|
    && Pipeline(r, w.sent) == Jobs(w.sent[|w.completed|..])
    && forall x :: x in r.out ==> x.engineId == r.engineId
  }

  // ---------- The runner moves ----------

  lemma ReadKeeps(w: Worker, r: Runner)
    requires RunnerOk(w, r) && r.read < |w.sent|
    ensures RunnerOk(w, ReadFrame(r, w.sent[r.read]))
  {
    hide Pipeline;
    PipelineShifts(r, w.sent);
  }

  // Reading moves a frame along the pipeline.
  lemma PipelineShifts(r: Runner, sent: seq<Frame>)
    requires r.read < |sent|
    ensures Pipeline(ReadFrame(r, sent[r.read]), sent) == Pipeline(r, sent)
  {
    var q := ReadFrame(r, sent[r.read]);
    var x, y := Origins(r.out) + Handling(r), Queued(r.queue);
    var z, end := [Some(JobOf(sent[r.read]))], Jobs(sent[q.read..]);
    assert Jobs(sent[r.read..]) == z + end;
    assert Queued(q.queue) == y + z;
    assert x + (y + z) + end == x + y + (z + end);
  }

  lemma TakeKeeps(w: Worker, r: Runner)
    requires RunnerOk(w, r) && CanTake(r)
    ensures RunnerOk(w, TakeJob(r))
  {
    hide Pipeline;
    PipelineTakes(r, w.sent);
  }

  lemma PipelineTakes(r: Runner, sent: seq<Frame>)
    requires CanTake(r) && r.read <= |sent|
    ensures Pipeline(TakeJob(r), sent) == Pipeline(r, sent)
  {
    var q := TakeJob(r);
    var x, y, z, end := Origins(r.out), [Some(r.queue[0])], Queued(q.queue), Jobs(sent[r.read..]);
    assert Queued(r.queue) == y + z;
    Regroup(x, y, z, end);
  }

  lemma Regroup(x: seq<Option<Job>>, y: seq<Option<Job>>, z: seq<Option<Job>>, end: seq<Option<Job>>)
    ensures x + [] + (y + z) + end == x + y + z + end
    ensures (x + y) + [] + z + end == x + y + z + end
  {
    assert x + [] == x && (x + y) + [] == x + y;
    assert x + (y + z) == x + y + z;
  }

  lemma FinishKeeps(w: Worker, r: Runner, value: HandlerValue)
    requires RunnerOk(w, r) && CanFinish(r)
    ensures RunnerOk(w, FinishJob(r, value))
  {
    hide Pipeline;
    PipelineFinishes(r, w.sent, value);
  }

  lemma PipelineFinishes(r: Runner, sent: seq<Frame>, value: HandlerValue)
    requires CanFinish(r) && r.read <= |sent|
    ensures Pipeline(FinishJob(r, value), sent) == Pipeline(r, sent)
  {
    var q := FinishJob(r, value);
    var x, y, z, end := Origins(r.out), [r.handling], Queued(r.queue), Jobs(sent[r.read..]);
    assert Origins(q.out) == x + y;
    Regroup(x, y, z, end);
  }

  lemma StopKeeps(w: Worker, r: Runner)
    requires RunnerOk(w, r)
    ensures RunnerOk(w, r.(stopped := true))
  {
    assert Pipeline(r.(stopped := true), w.sent) == Pipeline(r, w.sent);
  }

  // ---------- The server moves ----------

  // A worker that may have been sent more, but has not answered.
  ghost predicate SentMore(w: Worker, v: Worker) {
    w.sent <= v.sent && v.completed == w.completed && v.engineId == w.engineId
  }

  lemma SendKeeps(w: Worker, v: Worker, r: Runner)
    requires RunnerOk(w, r) && SentMore(w, v)
    ensures RunnerOk(v, r)
  {
    hide Pipeline;
    var more := v.sent[|w.sent|..];
    assert v.sent == w.sent + more;
    JobsAfter(w.sent, more, |w.completed|);
    PipelineGrows(r, w.sent, more);
  }

  lemma JobsAfter(sent: seq<Frame>, more: seq<Frame>, k: nat)
    requires k <= |sent|
    ensures Jobs((sent + more)[k..]) == Jobs(sent[k..]) + Jobs(more)
  {
    assert (sent + more)[k..] == sent[k..] + more;
  }

  lemma PipelineGrows(r: Runner, sent: seq<Frame>, more: seq<Frame>)
    requires r.read <= |sent|
    ensures Pipeline(r, sent + more) == Pipeline(r, sent) + Jobs(more)
  {
    JobsAfter(sent, more, r.read);
    var x, y, z := Origins(r.out) + Handling(r) + Queued(r.queue), Jobs(sent[r.read..]), Jobs(more);
    assert x + (y + z) == x + y + z;
  }

  lemma InputSends(st: State, f: Frame, c: Context)
    requires c in st.workers
    ensures c in ClientInput(st, f).workers && SentMore(st.workers[c], ClientInput(st, f).workers[c])
  {
    hide HasTarget, ClientInput;
    InputWorkers(st, f);
  }

  // Every step that keeps a worker, other than reading its result, leaves it unanswered.
  lemma OthersSend(s: Server, step: ServerStep, c: Context)
    requires c in s.sched.workers && c in ServerNext(s, step).sched.workers
    requires ServerLegal(s, step)
    requires step.Engines? && step.step.OnResult? ==> step.step.context != c
    ensures SentMore(s.sched.workers[c], ServerNext(s, step).sched.workers[c])
  {
    hide ClientInput, SendNextWorker, SendNextProducers, AfterLoss, Incumbent;
    match step
    case Opens(a) =>
    case Closes(a) =>
    case Receives(a, m) =>
      if Scheduled(s, a, m).Some? {
        InputSends(s.sched, Scheduled(s, a, m).value.frame, c);
      }
    case Engines(e) =>
  }

  // A worker appears only by connecting, with nothing sent.
  lemma Newcomers(s: Server, step: ServerStep, c: Context)
    requires c !in s.sched.workers && c in ServerNext(s, step).sched.workers
    requires ServerLegal(s, step)
    ensures step.Engines? && step.step.OnConnect? && step.step.context == c
    ensures ServerNext(s, step).sched.workers[c] == NewWorker(step.step.engineId, step.step.allResponses)
  {
    hide SendNextWorker, SendNextProducers, AfterLoss, Incumbent, HasTarget, HasIdleTarget;
  }

  lemma NewcomerOk(id: EngineId, all: bool)
    ensures RunnerOk(NewWorker(id, all), NewRunner(id))
  {
  }

  // ---------- Reading a result ----------

  // The result at the head of the stream belongs to the frame the server has on record.
  lemma ResultBelongs(st: State, c: Context, r: Runner) returns (f: Frame)
    requires Inv(st) && c in st.workers && RunnerOk(st.workers[c], r) && r.out != []
    ensures Answers(st, c)
    ensures st.workers[c].sent != [] && f == st.workers[c].sent[|st.workers[c].sent| - 1]
    ensures st.workers[c].current == Some(f.metadata)
    ensures f in st.producers[f.metadata.producerId].accepted
    ensures r.out[0].origin == Some(JobOf(f)) && r.out[0].engineId == st.workers[c].engineId
    ensures Pipeline(r, st.workers[c].sent) == [Some(JobOf(f))]
  {
    hide Pipeline;
    var w := st.workers[c];
    assert WorkerOk(w) && Fits(w, st.producers);
    PipelineHead(w, r);
    f := LastSent(w);
    assert Known(st.producers, f);
    assert Jobs([f]) == [Some(JobOf(f))];
  }

  // A worker that owes an answer owes it for the last frame it was sent.
  lemma LastSent(w: Worker) returns (f: Frame)
    requires OneOutstanding(w) && |w.completed| < |w.sent|
    ensures f in w.sent && f == w.sent[|w.sent| - 1]
    ensures w.current == Some(f.metadata) && w.sent[|w.completed|..] == [f]
  {
    assert |w.sent| == |Metas(w.sent)| == |w.completed| + |Outstanding(w)|;
    f := w.sent[|w.sent| - 1];
    assert Metas(w.sent)[|w.sent| - 1] == w.current.value;
  }

  lemma PipelineHead(w: Worker, r: Runner)
    requires RunnerOk(w, r) && r.out != []
    ensures |w.completed| < |w.sent| && r.out[0].engineId == w.engineId
    ensures Pipeline(r, w.sent) == Jobs(w.sent[|w.completed|..])
    ensures r.out[0].origin == Jobs(w.sent[|w.completed|..])[0]
  {
    assert Pipeline(r, w.sent)[0] == r.out[0].origin;
    assert r.out[0] in r.out;
  }

  lemma AnswerMoves(st: State, c: Context)
    requires Answers(st, c)
    ensures c in EngineResult(st, c).workers
    ensures var w, v := st.workers[c], EngineResult(st, c).workers[c];
      w.sent <= v.sent && v.completed == w.completed + [w.current.value] && v.engineId == w.engineId
  {
    var _, _ := SendNextCases(Logged(st, c), AfterClaim(st, c));
  }

  lemma DeliverKeeps(st: State, c: Context, r: Runner)
    requires Inv(st) && c in st.workers && RunnerOk(st.workers[c], r) && r.out != []
    ensures c in EngineResult(st, c).workers
    ensures RunnerOk(EngineResult(st, c).workers[c], r.(out := r.out[1..]))
  {
    hide Inv, EngineResult, Pipeline;
    var f := ResultBelongs(st, c, r);
    AnswerMoves(st, c);
    var w, v, q := st.workers[c], EngineResult(st, c).workers[c], r.(out := r.out[1..]);
    var u := w.(completed := w.completed + [w.current.value]);
    AnsweredPipeline(w, r, f);
    assert RunnerOk(u, q);
    SendKeeps(u, v, q);
  }

  lemma AnsweredPipeline(w: Worker, r: Runner, f: Frame)
    requires RunnerOk(w, r) && r.out != [] && Pipeline(r, w.sent) == [Some(JobOf(f))]
    ensures var q := r.(out := r.out[1..]);
      |w.completed| + 1 <= |w.sent| && Pipeline(q, w.sent) == Jobs(w.sent[|w.completed| + 1..])
  {
    var q := r.(out := r.out[1..]);
    assert Origins(r.out) == [r.out[0].origin] + Origins(q.out);
    assert Pipeline(r, w.sent) == [r.out[0].origin] + Pipeline(q, w.sent);
    assert |w.sent[|w.completed|..]| == 1;
  }
}
