/**
 The process around a cognitive engine: a reader that queues the frames received
 from the server, and a worker that takes them one by one, runs the handler and
 writes the result back. No frame id crosses the wire in either direction.
 */
module EngineRunner {
  import opened Protocol
  import opened HandlerResults

  // `read` counts the messages read from the server, `out` holds the results written that
  // the server has not read yet.
  datatype Runner = Runner(
    engineId: EngineId,
    read: nat,
    queue: seq<Job>,
    handling: Option<Job>,
    out: seq<Result>,
    stopped: bool)

  function NewRunner(id: EngineId): Runner {
    Runner(id, 0, [], None, [], false)
  }

  function ReadFrame(r: Runner, f: Frame): Runner {
    r.(read := r.read + 1, queue := r.queue + [JobOf(f)])
  }

  predicate CanTake(r: Runner) {
    !r.stopped && r.handling.None? && r.queue != []
  }

  function TakeJob(r: Runner): Runner
    requires CanTake(r)
  {
    r.(queue := r.queue[1..], handling := Some(r.queue[0]))
  }

  predicate CanFinish(r: Runner) {
    !r.stopped && r.handling.Some?
  }

  // A malformed value is reported to the server and ends the session.
  function FinishJob(r: Runner, value: HandlerValue): Runner
    requires CanFinish(r)
  {
    var built := BuildResultProto(r.engineId, r.handling.value, value);
    r.(handling := None, out := r.out + [built.result], stopped := built.Malformed?)
  }

  class EngineLoop {
    const engineId: EngineId
    var read: nat
    var frameQueue: seq<Job>
    var handling: Option<Job>
    var out: seq<Result>
    var stopped: bool

    constructor (engineId: EngineId)
      ensures View() == NewRunner(engineId)
    {
      this.engineId := engineId;
      read, frameQueue, handling, out, stopped := 0, [], None, [], false;
    }

    ghost function View(): Runner
      reads this
    {
      Runner(engineId, read, frameQueue, handling, out, stopped)
    }

    method Reader(toEngine: Frame)
      requires !stopped
      modifies this
      ensures View() == ReadFrame(old(View()), toEngine)
    {
      read := read + 1;
      frameQueue := frameQueue + [JobOf(toEngine)];
    }

    method WorkerGet()
      requires CanTake(View())
      modifies this
      ensures View() == TakeJob(old(View()))
    {
      handling := Some(frameQueue[0]);
      frameQueue := frameQueue[1..];
    }

    // The handler has returned `value`.
    method WorkerWrite(value: HandlerValue)
      requires CanFinish(View())
      modifies this
      ensures View() == FinishJob(old(View()), value)
    {
      var built := BuildResultProto(engineId, handling.value, value);
      out := out + [built.result];
      handling := None;
      if built.Malformed? {
        stopped := true;
      }
    }
  }
}
