/**
 A client session: the token pools, the producer loops with their upload streams,
 and the consumer of the control stream. First over values, then as the objects
 whose methods update them in place.
 */
module Client {
  import opened Protocol

  // Ways in which a session's tasks end with an exception.
  datatype Fault = NoEngine | ConsumerFailed | UnknownProducer | Overreleased | TargetNotConnected

  // A producer's loop between two awaits. `held` says that it has taken a token and is
  // producing a frame; `wire` is what it wrote that the server has not read yet.
  datatype Loop = Loop(tokens: int, max: nat, held: bool, frameId: int, wire: seq<Input>)

  // `registrations` counts registration messages on their way to the server, `consumed` the
  // messages of the control stream already dealt with. A message whose processing raised
  // counts as not dealt with.
  datatype Client = Client(
    info: Blob,
    registrations: nat,
    numTokens: Option<nat>,
    view: set<EngineId>,
    loops: map<ProducerId, Loop>,
    consumed: nat,
    fault: Option<Fault>)

  function NewClient(info: Blob): Client {
    Client(info, 0, None, {}, map[], 0, None)
  }

  function NewLoop(numTokens: nat): Loop {
    Loop(numTokens, numTokens, false, 1, [])
  }

  // ---------- The producer loop ----------

  predicate CanAcquire(l: Loop) {
    !l.held && l.tokens >= 1
  }

  function Acquired(l: Loop): Loop {
    l.(tokens := l.tokens - 1, held := true)
  }

  // A bounded semaphore refuses to be released above its initial value.
  predicate CanRelease(l: Loop) {
    l.tokens < l.max
  }

  function Released(l: Loop): Loop {
    l.(tokens := l.tokens + 1)
  }

  function Sent(l: Loop, pid: ProducerId, targets: seq<EngineId>, payload: Blob): Loop {
    l.(held := false, frameId := l.frameId + 1, wire := l.wire + [Input(l.frameId, pid, targets, payload)])
  }

  predicate Connected(targets: seq<EngineId>, view: set<EngineId>) {
    forall id :: id in targets ==> id in view
  }

  function WithLoop(c: Client, pid: ProducerId, l: Loop): Client {
    c.(loops := c.loops[pid := l])
  }

  function Failed(c: Client, fault: Fault): Client {
    c.(fault := Some(fault))
  }

  predicate Running(c: Client, pid: ProducerId) {
    c.fault.None? && pid in c.loops
  }

  predicate CanStart(c: Client, pid: ProducerId) {
    c.fault.None? && c.numTokens.Some? && pid !in c.loops
  }

  function Start(c: Client, pid: ProducerId): Client
    requires CanStart(c, pid)
  {
    WithLoop(c, pid, NewLoop(c.numTokens.value))
  }

  function Acquire(c: Client, pid: ProducerId): Client
    requires Running(c, pid)
  {
    WithLoop(c, pid, Acquired(c.loops[pid]))
  }

  // The producer had nothing to send: the token goes back to the pool.
  function Abandon(c: Client, pid: ProducerId): Client
    requires Running(c, pid)
  {
    var l := c.loops[pid];
    if CanRelease(l) then WithLoop(c, pid, Released(l.(held := false))) else Failed(c, Overreleased)
  }

  function SendInput(c: Client, pid: ProducerId, targets: seq<EngineId>, payload: Blob): Client
    requires Running(c, pid)
  {
    if Connected(targets, c.view) then WithLoop(c, pid, Sent(c.loops[pid], pid, targets, payload))
    else Failed(WithLoop(c, pid, c.loops[pid].(frameId := c.loops[pid].frameId + 1)), TargetNotConnected)
  }

  // ---------- The consumer of the control stream ----------

  function ReturnToken(c: Client, pid: ProducerId): Client {
    if pid !in c.loops then Failed(c, UnknownProducer)
    else if CanRelease(c.loops[pid]) then WithLoop(c, pid, Released(c.loops[pid]))
    else Failed(c, Overreleased)
  }

  function ProcessResponse(c: Client, pid: ProducerId, returnToken: bool, r: Result, consumerFails: bool): Client {
    if r.code == Success && consumerFails then Failed(c, ConsumerFailed)
    else if r.code == NoEngineForInput then Failed(c, NoEngine)
    else if returnToken then ReturnToken(c, pid)
    else c
  }

  function Processed(c: Client, m: ToClient, consumerFails: bool): Client {
    match m
    case Registered(n, ids) => c.(numTokens := Some(n), view := ids)
    case EngineIdsUpdate(ids) => c.(view := ids)
    case ResultWrapper(pid, returnToken, r) => ProcessResponse(c, pid, returnToken, r, consumerFails)
  }

  function Consume(c: Client, m: ToClient, consumerFails: bool): Client {
    var d := Processed(c, m, consumerFails);
    if d.fault.None? then d.(consumed := c.consumed + 1) else d
  }

  // ---------- Objects ----------

  class TokenPool {
    const max: nat
    var value: int

    constructor (numTokens: nat)
      ensures max == numTokens && value == numTokens
    {
      max := numTokens;
      value := numTokens;
    }

    // Release the bounded semaphore; refused when it is already at its bound.
    method ReturnToken() returns (ok: bool)
      modifies this
      ensures ok <==> old(value) < max
      ensures value == if ok then old(value) + 1 else old(value)
    {
      ok := value < max;
      if ok {
        value := value + 1;
      }
    }

    // Acquire the semaphore, once it lets the caller through.
    method GetToken()
      requires value >= 1
      modifies this
      ensures value == old(value) - 1
    {
      value := value - 1;
    }
  }

  class ProducerLoop {
    const producerId: ProducerId
    const pool: TokenPool
    var frameId: int
    var held: bool
    var wire: seq<Input>

    constructor (producerId: ProducerId, numTokens: nat)
      ensures this.producerId == producerId && fresh(pool) && View() == NewLoop(numTokens)
    {
      this.producerId := producerId;
      frameId := 1;
      held := false;
      wire := [];
      pool := new TokenPool(numTokens);
    }

    ghost function View(): Loop
      reads this, pool
    {
      Loop(pool.value, pool.max, held, frameId, wire)
    }

    method GetToken()
      requires CanAcquire(View())
      modifies this, pool
      ensures View() == Acquired(old(View()))
    {
      pool.GetToken();
      held := true;
    }

    method ReturnToken() returns (ok: bool)
      modifies pool
      ensures ok <==> CanRelease(old(View()))
      ensures View() == if ok then Released(old(View())) else old(View())
    {
      ok := pool.ReturnToken();
    }

    // The producer gave no frame, or an empty one.
    method GiveUp() returns (ok: bool)
      modifies this, pool
      ensures ok <==> CanRelease(old(View()))
      ensures View() == if ok then Released(old(View()).(held := false)) else old(View())
    {
      ok := pool.ReturnToken();
      if ok {
        held := false;
      }
    }

    // Number the frame, check its targets against the engines known to be connected, write it.
    method SendFrame(targets: seq<EngineId>, payload: Blob, engineIds: set<EngineId>) returns (ok: bool)
      modifies this
      ensures ok <==> Connected(targets, engineIds)
      ensures View() == if ok then Sent(old(View()), producerId, targets, payload)
                        else old(View()).(frameId := old(View()).frameId + 1)
    {
      var input := Input(frameId, producerId, targets, payload);
      frameId := frameId + 1;
      ok := Subset(targets, engineIds);
      if ok {
        wire := wire + [input];
        held := false;
      }
    }
  }

  method Subset(targets: seq<EngineId>, engineIds: set<EngineId>) returns (ok: bool)
    ensures ok <==> Connected(targets, engineIds)
  {
    for k := 0 to |targets|
      invariant forall j :: 0 <= j < k ==> targets[j] in engineIds
    {
      if targets[k] !in engineIds {
        return false;
      }
    }
    return true;
  }

  ghost function Views(loops: map<ProducerId, ProducerLoop>): map<ProducerId, Loop>
    reads loops.Values, set l | l in loops.Values :: l.pool
  {
    map pid | pid in loops :: loops[pid].View()
  }

  // Every loop is its own object with its own pool.
  ghost predicate Separate(loops: map<ProducerId, ProducerLoop>) {
    && (forall pid :: pid in loops ==> loops[pid].producerId == pid)
    && (forall p, q :: p in loops && q in loops && p != q ==> loops[p] != loops[q] && loops[p].pool != loops[q].pool)
  }

  // Only this loop changed.
  lemma OneLoop(loops: map<ProducerId, ProducerLoop>, before: map<ProducerId, Loop>, pid: ProducerId)
    requires before.Keys == loops.Keys && pid in loops
    requires forall q :: q in loops && q != pid ==> loops[q].View() == before[q]
    ensures Views(loops) == before[pid := loops[pid].View()]
  {
  }

  lemma MoreLoops(loops: map<ProducerId, ProducerLoop>, pid: ProducerId, l: ProducerLoop)
    ensures Views(loops[pid := l]) == Views(loops)[pid := l.View()]
  {
  }

  lemma LoopViews(loops: map<ProducerId, ProducerLoop>)
    ensures Views(loops).Keys == loops.Keys && forall q :: q in loops ==> Views(loops)[q] == loops[q].View()
  {
  }

  class ClientSession {
    const info: Blob
    var registrations: nat
    var numTokens: Option<nat>
    var engineIds: set<EngineId>
    var loops: map<ProducerId, ProducerLoop>
    var consumed: nat
    var fault: Option<Fault>

    ghost predicate Valid()
      reads this
    {
      Separate(loops)
    }

    ghost function Footprint(): set<object>
      reads this
    {
      loops.Values + set l | l in loops.Values :: l.pool
    }

    ghost function View(): Client
      reads this, Footprint()
    {
      Client(info, registrations, numTokens, engineIds, Views(loops), consumed, fault)
    }

    constructor (info: Blob)
      ensures Valid() && View() == NewClient(info)
    {
      this.info := info;
      registrations, numTokens, engineIds, loops, consumed, fault := 0, None, {}, map[], 0, None;
    }

    // A producer's task gets going once the registration is acknowledged.
    method StartProducer(pid: ProducerId)
      requires Valid() && CanStart(View(), pid)
      modifies this
      ensures Valid() && View() == Start(old(View()), pid)
    {
      hide Views, ProducerLoop.View;
      LoopViews(loops);
      ghost var before := Views(loops);
      var l := new ProducerLoop(pid, numTokens.value);
      MoreLoops(loops, pid, l);
      loops := loops[pid := l];
      assert Views(loops) == before[pid := l.View()];
    }

    method GetToken(pid: ProducerId)
      requires Valid() && Running(View(), pid) && CanAcquire(View().loops[pid])
      modifies Footprint()
      ensures Valid() && View() == Acquire(old(View()), pid)
    {
      hide Views, ProducerLoop.View;
      LoopViews(loops);
      ghost var before := Views(loops);
      loops[pid].GetToken();
      OneLoop(loops, before, pid);
    }

    method GiveUp(pid: ProducerId)
      requires Valid() && Running(View(), pid)
      modifies this, Footprint()
      ensures Valid() && View() == Abandon(old(View()), pid)
    {
      hide Views, ProducerLoop.View;
      LoopViews(loops);
      ghost var before := Views(loops);
      var ok := loops[pid].GiveUp();
      OneLoop(loops, before, pid);
      if !ok {
        Raise(Overreleased);
      }
    }

    method SendFrame(pid: ProducerId, targets: seq<EngineId>, payload: Blob)
      requires Valid() && Running(View(), pid)
      modifies this, Footprint()
      ensures Valid() && View() == SendInput(old(View()), pid, targets, payload)
    {
      hide Views, ProducerLoop.View;
      LoopViews(loops);
      ghost var before := Views(loops);
      var ok := loops[pid].SendFrame(targets, payload, engineIds);
      OneLoop(loops, before, pid);
      if !ok {
        Raise(TargetNotConnected);
      }
    }

    // A task ends with an exception, and the session with it.
    method Raise(f: Fault)
      requires Valid()
      modifies this
      ensures Valid() && loops == old(loops) && consumed == old(consumed) && View() == Failed(old(View()), f)
    {
      hide Views;
      fault := Some(f);
    }

    method ReturnTo(pid: ProducerId)
      requires Valid()
      modifies this, Footprint()
      ensures Valid() && loops == old(loops) && consumed == old(consumed)
      ensures View() == ReturnToken(old(View()), pid)
    {
      hide Views, ProducerLoop.View;
      LoopViews(loops);
      if pid !in loops {
        Raise(UnknownProducer);
      } else {
        ghost var before := Views(loops);
        var ok := loops[pid].ReturnToken();
        OneLoop(loops, before, pid);
        if !ok {
          Raise(Overreleased);
        }
      }
    }

    method HandOver(pid: ProducerId, returnToken: bool, r: Result, consumerFails: bool)
      requires Valid()
      modifies this, Footprint()
      ensures Valid() && loops == old(loops) && consumed == old(consumed)
      ensures View() == ProcessResponse(old(View()), pid, returnToken, r, consumerFails)
    {
      hide Views, ReturnToken;
      if r.code == Success && consumerFails {
        Raise(ConsumerFailed);
      } else if r.code == NoEngineForInput {
        Raise(NoEngine);
      } else if returnToken {
        ReturnTo(pid);
      }
    }

    // One message of the control stream.
    method HandleMessage(m: ToClient, consumerFails: bool)
      requires Valid() && fault.None?
      modifies this, Footprint()
      ensures Valid() && View() == Consume(old(View()), m, consumerFails)
    {
      hide Views, ProcessResponse;
      match m {
        case Registered(n, ids) => numTokens, engineIds := Some(n), ids;
        case EngineIdsUpdate(ids) => engineIds := ids;
        case ResultWrapper(pid, returnToken, r) => HandOver(pid, returnToken, r, consumerFails);
      }
      assert View() == Processed(old(View()), m, consumerFails);
      if fault.None? {
        consumed := consumed + 1;
      }
    }
  }
}
