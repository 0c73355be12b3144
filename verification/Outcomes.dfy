/**
 How a client's session and an engine's session end of their own accord: exactly which
 message, which frame or which handler value does it.
 */
module Outcomes {
  import opened Protocol
  import opened HandlerResults
  import opened Accounts
  import opened Client
  import opened EngineRunner
  import opened Deployment
  import opened Conservation
  import opened WorldInvariant

  // The server's or an engine's word that no engine takes the input.
  predicate NoEngineReply(m: ToClient) {
    m.ResultWrapper? && m.result.code == NoEngineForInput
  }

  // What a message does to any client: which exception it ends the session with, if any, and otherwise
  // what it changes.
  lemma ConsumeExactly(c: Client, m: ToClient, consumerFails: bool)
    requires c.fault.None?
    ensures var d := Consume(c, m, consumerFails);
      var credit := m.ResultWrapper? && m.returnToken && m.result.code != NoEngineForInput
                     && !(m.result.code == Success && consumerFails);
      && (d.fault == Some(NoEngine) <==> NoEngineReply(m))
      && (d.fault == Some(ConsumerFailed) <==> m.ResultWrapper? && m.result.code == Success && consumerFails)
      && (d.fault == Some(UnknownProducer) <==> credit && m.producerId !in c.loops)
      && (d.fault == Some(Overreleased) <==>
            credit && m.producerId in c.loops && c.loops[m.producerId].tokens >= c.loops[m.producerId].max)
      && d.fault != Some(TargetNotConnected)
      && d.consumed == c.consumed + (if d.fault.None? then 1 else 0)
      && d.numTokens == (if m.Registered? then Some(m.numTokens) else c.numTokens)
      && d.view == (if m.ResultWrapper? then c.view else m.engineIds)
      && d.loops.Keys == c.loops.Keys
      && (forall pid :: pid in c.loops ==>
            var more := if d.fault.None? && credit && m.producerId == pid then 1 else 0;
            d.loops[pid] == c.loops[pid].(tokens := c.loops[pid].tokens + more))
  {
  }

  // In every world a run leads to, dealing with a message ends the client's session exactly when it is
  // a no-engine reply, or a success its consumer fails on; otherwise the client goes on to the next.
  lemma ConsumeOutcome(n: nat, capacity: nat, acts: seq<Action>, a: Address, consumerFails: bool)
    requires Enabled(After(Boot(n, capacity), acts), ConsumeMessage(a, consumerFails))
    ensures var w := After(Boot(n, capacity), acts);
      var c, d := w.clients[a], WorldNext(w, ConsumeMessage(a, consumerFails)).clients[a];
      var m := w.server.clients[a].outbox[c.consumed];
      && (d.fault == Some(NoEngine) <==> NoEngineReply(m))
      && (d.fault == Some(ConsumerFailed) <==> m.ResultWrapper? && m.result.code == Success && consumerFails)
      && (d.fault.None? <==> d.fault != Some(NoEngine) && d.fault != Some(ConsumerFailed))
      && d.consumed == c.consumed + if d.fault.None? then 1 else 0
  {
    hide After, ServerInv, EnginesOk, MailOk, InSync;
    WorldReachable(n, capacity, acts);
    var w := After(Boot(n, capacity), acts);
    var c := w.clients[a];
    assert ClientOk(w.server, a, c);
    ConsumeKeeps(w.server, a, c, consumerFails);
  }

  // Sending ends the session exactly when a target is not among the engines the client knows; only
  // otherwise is the frame written.
  lemma SendOutcome(w: World, a: Address, pid: ProducerId, targets: seq<EngineId>, payload: Blob)
    requires Enabled(w, SendFrame(a, pid, targets, payload))
    ensures var c, d := w.clients[a], WorldNext(w, SendFrame(a, pid, targets, payload)).clients[a];
      var known := forall id :: id in targets ==> id in c.view;
      && (d.fault == Some(TargetNotConnected) <==> !known) && (d.fault.None? <==> known)
      && |d.loops[pid].wire| == |c.loops[pid].wire| + (if known then 1 else 0)
      && d.loops[pid].tokens == c.loops[pid].tokens && (d.loops[pid].held <==> !known)
  {
  }

  // Finishing a job ends the engine's session exactly when the handler did not return a result with a
  // status and, on success, text, bytes or a message. Until then, and never after, it takes jobs.
  lemma JobOutcome(w: World, c: Context, value: HandlerValue)
    requires Enabled(w, EndJob(c, value))
    ensures var e := WorldNext(w, EndJob(c, value)).engines[c];
      && |e.out| == |w.engines[c].out| + 1 && e.handling.None?
      && (e.stopped <==>
            || !value.WithStatus?
            || (value.code == Success && (value.payload.NothingReturned? || value.payload.OtherReturned?)))
      && (e.stopped ==> !CanTake(e) && !CanFinish(e))
      && (!e.stopped ==> (CanTake(e) <==> e.queue != []))
  {
  }

  // ---------- Over runs ----------

  // The client has passed no no-engine reply; if one ended its session, it is the message at hand.
  ghost predicate RepliesHeeded(s: Server, a: Address, c: Client) {
    a in s.clients && c.consumed <= |s.clients[a].outbox| ==>
      && (forall k :: 0 <= k < c.consumed ==> !NoEngineReply(s.clients[a].outbox[k]))
      && (c.fault == Some(NoEngine) ==>
            c.consumed < |s.clients[a].outbox| && NoEngineReply(s.clients[a].outbox[c.consumed]))
  }

  lemma HeededLater(w: World, act: Action, a: Address, c: Client)
    requires WorldInv(w) && Enabled(w, act) && ServerPart(w, act).Some? && a in w.clients
    requires c.consumed == w.clients[a].consumed && RepliesHeeded(w.server, a, c)
    ensures RepliesHeeded(ServerNext(w.server, ServerPart(w, act).value), a, c)
  {
    hide ServerInv, EnginesOk, MailOk, WellRun, ServerNext, ServerPart, Enabled, Posted, ServerLegal, NoEngineReply;
    var s, step := w.server, ServerPart(w, act).value;
    if a in ServerNext(s, step).clients {
      assert ClientOk(s, a, w.clients[a]);
      PartLegal(w, act);
      SessionOlder(s, step, a);
      TokensMove(s, step, a, "");
    }
  }

  lemma HeededNow(w: World, act: Action, a: Address)
    requires WorldInv(w) && Enabled(w, act) && a in w.clients && RepliesHeeded(w.server, a, w.clients[a])
    requires act.OpenSession? ==> act.address != a
    ensures a in ClientsNext(w, act) && RepliesHeeded(w.server, a, ClientsNext(w, act)[a])
    ensures ServerPart(w, act).Some? ==> ClientsNext(w, act)[a].consumed == w.clients[a].consumed
  {
    hide WorldInv, NoEngineReply, ServerLegal;
    var c := w.clients[a];
    match act
    case ConsumeMessage(b, fails) =>
      if a == b {
        ConsumeExactly(c, w.server.clients[a].outbox[c.consumed], fails);
      }
    case _ =>
  }

  lemma {:induction false} HeededReachable(n: nat, capacity: nat, acts: seq<Action>, a: Address)
    requires a in After(Boot(n, capacity), acts).clients
    ensures var w := After(Boot(n, capacity), acts); RepliesHeeded(w.server, a, w.clients[a])
    decreases |acts|
  {
    hide WorldInv, Enabled, ServerPart, ServerNext, RepliesHeeded, ClientsNext;
    var before, act := acts[..|acts| - 1], acts[|acts| - 1];
    var w := After(Boot(n, capacity), before);
    WorldReachable(n, capacity, before);
    if a in w.clients {
      HeededReachable(n, capacity, before, a);
    }
    if Enabled(w, act) {
      OpensOnce(w, act);
      if a in w.clients {
        HeededNow(w, act, a);
        if ServerPart(w, act).Some? {
          HeededAfter(w, act, a);
        }
      } else {
        HeededFirst(w, act, a);
      }
    }
  }

  lemma HeededAfter(w: World, act: Action, a: Address)
    requires WorldInv(w) && Enabled(w, act) && ServerPart(w, act).Some? && a in w.clients && a in ClientsNext(w, act)
    requires RepliesHeeded(w.server, a, ClientsNext(w, act)[a])
    requires ClientsNext(w, act)[a].consumed == w.clients[a].consumed
    ensures RepliesHeeded(WorldNext(w, act).server, a, ClientsNext(w, act)[a])
  {
    hide WorldInv, RepliesHeeded, Enabled, ServerPart, ClientsNext, ServerNext;
    HeededLater(w, act, a, ClientsNext(w, act)[a]);
  }

  lemma HeededFirst(w: World, act: Action, a: Address)
    requires Enabled(w, act) && a !in w.clients && a in ClientsNext(w, act)
    ensures RepliesHeeded(WorldNext(w, act).server, a, ClientsNext(w, act)[a])
  {
    hide ServerLegal;
  }

  // In every run, an open session's client has dealt with no no-engine reply, and one that gave up for
  // lack of an engine is looking at such a reply.
  lemma NoEngineEndsSession(n: nat, capacity: nat, acts: seq<Action>, a: Address)
    requires var w := After(Boot(n, capacity), acts); a in w.clients && a in w.server.clients
    ensures var w := After(Boot(n, capacity), acts);
      var c, outbox := w.clients[a], w.server.clients[a].outbox;
      && c.consumed <= |outbox|
      && (forall k :: 0 <= k < c.consumed ==> !NoEngineReply(outbox[k]))
      && (c.fault == Some(NoEngine) ==> c.consumed < |outbox| && NoEngineReply(outbox[c.consumed]))
  {
    hide After, ServerInv, EnginesOk, MailOk, WellRun, NoEngineReply;
    HeededReachable(n, capacity, acts, a);
    WorldReachable(n, capacity, acts);
    assert ClientOk(After(Boot(n, capacity), acts).server, a, After(Boot(n, capacity), acts).clients[a]);
  }
}
