/**
 The server object: connected workers, known producers, the shared id set and the
 client-facing server. Its handlers are proved to take exactly the steps of the
 scheduler's state machine, to send exactly their effects, and to keep the
 scheduler's invariant.
 */
module Server {
  import opened Protocol
  import opened Scheduler
  import opened Sessions
  import opened Invariant
  import opened ServerRunner

  ghost predicate TableOk(table: map<ProducerId, ProducerInfo>, maxlen: nat) {
    forall id :: id in table ==> table[id].producerId == id && table[id].maxlen == maxlen
  }

  // Every worker's producers are the server's producers.
  ghost predicate AllInTable(table: map<ProducerId, ProducerInfo>, rotations: map<Context, seq<ProducerInfo>>) {
    forall c, p :: c in rotations && p in rotations[c] ==> p.producerId in table && table[p.producerId] == p
  }

  // Rotations may be reordered but hold the same producers.
  ghost predicate SameMembers(before: map<Context, seq<ProducerInfo>>, after: map<Context, seq<ProducerInfo>>) {
    after.Keys == before.Keys && forall c, p :: c in after && p in after[c] ==> p in before[c]
  }

  lemma StillInTable(table: map<ProducerId, ProducerInfo>, before: map<Context, seq<ProducerInfo>>,
                     after: map<Context, seq<ProducerInfo>>)
    requires AllInTable(table, before) && SameMembers(before, after)
    ensures AllInTable(table, after)
  {
  }

  lemma SameMembersOne(before: map<Context, seq<ProducerInfo>>, after: map<Context, seq<ProducerInfo>>, c: Context)
    requires after.Keys == before.Keys && c in before && forall p :: p in after[c] ==> p in before[c]
    requires forall d :: d in before && d != c ==> after[d] == before[d]
    ensures SameMembers(before, after)
  {
  }

  lemma RotationInTable(workers: map<Context, EngineWorker>, table: map<ProducerId, ProducerInfo>,
                        maxlen: nat, c: Context)
    requires TableOk(table, maxlen) && AllInTable(table, Rotations(workers)) && c in workers
    ensures InTable(table, workers[c].rotation)
    ensures forall p :: p in workers[c].rotation ==> p in table.Values
  {
    forall p | p in workers[c].rotation
      ensures p.producerId in table && table[p.producerId] == p && p in table.Values
    {
      assert p in Rotations(workers)[c];
    }
  }

  // Log one worker's answer.
  ghost method RecordOne(workers: map<Context, EngineWorker>, c: Context, claims: bool)
    requires DistinctWorkers(workers) && AllWired(workers) && c in workers
    requires WorkerViews(workers)[c].current.Some?
    modifies workers[c]
    ensures AllWired(workers) && SameMembers(old(Rotations(workers)), Rotations(workers))
    ensures WorkerViews(workers) ==
            old(WorkerViews(workers))[c := LogAnswer(old(WorkerViews(workers))[c], claims)]
  {
    hide LogAnswer, SameMembers, EngineWorker.WireOk;
    var ws, rs := WorkerViews(workers), Rotations(workers);
    workers[c].RecordAnswer(claims);
    OneWorkerChanged(ws, WorkerViews(workers), c);
    SameMembersOne(rs, Rotations(workers), c);
  }

  // Find one worker its next input.
  method SearchOne(workers: map<Context, EngineWorker>, table: map<ProducerId, ProducerInfo>, c: Context)
    requires DistinctWorkers(workers) && AllWired(workers) && c in workers
    requires InTable(table, workers[c].rotation)
    requires forall p :: p in workers[c].rotation ==> p in table.Values
    modifies workers[c], table.Values
    ensures AllWired(workers) && SameMembers(old(Rotations(workers)), Rotations(workers))
    ensures var w, ps := old(WorkerViews(workers))[c], old(ProducerViews(table));
      && WorkerViews(workers) == old(WorkerViews(workers))[c := SendNextWorker(w, ps)]
      && ProducerViews(table) == SendNextProducers(w, ps)
  {
    hide SendNextWorker, SendNextProducers, SameMembers, ProducerViews, InTable, EngineWorker.View, EngineWorker.WireOk;
    ghost var ws, rs := WorkerViews(workers), Rotations(workers);
    workers[c].SendNextInput(table);
    OneWorkerChanged(ws, WorkerViews(workers), c);
    SameMembersOne(rs, Rotations(workers), c);
  }

  lemma WorkerFields(workers: map<Context, EngineWorker>, c: Context)
    requires c in workers
    ensures var w := WorkerViews(workers)[c];
      && w.engineId == workers[c].engineId && w.allResponses == workers[c].allResponses
      && w.current == workers[c].current
  {
  }

  lemma FewerWorkers(workers: map<Context, EngineWorker>, table: map<ProducerId, ProducerInfo>, c: Context)
    requires DistinctWorkers(workers) && AllWired(workers) && AllInTable(table, Rotations(workers))
    ensures DistinctWorkers(workers - {c}) && AllWired(workers - {c})
    ensures AllInTable(table, Rotations(workers - {c}))
    ensures WorkerViews(workers - {c}) == WorkerViews(workers) - {c}
  {
    assert Rotations(workers - {c}) == Rotations(workers) - {c};
  }

  lemma MoreViews(workers: map<Context, EngineWorker>, c: Context, worker: EngineWorker)
    ensures WorkerViews(workers[c := worker]) == WorkerViews(workers)[c := worker.View()]
    ensures Rotations(workers[c := worker]) == Rotations(workers)[c := worker.rotation]
  {
  }

  lemma MoreInTable(table: map<ProducerId, ProducerInfo>, rotations: map<Context, seq<ProducerInfo>>, c: Context)
    requires AllInTable(table, rotations)
    ensures AllInTable(table, rotations[c := []])
  {
  }

  lemma MoreWorkers(workers: map<Context, EngineWorker>, c: Context, worker: EngineWorker)
    requires DistinctWorkers(workers) && AllWired(workers)
    requires worker !in workers.Values && worker.WireOk()
    ensures DistinctWorkers(workers[c := worker]) && AllWired(workers[c := worker])
  {
    assert forall d :: d in workers ==> workers[d] in workers.Values;
  }

  lemma ProducerFields(table: map<ProducerId, ProducerInfo>, pid: ProducerId)
    requires pid in table
    ensures ProducerViews(table)[pid].pending == table[pid].pending
    ensures ProducerViews(table)[pid].latest == table[pid].latest
  {
  }

  lemma PendingHasLatest(st: State, pid: ProducerId)
    requires Inv(st) && pid in st.producers && st.producers[pid].pending
    ensures st.producers[pid].latest.Some?
  {
    hide AllFit, AllHeld, IdsOk;
    assert ProducerOk(pid, st.producers[pid]);
  }

  lemma ClaimingAnswer(st: State, c: Context)
    requires Claims(st, c)
    ensures var pid := st.workers[c].current.value.producerId;
      var w, ps := LogAnswer(st.workers[c], true), st.producers[pid := Claim(st.producers[pid])];
      EngineResult(st, c) ==
      st.(workers := st.workers[c := SendNextWorker(w, ps)], producers := SendNextProducers(w, ps))
  {
  }

  lemma OtherAnswer(st: State, c: Context)
    requires Answers(st, c) && !Claims(st, c)
    ensures var w := LogAnswer(st.workers[c], false);
      EngineResult(st, c) ==
      st.(workers := st.workers[c := SendNextWorker(w, st.producers)], producers := SendNextProducers(w, st.producers))
  {
  }

  // What a single answer does to the clients.
  lemma AnswerEffects(st: State, cs: Clients, c: Context, r: Result)
    ensures Apply(cs, EngineResultEffects(st, c, r)) ==
      if !Answers(st, c) || !(Claims(st, c) || st.workers[c].allResponses) then cs
      else
        var md := st.workers[c].current.value;
        Sessions.SendResult(cs, md.address, md.producerId, r.(frameId := md.frameId), Claims(st, c))
  {
    var effects := EngineResultEffects(st, c, r);
    if effects != [] {
      ApplySingle(cs, effects[0]);
    }
  }

  lemma NoLoss(st: State, cs: Clients, c: Context)
    requires !Answers(st, c)
    ensures AfterLoss(st, c) == st.producers && Apply(cs, LossNotice(st, c)) == cs
  {
  }

  // What losing an engine in the middle of a frame means for the producer and the client.
  lemma LossMeans(st: State, cs: Clients, c: Context)
    requires Answers(st, c)
    ensures var w, md := st.workers[c], st.workers[c].current.value;
      var p := st.producers[md.producerId];
      var result := Result(EngineError, NoPayload, w.engineId, md.frameId, None);
      var told := p.latest.Some? && md == p.latest.value.metadata && (p.pending || w.allResponses);
      && AfterLoss(st, c) == (if told then st.producers[md.producerId := Claim(p)] else st.producers)
      && Apply(cs, LossNotice(st, c)) ==
         (if told then Sessions.SendResult(cs, md.address, md.producerId, result, p.pending) else cs)
  {
    var md := st.workers[c].current.value;
    var p := st.producers[md.producerId];
    var notice := LossNotice(st, c);
    if notice != [] {
      ApplySingle(cs, notice[0]);
    }
    if !p.pending {
      assert Claim(p) == p && st.producers[md.producerId := p] == st.producers;
    }
  }

  ghost function EvictClients(st: State, cs: Clients, id: EngineId): Clients {
    var incumbent := Incumbent(st, id);
    if incumbent.Some? then Apply(cs, DisconnectEffects(st, incumbent.value)) else cs
  }

  lemma NoIncumbent(st: State, id: EngineId)
    requires id !in st.engineIds
    ensures Incumbent(st, id).None?
  {
  }

  // Connecting is evicting, joining, and telling everyone.
  lemma EvictSteps(st: State, cs: Clients, id: EngineId)
    ensures Apply(cs, ConnectEffects(st, id)) ==
            Broadcast(EvictClients(st, cs, id), Evict(st, id).engineIds + {id})
  {
    hide Incumbent, DisconnectEffects, Disconnect, Broadcast;
    var incumbent := Incumbent(st, id);
    var announce := Announce(Evict(st, id).engineIds + {id});
    if incumbent.Some? {
      ApplyAppend(cs, DisconnectEffects(st, incumbent.value), [announce]);
    } else {
      assert ConnectEffects(st, id) == [announce];
    }
    ApplySingle(EvictClients(st, cs, id), announce);
  }

  lemma JoinIdSet(st: State, c: Context, id: EngineId, all: bool)
    ensures Join(st, c, id, all).engineIds == st.engineIds + {id}
  {
  }

  lemma MoreProducers(table: map<ProducerId, ProducerInfo>, rotations: map<Context, seq<ProducerInfo>>,
                      pid: ProducerId, p: ProducerInfo)
    requires pid !in table && AllInTable(table, rotations) && p.View() == NEW_PRODUCER
    ensures AllInTable(table[pid := p], rotations)
    ensures ProducerViews(table[pid := p]) == WithProducer(ProducerViews(table), pid)
  {
  }

  lemma ProducerView(table: map<ProducerId, ProducerInfo>, maxlen: nat, p: ProducerInfo)
    requires TableOk(table, maxlen) && p.producerId in table && table[p.producerId] == p
    ensures ProducerViews(table)[p.producerId] == p.View()
    ensures forall id :: id in table && id != p.producerId ==>
      table[id] != p && table[id].View() == ProducerViews(table)[id]
  {
  }

  lemma EveryoneKnows(workers: map<Context, EngineWorker>, table: map<ProducerId, ProducerInfo>, p: ProducerInfo)
    requires AllInTable(table, Rotations(workers)) && p.producerId in table && table[p.producerId] == p
    ensures AllKnow(workers, p)
  {
    forall c, q | c in workers && q in workers[c].rotation && q.producerId == p.producerId
      ensures q == p
    {
      assert q in Rotations(workers)[c];
    }
  }

  lemma AddedInTable(table: map<ProducerId, ProducerInfo>, before: map<Context, seq<ProducerInfo>>,
                     after: map<Context, seq<ProducerInfo>>, p: ProducerInfo)
    requires AllInTable(table, before) && AllAdd(before, p, after)
    requires p.producerId in table && table[p.producerId] == p
    ensures AllInTable(table, after)
  {
  }

  // Only this producer changed.
  lemma OtherProducers(table: map<ProducerId, ProducerInfo>, ps: Producers, p: ProducerInfo)
    requires ps.Keys == table.Keys && p.producerId in table && table[p.producerId] == p
    requires forall id :: id in table && id != p.producerId ==> table[id].View() == ps[id]
    ensures ProducerViews(table) == ps[p.producerId := p.View()]
  {
  }

  // Processing an input, put together.
  lemma InputSteps(st: State, ps: Producers, f: Frame)
    requires ps == WithProducer(st.producers, f.metadata.producerId)
    ensures var p := ps[f.metadata.producerId];
      var status := InputOutcome(st.workers, |p.queue| == st.capacity, f);
      && InputStatus(st, f) == status
      && ClientInput(st, f) ==
         st.(workers := if HasTarget(st.workers, f) then OfferAll(st.workers, f) else st.workers,
             producers := ps[f.metadata.producerId := ProducerAfterInput(st.workers, p, status, f)])
  {
    var pid := f.metadata.producerId;
    assert ps[pid := ps[pid]] == ps;
  }

  // Receiving an input, split at the check: what is refused and what is passed on.
  lemma InputMeans(cs: Clients, numTokens: nat, st: State, address: Address, i: Input)
    requires address in cs
    ensures var s := cs[address];
      var s1 := if s.clientInfo.None? then s else WithAccount(s, numTokens, i.producerId);
      if Admits(s, numTokens, i) then
        var f := FrameOf(address, s.clientInfo.value, i);
        && Admits(s1, numTokens, i) && s1.clientInfo == s.clientInfo && i.producerId in s1.tokens
        && ReceiveState(cs, numTokens, st, address, InputMessage(i)) == ClientInput(st, f)
        && ReceiveClients(cs, numTokens, st, address, InputMessage(i)) ==
           cs[address := s1][address := AfterInput(s1, numTokens, i, InputStatus(st, f))]
      else
        var refusal := if s.clientInfo.None? then UnspecifiedError else NoTokens;
        && ReceiveState(cs, numTokens, st, address, InputMessage(i)) == st
        && ReceiveClients(cs, numTokens, st, address, InputMessage(i)) ==
           cs[address := s1][address := Post(s1, ErrorResponse(i, refusal))]
  {
  }

  // An admitted input is numbered above what its session's producer has sent before.
  ghost predicate InOrder(st: State, cs: Clients, numTokens: nat, address: Address, m: FromClient) {
    m.InputMessage? && address in cs && Admits(cs[address], numTokens, m.input) ==>
      Legal(st, OnInput(FrameOf(address, cs[address].clientInfo.value, m.input)))
  }

  class Core {
    const capacity: nat
    const engineIds: EngineIdSet
    const server: ClientServer
    var workers: map<Context, EngineWorker>
    var producers: map<ProducerId, ProducerInfo>

    constructor (numTokens: nat, capacity: nat)
      ensures Valid() && View() == Init(capacity)
      ensures fresh(engineIds) && fresh(server) && server.clients == map[] && server.numTokens == numTokens
    {
      this.capacity := capacity;
      var ids := new EngineIdSet();
      engineIds := ids;
      server := new ClientServer(numTokens, ids);
      workers := map[];
      producers := map[];
    }

    ghost function View(): State
      reads this, workers.Values, producers.Values, engineIds
    {
      State(capacity, WorkerViews(workers), ProducerViews(producers), engineIds.ids)
    }

    // How the objects hang together.
    ghost predicate Shape()
      reads this, workers.Values
    {
      && server.engineIds == engineIds
      && DistinctWorkers(workers) && AllWired(workers)
      && TableOk(producers, capacity) && AllInTable(producers, Rotations(workers))
    }

    ghost predicate Valid()
      reads this, workers.Values, producers.Values, engineIds
    {
      Shape() && Inv(View())
    }

    // ---------- Results from engines ----------

    // Log the answer of a worker and find it its next input.
    method Advance(c: Context, ghost claims: bool)
      requires Shape() && c in workers && WorkerViews(workers)[c].current.Some?
      modifies workers[c], producers.Values
      ensures Shape()
      ensures var w, ps := LogAnswer(old(WorkerViews(workers))[c], claims), old(ProducerViews(producers));
        && WorkerViews(workers) == old(WorkerViews(workers))[c := SendNextWorker(w, ps)]
        && ProducerViews(producers) == SendNextProducers(w, ps)
    {
      hide SendNextWorker, SendNextProducers, LogAnswer, WorkerViews, ProducerViews, Rotations, AllWired,
           DistinctWorkers, TableOk, AllInTable, SameMembers, InTable;
      ghost var rs := Rotations(workers);
      ghost var ws, ps := WorkerViews(workers), ProducerViews(producers);
      RecordOne(workers, c, claims);
      ghost var rs' := Rotations(workers);
      assert WorkerViews(workers)[c] == LogAnswer(ws[c], claims) && ProducerViews(producers) == ps;
      StillInTable(producers, rs, rs');
      RotationInTable(workers, producers, capacity, c);
      SearchOne(workers, producers, c);
      StillInTable(producers, rs', Rotations(workers));
    }

    // The answer returns its frame's token.
    method AnswerWithToken(c: Context, md: Metadata, stamped: Result)
      requires Shape() && Claims(View(), c) && WorkerViews(workers)[c].current == Some(md)
      modifies workers.Values, producers.Values, server
      ensures Shape() && View() == EngineResult(old(View()), c)
      ensures server.clients == Sessions.SendResult(old(server.clients), md.address, md.producerId, stamped, true)
    {
      hide SendNextWorker, SendNextProducers, LogAnswer, Claim, WorkerViews, ProducerViews, EngineResult, Shape;
      ClaimingAnswer(View(), c);
      ReleaseOne(md.producerId);
      var _ := server.SendResult(md.address, md.producerId, stamped, true);
      Advance(c, true);
    }

    method ForwardIf(required: bool, md: Metadata, stamped: Result)
      modifies server
      ensures server.clients == if required
                                then Sessions.SendResult(old(server.clients), md.address, md.producerId, stamped, false)
                                else old(server.clients)
    {
      if required {
        var _ := server.SendResult(md.address, md.producerId, stamped, false);
      }
    }

    // The answer comes after its frame's token went back, or for a frame that lost its place.
    method AnswerWithoutToken(c: Context, md: Metadata, stamped: Result)
      requires Shape() && Answers(View(), c) && !Claims(View(), c) && WorkerViews(workers)[c].current == Some(md)
      modifies workers.Values, producers.Values, server
      ensures Shape() && View() == EngineResult(old(View()), c)
      ensures server.clients == if old(WorkerViews(workers))[c].allResponses
                                then Sessions.SendResult(old(server.clients), md.address, md.producerId, stamped, false)
                                else old(server.clients)
    {
      hide SendNextWorker, SendNextProducers, LogAnswer, WorkerViews, ProducerViews, EngineResult, Shape,
           Sessions.SendResult;
      WorkerFields(workers, c);
      OtherAnswer(View(), c);
      ForwardIf(workers[c].allResponses, md, stamped);
      Advance(c, false);
    }

    // Handle one result message from an engine.
    method HandleFromEngine(c: Context, result: Result)
      requires Valid()
      modifies workers.Values, producers.Values, server
      ensures Valid() && View() == EngineResult(old(View()), c)
      ensures server.clients == Apply(old(server.clients), EngineResultEffects(old(View()), c, result))
    {
      hide Inv, EngineResult, EngineResultEffects, Shape, WorkerViews, ProducerViews, Sessions.SendResult;
      ghost var st := View();
      ResultKeeps(st, c);
      AnswerEffects(st, server.clients, c, result);
      if c !in workers {
        NoAnswer(st, c);
        return;
      }
      WorkerFields(workers, c);
      if workers[c].current.None? {
        NoAnswer(st, c);
        return;
      }
      var md := workers[c].current.value;
      if md.producerId !in producers {
        NoAnswer(st, c);
        return;
      }
      var p := producers[md.producerId];
      var stamped := result.(frameId := md.frameId);
      ProducerFields(producers, md.producerId);
      if p.pending {
        PendingHasLatest(st, md.producerId);
      }
      if p.pending && p.latest.value.metadata == md {
        AnswerWithToken(c, md, stamped);
      } else {
        AnswerWithoutToken(c, md, stamped);
      }
    }

    // Clear one producer's pending flag.
    method ReleaseOne(pid: ProducerId)
      requires Shape() && pid in producers
      modifies producers[pid]
      ensures Shape() && WorkerViews(workers) == old(WorkerViews(workers))
      ensures ProducerViews(producers) ==
              old(ProducerViews(producers))[pid := Claim(old(ProducerViews(producers))[pid])]
    {
      hide WorkerViews, Claim, AllWired, Rotations, DistinctWorkers, AllInTable;
      ghost var ps := ProducerViews(producers);
      producers[pid].ReleaseToken();
      OneChanged(ps, ProducerViews(producers), pid);
    }

    // ---------- Engines coming and going ----------

    // Return the token of the frame a departing engine was working on, if it is still out.
    method NotifyLoss(c: Context)
      requires Valid() && c in workers
      modifies producers.Values, server
      ensures Shape() && WorkerViews(workers) == old(WorkerViews(workers))
      ensures ProducerViews(producers) == AfterLoss(old(View()), c)
      ensures server.clients == Apply(old(server.clients), LossNotice(old(View()), c))
    {
      hide Inv, Shape, WorkerViews, ProducerViews, Sessions.SendResult, AfterLoss, LossNotice, Claim;
      ghost var st := View();
      WorkerFields(workers, c);
      if workers[c].current.None? {
        NoLoss(st, server.clients, c);
        return;
      }
      var md := workers[c].current.value;
      if md.producerId !in producers {
        NoLoss(st, server.clients, c);
        return;
      }
      var p := producers[md.producerId];
      ProducerFields(producers, md.producerId);
      if p.pending {
        PendingHasLatest(st, md.producerId);
      }
      LossMeans(st, server.clients, c);
      if p.latest.Some? && md == p.latest.value.metadata && (p.pending || workers[c].allResponses) {
        var returnToken := p.pending;
        ReleaseOne(md.producerId);
        var result := Result(EngineError, NoPayload, workers[c].engineId, md.frameId, None);
        var _ := server.SendResult(md.address, md.producerId, result, returnToken);
      }
    }

    method DropWorker(c: Context)
      requires Shape() && c in workers
      modifies this, engineIds
      ensures producers == old(producers) && Shape()
      ensures View() == old(View()).(workers := old(View()).workers - {c},
                                     engineIds := old(View()).engineIds - {old(View()).workers[c].engineId})
      ensures workers == old(workers) - {c}
    {
      hide WorkerViews, ProducerViews, Rotations, AllWired, DistinctWorkers, TableOk, AllInTable;
      WorkerFields(workers, c);
      FewerWorkers(workers, producers, c);
      engineIds.ids := engineIds.ids - {workers[c].engineId};
      workers := workers - {c};
    }

    method RemoveEngineWorker(c: Context)
      requires Valid() && c in workers
      modifies this, producers.Values, server, engineIds
      ensures Valid() && View() == Disconnect(old(View()), c)
      ensures server.clients == Apply(old(server.clients), DisconnectEffects(old(View()), c))
      ensures producers == old(producers) && workers == old(workers) - {c}
    {
      hide Inv, Shape, WorkerViews, ProducerViews, AfterLoss, LossNotice, Broadcast;
      ghost var st, cs := View(), server.clients;
      DisconnectKeeps(st, c);
      ApplyAppend(cs, LossNotice(st, c), [Announce(st.engineIds - {st.workers[c].engineId})]);
      ApplySingle(Apply(cs, LossNotice(st, c)), Announce(st.engineIds - {st.workers[c].engineId}));
      NotifyLoss(c);
      assert View() == st.(producers := AfterLoss(st, c));
      DropWorker(c);
      assert server.engineIds == engineIds by {
        ShapeIds();
      }
      server.EnginesUpdated();
    }

    lemma ShapeIds()
      requires Shape()
      ensures server.engineIds == engineIds
    {
    }

    // The context of a connected worker with this id, if there is one.
    method FindWorker(id: EngineId) returns (found: Option<Context>)
      ensures found.Some? ==> found.value in workers && workers[found.value].engineId == id
      ensures found.None? ==> forall c :: c in workers ==> workers[c].engineId != id
    {
      var todo := workers.Keys;
      while todo != {}
        invariant todo <= workers.Keys
        invariant forall c :: c in workers && c !in todo ==> workers[c].engineId != id
        decreases |todo|
      {
        var c :| c in todo;
        if workers[c].engineId == id {
          return Some(c);
        }
        todo := todo - {c};
      }
      return None;
    }

    method InsertWorker(c: Context, id: EngineId, allResponses: bool)
      requires Shape() && c !in workers
      modifies this
      ensures producers == old(producers) && Shape()
      ensures View() == old(View()).(workers := old(View()).workers[c := NewWorker(id, allResponses)])
      ensures c in workers && workers[c].engineId == id && workers[c].allResponses == allResponses
    {
      hide WorkerViews, ProducerViews, Rotations, AllWired, DistinctWorkers, TableOk, AllInTable;
      ghost var ws, ps := WorkerViews(workers), ProducerViews(producers);
      var worker := new EngineWorker(c, id, allResponses);
      MoreWorkers(workers, c, worker);
      MoreViews(workers, c, worker);
      MoreInTable(producers, Rotations(workers), c);
      workers := workers[c := worker];
      assert WorkerViews(workers) == ws[c := NewWorker(id, allResponses)] && ProducerViews(producers) == ps;
    }

    method AddWorker(c: Context, id: EngineId, allResponses: bool)
      requires Shape() && c !in workers
      modifies this, engineIds
      ensures producers == old(producers) && Shape()
      ensures View() == Join(old(View()), c, id, allResponses)
      ensures c in workers && workers[c].engineId == id && workers[c].allResponses == allResponses
    {
      hide WorkerViews, ProducerViews, Rotations, AllWired, DistinctWorkers, TableOk, AllInTable;
      InsertWorker(c, id, allResponses);
      engineIds.ids := engineIds.ids + {id};
    }

    // Register a new engine stream; an engine already connected under the same id is removed first.
    method AddEngineWorker(c: Context, id: EngineId, allResponses: bool)
      requires Valid() && c !in workers
      modifies this, producers.Values, server, engineIds
      ensures Valid() && View() == Connect(old(View()), c, id, allResponses)
      ensures c in workers && workers[c].engineId == id && workers[c].allResponses == allResponses
      ensures server.clients == Apply(old(server.clients), ConnectEffects(old(View()), id))
    {
      hide Inv, Shape, WorkerViews, ProducerViews, Disconnect, DisconnectEffects, Broadcast, Join;
      ghost var st, cs := View(), server.clients;
      ConnectKeeps(st, c, id, allResponses);
      EvictSteps(st, cs, id);
      EvictIncumbent(id);
      ghost var mid := View();
      assert mid == Evict(st, id) && server.clients == EvictClients(st, cs, id);
      AddWorker(c, id, allResponses);
      assert server.engineIds == engineIds by {
        ShapeIds();
      }
      JoinIdSet(mid, c, id, allResponses);
      server.EnginesUpdated();
    }

    method EvictIncumbent(id: EngineId)
      requires Valid()
      modifies this, producers.Values, server, engineIds
      ensures Valid() && View() == Evict(old(View()), id)
      ensures server.clients == EvictClients(old(View()), old(server.clients), id)
      ensures producers == old(producers) && workers.Keys <= old(workers).Keys
    {
      hide Inv, Shape, WorkerViews, ProducerViews, Disconnect, DisconnectEffects;
      ghost var st := View();
      if id !in engineIds.ids {
        NoIncumbent(st, id);
        return;
      }
      var found := FindWorker(id);
      if found.Some? {
        WorkerFields(workers, found.value);
        IncumbentIs(st, id, found.value);
        RemoveEngineWorker(found.value);
      } else {
        assert forall d :: d in workers ==> workers[d].engineId != id;
        NobodyThere(id);
      }
    }

    lemma NobodyThere(id: EngineId)
      requires Valid() && id in engineIds.ids
      ensures exists c :: c in workers && workers[c].engineId == id
    {
      hide AllOk, AllFit, AllHeld;
      var c :| c in View().workers && View().workers[c].engineId == id;
      WorkerFields(workers, c);
    }

    // ---------- Input from clients ----------

    // Look the producer up, creating it on first contact.
    method GetProducer(pid: ProducerId) returns (p: ProducerInfo)
      requires Shape()
      modifies this
      ensures Shape() && workers == old(workers) && WorkerViews(workers) == old(WorkerViews(workers))
      ensures pid in producers && producers[pid] == p && p.producerId == pid && p.maxlen == capacity
      ensures fresh(p) || p in old(producers).Values
      ensures ProducerViews(producers) == WithProducer(old(ProducerViews(producers)), pid)
    {
      hide WorkerViews, ProducerViews, Rotations, AllWired, DistinctWorkers, AllInTable;
      if pid !in producers {
        var info := new ProducerInfo(pid, capacity);
        MoreProducers(producers, Rotations(workers), pid, info);
        producers := producers[pid := info];
      }
      p := producers[pid];
    }

    method SendToEngine(frame: Frame) returns (status: StatusCode)
      requires Shape()
      modifies this, workers.Values, producers.Values
      ensures Shape() && View() == ClientInput(old(View()), frame) && workers == old(workers)
      ensures old(Valid() && Legal(View(), OnInput(frame))) ==> Valid()
      ensures status == InputStatus(old(View()), frame)
    {
      hide Inv, WorkerViews, ProducerViews, Rotations, AllWired, DistinctWorkers, TableOk, AllInTable,
           OfferAll, InputOutcome, ProducerAfterInput, ClientInput, InputStatus, WithProducer;
      ghost var st := View();
      if Inv(st) && Legal(st, OnInput(frame)) {
        InputKeeps(st, frame);
      }
      var p := GetProducer(frame.metadata.producerId);
      ghost var ps, rs := ProducerViews(producers), Rotations(workers);
      ProducerView(producers, capacity, p);
      EveryoneKnows(workers, producers, p);
      status := p.ProcessInputFromClient(workers, frame);
      OtherProducers(producers, ps, p);
      AddedInTable(producers, rs, Rotations(workers), p);
      InputSteps(st, ps, frame);
    }

    // Pass an admitted input to the scheduler and settle its token.
    method ForwardInput(address: Address, i: Input)
      requires Shape() && address in server.clients
      requires Admits(server.clients[address], server.numTokens, i) && i.producerId in server.clients[address].tokens
      modifies this, workers.Values, producers.Values, server
      ensures Shape()
      ensures old(Valid() && Legal(View(), OnInput(FrameOf(address, server.clients[address].clientInfo.value, i))))
              ==> Valid()
      ensures var s := old(server.clients)[address];
        var f := FrameOf(address, s.clientInfo.value, i);
        && View() == ClientInput(old(View()), f)
        && server.clients == old(server.clients)[address :=
             AfterInput(s, server.numTokens, i, InputStatus(old(View()), f))]
    {
      hide Inv, Shape, WorkerViews, ProducerViews, ClientInput, InputStatus, Legal;
      var status := SendToEngine(FrameOf(address, server.clients[address].clientInfo.value, i));
      server.FinishInput(address, i, status);
    }

    method HandleInput(address: Address, i: Input)
      requires Shape() && address in server.clients
      modifies this, workers.Values, producers.Values, server
      ensures Shape()
      ensures old(Valid() && InOrder(View(), server.clients, server.numTokens, address, InputMessage(i))) ==> Valid()
      ensures View() == ReceiveState(old(server.clients), server.numTokens, old(View()), address, InputMessage(i))
      ensures server.clients ==
              ReceiveClients(old(server.clients), server.numTokens, old(View()), address, InputMessage(i))
    {
      hide Inv, Shape, WorkerViews, ProducerViews, ClientInput, InputStatus, Legal, ReceiveClients, ReceiveState,
           AfterInput, WithAccount;
      InputMeans(server.clients, server.numTokens, View(), address, i);
      var refusal := server.CheckInput(address, i);
      if refusal.Some? {
        server.FinishInput(address, i, refusal.value);
      } else {
        ForwardInput(address, i);
      }
    }

    // Process one message from a client and send back a response, if any. The scheduler's
    // invariant needs a session to number its frames upwards; what the method does, does not.
    method HandleFromClient(address: Address, m: FromClient)
      requires Shape()
      modifies this, workers.Values, producers.Values, server
      ensures Shape()
      ensures old(Valid() && InOrder(View(), server.clients, server.numTokens, address, m)) ==> Valid()
      ensures View() == ReceiveState(old(server.clients), server.numTokens, old(View()), address, m)
      ensures server.clients == ReceiveClients(old(server.clients), server.numTokens, old(View()), address, m)
    {
      hide Inv, Shape, WorkerViews, ProducerViews, ClientInput, Verdict, Legal;
      if address !in server.clients {
        return;
      }
      match m {
        case Registration(info) =>
          assert server.engineIds == engineIds by {
            ShapeIds();
          }
          server.Register(address, info);
        case InputMessage(i) =>
          HandleInput(address, i);
      }
    }

    // ---------- Sessions ----------

    // A control stream opens: the session starts unregistered, with no account and nothing sent.
    method OpenSession(address: Address)
      requires Shape()
      modifies server
      ensures Shape() && View() == old(View()) && server.clients == old(server.clients)[address := NEW_SESSION]
    {
      hide WorkerViews, ProducerViews, Rotations, AllWired, DistinctWorkers, TableOk, AllInTable;
      server.OpenSession(address);
    }

    // It ends: the session is forgotten, while its frames stay with the scheduler.
    method CloseSession(address: Address)
      requires Shape() && address in server.clients
      modifies server
      ensures Shape() && View() == old(View()) && server.clients == old(server.clients) - {address}
    {
      hide WorkerViews, ProducerViews, Rotations, AllWired, DistinctWorkers, TableOk, AllInTable;
      server.CloseSession(address);
    }
  }
}
