/**
 The scheduler's core invariant: the ledger of accepted frames, who holds the
 in-flight frame of each producer, and what each engine has been sent. Every
 handler keeps it, so it holds in every state of every run, with any number of
 producers, engines, retargetings, takeovers and disconnects.
 */
module Invariant {
  import opened Protocol
  import opened Scheduler

  // Later frames of one session carry larger ids.
  ghost predicate Increasing(s: seq<Frame>) {
    forall i, j :: 0 <= i < j < |s| && s[i].metadata.address == s[j].metadata.address
      ==> s[i].metadata.frameId < s[j].metadata.frameId
  }

  // Every accepted frame is queued, in flight, returned or displaced, with multiplicity.
  ghost predicate Ledger(p: Producer) {
    multiset(p.accepted) ==
    multiset(p.queue) + multiset(InFlight(p)) + multiset(p.returned) + multiset(p.displaced)
  }

  ghost predicate ProducerOk(pid: ProducerId, p: Producer) {
    && (forall f :: f in p.accepted ==> f.metadata.producerId == pid)
    && Increasing(p.accepted)
    && Ledger(p)
    && (p.pending ==> p.latest.Some?)
    && (p.latest.Some? ==> p.latest.value in p.accepted && p.latest.value !in p.queue)
  }

  function Outstanding(w: Worker): seq<Metadata> {
    if w.current.Some? then [w.current.value] else []
  }

  // Frames are answered in the order they were sent, and at most one is unanswered.
  ghost predicate OneOutstanding(w: Worker) {
    Metas(w.sent) == w.completed + Outstanding(w)
  }

  // What reaches clients: every answer of an engine that asked for that, otherwise only
  // the answers that returned a token.
  ghost predicate ForwardingOk(w: Worker) {
    w.forwarded == if w.allResponses then w.completed else w.claimed
  }

  ghost predicate RecordOk(w: Worker) {
    && NoDup(w.rotation)
    && NoDup(w.sent)
    && ForwardingOk(w)
    && (forall pid :: pid in w.last ==> pid in w.rotation)
  }

  ghost predicate WorkerOk(w: Worker) {
    && RecordOk(w)
    && OneOutstanding(w)
    && (w.current.Some? ==>
          var md := w.current.value;
          md.producerId in w.last && w.last[md.producerId] == md)
  }

  // The worker has this frame of this producer behind it, and it is not queued any more.
  ghost predicate Known(ps: Producers, f: Frame) {
    var pid := f.metadata.producerId;
    pid in ps && f in ps[pid].accepted && f !in ps[pid].queue
  }

  // If a worker was ever sent the in-flight frame, that is the last it got from this producer.
  ghost predicate UpToDate(w: Worker, pid: ProducerId, p: Producer) {
    p.latest.Some? && p.latest.value in w.sent ==> pid in w.last && w.last[pid] == p.latest.value.metadata
  }

  ghost predicate Fits(w: Worker, ps: Producers) {
    && (forall pid :: pid in w.rotation ==> pid in ps)
    && (forall f :: f in w.sent ==> Known(ps, f))
    && (forall pid :: pid in ps ==> UpToDate(w, pid, ps[pid]))
  }

  ghost predicate Holds(workers: Workers, c: Context, md: Metadata) {
    c in workers && workers[c].current == Some(md)
  }

  // Some connected engine is working on the frame whose token is pending.
  ghost predicate Held(workers: Workers, p: Producer) {
    p.pending && p.latest.Some? ==> exists c :: Holds(workers, c, p.latest.value.metadata)
  }

  // The id set is exactly the ids of the connected workers, and no two share one.
  ghost predicate IdsOk(workers: Workers, ids: set<EngineId>) {
    && (forall c :: c in workers ==> workers[c].engineId in ids)
    && (forall id :: id in ids ==> exists c :: c in workers && workers[c].engineId == id)
    && (forall c, d :: c in workers && d in workers && c != d ==> workers[c].engineId != workers[d].engineId)
  }

  ghost predicate Inv(st: State) {
    && AllOk(st.producers)
    && AllFit(st.workers, st.producers)
    && AllHeld(st.workers, st.producers)
    && IdsOk(st.workers, st.engineIds)
  }

  ghost predicate AllOk(ps: Producers) {
    forall pid :: pid in ps ==> ProducerOk(pid, ps[pid])
  }

  ghost predicate AllFit(workers: Workers, ps: Producers) {
    forall c :: c in workers ==> WorkerOk(workers[c]) && Fits(workers[c], ps)
  }

  ghost predicate AllHeld(workers: Workers, ps: Producers) {
    forall pid :: pid in ps ==> Held(workers, ps[pid])
  }

  // ---------- Facts about one producer ----------

  lemma {:induction false} AcceptedOnce(s: seq<Frame>, f: Frame)
    requires Increasing(s)
    ensures multiset(s)[f] <= 1
  {
    if s != [] {
      var init := s[..|s| - 1];
      assert s == init + [s[|s| - 1]];
      AcceptedOnce(init, f);
      if f == s[|s| - 1] {
        assert forall i :: 0 <= i < |init| ==> init[i] == s[i];
        assert f !in init;
      }
    }
  }

  lemma NewerIsFresh(p: Producer, f: Frame)
    requires Newer(p, f)
    ensures f !in p.accepted
  {
  }

  lemma QueuedIsAccepted(pid: ProducerId, p: Producer, f: Frame)
    requires ProducerOk(pid, p) && f in p.queue
    ensures f in p.accepted && multiset(p.queue)[f] == 1
    ensures f !in InFlight(p) && f !in p.returned && f !in p.displaced
  {
    AcceptedOnce(p.accepted, f);
    assert multiset(p.queue)[f] >= 1;
    assert multiset(p.accepted)[f] >= 1;
    assert f in multiset(p.accepted);
  }

  lemma EnqueueOk(pid: ProducerId, p: Producer, f: Frame)
    requires ProducerOk(pid, p) && f.metadata.producerId == pid && Newer(p, f)
    ensures ProducerOk(pid, Enqueue(p, f))
  {
    NewerIsFresh(p, f);
    var q := Enqueue(p, f);
    assert InFlight(q) == InFlight(p);
  }

  lemma DispatchOk(pid: ProducerId, p: Producer, f: Frame)
    requires ProducerOk(pid, p) && f.metadata.producerId == pid && Newer(p, f)
    ensures ProducerOk(pid, Dispatch(p, f))
  {
    NewerIsFresh(p, f);
    var q := Dispatch(p, f);
    assert InFlight(q) == [f];
    if f in p.queue {
      QueuedIsAccepted(pid, p, f);
    }
  }

  lemma DequeueOk(pid: ProducerId, p: Producer)
    requires ProducerOk(pid, p) && CanDequeue(p)
    ensures ProducerOk(pid, Dequeue(p))
  {
    var f := p.queue[0];
    QueuedIsAccepted(pid, p, f);
    assert p.queue == [f] + p.queue[1..];
    assert multiset(p.queue) == multiset([f]) + multiset(p.queue[1..]);
    assert f !in p.queue[1..];
    assert InFlight(Dequeue(p)) == [f];
    assert InFlight(p) == [];
  }

  lemma ClaimOk(pid: ProducerId, p: Producer)
    requires ProducerOk(pid, p)
    ensures ProducerOk(pid, Claim(p))
  {
    assert InFlight(Claim(p)) == [];
  }

  // ---------- Facts about one worker ----------

  // A worker between two frames: everything it was sent has been answered.
  ghost predicate Settled(w: Worker) {
    RecordOk(w) && Metas(w.sent) == w.completed
  }

  lemma SendPayloadOk(w: Worker, f: Frame)
    requires Settled(w) && f !in w.sent && f.metadata.producerId in w.rotation
    ensures WorkerOk(SendPayload(w, f))
  {
    assert Metas(w.sent + [f]) == Metas(w.sent) + [f.metadata];
  }

  lemma AddProducerOk(w: Worker, pid: ProducerId)
    requires RecordOk(w)
    ensures RecordOk(AddProducer(w, pid)) && pid in AddProducer(w, pid).rotation
    ensures WorkerOk(w) ==> WorkerOk(AddProducer(w, pid))
  {
  }

  lemma RotatedOk(rotation: seq<ProducerId>, k: nat)
    requires NoDup(rotation) && k <= |rotation|
    ensures NoDup(Rotated(rotation, k))
    ensures forall pid :: pid in Rotated(rotation, k) <==> pid in rotation
  {
    var r := Rotated(rotation, k);
    var n := |rotation|;
    assert forall i :: 0 <= i < n ==> r[i] == if i < n - k then rotation[i + k] else rotation[i + k - n];
    assert rotation == rotation[..k] + rotation[k..];
  }

  // Changing one producer leaves a worker's record accurate as long as nothing it was sent
  // is queued again or forgotten.
  lemma FitsUpdate(w: Worker, ps: Producers, pid: ProducerId, p: Producer)
    requires Fits(w, ps)
    requires pid in ps ==> forall f :: f in ps[pid].accepted ==> f in p.accepted
    requires pid in ps ==> forall f :: f in p.queue && f !in ps[pid].queue ==> f !in ps[pid].accepted
    requires UpToDate(w, pid, p)
    ensures Fits(w, ps[pid := p])
  {
    forall f | f in w.sent
      ensures Known(ps[pid := p], f)
    {
      assert Known(ps, f);
    }
  }

  // Sending the in-flight frame of a producer.
  lemma FitsSend(w: Worker, ps: Producers, f: Frame)
    requires Fits(w, ps) && AllOk(ps) && Known(ps, f)
    requires ps[f.metadata.producerId].latest == Some(f)
    ensures Fits(SendPayload(w, f), ps)
  {
    var v := SendPayload(w, f);
    forall pid | pid in ps
      ensures UpToDate(v, pid, ps[pid])
    {
      assert UpToDate(w, pid, ps[pid]);
    }
  }

  lemma FitsDispatch(w: Worker, ps: Producers, f: Frame)
    requires Fits(w, ps)
    requires f.metadata.producerId in ps && Newer(ps[f.metadata.producerId], f)
    ensures Fits(w, ps[f.metadata.producerId := Dispatch(ps[f.metadata.producerId], f)])
    ensures Fits(w, ps[f.metadata.producerId := Enqueue(ps[f.metadata.producerId], f)])
    ensures f !in w.sent
  {
    var pid := f.metadata.producerId;
    NewerIsFresh(ps[pid], f);
    assert f in w.sent ==> Known(ps, f);
    FitsUpdate(w, ps, pid, Dispatch(ps[pid], f));
    assert UpToDate(w, pid, ps[pid]);
    FitsUpdate(w, ps, pid, Enqueue(ps[pid], f));
  }

  lemma FitsDequeue(w: Worker, ps: Producers, pid: ProducerId)
    requires Fits(w, ps) && AllOk(ps)
    requires pid in ps && CanDequeue(ps[pid])
    ensures Fits(w, ps[pid := Dequeue(ps[pid])])
    ensures ps[pid].queue[0] !in w.sent
  {
    var f := ps[pid].queue[0];
    QueuedIsAccepted(pid, ps[pid], f);
    assert f in w.sent ==> Known(ps, f);
    FitsUpdate(w, ps, pid, Dequeue(ps[pid]));
  }

  lemma FitsClaim(w: Worker, ps: Producers, pid: ProducerId)
    requires Fits(w, ps) && pid in ps
    ensures Fits(w, ps[pid := Claim(ps[pid])])
  {
    assert UpToDate(w, pid, ps[pid]);
    FitsUpdate(w, ps, pid, Claim(ps[pid]));
  }

  // ---------- Choosing the next input ----------

  // The three outcomes of a search for work, with everything callers need to know.
  lemma SendNextCases(w: Worker, ps: Producers) returns (k: nat, pid: ProducerId)
    ensures k == FirstReady(w, ps, 1)
    ensures k > |w.rotation| ==>
      && SendNextWorker(w, ps) == w.(current := None)
      && SendNextProducers(w, ps) == ps
      && forall q :: q in w.rotation ==> !Ready(w, ps, q)
    ensures k <= |w.rotation| ==>
      && k >= 1 && pid == Tried(w.rotation, k) && pid in w.rotation && Ready(w, ps, pid)
      && SendNextWorker(w, ps) == ServeWorker(w.(rotation := Rotated(w.rotation, k)), ps[pid], pid)
      && SendNextProducers(w, ps) == ps[pid := ServeProducer(ps[pid])]
  {
    k := FirstReady(w, ps, 1);
    pid := "";
    if k > |w.rotation| {
      forall q | q in w.rotation
        ensures !Ready(w, ps, q)
      {
        var i :| 0 <= i < |w.rotation| && w.rotation[i] == q;
        assert Tried(w.rotation, if i == 0 then |w.rotation| else i) == q;
      }
    } else {
      pid := Tried(w.rotation, k);
    }
  }

  lemma RotatedWorkerOk(w: Worker, k: nat, ps: Producers)
    requires Settled(w) && Fits(w, ps) && k <= |w.rotation|
    ensures Settled(w.(rotation := Rotated(w.rotation, k)))
    ensures Fits(w.(rotation := Rotated(w.rotation, k)), ps)
  {
    RotatedOk(w.rotation, k);
    var v := w.(rotation := Rotated(w.rotation, k));
    forall q | q in ps
      ensures UpToDate(v, q, ps[q])
    {
      assert UpToDate(w, q, ps[q]);
    }
  }

  lemma ServeDequeuedOk(w: Worker, ps: Producers, pid: ProducerId)
    requires Settled(w) && Fits(w, ps) && AllOk(ps)
    requires pid in w.rotation && pid in ps && CanDequeue(ps[pid])
    ensures WorkerOk(ServeWorker(w, ps[pid], pid))
    ensures AllOk(ps[pid := ServeProducer(ps[pid])])
    ensures Fits(ServeWorker(w, ps[pid], pid), ps[pid := ServeProducer(ps[pid])])
  {
    hide Fits, WorkerOk, Increasing, Ledger;
    var f := ps[pid].queue[0];
    QueuedIsAccepted(pid, ps[pid], f);
    DequeueOk(pid, ps[pid]);
    FitsDequeue(w, ps, pid);
    SendPayloadOk(w, f);
    FitsSend(w, ps[pid := Dequeue(ps[pid])], f);
  }

  lemma ServeLatestOk(w: Worker, ps: Producers, pid: ProducerId)
    requires Settled(w) && Fits(w, ps) && AllOk(ps)
    requires pid in w.rotation && pid in ps && !CanDequeue(ps[pid]) && CanCatchUp(w, pid, ps[pid])
    ensures WorkerOk(ServeWorker(w, ps[pid], pid))
    ensures ps[pid := ServeProducer(ps[pid])] == ps
    ensures Fits(ServeWorker(w, ps[pid], pid), ps)
  {
    var f := ps[pid].latest.value;
    assert UpToDate(w, pid, ps[pid]);
    assert f !in w.sent;
    SendPayloadOk(w, f);
    FitsSend(w, ps, f);
  }

  lemma SendNextOk(w: Worker, ps: Producers)
    requires Settled(w) && Fits(w, ps) && AllOk(ps)
    ensures WorkerOk(SendNextWorker(w, ps))
    ensures AllOk(SendNextProducers(w, ps))
    ensures Fits(SendNextWorker(w, ps), SendNextProducers(w, ps))
  {
    var k, pid := SendNextCases(w, ps);
    if k <= |w.rotation| {
      RotatedWorkerOk(w, k, ps);
      RotatedOk(w.rotation, k);
      var v := w.(rotation := Rotated(w.rotation, k));
      if CanDequeue(ps[pid]) {
        ServeDequeuedOk(v, ps, pid);
      } else {
        ServeLatestOk(v, ps, pid);
      }
    } else {
      IdleOk(w, ps);
    }
  }

  lemma IdleOk(w: Worker, ps: Producers)
    requires Settled(w) && Fits(w, ps)
    ensures WorkerOk(w.(current := None)) && Fits(w.(current := None), ps)
  {
    var v := w.(current := None);
    forall q | q in ps
      ensures UpToDate(v, q, ps[q])
    {
      assert UpToDate(w, q, ps[q]);
    }
  }

  // Other workers are undisturbed by one worker's search.
  lemma SendNextFits(w: Worker, ps: Producers, v: Worker)
    requires Fits(v, ps) && AllOk(ps)
    ensures Fits(v, SendNextProducers(w, ps))
  {
    var k, pid := SendNextCases(w, ps);
    if k <= |w.rotation| {
      if CanDequeue(ps[pid]) {
        FitsDequeue(v, ps, pid);
      } else {
        assert ps[pid := ps[pid]] == ps;
      }
    }
  }

  // ---------- Every step keeps the invariant ----------

  lemma NewProducerKeeps(st: State, pid: ProducerId)
    requires Inv(st)
    ensures Inv(st.(producers := WithProducer(st.producers, pid)))
  {
    var ps := WithProducer(st.producers, pid);
    forall c | c in st.workers
      ensures Fits(st.workers[c], ps)
    {
      if pid !in st.producers {
        FitsUpdate(st.workers[c], st.producers, pid, NEW_PRODUCER);
      }
    }
  }

  lemma AddProducerFits(w: Worker, pid: ProducerId, ps: Producers)
    requires Fits(w, ps) && pid in ps
    ensures Fits(AddProducer(w, pid), ps)
  {
    var v := AddProducer(w, pid);
    forall q | q in ps
      ensures UpToDate(v, q, ps[q])
    {
      assert UpToDate(w, q, ps[q]);
    }
  }

  lemma OfferBusyOk(w: Worker, ps: Producers, f: Frame)
    requires WorkerOk(w) && Fits(w, ps) && f.metadata.producerId in ps && w.current.Some?
    ensures WorkerOk(Offer(w, f)) && Fits(Offer(w, f), ps)
  {
    AddProducerOk(w, f.metadata.producerId);
    AddProducerFits(w, f.metadata.producerId, ps);
  }

  lemma OfferIdleOk(w: Worker, ps: Producers, f: Frame)
    requires WorkerOk(w) && Fits(w, ps) && AllOk(ps) && Known(ps, f) && f !in w.sent
    requires ps[f.metadata.producerId].latest == Some(f) && w.current.None?
    ensures WorkerOk(Offer(w, f)) && Fits(Offer(w, f), ps)
  {
    var pid := f.metadata.producerId;
    AddProducerOk(w, pid);
    AddProducerFits(w, pid, ps);
    SendPayloadOk(AddProducer(w, pid), f);
    FitsSend(AddProducer(w, pid), ps, f);
  }

  // Offering an input never takes a frame away from a busy engine.
  lemma OfferAllHolds(workers: Workers, f: Frame, c: Context, md: Metadata)
    requires Holds(workers, c, md)
    ensures Holds(OfferAll(workers, f), c, md)
  {
  }

  lemma OfferAllHeld(workers: Workers, f: Frame, p: Producer)
    requires Held(workers, p)
    ensures Held(OfferAll(workers, f), p)
  {
    if p.pending && p.latest.Some? {
      var c :| Holds(workers, c, p.latest.value.metadata);
      OfferAllHolds(workers, f, c, p.latest.value.metadata);
    }
  }

  lemma SameIds(workers: Workers, workers': Workers, ids: set<EngineId>)
    requires IdsOk(workers, ids) && workers'.Keys == workers.Keys
    requires forall c :: c in workers ==> workers'[c].engineId == workers[c].engineId
    ensures IdsOk(workers', ids)
  {
    forall id | id in ids
      ensures exists c :: c in workers' && workers'[c].engineId == id
    {
      var c :| c in workers && workers[c].engineId == id;
      assert workers'[c].engineId == id;
    }
  }

  lemma DispatchWorkerOk(w: Worker, ps: Producers, f: Frame)
    requires WorkerOk(w) && Fits(w, ps) && AllOk(ps)
    requires f.metadata.producerId in ps && Newer(ps[f.metadata.producerId], f)
    ensures var ps' := ps[f.metadata.producerId := Dispatch(ps[f.metadata.producerId], f)];
      AllOk(ps') && Fits(w, ps') && WorkerOk(Offer(w, f)) && Fits(Offer(w, f), ps')
  {
    hide WorkerOk, Fits, ProducerOk;
    var pid := f.metadata.producerId;
    var ps' := ps[pid := Dispatch(ps[pid], f)];
    DispatchOk(pid, ps[pid], f);
    FitsDispatch(w, ps, f);
    if w.current.Some? {
      OfferBusyOk(w, ps', f);
    } else {
      assert Known(ps', f) by {
        assert ProducerOk(pid, ps'[pid]);
        DispatchKnown(pid, ps[pid], f);
      }
      OfferIdleOk(w, ps', f);
    }
  }

  lemma DispatchKnown(pid: ProducerId, p: Producer, f: Frame)
    requires ProducerOk(pid, Dispatch(p, f))
    ensures f in Dispatch(p, f).accepted && f !in Dispatch(p, f).queue
  {
  }

  lemma DirectDispatchFits(st: State, f: Frame)
    requires Inv(st) && f.metadata.producerId in st.producers
    requires Newer(st.producers[f.metadata.producerId], f)
    ensures var pid := f.metadata.producerId;
      AllFit(OfferAll(st.workers, f), st.producers[pid := Dispatch(st.producers[pid], f)])
  {
    hide WorkerOk, Fits, AllOk, AllHeld, IdsOk;
    var pid := f.metadata.producerId;
    var ps := st.producers[pid := Dispatch(st.producers[pid], f)];
    var ws := OfferAll(st.workers, f);
    forall c | c in ws
      ensures WorkerOk(ws[c]) && Fits(ws[c], ps)
    {
      DispatchWorkerOk(st.workers[c], st.producers, f);
    }
  }

  lemma DirectDispatchHeld(st: State, f: Frame)
    requires AllHeld(st.workers, st.producers) && f.metadata.producerId in st.producers
    requires HasIdleTarget(st.workers, f)
    ensures var pid := f.metadata.producerId;
      AllHeld(OfferAll(st.workers, f), st.producers[pid := Dispatch(st.producers[pid], f)])
  {
    var pid := f.metadata.producerId;
    var ps := st.producers[pid := Dispatch(st.producers[pid], f)];
    var ws := OfferAll(st.workers, f);
    forall q | q in ps
      ensures Held(ws, ps[q])
    {
      if q == pid {
        var idle :| idle in st.workers && Targets(f, st.workers[idle]) && st.workers[idle].current.None?;
        assert Holds(ws, idle, f.metadata);
      } else {
        OfferAllHeld(st.workers, f, st.producers[q]);
      }
    }
  }

  lemma DirectDispatchKeeps(st: State, f: Frame)
    requires Inv(st) && f.metadata.producerId in st.producers
    requires Newer(st.producers[f.metadata.producerId], f) && HasIdleTarget(st.workers, f)
    ensures Inv(ClientInput(st, f))
  {
    hide ProducerOk, AllFit, AllHeld, IdsOk;
    var pid := f.metadata.producerId;
    DispatchOk(pid, st.producers[pid], f);
    DirectDispatchFits(st, f);
    DirectDispatchHeld(st, f);
    SameIds(st.workers, OfferAll(st.workers, f), st.engineIds);
  }

  lemma QueueingFits(st: State, f: Frame, c: Context)
    requires Inv(st) && f.metadata.producerId in st.producers
    requires Newer(st.producers[f.metadata.producerId], f)
    requires HasTarget(st.workers, f) && !HasIdleTarget(st.workers, f) && c in st.workers
    ensures WorkerOk(ClientInput(st, f).workers[c])
    ensures Fits(ClientInput(st, f).workers[c], ClientInput(st, f).producers)
  {
    hide WorkerOk, Fits, AllOk, AllHeld, IdsOk;
    FitsDispatch(st.workers[c], st.producers, f);
    if Targets(f, st.workers[c]) {
      OfferBusyOk(st.workers[c], ClientInput(st, f).producers, f);
    }
  }

  lemma QueueingHeld(st: State, f: Frame, q: ProducerId)
    requires Inv(st) && f.metadata.producerId in st.producers && q in st.producers
    requires HasTarget(st.workers, f) && !HasIdleTarget(st.workers, f)
    ensures Held(ClientInput(st, f).workers, ClientInput(st, f).producers[q])
  {
    hide AllFit, AllOk, IdsOk, Held;
    OfferAllHeld(st.workers, f, st.producers[q]);
    SameHeld(OfferAll(st.workers, f), st.producers[q], ClientInput(st, f).producers[q]);
  }

  // All targets are busy: the frame is queued, or dropped and only the rotations change.
  lemma QueueingKeeps(st: State, f: Frame)
    requires Inv(st) && f.metadata.producerId in st.producers
    requires Newer(st.producers[f.metadata.producerId], f)
    requires HasTarget(st.workers, f) && !HasIdleTarget(st.workers, f)
    ensures Inv(ClientInput(st, f))
  {
    hide ProducerOk, WorkerOk, Fits, Held, IdsOk;
    var st' := ClientInput(st, f);
    var pid := f.metadata.producerId;
    assert AllOk(st'.producers) by {
      EnqueueOk(pid, st.producers[pid], f);
    }
    assert AllFit(st'.workers, st'.producers) by {
      forall c | c in st'.workers
        ensures WorkerOk(st'.workers[c]) && Fits(st'.workers[c], st'.producers)
      {
        QueueingFits(st, f, c);
      }
    }
    assert AllHeld(st'.workers, st'.producers) by {
      forall q | q in st'.producers
        ensures Held(st'.workers, st'.producers[q])
      {
        QueueingHeld(st, f, q);
      }
    }
    SameIds(st.workers, OfferAll(st.workers, f), st.engineIds);
  }

  lemma SameHeld(workers: Workers, p: Producer, p': Producer)
    requires Held(workers, p) && p'.latest == p.latest && (p'.pending ==> p.pending)
    ensures Held(workers, p')
  {
  }

  lemma InputKeeps(st: State, f: Frame)
    requires Inv(st) && Legal(st, OnInput(f))
    ensures Inv(ClientInput(st, f))
  {
    hide Inv;
    var pid := f.metadata.producerId;
    NewProducerKeeps(st, pid);
    var st1 := st.(producers := WithProducer(st.producers, pid));
    assert ClientInput(st, f) == ClientInput(st1, f);
    if HasIdleTarget(st.workers, f) {
      DirectDispatchKeeps(st1, f);
    } else if HasTarget(st.workers, f) {
      QueueingKeeps(st1, f);
    }
  }

  // After the token decision, everything but the answering worker's new assignment is in order.
  lemma AfterClaimOk(st: State, c: Context)
    requires Inv(st) && Answers(st, c)
    ensures AllOk(AfterClaim(st, c)) && AllFit(st.workers, AfterClaim(st, c))
  {
    hide ProducerOk, WorkerOk, Fits;
    var pid := st.workers[c].current.value.producerId;
    if Claims(st, c) {
      ClaimOk(pid, st.producers[pid]);
      forall d | d in st.workers
        ensures WorkerOk(st.workers[d]) && Fits(st.workers[d], AfterClaim(st, c))
      {
        FitsClaim(st.workers[d], st.producers, pid);
      }
    }
  }

  lemma LoggedOk(st: State, c: Context)
    requires Inv(st) && Answers(st, c)
    ensures Settled(Logged(st, c)) && Fits(Logged(st, c), AfterClaim(st, c))
  {
    AfterClaimOk(st, c);
    var w, v, ps := st.workers[c], Logged(st, c), AfterClaim(st, c);
    forall q | q in ps
      ensures UpToDate(v, q, ps[q])
    {
      assert UpToDate(w, q, ps[q]);
    }
  }

  // The engine holding the in-flight frame of a producer whose token is pending.
  lemma Holder(st: State, q: ProducerId) returns (d: Context)
    requires Inv(st) && q in st.producers && st.producers[q].pending
    ensures st.producers[q].latest.Some? && st.producers[q].latest.value.metadata.producerId == q
    ensures Holds(st.workers, d, st.producers[q].latest.value.metadata)
  {
    hide AllFit, IdsOk, Increasing, Ledger;
    assert ProducerOk(q, st.producers[q]);
    assert Held(st.workers, st.producers[q]);
    d :| Holds(st.workers, d, st.producers[q].latest.value.metadata);
  }

  // Whoever still awaits a token after c's answer is held by an engine other than c.
  lemma HeldElsewhere(st: State, c: Context, q: ProducerId) returns (d: Context)
    requires Inv(st) && Answers(st, c)
    requires q in st.producers && AfterClaim(st, c)[q].pending
    ensures AfterClaim(st, c)[q] == st.producers[q] && st.producers[q].latest.Some?
    ensures d != c && Holds(st.workers, d, st.producers[q].latest.value.metadata)
  {
    hide Inv;
    d := Holder(st, q);
  }

  lemma ResultHeld(st: State, c: Context, q: ProducerId)
    requires Inv(st) && Answers(st, c) && q in EngineResult(st, c).producers
    ensures Held(EngineResult(st, c).workers, EngineResult(st, c).producers[q])
  {
    hide Inv;
    var st' := EngineResult(st, c);
    var w, ps := Logged(st, c), AfterClaim(st, c);
    var k, pid := SendNextCases(w, ps);
    if k <= |w.rotation| && q == pid && CanDequeue(ps[pid]) {
      assert Holds(st'.workers, c, ps[pid].queue[0].metadata);
    } else if st'.producers[q].pending {
      assert st'.producers[q] == ps[q];
      var d := HeldElsewhere(st, c, q);
      assert Holds(st'.workers, d, ps[q].latest.value.metadata);
    }
  }

  lemma ResultFits(st: State, c: Context)
    requires Inv(st) && Answers(st, c)
    ensures AllOk(EngineResult(st, c).producers)
    ensures AllFit(EngineResult(st, c).workers, EngineResult(st, c).producers)
  {
    hide ProducerOk, WorkerOk, Fits, FirstReady;
    var st' := EngineResult(st, c);
    var w, ps := Logged(st, c), AfterClaim(st, c);
    AfterClaimOk(st, c);
    LoggedOk(st, c);
    SendNextOk(w, ps);
    forall d | d in st'.workers
      ensures WorkerOk(st'.workers[d]) && Fits(st'.workers[d], st'.producers)
    {
      if d != c {
        SendNextFits(w, ps, st.workers[d]);
      }
    }
  }

  lemma ResultKeeps(st: State, c: Context)
    requires Inv(st)
    ensures Inv(EngineResult(st, c))
  {
    hide AllOk, AllFit, Held, FirstReady;
    if Answers(st, c) {
      var st' := EngineResult(st, c);
      ResultFits(st, c);
      forall q | q in st'.producers
        ensures Held(st'.workers, st'.producers[q])
      {
        ResultHeld(st, c, q);
      }
      SameIds(st.workers, st'.workers, st.engineIds);
    }
  }

  lemma DisconnectIds(st: State, c: Context)
    requires IdsOk(st.workers, st.engineIds) && c in st.workers
    ensures IdsOk(Disconnect(st, c).workers, Disconnect(st, c).engineIds)
  {
    var st' := Disconnect(st, c);
    forall id | id in st'.engineIds
      ensures exists d :: d in st'.workers && st'.workers[d].engineId == id
    {
      var d :| d in st.workers && st.workers[d].engineId == id;
      assert d in st'.workers && st'.workers[d].engineId == id;
    }
  }

  lemma DisconnectHeld(st: State, c: Context, q: ProducerId)
    requires Inv(st) && c in st.workers && q in Disconnect(st, c).producers
    ensures Held(Disconnect(st, c).workers, Disconnect(st, c).producers[q])
  {
    hide Inv;
    var st' := Disconnect(st, c);
    if st'.producers[q].pending {
      if Answers(st, c) {
        var d := HeldElsewhere(st, c, q);
        assert Holds(st'.workers, d, st'.producers[q].latest.value.metadata);
      } else {
        var d := Holder(st, q);
        assert Holds(st'.workers, d, st'.producers[q].latest.value.metadata);
      }
    }
  }

  lemma DisconnectKeeps(st: State, c: Context)
    requires Inv(st)
    ensures Inv(Disconnect(st, c))
  {
    hide ProducerOk, WorkerOk, Fits, Held, IdsOk;
    if c in st.workers {
      var st' := Disconnect(st, c);
      if Answers(st, c) {
        AfterClaimOk(st, c);
      }
      forall q | q in st'.producers
        ensures Held(st'.workers, st'.producers[q])
      {
        DisconnectHeld(st, c, q);
      }
      DisconnectIds(st, c);
    }
  }

  lemma IncumbentIsTheOne(st: State, id: EngineId)
    requires Inv(st)
    ensures Incumbent(st, id).Some? <==> id in st.engineIds
    ensures Incumbent(st, id).Some? ==>
      Incumbent(st, id).value in st.workers && st.workers[Incumbent(st, id).value].engineId == id
    ensures Inv(Evict(st, id)) && id !in Evict(st, id).engineIds
    ensures Evict(st, id).workers.Keys <= st.workers.Keys
  {
    hide AllOk, AllFit, AllHeld;
    var incumbent := Incumbent(st, id);
    if incumbent.Some? {
      DisconnectKeeps(st, incumbent.value);
    }
  }

  lemma JoinIds(workers: Workers, ids: set<EngineId>, c: Context, w: Worker)
    requires IdsOk(workers, ids) && c !in workers && w.engineId !in ids
    ensures IdsOk(workers[c := w], ids + {w.engineId})
  {
    var workers' := workers[c := w];
    forall e | e in ids + {w.engineId}
      ensures exists d :: d in workers' && workers'[d].engineId == e
    {
      if e == w.engineId {
        assert workers'[c].engineId == e;
      } else {
        var d :| d in workers && workers[d].engineId == e;
        assert d in workers' && workers'[d].engineId == e;
      }
    }
  }

  lemma JoinHeld(workers: Workers, c: Context, w: Worker, p: Producer)
    requires Held(workers, p) && c !in workers
    ensures Held(workers[c := w], p)
  {
    if p.pending && p.latest.Some? {
      var d :| Holds(workers, d, p.latest.value.metadata);
      assert Holds(workers[c := w], d, p.latest.value.metadata);
    }
  }

  lemma NewWorkerOk(id: EngineId, all: bool, ps: Producers)
    ensures WorkerOk(NewWorker(id, all)) && Fits(NewWorker(id, all), ps)
  {
    assert Metas([]) == [];
  }

  lemma JoinKeeps(st: State, c: Context, id: EngineId, all: bool)
    requires Inv(st) && c !in st.workers && id !in st.engineIds
    ensures Inv(Join(st, c, id, all))
  {
    hide ProducerOk, WorkerOk, Fits, Held, IdsOk;
    var st' := Join(st, c, id, all);
    assert AllFit(st'.workers, st'.producers) by {
      NewWorkerOk(id, all, st.producers);
    }
    forall q | q in st'.producers
      ensures Held(st'.workers, st'.producers[q])
    {
      JoinHeld(st.workers, c, NewWorker(id, all), st.producers[q]);
    }
    JoinIds(st.workers, st.engineIds, c, NewWorker(id, all));
  }

  lemma ConnectKeeps(st: State, c: Context, id: EngineId, all: bool)
    requires Inv(st) && c !in st.workers
    ensures Inv(Connect(st, c, id, all))
  {
    hide Inv;
    IncumbentIsTheOne(st, id);
    JoinKeeps(Evict(st, id), c, id, all);
  }

  lemma IncumbentIs(st: State, id: EngineId, c: Context)
    requires Inv(st) && c in st.workers && st.workers[c].engineId == id
    ensures Incumbent(st, id) == Some(c)
  {
    hide AllOk, AllFit, AllHeld;
  }

  lemma Unfold(st: State, c: Context, r: Result)
    ensures Next(st, OnResult(c, r)) == EngineResult(st, c)
  {
  }

  lemma NoAnswer(st: State, c: Context)
    requires !Answers(st, c)
    ensures EngineResult(st, c) == st
  {
  }

  lemma NextKeeps(st: State, step: Step)
    requires Inv(st) && Legal(st, step)
    ensures Inv(Next(st, step))
  {
    match step
    case OnInput(f) => InputKeeps(st, f);
    case OnResult(c, r) => ResultKeeps(st, c);
    case OnConnect(c, id, all) => ConnectKeeps(st, c, id, all);
    case OnDisconnect(c) => DisconnectKeeps(st, c);
  }

  // A run that starts with the invariant ends with it.
  lemma {:induction false} RunKeeps(st: State, steps: seq<Step>)
    requires Inv(st) && LegalRun(st, steps)
    ensures Inv(Exec(st, steps))
    decreases |steps|
  {
    hide Inv, Next, Legal;
    if steps != [] {
      RunKeeps(st, steps[..|steps| - 1]);
      NextKeeps(Exec(st, steps[..|steps| - 1]), steps[|steps| - 1]);
    }
  }

  // The invariant holds at the end of every legal run.
  lemma ReachableOk(capacity: nat, steps: seq<Step>)
    requires LegalRun(Init(capacity), steps)
    ensures Inv(Exec(Init(capacity), steps))
  {
    RunKeeps(Init(capacity), steps);
  }
}
