/**
 The stable single-producer regime: one session's producer sends to a fixed list of
 engines that serve nobody else, stay connected, and are not joined by others with
 those ids. The rest of the system (other producers, other engines, their crashes
 and takeovers) is unconstrained.
 */
module StableStream {
  import opened Protocol
  import opened Scheduler
  import opened Invariant

  ghost predicate Ascending(s: seq<Frame>) {
    forall i, j :: 0 <= i < j < |s| ==> s[i].metadata.frameId < s[j].metadata.frameId
  }

  function ProducerOf(st: State, pid: ProducerId): Producer {
    if pid in st.producers then st.producers[pid] else NEW_PRODUCER
  }

  // What the environment must respect for producer `pid` of session `session` and engines `ids`.
  ghost predicate Respects(st: State, step: Step, pid: ProducerId, session: Address, ids: seq<EngineId>) {
    match step
    case OnInput(f) =>
      if f.metadata.producerId == pid
      then f.metadata.address == session && f.metadata.targets == ids
      else forall id :: id in f.metadata.targets ==> id !in ids
    case OnResult(c, r) => true
    case OnConnect(c, id, all) => id !in ids
    case OnDisconnect(c) => c in st.workers ==> st.workers[c].engineId !in ids
  }

  // Before the producer's first input: nothing known of it, and its engines are unused.
  ghost predicate FreshStart(st: State, pid: ProducerId, ids: seq<EngineId>) {
    && Inv(st)
    && pid !in st.producers
    && forall c :: c in st.workers && st.workers[c].engineId in ids
         ==> st.workers[c].rotation == [] && st.workers[c].sent == []
  }

  ghost predicate StreamOk(p: Producer, session: Address) {
    && (forall f :: f in p.accepted ==> f.metadata.address == session)
    && p.displaced == []
    && Ascending(p.queue)
    && (p.queue != [] ==> p.pending)
    && (p.latest.None? ==> p.accepted == [])
    && (p.latest.Some? ==> forall f :: f in p.queue ==> p.latest.value.metadata.frameId < f.metadata.frameId)
  }

  ghost predicate TargetOk(w: Worker, pid: ProducerId, p: Producer) {
    && (forall q :: q in w.rotation ==> q == pid)
    && (forall f :: f in w.sent ==> f.metadata.producerId == pid)
    && Ascending(w.sent)
    && if p.latest.None? then w.sent == []
       else
         && w.sent != [] && pid in w.last && w.last[pid] == w.sent[|w.sent| - 1].metadata
         && w.last[pid].frameId <= p.latest.value.metadata.frameId
         && (p.pending ==> w.current.Some?)
  }

  ghost predicate RoleOk(w: Worker, pid: ProducerId, p: Producer, ids: seq<EngineId>) {
    if w.engineId in ids then TargetOk(w, pid, p) else pid !in w.rotation
  }

  ghost predicate IdleTarget(workers: Workers, c: Context, ids: seq<EngineId>) {
    c in workers && workers[c].engineId in ids && workers[c].current.None?
  }

  ghost predicate Regime(st: State, pid: ProducerId, session: Address, ids: seq<EngineId>) {
    && Inv(st)
    && StreamOk(ProducerOf(st, pid), session)
    && (forall c :: c in st.workers ==> RoleOk(st.workers[c], pid, ProducerOf(st, pid), ids))
    && (ProducerOf(st, pid).latest.Some? && !ProducerOf(st, pid).pending ==>
          exists c :: IdleTarget(st.workers, c, ids))
  }

  lemma StartIsRegime(st: State, pid: ProducerId, session: Address, ids: seq<EngineId>)
    requires FreshStart(st, pid, ids)
    ensures Regime(st, pid, session, ids)
  {
    forall c | c in st.workers
      ensures RoleOk(st.workers[c], pid, NEW_PRODUCER, ids)
    {
      assert Fits(st.workers[c], st.producers);
    }
  }

  // ---------- Inputs ----------

  lemma OfferRole(w: Worker, f: Frame, pid: ProducerId, p: Producer, ids: seq<EngineId>)
    requires RoleOk(w, pid, p, ids)
    requires f.metadata.producerId != pid && forall id :: id in f.metadata.targets ==> id !in ids
    ensures RoleOk(if Targets(f, w) then Offer(w, f) else w, pid, p, ids)
  {
  }

  lemma OtherInputRegime(st: State, f: Frame, pid: ProducerId, session: Address, ids: seq<EngineId>)
    requires Regime(st, pid, session, ids) && Legal(st, OnInput(f)) && Respects(st, OnInput(f), pid, session, ids)
    requires f.metadata.producerId != pid
    ensures Regime(ClientInput(st, f), pid, session, ids)
  {
    hide Inv, StreamOk, RoleOk;
    InputKeeps(st, f);
    var st' := ClientInput(st, f);
    assert ProducerOf(st', pid) == ProducerOf(st, pid);
    forall c | c in st'.workers
      ensures RoleOk(st'.workers[c], pid, ProducerOf(st, pid), ids)
    {
      OfferRole(st.workers[c], f, pid, ProducerOf(st, pid), ids);
    }
    if c :| IdleTarget(st.workers, c, ids) {
      assert IdleTarget(st'.workers, c, ids);
    }
  }

  lemma DispatchStream(pid: ProducerId, p: Producer, f: Frame, session: Address)
    requires ProducerOk(pid, p) && StreamOk(p, session) && !p.pending && f.metadata.address == session
    ensures StreamOk(Dispatch(p, f), session)
  {
  }

  lemma EnqueueStream(pid: ProducerId, p: Producer, f: Frame, session: Address)
    requires ProducerOk(pid, p) && StreamOk(p, session) && p.pending
    requires f.metadata.address == session && Newer(p, f)
    ensures StreamOk(Enqueue(p, f), session)
  {
    forall g | g in p.queue
      ensures g.metadata.frameId < f.metadata.frameId
    {
      QueuedIsAccepted(pid, p, g);
    }
  }

  lemma AscendingSnoc(s: seq<Frame>, f: Frame)
    requires Ascending(s) && (s != [] ==> s[|s| - 1].metadata.frameId < f.metadata.frameId)
    ensures Ascending(s + [f])
  {
    forall i, j | 0 <= i < j < |s + [f]|
      ensures (s + [f])[i].metadata.frameId < (s + [f])[j].metadata.frameId
    {
      assert i < |s| - 1 ==> s[i].metadata.frameId < s[|s| - 1].metadata.frameId;
    }
  }

  // Sending a newer frame that is the producer's latest.
  lemma TargetOkSent(w: Worker, f: Frame, pid: ProducerId, p: Producer)
    requires forall q :: q in w.rotation ==> q == pid
    requires forall g :: g in w.sent ==> g.metadata.producerId == pid
    requires Ascending(w.sent) && (w.sent != [] ==> w.sent[|w.sent| - 1].metadata.frameId < f.metadata.frameId)
    requires f.metadata.producerId == pid && p.latest == Some(f)
    ensures TargetOk(SendPayload(w, f), pid, p)
  {
    AscendingSnoc(w.sent, f);
  }

  // A target that is idle starts on the new frame; one that is busy goes on.
  lemma DispatchTarget(w: Worker, f: Frame, p: Producer)
    requires WorkerOk(w) && TargetOk(w, f.metadata.producerId, p) && !p.pending
    requires forall g :: g in w.sent ==> g.metadata.frameId < f.metadata.frameId
    ensures TargetOk(Offer(w, f), f.metadata.producerId, Dispatch(p, f))
  {
    assert w.sent != [] ==> w.sent[|w.sent| - 1] in w.sent;
    if w.current.Some? {
      assert w.sent != [];
    } else {
      hide WorkerOk;
      var v := AddProducer(w, f.metadata.producerId);
      TargetOkSent(v, f, f.metadata.producerId, Dispatch(p, f));
    }
  }

  lemma EnqueueTarget(w: Worker, f: Frame, p: Producer)
    requires WorkerOk(w) && TargetOk(w, f.metadata.producerId, p) && w.current.Some?
    ensures TargetOk(Offer(w, f), f.metadata.producerId, p)
    ensures TargetOk(Offer(w, f), f.metadata.producerId, Enqueue(p, f))
  {
  }

  lemma SentIsOlder(st: State, f: Frame, c: Context, session: Address, ids: seq<EngineId>)
    requires Regime(st, f.metadata.producerId, session, ids) && f.metadata.address == session
    requires Newer(ProducerOf(st, f.metadata.producerId), f)
    requires c in st.workers && st.workers[c].engineId in ids
    ensures forall g :: g in st.workers[c].sent ==> g.metadata.frameId < f.metadata.frameId
  {
    hide AllOk, AllHeld, IdsOk, WorkerOk;
    var pid := f.metadata.producerId;
    var w := st.workers[c];
    assert RoleOk(w, pid, ProducerOf(st, pid), ids);
    assert Fits(w, st.producers);
    forall g | g in w.sent
      ensures g.metadata.frameId < f.metadata.frameId
    {
      assert Known(st.producers, g);
    }
  }

  // What the regime knows about one target.
  lemma TargetFacts(st: State, pid: ProducerId, session: Address, ids: seq<EngineId>, c: Context)
    requires Regime(st, pid, session, ids) && c in st.workers && st.workers[c].engineId in ids
    ensures WorkerOk(st.workers[c]) && TargetOk(st.workers[c], pid, ProducerOf(st, pid))
  {
    hide AllOk, AllHeld, IdsOk, WorkerOk, Fits, TargetOk;
    assert RoleOk(st.workers[c], pid, ProducerOf(st, pid), ids);
  }

  lemma StreamProducerOk(st: State, pid: ProducerId)
    requires Inv(st)
    ensures ProducerOk(pid, ProducerOf(st, pid))
  {
    hide AllFit, AllHeld, IdsOk;
  }

  lemma IdleMeansNotPending(st: State, pid: ProducerId, session: Address, ids: seq<EngineId>, c: Context)
    requires Regime(st, pid, session, ids) && IdleTarget(st.workers, c, ids)
    ensures !ProducerOf(st, pid).pending
  {
    hide Inv, StreamOk;
    TargetFacts(st, pid, session, ids, c);
    StreamProducerOk(st, pid);
  }

  lemma DirectInputRegime(st: State, f: Frame, session: Address, ids: seq<EngineId>)
    requires Regime(st, f.metadata.producerId, session, ids)
    requires Legal(st, OnInput(f)) && f.metadata.address == session && f.metadata.targets == ids
    requires HasIdleTarget(st.workers, f)
    ensures Regime(ClientInput(st, f), f.metadata.producerId, session, ids)
  {
    hide Inv, StreamOk, TargetOk, WorkerOk;
    var pid := f.metadata.producerId;
    var p := ProducerOf(st, pid);
    var st' := ClientInput(st, f);
    InputKeeps(st, f);
    var idle :| idle in st.workers && Targets(f, st.workers[idle]) && st.workers[idle].current.None?;
    assert IdleTarget(st.workers, idle, ids);
    IdleMeansNotPending(st, pid, session, ids, idle);
    StreamProducerOk(st, pid);
    DispatchStream(pid, p, f, session);
    assert ProducerOf(st', pid) == Dispatch(p, f);
    forall c | c in st'.workers
      ensures RoleOk(st'.workers[c], pid, Dispatch(p, f), ids)
    {
      if st.workers[c].engineId in ids {
        TargetFacts(st, pid, session, ids, c);
        SentIsOlder(st, f, c, session, ids);
        DispatchTarget(st.workers[c], f, p);
      }
    }
  }

  // With every target busy a token must be pending.
  lemma BusyMeansPending(st: State, f: Frame, session: Address, ids: seq<EngineId>)
    requires Regime(st, f.metadata.producerId, session, ids) && f.metadata.targets == ids
    requires HasTarget(st.workers, f) && !HasIdleTarget(st.workers, f)
    ensures ProducerOf(st, f.metadata.producerId).pending
  {
    hide Inv, StreamOk;
    var pid := f.metadata.producerId;
    var c :| c in st.workers && Targets(f, st.workers[c]);
    TargetFacts(st, pid, session, ids, c);
    assert st.workers[c].sent != [];
    assert forall d :: IdleTarget(st.workers, d, ids) ==> Targets(f, st.workers[d]);
  }

  lemma QueuedInputRegime(st: State, f: Frame, session: Address, ids: seq<EngineId>)
    requires Regime(st, f.metadata.producerId, session, ids)
    requires Legal(st, OnInput(f)) && f.metadata.address == session && f.metadata.targets == ids
    requires HasTarget(st.workers, f) && !HasIdleTarget(st.workers, f)
    ensures Regime(ClientInput(st, f), f.metadata.producerId, session, ids)
  {
    hide Inv, StreamOk, TargetOk, WorkerOk;
    var pid := f.metadata.producerId;
    var p := ProducerOf(st, pid);
    var st' := ClientInput(st, f);
    InputKeeps(st, f);
    BusyMeansPending(st, f, session, ids);
    StreamProducerOk(st, pid);
    EnqueueStream(pid, p, f, session);
    assert ProducerOf(st', pid) == p || ProducerOf(st', pid) == Enqueue(p, f);
    forall c | c in st'.workers
      ensures RoleOk(st'.workers[c], pid, ProducerOf(st', pid), ids)
    {
      if st.workers[c].engineId in ids {
        TargetFacts(st, pid, session, ids, c);
        assert Targets(f, st.workers[c]);
        EnqueueTarget(st.workers[c], f, p);
      }
    }
  }

  lemma OwnInputRegime(st: State, f: Frame, session: Address, ids: seq<EngineId>)
    requires Regime(st, f.metadata.producerId, session, ids)
    requires Legal(st, OnInput(f)) && f.metadata.address == session && f.metadata.targets == ids
    ensures Regime(ClientInput(st, f), f.metadata.producerId, session, ids)
  {
    if HasIdleTarget(st.workers, f) {
      DirectInputRegime(st, f, session, ids);
    } else if HasTarget(st.workers, f) {
      QueuedInputRegime(st, f, session, ids);
    } else {
      hide Inv, StreamOk, RoleOk;
      InputKeeps(st, f);
      assert ProducerOf(ClientInput(st, f), f.metadata.producerId) == ProducerOf(st, f.metadata.producerId);
    }
  }

  // ---------- Answers ----------

  // An engine outside the regime never touches this producer.
  lemma OutsiderResult(st: State, pid: ProducerId, session: Address, ids: seq<EngineId>, c: Context)
    requires Regime(st, pid, session, ids) && c in st.workers && st.workers[c].engineId !in ids
    ensures Answers(st, c) ==> st.workers[c].current.value.producerId != pid
    ensures ProducerOf(EngineResult(st, c), pid) == ProducerOf(st, pid)
    ensures c in EngineResult(st, c).workers && pid !in EngineResult(st, c).workers[c].rotation
    ensures EngineResult(st, c).workers[c].engineId == st.workers[c].engineId
  {
    hide AllOk, AllHeld, IdsOk, Fits, StreamOk;
    assert RoleOk(st.workers[c], pid, ProducerOf(st, pid), ids);
    assert WorkerOk(st.workers[c]);
    if Answers(st, c) {
      var w, ps := Logged(st, c), AfterClaim(st, c);
      var k, q := SendNextCases(w, ps);
      if k <= |w.rotation| {
        assert w.rotation == w.rotation[..k] + w.rotation[k..];
      }
    }
  }

  lemma OutsiderResultRegime(st: State, pid: ProducerId, session: Address, ids: seq<EngineId>, c: Context)
    requires Regime(st, pid, session, ids) && c in st.workers && st.workers[c].engineId !in ids
    ensures Regime(EngineResult(st, c), pid, session, ids)
  {
    hide Inv, StreamOk, TargetOk, FirstReady, SendNextWorker, SendNextProducers;
    ResultKeeps(st, c);
    OutsiderResult(st, pid, session, ids, c);
    var st' := EngineResult(st, c);
    forall d | d in st'.workers
      ensures RoleOk(st'.workers[d], pid, ProducerOf(st, pid), ids)
    {
      assert d != c ==> RoleOk(st.workers[d], pid, ProducerOf(st, pid), ids);
    }
    if d :| IdleTarget(st.workers, d, ids) {
      assert d != c && IdleTarget(st'.workers, d, ids);
    }
  }

  lemma OnlyMember(rotation: seq<ProducerId>, pid: ProducerId)
    requires NoDup(rotation) && pid in rotation && forall q :: q in rotation ==> q == pid
    ensures rotation == [pid]
  {
    var i :| 0 <= i < |rotation| && rotation[i] == pid;
    var first, last := rotation[0], rotation[|rotation| - 1];
    assert first in rotation && last in rotation;
  }

  lemma SoleProducer(w: Worker, ps: Producers, pid: ProducerId)
    requires w.rotation == [pid] && pid in ps
    ensures SendNextWorker(w, ps) ==
            if Ready(w, ps, pid) then ServeWorker(w, ps[pid], pid) else w.(current := None)
    ensures SendNextProducers(w, ps) == if Ready(w, ps, pid) then ps[pid := ServeProducer(ps[pid])] else ps
  {
    var k, q := SendNextCases(w, ps);
    assert pid in w.rotation && Rotated(w.rotation, 1) == w.rotation;
  }

  lemma BusyTarget(w: Worker, pid: ProducerId, p: Producer)
    requires WorkerOk(w) && TargetOk(w, pid, p) && w.current.Some?
    ensures w.rotation == [pid] && p.latest.Some? && w.sent != []
    ensures w.sent[|w.sent| - 1].metadata == w.current.value && w.sent[|w.sent| - 1] in w.sent
    ensures pid in w.last && w.last[pid] == w.current.value && w.current.value.producerId == pid
  {
    assert w.sent != [];
    OnlyMember(w.rotation, pid);
    assert Metas(w.sent)[|w.sent| - 1] == w.current.value;
  }

  // The answering target's frame is the last it was sent; if it has the newest dispatched
  // frame's id, it is that frame.
  lemma AnsweringTarget(st: State, pid: ProducerId, session: Address, ids: seq<EngineId>, c: Context)
    requires Regime(st, pid, session, ids) && Answers(st, c) && st.workers[c].engineId in ids
    ensures st.workers[c].rotation == [pid] && pid in st.producers && st.producers[pid].latest.Some?
    ensures pid in st.workers[c].last && st.workers[c].last[pid] == st.workers[c].current.value
    ensures st.workers[c].current.value.producerId == pid
    ensures st.workers[c].current.value.frameId == st.producers[pid].latest.value.metadata.frameId
            ==> st.workers[c].current.value == st.producers[pid].latest.value.metadata
  {
    var w := st.workers[c];
    TargetFacts(st, pid, session, ids, c);
    BusyTarget(w, pid, ProducerOf(st, pid));
    var f := w.sent[|w.sent| - 1];
    assert f in st.producers[pid].accepted by {
      hide AllOk, AllHeld, IdsOk, WorkerOk, TargetOk, StreamOk;
      assert Fits(w, st.producers) && Known(st.producers, f);
    }
    SameIdSameFrame(st, pid, session, ids, f);
  }

  lemma SameIdSameFrame(st: State, pid: ProducerId, session: Address, ids: seq<EngineId>, f: Frame)
    requires Regime(st, pid, session, ids) && pid in st.producers && st.producers[pid].latest.Some?
    requires f in st.producers[pid].accepted
    ensures f.metadata.frameId == st.producers[pid].latest.value.metadata.frameId
            ==> f == st.producers[pid].latest.value
  {
    hide AllHeld, AllFit, IdsOk, Ledger, RoleOk;
    var p := st.producers[pid];
    assert ProducerOk(pid, p);
    var i :| 0 <= i < |p.accepted| && p.accepted[i] == f;
    var j :| 0 <= j < |p.accepted| && p.accepted[j] == p.latest.value;
    assert i == j || p.accepted[i].metadata.frameId != p.accepted[j].metadata.frameId;
  }

  // The frame a target turns to after an answer: the next queued frame if it has just returned
  // the token, otherwise the newest dispatched frame unless that is what it has just done.
  function NextFrame(p: Producer, md: Metadata): Option<Frame> {
    if AwaitsToken(p, md) then (if p.queue != [] then Some(p.queue[0]) else None)
    else if p.latest.Some? && p.latest.value.metadata.frameId > md.frameId then p.latest
    else None
  }

  function AfterAnswer(p: Producer, md: Metadata): Producer {
    if !AwaitsToken(p, md) then p
    else if p.queue != [] then Dequeue(Claim(p)) else Claim(p)
  }

  function TurnTo(w: Worker, f: Option<Frame>): Worker {
    if f.Some? then SendPayload(w, f.value) else w.(current := None)
  }

  lemma SoleAnswer(st: State, c: Context, pid: ProducerId)
    requires Answers(st, c) && pid in st.producers
    requires st.workers[c].rotation == [pid] && st.workers[c].current.value.producerId == pid
    requires pid in st.workers[c].last && st.workers[c].last[pid] == st.workers[c].current.value
    requires st.producers[pid].queue != [] ==> st.producers[pid].pending
    ensures var p, md := st.producers[pid], st.workers[c].current.value;
      EngineResult(st, c) == st.(workers := st.workers[c := TurnTo(Logged(st, c), NextFrame(p, md))],
                                 producers := st.producers[pid := AfterAnswer(p, md)])
  {
    hide SendNextWorker, SendNextProducers, SendPayload, FirstReady;
    SoleProducer(Logged(st, c), AfterClaim(st, c), pid);
    var p, md := st.producers[pid], st.workers[c].current.value;
    if AwaitsToken(p, md) {
      assert AfterClaim(st, c)[pid] == Claim(p);
    } else {
      assert st.producers[pid := p] == st.producers;
    }
  }

  // What one answer of a target does to the whole state.
  lemma TargetAnswer(st: State, pid: ProducerId, session: Address, ids: seq<EngineId>, c: Context)
    requires Regime(st, pid, session, ids) && Answers(st, c) && st.workers[c].engineId in ids
    ensures pid in st.producers && st.workers[c].current.value.producerId == pid
    ensures var p, md := st.producers[pid], st.workers[c].current.value;
      && EngineResult(st, c) == st.(workers := st.workers[c := TurnTo(Logged(st, c), NextFrame(p, md))],
                                    producers := st.producers[pid := AfterAnswer(p, md)])
      && (p.pending ==> AwaitsToken(p, md) || NextFrame(p, md) == p.latest)
  {
    hide Inv, Regime, EngineResult;
    AnsweringTarget(st, pid, session, ids, c);
    AnswerGate(st, pid, session, ids, c);
    SoleAnswer(st, c, pid);
  }

  lemma AnswerGate(st: State, pid: ProducerId, session: Address, ids: seq<EngineId>, c: Context)
    requires Regime(st, pid, session, ids) && Answers(st, c) && st.workers[c].engineId in ids
    requires pid in st.producers
    ensures st.producers[pid].queue != [] ==> st.producers[pid].pending
    ensures pid in st.workers[c].last && st.producers[pid].latest.Some? ==>
            st.workers[c].last[pid].frameId <= st.producers[pid].latest.value.metadata.frameId
  {
    hide Inv, WorkerOk;
    TargetFacts(st, pid, session, ids, c);
  }

  lemma StreamAfterAnswer(pid: ProducerId, p: Producer, session: Address)
    requires ProducerOk(pid, p) && StreamOk(p, session) && p.pending
    ensures p.queue == [] ==> StreamOk(Claim(p), session)
    ensures p.queue != [] ==> StreamOk(Dequeue(Claim(p)), session)
  {
  }

  // Targets other than the answering one keep up: their last frame is still no newer than the
  // newest dispatched one, and a pending token still finds them busy.
  lemma OtherTarget(w: Worker, pid: ProducerId, p: Producer, md: Metadata, session: Address)
    requires TargetOk(w, pid, p) && StreamOk(p, session) && p.latest.Some?
    ensures TargetOk(w, pid, AfterAnswer(p, md))
  {
    if AwaitsToken(p, md) && p.queue != [] {
      assert p.queue[0] in p.queue;
    }
  }

  lemma AnsweredTarget(st: State, pid: ProducerId, session: Address, ids: seq<EngineId>, c: Context)
    requires Regime(st, pid, session, ids) && Answers(st, c) && st.workers[c].engineId in ids
    ensures pid in st.producers && st.workers[c].current.value.producerId == pid
    ensures var p, md := st.producers[pid], st.workers[c].current.value;
      TargetOk(TurnTo(Logged(st, c), NextFrame(p, md)), pid, AfterAnswer(p, md))
  {
    hide Inv, WorkerOk;
    TargetFacts(st, pid, session, ids, c);
    TargetAnswer(st, pid, session, ids, c);
    BusyTarget(st.workers[c], pid, st.producers[pid]);
    hide Regime;
    var p, md, w := st.producers[pid], st.workers[c].current.value, Logged(st, c);
    var f := NextFrame(p, md);
    if f.Some? {
      NextIsNewer(st, pid, session, ids, c);
      TargetOkSent(w, f.value, pid, AfterAnswer(p, md));
    }
  }

  lemma NextIsNewer(st: State, pid: ProducerId, session: Address, ids: seq<EngineId>, c: Context)
    requires Regime(st, pid, session, ids) && Answers(st, c) && st.workers[c].engineId in ids
    requires pid in st.producers && NextFrame(st.producers[pid], st.workers[c].current.value).Some?
    ensures var p, md := st.producers[pid], st.workers[c].current.value;
      var f := NextFrame(p, md).value;
      && f.metadata.producerId == pid && f.metadata.frameId > md.frameId
      && AfterAnswer(p, md).latest == Some(f)
  {
    hide AllFit, AllHeld, IdsOk, RoleOk;
    var p := st.producers[pid];
    assert ProducerOk(pid, p);
    if p.queue != [] {
      QueuedIsAccepted(pid, p, p.queue[0]);
    }
  }

  lemma AnsweredStream(st: State, pid: ProducerId, session: Address, ids: seq<EngineId>, md: Metadata)
    requires Regime(st, pid, session, ids) && pid in st.producers
    ensures StreamOk(AfterAnswer(st.producers[pid], md), session)
  {
    hide Inv, RoleOk, StreamOk, ProducerOk;
    StreamProducerOk(st, pid);
    if AwaitsToken(st.producers[pid], md) {
      StreamAfterAnswer(pid, st.producers[pid], session);
    }
  }

  lemma AnsweredRole(st: State, pid: ProducerId, session: Address, ids: seq<EngineId>, c: Context, d: Context)
    requires Regime(st, pid, session, ids) && Answers(st, c) && st.workers[c].engineId in ids && d in st.workers
    ensures pid in st.producers && d in EngineResult(st, c).workers
    ensures RoleOk(EngineResult(st, c).workers[d], pid,
                   AfterAnswer(st.producers[pid], st.workers[c].current.value), ids)
  {
    hide Inv, StreamOk, TargetOk, WorkerOk, EngineResult;
    TargetAnswer(st, pid, session, ids, c);
    AnsweringTarget(st, pid, session, ids, c);
    if d == c {
      AnsweredTarget(st, pid, session, ids, c);
    } else if st.workers[d].engineId in ids {
      TargetFacts(st, pid, session, ids, d);
      OtherTarget(st.workers[d], pid, st.producers[pid], st.workers[c].current.value, session);
    } else {
      assert RoleOk(st.workers[d], pid, st.producers[pid], ids);
    }
  }

  lemma AnsweredIdle(st: State, pid: ProducerId, session: Address, ids: seq<EngineId>, c: Context)
    requires Regime(st, pid, session, ids) && Answers(st, c) && st.workers[c].engineId in ids
    ensures pid in st.producers
    ensures !AfterAnswer(st.producers[pid], st.workers[c].current.value).pending ==>
      exists d :: IdleTarget(EngineResult(st, c).workers, d, ids)
  {
    hide Inv, StreamOk, RoleOk, EngineResult;
    TargetAnswer(st, pid, session, ids, c);
    AnsweringTarget(st, pid, session, ids, c);
    var st' := EngineResult(st, c);
    var p, md := st.producers[pid], st.workers[c].current.value;
    if !AfterAnswer(p, md).pending {
      if NextFrame(p, md).None? {
        assert IdleTarget(st'.workers, c, ids);
      } else {
        var d :| IdleTarget(st.workers, d, ids);
        assert IdleTarget(st'.workers, d, ids);
      }
    }
  }

  lemma TargetResultRegime(st: State, pid: ProducerId, session: Address, ids: seq<EngineId>, c: Context)
    requires Regime(st, pid, session, ids) && Answers(st, c) && st.workers[c].engineId in ids
    ensures Regime(EngineResult(st, c), pid, session, ids)
  {
    hide Inv, StreamOk, RoleOk, EngineResult, AfterAnswer;
    ResultKeeps(st, c);
    TargetAnswer(st, pid, session, ids, c);
    AnsweredStream(st, pid, session, ids, st.workers[c].current.value);
    AnsweredIdle(st, pid, session, ids, c);
    var st' := EngineResult(st, c);
    assert ProducerOf(st', pid) == AfterAnswer(st.producers[pid], st.workers[c].current.value);
    forall d | d in st'.workers
      ensures RoleOk(st'.workers[d], pid, ProducerOf(st', pid), ids)
    {
      AnsweredRole(st, pid, session, ids, c, d);
    }
  }

  // ---------- Connections elsewhere ----------

  lemma OutsiderDisconnectProducer(st: State, pid: ProducerId, session: Address, ids: seq<EngineId>, c: Context)
    requires Regime(st, pid, session, ids) && c in st.workers && st.workers[c].engineId !in ids
    ensures ProducerOf(Disconnect(st, c), pid) == ProducerOf(st, pid)
  {
    hide Regime, EngineResult;
    OutsiderResult(st, pid, session, ids, c);
  }

  lemma OutsiderDisconnect(st: State, pid: ProducerId, session: Address, ids: seq<EngineId>, c: Context)
    requires Regime(st, pid, session, ids) && c in st.workers && st.workers[c].engineId !in ids
    ensures Regime(Disconnect(st, c), pid, session, ids)
  {
    hide Inv, StreamOk, RoleOk;
    DisconnectKeeps(st, c);
    OutsiderDisconnectProducer(st, pid, session, ids, c);
    var st' := Disconnect(st, c);
    if d :| IdleTarget(st.workers, d, ids) {
      assert IdleTarget(st'.workers, d, ids);
    }
  }

  lemma OutsiderConnect(st: State, pid: ProducerId, session: Address, ids: seq<EngineId>,
                        c: Context, id: EngineId, all: bool)
    requires Regime(st, pid, session, ids) && c !in st.workers && id !in ids
    ensures Regime(Connect(st, c, id, all), pid, session, ids)
  {
    hide StreamOk, TargetOk, AllOk, AllFit, AllHeld, IdsOk;
    ConnectKeeps(st, c, id, all);
    IncumbentIsTheOne(st, id);
    var mid := Evict(st, id);
    if Incumbent(st, id).Some? {
      OutsiderDisconnect(st, pid, session, ids, Incumbent(st, id).value);
    }
    var st' := Connect(st, c, id, all);
    assert ProducerOf(st', pid) == ProducerOf(mid, pid);
    forall d | d in st'.workers
      ensures RoleOk(st'.workers[d], pid, ProducerOf(mid, pid), ids)
    {
      assert d != c ==> RoleOk(mid.workers[d], pid, ProducerOf(mid, pid), ids);
    }
    if d :| IdleTarget(mid.workers, d, ids) {
      assert IdleTarget(st'.workers, d, ids);
    }
  }

  // ---------- The regime over runs ----------

  lemma RegimeKept(st: State, step: Step, pid: ProducerId, session: Address, ids: seq<EngineId>)
    requires Regime(st, pid, session, ids) && Legal(st, step) && Respects(st, step, pid, session, ids)
    ensures Regime(Next(st, step), pid, session, ids)
  {
    hide Regime, ClientInput, EngineResult, Connect, Disconnect;
    match step
    case OnInput(f) =>
      if f.metadata.producerId == pid {
        OwnInputRegime(st, f, session, ids);
      } else {
        OtherInputRegime(st, f, pid, session, ids);
      }
    case OnResult(c, r) =>
      if c in st.workers && st.workers[c].engineId !in ids {
        OutsiderResultRegime(st, pid, session, ids, c);
      } else if Answers(st, c) {
        TargetResultRegime(st, pid, session, ids, c);
      } else {
        NoAnswer(st, c);
      }
    case OnConnect(c, id, all) => OutsiderConnect(st, pid, session, ids, c, id, all);
    case OnDisconnect(c) =>
      if c in st.workers {
        OutsiderDisconnect(st, pid, session, ids, c);
      } else {
        NoDisconnect(st, c);
      }
  }

  lemma NoDisconnect(st: State, c: Context)
    requires c !in st.workers
    ensures Disconnect(st, c) == st
  {
  }

  ghost predicate RespectfulRun(st: State, steps: seq<Step>, pid: ProducerId, session: Address, ids: seq<EngineId>)
    decreases |steps|
  {
    steps == [] ||
    (RespectfulRun(st, steps[..|steps| - 1], pid, session, ids)
     && Respects(Exec(st, steps[..|steps| - 1]), steps[|steps| - 1], pid, session, ids))
  }

  lemma {:induction false} RegimeHolds(st: State, steps: seq<Step>, pid: ProducerId, session: Address,
                                       ids: seq<EngineId>)
    requires FreshStart(st, pid, ids) && LegalRun(st, steps) && RespectfulRun(st, steps, pid, session, ids)
    ensures Regime(Exec(st, steps), pid, session, ids)
    decreases |steps|
  {
    if steps == [] {
      StartIsRegime(st, pid, session, ids);
    } else {
      RegimeHolds(st, steps[..|steps| - 1], pid, session, ids);
      RegimeKept(Exec(st, steps[..|steps| - 1]), steps[|steps| - 1], pid, session, ids);
    }
  }

  // The engines that serve the stream.
  ghost predicate ServesStream(st: State, c: Context, ids: seq<EngineId>) {
    c in st.workers && st.workers[c].engineId in ids
  }

  // In the stable regime: while a token is pending every target is busy; a non-empty queue means a
  // token is pending; queued ids ascend and lie above the in-flight one; every target is sent
  // strictly ascending ids; and no token is lost.
  lemma StableStreamGuarantees(st: State, steps: seq<Step>, pid: ProducerId, session: Address, ids: seq<EngineId>)
    requires FreshStart(st, pid, ids) && LegalRun(st, steps) && RespectfulRun(st, steps, pid, session, ids)
    requires pid in Exec(st, steps).producers
    ensures var st' := Exec(st, steps);
      var p := st'.producers[pid];
      && (p.pending ==> forall c :: ServesStream(st', c, ids) ==> st'.workers[c].current.Some?)
      && (p.queue != [] ==> p.pending && p.latest.Some?)
      && Ascending(InFlight(p) + p.queue)
      && (forall c :: ServesStream(st', c, ids) ==> Ascending(st'.workers[c].sent))
      && multiset(p.accepted) == multiset(p.returned) + multiset(p.queue) + multiset(InFlight(p))
  {
    hide Inv, LegalRun, RespectfulRun, Exec, RoleOk, WorkerOk;
    RegimeHolds(st, steps, pid, session, ids);
    var st' := Exec(st, steps);
    var p := st'.producers[pid];
    StreamProducerOk(st', pid);
    forall c | ServesStream(st', c, ids)
      ensures Ascending(st'.workers[c].sent) && (p.pending ==> st'.workers[c].current.Some?)
    {
      TargetFacts(st', pid, session, ids, c);
    }
  }

  // An engine that answers skips its backlog: whatever it is sent next is the newest frame that
  // has been dispatched to any engine, and it is newer than what it just finished.
  lemma AnswerSkipsToLatest(st: State, steps: seq<Step>, pid: ProducerId, session: Address, ids: seq<EngineId>,
                            c: Context)
    requires FreshStart(st, pid, ids) && LegalRun(st, steps) && RespectfulRun(st, steps, pid, session, ids)
    requires ServesStream(Exec(st, steps), c, ids) && Answers(Exec(st, steps), c)
    ensures var s0 := Exec(st, steps);
      var s1 := EngineResult(s0, c);
      && c in s1.workers && pid in s1.producers
      && (s1.workers[c].current.Some? ==>
            && s1.producers[pid].latest.Some?
            && s1.workers[c].sent == s0.workers[c].sent + [s1.producers[pid].latest.value]
            && s1.producers[pid].latest.value.metadata.frameId > s0.workers[c].current.value.frameId)
  {
    RegimeHolds(st, steps, pid, session, ids);
    var s0 := Exec(st, steps);
    hide Regime, RespectfulRun, LegalRun, EngineResult;
    TargetAnswer(s0, pid, session, ids, c);
    if NextFrame(s0.producers[pid], s0.workers[c].current.value).Some? {
      NextIsNewer(s0, pid, session, ids, c);
    }
  }
}
