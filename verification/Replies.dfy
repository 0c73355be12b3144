/**
 What a session is told, message by message and field by field, at each step of the
 server. Conditions and contents are spelled out in terms of sessions, workers and
 producers.
 */
module Replies {
  import opened Protocol
  import opened Scheduler
  import opened Invariant
  import opened Guarantees
  import opened Sessions
  import opened Accounts

  // ---------- Inputs ----------

  // Some connected engine is among the targets.
  ghost predicate Named(workers: Workers, targets: seq<EngineId>) {
    exists c :: c in workers && workers[c].engineId in targets
  }

  // Every connected engine among the targets is working on a frame.
  ghost predicate AllBusy(workers: Workers, targets: seq<EngineId>) {
    forall c :: c in workers && workers[c].engineId in targets ==> workers[c].current.Some?
  }

  function QueueLength(st: State, pid: ProducerId): nat {
    if pid in st.producers then |st.producers[pid].queue| else 0
  }

  function TokensLeft(s: Server, a: Address, pid: ProducerId): int
    requires a in s.clients
  {
    if pid in s.clients[a].tokens then s.clients[a].tokens[pid] else s.numTokens
  }

  // The input gets through: the session is registered, has a token, names a connected engine, and
  // an engine it names is idle or the producer's queue has room.
  ghost predicate GetsThrough(s: Server, a: Address, i: Input)
    requires a in s.clients
  {
    && s.clients[a].clientInfo.Some? && TokensLeft(s, a, i.producerId) >= 1
    && Named(s.sched.workers, i.targets)
    && (!AllBusy(s.sched.workers, i.targets) || QueueLength(s.sched, i.producerId) != s.sched.capacity)
  }

  lemma StatusExactly(st: State, f: Frame)
    ensures var status := InputStatus(st, f);
      var full := QueueLength(st, f.metadata.producerId) == st.capacity;
      && (status == NoEngineForInput <==> !Named(st.workers, f.metadata.targets))
      && (status == ServerDroppedFrame <==>
            Named(st.workers, f.metadata.targets) && AllBusy(st.workers, f.metadata.targets) && full)
      && status in {Success, NoEngineForInput, ServerDroppedFrame}
  {
    if HasTarget(st.workers, f) {
      var c :| c in st.workers && Targets(f, st.workers[c]);
      assert st.workers[c].engineId in f.metadata.targets;
    }
    if Named(st.workers, f.metadata.targets) {
      var c :| c in st.workers && st.workers[c].engineId in f.metadata.targets;
      assert Targets(f, st.workers[c]);
    }
    assert HasIdleTarget(st.workers, f) <==> !AllBusy(st.workers, f.metadata.targets) by {
      if !AllBusy(st.workers, f.metadata.targets) {
        var c :| c in st.workers && st.workers[c].engineId in f.metadata.targets && st.workers[c].current.None?;
        assert Targets(f, st.workers[c]);
      }
    }
  }

  lemma VerdictExactly(s: Server, a: Address, i: Input)
    requires a in s.clients
    ensures var v := Verdict(s.clients[a], s.numTokens, s.sched, a, i);
      var registered, tokens := s.clients[a].clientInfo.Some?, TokensLeft(s, a, i.producerId);
      var named := Named(s.sched.workers, i.targets);
      && (v == Success <==> GetsThrough(s, a, i))
      && (v == UnspecifiedError <==> !registered)
      && (v == NoTokens <==> registered && tokens < 1)
      && (v == NoEngineForInput <==> registered && tokens >= 1 && !named)
      && (v == ServerDroppedFrame <==>
            && registered && tokens >= 1 && named && AllBusy(s.sched.workers, i.targets)
            && QueueLength(s.sched, i.producerId) == s.sched.capacity)
  {
    hide InputStatus, Named, AllBusy, QueueLength;
    if s.clients[a].clientInfo.Some? {
      StatusExactly(s.sched, FrameOf(a, s.clients[a].clientInfo.value, i));
    }
  }

  // An input that gets through is answered later, by an engine. Any other is answered at once, with
  // its token and its number, and with the one code that says why.
  lemma ReplyExactly(s: Server, a: Address, i: Input)
    requires a in s.clients
    ensures var posted := Posted(s, Receives(a, InputMessage(i)), a);
      var registered, tokens := s.clients[a].clientInfo.Some?, TokensLeft(s, a, i.producerId);
      var named := Named(s.sched.workers, i.targets);
      && (posted == [] <==> GetsThrough(s, a, i))
      && (posted != [] ==>
            && |posted| == 1 && posted[0].ResultWrapper?
            && posted[0].producerId == i.producerId && posted[0].returnToken
            && posted[0].result.frameId == i.frameId && posted[0].result.origin.None?
            && posted[0].result.payload == NoPayload
            && (posted[0].result.code == UnspecifiedError <==> !registered)
            && (posted[0].result.code == NoTokens <==> registered && tokens < 1)
            && (posted[0].result.code == NoEngineForInput <==> registered && tokens >= 1 && !named)
            && (posted[0].result.code == ServerDroppedFrame <==>
                  && registered && tokens >= 1 && named && AllBusy(s.sched.workers, i.targets)
                  && QueueLength(s.sched, i.producerId) == s.sched.capacity))
  {
    hide Verdict, Named, AllBusy, QueueLength, TokensLeft, ServerNext, Posted;
    AnswerPosted(s, a, InputMessage(i));
    PostedIs(s, Receives(a, InputMessage(i)), a, Answer(s, a, InputMessage(i)));
    VerdictExactly(s, a, i);
  }

  // What gets through enters the producer's ledger as the client sent it, with the session's
  // registered client info; nothing else enters any ledger.
  lemma EntersExactly(s: Server, a: Address, i: Input, pid: ProducerId)
    requires a in s.clients
    ensures var before := AcceptedOf(s.sched, pid);
      var after := AcceptedOf(ServerNext(s, Receives(a, InputMessage(i))).sched, pid);
      if GetsThrough(s, a, i) && pid == i.producerId then
        && |after| == |before| + 1 && after[..|before|] == before
        && var f := after[|before|];
           && f.payload == i.payload && f.metadata.targets == i.targets && f.metadata.frameId == i.frameId
           && f.metadata.producerId == i.producerId && f.metadata.address == a
           && s.clients[a].clientInfo == Some(f.metadata.clientInfo)
      else after == before
  {
    hide Verdict, GetsThrough, ServerNext, AcceptedOf;
    LedgerGrows(s, Receives(a, InputMessage(i)), pid);
    AcceptedVerdict(s, a, i);
    VerdictExactly(s, a, i);
    if GetsThrough(s, a, i) {
      ThroughRegistered(s, a, i);
    }
  }

  lemma ThroughRegistered(s: Server, a: Address, i: Input)
    requires a in s.clients && GetsThrough(s, a, i)
    ensures s.clients[a].clientInfo.Some?
  {
  }

  // ---------- Registrations ----------

  // A registration is stored and acknowledged with the allowance and the connected engines.
  lemma AcknowledgedExactly(s: Server, a: Address, info: Blob)
    requires a in s.clients
    ensures var t := ServerNext(s, Receives(a, Registration(info)));
      && a in t.clients && t.clients[a].clientInfo == Some(info) && t.sched == s.sched
      && Posted(s, Receives(a, Registration(info)), a) == [Registered(s.numTokens, s.sched.engineIds)]
  {
    PostedIs(s, Receives(a, Registration(info)), a, [Registered(s.numTokens, s.sched.engineIds)]);
  }

  // ---------- Engine results ----------

  // The frame this engine is working on, if the server knows its producer.
  function WorkingOn(st: State, c: Context): Option<Metadata> {
    if c in st.workers && st.workers[c].current.Some? && st.workers[c].current.value.producerId in st.producers
    then st.workers[c].current else None
  }

  // Its token is still out: it is its producer's latest frame, and nobody has answered it.
  predicate TokenOut(st: State, md: Metadata)
    requires md.producerId in st.producers
  {
    var p := st.producers[md.producerId];
    p.pending && p.latest.Some? && p.latest.value.metadata == md
  }

  // The session of the frame hears of a result if the frame's token is still out, which then comes
  // with it, or if the engine registered for all responses. The result is the engine's, with the
  // frame's number. Nobody else hears anything.
  lemma ResultHeard(s: Server, c: Context, r: Result, a: Address)
    requires Inv(s.sched) && a in s.clients
    ensures var md := WorkingOn(s.sched, c);
      Posted(s, Engines(OnResult(c, r)), a) ==
      if md.Some? && md.value.address == a && (TokenOut(s.sched, md.value) || s.sched.workers[c].allResponses)
      then [ResultWrapper(md.value.producerId, TokenOut(s.sched, md.value),
                          Result(r.code, r.payload, r.engineId, md.value.frameId, r.origin))]
      else []
  {
    hide Inv, Apply, Posted, EngineResult, Continues;
    EngineContinues(s, OnResult(c, r), a, "");
    var effects := Effects(s.sched, OnResult(c, r));
    if effects != [] {
      assert effects[1..] == [];
      assert Mail(effects, a) == MailOf(effects[0], a) + Mail([], a);
    }
  }

  // ---------- Lost engines ----------

  // The session of the frame a lost engine was working on gets an engine error in the engine's name
  // with the frame's number, if that is still its producer's latest frame and its token is out (which
  // then comes with it) or the engine registered for all responses.
  function LossMessages(st: State, c: Context, a: Address): seq<ToClient> {
    var md := WorkingOn(st, c);
    if md.Some? && md.value.address == a
       && st.producers[md.value.producerId].latest.Some?
       && st.producers[md.value.producerId].latest.value.metadata == md.value
       && (st.producers[md.value.producerId].pending || st.workers[c].allResponses)
    then [ResultWrapper(md.value.producerId, st.producers[md.value.producerId].pending,
                        Result(EngineError, NoPayload, st.workers[c].engineId, md.value.frameId, None))]
    else []
  }

  lemma DisconnectMail(st: State, c: Context, a: Address)
    requires c in st.workers
    ensures Mail(DisconnectEffects(st, c), a) ==
            LossMessages(st, c, a) + [EngineIdsUpdate(st.engineIds - {st.workers[c].engineId})]
  {
    var notice, announce := LossNotice(st, c), [Announce(st.engineIds - {st.workers[c].engineId})];
    MailAppend(notice, announce, a);
    assert announce[1..] == [] && Mail(announce, a) == MailOf(announce[0], a) + Mail([], a);
    if notice != [] {
      assert notice[1..] == [] && Mail(notice, a) == MailOf(notice[0], a) + Mail([], a);
    }
  }

  // A disconnect tells the session concerned of the loss, and every session the remaining engines.
  lemma LossHeard(s: Server, c: Context, a: Address)
    requires Inv(s.sched) && c in s.sched.workers && a in s.clients
    ensures Posted(s, Engines(OnDisconnect(c)), a) ==
            LossMessages(s.sched, c, a) + [EngineIdsUpdate(s.sched.engineIds - {s.sched.workers[c].engineId})]
  {
    hide Inv, Apply, Posted, Disconnect, Continues, LossMessages, DisconnectEffects;
    EngineContinues(s, OnDisconnect(c), a, "");
    DisconnectMail(s.sched, c, a);
  }

  // An engine that connects under a new id is announced to every session.
  lemma ArrivalHeard(s: Server, c: Context, id: EngineId, all: bool, a: Address)
    requires Inv(s.sched) && c !in s.sched.workers && a in s.clients
    requires forall d :: d in s.sched.workers ==> s.sched.workers[d].engineId != id
    ensures Posted(s, Engines(OnConnect(c, id, all)), a) == [EngineIdsUpdate(s.sched.engineIds + {id})]
  {
    hide Inv, Apply, Posted, Connect, Continues, Incumbent, Disconnect;
    EngineContinues(s, OnConnect(c, id, all), a, "");
    IncumbentIsTheOne(s.sched, id);
    var announce := [Announce(s.sched.engineIds + {id})];
    assert ConnectEffects(s.sched, id) == announce;
    assert announce[1..] == [] && Mail(announce, a) == MailOf(announce[0], a) + Mail([], a);
  }

  // If it takes over an id, the engine that had the id is lost first.
  lemma TakeoverHeard(s: Server, c: Context, id: EngineId, all: bool, d: Context, a: Address)
    requires Inv(s.sched) && c !in s.sched.workers && a in s.clients
    requires d in s.sched.workers && s.sched.workers[d].engineId == id
    ensures Posted(s, Engines(OnConnect(c, id, all)), a) ==
            LossMessages(s.sched, d, a) + [EngineIdsUpdate(s.sched.engineIds - {id})]
            + [EngineIdsUpdate(s.sched.engineIds + {id})]
  {
    hide Inv, Apply, Posted, Connect, Continues, Incumbent, AfterLoss, LossMessages, DisconnectEffects;
    EngineContinues(s, OnConnect(c, id, all), a, "");
    IncumbentIs(s.sched, id, d);
    var announce := [Announce(s.sched.engineIds + {id})];
    assert s.sched.engineIds - {id} + {id} == s.sched.engineIds + {id};
    assert ConnectEffects(s.sched, id) == DisconnectEffects(s.sched, d) + announce;
    MailAppend(DisconnectEffects(s.sched, d), announce, a);
    DisconnectMail(s.sched, d, a);
    assert announce[1..] == [] && Mail(announce, a) == MailOf(announce[0], a) + Mail([], a);
  }
}
