/**
 Token conservation across the wire. For a conforming client, whatever the other
 sessions and the engines do, each producer's tokens are in the client's pool,
 held by its loop, on an input in transit, owed by the server for an accepted
 frame, or on a message on its way back: always exactly the allowance.
 */
module Conservation {
  import opened Protocol
  import opened Scheduler
  import opened Invariant
  import opened Guarantees
  import opened Sessions
  import opened Accounts
  import opened Client
  import opened Deployment

  // ---------- The invariant of one conforming client ----------

  // Tokens in the pool or held by the loop.
  function AtHome(l: Loop): int {
    l.tokens + if l.held then 1 else 0
  }

  // A producer that has not started counts as one with all its tokens and nothing sent.
  function LoopOf(c: Client, n: nat, pid: ProducerId): Loop {
    if pid in c.loops then c.loops[pid] else NewLoop(n)
  }

  // Tokens on the client's side: at home or on an input in transit.
  function InHand(c: Client, n: nat, pid: ProducerId): int {
    AtHome(LoopOf(c, n, pid)) + |LoopOf(c, n, pid).wire|
  }

  // Messages the client has yet to deal with.
  function Inbound(s: Server, a: Address, c: Client): seq<ToClient>
    requires a in s.clients && c.consumed <= |s.clients[a].outbox|
  {
    s.clients[a].outbox[c.consumed..]
  }

  ghost predicate Conserved(s: Server, a: Address, c: Client, pid: ProducerId)
    requires a in s.clients && c.consumed <= |s.clients[a].outbox|
  {
    InHand(c, s.numTokens, pid) + Unreturned(s.sched, a, pid) + Credits(Inbound(s, a, c), pid) == s.numTokens
  }

  // Inputs on the wire are numbered upwards, below the loop's next number.
  ghost predicate Numbered(pid: ProducerId, l: Loop) {
    && (forall k :: 0 <= k < |l.wire| ==> l.wire[k].producerId == pid && l.wire[k].frameId < l.frameId)
    && (forall j, k :: 0 <= j < k < |l.wire| ==> l.wire[j].frameId < l.wire[k].frameId)
  }

  function NextToArrive(l: Loop): int {
    if l.wire == [] then l.frameId else l.wire[0].frameId
  }

  // Whatever arrives next is numbered above everything accepted so far.
  ghost predicate Ahead(accepted: seq<Frame>, a: Address, l: Loop) {
    forall f :: f in accepted && f.metadata.address == a ==> f.metadata.frameId < NextToArrive(l)
  }

  // The client against its open session.
  ghost predicate InSync(s: Server, a: Address, c: Client)
    requires a in s.clients
  {
    && c.consumed <= |s.clients[a].outbox|
    && (c.numTokens.Some? ==> s.clients[a].clientInfo.Some?)
    && c.view == ViewAfter({}, s.clients[a].outbox[..c.consumed])
    && (forall pid :: Conserved(s, a, c, pid))
    && (forall pid :: Ahead(AcceptedOf(s.sched, pid), a, LoopOf(c, s.numTokens, pid)))
  }

  ghost predicate LoopOk(n: nat, pid: ProducerId, l: Loop) {
    l.max == n && l.tokens >= 0 && AtHome(l) <= n && Numbered(pid, l)
  }

  // The client by itself.
  ghost predicate WellRun(n: nat, c: Client) {
    && (c.numTokens.Some? ==> c.numTokens.value == n)
    && (forall pid :: pid in c.loops ==> c.numTokens.Some? && LoopOk(n, pid, c.loops[pid]))
    && c.fault != Some(Overreleased) && c.fault != Some(UnknownProducer)
  }

  ghost predicate ClientOk(s: Server, a: Address, c: Client) {
    && a in s.used
    && WellRun(s.numTokens, c)
    && (a in s.clients ==> InSync(s, a, c))
  }

  // ---------- The server moves, the client does not ----------

  lemma InboundGrows(s: Server, step: ServerStep, a: Address, c: Client, pid: ProducerId)
    requires Continues(s, step, a, pid) && c.consumed <= |s.clients[a].outbox|
    ensures var t := ServerNext(s, step);
      && c.consumed <= |t.clients[a].outbox|
      && t.clients[a].outbox[..c.consumed] == s.clients[a].outbox[..c.consumed]
      && Credits(Inbound(t, a, c), pid) == Credits(Inbound(s, a, c), pid) + Credits(Posted(s, step, a), pid)
  {
    hide ServerNext, Posted, Unreturned, Credits;
    var t := ServerNext(s, step);
    assert Inbound(t, a, c) == Inbound(s, a, c) + Posted(s, step, a);
    CreditsAppend(Inbound(s, a, c), Posted(s, step, a), pid);
  }

  lemma NobodyElseNumbers(s: Server, step: ServerStep, a: Address, pid: ProducerId, l: Loop)
    requires step.Engines? ==> !step.step.OnInput?
    requires !Uploads(step, a, pid) && Ahead(AcceptedOf(s.sched, pid), a, l)
    ensures Ahead(AcceptedOf(ServerNext(s, step).sched, pid), a, l)
  {
    hide AcceptedOf, ServerNext, InputStatus;
    LedgerGrows(s, step, pid);
  }

  // Any step of the server that does not read one of this client's inputs.
  lemma BystanderKeeps(s: Server, step: ServerStep, a: Address, c: Client)
    requires ServerInv(s) && ServerLegal(s, step) && ClientOk(s, a, c)
    requires forall pid :: !Uploads(step, a, pid)
    ensures ClientOk(ServerNext(s, step), a, c)
  {
    hide ServerInv, ServerLegal, Continues, Unreturned, Credits, Uploads, AcceptedOf, Ahead, WellRun;
    var t := ServerNext(s, step);
    StillUsed(s, step, a);
    if a in t.clients {
      SessionOlder(s, step, a);
      BystanderInSync(s, step, a, c);
    }
  }

  lemma StillUsed(s: Server, step: ServerStep, a: Address)
    requires a in s.used
    ensures a in ServerNext(s, step).used && ServerNext(s, step).numTokens == s.numTokens
  {
  }

  // A session id in use is not opened again.
  lemma SessionOlder(s: Server, step: ServerStep, a: Address)
    requires ServerLegal(s, step) && a in s.used && a in ServerNext(s, step).clients
    ensures a in s.clients
    ensures step.Engines? ==> !step.step.OnInput?
  {
    hide Next, Effects, Apply, Legal;
    if step.Engines? {
      ApplyKeys(s.clients, Effects(s.sched, step.step));
    }
  }

  lemma BystanderInSync(s: Server, step: ServerStep, a: Address, c: Client)
    requires ServerInv(s) && ServerLegal(s, step) && a in s.clients && InSync(s, a, c)
    requires step.Engines? ==> !step.step.OnInput?
    requires a in ServerNext(s, step).clients && ServerNext(s, step).numTokens == s.numTokens
    requires forall pid :: !Uploads(step, a, pid)
    ensures InSync(ServerNext(s, step), a, c)
  {
    hide ServerInv, ServerLegal, ServerNext, Unreturned, Credits, Uploads, AcceptedOf, Ahead, Posted, Registers;
    var t := ServerNext(s, step);
    TokensMove(s, step, a, "");
    InboundGrows(s, step, a, c, "");
    forall pid
      ensures Conserved(t, a, c, pid)
    {
      assert Conserved(s, a, c, pid);
      TokensMove(s, step, a, pid);
      InboundGrows(s, step, a, c, pid);
    }
    forall pid
      ensures Ahead(AcceptedOf(t.sched, pid), a, LoopOf(c, t.numTokens, pid))
    {
      NobodyElseNumbers(s, step, a, pid, LoopOf(c, s.numTokens, pid));
    }
  }

  // ---------- The server reads one of the client's inputs ----------

  // What a conforming client sends is numbered as the server relies on.
  lemma UploadLegal(s: Server, a: Address, c: Client, pid: ProducerId)
    requires ClientOk(s, a, c) && pid in c.loops && c.loops[pid].wire != []
    ensures ServerLegal(s, Receives(a, InputMessage(c.loops[pid].wire[0])))
  {
    hide Conserved, InputStatus;
    var l := c.loops[pid];
    if a in s.clients && pid in s.sched.producers {
      assert Ahead(AcceptedOf(s.sched, pid), a, LoopOf(c, s.numTokens, pid));
    }
  }

  lemma PoppedOk(n: nat, c: Client, pid: ProducerId)
    requires WellRun(n, c) && pid in c.loops && c.loops[pid].wire != []
    ensures WellRun(n, Popped(c, pid))
  {
  }

  // The accepted frame, if any, stays below what arrives next.
  lemma PoppedAhead(s: Server, a: Address, c: Client, pid: ProducerId, q: ProducerId)
    requires pid in c.loops && c.loops[pid].wire != [] && Numbered(pid, c.loops[pid])
    requires Ahead(AcceptedOf(s.sched, q), a, LoopOf(c, s.numTokens, q))
    ensures var t := ServerNext(s, Receives(a, InputMessage(c.loops[pid].wire[0])));
      Ahead(AcceptedOf(t.sched, q), a, LoopOf(Popped(c, pid), s.numTokens, q))
  {
    hide AcceptedOf, ServerNext, InputStatus;
    LedgerGrows(s, Receives(a, InputMessage(c.loops[pid].wire[0])), q);
  }

  lemma UploadInSync(s: Server, a: Address, c: Client, pid: ProducerId)
    requires ServerInv(s) && a in s.clients && InSync(s, a, c) && WellRun(s.numTokens, c)
    requires pid in c.loops && c.loops[pid].wire != []
    requires ServerLegal(s, Receives(a, InputMessage(c.loops[pid].wire[0])))
    ensures var t := ServerNext(s, Receives(a, InputMessage(c.loops[pid].wire[0])));
      a in t.clients && InSync(t, a, Popped(c, pid))
  {
    hide Inv, SessionsOk, WithinAllowance, Untouched, ServerLegal, ReceiveClients, ReceiveState, Unreturned, Credits,
         AcceptedOf, Ahead, Posted;
    var step := Receives(a, InputMessage(c.loops[pid].wire[0]));
    var t, d := ServerNext(s, step), Popped(c, pid);
    ReceiveContinues(s, a, step.message, a, "");
    InboundGrows(s, step, a, c, "");
    forall q
      ensures Conserved(t, a, d, q)
    {
      assert Conserved(s, a, c, q);
      TokensMove(s, step, a, q);
      InboundGrows(s, step, a, c, q);
    }
    forall q
      ensures Ahead(AcceptedOf(t.sched, q), a, LoopOf(d, t.numTokens, q))
    {
      PoppedAhead(s, a, c, pid, q);
    }
  }

  lemma UploadKeeps(s: Server, a: Address, c: Client, pid: ProducerId)
    requires ServerInv(s) && ClientOk(s, a, c) && pid in c.loops && c.loops[pid].wire != []
    ensures ServerLegal(s, Receives(a, InputMessage(c.loops[pid].wire[0])))
    ensures ClientOk(ServerNext(s, Receives(a, InputMessage(c.loops[pid].wire[0]))), a, Popped(c, pid))
  {
    hide ServerInv, ServerLegal, InSync, WellRun, Verdict, AfterInput;
    UploadLegal(s, a, c, pid);
    PoppedOk(s.numTokens, c, pid);
    if a in s.clients {
      UploadInSync(s, a, c, pid);
    }
  }

  // ---------- The client moves ----------

  // One loop changed, keeping that producer's tokens and what it numbers next.
  lemma LoopMoves(s: Server, a: Address, c: Client, pid: ProducerId, l: Loop)
    requires ClientOk(s, a, c) && c.numTokens.Some? && LoopOk(s.numTokens, pid, l)
    requires var k := LoopOf(c, s.numTokens, pid);
      AtHome(l) + |l.wire| == AtHome(k) + |k.wire| && NextToArrive(k) <= NextToArrive(l)
    ensures ClientOk(s, a, WithLoop(c, pid, l))
  {
    hide Unreturned, Credits, Numbered, AcceptedOf;
    if a in s.clients {
      var d := WithLoop(c, pid, l);
      forall q
        ensures Conserved(s, a, d, q)
        ensures Ahead(AcceptedOf(s.sched, q), a, LoopOf(d, s.numTokens, q))
      {
        assert Conserved(s, a, c, q);
        assert Ahead(AcceptedOf(s.sched, q), a, LoopOf(c, s.numTokens, q));
      }
    }
  }

  // Failing in a way that has nothing to do with tokens.
  lemma FailedOk(s: Server, a: Address, c: Client, fault: Fault)
    requires ClientOk(s, a, c) && fault != Overreleased && fault != UnknownProducer
    ensures ClientOk(s, a, Failed(c, fault))
  {
    hide Unreturned, Credits, Ahead, AcceptedOf, LoopOk;
    if a in s.clients {
      var d := Failed(c, fault);
      forall q
        ensures Conserved(s, a, d, q)
        ensures Ahead(AcceptedOf(s.sched, q), a, LoopOf(d, s.numTokens, q))
      {
        assert Conserved(s, a, c, q);
        assert Ahead(AcceptedOf(s.sched, q), a, LoopOf(c, s.numTokens, q));
      }
    }
  }

  lemma StartKeeps(s: Server, a: Address, c: Client, pid: ProducerId)
    requires ClientOk(s, a, c) && CanStart(c, pid)
    ensures ClientOk(s, a, Start(c, pid))
  {
    hide InSync;
    LoopMoves(s, a, c, pid, NewLoop(s.numTokens));
  }

  lemma AcquireKeeps(s: Server, a: Address, c: Client, pid: ProducerId)
    requires ClientOk(s, a, c) && Running(c, pid) && CanAcquire(c.loops[pid])
    ensures ClientOk(s, a, Acquire(c, pid))
  {
    hide InSync;
    LoopMoves(s, a, c, pid, Acquired(c.loops[pid]));
  }

  lemma AbandonKeeps(s: Server, a: Address, c: Client, pid: ProducerId)
    requires ClientOk(s, a, c) && Running(c, pid) && c.loops[pid].held
    ensures ClientOk(s, a, Abandon(c, pid))
  {
    hide InSync;
    LoopMoves(s, a, c, pid, Released(c.loops[pid].(held := false)));
  }

  lemma SendKeeps(s: Server, a: Address, c: Client, pid: ProducerId, targets: seq<EngineId>, payload: Blob)
    requires ClientOk(s, a, c) && Running(c, pid) && c.loops[pid].held
    ensures ClientOk(s, a, SendInput(c, pid, targets, payload))
  {
    hide InSync;
    var l := c.loops[pid];
    if Connected(targets, c.view) {
      LoopMoves(s, a, c, pid, Sent(l, pid, targets, payload));
    } else {
      LoopMoves(s, a, c, pid, l.(frameId := l.frameId + 1));
      FailedOk(s, a, WithLoop(c, pid, l.(frameId := l.frameId + 1)), TargetNotConnected);
    }
  }

  lemma RegistrationsKeep(s: Server, a: Address, c: Client, k: nat)
    requires ClientOk(s, a, c)
    ensures ClientOk(s, a, c.(registrations := k))
  {
    hide Unreturned, Credits, Ahead, AcceptedOf, LoopOk;
    if a in s.clients {
      var d := c.(registrations := k);
      forall q
        ensures Conserved(s, a, d, q)
        ensures Ahead(AcceptedOf(s.sched, q), a, LoopOf(d, s.numTokens, q))
      {
        assert Conserved(s, a, c, q);
        assert Ahead(AcceptedOf(s.sched, q), a, LoopOf(c, s.numTokens, q));
      }
    }
  }

  // ---------- The client deals with a message ----------

  lemma NextInbound(s: Server, a: Address, c: Client, pid: ProducerId)
    requires a in s.clients && c.consumed < |s.clients[a].outbox|
    ensures var outbox, m := s.clients[a].outbox, s.clients[a].outbox[c.consumed];
      && Credits(outbox[c.consumed..], pid) == Credit(m, pid) + Credits(outbox[c.consumed + 1..], pid)
      && ViewAfter({}, outbox[..c.consumed + 1]) == Viewed(ViewAfter({}, outbox[..c.consumed]), m)
  {
    var outbox, m := s.clients[a].outbox, s.clients[a].outbox[c.consumed];
    assert outbox[c.consumed..] == [m] + outbox[c.consumed + 1..];
    CreditsAppend([m], outbox[c.consumed + 1..], pid);
    assert [m][..0] == [];
    assert outbox[..c.consumed + 1][..c.consumed] == outbox[..c.consumed];
  }

  // A token on its way back finds its pool, and the pool has room for it.
  lemma TokenFindsRoom(s: Server, a: Address, c: Client, pid: ProducerId)
    requires ServerInv(s) && a in s.clients && ClientOk(s, a, c) && c.consumed < |s.clients[a].outbox|
    requires Credit(s.clients[a].outbox[c.consumed], pid) == 1
    ensures pid in c.loops && AtHome(c.loops[pid]) < c.loops[pid].max == s.numTokens
  {
    hide Unreturned, Credits, Ahead, Numbered;
    assert Conserved(s, a, c, pid);
    NextInbound(s, a, c, pid);
    UnreturnedBounds(s.sched, a, pid);
  }

  // The message itself, apart from a token it may return.
  ghost predicate Advanced(s: Server, a: Address, c: Client, d: Client)
    requires a in s.clients && c.consumed < |s.clients[a].outbox|
  {
    && d.consumed == c.consumed + 1 && d.view == Viewed(c.view, s.clients[a].outbox[c.consumed])
    && (d.numTokens.Some? ==> s.clients[a].clientInfo.Some?)
    && forall pid ::
         && AtHome(LoopOf(d, s.numTokens, pid)) ==
            AtHome(LoopOf(c, s.numTokens, pid)) + Credit(s.clients[a].outbox[c.consumed], pid)
         && LoopOf(d, s.numTokens, pid).wire == LoopOf(c, s.numTokens, pid).wire
         && LoopOf(d, s.numTokens, pid).frameId == LoopOf(c, s.numTokens, pid).frameId
  }

  lemma AdvancedInSync(s: Server, a: Address, c: Client, d: Client)
    requires a in s.clients && InSync(s, a, c) && c.consumed < |s.clients[a].outbox| && Advanced(s, a, c, d)
    ensures InSync(s, a, d)
  {
    hide Unreturned, Credits, AcceptedOf, ViewAfter, Credit, Viewed, AtHome, LoopOf;
    NextInbound(s, a, c, "");
    forall q
      ensures Conserved(s, a, d, q)
      ensures Ahead(AcceptedOf(s.sched, q), a, LoopOf(d, s.numTokens, q))
    {
      assert Conserved(s, a, c, q);
      assert Ahead(AcceptedOf(s.sched, q), a, LoopOf(c, s.numTokens, q));
      NextInbound(s, a, c, q);
    }
  }

  lemma ControlMessageKeeps(s: Server, a: Address, c: Client)
    requires ServerInv(s) && a in s.clients && ClientOk(s, a, c) && c.fault.None?
    requires c.consumed < |s.clients[a].outbox| && !s.clients[a].outbox[c.consumed].ResultWrapper?
    ensures ClientOk(s, a, Consume(c, s.clients[a].outbox[c.consumed], false))
  {
    hide InSync, LoopOk, AccountsOk;
    var m := s.clients[a].outbox[c.consumed];
    var d := Consume(c, m, false);
    assert SessionOk(s.numTokens, s.sched, a, s.clients[a]);
    assert m in s.clients[a].outbox;
    assert Advanced(s, a, c, d) by {
      assert InSync(s, a, c);
      Unpack(s, a, c);
    }
    AdvancedInSync(s, a, c, d);
  }

  lemma Unpack(s: Server, a: Address, c: Client)
    requires a in s.clients && InSync(s, a, c)
    ensures c.numTokens.Some? ==> s.clients[a].clientInfo.Some?
  {
  }

  lemma TokenReturnKeeps(s: Server, a: Address, c: Client, pid: ProducerId)
    requires ServerInv(s) && a in s.clients && ClientOk(s, a, c) && c.fault.None?
    requires c.consumed < |s.clients[a].outbox| && Credit(s.clients[a].outbox[c.consumed], pid) == 1
    ensures ReturnToken(c, pid).fault.None?
    ensures ClientOk(s, a, ReturnToken(c, pid).(consumed := c.consumed + 1))
  {
    hide InSync;
    TokenFindsRoom(s, a, c, pid);
    var d := ReturnToken(c, pid).(consumed := c.consumed + 1);
    assert WellRun(s.numTokens, d);
    assert Advanced(s, a, c, d) by {
      Unpack(s, a, c);
    }
    AdvancedInSync(s, a, c, d);
  }

  lemma PlainResultKeeps(s: Server, a: Address, c: Client)
    requires a in s.clients && ClientOk(s, a, c)
    requires c.consumed < |s.clients[a].outbox|
    requires s.clients[a].outbox[c.consumed].ResultWrapper? && !s.clients[a].outbox[c.consumed].returnToken
    ensures ClientOk(s, a, c.(consumed := c.consumed + 1))
  {
    hide InSync, LoopOk;
    var d := c.(consumed := c.consumed + 1);
    assert Advanced(s, a, c, d) by {
      Unpack(s, a, c);
    }
    AdvancedInSync(s, a, c, d);
  }

  lemma ConsumeKeeps(s: Server, a: Address, c: Client, consumerFails: bool)
    requires ServerInv(s) && a in s.clients && ClientOk(s, a, c) && c.fault.None?
    requires c.consumed < |s.clients[a].outbox|
    ensures ClientOk(s, a, Consume(c, s.clients[a].outbox[c.consumed], consumerFails))
  {
    hide ServerInv, ClientOk, ReturnToken;
    var m := s.clients[a].outbox[c.consumed];
    if m.ResultWrapper? {
      if m.result.code == Success && consumerFails {
        FailedOk(s, a, c, ConsumerFailed);
      } else if m.result.code == NoEngineForInput {
        FailedOk(s, a, c, NoEngine);
      } else if m.returnToken {
        TokenReturnKeeps(s, a, c, m.producerId);
      } else {
        PlainResultKeeps(s, a, c);
      }
    } else {
      ControlMessageKeeps(s, a, c);
    }
  }
}
