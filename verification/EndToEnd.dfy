/**
 What every run of a deployment guarantees, end to end: token conservation, the
 server's counts, what a conforming client never sees, bounded queues, results
 that belong to their frames, up-to-date views of the engines, and when all
 tokens come home.
 */
module EndToEnd {
  import opened Protocol
  import opened Scheduler
  import opened Invariant
  import opened Guarantees
  import opened Displacement
  import opened Stranding
  import opened Sessions
  import opened Accounts
  import opened Client
  import opened Deployment
  import opened Conservation
  import opened Correlation
  import opened WorldInvariant

  // ---------- Tokens ----------

  // A conforming client with an open session: a producer's tokens are in its pool, with its
  // loop, on inputs in transit, owed for accepted frames, or on messages in transit.
  lemma TokenConservation(n: nat, capacity: nat, acts: seq<Action>, a: Address, pid: ProducerId)
    requires var w := After(Boot(n, capacity), acts);
      a in w.clients && a in w.server.clients && pid in w.clients[a].loops
    ensures var w := After(Boot(n, capacity), acts);
      var c, l := w.clients[a], w.clients[a].loops[pid];
      && c.consumed <= |w.server.clients[a].outbox|
      && l.tokens + (if l.held then 1 else 0) + |l.wire|
         + Unreturned(w.server.sched, a, pid) + Credits(w.server.clients[a].outbox[c.consumed..], pid) == n
      && 0 <= l.tokens && 0 <= Unreturned(w.server.sched, a, pid)
  {
    hide After, Inv, Unreturned, Credits, EnginesOk, MailOk, Ahead;
    WorldReachable(n, capacity, acts);
    SameAllowance(n, capacity, acts);
    var w := After(Boot(n, capacity), acts);
    assert ClientOk(w.server, a, w.clients[a]);
    assert Conserved(w.server, a, w.clients[a], pid);
    UnreturnedBounds(w.server.sched, a, pid);
  }

  // The server's own count, for every open session, conforming or not.
  lemma ServerCountExact(n: nat, capacity: nat, acts: seq<Action>, a: Address, pid: ProducerId)
    requires a in After(Boot(n, capacity), acts).server.clients
    ensures var s := After(Boot(n, capacity), acts).server;
      && TokensFor(s.clients[a], n, pid) == n - Unreturned(s.sched, a, pid)
      && 0 <= Unreturned(s.sched, a, pid) <= n
  {
    hide After, Inv, Unreturned, EnginesOk, MailOk, ClientsOk;
    WorldReachable(n, capacity, acts);
    SameAllowance(n, capacity, acts);
    var s := After(Boot(n, capacity), acts).server;
    assert SessionOk(n, s.sched, a, s.clients[a]);
    assert AccountOk(n, s.sched, a, s.clients[a].tokens, pid);
    UnreturnedBounds(s.sched, a, pid);
  }

  lemma {:induction false} SameAllowance(n: nat, capacity: nat, acts: seq<Action>)
    ensures var s := After(Boot(n, capacity), acts).server;
      s.numTokens == n && s.sched.capacity == capacity
    decreases |acts|
  {
    if acts != [] {
      SameAllowance(n, capacity, acts[..|acts| - 1]);
      var w, act := After(Boot(n, capacity), acts[..|acts| - 1]), acts[|acts| - 1];
      if Enabled(w, act) && ServerPart(w, act).Some? {
        StepKeepsLimits(w.server, ServerPart(w, act).value);
      }
    }
  }

  lemma StepKeepsLimits(s: Server, step: ServerStep)
    ensures ServerNext(s, step).numTokens == s.numTokens
    ensures ServerNext(s, step).sched.capacity == s.sched.capacity
  {
    hide SendNextWorker, SendNextProducers, Incumbent, HasTarget, HasIdleTarget, Apply, Effects;
  }

  // A conforming client is never told that it has no token or must register first, its pools
  // are never released above their bound, and no token comes back to a producer it does not know.
  lemma ConformingClientUntroubled(n: nat, capacity: nat, acts: seq<Action>, a: Address)
    requires a in After(Boot(n, capacity), acts).clients
    ensures var w := After(Boot(n, capacity), acts);
      && w.clients[a].fault != Some(Overreleased) && w.clients[a].fault != Some(UnknownProducer)
      && (forall pid :: pid in w.clients[a].loops ==>
            0 <= w.clients[a].loops[pid].tokens <= w.clients[a].loops[pid].max)
      && (a in w.server.clients ==> forall m :: m in w.server.clients[a].outbox ==> !Complaint(m))
  {
    hide After, ServerInv, EnginesOk, InSync;
    WorldReachable(n, capacity, acts);
    var w := After(Boot(n, capacity), acts);
    assert ClientOk(w.server, a, w.clients[a]);
    if a in w.server.clients {
      forall m | m in w.server.clients[a].outbox
        ensures !Complaint(m)
      {
        assert MessageOk(w.server.sched, a, true, m);
      }
    }
  }

  // ---------- Queues ----------

  // No session ever has more of a producer's frames queued than its allowance.
  lemma QueueWithinAllowance(n: nat, capacity: nat, acts: seq<Action>, a: Address, pid: ProducerId)
    requires pid in After(Boot(n, capacity), acts).server.sched.producers
    ensures Froms(After(Boot(n, capacity), acts).server.sched.producers[pid].queue, a) <= n
  {
    hide After, EnginesOk, MailOk, ClientsOk, SessionsOk, Untouched, Froms, Unreturned;
    WorldReachable(n, capacity, acts);
    SameAllowance(n, capacity, acts);
    QueuedOwed(After(Boot(n, capacity), acts).server.sched, a, pid);
  }

  lemma QueuedOwed(st: State, a: Address, pid: ProducerId)
    requires Inv(st) && pid in st.producers
    ensures Froms(st.producers[pid].queue, a) <= Unreturned(st, a, pid)
  {
    assert ProducerOk(pid, st.producers[pid]);
    UnreturnedAre(st.producers[pid], a);
  }

  // Queued frames of a producer that came from other sessions.
  function Others(queue: seq<Frame>, a: Address): int {
    |queue| - Froms(queue, a)
  }

  lemma NobodyQueued(a: Address)
    ensures Froms([], a) == 0 && Others([], a) == 0
  {
  }

  // With room for the session's allowance beside what others have queued, an input of the
  // session is never dropped, from whatever client.
  lemma RoomForAll(s: Server, a: Address, i: Input)
    requires ServerInv(s) && a in s.clients
    requires var p := WithProducer(s.sched.producers, i.producerId)[i.producerId];
      Others(p.queue, a) + s.numTokens <= s.sched.capacity
    ensures Verdict(s.clients[a], s.numTokens, s.sched, a, i) != ServerDroppedFrame
  {
    hide Inv, Froms, Unreturned, Acknowledged, ViewAfter, HasTarget, HasIdleTarget;
    assert AccountOk(s.numTokens, s.sched, a, s.clients[a].tokens, i.producerId);
    UnreturnedBounds(s.sched, a, i.producerId);
    if i.producerId in s.sched.producers {
      QueuedOwed(s.sched, a, i.producerId);
    } else {
      NobodyQueued(a);
    }
  }

  predicate Drop(m: ToClient, pid: ProducerId) {
    m.ResultWrapper? && m.producerId == pid && m.result.origin.None? && m.result.code == ServerDroppedFrame
  }

  // All of a producer's frames came from one session.
  ghost predicate SoleSession(st: State, a: Address, pid: ProducerId) {
    forall f :: f in AcceptedOf(st, pid) ==> f.metadata.address == a
  }

  lemma SoleQueue(st: State, a: Address, pid: ProducerId)
    requires Inv(st) && SoleSession(st, a, pid) && pid in st.producers
    ensures Others(st.producers[pid].queue, a) == 0
  {
    var p := st.producers[pid];
    assert ProducerOk(pid, p);
    forall f | f in p.queue
      ensures f.metadata.address == a
    {
      QueuedIsAccepted(pid, p, f);
    }
    AllFrom(p.queue, a);
  }

  lemma {:induction false} AllFrom(s: seq<Frame>, a: Address)
    requires forall f :: f in s ==> f.metadata.address == a
    ensures Froms(s, a) == |s|
  {
    if s != [] {
      AllFrom(s[..|s| - 1], a);
    }
  }

  lemma NoDropAnswered(s: Server, a: Address, pid: ProducerId, msg: FromClient, m: ToClient)
    requires ServerInv(s) && a in s.clients && SoleSession(s.sched, a, pid) && s.numTokens <= s.sched.capacity
    requires m in Answer(s, a, msg)
    ensures !Drop(m, pid)
  {
    hide Inv, SessionsOk, WithinAllowance, Untouched, Verdict, Others, SoleSession;
    if msg.InputMessage? && msg.input.producerId == pid {
      if pid in s.sched.producers {
        SoleQueue(s.sched, a, pid);
      } else {
        NobodyQueued(a);
      }
      RoomForAll(s, a, msg.input);
    }
  }

  lemma NoDropPosted(w: World, act: Action, a: Address, pid: ProducerId, m: ToClient)
    requires WorldInv(w) && Enabled(w, act) && ServerPart(w, act).Some?
    requires a in w.server.clients && a in ServerNext(w.server, ServerPart(w, act).value).clients
    requires SoleSession(w.server.sched, a, pid) && w.server.numTokens <= w.server.sched.capacity
    requires m in Posted(w.server, ServerPart(w, act).value, a)
    ensures !Drop(m, pid)
  {
    hide Inv, SessionsOk, WithinAllowance, Untouched, SoleSession, Answer, Continues, Enabled, ServerPart, ClientsOk,
         EnginesOk, MailOk, Effects, Mail, Answers;
    var s, step := w.server, ServerPart(w, act).value;
    match step
    case Receives(b, msg) =>
      ReceiveContinues(s, b, msg, a, "");
      NoDropAnswered(s, a, pid, msg, m);
    case Engines(e) =>
      var f := StepMatches(w, act);
      EngineContinues(s, e, a, "");
      var x := MailFromEffect(Effects(s.sched, e), a, m);
      EffectCases(s.sched, e, x);
    case _ =>
  }

  // A producer id used by one session only: with a queue as long as the allowance, that
  // session is never told that a frame of the producer was dropped.
  lemma {:induction false} NeverDropped(n: nat, capacity: nat, acts: seq<Action>, a: Address, pid: ProducerId)
    requires n <= capacity
    requires var s := After(Boot(n, capacity), acts).server; a in s.clients && SoleSession(s.sched, a, pid)
    ensures forall m :: m in After(Boot(n, capacity), acts).server.clients[a].outbox ==> !Drop(m, pid)
    decreases |acts|
  {
    hide WorldInv, Drop, Enabled, ServerPart, ServerNext;
    if acts != [] {
      var before, act := acts[..|acts| - 1], acts[|acts| - 1];
      var w := After(Boot(n, capacity), before);
      WorldReachable(n, capacity, before);
      SameAllowance(n, capacity, before);
      if !Enabled(w, act) || ServerPart(w, act).None? {
        NeverDropped(n, capacity, before, a, pid);
      } else {
        var step := ServerPart(w, act).value;
        FreshSession(w, act, a);
        if a in w.server.clients {
          Grows(w, act, a, pid);
          NeverDropped(n, capacity, before, a, pid);
          forall m | m in Posted(w.server, step, a)
            ensures !Drop(m, pid)
          {
            NoDropPosted(w, act, a, pid, m);
          }
        }
      }
    }
  }

  // A session's stream and a producer's ledger only grow.
  lemma Grows(w: World, act: Action, a: Address, pid: ProducerId)
    requires WorldInv(w) && Enabled(w, act) && ServerPart(w, act).Some? && a in w.server.clients
    requires a in ServerNext(w.server, ServerPart(w, act).value).clients
    ensures var step := ServerPart(w, act).value;
      && ServerNext(w.server, step).clients[a].outbox == w.server.clients[a].outbox + Posted(w.server, step, a)
      && (SoleSession(ServerNext(w.server, step).sched, a, pid) ==> SoleSession(w.server.sched, a, pid))
  {
    hide ServerInv, ServerLegal, ClientsOk, EnginesOk, MailOk, Enabled, ServerPart, ServerNext, Posted, AcceptedOf;
    var step := ServerPart(w, act).value;
    PartLegal(w, act);
    LegalEngines(w.server, step);
    TokensMove(w.server, step, a, pid);
    LedgerGrows(w.server, step, pid);
  }

  // ---------- Results ----------

  // Every handler's result sent to a client was computed from the payload of the one accepted
  // frame that it names, and went to the session and producer that sent that frame.
  lemma ResultsMatchFrames(n: nat, capacity: nat, acts: seq<Action>, a: Address, m: ToClient)
    requires var s := After(Boot(n, capacity), acts).server; a in s.clients && m in s.clients[a].outbox
    requires m.ResultWrapper? && m.result.origin.Some?
    ensures var st := After(Boot(n, capacity), acts).server.sched;
      && (exists f :: ResultOf(st, a, m, f))
      && (forall f, g :: ResultOf(st, a, m, f) && g in AcceptedOf(st, m.producerId) && TagOf(g) == TagOf(f) ==> g == f)
  {
    hide After, SessionsOk, WithinAllowance, Untouched, ClientsOk, EnginesOk;
    WorldReachable(n, capacity, acts);
    var s := After(Boot(n, capacity), acts).server;
    assert MessageOk(s.sched, a, a in After(Boot(n, capacity), acts).clients, m);
    forall f, g | ResultOf(s.sched, a, m, f) && g in AcceptedOf(s.sched, m.producerId) && TagOf(g) == TagOf(f)
      ensures g == f
    {
      SameNumberSameFrame(s.sched, m.producerId, f, g);
    }
  }

  lemma SameNumberSameFrame(st: State, pid: ProducerId, f: Frame, g: Frame)
    requires Inv(st) && f in AcceptedOf(st, pid) && g in AcceptedOf(st, pid)
    requires TagOf(f) == TagOf(g)
    ensures f == g
  {
    var s := AcceptedOf(st, pid);
    assert ProducerOk(pid, st.producers[pid]);
    var i :| 0 <= i < |s| && s[i] == f;
    var j :| 0 <= j < |s| && s[j] == g;
    assert i == j;
  }

  // Between the server's two ends of an engine's stream there is exactly one frame while the
  // server records one for the engine, and none otherwise.
  lemma OneFrameAtATime(n: nat, capacity: nat, acts: seq<Action>, c: Context)
    requires c in After(Boot(n, capacity), acts).server.sched.workers
    ensures var w := After(Boot(n, capacity), acts);
      var worker := w.server.sched.workers[c];
      && c in w.engines && w.engines[c].read <= |worker.sent|
      && (worker.current.None? ==> Pipeline(w.engines[c], worker.sent) == [])
      && (worker.current.Some? ==>
            && worker.sent != [] && worker.sent[|worker.sent| - 1].metadata == worker.current.value
            && Pipeline(w.engines[c], worker.sent) == [Some(JobOf(worker.sent[|worker.sent| - 1]))])
  {
    hide After, SessionsOk, WithinAllowance, Untouched, ClientsOk, MailOk, Pipeline, AllOk, AllHeld, IdsOk, Fits,
         RecordOk;
    WorldReachable(n, capacity, acts);
    var w := After(Boot(n, capacity), acts);
    var worker := w.server.sched.workers[c];
    assert WorkerOk(worker);
    assert |worker.sent| == |Metas(worker.sent)| == |worker.completed| + |Outstanding(worker)|;
    if worker.current.Some? {
      var f := LastSent(worker);
      assert Jobs([f]) == [Some(JobOf(f))];
    } else {
      assert Jobs(worker.sent[|worker.completed|..]) == [];
    }
  }

  // ---------- The clients' view of the engines ----------

  // An acknowledged client that goes through the messages in transit knows exactly the ids of
  // the connected engines, each of which belongs to one engine.
  lemma ViewCatchesUp(n: nat, capacity: nat, acts: seq<Action>, a: Address)
    requires var w := After(Boot(n, capacity), acts);
      a in w.clients && a in w.server.clients && w.clients[a].numTokens.Some?
    ensures var w := After(Boot(n, capacity), acts);
      var c := w.clients[a];
      && c.consumed <= |w.server.clients[a].outbox|
      && ViewAfter(c.view, w.server.clients[a].outbox[c.consumed..]) == w.server.sched.engineIds
      && IdsOk(w.server.sched.workers, w.server.sched.engineIds)
  {
    hide After, AccountsOk, WithinAllowance, Untouched, EnginesOk, MailOk, WellRun, Ahead, IdsOk;
    WorldReachable(n, capacity, acts);
    var w := After(Boot(n, capacity), acts);
    var outbox, k := w.server.clients[a].outbox, w.clients[a].consumed;
    assert ClientOk(w.server, a, w.clients[a]);
    assert SessionOk(w.server.numTokens, w.server.sched, a, w.server.clients[a]);
    assert outbox == outbox[..k] + outbox[k..];
    ViewAppend({}, outbox[..k], outbox[k..]);
  }

  // ---------- Tokens come home ----------

  // Nothing of this producer is under way: no frame queued or in flight, nothing on the wire.
  ghost predicate AtRest(w: World, a: Address, pid: ProducerId) {
    && a in w.clients && a in w.server.clients && pid in w.clients[a].loops
    && !w.clients[a].loops[pid].held && w.clients[a].loops[pid].wire == []
    && w.clients[a].consumed == |w.server.clients[a].outbox|
    && (pid in w.server.sched.producers ==>
          w.server.sched.producers[pid].queue == [] && !w.server.sched.producers[pid].pending)
  }

  // At rest a producer has all its tokens back except those of its displaced frames; so it has
  // them all exactly when none of its frames was displaced.
  lemma TokensComeHome(n: nat, capacity: nat, acts: seq<Action>, a: Address, pid: ProducerId)
    requires AtRest(After(Boot(n, capacity), acts), a, pid)
    ensures var w := After(Boot(n, capacity), acts);
      var displaced := DisplacedOf(w.server.sched, pid);
      && w.clients[a].loops[pid].tokens == n - Froms(displaced, a)
      && (w.clients[a].loops[pid].tokens == n <==> forall f :: f in displaced ==> f.metadata.address != a)
  {
    hide After, Credits, Froms;
    TokenConservation(n, capacity, acts, a, pid);
    WorldReachable(n, capacity, acts);
    var w := After(Boot(n, capacity), acts);
    NothingInbound(w.server.clients[a].outbox, pid);
    OwedAtRest(w.server.sched, a, pid);
    ZeroMeansNone(DisplacedOf(w.server.sched, pid), a);
  }

  lemma NothingInbound(outbox: seq<ToClient>, pid: ProducerId)
    ensures Credits(outbox[|outbox|..], pid) == 0
  {
  }

  lemma OwedAtRest(st: State, a: Address, pid: ProducerId)
    requires Inv(st) && (pid in st.producers ==> st.producers[pid].queue == [] && !st.producers[pid].pending)
    ensures Unreturned(st, a, pid) == Froms(DisplacedOf(st, pid), a)
  {
    if pid in st.producers {
      var p := st.producers[pid];
      assert ProducerOk(pid, p);
      UnreturnedAre(p, a);
      assert InFlight(p) == [];
    }
  }

  lemma {:induction false} ZeroMeansNone(s: seq<Frame>, a: Address)
    ensures Froms(s, a) == 0 <==> forall f :: f in s ==> f.metadata.address != a
  {
    if s != [] {
      var init, last := s[..|s| - 1], s[|s| - 1];
      ZeroMeansNone(init, a);
      assert s == init + [last];
      assert forall f :: f in s <==> f in init || f == last;
    }
  }

  // ---------- The scheduler inside a deployment ----------

  // The scheduler steps an action amounts to.
  ghost function SchedulerPart(w: World, act: Action): seq<Step> {
    if !Enabled(w, act) || ServerPart(w, act).None? then []
    else
      match ServerPart(w, act).value
      case Receives(a, m) => if Scheduled(w.server, a, m).Some? then [Scheduled(w.server, a, m).value] else []
      case Engines(e) => [e]
      case _ => []
  }

  ghost function Trace(w: World, acts: seq<Action>): seq<Step>
    decreases |acts|
  {
    if acts == [] then []
    else Trace(w, acts[..|acts| - 1]) + SchedulerPart(After(w, acts[..|acts| - 1]), acts[|acts| - 1])
  }

  lemma PartMoves(w: World, act: Action)
    requires WorldInv(w)
    ensures var part := SchedulerPart(w, act);
      && |part| <= 1
      && (part == [] ==> Act(w, act).server.sched == w.server.sched)
      && (part != [] ==> Act(w, act).server.sched == Next(w.server.sched, part[0]) && Legal(w.server.sched, part[0]))
  {
    hide WorldInv, Enabled, ServerPart, Legal, Effects, EngineResult, Connect, Disconnect, Apply, ClientInput, Admits;
    if Enabled(w, act) && ServerPart(w, act).Some? {
      PartLegal(w, act);
    }
  }

  // Every run of a deployment is, for the scheduler, one of its legal runs; what is proved of
  // those holds here.
  lemma {:induction false} RunsProject(n: nat, capacity: nat, acts: seq<Action>)
    ensures var steps := Trace(Boot(n, capacity), acts);
      LegalRun(Init(capacity), steps) && Exec(Init(capacity), steps) == After(Boot(n, capacity), acts).server.sched
    decreases |acts|
  {
    hide Act, Next, Legal, SchedulerPart, WorldInv;
    if acts != [] {
      var before, act := acts[..|acts| - 1], acts[|acts| - 1];
      var w := After(Boot(n, capacity), before);
      RunsProject(n, capacity, before);
      WorldReachable(n, capacity, before);
      PartMoves(w, act);
      var steps, part := Trace(Boot(n, capacity), before), SchedulerPart(w, act);
      if part == [] {
        assert steps + part == steps;
      } else {
        assert part == [part[0]];
        ExecSnoc(Init(capacity), steps, part[0]);
      }
    }
  }

  // If no engine was ever removed, it is enough that the engines are idle and nothing is on
  // the wire: the queues are then empty too.
  lemma IdleMeansAtRest(n: nat, capacity: nat, acts: seq<Action>, a: Address, pid: ProducerId)
    requires RemovalFree(Init(capacity), Trace(Boot(n, capacity), acts))
    requires var w := After(Boot(n, capacity), acts);
      && a in w.clients && a in w.server.clients && pid in w.clients[a].loops
      && !w.clients[a].loops[pid].held && w.clients[a].loops[pid].wire == []
      && w.clients[a].consumed == |w.server.clients[a].outbox|
      && forall c :: c in w.server.sched.workers ==> w.server.sched.workers[c].current.None?
    ensures AtRest(After(Boot(n, capacity), acts), a, pid)
  {
    hide After, Trace, Exec;
    RunsProject(n, capacity, acts);
    if pid in After(Boot(n, capacity), acts).server.sched.producers {
      RestMeansAllAnswered(capacity, Trace(Boot(n, capacity), acts), pid);
    }
  }

  // The inputs of a run that found an idle target while the token of a frame of session a was
  // pending.
  ghost function SessionLosses(st: State, steps: seq<Step>, a: Address, pid: ProducerId): nat
    decreases |steps|
  {
    if steps == [] then 0
    else
      var before := Exec(st, steps[..|steps| - 1]);
      SessionLosses(st, steps[..|steps| - 1], a, pid) +
      if Displaces(before, steps[|steps| - 1], pid) && before.producers[pid].latest.Some? &&
         before.producers[pid].latest.value.metadata.address == a then 1 else 0
  }

  lemma {:induction false} LossesAreDisplaced(capacity: nat, steps: seq<Step>, a: Address, pid: ProducerId)
    requires LegalRun(Init(capacity), steps)
    ensures SessionLosses(Init(capacity), steps, a, pid) == Froms(DisplacedOf(Exec(Init(capacity), steps), pid), a)
    decreases |steps|
  {
    hide Next, Legal, Displaces, Inv, Froms;
    if steps == [] {
      NobodyQueued(a);
    } else {
      var before, step := steps[..|steps| - 1], steps[|steps| - 1];
      var st := Exec(Init(capacity), before);
      LossesAreDisplaced(capacity, before, a, pid);
      ReachableOk(capacity, before);
      DisplacedExactlyWhen(st, step, pid);
      if Displaces(st, step, pid) {
        DisplacedGuard(st, step, pid);
        FromsAppend(DisplacedOf(st, pid), [st.producers[pid].latest.value], a);
        OneFrom(st.producers[pid].latest.value, a);
      } else {
        assert DisplacedOf(st, pid) + [] == DisplacedOf(st, pid);
      }
    }
  }

  lemma DisplacedGuard(st: State, step: Step, pid: ProducerId)
    requires Displaces(st, step, pid)
    ensures pid in st.producers && st.producers[pid].pending
  {
  }

  lemma OneFrom(f: Frame, a: Address)
    ensures Froms([f], a) == if f.metadata.address == a then 1 else 0
  {
    assert [f][..0] == [];
  }

  // At rest a producer misses one token for each input of the run that found an idle target while
  // the token of one of the session's frames was pending. So it has all its tokens exactly when
  // no input came like that.
  lemma AllHomeExactlyWhen(n: nat, capacity: nat, acts: seq<Action>, a: Address, pid: ProducerId)
    requires AtRest(After(Boot(n, capacity), acts), a, pid)
    ensures var w := After(Boot(n, capacity), acts);
      var lost := SessionLosses(Init(capacity), Trace(Boot(n, capacity), acts), a, pid);
      && w.clients[a].loops[pid].tokens == n - lost
      && (w.clients[a].loops[pid].tokens == n <==> lost == 0)
  {
    hide After, Trace, Exec, SessionLosses, AtRest, Froms;
    RunsProject(n, capacity, acts);
    TokensComeHome(n, capacity, acts, a, pid);
    LossesAreDisplaced(capacity, Trace(Boot(n, capacity), acts), a, pid);
  }

  // With one engine at a time, whatever else happens, a producer at rest has all its tokens.
  lemma OneEngineReturnsAll(n: nat, capacity: nat, acts: seq<Action>, a: Address, pid: ProducerId)
    requires AtMostOneEngine(Init(capacity), Trace(Boot(n, capacity), acts))
    requires AtRest(After(Boot(n, capacity), acts), a, pid)
    ensures After(Boot(n, capacity), acts).clients[a].loops[pid].tokens == n
  {
    hide After, Trace, Exec;
    RunsProject(n, capacity, acts);
    TokensComeHome(n, capacity, acts, a, pid);
    if pid in After(Boot(n, capacity), acts).server.sched.producers {
      OneEngineLosesNothing(capacity, Trace(Boot(n, capacity), acts), pid);
      DisplacedCount(capacity, Trace(Boot(n, capacity), acts), pid);
    }
  }
}
