/**
 The invariant of a whole deployment: the server's accounts, every conforming
 client against its session, every engine's pipeline against the server's record,
 and where each message sent to a client came from. Every action keeps it.
 */
module WorldInvariant {
  import opened Protocol
  import opened Scheduler
  import opened Invariant
  import opened Guarantees
  import opened Sessions
  import opened Accounts
  import opened Client
  import opened Deployment
  import opened Conservation
  import opened Correlation

  // ---------- Where messages come from ----------

  // The result was computed by a handler from this frame, and is addressed to its producer.
  ghost predicate ResultOf(st: State, a: Address, m: ToClient, f: Frame)
    requires m.ResultWrapper?
  {
    && f in AcceptedOf(st, m.producerId)
    && f.metadata.address == a && f.metadata.producerId == m.producerId
    && f.metadata.frameId == m.result.frameId
    && m.result.origin == Some(JobOf(f))
  }

  ghost predicate Traceable(st: State, a: Address, m: ToClient) {
    m.ResultWrapper? && m.result.origin.Some? ==> exists f :: ResultOf(st, a, m, f)
  }

  // The server telling a client that it sent without a token or without registering.
  predicate Complaint(m: ToClient) {
    m.ResultWrapper? && m.result.origin.None? && m.result.code in {NoTokens, UnspecifiedError}
  }

  ghost predicate MessageOk(st: State, a: Address, conforming: bool, m: ToClient) {
    Traceable(st, a, m) && (conforming ==> !Complaint(m))
  }

  ghost predicate AllMessagesOk(st: State, a: Address, conforming: bool, ms: seq<ToClient>) {
    forall m :: m in ms ==> MessageOk(st, a, conforming, m)
  }

  lemma StillTraceable(s: Server, step: ServerStep, a: Address, m: ToClient)
    requires step.Engines? ==> !step.step.OnInput?
    requires Traceable(s.sched, a, m)
    ensures Traceable(ServerNext(s, step).sched, a, m)
  {
    hide AcceptedOf, ServerNext, AcceptedInput;
    if m.ResultWrapper? && m.result.origin.Some? {
      var f :| ResultOf(s.sched, a, m, f);
      LedgerGrows(s, step, m.producerId);
      assert ResultOf(ServerNext(s, step).sched, a, m, f);
    }
  }

  lemma {:induction false} MailFromEffect(effects: seq<Effect>, a: Address, m: ToClient) returns (e: Effect)
    requires m in Mail(effects, a)
    ensures e in effects && m in MailOf(e, a)
    decreases |effects|
  {
    if m in MailOf(effects[0], a) {
      e := effects[0];
    } else {
      e := MailFromEffect(effects[1..], a, m);
    }
  }

  // An engine step's result, if it has one, was computed from the frame on record.
  ghost predicate ResultMatches(st: State, e: Step, f: Frame) {
    e.OnResult? ==>
      && Answers(st, e.context) && st.workers[e.context].current == Some(f.metadata)
      && f in AcceptedOf(st, f.metadata.producerId)
      && e.result.origin == Some(JobOf(f))
  }

  // Besides announcements, a handler sends the result it was given, stamped with the frame on
  // record, or a notice that an engine was lost.
  lemma EffectCases(st: State, e: Step, x: Effect)
    requires x in Effects(st, e)
    ensures x.Announce? ||
      (&& x.Send? && x.result.origin.None? && x.result.code == EngineError) ||
      (&& e.OnResult? && Answers(st, e.context)
       && var md := st.workers[e.context].current.value;
          x == Send(md.address, md.producerId, e.result.(frameId := md.frameId), Claims(st, e.context)))
  {
    hide Incumbent, HoldsLatest, Answers, Claims;
  }

  lemma EngineMailOk(st: State, e: Step, f: Frame, a: Address, m: ToClient)
    requires !e.OnInput? && ResultMatches(st, e, f) && m in Mail(Effects(st, e), a)
    ensures MessageOk(st, a, true, m)
  {
    hide Effects, Answers, AcceptedOf, Mail;
    var x := MailFromEffect(Effects(st, e), a, m);
    EffectCases(st, e, x);
    if x.Send? && x.result.origin.Some? {
      assert ResultOf(st, a, m, f);
    }
  }

  lemma AnswerOk(s: Server, a: Address, msg: FromClient, m: ToClient)
    requires a in s.clients && m in Answer(s, a, msg)
    ensures Traceable(s.sched, a, m)
    ensures Complaint(m) ==>
      msg.InputMessage? && Verdict(s.clients[a], s.numTokens, s.sched, a, msg.input) in {NoTokens, UnspecifiedError}
  {
    hide Verdict;
  }

  // A conforming client's input passes the registration gate and the token check.
  lemma InputIsAdmitted(s: Server, a: Address, c: Client, pid: ProducerId)
    requires ServerInv(s) && ClientOk(s, a, c) && a in s.clients && pid in c.loops && c.loops[pid].wire != []
    ensures Admits(s.clients[a], s.numTokens, c.loops[pid].wire[0])
    ensures Verdict(s.clients[a], s.numTokens, s.sched, a, c.loops[pid].wire[0]) !in {NoTokens, UnspecifiedError}
  {
    hide Inv, Ahead, Credits, Unreturned, ViewAfter, Acknowledged, AcceptedOf, HasTarget, HasIdleTarget;
    assert Conserved(s, a, c, pid);
    UnreturnedBounds(s.sched, a, pid);
    assert AccountOk(s.numTokens, s.sched, a, s.clients[a].tokens, pid);
    assert c.loops[pid].wire[0].producerId == pid;
  }

  // ---------- The invariant ----------

  ghost predicate ClientsOk(w: World) {
    forall a :: a in w.clients ==> ClientOk(w.server, a, w.clients[a])
  }

  ghost predicate EnginesOk(w: World) {
    forall c :: c in w.server.sched.workers ==> c in w.engines && RunnerOk(w.server.sched.workers[c], w.engines[c])
  }

  ghost predicate MailOk(w: World) {
    forall a :: a in w.server.clients ==>
      AllMessagesOk(w.server.sched, a, a in w.clients, w.server.clients[a].outbox)
  }

  ghost predicate WorldInv(w: World) {
    ServerInv(w.server) && ClientsOk(w) && EnginesOk(w) && MailOk(w)
  }

  // ---------- Every action keeps it ----------

  lemma PartLegal(w: World, act: Action)
    requires WorldInv(w) && Enabled(w, act) && ServerPart(w, act).Some?
    ensures ServerLegal(w.server, ServerPart(w, act).value)
  {
    hide ServerInv, MailOk, Admits, ClientOk;
    match act
    case DeliverInput(a, pid) => UploadLegal(w.server, a, w.clients[a], pid);
    case ConnectEngine(c, id, all) => assert c !in w.server.sched.workers;
    case _ =>
  }

  lemma ServerStays(w: World, act: Action)
    requires WorldInv(w) && Enabled(w, act)
    ensures ServerInv(WorldNext(w, act).server)
  {
    hide ServerInv, ClientsOk, EnginesOk, MailOk, ServerNext, ServerPart, ServerLegal, Enabled;
    if ServerPart(w, act).Some? {
      PartLegal(w, act);
      ServerKeeps(w.server, ServerPart(w, act).value);
    }
  }

  lemma {:induction false} NoneFrom(s: seq<Frame>, a: Address)
    requires Froms(s, a) == 0
    ensures forall f :: f in s ==> f.metadata.address != a
  {
    if s != [] {
      NoneFrom(s[..|s| - 1], a);
    }
  }

  lemma NewClientOk(s: Server, a: Address, info: Blob)
    requires ServerInv(s) && a !in s.used
    ensures ClientOk(ServerNext(s, Opens(a)), a, NewClient(info))
  {
    hide Inv, Unreturned, AcceptedOf, Froms, SessionOk;
    var t, c := ServerNext(s, Opens(a)), NewClient(info);
    forall pid
      ensures Conserved(t, a, c, pid)
      ensures Ahead(AcceptedOf(t.sched, pid), a, LoopOf(c, t.numTokens, pid))
    {
      UnreturnedBounds(s.sched, a, pid);
      NoneFrom(AcceptedOf(s.sched, pid), a);
    }
  }

  // The client acts alone.
  lemma ClientActs(w: World, act: Action, a: Address)
    requires ServerInv(w.server) && ClientsOk(w) && Enabled(w, act) && ServerPart(w, act).None? && a in w.clients
    ensures a in ClientsNext(w, act) && ClientOk(w.server, a, ClientsNext(w, act)[a])
  {
    hide ServerInv, ClientOk;
    var s, c := w.server, w.clients[a];
    match act
    case SendRegistration(b) => RegistrationsKeep(s, a, c, c.registrations + 1);
    case StartProducer(b, pid) => if a == b { StartKeeps(s, a, c, pid); }
    case AcquireToken(b, pid) => if a == b { AcquireKeeps(s, a, c, pid); }
    case AbandonFrame(b, pid) => if a == b { AbandonKeeps(s, a, c, pid); }
    case SendFrame(b, pid, targets, payload) => if a == b { Conservation.SendKeeps(s, a, c, pid, targets, payload); }
    case ConsumeMessage(b, consumerFails) => if a == b { ConsumeKeeps(s, a, c, consumerFails); }
    case _ =>
  }

  // The server has a part in it.
  lemma ClientsServed(w: World, act: Action, a: Address)
    requires WorldInv(w) && Enabled(w, act) && ServerPart(w, act).Some? && a in ClientsNext(w, act)
    ensures ClientOk(ServerNext(w.server, ServerPart(w, act).value), a, ClientsNext(w, act)[a])
  {
    hide ServerInv, ClientOk, EnginesOk, MailOk, ServerNext, ServerLegal;
    var step := ServerPart(w, act).value;
    if act.OpenSession? && act.address == a {
      NewClientOk(w.server, a, act.info);
    } else if act.DeliverInput? && act.address == a {
      UploadKeeps(w.server, a, w.clients[a], act.producerId);
    } else {
      PartLegal(w, act);
      BystanderKeeps(w.server, step, a, w.clients[a]);
      if act.DeliverRegistration? && act.address == a {
        RegistrationsKeep(ServerNext(w.server, step), a, w.clients[a], w.clients[a].registrations - 1);
      }
    }
  }

  lemma ClientsStay(w: World, act: Action)
    requires WorldInv(w) && Enabled(w, act)
    ensures ClientsOk(WorldNext(w, act))
  {
    hide ServerInv, ClientOk, EnginesOk, MailOk, ServerNext;
    var v := WorldNext(w, act);
    forall a | a in v.clients
      ensures ClientOk(v.server, a, v.clients[a])
    {
      if ServerPart(w, act).Some? {
        ClientsServed(w, act, a);
      } else {
        ClientActs(w, act, a);
      }
    }
  }

  // The engine acts alone.
  lemma EngineActs(w: World, act: Action, c: Context)
    requires EnginesOk(w) && Enabled(w, act) && ServerPart(w, act).None? && c in w.server.sched.workers
    ensures c in EnginesNext(w, act) && RunnerOk(w.server.sched.workers[c], EnginesNext(w, act)[c])
  {
    hide RunnerOk;
    var worker, r := w.server.sched.workers[c], w.engines[c];
    match act
    case ReceiveFrame(d) => if c == d { ReadKeeps(worker, r); }
    case BeginJob(d) => if c == d { TakeKeeps(worker, r); }
    case EndJob(d, value) => if c == d { FinishKeeps(worker, r, value); }
    case StopEngine(d) => if c == d { StopKeeps(worker, r); }
    case _ =>
  }

  lemma EnginesServed(w: World, act: Action, c: Context)
    requires WorldInv(w) && Enabled(w, act) && ServerPart(w, act).Some?
    requires c in ServerNext(w.server, ServerPart(w, act).value).sched.workers
    ensures c in EnginesNext(w, act)
    ensures RunnerOk(ServerNext(w.server, ServerPart(w, act).value).sched.workers[c], EnginesNext(w, act)[c])
  {
    hide RunnerOk, ClientsOk, MailOk, ServerLegal, SessionsOk, WithinAllowance, Untouched, Inv, EngineResult,
         Connect, Disconnect, ReceiveState, ReceiveClients, Apply, Effects, NewWorker;
    PartLegal(w, act);
    var step := ServerPart(w, act).value;
    if c !in w.server.sched.workers {
      Newcomers(w.server, step, c);
      NewcomerOk(step.step.engineId, step.step.allResponses);
    } else if act.DeliverResult? && act.context == c {
      DeliverKeeps(w.server.sched, c, w.engines[c]);
    } else {
      OthersSend(w.server, step, c);
      Correlation.SendKeeps(w.server.sched.workers[c], ServerNext(w.server, step).sched.workers[c], w.engines[c]);
    }
  }

  lemma EnginesStay(w: World, act: Action)
    requires WorldInv(w) && Enabled(w, act)
    ensures EnginesOk(WorldNext(w, act))
  {
    hide ServerInv, ClientsOk, MailOk, ServerNext, RunnerOk;
    var v := WorldNext(w, act);
    forall c | c in v.server.sched.workers
      ensures c in v.engines && RunnerOk(v.server.sched.workers[c], v.engines[c])
    {
      if ServerPart(w, act).Some? {
        EnginesServed(w, act, c);
      } else {
        EngineActs(w, act, c);
      }
    }
  }

  // An engine's results are matched to frames before they reach the server.
  lemma StepMatches(w: World, act: Action) returns (f: Frame)
    requires WorldInv(w) && Enabled(w, act) && ServerPart(w, act).Some? && ServerPart(w, act).value.Engines?
    ensures !ServerPart(w, act).value.step.OnInput? && ResultMatches(w.server.sched, ServerPart(w, act).value.step, f)
  {
    hide ClientsOk, MailOk, Inv, SessionsOk, WithinAllowance, Untouched, RunnerOk;
    if act.DeliverResult? {
      f := ResultBelongs(w.server.sched, act.context, w.engines[act.context]);
    } else {
      f := Frame(Metadata(0, "", "", [], []), []);
    }
  }

  lemma EnginePostedOk(w: World, act: Action, a: Address, m: ToClient)
    requires WorldInv(w) && Enabled(w, act) && ServerPart(w, act).Some? && ServerPart(w, act).value.Engines?
    requires a in w.server.clients && m in Posted(w.server, ServerPart(w, act).value, a)
    ensures MessageOk(w.server.sched, a, true, m)
  {
    hide ClientsOk, EnginesOk, MailOk, Inv, SessionsOk, WithinAllowance, Untouched, MessageOk, ResultMatches, Posted,
         Continues, Enabled, ServerPart;
    var f := StepMatches(w, act);
    var e := ServerPart(w, act).value.step;
    EngineContinues(w.server, e, a, "");
    EngineMailOk(w.server.sched, e, f, a, m);
  }

  lemma ReceivePostedOk(w: World, act: Action, a: Address, m: ToClient)
    requires WorldInv(w) && Enabled(w, act) && ServerPart(w, act).Some? && ServerPart(w, act).value.Receives?
    requires a in w.server.clients && m in Posted(w.server, ServerPart(w, act).value, a)
    ensures MessageOk(w.server.sched, a, a in w.clients, m)
  {
    hide EnginesOk, MailOk, Inv, SessionsOk, WithinAllowance, Untouched, Traceable, Complaint, Posted, Continues,
         Answer, ClientOk, Verdict, ServerLegal;
    var step := ServerPart(w, act).value;
    ReceiveContinues(w.server, step.address, step.message, a, "");
    AnswerOk(w.server, a, step.message, m);
    if a in w.clients && step.message.InputMessage? {
      InputIsAdmitted(w.server, a, w.clients[a], act.producerId);
    }
  }

  lemma PostedOk(w: World, act: Action, a: Address, m: ToClient)
    requires WorldInv(w) && Enabled(w, act) && ServerPart(w, act).Some?
    requires a in w.server.clients && a in ServerNext(w.server, ServerPart(w, act).value).clients
    requires m in Posted(w.server, ServerPart(w, act).value, a)
    ensures MessageOk(w.server.sched, a, a in w.clients, m)
  {
    hide WorldInv, MessageOk, Enabled, ServerPart, ClientsOk, EnginesOk, MailOk, Inv;
    var step := ServerPart(w, act).value;
    match step
    case Receives(_, _) => ReceivePostedOk(w, act, a, m);
    case Engines(_) =>
      EnginePostedOk(w, act, a, m);
      Weaken(w.server.sched, a, a in w.clients, m);
    case _ =>
  }

  lemma Weaken(st: State, a: Address, conforming: bool, m: ToClient)
    requires MessageOk(st, a, true, m)
    ensures MessageOk(st, a, conforming, m)
  {
  }

  lemma MailServed(w: World, act: Action, a: Address)
    requires WorldInv(w) && Enabled(w, act) && ServerPart(w, act).Some?
    requires a in w.server.clients && a in ServerNext(w.server, ServerPart(w, act).value).clients
    ensures var t := ServerNext(w.server, ServerPart(w, act).value);
      AllMessagesOk(t.sched, a, a in w.clients, t.clients[a].outbox)
  {
    hide ServerInv, ServerLegal, ClientsOk, EnginesOk, Enabled, ServerPart, ServerNext, Traceable, Posted;
    var s, step := w.server, ServerPart(w, act).value;
    var t := ServerNext(s, step);
    PartLegal(w, act);
    LegalEngines(s, step);
    TokensMove(s, step, a, "");
    forall m | m in t.clients[a].outbox
      ensures MessageOk(t.sched, a, a in w.clients, m)
    {
      if m in s.clients[a].outbox {
        assert AllMessagesOk(s.sched, a, a in w.clients, s.clients[a].outbox);
      } else {
        PostedOk(w, act, a, m);
      }
      StillTraceable(s, step, a, m);
    }
  }

  lemma LegalEngines(s: Server, step: ServerStep)
    requires ServerLegal(s, step)
    ensures step.Engines? ==> !step.step.OnInput?
  {
  }

  // A session that appears is new, and so is its client.
  lemma FreshSession(w: World, act: Action, a: Address)
    requires WorldInv(w) && Enabled(w, act) && ServerPart(w, act).Some?
    requires a in ServerNext(w.server, ServerPart(w, act).value).clients
    ensures a !in w.server.clients ==> ServerNext(w.server, ServerPart(w, act).value).clients[a].outbox == []
    ensures a in w.server.clients ==> (a in ClientsNext(w, act) <==> a in w.clients)
  {
    hide Inv, SessionOk, WithinAllowance, Untouched, ClientsOk, EnginesOk, MailOk, Next, Effects, Apply, Admits;
    var step := ServerPart(w, act).value;
    if step.Engines? {
      ApplyKeys(w.server.clients, Effects(w.server.sched, step.step));
    }
  }

  // A session id that a client holds is not opened again, and clients come only by opening.
  lemma OpensOnce(w: World, act: Action)
    requires WorldInv(w) && Enabled(w, act)
    ensures act.OpenSession? ==> act.address !in w.clients
    ensures forall a :: a in ClientsNext(w, act) ==> a in w.clients || (act.OpenSession? && act.address == a)
  {
    hide ServerInv, EnginesOk, MailOk, InSync, WellRun, ServerLegal;
  }

  lemma MailStays(w: World, act: Action)
    requires WorldInv(w) && Enabled(w, act)
    ensures MailOk(WorldNext(w, act))
  {
    hide ServerInv, ClientsOk, EnginesOk, ServerNext, AllMessagesOk;
    var v := WorldNext(w, act);
    forall a | a in v.server.clients
      ensures AllMessagesOk(v.server.sched, a, a in v.clients, v.server.clients[a].outbox)
    {
      if ServerPart(w, act).Some? {
        FreshSession(w, act, a);
        if a in w.server.clients {
          MailServed(w, act, a);
        } else {
          NothingSent(v.server.sched, a, a in v.clients);
        }
      }
    }
  }

  lemma NothingSent(st: State, a: Address, conforming: bool)
    ensures AllMessagesOk(st, a, conforming, [])
  {
  }

  lemma ActKeeps(w: World, act: Action)
    requires WorldInv(w)
    ensures WorldInv(Act(w, act))
  {
    hide ServerInv, ClientsOk, EnginesOk, MailOk, WorldNext, Enabled;
    if Enabled(w, act) {
      ServerStays(w, act);
      ClientsStay(w, act);
      EnginesStay(w, act);
      MailStays(w, act);
    }
  }

  // The invariant holds after every run.
  lemma {:induction false} WorldReachable(numTokens: nat, capacity: nat, acts: seq<Action>)
    ensures WorldInv(After(Boot(numTokens, capacity), acts))
    decreases |acts|
  {
    hide WorldInv, Act;
    if acts == [] {
      BootOk(numTokens, capacity);
    } else {
      WorldReachable(numTokens, capacity, acts[..|acts| - 1]);
      ActKeeps(After(Boot(numTokens, capacity), acts[..|acts| - 1]), acts[|acts| - 1]);
    }
  }

  lemma BootOk(numTokens: nat, capacity: nat)
    ensures WorldInv(Boot(numTokens, capacity))
  {
  }
}
