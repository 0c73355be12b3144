/**
 The server's token accounts. The scheduler and the client-facing server run
 together as one machine; in every run the count the server keeps for a producer
 of a session is exactly the number of its frames still owed an answer short of
 the full allowance, and every step moves a token rather than making one.
 */
module Accounts {
  import opened Protocol
  import opened Scheduler
  import opened Invariant
  import opened Guarantees
  import opened Sessions

  // `used` holds every session id ever opened: session ids are not reused.
  datatype Server = Server(numTokens: nat, sched: State, clients: Clients, used: set<Address>)

  datatype ServerStep =
    | Opens(address: Address)
    | Closes(address: Address)
    | Receives(address: Address, message: FromClient)
    | Engines(step: Step)

  function NewServer(numTokens: nat, capacity: nat): Server {
    Server(numTokens, Init(capacity), map[], {})
  }

  ghost function ServerNext(s: Server, step: ServerStep): Server {
    match step
    case Opens(a) => s.(clients := s.clients[a := NEW_SESSION], used := s.used + {a})
    case Closes(a) => s.(clients := s.clients - {a})
    case Receives(a, m) =>
      s.(sched := ReceiveState(s.clients, s.numTokens, s.sched, a, m),
         clients := ReceiveClients(s.clients, s.numTokens, s.sched, a, m))
    case Engines(e) => s.(sched := Next(s.sched, e), clients := Apply(s.clients, Effects(s.sched, e)))
  }

  // The scheduler step a received message amounts to, if it gets that far.
  function Scheduled(s: Server, a: Address, m: FromClient): Option<Step> {
    if a in s.clients && m.InputMessage? && Admits(s.clients[a], s.numTokens, m.input)
    then Some(OnInput(FrameOf(a, s.clients[a].clientInfo.value, m.input)))
    else None
  }

  // What the environment owes: session ids are new, engine streams are new, and a session
  // numbers the frames of a producer upwards.
  ghost predicate ServerLegal(s: Server, step: ServerStep) {
    match step
    case Opens(a) => a !in s.used
    case Closes(a) => true
    case Receives(a, m) => Scheduled(s, a, m).Some? ==> Legal(s.sched, Scheduled(s, a, m).value)
    case Engines(e) => !e.OnInput? && Legal(s.sched, e)
  }

  // ---------- Counting frames of one session ----------

  function Froms(s: seq<Frame>, a: Address): nat {
    if s == [] then 0
    else Froms(s[..|s| - 1], a) + if s[|s| - 1].metadata.address == a then 1 else 0
  }

  lemma {:induction false} FromsAppend(s: seq<Frame>, t: seq<Frame>, a: Address)
    ensures Froms(s + t, a) == Froms(s, a) + Froms(t, a)
  {
    if t == [] {
      assert s + t == s;
    } else {
      assert (s + t)[..|s + t| - 1] == s + t[..|t| - 1];
      FromsAppend(s, t[..|t| - 1], a);
    }
  }

  lemma FromsWithout(t: seq<Frame>, i: nat, a: Address)
    requires i < |t|
    ensures Froms(t, a) == Froms(t[..i] + t[i + 1..], a) + if t[i].metadata.address == a then 1 else 0
  {
    assert t == t[..i] + [t[i]] + t[i + 1..];
    FromsAppend(t[..i] + [t[i]], t[i + 1..], a);
    FromsAppend(t[..i], [t[i]], a);
    FromsAppend(t[..i], t[i + 1..], a);
    assert [t[i]][..0] == [];
  }

  lemma MultisetWithout(t: seq<Frame>, i: nat)
    requires i < |t|
    ensures multiset(t[..i] + t[i + 1..]) == multiset(t) - multiset{t[i]}
  {
    assert t == t[..i] + [t[i]] + t[i + 1..];
    assert multiset(t) == multiset(t[..i] + t[i + 1..]) + multiset{t[i]};
  }

  // The count does not depend on the order.
  lemma {:induction false} FromsUnordered(s: seq<Frame>, t: seq<Frame>, a: Address)
    requires multiset(s) == multiset(t)
    ensures Froms(s, a) == Froms(t, a)
    decreases |s|
  {
    if s == [] {
      assert |t| == |multiset(t)| == 0;
    } else {
      var last := |s| - 1;
      MultisetWithout(s, last);
      assert s[last] in multiset(t);
      var i :| 0 <= i < |t| && t[i] == s[last];
      MultisetWithout(t, i);
      FromsWithout(t, i, a);
      assert s[..last] + s[last + 1..] == s[..last];
      assert multiset(s[..last]) == multiset(t[..i] + t[i + 1..]);
      FromsUnordered(s[..last], t[..i] + t[i + 1..], a);
    }
  }

  // Frames of this session that were accepted and whose token has not gone back.
  function Unreturned(st: State, a: Address, pid: ProducerId): int {
    Froms(AcceptedOf(st, pid), a) - Froms(ReturnedOf(st, pid), a)
  }

  // They are queued, in flight, or displaced.
  lemma UnreturnedAre(p: Producer, a: Address)
    requires Ledger(p)
    ensures Froms(p.accepted, a) - Froms(p.returned, a) ==
            Froms(p.queue, a) + Froms(InFlight(p), a) + Froms(p.displaced, a)
  {
    var all := p.queue + InFlight(p) + p.returned + p.displaced;
    FromsUnordered(p.accepted, all, a);
    FromsAppend(p.queue + InFlight(p) + p.returned, p.displaced, a);
    FromsAppend(p.queue + InFlight(p), p.returned, a);
    FromsAppend(p.queue, InFlight(p), a);
  }

  // ---------- Counting tokens in messages ----------

  function Credit(m: ToClient, pid: ProducerId): nat {
    if m.ResultWrapper? && m.returnToken && m.producerId == pid then 1 else 0
  }

  // Tokens travelling back to a producer in a stretch of a client's inbound stream.
  function Credits(ms: seq<ToClient>, pid: ProducerId): nat {
    if ms == [] then 0 else Credits(ms[..|ms| - 1], pid) + Credit(ms[|ms| - 1], pid)
  }

  lemma {:induction false} CreditsAppend(a: seq<ToClient>, b: seq<ToClient>, pid: ProducerId)
    ensures Credits(a + b, pid) == Credits(a, pid) + Credits(b, pid)
  {
    if b == [] {
      assert a + b == a;
    } else {
      assert (a + b)[..|a + b| - 1] == a + b[..|b| - 1];
      CreditsAppend(a, b[..|b| - 1], pid);
    }
  }

  function TagsFrom(tags: seq<Tag>, a: Address): nat {
    if tags == [] then 0 else TagsFrom(tags[..|tags| - 1], a) + if tags[|tags| - 1].address == a then 1 else 0
  }

  lemma {:induction false} TagsFromAppend(s: seq<Tag>, t: seq<Tag>, a: Address)
    ensures TagsFrom(s + t, a) == TagsFrom(s, a) + TagsFrom(t, a)
  {
    if t == [] {
      assert s + t == s;
    } else {
      assert (s + t)[..|s + t| - 1] == s + t[..|t| - 1];
      TagsFromAppend(s, t[..|t| - 1], a);
    }
  }

  lemma {:induction false} TagsFromFrames(s: seq<Frame>, a: Address)
    ensures TagsFrom(Tags(s), a) == Froms(s, a)
  {
    if s != [] {
      assert Tags(s)[..|s| - 1] == Tags(s[..|s| - 1]);
      TagsFromFrames(s[..|s| - 1], a);
    }
  }

  // ---------- What a handler's effects put into a session ----------

  function MailOf(e: Effect, a: Address): seq<ToClient> {
    match e
    case Send(b, pid, r, returnToken) => if a == b then [ResultWrapper(pid, returnToken, r)] else []
    case Announce(ids) => [EngineIdsUpdate(ids)]
  }

  function Mail(effects: seq<Effect>, a: Address): seq<ToClient> {
    if effects == [] then [] else MailOf(effects[0], a) + Mail(effects[1..], a)
  }

  lemma {:induction false} MailCredits(effects: seq<Effect>, a: Address, pid: ProducerId)
    ensures Credits(Mail(effects, a), pid) == TagsFrom(TokenReturns(effects, pid), a)
  {
    if effects != [] {
      var e := effects[0];
      MailCredits(effects[1..], a, pid);
      CreditsAppend(MailOf(e, a), Mail(effects[1..], a), pid);
      TagsFromAppend(TokenReturn(e, pid), TokenReturns(effects[1..], pid), a);
      assert Credits(MailOf(e, a), pid) == TagsFrom(TokenReturn(e, pid), a);
    }
  }

  // A session after some mail: the messages are appended, and each returned token is credited.
  ghost predicate Mailed(s: Session, mail: seq<ToClient>, t: Session) {
    && t.outbox == s.outbox + mail
    && t.clientInfo == s.clientInfo
    && t.tokens.Keys == s.tokens.Keys
    && forall pid :: pid in s.tokens ==> t.tokens[pid] == s.tokens[pid] + Credits(mail, pid)
  }

  lemma MailedOne(cs: Clients, e: Effect, a: Address)
    requires a in cs
    ensures ApplyOne(cs, e).Keys == cs.Keys
    ensures Mailed(cs[a], MailOf(e, a), ApplyOne(cs, e)[a])
  {
    var t, mail := ApplyOne(cs, e)[a], MailOf(e, a);
    if mail == [] {
      assert t.outbox == cs[a].outbox + mail;
    } else {
      assert mail[..0] == [];
    }
  }

  lemma MailedTwice(s: Session, m: seq<ToClient>, t: Session, n: seq<ToClient>, u: Session)
    requires Mailed(s, m, t) && Mailed(t, n, u)
    ensures Mailed(s, m + n, u)
  {
    forall pid | pid in s.tokens
      ensures u.tokens[pid] == s.tokens[pid] + Credits(m + n, pid)
    {
      CreditsAppend(m, n, pid);
    }
  }

  lemma {:induction false} MailDelivered(cs: Clients, effects: seq<Effect>, a: Address)
    requires a in cs
    ensures Apply(cs, effects).Keys == cs.Keys
    ensures Mailed(cs[a], Mail(effects, a), Apply(cs, effects)[a])
    decreases |effects|
  {
    hide ApplyOne, MailOf, Mailed;
    if effects == [] {
      NoMail(cs[a]);
    } else {
      MailedOne(cs, effects[0], a);
      var mid := ApplyOne(cs, effects[0]);
      MailDelivered(mid, effects[1..], a);
      MailedTwice(cs[a], MailOf(effects[0], a), mid[a], Mail(effects[1..], a), Apply(mid, effects[1..])[a]);
    }
  }

  lemma NoMail(s: Session)
    ensures Mailed(s, [], s)
  {
  }

  lemma {:induction false} ApplyKeys(cs: Clients, effects: seq<Effect>)
    ensures Apply(cs, effects).Keys == cs.Keys
    decreases |effects|
  {
    if effects != [] {
      assert ApplyOne(cs, effects[0]).Keys == cs.Keys;
      ApplyKeys(ApplyOne(cs, effects[0]), effects[1..]);
    }
  }

  // ---------- A client's view of the engines ----------

  function Viewed(view: set<EngineId>, m: ToClient): set<EngineId> {
    match m
    case Registered(_, ids) => ids
    case EngineIdsUpdate(ids) => ids
    case ResultWrapper(_, _, _) => view
  }

  // The view after processing a stretch of the inbound stream in order.
  function ViewAfter(view: set<EngineId>, ms: seq<ToClient>): set<EngineId> {
    if ms == [] then view else Viewed(ViewAfter(view, ms[..|ms| - 1]), ms[|ms| - 1])
  }

  lemma {:induction false} ViewAppend(view: set<EngineId>, a: seq<ToClient>, b: seq<ToClient>)
    ensures ViewAfter(view, a + b) == ViewAfter(ViewAfter(view, a), b)
  {
    if b == [] {
      assert a + b == a;
    } else {
      assert (a + b)[..|a + b| - 1] == a + b[..|b| - 1];
      ViewAppend(view, a, b[..|b| - 1]);
    }
  }

  lemma {:induction false} MailAppend(x: seq<Effect>, y: seq<Effect>, a: Address)
    ensures Mail(x + y, a) == Mail(x, a) + Mail(y, a)
  {
    hide MailOf;
    if x == [] {
      assert x + y == y;
    } else {
      assert (x + y)[0] == x[0] && (x + y)[1..] == x[1..] + y;
      MailAppend(x[1..], y, a);
      var u, v, w := MailOf(x[0], a), Mail(x[1..], a), Mail(y, a);
      assert u + (v + w) == (u + v) + w;
    }
  }

  // Mail that ends with an announcement settles the view.
  lemma AnnounceLast(view: set<EngineId>, x: seq<Effect>, ids: set<EngineId>, a: Address)
    ensures ViewAfter(view, Mail(x + [Announce(ids)], a)) == ids
  {
    MailAppend(x, [Announce(ids)], a);
    assert [Announce(ids)][1..] == [];
    assert Mail([Announce(ids)], a) == [EngineIdsUpdate(ids)];
    ViewAppend(view, Mail(x, a), [EngineIdsUpdate(ids)]);
    assert [EngineIdsUpdate(ids)][..0] == [];
  }

  // An engine handler's mail leaves a client that was up to date up to date.
  lemma ViewKeptUp(st: State, e: Step, a: Address)
    requires !e.OnInput?
    ensures ViewAfter(st.engineIds, Mail(Effects(st, e), a)) == Next(st, e).engineIds
  {
    hide SendNextWorker, SendNextProducers, AfterLoss, LossNotice, Incumbent;
    match e
    case OnResult(c, r) =>
      var effects := Effects(st, e);
      if effects != [] {
        assert effects[1..] == [];
        var mail := Mail(effects, a);
        if mail != [] {
          assert mail[..0] == [];
        }
      }
    case OnDisconnect(c) =>
      if c in st.workers {
        AnnounceLast(st.engineIds, LossNotice(st, c), st.engineIds - {st.workers[c].engineId}, a);
      }
    case OnConnect(c, id, all) =>
      var incumbent := Incumbent(st, id);
      var first := if incumbent.Some? then DisconnectEffects(st, incumbent.value) else [];
      AnnounceLast(st.engineIds, first, Evict(st, id).engineIds + {id}, a);
  }

  // ---------- The invariant of the server ----------

  ghost predicate AccountOk(n: nat, st: State, a: Address, tokens: map<ProducerId, int>, pid: ProducerId) {
    if pid in tokens then tokens[pid] == n - Unreturned(st, a, pid) && tokens[pid] >= 0
    else Froms(AcceptedOf(st, pid), a) == 0 && Unreturned(st, a, pid) == 0
  }

  ghost predicate AccountsOk(n: nat, st: State, a: Address, tokens: map<ProducerId, int>) {
    forall pid :: AccountOk(n, st, a, tokens, pid)
  }

  // Only a registered session has been acknowledged, and acknowledgements tell the allowance.
  ghost predicate Acknowledged(n: nat, s: Session) {
    forall m :: m in s.outbox && m.Registered? ==> s.clientInfo.Some? && m.numTokens == n
  }

  ghost predicate SessionOk(n: nat, st: State, a: Address, s: Session) {
    && AccountsOk(n, st, a, s.tokens)
    && Acknowledged(n, s)
    && (s.clientInfo.Some? ==> ViewAfter({}, s.outbox) == st.engineIds)
  }

  ghost predicate SessionsOk(s: Server) {
    forall a :: a in s.clients ==> a in s.used && SessionOk(s.numTokens, s.sched, a, s.clients[a])
  }

  // No session, open or closed, has more frames unanswered than its allowance.
  ghost predicate WithinAllowance(n: nat, st: State) {
    forall a, pid :: Unreturned(st, a, pid) <= n
  }

  ghost predicate Untouched(st: State, used: set<Address>) {
    forall a, pid :: a !in used ==> Froms(AcceptedOf(st, pid), a) == 0
  }

  ghost predicate ServerInv(s: Server) {
    && Inv(s.sched)
    && SessionsOk(s)
    && WithinAllowance(s.numTokens, s.sched)
    && Untouched(s.sched, s.used)
  }

  lemma UnreturnedBounds(st: State, a: Address, pid: ProducerId)
    requires Inv(st)
    ensures 0 <= Unreturned(st, a, pid) <= Froms(AcceptedOf(st, pid), a)
  {
    if pid in st.producers {
      assert ProducerOk(pid, st.producers[pid]);
      UnreturnedAre(st.producers[pid], a);
    }
  }

  // How each scheduler step moves the count: up by what it admits, down by what it returns.
  lemma StepUnreturned(st: State, step: Step, a: Address, pid: ProducerId)
    requires Inv(st)
    ensures Unreturned(Next(st, step), a, pid) ==
            Unreturned(st, a, pid) + Froms(AsSeq(Admitted(st, step, pid)), a)
            - Credits(Mail(Effects(st, step), a), pid)
    ensures Froms(AcceptedOf(Next(st, step), pid), a) ==
            Froms(AcceptedOf(st, pid), a) + Froms(AsSeq(Admitted(st, step, pid)), a)
  {
    hide Inv, Next, Effects, Admitted;
    AcceptedGrows(st, step, pid);
    FromsAppend(AcceptedOf(st, pid), AsSeq(Admitted(st, step, pid)), a);
    StepReturns(st, step, pid);
    TagsFromFrames(ReturnedOf(st, pid), a);
    TagsFromFrames(ReturnedOf(Next(st, step), pid), a);
    TagsFromAppend(Tags(ReturnedOf(st, pid)), TokenReturns(Effects(st, step), pid), a);
    MailCredits(Effects(st, step), a, pid);
  }

  // ---------- Engine steps ----------

  lemma EngineUnreturned(st: State, e: Step, a: Address, pid: ProducerId)
    requires Inv(st) && !e.OnInput?
    ensures Unreturned(Next(st, e), a, pid) == Unreturned(st, a, pid) - Credits(Mail(Effects(st, e), a), pid)
    ensures Froms(AcceptedOf(Next(st, e), pid), a) == Froms(AcceptedOf(st, pid), a)
  {
    hide Inv, Next, Effects;
    StepUnreturned(st, e, a, pid);
    assert AsSeq(Admitted(st, e, pid)) == [];
  }

  lemma {:induction false} MailIsNoAcknowledgement(effects: seq<Effect>, a: Address)
    ensures forall m :: m in Mail(effects, a) ==> !m.Registered?
  {
    if effects != [] {
      MailIsNoAcknowledgement(effects[1..], a);
    }
  }

  lemma EngineAccounts(n: nat, st: State, e: Step, a: Address, s: Session, t: Session)
    requires Inv(st) && Inv(Next(st, e)) && !e.OnInput? && AccountsOk(n, st, a, s.tokens)
    requires Mailed(s, Mail(Effects(st, e), a), t)
    ensures AccountsOk(n, Next(st, e), a, t.tokens)
  {
    hide Inv, Next, Effects, Unreturned;
    forall pid
      ensures AccountOk(n, Next(st, e), a, t.tokens, pid)
    {
      assert AccountOk(n, st, a, s.tokens, pid);
      EngineUnreturned(st, e, a, pid);
      UnreturnedBounds(Next(st, e), a, pid);
    }
  }

  lemma EngineSession(n: nat, st: State, e: Step, a: Address, s: Session, t: Session)
    requires Inv(st) && Inv(Next(st, e)) && !e.OnInput? && SessionOk(n, st, a, s)
    requires Mailed(s, Mail(Effects(st, e), a), t)
    ensures SessionOk(n, Next(st, e), a, t)
  {
    hide Inv, Next, Effects, AccountsOk;
    EngineAccounts(n, st, e, a, s, t);
    MailIsNoAcknowledgement(Effects(st, e), a);
    ViewAppend({}, s.outbox, Mail(Effects(st, e), a));
    ViewKeptUp(st, e, a);
  }

  lemma EngineKeeps(s: Server, e: Step)
    requires ServerInv(s) && ServerLegal(s, Engines(e))
    ensures ServerInv(ServerNext(s, Engines(e)))
  {
    hide Inv, Next, Effects, Apply, SessionOk, Mailed, Unreturned;
    var t := ServerNext(s, Engines(e));
    NextKeeps(s.sched, e);
    ApplyKeys(s.clients, Effects(s.sched, e));
    forall a | a in t.clients
      ensures a in t.used && SessionOk(t.numTokens, t.sched, a, t.clients[a])
    {
      MailDelivered(s.clients, Effects(s.sched, e), a);
      EngineSession(s.numTokens, s.sched, e, a, s.clients[a], t.clients[a]);
    }
    forall a, pid
      ensures Unreturned(t.sched, a, pid) <= t.numTokens
      ensures a !in t.used ==> Froms(AcceptedOf(t.sched, pid), a) == 0
    {
      EngineUnreturned(s.sched, e, a, pid);
    }
  }

  // ---------- Messages from clients ----------

  predicate Accepted(s: Server, a: Address, m: FromClient) {
    Scheduled(s, a, m).Some? && InputStatus(s.sched, Scheduled(s, a, m).value.frame) == Success
  }

  lemma AcceptedVerdict(s: Server, a: Address, i: Input)
    requires a in s.clients
    ensures Accepted(s, a, InputMessage(i)) <==>
            Verdict(s.clients[a], s.numTokens, s.sched, a, i) == Success
  {
    hide InputStatus;
  }

  // A message moves only the count of its own session and producer, and only if accepted.
  lemma ReceiveUnreturned(s: Server, a: Address, m: FromClient, b: Address, pid: ProducerId)
    requires Inv(s.sched)
    ensures var t := ServerNext(s, Receives(a, m));
      var more := if a == b && Accepted(s, a, m) && m.input.producerId == pid then 1 else 0;
      && Unreturned(t.sched, b, pid) == Unreturned(s.sched, b, pid) + more
      && Froms(AcceptedOf(t.sched, pid), b) == Froms(AcceptedOf(s.sched, pid), b) + more
      && t.sched.engineIds == s.sched.engineIds
  {
    hide Inv, InputStatus, Unreturned;
    var step := Scheduled(s, a, m);
    if step.Some? {
      StepUnreturned(s.sched, step.value, b, pid);
      assert Effects(s.sched, step.value) == [];
      var f := step.value.frame;
      assert [f][..0] == [];
      assert Froms([f], b) == if a == b then 1 else 0;
    }
  }

  lemma RegistrationSession(s: Server, a: Address, info: Blob)
    requires ServerInv(s) && a in s.clients
    ensures var t := ServerNext(s, Receives(a, Registration(info)));
      SessionOk(t.numTokens, t.sched, a, t.clients[a])
  {
    hide Inv, Unreturned;
    var t := ServerNext(s, Receives(a, Registration(info)));
    var ack := Registered(s.numTokens, s.sched.engineIds);
    ViewAppend({}, s.clients[a].outbox, [ack]);
    assert [ack][..0] == [];
  }

  lemma InputAccounts(s: Server, a: Address, i: Input)
    requires ServerInv(s) && a in s.clients
    ensures var t := ServerNext(s, Receives(a, InputMessage(i)));
      AccountsOk(t.numTokens, t.sched, a, t.clients[a].tokens)
  {
    hide Inv, Unreturned, InputStatus, ClientInput;
    var m := InputMessage(i);
    var t := ServerNext(s, Receives(a, m));
    AcceptedVerdict(s, a, i);
    forall pid
      ensures AccountOk(t.numTokens, t.sched, a, t.clients[a].tokens, pid)
    {
      assert AccountOk(s.numTokens, s.sched, a, s.clients[a].tokens, pid);
      ReceiveUnreturned(s, a, m, a, pid);
    }
  }

  lemma InputSession(s: Server, a: Address, i: Input)
    requires ServerInv(s) && a in s.clients
    ensures var t := ServerNext(s, Receives(a, InputMessage(i)));
      SessionOk(t.numTokens, t.sched, a, t.clients[a])
  {
    hide Inv, AccountsOk, InputStatus, ClientInput;
    var t := ServerNext(s, Receives(a, InputMessage(i)));
    InputAccounts(s, a, i);
    ReceiveUnreturned(s, a, InputMessage(i), a, i.producerId);
    var reply := ErrorResponse(i, Verdict(s.clients[a], s.numTokens, s.sched, a, i));
    ViewAppend({}, s.clients[a].outbox, [reply]);
    assert [reply][..0] == [];
  }

  lemma BystanderSession(s: Server, a: Address, m: FromClient, b: Address)
    requires ServerInv(s) && b in s.clients && a != b
    ensures var t := ServerNext(s, Receives(a, m));
      b in t.clients && t.clients[b] == s.clients[b] && SessionOk(t.numTokens, t.sched, b, t.clients[b])
  {
    hide Inv, Unreturned, ReceiveState;
    var t := ServerNext(s, Receives(a, m));
    ReceiveUnreturned(s, a, m, b, "");
    forall pid
      ensures AccountOk(t.numTokens, t.sched, b, t.clients[b].tokens, pid)
    {
      assert AccountOk(s.numTokens, s.sched, b, s.clients[b].tokens, pid);
      ReceiveUnreturned(s, a, m, b, pid);
    }
  }

  lemma ReceiveSchedule(s: Server, a: Address, m: FromClient)
    requires ServerInv(s) && ServerLegal(s, Receives(a, m))
    ensures var t := ServerNext(s, Receives(a, m));
      Inv(t.sched) && WithinAllowance(t.numTokens, t.sched) && Untouched(t.sched, t.used)
  {
    hide Inv, Unreturned, InputStatus, ClientInput;
    var t := ServerNext(s, Receives(a, m));
    var step := Scheduled(s, a, m);
    if step.Some? {
      NextKeeps(s.sched, step.value);
      assert AccountOk(s.numTokens, s.sched, a, s.clients[a].tokens, m.input.producerId);
    }
    forall b, pid
      ensures Unreturned(t.sched, b, pid) <= t.numTokens
      ensures b !in t.used ==> Froms(AcceptedOf(t.sched, pid), b) == 0
    {
      ReceiveUnreturned(s, a, m, b, pid);
    }
  }

  lemma ReceiveKeeps(s: Server, a: Address, m: FromClient)
    requires ServerInv(s) && ServerLegal(s, Receives(a, m))
    ensures ServerInv(ServerNext(s, Receives(a, m)))
  {
    hide Inv, SessionOk, WithinAllowance, Untouched, Verdict, AfterInput, AfterRegistration, ReceiveState;
    ReceiveSchedule(s, a, m);
    var t := ServerNext(s, Receives(a, m));
    forall b | b in t.clients
      ensures b in t.used && SessionOk(t.numTokens, t.sched, b, t.clients[b])
    {
      if a != b {
        BystanderSession(s, a, m, b);
      } else if m.Registration? {
        RegistrationSession(s, a, m.clientInfo);
      } else {
        InputSession(s, a, m.input);
      }
    }
  }

  // ---------- Sessions come and go ----------

  lemma OpenKeeps(s: Server, a: Address)
    requires ServerInv(s) && ServerLegal(s, Opens(a))
    ensures ServerInv(ServerNext(s, Opens(a)))
  {
    hide Inv, Unreturned;
    forall pid
      ensures AccountOk(s.numTokens, s.sched, a, map[], pid)
    {
      UnreturnedBounds(s.sched, a, pid);
    }
  }

  lemma ServerKeeps(s: Server, step: ServerStep)
    requires ServerInv(s) && ServerLegal(s, step)
    ensures ServerInv(ServerNext(s, step))
  {
    hide Inv, SessionOk, WithinAllowance, Untouched;
    match step
    case Opens(a) => OpenKeeps(s, a);
    case Closes(a) =>
    case Receives(a, m) => ReceiveKeeps(s, a, m);
    case Engines(e) => EngineKeeps(s, e);
  }

  // ---------- Every step moves a token ----------

  // The step takes an input of this session and producer off the wire.
  predicate Uploads(step: ServerStep, a: Address, pid: ProducerId) {
    step.Receives? && step.address == a && step.message.InputMessage? && step.message.input.producerId == pid
  }

  // The step acknowledges a registration of this session.
  predicate Registers(step: ServerStep, a: Address) {
    step.Receives? && step.address == a && step.message.Registration?
  }

  // What the session is sent during a step.
  ghost function Posted(s: Server, step: ServerStep, a: Address): seq<ToClient> {
    var t := ServerNext(s, step);
    if a in s.clients && a in t.clients && s.clients[a].outbox <= t.clients[a].outbox
    then t.clients[a].outbox[|s.clients[a].outbox|..]
    else []
  }

  // A session goes on: its outbound stream only grows, it stays registered, and the token of
  // each input read is afterwards owed by the server or on its way back.
  ghost predicate Continues(s: Server, step: ServerStep, a: Address, pid: ProducerId) {
    var t := ServerNext(s, step);
    && a in s.clients && a in t.clients
    && t.clients[a].outbox == s.clients[a].outbox + Posted(s, step, a)
    && (t.clients[a].clientInfo.Some? <==> s.clients[a].clientInfo.Some? || Registers(step, a))
    && Unreturned(t.sched, a, pid) + Credits(Posted(s, step, a), pid) ==
       Unreturned(s.sched, a, pid) + if Uploads(step, a, pid) then 1 else 0
  }

  lemma PostedIs(s: Server, step: ServerStep, a: Address, mail: seq<ToClient>)
    requires var t := ServerNext(s, step);
      a in s.clients && a in t.clients && t.clients[a].outbox == s.clients[a].outbox + mail
    ensures Posted(s, step, a) == mail
  {
  }

  lemma EngineContinues(s: Server, e: Step, a: Address, pid: ProducerId)
    requires Inv(s.sched) && !e.OnInput? && a in s.clients
    ensures Continues(s, Engines(e), a, pid) && Posted(s, Engines(e), a) == Mail(Effects(s.sched, e), a)
  {
    hide Inv, Next, Effects, Apply, Unreturned, Posted;
    MailDelivered(s.clients, Effects(s.sched, e), a);
    PostedIs(s, Engines(e), a, Mail(Effects(s.sched, e), a));
    EngineUnreturned(s.sched, e, a, pid);
  }

  // The answer to a message, if it gets one at once.
  function Answer(s: Server, a: Address, m: FromClient): seq<ToClient>
    requires a in s.clients
  {
    match m
    case Registration(_) => [Registered(s.numTokens, s.sched.engineIds)]
    case InputMessage(i) =>
      var verdict := Verdict(s.clients[a], s.numTokens, s.sched, a, i);
      if verdict == Success then [] else [ErrorResponse(i, verdict)]
  }

  lemma AnswerPosted(s: Server, a: Address, m: FromClient)
    requires a in s.clients
    ensures var t := ServerNext(s, Receives(a, m));
      && a in t.clients && t.clients[a].outbox == s.clients[a].outbox + Answer(s, a, m)
      && (t.clients[a].clientInfo.Some? <==> s.clients[a].clientInfo.Some? || m.Registration?)
  {
    hide InputStatus, ReceiveState;
    assert s.clients[a].outbox + [] == s.clients[a].outbox;
  }

  lemma AnswerCredits(s: Server, a: Address, m: FromClient, pid: ProducerId)
    requires a in s.clients
    ensures Credits(Answer(s, a, m), pid) ==
            if m.InputMessage? && m.input.producerId == pid && !Accepted(s, a, m) then 1 else 0
  {
    hide InputStatus;
    if m.InputMessage? {
      AcceptedVerdict(s, a, m.input);
    }
    if Answer(s, a, m) != [] {
      assert Answer(s, a, m)[..0] == [];
    }
  }

  lemma ReceiveContinues(s: Server, b: Address, m: FromClient, a: Address, pid: ProducerId)
    requires Inv(s.sched) && a in s.clients
    ensures Continues(s, Receives(b, m), a, pid)
    ensures Posted(s, Receives(b, m), a) == if a == b then Answer(s, a, m) else []
  {
    hide Inv, Unreturned, Posted, ReceiveState, InputStatus, Answer, AfterInput, AfterRegistration, Verdict;
    ReceiveUnreturned(s, b, m, a, pid);
    if a == b {
      AnswerPosted(s, a, m);
      AnswerCredits(s, a, m, pid);
      PostedIs(s, Receives(b, m), a, Answer(s, a, m));
    } else {
      assert s.clients[a].outbox + [] == s.clients[a].outbox;
      PostedIs(s, Receives(b, m), a, []);
    }
  }

  // The law behind the token protocol, for every step of the server and every session that is
  // open before and after it.
  lemma TokensMove(s: Server, step: ServerStep, a: Address, pid: ProducerId)
    requires ServerInv(s) && ServerLegal(s, step) && a in s.clients && a in ServerNext(s, step).clients
    ensures Continues(s, step, a, pid)
  {
    hide Inv, Unreturned, Posted, Credits, SessionOk, Registers, Uploads;
    match step
    case Opens(b) => QuietStep(s, step, a, pid);
    case Closes(b) => QuietStep(s, step, a, pid);
    case Receives(b, m) => ReceiveContinues(s, b, m, a, pid);
    case Engines(e) => EngineContinues(s, e, a, pid);
  }

  lemma QuietStep(s: Server, step: ServerStep, a: Address, pid: ProducerId)
    requires step.Opens? || step.Closes?
    requires a in s.clients && a in ServerNext(s, step).clients && step.address != a
    ensures Continues(s, step, a, pid)
  {
    assert s.clients[a].outbox + [] == s.clients[a].outbox;
    PostedIs(s, step, a, []);
  }

  // ---------- What enters the ledger ----------

  function AcceptedInput(s: Server, step: ServerStep, pid: ProducerId): seq<Frame> {
    if step.Receives? && Accepted(s, step.address, step.message) && step.message.input.producerId == pid
    then
      var i := step.message.input;
      var info := s.clients[step.address].clientInfo.value;
      [Frame(Metadata(i.frameId, i.producerId, step.address, i.targets, info), i.payload)]
    else []
  }

  lemma LedgerGrows(s: Server, step: ServerStep, pid: ProducerId)
    requires step.Engines? ==> !step.step.OnInput?
    ensures AcceptedOf(ServerNext(s, step).sched, pid) == AcceptedOf(s.sched, pid) + AcceptedInput(s, step, pid)
  {
    hide InputStatus, ClientInput, AcceptedOf;
    match step
    case Opens(a) =>
    case Closes(a) =>
    case Receives(a, m) =>
      if Scheduled(s, a, m).Some? {
        AcceptedGrows(s.sched, Scheduled(s, a, m).value, pid);
      }
    case Engines(e) => AcceptedGrows(s.sched, e, pid);
  }
}
