/**
 The client-facing server over values: per-session token counts, the registration
 gate, and the outbound stream of each session.
 */
module Sessions {
  import opened Protocol
  import opened Scheduler

  datatype Session = Session(
    tokens: map<ProducerId, int>,
    clientInfo: Option<Blob>,
    outbox: seq<ToClient>)

  type Clients = map<Address, Session>

  const NEW_SESSION := Session(map[], None, [])

  function Post(s: Session, m: ToClient): Session {
    s.(outbox := s.outbox + [m])
  }

  // ---------- Results and announcements ----------

  function CreditToken(s: Session, pid: ProducerId, returnToken: bool): Session {
    if pid in s.tokens && returnToken then s.(tokens := s.tokens[pid := s.tokens[pid] + 1]) else s
  }

  function SendResult(cs: Clients, address: Address, pid: ProducerId, r: Result, returnToken: bool): Clients {
    if address !in cs then cs
    else cs[address := Post(CreditToken(cs[address], pid, returnToken), ResultWrapper(pid, returnToken, r))]
  }

  function Broadcast(cs: Clients, ids: set<EngineId>): Clients {
    map a | a in cs :: Post(cs[a], EngineIdsUpdate(ids))
  }

  function ApplyOne(cs: Clients, e: Effect): Clients {
    match e
    case Send(address, pid, r, returnToken) => SendResult(cs, address, pid, r, returnToken)
    case Announce(ids) => Broadcast(cs, ids)
  }

  function Apply(cs: Clients, effects: seq<Effect>): Clients {
    if effects == [] then cs else Apply(ApplyOne(cs, effects[0]), effects[1..])
  }

  lemma {:induction false} ApplyAppend(cs: Clients, a: seq<Effect>, b: seq<Effect>)
    ensures Apply(cs, a + b) == Apply(Apply(cs, a), b)
    decreases |a|
  {
    hide ApplyOne;
    if a == [] {
      assert a + b == b;
    } else {
      assert (a + b)[0] == a[0] && (a + b)[1..] == a[1..] + b;
      ApplyAppend(ApplyOne(cs, a[0]), a[1..], b);
    }
  }

  lemma ApplySingle(cs: Clients, e: Effect)
    ensures Apply(cs, [e]) == ApplyOne(cs, e)
  {
    assert [e][1..] == [];
    assert Apply(cs, [e]) == Apply(ApplyOne(cs, e), []);
  }

  // ---------- Messages from a client ----------

  function FrameOf(address: Address, info: Blob, i: Input): Frame {
    Frame(Metadata(i.frameId, i.producerId, address, i.targets, info), i.payload)
  }

  function TokensFor(s: Session, numTokens: nat, pid: ProducerId): int {
    if pid in s.tokens then s.tokens[pid] else numTokens
  }

  // The input passes the registration gate and the token check and reaches the scheduler.
  predicate Admits(s: Session, numTokens: nat, i: Input) {
    s.clientInfo.Some? && TokensFor(s, numTokens, i.producerId) >= 1
  }

  // The status the server settles on for an input.
  function Verdict(s: Session, numTokens: nat, st: State, address: Address, i: Input): StatusCode {
    if s.clientInfo.None? then UnspecifiedError
    else if TokensFor(s, numTokens, i.producerId) < 1 then NoTokens
    else InputStatus(st, FrameOf(address, s.clientInfo.value, i))
  }

  function ErrorResponse(i: Input, status: StatusCode): ToClient {
    ResultWrapper(i.producerId, true, Result(status, NoPayload, "", i.frameId, None))
  }

  // First contact of a producer opens its token account.
  function WithAccount(s: Session, numTokens: nat, pid: ProducerId): Session {
    if pid in s.tokens then s else s.(tokens := s.tokens[pid := numTokens])
  }

  function AfterInput(s: Session, numTokens: nat, i: Input, status: StatusCode): Session {
    if s.clientInfo.None? then Post(s, ErrorResponse(i, status))
    else
      var s1 := WithAccount(s, numTokens, i.producerId);
      if status == Success then s1.(tokens := s1.tokens[i.producerId := s1.tokens[i.producerId] - 1])
      else Post(s1, ErrorResponse(i, status))
  }

  function AfterRegistration(s: Session, numTokens: nat, info: Blob, ids: set<EngineId>): Session {
    Post(s.(clientInfo := Some(info)), Registered(numTokens, ids))
  }

  function ReceiveClients(cs: Clients, numTokens: nat, st: State, address: Address, m: FromClient): Clients {
    if address !in cs then cs
    else
      match m
      case Registration(info) => cs[address := AfterRegistration(cs[address], numTokens, info, st.engineIds)]
      case InputMessage(i) =>
        cs[address := AfterInput(cs[address], numTokens, i, Verdict(cs[address], numTokens, st, address, i))]
  }

  function ReceiveState(cs: Clients, numTokens: nat, st: State, address: Address, m: FromClient): State {
    if address in cs && m.InputMessage? && Admits(cs[address], numTokens, m.input)
    then ClientInput(st, FrameOf(address, cs[address].clientInfo.value, m.input))
    else st
  }
}
