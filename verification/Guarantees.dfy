/**
 What every run of the scheduler guarantees about tokens and frames: each accepted
 frame is in exactly one place, its token is returned at most once and never
 forgotten while an engine works on it, and no engine is sent a frame twice.
 */
module Guarantees {
  import opened Protocol
  import opened Scheduler
  import opened Invariant

  // ---------- The ledger ----------

  function Count(s: seq<Frame>, f: Frame): nat {
    multiset(s)[f]
  }

  // In every run, an accepted frame is in exactly one of four places, and no other frame is
  // in any of them.
  lemma LedgerPartition(capacity: nat, steps: seq<Step>, pid: ProducerId, f: Frame)
    requires LegalRun(Init(capacity), steps)
    requires pid in Exec(Init(capacity), steps).producers
    ensures var p := Exec(Init(capacity), steps).producers[pid];
      Count(p.queue, f) + Count(InFlight(p), f) + Count(p.returned, f) + Count(p.displaced, f)
      == if f in p.accepted then 1 else 0
  {
    ReachableOk(capacity, steps);
    var p := Exec(Init(capacity), steps).producers[pid];
    assert ProducerOk(pid, p);
    AcceptedOnce(p.accepted, f);
    assert f in p.accepted <==> multiset(p.accepted)[f] > 0;
  }

  // ---------- Acceptance ----------

  // The input a step admits for one producer.
  function Admitted(st: State, step: Step, pid: ProducerId): Option<Frame> {
    if step.OnInput? && step.frame.metadata.producerId == pid && InputStatus(st, step.frame) == Success
    then Some(step.frame) else None
  }

  function AcceptedOf(st: State, pid: ProducerId): seq<Frame> {
    if pid in st.producers then st.producers[pid].accepted else []
  }

  function AsSeq(f: Option<Frame>): seq<Frame> {
    if f.Some? then [f.value] else []
  }

  // Whatever becomes of an input, all its targets are offered it.
  lemma InputWorkers(st: State, f: Frame)
    ensures ClientInput(st, f).workers == if HasTarget(st.workers, f) then OfferAll(st.workers, f) else st.workers
  {
  }

  // A producer's accepted frames grow by exactly the inputs admitted for it, in order.
  lemma AcceptedGrows(st: State, step: Step, pid: ProducerId)
    ensures AcceptedOf(Next(st, step), pid) == AcceptedOf(st, pid) + AsSeq(Admitted(st, step, pid))
  {
    match step
    case OnInput(f) =>
    case OnResult(c, r) =>
      if Answers(st, c) {
        var _, _ := SendNextCases(Logged(st, c), AfterClaim(st, c));
      }
    case OnConnect(c, id, all) =>
    case OnDisconnect(c) =>
  }

  // ---------- Token returns seen from outside ----------

  // What identifies a frame in a message to a client.
  datatype Tag = Tag(address: Address, frameId: int)

  function TagOf(f: Frame): Tag {
    Tag(f.metadata.address, f.metadata.frameId)
  }

  function Tags(s: seq<Frame>): (r: seq<Tag>)
    ensures |r| == |s|
    ensures forall i :: 0 <= i < |s| ==> r[i] == TagOf(s[i])
  {
    seq(|s|, i requires 0 <= i < |s| => TagOf(s[i]))
  }

  function TokenReturn(e: Effect, pid: ProducerId): seq<Tag> {
    if e.Send? && e.returnToken && e.producerId == pid then [Tag(e.address, e.result.frameId)] else []
  }

  // The token returns for one producer among a handler's effects.
  function TokenReturns(effects: seq<Effect>, pid: ProducerId): seq<Tag> {
    if effects == [] then [] else TokenReturn(effects[0], pid) + TokenReturns(effects[1..], pid)
  }

  // All token returns for one producer sent to clients during a run, in order.
  ghost function RunTokenReturns(st: State, steps: seq<Step>, pid: ProducerId): seq<Tag>
    decreases |steps|
  {
    if steps == [] then []
    else
      var before := steps[..|steps| - 1];
      RunTokenReturns(st, before, pid) + TokenReturns(Effects(Exec(st, before), steps[|steps| - 1]), pid)
  }

  function ReturnedOf(st: State, pid: ProducerId): seq<Frame> {
    if pid in st.producers then st.producers[pid].returned else []
  }

  lemma {:induction false} TokenReturnsAppend(a: seq<Effect>, b: seq<Effect>, pid: ProducerId)
    ensures TokenReturns(a + b, pid) == TokenReturns(a, pid) + TokenReturns(b, pid)
  {
    hide TokenReturn;
    if a == [] {
      assert a + b == b;
    } else {
      assert (a + b)[0] == a[0] && (a + b)[1..] == a[1..] + b;
      TokenReturnsAppend(a[1..], b, pid);
      var x, y, z := TokenReturn(a[0], pid), TokenReturns(a[1..], pid), TokenReturns(b, pid);
      assert x + (y + z) == (x + y) + z;
    }
  }

  lemma TagsAppend(a: seq<Frame>, b: seq<Frame>)
    ensures Tags(a + b) == Tags(a) + Tags(b)
  {
  }

  // A claim returns the in-flight frame, and the notice sent names exactly that frame.
  lemma ClaimReturns(st: State, c: Context, pid: ProducerId)
    requires Inv(st) && Answers(st, c)
    ensures var md := st.workers[c].current.value;
      Tags(ReturnedOf(st.(producers := AfterClaim(st, c)), pid)) ==
      Tags(ReturnedOf(st, pid)) +
      if Claims(st, c) && md.producerId == pid then [Tag(md.address, md.frameId)] else []
  {
    hide Inv;
    if Claims(st, c) && st.workers[c].current.value.producerId == pid {
      TagsAppend(st.producers[pid].returned, InFlight(st.producers[pid]));
    }
  }

  lemma SendNextReturned(w: Worker, ps: Producers, pid: ProducerId)
    requires pid in ps
    ensures pid in SendNextProducers(w, ps) && SendNextProducers(w, ps)[pid].returned == ps[pid].returned
    ensures SendNextProducers(w, ps)[pid].displaced == ps[pid].displaced
    ensures SendNextProducers(w, ps)[pid].accepted == ps[pid].accepted
  {
    var _, _ := SendNextCases(w, ps);
  }

  lemma DisconnectReturns(st: State, c: Context, pid: ProducerId)
    requires Inv(st)
    ensures Tags(ReturnedOf(Disconnect(st, c), pid)) ==
            Tags(ReturnedOf(st, pid)) + TokenReturns(DisconnectEffects(st, c), pid)
  {
    hide Inv;
    if c in st.workers {
      var announce := [Announce(st.engineIds - {st.workers[c].engineId})];
      assert TokenReturns(announce, pid) == [];
      if Answers(st, c) {
        ClaimReturns(st, c, pid);
        assert ReturnedOf(Disconnect(st, c), pid) == ReturnedOf(st.(producers := AfterClaim(st, c)), pid);
        if HoldsLatest(st, c) && (Claims(st, c) || st.workers[c].allResponses) {
          var notice := DisconnectEffects(st, c)[..1];
          assert DisconnectEffects(st, c) == notice + announce;
          TokenReturnsAppend(notice, announce, pid);
          assert notice[1..] == [];
        } else {
          assert DisconnectEffects(st, c) == announce;
        }
      } else {
        assert DisconnectEffects(st, c) == announce;
      }
    }
  }

  lemma ResultReturns(st: State, c: Context, r: Result, pid: ProducerId)
    requires Inv(st)
    ensures Tags(ReturnedOf(EngineResult(st, c), pid)) ==
            Tags(ReturnedOf(st, pid)) + TokenReturns(EngineResultEffects(st, c, r), pid)
  {
    hide Inv, FirstReady;
    if Answers(st, c) {
      ClaimReturns(st, c, pid);
      var ps := AfterClaim(st, c);
      var effects := EngineResultEffects(st, c, r);
      if pid in ps {
        SendNextReturned(Logged(st, c), ps, pid);
      } else {
        var _, q := SendNextCases(Logged(st, c), ps);
      }
      assert ReturnedOf(EngineResult(st, c), pid) == ReturnedOf(st.(producers := ps), pid);
      if effects != [] {
        assert effects[1..] == [];
      }
    }
  }

  lemma ConnectReturns(st: State, c: Context, id: EngineId, all: bool, pid: ProducerId)
    requires Inv(st)
    ensures Tags(ReturnedOf(Connect(st, c, id, all), pid)) ==
            Tags(ReturnedOf(st, pid)) + TokenReturns(ConnectEffects(st, id), pid)
  {
    hide Inv, Disconnect, DisconnectEffects, Incumbent;
    var incumbent := Incumbent(st, id);
    var announce := [Announce(Evict(st, id).engineIds + {id})];
    assert TokenReturns(announce, pid) == [];
    if incumbent.Some? {
      DisconnectReturns(st, incumbent.value, pid);
      TokenReturnsAppend(DisconnectEffects(st, incumbent.value), announce, pid);
    } else {
      assert ConnectEffects(st, id) == announce;
    }
  }

  lemma StepReturns(st: State, step: Step, pid: ProducerId)
    requires Inv(st)
    ensures Tags(ReturnedOf(Next(st, step), pid)) ==
            Tags(ReturnedOf(st, pid)) + TokenReturns(Effects(st, step), pid)
  {
    hide Inv, EngineResult, EngineResultEffects, Disconnect, DisconnectEffects, Connect, ConnectEffects;
    match step
    case OnInput(f) => assert ReturnedOf(ClientInput(st, f), pid) == ReturnedOf(st, pid);
    case OnResult(c, r) => ResultReturns(st, c, r, pid);
    case OnDisconnect(c) => DisconnectReturns(st, c, pid);
    case OnConnect(c, id, all) => ConnectReturns(st, c, id, all, pid);
  }

  // The token returns sent to clients over a run are exactly the frames the ledger counts as
  // returned, in the same order.
  lemma {:induction false} ReturnsMatchLedger(capacity: nat, steps: seq<Step>, pid: ProducerId)
    requires LegalRun(Init(capacity), steps)
    ensures RunTokenReturns(Init(capacity), steps, pid) == Tags(ReturnedOf(Exec(Init(capacity), steps), pid))
    decreases |steps|
  {
    if steps != [] {
      var before := steps[..|steps| - 1];
      ReturnsMatchLedger(capacity, before, pid);
      ReachableOk(capacity, before);
      StepReturns(Exec(Init(capacity), before), steps[|steps| - 1], pid);
    }
  }

  lemma CountsTwice(s: seq<Frame>, i: nat, j: nat)
    requires i < j < |s| && s[i] == s[j]
    ensures multiset(s)[s[i]] >= 2
  {
    assert s == s[..j] + s[j..];
    assert s[i] in s[..j] && s[i] in s[j..];
  }

  lemma TagsDiffer(p: Producer, pid: ProducerId, i: nat, j: nat)
    requires ProducerOk(pid, p) && i < j < |p.returned|
    ensures TagOf(p.returned[i]) != TagOf(p.returned[j])
  {
    var f, g := p.returned[i], p.returned[j];
    assert f in multiset(p.accepted) && g in multiset(p.accepted) by {
      assert f in multiset(p.returned) && g in multiset(p.returned);
    }
    var a :| 0 <= a < |p.accepted| && p.accepted[a] == f;
    var b :| 0 <= b < |p.accepted| && p.accepted[b] == g;
    if f == g {
      AcceptedOnce(p.accepted, f);
      CountsTwice(p.returned, i, j);
      assert false;
    }
  }

  // No frame's token goes back to its client twice, whoever answers or disconnects, and only
  // accepted frames' tokens go back.
  lemma NoTokenReturnedTwice(capacity: nat, steps: seq<Step>, pid: ProducerId)
    requires LegalRun(Init(capacity), steps)
    ensures NoDup(RunTokenReturns(Init(capacity), steps, pid))
    ensures forall t :: t in RunTokenReturns(Init(capacity), steps, pid) ==>
      pid in Exec(Init(capacity), steps).producers &&
      exists f :: f in Exec(Init(capacity), steps).producers[pid].accepted && TagOf(f) == t
  {
    hide RunTokenReturns;
    ReturnsMatchLedger(capacity, steps, pid);
    ReachableOk(capacity, steps);
    var st := Exec(Init(capacity), steps);
    var tags := RunTokenReturns(Init(capacity), steps, pid);
    if pid in st.producers {
      var p := st.producers[pid];
      assert ProducerOk(pid, p);
      forall i, j | 0 <= i < j < |tags|
        ensures tags[i] != tags[j]
      {
        TagsDiffer(p, pid, i, j);
      }
      forall t | t in tags
        ensures exists f :: f in p.accepted && TagOf(f) == t
      {
        var i :| 0 <= i < |tags| && tags[i] == t;
        var f := p.returned[i];
        assert f in multiset(p.returned) && f in multiset(p.accepted);
        assert f in p.accepted && TagOf(f) == t;
      }
    }
  }

  // ---------- Nobody waits for an idle engine ----------

  // A frame that is neither queued nor in the hands of any connected engine has had its token
  // returned, unless it was displaced.
  lemma AnsweredMeansReturned(capacity: nat, steps: seq<Step>, pid: ProducerId, f: Frame)
    requires LegalRun(Init(capacity), steps)
    requires var st := Exec(Init(capacity), steps);
      && pid in st.producers && f in st.producers[pid].accepted && f !in st.producers[pid].queue
      && forall c :: c in st.workers ==> st.workers[c].current != Some(f.metadata)
    ensures var p := Exec(Init(capacity), steps).producers[pid];
      f in p.returned || f in p.displaced
  {
    ReachableOk(capacity, steps);
    var st := Exec(Init(capacity), steps);
    var p := st.producers[pid];
    assert ProducerOk(pid, p);
    if p.pending && p.latest == Some(f) {
      var c := Holder(st, pid);
      assert false;
    }
    assert multiset(p.accepted)[f] > 0;
  }

  // While a token is pending, some connected engine is working on exactly that frame, and it
  // will find that producer in its rotation.
  lemma PendingIsHeld(capacity: nat, steps: seq<Step>, pid: ProducerId)
    requires LegalRun(Init(capacity), steps)
    requires var st := Exec(Init(capacity), steps); pid in st.producers && st.producers[pid].pending
    ensures var st := Exec(Init(capacity), steps);
      exists c :: c in st.workers && st.producers[pid].latest.Some?
        && st.workers[c].current == Some(st.producers[pid].latest.value.metadata)
        && pid in st.workers[c].rotation
  {
    ReachableOk(capacity, steps);
    var st := Exec(Init(capacity), steps);
    var c := Holder(st, pid);
    assert WorkerOk(st.workers[c]);
  }

  // ---------- What engines are sent ----------

  // No engine is ever sent the same frame twice, and it has answered everything it was sent
  // except the frame it is recorded as working on.
  lemma NeverSentTwice(capacity: nat, steps: seq<Step>, c: Context)
    requires LegalRun(Init(capacity), steps) && c in Exec(Init(capacity), steps).workers
    ensures var w := Exec(Init(capacity), steps).workers[c];
      NoDup(w.sent) && OneOutstanding(w)
  {
    ReachableOk(capacity, steps);
    assert WorkerOk(Exec(Init(capacity), steps).workers[c]);
  }
}
