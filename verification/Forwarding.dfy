/**
 Which of an engine's answers reach clients. Over any run, an engine that asked for
 all responses when it registered has every answer forwarded; any other engine has
 exactly those forwarded that returned a token.
 */
module Forwarding {
  import opened Protocol
  import opened Scheduler
  import opened Invariant
  import opened Guarantees

  // A result forwarded to a client, and whether it returned the frame's token.
  datatype Delivery = Delivery(address: Address, producerId: ProducerId, frameId: int, token: bool)

  function DeliveryOf(e: Effect): seq<Delivery> {
    if e.Send? then [Delivery(e.address, e.producerId, e.result.frameId, e.returnToken)] else []
  }

  function Deliveries(effects: seq<Effect>): seq<Delivery> {
    if effects == [] then [] else DeliveryOf(effects[0]) + Deliveries(effects[1..])
  }

  // What handling an answer of engine c makes the server send.
  ghost function Forwards(st: State, step: Step, c: Context): seq<Delivery> {
    if step.OnResult? && step.context == c then Deliveries(Effects(st, step)) else []
  }

  // All results forwarded from engine stream c since it connected.
  ghost function ForwardedSince(st: State, steps: seq<Step>, c: Context): seq<Delivery>
    decreases |steps|
  {
    if steps == [] then []
    else
      var before, step := steps[..|steps| - 1], steps[|steps| - 1];
      if step.OnConnect? && step.context == c then []
      else ForwardedSince(st, before, c) + Forwards(Exec(st, before), step, c)
  }

  predicate Names(d: Delivery, md: Metadata) {
    d.address == md.address && d.producerId == md.producerId && d.frameId == md.frameId
  }

  // The deliveries are for these frames, one each and in order.
  ghost predicate Matches(ds: seq<Delivery>, mds: seq<Metadata>) {
    |ds| == |mds| && forall i :: 0 <= i < |ds| ==> Names(ds[i], mds[i])
  }

  function WithToken(ds: seq<Delivery>): seq<Delivery> {
    if ds == [] then []
    else WithToken(ds[..|ds| - 1]) + if ds[|ds| - 1].token then [ds[|ds| - 1]] else []
  }

  lemma WithTokenSnoc(ds: seq<Delivery>, d: Delivery)
    ensures WithToken(ds + [d]) == WithToken(ds) + if d.token then [d] else []
  {
    assert (ds + [d])[..|ds|] == ds;
  }

  // The worker's own record agrees with what was sent.
  ghost predicate RecordMatches(ds: seq<Delivery>, w: Worker) {
    Matches(ds, w.forwarded) && Matches(WithToken(ds), w.claimed)
  }

  lemma AnswerSends(st: State, c: Context, r: Result)
    requires Answers(st, c)
    ensures var md := st.workers[c].current.value;
      Forwards(st, OnResult(c, r), c) ==
      if Claims(st, c) || st.workers[c].allResponses
      then [Delivery(md.address, md.producerId, md.frameId, Claims(st, c))] else []
  {
    hide Answers, Claims;
    var effects := EngineResultEffects(st, c, r);
    if effects != [] {
      assert effects[1..] == [];
      assert Deliveries(effects) == DeliveryOf(effects[0]) + Deliveries([]);
    }
  }

  lemma AnswerRecords(st: State, c: Context)
    requires Answers(st, c)
    ensures var w, v := st.workers[c], EngineResult(st, c).workers[c];
      var md := w.current.value;
      && v.claimed == w.claimed + (if Claims(st, c) then [md] else [])
      && v.forwarded == w.forwarded + if Claims(st, c) || w.allResponses then [md] else []
  {
    hide Claims, AfterClaim;
    var _, _ := SendNextCases(Logged(st, c), AfterClaim(st, c));
  }

  lemma AnswerForwards(st: State, c: Context, r: Result, ds: seq<Delivery>)
    requires Answers(st, c) && RecordMatches(ds, st.workers[c])
    ensures RecordMatches(ds + Forwards(st, OnResult(c, r), c), EngineResult(st, c).workers[c])
  {
    hide Claims, EngineResult, Forwards;
    AnswerSends(st, c, r);
    AnswerRecords(st, c);
    if Claims(st, c) || st.workers[c].allResponses {
      WithTokenSnoc(ds, Forwards(st, OnResult(c, r), c)[0]);
    } else {
      assert ds + [] == ds;
    }
  }

  lemma OthersRecordNothing(st: State, step: Step, c: Context)
    requires c in st.workers && c in Next(st, step).workers
    requires step.OnResult? && step.context == c ==> !Answers(st, c)
    requires !(step.OnConnect? && step.context == c)
    ensures Next(st, step).workers[c].forwarded == st.workers[c].forwarded
    ensures Next(st, step).workers[c].claimed == st.workers[c].claimed
    ensures Forwards(st, step, c) == []
  {
    hide Incumbent, SendNextWorker, SendNextProducers, AfterLoss, HasTarget, ClientInput;
    if step.OnInput? {
      InputWorkers(st, step.frame);
    }
  }

  lemma NewcomerRecord(st: State, step: Step, c: Context)
    requires c in Next(st, step).workers && (c !in st.workers || (step.OnConnect? && step.context == c))
    ensures step.OnConnect? && step.context == c
    ensures RecordMatches([], Next(st, step).workers[c])
  {
    hide Incumbent, SendNextWorker, SendNextProducers, AfterLoss, HasTarget, HasIdleTarget;
  }

  lemma {:induction false} RecordsMatch(capacity: nat, steps: seq<Step>, c: Context)
    requires c in Exec(Init(capacity), steps).workers
    ensures RecordMatches(ForwardedSince(Init(capacity), steps, c), Exec(Init(capacity), steps).workers[c])
    decreases |steps|
  {
    hide Next, RecordMatches, Forwards;
    var before, step := steps[..|steps| - 1], steps[|steps| - 1];
    var st := Exec(Init(capacity), before);
    if c !in st.workers || (step.OnConnect? && step.context == c) {
      NewcomerRecord(st, step, c);
    } else {
      RecordsMatch(capacity, before, c);
      var ds := ForwardedSince(Init(capacity), before, c);
      if step.OnResult? && step.context == c && Answers(st, c) {
        AnswerForwards(st, c, step.result, ds);
        assert Next(st, step) == EngineResult(st, c) by { Unfold(st, c, step.result); }
      } else {
        OthersRecordNothing(st, step, c);
        assert ds + [] == ds;
        SameRecord(ds, st.workers[c], Next(st, step).workers[c]);
      }
    }
  }

  lemma SameRecord(ds: seq<Delivery>, w: Worker, v: Worker)
    requires RecordMatches(ds, w) && v.forwarded == w.forwarded && v.claimed == w.claimed
    ensures RecordMatches(ds, v)
  {
  }

  lemma {:induction false} AllHaveTokens(ds: seq<Delivery>)
    requires |WithToken(ds)| == |ds|
    ensures forall d :: d in ds ==> d.token
  {
    if ds != [] {
      var init := ds[..|ds| - 1];
      WithTokenShorter(init);
      AllHaveTokens(init);
    }
  }

  lemma {:induction false} WithTokenShorter(ds: seq<Delivery>)
    ensures |WithToken(ds)| <= |ds|
  {
    if ds != [] {
      WithTokenShorter(ds[..|ds| - 1]);
    }
  }

  // ---------- How an engine registered ----------

  datatype Standing = Unregistered | As(engineId: EngineId, allResponses: bool)

  // What the engine stream said of itself when it last connected, read off the run alone.
  function RegisteredAs(steps: seq<Step>, c: Context): Standing {
    if steps == [] then Unregistered
    else
      var step := steps[|steps| - 1];
      if step.OnConnect? && step.context == c then As(step.engineId, step.allResponses)
      else RegisteredAs(steps[..|steps| - 1], c)
  }

  lemma StepKeepsRegistration(st: State, step: Step, c: Context)
    requires c in Next(st, step).workers
    ensures var v := Next(st, step).workers[c];
      if step.OnConnect? && step.context == c then v.engineId == step.engineId && v.allResponses == step.allResponses
      else
        && c in st.workers
        && v.engineId == st.workers[c].engineId && v.allResponses == st.workers[c].allResponses
  {
    hide Incumbent, SendNextWorker, SendNextProducers, AfterLoss, AfterClaim, HasTarget, ClientInput;
    match step
    case OnInput(f) => InputWorkers(st, f);
    case OnResult(d, r) =>
      if Answers(st, d) {
        var _, _ := SendNextCases(Logged(st, d), AfterClaim(st, d));
      }
    case OnConnect(d, id, all) =>
    case OnDisconnect(d) =>
  }

  // In every run the server's record of a connected engine is what the engine registered.
  lemma {:induction false} RegistrationKept(capacity: nat, steps: seq<Step>, c: Context)
    requires c in Exec(Init(capacity), steps).workers
    ensures var w := Exec(Init(capacity), steps).workers[c];
      RegisteredAs(steps, c) == As(w.engineId, w.allResponses)
    decreases |steps|
  {
    hide Next;
    var before, step := steps[..|steps| - 1], steps[|steps| - 1];
    StepKeepsRegistration(Exec(Init(capacity), before), step, c);
    if !(step.OnConnect? && step.context == c) {
      RegistrationKept(capacity, before, c);
    }
  }

  // An engine that registered for all responses has one result forwarded for each frame it has
  // answered, in order. Any other engine has one forwarded for each frame whose token it
  // claimed, in order, and every one of those returns the token.
  lemma ForwardedExactly(capacity: nat, steps: seq<Step>, c: Context)
    requires LegalRun(Init(capacity), steps) && c in Exec(Init(capacity), steps).workers
    ensures var w, ds := Exec(Init(capacity), steps).workers[c], ForwardedSince(Init(capacity), steps, c);
      && RegisteredAs(steps, c).As?
      && Matches(ds, if RegisteredAs(steps, c).allResponses then w.completed else w.claimed)
      && Matches(WithToken(ds), w.claimed)
      && (!RegisteredAs(steps, c).allResponses ==> forall d :: d in ds ==> d.token)
      && w.completed <= Metas(w.sent)
  {
    hide Exec, ForwardedSince;
    ReachableOk(capacity, steps);
    RecordsMatch(capacity, steps, c);
    RegistrationKept(capacity, steps, c);
    var w, ds := Exec(Init(capacity), steps).workers[c], ForwardedSince(Init(capacity), steps, c);
    assert WorkerOk(w);
    if !w.allResponses {
      AllHaveTokens(ds);
    }
  }
}
