# Gabriel flow control and scheduling, verified

Gabriel connects clients that stream frames with cognitive engines that process
them. A client may have a fixed number of frames under way for each of its
producers; it pays a token for every frame it sends and gets the token back when
the first targeted engine answers. This project models that protocol in Dafny
and proves what it guarantees: the server's frame scheduler, the token accounts
on both ends of the wire, the matching of results to frames, and the local
single-engine server.

## How it is built

- `Protocol`, `Scheduler`, `Sessions`: the vocabulary, and what each handler of
  the server does, as functions over values. Histories (accepted, returned,
  displaced, sent, completed, claimed, forwarded) record what happened; no step
  reads them.
- `ServerRunner`, `Server`, `Client`, `EngineRunner`, `LocalServer`: the same
  operations as classes that update their fields in place, each method proved
  against those functions.
- `Invariant`, `Guarantees`, `Displacement`, `Targeting`, `Stranding`, `Draining`,
  `StableStream`, `RoundRobin`, `Forwarding`: what holds in every run of the scheduler, with any
  number of producers, engines, retargetings, takeovers and disconnects.
- `Fifo`, `SingleEngine`: the one-engine case against a plain FIFO, which the
  local server meets as well.
- `Accounts`, `Replies`, `Deployment`, `Conservation`, `Correlation`,
  `WorldInvariant`, `Provenance`, `Outcomes`, `EndToEnd`: server, clients, engines and every message in transit as one
  machine, and what holds in every run of it.

## Assumptions

- Each handler is one atomic step; steps interleave in every possible way.
- Channels are reliable and FIFO. A session or an engine stream may end at any
  point.
- A session id is never reused (it is a fresh UUID), and an engine stream is a
  new stream. Within one session a producer numbers its frames upwards. For
  clients that follow the client library this is proved; of other sessions it is
  the only thing assumed, they may otherwise send anything at any time.
- The handler's return value, the consumer callback's failure, what a producer
  produces, its targets, and all timing are arbitrary: they are parameters of
  the steps.

## Where code and documentation differ

The model follows the code.

- `README.md` lines 52-75 and `design/README.md` lines 33-61 promise that a
  frame's token comes back when the first targeted engine finishes it. A direct
  dispatch to an idle engine overwrites the in-flight slot even while a token is
  pending, and the overwritten (displaced) frame's token is then never returned.
  `Displacement` shows a run, the exact guard, and when it cannot happen;
  `EndToEnd.TokensComeHome` and `EndToEnd.AllHomeExactlyWhen` give the exact
  consequence for the client.
- Queued frames are served only when a busy engine that knows the producer
  answers. Removing an engine can leave a queue without one, and the queue then
  stays as it is until particular inputs arrive. `Stranding` shows a run, the exact
  condition on removals, and exactly which inputs end it.
- `server/README.md` lines 19-22 say that a result without payload returns the
  token without a result. A SUCCESS result without payload is treated as
  malformed: an error result is sent and the network engine's session ends.
- A producer is meant to be removed from engines it no longer targets
  (`server/src/gabriel_server/network_engine/server_runner.py` lines 786-797). The lookup uses a
  worker as key in a map keyed by stream, so it finds nothing and rotations only
  grow. An engine looking for work checks no targets, so it can be sent frames that
  name other engines, and can return their tokens; yet `README.md` lines 43-45 say
  that the client decides which engines see a frame. `Targeting` shows a run, the
  exact guard, what rotations hold, and that it cannot happen while producers keep
  their targets.

## Model

| member | source | states |
|---|---|---|
| EndToEnd.TokenConservation | python-client/src/gabriel_client/grpc_client.py:329-414 | In every run, for every conforming client with an open session and each of its producers: tokens in the pool + token held by the loop + inputs in transit + frames accepted but unreturned at the server + token-returning messages in transit == the allowance; no term is negative |
| EndToEnd.ServerCountExact | server/src/gabriel_server/gabriel_server.py:168-183 | In every run, for every open session (conforming or not) and producer, the server's token count is the allowance minus the accepted-but-unreturned frames, which lie between 0 and the allowance |
| EndToEnd.ConformingClientUntroubled | python-client/src/gabriel_client/gabriel_client.py:205-223 | In every run the server never tells a conforming client NO_TOKENS or that it must register first (an engine's own status codes are passed on as they are), no pool is released above its bound, and no token comes back for a producer it does not know |
| EndToEnd.QueueWithinAllowance | server/src/gabriel_server/gabriel_server.py:249-264 | In every run, no session, open or closed, has more frames of one producer queued than the allowance |
| EndToEnd.RoomForAll | server/src/gabriel_server/network_engine/server_runner.py:816-842 | If the queue has room for the allowance beside the frames other sessions have queued for the producer, an input of the session is not answered SERVER_DROPPED_FRAME, whoever the client is |
| EndToEnd.NeverDropped | server/src/gabriel_server/network_engine/server_runner.py:816-842 | In every run, if all accepted frames of a producer id came from one session and the queue capacity is at least the allowance, that session was never sent SERVER_DROPPED_FRAME for it |
| EndToEnd.ResultsMatchFrames | server/src/gabriel_server/network_engine/server_runner.py:412-455 | In every run, every handler's result in a client's stream was computed from the payload and client info of an accepted frame of that session, producer and frame id, and only one accepted frame has these |
| EndToEnd.OneFrameAtATime | server/src/gabriel_server/network_engine/engine_runner.py:190-236 | In every run, results in transit, the handler, the runner's queue and frames in transit hold together exactly the last frame sent while the server records a current input for the engine, and nothing otherwise |
| EndToEnd.ViewCatchesUp | python-client/src/gabriel_client/grpc_client.py:260-288 | In every run, applying the messages in transit in order to an acknowledged client's engine ids yields the server's set, which is exactly the ids of the connected workers, no id shared by two |
| EndToEnd.TokensComeHome | python-client/src/gabriel_client/grpc_client.py:329-331 | In every run, a producer with nothing under way has the allowance minus its displaced frames in its pool; it has all its tokens if and only if none of its frames was displaced |
| EndToEnd.AllHomeExactlyWhen | server/src/gabriel_server/network_engine/server_runner.py:808-829 | In every run, a producer with nothing under way misses exactly one token per input that found an idle target while the token of one of the session's frames was pending: all tokens are back if and only if no input came under that guard, also when sessions share the producer id |
| EndToEnd.IdleMeansAtRest | server/src/gabriel_server/network_engine/server_runner.py:647-686 | In every run without engine removal, idle engines and empty wires are enough for nothing to be under way |
| EndToEnd.OneEngineReturnsAll | server/src/gabriel_server/network_engine/server_runner.py:844-857 | In every run with at most one engine connected at a time, a producer with nothing under way has all its tokens |
| EndToEnd.RunsProject | server/src/gabriel_server/network_engine/server_runner.py:392-567 | Every run of a deployment is a legal run of the scheduler, so what is proved of scheduler runs holds in deployments |
| Provenance.AcceptedAsSent | server/src/gabriel_server/network_engine/server_runner.py:746-754 | In every run, every frame accepted from a conforming client was sent by the producer it names in an action of the run: same payload, same targets (all known to be connected then), numbered by its attempts from 1, with the client info the session was opened with |
| Provenance.ThereAndBack | server/src/gabriel_server/network_engine/engine_runner.py:216-236 | In every run, the job behind a handler's result in a conforming client's stream is the payload its producer sent under the result's number and the client info its session was opened with, and status and payload are those a handler returned for that job on an engine of the id the result names |
| Provenance.ResultsAsReturned | server/src/gabriel_server/network_engine/engine_runner.py:262-329 | In every run and every session's stream, a handler's result has status and payload of a value returned for its job by an engine connected under the id it names |
| Provenance.NumberedFromOne | python-client/src/gabriel_client/grpc_client.py:360-388 | In every run a producer's next frame number is one more than its attempts to send in this session, failed ones included |
| Outcomes.ConsumeExactly | python-client/src/gabriel_client/grpc_client.py:245-335 | What each message does to any client: exactly when it ends the session and with which exception, and otherwise the token, allowance or engine ids it changes |
| Outcomes.ConsumeOutcome | python-client/src/gabriel_client/grpc_client.py:294-331 | In every run, dealing with a message ends a conforming client's session exactly when it is NO_ENGINE_FOR_INPUT or a success its consumer fails on |
| Outcomes.NoEngineEndsSession | python-client/src/gabriel_client/grpc_client.py:313-315 | In every run, no client has got past a NO_ENGINE_FOR_INPUT reply, and one that gave up for lack of an engine is at such a reply |
| Outcomes.SendOutcome | python-client/src/gabriel_client/grpc_client.py:390-405 | Sending ends the session exactly when a target is not among the known engines; otherwise the frame goes on the wire with its token |
| Outcomes.JobOutcome | server/src/gabriel_server/network_engine/engine_runner.py:216-236 | A job's value ends the engine's session exactly when it is not a result with a status and, on success, text, bytes or a message; one result is written either way |
| Replies.ReplyExactly | server/src/gabriel_server/grpc_server.py:274-301 | An input is answered at once exactly when it does not get through: by one message with its producer, its number and its token, and the code for the reason, each code exactly in its case |
| Replies.VerdictExactly | server/src/gabriel_server/gabriel_server.py:240-264 | Each status of an input exactly in its case: unregistered, no token, no connected engine named, all named engines busy and the queue full, or success |
| Replies.EntersExactly | server/src/gabriel_server/network_engine/server_runner.py:746-754 | An input enters its producer's ledger exactly when it gets through, with its payload, targets and number as sent and the session's registered client info; nothing else enters any ledger |
| Replies.AcknowledgedExactly | server/src/gabriel_server/gabriel_server.py:266-273 | A registration stores the given client info and is answered with the allowance and the connected engines' ids |
| Replies.ResultHeard | server/src/gabriel_server/network_engine/server_runner.py:412-469 | Which session hears of an engine's result, with which number, token, status and payload; all others hear nothing |
| Replies.LossHeard | server/src/gabriel_server/network_engine/server_runner.py:508-547 | Which session is told of a lost engine, with which number, token and engine id; all are told the remaining ids |
| Replies.ArrivalHeard | server/src/gabriel_server/network_engine/server_runner.py:483-493 | An engine under a new id is announced to every session with the new set of ids |
| Replies.TakeoverHeard | server/src/gabriel_server/network_engine/server_runner.py:474-493 | A takeover of an id tells sessions of the loss of the engine that had it, then announces the ids without and with it, in this order |
| WorldInvariant.WorldReachable | server/src/gabriel_server/grpc_server.py:200-301 | The deployment invariant (server accounts, clients, engine pipelines, origin of messages) holds after every sequence of actions |
| WorldInvariant.ActKeeps | python-client/src/gabriel_client/grpc_client.py:245-414 | Every action of a client, the server, another session or an engine keeps the deployment invariant |
| WorldInvariant.InputIsAdmitted | server/src/gabriel_server/gabriel_server.py:240-264 | An input on a conforming client's wire finds its session registered and its account with a token |
| WorldInvariant.EngineMailOk | server/src/gabriel_server/network_engine/server_runner.py:412-455 | A result the server forwards is stamped and addressed with the frame its handler was given, and the server's own notices are not complaints |
| WorldInvariant.EffectCases | server/src/gabriel_server/network_engine/server_runner.py:392-547 | An engine handler sends nothing but announcements, the stamped result, or a lost-engine notice |
| Conservation.UploadLegal | python-client/src/gabriel_client/grpc_client.py:360-388 | What a conforming client has on the wire is numbered above everything accepted from it, as the scheduler relies on |
| Conservation.UploadKeeps | server/src/gabriel_server/grpc_server.py:251-301 | Reading an input moves its token from the wire to the server's debt or to an error reply, and leaves the client's books in order |
| Conservation.BystanderKeeps | server/src/gabriel_server/gabriel_server.py:143-183 | No other step of the server, by any session or engine, disturbs a client's books |
| Conservation.TokenFindsRoom | python-client/src/gabriel_client/gabriel_client.py:212-215 | A token on its way back finds its producer's pool below its bound |
| Conservation.ConsumeKeeps | python-client/src/gabriel_client/grpc_client.py:245-335 | Dealing with a message of the control stream keeps tokens, numbering and engine view in step with the server |
| Conservation.AcquireKeeps | python-client/src/gabriel_client/gabriel_client.py:217-223 | Taking a token moves it from the pool to the loop: the producer's total and the pool's bound stay as they were |
| Conservation.SendKeeps | python-client/src/gabriel_client/grpc_client.py:373-414 | Sending or failing the target check neither makes nor loses a token |
| Conservation.AbandonKeeps | python-client/src/gabriel_client/grpc_client.py:375-383 | Giving up an empty frame returns its token without over-releasing the pool |
| Accounts.TokensMove | server/src/gabriel_server/grpc_server.py:270-301 | For every step of the server and every session open throughout: frames owed afterwards + tokens sent == frames owed before + 1 if an input of that producer was read; the stream only grows and registration is never undone |
| Accounts.ServerKeeps | server/src/gabriel_server/gabriel_server.py:224-285 | Every server step keeps exact, non-negative accounts for every session, acknowledgements only for registered sessions, and up-to-date engine announcements |
| Accounts.OpenKeeps | server/src/gabriel_server/grpc_server.py:228-232 | A session opened under a new id starts with exact accounts, nothing owed to it and nothing sent, and disturbs no other session's |
| Accounts.QuietStep | server/src/gabriel_server/grpc_server.py:234-239 | Opening or closing a session leaves every other session's stream, registration and frames owed as they were |
| WorldInvariant.NewClientOk | python-client/src/gabriel_client/grpc_client.py:189-211 | A client that opens a session starts in step with the server: no token missing, no frame numbered, no engine known |
| Accounts.StepUnreturned | server/src/gabriel_server/network_engine/server_runner.py:392-567 | Each scheduler step changes the frames owed to a session by what it admits minus the tokens it sends back |
| Accounts.UnreturnedAre | server/src/gabriel_server/network_engine/server_runner.py:831-857 | Frames owed are those queued, in flight or displaced |
| Accounts.MailDelivered | server/src/gabriel_server/gabriel_server.py:163-183 | Applying a handler's effects appends exactly that session's messages and credits exactly the returned tokens |
| Accounts.ViewKeptUp | server/src/gabriel_server/gabriel_server.py:216-222 | After any engine step, a client that was up to date and reads what it is sent is up to date |
| Accounts.LedgerGrows | server/src/gabriel_server/grpc_server.py:274-282 | A producer's accepted frames grow by exactly the inputs admitted and accepted, whatever the step |
| Correlation.ResultBelongs | server/src/gabriel_server/network_engine/server_runner.py:412-416 | The result at the head of an engine's stream was computed from the last frame sent, which is the one on record and was accepted |
| Correlation.DeliverKeeps | server/src/gabriel_server/network_engine/server_runner.py:414-469 | Reading a result keeps the engine's pipeline equal to the server's record |
| Correlation.ReadKeeps | server/src/gabriel_server/network_engine/engine_runner.py:192-204 | Reading a frame moves it along the pipeline, no frame lost or reordered |
| Correlation.TakeKeeps | server/src/gabriel_server/network_engine/engine_runner.py:216-218 | Taking a job moves it along the pipeline, no frame lost or reordered |
| Correlation.FinishKeeps | server/src/gabriel_server/network_engine/engine_runner.py:219-236 | Writing a result or an error result moves the job along the pipeline, no frame lost or reordered |
| Correlation.OthersSend | server/src/gabriel_server/network_engine/server_runner.py:616-624 | No step except reading its own result marks an engine's frame as answered |
| Forwarding.ForwardedExactly | server/src/gabriel_server/network_engine/server_runner.py:414-469 | Over any run, the results forwarded from an engine are, one each and in order, its answered frames if it registered all_responses_required in the run and otherwise the frames whose token it claimed; without the flag every forwarded result returns a token |
| Forwarding.RegistrationKept | server/src/gabriel_server/network_engine/server_runner.py:485-490 | In every run the server's record of a connected engine has the id and the all_responses_required flag of that stream's registration in the run |
| Invariant.ReachableOk | server/src/gabriel_server/network_engine/server_runner.py:392-857 | The scheduler invariant holds in every state of every legal run: ledger, holder of each pending token, one unanswered frame per engine, exact engine ids |
| Invariant.InputKeeps | server/src/gabriel_server/network_engine/server_runner.py:719-842 | Processing an input keeps the scheduler invariant |
| Invariant.ResultKeeps | server/src/gabriel_server/network_engine/server_runner.py:392-469 | Handling an engine's result keeps the scheduler invariant |
| Invariant.ConnectKeeps | server/src/gabriel_server/network_engine/server_runner.py:471-493 | Connecting an engine, also one that takes over an id, keeps the scheduler invariant |
| Invariant.DisconnectKeeps | server/src/gabriel_server/network_engine/server_runner.py:495-547 | Removing an engine, idle or mid-frame, keeps the scheduler invariant |
| Guarantees.LedgerPartition | server/src/gabriel_server/network_engine/server_runner.py:808-857 | In every run each accepted frame is in exactly one of queued, in flight, returned and displaced, once, and no other frame is in any |
| Guarantees.ReturnsMatchLedger | server/src/gabriel_server/network_engine/server_runner.py:439-455 | The token-returning messages sent over a run name exactly the frames the ledger calls returned, in order |
| Guarantees.NoTokenReturnedTwice | server/src/gabriel_server/network_engine/server_runner.py:508-543 | In every run no frame's token is sent back twice, and only accepted frames' tokens are sent back |
| Guarantees.PendingIsHeld | server/src/gabriel_server/network_engine/server_runner.py:654-661 | In every run, while a producer's token is pending, a connected engine is working on exactly its latest frame and has it in its rotation |
| Guarantees.AnsweredMeansReturned | server/src/gabriel_server/network_engine/server_runner.py:439-459 | A frame neither queued nor with any connected engine has had its token returned, unless it was displaced |
| Guarantees.NeverSentTwice | server/src/gabriel_server/network_engine/server_runner.py:616-681 | In every run no engine is sent the same frame twice, and it has answered all it was sent except the recorded one |
| Guarantees.AcceptedGrows | server/src/gabriel_server/network_engine/server_runner.py:803-842 | A step adds to a producer's accepted frames exactly the input it answers SUCCESS |
| Displacement.DisplacedExactlyWhen | server/src/gabriel_server/network_engine/server_runner.py:808-829 | A step displaces the in-flight frame if and only if it is an input of that producer with an idle target while the token is pending |
| Displacement.TokensKeptExactlyWhen | server/src/gabriel_server/network_engine/server_runner.py:808-829 | accepted = returned + queued + in flight over a run if and only if no input came under that guard; in general the difference is the number of such inputs |
| Displacement.DisplacementHappens | server/src/gabriel_server/network_engine/server_runner.py:672-676 | A concrete run with two engines and a producer that retargets loses a token: the answered first frame is displaced |
| Displacement.OneEngineLosesNothing | server/src/gabriel_server/network_engine/server_runner.py:654-678 | With at most one engine connected at a time no frame is ever displaced, whatever engines and producers do |
| Stranding.QueuesAttended | server/src/gabriel_server/network_engine/server_runner.py:647-686 | In every run without engine removal, a non-empty queue has a connected busy engine with that producer in its rotation |
| Stranding.RemovalAttendsExactlyWhen | server/src/gabriel_server/network_engine/server_runner.py:471-547 | A removal, by disconnect or by takeover of an id, leaves every queue attended if and only if each non-empty queue has another busy engine serving it |
| Stranding.AlwaysAttendedExactlyWhen | server/src/gabriel_server/network_engine/server_runner.py:471-547 | Over any run, every queue is attended at every point if and only if every removal happened under that condition |
| Stranding.WokenExactlyWhen | server/src/gabriel_server/network_engine/server_runner.py:626-681 | While no busy engine serves a producer, a step gives it one if and only if it is an input that targets an engine and is the producer's own or finds that engine idle with the producer in its rotation; every other step leaves all of the producer's record as it is |
| Stranding.StrandedUntilWoken | server/src/gabriel_server/network_engine/server_runner.py:626-681 | Over any run, a queue that no busy engine serves stays as it is, its tokens out, for as long as no such input comes |
| Stranding.AbandonedExactlyUntil | server/src/gabriel_server/network_engine/server_runner.py:808-814 | A producer in no connected engine's rotation gets into one exactly by an input of its own that has a target |
| Stranding.AbandonedUntilInput | server/src/gabriel_server/network_engine/server_runner.py:626-681 | Over any run, a producer in no connected engine's rotation keeps its queue and ledger unchanged until it sends again, whatever all others do |
| Stranding.StrandingHappens | server/src/gabriel_server/network_engine/server_runner.py:471-493 | A concrete run in which an engine is replaced ends with a queued frame of a producer that no connected engine knows |
| Stranding.StrandedForGood | server/src/gabriel_server/network_engine/server_runner.py:471-493 | After every continuation of that run without an input of the producer, the frame is still queued and its token out |
| Stranding.RestMeansAllAnswered | server/src/gabriel_server/network_engine/server_runner.py:647-681 | In a run without engine removal, once all engines are idle every queue is empty and every accepted frame is returned or displaced |
| Draining.AnswersRunOut | server/src/gabriel_server/network_engine/server_runner.py:647-681 | A run in which engines only answer is no longer than the work at its start: queued frames times engines, plus in-flight frames to catch up with, plus busy engines |
| Draining.ComesToRest | server/src/gabriel_server/network_engine/server_runner.py:680-681 | From every state there is such a run after which all engines are idle |
| Draining.EveryFrameAnswered | server/src/gabriel_server/network_engine/server_runner.py:647-686 | After any run without removals followed by answers only: the answers are bounded, and once engines are idle every queue is empty and every accepted frame is returned or displaced |
| Targeting.SearchOutcome | server/src/gabriel_server/network_engine/server_runner.py:647-681 | A search gives the oldest queued frame of a producer whose token is not out, or an in-flight frame numbered above the last the engine got from that producer; nothing exactly if no producer in the rotation has either |
| Targeting.MisdirectedExactlyWhen | server/src/gabriel_server/network_engine/server_runner.py:654-678 | A step sends an engine a frame that does not name it if and only if it is an answer of that engine and the frame of the first ready producer (oldest queued if the gate is open, else in flight) does not name it; inputs never do |
| Targeting.OffTargetExactlyWhen | server/src/gabriel_server/network_engine/server_runner.py:654-678 | In every run, a connected engine was sent a frame that does not name it if and only if one of its answers since it connected was of that kind |
| Targeting.RotationExactly | server/src/gabriel_server/network_engine/server_runner.py:786-814 | In every run, an engine serves exactly the producers of which some input named it since it connected: a producer that turns to other engines is never taken out |
| Targeting.SteadyTargetsObeyed | server/src/gabriel_server/network_engine/server_runner.py:647-678 | In every run in which each producer keeps its targets, every frame an engine was sent names it |
| Targeting.MisdirectionHappens | server/src/gabriel_server/network_engine/server_runner.py:663-678 | A concrete run in which an engine is sent a frame that names only another engine, and its answer is the one that returns the token |
| StableStream.StableStreamGuarantees | server/src/gabriel_server/network_engine/server_runner.py:626-681 | One producer of one session with fixed targets it has to itself: while a token is pending every target is busy, a non-empty queue means a pending token, ids ascend from the in-flight frame through the queue, every target is sent ascending ids, and no token is lost |
| StableStream.AnswerSkipsToLatest | server/src/gabriel_server/network_engine/server_runner.py:663-678 | In that regime an answering engine is next sent the newest dispatched frame, newer than the one it finished |
| StableStream.RegimeHolds | server/src/gabriel_server/network_engine/server_runner.py:803-857 | The regime's invariant holds throughout every run that respects it, whatever other producers and engines do |
| RoundRobin.BoundedWaiting | server/src/gabriel_server/network_engine/server_runner.py:647-686 | A producer ready at each of an engine's answers is passed over fewer times than the rotation is long, counting those who join meanwhile; if it is not the one just served, fewer times than it is away from its turn, whoever joins |
| RoundRobin.TurnAfterJoin | server/src/gabriel_server/network_engine/server_runner.py:683-686 | A producer that joins a rotation delays nobody but the one just served |
| RoundRobin.ServedOrCloser | server/src/gabriel_server/network_engine/server_runner.py:647-661 | A search serves a ready producer or brings it strictly closer to its turn |
| RoundRobin.NothingFound | server/src/gabriel_server/network_engine/server_runner.py:680-681 | A search finds nothing if and only if no producer is ready, and then leaves rotation and queues as they were |
| SingleEngine.NetworkRefinesFifo | server/src/gabriel_server/network_engine/server_runner.py:719-857 | With one engine that stays, every scheduler step is a move of the same FIFO line: admit the accepted input at the back, finish the head with one result and one token |
| SingleEngine.AcceptanceOrder | server/src/gabriel_server/network_engine/server_runner.py:844-857 | With one engine that stays, accepted == returned + in flight + queued as sequences: frames finish in acceptance order |
| LocalServer.LocalRefinesFifo | server/src/gabriel_server/local_engine.py:228-258 | Every step of the local server is a move of that FIFO line, and each result handed on is the engine's output for the frame at its head |
| LocalServer.LocalRefinesFifoPerProducer | server/src/gabriel_server/local_engine.py:197-206 | The local server's line seen by one producer meets the specification the network scheduler meets |
| LocalServer.AdmittedExactlyWhen | server/src/gabriel_server/local_engine.py:188-206 | An input is admitted, at the end of the queue, exactly when the queue is unbounded or below its maximum |
| LocalServer.QueueBounded | server/src/gabriel_server/local_engine.py:188-206 | In every run a bounded queue holds at most its maximum |
| LocalServer.DeliveredAsHandled | server/src/gabriel_server/local_engine.py:243-258 | In every run a result handed on has status and payload of the value the handler returned for the remembered input, its number, and was computed from that input's payload and client info |
| LocalServer.WakesOncePerSignal | server/src/gabriel_server/local_engine.py:245-246 | In every run the loop wakes up at most once for each time the pipe was found readable |
| LocalServer.Server.SendToEngine | server/src/gabriel_server/local_engine.py:197-206 | Appends and answers SUCCESS exactly when the queue is unbounded or below its maximum; otherwise answers SERVER_DROPPED_FRAME and leaves the queue |
| LocalServer.Server.FetchInput | server/src/gabriel_server/local_engine.py:231-242 | Takes the head of the queue and writes it to the engine's pipe |
| LocalServer.Server.RunEngine | server/src/gabriel_server/local_engine.py:94-176 | Answers the first frame in the pipe with the result built from the handler's value |
| LocalServer.Server.ReceiveResult | server/src/gabriel_server/local_engine.py:248-258 | Reads the result and addresses it to the remembered input's session and producer, with its token |
| HandlerResults.BuildResultProto | server/src/gabriel_server/network_engine/engine_runner.py:262-329 | The result names the engine and the job and reports the value: its status, on success its text, bytes or message, otherwise an engine error; it ends the session if and only if the value is malformed |
| HandlerResults.PayloadCarried | server/src/gabriel_server/network_engine/engine_runner.py:305-329 | A result carries a text, bytes or message payload if and only if the handler returned exactly that on success |
| HandlerResults.LocalResult | server/src/gabriel_server/local_engine.py:104-176 | The local engine builds the same result, branch by branch, with the frame id copied from the input |
| ServerRunner.ProducerInfo.AddInputToQueue | server/src/gabriel_server/network_engine/server_runner.py:831-842 | Appends a frame to the bounded queue unless it is full |
| ServerRunner.ProducerInfo.GetInputFromQueue | server/src/gabriel_server/network_engine/server_runner.py:844-857 | Pops the oldest frame and makes it the in-flight one, or finds none |
| ServerRunner.ProducerInfo.FindTargets | server/src/gabriel_server/network_engine/server_runner.py:756-762 | The loop collects exactly the workers whose engine id is targeted |
| ServerRunner.ProducerInfo.OfferToTargets | server/src/gabriel_server/network_engine/server_runner.py:808-814 | The loop offers the frame to every target and no other worker, and reports whether all were busy |
| ServerRunner.ProducerInfo.ProcessInputFromClient | server/src/gabriel_server/network_engine/server_runner.py:719-829 | The method's effect on workers and producer and its status are those of the scheduler's input step |
| ServerRunner.EngineWorker.SendPayload | server/src/gabriel_server/network_engine/server_runner.py:616-624 | Records the frame as current and last of its producer and writes it to the stream |
| ServerRunner.EngineWorker.AddProducer | server/src/gabriel_server/network_engine/server_runner.py:683-686 | Appends the producer to the rotation once |
| ServerRunner.EngineWorker.SendNextInput | server/src/gabriel_server/network_engine/server_runner.py:626-681 | The rotate loop serves the first ready producer in rotation order, or clears the current input |
| ServerRunner.ClientServer.SendResult | server/src/gabriel_server/gabriel_server.py:143-183 | Credits a known producer's account when a token goes back, and writes the result to an open session |
| ServerRunner.ClientServer.CheckInput | server/src/gabriel_server/gabriel_server.py:240-259 | Opens the account at first contact and refuses an input exactly when unregistered or without a token |
| ServerRunner.ClientServer.Register | server/src/gabriel_server/gabriel_server.py:235-238 | Stores the given client info and appends an acknowledgement with the allowance and the engine ids |
| ServerRunner.ClientServer.FinishInput | server/src/gabriel_server/grpc_server.py:277-301 | Deducts the token of an accepted input, or appends the status with the input's producer, number and token |
| ServerRunner.ClientServer.EnginesUpdated | server/src/gabriel_server/gabriel_server.py:216-222 | The loop appends the engine ids to the stream of every session |
| Server.Core.HandleFromEngine | server/src/gabriel_server/network_engine/server_runner.py:392-469 | The method is the scheduler's result step, what it sends is that step's effects, and it keeps the invariant |
| Server.Core.RemoveEngineWorker | server/src/gabriel_server/network_engine/server_runner.py:495-547 | The method is the scheduler's disconnect step, what it sends is that step's effects, and it keeps the invariant |
| Server.Core.AddEngineWorker | server/src/gabriel_server/network_engine/server_runner.py:471-493 | The method is the scheduler's connect step with takeover, records the engine's id and flag as registered, sends that step's effects, and keeps the invariant |
| Server.Core.SendToEngine | server/src/gabriel_server/network_engine/server_runner.py:549-567 | The method is the scheduler's input step with its status, creating the producer at first contact, whatever the frame's number; it keeps the invariant if the session numbers its frames upwards |
| Server.Core.HandleFromClient | server/src/gabriel_server/grpc_server.py:270-301 | A message from a client moves sessions and scheduler as specified, whatever its content; it keeps the invariant if the session numbers its frames upwards |
| Client.TokenPool.ReturnToken | python-client/src/gabriel_client/gabriel_client.py:212-215 | Releases the semaphore unless it is at its bound |
| Client.Subset | python-client/src/gabriel_client/grpc_client.py:390-393 | The target check holds exactly when every target is among the known engines |
| Client.ProducerLoop.SendFrame | python-client/src/gabriel_client/grpc_client.py:385-414 | Numbers the frame, and writes it exactly when its targets are connected |
| Client.ClientSession.StartProducer | python-client/src/gabriel_client/grpc_client.py:349-363 | Opens a pool with the acknowledged allowance and numbers frames from 1 |
| Client.ClientSession.GiveUp | python-client/src/gabriel_client/grpc_client.py:376-383 | Returns the token of a frame that is not sent |
| Client.ClientSession.HandleMessage | python-client/src/gabriel_client/grpc_client.py:245-288 | One message of the control stream changes the client as specified |
| Client.ClientSession.HandOver | python-client/src/gabriel_client/grpc_client.py:294-335 | A result is handed to the consumer, ends the session, or returns its token, as specified |
| EngineRunner.EngineLoop.Reader | server/src/gabriel_server/network_engine/engine_runner.py:192-204 | Queues payload and client info of the frame read |
| EngineRunner.EngineLoop.WorkerGet | server/src/gabriel_server/network_engine/engine_runner.py:216-218 | Takes the oldest queued job |
| EngineRunner.EngineLoop.WorkerWrite | server/src/gabriel_server/network_engine/engine_runner.py:219-236 | Writes the result for the job in hand and stops after a malformed value |

## Left out

- gRPC, WebSocket and ZeroMQ sockets, TLS, keepalive and write locks: channels are FIFO logs with a disconnect step.
- Protobuf encoding: messages are datatypes, and serialized content is opaque.
- Interleavings inside a handler at its awaits: handlers are atomic. In particular an input is written to engines, recorded as in flight and deducted from its account in one step.
- ZeroMQ reconnection and `reset_tokens`: it installs an unbounded semaphore while a loop may hold a token, so conservation would need another statement.
- The Go client, the WebSocket and ZeroMQ transports, and the push source: they repeat the token protocol modelled here.
- `InputProducer` start, stop and target updates: they set a flag or a set; the model lets targets change arbitrarily between frames and a loop pause at any point. The targets of one frame are read once.
- The endless loops of the client and engine tasks: each pass between two awaits is a method, and the deployment takes such passes in any order. The engine runner's reconnect loop is a disconnect followed by a new stream.
- The registration task's timer: sending a registration any number of times until it is acknowledged is an action of the deployment, not a method of the client object.
- Result sinks, Prometheus metrics, latency timing, logging and status message texts: no effect on scheduling.
- What `handle()` computes: any return value or a crash at any moment.
- Messages of a session that is already closed on the server: nothing is stated about its client any more, except that its pools are not over-released.
- Fairness and progress in time: runs are finite; bounded waiting and coming to rest are stated in engines' answers.
