# The OCPP-J request engine, verified

This project models the part of the repository that turns "send this request" into at most one
outstanding CALL per peer and hands every outcome to its sender, together with the reply side,
the reconnection back-off and the websocket connection registry. The command
`dafny verify dfyconfig.toml` (Dafny 4.11) verifies the whole project.

## How it is built

- `channel.dfy` is the reference: a FIFO channel with at most one outstanding request
  ("Synchronicity", section 4.1.1 of the OCPP-J 1.6 specification). Conservation, wire order and
  pending-is-head are proved for it once.
- `client_dispatcher.dfy` and `server_dispatcher.dfy` are the two dispatchers as labelled step
  systems over values; both are proved to refine the channel, the server once per client. On top:
  permits, lost wakeups, restart, timers, and the exact conditions under which a pump writes a
  request twice, crashes or waits for itself, each with a run that gets there.
- `server_effects.dfy`: what a server step writes and ends, and what it leaves for the next one.
- `server_progress.dfy`: what the server still manages to do, removals and draining.
- `client_objects.dfy`, `server_objects.dfy` and `queue_and_state.dfy` are the Go structs as
  classes; every method is proved to take exactly one step of its machine.
- `callback_queue.dfy`, `central_system.dfy`, `central_objects.dfy`: callbacks of the OCPP 1.6
  central system and their alignment with the queues.
- `frames.dfy`, `replies.dfy`, `reply_contents.dfy`, `reply_objects.dfy`, `frame_gate.dfy`: parsing,
  creating and answering frames, what is on the wire, and what a frame does to the request engine.
- `backoff.dfy`, `registry.dfy`: the two parts of `ws/websocket.go`. The registry has the read
  and write pumps of every socket and the lock they share.
- `sessions.dfy`: registry and dispatcher together, joined by the connect and disconnect handlers.

## Reading the model

- Steps are atomic: one pump iteration, one SendRequest, one "complete the request and call the
  handler", one disconnect. The client id, a string in Go, is a one-field datatype.
- A channel is its buffered values followed by its parked senders, which Go serves in order. A
  send by another goroutine is therefore always possible; a send by a pump on its own full
  channel never returns. Such steps (`Blocks`), and dereferences of a missing queue head
  (`Crashes`), are excluded from runs and characterised instead.
- Every history entry carries the position of its request among the accepted ones, so nothing
  depends on ids being distinct except the theorems that say so.
- A client dispatcher is modelled from its creation, through any number of sessions; a server
  dispatcher from its Start on, so creating one and starting it are a single initial state.
- Write results, timer expiry, random draws, handler results, payload coding and field
  validation are parameters.

## What turned out differently from the documentation

- DeleteClient does not call the cancel callback for discarded requests (`ocppj/dispatcher.go:356`
  says it does).
- ParseMessage does not clear pending requests (`ocppj/ocppj.go:399` says it does).
- Incoming messages are validated even when validation is disabled (`ocppj/ocppj.go:52-58` says
  they are not).
- The message type is truncated: a frame starting with 2.5 is a CALL (`TypeByRange`).
- Stop on a client keeps the pending slot; a restarted client then refuses every answer
  (`StaleSlotRefusesAnswers`).
- A server pump can crash (`PumpCanCrash`) or stop for good (`PumpCanBlock`), and both pumps can
  write a request twice; with a timeout of zero a second request is enough (`UntimedWritesTwice`).
- A request for a client that reconnects too early can stay queued for good (`EarlyReconnectSleeps`).
- A send in Write can keep the connection lock for good (`WriteCanDeadlock`), and a reconnect that
  overtakes the old disconnect leaves a socket without a queue (`ReconnectLosesQueue`).
- The back-off delay doubles one time less than `ws/websocket.go:37-40` says (`HandleReconnection`).
- Without a registered disconnect handler, and always in OCPP 2.0.1, a returning peer's
  confirmations go to the wrong callbacks (`UndrainedMisdelivers`).

## Model

| member | source | states |
|---|---|---|
| Channel.InvRun | ocppj/dispatcher.go:233-292 | every run of the one-outstanding FIFO channel keeps: accepted == finished followed by queue; a pending request is the head; the write log without adjacent repeats lists the written requests once, in order; a confirmation has its request's type |
| Channel.SurplusIsResends | ocppj/dispatcher.go:233-251 | over every run the writes beyond one per written request are as many as the resends; every request is written at most once iff the run has no resend |
| Channel.HistoryGrows | ocppj/dispatcher.go:276-292 | what was accepted, finished or written is never revised by later operations |
| ClientDispatcher.ClientRefinesChannel | ocppj/dispatcher.go:160-292 | every session of the client dispatcher is a run of the channel, hence conserves requests, keeps pending at the head and writes in order, double writes included |
| ClientDispatcher.StepRefines | ocppj/dispatcher.go:173-251 | each step of a session is at most three channel operations, given explicitly |
| ClientDispatcher.SubmitAppendsIffRoom | ocppj/dispatcher.go:160-171 | a request is appended and signalled iff the capacity is zero or the queue is shorter; otherwise nothing changes |
| ClientDispatcher.CapacityKept | ocppj/queue.go:50-58 | in every run, restarts included, a bounded queue never exceeds its capacity |
| ClientDispatcher.StepEffects | ocppj/dispatcher.go:173-251 | per event, in terms of the state before: which pending request is ended and with which outcome, which request is written, and that one whose write fails is ended at once |
| ClientDispatcher.PermitConservation | ocppj/dispatcher.go:173-231 | at least one permit (pump ready, token, pending) always exists; without Resume exactly one, so no pump step ever blocks on the ready channel |
| ClientDispatcher.PermitLedger | ocppj/dispatcher.go:173-292 | over every session: permits == 1 + resumes with nothing pending - tokens that met a ready pump - repeated writes |
| ClientDispatcher.WrittenOnceIff | ocppj/dispatcher.go:173-251 | in every session the writes beyond one per written request are counted by the steps that meet an explicit guard (pending, unpaused, and a token or a signal to a ready pump); no request is written twice iff none does, and without Resume none does |
| ClientDispatcher.BlocksIff | ocppj/dispatcher.go:184-229 | the exact condition, per branch, under which the pump sends on its own full ready channel; it needs two permits |
| ClientDispatcher.SessionNeverCrashes | ocppj/dispatcher.go:198-200 | in no session does the pump dereference the head of an empty queue |
| ClientDispatcher.ResumeCanWriteTwice | ocppj/dispatcher.go:263-274 | a run with one Pause and Resume that meets the guard and writes the same request twice |
| ClientDispatcher.ResumeCanBlockThePump | ocppj/dispatcher.go:241-243 | a run after which a failing write leaves the pump sending on its own full channel |
| ClientDispatcher.NoLostWakeup | ocppj/dispatcher.go:173-274 | with arbitrary pauses and resumes: unpaused, queued and nothing pending implies a buffered token, or a ready pump with a buffered signal |
| ClientDispatcher.PausedWritesNothing | ocppj/dispatcher.go:66-70 | from a paused state no run without Resume writes anything or sets anything pending |
| ClientDispatcher.PauseStopsWriting | ocppj/dispatcher.go:253-261 | after a Pause in any state, in every run until the next Resume, nothing is written and nothing becomes pending |
| ClientDispatcher.ResumeRestartsWriting | ocppj/dispatcher.go:263-274 | after a Resume, with or without a pending request, the dispatcher is unpaused; with none a token is added, and taking it writes the head |
| ClientDispatcher.DrainBound | ocppj/dispatcher.go:173-292 | without new requests, pauses or resumes at most 3*queue + 1 + signals + tokens steps take effect |
| ClientDispatcher.Drains | ocppj/dispatcher.go:173-292 | from every unpaused state of a session a run within that bound empties the queue |
| ClientDispatcher.MaximalDrainEmpties | ocppj/dispatcher.go:173-292 | a draining run that cannot be continued effectively has emptied the queue |
| ClientDispatcher.StopDiscardsAllButTheSlot | ocppj/dispatcher.go:145-150 | the teardown after Stop is the channel's discard if and only if nothing was pending; the slot is kept |
| ClientDispatcher.RestartIsCleanIff | ocppj/dispatcher.go:125-131 | after any session the next one starts with the session invariant and one permit iff nothing was pending and no token was left at the teardown |
| ClientDispatcher.RestartKeeps | ocppj/dispatcher.go:125-131 | a restart keeps slot, tokens and pause, and drops queue and signals |
| ClientDispatcher.StaleSlotRefusesAnswers | ocppj/dispatcher.go:186-210 | from a slot left over by an earlier session, in every run of requests with other ids, the slot stays and no answer of the peer is ever accepted |
| ClientDispatcher.StopWhilePendingGoesStale | ocppj/dispatcher.go:145-150 | stopping with a request pending and starting again reaches such a state, in which an idle timer tick dereferences an empty queue |
| ClientObjects.DefaultClientDispatcher.constructor | ocppj/dispatcher.go:107-131 | a new dispatcher is not running; its first Start makes it the fresh machine state of the runs |
| ClientObjects.DefaultClientDispatcher.SendRequest | ocppj/dispatcher.go:160-171 | takes the Submit step; appends and succeeds iff the queue is unbounded or shorter than its capacity |
| ClientObjects.DefaultClientDispatcher.CompleteRequest | ocppj/dispatcher.go:276-292 | pops the head and frees the slot only for the head's id, and then adds one ready token |
| ClientObjects.DefaultClientDispatcher.DispatchNextRequest | ocppj/dispatcher.go:233-251 | marks the head pending unless something already is, logs the write, completes the request if the write failed |
| ClientObjects.DefaultClientDispatcher.FinishIteration | ocppj/dispatcher.go:214-229 | dispatches iff unpaused, ready and not empty, and then is no longer ready |
| ClientObjects.DefaultClientDispatcher.PumpSignal | ocppj/dispatcher.go:184-192 | takes the OnSignal step |
| ClientObjects.DefaultClientDispatcher.PumpToken | ocppj/dispatcher.go:210-212 | takes the OnToken step |
| ClientObjects.DefaultClientDispatcher.PumpTimer | ocppj/dispatcher.go:193-209 | takes the OnTimer step: a pending request times out |
| ClientObjects.DefaultClientDispatcher.PumpClosed | ocppj/dispatcher.go:186-191 | takes the OnClosed step: the queue is emptied, the slot is not |
| ClientObjects.DefaultClientDispatcher.PauseDispatcher | ocppj/dispatcher.go:253-261 | takes the Pause step and is paused |
| ClientObjects.DefaultClientDispatcher.ResumeDispatcher | ocppj/dispatcher.go:263-274 | takes the Resume step and is unpaused: a token is added iff nothing is pending |
| ClientObjects.DefaultClientDispatcher.StopDispatcher | ocppj/dispatcher.go:145-150 | takes the Stop step |
| ClientObjects.DefaultClientDispatcher.StartDispatcher | ocppj/dispatcher.go:125-131 | takes the Start step: signals are reset, slot and tokens are not |
| ClientObjects.DefaultClientDispatcher.HandleAnswer | ocppj/client.go:286-299 | an answer completes the pending request iff its id is the pending one, and is its confirmation or rejection |
| Queues.FIFOClientQueue.Push | ocppj/queue.go:50-58 | refuses iff full; otherwise appends; never exceeds a positive capacity |
| Queues.FIFOClientQueue.Peek | ocppj/queue.go:60-67 | the first element, if any |
| Queues.FIFOClientQueue.Pop | ocppj/queue.go:69-78 | old contents == popped element followed by new contents |
| Queues.FIFOClientQueue.Init | ocppj/queue.go:44-48 | empties the queue |
| PendingState.ClientState.AddPendingRequest | ocppj/state.go:48-57 | a second add, or an empty id, is ignored |
| PendingState.ClientState.GetPendingRequest | ocppj/state.go:59-66 | finds exactly the pending id, with its request; the empty id is answered with the leftover request iff the slot is free |
| PendingState.ClientState.DeletePendingRequest | ocppj/state.go:68-75 | frees the slot iff it holds that id |
| PendingState.ClientState.ClearPendingRequests | ocppj/state.go:77-81 | frees the slot |
| PendingState.ClientState.HasPendingRequest | ocppj/state.go:83-87 | true iff the slot is taken |
| ServerDispatcher.StepIsolates | ocppj/dispatcher.go:476-571 | a step for one client leaves queue, slot, context and history of every other client unchanged |
| ServerDispatcher.StepRefines | ocppj/dispatcher.go:476-649 | every step, projected on any client, is at most three operations of that client's channel |
| ServerDispatcher.ServerRefinesChannels | ocppj/dispatcher.go:430-649 | every run, projected on any client, is a run of the one-outstanding FIFO channel, with conservation, pending-is-head and wire order |
| ServerDispatcher.SubmitAppendsIffRoom | ocppj/dispatcher.go:457-472 | a request is appended and signalled iff the client is connected and the capacity is zero or its queue is shorter; otherwise nothing changes |
| ServerDispatcher.UnexpectedAnswerIgnored | ocppj/ocppj.go:446-472 | an answer changes the state iff its id is the one pending for that client |
| ServerDispatcher.FinishedNotPending | ocppj/dispatcher.go:627-649 | with distinct ids a finished request is never pending again |
| ServerDispatcher.AnsweredOnce | ocppj/server.go:273-287 | with distinct ids, after an accepted answer no later answer for the same id is accepted in any continuation |
| ServerDispatcher.CrashesIff | ocppj/dispatcher.go:520-569 | the exact condition under which a pump iteration dereferences an empty queue: only on a timeout, with another client's queue carried over |
| ServerDispatcher.PumpCanCrash | ocppj/dispatcher.go:520-583 | a run that reaches that condition |
| ServerDispatcher.BlocksIff | ocppj/dispatcher.go:585-594 | the exact condition, per branch, under which the pump sends on its own full ready channel |
| ServerDispatcher.PumpCanBlock | ocppj/dispatcher.go:586-594 | a run with two failing writes that reaches it |
| ServerDispatcher.WrittenOnceIff | ocppj/dispatcher.go:498-604 | for every run and client the writes beyond one per written request are counted by the steps that meet an explicit guard (pending, and a token, or a signal with an idle context); no request is written twice iff none does |
| ServerDispatcher.TimeoutNeverRewrites | ocppj/dispatcher.go:520-542 | an iteration that handles a timeout never repeats a write |
| ServerDispatcher.PumpCanWriteTwice | ocppj/dispatcher.go:543-569 | a run that meets the guard after a failed write and writes the same request twice |
| ServerDispatcher.UntimedWritesTwice | ocppj/dispatcher.go:596-600 | with a timeout of zero a run in which a second request alone makes the pump write the first one again |
| ServerDispatcher.NoLostWakeup | ocppj/dispatcher.go:476-604 | in all runs where an id reconnects only after its context was released: queued and nothing pending implies a ready token, or a request signal with an idle context |
| ServerDispatcher.TokenDispatches | ocppj/dispatcher.go:543-569 | taking a ready token of a client with queued requests makes its head pending |
| ServerDispatcher.SignalDispatches | ocppj/dispatcher.go:498-519 | taking a request signal that finds the context idle makes the head pending |
| ServerDispatcher.ReconnectKeepsAwakeIff | ocppj/dispatcher.go:498-519 | a reconnect and one request keep the invariant Awake iff the old context was idle or a token was buffered |
| ServerDispatcher.EarlyReconnectSleeps | ocppj/dispatcher.go:436-443 | a run in which a client reconnects too early: its accepted request stays queued with nothing pending, all channels empty and no timer waiting |
| ServerDispatcher.OneTimerPerClient | ocppj/dispatcher.go:606-625 | in every run at most one timer per client is waiting, and it belongs to the client's current context |
| ServerDispatcher.TimerEndsOnce | ocppj/dispatcher.go:606-625 | in every continuation a timer that expired or was cancelled never waits again |
| ServerDispatcher.UntimedRun | ocppj/dispatcher.go:596-600 | with a timeout of zero no timer and no timeout event exists in any run |
| ServerEffects.CapacityKept | ocppj/queue.go:50-58 | in every run no client's bounded queue ever exceeds the capacity |
| ServerEffects.StepEffects | ocppj/dispatcher.go:476-604 | per event, in terms of the state before: which requests of its client are ended and with which outcomes, which one is written, and that one whose write fails is ended at once; other clients see nothing |
| ServerEffects.PumpVariables | ocppj/dispatcher.go:498-569 | what an iteration leaves in clientQueue and rdy for the next one, per branch |
| ServerEffects.RemovedQueueSurvives | ocppj/dispatcher.go:436-443 | a removed queue that the pump still refers to keeps its contents |
| ServerProgress.ReconnectIsOrderlyOnceProcessed | ocppj/dispatcher.go:498-510 | in every run a removed client with an armed context has a signal in the request channel, so a reconnect after the pump has taken it is in order |
| ServerProgress.Drains | ocppj/dispatcher.go:476-649 | from every state of every orderly run, a run with working writes and confirming answers empties any given client's queue, whatever the others have in the channels |
| ServerObjects.DefaultServerDispatcher.constructor | ocppj/dispatcher.go:390-412 | a new dispatcher that was started is the fresh machine state |
| ServerObjects.DefaultServerDispatcher.CreateClient | ocppj/dispatcher.go:430-434 | takes the Connect step: an existing queue is kept |
| ServerObjects.DefaultServerDispatcher.DeleteClient | ocppj/dispatcher.go:436-443 | removes the queue, which survives as an orphan if the pump refers to it, and signals the pump |
| ServerObjects.DefaultServerDispatcher.ClearClientPendingRequest | ocppj/state.go:196-202 | frees the client's slot |
| ServerObjects.DefaultServerDispatcher.OnClientDisconnected | ocppj/server.go:328-336 | takes the Disconnect step: everything queued for that client is discarded |
| ServerObjects.DefaultServerDispatcher.SendRequest | ocppj/dispatcher.go:457-472 | takes the Submit step; appends and succeeds iff the client is known and its queue is unbounded or shorter than the capacity |
| ServerObjects.DefaultServerDispatcher.CompleteRequest | ocppj/dispatcher.go:627-649 | pops the client's head and frees its slot only for the head's id, then adds its ready token |
| ServerObjects.DefaultServerDispatcher.HandleAnswer | ocppj/server.go:273-287 | an answer completes the pending request of that client iff the id is the pending one |
| ServerObjects.DefaultServerDispatcher.TimerExpires | ocppj/dispatcher.go:606-625 | takes the Expire step: the timeout event names the client |
| ServerObjects.DefaultServerDispatcher.CancelContext | ocppj/dispatcher.go:528-531 | cancels an armed context and its timer |
| ServerObjects.DefaultServerDispatcher.DispatchNextRequest | ocppj/dispatcher.go:573-604 | marks the head pending, logs the write, completes it on failure, and returns an armed context iff the write worked and a timeout is set |
| ServerObjects.DefaultServerDispatcher.FinishIteration | ocppj/dispatcher.go:559-569 | the dispatch test on the carried variables, and the context update |
| ServerObjects.DefaultServerDispatcher.TakeRequest | ocppj/dispatcher.go:511-519 | a signal of a known client: ready iff its context is inactive |
| ServerObjects.DefaultServerDispatcher.ForgetClient | ocppj/dispatcher.go:501-510 | a signal of a removed client: its context is cancelled and deleted |
| ServerObjects.DefaultServerDispatcher.TakeTimeout | ocppj/dispatcher.go:520-542 | the timed-out request is completed; rdy and clientQueue stay as they were |
| ServerObjects.DefaultServerDispatcher.TakeReady | ocppj/dispatcher.go:543-556 | the context is cancelled and the client may transmit again |
| ServerObjects.DefaultServerDispatcher.PumpRequest | ocppj/dispatcher.go:498-519 | takes the OnRequest step |
| ServerObjects.DefaultServerDispatcher.PumpTimeout | ocppj/dispatcher.go:520-542 | takes the OnTimeout step |
| ServerObjects.DefaultServerDispatcher.PumpReady | ocppj/dispatcher.go:543-556 | takes the OnReady step |
| Callbacks.RollbackRestoresIff | internal/callbackqueue/callbackqueue.go:24-35 | append and roll back restore the map, absence of the key included, iff the key did not map to an empty list |
| Callbacks.QueueIsFifoPerKey | internal/callbackqueue/callbackqueue.go:20-62 | over all sequences of operations: a plain FIFO per key, refused callbacks leave no trace, no key maps to an empty list |
| Callbacks.CallbackQueue.TryQueue | internal/callbackqueue/callbackqueue.go:20-38 | the callback is stored iff the try succeeded; otherwise the map is unchanged |
| Callbacks.CallbackQueue.Dequeue | internal/callbackqueue/callbackqueue.go:40-62 | returns the oldest callback and removes it, and its key with the last one; the panic is unreachable |
| Callbacks.CallbackQueue.Drain | ocpp1.6/central_system.go:377-380 | the loop returns all waiting callbacks of the peer in order and leaves its key absent |
| CentralSystem.CallbacksAligned | ocpp1.6/central_system.go:375-405 | with a disconnect handler, in every reachable state and for every client: the i-th stored callback is the i-th queued request's; the calls made are one per finished request, in order, with its own outcome; confirmations have the asserted type |
| CentralSystem.ReportsAreOutcomes | ocppj/dispatcher.go:536-541 | the handlers are told exactly the outcomes of the requests a step finishes, in order |
| CentralSystem.UndrainedDisconnectAlignedIff | ocpp2.0.1/csms.go:750-754 | without the drain a disconnect keeps callbacks and queue aligned iff nothing was queued |
| CentralSystem.UndrainedMisdelivers | ocpp2.0.1/csms.go:750-754 | a run in which a confirmation reaches a callback of another type |
| CentralSystem.AnswerTakesOldest | ocpp1.6/central_system.go:542-550 | an answer is given to the oldest stored callback, whatever it was stored for |
| CentralObjects.CentralSystemObject.SendRequestAsync | ocpp1.6/central_system.go:401-404 | the callback is stored iff the dispatcher accepted the request |
| CentralObjects.CentralSystemObject.HandleOutcome | ocpp1.6/central_system.go:542-571 | runs the oldest callback of the peer, if any |
| CentralObjects.CentralSystemObject.OnAnswer | ocpp1.6/central_system.go:542-560 | completes the pending request and runs its callback, as one step |
| CentralObjects.CentralSystemObject.OnChargePointDisconnected | ocpp1.6/central_system.go:375-383 | forgets the peer's requests, then fails every waiting callback once, in order |
| Frames.FormatErrorType | ocppj/ocppj.go:205-214 | FormationViolation exactly for 1.6 and FormatViolation exactly for 2.0.1, both valid codes |
| Frames.ValidCodes | ocppj/ocppj.go:216-223 | the twelve valid codes, spelled out |
| Frames.ProfileFor | ocppj/ocppj.go:354-361 | none iff no profile has the feature; otherwise one that has it |
| Frames.GetProfileForFeature | ocppj/ocppj.go:354-361 | the search loop finds the same profile as ProfileFor |
| Frames.OwnerIsFound | ocppj/ocppj.go:354-361 | that is the first profile that has the feature |
| Frames.ViolationCodeIs | ocppj/ocppj.go:286-306 | the code for violated fields is decided by the first known tag, missing or out of bounds, and is GenericError if none is known |
| Frames.ErrorFromValidation | ocppj/ocppj.go:286-306 | the code is decided by the first known tag, and is GenericError iff there is none |
| Frames.CreationIff | ocppj/ocppj.go:511-572 | with validation on, messages are created exactly for ids of 1 to 36 characters, a supported feature, a clean payload and a known error code; with it off only the feature counts |
| Frames.WireForm | ocppj/ocppj.go:117-184 | the array form of a message: type as an integer, then its fields in the order of the standard, empty details as an empty object |
| Frames.ParseIsSound | ocppj/ocppj.go:400-504 | for every frame: messages carry the frame's id and violate nothing, errors have valid codes and the frame's id or none, answers are accepted only for the pending id |
| Frames.TypeByRange | ocppj/ocppj.go:412-504 | a frame with an id is a CALL iff its first number is in [2, 3), a CALL RESULT iff in [3, 4), a CALL ERROR iff in [4, 5), and otherwise an unsupported type |
| Frames.MalformedIff | ocppj/ocppj.go:400-504 | every frame is decided on the wire: without a readable id it is malformed with the format code and no id; with one it is rejected with that id exactly if it has a flaw, and with the code of that flaw, spelled out for all three types |
| Frames.CallIsAttributed | ocppj/ocppj.go:418-445 | a CALL frame with an id is never ignored and its parse errors carry its id |
| Frames.CallRoundTrip | ocppj/ocppj.go:117-124 | parsing the array form of any validated Call returns it, whatever is pending |
| Frames.CallResultRoundTrip | ocppj/ocppj.go:144-150 | the same for a CallResult whose id is pending |
| Frames.CallErrorRoundTrip | ocppj/ocppj.go:172-184 | the same for a CallError, absent details becoming the empty object |
| Replies.ExactlyOneReply | ocppj/server.go:232-317 | for every CALL frame with an id, any action, payload and handler result, working writes: exactly one reply with that id iff the id has at most 36 characters or validation is off, else none |
| Replies.AtMostOneReply | ocpp1.6/central_system.go:416-451 | with any failing writes: at most two attempts, at most one delivered frame, all for the CALL's id |
| ReplyContents.ReplyFrames | ocpp1.6/central_system.go:416-451 | for every handler result and every pattern of failing writes, the frames written: the encoded confirmation, the handler's own code, InternalError or GenericError, the code in place of a confirmation that cannot be sent, and one GenericError after a failed write |
| ReplyContents.FaultCodes | ocppj/server.go:299-317 | the code of the default error for each kind of fault |
| ReplyContents.CallAnswered | ocppj/server.go:232-290 | for every CALL frame with a usable id: one CALL ERROR with the code of its flaw; NotSupported if its action has no handler; otherwise the reply to what that handler returned for the decoded request |
| ReplyContents.NonCallAnswered | ocppj/server.go:238-262 | any other frame is answered iff it has a usable id and is rejected with it; then by one CALL ERROR with the code of its flaw |
| Replies.AnswerGate | ocppj/ocppj.go:446-500 | a frame completes a request iff one is pending and the frame is a CALL RESULT for its id that decodes as its feature's response without violations, or a CALL ERROR for its id with a known code; the message is what the frame says |
| Replies.OtherIdsIgnored | ocppj/ocppj.go:446-472 | a frame for another id than the pending one completes nothing and, unless a CALL, is not answered |
| Replies.ErrorFramesAreFinal | ocppj/ocppj.go:467-500 | a frame built by CreateCallError with validation on makes no receiver, in no state, send anything |
| Replies.NonCallsCauseErrors | ocppj/client.go:256-279 | any other frame causes at most one frame, and that is such an error frame |
| Replies.BoundedExchange | ocppj/ocppj.go:557-572 | the exchange started by one CALL frame has at most three frames |
| ReplyObjects.Responder.SendErrorFrame | ocppj/server.go:215-230 | logs the attempt and returns the error that SendError prescribes |
| ReplyObjects.Responder.SendResultFrame | ocppj/server.go:189-205 | logs the attempt and returns the error that SendResponse prescribes |
| ReplyObjects.Responder.HandleFailedResponseError | ocppj/server.go:299-317 | one more attempt with the code of the given error |
| ReplyObjects.Responder.SendReply | ocpp1.6/central_system.go:416-451 | appends the attempts of Reply, which for a usable id are the expected frames for that handler result |
| ReplyObjects.Responder.HandleIncomingRequest | ocpp1.6/central_system.go:469-540 | appends the reply to what the handler of the action returned, or one NotSupported if it has none |
| ReplyObjects.Responder.OcppMessageHandler | ocppj/server.go:232-290 | appends exactly the attempts of Handle and completes exactly the pending request |
| FrameGate.FrameGateHolds | ocppj/server.go:265-289 | a frame changes the central system iff it is the awaited CALL RESULT or CALL ERROR in that sense; then the pending request is finished with that verdict, the slot is freed, nothing is accepted or written, and its own callback is removed and called |
| FrameGate.FrameGateIsolates | ocppj/server.go:232-290 | a frame leaves queue, slot, context, history and callbacks of every other peer unchanged |
| Backoff.HandleReconnection | ws/websocket.go:999-1030 | the first delay is minimum + draw; each further one is twice the last plus the next draw while fewer than repeat attempts were made, and the last one again from then on |
| Backoff.ComputedIsWrappedExact | ws/websocket.go:1023-1027 | for all draws the 64-bit computation equals the exact delay wrapped once |
| Backoff.DelayBounds | ws/websocket.go:1001-1027 | for all draws the exact delay lies between 2^(m-1)*min and 2^(m-1)*min + (2^m - 1)*range |
| Backoff.UpperIsReached | ws/websocket.go:1001-1027 | the largest draws reach the upper bound |
| Backoff.LowerIsReached | ws/websocket.go:1001-1027 | draws of zero reach the lower bound |
| Backoff.NeverOverflowsIff | ws/websocket.go:1001-1027 | for every configuration: no draw overflows at level m iff both bounds fit in 64 bits |
| Backoff.DelaysAreBounded | ws/websocket.go:1023-1028 | if a level fits, the delays up to it stay in their bounds, and they are constant from attempt max(repeat, 1) on |
| Backoff.DelaysGrowIff | ws/websocket.go:1001-1028 | for every configuration: whatever is drawn, the first n delays are exact and never decrease iff the level of attempt n fits and the minimum is not negative, or nothing is doubled |
| Backoff.NegativeMinimumShrinks | ws/websocket.go:1023-1027 | a negative minimum with draws of zero makes the second delay shorter than the first |
| Backoff.DefaultDelays | ws/websocket.go:37-49 | with the default configuration, whatever is drawn: no overflow, no decrease, every delay between 10 and 625 seconds, and at least 160 from the fifth on |
| Registry.RegistryIsSafe | ws/websocket.go:431-675 | in every run: each registered id has its own open socket, each socket is cleaned up at most once, no write pump finds its queue closed, and only the send of StopConnection can hit a closed channel, exactly after a cleanup |
| Registry.ExitsCleanUp | ws/websocket.go:606-660 | a write pump leaves its select exactly on a failed write, a failed pong, a close message or a forced close; each is followed by exactly one cleanup, and nothing else cleans up |
| Registry.ChannelsConserve | ws/websocket.go:571-660 | over every run and for each of a socket's four channels: buffered == sent - received |
| Registry.LockFreesIff | ws/websocket.go:452-462 | in every reachable state the connection lock can become free again iff no leaving pump waits for it while senders that hold it wait for that pump; otherwise no socket is ever registered or removed again |
| Registry.WriteCanDeadlock | ws/websocket.go:452-462 | a run with two writers and a lost connection that reaches such a state |
| Registry.CleanupRemovesOwnOnly | ws/websocket.go:664-675 | a cleanup removes its own registration, never that of a newer socket |
| Registry.StopConnectionCanPanic | ws/websocket.go:431-442 | a run in which the socket goes away between look-up and send |
| Registry.WsServer.RegisterSocket | ws/websocket.go:540-554 | refused iff the id is registered; otherwise a fresh socket is |
| Registry.WsServer.WriteTo | ws/websocket.go:452-462 | takes the BeginWrite step: an error iff the id is not registered, otherwise a socket whose queue is open |
| Registry.WsServer.StopConnections | ws/websocket.go:444-450 | takes the BeginSweep step: the loop reaches exactly the registered sockets, all open |
| Registry.WsServer.CleanupConnection | ws/websocket.go:664-670 | takes the CleanUp step |
| Sessions.SyncedIff | ws/websocket.go:549-561 | over every run and for every id: registered sockets have queues and queues have sockets, up to handlers still to be called, iff no disconnect is reported after a newer connect and no connect after its own disconnect |
| Sessions.ReconnectLosesQueue | ws/websocket.go:664-675 | a run in which a reconnect overtakes the old socket's disconnect handler and the registered socket ends without a queue |
| Sessions.UnservedRun | ocppj/dispatcher.go:457-464 | such a socket has every request refused until it is cleaned up |
| Sessions.EarlyLossLeavesQueue | ws/websocket.go:554-561 | a run in which a socket is lost before its connect handler was called and a queue stays behind |

## Left out

- Sub-step interleavings: the separate Peek and Pop in CompleteRequest, the gap between
  completing a request and calling its handler, and the dispatchers' own mutexes. In the registry
  a waiting writer does not hold back new readers of the lock, and one shutdown runs at a time.
- The charge point's callback loop with its two outcome channels and clearCallbacks: the order
  of the two channels is not determined, so alignment there is a different question.
- Stop of the server dispatcher, which only discards all queues, and calls of it before Start.
- ServerObjects.DefaultServerDispatcher.constructor: stands for creation and Start together; the
  flag `running` is true throughout.
- Queue objects as references: queues are values in a map, and a removed queue that the server
  pump still refers to is kept as its contents. The server's pending states are one map.
- Real time: a timer may expire at any moment while it is armed.
- invalidMessageHook: the default, no hook, is modelled; a hook may choose a code that cannot be sent.
- A handler that is not registered for a custom profile: the nil check is modelled by profile
  name only, as in the code, and the call of a missing handler is not.
- Texts of error descriptions are abbreviated, and JSON text is not modelled below its values.
- The 28 OCPP 1.6 message types and all of OCPP 2.0.1 beyond the disconnect handler: a payload
  is its feature name and an opaque value.
- The typed request wrappers, HTTP upgrade, authentication, TLS, ping and pong, logging and
  error channels. Pings are modelled only as values that the write pump answers.
- Back-off with a negative random range, for which the random generator panics, and the waiting
  itself: a delay that is not positive, which a negative minimum gives, makes time.After return at once.
- CentralObjects.CentralSystemObject.OnAnswer: the pump iterations that report timeouts and
  failed writes are proved in CentralSystem on values, not repeated as methods of this class.
