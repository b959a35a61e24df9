# HandControl, modelled in Dafny

HandControl lets a phone or desktop client run configured commands on a server, directly or
through a relay. This project models the parts of it where state, concurrency or text
transformation make correctness hard to see from one function at a time, and proves what they
keep over every input, every run and every interleaving. The command for the whole project is
`dafny verify dfyconfig.toml`.

| file | what it models |
|---|---|
| `Sessions.dfy` | the bounded replay buffer, per-stream numbering, attachment slot and rotating resume token of one session |
| `ResumeServer.dfy`, `ResumeDelivery.dfy` | one session shared by its event loop and any number of connections, as a step system: record, broadcast (with lag), subscribe, attach, read the buffer, replay, acknowledge, forward, hang up |
| `ResumeClient.dfy` | the client's cursors over any number of resumes, run against every behaviour of that server |
| `ResumeHistory.dfy` | what the histories add: tokens, the end of the event loop, eviction, and the one frame that can straddle a subscription |
| `ResumeLoss.dfy`, `ResumeFlow.dfy`, `ResumeRecovery.dfy` | which frames a client with a saved state has lost for good, what a running session still delivers, and exactly which frames a resume can still get |
| `ResumeHidden.dfy` | frames that the cursor has reached: when they can still arrive, and when the cursor goes down |
| `ResumeStaying.dfy`, `ResumeLeaving.dfy` | what a running session still brings, for every frame, and so exactly which frames are lost by saving the resume state and dropping the session |
| `ResumeWitnesses.dfy`, `LeavingWitnesses.dfy` | runs that show what the resume protocol does not promise |
| `ResumeEnding.dfy` | how the event loop, the session, refused and dropped connections end; the bounds of the channels |
| `CapabilitySession.dfy`, `ClientObject.dfy` | the client's session object and its two receive loops; the client of the step system takes every message as they do |
| `Rendezvous.dfy` | the relay's tunnel: two kinds of handler, two socket slots, a one-time secret, readiness marks, notifications and timeouts, one step per lock acquisition |
| `TunnelMap.dfy` | how long a tunnel stays in the relay's map, why its handlers end, and who is woken |
| `RendezvousOutcome.dfy` | whether a tunnel can still be paired, decided for every reachable state |
| `Registration.dfy` | the relay's table of registered servers |
| `Templates.dfy`, `Parameters.dfy` | placeholders and repeated replacement; configuration check, client sanitising, server validation and substitution |
| `ParameterRules.dfy` | the rules behind those checks, said outright: what is valid, what passes, what is sent, what is reported |
| `ConfigReload.dfy` | hot reload against capability listings |
| `Pairing.dfy`, `Enrollment.dfy`, `Clients.dfy` | pairing requests and their approval across two stores, enrolment tokens, the client registry |
| `Fingerprints.dfy`, `Backoff.dfy` | printed and pinned fingerprints; the reconnection loop |
| `Basics.dfy` | options, results, byte strings and a few string functions |

Code that updates an object is a class whose methods are proved against functions on values;
those functions are what the run theorems speak about. Code that runs concurrently is a step
system: `Can` says when a step is possible, `Do` what it does, `Exec` runs a list of steps, and
`Reachable` states are those of some run. Clock readings, random identifiers, regular
expression matching and shell escaping are parameters.

## Results that are not what one would hope

Where a promise does not hold of the code, the code is kept as it is, and the model states when
it holds.

- Delivery after a resume is at least once. A frame arrives twice exactly when it was replayed
  and was also broadcast after the subscription (`ResumeDelivery.DeliveryCount`); it happens
  (`ResumeWitnesses.FrameArrivesTwice`).
- A resume whose replay, queued live messages and acknowledgement do not fit the 128 slots of
  the response channel never completes, because the receiver is handed out only afterwards
  (`ResumeDelivery.ResumeCompletesIffItFits`); the replay buffer holds up to 1024 frames, and a
  replay of any length up to that is reachable (`ResumeWitnesses.LongReplayIsReachable`).
- The client's cursor can move backwards. A message lowers it only if it is the live copy of a frame
  that was recorded before the buffer was read and broadcast after the subscription, or, before the
  acknowledgement, a replayed frame that a live one overtook (`ResumeHidden.CursorGoesDownOnlyIf`);
  after the acknowledgement a number is below an earlier one exactly when a later frame of its stream
  was replayed (`ResumeDelivery.NumberGoesDownIff`). Both kinds happen
  (`ResumeWitnesses.CursorMovesBack`, `ResumeWitnesses.CursorMovesBackInReplay`), the first in a
  running session too (`ResumeWitnesses.SessionCursorMovesBack`).
- Saving the resume state and dropping the session can lose frames that staying would deliver. After
  leaving, a frame comes back exactly when the session is still there, the token is current, the answer
  to the resume fits the response channel, and the frame is yet to be broadcast, or is retained and
  after the cursor (`ResumeLeaving.LeavingIff`). A frame is lost by leaving exactly when it is pending or
  on its way and does not come back (`ResumeLeaving.LostByLeavingIff`), and leaving is safe exactly when
  every frame that is pending or on its way comes back (`ResumeLeaving.DisconnectIsSafeIff`). It happens
  with a pending frame (`ResumeWitnesses.HastyDisconnectLosesFrame`), with nothing pending and the cursor
  past the frame (`ResumeWitnesses.FrameLostByLeaving`), and with 128 or more frames that the client has
  yet to read, all of which are lost (`LeavingWitnesses.UnreadFramesLostByLeaving`). The exception is a
  frame that the connection has lost to lag, while the answer is too long: staying may shorten the answer
  and save it, although nothing is pending or on its way (`LeavingWitnesses.LagMakesLeavingUnsafe`).
- A frame below a saved cursor that was never handed out can arrive exactly when it has not been
  broadcast and the client's token is still the current one (`ResumeHidden.HiddenCanStillArriveIff`;
  for every frame, `ResumeRecovery.CanStillArriveIff`).
- The two tunnel handlers can miss each other for good. A tunnel can still be paired exactly when
  neither socket is gone and some handler has yet to look for the pair
  (`RendezvousOutcome.PairsIff`); with both sockets in their slots, that is a handler between
  placing and taking (`RendezvousOutcome.FullSlotsPairIff`). Both can leave their sockets behind
  (`Rendezvous.StrandingIsReachable`, `Rendezvous.StrandedForever`). A timeout between the two locks of
  taking the pair closes the client's socket although both sides are ready
  (`TunnelMap.TimeoutClosesClient`).
- Repeated replacement is not simultaneous substitution when a replacement completes a new
  placeholder (`Templates.CaptureHappens`, `Templates.IterateIsOnePassIff`). A value that contains a
  placeholder is itself expanded when that placeholder comes later (`Templates.ValueIsExpanded`).
- The configuration check looks at neither the values of defaults nor placeholders with a
  hyphen (`Parameters.BadDefaultIsRejected`, `Parameters.HyphenEscapesValidation`; the exact
  conditions are `Parameters.ServerAcceptsSanitised` and `Parameters.SubstitutionSucceedsIff`). A
  parameter with an empty default can be left out as far as the server is concerned, and the client
  refuses it: the default does not survive the protocol (`ParameterRules.ClientAcceptsIff`).
- A client is stored before its pairing request is approved, and stays stored when the approval
  then fails (`Pairing.ApprovalCompletesIff`, `Pairing.OrphanForever`).
- The reconnection delay overflows 64 bits when the configured maximum is 2^63 or more and 64
  attempts in a row fail (`Backoff.Reconnect`, `Backoff.OverflowIff`).

## Model

| member | source | states |
|---|---|---|
| Sessions.NumbersAreGapFree | server/src/sessions/state.rs:175-211 | each stream of a run is numbered 1, 2, 3, ... : a number occurs exactly when it is between 1 and the count of that stream's frames |
| Sessions.BufferIsGapFree | server/src/sessions/state.rs:175-211 | the numbers of a stream that the buffer retains are exactly those from one past the count of its evicted frames up to the count of all, with no gap |
| Sessions.SequenceOrder | server/src/sessions/state.rs:175-211 | along one stream, sequence order is recording order |
| Sessions.RecordExtendsLog | server/src/sessions/state.rs:175-211 | recording refines appending to an unbounded log: the buffer stays the last `capacity` frames of it and the counters stay one past the counts |
| Sessions.NewerAtIsExact | server/src/sessions/state.rs:213-230 | the positions selected after a cursor are exactly the retained frames after it, in increasing order |
| Sessions.OutputsSinceIsLogFilter | server/src/sessions/state.rs:213-230 | `outputs_since` is the production-order filter of the retained suffix of the whole log, which has min(recorded, capacity) frames |
| Sessions.NoCursorIsZero | server/src/sessions/state.rs:213-230 | no cursor and cursor zero give the same answer, the whole buffer |
| Sessions.ReplayIsCompleteIff | server/src/sessions/state.rs:200-230 | the answer misses no frame after cursor c exactly when the evicted part of the log holds at most c frames of that stream |
| Sessions.AttachWithTokenIff | server/src/sessions/manager.rs:225-242 | a token attaches exactly if it is current and the slot is free, a wrong one is reported before a taken slot, and a token that attached is refused from then on |
| Sessions.SessionState.constructor | server/src/sessions/state.rs:88-101 | a new state is empty, numbers from 1, is detached, and represents the empty log |
| Sessions.SessionState.RotateResumeToken | server/src/sessions/state.rs:107-111 | installs and returns the new token, leaving the rest alone |
| Sessions.SessionState.TryAttach | server/src/sessions/state.rs:130-148 | takes the slot if it is free, fails without change if not |
| Sessions.SessionState.TryDetach | server/src/sessions/state.rs:150-159 | frees an occupied slot and returns what was in it, fails without change if it is free |
| Sessions.SessionState.TouchHeartbeat | server/src/sessions/state.rs:165-173 | stamps the attachment, or fails when there is none |
| Sessions.SessionState.RecordOutput | server/src/sessions/state.rs:175-211 | returns the next frame of its stream and appends it to the represented log |
| Sessions.SessionState.PushOutput | server/src/sessions/state.rs:175-211 | the in-place push with eviction of the oldest frame equals the value-level step |
| Sessions.SessionState.OutputsSince | server/src/sessions/state.rs:213-230 | the loop over the buffer returns the filter of the log suffix |
| ResumeServer.LogInvStep | server/src/sessions/manager.rs:351-408 | every step keeps recording and broadcasting in step: frame i is broadcast once, in order, and only the newest may be recorded and not yet broadcast |
| ResumeServer.ConnInvStep | server/src/grpc/server.rs:240-331 | every step keeps each connection's bookkeeping: live positions complete up to the receiver except those lost to lag, replay in order, snapshot exact, acknowledgement behind the whole replay |
| ResumeServer.OwnInvStep | server/src/sessions/manager.rs:207-242 | every step keeps: the slot is occupied exactly when one connection owns it, under that connection's attachment id |
| ResumeServer.TokenInvStep | server/src/sessions/manager.rs:225-242 | every step keeps: spent tokens are recorded with their one connection and are not the current token |
| ResumeServer.RunInv | server/src/grpc/server.rs:240-331 | all of these hold after every run |
| ResumeEnding.ClosedIsLast | server/src/sessions/manager.rs:402-407 | in every reachable state nothing follows a closing event: it is the last one broadcast, the loop has ended, and nothing is under way |
| ResumeEnding.EndingIsFinal | server/src/sessions/manager.rs:359-407 | once the loop ends, by the closing event or because the producer is gone, no continuation changes the log, the broadcast or the buffer, and the session can be removed |
| ResumeEnding.LoopEndsOnlyIf | server/src/sessions/manager.rs:359-407 | nothing else ends the loop |
| ResumeEnding.RemovedIsFinal | server/src/sessions/manager.rs:203-205 | after the removal nobody connects any more, and a connection that was waiting for its attach or its answer never gets it |
| ResumeEnding.RefusedForever | server/src/grpc/server.rs:240-275 | a connection whose attach is refused changes nothing else, and no continuation lets it in or gives it a message |
| ResumeEnding.WelcomeIsLetIn | server/src/sessions/manager.rs:207-242 | if the session is there, the slot free and the token current, the connection holds the slot under its id; a resume has spent its token and the one it was given is current |
| ResumeEnding.DroppedIsFrozen | server/src/grpc/server.rs:1320-1322 | after a cancelled handler or a dropped stream, no continuation puts anything into the channel or takes anything out |
| ResumeEnding.ChannelIsBounded | server/src/grpc/server.rs:276 | in every reachable state a channel holds at most 128 messages |
| ResumeEnding.HeartbeatStamps | server/src/sessions/manager.rs:244-248 | while the session exists, a heartbeat of a connection that is being read finds that connection's own attachment and stamps it, and changes nothing else but the activity time |
| ResumeEnding.LagLosesOldest | server/src/grpc/server.rs:1309-1333 | a receiver loses exactly what lies more than 256 events back |
| ResumeDelivery.ResumeLosesNothing | server/src/grpc/server.rs:248-315 | in every reachable state, each retained frame after the cursor, and each frame whose broadcast comes after the subscription (frames recorded after the snapshot among them), is in the client's channel, on its way, or was lost to broadcast lag |
| ResumeDelivery.DeliveryCount | server/src/grpc/server.rs:248-315 | how often each frame is delivered: once if replayed plus once if broadcast after the subscription, so duplicates are exactly the frames that are both |
| ResumeDelivery.SlotHasOneOwner | server/src/sessions/manager.rs:207-242 | while the session exists, two connections that both own the attachment are the same |
| ResumeDelivery.DetachFreesOnlyItsOwn | server/src/grpc/server.rs:1336-1387 | the detach at the end of a reading task, which names no attachment, frees that task's own attachment, and leaves nobody owning the slot |
| ResumeDelivery.TokenAuthorisesOnce | server/src/sessions/manager.rs:225-242 | two connections authorised by the same token value are the same connection, and a spent token is not the current one |
| ResumeDelivery.AckedTokenResumes | server/src/grpc/server.rs:317-328 | after a resumed connection hangs up, a token resumes the session if and only if it is the one that connection was acknowledged with |
| ResumeDelivery.ResumeCompletesIffItFits | server/src/grpc/server.rs:276-331 | from any reachable state a replaying handler can still reach its acknowledgement if and only if queued messages, remaining replay and the acknowledgement fit the channel |
| ResumeDelivery.DoomedForever | server/src/grpc/server.rs:276-331 | once they do not fit, no continuation ever acknowledges the resume |
| ResumeDelivery.AcknowledgedReplayFits | server/src/grpc/server.rs:276-331 | every acknowledged resume has its acknowledgement at the position given by the whole replay and the live messages before it, within the capacity |
| ResumeDelivery.NumbersCross | server/src/grpc/server.rs:248-315 | of two messages of a stream the second has the smaller number exactly when its frame is the earlier one; out of order, or twice the same frame, means one is live and the other replayed, either a live copy of a frame recorded before the buffer was read and broadcast after the subscription, or a replay overtaken before the acknowledgement |
| ResumeDelivery.NumbersGoUp | server/src/grpc/server.rs:248-315 | without such a copy, after the acknowledgement or behind a replayed message, numbers only go up |
| ResumeDelivery.NumberGoesDownIff | server/src/grpc/server.rs:248-331 | after the acknowledgement, a message has a smaller number than an earlier one of its stream if and only if a later frame of that stream was replayed |
| ResumeClient.ActiveSound | client-lib/src/commands.rs:158-230 | in an active session every frame at or below the cursor was handed out, is pending, or is accounted for as evicted, lagged or dropped, although the cursor may move backwards |
| ResumeClient.ClientInvStep | client-lib/src/commands.rs:703-821 | every step of client, server and environment keeps that invariant through resumes, failures and reconnects |
| ResumeClient.ClientCursorIsSound | client-lib/src/commands.rs:742-808 | over any number of connections: a frame the cursor has reached was received, or is pending, or the buffer had forgotten it at an acknowledged resume of this client, or one of this client's own connections lost it to lag, or it was pending when this client gave a session up |
| ResumeHistory.SideStep | server/src/sessions/manager.rs:207-242 | every step keeps: a token the client holds is or was current, the event loop ends only with the session, what a connection found evicted stays out of the buffer, and at most the frame in flight at a subscription is both below the cursor it came with and broadcast after it |
| ResumeLoss.LostForever | client-lib/src/commands.rs:742-808 | for a client with a saved state: a frame that was broadcast and never handed out, and that the cursor has reached or the buffer has forgotten, arrives in no continuation |
| ResumeFlow.Arrives | client-lib/src/commands.rs:158-230 | a frame that is pending, in the channel, in the forwarder's hand, still in the broadcast channel or yet to be broadcast is handed out in some continuation |
| ResumeRecovery.CanStillArriveIff | client-lib/src/commands.rs:703-821 | any frame that a client with a saved state has not got can still arrive if and only if the session is there, the token is the current one, the answer fits the response channel, and the frame is not broadcast yet, or is retained and after the cursor |
| ResumeRecovery.StaleForever | server/src/sessions/manager.rs:225-242 | a client whose token was spent never gets its session back |
| ResumeRecovery.TooLongForever | server/src/grpc/server.rs:276-331 | a client whose answer does not fit the channel never gets its session back: recording more never shortens the answer |
| ResumeRecovery.RemovedForever | server/src/sessions/manager.rs:225-242 | once the session is removed, a client with a saved state stays as it is |
| ResumeRecovery.Recovers | server/src/grpc/server.rs:240-331 | from any state that meets those conditions, a run that delivers the frame, whoever holds the attachment |
| ResumeHidden.HiddenCanStillArriveIff | client-lib/src/commands.rs:703-821 | for a client with a saved state, a frame that its cursor has reached and that it has not got can still arrive if and only if it has not been broadcast and the token is the current one; while it has not been broadcast, the session is there and the answer fits |
| ResumeHidden.CursorGoesDownOnlyIf | client-lib/src/commands.rs:174-192 | receiving a message lowers the cursor only if it is a live copy of a frame recorded before the buffer was read and broadcast after the subscription, or, during the resume, a replayed message behind a live one |
| ResumeStaying.KeepingUpBrings | server/src/grpc/server.rs:1300-1334 | on a connection without lag, every frame the application has not got that is yet to be broadcast, or is retained and after the cursor, is pending or on its way |
| ResumeStaying.AnswerIsLong | server/src/sessions/state.rs:213-230 | an answer that holds a frame is at least as long as the number of frames of its stream from it on |
| ResumeStaying.BarredForever | client-lib/src/commands.rs:158-230 | a frame that the connection does not bring, while the session is removed, the token spent or every answer with the frame too long (or, on a broken connection, the frame does not come back now), is never brought by any continuation |
| ResumeStaying.OpeningArrives | server/src/sessions/manager.rs:207-242 | a session that has not attached yet can still attach, whoever holds the attachment, and then gets every frame that lag has not taken |
| ResumeLeaving.KeepingIff | client-lib/src/commands.rs:158-230 | in a running session, any frame the application has not got can still arrive if and only if it is pending, on its way on this connection, or comes back after leaving, unless lag hides it |
| ResumeLeaving.LeavingIff | client-lib/src/commands.rs:138-147 | after leaving, any frame the application has not got can arrive if and only if the session is there, the token is the current one, the answer fits, and the frame is not broadcast yet, or is retained and after the cursor |
| ResumeLeaving.HiddenComesBackIff | client-lib/src/commands.rs:138-147 | for a frame that the cursor has reached these conditions hold if and only if it is not broadcast yet and the token is the current one |
| ResumeLeaving.LostByLeavingIff | client-lib/src/commands.rs:138-147 | leaving loses a frame that could arrive, before or after the cursor, if and only if it is pending or on its way and does not come back, unless lag hides it |
| ResumeLeaving.DisconnectIsSafeIff | client-lib/src/commands.rs:138-147 | dropping a session after saving its resume state loses no frame at all only if every frame that is pending or on its way comes back, and if so too, unless there is no such frame and lag hides one |
| ResumeLeaving.DisconnectLosesForever | client-lib/src/commands.rs:138-147 | every frame that is pending or on its way and does not come back is lost by leaving, with or without lag |
| ResumeWitnesses.FrameArrivesTwice | server/src/grpc/server.rs:248-315 | a reachable quiet connection in whose channel a frame occurs twice |
| ResumeWitnesses.LongReplayIsReachable | server/src/grpc/server.rs:276-331 | for every n up to the capacity of the buffer, a reachable resume with n frames to replay; from 128 on it is never acknowledged |
| ResumeWitnesses.CursorMovesBack | client-lib/src/commands.rs:742-808 | with the buffer of 1024 frames, a reachable state in which the live copy of the first frame takes the cursor from 2 back to 1 |
| ResumeWitnesses.CursorMovesBackInReplay | client-lib/src/commands.rs:742-808 | a reachable state in which a replayed frame, overtaken by a third one, takes the cursor from 3 back to 2 |
| ResumeWitnesses.SessionCursorMovesBack | client-lib/src/commands.rs:174-192 | a reachable running session, with everything handed out, whose cursor the live copy of the first frame, sent behind the acknowledgement, takes from 2 back to 1 |
| ResumeWitnesses.HastyDisconnectLosesFrame | client-lib/src/commands.rs:138-147 | a reachable saved state whose cursor covers a broadcast frame that was never received, with no eviction and no lag, and that never arrives |
| ResumeWitnesses.UnbroadcastFrameCanBeLost | client-lib/src/commands.rs:703-808 | a reachable saved state whose cursor covers a frame that was neither received nor broadcast and still never arrives, because a resume that was given up had spent the token |
| ResumeWitnesses.FrameLostByLeaving | client-lib/src/commands.rs:138-147 | a reachable session with nothing pending whose cursor is past a frame on its way: it can arrive, and after leaving it never does |
| LeavingWitnesses.UnreadFramesLostByLeaving | client-lib/src/commands.rs:138-147 | for every n from 128 to 256, a reachable session with nothing pending and n unread frames: each can arrive, and after leaving none ever does |
| LeavingWitnesses.LagMakesLeavingUnsafe | server/src/grpc/server.rs:1300-1334 | a reachable session in which no frame is pending or on its way, yet leaving loses a frame that lag hides and staying can save |
| CapabilitySession.CursorIsLastOutput | client-lib/src/commands.rs:174-192 | by plain assignment a cursor is the number of the last output of its stream |
| CapabilitySession.CursorStays | client-lib/src/commands.rs:174-192 | without numbered output on a stream its cursor stays |
| CapabilitySession.CapabilitySession.constructor | client-lib/src/commands.rs:810-821 | a session starts with what the resume loop collected as pending, and nothing handed out |
| CapabilitySession.CapabilitySession.Recv | client-lib/src/commands.rs:158-230 | pending events first; otherwise the payload of the first message that is no acknowledgement, ready message or empty message, with everything up to it read, and None exactly if there is no such message; events handed out and pending are always the events read, in order; cursors and token are those of everything read |
| CapabilitySession.CapabilitySession.Accept | client-lib/src/commands.rs:163-227 | an acknowledgement, a ready message and an empty one are ignored, every other message is passed on as it is; cursor and token move accordingly |
| CapabilitySession.ResumeSession | client-lib/src/commands.rs:742-821 | every message before the deciding one is this session's output, heartbeat, ready or empty message; the deciding one is this session's acknowledgement on success and names the failure otherwise; on success exactly the output before it is pending, each once and in order, and the token is the acknowledged one if there is one |
| CapabilitySession.EventsAreOutputs | client-lib/src/commands.rs:761-780 | while resuming, the events are the output messages, each at the place given by the output before it |
| CapabilitySession.TokenIsLastAck | client-lib/src/commands.rs:216-221 | the token is the last one that an acknowledgement brought |
| CapabilitySession.TokenStays | client-lib/src/commands.rs:216-221 | without one it stays |
| ClientObject.ResumeIsTheLoop | client-lib/src/commands.rs:742-808 | each message that the client of the step system takes during a resume lets it go on, succeed or fail as the object's resume loop does, with the same cursors, token and events |
| ClientObject.SessionIsTheLoop | client-lib/src/commands.rs:163-227 | each message it takes in a session moves cursors and token as the object does, and exactly output is handed out |
| ClientObject.IdleHoldsNothing | client-lib/src/commands.rs:138-147 | over every run, a client without a session holds no frame back |
| Rendezvous.InvStep | relay/src/main.rs:196-275 | every step of every handler, timeouts included, keeps sockets, slots, hands, forwarders and readiness marks consistent |
| Rendezvous.SocketsAreConserved | relay/src/main.rs:215-264 | in every interleaving each socket is in exactly one place: its owner, a slot, one handler's hand, a forwarder, or closed |
| Rendezvous.SlotsAreNeverOverwritten | relay/src/main.rs:215-256 | placing a socket and putting the client back both find an empty slot |
| Rendezvous.OneForwarder | relay/src/main.rs:1116-1144 | a tunnel has at most one forwarder, it joins the client with the admitted server, and both readiness marks are set |
| Rendezvous.SecretAdmitsOne | relay/src/main.rs:266-275 | over a whole run, whatever became of the handlers, the secret is accepted at most once |
| Rendezvous.AdmittedIsAlone | relay/src/main.rs:266-275 | two handlers past the secret and not yet finished are the same, and the secret is spent |
| Rendezvous.MissIsExplained | relay/src/main.rs:233-256 | a handler misses an attached client only if it is in another hand, forwarded or closed; a handler holding the client misses an attached server only if it was closed |
| Rendezvous.OnlyReadyTunnelsStrand | relay/src/main.rs:1145-1178 | a handler that has left its socket in a slot had seen both readiness marks |
| Rendezvous.StrandedForever | relay/src/main.rs:1139-1200 | once both handlers have left both sockets in their slots, no later step pairs or closes them |
| Rendezvous.StrandingIsReachable | relay/src/main.rs:1116-1200 | such a state is reachable, and the tunnel stays in the map |
| TunnelMap.InMapIff | relay/src/main.rs:1116-1345 | after any run the tunnel is in the map exactly if no step gave it up: a refusal, a wrong secret, a client lost before it was ready, a timeout without both sides, or the end of forwarding |
| TunnelMap.GoneFromMap | relay/src/main.rs:1209-1217 | a tunnel out of the map stays out, and no handler finds it any more |
| TunnelMap.HandlerEndsIff | relay/src/main.rs:1133-1200 | exactly the steps that end a handler: refusal, failure, a pair found, both sides ready at a check or at the timeout, or the cleanup after a timeout |
| TunnelMap.EndedTunnelIsOut | relay/src/main.rs:1164-1200 | in every reachable state, a connect handler that ended before both sides were ready, a tunnel handler that was turned away, and one that was ready and ended without a client, have taken the tunnel out of the map |
| TunnelMap.ReadyMeansMarked | relay/src/main.rs:1116-1121 | a side is marked ready only when its own handler has gone past its mark |
| TunnelMap.WokenIff | relay/src/main.rs:215-231 | a notification wakes every handler that is parked, and nothing else does, short of its own timeout |
| TunnelMap.WaitLoop | relay/src/main.rs:1139-1162 | without a pair a handler first goes to wait without looking at the marks; once woken it looks at them after every miss, leaves if both are set, and waits again if not |
| TunnelMap.TimeoutClosesClient | relay/src/main.rs:1139-1163 | a reachable state in which a timeout between the two locks of taking the pair has closed the client's socket, with both sides ready, the server's socket in its slot and the tunnel in the map |
| RendezvousOutcome.PairsIff | relay/src/main.rs:1116-1200 | in every reachable state without a forwarder, some continuation starts one if and only if neither socket is closed (or the server's can still come) and some handler has yet to look for the pair or is about to complete it |
| RendezvousOutcome.FullSlotsPairIff | relay/src/main.rs:215-256 | with both sockets in their slots, that is if and only if some handler is between placing its socket and taking |
| RendezvousOutcome.PairingRun | relay/src/main.rs:1116-1144 | while the condition holds, a run that pairs the sockets |
| RendezvousOutcome.NeverPairs | relay/src/main.rs:1139-1200 | once it fails, it fails in every continuation and no forwarder starts |
| Registration.LatestIsThere | relay/src/main.rs:371-376 | the latest registration of a server is one of its upserts |
| Registration.EntryIsCurrent | relay/src/main.rs:371-387 | for any interleaving, a server is registered if and only if its latest registration has not ended, and then with that one |
| Registration.ServerTable.constructor | relay/src/main.rs:312-356 | the table starts empty |
| Registration.ServerTable.UpsertServer | relay/src/main.rs:371-376 | the table stays the outcome of all writes, the new one included |
| Registration.ServerTable.RemoveServerIfCurrent | relay/src/main.rs:378-387 | the same for the ending of a control channel, removing only its own registration |
| Templates.ScanIsExact | server/src/capabilities/parameters.rs:137-143 | splitting a command at its placeholders loses no text and finds only names of class characters |
| Templates.ScanFindsIff | server/src/capabilities/parameters.rs:137-143 | a name is found exactly when its placeholder occurs in the command |
| Templates.ReplaceIsRewrite | server/src/capabilities/parameters.rs:137-150 | replacing one placeholder in the text is rewriting the split template, its plain text included |
| Templates.IterateIsOnePass | server/src/capabilities/parameters.rs:137-150 | without a capture, the replacement loop equals simultaneous substitution, whatever the values |
| Templates.IterateIsOnePassIff | server/src/capabilities/parameters.rs:137-150 | for values without an opening brace, the two are equal if and only if no replacement completes a new placeholder |
| Templates.CleanCommandSubstitutes | server/src/capabilities/parameters.rs:137-150 | they are equal when every opening brace of the command belongs to a placeholder and no value has one, repeated placeholders included |
| Templates.CleanScan | server/src/capabilities/parameters.rs:137-143 | splitting leaves no stray brace exactly if every opening brace starts a placeholder |
| Templates.NoBraceLeft | server/src/capabilities/parameters.rs:137-150 | with no stray brace and none in the values, the result has none |
| Templates.SettledCommandSubstitutes | server/src/capabilities/parameters.rs:137-150 | they are equal for any values when the simultaneous result contains none of the command's own placeholders |
| Templates.CaptureHappens | server/src/capabilities/parameters.rs:137-150 | a command and a value without braces for which they differ |
| Templates.ValueIsExpanded | server/src/capabilities/parameters.rs:137-150 | with {b} inside the escaped value of a, whatever brace-free text such as quotes is around it, the command {a} {b} gets the value of b inside the value of a, where simultaneous substitution keeps {b} |
| Parameters.ParsePrint | client-lib/src/commands.rs:515-545 | a slider value printed by the client is read back as the same number, for every 32-bit integer |
| Parameters.CheckedParams | server/src/config/validation.rs:120-258 | in a validated capability every parameter passes its own check and names are unique |
| Parameters.ValidateParameters | server/src/capabilities/parameters.rs:7-41 | the server's loop computes the specified map or the first error |
| Parameters.CollectAccepts | server/src/capabilities/parameters.rs:7-120 | the server's acceptance is decided parameter by parameter |
| Parameters.CollectKeys | server/src/capabilities/parameters.rs:7-41 | an accepted map has exactly the declared names |
| Parameters.CollectValue | server/src/capabilities/parameters.rs:7-41 | with unique names, each value is the argument given or else the default |
| Parameters.SanitiseParameters | client-lib/src/commands.rs:503-607 | the client's loop computes the specified map or the first error |
| Parameters.SaniIsPointwise | client-lib/src/commands.rs:503-607 | what is sent is exactly the normal form of each argument provided; omitted ones had a default |
| Parameters.SubstituteParameters | server/src/capabilities/parameters.rs:122-151 | fails exactly when a placeholder has no argument, naming the first; otherwise yields the repeated replacement of the escaped values |
| Parameters.NormalisedPasses | client-lib/src/commands.rs:520-607 | a value in the client's normal form passes the server's check of that parameter |
| Parameters.SentPasses | client-lib/src/commands.rs:503-607 | everything the client sends passes, and nothing undeclared is sent |
| Parameters.ServerAcceptsSanitised | server/src/capabilities/parameters.rs:7-120 | for a validated capability, the server accepts what the client sanitised if and only if the default of every omitted parameter passes its own check |
| Parameters.NormaliseIdempotent | client-lib/src/commands.rs:515-600 | the client's normal form of a value is its own normal form, for every kind of parameter |
| Parameters.SanitiseIdempotent | client-lib/src/commands.rs:503-607 | sanitising what was sanitised changes nothing |
| Parameters.AcceptedMeans | server/src/capabilities/parameters.rs:43-120 | for a validated capability, every accepted value is an integer within bounds that exist, one of the four booleans, one of the options, or a match of the pattern |
| Parameters.AcceptedValues | server/src/capabilities/parameters.rs:7-41 | an accepted map gives every declared parameter the value sent or its default |
| Parameters.SubstitutionSucceedsIff | server/src/config/validation.rs:260-280 | for a validated script, no placeholder is missing if and only if those with a hyphen are declared |
| Parameters.PipelineYieldsCommand | server/src/capabilities/parameters.rs:7-151 | under those conditions, when every opening brace of the command is a placeholder's and no escaped value that the command uses has one, the whole chain succeeds and runs the simultaneous substitution of the escaped values, with no placeholder left |
| Parameters.PlaceholderIff | server/src/capabilities/parameters.rs:137-143 | substitution looks for n exactly if n is a non-empty text of ASCII letters, digits, underscores and hyphens and {n} occurs in the command |
| Parameters.ScansAgree | server/src/config/validation.rs:260-280 | on names of ASCII word characters the scan of the configuration check and that of substitution find the same |
| Parameters.WordPlaceholdersAreDeclared | server/src/config/validation.rs:260-280 | every such placeholder of a validated script is found by substitution and is declared |
| Parameters.CleanCommandIff | server/src/capabilities/parameters.rs:137-143 | splitting for substitution leaves no stray brace exactly if every opening brace starts such a placeholder |
| ParameterRules.ConfigurationOkIff | server/src/config/validation.rs:120-280 | the configuration check accepts a capability exactly if it is named, its parameters have unique names and are well declared, and its command or path, timeouts, placeholders and session mode are in order |
| ParameterRules.ConfigurationProblem | server/src/config/validation.rs:120-280 | the problem it reports is the case |
| ParameterRules.ServerAcceptsIff | server/src/capabilities/parameters.rs:7-120 | the server accepts exactly if every argument belongs to a parameter and every parameter gets, as argument or default, a value it asks for |
| ParameterRules.ServerProblem | server/src/capabilities/parameters.rs:7-120 | it reports the first parameter with a problem, and that problem; an unknown argument only if there is none |
| ParameterRules.NormaliseIff | client-lib/src/commands.rs:515-600 | what the client sends for a typed value: the number printed, true or false for the eight words, the first option equal up to ASCII case, or the trimmed text |
| ParameterRules.ClientAcceptsIff | client-lib/src/commands.rs:503-607 | the client lets arguments through exactly if each belongs to a parameter and can be sent, and every parameter left out has a default that is not empty |
| ParameterRules.ParseIff | server/src/capabilities/parameters.rs:49-52 | exactly the texts that are a number: an optional sign that fits, zeros, and the digits of a 32-bit integer |
| ParameterRules.TrimIs | client-lib/src/commands.rs:518 | trimming takes away blanks at both ends and nothing else, and leaves none there |
| Parameters.BadDefaultIsRejected | server/src/config/validation.rs:196-258 | a validated capability whose default the server rejects |
| Parameters.HyphenEscapesValidation | server/src/config/validation.rs:260-280 | a validated script with an undeclared hyphenated placeholder |
| ConfigReload.InvStep | server/src/config/watcher.rs:98-149 | every step of the reloader and of any reader keeps contents, version and notices in step |
| ConfigReload.VersionNeverRunsAhead | server/src/grpc/server.rs:979-995 | a listed version equals the generation of the listed contents or is one behind, and then the next notice carries the newer version and the reloader cannot swap again before sending it |
| ConfigReload.NoticesAreConsecutive | server/src/config/watcher.rs:123-146 | the versions broadcast are 2, 3, 4, ... without gap |
| ConfigReload.AnswerCanLag | server/src/grpc/server.rs:979-995 | a reachable state with an answer that lists the new contents with the old version |
| Pairing.PairingRequestManager.constructor | server/src/security/pairing.rs:79-84 | no requests at first |
| Pairing.PairingRequestManager.CreateRequest | server/src/security/pairing.rs:87-113 | expired pending requests go, the new one is pending |
| Pairing.PairingRequestManager.GetRequest | server/src/security/pairing.rs:116-131 | looking at an expired request marks it timed out, whatever it was |
| Pairing.PairingRequestManager.ApproveRequest | server/src/security/pairing.rs:134-154 | approves only a pending request by its deadline, and says why not |
| Pairing.PairingRequestManager.RejectRequest | server/src/security/pairing.rs:157-171 | rejects only a pending request |
| Pairing.RequestsEvolve | server/src/security/pairing.rs:116-178 | over every step a surviving request changes only as allowed, and becomes approved only by the finishing step of its own approval and by its deadline |
| Pairing.RunEvolves | server/src/security/pairing.rs:116-178 | over whole runs: certificate and deadline never change, the client id is set at most once, and a status other than pending only ever becomes a timeout |
| Pairing.ListingAndPolling | server/src/security/pairing.rs:116-178 | listing forgets exactly the pending requests whose time is over; looking at one marks exactly an expired one |
| Pairing.InvStep | server/src/cli/approve.rs:34-67 | every step keeps the two stores consistent |
| Pairing.OneClientPerRequest | server/src/grpc/server.rs:852-859 | a request adds at most one client, in every interleaving |
| Pairing.ApprovedNamesItsClient | server/src/cli/approve.rs:34-67 | an approved request names a stored client that came from it and has its certificate |
| Pairing.ApprovalCompletesIff | server/src/cli/approve.rs:52-60 | a stored client is named by its request if and only if the request is still there, pending and unexpired at the finishing step |
| Pairing.ApprovalProceedsIff | server/src/cli/approve.rs:34-52 | an approval goes on to store a client exactly if the request is there and pending when looked up and in time when checked; the look marks an expired request |
| Pairing.OrphanForever | server/src/cli/approve.rs:52-60 | otherwise the client stays stored in every continuation and no request ever names it |
| Pairing.RejectedRequestKeepsItsClient | server/src/cli/approve.rs:52-60 | a reachable state with a rejected request whose client is stored |
| Enrollment.EnrollmentTokenManager.constructor | server/src/security/enrollment.rs:50-55 | no tokens and no calls at first |
| Enrollment.EnrollmentTokenManager.GenerateToken | server/src/security/enrollment.rs:58-69 | the table stays the outcome of all calls; the new token is there, unused and with its deadline, unless the sweep already finds it expired, and the sweep takes exactly the expired ones |
| Enrollment.EnrollmentTokenManager.ValidateAndConsume | server/src/security/enrollment.rs:72-92 | the table stays the outcome of all calls; without reused strings, success means no earlier success and each refusal is true of the calls before; with a non-decreasing clock, success if and only if the token was issued, is within its lifetime and was not accepted before |
| Enrollment.Held | server/src/security/enrollment.rs:58-92 | a token in the table carries its deadline and is marked exactly when it was accepted before |
| Enrollment.GoneMeansLate | server/src/security/enrollment.rs:95-97 | with a non-decreasing clock, a token leaves the table only after its deadline |
| Enrollment.AcceptedAtMostOnce | server/src/security/enrollment.rs:72-92 | whatever the clock does, no token is accepted twice |
| Enrollment.AcceptedIff | server/src/security/enrollment.rs:58-97 | with a non-decreasing clock, a call is accepted if and only if its token was issued before, is within its lifetime, and no earlier call was accepted for it |
| Clients.FirstWith | server/src/storage/clients.rs:210-211 | the first client with an id, or the length |
| Clients.ClientStore.constructor | server/src/storage/clients.rs:65-91 | an empty registry |
| Clients.ClientStore.AddClient | server/src/storage/clients.rs:117-165 | appends the client, with its first address if known |
| Clients.ClientStore.RemoveClient | server/src/storage/clients.rs:168-189 | removes every client with the id; an error exactly when there is none |
| Clients.ClientStore.FindById | server/src/storage/clients.rs:192-194 | the search loop finds the first match |
| Clients.ClientStore.UpdateLastSeenWithIp | server/src/storage/clients.rs:210-247 | updates that client only; an error exactly when there is none |
| Clients.PushKeepsLastN | server/src/storage/clients.rs:216-240 | trimming after each push keeps exactly what trimming the whole history once would |
| Clients.HistoryIsTrimmedDedup | server/src/storage/clients.rs:136-165 | after any run of additions, removals and sightings, a client's history is the newest 100 of its sightings with consecutive repetitions removed, and its last-seen time is that of the last call about it |
| Clients.IdentityStays | server/src/storage/clients.rs:117-247 | after any run every client has the id, name, fingerprint and enrolment time of the call that added it |
| Fingerprints.DecodeHex | client-lib/src/enrollment.rs:643-649 | decoding the printed digits gives the bytes back |
| Fingerprints.DecodeIff | client-lib/src/grpc_client.rs:446-457 | decoding succeeds exactly on an even number of hexadecimal digits, and printing gives the text back in lower case |
| Fingerprints.ParseFormat | client-lib/src/grpc_client.rs:446-457 | every byte string survives printing and parsing |
| Fingerprints.ParseIff | client-lib/src/grpc_client.rs:446-457 | a text is read exactly when it has the prefix and an even number of digits after it, as those digits |
| Fingerprints.PinAllowedIffItParses | server/src/config/validation.rs:34-49 | the configuration check accepts a pin if and only if the relay client can decode it, and then it is 32 bytes with those digits |
| Fingerprints.PinnedDigest | server/src/relay/client.rs:516-540 | a digest spaced out with colons and blanks is decoded to itself if it has 32 bytes, and refused otherwise |
| Fingerprints.ColonFormIsAllowed | server/src/relay/client.rs:516-540 | 32 bytes printed with colons between them are an allowed pin and are read as those bytes |
| Fingerprints.DigitsDrop | client-lib/src/grpc_client.rs:446-457 | dropping characters that are no hexadecimal digits leaves the others in order |
| Backoff.Reconnect | server/src/relay/client.rs:123-169 | the loop's pauses are the closed form at every attempt; it overflows exactly when the maximum is at least 2^63 and some 64 attempts in a row never connected, at the first such point |
| Backoff.PauseClosedForm | server/src/relay/client.rs:123-169 | with the validated maximum the pause after k failures in a row before it is min(2^k, max), and one second after a reset |
| Backoff.PauseGrows | server/src/relay/client.rs:160-166 | between two failures in a row the pause doubles up to the maximum |
| Backoff.ConnectionResets | server/src/relay/client.rs:123-169 | an attempt that got a connection, however it ended, brings its pause and the next one back to one second |
| Backoff.OverflowIff | server/src/relay/client.rs:160-166 | some run overflows if and only if the maximum is at least 2^63 |

## Left out

- ResumeLeaving.KeepingIff: of a frame that lag hides (lost to lag, retained and after the cursor, with an answer that is too long now and fewer than 128 frames of its stream from it on) it is not decided whether staying can save it; that depends on what the program prints and on which further events lag drops. Leaving loses such a frame for certain (`ResumeLeaving.LeavingIff`).
- ResumeLeaving.LostByLeavingIff: the same frames are left open here.
- ResumeLeaving.DisconnectIsSafeIff: the second direction is left open when lag hides a frame and none is pending or on its way.
- TLS, certificates, JWT, SHA-256, WebSocket, gRPC and TCP transport, process and PTY control: library or operating-system behaviour; only the order of the events they deliver is kept.
- User interfaces, command lines, mDNS discovery, file formats, on-disk persistence and failing file writes.
- The map of sessions: the step system follows one session; sessions share no state beyond the map.
- The opening handshake of a session (waiting for the ready message) and the input direction, from client to capability.
- Wrap-around of 64-bit sequence numbers, versions and clock arithmetic, except in the reconnection loop.
- The claim-by-claim checks on a connecting client before its tunnel is created: each is one branch.
- `TunnelState::is_expired` and the readiness time stamps: only whether each side is ready matters to the handlers.
- The tunnel and the resume handlers are values under a step relation rather than objects, because what matters about them is how their lock acquisitions interleave; update in place within one lock is atomic there.
- That a tunnel is eventually paired, or a resume eventually acknowledged: the code guarantees neither; the model decides when each is still possible.
- Removing a client that an approved pairing request names: `Pairing` has no removal step, so its statements are about runs without one.
- One sweep of expired enrolment tokens reads the clock once; the program reads it once per token.
- The debounce loop of the configuration watcher, and failing reloads, which change nothing.
- Parameter fields that no check looks at (labels, steps, secrecy), and the other server settings checked at load time.
- Fingerprints: the configuration check also demands that self-signed TLS is allowed when a pin is given.
- `client_message_to_event`, `session_event_to_proto` and the other field-by-field conversions.
