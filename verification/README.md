# Switch broker verification

A Dafny model of the USAHP daemon's session broker, with proofs about every run of it. The daemon turns
physical switch edges into numbered logical edges and delivers them to clients: to everyone in the legacy
phase, then to at most one client that holds a leased exclusive session.

How the model is laid out:

- `Protocol`, `TextOrder`, `Edges`: messages and constants, the key order of a sorted map, and well-formed
  streams of press and release edges.
- `Switchboard` specifies the many-to-one switch aggregator on a flat set of held mappings.
  `SwitchStateMachine` is the class that keeps it as an index updated in place, proved equal to it.
- `Capture` is the capture flag with its exclusive-grab backends, the backend's command loop, and
  `CaptureControl`, the class that exchanges commands with all of them.
- `Channels` are the bounded client queues.
- `Broker` is the state machine: one step per command or tick, at one clock reading. `Runtime` is the class
  that handles the commands by updating its fields, each method proved equal to its step.
- `Effects`, `Streams`, `Agreement`, `Invariant` hold the proofs that every reachable state is sound.
- `Delivery` says who receives what by counting free places in queues. `Rules` states, on the input, the state
  before, and what clients and backends do, what every command and tick must do, without the handlers; every step
  of every run follows the rules. `Determinacy` proves that the rules leave no choice, so that they define the run.
- `Guarantees`, `Histories`, `Notices`, `Identity`, `Timing`, `Connection` state what holds over whole runs.
  `LateListener` is a concrete run in which a tempting property fails.

What the broker does not control comes from outside. Before each message addressed to a client, that client
takes any number of queued messages and may go away, so queues drain at any point, also between two sends of
one handler. Each backend, in each command exchange, may have ended, end without answering, fail to drain, or
fail to grab or ungrab. Session ids are drawn from a sequence. All theorems hold for every choice of these.

Fields of `State` below the comment "Histories" (`clock`, `events`, `dropped`, `late`, `sessionMark`,
`revocations`), and `delivered` and the contents of `addressed` in a queue, record what has happened; no
handler's behaviour depends on them, except that the length of `addressed` numbers a client's oracle choices.

Where the documentation and the code differ, the code is followed: `docs/protocol-v0.md` gives protocol
version 0.2.0 and says there is no escape hatch and no focus handling, while the code uses 0.3.0 and has both.

## Model

| member | source | states |
|---|---|---|
| Switchboard.NewBoardListsEverySwitch | crates/usahp-core/src/state.rs:29-44 | for any list of mappings, also with repeated ids, the listed switches are exactly the configured ones in strict order, a mapping is known exactly if some entry has its id, it drives the switch of the last such entry, and nothing is held |
| Switchboard.ApplyReportsExactlyTheOuterEdge | crates/usahp-core/src/state.rs:46-87 | an error happens exactly for an unknown mapping or a repeated edge and changes nothing; otherwise an edge is reported exactly when the set of pressed switches changes, and it is that change |
| Switchboard.ReleaseAllIsAnOrderedReset | crates/usahp-core/src/state.rs:104-120 | the reset lists each pressed switch once, in strictly increasing order, at zero confidence, and leaves all released |
| Switchboard.TraceTellsListenersTheState | crates/usahp-core/src/state.rs:46-120 | over every list of mappings and every trace of edges and resets, reported edges alternate per switch starting with a press, and replaying them gives exactly the pressed switches |
| Switchboard.StaleReleaseIsRefused | crates/usahp-core/src/state.rs:73-78 | after a reset a release of a mapping is refused until that mapping is pressed again, whatever else happens |
| Switchboard.HeldIsWhatWasLeftDown | crates/usahp-core/src/state.rs:46-120 | over every trace, exactly the configured mappings pressed since their last release and the last reset are held |
| Switchboard.PressedIsWhatWasLeftDown | crates/usahp-core/src/state.rs:29-120 | over every configuration and trace, a switch is pressed exactly when some mapping whose last entry names it has been pressed since its last release and the last reset |
| TextOrder.LessIsLexicographic | crates/usahp-core/src/state.rs:25 | keys are visited in dictionary order: a proper prefix first, otherwise by the first difference |
| TextOrder.SortedListIsUnique | crates/usahp-core/src/state.rs:25 | a set of keys can be listed in only one way |
| Protocol.ValidateConfidence | crates/usahp-core/src/protocol.rs:8-14 | a reading is kept, unchanged, exactly when it is a number from 0 to 100 |
| Protocol.AppIdsAreShortAsciiNames | crates/usahp-core/src/protocol.rs:173-178 | an application id is valid exactly when it has 1 to 128 characters with the codes of ASCII letters, digits, dot, underscore and hyphen |
| SwitchStateMachines.IndexAgreesWithHeldSet | crates/usahp-core/src/state.rs:22-26 | the index is the partition by switch of one flat held set, so the lookup by switch cannot fail |
| SwitchStateMachines.PressIsOuterEdge | crates/usahp-core/src/state.rs:59-72 | testing for exactly one active mapping after an insert is testing whether the flat image changed |
| SwitchStateMachines.ReleaseIsOuterEdge | crates/usahp-core/src/state.rs:73-85 | testing for an empty set after a removal is testing whether the flat image changed |
| SwitchStateMachines.SwitchStateMachine.constructor | crates/usahp-core/src/state.rs:29-44 | the two loops build the valid index of the new board, on which each mapping drives the switch of its last entry |
| SwitchStateMachines.SwitchStateMachine.Apply | crates/usahp-core/src/state.rs:46-87 | the in-place update and its verdict are those of the flat specification |
| SwitchStateMachines.SwitchStateMachine.Snapshots | crates/usahp-core/src/state.rs:89-102 | lists every configured switch in order with its true state |
| SwitchStateMachines.SwitchStateMachine.ReleaseAll | crates/usahp-core/src/state.rs:106-120 | clearing in place while collecting gives the specified ordered releases and the empty board |
| Edges.EdgesAreConserved | crates/usahp-core/src/state.rs:59-85 | a well-formed stream holds two edges per release plus one per switch still pressed |
| Edges.EachSwitchAlternates | crates/usahp-core/src/state.rs:59-85 | in a well-formed stream each switch reads pressed, released, pressed, ..., ending pressed exactly if it is pressed |
| Captures.CommandAllSucceedsIffAllAcknowledge | crates/usahp-daemon/src/input.rs:75-116 | a command to all backends succeeds exactly when every one is alive to answer and its device does what is asked; every backend meets the command whatever the others do; a failure is blamed on a thread already gone, else on the first backend not to acknowledge |
| Captures.ResumeIsAllOrRollback | crates/usahp-daemon/src/input.rs:62-73 | resume succeeds exactly when every backend is alive to answer, drains, and holds its device or can grab it, and then all are grabbed and capture is enabled; otherwise the flag is untouched and every live backend was told to pause right after being told to resume |
| Captures.PauseReleasesDevices | crates/usahp-daemon/src/input.rs:57-60 | pausing always disables capture, and succeeds exactly when every backend is alive to answer and lets go of what it holds; only a live backend that refused to ungrab stays grabbed |
| Captures.LatestAcknowledgedCommandWins | crates/usahp-daemon/src/input.rs:355-390 | over any command sequence the device is grabbed as its latest acknowledged command says; a pause is acknowledged exactly when there is nothing to let go or it is let go, a resume exactly when the device drains and is held or can be grabbed; all else is refused |
| Captures.ServeControl | crates/usahp-daemon/src/input.rs:355-390 | the command loop with its local flag gives exactly those answers, and ends grabbed as its latest acknowledged command says |
| Captures.CaptureControl.CommandBackends | crates/usahp-daemon/src/input.rs:75-116 | sending to all and then awaiting all has the same outcome as exchanging with each, a failed send outranking a failed answer |
| Captures.CaptureControl.Pause | crates/usahp-daemon/src/input.rs:57-60 | clears the flag, then pauses every backend |
| Captures.CaptureControl.Resume | crates/usahp-daemon/src/input.rs:62-73 | resumes every backend, rolling back on error, and only then sets the flag |
| Runtimes.Retain | crates/usahp-daemon/src/broker.rs:401-410 | whatever order the client map is visited in, the survivors and all queues are those of treating each client alone |
| Runtimes.SendReleases | crates/usahp-daemon/src/broker.rs:335-347 | every release and then the notice is tried, and any failure is remembered |
| Runtimes.Runtime.ReleaseMessages | crates/usahp-daemon/src/broker.rs:358-370 | releases everything held and numbers the releases consecutively in key order |
| Runtimes.Runtime.BroadcastMessage | crates/usahp-daemon/src/broker.rs:401-410 | each client takes the message or is dropped |
| Runtimes.Runtime.SendResponse | crates/usahp-daemon/src/broker.rs:389-399 | one message to one client, dropping it when absent, full or closed |
| Runtimes.Runtime.RegisterSender | crates/usahp-daemon/src/broker.rs:170-181 | refines the registration step; replies with the id exactly when the snapshot was queued |
| Runtimes.Runtime.UnregisterSender | crates/usahp-daemon/src/broker.rs:183-194 | refines the unregistration step |
| Runtimes.Runtime.HandleInput | crates/usahp-daemon/src/broker.rs:196-243 | updates the fields as the input step, which numbers exactly the outer edges (`Histories.InputsNumberOuterEdges`) |
| Runtimes.Runtime.HandleHandshake | crates/usahp-daemon/src/broker.rs:245-320 | updates the fields as the handshake step, which opens a session exactly when every condition holds (`Histories.SessionsOpenExactlyWhen`) and otherwise names the first objection |
| Runtimes.Runtime.RevokeCurrent | crates/usahp-daemon/src/broker.rs:322-356 | updates the fields as the revocation step, whose notices tell the recorded cause (`Notices.NoticesTellTheTruth`) |
| Runtimes.Runtime.FindEscapeSwitch | crates/usahp-daemon/src/broker.rs:150-159 | searching the tracker in any order finds a switch held too long exactly when there is one |
| Runtimes.Runtime.HandleTick | crates/usahp-daemon/src/broker.rs:134-164 | refines the tick step |
| Runtimes.RunBroker | crates/usahp-daemon/src/broker.rs:82-167 | the event loop over any sequence of commands and ticks ends in the state of the run |
| Rules.EveryStepFollowsTheRules | crates/usahp-daemon/src/broker.rs:101-411 | every command and tick of every run changes every part of the state exactly as the rules say: who is served, told what, and dropped; what is numbered and when; which session opens, is renewed, or ends for which reason; what each backend is told |
| Determinacy.RulesLeaveNoChoice | crates/usahp-daemon/src/broker.rs:101-411 | two states that follow the rules from the same sound state are the same state |
| Determinacy.RulesDefineTheRun | crates/usahp-daemon/src/broker.rs:82-166 | a sequence of states is the daemon's run exactly when it starts as configured and each state follows by the rules |
| Determinacy.EveryQueueIsFirstInFirstOut | crates/usahp-daemon/src/broker.rs:389-410 | in every run each queue, of a served or a dropped client, is within capacity and holds the unread tail of what was delivered |
| Channels.SendAllIsExact | crates/usahp-daemon/src/broker.rs:335-347 | of any number of messages offered, exactly those get through that by counting find their receiver and a free place; all do exactly if each does |
| Deliveries.BroadcastAllTells | crates/usahp-daemon/src/broker.rs:282-289 | a client keeps its place through a series of broadcasts exactly if its queue has room for each in turn, and a dropped one has received those before the first it missed |
| Deliveries.NotifyTellsAll | crates/usahp-daemon/src/broker.rs:335-350 | the former holder is sent every release and the notice, also after missing one, and stays exactly if it missed none |
| Histories.HeldMeansPressedSince | crates/usahp-daemon/src/broker.rs:196-334 | in every run exactly those configured mappings are held that were pressed with routing on and since then neither released nor swept up by the end of routing or the opening of a session |
| Histories.PressedMeansAMappingIsDown | crates/usahp-daemon/src/broker.rs:196-334 | in every run a switch is pressed exactly when such a mapping's last configuration entry names it |
| Histories.InputsNumberOuterEdges | crates/usahp-daemon/src/broker.rs:196-243 | an input numbers an event exactly when routing is on, the mapping is configured, the action changes its state and the pressed switches change; the event has the mapping's switch, the action, the next number, the time and the validated confidence; unless the session ends, just that mapping changed |
| Histories.SessionsOpenExactlyWhen | crates/usahp-daemon/src/broker.rs:245-320 | a handshake opens a session if and only if none is open, version, application and mode are right, every backend of a paused daemon can be reacquired, and the requester has room for one release per pressed switch and its acceptance; the acceptance is then its last message |
| Histories.RefusalsNameTheFirstObjection | crates/usahp-daemon/src/broker.rs:246-280 | a requester refused and still served was sent one message, the rejection for the first objection in the order version, application, mode, open session, capture |
| Histories.RegistrationsSucceedWhenTheSnapshotFits | crates/usahp-daemon/src/broker.rs:170-181 | a registration uses up the next id and serves it exactly if the snapshot fits in its queue; the snapshot shows every switch truly, and nobody else notices |
| Notices.NoticesTellTheTruth | crates/usahp-daemon/src/broker.rs:322-356 | the revocations announced to a served client are exactly those of its own sessions, in order, with the recorded causes |
| Notices.EveryEndingIsWarranted | crates/usahp-daemon/src/broker.rs:101-356 | every recorded ending has a step of the run that ended that session and warranted that cause |
| Notices.NoticesNameTheCause | crates/usahp-daemon/src/broker.rs:101-356 | whenever a served client was told a reason, some step ended that session of its own and warranted exactly that reason: a missed lease, a hold, lost focus, leaving, an overflow, or the request's own |
| Invariant.EveryRunKeepsInv | crates/usahp-daemon/src/broker.rs:82-411 | every reachable step boundary satisfies the whole invariant: coupling, ledger, ids, session start and every client's stream |
| Guarantees.CaptureRoutingAndTrackerAgree | crates/usahp-daemon/src/broker.rs:196-334 | at every boundary capture is enabled exactly when routing is not paused, a session implies not paused, paused implies nothing held, and unless paused the tracker's keys are exactly the pressed switches |
| Guarantees.LegacyPhaseIsAPrefix | crates/usahp-daemon/src/broker.rs:284-305 | the legacy phase is an initial prefix of every run; afterwards a session is open exactly when routing is not paused |
| Guarantees.EdgesAreNumberedAndConserved | crates/usahp-daemon/src/broker.rs:358-387 | the counter is the number of edges, twice the releases plus the pressed switches, even when paused; numbers are 1, 2, 3, ..., times do not go back, and each switch alternates |
| Guarantees.NoClientHasAGap | crates/usahp-daemon/src/broker.rs:389-410 | a client still served has been delivered every message ever addressed to it, in order |
| Guarantees.FailedSendDropsTheClient | crates/usahp-daemon/src/broker.rs:389-399 | after one send the client is served exactly if the message was delivered, and nobody else changes |
| Guarantees.SendFailsOnlyWhenFullOrClosed | crates/usahp-daemon/src/broker.rs:335-346 | a send succeeds exactly when the receiver is there and, after what it just took, fewer messages wait than fit; queues stay within capacity and in order, and a closed one stays closed |
| Guarantees.StreamsFollowTheGrammar | crates/usahp-daemon/src/broker.rs:245-356 | every served client's stream follows the grammar, and it is inside a session exactly when the client holds the session with that id |
| Guarantees.GrammarIsPrefixClosed | crates/usahp-daemon/src/broker.rs:245-356 | every earlier part of a well-formed stream is well formed |
| Streams.ParseRecognisesTheGrammar | crates/usahp-daemon/src/broker.rs:245-356 | the automaton accepts exactly the streams in which every message is allowed by the last acceptance or revocation before it |
| Streams.OpenSessionWasAccepted | crates/usahp-daemon/src/broker.rs:306-319 | an open session in a stream has its acceptance, followed only by events and rejections |
| Streams.EndedSessionIsBracketed | crates/usahp-daemon/src/broker.rs:335-347 | an ended session is bracketed by acceptance and revocation with one id, with only events and rejections between and only rejections after |
| Guarantees.FinishedSessionsAreBalanced | crates/usahp-daemon/src/broker.rs:203-346 | every session a served client saw end has consecutively numbered events in which each switch is pressed and released in turn and left released |
| Guarantees.HolderHearsExactlyItsSession | crates/usahp-daemon/src/broker.rs:226-235 | a served holder has been sent exactly the events numbered since its session began, which began with all released |
| Guarantees.ViewIsExactIffNothingIsStale | crates/usahp-daemon/src/broker.rs:170-181 | with no session open, or for the holder, a client's snapshot revised by its events equals the daemon's snapshots if and only if it did not join during a session or every switch it was shown pressed has been reported since |
| Guarantees.BystandersSeeEverythingReleased | crates/usahp-daemon/src/broker.rs:282-289 | during another client's session, a client that joined before any session sees every switch released |
| Guarantees.LateMeansJoinedDuringASession | crates/usahp-daemon/src/broker.rs:170-181 | the late clients are exactly those registered at a step at which a session was open |
| LateListener.LateListenerIsLeftBehind | crates/usahp-daemon/src/broker.rs:333-347 | a concrete run after which no session is open, every switch is released, and a client that joined during the session still shows one pressed |
| Guarantees.BystandersHearOnlyReplies | crates/usahp-daemon/src/broker.rs:226-238 | outside its own session and the legacy phase a client is sent, in one step, nothing or one handshake reply |
| Guarantees.NoEventsWhileStandingBy | crates/usahp-daemon/src/broker.rs:226-238 | the same for every step of every run |
| Guarantees.NoEdgeIsSwallowed | crates/usahp-daemon/src/broker.rs:226-235 | an edge numbered during a session reaches the holder, or the step ends with no session, paused, capture disabled and everything released |
| Guarantees.AcceptanceFromPauseHasEveryGrab | crates/usahp-daemon/src/broker.rs:268-280 | a session opened from pause opens with every backend alive, grabbed and having acknowledged |
| Guarantees.FocusChangeLeavesOnlyMatchingSessions | crates/usahp-daemon/src/broker.rs:121-131 | a focus change ends a session exactly for a declared process that is not frontmost, and otherwise changes nothing |
| Guarantees.HandshakesNeverDisturbASession | crates/usahp-daemon/src/broker.rs:252-266 | while a session is open no handshake changes it, the switches, capture or numbering; its sender gets the one rejection its own faults or the open session call for, or is dropped |
| Effects.HandleEffect | crates/usahp-daemon/src/broker.rs:101-166 | no step re-admits a client, reaches a dropped client's queue, reopens the legacy phase, or changes a session except by closing it, opening it on a handshake, or renewing it by its own heartbeat |
| Identity.IdsInUseWereIssued | crates/usahp-daemon/src/broker.rs:170-172 | every id in use was issued, nobody is both served and dropped, and a holder is one or the other |
| Identity.GoneClientsStayGone | crates/usahp-daemon/src/broker.rs:170-184 | a client once gone is never served again in any continuation, and holds at most the session it already held |
| Identity.IdsOnlyGrow | crates/usahp-daemon/src/broker.rs:170-172 | ids are issued in increasing order and never twice |
| Identity.RunsKeepSessionsInOrder | crates/usahp-daemon/src/broker.rs:299-305 | every session drew the next id, and all but an open one have been revoked once, in that order |
| Identity.StaleHeartbeatsChangeNothing | crates/usahp-daemon/src/broker.rs:112-119 | with distinct session ids, a heartbeat from another client or for a revoked session changes nothing |
| Timing.LeaseRecordsLatestRenewal | crates/usahp-daemon/src/broker.rs:112-119 | the recorded heartbeat time is that of the latest opening or matching heartbeat in the run |
| Timing.TrackerRecordsHoldStart | crates/usahp-daemon/src/broker.rs:207-219 | a tracked time is that of the first step since which the switch has been pressed inside the session |
| Timing.TickVerdictIsExact | crates/usahp-daemon/src/broker.rs:134-164 | a tick ends a session for a missed heartbeat exactly when nothing renewed it for 1500 ms, else by the escape hatch exactly when some switch was pressed throughout 4000 ms inside it, else changes nothing; a holder still served hears last its session's id and that cause |
| Timing.FocusVerdictIsExact | crates/usahp-daemon/src/broker.rs:121-131 | a focus change ends the session exactly when it declared a process that is not frontmost, and a holder still served hears last its id and the lost focus; otherwise nothing changes |
| Timing.EscapeHatchWaitsForTheSession | crates/usahp-daemon/src/broker.rs:295-305 | the escape hatch never fires before 4000 ms of the session, even for a switch held since before it |
| Timing.OpenSessionsAreTimely | crates/usahp-daemon/src/broker.rs:134-164 | if every step comes within D of the tick before it, an open session was renewed less than 1500 ms + D ago and no switch has been held in it for 4000 ms + D |
| Connections.HandleClient | crates/usahp-daemon/src/server.rs:51-92 | however queue and socket interleave, the handler forwards a prefix of the queue in order, passes on the commands of a prefix of the frames under its own id, and ends with one unregistration; unless cut off it forwarded everything |
| Connections.CommandsSpeakForTheFrames | crates/usahp-daemon/src/server.rs:62-88 | reading the commands back gives exactly the client messages among the frames, in order, all under this client's id |
| Connections.ForwardTakesTheOldest | crates/usahp-daemon/src/server.rs:54-60 | a forward turn takes the oldest waiting message and nothing else, and the handler stays exactly if it wrote it or must wait |
| Connections.TurnShrinksTheQueue | crates/usahp-daemon/src/server.rs:51-60 | once the broker has let go of a client nothing reaches its queue, and each forward turn shortens it or makes the handler leave |
| Connections.RemainingIsAMeasure | crates/usahp-daemon/src/server.rs:51-60 | the remaining queue bounds the forward turns the handler can still have |
| Connections.DroppedHolderIsRevoked | crates/usahp-daemon/src/server.rs:51-92 | after one forward turn more than messages queued, and then as many commands as are waiting, the dropped client holds no session, whatever interleaves |
| Connections.UnservedHolderWasLetGo | crates/usahp-daemon/src/broker.rs:257-266 | in every run a holder that is no longer served is such a client |

## Left out

- Runtimes.Runtime.HandleInput: the clock stands still within one handler, also while capture commands are awaited; a reading taken after the wait is modelled as the reading at the start of the step.
- Connections.DroppedHolderIsRevoked: the command queue is unbounded here, so a handler never waits for room in it; ticks and turns are counted, not promised to happen.
- Runtimes.Runtime.BroadcastMessage: queues are values held by the broker instead of heap objects shared with their receivers; aliasing of senders is not captured.
- Connections.HandleClient: begins once registration has succeeded; a connection whose registration fails ends without a command.
- Numbers of clients and events are unbounded; the wrap-around of 64-bit counters is not modelled, except that event times are clamped to 64 bits.
- Confidence values are real numbers, absent, or not finite; rounding of 32-bit floats is not modelled.
- The constant protocol version field of outgoing messages is omitted; that of handshakes is checked.
- The inner loop that drains stale device events is one outcome, drained or failed; reading and translating device events is not modelled.
- WebSocket transport, JSON and TOML handling, key tables, configuration checks, the simulator, the listener program and logging would only add easy members.
- A request to revoke carries whatever reason its sender gives; that reason is passed on, not judged.
- A handshake does not check the declared process against the frontmost one, so nothing is claimed about focus before the next focus change.
- Scheduling fairness between commands and ticks is not modelled; the time bounds take the largest gap between ticks as a premise.
