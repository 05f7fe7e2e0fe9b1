/**
 * The session broker as a state machine: one step per command or tick, at one clock reading.
 * Everything the broker cannot control is an oracle in `Env`.
 */
module Broker {
  import opened Protocol
  import opened Switchboard
  import opened Captures
  import opened Channels

  /** Consumers by client id, capture hardware by exchange and backend, and the session ids drawn. */
  datatype Env = Env(consumers: ClientId -> Consumer, fates: Fates, sessionIds: nat -> SessionId)

  datatype Session = Session(client: ClientId, id: SessionId, pid: Option<nat>, lastHeartbeat: Time)

  datatype Revocation = Revocation(session: Session, cause: RevocationReason)

  datatype State = State(
    board: Board,
    capture: Capture,
    started: Time,
    sequence: nat,
    nextClient: ClientId,
    /** The channels whose sender the broker still holds. */
    clients: map<ClientId, Channel>,
    session: Option<Session>,
    paused: bool,
    escapeTracker: map<SwitchId, Time>,
    /** How many session ids have been drawn. */
    drawn: nat,
    // Histories; no step reads them.
    clock: Time,
    events: seq<SwitchEvent>,
    dropped: map<ClientId, Channel>,
    late: set<ClientId>,
    sessionMark: nat,
    revocations: seq<Revocation>)

  datatype PhysicalEvent = PhysicalEvent(mappingId: MappingId, action: Action, confidence: Reading)

  datatype Input =
    | Register(capacity: nat)
    | Unregister(client: ClientId)
    | Physical(physical: PhysicalEvent)
    | Shake(client: ClientId, handshake: Handshake)
    | Heartbeat(client: ClientId, sessionId: SessionId)
    | RevokeSession(reason: RevocationReason)
    | FocusChanged(frontmost: Option<nat>)
    | Tick

  function NewState(mappings: seq<Mapping>, backends: seq<Backend>, started: Time): State {
    State(NewBoard(mappings), Capture(true, backends, 0), started, 0, 1, map[], None, false, map[], 0,
          started, [], map[], {}, 0, [])
  }

  // ----- numbering -----

  /** The events for a list of logical edges, numbered onwards from `sequence`. */
  function Numbered(sequence: nat, us: nat, edges: seq<LogicalTransition>): seq<SwitchEvent> {
    seq(|edges|, i requires 0 <= i < |edges| => SwitchEvent(sequence + 1 + i, us, edges[i]))
  }

  function Messages(events: seq<SwitchEvent>): seq<ServerMessage> {
    seq(|events|, i requires 0 <= i < |events| => Event(events[i]))
  }

  /** The state after numbering some edges, and their events. */
  function Number(s: State, at: Time, edges: seq<LogicalTransition>): (State, seq<SwitchEvent>) {
    var events := Numbered(s.sequence, MonotonicUs(at, s.started), edges);
    (s.(sequence := s.sequence + |edges|, events := s.events + events), events)
  }

  function ReleaseHeld(s: State, at: Time): (State, seq<SwitchEvent>) {
    var (board, releases) := s.board.ReleaseAll();
    Number(s.(board := board), at, releases)
  }

  // ----- delivery -----

  function Drop(s: State, c: ClientId): State {
    if c in s.clients then s.(clients := s.clients - {c}, dropped := s.dropped[c := s.clients[c]]) else s
  }

  /** One message to one client; a client that cannot take it is dropped. */
  function SendTo(env: Env, s: State, c: ClientId, m: ServerMessage): (State, bool) {
    if c !in s.clients then (s, false)
    else
      var (ch, ok) := Send(s.clients[c], env.consumers(c), m);
      var s1 := s.(clients := s.clients[c := ch]);
      (if ok then s1 else Drop(s1, c), ok)
  }

  type Outcomes = map<ClientId, (Channel, bool)>

  /** What one message does to each client on its own. */
  function Outcome(env: Env, clients: map<ClientId, Channel>, m: ServerMessage): Outcomes {
    map c | c in clients :: Send(clients[c], env.consumers(c), m)
  }

  function Kept(outcomes: Outcomes): map<ClientId, Channel> {
    map c | c in outcomes && outcomes[c].1 :: outcomes[c].0
  }

  function Lost(outcomes: Outcomes): map<ClientId, Channel> {
    map c | c in outcomes && !outcomes[c].1 :: outcomes[c].0
  }

  /** Each client on its own either takes the message or is dropped. */
  function Broadcast(env: Env, s: State, m: ServerMessage): State {
    var outcomes := Outcome(env, s.clients, m);
    s.(clients := Kept(outcomes), dropped := s.dropped + Lost(outcomes))
  }

  function BroadcastAll(env: Env, s: State, messages: seq<ServerMessage>): State {
    if |messages| == 0 then s
    else Broadcast(env, BroadcastAll(env, s, messages[..|messages| - 1]), messages[|messages| - 1])
  }

  // ----- commands -----

  function RegisterClient(env: Env, s: State, capacity: nat): State {
    var c := s.nextClient;
    var (ch, ok) := Send(NewChannel(capacity), env.consumers(c), Hello(s.board.Snapshots()));
    if ok then
      s.(nextClient := c + 1, clients := s.clients[c := ch],
         late := if s.session.Some? then s.late + {c} else s.late)
    else
      s.(nextClient := c + 1)
  }

  /** The session is taken, capture paused and routing stopped, before anything is released. */
  function Quiesced(env: Env, s: State, reason: RevocationReason): State
    requires s.session.Some?
  {
    s.(session := None, escapeTracker := map[], capture := PauseAll(s.capture, env.fates).0, paused := true,
       revocations := s.revocations + [Revocation(s.session.value, reason)])
  }

  /** Several messages to one client, all tried; a client that misses any of them is dropped. */
  function Notify(env: Env, s: State, c: ClientId, messages: seq<ServerMessage>): State {
    if c !in s.clients then s
    else
      var (ch, ok) := SendAll(s.clients[c], env.consumers(c), messages);
      var s1 := s.(clients := s.clients[c := ch]);
      if ok then s1 else Drop(s1, c)
  }

  function Revoke(env: Env, s: State, at: Time, reason: RevocationReason): State {
    if s.session.None? then s
    else
      var session := s.session.value;
      var (s1, releases) := ReleaseHeld(Quiesced(env, s, reason), at);
      Notify(env, s1, session.client, Messages(releases) + [SessionRevoked(session.id, reason)])
  }

  function UnregisterClient(env: Env, s: State, at: Time, c: ClientId): State {
    var s1 := Drop(s, c);
    if s1.session.Some? && s1.session.value.client == c then Revoke(env, s1, at, ExplicitRevocation) else s1
  }

  function Track(tracker: map<SwitchId, Time>, at: Time, edge: LogicalTransition): map<SwitchId, Time> {
    if edge.action == Pressed then tracker[edge.switchId := at] else tracker - {edge.switchId}
  }

  function PhysicalInput(env: Env, s: State, at: Time, e: PhysicalEvent): State {
    if s.paused || !s.capture.enabled then s
    else
      var (board, verdict) := s.board.Apply(e.mappingId, e.action, ValidateConfidence(e.confidence));
      var s1 := s.(board := board);
      if verdict.Err? || verdict.value.None? then s1
      else RouteEdge(env, s1, at, verdict.value.value)
  }

  function RouteEdge(env: Env, s: State, at: Time, edge: LogicalTransition): State {
    var (s1, events) := Number(s.(escapeTracker := Track(s.escapeTracker, at, edge)), at, [edge]);
    if s1.session.None? then Broadcast(env, s1, Event(events[0]))
    else
      var (s2, sent) := SendTo(env, s1, s1.session.value.client, Event(events[0]));
      if sent then s2 else Revoke(env, s2, at, QueueOverflow)
  }

  function RejectionOf(s: State, h: Handshake): Option<RejectionReason> {
    if h.protocolVersion != PROTOCOL_VERSION then Some(ProtocolMismatch)
    else if !ValidAppId(h.appId) then Some(InvalidAppId)
    else if !h.mode.ExclusiveForeground? then Some(UnsupportedMode)
    else if s.session.Some? then Some(SessionBusy)
    else None
  }

  function AcceptedReply(id: SessionId): ServerMessage {
    Accepted(id, HEARTBEAT_INTERVAL_MS, MISSED_HEARTBEAT_LIMIT)
  }

  function Handshaken(env: Env, s: State, at: Time, c: ClientId, h: Handshake): State {
    var rejection := RejectionOf(s, h);
    if rejection.Some? then SendTo(env, s, c, Rejected(rejection.value)).0
    else if s.paused then
      var (capture, error) := ResumeAll(s.capture, env.fates);
      var s1 := s.(capture := capture);
      if error.Some? then SendTo(env, s1, c, Rejected(CaptureUnavailable)).0
      else Admit(env, s1, at, c, h)
    else
      var (s1, releases) := ReleaseHeld(s, at);
      Admit(env, BroadcastAll(env, s1, Messages(releases)), at, c, h)
  }

  /** Capture is running and nothing is held: open the session, unless its client is already gone. */
  function Admit(env: Env, s: State, at: Time, c: ClientId, h: Handshake): State {
    if c !in s.clients then s.(capture := PauseAll(s.capture, env.fates).0, paused := true)
    else
      var (s1, accepted) := SendTo(env, Opened(env, s, at, c, h), c, AcceptedReply(env.sessionIds(s.drawn)));
      if accepted then s1 else Revoke(env, s1, at, QueueOverflow)
  }

  function Opened(env: Env, s: State, at: Time, c: ClientId, h: Handshake): State {
    s.(paused := false, escapeTracker := map[], drawn := s.drawn + 1, sessionMark := |s.events|,
       session := Some(Session(c, env.sessionIds(s.drawn), h.pid, at)))
  }

  function Beat(s: State, at: Time, c: ClientId, id: SessionId): State {
    if s.session.Some? && s.session.value.client == c && s.session.value.id == id
    then s.(session := Some(s.session.value.(lastHeartbeat := at)))
    else s
  }

  function FocusMoved(env: Env, s: State, at: Time, frontmost: Option<nat>): State {
    if s.session.Some? && s.session.value.pid.Some? && s.session.value.pid != frontmost
    then Revoke(env, s, at, FocusLost)
    else s
  }

  predicate LeaseExpired(s: State, at: Time) {
    s.session.Some? && Elapsed(at, s.session.value.lastHeartbeat) >= LEASE
  }

  predicate HeldTooLong(s: State, at: Time) {
    exists sw :: sw in s.escapeTracker && Elapsed(at, s.escapeTracker[sw]) >= ESCAPE_HOLD
  }

  function Ticked(env: Env, s: State, at: Time): State {
    if LeaseExpired(s, at) then Revoke(env, s, at, HeartbeatTimeout)
    else if s.session.Some? && HeldTooLong(s, at) then Revoke(env, s, at, EscapeHatch)
    else s
  }

  function Handle(env: Env, s: State, at: Time, input: Input): State {
    match input
    case Register(capacity) => RegisterClient(env, s, capacity)
    case Unregister(c) => UnregisterClient(env, s, at, c)
    case Physical(e) => PhysicalInput(env, s, at, e)
    case Shake(c, h) => Handshaken(env, s, at, c, h)
    case Heartbeat(c, id) => Beat(s, at, c, id)
    case RevokeSession(reason) => Revoke(env, s, at, reason)
    case FocusChanged(frontmost) => FocusMoved(env, s, at, frontmost)
    case Tick => Ticked(env, s, at)
  }

  // ----- runs -----

  datatype Stamped = Stamped(at: Time, input: Input)

  function Step(env: Env, s: State, x: Stamped): State {
    Handle(env, s.(clock := x.at), x.at, x.input)
  }

  function Run(env: Env, s: State, trace: seq<Stamped>): State {
    if |trace| == 0 then s
    else Step(env, Run(env, s, trace[..|trace| - 1]), trace[|trace| - 1])
  }

  /** Clock readings never go back, and none precedes the start. */
  predicate Timely(started: Time, trace: seq<Stamped>) {
    && (forall i :: 0 <= i < |trace| ==> started <= trace[i].at)
    && (forall i, j :: 0 <= i < j < |trace| ==> trace[i].at <= trace[j].at)
  }

  /** One daemon: what it is configured with, and everything outside its control. */
  datatype Daemon = Daemon(env: Env, mappings: seq<Mapping>, backends: seq<Backend>, started: Time) {
    function After(trace: seq<Stamped>): State {
      Run(env, NewState(mappings, backends, started), trace)
    }
  }

  lemma OneMoreStep(d: Daemon, trace: seq<Stamped>, x: Stamped)
    ensures d.After(trace + [x]) == Step(d.env, d.After(trace), x)
    ensures Timely(d.started, trace + [x]) ==>
      Timely(d.started, trace) && d.started <= x.at && (|trace| > 0 ==> trace[|trace| - 1].at <= x.at)
  {
    hide Step, NewState;
    assert (trace + [x])[..|trace|] == trace;
    if Timely(d.started, trace + [x]) {
      TimelyPrefix(d.started, trace + [x], |trace|);
      assert (trace + [x])[|trace|] == x;
    }
  }

  lemma TimelyPrefix(started: Time, trace: seq<Stamped>, n: nat)
    requires Timely(started, trace) && n <= |trace|
    ensures Timely(started, trace[..n])
  {
  }
}
