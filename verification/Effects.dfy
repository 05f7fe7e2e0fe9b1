/** What each handler can do to the session, the tracker and the set of clients, whatever the queues do. */
module Effects {
  import opened Protocol
  import opened Switchboard
  import opened Captures
  import opened Channels
  import opened Broker

  /** The parts no handler touches, and the one way clients can go except by registering. */
  ghost predicate Shrinks(s: State, s': State) {
    && s'.clock == s.clock && s'.started == s.started
    && s'.board.order == s.board.order && s'.board.table == s.board.table
    && s'.nextClient == s.nextClient && s'.late == s.late
    && s'.clients.Keys <= s.clients.Keys
    && s.dropped.Keys <= s'.dropped.Keys
    && Detached(s, s')
    && s.sequence <= s'.sequence
  }

  /** Nothing can reach the queue of a client that is no longer served. */
  ghost predicate Detached(s: State, s': State) {
    forall c :: c in s.dropped && c !in s.clients ==> c in s'.dropped && s'.dropped[c] == s.dropped[c]
  }

  /** Session, routing, tracker and revocation history all stay. */
  ghost predicate Steady(s: State, s': State) {
    && s'.session == s.session && s'.paused == s.paused && s'.escapeTracker == s.escapeTracker
    && s'.revocations == s.revocations && s'.drawn == s.drawn
  }

  /** The open session ends for a reason, and routing stops. */
  ghost predicate Closes(s: State, s': State, reason: RevocationReason) {
    && s.session.Some? && s'.session.None? && s'.paused && s'.escapeTracker == map[]
    && s'.revocations == s.revocations + [Revocation(s.session.value, reason)] && s'.drawn == s.drawn
  }

  /** The session a handshake opens. */
  function Offered(env: Env, s: State, at: Time, c: ClientId, h: Handshake): Session {
    Session(c, env.sessionIds(s.drawn), h.pid, at)
  }

  ghost predicate Opens(s: State, s': State, offer: Session) {
    && s.session.None? && s'.session == Some(offer) && offer.client in s'.clients
    && !s'.paused && s'.escapeTracker == map[]
    && s'.revocations == s.revocations && s'.drawn == s.drawn + 1
  }

  /** A session opened and lost in the same step, because its acceptance could not be delivered. */
  ghost predicate OpensInVain(s: State, s': State, offer: Session) {
    && s.session.None? && s'.session.None? && s'.paused && s'.escapeTracker == map[]
    && s'.revocations == s.revocations + [Revocation(offer, QueueOverflow)] && s'.drawn == s.drawn + 1
  }

  ghost predicate TurnsAway(s: State, s': State) {
    && s.session.None? && s'.session.None? && s'.paused
    && s'.revocations == s.revocations && s'.drawn == s.drawn
  }

  // ----- delivery -----

  lemma SendToEffect(env: Env, s: State, c: ClientId, m: ServerMessage)
    ensures var (s', sent) := SendTo(env, s, c, m);
      (sent ==> c in s'.clients) && Shrinks(s, s') && Steady(s, s') && s'.board == s.board && s'.capture == s.capture
  {
    hide Send;
  }

  lemma NotifyEffect(env: Env, s: State, c: ClientId, messages: seq<ServerMessage>)
    ensures var s' := Notify(env, s, c, messages);
      Shrinks(s, s') && Steady(s, s') && s'.board == s.board && s'.capture == s.capture
  {
    hide SendAll;
  }

  lemma BroadcastEffect(env: Env, s: State, m: ServerMessage)
    ensures var s' := Broadcast(env, s, m);
      Shrinks(s, s') && Steady(s, s') && s'.board == s.board && s'.capture == s.capture
  {
    hide Send;
    assert forall c :: c in Lost(Outcome(env, s.clients, m)) ==> c in s.clients;
  }

  lemma {:induction false} BroadcastAllEffect(env: Env, s: State, messages: seq<ServerMessage>)
    ensures var s' := BroadcastAll(env, s, messages);
      Shrinks(s, s') && Steady(s, s') && s'.board == s.board && s'.capture == s.capture
  {
    hide Broadcast;
    if |messages| > 0 {
      BroadcastAllEffect(env, s, messages[..|messages| - 1]);
      BroadcastEffect(env, BroadcastAll(env, s, messages[..|messages| - 1]), messages[|messages| - 1]);
    }
  }

  lemma ReleaseEffect(s: State, at: Time)
    ensures var s' := ReleaseHeld(s, at).0;
      Shrinks(s, s') && Steady(s, s') && s'.board.held == {} && s'.capture == s.capture
  {
    hide Releases, Board.Pressed;
  }

  // ----- handlers -----

  lemma RevokeEffect(env: Env, s: State, at: Time, reason: RevocationReason)
    requires s.session.Some?
    ensures var s' := Revoke(env, s, at, reason);
      Shrinks(s, s') && Closes(s, s', reason) && s'.board.held == {} && !s'.capture.enabled
  {
    hide ReleaseHeld, Notify, CommandAll;
    var quiet := Quiesced(env, s, reason);
    ReleaseEffect(quiet, at);
    var (s1, releases) := ReleaseHeld(quiet, at);
    NotifyEffect(env, s1, s.session.value.client, Messages(releases) + [SessionRevoked(s.session.value.id, reason)]);
    CommandKeepsFlag(s.capture.(enabled := false), Pause, env.fates);
  }

  lemma CommandKeepsFlag(cap: Capture, command: BackendCommand, fates: Fates)
    ensures CommandAll(cap, command, fates).0.enabled == cap.enabled
  {
  }

  lemma AdmitEffect(env: Env, s: State, at: Time, c: ClientId, h: Handshake)
    requires s.session.None?
    ensures var s' := Admit(env, s, at, c, h);
      && Shrinks(s, s')
      && (Opens(s, s', Offered(env, s, at, c, h)) || OpensInVain(s, s', Offered(env, s, at, c, h)) || TurnsAway(s, s'))
  {
    hide SendTo, Revoke, PauseAll, AcceptedReply;
    if c in s.clients {
      var open, reply := Opened(env, s, at, c, h), AcceptedReply(env.sessionIds(s.drawn));
      SendToEffect(env, open, c, reply);
      var (s1, accepted) := SendTo(env, open, c, reply);
      if !accepted {
        RevokeEffect(env, s1, at, QueueOverflow);
      }
    }
  }

  lemma HandshakeEffect(env: Env, s: State, at: Time, c: ClientId, h: Handshake)
    ensures var s', offer := Handshaken(env, s, at, c, h), Offered(env, s, at, c, h);
      && Shrinks(s, s')
      && (Steady(s, s') || Opens(s, s', offer) || OpensInVain(s, s', offer) || TurnsAway(s, s'))
  {
    hide SendTo, Admit, ReleaseHeld, BroadcastAll, ResumeAll, ValidAppId;
    var rejection := RejectionOf(s, h);
    if rejection.Some? {
      SendToEffect(env, s, c, Rejected(rejection.value));
    } else if s.paused {
      var (capture, error) := ResumeAll(s.capture, env.fates);
      var s1 := s.(capture := capture);
      if error.Some? {
        SendToEffect(env, s1, c, Rejected(CaptureUnavailable));
      } else {
        AdmitEffect(env, s1, at, c, h);
      }
    } else {
      var (s1, releases) := ReleaseHeld(s, at);
      ReleaseEffect(s, at);
      BroadcastAllEffect(env, s1, Messages(releases));
      AdmitEffect(env, BroadcastAll(env, s1, Messages(releases)), at, c, h);
    }
  }

  /** An input leaves routing alone, follows one edge, or ends the session by overflow. */
  lemma InputEffect(env: Env, s: State, at: Time, e: PhysicalEvent)
    ensures var s' := PhysicalInput(env, s, at, e);
      && Shrinks(s, s')
      && (Steady(s, s') || Closes(s, s', QueueOverflow) ||
          (!s.paused &&
           s'.board == s.board.Apply(e.mappingId, e.action, ValidateConfidence(e.confidence)).0 &&
           var verdict := s.board.Apply(e.mappingId, e.action, ValidateConfidence(e.confidence)).1;
           verdict.Ok? && verdict.value.Some? &&
           Steady(s.(escapeTracker := Track(s.escapeTracker, at, verdict.value.value)), s')))
  {
    hide RouteEdge, Board.Pressed, ValidateConfidence, Track;
    if !s.paused && s.capture.enabled {
      var (board, verdict) := s.board.Apply(e.mappingId, e.action, ValidateConfidence(e.confidence));
      if verdict.Ok? && verdict.value.Some? {
        RouteEffect(env, s.(board := board), at, verdict.value.value);
      }
    }
  }

  lemma RouteEffect(env: Env, s: State, at: Time, edge: LogicalTransition)
    ensures var s' := RouteEdge(env, s, at, edge);
      && Shrinks(s, s')
      && (Closes(s, s', QueueOverflow) ||
          (s'.board == s.board && Steady(s.(escapeTracker := Track(s.escapeTracker, at, edge)), s')))
  {
    hide SendTo, Broadcast, Revoke, Track;
    var (s1, events) := Number(s.(escapeTracker := Track(s.escapeTracker, at, edge)), at, [edge]);
    if s1.session.None? {
      BroadcastEffect(env, s1, Event(events[0]));
    } else {
      SendToEffect(env, s1, s1.session.value.client, Event(events[0]));
      var (s2, sent) := SendTo(env, s1, s1.session.value.client, Event(events[0]));
      if !sent {
        RevokeEffect(env, s2, at, QueueOverflow);
      }
    }
  }

  lemma UnregisterEffect(env: Env, s: State, at: Time, c: ClientId)
    ensures var s' := UnregisterClient(env, s, at, c);
      && Shrinks(s, s') && c !in s'.clients
      && (s'.session.Some? ==> s'.session.value.client != c)
      && (Steady(s, s') || Closes(s, s', ExplicitRevocation))
  {
    hide Revoke;
    var s1 := Drop(s, c);
    if s1.session.Some? && s1.session.value.client == c {
      RevokeEffect(env, s1, at, ExplicitRevocation);
    }
  }

  /** Registration is the only way to gain a client, always under an id never issued before. */
  ghost predicate Registers(s: State, s': State) {
    && s'.clock == s.clock && s'.started == s.started && s'.board == s.board
    && s'.nextClient == s.nextClient + 1
    && s'.clients.Keys <= s.clients.Keys + {s.nextClient}
    && s.dropped.Keys <= s'.dropped.Keys
    && Detached(s, s')
  }

  lemma RegisterEffect(env: Env, s: State, capacity: nat)
    ensures var s' := RegisterClient(env, s, capacity);
      Registers(s, s') && Steady(s, s') && s'.sequence == s.sequence
  {
    hide Send, Render;
  }

  /** The session stays, ends, is opened by a handshake, or has its lease renewed by its own heartbeat. */
  ghost predicate SessionMoves(env: Env, s: State, s': State, at: Time, input: Input) {
    || s'.session == s.session
    || s'.session.None?
    || (input.Shake? && Opens(s, s', Offered(env, s, at, input.client, input.handshake)))
    || (s.session.Some? && input == Heartbeat(s.session.value.client, s.session.value.id) &&
        s'.session == Some(s.session.value.(lastHeartbeat := at)))
  }

  /** No session has ever been asked for successfully: every client hears every edge. */
  predicate Legacy(s: State) {
    s.session.None? && !s.paused
  }

  lemma RevokeOrIdleEffect(env: Env, s: State, at: Time, reason: RevocationReason)
    ensures var s' := Revoke(env, s, at, reason);
      Shrinks(s, s') && (Closes(s, s', reason) || (s.session.None? && s' == s))
  {
    if s.session.Some? {
      RevokeEffect(env, s, at, reason);
    }
  }

  /** No command or tick touches the clock, the start time or the configured switches, or recalls a client. */
  lemma HandleEffect(env: Env, s: State, at: Time, input: Input)
    ensures var s' := Handle(env, s, at, input);
      && s'.clock == s.clock && s'.started == s.started
      && s'.board.order == s.board.order && s'.board.table == s.board.table
      && (Shrinks(s, s') || (input.Register? && Registers(s, s')))
      && SessionMoves(env, s, s', at, input)
      && (Legacy(s') ==> Legacy(s))
  {
    hide RegisterClient, UnregisterClient, PhysicalInput, Handshaken, Revoke;
    match input
    case Register(capacity) => RegisterEffect(env, s, capacity);
    case Unregister(c) => UnregisterEffect(env, s, at, c);
    case Physical(e) => InputEffect(env, s, at, e);
    case Shake(c, h) => HandshakeEffect(env, s, at, c, h);
    case Heartbeat(_, _) =>
    case RevokeSession(reason) => RevokeOrIdleEffect(env, s, at, reason);
    case FocusChanged(_) => RevokeOrIdleEffect(env, s, at, FocusLost);
    case Tick =>
      RevokeOrIdleEffect(env, s, at, HeartbeatTimeout);
      RevokeOrIdleEffect(env, s, at, EscapeHatch);
  }
}
