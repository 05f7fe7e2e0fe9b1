/**
 * What each command or tick must do to the broker, stated without reference to how it is done: the conditions are
 * on the input, the state before, and what the clients and backends then do. Every step of every run follows
 * these rules, and the rules leave no choice.
 */
module Rules {
  import opened Protocol
  import opened TextOrder
  import opened Edges
  import opened Switchboard
  import opened Captures
  import opened Channels
  import opened Broker
  import opened Deliveries
  import opened Invariant
  import opened Effects

  // ----- events -----

  /** The events numbered between two states. */
  function Since(s: State, s': State): seq<SwitchEvent> {
    if |s.events| <= |s'.events| then s'.events[|s.events|..] else []
  }

  /** Whole microseconds since the start, or all that 64 bits can hold. */
  predicate StampedAt(us: nat, started: Time, at: Time) {
    var nanos := if started <= at then at - started else 0;
    if nanos < 1000 * 0x1_0000_0000_0000_0000 then 1000 * us <= nanos < 1000 * us + 1000
    else us == 0xFFFF_FFFF_FFFF_FFFF
  }

  /** These are the next events, in number and in time. */
  predicate Continues(s: State, at: Time, events: seq<SwitchEvent>) {
    forall i :: 0 <= i < |events| ==>
      events[i].sequence == s.sequence + 1 + i && StampedAt(events[i].monotonicUs, s.started, at)
  }

  /** These events release exactly the pressed switches, in key order and at zero confidence. */
  predicate ReleasesPressed(s: State, at: Time, releases: seq<SwitchEvent>) {
    && Continues(s, at, releases)
    && IncreasingReleases(EdgesOf(releases))
    && SwitchesOf(EdgesOf(releases)) == s.board.Pressed()
  }

  /** Nothing held, `releases` numbered, clients and capture as they turned out. */
  function Emptied(s: State, s': State, at: Time, releases: seq<SwitchEvent>): State {
    s.(clock := at, board := s.board.(held := {}), capture := s'.capture,
       sequence := s.sequence + |releases|, events := s.events + releases,
       clients := s'.clients, dropped := s'.dropped)
  }

  // ----- the end of a session -----

  /**
   * The open session ends for this reason. Routing stops, capture is told to pause, every pressed switch is
   * released, and the holder alone is sent those releases and then the notice naming its session and the reason.
   */
  ghost predicate Ends(env: Env, s: State, s': State, at: Time, reason: RevocationReason) {
    && s.session.Some?
    && var session, releases := s.session.value, Since(s, s');
    && ReleasesPressed(s, at, releases)
    && s' == Emptied(s, s', at, releases).(
         session := None, paused := true, escapeTracker := map[],
         revocations := s.revocations + [Revocation(session, reason)])
    && !s'.capture.enabled && Commanded(s.capture, s'.capture, Pause, env.fates)
    && OnlyFor(s, s', session.client)
    && TellsAll(env, s, s', session.client, Messages(releases) + [SessionRevoked(session.id, reason)])
  }

  ghost predicate EndsIfOpen(env: Env, s: State, s': State, at: Time, reason: RevocationReason) {
    if s.session.Some? then Ends(env, s, s', at, reason) else s' == s.(clock := at)
  }

  // ----- registration -----

  /** Each configured switch in order, with its true state and no confidence. */
  predicate Shows(board: Board, switches: seq<SwitchSnapshot>) {
    && |switches| == |board.order|
    && forall i :: 0 <= i < |switches| ==>
         && switches[i].switchId == board.order[i] && switches[i].confidence == None
         && (switches[i].state == IsPressed <==> board.order[i] in board.Pressed())
  }

  /** The next id is used up; its client is served, with the snapshot in its queue, exactly if the snapshot fits. */
  ghost predicate Registered(env: Env, s: State, s': State, at: Time, capacity: nat) {
    var c := s.nextClient;
    if capacity > 0 && !env.consumers(c)(0).closes then
      && c in s'.clients
      && var ch := s'.clients[c];
      && |ch.delivered| == 1 && ch.delivered[0].Hello? && Shows(s.board, ch.delivered[0].switches)
      && ch == Channel(capacity, ch.delivered, false, ch.delivered, ch.delivered)
      && s' == s.(clock := at, nextClient := c + 1, clients := s.clients[c := ch],
                  late := if s.session.Some? then s.late + {c} else s.late)
    else
      s' == s.(clock := at, nextClient := c + 1)
  }

  /** The client is gone, and with it the session it held. */
  ghost predicate Unregistered(env: Env, s: State, s': State, at: Time, c: ClientId) {
    var rest := s.(clock := at, clients := s.clients - {c},
                   dropped := if c in s.clients then s.dropped[c := s.clients[c]] else s.dropped);
    if s.session.Some? && s.session.value.client == c then Ends(env, rest, s', at, ExplicitRevocation) else s' == rest
  }

  // ----- input -----

  ghost predicate HasRoom(env: Env, s: State, c: ClientId, n: nat) {
    c in s.clients && Takes(s.clients[c], env.consumers(c), n)
  }

  /**
   * A physical edge counts when routing is on, its mapping is configured, and it changes the mapping's state. It then
   * changes that mapping alone, and becomes an event exactly when the set of pressed switches changes.
   */
  ghost predicate InputTaken(env: Env, s: State, s': State, at: Time, e: PhysicalEvent) {
    var m, held := e.mappingId, s.board.held;
    if s.paused || m !in s.board.table || (m in held <==> e.action == Pressed) then
      s' == s.(clock := at)
    else
      var board := s.board.(held := if e.action == Pressed then held + {m} else held - {m});
      if board.Pressed() == s.board.Pressed() then
        s' == s.(clock := at, board := board)
      else
        && |s.events| < |s'.events|
        && var event := s'.events[|s.events|];
        && event.edge == LogicalTransition(s.board.table[m], e.action, ValidateConfidence(e.confidence))
        && EventRouted(env, s, s', at, board, event)
  }

  /**
   * The event is the next one, and the escape tracker follows it. Without a session everyone is told; in a
   * session the holder alone, and the session ends by overflow exactly if the holder has no room for it.
   */
  ghost predicate EventRouted(env: Env, s: State, s': State, at: Time, board: Board, event: SwitchEvent) {
    var sw := event.edge.switchId;
    var routed := s.(
      clock := at, board := board, sequence := s.sequence + 1, events := s.events + [event],
      escapeTracker := if event.edge.action == Pressed then s.escapeTracker[sw := at] else s.escapeTracker - {sw},
      clients := s'.clients, dropped := s'.dropped);
    && Continues(s, at, [event])
    && if s.session.None? then
         s' == routed && forall k :: Tells(env, s, s', k, [Event(event)])
       else
         var h := s.session.value.client;
         && OnlyFor(s, s', h) && Tells(env, s, s', h, [Event(event)])
         && if HasRoom(env, s, h, 1) then s' == routed else Ends(env, routed, s', at, QueueOverflow)
  }

  // ----- handshakes -----

  /** The requester alone is sent this reason; nothing else changes. */
  ghost predicate Declines(env: Env, s: State, s': State, at: Time, c: ClientId, reason: RejectionReason) {
    && s' == s.(clock := at, clients := s'.clients, dropped := s'.dropped)
    && OnlyFor(s, s', c) && Tells(env, s, s', c, [Rejected(reason)])
  }

  /** Capture as a handshake finds it once it may go ahead: resumed if it was paused. */
  ghost predicate Reacquired(env: Env, s: State, capture: Capture) {
    if s.paused then capture.enabled && Commanded(s.capture, capture, Resume, env.fates) else capture == s.capture
  }

  /** Capture paused again after that. */
  ghost predicate StoodDown(env: Env, s: State, capture: Capture) {
    !capture.enabled &&
    exists mid: Capture :: Reacquired(env, s, mid) && Commanded(mid, capture, Pause, env.fates)
  }

  /** The requester did not survive the releases: routing stops and no session id is drawn. */
  ghost predicate TurnsAwayFor(env: Env, s: State, s': State, at: Time, releases: seq<SwitchEvent>) {
    && s' == Emptied(s, s', at, releases).(paused := true)
    && StoodDown(env, s, s'.capture)
    && forall k :: Tells(env, s, s', k, Messages(releases))
  }

  /** Everyone is told the releases, and the requester then that it is accepted, with its lease of 3 times 500 ms. */
  ghost predicate TellsAcceptance(env: Env, s: State, s': State, c: ClientId, releases: seq<SwitchEvent>) {
    && (forall k :: k != c ==> Tells(env, s, s', k, Messages(releases)))
    && Tells(env, s, s', c, Messages(releases) + [Accepted(env.sessionIds(s.drawn), 500, 3)])
  }

  ghost predicate OpensFor(
    env: Env, s: State, s': State, at: Time, c: ClientId, h: Handshake, releases: seq<SwitchEvent>)
  {
    && s' == Emptied(s, s', at, releases).(
         paused := false, escapeTracker := map[], session := Some(Offered(env, s, at, c, h)), drawn := s.drawn + 1,
         sessionMark := |s.events| + |releases|)
    && Reacquired(env, s, s'.capture)
    && TellsAcceptance(env, s, s', c, releases)
  }

  /** The acceptance does not fit: the session just opened ends by overflow. */
  ghost predicate OpensAndEndsFor(
    env: Env, s: State, s': State, at: Time, c: ClientId, h: Handshake, releases: seq<SwitchEvent>)
  {
    && s' == Emptied(s, s', at, releases).(
         paused := true, escapeTracker := map[], drawn := s.drawn + 1, sessionMark := |s.events| + |releases|,
         revocations := s.revocations + [Revocation(Offered(env, s, at, c, h), QueueOverflow)])
    && StoodDown(env, s, s'.capture)
    && TellsAcceptance(env, s, s', c, releases)
  }

  /**
   * The first objection decides. Without one, what is held is released to everyone, and a session opens exactly
   * if the requester has room for those releases and for its acceptance.
   */
  ghost predicate HandshakeAnswered(env: Env, s: State, s': State, at: Time, c: ClientId, h: Handshake) {
    if h.protocolVersion != "0.3.0" then Declines(env, s, s', at, c, ProtocolMismatch)
    else if !ValidAppId(h.appId) then Declines(env, s, s', at, c, InvalidAppId)
    else if h.mode != ExclusiveForeground then Declines(env, s, s', at, c, UnsupportedMode)
    else if s.session.Some? then Declines(env, s, s', at, c, SessionBusy)
    else if s.paused && !AllAcknowledge(s.capture, Resume, env.fates) then
      && RolledBack(s.capture, s'.capture, env.fates)
      && Declines(env, s.(capture := s'.capture), s', at, c, CaptureUnavailable)
    else
      var pressed, releases := |s.board.Pressed()|, Since(s, s');
      && ReleasesPressed(s, at, releases)
      && if !HasRoom(env, s, c, pressed) then TurnsAwayFor(env, s, s', at, releases)
         else if !HasRoom(env, s, c, pressed + 1) then OpensAndEndsFor(env, s, s', at, c, h, releases)
         else OpensFor(env, s, s', at, c, h, releases)
  }

  // ----- every command -----

  ghost predicate Renewed(s: State, s': State, at: Time, c: ClientId, id: SessionId) {
    if s.session.Some? && s.session.value.client == c && s.session.value.id == id then
      s' == s.(clock := at, session := Some(Session(c, id, s.session.value.pid, at)))
    else
      s' == s.(clock := at)
  }

  ghost predicate FocusFollowed(env: Env, s: State, s': State, at: Time, frontmost: Option<nat>) {
    if s.session.Some? && s.session.value.pid.Some? && s.session.value.pid != frontmost then
      Ends(env, s, s', at, FocusLost)
    else
      s' == s.(clock := at)
  }

  ghost predicate TickTaken(env: Env, s: State, s': State, at: Time) {
    if s.session.Some? && s.session.value.lastHeartbeat + 1_500_000_000 <= at then
      Ends(env, s, s', at, HeartbeatTimeout)
    else if s.session.Some? && exists sw :: sw in s.escapeTracker && s.escapeTracker[sw] + 4_000_000_000 <= at then
      Ends(env, s, s', at, EscapeHatch)
    else
      s' == s.(clock := at)
  }

  ghost predicate Follows(env: Env, s: State, s': State, x: Stamped) {
    match x.input
    case Register(capacity) => Registered(env, s, s', x.at, capacity)
    case Unregister(c) => Unregistered(env, s, s', x.at, c)
    case Physical(e) => InputTaken(env, s, s', x.at, e)
    case Shake(c, h) => HandshakeAnswered(env, s, s', x.at, c, h)
    case Heartbeat(c, id) => Renewed(s, s', x.at, c, id)
    case RevokeSession(reason) => EndsIfOpen(env, s, s', x.at, reason)
    case FocusChanged(frontmost) => FocusFollowed(env, s, s', x.at, frontmost)
    case Tick => TickTaken(env, s, s', x.at)
  }

  // ----- the handlers follow the rules -----

  lemma StampIsExact(at: Time, started: Time)
    ensures StampedAt(MonotonicUs(at, started), started, at)
  {
  }

  lemma NumberedContinues(s: State, at: Time, edges: seq<LogicalTransition>)
    ensures var events := Numbered(s.sequence, MonotonicUs(at, s.started), edges);
      Continues(s, at, events) && EdgesOf(events) == edges
  {
    hide StampedAt, MonotonicUs;
    StampIsExact(at, s.started);
  }

  lemma ReleaseHeldIsExact(s: State, at: Time)
    requires s.board.Valid()
    ensures var (s', releases) := ReleaseHeld(s, at);
      && ReleasesPressed(s, at, releases)
      && s' == s.(board := s.board.(held := {}), sequence := s.sequence + |releases|, events := s.events + releases)
  {
    hide IncreasingReleases, MonotonicUs, Releases;
    ReleaseAllIsAnOrderedReset(s.board);
    NumberedContinues(s, at, s.board.ReleaseAll().1);
  }

  lemma RevokeEnds(env: Env, s: State, at: Time, reason: RevocationReason)
    requires s.session.Some? && s.board.Valid()
    ensures Ends(env, s, Revoke(env, s.(clock := at), at, reason), at, reason)
  {
    hide ReleaseHeld, Notify, PauseAll, ReleasesPressed, Commanded, OnlyFor, TellsAll, Messages;
    var quiet := Quiesced(env, s.(clock := at), reason);
    ReleaseHeldIsExact(quiet, at);
    PauseReleasesDevices(s.capture, env.fates);
    var (s1, releases) := ReleaseHeld(quiet, at);
    var h := s.session.value.client;
    var messages := Messages(releases) + [SessionRevoked(s.session.value.id, reason)];
    NotifyTellsAll(env, s1, h, messages);
    var s' := Notify(env, s1, h, messages);
    assert s'.events == s.events + releases && Since(s, s') == releases;
    SameReleases(quiet, s, at, releases);
    SameAudience(env, s1, s, s', h, messages);
  }

  lemma SameReleases(s: State, t: State, at: Time, releases: seq<SwitchEvent>)
    requires s.board == t.board && s.sequence == t.sequence && s.started == t.started
    ensures ReleasesPressed(s, at, releases) <==> ReleasesPressed(t, at, releases)
  {
  }

  /** Who is told what depends on the served and dropped clients alone. */
  lemma SameAudience(env: Env, s: State, t: State, s': State, c: ClientId, messages: seq<ServerMessage>)
    requires s.clients == t.clients && s.dropped == t.dropped
    ensures OnlyFor(s, s', c) <==> OnlyFor(t, s', c)
    ensures Tells(env, s, s', c, messages) <==> Tells(env, t, s', c, messages)
    ensures TellsAll(env, s, s', c, messages) <==> TellsAll(env, t, s', c, messages)
  {
    hide Took, Takes, Fits, Fitting, MissedOne;
    forall k ensures SameClient(s, s', k) <==> SameClient(t, s', k) {
    }
  }

  lemma SameOutcome(env: Env, s: State, s': State, t': State, c: ClientId, messages: seq<ServerMessage>)
    requires s'.clients == t'.clients && s'.dropped == t'.dropped
    ensures OnlyFor(s, s', c) <==> OnlyFor(s, t', c)
    ensures Tells(env, s, s', c, messages) <==> Tells(env, s, t', c, messages)
  {
    hide Took, Takes, Fits, Fitting, MissedOne;
    forall k ensures SameClient(s, s', k) <==> SameClient(s, t', k) {
    }
  }

  lemma RevokeEndsIfOpen(env: Env, s: State, at: Time, reason: RevocationReason)
    requires s.board.Valid()
    ensures EndsIfOpen(env, s, Revoke(env, s.(clock := at), at, reason), at, reason)
  {
    hide Ends, Revoke;
    if s.session.Some? {
      RevokeEnds(env, s, at, reason);
    } else {
      RevokeNothing(env, s.(clock := at), at, reason);
    }
  }

  lemma RevokeNothing(env: Env, s: State, at: Time, reason: RevocationReason)
    requires s.session.None?
    ensures Revoke(env, s, at, reason) == s
  {
  }

  lemma RegisterIsExact(env: Env, s: State, at: Time, capacity: nat)
    ensures Registered(env, s, RegisterClient(env, s.(clock := at), capacity), at, capacity)
  {
    SnapshotsShow(s.board);
  }

  lemma SnapshotsShow(board: Board)
    ensures Shows(board, board.Snapshots())
  {
    hide Board.Pressed;
  }

  lemma UnregisterIsExact(env: Env, s: State, at: Time, c: ClientId)
    requires s.board.Valid()
    ensures Unregistered(env, s, UnregisterClient(env, s.(clock := at), at, c), at, c)
  {
    hide Ends, Revoke;
    var rest := Drop(s.(clock := at), c);
    assert c !in s.clients ==> s.clients - {c} == s.clients;
    if s.session.Some? && s.session.value.client == c {
      RevokeEnds(env, rest, at, ExplicitRevocation);
    }
  }

  lemma FocusIsExact(env: Env, s: State, at: Time, frontmost: Option<nat>)
    requires s.board.Valid()
    ensures FocusFollowed(env, s, FocusMoved(env, s.(clock := at), at, frontmost), at, frontmost)
  {
    hide Ends, Revoke;
    if s.session.Some? {
      RevokeEnds(env, s, at, FocusLost);
    }
  }

  lemma TickIsExact(env: Env, s: State, at: Time)
    requires s.board.Valid()
    ensures TickTaken(env, s, Ticked(env, s.(clock := at), at), at)
  {
    hide Ends, Revoke;
    var t := s.(clock := at);
    assert HeldTooLong(t, at) <==> exists sw :: sw in s.escapeTracker && s.escapeTracker[sw] + 4_000_000_000 <= at;
    if s.session.Some? {
      RevokeEnds(env, s, at, HeartbeatTimeout);
      RevokeEnds(env, s, at, EscapeHatch);
    }
  }

  // ----- input -----

  lemma InputIsExact(env: Env, s: State, at: Time, e: PhysicalEvent)
    requires s.board.Valid() && (s.capture.enabled <==> !s.paused)
    ensures InputTaken(env, s, PhysicalInput(env, s.(clock := at), at, e), at, e)
  {
    hide RouteEdge, Board.Pressed, EventRouted, Board.Valid;
    var t, confidence := s.(clock := at), ValidateConfidence(e.confidence);
    if !s.paused {
      ApplyReportsExactlyTheOuterEdge(s.board, e.mappingId, e.action, confidence);
      var (board, verdict) := s.board.Apply(e.mappingId, e.action, confidence);
      if verdict.Ok? && verdict.value.Some? {
        RouteIsExact(env, s, at, board, verdict.value.value);
      }
    }
  }

  lemma RouteIsExact(env: Env, s: State, at: Time, board: Board, edge: LogicalTransition)
    requires board.Valid()
    ensures var s' := RouteEdge(env, s.(clock := at, board := board), at, edge);
      && |s.events| < |s'.events| && s'.events[|s.events|].edge == edge
      && EventRouted(env, s, s', at, board, s'.events[|s.events|])
  {
    hide SendTo, Broadcast, Revoke, OnlyFor, Tells, Ends, Board.Pressed, Board.Valid, StampedAt, MonotonicUs;
    var t := s.(clock := at, board := board);
    var (s1, events) := Number(t.(escapeTracker := Track(t.escapeTracker, at, edge)), at, [edge]);
    var event := events[0];
    assert events == [event];
    NumberedContinues(s, at, [edge]);
    if s.session.None? {
      OneBroadcastTells(env, s1, Event(event));
      var s' := Broadcast(env, s1, Event(event));
      forall k ensures Tells(env, s, s', k, [Event(event)]) {
        SameAudience(env, s1, s, s', k, [Event(event)]);
      }
    } else {
      var h := s.session.value.client;
      SendToTells(env, s1, h, Event(event));
      var (s2, sent) := SendTo(env, s1, h, Event(event));
      SameAudience(env, s1, s, s2, h, [Event(event)]);
      if !sent {
        RevokeEnds(env, s2, at, QueueOverflow);
        var s' := Revoke(env, s2, at, QueueOverflow);
        GoneHolderHearsNothing(env, s, s2, s', at, event);
        assert s'.events[|s.events|] == s2.events[|s.events|];
        SameOutcome(env, s, s2, s', h, [Event(event)]);
      }
    }
  }

  lemma OneBroadcastTells(env: Env, s: State, m: ServerMessage)
    ensures var s' := Broadcast(env, s, m);
      OnlyDelivery(s, s') && forall c :: Tells(env, s, s', c, [m])
  {
    hide Broadcast, Tells;
    BroadcastAllTells(env, s, [m]);
    assert BroadcastAll(env, s, [m]) == Broadcast(env, s, m) by { assert [m][..0] == []; }
  }

  /** When a holder that missed an event loses its session, its queue is no longer touched. */
  lemma GoneHolderHearsNothing(env: Env, s: State, s2: State, s': State, at: Time, event: SwitchEvent)
    requires s.session.Some? && s2.session == s.session
    requires OnlyFor(s, s2, s.session.value.client)
    requires Tells(env, s, s2, s.session.value.client, [Event(event)])
    requires s.session.value.client !in s2.clients
    requires Ends(env, s2, s', at, QueueOverflow)
    ensures s'.clients == s2.clients && s'.dropped == s2.dropped
    ensures s'.events == s2.events + Since(s2, s')
  {
    hide Took, Takes, Tells, ReleasesPressed, Commanded, Messages, SameDropped;
    var h := s.session.value.client;
    forall k ensures SameClient(s2, s', k) {
      if k != h {
        assert SameClient(s2, s', k);
      }
    }
    SameClientsAll(s2, s');
  }

  lemma SameClientsAll(s: State, s': State)
    requires forall k :: SameClient(s, s', k)
    ensures s'.clients == s.clients && s'.dropped == s.dropped
  {
    forall k ensures k in s'.clients <==> k in s.clients { assert SameClient(s, s', k); }
    forall k ensures k in s'.dropped <==> k in s.dropped { assert SameClient(s, s', k); }
    forall k | k in s.clients ensures s'.clients[k] == s.clients[k] { assert SameClient(s, s', k); }
    forall k | k in s.dropped ensures s'.dropped[k] == s.dropped[k] { assert SameClient(s, s', k); }
  }

  // ----- handshakes -----

  lemma DeclineIsExact(env: Env, s: State, at: Time, c: ClientId, reason: RejectionReason)
    ensures Declines(env, s, SendTo(env, s.(clock := at), c, Rejected(reason)).0, at, c, reason)
  {
    hide SendTo, OnlyFor, Tells;
    var t := s.(clock := at);
    SendToTells(env, t, c, Rejected(reason));
    SameAudience(env, t, s, SendTo(env, t, c, Rejected(reason)).0, c, [Rejected(reason)]);
  }

  /** Ready to admit: capture runs, what was pressed has been released, and everyone has been told. */
  ghost predicate Readied(env: Env, s: State, s2: State, at: Time, releases: seq<SwitchEvent>) {
    && s2 == Emptied(s, s2, at, releases)
    && Reacquired(env, s, s2.capture)
    && forall k :: if k in s.clients then Given(env, s, s2, k, Messages(releases)) else SameClient(s, s2, k)
  }

  lemma ReadiedTells(env: Env, s: State, s2: State, at: Time, releases: seq<SwitchEvent>, k: ClientId)
    requires Readied(env, s, s2, at, releases)
    ensures Tells(env, s, s2, k, Messages(releases))
    ensures k in s2.clients <==> HasRoom(env, s, k, |releases|)
  {
    hide Given, Tells, Takes, SameClient, Emptied, Reacquired;
    assert if k in s.clients then Given(env, s, s2, k, Messages(releases)) else SameClient(s, s2, k);
    if k in s.clients {
      GivenIsTold(env, s, s2, k, Messages(releases));
      GivenIfRoom(env, s, s2, k, Messages(releases));
    } else {
      NotServedNotTold(env, s, s2, k, Messages(releases));
      NotServedStays(s, s2, k);
    }
  }

  lemma GivenIfRoom(env: Env, s: State, s2: State, k: ClientId, messages: seq<ServerMessage>)
    requires k in s.clients && Given(env, s, s2, k, messages)
    ensures k in s2.clients <==> Takes(s.clients[k], env.consumers(k), |messages|)
  {
    hide Takes, SendAll;
  }

  lemma NotServedStays(s: State, s2: State, k: ClientId)
    requires k !in s.clients && SameClient(s, s2, k)
    ensures k !in s2.clients
  {
  }

  lemma LegacyIsReadied(env: Env, s: State, at: Time)
    requires s.board.Valid() && !s.paused
    ensures var (s1, releases) := ReleaseHeld(s.(clock := at), at);
      ReleasesPressed(s, at, releases) && Readied(env, s, BroadcastAll(env, s1, Messages(releases)), at, releases)
  {
    hide ReleaseHeld, BroadcastAll, Given, SameClient, ReleasesPressed, Messages;
    var t := s.(clock := at);
    ReleaseHeldIsExact(t, at);
    var (s1, releases) := ReleaseHeld(t, at);
    SameReleases(t, s, at, releases);
    var s2 := BroadcastAll(env, s1, Messages(releases));
    BroadcastAllGives(env, s1, Messages(releases), 0);
    forall k ensures if k in s.clients then Given(env, s, s2, k, Messages(releases)) else SameClient(s, s2, k) {
      BroadcastAllGives(env, s1, Messages(releases), k);
      SameGiving(env, s1, s, s2, k, Messages(releases));
    }
  }

  lemma SameGiving(env: Env, s: State, t: State, s': State, c: ClientId, messages: seq<ServerMessage>)
    requires s.clients == t.clients && s.dropped == t.dropped
    ensures SameClient(s, s', c) <==> SameClient(t, s', c)
    ensures c in s.clients ==> (Given(env, s, s', c, messages) <==> Given(env, t, s', c, messages))
  {
    hide Takes, Fits, SendAll;
  }

  lemma ResumedIsReadied(env: Env, s: State, at: Time)
    requires s.paused && s.board.held == {} && ResumeAll(s.capture, env.fates).1.None?
    ensures var s2 := s.(clock := at, capture := ResumeAll(s.capture, env.fates).0);
      ReleasesPressed(s, at, []) && Readied(env, s, s2, at, [])
  {
    hide ResumeAll, Given, SameClient, Commanded, HeardSince;
    ResumeIsAllOrRollback(s.capture, env.fates);
    var s2 := s.(clock := at, capture := ResumeAll(s.capture, env.fates).0);
    assert s.board.Pressed() == {} && s.board.(held := {}) == s.board && s.events + [] == s.events;
    forall k ensures if k in s.clients then Given(env, s, s2, k, Messages([])) else SameClient(s, s2, k) {
      SameClientAsIs(s, s2, k);
      if k in s.clients {
        GiveNothing(env, s, k);
        GivenAsIs(env, s, s2, k);
      }
    }
  }

  lemma SameClientAsIs(s: State, s2: State, k: ClientId)
    requires s2.clients == s.clients && s2.dropped == s.dropped
    ensures SameClient(s, s2, k)
  {
  }

  lemma GivenAsIs(env: Env, s: State, s2: State, k: ClientId)
    requires k in s.clients && s2.clients == s.clients && s2.dropped == s.dropped
    ensures Messages([]) == []
    ensures Given(env, s, s2, k, [])
  {
  }

  lemma RestHeard(env: Env, s: State, s2: State, s': State, at: Time, releases: seq<SwitchEvent>, k: ClientId)
    requires Readied(env, s, s2, at, releases) && SameClient(s2, s', k)
    ensures Tells(env, s, s', k, Messages(releases))
  {
    hide Took, Takes, MissedOne, Messages, Readied;
    ReadiedTells(env, s, s2, at, releases, k);
  }

  /** The requester hears the releases, then the reply if it is still served. */
  lemma RequesterHeard(
    env: Env, s: State, s2: State, s3: State, at: Time, releases: seq<SwitchEvent>, c: ClientId, m: ServerMessage)
    requires Readied(env, s, s2, at, releases) && c in s2.clients
    requires s3.clients == s2.clients && s3.dropped == s2.dropped
    ensures var (s4, sent) := SendTo(env, s3, c, m);
      && Tells(env, s, s4, c, Messages(releases) + [m])
      && OnlyFor(s2, s4, c) && OnlyDelivery(s3, s4)
      && (sent <==> c in s4.clients)
      && (sent <==> HasRoom(env, s, c, |releases| + 1))
  {
    hide Given, Tells, Takes, Emptied, Reacquired, SendTo, OnlyFor, OnlyDelivery, Send, SameClient;
    assert if c in s.clients then Given(env, s, s2, c, Messages(releases)) else SameClient(s, s2, c);
    SendToOne(env, s3, c, m);
    SendToTells(env, s3, c, m);
    var s4 := SendTo(env, s3, c, m).0;
    SameAudience(env, s3, s2, s4, c, [m]);
    if c !in s.clients {
      NotServedStays(s, s2, c);
    } else {
      SameDroppedAs(s3, s2, s4, c);
      GiveOneMore(env, s, s2, s4, c, Messages(releases), m);
      GivenIsTold(env, s, s4, c, Messages(releases) + [m]);
      GivenIfRoom(env, s, s4, c, Messages(releases) + [m]);
    }
  }

  lemma SameDroppedAs(s: State, t: State, s': State, c: ClientId)
    requires s.dropped == t.dropped
    ensures SameDropped(s, s', c) <==> SameDropped(t, s', c)
  {
  }

  lemma ReleaseCount(s: State, at: Time, releases: seq<SwitchEvent>)
    requires ReleasesPressed(s, at, releases)
    ensures |releases| == |s.board.Pressed()|
  {
    hide StampedAt, Less;
    assert |EdgesOf(releases)| == |releases|;
    DistinctReleases(EdgesOf(releases));
  }

  lemma {:induction false} DistinctReleases(edges: seq<LogicalTransition>)
    requires IncreasingReleases(edges)
    ensures |SwitchesOf(edges)| == |edges|
  {
    hide Less;
    if |edges| > 0 {
      var init, last := edges[..|edges| - 1], edges[|edges| - 1];
      DistinctReleases(init);
      assert edges == init + [last];
      ReplayOne({}, init, last);
      forall i | 0 <= i < |init| ensures init[i].switchId != last.switchId {
        assert Less(edges[i].switchId, edges[|edges| - 1].switchId);
        LessIsIrreflexive(last.switchId);
      }
      assert last.switchId !in SwitchesOf(init);
    }
  }

  lemma AdmitIsExact(
    env: Env, s: State, s2: State, at: Time, c: ClientId, h: Handshake, releases: seq<SwitchEvent>)
    requires Readied(env, s, s2, at, releases) && s2.session.None? && s2.board.Valid()
    ensures var s' := Admit(env, s2, at, c, h);
      && Since(s, s') == releases
      && if !HasRoom(env, s, c, |releases|) then TurnsAwayFor(env, s, s', at, releases)
         else if !HasRoom(env, s, c, |releases| + 1) then OpensAndEndsFor(env, s, s', at, c, h, releases)
         else OpensFor(env, s, s', at, c, h, releases)
  {
    hide Given, Tells, Takes, Reacquired, SendTo, OnlyFor, Revoke, PauseAll, Commanded, SameClient, Messages, Ends;
    ReadiedTells(env, s, s2, at, releases, c);
    if c !in s2.clients {
      TurnAwayIsExact(env, s, s2, at, c, h, releases);
    } else {
      var open, reply := Opened(env, s2, at, c, h), AcceptedReply(env.sessionIds(s2.drawn));
      RequesterHeard(env, s, s2, open, at, releases, c, reply);
      var (s4, accepted) := SendTo(env, open, c, reply);
      AcceptanceTold(env, s, s2, s4, at, releases, c);
      if !accepted {
        VainIsExact(env, s, s2, s4, at, c, h, releases);
      }
    }
  }

  lemma TurnAwayIsExact(
    env: Env, s: State, s2: State, at: Time, c: ClientId, h: Handshake, releases: seq<SwitchEvent>)
    requires Readied(env, s, s2, at, releases) && c !in s2.clients
    ensures var s' := Admit(env, s2, at, c, h);
      Since(s, s') == releases && TurnsAwayFor(env, s, s', at, releases)
  {
    hide Given, Tells, Takes, Reacquired, PauseAll, Commanded, Messages, Readied, SendTo, Revoke;
    var s' := Admit(env, s2, at, c, h);
    PauseReleasesDevices(s2.capture, env.fates);
    ReadiedState(env, s, s2, at, releases);
    forall k ensures Tells(env, s, s', k, Messages(releases)) {
      RestHeard(env, s, s2, s', at, releases, k);
    }
  }

  lemma ReadiedState(env: Env, s: State, s2: State, at: Time, releases: seq<SwitchEvent>)
    requires Readied(env, s, s2, at, releases)
    ensures s2 == Emptied(s, s2, at, releases) && Reacquired(env, s, s2.capture)
  {
  }

  /** Acceptance sent or not, everyone but the requester has heard the releases alone. */
  lemma AcceptanceTold(
    env: Env, s: State, s2: State, s4: State, at: Time, releases: seq<SwitchEvent>, c: ClientId)
    requires Readied(env, s, s2, at, releases) && OnlyFor(s2, s4, c)
    requires Tells(env, s, s4, c, Messages(releases) + [AcceptedReply(env.sessionIds(s2.drawn))])
    ensures TellsAcceptance(env, s, s4, c, releases)
  {
    hide Given, Tells, Messages, Readied, SameClient;
    ReadiedState(env, s, s2, at, releases);
    forall k | k != c ensures Tells(env, s, s4, k, Messages(releases)) {
      assert SameClient(s2, s4, k);
      RestHeard(env, s, s2, s4, at, releases, k);
    }
  }

  lemma VainIsExact(
    env: Env, s: State, s2: State, s4: State, at: Time, c: ClientId, h: Handshake, releases: seq<SwitchEvent>)
    requires Readied(env, s, s2, at, releases) && s2.session.None? && s2.board.Valid()
    requires OnlyDelivery(Opened(env, s2, at, c, h), s4) && c !in s4.clients
    requires TellsAcceptance(env, s, s4, c, releases)
    ensures var s' := Revoke(env, s4, at, QueueOverflow);
      Since(s, s') == releases && OpensAndEndsFor(env, s, s', at, c, h, releases)
  {
    hide Given, Tells, Reacquired, Revoke, Commanded, Messages, Readied, Ends, IncreasingReleases;
    var s' := Revoke(env, s4, at, QueueOverflow);
    ReadiedState(env, s, s2, at, releases);
    RevokeEnds(env, s4, at, QueueOverflow);
    assert s4.(clock := at) == s4;
    NothingLeftToTell(env, s4, s', at);
    forall k ensures Tells(env, s, s', k, Messages(releases)) <==> Tells(env, s, s4, k, Messages(releases)) {
      SameOutcome(env, s, s', s4, k, Messages(releases));
    }
    SameOutcome(env, s, s', s4, c, Messages(releases) + [Accepted(env.sessionIds(s.drawn), 500, 3)]);
    assert s4.events + [] == s4.events;
  }

  /** A session that ends with nothing pressed and its holder gone leaves every queue and the numbering alone. */
  lemma NothingLeftToTell(env: Env, s: State, s': State, at: Time)
    requires Ends(env, s, s', at, QueueOverflow) && s.board.held == {} && s.session.value.client !in s.clients
    ensures s'.clients == s.clients && s'.dropped == s.dropped && Since(s, s') == []
    ensures s' == Emptied(s, s', at, []).(
      session := None, paused := true, escapeTracker := map[],
      revocations := s.revocations + [Revocation(s.session.value, QueueOverflow)])
    ensures !s'.capture.enabled && Commanded(s.capture, s'.capture, Pause, env.fates)
  {
    hide Commanded, Messages, Took, Takes, SameDropped;
    var h := s.session.value.client;
    assert s.board.Pressed() == {};
    ReleaseCount(s, at, Since(s, s'));
    forall k ensures SameClient(s, s', k) {
      if k != h {
        assert SameClient(s, s', k);
      }
    }
    SameClientsAll(s, s');
  }

  lemma HandshakeIsExact(env: Env, s: State, at: Time, c: ClientId, h: Handshake)
    requires s.board.Valid() && (s.session.Some? ==> !s.paused) && (s.paused ==> s.board.held == {})
    ensures HandshakeAnswered(env, s, Handshaken(env, s.(clock := at), at, c, h), at, c, h)
  {
    hide SendTo, Admit, ReleaseHeld, BroadcastAll, ResumeAll, ValidAppId, Declines, ReleasesPressed, HasRoom,
      TurnsAwayFor, OpensFor, OpensAndEndsFor, Readied, RolledBack, Board.Pressed, Board.Valid;
    var t := s.(clock := at);
    var rejection := RejectionOf(t, h);
    if rejection.Some? {
      DeclineIsExact(env, s, at, c, rejection.value);
    } else if s.paused {
      ResumeVerdict(s.capture, env.fates);
      var (capture, error) := ResumeAll(s.capture, env.fates);
      if error.Some? {
        DeclineIsExact(env, s.(capture := capture), at, c, CaptureUnavailable);
        DeclinedKeepsCapture(env, s, capture, at, c);
      } else {
        ResumedIsReadied(env, s, at);
        ReleaseCount(s, at, []);
        AdmitIsExact(env, s, t.(capture := capture), at, c, h, []);
      }
    } else {
      LegacyIsReadied(env, s, at);
      var (s1, releases) := ReleaseHeld(t, at);
      var s2 := BroadcastAll(env, s1, Messages(releases));
      ReleaseCount(s, at, releases);
      ReadiedState(env, s, s2, at, releases);
      EmptyIsValid(s.board);
      AdmitIsExact(env, s, s2, at, c, h, releases);
    }
  }

  lemma EmptyIsValid(board: Board)
    requires board.Valid()
    ensures board.(held := {}).Valid()
  {
  }

  lemma DeclinedKeepsCapture(env: Env, s: State, capture: Capture, at: Time, c: ClientId)
    ensures SendTo(env, s.(capture := capture, clock := at), c, Rejected(CaptureUnavailable)).0.capture == capture
  {
    hide Send;
  }

  lemma ResumeVerdict(cap: Capture, fates: Fates)
    ensures ResumeAll(cap, fates).1.None? <==> AllAcknowledge(cap, Resume, fates)
    ensures ResumeAll(cap, fates).1.Some? ==> RolledBack(cap, ResumeAll(cap, fates).0, fates)
  {
    hide ResumeAll, RolledBack, Commanded, HeardSince, Blames;
    ResumeIsAllOrRollback(cap, fates);
  }

  // ----- every step -----

  /** Any step from any sound state follows the rules. */
  lemma HandleFollows(env: Env, s: State, x: Stamped)
    requires Coupled(s) && s.board.Valid()
    ensures Follows(env, s, Step(env, s, x), x)
  {
    hide RegisterClient, UnregisterClient, PhysicalInput, Handshaken, Revoke, FocusMoved, Ticked, Board.Valid,
      Registered, Unregistered, InputTaken, HandshakeAnswered, EndsIfOpen, FocusFollowed, TickTaken;
    match x.input
    case Register(capacity) => RegisterIsExact(env, s, x.at, capacity);
    case Unregister(c) => UnregisterIsExact(env, s, x.at, c);
    case Physical(e) => InputIsExact(env, s, x.at, e);
    case Shake(c, h) => HandshakeIsExact(env, s, x.at, c, h);
    case Heartbeat(_, _) =>
    case RevokeSession(reason) => RevokeEndsIfOpen(env, s, x.at, reason);
    case FocusChanged(frontmost) => FocusIsExact(env, s, x.at, frontmost);
    case Tick => TickIsExact(env, s, x.at);
  }

  /** Every step of every run follows the rules. */
  lemma EveryStepFollowsTheRules(d: Daemon, trace: seq<Stamped>, x: Stamped)
    requires Timely(d.started, trace)
    ensures Follows(d.env, d.After(trace), d.After(trace + [x]), x)
  {
    hide Follows, Step, NewState, ClientsAgree, CleanStart, Issued, InOrder, Alternates, Replay;
    OneMoreStep(d, trace, x);
    EveryRunKeepsInv(d, trace);
    HandleFollows(d.env, d.After(trace), x);
  }
}
