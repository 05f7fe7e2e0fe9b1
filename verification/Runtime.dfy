/** The broker as it runs: one object updated in place by each command, refining the state machine. */
module Runtimes {
  import opened Protocol
  import opened Switchboard
  import opened SwitchStateMachines
  import opened Captures
  import opened Channels
  import opened Broker

  class Runtime {
    const env: Env
    const started: Time
    const state: SwitchStateMachine
    const capture: CaptureControl
    var sequence: nat
    var nextClient: ClientId
    var clients: map<ClientId, Channel>
    var session: Option<Session>
    var paused: bool
    var escapeTracker: map<SwitchId, Time>
    var drawn: nat
    ghost var clock: Time
    ghost var events: seq<SwitchEvent>
    ghost var dropped: map<ClientId, Channel>
    ghost var late: set<ClientId>
    ghost var sessionMark: nat
    ghost var revocations: seq<Revocation>

    ghost predicate Valid()
      reads this, state, capture
    {
      state.Valid() && capture.fates == env.fates
    }

    ghost function View(): State
      reads this, state, capture
    {
      State(state.View(), capture.View(), started, sequence, nextClient, clients, session, paused, escapeTracker,
            drawn, clock, events, dropped, late, sessionMark, revocations)
    }

    constructor (env: Env, mappings: seq<Mapping>, backends: seq<Backend>, started: Time)
      ensures Valid() && fresh(state) && fresh(capture)
      ensures this.env == env && View() == NewState(mappings, backends, started)
    {
      this.env, this.started := env, started;
      state := new SwitchStateMachine(mappings);
      capture := new CaptureControl(backends, env.fates);
      sequence, nextClient, clients, session := 0, 1, map[], None;
      paused, escapeTracker, drawn := false, map[], 0;
      clock, events, dropped, late, sessionMark, revocations := started, [], map[], {}, 0, [];
    }

    // ----- helpers of the handlers -----

    method RemoveClient(c: ClientId)
      requires Valid()
      modifies this
      ensures Valid() && View() == Drop(old(View()), c)
    {
      if c in clients {
        dropped := dropped[c := clients[c]];
        clients := clients - {c};
      }
    }

    method TrySend(c: ClientId, m: ServerMessage) returns (sent: bool)
      requires Valid() && c in clients
      modifies this`clients
      ensures clients == old(clients)[c := Send(old(clients[c]), env.consumers(c), m).0]
      ensures sent == Send(old(clients[c]), env.consumers(c), m).1
    {
      var (channel, ok) := Send(clients[c], env.consumers(c), m);
      clients := clients[c := channel];
      sent := ok;
    }

    /** Numbers one edge. */
    method NextEvent(at: Time, edge: LogicalTransition) returns (event: SwitchEvent)
      requires Valid()
      modifies this`sequence, this`events
      ensures Valid() && (View(), [event]) == Number(old(View()), at, [edge])
    {
      sequence := sequence + 1;
      event := SwitchEvent(sequence, MonotonicUs(at, started), edge);
      events := events + [event];
      assert [event] == Numbered(old(sequence), MonotonicUs(at, started), [edge]);
    }

    method ReleaseMessages(at: Time) returns (releases: seq<SwitchEvent>)
      requires Valid()
      modifies this`sequence, this`events, state
      ensures Valid() && (View(), releases) == ReleaseHeld(old(View()), at)
    {
      var edges := state.ReleaseAll();
      ghost var before := View();
      releases := [];
      NumberNone(before, at, edges);
      for i := 0 to |edges|
        invariant Valid() && (View(), releases) == Number(before, at, edges[..i])
      {
        NumberOneMore(before, at, edges, i);
        var event := NextEvent(at, edges[i]);
        releases := releases + [event];
      }
      assert edges[..|edges|] == edges;
    }

    static lemma NumberNone(s: State, at: Time, edges: seq<LogicalTransition>)
      ensures Number(s, at, edges[..0]) == (s, [])
    {
      assert s.events + Number(s, at, edges[..0]).1 == s.events;
    }

    static lemma NumberOneMore(s: State, at: Time, edges: seq<LogicalTransition>, i: nat)
      requires i < |edges|
      ensures var (s1, first) := Number(s, at, edges[..i]);
        var (s2, next) := Number(s1, at, [edges[i]]);
        Number(s, at, edges[..i + 1]) == (s2, first + next)
    {
      var (s1, first) := Number(s, at, edges[..i]);
      var (s2, next) := Number(s1, at, [edges[i]]);
      assert first + next == Number(s, at, edges[..i + 1]).1;
      assert s.events + first + next == s.events + (first + next);
    }

    method SendResponse(c: ClientId, m: ServerMessage) returns (sent: bool)
      requires Valid()
      modifies this
      ensures Valid() && (View(), sent) == SendTo(env, old(View()), c, m)
    {
      if c in clients {
        sent := TrySend(c, m);
      } else {
        sent := false;
      }
      if !sent {
        RemoveClient(c);
      }
    }

    method BroadcastMessage(m: ServerMessage)
      requires Valid()
      modifies this`clients, this`dropped
      ensures Valid() && View() == Broadcast(env, old(View()), m)
    {
      var kept, lost := Retain(env, clients, m);
      clients := kept;
      dropped := dropped + lost;
    }

    method BroadcastReleases(releases: seq<SwitchEvent>)
      requires Valid()
      modifies this
      ensures Valid() && View() == BroadcastAll(env, old(View()), Messages(releases))
    {
      ghost var before := View();
      for i := 0 to |releases|
        invariant Valid() && View() == BroadcastAll(env, before, Messages(releases)[..i])
      {
        assert Messages(releases)[..i + 1][..i] == Messages(releases)[..i];
        BroadcastMessage(Event(releases[i]));
      }
      assert Messages(releases)[..|releases|] == Messages(releases);
    }

    // ----- handlers -----

    method RegisterSender(capacity: nat) returns (reply: Option<ClientId>)
      requires Valid()
      modifies this
      ensures Valid() && View() == RegisterClient(env, old(View()), capacity)
      ensures reply.Some? ==> reply.value == old(nextClient) && old(nextClient) in clients
      ensures reply.None? ==> clients == old(clients)
    {
      hide Partition, Flatten, Render;
      var c := nextClient;
      nextClient := nextClient + 1;
      var snapshots := state.Snapshots();
      var (channel, ok) := Send(NewChannel(capacity), env.consumers(c), Hello(snapshots));
      reply := None;
      if ok {
        clients := clients[c := channel];
        late := if session.Some? then late + {c} else late;
        reply := Some(c);
      }
    }

    method UnregisterSender(c: ClientId, at: Time)
      requires Valid()
      modifies this, state, capture
      ensures Valid() && View() == UnregisterClient(env, old(View()), at, c)
    {
      RemoveClient(c);
      if session.Some? && session.value.client == c {
        RevokeCurrent(at, ExplicitRevocation);
      }
    }

    method RevokeCurrent(at: Time, reason: RevocationReason)
      requires Valid()
      modifies this, state, capture
      ensures Valid() && View() == Revoke(env, old(View()), at, reason)
    {
      if session.None? {
        return;
      }
      var ended := session.value;
      Quiesce(reason);
      var releases := ReleaseMessages(at);
      NotifyHolder(ended.client, releases, SessionRevoked(ended.id, reason));
    }

    method Quiesce(reason: RevocationReason)
      requires Valid() && session.Some?
      modifies this, capture
      ensures Valid() && View() == Quiesced(env, old(View()), reason)
    {
      hide Partition, Flatten, PauseAll;
      revocations := revocations + [Revocation(session.value, reason)];
      session := None;
      escapeTracker := map[];
      var _ := capture.Pause();
      paused := true;
    }

    method NotifyHolder(c: ClientId, releases: seq<SwitchEvent>, notice: ServerMessage)
      requires Valid()
      modifies this`clients, this`dropped
      ensures Valid() && View() == Notify(env, old(View()), c, Messages(releases) + [notice])
    {
      hide Partition, Flatten, Messages, SendAll;
      if c in clients {
        var channel, deliveryFailed := SendReleases(clients[c], env.consumers(c), releases, notice);
        if deliveryFailed {
          dropped := dropped[c := channel];
          clients := clients - {c};
        } else {
          clients := clients[c := channel];
        }
      }
    }

    method HandleInput(e: PhysicalEvent, at: Time)
      requires Valid()
      modifies this, state, capture
      ensures Valid() && View() == PhysicalInput(env, old(View()), at, e)
    {
      if paused || !capture.enabled {
        return;
      }
      var verdict := state.Apply(e.mappingId, e.action, ValidateConfidence(e.confidence));
      if verdict.Ok? && verdict.value.Some? {
        RouteTransition(verdict.value.value, at);
      }
    }

    /** The tail of the input handler: track, number and deliver one logical edge. */
    method RouteTransition(edge: LogicalTransition, at: Time)
      requires Valid()
      modifies this, state, capture
      ensures Valid() && View() == RouteEdge(env, old(View()), at, edge)
    {
      hide Partition, Flatten, Revoke, Broadcast, SendTo;
      match edge.action {
        case Pressed => escapeTracker := escapeTracker[edge.switchId := at];
        case Released => escapeTracker := escapeTracker - {edge.switchId};
      }
      var event := NextEvent(at, edge);
      if session.Some? {
        var sent := SendResponse(session.value.client, Event(event));
        if !sent {
          RevokeCurrent(at, QueueOverflow);
        }
      } else {
        BroadcastMessage(Event(event));
      }
    }

    method HandleHandshake(c: ClientId, h: Handshake, at: Time)
      requires Valid()
      modifies this, state, capture
      ensures Valid() && View() == Handshaken(env, old(View()), at, c, h)
    {
      hide Partition, Flatten, ReleaseHeld, BroadcastAll, Admit, SendTo, ResumeAll;
      var rejection :=
        if h.protocolVersion != PROTOCOL_VERSION then Some(ProtocolMismatch)
        else if !ValidAppId(h.appId) then Some(InvalidAppId)
        else if !h.mode.ExclusiveForeground? then Some(UnsupportedMode)
        else if session.Some? then Some(SessionBusy)
        else None;
      if rejection.Some? {
        var _ := SendResponse(c, Rejected(rejection.value));
        return;
      }
      if paused {
        var error := capture.Resume();
        if error.Some? {
          var _ := SendResponse(c, Rejected(CaptureUnavailable));
          return;
        }
      }
      if !paused {
        var releases := ReleaseMessages(at);
        BroadcastReleases(releases);
      }
      AdmitClient(c, h, at);
    }

    /** The tail of the handshake handler. */
    method AdmitClient(c: ClientId, h: Handshake, at: Time)
      requires Valid()
      modifies this, state, capture
      ensures Valid() && View() == Admit(env, old(View()), at, c, h)
    {
      hide Partition, Flatten, Opened, SendTo, Revoke, PauseAll;
      if c !in clients {
        var _ := capture.Pause();
        paused := true;
        return;
      }
      var id := OpenSession(c, h, at);
      var accepted := SendResponse(c, Accepted(id, HEARTBEAT_INTERVAL_MS, MISSED_HEARTBEAT_LIMIT));
      if !accepted {
        RevokeCurrent(at, QueueOverflow);
      }
    }

    method OpenSession(c: ClientId, h: Handshake, at: Time) returns (id: SessionId)
      requires Valid()
      modifies this
      ensures Valid() && View() == Opened(env, old(View()), at, c, h) && id == env.sessionIds(old(drawn))
    {
      hide Partition, Flatten;
      paused := false;
      escapeTracker := map[];
      id := env.sessionIds(drawn);
      drawn := drawn + 1;
      session := Some(Session(c, id, h.pid, at));
      sessionMark := |events|;
    }

    method HandleHeartbeat(c: ClientId, id: SessionId, at: Time)
      requires Valid()
      modifies this`session
      ensures Valid() && View() == Beat(old(View()), at, c, id)
    {
      if session.Some? && session.value.client == c && session.value.id == id {
        session := Some(session.value.(lastHeartbeat := at));
      }
    }

    method HandleFocus(frontmost: Option<nat>, at: Time)
      requires Valid()
      modifies this, state, capture
      ensures Valid() && View() == FocusMoved(env, old(View()), at, frontmost)
    {
      var needsRevoke := session.Some? && session.value.pid.Some? && session.value.pid != frontmost;
      if needsRevoke {
        RevokeCurrent(at, FocusLost);
      }
    }

    /** Looks through the tracker in an arbitrary order for a switch held long enough. */
    method FindEscapeSwitch(at: Time) returns (found: Option<SwitchId>)
      requires Valid()
      ensures found.Some? <==> HeldTooLong(View(), at)
      ensures found.Some? ==> found.value in escapeTracker && Elapsed(at, escapeTracker[found.value]) >= ESCAPE_HOLD
    {
      var todo := escapeTracker.Keys;
      found := None;
      while todo != {} && found.None?
        invariant todo <= escapeTracker.Keys
        invariant forall sw :: sw in escapeTracker && sw !in todo && found.None? ==>
          Elapsed(at, escapeTracker[sw]) < ESCAPE_HOLD
        invariant found.Some? ==> found.value in escapeTracker && Elapsed(at, escapeTracker[found.value]) >= ESCAPE_HOLD
        decreases todo
      {
        var sw :| sw in todo;
        todo := todo - {sw};
        if Elapsed(at, escapeTracker[sw]) >= ESCAPE_HOLD {
          found := Some(sw);
        }
      }
    }

    method HandleTick(at: Time)
      requires Valid()
      modifies this, state, capture
      ensures Valid() && View() == Ticked(env, old(View()), at)
    {
      var timedOut := session.Some? && Elapsed(at, session.value.lastHeartbeat) >= LEASE;
      if timedOut {
        RevokeCurrent(at, HeartbeatTimeout);
        return;
      }
      if session.Some? {
        var escapeSwitch := FindEscapeSwitch(at);
        if escapeSwitch.Some? {
          RevokeCurrent(at, EscapeHatch);
        }
      }
    }

    method Dispatch(x: Stamped)
      requires Valid()
      modifies this, state, capture
      ensures Valid() && View() == Step(env, old(View()), x)
    {
      hide Partition, Flatten, RegisterClient, UnregisterClient, PhysicalInput, Handshaken, Beat, Revoke, FocusMoved, Ticked;
      clock := x.at;
      match x.input
      case Register(capacity) => var _ := RegisterSender(capacity);
      case Unregister(c) => UnregisterSender(c, x.at);
      case Physical(e) => HandleInput(e, x.at);
      case Shake(c, h) => HandleHandshake(c, h, x.at);
      case Heartbeat(c, id) => HandleHeartbeat(c, id, x.at);
      case RevokeSession(reason) => RevokeCurrent(x.at, reason);
      case FocusChanged(frontmost) => HandleFocus(frontmost, x.at);
      case Tick => HandleTick(x.at);
    }
  }

  /** The event loop over whatever commands and ticks arrive, until the command channel closes. */
  method RunBroker(env: Env, mappings: seq<Mapping>, backends: seq<Backend>, started: Time, trace: seq<Stamped>)
    returns (runtime: Runtime)
    ensures runtime.Valid() && runtime.env == env
    ensures runtime.View() == Daemon(env, mappings, backends, started).After(trace)
  {
    runtime := new Runtime(env, mappings, backends, started);
    for i := 0 to |trace|
      invariant runtime.Valid() && runtime.env == env
      invariant fresh(runtime) && fresh(runtime.state) && fresh(runtime.capture)
      invariant runtime.View() == Run(env, NewState(mappings, backends, started), trace[..i])
    {
      assert trace[..i + 1][..i] == trace[..i];
      runtime.Dispatch(trace[i]);
    }
    assert trace[..|trace|] == trace;
  }

  // ----- the delivery loops -----

  /** Tries every release and then the notice on one queue, remembering any failure. */
  method SendReleases(start: Channel, consumer: Consumer, releases: seq<SwitchEvent>, notice: ServerMessage)
    returns (channel: Channel, deliveryFailed: bool)
    ensures (channel, !deliveryFailed) == SendAll(start, consumer, Messages(releases) + [notice])
  {
    channel, deliveryFailed := start, false;
    for i := 0 to |releases|
      invariant (channel, !deliveryFailed) == SendAll(start, consumer, Messages(releases[..i]))
    {
      SendNextRelease(start, consumer, releases, i);
      var (next, sent) := Send(channel, consumer, Event(releases[i]));
      channel := next;
      deliveryFailed := deliveryFailed || !sent;
    }
    assert releases[..|releases|] == releases;
    SendAllOneMore(start, consumer, Messages(releases), notice);
    var (last, sent) := Send(channel, consumer, notice);
    channel := last;
    deliveryFailed := deliveryFailed || !sent;
  }

  lemma SendNextRelease(start: Channel, consumer: Consumer, releases: seq<SwitchEvent>, i: nat)
    requires i < |releases|
    ensures var (ch1, ok1) := SendAll(start, consumer, Messages(releases[..i]));
      var (ch2, ok2) := Send(ch1, consumer, Event(releases[i]));
      SendAll(start, consumer, Messages(releases[..i + 1])) == (ch2, ok1 && ok2)
  {
    assert Messages(releases[..i + 1]) == Messages(releases[..i]) + [Event(releases[i])];
    SendAllOneMore(start, consumer, Messages(releases[..i]), Event(releases[i]));
  }

  /**
   * The `retain` loop of a broadcast. Whatever order it visits the clients in, the result is what sending
   * to each client separately gives.
   */
  method Retain(env: Env, clients: map<ClientId, Channel>, m: ServerMessage)
    returns (kept: map<ClientId, Channel>, lost: map<ClientId, Channel>)
    ensures kept == Kept(Outcome(env, clients, m)) && lost == Lost(Outcome(env, clients, m))
  {
    kept, lost := clients, map[];
    var todo := clients.Keys;
    ghost var outcomes := Outcome(env, clients, m);
    VisitNone(clients, outcomes);
    while todo != {}
      invariant todo <= clients.Keys == outcomes.Keys
      invariant kept == KeptSoFar(clients, outcomes, todo) && lost == LostSoFar(outcomes, todo)
      decreases todo
    {
      var c :| c in todo;
      VisitOne(clients, outcomes, todo, c);
      todo := todo - {c};
      var (channel, ok) := Send(kept[c], env.consumers(c), m);
      if ok {
        kept := kept[c := channel];
      } else {
        kept := kept - {c};
        lost := lost[c := channel];
      }
    }
    VisitAll(clients, outcomes);
  }

  /** The clients still listed when the loop has yet to visit `todo`. */
  ghost function KeptSoFar(clients: map<ClientId, Channel>, outcomes: Outcomes, todo: set<ClientId>): map<ClientId, Channel> {
    map c | c in clients && (c !in todo && c in outcomes ==> outcomes[c].1)
      :: if c !in todo && c in outcomes then outcomes[c].0 else clients[c]
  }

  ghost function LostSoFar(outcomes: Outcomes, todo: set<ClientId>): map<ClientId, Channel> {
    map c | c in outcomes && c !in todo && !outcomes[c].1 :: outcomes[c].0
  }

  lemma VisitNone(clients: map<ClientId, Channel>, outcomes: Outcomes)
    requires clients.Keys == outcomes.Keys
    ensures KeptSoFar(clients, outcomes, clients.Keys) == clients && LostSoFar(outcomes, clients.Keys) == map[]
  {
  }

  lemma VisitAll(clients: map<ClientId, Channel>, outcomes: Outcomes)
    requires clients.Keys == outcomes.Keys
    ensures KeptSoFar(clients, outcomes, {}) == Kept(outcomes) && LostSoFar(outcomes, {}) == Lost(outcomes)
  {
  }

  /** Whichever client comes next, it is treated as if it were alone. */
  lemma VisitOne(clients: map<ClientId, Channel>, outcomes: Outcomes, todo: set<ClientId>, c: ClientId)
    requires c in clients && c in outcomes && c in todo
    ensures c in KeptSoFar(clients, outcomes, todo) && KeptSoFar(clients, outcomes, todo)[c] == clients[c]
    ensures outcomes[c].1 ==>
      && KeptSoFar(clients, outcomes, todo - {c}) == KeptSoFar(clients, outcomes, todo)[c := outcomes[c].0]
      && LostSoFar(outcomes, todo - {c}) == LostSoFar(outcomes, todo)
    ensures !outcomes[c].1 ==>
      && KeptSoFar(clients, outcomes, todo - {c}) == KeptSoFar(clients, outcomes, todo) - {c}
      && LostSoFar(outcomes, todo - {c}) == LostSoFar(outcomes, todo)[c := outcomes[c].0]
  {
  }
}
