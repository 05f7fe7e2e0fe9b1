/** What the daemon promises over whole runs: routing, numbering, and what each client can rely on. */
module Guarantees {
  import opened Protocol
  import opened Edges
  import opened Switchboard
  import opened Captures
  import opened Channels
  import opened Broker
  import opened Streams
  import opened Agreement
  import opened Effects
  import opened Invariant

  // ----- the coupling of capture, routing, switches and tracker -----

  /** At every step boundary the independently kept pieces of state agree, through every failure branch. */
  lemma CaptureRoutingAndTrackerAgree(d: Daemon, trace: seq<Stamped>)
    requires Timely(d.started, trace)
    ensures var s := d.After(trace);
      && (s.capture.enabled <==> !s.paused)
      && (s.session.Some? ==> !s.paused)
      && (s.paused ==> s.board.held == {})
      && (!s.paused ==> s.escapeTracker.Keys == s.board.Pressed())
  {
    hide Sound;
    EveryRunKeepsInv(d, trace);
  }

  /**
   * The legacy phase is an initial prefix of every run; after it, at every step boundary a session is open
   * exactly when routing is not paused.
   */
  lemma {:induction false} LegacyPhaseIsAPrefix(d: Daemon, trace: seq<Stamped>, n: nat)
    requires Timely(d.started, trace) && n <= |trace|
    ensures Legacy(d.After(trace)) ==> Legacy(d.After(trace[..n]))
    ensures !Legacy(d.After(trace[..n])) ==> (d.After(trace).session.Some? <==> !d.After(trace).paused)
    decreases |trace|
  {
    hide Sound, Handle;
    EveryRunKeepsInv(d, trace);
    if n == |trace| {
      assert trace[..n] == trace;
    } else {
      var m := |trace| - 1;
      LegacyPhaseIsAPrefix(d, trace[..m], n);
      assert trace[..m][..n] == trace[..n];
      var s, x := d.After(trace[..m]), trace[m];
      HandleEffect(d.env, s.(clock := x.at), x.at, x.input);
    }
  }

  // ----- conservation and numbering -----

  /**
   * The counter counts the logical edges, which are two per release plus one per pressed switch, so it is
   * even whenever routing is paused. Events are numbered 1, 2, 3, ... at nondecreasing times, and each
   * switch reads pressed, released, pressed, ....
   */
  lemma EdgesAreNumberedAndConserved(d: Daemon, trace: seq<Stamped>)
    requires Timely(d.started, trace)
    ensures var s := d.After(trace);
      && s.sequence == |s.events| == 2 * CountReleased(EdgesOf(s.events)) + |s.board.Pressed()|
      && (s.paused ==> s.sequence % 2 == 0)
      && (forall i :: 0 <= i < |s.events| ==> s.events[i].sequence == i + 1)
      && (forall i, j :: 0 <= i < j < |s.events| ==> s.events[i].monotonicUs <= s.events[j].monotonicUs)
      && (forall sw :: PressThenRelease(ActionsOf(EdgesOf(s.events), sw)))
  {
    hide Sound, Coupled, Ledger;
    EveryRunKeepsInv(d, trace);
    LedgerCounts(d.After(trace));
  }

  lemma LedgerCounts(s: State)
    requires Inv(s)
    ensures s.sequence == |s.events| == 2 * CountReleased(EdgesOf(s.events)) + |s.board.Pressed()|
    ensures s.paused ==> s.sequence % 2 == 0
    ensures forall i :: 0 <= i < |s.events| ==> s.events[i].sequence == i + 1
    ensures forall i, j :: 0 <= i < j < |s.events| ==> s.events[i].monotonicUs <= s.events[j].monotonicUs
    ensures forall sw :: PressThenRelease(ActionsOf(EdgesOf(s.events), sw))
  {
    hide Agrees, Alternates, Replay, CountReleased, ActionsOf, PressThenRelease;
    EdgesAreConserved(EdgesOf(s.events));
    forall sw ensures PressThenRelease(ActionsOf(EdgesOf(s.events), sw)) {
      EachSwitchAlternates(EdgesOf(s.events), sw);
    }
    assert s.paused ==> s.board.Pressed() == {};
  }

  // ----- delivery -----

  /** A client still served has been delivered every message ever addressed to it, in order. */
  lemma NoClientHasAGap(d: Daemon, trace: seq<Stamped>, c: ClientId)
    requires Timely(d.started, trace) && c in d.After(trace).clients
    ensures d.After(trace).clients[c].delivered == d.After(trace).clients[c].addressed
  {
    EveryRunKeepsInv(d, trace);
  }

  /** One message to one client: delivered and still served, or not served at the end. */
  lemma FailedSendDropsTheClient(env: Env, s: State, c: ClientId, m: ServerMessage)
    ensures var (s', sent) := SendTo(env, s, c, m);
      && (sent <==> c in s'.clients)
      && (sent ==> c in s.clients && s'.clients[c].delivered == s.clients[c].delivered + [m])
      && (forall k :: k != c ==> (k in s'.clients <==> k in s.clients) && (k in s.clients ==> s'.clients[k] == s.clients[k]))
  {
    hide Channel.Drained;
  }

  /** A failed send really was refused: the receiver was gone, or held as many messages as fit. */
  lemma SendFailsOnlyWhenFullOrClosed(ch: Channel, consumer: Consumer, m: ServerMessage)
    ensures var (after, ok) := Send(ch, consumer, m);
      var pull := consumer(|ch.addressed|);
      && (ok <==> !ch.closed && !pull.closes && ch.capacity > 0 && |ch.queue| < ch.capacity + pull.taken)
      && (after.closed <==> ch.closed || pull.closes)
      && (|ch.queue| <= ch.capacity ==> |after.queue| <= after.capacity)
      && (FirstInFirstOut(ch) ==> FirstInFirstOut(after))
  {
    if FirstInFirstOut(ch) {
      SendKeepsOrder(ch, consumer, m);
    }
  }

  // ----- stream grammar -----

  /**
   * The stream of every client still served follows the grammar, and where it stands in it is where the
   * broker thinks it stands: in a session exactly when the client holds that session.
   */
  lemma StreamsFollowTheGrammar(d: Daemon, trace: seq<Stamped>, c: ClientId)
    requires Timely(d.started, trace) && c in d.After(trace).clients
    ensures var s := d.After(trace);
      var phase := Parse(s.clients[c].delivered);
      && (phase.Listening? || phase.InSession? || phase.Ended?)
      && (phase.InSession? <==> s.session.Some? && s.session.value.client == c)
      && (phase.InSession? ==> phase.id == s.session.value.id)
      && (Legacy(s) ==> phase.Listening?)
  {
    EveryRunKeepsInv(d, trace);
    assert Agrees(d.After(trace).board.order, StandingOf(d.After(trace), c), d.After(trace).clients[c]);
  }

  /** Every prefix of a well-formed stream is well formed. */
  lemma {:induction false} GrammarIsPrefixClosed(stream: seq<ServerMessage>, n: nat)
    requires n <= |stream| && Parse(stream) != Malformed
    ensures Parse(stream[..n]) != Malformed
    decreases |stream|
  {
    if n == |stream| {
      assert stream[..n] == stream;
    } else {
      GrammarIsPrefixClosed(stream[..|stream| - 1], n);
      assert stream[..|stream| - 1][..n] == stream[..n];
    }
  }

  // ----- session balance -----

  /**
   * For every session a still-served client has seen end, the events between its acceptance and its
   * revocation are consecutively numbered, and each switch was pressed, released, ..., and left released:
   * no release left over from before the session, and no press left open.
   */
  lemma FinishedSessionsAreBalanced(d: Daemon, trace: seq<Stamped>, c: ClientId, r: nat)
    returns (a: nat, events: seq<SwitchEvent>)
    requires Timely(d.started, trace) && c in d.After(trace).clients
    requires r < |d.After(trace).clients[c].delivered| && d.After(trace).clients[c].delivered[r].SessionRevoked?
    ensures var stream := d.After(trace).clients[c].delivered;
      && a < r && stream[a].Accepted? && stream[a].acceptedId == stream[r].revokedId
      && Quiet(stream, a + 1, r)
      && events == EventsIn(stream[a + 1..r])
    ensures Consecutive(events)
    ensures forall sw :: WholePresses(ActionsOf(EdgesOf(events), sw))
  {
    hide Alternates, Replay;
    EveryRunKeepsInv(d, trace);
    StreamsFollowTheGrammar(d, trace, c);
    var stream := d.After(trace).clients[c].delivered;
    assert SessionsBalanced(stream);
    a := RevocationEndsItsSession(stream, r);
    events := EventsIn(stream[a + 1..r]);
    forall sw ensures WholePresses(ActionsOf(EdgesOf(events), sw)) {
      EachSwitchAlternates(EdgesOf(events), sw);
    }
  }

  lemma RevocationEndsItsSession(stream: seq<ServerMessage>, r: nat) returns (a: nat)
    requires Parse(stream) != Malformed && SessionsBalanced(stream)
    requires r < |stream| && stream[r].SessionRevoked?
    ensures a < r && stream[a].Accepted? && stream[a].acceptedId == stream[r].revokedId
    ensures Quiet(stream, a + 1, r) && Balanced(EventsIn(stream[a + 1..r]))
  {
    hide Balanced;
    GrammarIsPrefixClosed(stream, r + 1);
    assert stream[..r + 1][..r] == stream[..r];
    a := OpenSessionWasAccepted(stream[..r]);
    assert stream[..r][a + 1..] == stream[a + 1..r];
    assert Parse(stream[..r + 1]).Ended?;
  }

  /** While a session is open, its holder has been sent exactly the events numbered since it began. */
  lemma HolderHearsExactlyItsSession(d: Daemon, trace: seq<Stamped>)
    requires Timely(d.started, trace) && d.After(trace).session.Some?
    requires d.After(trace).session.value.client in d.After(trace).clients
    ensures var s := d.After(trace);
      var phase := Parse(s.clients[s.session.value.client].delivered);
      && s.sessionMark <= |s.events|
      && phase == InSession(s.session.value.id, s.events[s.sessionMark..])
      && Replay({}, EdgesOf(s.events[..s.sessionMark])) == {}
  {
    hide Replay, EdgesOf, SessionsBalanced;
    EveryRunKeepsInv(d, trace);
    var s := d.After(trace);
    assert Agrees(s.board.order, StandingOf(s, s.session.value.client), s.clients[s.session.value.client]);
  }

  // ----- views -----

  lemma {:induction false} StaleSwitchesAreConfigured(stream: seq<ServerMessage>, order: seq<SwitchId>)
    requires StartsWithSnapshot(order, stream) && Parse(stream) != Malformed
    ensures forall sw :: sw in Stale(stream) ==> sw in order
  {
    var n := |stream| - 1;
    if n == 0 {
      assert stream == [] + [stream[0]];
      OneMore([], stream[0]);
    } else {
      StaleSwitchesAreConfigured(stream[..n], order);
      if stream[n].Hello? {
        FirstMessageStarts(stream[..n]);
      }
    }
  }

  lemma RenderIsInjective(order: seq<SwitchId>, a: set<SwitchId>, b: set<SwitchId>, sw: SwitchId)
    requires sw in order && sw in a && sw !in b
    ensures Render(order, a) != Render(order, b)
  {
    var i :| 0 <= i < |order| && order[i] == sw;
    assert Render(order, a)[i].state == IsPressed && Render(order, b)[i].state == IsReleased;
  }

  /** A client's copy of the switches in a state where what it is told is the truth, and when it is right. */
  lemma CopyIsRightIffNothingIsStale(order: seq<SwitchId>, st: Standing, ch: Channel)
    requires Agrees(order, st, ch)
    ensures Replayed(ch.delivered) == Render(order, st.Told()) <==> !st.late || Stale(ch.delivered) == {}
  {
    hide Replay, SessionsBalanced, Stale, Seen, Replayed, Render;
    ReplayedIsSeen(ch.delivered, order);
    StaleSwitchesAreConfigured(ch.delivered, order);
    if st.late && Stale(ch.delivered) != {} {
      var sw :| sw in Stale(ch.delivered);
      RenderIsInjective(order, Seen(ch.delivered), st.Told(), sw);
    } else {
      assert Seen(ch.delivered) == st.Told();
    }
  }

  /**
   * View agreement, exactly. Take a served client while no session is open, or while it holds the session.
   * Its snapshot revised by every event sent to it is the daemon's own snapshot list if and only if it did
   * not join during a session, or every switch its snapshot showed pressed has been reported to it since.
   */
  lemma ViewIsExactIffNothingIsStale(d: Daemon, trace: seq<Stamped>, c: ClientId)
    requires Timely(d.started, trace) && c in d.After(trace).clients
    requires d.After(trace).session.Some? ==> d.After(trace).session.value.client == c
    ensures var s := d.After(trace);
      Replayed(s.clients[c].delivered) == s.board.Snapshots() <==>
      c !in s.late || Stale(s.clients[c].delivered) == {}
  {
    hide Agrees, Ledger, Stale, Replayed, Render;
    EveryRunKeepsInv(d, trace);
    var s := d.After(trace);
    CopyIsRightIffNothingIsStale(s.board.order, StandingOf(s, c), s.clients[c]);
    assert s.paused ==> s.board.Pressed() == {};
  }

  /** While another client holds the session, a client that joined before it sees every switch released. */
  lemma BystandersSeeEverythingReleased(d: Daemon, trace: seq<Stamped>, c: ClientId)
    requires Timely(d.started, trace) && c in d.After(trace).clients && c !in d.After(trace).late
    requires d.After(trace).session.Some? && d.After(trace).session.value.client != c
    ensures var s := d.After(trace);
      Replayed(s.clients[c].delivered) == Render(s.board.order, {})
  {
    hide Agrees, Ledger, Stale, Replayed, Render;
    EveryRunKeepsInv(d, trace);
    var s := d.After(trace);
    CopyIsRightIffNothingIsStale(s.board.order, StandingOf(s, c), s.clients[c]);
  }

  /** Whether step `k` of a run gave `c` its place among the clients while a session was open. */
  ghost predicate JoinedDuringASession(d: Daemon, trace: seq<Stamped>, c: ClientId, k: nat)
    requires k < |trace|
  {
    && trace[k].input.Register? && d.After(trace[..k]).nextClient == c
    && c in d.After(trace[..k + 1]).clients && d.After(trace[..k]).session.Some?
  }

  /** The late clients are exactly those registered while a session was open. */
  lemma {:induction false} LateMeansJoinedDuringASession(d: Daemon, trace: seq<Stamped>, c: ClientId)
    requires Timely(d.started, trace)
    ensures c in d.After(trace).late <==> exists k :: 0 <= k < |trace| && JoinedDuringASession(d, trace, c, k)
  {
    hide Inv, Step, NewState, JoinedDuringASession;
    if |trace| == 0 {
      NobodyIsLateAtFirst(d);
    } else {
      var n := |trace| - 1;
      LateMeansJoinedDuringASession(d, trace[..n], c);
      LateStep(d, trace, c);
      if k :| 0 <= k < n && JoinedDuringASession(d, trace[..n], c, k) {
        SameStep(d, trace, c, k);
      }
      if k :| 0 <= k < |trace| && JoinedDuringASession(d, trace, c, k) {
        if k < n {
          SameStep(d, trace, c, k);
        }
      }
    }
  }

  lemma NobodyIsLateAtFirst(d: Daemon)
    ensures d.After([]).late == {}
  {
  }

  lemma SameStep(d: Daemon, trace: seq<Stamped>, c: ClientId, k: nat)
    requires k < |trace| - 1
    ensures JoinedDuringASession(d, trace[..|trace| - 1], c, k) == JoinedDuringASession(d, trace, c, k)
  {
    var n := |trace| - 1;
    assert trace[..n][..k] == trace[..k] && trace[..n][..k + 1] == trace[..k + 1];
  }

  lemma LateStep(d: Daemon, trace: seq<Stamped>, c: ClientId)
    requires Timely(d.started, trace) && |trace| > 0
    ensures c in d.After(trace).late <==>
      c in d.After(trace[..|trace| - 1]).late || JoinedDuringASession(d, trace, c, |trace| - 1)
  {
    hide NewState, Handle, Ledger, ClientsAgree, CleanStart, Coupled;
    var n := |trace| - 1;
    assert trace[..n + 1] == trace;
    var s, x := d.After(trace[..n]), trace[n];
    HandleEffect(d.env, s.(clock := x.at), x.at, x.input);
    EveryRunKeepsInv(d, trace[..n]);
    RegisterMarksLate(d.env, s.(clock := x.at), x.at, x.input, c);
  }

  lemma RegisterMarksLate(env: Env, s: State, at: Time, input: Input, c: ClientId)
    requires Issued(s)
    ensures var s' := Handle(env, s, at, input);
      input.Register? ==>
        (c in s'.late <==> c in s.late || (c == s.nextClient && c in s'.clients && s.session.Some?))
  {
    hide Render, Send, Handshaken, PhysicalInput, Revoke, UnregisterClient, Ticked, FocusMoved, Beat;
  }

  // ----- routing -----

  lemma NotifyTouchesOne(env: Env, s: State, c: ClientId, messages: seq<ServerMessage>)
    ensures var s' := Notify(env, s, c, messages);
      forall k :: k != c && k in s'.clients ==> k in s.clients && s'.clients[k] == s.clients[k]
  {
    hide SendAll;
  }

  lemma RevokeTouchesTheHolder(env: Env, s: State, at: Time, reason: RevocationReason)
    requires s.session.Some?
    ensures var s' := Revoke(env, s, at, reason);
      forall k :: k != s.session.value.client && k in s'.clients ==> k in s.clients && s'.clients[k] == s.clients[k]
  {
    hide Notify, PauseAll, Releases, Board.Pressed, Numbered;
    var (s1, releases) := ReleaseHeld(Quiesced(env, s, reason), at);
    NotifyTouchesOne(env, s1, s.session.value.client, Messages(releases) + [SessionRevoked(s.session.value.id, reason)]);
  }

  /** `c` is gone, untouched, or has been sent exactly one handshake reply. */
  ghost predicate HeardOnlyReplies(s: State, s': State, c: ClientId)
    requires c in s.clients
  {
    c in s'.clients ==>
      var before, after := s.clients[c].delivered, s'.clients[c].delivered;
      || after == before
      || (|after| == |before| + 1 && after[..|before|] == before &&
          (after[|before|].Rejected? || after[|before|].Accepted?))
  }

  lemma ReplyIsAReply(env: Env, s: State, c: ClientId, m: ServerMessage, k: ClientId)
    requires k in s.clients && (m.Rejected? || m.Accepted?)
    ensures HeardOnlyReplies(s, SendTo(env, s, c, m).0, k)
  {
    hide Send;
    FailedSendDropsTheClient(env, s, c, m);
  }

  lemma AdmissionIsAReply(env: Env, s: State, at: Time, c: ClientId, h: Handshake, k: ClientId)
    requires k in s.clients
    ensures HeardOnlyReplies(s, Admit(env, s, at, c, h), k)
  {
    hide SendTo, Revoke, PauseAll, HeardOnlyReplies;
    if c in s.clients {
      var open, reply := Opened(env, s, at, c, h), AcceptedReply(env.sessionIds(s.drawn));
      var (s1, accepted) := SendTo(env, open, c, reply);
      ReplyIsAReply(env, open, c, reply, k);
      SendToEffect(env, open, c, reply);
      FailedSendDropsTheClient(env, open, c, reply);
      if !accepted {
        RevokeTouchesTheHolder(env, s1, at, QueueOverflow);
        RevokeEffect(env, s1, at, QueueOverflow);
      }
      UntouchedAfterReply(open, s1, Admit(env, s, at, c, h), k);
      SameClientsHeard(s, open, Admit(env, s, at, c, h), k);
    } else {
      SameClientsHeard(s, s, Admit(env, s, at, c, h), k);
      NothingHeard(s, Admit(env, s, at, c, h), k);
    }
  }

  lemma NothingHeard(s: State, s': State, k: ClientId)
    requires k in s.clients && (k in s'.clients ==> s'.clients[k] == s.clients[k])
    ensures HeardOnlyReplies(s, s', k)
  {
  }

  lemma UntouchedAfterReply(s: State, s1: State, s2: State, k: ClientId)
    requires k in s.clients && HeardOnlyReplies(s, s1, k)
    requires k in s2.clients ==> k in s1.clients && s2.clients[k] == s1.clients[k]
    ensures HeardOnlyReplies(s, s2, k)
  {
  }

  lemma SameClientsHeard(s: State, open: State, s': State, k: ClientId)
    requires s.clients == open.clients && k in s.clients
    ensures HeardOnlyReplies(open, s', k) ==> HeardOnlyReplies(s, s', k)
  {
  }

  /**
   * Outside its own session, and once the legacy phase is over, a client is sent nothing in a step, or one
   * handshake reply; never a switch event.
   */
  lemma BystandersHearOnlyReplies(env: Env, s: State, at: Time, input: Input, c: ClientId)
    requires Issued(s) && c in s.clients && RoleOf(s, c).Bystander?
    ensures HeardOnlyReplies(s, Handle(env, s, at, input), c)
  {
    hide SendTo, Revoke, PauseAll, ResumeAll, HeardOnlyReplies, Admit, Send, Render, Board.Apply, ValidAppId,
      RegisterClient, ReleaseHeld, BroadcastAll, Broadcast;
    var s' := Handle(env, s, at, input);
    match input {
      case Register(capacity) => RegistrationIsPrivate(env, s, capacity, c);
      case Unregister(k) =>
        if Drop(s, k).session.Some? && Drop(s, k).session.value.client == k {
          RevokeTouchesTheHolder(env, Drop(s, k), at, ExplicitRevocation);
        }
        NothingHeard(s, s', c);
      case Physical(e) => InputIsPrivate(env, s, at, e, c);
      case Shake(k, h) => HandshakeIsAReply(env, s, at, k, h, c);
      case Heartbeat(_, _) => NothingHeard(s, s', c);
      case RevokeSession(reason) => RevocationIsPrivate(env, s, at, reason, c);
      case FocusChanged(_) => RevocationIsPrivate(env, s, at, FocusLost, c); NothingHeard(s, s, c);
      case Tick =>
        RevocationIsPrivate(env, s, at, HeartbeatTimeout, c);
        RevocationIsPrivate(env, s, at, EscapeHatch, c);
        NothingHeard(s, s, c);
    }
  }

  /** The same over whole runs, for every step after a reachable boundary. */
  lemma NoEventsWhileStandingBy(d: Daemon, trace: seq<Stamped>, x: Stamped, c: ClientId)
    requires Timely(d.started, trace + [x])
    requires c in d.After(trace).clients && RoleOf(d.After(trace), c).Bystander?
    ensures HeardOnlyReplies(d.After(trace), d.After(trace + [x]), c)
  {
    hide Handle, NewState, Ledger, CleanStart, ClientsAgree, Coupled;
    OneMoreStep(d, trace, x);
    EveryRunKeepsInv(d, trace);
    var s := d.After(trace);
    BystandersHearOnlyReplies(d.env, s.(clock := x.at), x.at, x.input, c);
  }

  lemma RegistrationIsPrivate(env: Env, s: State, capacity: nat, c: ClientId)
    requires Issued(s) && c in s.clients
    ensures HeardOnlyReplies(s, RegisterClient(env, s, capacity), c)
  {
    hide Send, Render;
    NothingHeard(s, RegisterClient(env, s, capacity), c);
  }

  lemma RevocationIsPrivate(env: Env, s: State, at: Time, reason: RevocationReason, c: ClientId)
    requires c in s.clients && (s.session.Some? ==> s.session.value.client != c)
    ensures HeardOnlyReplies(s, Revoke(env, s, at, reason), c)
  {
    hide HeardOnlyReplies, Quiesced, ReleaseHeld, Notify;
    if s.session.Some? {
      RevokeTouchesTheHolder(env, s, at, reason);
    }
    NothingHeard(s, Revoke(env, s, at, reason), c);
  }

  lemma InputIsPrivate(env: Env, s: State, at: Time, e: PhysicalEvent, c: ClientId)
    requires c in s.clients && RoleOf(s, c).Bystander?
    ensures HeardOnlyReplies(s, PhysicalInput(env, s, at, e), c)
  {
    hide SendTo, Revoke, HeardOnlyReplies, Board.Apply, Track;
    var s' := PhysicalInput(env, s, at, e);
    if !s.paused && s.capture.enabled {
      var (board, verdict) := s.board.Apply(e.mappingId, e.action, ValidateConfidence(e.confidence));
      if verdict.Ok? && verdict.value.Some? {
        var edge := verdict.value.value;
        var routed := s.(board := board, escapeTracker := Track(s.escapeTracker, at, edge));
        var (s1, events) := Number(routed, at, [edge]);
        var h := s.session.value.client;
        var (s2, sent) := SendTo(env, s1, h, Event(events[0]));
        FailedSendDropsTheClient(env, s1, h, Event(events[0]));
        SendToEffect(env, s1, h, Event(events[0]));
        if !sent {
          RevokeTouchesTheHolder(env, s2, at, QueueOverflow);
        }
      }
    }
    NothingHeard(s, s', c);
  }

  lemma HandshakeIsAReply(env: Env, s: State, at: Time, k: ClientId, h: Handshake, c: ClientId)
    requires c in s.clients && RoleOf(s, c).Bystander?
    ensures HeardOnlyReplies(s, Handshaken(env, s, at, k, h), c)
  {
    hide SendTo, HeardOnlyReplies, Admit, ResumeAll, ValidAppId, ReleaseHeld, BroadcastAll;
    var rejection := RejectionOf(s, h);
    if rejection.Some? {
      ReplyIsAReply(env, s, k, Rejected(rejection.value), c);
    } else {
      var (capture, error) := ResumeAll(s.capture, env.fates);
      var s1 := s.(capture := capture);
      if error.Some? {
        ReplyIsAReply(env, s1, k, Rejected(CaptureUnavailable), c);
      } else {
        AdmissionIsAReply(env, s1, at, k, h, c);
      }
      SameClientsHeard(s, s1, Handshaken(env, s, at, k, h), c);
    }
  }

  /**
   * No edge is swallowed. When an input during a session is numbered, either the holder has received exactly
   * that event and keeps its session, or the step ends with no session, routing paused, capture disabled and
   * every switch released.
   */
  lemma NoEdgeIsSwallowed(env: Env, s: State, at: Time, e: PhysicalEvent)
    requires s.session.Some? && Handle(env, s, at, Physical(e)).events != s.events
    ensures var s', h := Handle(env, s, at, Physical(e)), s.session.value.client;
      || (s'.session == s.session && h in s.clients && h in s'.clients &&
          |s'.events| == |s.events| + 1 && s'.events[..|s.events|] == s.events &&
          s'.clients[h].delivered == s.clients[h].delivered + [Event(s'.events[|s.events|])])
      || (s'.session.None? && s'.paused && !s'.capture.enabled && s'.board.held == {})
  {
    hide SendTo, Revoke, Board.Apply, Track;
    var (board, verdict) := s.board.Apply(e.mappingId, e.action, ValidateConfidence(e.confidence));
    var edge := verdict.value.value;
    var (s1, events) := Number(s.(board := board, escapeTracker := Track(s.escapeTracker, at, edge)), at, [edge]);
    var h := s.session.value.client;
    var (s2, sent) := SendTo(env, s1, h, Event(events[0]));
    FailedSendDropsTheClient(env, s1, h, Event(events[0]));
    SendToEffect(env, s1, h, Event(events[0]));
    SendToKeepsEvents(env, s1, h, Event(events[0]));
    if !sent {
      RevokeEffect(env, s2, at, QueueOverflow);
    }
  }

  lemma SendToKeepsEvents(env: Env, s: State, c: ClientId, m: ServerMessage)
    ensures SendTo(env, s, c, m).0.events == s.events
  {
    hide Send;
  }

  /** A session that opens while routing is paused opens with every backend alive and grabbed. */
  lemma AcceptanceFromPauseHasEveryGrab(env: Env, s: State, at: Time, c: ClientId, h: Handshake)
    requires s.paused && s.session.None? && Handle(env, s, at, Shake(c, h)).session.Some?
    ensures var s' := Handle(env, s, at, Shake(c, h));
      && s'.capture.enabled && |s'.capture.backends| == |s.capture.backends|
      && (forall i :: 0 <= i < |s'.capture.backends| ==>
            s'.capture.backends[i].alive && s'.capture.backends[i].grabbed &&
            HeardSince(s'.capture.backends[i], [Resume], s.capture.backends[i]))
      && (forall i :: 0 <= i < |s.capture.backends| ==>
            Acknowledges(s.capture.backends[i], Resume, env.fates(s.capture.exchanges, i)))
  {
    hide SendTo, Revoke, ResumeAll, PauseAll, ValidAppId, Commanded, RolledBack, Blames, HeardSince;
    ResumeIsAllOrRollback(s.capture, env.fates);
    var (capture, error) := ResumeAll(s.capture, env.fates);
    var s1 := s.(capture := capture);
    var rejection := RejectionOf(s, h);
    if rejection.Some? {
      SendToEffect(env, s, c, Rejected(rejection.value));
    } else if error.Some? {
      SendToEffect(env, s1, c, Rejected(CaptureUnavailable));
    } else if c in s1.clients {
      var open, reply := Opened(env, s1, at, c, h), AcceptedReply(env.sessionIds(s1.drawn));
      SendToEffect(env, open, c, reply);
      var (s2, accepted) := SendTo(env, open, c, reply);
      if !accepted {
        RevokeEffect(env, s2, at, QueueOverflow);
      }
    }
  }

  // ----- focus and contention -----

  /** After a focus change the open session, if any, declared no process or the frontmost one; and only a mismatch ends it. */
  lemma FocusChangeLeavesOnlyMatchingSessions(env: Env, s: State, at: Time, frontmost: Option<nat>)
    ensures var s' := Handle(env, s, at, FocusChanged(frontmost));
      && (s'.session.Some? ==> s' == s)
      && (s'.session.Some? ==> s'.session.value.pid.None? || s'.session.value.pid == frontmost)
      && (s.session.Some? && s'.session.None? ==>
            Closes(s, s', FocusLost) && s.session.value.pid.Some? && s.session.value.pid != frontmost)
  {
    hide Revoke;
    RevokeOrIdleEffect(env, s, at, FocusLost);
  }

  /** While a session is open, no handshake from anyone moves the session, the switches, the capture or the numbering. */
  lemma HandshakesNeverDisturbASession(env: Env, s: State, at: Time, c: ClientId, h: Handshake)
    requires s.session.Some?
    ensures var s' := Handle(env, s, at, Shake(c, h));
      && Steady(s, s') && s'.board == s.board && s'.capture == s.capture && s'.events == s.events
      && (forall k :: k != c && k in s.clients ==> k in s'.clients && s'.clients[k] == s.clients[k])
      && (c in s'.clients ==>
            && c in s.clients
            && s'.clients[c].delivered == s.clients[c].delivered + [Rejected(
              if h.protocolVersion != "0.3.0" then ProtocolMismatch
              else if !ValidAppId(h.appId) then InvalidAppId
              else if h.mode != ExclusiveForeground then UnsupportedMode
              else SessionBusy)])
  {
    hide SendTo, ValidAppId;
    var reason := RejectionOf(s, h).value;
    SendToEffect(env, s, c, Rejected(reason));
    SendToKeepsEvents(env, s, c, Rejected(reason));
    FailedSendDropsTheClient(env, s, c, Rejected(reason));
    HandshakeEffect(env, s, at, c, h);
  }
}
