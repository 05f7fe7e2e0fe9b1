/** The rules leave no choice: they fix every part of the next state. */
module Determinacy {
  import opened Protocol
  import opened TextOrder
  import opened Edges
  import opened Switchboard
  import opened Captures
  import opened Channels
  import opened Broker
  import opened Deliveries
  import opened Rules
  import opened Invariant
  import opened Effects

  // ----- queues -----

  /** Every queue still being written holds the tail of what was delivered, within its capacity. */
  ghost predicate QueuesInOrder(s: State) {
    && (forall c :: c in s.clients ==> FirstInFirstOut(s.clients[c]) && |s.clients[c].queue| <= s.clients[c].capacity)
    && (forall c :: c in s.dropped ==> FirstInFirstOut(s.dropped[c]) && |s.dropped[c].queue| <= s.dropped[c].capacity)
  }

  lemma TookDetermines(
    consumer: Consumer, ch: Channel, a: Channel, b: Channel, tried: seq<ServerMessage>, got: seq<ServerMessage>)
    requires Took(consumer, ch, a, tried, got) && Took(consumer, ch, b, tried, got) && FirstInFirstOut(ch)
    ensures a == b
  {
    hide Gone, Waiting;
  }

  lemma MissDetermines(consumer: Consumer, ch: Channel, a: Channel, b: Channel, messages: seq<ServerMessage>)
    requires MissedOne(consumer, ch, a, messages) && MissedOne(consumer, ch, b, messages) && FirstInFirstOut(ch)
    ensures a == b
  {
    hide Took, Fits, FirstInFirstOut;
    var i :| 0 <= i < |messages| && Takes(ch, consumer, i) && !Fits(ch, consumer, i) &&
      Took(consumer, ch, a, messages[..i + 1], messages[..i]);
    var j :| 0 <= j < |messages| && Takes(ch, consumer, j) && !Fits(ch, consumer, j) &&
      Took(consumer, ch, b, messages[..j + 1], messages[..j]);
    assert i == j;
    TookDetermines(consumer, ch, a, b, messages[..i + 1], messages[..i]);
  }

  lemma TellsDetermines(env: Env, s: State, a: State, b: State, c: ClientId, messages: seq<ServerMessage>)
    requires Tells(env, s, a, c, messages) && Tells(env, s, b, c, messages) && QueuesInOrder(s)
    requires c in s.clients ==> c !in s.dropped
    ensures SameClient(a, b, c)
  {
    hide Took, Takes, MissedOne, FirstInFirstOut;
    if c in s.clients {
      if Takes(s.clients[c], env.consumers(c), |messages|) {
        TookDetermines(env.consumers(c), s.clients[c], a.clients[c], b.clients[c], messages, messages);
      } else {
        MissDetermines(env.consumers(c), s.clients[c], a.dropped[c], b.dropped[c], messages);
      }
    }
  }

  lemma TellsAllDetermines(env: Env, s: State, a: State, b: State, c: ClientId, messages: seq<ServerMessage>)
    requires TellsAll(env, s, a, c, messages) && TellsAll(env, s, b, c, messages) && QueuesInOrder(s)
    ensures SameClient(a, b, c)
  {
    hide Took, Takes, Fitting, FirstInFirstOut;
    if c in s.clients {
      var ch, consumer := s.clients[c], env.consumers(c);
      if Takes(ch, consumer, |messages|) {
        TookDetermines(consumer, ch, a.clients[c], b.clients[c], messages, messages);
      } else {
        TookDetermines(consumer, ch, a.dropped[c], b.dropped[c], messages, Fitting(ch, consumer, messages));
      }
    }
  }

  lemma OthersAgree(s: State, a: State, b: State, c: ClientId)
    requires OnlyFor(s, a, c) && OnlyFor(s, b, c) && SameClient(a, b, c)
    ensures a.clients == b.clients && a.dropped == b.dropped
  {
    forall k ensures SameClient(b, a, k) {
      if k != c {
        assert SameClient(s, a, k) && SameClient(s, b, k);
      }
    }
    SameClientsAll(b, a);
  }

  // ----- numbering and capture -----

  lemma ReleasesAreUnique(a: seq<LogicalTransition>, b: seq<LogicalTransition>)
    requires IncreasingReleases(a) && IncreasingReleases(b) && SwitchesOf(a) == SwitchesOf(b)
    ensures a == b
  {
    hide Less;
    var keys := (edges: seq<LogicalTransition>) =>
      seq(|edges|, i requires 0 <= i < |edges| => edges[i].switchId);
    forall k ensures k in keys(a) <==> k in keys(b) {
      KeysAreSwitches(a, keys(a), k);
      KeysAreSwitches(b, keys(b), k);
    }
    SortedListIsUnique(keys(a), keys(b));
    assert |a| == |keys(a)| == |keys(b)| == |b|;
    forall i | 0 <= i < |a| ensures a[i] == b[i] {
      assert a[i].switchId == keys(a)[i] == keys(b)[i] == b[i].switchId;
    }
  }

  lemma KeysAreSwitches(edges: seq<LogicalTransition>, keys: seq<SwitchId>, k: SwitchId)
    requires |keys| == |edges| && forall i :: 0 <= i < |keys| ==> keys[i] == edges[i].switchId
    ensures k in keys <==> k in SwitchesOf(edges)
  {
    if k in keys {
      var i :| 0 <= i < |keys| && keys[i] == k;
      assert edges[i].switchId == k;
    }
    if k in SwitchesOf(edges) {
      var i :| 0 <= i < |edges| && edges[i].switchId == k;
      assert keys[i] == k;
    }
  }

  lemma StampIsUnique(u: nat, v: nat, started: Time, at: Time)
    requires StampedAt(u, started, at) && StampedAt(v, started, at)
    ensures u == v
  {
  }

  lemma NumberedReleasesAreUnique(s: State, at: Time, a: seq<SwitchEvent>, b: seq<SwitchEvent>)
    requires ReleasesPressed(s, at, a) && ReleasesPressed(s, at, b)
    ensures a == b
  {
    hide StampedAt, IncreasingReleases;
    ReleasesAreUnique(EdgesOf(a), EdgesOf(b));
    assert |a| == |EdgesOf(a)| == |EdgesOf(b)| == |b|;
    forall i | 0 <= i < |a| ensures a[i] == b[i] {
      assert a[i].edge == EdgesOf(a)[i] == EdgesOf(b)[i] == b[i].edge;
      StampIsUnique(a[i].monotonicUs, b[i].monotonicUs, s.started, at);
    }
  }

  lemma CommandDetermines(before: Capture, a: Capture, b: Capture, command: BackendCommand, fates: Fates)
    requires Commanded(before, a, command, fates) && Commanded(before, b, command, fates)
    ensures a.backends == b.backends && a.exchanges == b.exchanges
  {
    forall i | 0 <= i < |a.backends| ensures a.backends[i] == b.backends[i] {
      assert Met(before.backends[i], a.backends[i], command, fates(before.exchanges, i));
    }
  }

  lemma SameBackendsSameCommand(
    before: Capture, before': Capture, after: Capture, command: BackendCommand, fates: Fates)
    requires Commanded(before, after, command, fates)
    requires before.backends == before'.backends && before.exchanges == before'.exchanges
    ensures Commanded(before', after, command, fates)
  {
    hide Met;
  }

  lemma RollbackDetermines(before: Capture, a: Capture, b: Capture, fates: Fates)
    requires RolledBack(before, a, fates) && RolledBack(before, b, fates)
    ensures a == b
  {
    hide Commanded;
    var m: Capture :| Commanded(before, m, Resume, fates) && Commanded(m, a, Pause, fates);
    var n: Capture :| Commanded(before, n, Resume, fates) && Commanded(n, b, Pause, fates);
    CommandDetermines(before, m, n, Resume, fates);
    SameBackendsSameCommand(n, m, b, Pause, fates);
    CommandDetermines(m, a, b, Pause, fates);
  }

  lemma ReacquiredDetermines(env: Env, s: State, a: Capture, b: Capture)
    requires Reacquired(env, s, a) && Reacquired(env, s, b)
    ensures a == b
  {
    hide Commanded;
    if s.paused {
      CommandDetermines(s.capture, a, b, Resume, env.fates);
    }
  }

  lemma StoodDownDetermines(env: Env, s: State, a: Capture, b: Capture)
    requires StoodDown(env, s, a) && StoodDown(env, s, b)
    ensures a == b
  {
    hide Commanded, Reacquired;
    var m: Capture :| Reacquired(env, s, m) && Commanded(m, a, Pause, env.fates);
    var n: Capture :| Reacquired(env, s, n) && Commanded(n, b, Pause, env.fates);
    ReacquiredDetermines(env, s, m, n);
    CommandDetermines(m, a, b, Pause, env.fates);
  }

  // ----- each rule -----

  /** What the rules need of a state to leave no choice. */
  ghost predicate Settled(s: State) {
    QueuesInOrder(s) && s.clients.Keys !! s.dropped.Keys
  }

  lemma EndsDetermines(env: Env, s: State, a: State, b: State, at: Time, reason: RevocationReason)
    requires Ends(env, s, a, at, reason) && Ends(env, s, b, at, reason) && QueuesInOrder(s)
    ensures a == b
  {
    hide ReleasesPressed, Commanded, OnlyFor, TellsAll, QueuesInOrder, Messages;
    NumberedReleasesAreUnique(s, at, Since(s, a), Since(s, b));
    CommandDetermines(s.capture, a.capture, b.capture, Pause, env.fates);
    var session := s.session.value;
    TellsAllDetermines(env, s, a, b, session.client, Messages(Since(s, a)) + [SessionRevoked(session.id, reason)]);
    OthersAgree(s, a, b, session.client);
  }

  lemma DeclinesDetermines(env: Env, s: State, a: State, b: State, at: Time, c: ClientId, reason: RejectionReason)
    requires Declines(env, s, a, at, c, reason) && Declines(env, s, b, at, c, reason) && Settled(s)
    ensures a == b
  {
    hide OnlyFor, Tells, QueuesInOrder;
    TellsDetermines(env, s, a, b, c, [Rejected(reason)]);
    OthersAgree(s, a, b, c);
  }

  lemma EveryoneToldDetermines(env: Env, s: State, a: State, b: State, messages: seq<ServerMessage>)
    requires Settled(s)
    requires forall k :: Tells(env, s, a, k, messages)
    requires forall k :: Tells(env, s, b, k, messages)
    ensures a.clients == b.clients && a.dropped == b.dropped
  {
    hide Tells, QueuesInOrder;
    forall k ensures SameClient(b, a, k) {
      TellsDetermines(env, s, b, a, k, messages);
    }
    SameClientsAll(b, a);
  }

  lemma AcceptanceDetermines(env: Env, s: State, a: State, b: State, c: ClientId, releases: seq<SwitchEvent>)
    requires TellsAcceptance(env, s, a, c, releases) && TellsAcceptance(env, s, b, c, releases) && Settled(s)
    ensures a.clients == b.clients && a.dropped == b.dropped
  {
    hide Tells, QueuesInOrder, Messages;
    forall k ensures SameClient(b, a, k) {
      TellsDetermines(env, s, b, a, k,
        if k == c then Messages(releases) + [Accepted(env.sessionIds(s.drawn), 500, 3)] else Messages(releases));
    }
    SameClientsAll(b, a);
  }

  lemma RegisteredDetermines(env: Env, s: State, a: State, b: State, at: Time, capacity: nat)
    requires Registered(env, s, a, at, capacity) && Registered(env, s, b, at, capacity)
    ensures a == b
  {
    var c := s.nextClient;
    if capacity > 0 && !env.consumers(c)(0).closes {
      SnapshotIsUnique(s.board, a.clients[c].delivered[0].switches, b.clients[c].delivered[0].switches);
      assert a.clients[c].delivered == [a.clients[c].delivered[0]];
      assert b.clients[c].delivered == [b.clients[c].delivered[0]];
    }
  }

  lemma SnapshotIsUnique(board: Board, a: seq<SwitchSnapshot>, b: seq<SwitchSnapshot>)
    requires Shows(board, a) && Shows(board, b)
    ensures a == b
  {
    hide Board.Pressed;
    forall i | 0 <= i < |a| ensures a[i] == b[i] {
    }
  }

  lemma InputDetermines(env: Env, s: State, a: State, b: State, at: Time, e: PhysicalEvent)
    requires InputTaken(env, s, a, at, e) && InputTaken(env, s, b, at, e) && Settled(s)
    ensures a == b
  {
    hide EventRouted, Board.Pressed, QueuesInOrder;
    var m, held := e.mappingId, s.board.held;
    if !(s.paused || m !in s.board.table || (m in held <==> e.action == Pressed)) {
      var board := s.board.(held := if e.action == Pressed then held + {m} else held - {m});
      if board.Pressed() != s.board.Pressed() {
        RoutingDetermines(env, s, a, b, at, board, a.events[|s.events|], b.events[|s.events|]);
      }
    }
  }

  lemma RoutingDetermines(
    env: Env, s: State, a: State, b: State, at: Time, board: Board, event: SwitchEvent, event': SwitchEvent)
    requires EventRouted(env, s, a, at, board, event) && EventRouted(env, s, b, at, board, event')
    requires event.edge == event'.edge && Settled(s)
    ensures a == b
  {
    hide OnlyFor, Tells, Ends, HasRoom, QueuesInOrder, StampedAt;
    assert event == event' by {
      assert [event][0] == event && [event'][0] == event';
      StampIsUnique(event.monotonicUs, event'.monotonicUs, s.started, at);
    }
    if s.session.None? {
      EveryoneToldDetermines(env, s, a, b, [Event(event)]);
    } else {
      var h := s.session.value.client;
      TellsDetermines(env, s, a, b, h, [Event(event)]);
      OthersAgree(s, a, b, h);
      if !HasRoom(env, s, h, 1) {
        OverflowDetermines(env, s, a, b, at, board, event);
      }
    }
  }

  lemma OverflowDetermines(env: Env, s: State, a: State, b: State, at: Time, board: Board, event: SwitchEvent)
    requires EventRouted(env, s, a, at, board, event) && EventRouted(env, s, b, at, board, event)
    requires s.session.Some? && !HasRoom(env, s, s.session.value.client, 1)
    requires a.clients == b.clients && a.dropped == b.dropped
    ensures a == b
  {
    hide OnlyFor, Tells, TellsAll, HasRoom, ReleasesPressed, Commanded, Messages, Continues;
    var sw := event.edge.switchId;
    var routed := s.(
      clock := at, board := board, sequence := s.sequence + 1, events := s.events + [event],
      escapeTracker := if event.edge.action == Pressed then s.escapeTracker[sw := at] else s.escapeTracker - {sw},
      clients := a.clients, dropped := a.dropped);
    assert Ends(env, routed, a, at, QueueOverflow) && Ends(env, routed, b, at, QueueOverflow);
    NumberedReleasesAreUnique(routed, at, Since(routed, a), Since(routed, b));
    CommandDetermines(routed.capture, a.capture, b.capture, Pause, env.fates);
  }

  lemma HandshakeDetermines(env: Env, s: State, a: State, b: State, at: Time, c: ClientId, h: Handshake)
    requires HandshakeAnswered(env, s, a, at, c, h) && HandshakeAnswered(env, s, b, at, c, h) && Settled(s)
    ensures a == b
  {
    hide Declines, HasRoom, TurnsAwayFor, OpensAndEndsFor, OpensFor, RolledBack, ReleasesPressed, ValidAppId,
      AllAcknowledge, QueuesInOrder, Board.Pressed;
    if h.protocolVersion != "0.3.0" {
      DeclinesDetermines(env, s, a, b, at, c, ProtocolMismatch);
    } else if !ValidAppId(h.appId) {
      DeclinesDetermines(env, s, a, b, at, c, InvalidAppId);
    } else if h.mode != ExclusiveForeground {
      DeclinesDetermines(env, s, a, b, at, c, UnsupportedMode);
    } else if s.session.Some? {
      DeclinesDetermines(env, s, a, b, at, c, SessionBusy);
    } else if s.paused && !AllAcknowledge(s.capture, Resume, env.fates) {
      RollbackDetermines(s.capture, a.capture, b.capture, env.fates);
      SettledElsewhere(s, s.(capture := a.capture));
      DeclinesDetermines(env, s.(capture := a.capture), a, b, at, c, CaptureUnavailable);
    } else {
      NumberedReleasesAreUnique(s, at, Since(s, a), Since(s, b));
      AdmissionDetermines(env, s, a, b, at, c, h, Since(s, a));
    }
  }

  lemma SettledElsewhere(s: State, t: State)
    requires Settled(s) && s.clients == t.clients && s.dropped == t.dropped
    ensures Settled(t)
  {
  }

  lemma AdmissionDetermines(
    env: Env, s: State, a: State, b: State, at: Time, c: ClientId, h: Handshake, releases: seq<SwitchEvent>)
    requires Settled(s)
    requires || (TurnsAwayFor(env, s, a, at, releases) && TurnsAwayFor(env, s, b, at, releases))
             || (OpensAndEndsFor(env, s, a, at, c, h, releases) && OpensAndEndsFor(env, s, b, at, c, h, releases))
             || (OpensFor(env, s, a, at, c, h, releases) && OpensFor(env, s, b, at, c, h, releases))
    ensures a == b
  {
    hide Tells, TellsAcceptance, Reacquired, StoodDown, QueuesInOrder, Messages;
    if TurnsAwayFor(env, s, a, at, releases) && TurnsAwayFor(env, s, b, at, releases) {
      StoodDownDetermines(env, s, a.capture, b.capture);
      EveryoneToldDetermines(env, s, a, b, Messages(releases));
    } else {
      AcceptanceDetermines(env, s, a, b, c, releases);
      if OpensFor(env, s, a, at, c, h, releases) && OpensFor(env, s, b, at, c, h, releases) {
        ReacquiredDetermines(env, s, a.capture, b.capture);
      } else {
        StoodDownDetermines(env, s, a.capture, b.capture);
      }
    }
  }

  /** Two states that both follow the rules from the same sound state are the same state. */
  lemma RulesLeaveNoChoice(env: Env, s: State, a: State, b: State, x: Stamped)
    requires Follows(env, s, a, x) && Follows(env, s, b, x) && Settled(s)
    ensures a == b
  {
    hide Ends, Registered, InputTaken, HandshakeAnswered, FirstInFirstOut;
    match x.input
    case Register(capacity) => RegisteredDetermines(env, s, a, b, x.at, capacity);
    case Unregister(c) =>
      if s.session.Some? && s.session.value.client == c {
        var rest := s.(clock := x.at, clients := s.clients - {c},
                       dropped := if c in s.clients then s.dropped[c := s.clients[c]] else s.dropped);
        EndsDetermines(env, rest, a, b, x.at, ExplicitRevocation);
      }
    case Physical(e) => InputDetermines(env, s, a, b, x.at, e);
    case Shake(c, h) => HandshakeDetermines(env, s, a, b, x.at, c, h);
    case Heartbeat(_, _) =>
    case RevokeSession(reason) => if s.session.Some? { EndsDetermines(env, s, a, b, x.at, reason); }
    case FocusChanged(frontmost) =>
      if Ends(env, s, a, x.at, FocusLost) && Ends(env, s, b, x.at, FocusLost) {
        EndsDetermines(env, s, a, b, x.at, FocusLost);
      }
    case Tick =>
      if Ends(env, s, a, x.at, HeartbeatTimeout) && Ends(env, s, b, x.at, HeartbeatTimeout) {
        EndsDetermines(env, s, a, b, x.at, HeartbeatTimeout);
      }
      if Ends(env, s, a, x.at, EscapeHatch) && Ends(env, s, b, x.at, EscapeHatch) {
        EndsDetermines(env, s, a, b, x.at, EscapeHatch);
      }
  }

  // ----- queues stay in order -----

  ghost predicate InOrderQueue(ch: Channel) {
    FirstInFirstOut(ch) && |ch.queue| <= ch.capacity
  }

  lemma TookKeepsOrder(
    consumer: Consumer, ch: Channel, ch': Channel, tried: seq<ServerMessage>, got: seq<ServerMessage>)
    requires Took(consumer, ch, ch', tried, got) && InOrderQueue(ch)
    ensures InOrderQueue(ch')
  {
    hide FirstInFirstOut;
  }

  /** One client's queue, wherever it is kept, is in order. */
  ghost predicate OrderedAt(s: State, c: ClientId) {
    && (c in s.clients ==> InOrderQueue(s.clients[c]))
    && (c in s.dropped ==> InOrderQueue(s.dropped[c]))
    && !(c in s.clients && c in s.dropped)
  }

  lemma SettledMeansOrdered(s: State)
    ensures Settled(s) <==> forall c :: OrderedAt(s, c)
  {
    hide FirstInFirstOut;
    if forall c :: OrderedAt(s, c) {
      forall c | c in s.clients ensures InOrderQueue(s.clients[c]) && c !in s.dropped { assert OrderedAt(s, c); }
      forall c | c in s.dropped ensures InOrderQueue(s.dropped[c]) { assert OrderedAt(s, c); }
    }
  }

  lemma SameClientKeepsOrder(s: State, s': State, c: ClientId)
    requires SameClient(s, s', c) && OrderedAt(s, c)
    ensures OrderedAt(s', c)
  {
    hide InOrderQueue;
  }

  lemma TellsKeepsOrder(env: Env, s: State, s': State, c: ClientId, messages: seq<ServerMessage>)
    requires Tells(env, s, s', c, messages) && OrderedAt(s, c)
    ensures OrderedAt(s', c)
  {
    hide InOrderQueue, Took, Takes, Fits;
    if c in s.clients {
      var consumer, ch := env.consumers(c), s.clients[c];
      if Takes(ch, consumer, |messages|) {
        TookKeepsOrder(consumer, ch, s'.clients[c], messages, messages);
      } else {
        var j :| 0 <= j < |messages| && Takes(ch, consumer, j) && !Fits(ch, consumer, j) &&
          Took(consumer, ch, s'.dropped[c], messages[..j + 1], messages[..j]);
        TookKeepsOrder(consumer, ch, s'.dropped[c], messages[..j + 1], messages[..j]);
      }
    }
  }

  lemma TellsAllKeepsOrder(env: Env, s: State, s': State, c: ClientId, messages: seq<ServerMessage>)
    requires TellsAll(env, s, s', c, messages) && OrderedAt(s, c)
    ensures OrderedAt(s', c)
  {
    hide InOrderQueue, Took, Takes, Fitting;
    if c in s.clients {
      var consumer, ch := env.consumers(c), s.clients[c];
      if Takes(ch, consumer, |messages|) {
        TookKeepsOrder(consumer, ch, s'.clients[c], messages, messages);
      } else {
        TookKeepsOrder(consumer, ch, s'.dropped[c], messages, Fitting(ch, consumer, messages));
      }
    }
  }

  lemma EndsKeepsOrder(env: Env, s: State, s': State, at: Time, reason: RevocationReason, c: ClientId)
    requires Ends(env, s, s', at, reason) && OrderedAt(s, c)
    ensures OrderedAt(s', c)
  {
    hide OrderedAt, TellsAll, ReleasesPressed, Commanded, SameClient, Messages;
    var session := s.session.value;
    if c == session.client {
      TellsAllKeepsOrder(env, s, s', c, Messages(Since(s, s')) + [SessionRevoked(session.id, reason)]);
    } else {
      assert SameClient(s, s', c);
      SameClientKeepsOrder(s, s', c);
    }
  }

  lemma OnlyForKeepsOrder(env: Env, s: State, s': State, h: ClientId, messages: seq<ServerMessage>, c: ClientId)
    requires OnlyFor(s, s', h) && Tells(env, s, s', h, messages) && OrderedAt(s, c)
    ensures OrderedAt(s', c)
  {
    hide OrderedAt, Tells, SameClient;
    if c == h {
      TellsKeepsOrder(env, s, s', c, messages);
    } else {
      assert SameClient(s, s', c);
      SameClientKeepsOrder(s, s', c);
    }
  }

  lemma InputKeepsOrder(env: Env, s: State, s': State, at: Time, e: PhysicalEvent, c: ClientId)
    requires InputTaken(env, s, s', at, e) && OrderedAt(s, c)
    ensures OrderedAt(s', c)
  {
    hide InOrderQueue, Tells, OnlyFor, Ends, HasRoom, Board.Pressed, Continues;
    if s'.clients != s.clients || s'.dropped != s.dropped {
      var message := Event(s'.events[|s.events|]);
      if s.session.None? {
        TellsKeepsOrder(env, s, s', c, [message]);
      } else {
        OnlyForKeepsOrder(env, s, s', s.session.value.client, [message], c);
      }
    }
  }

  lemma DeclinesKeepsOrder(
    env: Env, s: State, s': State, at: Time, k: ClientId, reason: RejectionReason, c: ClientId)
    requires Declines(env, s, s', at, k, reason) && OrderedAt(s, c)
    ensures OrderedAt(s', c)
  {
    hide OrderedAt, Tells, OnlyFor;
    OnlyForKeepsOrder(env, s, s', k, [Rejected(reason)], c);
  }

  lemma HandshakeKeepsOrder(env: Env, s: State, s': State, at: Time, k: ClientId, h: Handshake, c: ClientId)
    requires HandshakeAnswered(env, s, s', at, k, h) && OrderedAt(s, c)
    ensures OrderedAt(s', c)
  {
    hide OrderedAt, Tells, HasRoom, RolledBack, ReleasesPressed, ValidAppId, AllAcknowledge, Board.Pressed,
      Messages, StoodDown, Reacquired, Emptied, Declines;
    var releases := Messages(Since(s, s'));
    var t := s.(capture := s'.capture);
    if reason :| Declines(env, s, s', at, k, reason) {
      DeclinesKeepsOrder(env, s, s', at, k, reason, c);
    } else if Declines(env, t, s', at, k, CaptureUnavailable) {
      OrderedElsewhere(s, t, c);
      DeclinesKeepsOrder(env, t, s', at, k, CaptureUnavailable, c);
    } else if Tells(env, s, s', c, releases) {
      TellsKeepsOrder(env, s, s', c, releases);
    } else {
      TellsKeepsOrder(env, s, s', c, releases + [Accepted(env.sessionIds(s.drawn), 500, 3)]);
    }
  }

  lemma OrderedElsewhere(s: State, t: State, c: ClientId)
    requires OrderedAt(s, c) && s.clients == t.clients && s.dropped == t.dropped
    ensures OrderedAt(t, c)
  {
  }

  lemma NewClientIsOrdered(env: Env, s: State, s': State, at: Time, capacity: nat, c: ClientId)
    requires Registered(env, s, s', at, capacity) && OrderedAt(s, c) && (s.nextClient !in s.dropped)
    ensures OrderedAt(s', c)
  {
    hide Shows;
  }

  lemma UnregisteredKeepsOrder(env: Env, s: State, s': State, at: Time, k: ClientId, c: ClientId)
    requires Unregistered(env, s, s', at, k) && OrderedAt(s, c)
    ensures OrderedAt(s', c)
  {
    hide Ends, InOrderQueue;
    var rest := s.(clock := at, clients := s.clients - {k},
                   dropped := if k in s.clients then s.dropped[k := s.clients[k]] else s.dropped);
    if s.session.Some? && s.session.value.client == k {
      EndsKeepsOrder(env, rest, s', at, ExplicitRevocation, c);
    }
  }

  lemma FollowsKeepsOrder(env: Env, s: State, s': State, x: Stamped, c: ClientId)
    requires Follows(env, s, s', x) && OrderedAt(s, c) && s.nextClient !in s.dropped
    ensures OrderedAt(s', c)
  {
    hide Ends, Registered, Unregistered, InputTaken, HandshakeAnswered, OrderedAt;
    match x.input
    case Register(capacity) => NewClientIsOrdered(env, s, s', x.at, capacity, c);
    case Unregister(k) => UnregisteredKeepsOrder(env, s, s', x.at, k, c);
    case Physical(e) => InputKeepsOrder(env, s, s', x.at, e, c);
    case Shake(k, h) => HandshakeKeepsOrder(env, s, s', x.at, k, h, c);
    case _ =>
      if reason :| Ends(env, s, s', x.at, reason) {
        EndsKeepsOrder(env, s, s', x.at, reason, c);
      } else {
        OrderedElsewhere(s, s', c);
      }
  }

  /** In every run every queue, of a served or a dropped client, holds the unread tail of what was delivered. */
  lemma {:induction false} EveryQueueIsFirstInFirstOut(d: Daemon, trace: seq<Stamped>)
    requires Timely(d.started, trace)
    ensures Settled(d.After(trace))
  {
    hide Follows, NewState, Step, Settled, OrderedAt, Inv;
    if |trace| == 0 {
      NobodyQueues(d);
    } else {
      var n := |trace| - 1;
      var init, x := trace[..n], trace[n];
      EveryQueueIsFirstInFirstOut(d, init);
      assert trace == init + [x];
      EveryStepFollowsTheRules(d, init, x);
      EveryRunKeepsInv(d, init);
      var s, s' := d.After(init), d.After(trace);
      NextIdIsFresh(s);
      SettledMeansOrdered(s);
      forall c ensures OrderedAt(s', c) {
        FollowsKeepsOrder(d.env, s, s', x, c);
      }
      SettledMeansOrdered(s');
    }
  }

  lemma NobodyQueues(d: Daemon)
    ensures Settled(d.After([]))
  {
  }

  lemma NextIdIsFresh(s: State)
    requires Inv(s)
    ensures s.nextClient !in s.dropped && s.nextClient !in s.clients
  {
    hide Coupled, Ledger, CleanStart, ClientsAgree;
  }

  // ----- the run -----

  /** The daemon as it starts: its switches as configured, nothing held, nobody served, capture running. */
  ghost predicate Starts(d: Daemon, s: State) {
    && StrictlySorted(s.board.order) && (forall sw :: sw in s.board.order <==> sw in SwitchIds(d.mappings))
    && s.board.table.Keys == MappingIds(d.mappings)
    && (forall i: nat :: Configures(d.mappings, i) ==> s.board.table[d.mappings[i].id] == d.mappings[i].switchId)
    && s.board.held == {}
    && s == State(s.board, Capture(true, d.backends, 0), d.started, 0, 1, map[], None, false, map[], 0,
                  d.started, [], map[], {}, 0, [])
  }

  lemma StartIsExact(d: Daemon, s: State)
    ensures Starts(d, s) <==> s == d.After([])
  {
    hide Configures, SwitchIds, MappingIds, TableOf, OrderOf;
    NewBoardListsEverySwitch(d.mappings);
    if Starts(d, s) {
      SortedListIsUnique(s.board.order, OrderOf(d.mappings));
      forall m | m in s.board.table ensures s.board.table[m] == TableOf(d.mappings)[m] {
        var i := LastEntryCounts(d.mappings, m);
      }
      assert s.board.table == TableOf(d.mappings);
    }
  }

  /**
   * The rules define the run: a sequence of states is the daemon's run over a trace exactly when it begins as the
   * daemon starts and each state follows from the one before by the rules.
   */
  lemma RulesDefineTheRun(d: Daemon, trace: seq<Stamped>, states: seq<State>)
    requires Timely(d.started, trace) && |states| == |trace| + 1
    ensures (forall n :: 0 <= n <= |trace| ==> states[n] == d.After(trace[..n])) <==>
      Starts(d, states[0]) && forall n :: 0 <= n < |trace| ==> Follows(d.env, states[n], states[n + 1], trace[n])
  {
    hide Follows, Starts, Step, NewState;
    StartIsExact(d, states[0]);
    assert trace[..0] == [];
    if forall n :: 0 <= n <= |trace| ==> states[n] == d.After(trace[..n]) {
      forall n | 0 <= n < |trace| ensures Follows(d.env, states[n], states[n + 1], trace[n]) {
        assert trace[..n + 1] == trace[..n] + [trace[n]];
        TimelyPrefix(d.started, trace, n);
        EveryStepFollowsTheRules(d, trace[..n], trace[n]);
      }
    }
    if Starts(d, states[0]) && forall n :: 0 <= n < |trace| ==> Follows(d.env, states[n], states[n + 1], trace[n]) {
      forall n | 0 <= n <= |trace| ensures states[n] == d.After(trace[..n]) {
        FollowedIsRun(d, trace, states, n);
      }
    }
  }

  lemma {:induction false} FollowedIsRun(d: Daemon, trace: seq<Stamped>, states: seq<State>, n: nat)
    requires Timely(d.started, trace) && |states| == |trace| + 1 && n <= |trace|
    requires Starts(d, states[0])
    requires forall k :: 0 <= k < |trace| ==> Follows(d.env, states[k], states[k + 1], trace[k])
    ensures states[n] == d.After(trace[..n])
    decreases n
  {
    hide Follows, Starts, Step, NewState, Settled;
    if n == 0 {
      StartIsExact(d, states[0]);
      assert trace[..0] == [];
    } else {
      FollowedIsRun(d, trace, states, n - 1);
      assert trace[..n] == trace[..n - 1] + [trace[n - 1]];
      TimelyPrefix(d.started, trace, n - 1);
      EveryStepFollowsTheRules(d, trace[..n - 1], trace[n - 1]);
      EveryQueueIsFirstInFirstOut(d, trace[..n - 1]);
      assert Follows(d.env, states[n - 1], states[n - 1 + 1], trace[n - 1]);
      RulesLeaveNoChoice(d.env, states[n - 1], states[n], d.After(trace[..n]), trace[n - 1]);
    }
  }
}
