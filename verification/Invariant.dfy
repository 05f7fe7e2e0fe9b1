/** The invariant of every reachable broker state, and its preservation by every handler. */
module Invariant {
  import opened Protocol
  import opened Edges
  import opened Switchboard
  import opened Captures
  import opened Channels
  import opened Broker
  import opened Streams
  import opened Agreement
  import opened Effects

  // ----- the parts -----

  /** The capture flag, routing, the switches and the escape tracker agree. */
  ghost predicate Coupled(s: State) {
    && (s.capture.enabled <==> !s.paused)
    && (s.session.Some? ==> !s.paused)
    && (s.paused ==> s.board.held == {})
    && (!s.paused ==> s.escapeTracker.Keys == s.board.Pressed())
  }

  /** Events are numbered 1, 2, 3, ... at nondecreasing times up to now. */
  ghost predicate InOrder(events: seq<SwitchEvent>, now: nat) {
    && (forall i :: 0 <= i < |events| ==> events[i].sequence == i + 1)
    && (forall i, j :: 0 <= i < j < |events| ==> events[i].monotonicUs <= events[j].monotonicUs)
    && (forall i :: 0 <= i < |events| ==> events[i].monotonicUs <= now)
  }

  /** Replaying the numbered events, which alternate per switch, gives the pressed switches. */
  ghost predicate Ledger(s: State) {
    && s.board.Valid()
    && s.sequence == |s.events|
    && InOrder(s.events, MonotonicUs(s.clock, s.started))
    && Alternates({}, EdgesOf(s.events))
    && Replay({}, EdgesOf(s.events)) == s.board.Pressed()
  }

  /** Every id in use was issued, and no client is both served and dropped. */
  ghost predicate Issued(s: State) {
    && (forall c :: c in s.clients ==> c < s.nextClient)
    && (forall c :: c in s.dropped ==> c < s.nextClient)
    && (forall c :: c in s.late ==> c < s.nextClient)
    && s.clients.Keys !! s.dropped.Keys
    && (s.session.Some? ==> s.session.value.client < s.nextClient)
    && (s.session.Some? ==> s.session.value.client in s.clients || s.session.value.client in s.dropped)
  }

  /** The open session began with every switch released. */
  ghost predicate CleanStart(s: State) {
    && s.sessionMark <= |s.events|
    && (s.session.Some? ==> Replay({}, EdgesOf(s.events[..s.sessionMark])) == {})
  }

  function Span(s: State): seq<SwitchEvent> {
    if s.sessionMark <= |s.events| then s.events[s.sessionMark..] else []
  }

  function RoleOf(s: State, c: ClientId): Role {
    if s.session.Some? then
      (if s.session.value.client == c then Holder(s.session.value.id) else Bystander)
    else if s.paused then Bystander
    else Listener
  }

  function StandingOf(s: State, c: ClientId): Standing {
    Standing(RoleOf(s, c), s.board.Pressed(), Span(s), c in s.late)
  }

  ghost predicate ClientsAgree(s: State) {
    forall c :: c in s.clients ==> Agrees(s.board.order, StandingOf(s, c), s.clients[c])
  }

  ghost predicate Sound(s: State) {
    Ledger(s) && Issued(s) && CleanStart(s) && ClientsAgree(s)
  }

  ghost predicate Inv(s: State) {
    Coupled(s) && Sound(s)
  }

  // ----- numbering keeps the ledger -----

  lemma NumberKeepsLedger(s: State, at: Time, board: Board, edges: seq<LogicalTransition>)
    requires Ledger(s) && s.clock == at
    requires board.Valid() && Alternates(s.board.Pressed(), edges)
    requires Replay(s.board.Pressed(), edges) == board.Pressed()
    ensures var (s', events) := Number(s.(board := board), at, edges);
      Ledger(s') && s'.events == s.events + events && EdgesOf(events) == edges
  {
    hide InOrder;
    var (s', events) := Number(s.(board := board), at, edges);
    NumberedInOrder(s.events, MonotonicUs(at, s.started), edges);
    EdgesOfSplits(s.events, events);
    ReplaySplits({}, EdgesOf(s.events), edges);
  }

  lemma NumberedInOrder(events: seq<SwitchEvent>, us: nat, edges: seq<LogicalTransition>)
    requires InOrder(events, us)
    ensures InOrder(events + Numbered(|events|, us, edges), us)
    ensures EdgesOf(Numbered(|events|, us, edges)) == edges
  {
  }

  lemma SpanGrows(s: State, s': State, events: seq<SwitchEvent>)
    requires CleanStart(s) && s'.sessionMark == s.sessionMark && s'.events == s.events + events
    requires s'.session.Some? ==> s.session.Some?
    ensures CleanStart(s') && Span(s') == Span(s) + events
  {
    assert s'.events[..s'.sessionMark] == s.events[..s.sessionMark];
  }

  /** With every switch released, what was numbered since the session began is balanced. */
  lemma SpanIsBalanced(s: State)
    requires Ledger(s) && CleanStart(s) && s.board.Pressed() == {}
    requires Replay({}, EdgesOf(s.events[..s.sessionMark])) == {}
    ensures Balanced(Span(s))
  {
    hide Replay, Alternates, EdgesOf;
    var before := s.events[..s.sessionMark];
    assert s.events == before + Span(s);
    EdgesOfSplits(before, Span(s));
    ReplaySplits({}, EdgesOf(before), EdgesOf(Span(s)));
  }

  // ----- what a handler may leave alone -----

  /** Nothing was numbered and no switch moved. */
  ghost predicate SameBooks(s: State, s': State) {
    && s'.board == s.board && s'.sequence == s.sequence && s'.events == s.events
    && s'.clock == s.clock && s'.started == s.started && s'.sessionMark == s.sessionMark
  }

  lemma BooksKept(s: State, s': State)
    requires SameBooks(s, s')
    ensures Ledger(s) ==> Ledger(s')
    ensures CleanStart(s) && (s'.session.Some? ==> s.session.Some?) ==> CleanStart(s')
    ensures Span(s') == Span(s)
  {
  }

  ghost predicate SameRouting(s: State, s': State) {
    SameBooks(s, s') && s'.session == s.session && s'.paused == s.paused && s'.late == s.late
  }

  /** The clients left untouched by a step that changes neither books nor routing still agree. */
  lemma AgreementKept(s: State, s': State, changed: set<ClientId>)
    requires ClientsAgree(s) && SameRouting(s, s')
    requires forall c :: c in s'.clients && c !in changed ==> c in s.clients && s'.clients[c] == s.clients[c]
    requires forall c :: c in s'.clients && c in changed ==> Agrees(s.board.order, StandingOf(s, c), s'.clients[c])
    ensures ClientsAgree(s')
  {
    hide Agrees;
    forall c | c in s'.clients ensures Agrees(s'.board.order, StandingOf(s', c), s'.clients[c]) {
      assert StandingOf(s', c) == StandingOf(s, c);
    }
  }

  // ----- registration, drops and rejections -----

  lemma RegisterKeepsInv(env: Env, s: State, capacity: nat)
    requires Inv(s)
    ensures Inv(RegisterClient(env, s, capacity))
  {
    hide Agrees, Ledger, CleanStart, ClientsAgree, Issued, Render, Send;
    var s' := RegisterClient(env, s, capacity);
    BooksKept(s, s');
    RegisterIssues(env, s, capacity);
    NewClientAgrees(env, s, capacity);
  }

  lemma RegisterIssues(env: Env, s: State, capacity: nat)
    requires Issued(s)
    ensures Issued(RegisterClient(env, s, capacity))
  {
    hide Render, Send;
    var s' := RegisterClient(env, s, capacity);
    assert s'.clients.Keys <= s.clients.Keys + {s.nextClient};
    assert s.clients.Keys <= s'.clients.Keys;
    assert s.nextClient !in s.dropped;
  }

  lemma NewClientAgrees(env: Env, s: State, capacity: nat)
    requires Inv(s)
    ensures ClientsAgree(RegisterClient(env, s, capacity))
  {
    hide Agrees, InOrder, CleanStart, Render, Alternates, Replay;
    var s', c := RegisterClient(env, s, capacity), s.nextClient;
    PressedAreListed(s.board);
    forall k | k in s'.clients ensures Agrees(s'.board.order, StandingOf(s', k), s'.clients[k]) {
      if k == c {
        SnapshotMakesAgreement(s.board.order, StandingOf(s', c), s'.clients[c]);
      } else {
        assert StandingOf(s', k) == StandingOf(s, k);
      }
    }
  }

  lemma DropKeepsSound(s: State, c: ClientId)
    requires Sound(s)
    ensures Sound(Drop(s, c)) && SameRouting(s, Drop(s, c))
    ensures Coupled(s) ==> Coupled(Drop(s, c))
  {
    hide Agrees, Ledger, CleanStart, ClientsAgree;
    BooksKept(s, Drop(s, c));
    AgreementKept(s, Drop(s, c), {});
  }

  /** A client's queue changes but it still agrees: so does the whole state. */
  lemma ReplaceKeepsSound(s: State, c: ClientId, ch: Channel)
    requires Sound(s) && c in s.clients
    requires Agrees(s.board.order, StandingOf(s, c), ch)
    ensures var s' := s.(clients := s.clients[c := ch]);
      Sound(s') && SameRouting(s, s') && (Coupled(s) ==> Coupled(s'))
  {
    hide Agrees, Ledger, CleanStart, ClientsAgree;
    var s' := s.(clients := s.clients[c := ch]);
    BooksKept(s, s');
    AgreementKept(s, s', {c});
  }

  /** A client whose queue refused a message is gone, whatever the queue now holds. */
  lemma RefusalKeepsSound(s: State, c: ClientId, ch: Channel)
    requires Sound(s) && c in s.clients
    ensures var s' := Drop(s.(clients := s.clients[c := ch]), c);
      Sound(s') && SameRouting(s, s') && (Coupled(s) ==> Coupled(s'))
  {
    hide Agrees, Ledger, CleanStart, ClientsAgree;
    var s' := Drop(s.(clients := s.clients[c := ch]), c);
    BooksKept(s, s');
    AgreementKept(s, s', {});
  }

  lemma RejectKeepsSound(env: Env, s: State, c: ClientId, reason: RejectionReason)
    requires Sound(s)
    ensures Sound(SendTo(env, s, c, Rejected(reason)).0)
    ensures Coupled(s) ==> Coupled(SendTo(env, s, c, Rejected(reason)).0)
  {
    hide Agrees, Ledger, CleanStart, Issued;
    if c in s.clients {
      var (ch, ok) := Send(s.clients[c], env.consumers(c), Rejected(reason));
      if ok {
        RejectionKeepsAgreement(s.board.order, StandingOf(s, c), s.clients[c], ch, reason);
        ReplaceKeepsSound(s, c, ch);
      } else {
        RefusalKeepsSound(s, c, ch);
      }
    }
  }

  // ----- revocation -----

  lemma ReleaseEmptiesTheBoard(s: State, at: Time)
    requires Ledger(s) && s.clock == at && s.sessionMark <= |s.events|
    ensures var (s', releases) := ReleaseHeld(s, at);
      && Ledger(s') && s'.board.held == {} && s'.board.Pressed() == {} && s'.board.order == s.board.order
      && s'.events == s.events + releases && Span(s') == Span(s) + releases
      && Replay(s.board.Pressed(), EdgesOf(releases)) == {}
  {
    hide InOrder, Alternates, Replay;
    var (board, edges) := s.board.ReleaseAll();
    ReleaseAllIsAnOrderedReset(s.board);
    NumberKeepsLedger(s, at, board, edges);
  }

  lemma PauseDisables(cap: Capture, fates: Fates)
    ensures !PauseAll(cap, fates).0.enabled
  {
  }

  lemma RevokeKeepsInv(env: Env, s: State, at: Time, reason: RevocationReason)
    requires Sound(s) && s.session.Some? && s.clock == at
    ensures Inv(Revoke(env, s, at, reason))
    ensures Revoke(env, s, at, reason).session.None? && Revoke(env, s, at, reason).paused
  {
    hide Agrees, Ledger, Replay, EdgesOf, ClientsAgree, PauseAll, SendAll, Messages;
    var session := s.session.value;
    var quiet := Quiesced(env, s, reason);
    PauseDisables(s.capture, env.fates);
    BooksKept(s, quiet);
    ReleaseEmptiesTheBoard(quiet, at);
    var (s1, releases) := ReleaseHeld(quiet, at);
    HolderHearsTheEnd(env, s, s1, releases, reason);
  }

  /** Delivery of the final releases and notice, once the books are already closed. */
  lemma HolderHearsTheEnd(env: Env, s: State, s1: State, releases: seq<SwitchEvent>, reason: RevocationReason)
    requires Sound(s) && s.session.Some?
    requires Ledger(s1) && s1.session.None? && s1.paused && s1.board.Pressed() == {}
    requires s1.board.order == s.board.order && s1.clients == s.clients && s1.dropped == s.dropped
    requires s1.late == s.late && s1.nextClient == s.nextClient && s1.sessionMark == s.sessionMark
    requires s1.events == s.events + releases && Span(s1) == Span(s) + releases
    requires Replay(s.board.Pressed(), EdgesOf(releases)) == {}
    ensures Sound(Notify(env, s1, s.session.value.client,
                         Messages(releases) + [SessionRevoked(s.session.value.id, reason)]))
  {
    hide Agrees, Ledger, Replay, EdgesOf, SendAll, Messages;
    var h := s.session.value.client;
    assert s1.events[..s1.sessionMark] == s.events[..s.sessionMark];
    SpanIsBalanced(s1);
    forall c | c in s1.clients && c != h ensures Agrees(s1.board.order, StandingOf(s1, c), s1.clients[c]) {
      BystandersAreUndisturbed(s.board.order, StandingOf(s, c), s.clients[c], {}, Span(s1));
    }
    BooksKept(s1, Notify(env, s1, h, Messages(releases) + [SessionRevoked(s.session.value.id, reason)]));
    if h in s1.clients {
      var messages := Messages(releases) + [SessionRevoked(s.session.value.id, reason)];
      var (ch, ok) := SendAll(s1.clients[h], env.consumers(h), messages);
      SendAllDelivers(s1.clients[h], env.consumers(h), messages);
      if ok {
        FinalMessagesMakeBystander(s.board.order, StandingOf(s, h), s.clients[h], ch, releases, reason);
      }
    }
  }

  // ----- broadcasts -----

  /** A broadcast changes only the clients; whoever remains was there before and received every message. */
  ghost predicate Broadcasted(s: State, s': State, messages: seq<ServerMessage>) {
    && s' == s.(clients := s'.clients, dropped := s'.dropped)
    && s'.clients.Keys + s'.dropped.Keys == s.clients.Keys + s.dropped.Keys
    && (s.clients.Keys !! s.dropped.Keys ==> s'.clients.Keys !! s'.dropped.Keys)
    && (forall c :: c in s'.clients ==>
          && c in s.clients
          && s'.clients[c].delivered == s.clients[c].delivered + messages
          && s'.clients[c].addressed == s.clients[c].addressed + messages)
  }

  lemma KeptAndLost(outcomes: Outcomes, dropped: map<ClientId, Channel>)
    ensures Kept(outcomes).Keys + (dropped + Lost(outcomes)).Keys == outcomes.Keys + dropped.Keys
    ensures outcomes.Keys !! dropped.Keys ==> Kept(outcomes).Keys !! (dropped + Lost(outcomes)).Keys
    ensures forall c :: c in Kept(outcomes) ==> c in outcomes && outcomes[c].1 && Kept(outcomes)[c] == outcomes[c].0
  {
  }

  lemma BroadcastDelivers(env: Env, s: State, m: ServerMessage)
    ensures Broadcasted(s, Broadcast(env, s, m), [m])
  {
    hide Kept, Lost, Send;
    var outcomes := Outcome(env, s.clients, m);
    KeptAndLost(outcomes, s.dropped);
    assert outcomes.Keys == s.clients.Keys;
    forall c | c in s.clients && outcomes[c].1
      ensures outcomes[c].0.delivered == s.clients[c].delivered + [m]
      ensures outcomes[c].0.addressed == s.clients[c].addressed + [m]
    {
      SendRecords(s.clients[c], env.consumers(c), m);
    }
  }

  lemma {:induction false} BroadcastAllDelivers(env: Env, s: State, messages: seq<ServerMessage>)
    ensures Broadcasted(s, BroadcastAll(env, s, messages), messages)
  {
    hide Broadcast;
    if |messages| > 0 {
      var init, last := messages[..|messages| - 1], messages[|messages| - 1];
      BroadcastAllDelivers(env, s, init);
      BroadcastDelivers(env, BroadcastAll(env, s, init), last);
      assert messages == init + [last];
      assert forall c :: c in s.clients ==>
        s.clients[c].delivered + init + [last] == s.clients[c].delivered + messages &&
        s.clients[c].addressed + init + [last] == s.clients[c].addressed + messages;
    }
  }

  /** In legacy routing, a broadcast of the new events brings every remaining listener up to date. */
  lemma ListenersHear(s: State, s1: State, s': State, events: seq<SwitchEvent>)
    requires ClientsAgree(s) && s.session.None? && !s.paused
    requires s1.session.None? && !s1.paused && s1.late == s.late && s1.board.order == s.board.order
    requires s1.clients == s.clients && Span(s1) == Span(s) + events
    requires Replay(s.board.Pressed(), EdgesOf(events)) == s1.board.Pressed()
    requires Broadcasted(s1, s', Messages(events))
    ensures ClientsAgree(s')
  {
    hide Agrees, Replay, EdgesOf, Messages;
    forall c | c in s'.clients ensures Agrees(s'.board.order, StandingOf(s', c), s'.clients[c]) {
      EventsKeepAgreement(s.board.order, StandingOf(s, c), s.clients[c], s'.clients[c], events);
    }
  }

  lemma BroadcastKeepsRest(s: State, s': State, messages: seq<ServerMessage>)
    requires Broadcasted(s, s', messages)
    ensures SameRouting(s, s')
    ensures Issued(s) ==> Issued(s')
    ensures Ledger(s) ==> Ledger(s')
    ensures CleanStart(s) ==> CleanStart(s')
    ensures Coupled(s) ==> Coupled(s')
  {
    hide Ledger, CleanStart;
    BooksKept(s, s');
    forall c | Issued(s) && c in s'.clients ensures c < s.nextClient {
    }
    forall c | Issued(s) && c in s'.dropped ensures c < s.nextClient {
      assert c in s'.clients.Keys + s'.dropped.Keys;
    }
  }

  // ----- input -----

  lemma TrackFollowsPressed(tracker: map<SwitchId, Time>, at: Time, edge: LogicalTransition)
    ensures Track(tracker, at, edge).Keys == Toggle(tracker.Keys, edge)
  {
  }

  /** The state once an input edge is tracked and numbered, before anyone hears of it. */
  function Routed(s: State, at: Time, edge: LogicalTransition): State {
    Number(s.(escapeTracker := Track(s.escapeTracker, at, edge)), at, [edge]).0
  }

  lemma NumberedEdge(s: State, board: Board, at: Time, edge: LogicalTransition)
    requires Ledger(s) && CleanStart(s) && s.clock == at && board.Valid() && board.order == s.board.order
    requires board.Pressed() == Toggle(s.board.Pressed(), edge)
    requires edge.action == Pressed <==> edge.switchId !in s.board.Pressed()
    ensures var s1 := Routed(s.(board := board), at, edge);
      var event := SwitchEvent(s.sequence + 1, MonotonicUs(at, s.started), edge);
      && Ledger(s1) && CleanStart(s1)
      && s1.events == s.events + [event] && Span(s1) == Span(s) + [event]
      && Numbered(s.sequence, MonotonicUs(at, s.started), [edge]) == [event]
      && Replay(s.board.Pressed(), EdgesOf([event])) == board.Pressed()
  {
    hide InOrder, CleanStart, Track, MonotonicUs, Board.Pressed, Board.Valid, Ledger;
    var event := SwitchEvent(s.sequence + 1, MonotonicUs(at, s.started), edge);
    var tracked := s.(escapeTracker := Track(s.escapeTracker, at, edge));
    OneEdge(s.board.Pressed(), edge);
    BooksKept(s, tracked);
    NumberKeepsLedger(tracked, at, board, [edge]);
    assert Numbered(s.sequence, MonotonicUs(at, s.started), [edge]) == [event];
    SpanGrows(tracked, Routed(s.(board := board), at, edge), [event]);
  }

  lemma OneEdge(pressed: set<SwitchId>, edge: LogicalTransition)
    ensures Replay(pressed, [edge]) == Toggle(pressed, edge)
    ensures Alternates(pressed, [edge]) <==> (edge.action == Pressed <==> edge.switchId !in pressed)
  {
    assert [] + [edge] == [edge];
    ReplayOne(pressed, [], edge);
  }

  lemma RoutedIsCoupled(s: State, board: Board, at: Time, edge: LogicalTransition)
    requires Coupled(s) && !s.paused
    requires board.Pressed() == Toggle(s.board.Pressed(), edge)
    ensures Coupled(Routed(s.(board := board), at, edge))
  {
    TrackFollowsPressed(s.escapeTracker, at, edge);
  }

  lemma RouteEdgeKeepsInv(env: Env, s: State, board: Board, at: Time, edge: LogicalTransition)
    requires Inv(s) && !s.paused && s.clock == at && board.Valid() && board.order == s.board.order
    requires board.Pressed() == Toggle(s.board.Pressed(), edge)
    requires edge.action == Pressed <==> edge.switchId !in s.board.Pressed()
    ensures Inv(RouteEdge(env, s.(board := board), at, edge))
  {
    hide Agrees, Ledger, CleanStart, Track, Send, Replay, EdgesOf, Broadcast, Revoke, Broadcasted, ClientsAgree,
      Board.Pressed, Board.Valid, Alternates, InOrder, Numbered, MonotonicUs;
    NumberedEdge(s, board, at, edge);
    RoutedIsCoupled(s, board, at, edge);
    var s1, event := Routed(s.(board := board), at, edge), SwitchEvent(s.sequence + 1, MonotonicUs(at, s.started), edge);
    assert Messages([event]) == [Event(event)];
    if s.session.None? {
      var s2 := Broadcast(env, s1, Event(event));
      BroadcastDelivers(env, s1, Event(event));
      ListenersHear(s, s1, s2, [event]);
      BroadcastKeepsRest(s1, s2, [Event(event)]);
    } else {
      var (s2, sent) := SendTo(env, s1, s.session.value.client, Event(event));
      HolderHears(env, s, s1, event);
      if !sent {
        RevokeKeepsInv(env, s2, at, QueueOverflow);
      }
    }
  }

  /** An edge routed to the session holder alone: it is told or dropped, and nobody else notices. */
  lemma HolderHears(env: Env, s: State, s1: State, event: SwitchEvent)
    requires Sound(s) && s.session.Some?
    requires Coupled(s1) && Ledger(s1) && CleanStart(s1)
    requires s1.board.order == s.board.order && s1.clients == s.clients && s1.dropped == s.dropped
    requires s1.late == s.late && s1.nextClient == s.nextClient && s1.session == s.session && s1.clock == s.clock
    requires Span(s1) == Span(s) + [event]
    requires Replay(s.board.Pressed(), EdgesOf([event])) == s1.board.Pressed()
    ensures var (s2, sent) := SendTo(env, s1, s.session.value.client, Event(event));
      && Sound(s2) && Coupled(s2)
      && s2.session == s.session && s2.clock == s.clock
  {
    hide Agrees, Ledger, Replay, EdgesOf, CleanStart, Board.Pressed, Send;
    var h := s.session.value.client;
    var s2 := SendTo(env, s1, h, Event(event)).0;
    BooksKept(s1, s2);
    forall c | c in s1.clients && c != h ensures Agrees(s1.board.order, StandingOf(s1, c), s1.clients[c]) {
      BystandersAreUndisturbed(s.board.order, StandingOf(s, c), s.clients[c], s1.board.Pressed(), Span(s1));
    }
    if h in s.clients {
      var (ch, ok) := Send(s.clients[h], env.consumers(h), Event(event));
      SendRecords(s.clients[h], env.consumers(h), Event(event));
      assert Messages([event]) == [Event(event)];
      if ok {
        EventsKeepAgreement(s.board.order, StandingOf(s, h), s.clients[h], ch, [event]);
      }
    }
  }

  lemma SilentInputKeepsInv(s: State, board: Board)
    requires Inv(s) && !s.paused && board.Valid() && board.order == s.board.order
    requires board.Pressed() == s.board.Pressed()
    ensures Inv(s.(board := board))
  {
    hide Agrees, InOrder, Replay, Alternates;
    var s' := s.(board := board);
    forall c | c in s'.clients ensures Agrees(s'.board.order, StandingOf(s', c), s'.clients[c]) {
      assert StandingOf(s', c) == StandingOf(s, c);
    }
  }

  lemma InputKeepsInv(env: Env, s: State, at: Time, e: PhysicalEvent)
    requires Inv(s) && s.clock == at
    ensures Inv(PhysicalInput(env, s, at, e))
  {
    hide Agrees, InOrder, Replay, Alternates, ClientsAgree, RouteEdge, CleanStart, Issued, ValidateConfidence,
      Board.Apply, Board.Pressed;
    if !s.paused && s.capture.enabled {
      var (board, verdict) := s.board.Apply(e.mappingId, e.action, ValidateConfidence(e.confidence));
      ApplyReportsExactlyTheOuterEdge(s.board, e.mappingId, e.action, ValidateConfidence(e.confidence));
      if verdict.Err? || verdict.value.None? {
        SilentInputKeepsInv(s, board);
      } else {
        RouteEdgeKeepsInv(env, s, board, at, verdict.value.value);
      }
    }
  }

  // ----- handshakes -----

  /** Ready to open a session: no session is open and nothing is held. */
  ghost predicate ReadyToOpen(s: State) {
    Sound(s) && s.session.None? && s.board.held == {}
  }

  lemma OpeningKeepsSound(env: Env, s: State, at: Time, c: ClientId, h: Handshake)
    requires ReadyToOpen(s) && c in s.clients && s.capture.enabled && s.clock == at
    ensures var (s1, accepted) := SendTo(env, Opened(env, s, at, c, h), c, AcceptedReply(env.sessionIds(s.drawn)));
      && Sound(s1) && s1.session.Some? && s1.clock == at
      && (accepted ==> Coupled(s1))
  {
    hide Agrees, Ledger, Replay, EdgesOf, Send;
    var open := Opened(env, s, at, c, h);
    var reply := AcceptedReply(env.sessionIds(s.drawn));
    var s1 := SendTo(env, open, c, reply).0;
    assert s.board.Pressed() == {};
    OpenedBooks(env, s, at, c, h);
    BooksKept(open, s1);
    forall k | k in s.clients && k != c ensures Agrees(open.board.order, StandingOf(open, k), s.clients[k]) {
      StandsBy(s, k);
    }
    var (ch, ok) := Send(s.clients[c], env.consumers(c), reply);
    SendRecords(s.clients[c], env.consumers(c), reply);
    if ok {
      AcceptanceMakesHolder(s.board.order, StandingOf(s, c), s.clients[c], ch, env.sessionIds(s.drawn));
    }
  }

  lemma OpenedBooks(env: Env, s: State, at: Time, c: ClientId, h: Handshake)
    requires Ledger(s) && s.board.Pressed() == {} && s.clock == at
    ensures Ledger(Opened(env, s, at, c, h)) && CleanStart(Opened(env, s, at, c, h))
    ensures Span(Opened(env, s, at, c, h)) == []
  {
    hide InOrder, Alternates, Replay;
    assert s.events[..|s.events|] == s.events;
  }

  lemma StandsBy(s: State, c: ClientId)
    requires ReadyToOpen(s) && c in s.clients
    ensures Agrees(s.board.order, Standing(Bystander, {}, [], c in s.late), s.clients[c])
    ensures Agrees(s.board.order, Standing(Bystander, {}, Span(s), c in s.late), s.clients[c])
  {
    hide Agrees, Ledger, Issued, CleanStart;
    assert s.board.Pressed() == {};
    QuietClientsStandBy(s.board.order, StandingOf(s, c), s.clients[c], []);
    QuietClientsStandBy(s.board.order, StandingOf(s, c), s.clients[c], Span(s));
  }

  lemma AdmitKeepsInv(env: Env, s: State, at: Time, c: ClientId, h: Handshake)
    requires ReadyToOpen(s) && s.capture.enabled && s.clock == at
    ensures Inv(Admit(env, s, at, c, h))
  {
    hide Agrees, Ledger, CleanStart, Issued, SendTo, Opened, Revoke, AcceptedReply, PauseAll;
    if c in s.clients {
      OpeningKeepsSound(env, s, at, c, h);
      var (s1, accepted) := SendTo(env, Opened(env, s, at, c, h), c, AcceptedReply(env.sessionIds(s.drawn)));
      if !accepted {
        RevokeKeepsInv(env, s1, at, QueueOverflow);
      }
    } else {
      TurnedAwayKeepsInv(env, s);
    }
  }

  lemma TurnedAwayKeepsInv(env: Env, s: State)
    requires ReadyToOpen(s)
    ensures Inv(s.(capture := PauseAll(s.capture, env.fates).0, paused := true))
  {
    hide Agrees, Ledger, CleanStart, PauseAll;
    var s' := s.(capture := PauseAll(s.capture, env.fates).0, paused := true);
    PauseDisables(s.capture, env.fates);
    BooksKept(s, s');
    assert s'.board.Pressed() == {};
    forall k | k in s'.clients ensures Agrees(s'.board.order, StandingOf(s', k), s'.clients[k]) {
      StandsBy(s, k);
    }
  }

  lemma LegacyReleaseIsReady(env: Env, s: State, at: Time)
    requires Inv(s) && s.session.None? && !s.paused && s.clock == at
    ensures var (s1, releases) := ReleaseHeld(s, at);
      var s2 := BroadcastAll(env, s1, Messages(releases));
      ReadyToOpen(s2) && s2.clock == at && s2.capture == s.capture
  {
    hide Agrees, Ledger, Replay, EdgesOf, ClientsAgree, Messages, Board.Pressed;
    var (s1, releases) := ReleaseHeld(s, at);
    var s2 := BroadcastAll(env, s1, Messages(releases));
    ReleaseEmptiesTheBoard(s, at);
    BroadcastAllDelivers(env, s1, Messages(releases));
    ListenersHear(s, s1, s2, releases);
    BroadcastKeepsRest(s1, s2, Messages(releases));
  }

  lemma HandshakeKeepsInv(env: Env, s: State, at: Time, c: ClientId, h: Handshake)
    requires Inv(s) && s.clock == at
    ensures Inv(Handshaken(env, s, at, c, h))
  {
    hide Agrees, Ledger, CleanStart, ClientsAgree, Issued, SendTo, Admit, ReleaseHeld, BroadcastAll, ResumeAll, ValidAppId;
    var rejection := RejectionOf(s, h);
    if rejection.Some? {
      RejectKeepsSound(env, s, c, rejection.value);
    } else if s.paused {
      var (capture, error) := ResumeAll(s.capture, env.fates);
      ResumedCaptureIsReady(env, s);
      ResumeIsAllOrRollback(s.capture, env.fates);
      if error.Some? {
        RejectKeepsSound(env, s.(capture := capture), c, CaptureUnavailable);
      } else {
        AdmitKeepsInv(env, s.(capture := capture), at, c, h);
      }
    } else {
      LegacyReleaseIsReady(env, s, at);
      var (s1, releases) := ReleaseHeld(s, at);
      AdmitKeepsInv(env, BroadcastAll(env, s1, Messages(releases)), at, c, h);
    }
  }

  lemma ResumedCaptureIsReady(env: Env, s: State)
    requires Inv(s) && s.paused
    ensures var (capture, error) := ResumeAll(s.capture, env.fates);
      ReadyToOpen(s.(capture := capture)) && (error.Some? ==> Inv(s.(capture := capture)))
  {
    hide Agrees, Ledger, CleanStart, ClientsAgree, ResumeAll;
    var (capture, error) := ResumeAll(s.capture, env.fates);
    var s' := s.(capture := capture);
    ResumeIsAllOrRollback(s.capture, env.fates);
    BooksKept(s, s');
    AgreementKept(s, s', {});
  }

  // ----- the other commands -----

  lemma BeatKeepsInv(s: State, at: Time, c: ClientId, id: SessionId)
    requires Inv(s)
    ensures Inv(Beat(s, at, c, id))
  {
    hide Agrees, Ledger;
    var s' := Beat(s, at, c, id);
    BooksKept(s, s');
    forall k | k in s'.clients ensures Agrees(s'.board.order, StandingOf(s', k), s'.clients[k]) {
      assert StandingOf(s', k) == StandingOf(s, k);
    }
  }

  lemma UnregisterKeepsInv(env: Env, s: State, at: Time, c: ClientId)
    requires Inv(s) && s.clock == at
    ensures Inv(UnregisterClient(env, s, at, c))
  {
    hide Agrees, Ledger, CleanStart, ClientsAgree, Issued, Revoke;
    DropKeepsSound(s, c);
    if Drop(s, c).session.Some? && Drop(s, c).session.value.client == c {
      RevokeKeepsInv(env, Drop(s, c), at, ExplicitRevocation);
    }
  }

  lemma ClockKeepsInv(s: State, at: Time)
    requires Inv(s) && s.started <= s.clock <= at
    ensures Inv(s.(clock := at))
  {
    hide Agrees, Replay, Alternates, EdgesOf;
    var s' := s.(clock := at);
    assert MonotonicUs(s.clock, s.started) <= MonotonicUs(at, s.started);
    assert Span(s') == Span(s);
    forall k | k in s'.clients ensures Agrees(s'.board.order, StandingOf(s', k), s'.clients[k]) {
      assert StandingOf(s', k) == StandingOf(s, k);
    }
  }

  lemma HandleKeepsInv(env: Env, s: State, at: Time, input: Input)
    requires Inv(s) && s.clock == at
    ensures Inv(Handle(env, s, at, input))
  {
    hide Ledger, CleanStart, ClientsAgree, Issued, Coupled, Revoke, Handshaken, PhysicalInput, UnregisterClient, Beat,
      RegisterClient;
    match input
    case Register(capacity) => RegisterKeepsInv(env, s, capacity);
    case Unregister(c) => UnregisterKeepsInv(env, s, at, c);
    case Physical(e) => InputKeepsInv(env, s, at, e);
    case Shake(c, h) => HandshakeKeepsInv(env, s, at, c, h);
    case Heartbeat(c, id) => BeatKeepsInv(s, at, c, id);
    case RevokeSession(reason) => RevokeOrIdleKeepsInv(env, s, at, reason);
    case FocusChanged(_) => RevokeOrIdleKeepsInv(env, s, at, FocusLost);
    case Tick =>
      RevokeOrIdleKeepsInv(env, s, at, HeartbeatTimeout);
      RevokeOrIdleKeepsInv(env, s, at, EscapeHatch);
  }

  lemma RevokeOrIdleKeepsInv(env: Env, s: State, at: Time, reason: RevocationReason)
    requires Inv(s) && s.clock == at
    ensures Inv(Revoke(env, s, at, reason))
  {
    hide Ledger, CleanStart, ClientsAgree, Issued, Coupled;
    if s.session.Some? {
      RevokeKeepsInv(env, s, at, reason);
    }
  }

  // ----- runs -----

  lemma NewStateIsSound(mappings: seq<Mapping>, backends: seq<Backend>, started: Time)
    ensures Inv(NewState(mappings, backends, started))
  {
    NewBoardListsEverySwitch(mappings);
  }

  /** The run's last clock reading, or its start. */
  function Now(started: Time, trace: seq<Stamped>): Time {
    if |trace| == 0 then started else trace[|trace| - 1].at
  }

  /** Every reachable step boundary satisfies the whole invariant. */
  lemma {:induction false} EveryRunKeepsInv(d: Daemon, trace: seq<Stamped>)
    requires Timely(d.started, trace)
    ensures var s := d.After(trace);
      && Inv(s) && s.started == d.started && s.clock == Now(d.started, trace) && d.started <= s.clock
      && s.board.order == OrderOf(d.mappings) && s.board.table == TableOf(d.mappings)
  {
    hide Inv, Handle;
    if |trace| == 0 {
      NewStateIsSound(d.mappings, d.backends, d.started);
    } else {
      var n := |trace| - 1;
      EveryRunKeepsInv(d, trace[..n]);
      var s, x := d.After(trace[..n]), trace[n];
      ClockKeepsInv(s, x.at);
      HandleKeepsInv(d.env, s.(clock := x.at), x.at, x.input);
      HandleEffect(d.env, s.(clock := x.at), x.at, x.input);
    }
  }
}
