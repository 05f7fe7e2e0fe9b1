/** What the state and the streams say about the run that led to them. */
module Histories {
  import opened Protocol
  import opened Edges
  import opened Switchboard
  import opened Captures
  import opened Channels
  import opened Broker
  import opened Streams
  import opened Deliveries
  import opened Effects
  import opened Invariant
  import opened Rules
  import opened Timing

  // ----- what is held -----

  /** Step `k` left routing stopped, or opened a session: either way everything held was released. */
  ghost predicate Resets(d: Daemon, trace: seq<Stamped>, k: nat)
    requires k < |trace|
  {
    d.After(trace[..k + 1]).paused || d.After(trace[..k + 1]).drawn != d.After(trace[..k]).drawn
  }

  predicate IsEdge(x: Stamped, m: MappingId, action: Action) {
    x.input.Physical? && x.input.physical.mappingId == m && x.input.physical.action == action
  }

  /** The mapping was pressed at step `k`, with routing on, and since then neither released nor reset. */
  ghost predicate PressedSince(d: Daemon, trace: seq<Stamped>, m: MappingId, k: nat) {
    && k < |trace| && IsEdge(trace[k], m, Pressed)
    && forall j :: k <= j < |trace| ==> !Resets(d, trace, j) && !IsEdge(trace[j], m, Released)
  }

  ghost predicate HeldDown(d: Daemon, trace: seq<Stamped>, m: MappingId) {
    exists k: nat :: PressedSince(d, trace, m, k)
  }

  /** One step: a reset empties the board, an edge moves its own mapping, and nothing else moves any. */
  ghost predicate HoldStep(s: State, s': State, x: Stamped, m: MappingId) {
    m in s'.board.held <==>
      && m in s.board.table && !s'.paused && s'.drawn == s.drawn
      && (IsEdge(x, m, Pressed) || (m in s.board.held && !IsEdge(x, m, Released)))
  }

  lemma EndsHoldsNothing(env: Env, s: State, s': State, at: Time, reason: RevocationReason)
    requires Ends(env, s, s', at, reason)
    ensures s'.board.held == {} && s'.paused
  {
  }

  lemma RoutingHolds(env: Env, s: State, s': State, at: Time, board: Board, event: SwitchEvent)
    requires EventRouted(env, s, s', at, board, event)
    ensures || (s'.board == board && s'.paused == s.paused && s'.drawn == s.drawn)
            || (s'.board.held == {} && s'.paused)
  {
    hide Tells, OnlyFor, HasRoom, Continues, ReleasesPressed, Commanded, TellsAll;
  }

  lemma InputHolds(env: Env, s: State, s': State, at: Time, e: PhysicalEvent, m: MappingId)
    requires InputTaken(env, s, s', at, e) && s.board.held <= s.board.table.Keys && (s.paused ==> s.board.held == {})
    ensures HoldStep(s, s', Stamped(at, Physical(e)), m)
  {
    hide EventRouted, Board.Pressed;
    var held := s.board.held;
    var board := s.board.(held := if e.action == Pressed then held + {e.mappingId} else held - {e.mappingId});
    if |s.events| < |s'.events| {
      RoutingHolds(env, s, s', at, board, s'.events[|s.events|]);
    }
  }

  lemma HandshakeHolds(env: Env, s: State, s': State, at: Time, c: ClientId, h: Handshake)
    requires HandshakeAnswered(env, s, s', at, c, h)
    ensures || (s'.board.held == s.board.held && s'.paused == s.paused && s'.drawn == s.drawn)
            || (s'.board.held == {} && (s'.paused || s'.drawn != s.drawn))
  {
    hide Declines, HasRoom, RolledBack, ReleasesPressed, ValidAppId, AllAcknowledge, Board.Pressed,
      TurnsAwayFor, OpensFor, OpensAndEndsFor;
    if reason :| Declines(env, s, s', at, c, reason) {
      DeclinesHolds(env, s, s', at, c, reason);
    } else if Declines(env, s.(capture := s'.capture), s', at, c, CaptureUnavailable) {
      DeclinesHolds(env, s.(capture := s'.capture), s', at, c, CaptureUnavailable);
    } else {
      AdmissionHolds(env, s, s', at, c, h, Since(s, s'));
    }
  }

  lemma DeclinesHolds(env: Env, s: State, s': State, at: Time, c: ClientId, reason: RejectionReason)
    requires Declines(env, s, s', at, c, reason)
    ensures s'.board == s.board && s'.paused == s.paused && s'.drawn == s.drawn
  {
    hide OnlyFor, Tells;
  }

  lemma AdmissionHolds(
    env: Env, s: State, s': State, at: Time, c: ClientId, h: Handshake, releases: seq<SwitchEvent>)
    requires || TurnsAwayFor(env, s, s', at, releases)
             || OpensAndEndsFor(env, s, s', at, c, h, releases)
             || OpensFor(env, s, s', at, c, h, releases)
    ensures s'.board.held == {} && (s'.paused || s'.drawn != s.drawn)
  {
    hide Tells, TellsAcceptance, StoodDown, Reacquired, Messages;
  }

  lemma FollowsHolds(env: Env, s: State, s': State, x: Stamped, m: MappingId)
    requires Follows(env, s, s', x) && Coupled(s) && s.board.held <= s.board.table.Keys
    ensures HoldStep(s, s', x, m)
  {
    hide Ends, Registered, InputTaken, HandshakeAnswered, HasRoom;
    match x.input
    case Register(capacity) => RegisteredHolds(env, s, s', x.at, capacity);
    case Unregister(c) =>
      var rest := s.(clock := x.at, clients := s.clients - {c},
                     dropped := if c in s.clients then s.dropped[c := s.clients[c]] else s.dropped);
      if s.session.Some? && s.session.value.client == c {
        EndsHoldsNothing(env, rest, s', x.at, ExplicitRevocation);
      }
    case Physical(e) => InputHolds(env, s, s', x.at, e, m);
    case Shake(c, h) => HandshakeHolds(env, s, s', x.at, c, h);
    case _ =>
      if reason :| Ends(env, s, s', x.at, reason) {
        EndsHoldsNothing(env, s, s', x.at, reason);
      }
  }

  lemma RegisteredHolds(env: Env, s: State, s': State, at: Time, capacity: nat)
    requires Registered(env, s, s', at, capacity)
    ensures s'.board == s.board && s'.paused == s.paused && s'.drawn == s.drawn
  {
    hide Shows;
  }

  lemma HeldDownStep(d: Daemon, trace: seq<Stamped>, m: MappingId)
    requires |trace| > 0
    ensures var n := |trace| - 1;
      HeldDown(d, trace, m) <==>
        !Resets(d, trace, n) &&
        (IsEdge(trace[n], m, Pressed) || (HeldDown(d, trace[..n], m) && !IsEdge(trace[n], m, Released)))
  {
    hide Resets;
    var n := |trace| - 1;
    forall j | 0 <= j < n ensures Resets(d, trace[..n], j) == Resets(d, trace, j) {
      ResetsInPrefix(d, trace, j);
    }
    if !Resets(d, trace, n) && IsEdge(trace[n], m, Pressed) {
      assert PressedSince(d, trace, m, n);
    }
    forall k: nat | PressedSince(d, trace[..n], m, k) && !Resets(d, trace, n) && !IsEdge(trace[n], m, Released)
      ensures PressedSince(d, trace, m, k)
    {
      forall j | k <= j < |trace| ensures !Resets(d, trace, j) && !IsEdge(trace[j], m, Released) {
        if j < n {
          assert !Resets(d, trace[..n], j) && !IsEdge(trace[..n][j], m, Released);
        }
      }
    }
    forall k: nat | PressedSince(d, trace, m, k)
      ensures !Resets(d, trace, n)
      ensures k == n || PressedSince(d, trace[..n], m, k)
      ensures !IsEdge(trace[n], m, Released)
    {
      assert !Resets(d, trace, n) && !IsEdge(trace[n], m, Released);
      if k < n {
        forall j | k <= j < n ensures !Resets(d, trace[..n], j) && !IsEdge(trace[..n][j], m, Released) {
          assert !Resets(d, trace, j);
        }
      }
    }
  }

  lemma ResetsInPrefix(d: Daemon, trace: seq<Stamped>, j: nat)
    requires j < |trace| - 1
    ensures Resets(d, trace[..|trace| - 1], j) == Resets(d, trace, j)
  {
    hide Run;
    var n := |trace| - 1;
    assert trace[..n][..j] == trace[..j] && trace[..n][..j + 1] == trace[..j + 1];
  }

  /**
   * In every run the mappings held are exactly the configured ones pressed while routing was on and since then
   * neither released nor swept up by the end of routing or the opening of a session.
   */
  lemma {:induction false} HeldMeansPressedSince(d: Daemon, trace: seq<Stamped>, m: MappingId)
    requires Timely(d.started, trace)
    ensures m in d.After(trace).board.held <==> m in MappingIds(d.mappings) && HeldDown(d, trace, m)
  {
    hide Follows, NewState, Step, HeldDown, MappingIds, TableOf, OrderOf;
    NewBoardListsEverySwitch(d.mappings);
    if |trace| == 0 {
      NothingHeldAtFirst(d, m);
    } else {
      var n := |trace| - 1;
      var init, x := trace[..n], trace[n];
      HeldMeansPressedSince(d, init, m);
      assert trace == init + [x] && trace[..n + 1] == trace;
      EveryStepFollowsTheRules(d, init, x);
      RunKeepsTable(d, init);
      FollowsHolds(d.env, d.After(init), d.After(trace), x, m);
      HeldDownStep(d, trace, m);
    }
  }

  lemma NothingHeldAtFirst(d: Daemon, m: MappingId)
    ensures d.After([]).board.held == {} && !HeldDown(d, [], m)
  {
  }

  lemma RunKeepsTable(d: Daemon, trace: seq<Stamped>)
    requires Timely(d.started, trace)
    ensures var s := d.After(trace);
      Coupled(s) && s.board.held <= s.board.table.Keys && s.board.table == NewBoard(d.mappings).table
  {
    hide ClientsAgree, CleanStart, Issued, InOrder, Alternates, Replay;
    EveryRunKeepsInv(d, trace);
  }

  /**
   * So a switch reads pressed exactly when some mapping that the configuration last assigned to it is held down:
   * a statement about the configuration and the run's inputs, with no table in between.
   */
  lemma PressedMeansAMappingIsDown(d: Daemon, trace: seq<Stamped>, sw: SwitchId)
    requires Timely(d.started, trace)
    ensures sw in d.After(trace).board.Pressed() <==>
      exists i: nat :: Configures(d.mappings, i) && d.mappings[i].switchId == sw && HeldDown(d, trace, d.mappings[i].id)
  {
    hide HeldDown, TableOf, OrderOf, Run;
    NewBoardListsEverySwitch(d.mappings);
    RunKeepsTable(d, trace);
    var b := d.After(trace).board;
    if sw in b.Pressed() {
      var m :| m in b.held && m in b.table && b.table[m] == sw;
      HeldMeansPressedSince(d, trace, m);
      var i := LastEntryCounts(d.mappings, m);
    }
    if i: nat :| Configures(d.mappings, i) && d.mappings[i].switchId == sw && HeldDown(d, trace, d.mappings[i].id) {
      HeldMeansPressedSince(d, trace, d.mappings[i].id);
      assert d.mappings[i].id in b.held;
    }
  }

  // ----- what an input does -----

  /**
   * An input numbers an event exactly when routing is on, its mapping is configured, its action changes the
   * mapping's state, and the set of pressed switches changes with it. The event names the mapping's switch, the
   * action and the validated confidence; and unless the session ends, exactly that mapping changed.
   */
  lemma InputsNumberOuterEdges(d: Daemon, trace: seq<Stamped>, at: Time, e: PhysicalEvent)
    requires Timely(d.started, trace)
    ensures var s, s' := d.After(trace), d.After(trace + [Stamped(at, Physical(e))]);
      var m, held, table := e.mappingId, s.board.held, s.board.table;
      var next := s.board.(held := if e.action == Pressed then held + {m} else held - {m});
      var moves := !s.paused && m in table && (m in held <==> e.action == Released);
      && (|s'.events| > |s.events| <==> moves && next.Pressed() != s.board.Pressed())
      && (|s'.events| > |s.events| ==>
            && s'.events[..|s.events|] == s.events
            && s'.events[|s.events|].sequence == |s.events| + 1
            && StampedAt(s'.events[|s.events|].monotonicUs, s.started, at)
            && s'.events[|s.events|].edge == LogicalTransition(table[m], e.action, ValidateConfidence(e.confidence)))
      && (s'.session == s.session ==> s'.board == if moves then next else s.board)
  {
    hide Run, Tells, OnlyFor, Board.Pressed, HasRoom, StampedAt, ValidateConfidence, ReleasesPressed,
      Commanded, TellsAll;
    EveryStepFollowsTheRules(d, trace, Stamped(at, Physical(e)));
    SequenceCounts(d, trace);
    var s, s' := d.After(trace), d.After(trace + [Stamped(at, Physical(e))]);
    if |s'.events| > |s.events| {
      assert [s'.events[|s.events|]][0] == s'.events[|s.events|];
    }
  }

  lemma SequenceCounts(d: Daemon, trace: seq<Stamped>)
    requires Timely(d.started, trace)
    ensures d.After(trace).sequence == |d.After(trace).events|
  {
    hide Coupled, ClientsAgree, CleanStart, Issued, InOrder, Alternates, Replay;
    EveryRunKeepsInv(d, trace);
  }

  // ----- who is served -----

  /**
   * Every registration uses up the next id, and serves it exactly when the queue can hold the snapshot and its
   * receiver is there. The snapshot lists each switch with its true state; nobody else notices.
   */
  lemma RegistrationsSucceedWhenTheSnapshotFits(d: Daemon, trace: seq<Stamped>, at: Time, capacity: nat)
    requires Timely(d.started, trace)
    ensures var s, s' := d.After(trace), d.After(trace + [Stamped(at, Register(capacity))]);
      var c := s.nextClient;
      && s'.nextClient == c + 1
      && (c in s'.clients <==> capacity > 0 && !d.env.consumers(c)(0).closes)
      && (forall k :: k != c ==> SameClient(s, s', k))
      && (c in s'.clients ==>
            var ch := s'.clients[c];
            && ch.queue == ch.delivered == ch.addressed && ch.capacity == capacity && !ch.closed
            && |ch.delivered| == 1 && ch.delivered[0].Hello? && Shows(s.board, ch.delivered[0].switches))
      && s' == s.(clock := at, nextClient := c + 1, clients := s'.clients, late := s'.late)
  {
    hide Run, Shows, Ledger, CleanStart, ClientsAgree, Coupled;
    EveryRunKeepsInv(d, trace);
    EveryStepFollowsTheRules(d, trace, Stamped(at, Register(capacity)));
  }

  // ----- when a session opens -----

  /**
   * A handshake opens a session exactly when none is open, it speaks version 0.3.0, names a valid application and
   * the one supported mode, every backend of a paused daemon is alive to answer, drains and can be grabbed, and
   * the requester has room for one release per pressed switch and then for its acceptance.
   */
  lemma SessionsOpenExactlyWhen(d: Daemon, trace: seq<Stamped>, at: Time, c: ClientId, h: Handshake)
    requires Timely(d.started, trace)
    ensures var s, s' := d.After(trace), d.After(trace + [Stamped(at, Shake(c, h))]);
      (s.session.None? && s'.session.Some?) <==>
        && s.session.None?
        && h.protocolVersion == "0.3.0" && ValidAppId(h.appId) && h.mode == ExclusiveForeground
        && (s.paused ==> forall i :: 0 <= i < |s.capture.backends| ==>
              var b, fate := s.capture.backends[i], d.env.fates(s.capture.exchanges, i);
              b.alive && !fate.ended && !fate.silent && fate.drains && (b.grabbed || fate.ioctlWorks))
        && c in s.clients && Takes(s.clients[c], d.env.consumers(c), |s.board.Pressed()| + 1)
    ensures var s, s' := d.After(trace), d.After(trace + [Stamped(at, Shake(c, h))]);
      s.session.None? && s'.session.Some? ==>
        && s'.session.value == Session(c, d.env.sessionIds(s.drawn), h.pid, at)
        && !s'.paused && s'.capture.enabled && s'.board.held == {}
        && c in s'.clients && |s'.clients[c].delivered| > 0
        && s'.clients[c].delivered[|s'.clients[c].delivered| - 1] == Accepted(s'.session.value.id, 500, 3)
  {
    hide Run, Tells, OnlyFor, ValidAppId, Board.Pressed, Takes, RolledBack, ReleasesPressed, Messages, Met;
    EveryStepFollowsTheRules(d, trace, Stamped(at, Shake(c, h)));
    var s, s' := d.After(trace), d.After(trace + [Stamped(at, Shake(c, h))]);
    FitsFirst(d.env, s, c, |s.board.Pressed()|);
    RunKeepsTable(d, trace);
    if s.session.None? && s'.session.Some? {
      ReleaseCount(s, at, Since(s, s'));
      AcceptanceIsLast(d.env, s, s', c, Since(s, s'));
    }
  }

  lemma FitsFirst(env: Env, s: State, c: ClientId, n: nat)
    ensures HasRoom(env, s, c, n + 1) ==> HasRoom(env, s, c, n)
  {
    hide Fits;
  }

  lemma AcceptanceIsLast(env: Env, s: State, s': State, c: ClientId, releases: seq<SwitchEvent>)
    requires TellsAcceptance(env, s, s', c, releases) && HasRoom(env, s, c, |releases| + 1)
    ensures c in s'.clients && |s'.clients[c].delivered| > 0
    ensures s'.clients[c].delivered[|s'.clients[c].delivered| - 1] == Accepted(env.sessionIds(s.drawn), 500, 3)
  {
    hide Takes, MissedOne;
  }

  /**
   * A requester that is refused and still served was sent exactly one message: the rejection for the first
   * objection, in the order version, application, mode, open session, capture.
   */
  lemma RefusalsNameTheFirstObjection(d: Daemon, trace: seq<Stamped>, at: Time, c: ClientId, h: Handshake)
    requires Timely(d.started, trace) && c in d.After(trace).clients
    requires var s, s' := d.After(trace), d.After(trace + [Stamped(at, Shake(c, h))]);
      c in s'.clients && (s.session.Some? || s'.session.None?)
    ensures var s, s' := d.After(trace), d.After(trace + [Stamped(at, Shake(c, h))]);
      s'.clients[c].delivered == s.clients[c].delivered + [Rejected(
        if h.protocolVersion != "0.3.0" then ProtocolMismatch
        else if !ValidAppId(h.appId) then InvalidAppId
        else if h.mode != ExclusiveForeground then UnsupportedMode
        else if s.session.Some? then SessionBusy
        else CaptureUnavailable)]
  {
    hide Run, OnlyFor, ValidAppId, Board.Pressed, RolledBack, ReleasesPressed, Messages, Declines, HasRoom,
      AllAcknowledge, TurnsAwayFor, OpensAndEndsFor, Fits;
    EveryStepFollowsTheRules(d, trace, Stamped(at, Shake(c, h)));
    var s, s' := d.After(trace), d.After(trace + [Stamped(at, Shake(c, h))]);
    var releases := Since(s, s');
    if h.protocolVersion != "0.3.0" {
      DeclinedIsTold(d.env, s, s', at, c, ProtocolMismatch);
    } else if !ValidAppId(h.appId) {
      DeclinedIsTold(d.env, s, s', at, c, InvalidAppId);
    } else if h.mode != ExclusiveForeground {
      DeclinedIsTold(d.env, s, s', at, c, UnsupportedMode);
    } else if s.session.Some? {
      DeclinedIsTold(d.env, s, s', at, c, SessionBusy);
    } else if s.paused && !AllAcknowledge(s.capture, Resume, d.env.fates) {
      DeclinedIsTold(d.env, s.(capture := s'.capture), s', at, c, CaptureUnavailable);
    } else {
      ReleaseCount(s, at, releases);
      UnadmittedAreGone(d.env, s, s', at, c, h, releases);
      OpeningOpens(d.env, s, s', at, c, h, releases);
    }
  }

  lemma OpeningOpens(
    env: Env, s: State, s': State, at: Time, c: ClientId, h: Handshake, releases: seq<SwitchEvent>)
    requires OpensFor(env, s, s', at, c, h, releases)
    ensures s'.session.Some?
  {
  }

  lemma DeclinedIsTold(env: Env, s: State, s': State, at: Time, c: ClientId, reason: RejectionReason)
    requires Declines(env, s, s', at, c, reason) && c in s.clients && c in s'.clients
    ensures s'.clients[c].delivered == s.clients[c].delivered + [Rejected(reason)]
  {
    hide Takes, MissedOne;
  }

  lemma UnadmittedAreGone(
    env: Env, s: State, s': State, at: Time, c: ClientId, h: Handshake, releases: seq<SwitchEvent>)
    ensures TurnsAwayFor(env, s, s', at, releases) && !HasRoom(env, s, c, |releases|) ==> c !in s'.clients
    ensures OpensAndEndsFor(env, s, s', at, c, h, releases) && !HasRoom(env, s, c, |releases| + 1) ==> c !in s'.clients
  {
    assert TurnsAwayFor(env, s, s', at, releases) ==> Tells(env, s, s', c, Messages(releases));
    hide Takes, MissedOne, Took, StoodDown, Emptied;
    assert |Messages(releases)| == |releases|;
  }
}
