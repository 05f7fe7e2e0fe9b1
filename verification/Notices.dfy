/** Revocation notices tell the truth: which sessions ended, in which order, and why. */
module Notices {
  import opened Protocol
  import opened Switchboard
  import opened Captures
  import opened Channels
  import opened Broker
  import opened Streams
  import opened Deliveries
  import opened Effects
  import opened Invariant
  import opened Rules
  import opened Timing

  datatype Notice = Notice(id: SessionId, reason: RevocationReason)

  /** The revocations a stream announces, in order. */
  function Announced(stream: seq<ServerMessage>): seq<Notice> {
    if |stream| == 0 then []
    else
      var last := stream[|stream| - 1];
      Announced(stream[..|stream| - 1]) + (if last.SessionRevoked? then [Notice(last.revokedId, last.reason)] else [])
  }

  /** The recorded revocations of one client's sessions, in order. */
  function EndingsOf(revocations: seq<Revocation>, c: ClientId): seq<Notice> {
    if |revocations| == 0 then []
    else
      var last := revocations[|revocations| - 1];
      EndingsOf(revocations[..|revocations| - 1], c) +
      (if last.session.client == c then [Notice(last.session.id, last.cause)] else [])
  }

  lemma {:induction false} AnnouncedSplits(a: seq<ServerMessage>, b: seq<ServerMessage>)
    ensures Announced(a + b) == Announced(a) + Announced(b)
    decreases |b|
  {
    if |b| == 0 {
      assert a + b == a;
    } else {
      var init, last := b[..|b| - 1], b[|b| - 1];
      AnnouncedSplits(a, init);
      assert a + b == (a + init) + [last];
      assert (a + b)[..|a + b| - 1] == a + init;
    }
  }

  lemma {:induction false} EventsAnnounceNothing(events: seq<SwitchEvent>)
    ensures Announced(Messages(events)) == []
  {
    if |events| > 0 {
      EventsAnnounceNothing(events[..|events| - 1]);
      assert Messages(events)[..|events| - 1] == Messages(events[..|events| - 1]);
    }
  }

  lemma OneAnnounces(m: ServerMessage)
    ensures Announced([m]) == if m.SessionRevoked? then [Notice(m.revokedId, m.reason)] else []
  {
    assert [m][..0] == [];
  }

  lemma OneMoreEnding(revocations: seq<Revocation>, last: Revocation, c: ClientId)
    ensures EndingsOf(revocations + [last], c) ==
      EndingsOf(revocations, c) + (if last.session.client == c then [Notice(last.session.id, last.cause)] else [])
  {
    assert (revocations + [last])[..|revocations|] == revocations;
  }

  // ----- the promise, for one client -----

  ghost predicate ToldTheTruth(s: State, c: ClientId) {
    c in s.clients ==> Announced(s.clients[c].delivered) == EndingsOf(s.revocations, c)
  }

  lemma ToldNothingNew(s: State, s': State, c: ClientId, messages: seq<ServerMessage>)
    requires ToldTheTruth(s, c) && EndingsOf(s'.revocations, c) == EndingsOf(s.revocations, c)
    requires c in s'.clients ==> c in s.clients && s'.clients[c].delivered == s.clients[c].delivered + messages
    requires Announced(messages) == []
    ensures ToldTheTruth(s', c)
  {
    if c in s'.clients {
      AnnouncedSplits(s.clients[c].delivered, messages);
    }
  }

  lemma UntouchedIsTold(s: State, s': State, c: ClientId)
    requires ToldTheTruth(s, c) && EndingsOf(s'.revocations, c) == EndingsOf(s.revocations, c)
    requires SameClient(s, s', c)
    ensures ToldTheTruth(s', c)
  {
  }

  lemma TellsTheTruth(env: Env, s: State, s': State, c: ClientId, messages: seq<ServerMessage>)
    requires ToldTheTruth(s, c) && EndingsOf(s'.revocations, c) == EndingsOf(s.revocations, c)
    requires Tells(env, s, s', c, messages) && Announced(messages) == []
    ensures ToldTheTruth(s', c)
  {
    hide Takes, MissedOne, ToldTheTruth, Announced;
    ToldNothingNew(s, s', c, messages);
  }

  lemma EndsTellTheTruth(env: Env, s: State, s': State, at: Time, reason: RevocationReason, c: ClientId)
    requires Ends(env, s, s', at, reason) && ToldTheTruth(s, c)
    ensures ToldTheTruth(s', c)
  {
    hide ReleasesPressed, Commanded, Takes, SameClient, Fitting, Messages, Announced, EndingsOf;
    var session, releases := s.session.value, Since(s, s');
    OneMoreEnding(s.revocations, Revocation(session, reason), c);
    if c == session.client {
      EventsAnnounceNothing(releases);
      AnnouncedSplits(Messages(releases), [SessionRevoked(session.id, reason)]);
      OneAnnounces(SessionRevoked(session.id, reason));
      if c in s'.clients {
        AnnouncedSplits(s.clients[c].delivered, Messages(releases) + [SessionRevoked(session.id, reason)]);
        assert s'.clients[c].delivered ==
          s.clients[c].delivered + (Messages(releases) + [SessionRevoked(session.id, reason)]);
        assert [] + [Notice(session.id, reason)] == [Notice(session.id, reason)];
      }
    } else {
      assert SameClient(s, s', c);
      SameStream(s, s', c);
    }
  }

  lemma SameStream(s: State, s': State, c: ClientId)
    requires SameClient(s, s', c)
    ensures c in s'.clients ==> c in s.clients && s'.clients[c] == s.clients[c]
  {
  }

  lemma OneClientIsTold(env: Env, s: State, s': State, h: ClientId, m: ServerMessage, c: ClientId)
    requires OnlyFor(s, s', h) && Tells(env, s, s', h, [m]) && !m.SessionRevoked?
    requires ToldTheTruth(s, c) && s'.revocations == s.revocations
    ensures ToldTheTruth(s', c)
  {
    hide Tells, ToldTheTruth, SameClient;
    if c == h {
      OneAnnounces(m);
      TellsTheTruth(env, s, s', c, [m]);
    } else {
      assert SameClient(s, s', c);
      UntouchedIsTold(s, s', c);
    }
  }

  // ----- every rule keeps it -----

  lemma RoutingTellsTheTruth(
    env: Env, s: State, s': State, at: Time, board: Board, event: SwitchEvent, c: ClientId)
    requires EventRouted(env, s, s', at, board, event) && ToldTheTruth(s, c)
    ensures ToldTheTruth(s', c)
  {
    hide Tells, OnlyFor, Ends, HasRoom, Continues, ToldTheTruth;
    var sw := event.edge.switchId;
    var routed := s.(
      clock := at, board := board, sequence := s.sequence + 1, events := s.events + [event],
      escapeTracker := if event.edge.action == Pressed then s.escapeTracker[sw := at] else s.escapeTracker - {sw},
      clients := s'.clients, dropped := s'.dropped);
    if s.session.None? {
      OneAnnounces(Event(event));
      TellsTheTruth(env, s, s', c, [Event(event)]);
    } else {
      var h := s.session.value.client;
      SameOutcome(env, s, s', routed, h, [Event(event)]);
      OneClientIsTold(env, s, routed, h, Event(event), c);
      if Ends(env, routed, s', at, QueueOverflow) {
        EndsTellTheTruth(env, routed, s', at, QueueOverflow, c);
      }
    }
  }

  lemma InputTellsTheTruth(env: Env, s: State, s': State, at: Time, e: PhysicalEvent, c: ClientId)
    requires InputTaken(env, s, s', at, e) && ToldTheTruth(s, c)
    ensures ToldTheTruth(s', c)
  {
    hide EventRouted, Board.Pressed;
    var held := s.board.held;
    var board := s.board.(held := if e.action == Pressed then held + {e.mappingId} else held - {e.mappingId});
    if |s.events| < |s'.events| {
      RoutingTellsTheTruth(env, s, s', at, board, s'.events[|s.events|], c);
    }
  }

  lemma DeclineTellsTheTruth(
    env: Env, s: State, s': State, at: Time, k: ClientId, reason: RejectionReason, c: ClientId)
    requires Declines(env, s, s', at, k, reason) && ToldTheTruth(s, c)
    ensures ToldTheTruth(s', c)
  {
    hide Tells, OnlyFor, ToldTheTruth;
    OneClientIsTold(env, s, s', k, Rejected(reason), c);
  }

  lemma AdmissionTellsTheTruth(
    env: Env, s: State, s': State, at: Time, k: ClientId, h: Handshake, releases: seq<SwitchEvent>, c: ClientId)
    requires ToldTheTruth(s, c)
    requires || TurnsAwayFor(env, s, s', at, releases)
             || (OpensAndEndsFor(env, s, s', at, k, h, releases) && !HasRoom(env, s, k, |releases| + 1))
             || OpensFor(env, s, s', at, k, h, releases)
    ensures ToldTheTruth(s', c)
  {
    hide Tells, StoodDown, Reacquired, Messages, HasRoom, EndingsOf, Announced, Emptied;
    var accepted := Accepted(env.sessionIds(s.drawn), 500, 3);
    EventsAnnounceNothing(releases);
    OneAnnounces(accepted);
    AnnouncedSplits(Messages(releases), [accepted]);
    OneMoreEnding(s.revocations, Revocation(Offered(env, s, at, k, h), QueueOverflow), c);
    EmptiedKeepsRevocations(s, s', at, releases);
    if TurnsAwayFor(env, s, s', at, releases) {
      TellsTheTruth(env, s, s', c, Messages(releases));
    } else if c != k {
      assert EndingsOf(s'.revocations, c) == EndingsOf(s.revocations, c) + [] == EndingsOf(s.revocations, c);
      TellsTheTruth(env, s, s', c, Messages(releases));
    } else if OpensFor(env, s, s', at, k, h, releases) {
      TellsTheTruth(env, s, s', c, Messages(releases) + [accepted]);
    } else {
      UnadmittedIsGone(env, s, s', k, releases);
    }
  }

  lemma EmptiedKeepsRevocations(s: State, s': State, at: Time, releases: seq<SwitchEvent>)
    ensures Emptied(s, s', at, releases).revocations == s.revocations
  {
  }

  lemma UnadmittedIsGone(env: Env, s: State, s': State, c: ClientId, releases: seq<SwitchEvent>)
    requires TellsAcceptance(env, s, s', c, releases) && !HasRoom(env, s, c, |releases| + 1)
    ensures c !in s'.clients
  {
    hide Takes, MissedOne, Took;
    assert |Messages(releases)| == |releases|;
  }

  lemma HandshakeTellsTheTruth(env: Env, s: State, s': State, at: Time, k: ClientId, h: Handshake, c: ClientId)
    requires HandshakeAnswered(env, s, s', at, k, h) && ToldTheTruth(s, c)
    ensures ToldTheTruth(s', c)
  {
    hide ToldTheTruth, HasRoom, RolledBack, ReleasesPressed, ValidAppId, AllAcknowledge, Board.Pressed, Declines,
      TurnsAwayFor, OpensAndEndsFor, OpensFor;
    var t := s.(capture := s'.capture);
    if reason :| Declines(env, s, s', at, k, reason) {
      DeclineTellsTheTruth(env, s, s', at, k, reason, c);
    } else if Declines(env, t, s', at, k, CaptureUnavailable) {
      SameTruth(s, t, c);
      DeclineTellsTheTruth(env, t, s', at, k, CaptureUnavailable, c);
    } else {
      ReleaseCount(s, at, Since(s, s'));
      AdmissionTellsTheTruth(env, s, s', at, k, h, Since(s, s'), c);
    }
  }

  lemma SameTruth(s: State, t: State, c: ClientId)
    requires s.clients == t.clients && s.revocations == t.revocations
    ensures ToldTheTruth(s, c) <==> ToldTheTruth(t, c)
  {
  }

  /** Every revocation on record was of a session whose holder's id had been issued. */
  ghost predicate EndingsWereIssued(s: State) {
    forall i :: 0 <= i < |s.revocations| ==> s.revocations[i].session.client < s.nextClient
  }

  lemma {:induction false} NewcomersHaveNoEndings(revocations: seq<Revocation>, c: ClientId)
    requires forall i :: 0 <= i < |revocations| ==> revocations[i].session.client != c
    ensures EndingsOf(revocations, c) == []
  {
    if |revocations| > 0 {
      NewcomersHaveNoEndings(revocations[..|revocations| - 1], c);
    }
  }

  lemma RegistrationTellsTheTruth(env: Env, s: State, s': State, at: Time, capacity: nat, c: ClientId)
    requires Registered(env, s, s', at, capacity) && ToldTheTruth(s, c) && EndingsWereIssued(s)
    ensures ToldTheTruth(s', c)
  {
    hide Shows;
    NewcomersHaveNoEndings(s.revocations, s.nextClient);
    if s.nextClient in s'.clients {
      var stream := s'.clients[s.nextClient].delivered;
      if |stream| == 1 {
        OneAnnounces(stream[0]);
        assert stream == [stream[0]];
      }
    }
  }

  lemma FollowsTellsTheTruth(env: Env, s: State, s': State, x: Stamped, c: ClientId)
    requires Follows(env, s, s', x) && ToldTheTruth(s, c) && EndingsWereIssued(s)
    ensures ToldTheTruth(s', c)
  {
    hide Ends, Registered, InputTaken, HandshakeAnswered, ToldTheTruth, EndingsWereIssued;
    match x.input
    case Register(capacity) => RegistrationTellsTheTruth(env, s, s', x.at, capacity, c);
    case Unregister(k) =>
      var rest := s.(clock := x.at, clients := s.clients - {k},
                     dropped := if k in s.clients then s.dropped[k := s.clients[k]] else s.dropped);
      FewerAreTold(s, rest, c);
      if s.session.Some? && s.session.value.client == k {
        EndsTellTheTruth(env, rest, s', x.at, ExplicitRevocation, c);
      }
    case Physical(e) => InputTellsTheTruth(env, s, s', x.at, e, c);
    case Shake(k, h) => HandshakeTellsTheTruth(env, s, s', x.at, k, h, c);
    case _ =>
      if reason :| Ends(env, s, s', x.at, reason) {
        EndsTellTheTruth(env, s, s', x.at, reason, c);
      } else {
        SameTruth(s, s', c);
      }
  }

  lemma FewerAreTold(s: State, t: State, c: ClientId)
    requires t.revocations == s.revocations && ToldTheTruth(s, c)
    requires c in t.clients ==> c in s.clients && t.clients[c] == s.clients[c]
    ensures ToldTheTruth(t, c)
  {
  }

  // ----- every ending has its cause in the run -----

  /** What the step `x`, taken after `before`, must look like for it to end session `r.session` for `r.cause`. */
  ghost predicate Warrants(d: Daemon, before: seq<Stamped>, x: Stamped, r: Revocation) {
    var s := d.After(before);
    match x.input
    case Register(_) => false
    case Heartbeat(_, _) => false
    case Unregister(c) => s.session == Some(r.session) && r.session.client == c && r.cause == ExplicitRevocation
    case RevokeSession(reason) => s.session == Some(r.session) && r.cause == reason
    case FocusChanged(frontmost) =>
      s.session == Some(r.session) && r.cause == FocusLost && r.session.pid.Some? && r.session.pid != frontmost
    case Tick =>
      && s.session == Some(r.session)
      && if NothingRenewed(d, before, x.at) then r.cause == HeartbeatTimeout
         else r.cause == EscapeHatch && HeldThrough(d, before, x.at)
    case Physical(_) =>
      s.session == Some(r.session) && r.cause == QueueOverflow && !HasRoom(d.env, s, r.session.client, 1)
    case Shake(c, h) =>
      && s.session.None? && r == Revocation(Offered(d.env, s, x.at, c, h), QueueOverflow)
      && HasRoom(d.env, s, c, |s.board.Pressed()|) && !HasRoom(d.env, s, c, |s.board.Pressed()| + 1)
  }

  /** The step records no ending, or one that it warrants. */
  ghost predicate EndsAtMostOne(d: Daemon, before: seq<Stamped>, x: Stamped) {
    var s, s' := d.After(before), d.After(before + [x]);
    || s'.revocations == s.revocations
    || (|s'.revocations| == |s.revocations| + 1 && s'.revocations[..|s.revocations|] == s.revocations &&
        Warrants(d, before, x, s'.revocations[|s.revocations|]))
  }

  lemma EndsRecords(env: Env, s: State, s': State, at: Time, reason: RevocationReason)
    requires Ends(env, s, s', at, reason)
    ensures s'.revocations == s.revocations + [Revocation(s.session.value, reason)]
  {
  }

  lemma InputRecords(env: Env, s: State, s': State, at: Time, e: PhysicalEvent)
    requires InputTaken(env, s, s', at, e)
    ensures || s'.revocations == s.revocations
            || (s.session.Some? && !HasRoom(env, s, s.session.value.client, 1) &&
                s'.revocations == s.revocations + [Revocation(s.session.value, QueueOverflow)])
  {
    hide EventRouted, Board.Pressed;
    var held := s.board.held;
    var board := s.board.(held := if e.action == Pressed then held + {e.mappingId} else held - {e.mappingId});
    if |s.events| < |s'.events| {
      RoutingRecords(env, s, s', at, board, s'.events[|s.events|]);
    }
  }

  lemma RoutingRecords(env: Env, s: State, s': State, at: Time, board: Board, event: SwitchEvent)
    requires EventRouted(env, s, s', at, board, event)
    ensures || s'.revocations == s.revocations
            || (s.session.Some? && !HasRoom(env, s, s.session.value.client, 1) &&
                s'.revocations == s.revocations + [Revocation(s.session.value, QueueOverflow)])
  {
    hide Tells, OnlyFor, HasRoom, Continues, ReleasesPressed, Commanded, TellsAll;
  }

  lemma HandshakeRecords(env: Env, s: State, s': State, at: Time, c: ClientId, h: Handshake)
    requires HandshakeAnswered(env, s, s', at, c, h)
    ensures || s'.revocations == s.revocations
            || (s.session.None? &&
                HasRoom(env, s, c, |s.board.Pressed()|) && !HasRoom(env, s, c, |s.board.Pressed()| + 1) &&
                s'.revocations == s.revocations + [Revocation(Offered(env, s, at, c, h), QueueOverflow)])
  {
    hide Tells, TellsAcceptance, StoodDown, Reacquired, Messages, HasRoom, RolledBack, ReleasesPressed, ValidAppId,
      AllAcknowledge, Board.Pressed, OnlyFor;
  }

  lemma EveryStepEndsAtMostOne(d: Daemon, before: seq<Stamped>, x: Stamped)
    requires Timely(d.started, before + [x])
    ensures EndsAtMostOne(d, before, x)
  {
    hide Run, Ends, Registered, InputTaken, HandshakeAnswered, NothingRenewed, HeldThrough, HasRoom, Board.Pressed;
    TimelyPrefix(d.started, before + [x], |before|);
    assert (before + [x])[..|before|] == before;
    OneMoreStep(d, before, x);
    EveryStepFollowsTheRules(d, before, x);
    var s, s' := d.After(before), d.After(before + [x]);
    match x.input {
      case Register(capacity) => RegistrationRecords(d.env, s, s', x.at, capacity);
      case Unregister(k) =>
        var rest := s.(clock := x.at, clients := s.clients - {k},
                       dropped := if k in s.clients then s.dropped[k := s.clients[k]] else s.dropped);
        if s.session.Some? && s.session.value.client == k {
          EndsRecords(d.env, rest, s', x.at, ExplicitRevocation);
        }
      case Physical(e) => InputRecords(d.env, s, s', x.at, e);
      case Shake(k, h) => HandshakeRecords(d.env, s, s', x.at, k, h);
      case Heartbeat(_, _) =>
      case RevokeSession(reason) =>
        if s.session.Some? {
          EndsRecords(d.env, s, s', x.at, reason);
        }
      case FocusChanged(_) =>
        if Ends(d.env, s, s', x.at, FocusLost) {
          EndsRecords(d.env, s, s', x.at, FocusLost);
        }
      case Tick =>
        if s.session.Some? {
          TickVerdictIsExact(d, before, x.at);
          assert x == Stamped(x.at, Tick);
          if NothingRenewed(d, before, x.at) {
            EndsRecords(d.env, s, s', x.at, HeartbeatTimeout);
          } else if HeldThrough(d, before, x.at) {
            EndsRecords(d.env, s, s', x.at, EscapeHatch);
          }
        }
    }
  }

  lemma RegistrationRecords(env: Env, s: State, s': State, at: Time, capacity: nat)
    requires Registered(env, s, s', at, capacity)
    ensures s'.revocations == s.revocations
  {
    hide Shows;
  }

  /** Step `k` of the run recorded ending `i`, and warranted it. */
  ghost predicate RecordedAt(d: Daemon, trace: seq<Stamped>, i: nat, k: nat) {
    && k < |trace| && i < |d.After(trace).revocations|
    && |d.After(trace[..k]).revocations| == i && |d.After(trace[..k + 1]).revocations| == i + 1
    && Warrants(d, trace[..k], trace[k], d.After(trace).revocations[i])
  }

  /** Every session that ever ended was ended by a step of the run that warranted exactly the recorded cause. */
  lemma {:induction false} EveryEndingIsWarranted(d: Daemon, trace: seq<Stamped>, i: nat) returns (k: nat)
    requires Timely(d.started, trace) && i < |d.After(trace).revocations|
    ensures RecordedAt(d, trace, i, k)
  {
    hide NewState, Step, Warrants;
    if |trace| == 0 {
      NothingEndedAtFirst(d);
    } else {
      var n := |trace| - 1;
      var init, x := trace[..n], trace[n];
      assert trace == init + [x] && trace[..n + 1] == trace;
      EveryStepEndsAtMostOne(d, init, x);
      if i < |d.After(init).revocations| {
        k := EveryEndingIsWarranted(d, init, i);
        assert init[..k] == trace[..k] && init[..k + 1] == trace[..k + 1] && init[k] == trace[k];
        assert d.After(trace).revocations[i] == d.After(init).revocations[i];
      } else {
        k := n;
      }
    }
  }

  lemma NothingEndedAtFirst(d: Daemon)
    ensures d.After([]).revocations == []
  {
  }

  // ----- over whole runs -----

  lemma WarrantedWasIssued(d: Daemon, before: seq<Stamped>, x: Stamped)
    requires Timely(d.started, before + [x]) && EndingsWereIssued(d.After(before))
    ensures EndingsWereIssued(d.After(before + [x]))
  {
    hide Run, Ledger, CleanStart, ClientsAgree, Coupled, NothingRenewed, HeldThrough, Takes, Handle;
    EveryStepEndsAtMostOne(d, before, x);
    TimelyPrefix(d.started, before + [x], |before|);
    assert (before + [x])[..|before|] == before;
    EveryRunKeepsInv(d, before);
    OneMoreStep(d, before, x);
    HandleEffect(d.env, d.After(before).(clock := x.at), x.at, x.input);
  }

  /**
   * In every run, the revocations announced to a client still served are exactly those of its own sessions, in
   * order, each with the id of that session and the cause on record.
   */
  lemma {:induction false} NoticesTellTheTruth(d: Daemon, trace: seq<Stamped>, c: ClientId)
    requires Timely(d.started, trace)
    ensures EndingsWereIssued(d.After(trace))
    ensures c in d.After(trace).clients ==>
      Announced(d.After(trace).clients[c].delivered) == EndingsOf(d.After(trace).revocations, c)
  {
    hide NewState, Step, Follows, EndingsWereIssued, Announced, EndingsOf;
    if |trace| == 0 {
      NobodyToldAtFirst(d);
    } else {
      var n := |trace| - 1;
      var init, x := trace[..n], trace[n];
      NoticesTellTheTruth(d, init, c);
      assert trace == init + [x];
      EveryStepFollowsTheRules(d, init, x);
      WarrantedWasIssued(d, init, x);
      FollowsTellsTheTruth(d.env, d.After(init), d.After(trace), x, c);
    }
  }

  lemma NobodyToldAtFirst(d: Daemon)
    ensures d.After([]).clients == map[] && EndingsWereIssued(d.After([]))
  {
  }

  lemma {:induction false} AnnouncedWhenSent(stream: seq<ServerMessage>, n: nat)
    requires n < |stream| && stream[n].SessionRevoked?
    ensures Notice(stream[n].revokedId, stream[n].reason) in Announced(stream)
  {
    if n < |stream| - 1 {
      AnnouncedWhenSent(stream[..|stream| - 1], n);
    }
  }

  lemma {:induction false} EndingOnRecord(revocations: seq<Revocation>, c: ClientId, notice: Notice) returns (i: nat)
    requires notice in EndingsOf(revocations, c)
    ensures i < |revocations| && revocations[i].session.client == c
    ensures notice == Notice(revocations[i].session.id, revocations[i].cause)
  {
    var n := |revocations| - 1;
    if notice in EndingsOf(revocations[..n], c) {
      i := EndingOnRecord(revocations[..n], c, notice);
    } else {
      i := n;
    }
  }

  /**
   * Whenever a client still served was told that a session was revoked for a reason, some step of the run ended just
   * that session, which was the client's own, and that step warranted just that reason.
   */
  lemma NoticesNameTheCause(d: Daemon, trace: seq<Stamped>, c: ClientId, n: nat) returns (k: nat, ended: Session)
    requires Timely(d.started, trace) && c in d.After(trace).clients
    requires n < |d.After(trace).clients[c].delivered| && d.After(trace).clients[c].delivered[n].SessionRevoked?
    ensures var notice := d.After(trace).clients[c].delivered[n];
      && k < |trace| && ended.client == c && ended.id == notice.revokedId
      && Warrants(d, trace[..k], trace[k], Revocation(ended, notice.reason))
  {
    hide Run, Warrants, Announced, EndingsOf, EndingsWereIssued;
    NoticesTellTheTruth(d, trace, c);
    var s := d.After(trace);
    var notice := s.clients[c].delivered[n];
    AnnouncedWhenSent(s.clients[c].delivered, n);
    var i := EndingOnRecord(s.revocations, c, Notice(notice.revokedId, notice.reason));
    k := EveryEndingIsWarranted(d, trace, i);
    ended := s.revocations[i].session;
    assert s.revocations[i] == Revocation(ended, notice.reason);
  }
}
