/** Why and when the ticker ends a session, in terms of the run itself. */
module Timing {
  import opened Protocol
  import opened Edges
  import opened Switchboard
  import opened Captures
  import opened Channels
  import opened Broker
  import opened Agreement
  import opened Effects
  import opened Deliveries
  import opened Invariant
  import opened Rules

  /** Step `k` opened a session, or was the heartbeat of the open one. */
  ghost predicate Renews(d: Daemon, trace: seq<Stamped>, k: nat)
    requires k < |trace|
  {
    var s, s' := d.After(trace[..k]), d.After(trace[..k + 1]);
    && s'.session.Some?
    && (s.session.Some? ==> trace[k].input == Heartbeat(s.session.value.client, s.session.value.id))
  }

  /** No session was opened, and no heartbeat of its open session was processed, within the lease before `at`. */
  ghost predicate NothingRenewed(d: Daemon, trace: seq<Stamped>, at: Time) {
    forall k :: 0 <= k < |trace| && Renews(d, trace, k) ==> trace[k].at + LEASE <= at
  }

  /** At this boundary a session is open and the switch is pressed. */
  ghost predicate HeldAt(s: State, sw: SwitchId) {
    s.session.Some? && sw in s.board.Pressed()
  }

  /** From just after step `i` to the end of the run a session was open and the switch was pressed. */
  ghost predicate HeldSince(d: Daemon, trace: seq<Stamped>, sw: SwitchId, i: nat) {
    forall j :: i < j <= |trace| ==> HeldAt(d.After(trace[..j]), sw)
  }

  /** Some switch has been pressed throughout, inside one session, for the whole escape time before `at`. */
  ghost predicate HeldThrough(d: Daemon, trace: seq<Stamped>, at: Time) {
    exists sw, i :: 0 <= i < |trace| && trace[i].at + ESCAPE_HOLD <= at && HeldSince(d, trace, sw, i)
  }

  // ----- prefixes -----

  lemma RenewsInPrefix(d: Daemon, trace: seq<Stamped>, k: nat)
    requires k < |trace| - 1
    ensures Renews(d, trace[..|trace| - 1], k) == Renews(d, trace, k)
  {
    hide Run;
    var n := |trace| - 1;
    assert trace[..n][..k] == trace[..k] && trace[..n][..k + 1] == trace[..k + 1];
  }

  lemma HeldSinceOneMore(d: Daemon, trace: seq<Stamped>, sw: SwitchId, i: nat)
    requires i < |trace|
    ensures HeldSince(d, trace, sw, i) <==>
      HeldAt(d.After(trace), sw) && HeldSince(d, trace[..|trace| - 1], sw, i)
  {
    hide Run, HeldAt;
    var n := |trace| - 1;
    assert trace[..|trace|] == trace;
    forall j | i < j <= n ensures trace[..n][..j] == trace[..j] {
    }
    if HeldSince(d, trace, sw, i) {
      assert HeldAt(d.After(trace[..|trace|]), sw);
      forall j | i < j <= n ensures HeldAt(d.After(trace[..n][..j]), sw) {
        assert HeldAt(d.After(trace[..j]), sw);
      }
    }
    if HeldAt(d.After(trace), sw) && HeldSince(d, trace[..n], sw, i) {
      forall j | i < j <= |trace| ensures HeldAt(d.After(trace[..j]), sw) {
        if j <= n {
          assert HeldAt(d.After(trace[..n][..j]), sw);
        }
      }
    }
  }

  // ----- the lease -----

  /** The recorded heartbeat time is that of the latest renewal in the run. */
  lemma {:induction false} LeaseRecordsLatestRenewal(d: Daemon, trace: seq<Stamped>)
    requires Timely(d.started, trace)
    ensures forall k :: 0 <= k < |trace| && Renews(d, trace, k) && d.After(trace).session.Some? ==>
      trace[k].at <= d.After(trace).session.value.lastHeartbeat
    ensures d.After(trace).session.Some? ==>
      exists k :: 0 <= k < |trace| && Renews(d, trace, k) && trace[k].at == d.After(trace).session.value.lastHeartbeat
  {
    hide Handle, NewState, Renews;
    if |trace| == 0 {
      NothingIsOpenAtFirst(d);
    } else {
      var n := |trace| - 1;
      LeaseRecordsLatestRenewal(d, trace[..n]);
      forall k | 0 <= k < n ensures Renews(d, trace[..n], k) == Renews(d, trace, k) { RenewsInPrefix(d, trace, k); }
      if d.After(trace).session.Some? {
        LeaseStep(d, trace);
        if !Renews(d, trace, n) {
          var k :| 0 <= k < n && Renews(d, trace[..n], k) &&
                   trace[k].at == d.After(trace[..n]).session.value.lastHeartbeat;
          assert Renews(d, trace, k);
        }
      }
    }
  }

  lemma NothingIsOpenAtFirst(d: Daemon)
    ensures d.After([]).session.None? && d.After([]).escapeTracker == map[]
  {
  }

  /** The last step of a run renews the lease to its own time, or leaves an open session as it was. */
  lemma LeaseStep(d: Daemon, trace: seq<Stamped>)
    requires |trace| > 0 && d.After(trace).session.Some?
    ensures var n := |trace| - 1;
      var s, s' := d.After(trace[..n]), d.After(trace);
      if Renews(d, trace, n) then s'.session.value.lastHeartbeat == trace[n].at
      else s.session.Some? && s'.session == s.session
  {
    hide Handle, NewState;
    var n := |trace| - 1;
    assert trace[..n + 1] == trace;
    var s, x := d.After(trace[..n]), trace[n];
    HandleEffect(d.env, s.(clock := x.at), x.at, x.input);
    assert d.After(trace) == Handle(d.env, s.(clock := x.at), x.at, x.input);
    if x.input.Heartbeat? {
      BeatRenews(d.env, s.(clock := x.at), x.at, x.input);
    }
  }

  lemma BeatRenews(env: Env, s: State, at: Time, input: Input)
    requires input.Heartbeat?
    ensures var s' := Handle(env, s, at, input);
      if s.session.Some? && input == Heartbeat(s.session.value.client, s.session.value.id)
      then s'.session == Some(s.session.value.(lastHeartbeat := at))
      else s'.session == s.session
  {
  }

  /** The ticker's lease test says exactly that nothing renewed the lease in time. */
  lemma LeaseTestIsExact(d: Daemon, trace: seq<Stamped>, at: Time)
    requires Timely(d.started, trace) && Now(d.started, trace) <= at && d.After(trace).session.Some?
    ensures LeaseExpired(d.After(trace).(clock := at), at) <==> NothingRenewed(d, trace, at)
  {
    hide Run, Renews;
    LeaseRecordsLatestRenewal(d, trace);
  }

  // ----- the escape tracker -----

  /** One step inside a session: a tracked switch keeps its time, or was pressed just now. */
  ghost predicate TracksOn(s: State, s': State, at: Time) {
    forall sw :: sw in s'.escapeTracker ==>
      if sw in s.escapeTracker then s'.escapeTracker[sw] == s.escapeTracker[sw] else s'.escapeTracker[sw] == at
  }

  lemma TrackingStep(env: Env, s: State, at: Time, input: Input)
    requires Inv(s)
    ensures var s' := Handle(env, s, at, input);
      && (s.session.Some? && s'.session.Some? ==> TracksOn(s, s', at))
      && (s.session.None? && s'.session.Some? ==> s'.escapeTracker == map[])
  {
    hide RegisterClient, UnregisterClient, PhysicalInput, Handshaken, Revoke, Sound;
    match input
    case Register(capacity) => RegisterEffect(env, s, capacity);
    case Unregister(c) => UnregisterEffect(env, s, at, c);
    case Physical(e) => InputTracks(env, s, at, e);
    case Shake(c, h) => HandshakeEffect(env, s, at, c, h);
    case Heartbeat(_, _) =>
    case RevokeSession(reason) => RevokeOrIdleEffect(env, s, at, reason);
    case FocusChanged(_) => RevokeOrIdleEffect(env, s, at, FocusLost);
    case Tick =>
      RevokeOrIdleEffect(env, s, at, HeartbeatTimeout);
      RevokeOrIdleEffect(env, s, at, EscapeHatch);
  }

  lemma InputTracks(env: Env, s: State, at: Time, e: PhysicalEvent)
    requires Inv(s)
    ensures var s' := PhysicalInput(env, s, at, e);
      && (s.session.Some? && s'.session.Some? ==> TracksOn(s, s', at))
      && (s.session.None? ==> s'.session.None?)
  {
    hide PhysicalInput, Agrees, ClientsAgree, InOrder, Issued, CleanStart, Board.Apply, Board.Pressed, ValidateConfidence;
    InputEffect(env, s, at, e);
    ApplyReportsExactlyTheOuterEdge(s.board, e.mappingId, e.action, ValidateConfidence(e.confidence));
  }

  /** A tracked switch's time is that of the first step since which it has been held inside the session. */
  lemma {:induction false} TrackerRecordsHoldStart(d: Daemon, trace: seq<Stamped>, sw: SwitchId) returns (start: nat)
    requires Timely(d.started, trace) && d.After(trace).session.Some? && sw in d.After(trace).escapeTracker
    ensures start < |trace| && trace[start].at == d.After(trace).escapeTracker[sw] && HeldSince(d, trace, sw, start)
    ensures forall i :: 0 <= i < |trace| && HeldSince(d, trace, sw, i) ==> trace[start].at <= trace[i].at
  {
    hide Handle, NewState, Sound, HeldSince, TracksOn;
    var n := |trace| - 1;
    if n < 0 {
      NothingIsOpenAtFirst(d);
    } else {
      var s, x := d.After(trace[..n]), trace[n];
      EveryRunKeepsInv(d, trace);
      EveryRunKeepsInv(d, trace[..n]);
      ClockKeepsInv(s, x.at);
      TrackingStep(d.env, s.(clock := x.at), x.at, x.input);
      assert d.After(trace) == Handle(d.env, s.(clock := x.at), x.at, x.input);
      assert s.session.Some?;
      TrackedWhen(s, d.After(trace), x.at, sw);
      forall i | 0 <= i < |trace| ensures HeldSince(d, trace, sw, i) <==> HeldSince(d, trace[..n], sw, i) {
        HeldSinceOneMore(d, trace, sw, i);
      }
      if sw in s.escapeTracker {
        start := TrackerRecordsHoldStart(d, trace[..n], sw);
      } else {
        start := n;
        HeldSinceOnlyNow(d, trace[..n], sw);
      }
    }
  }

  lemma TrackedWhen(s: State, s': State, at: Time, sw: SwitchId)
    requires TracksOn(s.(clock := at), s', at) && sw in s'.escapeTracker
    ensures s'.escapeTracker[sw] == if sw in s.escapeTracker then s.escapeTracker[sw] else at
  {
  }

  /** A switch not held at the end has been held since no earlier step. */
  lemma HeldSinceOnlyNow(d: Daemon, trace: seq<Stamped>, sw: SwitchId)
    ensures HeldSince(d, trace, sw, |trace|)
    ensures !HeldAt(d.After(trace), sw) ==> forall i :: 0 <= i < |trace| ==> !HeldSince(d, trace, sw, i)
  {
    hide Run, HeldAt;
    assert trace[..|trace|] == trace;
    forall i | 0 <= i < |trace| && HeldSince(d, trace, sw, i) ensures HeldAt(d.After(trace), sw) {
      assert HeldAt(d.After(trace[..|trace|]), sw);
    }
  }

  /** The ticker's hold test says exactly that some switch was held long enough inside this session. */
  lemma HoldTestIsExact(d: Daemon, trace: seq<Stamped>, at: Time)
    requires Timely(d.started, trace) && Now(d.started, trace) <= at && d.After(trace).session.Some?
    ensures HeldTooLong(d.After(trace).(clock := at), at) <==> HeldThrough(d, trace, at)
  {
    hide Run, HeldSince, Sound;
    EveryRunKeepsInv(d, trace);
    var s := d.After(trace);
    if HeldTooLong(s.(clock := at), at) {
      var sw :| sw in s.escapeTracker && Elapsed(at, s.escapeTracker[sw]) >= ESCAPE_HOLD;
      var start := TrackerRecordsHoldStart(d, trace, sw);
    }
    if HeldThrough(d, trace, at) {
      var sw, i :| 0 <= i < |trace| && trace[i].at + ESCAPE_HOLD <= at && HeldSince(d, trace, sw, i);
      HeldSinceOnlyNow(d, trace, sw);
      var start := TrackerRecordsHoldStart(d, trace, sw);
    }
  }

  // ----- the verdict of a tick -----

  /** A holder still served ends its stream with the notice that names its session and the reason. */
  predicate HearsLast(s: State, c: ClientId, id: SessionId, reason: RevocationReason) {
    c in s.clients ==>
      var stream := s.clients[c].delivered;
      |stream| > 0 && stream[|stream| - 1] == SessionRevoked(id, reason)
  }

  lemma EndsIsHeardLast(env: Env, s: State, s': State, at: Time, reason: RevocationReason)
    requires Ends(env, s, s', at, reason)
    ensures HearsLast(s', s.session.value.client, s.session.value.id, reason)
    ensures s'.session.None? && s'.paused && s'.board.held == {} && !s'.capture.enabled
    ensures s'.revocations == s.revocations + [Revocation(s.session.value, reason)]
  {
    hide Takes, Fitting, ReleasesPressed, Commanded;
  }

  /**
   * Revocations by the ticker are justified by the run, and complete. A tick during a session ends it for
   * a missed heartbeat exactly when nothing renewed the lease in the last 1500 ms; otherwise by the escape
   * hatch exactly when some switch was pressed without a break for 4000 ms inside the session; otherwise
   * it changes nothing. A holder still served hears of it last, with its session's id and that cause.
   */
  lemma TickVerdictIsExact(d: Daemon, trace: seq<Stamped>, at: Time)
    requires Timely(d.started, trace + [Stamped(at, Tick)]) && d.After(trace).session.Some?
    ensures var s, s' := d.After(trace), d.After(trace + [Stamped(at, Tick)]);
      var session := s.session.value;
      if NothingRenewed(d, trace, at) then
        Ends(d.env, s, s', at, HeartbeatTimeout) && HearsLast(s', session.client, session.id, HeartbeatTimeout)
      else if HeldThrough(d, trace, at) then
        Ends(d.env, s, s', at, EscapeHatch) && HearsLast(s', session.client, session.id, EscapeHatch)
      else
        s' == s.(clock := at)
  {
    hide Run, NothingRenewed, HeldThrough, Ends, HearsLast;
    OneMoreStep(d, trace, Stamped(at, Tick));
    EveryStepFollowsTheRules(d, trace, Stamped(at, Tick));
    LeaseTestIsExact(d, trace, at);
    HoldTestIsExact(d, trace, at);
    var s, s' := d.After(trace), d.After(trace + [Stamped(at, Tick)]);
    assert LeaseExpired(s.(clock := at), at) <==> s.session.value.lastHeartbeat + 1_500_000_000 <= at;
    assert HeldTooLong(s.(clock := at), at) <==>
      exists sw :: sw in s.escapeTracker && s.escapeTracker[sw] + 4_000_000_000 <= at;
    if NothingRenewed(d, trace, at) {
      EndsIsHeardLast(d.env, s, s', at, HeartbeatTimeout);
    } else if HeldThrough(d, trace, at) {
      EndsIsHeardLast(d.env, s, s', at, EscapeHatch);
    }
  }

  /**
   * A focus change ends the open session exactly when that session declared a process and another one is frontmost.
   * A holder still served hears of it last; otherwise nothing changes.
   */
  lemma FocusVerdictIsExact(d: Daemon, trace: seq<Stamped>, at: Time, frontmost: Option<nat>)
    requires Timely(d.started, trace)
    ensures var s, s' := d.After(trace), d.After(trace + [Stamped(at, FocusChanged(frontmost))]);
      if s.session.Some? && s.session.value.pid.Some? && s.session.value.pid != frontmost then
        && s'.session.None? && s'.paused && s'.board.held == {} && !s'.capture.enabled
        && s'.revocations == s.revocations + [Revocation(s.session.value, FocusLost)]
        && HearsLast(s', s.session.value.client, s.session.value.id, FocusLost)
      else
        s' == s.(clock := at)
  {
    hide Run, Ends, HearsLast;
    EveryStepFollowsTheRules(d, trace, Stamped(at, FocusChanged(frontmost)));
    var s, s' := d.After(trace), d.After(trace + [Stamped(at, FocusChanged(frontmost))]);
    if Ends(d.env, s, s', at, FocusLost) {
      EndsIsHeardLast(d.env, s, s', at, FocusLost);
    }
  }

  /** An open session was opened by one step, and has been open ever since. */
  lemma {:induction false} SessionHasAnOpening(d: Daemon, trace: seq<Stamped>) returns (k: nat)
    requires d.After(trace).session.Some?
    ensures k < |trace| && d.After(trace[..k]).session.None?
    ensures forall j :: k < j <= |trace| ==> d.After(trace[..j]).session.Some?
  {
    hide Step, NewState;
    var n := |trace| - 1;
    if n < 0 {
      NothingIsOpenAtFirst(d);
    } else {
      assert trace[..|trace|] == trace;
      if d.After(trace[..n]).session.None? {
        k := n;
      } else {
        k := SessionHasAnOpening(d, trace[..n]);
        assert trace[..n][..k] == trace[..k];
        forall j | k < j <= n ensures d.After(trace[..j]).session.Some? {
          assert trace[..n][..j] == trace[..j];
        }
      }
    }
  }

  /** So the escape hatch never fires before 4000 ms of the session, even for a switch held since before it. */
  lemma EscapeHatchWaitsForTheSession(d: Daemon, trace: seq<Stamped>, at: Time) returns (k: nat)
    requires Timely(d.started, trace) && HeldThrough(d, trace, at)
    ensures k < |trace| && d.After(trace[..k]).session.None?
    ensures forall j :: k < j <= |trace| ==> d.After(trace[..j]).session.Some?
    ensures trace[k].at + ESCAPE_HOLD <= at
  {
    hide Run;
    var sw, i :| 0 <= i < |trace| && trace[i].at + ESCAPE_HOLD <= at && HeldSince(d, trace, sw, i);
    assert trace[..|trace|] == trace;
    assert HeldAt(d.After(trace[..|trace|]), sw);
    k := SessionHasAnOpening(d, trace);
    assert i < k ==> HeldAt(d.After(trace[..k]), sw);
  }

  // ----- upper bounds -----

  /** The last tick of a run, or its start. */
  function LastTick(started: Time, trace: seq<Stamped>): Time {
    if |trace| == 0 then started
    else if trace[|trace| - 1].input.Tick? then trace[|trace| - 1].at
    else LastTick(started, trace[..|trace| - 1])
  }

  /** No step comes more than `gap` after the tick before it. */
  ghost predicate TicksWithin(started: Time, trace: seq<Stamped>, gap: Time) {
    forall n :: 0 <= n <= |trace| ==> Now(started, trace[..n]) <= LastTick(started, trace[..n]) + gap
  }

  /** What was true of every open session at the last tick. */
  ghost predicate PassedLastTick(s: State, tick: Time) {
    s.session.Some? ==>
      && tick < s.session.value.lastHeartbeat + LEASE
      && forall sw :: sw in s.escapeTracker ==> tick < s.escapeTracker[sw] + ESCAPE_HOLD
  }

  lemma {:induction false} OpenSessionsPassedTheLastTick(d: Daemon, trace: seq<Stamped>)
    requires Timely(d.started, trace)
    ensures LastTick(d.started, trace) <= Now(d.started, trace)
    ensures PassedLastTick(d.After(trace), LastTick(d.started, trace))
  {
    hide Handle, NewState, Sound, PassedLastTick;
    if |trace| == 0 {
      NothingPassedAtFirst(d);
    } else {
      var n := |trace| - 1;
      OpenSessionsPassedTheLastTick(d, trace[..n]);
      EveryRunKeepsInv(d, trace[..n]);
      var s, x := d.After(trace[..n]), trace[n];
      ClockKeepsInv(s, x.at);
      ClockPassesNothing(s, x.at, LastTick(d.started, trace[..n]));
      PassingStep(d.env, s.(clock := x.at), x.at, x.input, LastTick(d.started, trace[..n]));
    }
  }

  lemma NothingPassedAtFirst(d: Daemon)
    ensures PassedLastTick(d.After([]), d.started)
  {
  }

  lemma ClockPassesNothing(s: State, at: Time, tick: Time)
    requires PassedLastTick(s, tick)
    ensures PassedLastTick(s.(clock := at), tick)
  {
  }

  lemma PassingStep(env: Env, s: State, at: Time, input: Input, tick: Time)
    requires Inv(s) && tick <= at && PassedLastTick(s, tick)
    ensures PassedLastTick(Handle(env, s, at, input), if input.Tick? then at else tick)
  {
    hide RegisterClient, UnregisterClient, PhysicalInput, Handshaken, Revoke, Sound, Coupled;
    var s' := Handle(env, s, at, input);
    HandleEffect(env, s, at, input);
    TrackingStep(env, s, at, input);
    if input.Tick? {
      RevokeOrIdleEffect(env, s, at, HeartbeatTimeout);
      RevokeOrIdleEffect(env, s, at, EscapeHatch);
    }
  }

  /**
   * When no step comes more than `gap` after the tick before it, then whenever a session is open its lease
   * was renewed less than 1500 ms + gap ago, and no switch has been held in it for 4000 ms + gap.
   */
  lemma OpenSessionsAreTimely(d: Daemon, trace: seq<Stamped>, gap: Time)
    requires Timely(d.started, trace) && TicksWithin(d.started, trace, gap) && d.After(trace).session.Some?
    ensures exists k :: 0 <= k < |trace| && Renews(d, trace, k) && Now(d.started, trace) < trace[k].at + LEASE + gap
    ensures forall sw, i :: 0 <= i < |trace| && HeldSince(d, trace, sw, i) ==>
      Now(d.started, trace) < trace[i].at + ESCAPE_HOLD + gap
  {
    hide Run, Renews, HeldSince, Sound;
    EveryRunKeepsInv(d, trace);
    OpenSessionsPassedTheLastTick(d, trace);
    LeaseRecordsLatestRenewal(d, trace);
    assert trace[..|trace|] == trace;
    forall sw, i | 0 <= i < |trace| && HeldSince(d, trace, sw, i)
      ensures Now(d.started, trace) < trace[i].at + ESCAPE_HOLD + gap
    {
      HeldSinceOnlyNow(d, trace, sw);
      var start := TrackerRecordsHoldStart(d, trace, sw);
    }
  }
}
