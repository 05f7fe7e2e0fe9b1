/** A concrete run in which a client that joined during a session is left with a wrong view. */
module LateListener {
  import opened Protocol
  import opened Edges
  import opened Switchboard
  import opened Captures
  import opened Channels
  import opened Broker
  import opened Streams
  import opened Effects
  import opened Guarantees

  const ATTENTIVE: Consumer := (_: nat) => Pull(0, false)
  const ENV := Env((_: ClientId) => ATTENTIVE, (_: nat, _: nat) => Fate(false, false, true, true), (_: nat) => "session")
  const DAEMON := Daemon(ENV, [Mapping("space", "switch_1")], [], 0)
  const SHAKE := Handshake(PROTOCOL_VERSION, "app", ExclusiveForeground, None)

  /** Client 1 holds a session with switch_1 down while client 2 joins; then the session is revoked. */
  const TRACE: seq<Stamped> := [
    Stamped(0, Register(8)),
    Stamped(0, Shake(1, SHAKE)),
    Stamped(0, Physical(PhysicalEvent("space", Pressed, Finite(100.0)))),
    Stamped(0, Register(8)),
    Stamped(0, RevokeSession(ExplicitRevocation))
  ]

  lemma Unfold(n: nat)
    requires n < |TRACE|
    ensures DAEMON.After(TRACE[..n + 1]) == Step(ENV, DAEMON.After(TRACE[..n]), TRACE[n])
  {
    hide Step, NewState;
    assert TRACE[..n + 1] == TRACE[..n] + [TRACE[n]];
    OneMoreStep(DAEMON, TRACE[..n], TRACE[n]);
  }

  /** Client 1 is served, with room for more; nothing is pressed and routing runs. */
  ghost predicate Served(s: State, queued: nat) {
    && s.board.table == map["space" := "switch_1"] && s.board.order == ["switch_1"]
    && s.capture.enabled && !s.paused
    && 1 in s.clients && !s.clients[1].closed && s.clients[1].capacity == 8 && |s.clients[1].queue| == queued
    && s.nextClient == 2
  }

  lemma RoomToSend(s: State, queued: nat, m: ServerMessage)
    requires Served(s, queued) && queued < 8
    ensures var (s', sent) := SendTo(ENV, s, 1, m);
      sent && Served(s', queued + 1) && s'.board == s.board && s'.session == s.session
  {
  }

  lemma Registered()
    ensures var s := DAEMON.After(TRACE[..1]);
      Served(s, 1) && s.board.held == {} && s.session.None?
  {
    Unfold(0);
    var s0 := DAEMON.After(TRACE[..0]);
    assert s0 == NewState([Mapping("space", "switch_1")], [], 0);
    NewBoardOfOne();
  }

  lemma NewBoardOfOne()
    ensures NewBoard([Mapping("space", "switch_1")]) == Board(map["space" := "switch_1"], ["switch_1"], {})
  {
    var one := [Mapping("space", "switch_1")];
    assert one[..0] == [];
    assert TableOf(one) == TableOf([])["space" := "switch_1"];
  }

  lemma ShakeIsValid(s: State)
    requires s.session.None?
    ensures RejectionOf(s, SHAKE).None?
  {
  }

  lemma {:induction false} NothingToRelease(s: State)
    requires s.board.order == ["switch_1"] && s.board.held == {}
    ensures ReleaseHeld(s, 0) == (s, [])
  {
    assert s.board.Pressed() == {};
    var edges := Releases(["switch_1"], {});
    assert edges == Releases([], {}) == [];
    assert s.board.(held := {}) == s.board;
    assert s.(board := s.board) == s;
    var (s1, events) := Number(s, 0, []);
    assert events == [] && s.events + [] == s.events;
  }

  lemma NothingToBroadcast(s: State)
    ensures BroadcastAll(ENV, s, Messages([])) == s
  {
  }

  lemma Admission(s: State)
    requires Served(s, 1) && s.board.held == {} && s.session.None?
    ensures var s' := Handshaken(ENV, s, 0, 1, SHAKE);
      Served(s', 2) && s'.board.held == {} && s'.session.Some? && s'.session.value.client == 1
  {
    hide SendTo, RejectionOf, ReleaseHeld, BroadcastAll, ResumeAll, Revoke;
    ShakeIsValid(s);
    NothingToRelease(s);
    NothingToBroadcast(s);
    RoomToSend(Opened(ENV, s, 0, 1, SHAKE), 1, AcceptedReply("session"));
  }

  lemma Admitted()
    ensures var s := DAEMON.After(TRACE[..2]);
      Served(s, 2) && s.board.held == {} && s.session.Some? && s.session.value.client == 1
  {
    hide Handshaken, NewState, RegisterClient, SendTo, Revoke;
    Registered();
    Unfold(1);
    Admission(DAEMON.After(TRACE[..1]).(clock := 0));
  }

  lemma Held()
    ensures var s := DAEMON.After(TRACE[..3]);
      Served(s, 3) && s.board.held == {"space"} && s.session.Some? && s.session.value.client == 1
  {
    Admitted();
    Unfold(2);
    var s := DAEMON.After(TRACE[..2]).(clock := 0);
    var (board, verdict) := s.board.Apply("space", Pressed, Some(100.0));
    assert "switch_1" in board.Pressed() && "switch_1" !in s.board.Pressed();
    var edge := LogicalTransition("switch_1", Pressed, Some(100.0));
    assert verdict == Ok(Some(edge));
    var (s1, events) := Number(s.(board := board, escapeTracker := Track(s.escapeTracker, 0, edge)), 0, [edge]);
    RoomToSend(s1, 2, Event(events[0]));
  }

  lemma ShownPressedSwitch()
    ensures var hello := Hello([SwitchSnapshot("switch_1", IsPressed, None)]);
      Replayed([hello]) == hello.switches && Stale([hello]) == {"switch_1"}
  {
    var hello := Hello([SwitchSnapshot("switch_1", IsPressed, None)]);
    OneMore([], hello);
    assert [] + [hello] == [hello];
    assert hello.switches[0].switchId == "switch_1";
  }

  lemma PressedSnapshot(s: State)
    requires s.board.table == map["space" := "switch_1"] && s.board.order == ["switch_1"] && s.board.held == {"space"}
    ensures s.board.Snapshots() == [SwitchSnapshot("switch_1", IsPressed, None)]
  {
    assert s.board.table["space"] in s.board.Pressed();
  }

  lemma ReleasedSnapshot(s: State)
    requires s.board.order == ["switch_1"] && s.board.held == {}
    ensures s.board.Snapshots() == [SwitchSnapshot("switch_1", IsReleased, None)]
  {
    assert s.board.Pressed() == {};
  }

  lemma LateRegistration(s: State)
    requires Served(s, 3) && s.board.held == {"space"} && s.session.Some?
    ensures var s1 := RegisterClient(ENV, s, 8);
      && 2 in s1.clients && 2 in s1.late && s1.session == s.session && s1.board == s.board
      && s1.clients[2].delivered == [Hello([SwitchSnapshot("switch_1", IsPressed, None)])]
  {
    hide Render;
    PressedSnapshot(s);
  }

  /** At the end no session is open, every switch is released, and client 2 still believes switch_1 pressed. */
  lemma LateListenerIsLeftBehind()
    ensures Timely(0, TRACE)
    ensures var s := DAEMON.After(TRACE);
      && s.session.None? && 2 in s.clients && 2 in s.late
      && s.board.Snapshots() == [SwitchSnapshot("switch_1", IsReleased, None)]
      && Replayed(s.clients[2].delivered) == [SwitchSnapshot("switch_1", IsPressed, None)]
      && Stale(s.clients[2].delivered) == {"switch_1"}
  {
    hide RegisterClient, Revoke, NewState, Replayed, Stale, Served, Render, Board.Pressed;
    Held();
    Unfold(3);
    Unfold(4);
    assert TRACE[..5] == TRACE;
    var s := DAEMON.After(TRACE[..3]);
    LeftBehind(s);
    var s2 := DAEMON.After(TRACE);
    assert s2 == Revoke(ENV, RegisterClient(ENV, s.(clock := 0), 8).(clock := 0), 0, ExplicitRevocation);
    ReleasedSnapshot(s2);
    ShownPressedSwitch();
  }

  lemma LeftBehind(s: State)
    requires Served(s, 3) && s.board.held == {"space"} && s.session.Some? && s.session.value.client == 1
    ensures var s2 := Revoke(ENV, RegisterClient(ENV, s.(clock := 0), 8).(clock := 0), 0, ExplicitRevocation);
      && s2.session.None? && 2 in s2.clients && 2 in s2.late
      && s2.board.order == ["switch_1"] && s2.board.held == {}
      && s2.clients[2].delivered == [Hello([SwitchSnapshot("switch_1", IsPressed, None)])]
  {
    hide RegisterClient, Revoke;
    LateRegistration(s.(clock := 0));
    var s1 := RegisterClient(ENV, s.(clock := 0), 8).(clock := 0);
    RevokeEffect(ENV, s1, 0, ExplicitRevocation);
    RevokeTouchesTheHolder(ENV, s1, 0, ExplicitRevocation);
    RevokeServes(ENV, s1, 0, ExplicitRevocation, 2);
  }

  lemma RevokeServes(env: Env, s: State, at: Time, reason: RevocationReason, c: ClientId)
    requires s.session.Some? && s.session.value.client != c && c in s.clients
    ensures c in Revoke(env, s, at, reason).clients
  {
    hide SendAll, PauseAll, Releases, Board.Pressed, Numbered;
  }
}
