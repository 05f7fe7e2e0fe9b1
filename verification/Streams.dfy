/** What one client can conclude from the messages delivered to it. */
module Streams {
  import opened Protocol
  import opened Edges
  import opened Switchboard
  import opened Broker

  /**
   * Where a stream stands in the grammar
   *   Hello (Event | Rejected)* [ Accepted(id) (Event | Rejected)* SessionRevoked(id) Rejected* ]*
   * together with the events of the session it is in, or was last in.
   */
  datatype Phase =
    | Malformed
    | Unstarted
    | Listening
    | InSession(id: SessionId, events: seq<SwitchEvent>)
    | Ended(id: SessionId, events: seq<SwitchEvent>)

  function Advance(p: Phase, m: ServerMessage): Phase {
    match m
    case Hello(_) => if p.Unstarted? then Listening else Malformed
    case Event(e) =>
      if p.Listening? then p
      else if p.InSession? then InSession(p.id, p.events + [e])
      else Malformed
    case Accepted(id, _, _) => if p.Listening? || p.Ended? then InSession(id, []) else Malformed
    case Rejected(_) => if p.Unstarted? then Malformed else p
    case SessionRevoked(id, _) => if p.InSession? && p.id == id then Ended(id, p.events) else Malformed
  }

  function Parse(stream: seq<ServerMessage>): Phase {
    if |stream| == 0 then Unstarted
    else Advance(Parse(stream[..|stream| - 1]), stream[|stream| - 1])
  }

  function ShownPressed(snapshots: seq<SwitchSnapshot>): set<SwitchId> {
    set i | 0 <= i < |snapshots| && snapshots[i].state == IsPressed :: snapshots[i].switchId
  }

  /** The switches a client believes pressed: its snapshot, toggled by every event since. */
  function Seen(stream: seq<ServerMessage>): set<SwitchId> {
    if |stream| == 0 then {}
    else
      var earlier, last := Seen(stream[..|stream| - 1]), stream[|stream| - 1];
      match last
      case Hello(snapshots) => ShownPressed(snapshots)
      case Event(e) => Toggle(earlier, e.edge)
      case _ => earlier
  }

  /** The switches shown pressed in the snapshot of which nothing has been heard since. */
  function Stale(stream: seq<ServerMessage>): set<SwitchId> {
    if |stream| == 0 then {}
    else
      var earlier, last := Stale(stream[..|stream| - 1]), stream[|stream| - 1];
      match last
      case Hello(snapshots) => ShownPressed(snapshots)
      case Event(e) => earlier - {e.edge.switchId}
      case _ => earlier
  }

  function Revise(view: seq<SwitchSnapshot>, e: LogicalTransition): seq<SwitchSnapshot> {
    seq(|view|, i requires 0 <= i < |view| =>
      if view[i].switchId == e.switchId
      then view[i].(state := if e.action == Pressed then IsPressed else IsReleased)
      else view[i])
  }

  /** A client's own copy of the snapshot, revised by every event it is sent. */
  function Replayed(stream: seq<ServerMessage>): seq<SwitchSnapshot> {
    if |stream| == 0 then []
    else
      var earlier, last := Replayed(stream[..|stream| - 1]), stream[|stream| - 1];
      match last
      case Hello(snapshots) => snapshots
      case Event(e) => Revise(earlier, e.edge)
      case _ => earlier
  }

  // ----- one more message -----

  lemma OneMore(stream: seq<ServerMessage>, m: ServerMessage)
    ensures Parse(stream + [m]) == Advance(Parse(stream), m)
    ensures m.Event? ==>
      && Seen(stream + [m]) == Toggle(Seen(stream), m.event.edge)
      && Stale(stream + [m]) == Stale(stream) - {m.event.edge.switchId}
      && Replayed(stream + [m]) == Revise(Replayed(stream), m.event.edge)
    ensures m.Hello? ==>
      && Seen(stream + [m]) == Stale(stream + [m]) == ShownPressed(m.switches)
      && Replayed(stream + [m]) == m.switches
    ensures !m.Event? && !m.Hello? ==>
      && Seen(stream + [m]) == Seen(stream)
      && Stale(stream + [m]) == Stale(stream)
      && Replayed(stream + [m]) == Replayed(stream)
  {
    assert (stream + [m])[..|stream|] == stream;
  }

  // ----- many more events -----

  /** The phase after some events, for the two phases that take events. */
  function Extended(p: Phase, events: seq<SwitchEvent>): Phase {
    if p.InSession? then InSession(p.id, p.events + events) else p
  }

  lemma {:induction false} ManyEvents(stream: seq<ServerMessage>, events: seq<SwitchEvent>)
    requires Parse(stream).Listening? || Parse(stream).InSession?
    ensures Parse(stream + Messages(events)) == Extended(Parse(stream), events)
    ensures Seen(stream + Messages(events)) == Replay(Seen(stream), EdgesOf(events))
    ensures Stale(stream + Messages(events)) == Stale(stream) - SwitchesOf(EdgesOf(events))
  {
    if |events| == 0 {
      assert stream + Messages(events) == stream;
    } else {
      var init, last := events[..|events| - 1], events[|events| - 1];
      ManyEvents(stream, init);
      LastEvent(stream, Seen(stream), events);
      OneMore(stream + Messages(init), Event(last));
    }
  }

  lemma LastEvent(stream: seq<ServerMessage>, seen: set<SwitchId>, events: seq<SwitchEvent>)
    requires |events| > 0
    ensures var init, last := events[..|events| - 1], events[|events| - 1];
      && events == init + [last]
      && stream + Messages(events) == (stream + Messages(init)) + [Event(last)]
      && Replay(seen, EdgesOf(events)) == Toggle(Replay(seen, EdgesOf(init)), last.edge)
      && SwitchesOf(EdgesOf(events)) == SwitchesOf(EdgesOf(init)) + {last.edge.switchId}
  {
    var init, last := events[..|events| - 1], events[|events| - 1];
    assert EdgesOf(events) == EdgesOf(init) + [last.edge];
    ReplayOne(seen, EdgesOf(init), last.edge);
  }

  // ----- views -----

  lemma RenderShowsPressed(order: seq<SwitchId>, pressed: set<SwitchId>)
    requires forall s :: s in pressed ==> s in order
    ensures ShownPressed(Render(order, pressed)) == pressed
  {
    forall s | s in pressed ensures s in ShownPressed(Render(order, pressed)) {
      var i :| 0 <= i < |order| && order[i] == s;
      assert Render(order, pressed)[i].switchId == s;
    }
  }

  lemma RevisedRender(order: seq<SwitchId>, pressed: set<SwitchId>, e: LogicalTransition)
    ensures Revise(Render(order, pressed), e) == Render(order, Toggle(pressed, e))
  {
  }

  /** As long as its first message is a snapshot of the configured switches, a client's copy shows what it has seen. */
  lemma {:induction false} ReplayedIsSeen(stream: seq<ServerMessage>, order: seq<SwitchId>)
    requires |stream| > 0 && stream[0].Hello? && Parse(stream) != Malformed
    requires stream[0].switches == Render(order, ShownPressed(stream[0].switches))
    ensures Replayed(stream) == Render(order, Seen(stream))
  {
    var n := |stream| - 1;
    if n == 0 {
      OneMore([], stream[0]);
      assert stream == [] + [stream[0]];
    } else {
      var init, last := stream[..n], stream[n];
      ReplayedIsSeen(init, order);
      if last.Hello? {
        FirstMessageStarts(init);
      } else if last.Event? {
        RevisedRender(order, Seen(init), last.event.edge);
      }
    }
  }

  lemma {:induction false} FirstMessageStarts(stream: seq<ServerMessage>)
    requires |stream| > 0
    ensures !Parse(stream).Unstarted?
  {
  }

  // ----- what the grammar means -----

  predicate Quiet(stream: seq<ServerMessage>, i: nat, j: nat)
    requires i <= j <= |stream|
  {
    forall k :: i <= k < j ==> stream[k].Event? || stream[k].Rejected?
  }

  function EventsIn(stream: seq<ServerMessage>): seq<SwitchEvent> {
    if |stream| == 0 then []
    else
      EventsIn(stream[..|stream| - 1]) +
      (if stream[|stream| - 1].Event? then [stream[|stream| - 1].event] else [])
  }

  /**
   * A stream that parses to an open session has an acceptance with that id, after which come only events
   * and rejections, the events being exactly the recorded ones; and everything before the acceptance parses.
   */
  lemma {:induction false} OpenSessionWasAccepted(stream: seq<ServerMessage>) returns (a: nat)
    requires Parse(stream).InSession?
    ensures a < |stream| && stream[a].Accepted? && stream[a].acceptedId == Parse(stream).id
    ensures Quiet(stream, a + 1, |stream|)
    ensures EventsIn(stream[a + 1..]) == Parse(stream).events
    ensures Parse(stream[..a]).Listening? || Parse(stream[..a]).Ended?
  {
    var n := |stream| - 1;
    if stream[n].Accepted? {
      a := n;
    } else {
      a := OpenSessionWasAccepted(stream[..n]);
      assert stream[..n][..a] == stream[..a];
      assert stream[a + 1..][..n - a - 1] == stream[..n][a + 1..];
    }
  }

  /**
   * A stream that parses to an ended session closes it with the matching revocation after the acceptance;
   * between the two come only events and rejections, and after it only rejections.
   */
  lemma {:induction false} EndedSessionIsBracketed(stream: seq<ServerMessage>) returns (a: nat, r: nat)
    requires Parse(stream).Ended?
    ensures a < r < |stream|
    ensures stream[a].Accepted? && stream[r].SessionRevoked?
    ensures stream[a].acceptedId == stream[r].revokedId == Parse(stream).id
    ensures Quiet(stream, a + 1, r)
    ensures EventsIn(stream[a + 1..r]) == Parse(stream).events
    ensures forall k :: r < k < |stream| ==> stream[k].Rejected?
  {
    var n := |stream| - 1;
    if stream[n].SessionRevoked? {
      a := OpenSessionWasAccepted(stream[..n]);
      r := n;
      assert stream[..n][a + 1..] == stream[a + 1..r];
    } else {
      a, r := EndedSessionIsBracketed(stream[..n]);
      assert stream[..n][a + 1..r] == stream[a + 1..r];
    }
  }

  // ----- the grammar, without an automaton -----

  predicate IsMark(m: ServerMessage) {
    m.Accepted? || m.SessionRevoked?
  }

  /** The last acceptance or revocation so far is the acceptance of this session. */
  ghost predicate Inside(stream: seq<ServerMessage>, id: SessionId) {
    exists a :: 0 <= a < |stream| && stream[a].Accepted? && stream[a].acceptedId == id &&
      forall k :: a < k < |stream| ==> !IsMark(stream[k])
  }

  /** The last acceptance or revocation so far is a revocation. */
  ghost predicate Over(stream: seq<ServerMessage>) {
    exists r :: 0 <= r < |stream| && stream[r].SessionRevoked? && forall k :: r < k < |stream| ==> !IsMark(stream[k])
  }

  /** What may come next: one snapshot first; no events once a session is over; sessions one at a time. */
  ghost predicate Allowed(before: seq<ServerMessage>, m: ServerMessage) {
    match m
    case Hello(_) => before == []
    case Event(_) => before != [] && !Over(before)
    case Accepted(_, _, _) => before != [] && forall id :: !Inside(before, id)
    case Rejected(_) => before != []
    case SessionRevoked(id, _) => Inside(before, id)
  }

  lemma MarksAfterOneMore(stream: seq<ServerMessage>, m: ServerMessage)
    ensures forall id :: Inside(stream + [m], id) <==>
      if m.Accepted? then m.acceptedId == id else !m.SessionRevoked? && Inside(stream, id)
    ensures Over(stream + [m]) <==> m.SessionRevoked? || (!m.Accepted? && Over(stream))
  {
    var all := stream + [m];
    assert all[|stream|] == m;
    forall id ensures Inside(all, id) <==>
      if m.Accepted? then m.acceptedId == id else !m.SessionRevoked? && Inside(stream, id)
    {
      if a :| 0 <= a < |all| && all[a].Accepted? && all[a].acceptedId == id &&
              forall k :: a < k < |all| ==> !IsMark(all[k]) {
        assert a < |stream| ==> !IsMark(all[|stream|]) && stream[a] == all[a];
        assert forall k :: a < k < |stream| ==> stream[k] == all[k];
      }
      if a :| 0 <= a < |stream| && stream[a].Accepted? && stream[a].acceptedId == id &&
              forall k :: a < k < |stream| ==> !IsMark(stream[k]) {
        assert all[a] == stream[a];
      }
    }
    if r :| 0 <= r < |all| && all[r].SessionRevoked? && forall k :: r < k < |all| ==> !IsMark(all[k]) {
      assert r < |stream| ==> !IsMark(all[|stream|]) && stream[r] == all[r];
      assert forall k :: r < k < |stream| ==> stream[k] == all[k];
    }
    if r :| 0 <= r < |stream| && stream[r].SessionRevoked? && forall k :: r < k < |stream| ==> !IsMark(stream[k]) {
      assert all[r] == stream[r];
    }
  }

  /** The phase is what the marks so far say. */
  ghost predicate Reads(phase: Phase, stream: seq<ServerMessage>) {
    && (phase.Unstarted? <==> stream == [])
    && (forall id :: Inside(stream, id) <==> phase.InSession? && phase.id == id)
    && (Over(stream) <==> phase.Ended?)
  }

  lemma AdvanceReads(phase: Phase, stream: seq<ServerMessage>, m: ServerMessage)
    requires phase != Malformed && Reads(phase, stream)
    ensures Advance(phase, m) != Malformed <==> Allowed(stream, m)
    ensures Advance(phase, m) != Malformed ==> Reads(Advance(phase, m), stream + [m])
  {
    hide Inside, Over;
    MarksAfterOneMore(stream, m);
    assert phase.InSession? ==> Inside(stream, phase.id);
  }

  /**
   * The automaton recognises exactly the streams in which each message is allowed after those before it, and it is
   * in a session, or past one, exactly when the last acceptance or revocation says so.
   */
  lemma {:induction false} ParseRecognisesTheGrammar(stream: seq<ServerMessage>)
    ensures Parse(stream) != Malformed <==> forall i :: 0 <= i < |stream| ==> Allowed(stream[..i], stream[i])
    ensures Parse(stream) != Malformed ==> Reads(Parse(stream), stream)
  {
    hide Allowed, Reads, Advance;
    if |stream| == 0 {
      NoMarks();
    } else {
      var n := |stream| - 1;
      var init, last := stream[..n], stream[n];
      ParseRecognisesTheGrammar(init);
      assert stream == init + [last];
      forall i | 0 <= i < n ensures Allowed(stream[..i], stream[i]) <==> Allowed(init[..i], init[i]) {
        assert init[..i] == stream[..i] && init[i] == stream[i];
      }
      if Parse(init) == Malformed {
        var i :| 0 <= i < n && !Allowed(init[..i], init[i]);
        assert !Allowed(stream[..i], stream[i]);
        MalformedStays(last);
      } else {
        AdvanceReads(Parse(init), init, last);
      }
    }
  }

  lemma MalformedStays(m: ServerMessage)
    ensures Advance(Malformed, m) == Malformed
  {
  }

  lemma NoMarks()
    ensures Reads(Unstarted, [])
  {
  }
}
