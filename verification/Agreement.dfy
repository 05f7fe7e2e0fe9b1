/** What the broker's state promises about the stream of one client, and how each message keeps the promise. */
module Agreement {
  import opened Protocol
  import opened Edges
  import opened Switchboard
  import opened Channels
  import opened Broker
  import opened Streams

  /** How switch events reach a client: as one of all listeners, as the session holder, or not at all. */
  datatype Role = Listener | Holder(id: SessionId) | Bystander

  /** `span` holds the events numbered since the open session began; `late` clients joined during a session. */
  datatype Standing = Standing(role: Role, pressed: set<SwitchId>, span: seq<SwitchEvent>, late: bool) {
    /** The switches this client has been told about truthfully. */
    function Told(): set<SwitchId> {
      if role.Bystander? then {} else pressed
    }
  }

  predicate Consecutive(events: seq<SwitchEvent>) {
    forall i, j :: 0 <= i < j < |events| ==> events[j].sequence == events[i].sequence + (j - i)
  }

  /** Every press of a finished session is followed by its release, and nothing was skipped. */
  predicate Balanced(events: seq<SwitchEvent>) {
    Consecutive(events) && Alternates({}, EdgesOf(events)) && Replay({}, EdgesOf(events)) == {}
  }

  predicate SessionsBalanced(stream: seq<ServerMessage>) {
    forall n :: 0 <= n <= |stream| && Parse(stream[..n]).Ended? ==> Balanced(Parse(stream[..n]).events)
  }

  predicate PhaseFits(role: Role, span: seq<SwitchEvent>, phase: Phase) {
    match role
    case Listener => phase.Listening?
    case Holder(id) => phase == InSession(id, span)
    case Bystander => phase.Listening? || phase.Ended?
  }

  predicate StartsWithSnapshot(order: seq<SwitchId>, stream: seq<ServerMessage>) {
    |stream| > 0 && stream[0].Hello? && stream[0].switches == Render(order, ShownPressed(stream[0].switches))
  }

  ghost predicate Agrees(order: seq<SwitchId>, st: Standing, ch: Channel) {
    && ch.delivered == ch.addressed
    && StartsWithSnapshot(order, ch.delivered)
    && PhaseFits(st.role, st.span, Parse(ch.delivered))
    && SessionsBalanced(ch.delivered)
    && (st.late ==> Stale(ch.delivered) !! st.Told())
    && Seen(ch.delivered) == st.Told() + (if st.late then Stale(ch.delivered) else {})
  }

  lemma OneMoreBalanced(stream: seq<ServerMessage>, m: ServerMessage)
    requires SessionsBalanced(stream)
    requires Parse(stream + [m]).Ended? ==> Balanced(Parse(stream + [m]).events)
    ensures SessionsBalanced(stream + [m])
  {
    forall n | 0 <= n <= |stream + [m]| && Parse((stream + [m])[..n]).Ended?
      ensures Balanced(Parse((stream + [m])[..n]).events)
    {
      if n <= |stream| {
        assert (stream + [m])[..n] == stream[..n];
      } else {
        assert (stream + [m])[..n] == stream + [m];
      }
    }
  }

  lemma {:induction false} MoreEventsBalanced(stream: seq<ServerMessage>, events: seq<SwitchEvent>)
    requires SessionsBalanced(stream)
    requires Parse(stream).Listening? || Parse(stream).InSession?
    ensures SessionsBalanced(stream + Messages(events))
  {
    if |events| == 0 {
      assert stream + Messages(events) == stream;
    } else {
      var init, last := events[..|events| - 1], events[|events| - 1];
      MoreEventsBalanced(stream, init);
      ManyEvents(stream, events);
      LastEvent(stream, {}, events);
      OneMoreBalanced(stream + Messages(init), Event(last));
    }
  }

  /** Events delivered to a listener or a holder keep it in agreement with the switches they announce. */
  lemma EventsKeepAgreement(order: seq<SwitchId>, st: Standing, ch: Channel, ch': Channel, events: seq<SwitchEvent>)
    requires Agrees(order, st, ch) && !st.role.Bystander?
    requires ch'.delivered == ch.delivered + Messages(events) && ch'.addressed == ch.addressed + Messages(events)
    ensures Agrees(order, st.(pressed := Replay(st.pressed, EdgesOf(events)), span := st.span + events), ch')
  {
    ManyEvents(ch.delivered, events);
    MoreEventsBalanced(ch.delivered, events);
    var stale := if st.late then Stale(ch.delivered) else {};
    ReplayKeepsApart(st.pressed, stale, EdgesOf(events));
    assert st.pressed + {} == st.pressed;
  }

  /** Switches never mentioned stay as they were, and apart from the ones that are. */
  lemma {:induction false} ReplayKeepsApart(pressed: set<SwitchId>, other: set<SwitchId>, edges: seq<LogicalTransition>)
    requires other !! pressed
    ensures Replay(pressed + other, edges) == Replay(pressed, edges) + (other - SwitchesOf(edges))
    ensures other - SwitchesOf(edges) !! Replay(pressed, edges)
  {
    if |edges| > 0 {
      var init, last := edges[..|edges| - 1], edges[|edges| - 1];
      ReplayKeepsApart(pressed, other, init);
      assert edges == init + [last];
      ReplayOne(pressed, init, last);
      ReplayOne(pressed + other, init, last);
    }
  }

  lemma RejectionKeepsAgreement(order: seq<SwitchId>, st: Standing, ch: Channel, ch': Channel, reason: RejectionReason)
    requires Agrees(order, st, ch)
    requires ch'.delivered == ch.delivered + [Rejected(reason)] && ch'.addressed == ch.addressed + [Rejected(reason)]
    ensures Agrees(order, st, ch')
  {
    OneMore(ch.delivered, Rejected(reason));
    assert ch.delivered[..|ch.delivered|] == ch.delivered;
    OneMoreBalanced(ch.delivered, Rejected(reason));
  }

  lemma AcceptanceMakesHolder(order: seq<SwitchId>, st: Standing, ch: Channel, ch': Channel, id: SessionId)
    requires Agrees(order, st, ch) && !st.role.Holder? && st.pressed == {}
    requires ch'.delivered == ch.delivered + [AcceptedReply(id)] && ch'.addressed == ch.addressed + [AcceptedReply(id)]
    ensures Agrees(order, st.(role := Holder(id), span := []), ch')
  {
    OneMore(ch.delivered, AcceptedReply(id));
    OneMoreBalanced(ch.delivered, AcceptedReply(id));
  }

  lemma RevocationMakesBystander(order: seq<SwitchId>, st: Standing, ch: Channel, ch': Channel, reason: RevocationReason)
    requires Agrees(order, st, ch) && st.role.Holder? && st.pressed == {} && Balanced(st.span)
    requires ch'.delivered == ch.delivered + [SessionRevoked(st.role.id, reason)]
    requires ch'.addressed == ch.addressed + [SessionRevoked(st.role.id, reason)]
    ensures Agrees(order, st.(role := Bystander), ch')
  {
    OneMore(ch.delivered, SessionRevoked(st.role.id, reason));
    OneMoreBalanced(ch.delivered, SessionRevoked(st.role.id, reason));
  }

  lemma SnapshotMakesAgreement(order: seq<SwitchId>, st: Standing, ch: Channel)
    requires forall s :: s in st.pressed ==> s in order
    requires st.late ==> st.role.Bystander?
    requires st.role.Bystander? && st.pressed != {} ==> st.late
    requires !st.role.Holder?
    requires ch.delivered == ch.addressed == [Hello(Render(order, st.pressed))]
    ensures Agrees(order, st, ch)
  {
    RenderShowsPressed(order, st.pressed);
    assert ch.delivered == [] + [Hello(Render(order, st.pressed))];
    OneMore([], Hello(Render(order, st.pressed)));
    OneMoreBalanced([], Hello(Render(order, st.pressed)));
  }

  /** Nothing the holder's session does can disturb a bystander. */
  lemma BystandersAreUndisturbed(
    order: seq<SwitchId>, st: Standing, ch: Channel, pressed: set<SwitchId>, span: seq<SwitchEvent>)
    requires Agrees(order, st, ch) && st.role.Bystander?
    ensures Agrees(order, st.(pressed := pressed, span := span), ch)
  {
  }

  /** When no switch is pressed, a client that hears everything may stop hearing anything. */
  lemma QuietClientsStandBy(order: seq<SwitchId>, st: Standing, ch: Channel, span: seq<SwitchEvent>)
    requires Agrees(order, st, ch) && !st.role.Holder? && st.pressed == {}
    ensures Agrees(order, st.(role := Bystander, span := span), ch)
  {
  }

  /** The final releases and the revocation notice, delivered together, make the holder a bystander. */
  lemma FinalMessagesMakeBystander(
    order: seq<SwitchId>, st: Standing, ch: Channel, ch': Channel, releases: seq<SwitchEvent>, reason: RevocationReason)
    requires Agrees(order, st, ch) && st.role.Holder?
    requires Replay(st.pressed, EdgesOf(releases)) == {} && Balanced(st.span + releases)
    requires ch'.delivered == ch.delivered + (Messages(releases) + [SessionRevoked(st.role.id, reason)])
    requires ch'.addressed == ch.addressed + (Messages(releases) + [SessionRevoked(st.role.id, reason)])
    ensures Agrees(order, st.(role := Bystander, pressed := {}, span := st.span + releases), ch')
  {
    hide Agrees, Balanced;
    var mid := ch.(delivered := ch.delivered + Messages(releases), addressed := ch.addressed + Messages(releases));
    EventsKeepAgreement(order, st, ch, mid, releases);
    assert ch'.delivered == mid.delivered + [SessionRevoked(st.role.id, reason)];
    assert ch'.addressed == mid.addressed + [SessionRevoked(st.role.id, reason)];
    RevocationMakesBystander(order, st.(pressed := {}, span := st.span + releases), mid, ch', reason);
  }
}
