/** Who is who over whole runs: client ids, session ids, and whose heartbeats count. */
module Identity {
  import opened Protocol
  import opened Channels
  import opened Broker
  import opened Effects
  import opened Invariant

  // ----- clients -----

  /** Ids in use were issued, and no client is served and dropped at once. */
  lemma IdsInUseWereIssued(d: Daemon, trace: seq<Stamped>)
    requires Timely(d.started, trace)
    ensures var s := d.After(trace);
      && (forall c :: c in s.clients || c in s.dropped ==> c < s.nextClient)
      && s.clients.Keys !! s.dropped.Keys
      && (s.session.Some? ==> s.session.value.client in s.clients || s.session.value.client in s.dropped)
  {
    hide Ledger, ClientsAgree, CleanStart, Coupled;
    EveryRunKeepsInv(d, trace);
  }

  /** The sessions are the same apart from when the lease was last renewed. */
  predicate SameSession(a: Option<Session>, b: Option<Session>) {
    a.Some? && b.Some? && a.value.client == b.value.client && a.value.id == b.value.id && a.value.pid == b.value.pid
  }

  lemma GoneClientStaysGoneInAStep(env: Env, s: State, at: Time, input: Input, c: ClientId)
    requires c < s.nextClient && c !in s.clients
    ensures var s' := Handle(env, s, at, input);
      && c !in s'.clients && c < s'.nextClient
      && (s'.session.Some? && s'.session.value.client == c ==> SameSession(s.session, s'.session))
  {
    hide Handle;
    HandleEffect(env, s, at, input);
  }

  /**
   * A client once gone stays gone: however the run continues it is never served again, its id is not issued
   * again, and the only session it can hold is the one it already held.
   */
  lemma {:induction false} GoneClientsStayGone(d: Daemon, trace: seq<Stamped>, more: seq<Stamped>, c: ClientId)
    requires c < d.After(trace).nextClient && c !in d.After(trace).clients
    ensures var s, s' := d.After(trace), d.After(trace + more);
      && c !in s'.clients && c < s'.nextClient
      && (s'.session.Some? && s'.session.value.client == c ==> SameSession(s.session, s'.session))
    decreases |more|
  {
    hide Handle, NewState, Run;
    if |more| == 0 {
      assert trace + more == trace;
    } else {
      var init, x := more[..|more| - 1], more[|more| - 1];
      GoneClientsStayGone(d, trace, init, c);
      assert trace + more == (trace + init) + [x];
      OneMoreStep(d, trace + init, x);
      GoneClientStaysGoneInAStep(d.env, d.After(trace + init).(clock := x.at), x.at, x.input, c);
    }
  }

  /** Two registrations in a run never issue the same id. */
  lemma {:induction false} IdsOnlyGrow(d: Daemon, trace: seq<Stamped>, more: seq<Stamped>)
    ensures d.After(trace).nextClient <= d.After(trace + more).nextClient
    ensures more != [] && more[0].input.Register? ==> d.After(trace).nextClient < d.After(trace + more).nextClient
    decreases |more|
  {
    hide Handle, NewState;
    if |more| == 0 {
      assert trace + more == trace;
    } else {
      var init, x := more[..|more| - 1], more[|more| - 1];
      IdsOnlyGrow(d, trace, init);
      assert trace + more == (trace + init) + [x];
      OneMoreStep(d, trace + init, x);
      var s := d.After(trace + init);
      HandleEffect(d.env, s.(clock := x.at), x.at, x.input);
      if x.input.Register? {
        RegisterIssuesOne(d.env, s.(clock := x.at), x.at, x.input);
      }
      assert |init| > 0 ==> init[0] == more[0];
      assert |init| == 0 ==> trace + init == trace;
    }
  }

  lemma RegisterIssuesOne(env: Env, s: State, at: Time, input: Input)
    requires input.Register?
    ensures Handle(env, s, at, input).nextClient == s.nextClient + 1
  {
    hide Send;
  }

  // ----- sessions -----

  /** Every session ever opened drew the next session id, and all but an open one have been revoked, in order. */
  ghost predicate SessionsInOrder(env: Env, s: State) {
    && s.drawn == |s.revocations| + (if s.session.Some? then 1 else 0)
    && (forall i :: 0 <= i < |s.revocations| ==> s.revocations[i].session.id == env.sessionIds(i))
    && (s.session.Some? ==> s.session.value.id == env.sessionIds(|s.revocations|))
  }

  lemma HandleKeepsSessionsInOrder(env: Env, s: State, at: Time, input: Input)
    requires SessionsInOrder(env, s)
    ensures SessionsInOrder(env, Handle(env, s, at, input))
  {
    hide RegisterClient, UnregisterClient, PhysicalInput, Handshaken, Revoke;
    match input
    case Register(capacity) => RegisterEffect(env, s, capacity);
    case Unregister(c) => UnregisterEffect(env, s, at, c);
    case Physical(e) => InputEffect(env, s, at, e);
    case Shake(c, h) => HandshakeEffect(env, s, at, c, h);
    case Heartbeat(_, _) =>
    case RevokeSession(reason) => RevokeOrIdleEffect(env, s, at, reason);
    case FocusChanged(_) => RevokeOrIdleEffect(env, s, at, FocusLost);
    case Tick =>
      RevokeOrIdleEffect(env, s, at, HeartbeatTimeout);
      RevokeOrIdleEffect(env, s, at, EscapeHatch);
  }

  lemma {:induction false} RunsKeepSessionsInOrder(d: Daemon, trace: seq<Stamped>)
    ensures SessionsInOrder(d.env, d.After(trace))
  {
    hide Handle;
    if |trace| > 0 {
      var n := |trace| - 1;
      RunsKeepSessionsInOrder(d, trace[..n]);
      var s, x := d.After(trace[..n]), trace[n];
      HandleKeepsSessionsInOrder(d.env, s.(clock := x.at), x.at, x.input);
    }
  }

  /**
   * With pairwise distinct session ids, a heartbeat changes anything only if it comes from the holder of the
   * open session with that session's id: one for any session already revoked changes nothing at all.
   */
  lemma StaleHeartbeatsChangeNothing(d: Daemon, trace: seq<Stamped>, at: Time, c: ClientId, id: SessionId)
    requires forall i, j :: i != j ==> d.env.sessionIds(i) != d.env.sessionIds(j)
    ensures var s := d.After(trace);
      var s' := d.After(trace + [Stamped(at, Heartbeat(c, id))]);
      && (s'.(clock := s.clock) != s ==> s.session.Some? && s.session.value.client == c && s.session.value.id == id)
      && (forall i :: 0 <= i < |s.revocations| && s.revocations[i].session.id == id ==> s'.(clock := s.clock) == s)
  {
    hide NewState;
    OneMoreStep(d, trace, Stamped(at, Heartbeat(c, id)));
    RunsKeepSessionsInOrder(d, trace);
  }
}
