/** Who receives what, judged by the room in each client's queue rather than by how the broker sends. */
module Deliveries {
  import opened Protocol
  import opened Channels
  import opened Broker

  /**
   * `c` is sent these messages one by one until it misses one: with room for each it has received them all and is
   * still served, otherwise it is dropped having received those before the first it missed.
   */
  ghost predicate Tells(env: Env, s: State, s': State, c: ClientId, messages: seq<ServerMessage>) {
    if c !in s.clients then
      c !in s'.clients && SameDropped(s, s', c)
    else if Takes(s.clients[c], env.consumers(c), |messages|) then
      && c in s'.clients && SameDropped(s, s', c)
      && Took(env.consumers(c), s.clients[c], s'.clients[c], messages, messages)
    else
      && c !in s'.clients && c in s'.dropped
      && MissedOne(env.consumers(c), s.clients[c], s'.dropped[c], messages)
  }

  ghost predicate MissedOne(consumer: Consumer, ch: Channel, ch': Channel, messages: seq<ServerMessage>) {
    exists j :: 0 <= j < |messages| && Takes(ch, consumer, j) && !Fits(ch, consumer, j) &&
      Took(consumer, ch, ch', messages[..j + 1], messages[..j])
  }

  /** `c` is sent every one of these messages, also after missing one; it is still served exactly if it missed none. */
  ghost predicate TellsAll(env: Env, s: State, s': State, c: ClientId, messages: seq<ServerMessage>) {
    if c !in s.clients then
      c !in s'.clients && SameDropped(s, s', c)
    else
      var ch, consumer := s.clients[c], env.consumers(c);
      if Takes(ch, consumer, |messages|) then
        c in s'.clients && SameDropped(s, s', c) && Took(consumer, ch, s'.clients[c], messages, messages)
      else
        && c !in s'.clients && c in s'.dropped
        && Took(consumer, ch, s'.dropped[c], messages, Fitting(ch, consumer, messages))
  }

  ghost predicate SameDropped(s: State, s': State, c: ClientId) {
    (c in s'.dropped <==> c in s.dropped) && (c in s.dropped ==> s'.dropped[c] == s.dropped[c])
  }

  ghost predicate SameClient(s: State, s': State, c: ClientId) {
    && (c in s'.clients <==> c in s.clients) && (c in s.clients ==> s'.clients[c] == s.clients[c])
    && SameDropped(s, s', c)
  }

  /** Nobody but `c` is sent anything or dropped. */
  ghost predicate OnlyFor(s: State, s': State, c: ClientId) {
    forall k :: k != c ==> SameClient(s, s', k)
  }

  /** Nothing but the served and the dropped clients differs. */
  ghost predicate OnlyDelivery(s: State, s': State) {
    s' == s.(clients := s'.clients, dropped := s'.dropped)
  }

  // ----- the broker's ways of sending -----

  /** In terms of the queue alone: `c` took all the messages, or missed one and is gone. */
  ghost predicate Given(env: Env, s: State, s': State, c: ClientId, messages: seq<ServerMessage>)
    requires c in s.clients
  {
    var ch, consumer := s.clients[c], env.consumers(c);
    if Takes(ch, consumer, |messages|) then
      && c in s'.clients && SameDropped(s, s', c) && s'.clients[c] == SendAll(ch, consumer, messages).0
    else
      && c !in s'.clients && c in s'.dropped
      && exists j :: 0 <= j < |messages| && Takes(ch, consumer, j) && !Fits(ch, consumer, j) &&
           s'.dropped[c] == SendAll(ch, consumer, messages[..j + 1]).0
  }

  lemma {:induction false} FittingUpToAMiss(ch: Channel, consumer: Consumer, messages: seq<ServerMessage>, j: nat)
    requires j < |messages| && Takes(ch, consumer, j) && !Fits(ch, consumer, j)
    ensures Fitting(ch, consumer, messages[..j + 1]) == messages[..j]
  {
    hide Fits;
    assert messages[..j + 1][..j] == messages[..j];
    SendAllIsExact(ch, consumer, messages[..j]);
  }

  lemma GivenIsTold(env: Env, s: State, s': State, c: ClientId, messages: seq<ServerMessage>)
    requires c in s.clients && Given(env, s, s', c, messages)
    ensures Tells(env, s, s', c, messages)
  {
    hide Fits, Takes, Took, SendAll, Fitting;
    var ch, consumer := s.clients[c], env.consumers(c);
    SendAllIsExact(ch, consumer, messages);
    if !Takes(ch, consumer, |messages|) {
      var j :| 0 <= j < |messages| && Takes(ch, consumer, j) && !Fits(ch, consumer, j) &&
        s'.dropped[c] == SendAll(ch, consumer, messages[..j + 1]).0;
      SendAllIsExact(ch, consumer, messages[..j + 1]);
      FittingUpToAMiss(ch, consumer, messages, j);
      assert MissedOne(consumer, ch, s'.dropped[c], messages);
    }
  }

  lemma TakesOneMore(ch: Channel, consumer: Consumer, n: nat)
    ensures Takes(ch, consumer, n + 1) <==> Takes(ch, consumer, n) && Fits(ch, consumer, n)
  {
    hide Fits;
  }

  /** One more message, after `messages` were given, to whoever is still served. */
  lemma GiveOneMore(
    env: Env, s: State, s1: State, s2: State, c: ClientId, messages: seq<ServerMessage>, m: ServerMessage)
    requires c in s.clients && Given(env, s, s1, c, messages)
    requires c !in s1.clients ==> SameClient(s1, s2, c)
    requires c in s1.clients ==>
      var (ch, ok) := Send(s1.clients[c], env.consumers(c), m);
      if ok then c in s2.clients && s2.clients[c] == ch && SameDropped(s1, s2, c)
      else c !in s2.clients && c in s2.dropped && s2.dropped[c] == ch
    ensures Given(env, s, s2, c, messages + [m])
  {
    hide Fits, Took, SendAll, Fitting, Send, Takes;
    var ch, consumer, all := s.clients[c], env.consumers(c), messages + [m];
    TakesOneMore(ch, consumer, |messages|);
    SendAllOneMore(ch, consumer, messages, m);
    SendAllIsExact(ch, consumer, messages);
    SendAllIsExact(ch, consumer, all);
    if c in s1.clients {
      assert all[..|messages| + 1] == all;
    } else {
      var j :| 0 <= j < |messages| && Takes(ch, consumer, j) && !Fits(ch, consumer, j) &&
        s1.dropped[c] == SendAll(ch, consumer, messages[..j + 1]).0;
      assert all[..j + 1] == messages[..j + 1];
    }
  }

  lemma GiveNothing(env: Env, s: State, c: ClientId)
    requires c in s.clients
    ensures Given(env, s, s, c, [])
  {
  }

  /** A broadcast reaches each client as if it were alone. */
  lemma BroadcastToOne(env: Env, s: State, m: ServerMessage, c: ClientId)
    ensures var s' := Broadcast(env, s, m);
      if c !in s.clients then SameClient(s, s', c)
      else
        var (ch, ok) := Send(s.clients[c], env.consumers(c), m);
        if ok then c in s'.clients && s'.clients[c] == ch && SameDropped(s, s', c)
        else c !in s'.clients && c in s'.dropped && s'.dropped[c] == ch
  {
    hide Send;
    var outcomes := Outcome(env, s.clients, m);
    assert c in outcomes <==> c in s.clients;
  }

  lemma {:induction false} BroadcastAllGives(env: Env, s: State, messages: seq<ServerMessage>, c: ClientId)
    ensures var s' := BroadcastAll(env, s, messages);
      OnlyDelivery(s, s') && if c in s.clients then Given(env, s, s', c, messages) else SameClient(s, s', c)
  {
    hide Broadcast, Given, Send;
    if |messages| == 0 {
      if c in s.clients {
        GiveNothing(env, s, c);
      }
    } else {
      var init, last := messages[..|messages| - 1], messages[|messages| - 1];
      BroadcastAllGives(env, s, init, c);
      var s1 := BroadcastAll(env, s, init);
      BroadcastOnlyDelivers(env, s1, last);
      BroadcastToOne(env, s1, last, c);
      assert messages == init + [last];
      if c in s.clients {
        StillOne(env, s, s1, c, init);
        GiveOneMore(env, s, s1, BroadcastAll(env, s, messages), c, init, last);
      }
    }
  }

  lemma StillOne(env: Env, s: State, s': State, c: ClientId, messages: seq<ServerMessage>)
    requires c in s.clients && Given(env, s, s', c, messages)
    ensures c !in s'.clients ==> c in s'.dropped
  {
    hide Takes, Fits, SendAll;
  }

  lemma BroadcastOnlyDelivers(env: Env, s: State, m: ServerMessage)
    ensures OnlyDelivery(s, Broadcast(env, s, m))
  {
  }

  /** A broadcast of several messages reaches each client by the room in its own queue. */
  lemma BroadcastAllTells(env: Env, s: State, messages: seq<ServerMessage>)
    ensures var s' := BroadcastAll(env, s, messages);
      OnlyDelivery(s, s') && forall c :: Tells(env, s, s', c, messages)
  {
    hide BroadcastAll, Tells, Given;
    var s' := BroadcastAll(env, s, messages);
    BroadcastAllGives(env, s, messages, 0);
    forall c ensures Tells(env, s, s', c, messages) {
      BroadcastAllGives(env, s, messages, c);
      if c in s.clients {
        GivenIsTold(env, s, s', c, messages);
      } else {
        NotServedNotTold(env, s, s', c, messages);
      }
    }
  }

  lemma NotServedNotTold(env: Env, s: State, s': State, c: ClientId, messages: seq<ServerMessage>)
    requires c !in s.clients && SameClient(s, s', c)
    ensures Tells(env, s, s', c, messages)
  {
  }

  lemma SendToOne(env: Env, s: State, c: ClientId, m: ServerMessage)
    ensures var (s', sent) := SendTo(env, s, c, m);
      && OnlyDelivery(s, s') && OnlyFor(s, s', c)
      && (c !in s.clients ==> !sent && s' == s)
      && (c in s.clients ==>
            var (ch, ok) := Send(s.clients[c], env.consumers(c), m);
            && sent == ok
            && if ok then c in s'.clients && s'.clients[c] == ch && SameDropped(s, s', c)
               else c !in s'.clients && c in s'.dropped && s'.dropped[c] == ch)
  {
    hide Send;
  }

  /** One message to one client. */
  lemma SendToTells(env: Env, s: State, c: ClientId, m: ServerMessage)
    ensures var (s', sent) := SendTo(env, s, c, m);
      && OnlyDelivery(s, s') && OnlyFor(s, s', c) && Tells(env, s, s', c, [m])
      && (sent <==> c in s'.clients)
      && (sent <==> c in s.clients && Takes(s.clients[c], env.consumers(c), 1))
  {
    hide Send, SendTo, OnlyFor, OnlyDelivery, Tells, Given, SendAll, Took, Takes;
    SendToOne(env, s, c, m);
    var s' := SendTo(env, s, c, m).0;
    if c in s.clients {
      GiveNothing(env, s, c);
      GiveOneMore(env, s, s, s', c, [], m);
      assert [] + [m] == [m];
      GivenIsTold(env, s, s', c, [m]);
      OneSend(s.clients[c], env.consumers(c), m);
      SendAllIsExact(s.clients[c], env.consumers(c), [m]);
    } else {
      NotServedNotTold(env, s, s', c, [m]);
    }
  }

  /** Several messages to one client, all of them tried. */
  lemma NotifyTellsAll(env: Env, s: State, c: ClientId, messages: seq<ServerMessage>)
    ensures var s' := Notify(env, s, c, messages);
      OnlyDelivery(s, s') && OnlyFor(s, s', c) && TellsAll(env, s, s', c, messages)
  {
    hide SendAll, Took, Takes, Fitting;
    if c in s.clients {
      SendAllIsExact(s.clients[c], env.consumers(c), messages);
    }
  }
}
