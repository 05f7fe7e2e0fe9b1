/** Bounded message queues from the broker to its clients. */
module Channels {
  import opened Protocol

  /** What the consumer does just before one send: takes some queued messages, and may go away for good. */
  datatype Pull = Pull(taken: nat, closes: bool)

  /**
   * One bounded queue. `delivered` and `addressed` are histories: every message ever enqueued, and every
   * message the broker ever tried to enqueue.
   */
  datatype Channel = Channel(
    capacity: nat,
    queue: seq<ServerMessage>,
    closed: bool,
    delivered: seq<ServerMessage>,
    addressed: seq<ServerMessage>)
  {
    function Drained(pull: Pull): Channel {
      this.(queue := queue[if pull.taken <= |queue| then pull.taken else |queue|..],
            closed := closed || pull.closes)
    }

    /** Never waits: fails when the receiver is gone or the queue is full. */
    function TrySend(pull: Pull, message: ServerMessage): (r: (Channel, bool))
      ensures r.0.addressed == addressed + [message]
      ensures r.0.delivered == if r.1 then delivered + [message] else delivered
    {
      var ch := Drained(pull).(addressed := addressed + [message]);
      if ch.closed || |ch.queue| >= ch.capacity then (ch, false)
      else (ch.(queue := ch.queue + [message], delivered := delivered + [message]), true)
    }
  }

  function NewChannel(capacity: nat): Channel {
    Channel(capacity, [], false, [], [])
  }

  /** A consumer's behaviour: what it does before the k-th message addressed to it. */
  type Consumer = nat -> Pull

  function Send(ch: Channel, consumer: Consumer, message: ServerMessage): (Channel, bool) {
    ch.TrySend(consumer(|ch.addressed|), message)
  }

  lemma SendRecords(ch: Channel, consumer: Consumer, message: ServerMessage)
    ensures var (after, ok) := Send(ch, consumer, message);
      && after.addressed == ch.addressed + [message]
      && after.delivered == if ok then ch.delivered + [message] else ch.delivered
  {
  }

  /** Every message is tried, even after one has failed. */
  function SendAll(ch: Channel, consumer: Consumer, messages: seq<ServerMessage>): (Channel, bool) {
    if |messages| == 0 then (ch, true)
    else
      var (ch1, ok1) := SendAll(ch, consumer, messages[..|messages| - 1]);
      var (ch2, ok2) := Send(ch1, consumer, messages[|messages| - 1]);
      (ch2, ok1 && ok2)
  }

  lemma {:induction false} SendAllDelivers(ch: Channel, consumer: Consumer, messages: seq<ServerMessage>)
    ensures var (after, ok) := SendAll(ch, consumer, messages);
      after.addressed == ch.addressed + messages && (ok ==> after.delivered == ch.delivered + messages)
  {
    if |messages| > 0 {
      var init, last := messages[..|messages| - 1], messages[|messages| - 1];
      SendAllDelivers(ch, consumer, init);
      assert messages == init + [last];
    }
  }

  lemma SendAllOneMore(ch: Channel, consumer: Consumer, messages: seq<ServerMessage>, m: ServerMessage)
    ensures var (ch1, ok1) := SendAll(ch, consumer, messages);
      var (ch2, ok2) := Send(ch1, consumer, m);
      SendAll(ch, consumer, messages + [m]) == (ch2, ok1 && ok2)
  {
    assert (messages + [m])[..|messages|] == messages;
  }

  // ----- what gets through, by counting alone -----

  /** Whether the consumer has gone away by the time the message `n` places ahead is tried. */
  predicate Gone(ch: Channel, consumer: Consumer, n: nat) {
    consumer(|ch.addressed| + n).closes || (if n == 0 then ch.closed else Gone(ch, consumer, n - 1))
  }

  /** How many messages are waiting once the next `n` have been tried. */
  function Waiting(ch: Channel, consumer: Consumer, n: nat): nat
    decreases n, 0
  {
    if n == 0 then |ch.queue|
    else Left(ch, consumer, n - 1) + (if Fits(ch, consumer, n - 1) then 1 else 0)
  }

  /** How many are still waiting after what the consumer takes just before the message `n` places ahead. */
  function Left(ch: Channel, consumer: Consumer, n: nat): nat
    decreases n, 1
  {
    var waiting, taken := Waiting(ch, consumer, n), consumer(|ch.addressed| + n).taken;
    if taken <= waiting then waiting - taken else 0
  }

  /** The message `n` places ahead finds its consumer and a free place. */
  predicate Fits(ch: Channel, consumer: Consumer, n: nat)
    decreases n, 2
  {
    !Gone(ch, consumer, n) && Left(ch, consumer, n) < ch.capacity
  }

  /** Each of the next `n` messages finds its consumer and a free place. */
  predicate Takes(ch: Channel, consumer: Consumer, n: nat) {
    forall k :: 0 <= k < n ==> Fits(ch, consumer, k)
  }

  /** The messages that get through when every one of them is tried. */
  function Fitting(ch: Channel, consumer: Consumer, messages: seq<ServerMessage>): seq<ServerMessage> {
    if |messages| == 0 then []
    else
      var n := |messages| - 1;
      Fitting(ch, consumer, messages[..n]) + (if Fits(ch, consumer, n) then [messages[n]] else [])
  }

  /** What waits is the tail of what was delivered: the consumer takes messages in order and misses none. */
  predicate FirstInFirstOut(ch: Channel) {
    |ch.queue| <= |ch.delivered| && ch.queue == ch.delivered[|ch.delivered| - |ch.queue|..]
  }

  /** One queue before and after these messages were tried and those got through. */
  ghost predicate Took(
    consumer: Consumer, ch: Channel, ch': Channel, tried: seq<ServerMessage>, got: seq<ServerMessage>)
  {
    && ch'.capacity == ch.capacity
    && ch'.addressed == ch.addressed + tried
    && ch'.delivered == ch.delivered + got
    && |ch'.queue| == Waiting(ch, consumer, |tried|)
    && (ch'.closed <==> if |tried| == 0 then ch.closed else Gone(ch, consumer, |tried| - 1))
    && (FirstInFirstOut(ch) ==> FirstInFirstOut(ch'))
    && (|ch.queue| <= ch.capacity ==> |ch'.queue| <= ch'.capacity)
  }

  /** What one send takes off the front and puts at the back leaves the queue in order. */
  lemma SendKeepsOrder(ch: Channel, consumer: Consumer, m: ServerMessage)
    requires FirstInFirstOut(ch)
    ensures FirstInFirstOut(Send(ch, consumer, m).0)
  {
    var after, pull := Send(ch, consumer, m).0, consumer(|ch.addressed|);
    var drained := ch.Drained(pull).queue;
    assert drained == ch.delivered[|ch.delivered| - |drained|..];
  }

  lemma TookOneMore(
    consumer: Consumer, ch: Channel, ch1: Channel, tried: seq<ServerMessage>, got: seq<ServerMessage>, m: ServerMessage)
    requires Took(consumer, ch, ch1, tried, got)
    ensures var (ch2, ok) := Send(ch1, consumer, m);
      && (ok <==> Fits(ch, consumer, |tried|))
      && Took(consumer, ch, ch2, tried + [m], got + (if Fits(ch, consumer, |tried|) then [m] else []))
  {
    hide FirstInFirstOut;
    assert |ch1.addressed| == |ch.addressed| + |tried|;
    if FirstInFirstOut(ch) {
      SendKeepsOrder(ch1, consumer, m);
    }
    SendRecords(ch1, consumer, m);
    assert ch.addressed + tried + [m] == ch.addressed + (tried + [m]);
    assert ch.delivered + got + [m] == ch.delivered + (got + [m]);
    assert got + [] == got;
  }

  /**
   * A queue offered any number of messages takes all of them exactly when the counts say that each finds a free
   * place; otherwise just those that do get through.
   */
  lemma {:induction false} SendAllIsExact(ch: Channel, consumer: Consumer, messages: seq<ServerMessage>)
    ensures var (after, ok) := SendAll(ch, consumer, messages);
      && (ok <==> Takes(ch, consumer, |messages|))
      && Took(consumer, ch, after, messages, Fitting(ch, consumer, messages))
    ensures Takes(ch, consumer, |messages|) ==> Fitting(ch, consumer, messages) == messages
  {
    hide Took, Fits, Send;
    if |messages| == 0 {
      TookNothing(ch, consumer);
    } else {
      var n := |messages| - 1;
      var init, last := messages[..n], messages[n];
      SendAllIsExact(ch, consumer, init);
      assert messages == init + [last];
      TookOneMore(consumer, ch, SendAll(ch, consumer, init).0, init, Fitting(ch, consumer, init), last);
      assert Takes(ch, consumer, |messages|) <==> Takes(ch, consumer, n) && Fits(ch, consumer, n);
    }
  }

  lemma TookNothing(ch: Channel, consumer: Consumer)
    ensures Took(consumer, ch, ch, [], [])
  {
    assert ch.addressed + [] == ch.addressed && ch.delivered + [] == ch.delivered;
  }

  lemma OneSend(ch: Channel, consumer: Consumer, m: ServerMessage)
    ensures SendAll(ch, consumer, [m]) == Send(ch, consumer, m)
  {
    assert [m][..0] == [];
  }
}
