/** The connection handler of one client, and how it closes the loop with the broker. */
module Connections {
  import opened Protocol
  import opened Channels
  import opened Broker
  import opened Deliveries
  import opened Effects
  import opened Invariant
  import opened Identity

  /** What the socket can produce: the two client messages, something to ignore, or its end. */
  datatype Frame = ShakeFrame(handshake: Handshake) | BeatFrame(id: SessionId) | Noise | Ended

  function CommandOf(c: ClientId, frame: Frame): seq<Input> {
    match frame
    case ShakeFrame(h) => [Shake(c, h)]
    case BeatFrame(id) => [Heartbeat(c, id)]
    case Noise => []
    case Ended => []
  }

  function CommandsOf(c: ClientId, frames: seq<Frame>): seq<Input> {
    if |frames| == 0 then [] else CommandsOf(c, frames[..|frames| - 1]) + CommandOf(c, frames[|frames| - 1])
  }

  /** The frames a list of commands stands for, when they are this client's. */
  function FramesOf(c: ClientId, commands: seq<Input>): seq<Frame> {
    if |commands| == 0 then []
    else
      FramesOf(c, commands[..|commands| - 1]) +
      match commands[|commands| - 1]
      case Shake(k, h) => if k == c then [ShakeFrame(h)] else []
      case Heartbeat(k, id) => if k == c then [BeatFrame(id)] else []
      case _ => []
  }

  /** The frames that carry a client message. */
  function Spoken(frames: seq<Frame>): seq<Frame> {
    if |frames| == 0 then []
    else
      var last := frames[|frames| - 1];
      Spoken(frames[..|frames| - 1]) + (if last.ShakeFrame? || last.BeatFrame? then [last] else [])
  }

  /** Nothing a client says is lost, repeated, reordered, invented, or passed on under another id. */
  lemma {:induction false} CommandsSpeakForTheFrames(c: ClientId, frames: seq<Frame>)
    ensures FramesOf(c, CommandsOf(c, frames)) == Spoken(frames)
    ensures |CommandsOf(c, frames)| == |Spoken(frames)|
  {
    if |frames| > 0 {
      var init, last := frames[..|frames| - 1], frames[|frames| - 1];
      CommandsSpeakForTheFrames(c, init);
      var commands := CommandsOf(c, init);
      if last.ShakeFrame? || last.BeatFrame? {
        var all := commands + CommandOf(c, last);
        assert all[..|all| - 1] == commands;
      } else {
        assert commands + [] == commands;
      }
    }
  }

  /**
   * The handler's loop, given every message the broker will ever enqueue for it, whether the broker then lets go
   * of the sender, and the socket frames to come. It serves the queue and the socket in any order. It forwards
   * a prefix of the messages, passes on the commands of a prefix of the frames, and always ends by
   * unregistering, once. Unless the socket ended or a write failed, it ends because the broker has let go and
   * every message has been forwarded.
   */
  method HandleClient(
    c: ClientId, messages: seq<ServerMessage>, senderGone: bool, frames: seq<Frame>, writable: nat -> bool)
    returns (forwarded: seq<ServerMessage>, commands: seq<Input>, read: nat, cutOff: bool)
    ensures forwarded <= messages
    ensures read <= |frames|
    ensures commands == CommandsOf(c, frames[..read]) + [Unregister(c)]
    ensures !cutOff ==> forwarded == messages && senderGone
    ensures cutOff ==> read == |frames| || frames[read].Ended? || !writable(|forwarded|)
  {
    var queue := messages;
    forwarded, commands, read, cutOff := [], [], 0, false;
    while true
      invariant forwarded + queue == messages
      invariant read <= |frames|
      invariant commands == CommandsOf(c, frames[..read])
      invariant !cutOff
      decreases |queue| + |frames| - read
    {
      if {
        case |queue| > 0 =>
          if !writable(|forwarded|) {
            cutOff := true;
            break;
          }
          forwarded, queue := forwarded + [queue[0]], queue[1..];
        case |queue| == 0 && senderGone =>
          break;
        case true =>
          if read == |frames| || frames[read].Ended? {
            cutOff := true;
            break;
          }
          assert frames[..read + 1][..read] == frames[..read];
          commands := commands + CommandOf(c, frames[read]);
          read := read + 1;
      }
    }
    commands := commands + [Unregister(c)];
  }

  // ----- handler and broker together -----

  /** The broker, its command queue, and whether the connection handler of one fixed client is still running. */
  datatype Link = Link(broker: State, inbox: seq<Input>, running: bool)

  datatype Turn =
    | Take(at: Time)
    | TickAt(at: Time)
    | Arrive(input: Input)
    | Forward(written: bool)
    | Receive(frame: Frame)

  function Exit(c: ClientId, w: Link): Link {
    w.(running := false, inbox := w.inbox + [Unregister(c)])
  }

  function Pop(ch: Channel): Channel
    requires |ch.queue| > 0
  {
    ch.(queue := ch.queue[1..])
  }

  /** The receiving branch of the handler's loop: wait, forward one message, or leave. */
  function ForwardTurn(c: ClientId, w: Link, written: bool): Link {
    if c in w.broker.clients then
      if |w.broker.clients[c].queue| == 0 then w
      else
        var w1 := w.(broker := w.broker.(clients := w.broker.clients[c := Pop(w.broker.clients[c])]));
        if written then w1 else Exit(c, w1)
    else if c in w.broker.dropped && |w.broker.dropped[c].queue| > 0 then
      var w1 := w.(broker := w.broker.(dropped := w.broker.dropped[c := Pop(w.broker.dropped[c])]));
      if written then w1 else Exit(c, w1)
    else Exit(c, w)
  }

  /** A forward turn takes the oldest waiting message off the client's queue, if one waits, and nothing else. */
  lemma ForwardTakesTheOldest(c: ClientId, w: Link, written: bool)
    requires !(c in w.broker.clients && c in w.broker.dropped)
    ensures var w' := ForwardTurn(c, w, written);
      && (forall k :: k != c ==> SameClient(w.broker, w'.broker, k))
      && w'.broker == w.broker.(clients := w'.broker.clients, dropped := w'.broker.dropped)
      && (c in w.broker.clients ==> c in w'.broker.clients && OldestTaken(w.broker.clients[c], w'.broker.clients[c]))
      && (c in w.broker.dropped ==> c in w'.broker.dropped && OldestTaken(w.broker.dropped[c], w'.broker.dropped[c]))
    ensures ForwardTurn(c, w, written).running <==>
      && w.running
      && if c in w.broker.clients then written || |w.broker.clients[c].queue| == 0
         else written && c in w.broker.dropped && |w.broker.dropped[c].queue| > 0
  {
  }

  predicate OldestTaken(ch: Channel, ch': Channel) {
    ch' == ch.(queue := ch'.queue) && ch'.queue == if |ch.queue| == 0 then [] else ch.queue[1..]
  }

  function TakeTurn(env: Env, c: ClientId, w: Link, turn: Turn): Link {
    match turn
    case Take(at) =>
      if |w.inbox| == 0 then w
      else w.(broker := Step(env, w.broker, Stamped(at, w.inbox[0])), inbox := w.inbox[1..])
    case TickAt(at) => w.(broker := Step(env, w.broker, Stamped(at, Tick)))
    case Arrive(input) => w.(inbox := w.inbox + [input])
    case Forward(written) => if w.running then ForwardTurn(c, w, written) else w
    case Receive(frame) =>
      if !w.running then w
      else if frame.Ended? then Exit(c, w)
      else w.(inbox := w.inbox + CommandOf(c, frame))
  }

  function Play(env: Env, c: ClientId, w: Link, turns: seq<Turn>): Link {
    if |turns| == 0 then w else TakeTurn(env, c, Play(env, c, w, turns[..|turns| - 1]), turns[|turns| - 1])
  }

  /** The client's sender has left the broker; its queue can only be drained. */
  ghost predicate LetGo(w: Link, c: ClientId) {
    c < w.broker.nextClient && c !in w.broker.clients && c in w.broker.dropped
  }

  /** Forward turns the handler still needs before it must leave. */
  function Remaining(w: Link, c: ClientId): nat
    requires c in w.broker.dropped
  {
    if w.running then |w.broker.dropped[c].queue| + 1 else 0
  }

  /** The unregistration is among the next `ahead` commands, or the client's session is already closed. */
  ghost predicate OnItsWay(w: Link, c: ClientId, ahead: nat) {
    || (exists i :: 0 <= i < ahead && i < |w.inbox| && w.inbox[i] == Unregister(c))
    || !HeldBy(w.broker, c)
  }

  predicate HeldBy(s: State, c: ClientId) {
    s.session.Some? && s.session.value.client == c
  }

  lemma StepKeepsLetGo(env: Env, w: Link, c: ClientId, x: Stamped)
    requires LetGo(w, c)
    ensures var s' := Step(env, w.broker, x);
      && c < s'.nextClient && c !in s'.clients && c in s'.dropped && s'.dropped[c] == w.broker.dropped[c]
      && (HeldBy(s', c) ==> HeldBy(w.broker, c))
      && (x.input == Unregister(c) ==> !HeldBy(s', c))
  {
    hide Handle;
    var s := w.broker.(clock := x.at);
    HandleEffect(env, s, x.at, x.input);
    GoneClientStaysGoneInAStep(env, s, x.at, x.input, c);
    if x.input == Unregister(c) {
      UnregisterClosesItsSession(env, s, x.at, c);
    }
  }

  lemma UnregisterClosesItsSession(env: Env, s: State, at: Time, c: ClientId)
    ensures !HeldBy(Handle(env, s, at, Unregister(c)), c)
  {
    hide UnregisterClient;
    UnregisterEffect(env, s, at, c);
  }

  /**
   * One turn of a client that was let go: its queue never grows, what was delivered never changes, and a forward
   * turn of its running handler takes exactly one message off the queue or makes the handler leave and unregister.
   */
  lemma TurnShrinksTheQueue(env: Env, c: ClientId, w: Link, turn: Turn)
    requires LetGo(w, c)
    ensures var w' := TakeTurn(env, c, w, turn);
      && LetGo(w', c)
      && w'.broker.dropped[c].delivered == w.broker.dropped[c].delivered
      && Remaining(w', c) <= Remaining(w, c)
      && (turn.Forward? && w.running ==> Remaining(w', c) < Remaining(w, c))
      && (w'.running ==> w.running)
  {
    hide Step;
    match turn
    case Take(at) =>
      if |w.inbox| > 0 {
        StepKeepsLetGo(env, w, c, Stamped(at, w.inbox[0]));
      }
    case TickAt(at) => StepKeepsLetGo(env, w, c, Stamped(at, Tick));
    case _ =>
  }

  // ----- over whole runs -----

  function Forwards(turns: seq<Turn>): nat {
    if |turns| == 0 then 0
    else Forwards(turns[..|turns| - 1]) + (if turns[|turns| - 1].Forward? then 1 else 0)
  }

  function Takes(turns: seq<Turn>): nat {
    if |turns| == 0 then 0
    else Takes(turns[..|turns| - 1]) + (if turns[|turns| - 1].Take? then 1 else 0)
  }

  /** The remaining queue bounds the forward turns a running handler can still have. */
  lemma {:induction false} RemainingIsAMeasure(env: Env, c: ClientId, w: Link, turns: seq<Turn>)
    requires LetGo(w, c)
    ensures var w' := Play(env, c, w, turns);
      && LetGo(w', c)
      && w'.broker.dropped[c].delivered == w.broker.dropped[c].delivered
      && (w'.running ==> w.running && Remaining(w', c) + Forwards(turns) <= Remaining(w, c))
  {
    hide TakeTurn;
    if |turns| > 0 {
      var n := |turns| - 1;
      RemainingIsAMeasure(env, c, w, turns[..n]);
      TurnShrinksTheQueue(env, c, Play(env, c, w, turns[..n]), turns[n]);
    }
  }

  lemma TurnBringsUnregistrationCloser(env: Env, c: ClientId, w: Link, turn: Turn, ahead: nat)
    requires LetGo(w, c) && OnItsWay(w, c, ahead)
    ensures OnItsWay(TakeTurn(env, c, w, turn), c, if turn.Take? && ahead > 0 then ahead - 1 else ahead)
  {
    hide Step;
    var w' := TakeTurn(env, c, w, turn);
    if turn.Take? && |w.inbox| > 0 {
      StepKeepsLetGo(env, w, c, Stamped(turn.at, w.inbox[0]));
      if HeldBy(w'.broker, c) {
        var i :| 0 <= i < ahead && i < |w.inbox| && w.inbox[i] == Unregister(c);
        assert w'.inbox[i - 1] == w.inbox[i];
      }
    } else if turn.TickAt? {
      StepKeepsLetGo(env, w, c, Stamped(turn.at, Tick));
    } else if i :| 0 <= i < ahead && i < |w.inbox| && w.inbox[i] == Unregister(c) {
      assert w'.inbox[i] == w.inbox[i];
    }
  }

  lemma {:induction false} UnregistrationArrives(env: Env, c: ClientId, w: Link, turns: seq<Turn>, ahead: nat)
    requires LetGo(w, c) && OnItsWay(w, c, ahead)
    ensures OnItsWay(Play(env, c, w, turns), c, if Takes(turns) <= ahead then ahead - Takes(turns) else 0)
  {
    hide TakeTurn, OnItsWay;
    if |turns| > 0 {
      var n := |turns| - 1;
      UnregistrationArrives(env, c, w, turns[..n], ahead);
      RemainingIsAMeasure(env, c, w, turns[..n]);
      var left := if Takes(turns[..n]) <= ahead then ahead - Takes(turns[..n]) else 0;
      TurnBringsUnregistrationCloser(env, c, Play(env, c, w, turns[..n]), turns[n], left);
    }
  }

  lemma LeavingUnregisters(env: Env, c: ClientId, w: Link, turn: Turn)
    requires LetGo(w, c) && w.running && !TakeTurn(env, c, w, turn).running
    ensures var w' := TakeTurn(env, c, w, turn);
      OnItsWay(w', c, |w'.inbox|)
  {
    hide Step;
    var w' := TakeTurn(env, c, w, turn);
    assert w'.inbox[|w'.inbox| - 1] == Unregister(c);
  }

  lemma {:induction false} HandlerThatLeftHasUnregistered(env: Env, c: ClientId, w: Link, turns: seq<Turn>)
    requires LetGo(w, c) && w.running
    ensures var w' := Play(env, c, w, turns);
      !w'.running ==> OnItsWay(w', c, |w'.inbox|)
  {
    hide TakeTurn, OnItsWay;
    if |turns| > 0 {
      var n := |turns| - 1;
      HandlerThatLeftHasUnregistered(env, c, w, turns[..n]);
      RemainingIsAMeasure(env, c, w, turns[..n]);
      var w1 := Play(env, c, w, turns[..n]);
      if w1.running {
        if !TakeTurn(env, c, w1, turns[n]).running {
          LeavingUnregisters(env, c, w1, turns[n]);
        }
      } else {
        TurnBringsUnregistrationCloser(env, c, w1, turns[n], |w1.inbox|);
        InboxBoundsTheWait(env, c, w1, turns[n]);
      }
    }
  }

  lemma InboxBoundsTheWait(env: Env, c: ClientId, w: Link, turn: Turn)
    requires !w.running
    requires OnItsWay(TakeTurn(env, c, w, turn), c, if turn.Take? && |w.inbox| > 0 then |w.inbox| - 1 else |w.inbox|)
    ensures var w' := TakeTurn(env, c, w, turn);
      !w'.running && OnItsWay(w', c, |w'.inbox|)
  {
    hide Step;
  }

  /**
   * A holder whose sender the broker has let go loses its session, with an explicit bound. Once its handler has
   * had one more forward turn than messages left in its queue, it has left; and once the broker has then
   * taken as many commands as are queued, the client holds no session. Everything else may interleave freely.
   */
  lemma DroppedHolderIsRevoked(env: Env, c: ClientId, w: Link, first: seq<Turn>, second: seq<Turn>)
    requires LetGo(w, c) && w.running
    requires Forwards(first) > |w.broker.dropped[c].queue|
    requires Takes(second) >= |Play(env, c, w, first).inbox|
    ensures !Play(env, c, w, first).running
    ensures !HeldBy(Play(env, c, Play(env, c, w, first), second).broker, c)
  {
    hide Play;
    RemainingIsAMeasure(env, c, w, first);
    HandlerThatLeftHasUnregistered(env, c, w, first);
    var w1 := Play(env, c, w, first);
    UnregistrationArrives(env, c, w1, second, |w1.inbox|);
  }

  /** The holder of an open session that is no longer served is such a client, in every run. */
  lemma UnservedHolderWasLetGo(d: Daemon, trace: seq<Stamped>, c: ClientId, inbox: seq<Input>)
    requires Timely(d.started, trace) && HeldBy(d.After(trace), c) && c !in d.After(trace).clients
    ensures LetGo(Link(d.After(trace), inbox, true), c)
  {
    hide Ledger, ClientsAgree, CleanStart, Coupled;
    EveryRunKeepsInv(d, trace);
  }
}
