/** Streams of logical edges: what a listener concludes from them, and when they are well formed. */
module Edges {
  import opened Protocol

  /** The switches a listener believes pressed after one more edge. */
  function Toggle(pressed: set<SwitchId>, edge: LogicalTransition): set<SwitchId> {
    if edge.action == Pressed then pressed + {edge.switchId} else pressed - {edge.switchId}
  }

  /** The switches a listener believes pressed after a stream of edges. */
  function Replay(pressed: set<SwitchId>, edges: seq<LogicalTransition>): set<SwitchId> {
    if |edges| == 0 then pressed
    else Toggle(Replay(pressed, edges[..|edges| - 1]), edges[|edges| - 1])
  }

  /** Each press finds its switch released and each release finds it pressed. */
  predicate Alternates(pressed: set<SwitchId>, edges: seq<LogicalTransition>) {
    |edges| == 0 ||
    (Alternates(pressed, edges[..|edges| - 1]) &&
     var last := edges[|edges| - 1];
     (last.action == Pressed <==> last.switchId !in Replay(pressed, edges[..|edges| - 1])))
  }

  function SwitchesOf(edges: seq<LogicalTransition>): set<SwitchId> {
    set i | 0 <= i < |edges| :: edges[i].switchId
  }

  function CountReleased(edges: seq<LogicalTransition>): nat {
    if |edges| == 0 then 0
    else CountReleased(edges[..|edges| - 1]) + (if edges[|edges| - 1].action == Released then 1 else 0)
  }

  /** The actions of one switch, in order. */
  function ActionsOf(edges: seq<LogicalTransition>, s: SwitchId): seq<Action> {
    if |edges| == 0 then []
    else
      var last := edges[|edges| - 1];
      ActionsOf(edges[..|edges| - 1], s) + (if last.switchId == s then [last.action] else [])
  }

  function EdgesOf(events: seq<SwitchEvent>): seq<LogicalTransition> {
    seq(|events|, i requires 0 <= i < |events| => events[i].edge)
  }

  lemma ReplayOne(pressed: set<SwitchId>, edges: seq<LogicalTransition>, e: LogicalTransition)
    ensures Replay(pressed, edges + [e]) == Toggle(Replay(pressed, edges), e)
    ensures Alternates(pressed, edges + [e]) <==>
            Alternates(pressed, edges) && (e.action == Pressed <==> e.switchId !in Replay(pressed, edges))
    ensures SwitchesOf(edges + [e]) == SwitchesOf(edges) + {e.switchId}
  {
    assert (edges + [e])[..|edges|] == edges;
    assert forall i :: 0 <= i < |edges| ==> (edges + [e])[i] == edges[i];
    assert (edges + [e])[|edges|] == e;
  }

  lemma {:induction false} ReplaySplits(pressed: set<SwitchId>, a: seq<LogicalTransition>, b: seq<LogicalTransition>)
    ensures Replay(pressed, a + b) == Replay(Replay(pressed, a), b)
    ensures Alternates(pressed, a + b) <==> Alternates(pressed, a) && Alternates(Replay(pressed, a), b)
    decreases |b|
  {
    if |b| == 0 {
      assert a + b == a;
    } else {
      var init, last := b[..|b| - 1], b[|b| - 1];
      ReplaySplits(pressed, a, init);
      assert a + b == (a + init) + [last];
      assert b == init + [last];
      ReplayOne(pressed, a + init, last);
      ReplayOne(Replay(pressed, a), init, last);
    }
  }

  /**
   * Conservation: from an all-released start, a well-formed stream holds two edges for every release
   * plus one for every switch still pressed.
   */
  lemma {:induction false} EdgesAreConserved(edges: seq<LogicalTransition>)
    requires Alternates({}, edges)
    ensures |edges| == 2 * CountReleased(edges) + |Replay({}, edges)|
  {
    if |edges| > 0 {
      EdgesAreConserved(edges[..|edges| - 1]);
    }
  }

  predicate PressThenRelease(actions: seq<Action>) {
    forall k :: 0 <= k < |actions| ==> (actions[k] == Pressed <==> k % 2 == 0)
  }

  /** Presses and releases in strict alternation, each press with its release. */
  predicate WholePresses(actions: seq<Action>) {
    PressThenRelease(actions) && |actions| % 2 == 0
  }

  /**
   * In a well-formed stream every switch reads pressed, released, pressed, ...; it ends released
   * exactly when it has had as many releases as presses.
   */
  lemma {:induction false} EachSwitchAlternates(edges: seq<LogicalTransition>, s: SwitchId)
    requires Alternates({}, edges)
    ensures PressThenRelease(ActionsOf(edges, s))
    ensures |ActionsOf(edges, s)| % 2 == 1 <==> s in Replay({}, edges)
  {
    if |edges| > 0 {
      EachSwitchAlternates(edges[..|edges| - 1], s);
    }
  }

  /** Releasing distinct pressed switches is well formed and removes exactly those. */
  lemma {:induction false} ReleasesDrain(pressed: set<SwitchId>, edges: seq<LogicalTransition>)
    requires forall i :: 0 <= i < |edges| ==> edges[i].action == Released && edges[i].switchId in pressed
    requires forall i, j :: 0 <= i < j < |edges| ==> edges[i].switchId != edges[j].switchId
    ensures Alternates(pressed, edges)
    ensures Replay(pressed, edges) == pressed - SwitchesOf(edges)
  {
    if |edges| > 0 {
      var init, last := edges[..|edges| - 1], edges[|edges| - 1];
      ReleasesDrain(pressed, init);
      assert edges == init + [last];
      ReplayOne(pressed, init, last);
    }
  }

  lemma EdgesOfSplits(a: seq<SwitchEvent>, b: seq<SwitchEvent>)
    ensures EdgesOf(a + b) == EdgesOf(a) + EdgesOf(b)
  {
  }
}
