/**
 * The many-to-one switch aggregator, specified on a flat set of held mappings.
 * A switch is pressed when at least one mapping onto it is held.
 */
module Switchboard {
  import opened Protocol
  import opened TextOrder
  import opened Edges

  datatype Mapping = Mapping(id: MappingId, switchId: SwitchId)
  datatype StateError = UnknownMapping(id: MappingId) | InvalidTransition(mapping: MappingId, action: Action)
  type Verdict = Result<Option<LogicalTransition>, StateError>

  datatype Board = Board(table: map<MappingId, SwitchId>, order: seq<SwitchId>, held: set<MappingId>) {

    ghost predicate Valid() {
      && StrictlySorted(order)
      && held <= table.Keys
      && (forall m :: m in table ==> table[m] in order)
    }

    /** The image of the held set under the mapping table. */
    function Pressed(): set<SwitchId> {
      set m | m in held && m in table :: table[m]
    }

    function Snapshots(): seq<SwitchSnapshot> {
      Render(order, Pressed())
    }

    /** An outer edge is reported exactly when the image of the held set changes. */
    function Apply(m: MappingId, action: Action, confidence: Option<real>): (r: (Board, Verdict))
    {
      if m !in table then
        (this, Err(UnknownMapping(m)))
      else if (m in held) == (action == Action.Pressed) then
        (this, Err(InvalidTransition(m, action)))
      else
        var next := this.(held := if action == Action.Pressed then held + {m} else held - {m});
        (next, Ok(if next.Pressed() == Pressed() then None
                  else Some(LogicalTransition(table[m], action, confidence))))
    }

    /** The pressed switches in key order, each released at zero confidence. */
    function ReleaseAll(): (Board, seq<LogicalTransition>) {
      (this.(held := {}), Releases(order, Pressed()))
    }
  }

  function Render(order: seq<SwitchId>, pressed: set<SwitchId>): seq<SwitchSnapshot> {
    seq(|order|, i requires 0 <= i < |order| =>
      SwitchSnapshot(order[i], if order[i] in pressed then IsPressed else IsReleased, None))
  }

  function Releases(order: seq<SwitchId>, pressed: set<SwitchId>): seq<LogicalTransition> {
    if |order| == 0 then []
    else
      var earlier, last := Releases(order[..|order| - 1], pressed), order[|order| - 1];
      if last in pressed then earlier + [LogicalTransition(last, Released, Some(0.0))] else earlier
  }

  /** A later entry with the same mapping id replaces an earlier one. */
  function TableOf(mappings: seq<Mapping>): map<MappingId, SwitchId> {
    if |mappings| == 0 then map[]
    else TableOf(mappings[..|mappings| - 1])[mappings[|mappings| - 1].id := mappings[|mappings| - 1].switchId]
  }

  function OrderOf(mappings: seq<Mapping>): (r: seq<SwitchId>)
    ensures StrictlySorted(r)
  {
    if |mappings| == 0 then []
    else InsertKey(OrderOf(mappings[..|mappings| - 1]), mappings[|mappings| - 1].switchId)
  }

  function NewBoard(mappings: seq<Mapping>): Board {
    Board(TableOf(mappings), OrderOf(mappings), {})
  }

  // ----- construction -----

  function SwitchIds(mappings: seq<Mapping>): set<SwitchId> {
    set i | 0 <= i < |mappings| :: mappings[i].switchId
  }

  function MappingIds(mappings: seq<Mapping>): set<MappingId> {
    set i | 0 <= i < |mappings| :: mappings[i].id
  }

  /** Entry `i` is the last one for its mapping id, and so the one that counts. */
  predicate Configures(mappings: seq<Mapping>, i: nat) {
    i < |mappings| && forall j :: i < j < |mappings| ==> mappings[j].id != mappings[i].id
  }

  lemma {:induction false} TablesCoverTheMappings(mappings: seq<Mapping>)
    ensures TableOf(mappings).Keys == MappingIds(mappings)
    ensures forall s :: s in OrderOf(mappings) <==> s in SwitchIds(mappings)
    ensures forall m :: m in TableOf(mappings) ==> TableOf(mappings)[m] in OrderOf(mappings)
  {
    if |mappings| > 0 {
      var init, last := mappings[..|mappings| - 1], mappings[|mappings| - 1];
      TablesCoverTheMappings(init);
      assert mappings == init + [last];
      LastMapping(init, last);
    }
  }

  /**
   * Every configured switch is listed once, in order; nothing is held; and a mapping id is known exactly if some
   * entry has it, and drives the switch of the last such entry.
   */
  lemma NewBoardListsEverySwitch(mappings: seq<Mapping>)
    ensures NewBoard(mappings).Valid() && NewBoard(mappings).held == {} && NewBoard(mappings).Pressed() == {}
    ensures forall s :: s in NewBoard(mappings).order <==> s in SwitchIds(mappings)
    ensures NewBoard(mappings).table.Keys == MappingIds(mappings)
    ensures forall i: nat :: Configures(mappings, i) ==>
      NewBoard(mappings).table[mappings[i].id] == mappings[i].switchId
  {
    hide TableOf, OrderOf, SwitchIds, MappingIds, Configures;
    TablesCoverTheMappings(mappings);
    forall i: nat | Configures(mappings, i) ensures i < |mappings| && mappings[i].id in TableOf(mappings) {
      EntryThatCounts(mappings, i);
    }
    forall i: nat | Configures(mappings, i) ensures TableOf(mappings)[mappings[i].id] == mappings[i].switchId {
      EntryThatCounts(mappings, i);
    }
  }

  lemma {:induction false} EntryThatCounts(mappings: seq<Mapping>, i: nat)
    requires Configures(mappings, i)
    ensures i < |mappings| && mappings[i].id in TableOf(mappings) && TableOf(mappings)[mappings[i].id] == mappings[i].switchId
  {
    var init, last := mappings[..|mappings| - 1], mappings[|mappings| - 1];
    if i < |init| {
      EntryThatCounts(init, i);
      assert last.id != mappings[i].id;
    }
  }

  /** Every known mapping has an entry that counts. */
  lemma {:induction false} LastEntryCounts(mappings: seq<Mapping>, m: MappingId) returns (i: nat)
    requires m in MappingIds(mappings)
    ensures Configures(mappings, i) && mappings[i].id == m
  {
    var init, last := mappings[..|mappings| - 1], mappings[|mappings| - 1];
    assert mappings == init + [last];
    if last.id == m {
      i := |init|;
    } else {
      LastMapping(init, last);
      i := LastEntryCounts(init, m);
    }
  }

  lemma LastMapping(init: seq<Mapping>, last: Mapping)
    ensures SwitchIds(init + [last]) == SwitchIds(init) + {last.switchId}
    ensures MappingIds(init + [last]) == MappingIds(init) + {last.id}
  {
    var all := init + [last];
    assert all[|init|] == last;
    forall i | 0 <= i < |init| ensures all[i] == init[i] {}
    assert forall i :: 0 <= i < |init| ==> init[i].switchId == all[i].switchId && init[i].id == all[i].id;
  }

  // ----- single operations -----

  lemma PressedAreListed(b: Board)
    requires b.Valid()
    ensures forall s :: s in b.Pressed() ==> s in b.order
  {
  }

  /**
   * `Apply` keeps the board valid; an error changes nothing; a reported edge is exactly the change of the
   * pressed set, is well formed against it, and without one the pressed set is unchanged.
   */
  lemma ApplyReportsExactlyTheOuterEdge(b: Board, m: MappingId, action: Action, confidence: Option<real>)
    requires b.Valid()
    ensures var (b', v) := b.Apply(m, action, confidence);
      && b'.Valid() && b'.table == b.table && b'.order == b.order
      && (v.Err? ==> b' == b)
      && (v.Err? <==> m !in b.table || (m in b.held <==> action == Action.Pressed))
      && (v.Ok? ==> b'.held == if action == Action.Pressed then b.held + {m} else b.held - {m})
      && (v.Ok? && v.value.None? ==> b'.Pressed() == b.Pressed())
      && (v.Ok? && v.value.Some? ==>
            && v.value.value == LogicalTransition(b.table[m], action, confidence)
            && b'.Pressed() == Toggle(b.Pressed(), v.value.value)
            && (action == Action.Pressed <==> b.table[m] !in b.Pressed()))
  {
    var (b', v) := b.Apply(m, action, confidence);
    if v.Ok? {
      var s := b.table[m];
      assert m in b'.held || m in b.held;
      if action == Action.Pressed {
        assert b'.Pressed() == b.Pressed() + {s};
      } else {
        forall t | t != s ensures t in b.Pressed() <==> t in b'.Pressed() {
          if t in b.Pressed() {
            var k :| k in b.held && k in b.table && b.table[k] == t;
            assert k in b'.held;
          }
        }
        assert s in b.Pressed();
        assert b'.Pressed() == b.Pressed() - (if s in b'.Pressed() then {} else {s});
      }
    }
  }

  /** A list of zero-confidence releases in strictly increasing key order. */
  predicate IncreasingReleases(edges: seq<LogicalTransition>) {
    && (forall i, j :: 0 <= i < j < |edges| ==> Less(edges[i].switchId, edges[j].switchId))
    && (forall i :: 0 <= i < |edges| ==> edges[i].action == Released && edges[i].confidence == Some(0.0))
  }

  function KeysOf(order: seq<SwitchId>): set<SwitchId> {
    set s | s in order
  }

  lemma {:induction false} ReleasesAreOrdered(order: seq<SwitchId>, pressed: set<SwitchId>)
    requires StrictlySorted(order)
    ensures IncreasingReleases(Releases(order, pressed))
    ensures SwitchesOf(Releases(order, pressed)) == KeysOf(order) * pressed
  {
    hide IncreasingReleases, SwitchesOf, KeysOf;
    if |order| == 0 {
      NoReleases();
    } else {
      var init, last := order[..|order| - 1], order[|order| - 1];
      ReleasesAreOrdered(init, pressed);
      AddRelease(Releases(init, pressed), init, last, pressed);
      assert order == init + [last];
    }
  }

  lemma NoReleases()
    ensures IncreasingReleases([]) && SwitchesOf([]) == {} && KeysOf([]) == {}
  {
  }

  lemma AddRelease(r: seq<LogicalTransition>, order: seq<SwitchId>, last: SwitchId, pressed: set<SwitchId>)
    requires IncreasingReleases(r) && StrictlySorted(order + [last])
    requires SwitchesOf(r) == KeysOf(order) * pressed
    ensures KeysOf(order + [last]) == KeysOf(order) + {last}
    ensures IncreasingReleases(r + [LogicalTransition(last, Released, Some(0.0))])
    ensures SwitchesOf(r + [LogicalTransition(last, Released, Some(0.0))]) == SwitchesOf(r) + {last}
  {
    forall i | 0 <= i < |r| ensures Less(r[i].switchId, last) {
      assert r[i].switchId in SwitchesOf(r);
      var k :| 0 <= k < |order| && order[k] == r[i].switchId;
      assert (order + [last])[k] == order[k] && (order + [last])[|order|] == last;
    }
    ReplayOne({}, r, LogicalTransition(last, Released, Some(0.0)));
  }

  /**
   * The bulk reset lists each pressed switch once, in strictly increasing order, is a well-formed stream of
   * releases, and leaves every switch released.
   */
  lemma ReleaseAllIsAnOrderedReset(b: Board)
    requires b.Valid()
    ensures var (b', r) := b.ReleaseAll();
      && b'.Valid() && b'.Pressed() == {} && b'.table == b.table && b'.order == b.order
      && IncreasingReleases(r)
      && SwitchesOf(r) == b.Pressed()
      && Alternates(b.Pressed(), r)
      && Replay(b.Pressed(), r) == {}
  {
    var (b', r) := b.ReleaseAll();
    ReleasesAreOrdered(b.order, b.Pressed());
    PressedAreListed(b);
    assert SwitchesOf(r) == b.Pressed();
    forall i, j | 0 <= i < j < |r| ensures r[i].switchId != r[j].switchId {
      LessIsIrreflexive(r[i].switchId);
    }
    forall i | 0 <= i < |r| ensures r[i].switchId in b.Pressed() { assert r[i].switchId in SwitchesOf(r); }
    ReleasesDrain(b.Pressed(), r);
  }

  // ----- whole traces -----

  datatype Operation = ApplyEdge(m: MappingId, action: Action, confidence: Option<real>) | ResetAll

  function Perform(b: Board, op: Operation): (Board, seq<LogicalTransition>) {
    match op
    case ApplyEdge(m, action, confidence) =>
      var (b', v) := b.Apply(m, action, confidence);
      (b', if v.Ok? && v.value.Some? then [v.value.value] else [])
    case ResetAll => b.ReleaseAll()
  }

  /** The board after a trace, with every edge it reported. */
  function Trace(b: Board, ops: seq<Operation>): (Board, seq<LogicalTransition>) {
    if |ops| == 0 then (b, [])
    else
      var (b1, e1) := Trace(b, ops[..|ops| - 1]);
      var (b2, e2) := Perform(b1, ops[|ops| - 1]);
      (b2, e1 + e2)
  }

  lemma PerformStaysWellFormed(b: Board, op: Operation)
    requires b.Valid()
    ensures var (b', e) := Perform(b, op);
      b'.Valid() && b'.order == b.order && Alternates(b.Pressed(), e) && Replay(b.Pressed(), e) == b'.Pressed()
  {
    match op
    case ApplyEdge(m, action, confidence) =>
      ApplyReportsExactlyTheOuterEdge(b, m, action, confidence);
      var (_, e) := Perform(b, op);
      if |e| == 1 {
        ReplayOne(b.Pressed(), [], e[0]);
        assert e == [] + [e[0]];
      }
    case ResetAll =>
      ReleaseAllIsAnOrderedReset(b);
  }

  /**
   * Over every list of mappings and every trace of edges and resets, the reported edges alternate per
   * switch starting with a press, and replaying them tells a listener exactly which switches are pressed.
   */
  lemma {:induction false} TraceTellsListenersTheState(mappings: seq<Mapping>, ops: seq<Operation>)
    ensures var (b, e) := Trace(NewBoard(mappings), ops);
      && b.Valid() && b.order == OrderOf(mappings)
      && Alternates({}, e)
      && Replay({}, e) == b.Pressed()
      && (forall s :: PressThenRelease(ActionsOf(e, s)))
      && |e| == 2 * CountReleased(e) + |b.Pressed()|
  {
    if |ops| == 0 {
      NewBoardListsEverySwitch(mappings);
    } else {
      TraceTellsListenersTheState(mappings, ops[..|ops| - 1]);
      var (b1, e1) := Trace(NewBoard(mappings), ops[..|ops| - 1]);
      PerformStaysWellFormed(b1, ops[|ops| - 1]);
      ReplaySplits({}, e1, Perform(b1, ops[|ops| - 1]).1);
    }
    var (b, e) := Trace(NewBoard(mappings), ops);
    forall s ensures PressThenRelease(ActionsOf(e, s)) { EachSwitchAlternates(e, s); }
    EdgesAreConserved(e);
  }

  /** After a reset, a release of `m` is refused until `m` is pressed again, whatever happens in between. */
  lemma {:induction false} StaleReleaseIsRefused(b: Board, m: MappingId, ops: seq<Operation>, confidence: Option<real>)
    requires b.Valid()
    requires forall i :: 0 <= i < |ops| && ops[i].ApplyEdge? && ops[i].action == Action.Pressed ==> ops[i].m != m
    ensures var b1 := Trace(b.ReleaseAll().0, ops).0;
      b1.table == b.table && m !in b1.held && b1.Apply(m, Released, confidence).1.Err?
  {
    if |ops| > 0 {
      StaleReleaseIsRefused(b, m, ops[..|ops| - 1], confidence);
    }
  }

  // ----- what is pressed, from the configuration and the edges alone -----

  /** Operation `k` pressed the mapping, and since then nothing released it or reset the board. */
  predicate LeftDown(ops: seq<Operation>, m: MappingId, k: nat) {
    && k < |ops| && ops[k].ApplyEdge? && ops[k].m == m && ops[k].action == Action.Pressed
    && forall j :: k < j < |ops| ==> ops[j].ApplyEdge? && !(ops[j].m == m && ops[j].action == Released)
  }

  ghost predicate StillDown(ops: seq<Operation>, m: MappingId) {
    exists k: nat :: LeftDown(ops, m, k)
  }

  lemma StillDownStep(ops: seq<Operation>, op: Operation, m: MappingId)
    ensures StillDown(ops + [op], m) <==>
      op.ApplyEdge? && if op.m == m then op.action == Action.Pressed || (op.action != Released && StillDown(ops, m))
                       else StillDown(ops, m)
  {
    var all := ops + [op];
    if op.ApplyEdge? && op.m == m && op.action == Action.Pressed {
      assert LeftDown(all, m, |ops|);
    } else {
      forall k: nat | LeftDown(ops, m, k) && op.ApplyEdge? && op.m != m ensures LeftDown(all, m, k) {
        assert forall j :: k < j < |all| ==> all[j] == if j < |ops| then ops[j] else op;
      }
      forall k: nat | LeftDown(all, m, k) ensures LeftDown(ops, m, k) && op.ApplyEdge? && op.m != m {
        assert k < |ops|;
        assert all[|ops|] == op;
        assert forall j :: k < j < |ops| ==> ops[j] == all[j];
      }
    }
  }

  lemma NothingLeftDown()
    ensures forall m :: !StillDown([], m)
  {
  }

  /** Over every trace, the mappings held are the configured ones pressed since their last release or reset. */
  lemma {:induction false} HeldIsWhatWasLeftDown(mappings: seq<Mapping>, ops: seq<Operation>)
    ensures var b := Trace(NewBoard(mappings), ops).0;
      && b.table == NewBoard(mappings).table
      && forall m :: m in b.held <==> m in MappingIds(mappings) && StillDown(ops, m)
  {
    hide LeftDown, Board.Pressed;
    NewBoardListsEverySwitch(mappings);
    if |ops| == 0 {
      NothingLeftDown();
    } else {
      var init, last := ops[..|ops| - 1], ops[|ops| - 1];
      HeldIsWhatWasLeftDown(mappings, init);
      TraceTellsListenersTheState(mappings, init);
      assert ops == init + [last];
      forall m ensures m in Trace(NewBoard(mappings), ops).0.held <==> m in MappingIds(mappings) && StillDown(ops, m) {
        StillDownStep(init, last, m);
      }
    }
  }

  /**
   * Over every list of mappings and every trace, a switch is pressed exactly when some mapping configured for it,
   * by the entry that counts, has been pressed since its last release and the last reset.
   */
  lemma PressedIsWhatWasLeftDown(mappings: seq<Mapping>, ops: seq<Operation>, s: SwitchId)
    ensures s in Trace(NewBoard(mappings), ops).0.Pressed() <==>
      exists i: nat :: Configures(mappings, i) && mappings[i].switchId == s && StillDown(ops, mappings[i].id)
  {
    hide StillDown, TableOf, OrderOf;
    NewBoardListsEverySwitch(mappings);
    HeldIsWhatWasLeftDown(mappings, ops);
    var b := Trace(NewBoard(mappings), ops).0;
    if s in b.Pressed() {
      var m :| m in b.held && m in b.table && b.table[m] == s;
      var i := LastEntryCounts(mappings, m);
    }
  }
}
