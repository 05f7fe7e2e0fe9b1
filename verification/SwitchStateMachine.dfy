/** The aggregator as it is kept: an index from each switch to its active mappings, updated in place. */
module SwitchStateMachines {
  import opened Protocol
  import opened TextOrder
  import opened Switchboard

  type Index = map<SwitchId, set<MappingId>>

  /** The index partitions mappings by switch, covers the table, and has exactly the keys of the ordered list. */
  ghost predicate Partition(table: map<MappingId, SwitchId>, order: seq<SwitchId>, index: Index) {
    && StrictlySorted(order)
    && (forall s :: s in order <==> s in index)
    && (forall m :: m in table ==> table[m] in index)
    && (forall s, m :: s in index && m in index[s] ==> m in table && table[m] == s)
  }

  /** The flat set of held mappings an index stands for. */
  ghost function Flatten(table: map<MappingId, SwitchId>, index: Index): set<MappingId> {
    set m | m in table && table[m] in index && m in index[table[m]]
  }

  /** The index agrees with the flat set switch by switch, so looking a switch up never fails. */
  lemma IndexAgreesWithHeldSet(table: map<MappingId, SwitchId>, order: seq<SwitchId>, index: Index)
    requires Partition(table, order, index)
    ensures Board(table, order, Flatten(table, index)).Valid()
    ensures forall s :: s in index ==>
      (index[s] != {} <==> s in Board(table, order, Flatten(table, index)).Pressed())
  {
    forall s | s in index ensures index[s] != {} <==> s in Board(table, order, Flatten(table, index)).Pressed() {
      if m :| m in index[s] {
        assert m in Flatten(table, index);
      }
    }
  }

  lemma UpdateKeepsPartition(
    table: map<MappingId, SwitchId>, order: seq<SwitchId>, index: Index, m: MappingId, active: set<MappingId>)
    requires Partition(table, order, index) && m in table
    requires active - {m} == index[table[m]] - {m}
    ensures Partition(table, order, index[table[m] := active])
    ensures Flatten(table, index[table[m] := active]) ==
      if m in active then Flatten(table, index) + {m} else Flatten(table, index) - {m}
  {
    var next := index[table[m] := active];
    forall k ensures k in Flatten(table, next) <==>
                     k in if m in active then Flatten(table, index) + {m} else Flatten(table, index) - {m} {
      if k != m && k in table {
        assert k in active <==> k in active - {m};
      }
    }
    forall s, k | s in next && k in next[s] ensures k in table && table[k] == s {
      assert k != m && s == table[m] ==> k in active - {m};
    }
  }

  /** The index after the sets of some switches have been emptied. */
  ghost function Cleared(index: Index, done: seq<SwitchId>): Index {
    map s | s in index :: if s in done then {} else index[s]
  }

  /** The releases collected while visiting some keys. */
  ghost function Drained(index: Index, done: seq<SwitchId>): seq<LogicalTransition> {
    Releases(done, set s | s in index && index[s] != {})
  }

  lemma ClearOne(index: Index, order: seq<SwitchId>, i: nat)
    requires StrictlySorted(order) && i < |order| && order[i] in index
    ensures Cleared(index, order[..i])[order[i]] == index[order[i]]
    ensures Cleared(index, order[..i + 1]) == Cleared(index, order[..i])[order[i] := {}]
    ensures index[order[i]] == {} ==> Cleared(index, order[..i + 1]) == Cleared(index, order[..i])
    ensures Drained(index, order[..i + 1]) == Drained(index, order[..i]) +
      if index[order[i]] == {} then [] else [LogicalTransition(order[i], Released, Some(0.0))]
  {
    forall k | 0 <= k < i ensures order[k] != order[i] { SortedKeysAreDistinct(order, k, i); }
    assert order[..i + 1] == order[..i] + [order[i]];
    assert order[..i + 1][..i] == order[..i];
  }

  lemma AllCleared(table: map<MappingId, SwitchId>, order: seq<SwitchId>, index: Index)
    requires Partition(table, order, index)
    ensures Partition(table, order, Cleared(index, order))
    ensures (Board(table, order, Flatten(table, Cleared(index, order))), Drained(index, order)) ==
            Board(table, order, Flatten(table, index)).ReleaseAll()
  {
    IndexAgreesWithHeldSet(table, order, index);
    assert (set s | s in index && index[s] != {}) == Board(table, order, Flatten(table, index)).Pressed();
    assert Flatten(table, Cleared(index, order)) == {};
  }

  lemma SingletonTest(active: set<MappingId>, m: MappingId)
    requires m in active
    ensures |active| == 1 <==> active - {m} == {}
  {
    assert active == (active - {m}) + {m};
  }

  /** Pressing the first mapping of a switch is exactly a change of the flat image. */
  lemma PressIsOuterEdge(
    table: map<MappingId, SwitchId>, order: seq<SwitchId>, index: Index, m: MappingId, confidence: Option<real>)
    requires Partition(table, order, index) && m in table && m !in index[table[m]]
    ensures var s := table[m];
      var active := index[s] + {m};
      && Partition(table, order, index[s := active])
      && (Board(table, order, Flatten(table, index[s := active])),
          Verdict.Ok(if |active| == 1 then Some(LogicalTransition(s, Pressed, confidence)) else None)) ==
         Board(table, order, Flatten(table, index)).Apply(m, Pressed, confidence)
  {
    var s, b := table[m], Board(table, order, Flatten(table, index));
    var active := index[s] + {m};
    IndexAgreesWithHeldSet(table, order, index);
    ApplyReportsExactlyTheOuterEdge(b, m, Pressed, confidence);
    assert active - {m} == index[s];
    UpdateKeepsPartition(table, order, index, m, active);
    SingletonTest(active, m);
    assert m !in b.held;
    PressChangesImage(b, m);
  }

  lemma PressChangesImage(b: Board, m: MappingId)
    requires b.Valid() && m in b.table && m !in b.held
    ensures b.(held := b.held + {m}).Pressed() == b.Pressed() + {b.table[m]}
  {
  }

  /** Releasing the last mapping of a switch is exactly a change of the flat image. */
  lemma ReleaseIsOuterEdge(
    table: map<MappingId, SwitchId>, order: seq<SwitchId>, index: Index, m: MappingId, confidence: Option<real>)
    requires Partition(table, order, index) && m in table && m in index[table[m]]
    ensures var s := table[m];
      var active := index[s] - {m};
      && Partition(table, order, index[s := active])
      && (Board(table, order, Flatten(table, index[s := active])),
          Verdict.Ok(if active == {} then Some(LogicalTransition(s, Released, confidence)) else None)) ==
         Board(table, order, Flatten(table, index)).Apply(m, Released, confidence)
  {
    var s, b := table[m], Board(table, order, Flatten(table, index));
    var active := index[s] - {m};
    assert m in b.held;
    UpdateKeepsPartition(table, order, index, m, active);
    IndexAgreesWithHeldSet(table, order, index[s := active]);
    ReleaseChangesImage(b, m);
  }

  lemma ReleaseChangesImage(b: Board, m: MappingId)
    requires b.Valid() && m in b.held
    ensures var next := b.(held := b.held - {m});
      next.Pressed() == b.Pressed() <==> b.table[m] in next.Pressed()
  {
    var next := b.(held := b.held - {m});
    assert b.table[m] in b.Pressed();
    forall t | t in b.Pressed() && t != b.table[m] ensures t in next.Pressed() {
      var k :| k in b.held && k in b.table && b.table[k] == t;
      assert k in next.held;
    }
  }

  class SwitchStateMachine {
    var mappingToSwitch: map<MappingId, SwitchId>
    /** The keys of `activeBySwitch`, in the order a sorted map visits them. */
    var switches: seq<SwitchId>
    var activeBySwitch: Index

    ghost predicate Valid()
      reads this
    {
      Partition(mappingToSwitch, switches, activeBySwitch)
    }

    ghost function View(): Board
      reads this
    {
      Board(mappingToSwitch, switches, Flatten(mappingToSwitch, activeBySwitch))
    }

    constructor (mappings: seq<Mapping>)
      ensures Valid() && View() == NewBoard(mappings)
    {
      mappingToSwitch, switches, activeBySwitch := map[], [], map[];
      new;
      for i := 0 to |mappings|
        invariant mappingToSwitch == TableOf(mappings[..i])
        invariant switches == [] && activeBySwitch == map[]
      {
        assert mappings[..i + 1][..i] == mappings[..i];
        mappingToSwitch := mappingToSwitch[mappings[i].id := mappings[i].switchId];
      }
      assert mappings[..|mappings|] == mappings;
      for i := 0 to |mappings|
        invariant mappingToSwitch == TableOf(mappings)
        invariant switches == OrderOf(mappings[..i])
        invariant forall s :: s in switches <==> s in activeBySwitch
        invariant forall s :: s in activeBySwitch ==> activeBySwitch[s] == {}
      {
        assert mappings[..i + 1][..i] == mappings[..i];
        switches := InsertKey(switches, mappings[i].switchId);
        if mappings[i].switchId !in activeBySwitch {
          activeBySwitch := activeBySwitch[mappings[i].switchId := {}];
        }
      }
      NewBoardListsEverySwitch(mappings);
    }

    method Apply(m: MappingId, action: Action, confidence: Option<real>) returns (verdict: Verdict)
      requires Valid()
      modifies this`activeBySwitch
      ensures Valid()
      ensures (View(), verdict) == old(View()).Apply(m, action, confidence)
    {
      if m !in mappingToSwitch {
        return Err(UnknownMapping(m));
      }
      var s := mappingToSwitch[m];
      var active := activeBySwitch[s];
      match action
      case Pressed =>
        if m in active {
          return Err(InvalidTransition(m, action));
        }
        PressIsOuterEdge(mappingToSwitch, switches, activeBySwitch, m, confidence);
        active := active + {m};
        activeBySwitch := activeBySwitch[s := active];
        verdict := Ok(if |active| == 1 then Some(LogicalTransition(s, action, confidence)) else None);
      case Released =>
        if m !in active {
          return Err(InvalidTransition(m, action));
        }
        ReleaseIsOuterEdge(mappingToSwitch, switches, activeBySwitch, m, confidence);
        active := active - {m};
        activeBySwitch := activeBySwitch[s := active];
        verdict := Ok(if active == {} then Some(LogicalTransition(s, action, confidence)) else None);
    }

    method Snapshots() returns (r: seq<SwitchSnapshot>)
      requires Valid()
      ensures r == View().Snapshots()
    {
      IndexAgreesWithHeldSet(mappingToSwitch, switches, activeBySwitch);
      r := [];
      for i := 0 to |switches|
        invariant r == View().Snapshots()[..i]
      {
        assert switches[i] in activeBySwitch;
        r := r + [SwitchSnapshot(switches[i], if activeBySwitch[switches[i]] == {} then IsReleased else IsPressed, None)];
      }
    }

    method ReleaseAll() returns (r: seq<LogicalTransition>)
      requires Valid()
      modifies this`activeBySwitch
      ensures Valid()
      ensures (View(), r) == old(View()).ReleaseAll()
    {
      ghost var index := activeBySwitch;
      r := [];
      for i := 0 to |switches|
        invariant activeBySwitch == Cleared(index, switches[..i])
        invariant r == Drained(index, switches[..i])
      {
        ClearOne(index, switches, i);
        if activeBySwitch[switches[i]] != {} {
          activeBySwitch := activeBySwitch[switches[i] := {}];
          r := r + [LogicalTransition(switches[i], Released, Some(0.0))];
        }
      }
      assert switches[..|switches|] == switches;
      AllCleared(mappingToSwitch, switches, index);
    }
  }
}
