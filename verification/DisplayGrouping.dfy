/** Grouping as the browser does it: tools are objects, shown in the group of
    their use and completed there when a later message brings their result. */
module DisplayGrouping {
  import opened JsText
  import opened Transcript
  import opened DisplayUnits

  class ToolCell {
    var use: Option<Block>
    var result: Option<Block>
    var state: Option<ToolState>

    constructor (use: Option<Block>, result: Option<Block>, state: Option<ToolState>)
      ensures Value() == Tool(use, result, state)
    {
      this.use, this.result, this.state := use, result, state;
    }

    function Value(): Tool
      reads this
    {
      Tool(use, result, state)
    }
  }

  // ----- positions and objects -----

  lemma ResolvedAppend(units: seq<Unit<nat>>, u: Unit<nat>, cells: seq<ToolCell>)
    requires Within(units + [u], |cells|)
    ensures Within(units, |cells|) && Within([u], |cells|)
    ensures Resolved(units + [u], cells) == Resolved(units, cells) + Resolved([u], cells)
  {
    forall i | 0 <= i < |units| && units[i].ToolUnit? ensures units[i].tool < |cells| {
      assert (units + [u])[i] == units[i];
    }
    assert (units + [u])[|units|] == u;
  }

  lemma ResolvedBlock(units: seq<Unit<nat>>, b: Block, cells: seq<ToolCell>)
    requires Within(units, |cells|)
    ensures Within(units + [BlockUnit(b)], |cells|)
    ensures Resolved(units + [BlockUnit(b)], cells) == Resolved(units, cells) + [BlockUnit(b)]
  {
  }

  lemma ResolvedReasoning(units: seq<Unit<nat>>, b: Block, cells: seq<ToolCell>)
    requires Within(units, |cells|) && b.ReasoningBlock?
    ensures Within(AppendReasoning(units, b), |cells|)
    ensures Resolved(AppendReasoning(units, b), cells) == AppendReasoning(Resolved(units, cells), b)
  {
    hide VisibleText, Joined;
  }

  lemma ResolvedGrows(units: seq<Unit<nat>>, cells: seq<ToolCell>, more: seq<ToolCell>)
    requires Within(units, |cells|)
    ensures Within(units, |cells + more|) && Resolved(units, cells + more) == Resolved(units, cells)
  {
  }

  lemma TrackUse(t: Tracked, us: seq<Unit<nat>>, s: Spot, states: States)
    requires InRange(t) && s.block.ToolUse?
    ensures AddUnit(us, t, s) == us + [ToolUnit(|t.tools|)]
    ensures var id := s.block.toolUseID;
      var tools := t.tools + [Tool(Some(s.block), None, StateOf(states, id))];
      Track(t, s, states) == if id == "" then t.(tools := tools) else Tracked(tools, t.byID[id := |t.tools|], t.turns[id := s.turnID])
  {
  }

  lemma NoUnits(spots: seq<Spot>, n: nat, states: States, cells: seq<ToolCell>)
    requires n <= |spots|
    ensures UnitsOf(spots, n, n, states) == [] && Within([], |cells|) && Resolved([], cells) == []
  {
  }

  lemma SpotAt(m: Message, earlier: seq<Spot>, k: nat)
    ensures |earlier + SpotsOf(m)| == |earlier| + |m.blocks|
    ensures k < |m.blocks| ==> (earlier + SpotsOf(m))[|earlier| + k] == Spot(m.blocks[k], m.turnID)
  {
  }

  lemma BlockStep(all: seq<Spot>, n: nat, k: nat, states: States)
    requires n + k < |all|
    ensures TrackAll(all[..n + k + 1], states) == Track(TrackAll(all[..n + k], states), all[n + k], states)
    ensures UnitsOf(all, n, n + k + 1, states) == AddUnit(UnitsOf(all, n, n + k, states), TrackAll(all[..n + k], states), all[n + k])
  {
    assert all[..n + k + 1][..n + k] == all[..n + k];
  }

  // ----- lost calls -----

  /** The tools while these ids still have to be looked at. */
  function MarkedBut(t: Tracked, activeTurnID: Option<string>, ids: set<string>): (r: seq<Tool>)
    requires InRange(t)
    ensures |r| == |t.tools|
  {
    seq(|t.tools|, i requires 0 <= i < |t.tools| =>
      if Lost(t, i, activeTurnID) && t.tools[i].use.value.toolUseID !in ids then t.tools[i].(state := Some(Errored))
      else t.tools[i])
  }

  lemma MarkedNone(t: Tracked, activeTurnID: Option<string>, ids: set<string>)
    requires InRange(t) && t.byID.Keys <= ids
    ensures MarkedBut(t, activeTurnID, ids) == t.tools
  {
  }

  lemma MarkedAll(t: Tracked, activeTurnID: Option<string>)
    requires InRange(t)
    ensures MarkedBut(t, activeTurnID, {}) == Settled(t, true, activeTurnID)
  {
  }

  lemma MarkedStep(t: Tracked, activeTurnID: Option<string>, ids: set<string>, id: string)
    requires Registered(t) && id in ids && id in t.byID
    ensures var at := t.byID[id];
      && MarkedBut(t, activeTurnID, ids)[at] == t.tools[at]
      && MarkedBut(t, activeTurnID, ids - {id}) == MarkedBut(t, activeTurnID, ids)[at :=
           if t.tools[at].state.None? && t.tools[at].result.None? && (!Truthy(activeTurnID) || t.turns[id] != activeTurnID)
           then t.tools[at].(state := Some(Errored)) else t.tools[at]]
  {
  }

  lemma GroupsStep(messages: seq<Message>, i: nat, states: States, cells: seq<ToolCell>, before: nat)
    requires i < |messages|
    requires Count(Spots(messages[..i]) + SpotsOf(messages[i]), states) == |cells| && before == Count(Spots(messages[..i]), states)
    ensures Spots(messages[..i + 1]) == Spots(messages[..i]) + SpotsOf(messages[i])
    ensures var all, earlier := Spots(messages[..i + 1]), Spots(messages[..i]);
      && Within(UnitsOf(all, |earlier|, |all|, states), |cells|) && before <= |cells|
      && Groups(messages[..i + 1], states, cells) ==
           Groups(messages[..i], states, cells[..before]) + GroupOf(messages[i], i, Resolved(UnitsOf(all, |earlier|, |all|, states), cells))
  {
    hide UnitsOf, GroupOf, Resolved, TrackAll, SpotsOf;
    var ms, earlier := messages[..i + 1], Spots(messages[..i]);
    assert ms[..|ms| - 1] == messages[..i];
    var spots := Spots(ms);
    assert spots == earlier + SpotsOf(messages[i]);
    UnitsWithin(spots, |earlier|, |spots|, states);
    assert spots[..|earlier|] == earlier && spots[..|spots|] == spots;
    CountGrows(spots, |earlier|, |spots|, states);
  }

  // ----- one message after another -----

  class Grouping {
    ghost var cells: seq<ToolCell>
    var toolById: map<string, ToolCell>
    var toolTurnById: map<string, Option<string>>
    var units: seq<Unit<ToolCell>>

    constructor ()
      ensures cells == [] && units == [] && Holds(Tracked([], map[], map[]))
    {
      cells, toolById, toolTurnById, units := [], map[], map[], [];
    }

    /** The objects are the tracked tools, each its own. */
    ghost predicate Holds(t: Tracked)
      reads this`cells, this`toolById, this`toolTurnById, cells
    {
      Objects(t) && forall i | 0 <= i < |cells| :: cells[i].Value() == t.tools[i]
    }

    ghost predicate Objects(t: Tracked)
      reads this`cells, this`toolById, this`toolTurnById
    {
      && InRange(t) && |cells| == |t.tools|
      && (forall i, j | 0 <= i < j < |cells| :: cells[i] != cells[j])
      && toolById.Keys == t.byID.Keys && toolTurnById == t.turns
      && (forall id | id in t.byID :: toolById[id] == cells[t.byID[id]])
    }

    lemma KeepsRange(t: Tracked)
      requires Holds(t)
      ensures InRange(t) && |cells| == |t.tools|
    {
    }

    /** A tool use opens a tool. */
    method AddUse(s: Spot, states: States, ghost t: Tracked, ghost us: seq<Unit<nat>>)
      requires s.block.ToolUse? && Holds(t) && Within(us, |cells|) && units == Resolved(us, cells)
      modifies this
      ensures Holds(Track(t, s, states))
      ensures old(cells) <= cells && |cells| == |old(cells)| + 1 && fresh(cells[|cells| - 1])
      ensures Within(AddUnit(us, t, s), |cells|) && units == Resolved(AddUnit(us, t, s), cells)
    {
      hide Resolved, Within, Holds, Track, AddUnit, InRange, StateOf;
      KeepsRange(t);
      TrackUse(t, us, s, states);
      var id := s.block.toolUseID;
      var cell := new ToolCell(Some(s.block), None, StateOf(states, id));
      assert cell !in cells;
      ghost var tools := t.tools + [cell.Value()];
      AddCell(cell, t, us);
      if id != "" { Register(id, cell, s.turnID, t.(tools := tools)); }
    }

    /** The latest tool of an id. */
    method Register(id: string, cell: ToolCell, turnID: Option<string>, ghost t: Tracked)
      requires Holds(t) && |cells| > 0 && cells[|cells| - 1] == cell
      modifies this`toolById, this`toolTurnById
      ensures Holds(Tracked(t.tools, t.byID[id := |t.tools| - 1], t.turns[id := turnID]))
    {
      toolById, toolTurnById := toolById[id := cell], toolTurnById[id := turnID];
    }

    /** A result completes the latest tool of its id, or stands alone. */
    method AddResult(s: Spot, states: States, ghost t: Tracked, ghost us: seq<Unit<nat>>)
      requires s.block.ToolResult? && Holds(t) && Within(us, |cells|) && units == Resolved(us, cells)
      modifies this, cells
      ensures Holds(Track(t, s, states))
      ensures old(cells) <= cells && (forall i | |old(cells)| <= i < |cells| :: fresh(cells[i]))
      ensures Within(AddUnit(us, t, s), |cells|) && units == Resolved(AddUnit(us, t, s), cells)
    {
      var id := s.block.toolUseID;
      if id != "" && id in toolById {
        var existing := toolById[id];
        existing.result := Some(s.block);
        assert forall i | 0 <= i < |cells| && i != t.byID[id] :: cells[i] != existing;
      } else {
        var cell := new ToolCell(None, Some(s.block), if id == "" then None else StateOf(states, id));
        AddCell(cell, t, us);
      }
    }

    /** One block of a message. */
    method AddBlock(s: Spot, states: States, ghost t: Tracked, ghost us: seq<Unit<nat>>)
      requires Holds(t) && Within(us, |cells|) && units == Resolved(us, cells)
      modifies this, cells
      ensures Holds(Track(t, s, states))
      ensures old(cells) <= cells && (forall i | |old(cells)| <= i < |cells| :: fresh(cells[i]))
      ensures Within(AddUnit(us, t, s), |cells|) && units == Resolved(AddUnit(us, t, s), cells)
    {
      hide Resolved, Within, Holds, AppendReasoning;
      match s.block {
        case ToolUse(_, _, _, _) => AddUse(s, states, t, us);
        case ToolResult(_, _, _, _, _) => AddResult(s, states, t, us);
        case ReasoningBlock(_, _, _, _) =>
          ResolvedReasoning(us, s.block, cells);
          units := AppendReasoning(units, s.block);
        case _ =>
          ResolvedBlock(us, s.block, cells);
          units := units + [BlockUnit(s.block)];
      }
    }

    /** A new tool takes its place in the message. */
    method AddCell(cell: ToolCell, ghost t: Tracked, ghost us: seq<Unit<nat>>)
      requires Holds(t) && cell !in cells && Within(us, |cells|) && units == Resolved(us, cells)
      modifies this
      ensures Holds(t.(tools := t.tools + [cell.Value()]))
      ensures cells == old(cells) + [cell] && toolById == old(toolById) && toolTurnById == old(toolTurnById)
      ensures Within(us + [ToolUnit(|old(cells)|)], |cells|) && units == Resolved(us + [ToolUnit(|old(cells)|)], cells)
    {
      ghost var n := |cells|;
      ResolvedGrows(us, cells, [cell]);
      cells := cells + [cell];
      assert Within(us + [ToolUnit(n)], |cells|);
      ResolvedAppend(us, ToolUnit(n), cells);
      units := units + [ToolUnit(cell)];
    }

    /** The blocks of one message, after those of the messages before it. */
    method AddBlocks(m: Message, states: States, ghost earlier: seq<Spot>)
      requires Holds(TrackAll(earlier, states)) && units == []
      modifies this, cells
      ensures var all := earlier + SpotsOf(m);
        && Holds(TrackAll(all, states)) && |cells| == Count(all, states)
        && old(cells) <= cells && (forall i | |old(cells)| <= i < |cells| :: fresh(cells[i]))
        && Within(UnitsOf(all, |earlier|, |all|, states), |cells|)
        && units == Resolved(UnitsOf(all, |earlier|, |all|, states), cells)
    {
      hide TrackAll, Track, AddUnit, UnitsOf, Resolved, Within, Holds, SpotsOf;
      ghost var all, n := earlier + SpotsOf(m), |earlier|;
      assert all[..n] == earlier;
      NoUnits(all, n, states, cells);
      var k := 0;
      assert |all| == n + |m.blocks| by { SpotAt(m, earlier, 0); }
      while k < |m.blocks|
        invariant 0 <= k <= |m.blocks|
        invariant Holds(TrackAll(all[..n + k], states))
        invariant old(cells) <= cells && (forall i | |old(cells)| <= i < |cells| :: fresh(cells[i]))
        invariant Within(UnitsOf(all, n, n + k, states), |cells|)
        invariant units == Resolved(UnitsOf(all, n, n + k, states), cells)
      {
        BlockStep(all, n, k, states);
        SpotAt(m, earlier, k);
        AddBlock(Spot(m.blocks[k], m.turnID), states, TrackAll(all[..n + k], states), UnitsOf(all, n, n + k, states));
        k := k + 1;
      }
      assert all[..n + k] == all;
      HeldCount(TrackAll(all, states));
    }

    lemma HeldCount(t: Tracked)
      requires Holds(t)
      ensures |cells| == |t.tools|
    {
    }

    /** Calls whose outcome will never arrive are shown as failed. */
    method MarkLost(activeTurnID: Option<string>, ghost t: Tracked)
      requires Holds(t) && Registered(t)
      modifies cells
      ensures forall i | 0 <= i < |cells| :: cells[i].Value() == Settled(t, true, activeTurnID)[i]
    {
      var ids := toolById.Keys;
      MarkedNone(t, activeTurnID, ids);
      while ids != {}
        invariant ids <= toolById.Keys
        invariant forall i | 0 <= i < |cells| :: cells[i].Value() == MarkedBut(t, activeTurnID, ids)[i]
        decreases ids
      {
        var id :| id in ids;
        MarkOne(id, ids, activeTurnID, t);
        ids := ids - {id};
      }
      MarkedAll(t, activeTurnID);
    }

    method MarkOne(id: string, ghost ids: set<string>, activeTurnID: Option<string>, ghost t: Tracked)
      requires Objects(t) && Registered(t) && id in ids && id in toolById
      requires |cells| == |t.tools| && forall i | 0 <= i < |cells| :: cells[i].Value() == MarkedBut(t, activeTurnID, ids)[i]
      modifies cells
      ensures Objects(t)
      ensures forall i | 0 <= i < |cells| :: cells[i].Value() == MarkedBut(t, activeTurnID, ids - {id})[i]
    {
      var unit := toolById[id];
      ghost var at := t.byID[id];
      assert forall i | 0 <= i < |cells| && i != at :: cells[i] != unit;
      MarkedStep(t, activeTurnID, ids, id);
      if unit.state.None? && unit.result.None? && (!Truthy(activeTurnID) || toolTurnById[id] != activeTurnID) {
        unit.state := Some(Errored);
      }
    }
  }

  /** messagesToGroups */
  method MessagesToGroups(messages: seq<Message>, states: States, loaded: bool, activeTurnID: Option<string>)
    returns (groups: seq<MessageGroup<ToolCell>>, ghost cells: seq<ToolCell>)
    ensures var t := TrackAll(Spots(messages), states);
      && |cells| == |t.tools| && (forall i | 0 <= i < |cells| :: cells[i].Value() == Settled(t, loaded, activeTurnID)[i])
      && groups == Groups(messages, states, cells)
    ensures forall i | 0 <= i < |cells| :: fresh(cells[i]) && forall j | 0 <= j < i :: cells[j] != cells[i]
  {
    var grouping := new Grouping();
    groups := [];
    var i := 0;
    hide TrackAll, UnitsOf, GroupOf, Resolved, Within, FoldFrom, Settled, Groups, Spots, SpotsOf;
    NoGroups(messages, states);
    while i < |messages|
      invariant 0 <= i <= |messages| && fresh(grouping) && (forall k | 0 <= k < |grouping.cells| :: fresh(grouping.cells[k]))
      invariant grouping.Holds(TrackAll(Spots(messages[..i]), states)) && |grouping.cells| == Count(Spots(messages[..i]), states)
      invariant groups == Groups(messages[..i], states, grouping.cells)
    {
      ghost var before := grouping.cells;
      grouping.units := [];
      grouping.AddBlocks(messages[i], states, Spots(messages[..i]));
      GroupsStep(messages, i, states, grouping.cells, |before|);
      assert grouping.cells[..|before|] == before;
      var own := GroupFor(messages[i], i, grouping.units);
      groups := groups + own;
      i := i + 1;
    }
    assert messages[..i] == messages;
    cells := grouping.cells;
    if loaded {
      AllRegistered(Spots(messages), states);
      grouping.MarkLost(activeTurnID, TrackAll(Spots(messages), states));
    } else {
      NotSettled(TrackAll(Spots(messages), states), activeTurnID);
    }
  }

  lemma NoGroups(messages: seq<Message>, states: States)
    ensures Spots(messages[..0]) == [] && TrackAll([], states) == Tracked([], map[], map[])
    ensures Groups<ToolCell>(messages[..0], states, []) == []
  {
  }

  lemma NotSettled(t: Tracked, activeTurnID: Option<string>)
    requires InRange(t)
    ensures Settled(t, false, activeTurnID) == t.tools
  {
  }

  /** A message's group, unless it has nothing of its own to show. */
  method GroupFor(m: Message, i: nat, units: seq<Unit<ToolCell>>) returns (own: seq<MessageGroup<ToolCell>>)
    ensures own == GroupOf(m, i, units)
  {
    if |units| == 0 && !m.pending { return []; }
    var folded := FoldToolBatches(units);
    own := [MessageGroup(KeyOf(m, i), m.id, m.turnID, m.role, m.kind, m.pending, folded, m.model)];
  }
}
