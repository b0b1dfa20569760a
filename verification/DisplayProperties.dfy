/** No tool call or result is lost or shown twice. */
module DisplayProperties {
  import opened Sequences
  import opened Transcript
  import opened DisplayUnits

  // ----- what the tools should be, said of the whole list of blocks -----

  function UseWith(id: string): Spot -> bool {
    (s: Spot) => s.block.ToolUse? && s.block.toolUseID == id
  }

  /** The tool use a result at position m belongs to: the latest earlier one
      with its id; -1 if there is none. */
  function Owner(spots: seq<Spot>, m: nat): (k: int)
    requires m < |spots|
    ensures k < m
  {
    var b := spots[m].block;
    if b.ToolResult? && b.toolUseID != "" then LastIndex(spots[..m], UseWith(b.toolUseID)) else -1
  }

  predicate Opens(spots: seq<Spot>, m: nat)
    requires m < |spots|
  {
    spots[m].block.ToolUse? || (spots[m].block.ToolResult? && Owner(spots, m) < 0)
  }

  /** The positions that get a tool of their own: every use, and every result
      that belongs to none. */
  function Openers(spots: seq<Spot>): (r: seq<nat>)
    ensures forall i | 0 <= i < |r| :: r[i] < |spots|
  {
    if spots == [] then []
    else
      var n := |spots| - 1;
      Openers(spots[..n]) + if Opens(spots, n) then [n] else []
  }

  /** The last result that belongs to the use at k. */
  function LastResult(spots: seq<Spot>, k: nat): Option<Block> {
    if spots == [] then None
    else
      var n := |spots| - 1;
      if Owner(spots, n) == k then Some(spots[n].block) else LastResult(spots[..n], k)
  }

  /** The tool of an opening position. */
  function ToolAt(spots: seq<Spot>, k: nat, states: States): Tool
    requires k < |spots|
  {
    var b := spots[k].block;
    if b.ToolUse? then Tool(Some(b), LastResult(spots, k), StateOf(states, b.toolUseID))
    else Tool(None, Some(b), if b.ToolResult? && b.toolUseID != "" then StateOf(states, b.toolUseID) else None)
  }

  // ----- the tracked tools are exactly these -----

  ghost predicate Explains(t: Tracked, spots: seq<Spot>, states: States)
    requires InRange(t)
  {
    && |t.tools| == |Openers(spots)|
    && (forall i | 0 <= i < |t.tools| :: t.tools[i] == ToolAt(spots, Openers(spots)[i], states))
    && (forall id :: id in t.byID <==> id != "" && LastIndex(spots, UseWith(id)) >= 0)
    && (forall id | id in t.byID :: Openers(spots)[t.byID[id]] == LastIndex(spots, UseWith(id)))
  }

  lemma LastUse(spots: seq<Spot>, s: Spot, id: string)
    ensures LastIndex(spots + [s], UseWith(id)) ==
      if s.block.ToolUse? && s.block.toolUseID == id then |spots| else LastIndex(spots, UseWith(id))
  {
    assert (spots + [s])[..|spots|] == spots;
  }

  lemma OpenersStep(spots: seq<Spot>, s: Spot)
    ensures Openers(spots + [s]) == Openers(spots) + if Opens(spots + [s], |spots|) then [|spots|] else []
    ensures Opens(spots + [s], |spots|) <==> s.block.ToolUse? || (s.block.ToolResult? && Owner(spots + [s], |spots|) < 0)
    ensures Owner(spots + [s], |spots|) ==
      if s.block.ToolResult? && s.block.toolUseID != "" then LastIndex(spots, UseWith(s.block.toolUseID)) else -1
  {
    assert (spots + [s])[..|spots|] == spots;
  }

  lemma ToolStep(spots: seq<Spot>, s: Spot, k: nat, states: States)
    requires k < |spots|
    ensures ToolAt(spots + [s], k, states) ==
      if spots[k].block.ToolUse? && Owner(spots + [s], |spots|) == k then ToolAt(spots, k, states).(result := Some(s.block))
      else ToolAt(spots, k, states)
  {
    assert (spots + [s])[..|spots|] == spots;
  }

  lemma NewTool(spots: seq<Spot>, s: Spot, states: States)
    ensures s.block.ToolUse? ==>
      ToolAt(spots + [s], |spots|, states) == Tool(Some(s.block), None, StateOf(states, s.block.toolUseID))
  {
    if s.block.ToolUse? {
      assert (spots + [s])[..|spots|] == spots;
      NoResultYet(spots, |spots|);
    }
  }

  lemma {:induction false} NoResultYet(spots: seq<Spot>, k: nat)
    requires k >= |spots|
    ensures LastResult(spots, k) == None
  {
    if spots != [] { NoResultYet(spots[..|spots| - 1], k); }
  }

  /** Openers are in order, so positions are not shared. */
  lemma {:induction false} OpenersIncrease(spots: seq<Spot>, i: nat, j: nat)
    requires i < j < |Openers(spots)|
    ensures Openers(spots)[i] < Openers(spots)[j]
  {
    var n := |spots| - 1;
    if j < |Openers(spots[..n])| { OpenersIncrease(spots[..n], i, j); }
  }

  lemma UseTracked(t: Tracked, spots: seq<Spot>, s: Spot, states: States)
    requires InRange(t) && Explains(t, spots, states) && s.block.ToolUse?
    ensures Explains(Track(t, s, states), spots + [s], states)
  {
    hide LastIndex, Openers, ToolAt, LastResult, Owner, Opens;
    var r := Track(t, s, states);
    OpenersStep(spots, s);
    NewTool(spots, s, states);
    forall i | 0 <= i < |r.tools| ensures r.tools[i] == ToolAt(spots + [s], Openers(spots + [s])[i], states) {
      if i < |t.tools| { ToolStep(spots, s, Openers(spots)[i], states); }
    }
    forall id ensures id in r.byID <==> id != "" && LastIndex(spots + [s], UseWith(id)) >= 0 {
      LastUse(spots, s, id);
    }
    forall id | id in r.byID ensures Openers(spots + [s])[r.byID[id]] == LastIndex(spots + [s], UseWith(id)) {
      LastUse(spots, s, id);
    }
  }

  lemma ResultTracked(t: Tracked, spots: seq<Spot>, s: Spot, states: States)
    requires InRange(t) && Explains(t, spots, states) && s.block.ToolResult?
    ensures Explains(Track(t, s, states), spots + [s], states)
  {
    hide LastIndex, Openers, LastResult, Opens;
    var r, id := Track(t, s, states), s.block.toolUseID;
    OpenersStep(spots, s);
    forall other ensures LastIndex(spots + [s], UseWith(other)) == LastIndex(spots, UseWith(other)) {
      LastUse(spots, s, other);
    }
    var joins := id != "" && id in t.byID;
    forall i | 0 <= i < |r.tools| ensures r.tools[i] == ToolAt(spots + [s], Openers(spots + [s])[i], states) {
      if i < |t.tools| {
        ToolStep(spots, s, Openers(spots)[i], states);
        if joins {
          OwnerIsUse(spots, id);
          var at := t.byID[id];
          if i < at { OpenersIncrease(spots, i, at); }
          if at < i { OpenersIncrease(spots, at, i); }
        }
      }
    }
  }

  lemma OwnerIsUse(spots: seq<Spot>, id: string)
    ensures var k := LastIndex(spots, UseWith(id)); k >= 0 ==> spots[k].block.ToolUse?
  {
    var k := LastIndex(spots, UseWith(id));
    assert k >= 0 ==> UseWith(id)(spots[k]);
  }

  lemma OtherTracked(t: Tracked, spots: seq<Spot>, s: Spot, states: States)
    requires InRange(t) && Explains(t, spots, states) && !s.block.ToolUse? && !s.block.ToolResult?
    ensures Explains(Track(t, s, states), spots + [s], states)
  {
    hide LastIndex, Openers, ToolAt, LastResult, Owner, Opens;
    OpenersStep(spots, s);
    forall id ensures LastIndex(spots + [s], UseWith(id)) == LastIndex(spots, UseWith(id)) {
      LastUse(spots, s, id);
    }
    forall i | 0 <= i < |t.tools| ensures t.tools[i] == ToolAt(spots + [s], Openers(spots + [s])[i], states) {
      ToolStep(spots, s, Openers(spots)[i], states);
    }
  }

  /** Every use has exactly one tool, with the last result that belongs to it;
      every result that belongs to none has one of its own; there are no others. */
  lemma {:induction false} ToolsExplained(spots: seq<Spot>, states: States)
    ensures Explains(TrackAll(spots, states), spots, states)
  {
    if spots != [] {
      var front, s := spots[..|spots| - 1], spots[|spots| - 1];
      ToolsExplained(front, states);
      assert spots == front + [s];
      var t := TrackAll(front, states);
      if s.block.ToolUse? { UseTracked(t, front, s, states); }
      else if s.block.ToolResult? { ResultTracked(t, front, s, states); }
      else { OtherTracked(t, front, s, states); }
    }
  }

  // ----- and each of them is shown exactly once -----

  function ToolsIn<T>(units: seq<Unit<T>>): seq<T> {
    if units == [] then []
    else ToolsIn(units[..|units| - 1]) + if units[|units| - 1].ToolUnit? then [units[|units| - 1].tool] else []
  }

  function ToolsShown<T>(groups: seq<MessageGroup<T>>): seq<T> {
    if groups == [] then []
    else ToolsShown(groups[..|groups| - 1]) + ToolsIn(Flatten(groups[|groups| - 1].units))
  }

  function Range(from: nat, to: nat): (r: seq<nat>)
    requires from <= to
    ensures |r| == to - from && forall i | 0 <= i < |r| :: r[i] == from + i
  {
    seq(to - from, i requires 0 <= i < to - from => from + i)
  }

  lemma ToolsInAppend<T>(units: seq<Unit<T>>, u: Unit<T>)
    ensures ToolsIn(units + [u]) == ToolsIn(units) + if u.ToolUnit? then [u.tool] else []
  {
    assert (units + [u])[..|units|] == units;
  }

  lemma ToolsInReasoning(units: seq<Unit<nat>>, b: Block)
    requires b.ReasoningBlock?
    ensures ToolsIn(AppendReasoning(units, b)) == ToolsIn(units)
  {
    hide VisibleText, Joined;
    var r := AppendReasoning(units, b);
    if |r| > |units| {
      assert r[..|r| - 1] == units;
    } else {
      assert r[..|r| - 1] == units[..|r| - 1];
    }
  }

  lemma AddedTools(units: seq<Unit<nat>>, t: Tracked, s: Spot, states: States)
    requires InRange(t)
    ensures ToolsIn(AddUnit(units, t, s)) == ToolsIn(units) + Range(|t.tools|, |Track(t, s, states).tools|)
  {
    hide ToolsIn, AppendReasoning;
    if s.block.ReasoningBlock? {
      ToolsInReasoning(units, s.block);
    } else {
      ToolsInAppend(units, BlockUnit(s.block));
      ToolsInAppend(units, ToolUnit(|t.tools|));
    }
  }

  lemma TrackStep(spots: seq<Spot>, end: nat, states: States)
    requires 0 < end <= |spots|
    ensures TrackAll(spots[..end], states) == Track(TrackAll(spots[..end - 1], states), spots[end - 1], states)
  {
    assert spots[..end][..end - 1] == spots[..end - 1];
  }

  lemma RangeJoin(a: nat, b: nat, c: nat)
    requires a <= b <= c
    ensures Range(a, b) + Range(b, c) == Range(a, c)
  {
  }

  /** The units of a stretch of blocks show exactly the tools it opened. */
  lemma {:induction false} UnitsShowNewTools(spots: seq<Spot>, start: nat, end: nat, states: States)
    requires start <= end <= |spots|
    ensures Count(spots[..start], states) <= Count(spots[..end], states)
    ensures ToolsIn(UnitsOf(spots, start, end, states)) == Range(Count(spots[..start], states), Count(spots[..end], states))
    decreases end
  {
    hide Track, TrackAll, AddUnit, Range;
    if start < end {
      UnitsShowNewTools(spots, start, end - 1, states);
      var t := TrackAll(spots[..end - 1], states);
      AddedTools(UnitsOf(spots, start, end - 1, states), t, spots[end - 1], states);
      TrackStep(spots, end, states);
      RangeJoin(Count(spots[..start], states), Count(spots[..end - 1], states), Count(spots[..end], states));
    }
  }

  lemma GroupTools<T>(m: Message, i: nat, units: seq<Unit<T>>)
    ensures ToolsShown(GroupOf(m, i, units)) == ToolsIn(units)
  {
    var g := GroupOf(m, i, units);
    if g != [] {
      assert g[..0] == [];
      FoldFlattens(units, []);
      assert Unbatched<T>([]) + units == units;
    }
  }

  lemma ToolsShownLast<T>(a: seq<MessageGroup<T>>)
    requires a != []
    ensures ToolsShown(a) == ToolsShown(a[..|a| - 1]) + ToolsIn(Flatten(a[|a| - 1].units))
  {
  }

  lemma {:induction false} ToolsShownConcat<T>(a: seq<MessageGroup<T>>, b: seq<MessageGroup<T>>)
    ensures ToolsShown(a + b) == ToolsShown(a) + ToolsShown(b)
    decreases |b|
  {
    if b == [] {
      assert a + b == a;
    } else {
      hide ToolsShown, Flatten, ToolsIn;
      var n := |b| - 1;
      assert (a + b)[..|a + b| - 1] == a + b[..n];
      ToolsShownConcat(a, b[..n]);
      ToolsShownLast(a + b);
      ToolsShownLast(b);
      Associative(ToolsShown(a), ToolsShown(b[..n]), ToolsIn(Flatten(b[n].units)));
    }
  }

  lemma ResolvedPrefix<T>(units: seq<Unit<nat>>, tools: seq<T>)
    requires Within(units, |tools|) && units != []
    ensures Within(units[..|units| - 1], |tools|)
    ensures Resolved(units, tools)[..|units| - 1] == Resolved(units[..|units| - 1], tools)
  {
  }

  lemma {:induction false} ResolvedTools<T>(units: seq<Unit<nat>>, tools: seq<T>, from: nat, to: nat)
    requires Within(units, |tools|) && from <= to <= |tools| && ToolsIn(units) == Range(from, to)
    ensures ToolsIn(Resolved(units, tools)) == tools[from..to]
    decreases |units|
  {
    if units != [] {
      var n := |units| - 1;
      ResolvedPrefix(units, tools);
      if units[n].ToolUnit? {
        assert ToolsIn(units) == ToolsIn(units[..n]) + [units[n].tool];
        assert from < to by { assert |Range(from, to)| > 0; }
        assert units[n].tool == Range(from, to)[to - from - 1] == to - 1;
        assert ToolsIn(units[..n]) == Range(from, to - 1) by { assert Range(from, to)[..to - from - 1] == Range(from, to - 1); }
        ResolvedTools(units[..n], tools, from, to - 1);
        assert tools[from..to] == tools[from..to - 1] + [tools[to - 1]];
      } else {
        ResolvedTools(units[..n], tools, from, to);
      }
    }
  }

  /** The last message's group. */
  lemma LastGroup<T>(messages: seq<Message>, states: States, tools: seq<T>) returns (shown: nat, units: seq<Unit<nat>>)
    requires messages != [] && Count(Spots(messages), states) == |tools|
    ensures shown == Count(Spots(messages[..|messages| - 1]), states) <= |tools|
    ensures Within(units, |tools|) && ToolsIn(units) == Range(shown, |tools|)
    ensures Groups(messages, states, tools) == Groups(messages[..|messages| - 1], states, tools[..shown])
      + GroupOf(messages[|messages| - 1], |messages| - 1, Resolved(units, tools))
  {
    hide UnitsOf, GroupOf, ToolsIn, Range, Resolved, TrackAll;
    var front, spots := messages[..|messages| - 1], Spots(messages);
    var start := |Spots(front)|;
    UnitsWithin(spots, start, |spots|, states);
    assert spots[..start] == Spots(front) && spots[..|spots|] == spots;
    CountGrows(spots, start, |spots|, states);
    UnitsShowNewTools(spots, start, |spots|, states);
    shown, units := Count(Spots(front), states), UnitsOf(spots, start, |spots|, states);
  }

  lemma NothingShown<T>(messages: seq<Message>, states: States, tools: seq<T>)
    requires messages == [] && Count(Spots(messages), states) == |tools|
    ensures ToolsShown(Groups(messages, states, tools)) == tools
  {
  }

  lemma OwnTools<T>(m: Message, n: nat, units: seq<Unit<nat>>, tools: seq<T>, shown: nat)
    requires Within(units, |tools|) && shown <= |tools| && ToolsIn(units) == Range(shown, |tools|)
    ensures ToolsShown(GroupOf(m, n, Resolved(units, tools))) == tools[shown..|tools|]
  {
    hide Range, ToolsIn, GroupOf, ToolsShown, Resolved;
    ResolvedTools(units, tools, shown, |tools|);
    GroupTools(m, n, Resolved(units, tools));
  }

  /** Over all groups, every tool is shown exactly once, in order. */
  lemma {:induction false} EveryToolShownOnce<T>(messages: seq<Message>, states: States, tools: seq<T>)
    requires Count(Spots(messages), states) == |tools|
    ensures ToolsShown(Groups(messages, states, tools)) == tools
    decreases |messages|
  {
    hide Count, Range, GroupOf, ToolsShown, ToolsIn, Groups, Resolved, Spots, Within;
    if messages == [] {
      NothingShown(messages, states, tools);
    } else {
      var n := |messages| - 1;
      var shown, units := LastGroup(messages, states, tools);
      EveryToolShownOnce(messages[..n], states, tools[..shown]);
      var own := GroupOf(messages[n], n, Resolved(units, tools));
      OwnTools(messages[n], n, units, tools, shown);
      ToolsShownConcat(Groups(messages[..n], states, tools[..shown]), own);
      assert tools[..shown] + tools[shown..|tools|] == tools;
    }
  }

  /** In every group neighbouring tools are one batch. */
  lemma {:induction false} GroupsAreWellBatched<T>(messages: seq<Message>, states: States, tools: seq<T>, i: nat)
    requires Count(Spots(messages), states) == |tools| && i < |Groups(messages, states, tools)|
    ensures WellBatched(Groups(messages, states, tools)[i].units)
    decreases |messages|
  {
    var n := |messages| - 1;
    var front, spots := messages[..n], Spots(messages);
    var start := |Spots(front)|;
    UnitsWithin(spots, start, |spots|, states);
    assert spots[..start] == Spots(front) && spots[..|spots|] == spots;
    CountGrows(spots, start, |spots|, states);
    var earlier := tools[..Count(Spots(front), states)];
    if i < |Groups(front, states, earlier)| {
      GroupsAreWellBatched(front, states, earlier, i);
    } else {
      FoldIsWellBatched(Resolved(UnitsOf(spots, start, |spots|, states), tools), []);
    }
  }
}
