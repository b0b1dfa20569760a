/** From messages to what is displayed: tool uses and their results become one
    tool each, shown where the use stands, and neighbouring tools one batch. */
module DisplayUnits {
  import opened Sequences
  import opened JsText
  import opened Transcript

  datatype ToolState = Requested | Running | StreamingState | Completed | Errored | OutcomeUnknown

  datatype Tool = Tool(use: Option<Block>, result: Option<Block>, state: Option<ToolState>)

  /** A unit before batching; T is how a tool is referred to. */
  datatype Unit<T> = BlockUnit(block: Block) | ReasoningUnit(reasoning: Block) | ToolUnit(tool: T)

  datatype DisplayUnit<T> = Single(unit: Unit<T>) | Batch(tools: seq<T>)

  /** A group's own key: the message's id, or made from its turn and place. */
  datatype Key = Named(id: string) | Placed(turn: string, index: nat)

  datatype MessageGroup<T> = MessageGroup(key: Key, id: Option<string>, turnID: Option<string>, role: Role,
                                          kind: Option<string>, pending: bool, units: seq<DisplayUnit<T>>,
                                          model: Option<string>)

  // ----- batches -----

  function Flushed<T>(batch: seq<T>): seq<DisplayUnit<T>> {
    if |batch| == 0 then []
    else if |batch| == 1 then [Single(ToolUnit(batch[0]))]
    else [Batch(batch)]
  }

  function FoldFrom<T>(units: seq<Unit<T>>, batch: seq<T>): seq<DisplayUnit<T>>
    decreases |units|
  {
    if units == [] then Flushed(batch)
    else if units[0].ToolUnit? then FoldFrom(units[1..], batch + [units[0].tool])
    else Flushed(batch) + [Single(units[0])] + FoldFrom(units[1..], [])
  }

  /** foldToolBatches */
  method FoldToolBatches<T>(units: seq<Unit<T>>) returns (folded: seq<DisplayUnit<T>>)
    ensures folded == FoldFrom(units, [])
  {
    folded := [];
    var batch: seq<T> := [];
    var i := 0;
    assert units[0..] == units;
    while i < |units|
      invariant 0 <= i <= |units|
      invariant folded + FoldFrom(units[i..], batch) == FoldFrom(units, [])
    {
      var unit := units[i];
      assert units[i..][1..] == units[i + 1..];
      if unit.ToolUnit? {
        batch := batch + [unit.tool];
      } else {
        assert folded + (Flushed(batch) + [Single(unit)] + FoldFrom(units[i + 1..], []))
            == folded + Flushed(batch) + [Single(unit)] + FoldFrom(units[i + 1..], []);
        folded := folded + Flushed(batch) + [Single(unit)];
        batch := [];
      }
      i := i + 1;
    }
    folded := folded + Flushed(batch);
  }

  function Unbatched<T>(batch: seq<T>): seq<Unit<T>> {
    seq(|batch|, i requires 0 <= i < |batch| => ToolUnit(batch[i]))
  }

  function Pieces<T>(d: DisplayUnit<T>): seq<Unit<T>> {
    if d.Single? then [d.unit] else Unbatched(d.tools)
  }

  function Flatten<T>(ds: seq<DisplayUnit<T>>): seq<Unit<T>> {
    if ds == [] then [] else Pieces(ds[0]) + Flatten(ds[1..])
  }

  lemma FlattenHead<T>(ds: seq<DisplayUnit<T>>)
    requires ds != []
    ensures Flatten(ds) == Pieces(ds[0]) + Flatten(ds[1..])
  {
  }

  lemma {:induction false} FlattenConcat<T>(a: seq<DisplayUnit<T>>, b: seq<DisplayUnit<T>>)
    ensures Flatten(a + b) == Flatten(a) + Flatten(b)
    decreases |a|
  {
    if a == [] {
      assert a + b == b;
    } else {
      hide Flatten, Pieces;
      FlattenConcat(a[1..], b);
      assert (a + b)[1..] == a[1..] + b;
      FlattenHead(a + b);
      FlattenHead(a);
      Associative(Pieces(a[0]), Flatten(a[1..]), Flatten(b));
    }
  }

  lemma FlattenOne<T>(d: DisplayUnit<T>)
    ensures Flatten([d]) == Pieces(d)
  {
    assert [d][1..] == [];
  }

  lemma FlattenFlushed<T>(batch: seq<T>)
    ensures Flatten(Flushed(batch)) == Unbatched(batch)
  {
    if |batch| == 1 {
      FlattenOne(Single(ToolUnit(batch[0])));
    } else if |batch| > 1 {
      FlattenOne(Batch(batch));
    }
  }

  lemma FoldTool<T>(units: seq<Unit<T>>, batch: seq<T>)
    requires units != [] && units[0].ToolUnit?
    ensures FoldFrom(units, batch) == FoldFrom(units[1..], batch + [units[0].tool])
    ensures Unbatched(batch + [units[0].tool]) == Unbatched(batch) + [units[0]]
  {
  }

  lemma FoldOther<T>(units: seq<Unit<T>>, batch: seq<T>)
    requires units != [] && !units[0].ToolUnit?
    ensures FoldFrom(units, batch) == Flushed(batch) + [Single(units[0])] + FoldFrom(units[1..], [])
  {
  }

  /** Flattening the batches gives the units back. */
  lemma {:induction false} FoldFlattens<T>(units: seq<Unit<T>>, batch: seq<T>)
    ensures Flatten(FoldFrom(units, batch)) == Unbatched(batch) + units
    decreases |units|
  {
    FlattenFlushed(batch);
    if units != [] {
      hide FoldFrom, Flatten, Flushed;
      var u, rest := units[0], units[1..];
      assert units == [u] + rest;
      if u.ToolUnit? {
        FoldTool(units, batch);
        FoldFlattens(rest, batch + [u.tool]);
        Associative(Unbatched(batch), [u], rest);
      } else {
        FoldOther(units, batch);
        FoldFlattens(rest, []);
        FlattenConcat(Flushed(batch), [Single(u)]);
        FlattenConcat(Flushed(batch) + [Single(u)], FoldFrom(rest, []));
        FlattenOne(Single(u));
        Associative(Unbatched(batch), [u], rest);
        assert Unbatched<T>([]) + rest == rest;
      }
    }
  }

  predicate ToolLike<T>(d: DisplayUnit<T>) {
    d.Batch? || d.unit.ToolUnit?
  }

  /** Batches hold at least two tools, and tools or batches never stand side by
      side. */
  predicate WellBatched<T>(ds: seq<DisplayUnit<T>>) {
    && (forall i | 0 <= i < |ds| && ds[i].Batch? :: |ds[i].tools| >= 2)
    && (forall i | 0 <= i < |ds| - 1 :: !(ToolLike(ds[i]) && ToolLike(ds[i + 1])))
  }

  lemma {:induction false} FoldIsWellBatched<T>(units: seq<Unit<T>>, batch: seq<T>)
    ensures WellBatched(FoldFrom(units, batch))
    decreases |units|
  {
    if units != [] {
      var u, rest := units[0], units[1..];
      if u.ToolUnit? {
        FoldIsWellBatched(rest, batch + [u.tool]);
      } else {
        FoldIsWellBatched(rest, []);
      }
    }
  }

  // ----- reasoning -----

  /** thinkingProcessVisibleText */
  function VisibleText(b: Block): Text
    requires b.ReasoningBlock?
  {
    if Trim(b.text) != [] then b.text else if b.redacted then [] else b.content
  }

  function Joined(a: Text, b: Text): Text {
    if Trim(a) == [] then (if Trim(b) == [] then [] else b)
    else if Trim(b) == [] then a
    else a + [10, 10] + b
  }

  /** appendReasoningUnit: reasoning joins reasoning. */
  function AppendReasoning<T>(units: seq<Unit<T>>, b: Block): seq<Unit<T>>
    requires b.ReasoningBlock?
  {
    if units == [] || !units[|units| - 1].ReasoningUnit? || !units[|units| - 1].reasoning.ReasoningBlock? then
      units + [ReasoningUnit(b)]
    else
      var previous := units[|units| - 1].reasoning;
      units[|units| - 1 :=
        ReasoningUnit(ReasoningBlock(Joined(VisibleText(previous), VisibleText(b)), None, [], previous.redacted || b.redacted))]
  }

  // ----- following tools through the blocks -----

  /** A block and the turn of its message. */
  datatype Spot = Spot(block: Block, turnID: Option<string>)

  /** All tools so far, in order; the latest tool of each id, and its turn. */
  datatype Tracked = Tracked(tools: seq<Tool>, byID: map<string, nat>, turns: map<string, Option<string>>)

  type States = map<string, ToolState>

  function StateOf(states: States, id: string): Option<ToolState> {
    if id in states then Some(states[id]) else None
  }

  predicate InRange(t: Tracked) {
    (forall id | id in t.byID :: t.byID[id] < |t.tools|) && t.turns.Keys == t.byID.Keys
  }

  function Track(t: Tracked, s: Spot, states: States): (r: Tracked)
    requires InRange(t)
    ensures InRange(r) && |t.tools| <= |r.tools|
  {
    match s.block
    case ToolUse(id, _, _, _) =>
      var tools := t.tools + [Tool(Some(s.block), None, StateOf(states, id))];
      if id == "" then t.(tools := tools)
      else Tracked(tools, t.byID[id := |t.tools|], t.turns[id := s.turnID])
    case ToolResult(id, _, _, _, _) =>
      if id != "" && id in t.byID then
        var i := t.byID[id];
        t.(tools := t.tools[i := t.tools[i].(result := Some(s.block))])
      else
        t.(tools := t.tools + [Tool(None, Some(s.block), if id == "" then None else StateOf(states, id))])
    case _ => t
  }

  function TrackAll(spots: seq<Spot>, states: States): (r: Tracked)
    ensures InRange(r)
  {
    if spots == [] then Tracked([], map[], map[])
    else Track(TrackAll(spots[..|spots| - 1], states), spots[|spots| - 1], states)
  }

  /** A block's own unit; a result that joins an earlier tool has none. */
  function AddUnit(units: seq<Unit<nat>>, t: Tracked, s: Spot): seq<Unit<nat>> {
    match s.block
    case ReasoningBlock(_, _, _, _) => AppendReasoning(units, s.block)
    case ToolUse(_, _, _, _) => units + [ToolUnit(|t.tools|)]
    case ToolResult(id, _, _, _, _) =>
      if id != "" && id in t.byID then units else units + [ToolUnit(|t.tools|)]
    case _ => units + [BlockUnit(s.block)]
  }

  /** The units of the blocks from position i on, in a message that begins
      at `start`. */
  function UnitsOf(spots: seq<Spot>, start: nat, end: nat, states: States): seq<Unit<nat>>
    requires start <= end <= |spots|
    decreases end
  {
    if end == start then []
    else AddUnit(UnitsOf(spots, start, end - 1, states), TrackAll(spots[..end - 1], states), spots[end - 1])
  }

  function SpotsOf(m: Message): seq<Spot> {
    seq(|m.blocks|, i requires 0 <= i < |m.blocks| => Spot(m.blocks[i], m.turnID))
  }

  /** All blocks, message after message. */
  function Spots(messages: seq<Message>): seq<Spot> {
    if messages == [] then []
    else Spots(messages[..|messages| - 1]) + SpotsOf(messages[|messages| - 1])
  }

  function KeyOf(m: Message, i: nat): Key {
    if m.id.Some? then Named(m.id.value) else Placed(if m.turnID.Some? then m.turnID.value else "msg", i)
  }

  function GroupOf<T>(m: Message, i: nat, units: seq<Unit<T>>): seq<MessageGroup<T>> {
    if units == [] && !m.pending then []
    else [MessageGroup(KeyOf(m, i), m.id, m.turnID, m.role, m.kind, m.pending, FoldFrom(units, []), m.model)]
  }

  // ----- tools as objects -----

  predicate Within(units: seq<Unit<nat>>, n: nat) {
    forall i | 0 <= i < |units| && units[i].ToolUnit? :: units[i].tool < n
  }

  /** Units whose tools are objects instead of positions. */
  function Resolved<T>(units: seq<Unit<nat>>, tools: seq<T>): (r: seq<Unit<T>>)
    requires Within(units, |tools|)
    ensures |r| == |units|
  {
    seq(|units|, i requires 0 <= i < |units| =>
      match units[i]
      case BlockUnit(b) => BlockUnit(b)
      case ReasoningUnit(b) => ReasoningUnit(b)
      case ToolUnit(k) => ToolUnit(tools[k]))
  }

  lemma AddUnitWithin(units: seq<Unit<nat>>, t: Tracked, s: Spot, states: States)
    requires InRange(t) && Within(units, |t.tools|)
    ensures Within(AddUnit(units, t, s), |Track(t, s, states).tools|)
  {
  }

  lemma {:induction false} UnitsWithin(spots: seq<Spot>, start: nat, end: nat, states: States)
    requires start <= end <= |spots|
    ensures Within(UnitsOf(spots, start, end, states), |TrackAll(spots[..end], states).tools|)
    decreases end
  {
    if start < end {
      UnitsWithin(spots, start, end - 1, states);
      assert spots[..end][..end - 1] == spots[..end - 1];
      AddUnitWithin(UnitsOf(spots, start, end - 1, states), TrackAll(spots[..end - 1], states), spots[end - 1], states);
    }
  }

  function Count(spots: seq<Spot>, states: States): nat {
    |TrackAll(spots, states).tools|
  }

  /** The groups of the messages, given an object for every tool. */
  function Groups<T>(messages: seq<Message>, states: States, tools: seq<T>): seq<MessageGroup<T>>
    requires Count(Spots(messages), states) == |tools|
  {
    if messages == [] then []
    else
      var front, m := messages[..|messages| - 1], messages[|messages| - 1];
      var spots, start := Spots(messages), |Spots(messages[..|messages| - 1])|;
      UnitsWithin(spots, start, |spots|, states);
      assert spots[..|spots|] == spots && spots[..start] == Spots(front);
      CountGrows(spots, start, |spots|, states);
      Groups(front, states, tools[..Count(Spots(front), states)])
      + GroupOf(m, |messages| - 1, Resolved(UnitsOf(spots, start, |spots|, states), tools))
  }

  lemma {:induction false} CountGrows(spots: seq<Spot>, start: nat, end: nat, states: States)
    requires start <= end <= |spots|
    ensures Count(spots[..start], states) <= Count(spots[..end], states)
    decreases end
  {
    if start < end {
      CountGrows(spots, start, end - 1, states);
      assert spots[..end][..end - 1] == spots[..end - 1];
    }
  }

  /** Ids name tools that hold their use. */
  predicate Registered(t: Tracked) {
    && InRange(t)
    && forall id | id in t.byID ::
      var use := t.tools[t.byID[id]].use; use.Some? && use.value.ToolUse? && use.value.toolUseID == id
  }

  lemma {:induction false} AllRegistered(spots: seq<Spot>, states: States)
    ensures Registered(TrackAll(spots, states))
    decreases |spots|
  {
    if spots != [] { AllRegistered(spots[..|spots| - 1], states); }
  }

  /** A tool call whose outcome will never arrive: it is the latest of its id,
      has neither state nor result, and is not of the active turn. */
  predicate Lost(t: Tracked, i: nat, activeTurnID: Option<string>)
    requires InRange(t) && i < |t.tools|
  {
    var tool := t.tools[i];
    && tool.use.Some? && tool.use.value.ToolUse?
    && tool.use.value.toolUseID in t.byID && t.byID[tool.use.value.toolUseID] == i
    && tool.state.None? && tool.result.None?
    && (!Truthy(activeTurnID) || t.turns[tool.use.value.toolUseID] != activeTurnID)
  }

  /** The tools as shown, once the runtime's status is known. */
  function Settled(t: Tracked, loaded: bool, activeTurnID: Option<string>): seq<Tool>
    requires InRange(t)
  {
    seq(|t.tools|, i requires 0 <= i < |t.tools| =>
      if loaded && Lost(t, i, activeTurnID) then t.tools[i].(state := Some(Errored)) else t.tools[i])
  }
}
