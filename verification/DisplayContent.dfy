/** What a message shows, said of its blocks: every block that is not a result
    joined to an earlier tool has its place, in order; neighbouring reasoning is
    one unit; and a message with nothing to show has no group. */
module DisplayContent {
  import opened Sequences
  import opened JsText
  import opened Transcript
  import opened DisplayUnits
  import opened DisplayProperties

  // ----- reasoning that is shown together -----

  predicate Blank(t: Text) {
    forall i | 0 <= i < |t| :: IsSpace(t[i])
  }

  lemma TrimBlank(t: Text)
    ensures Trim(t) == [] <==> Blank(t)
  {
    var k := Run(t, IsSpace);
    var r := TrimEnd(t[k..]);
    if k < |t| {
      assert t[k..][0] == t[k];
    }
  }

  /** What a reader sees of a reasoning block: its text, unless that is blank;
      then the raw content, unless that was withheld. */
  lemma VisibleTextIs(b: Block)
    requires b.ReasoningBlock?
    ensures !Blank(b.text) ==> VisibleText(b) == b.text
    ensures Blank(b.text) && !b.redacted ==> VisibleText(b) == b.content
    ensures Blank(b.text) && b.redacted ==> VisibleText(b) == []
  {
    TrimBlank(b.text);
  }

  predicate AllReasoning(bs: seq<Block>) {
    forall i | 0 <= i < |bs| :: bs[i].ReasoningBlock?
  }

  /** The texts to be seen, without the blank ones. */
  function Parts(bs: seq<Block>): (r: seq<Text>)
    requires AllReasoning(bs)
    ensures forall i | 0 <= i < |r| :: !Blank(r[i])
  {
    if bs == [] then []
    else
      var t := VisibleText(bs[|bs| - 1]);
      Parts(bs[..|bs| - 1]) + if Blank(t) then [] else [t]
  }

  /** Texts with an empty line between them. */
  function Paragraphs(parts: seq<Text>): Text {
    if parts == [] then []
    else if |parts| == 1 then parts[0]
    else Paragraphs(parts[..|parts| - 1]) + [10, 10] + parts[|parts| - 1]
  }

  predicate AnyRedacted(bs: seq<Block>)
    requires AllReasoning(bs)
  {
    exists i | 0 <= i < |bs| :: bs[i].redacted
  }

  /** A stretch of reasoning as one block. A single block stays as it is. */
  function Together(bs: seq<Block>): Block
    requires bs != [] && AllReasoning(bs)
  {
    if |bs| == 1 then bs[0]
    else ReasoningBlock(Paragraphs(Parts(bs)), None, [], AnyRedacted(bs))
  }

  lemma NotBlank(parts: seq<Text>)
    requires forall i | 0 <= i < |parts| :: !Blank(parts[i])
    ensures Blank(Paragraphs(parts)) <==> parts == []
  {
    if |parts| > 1 {
      var last := parts[|parts| - 1];
      var j :| 0 <= j < |last| && !IsSpace(last[j]);
      var front := Paragraphs(parts[..|parts| - 1]) + [10, 10];
      assert (front + last)[|front| + j] == last[j];
    }
  }

  /** One more text joins those before it. */
  lemma JoinedParts(a: Text, parts: seq<Text>, t: Text)
    requires forall i | 0 <= i < |parts| :: !Blank(parts[i])
    requires if parts == [] then Blank(a) else a == Paragraphs(parts)
    ensures Joined(a, t) == Paragraphs(parts + if Blank(t) then [] else [t])
  {
    TrimBlank(a);
    TrimBlank(t);
    NotBlank(parts);
    hide Trim;
    if Blank(t) {
      assert parts + [] == parts;
    } else {
      assert (parts + [t])[..|parts|] == parts;
    }
  }

  lemma PartsMore(bs: seq<Block>, b: Block)
    requires AllReasoning(bs) && b.ReasoningBlock?
    ensures AllReasoning(bs + [b]) && Parts(bs + [b]) == Parts(bs) + if Blank(VisibleText(b)) then [] else [VisibleText(b)]
  {
    hide VisibleText;
    assert (bs + [b])[..|bs|] == bs;
  }

  /** The text of a stretch, as its last unit holds it. */
  lemma TogetherText(bs: seq<Block>)
    requires bs != [] && AllReasoning(bs)
    ensures if Parts(bs) == [] then Blank(VisibleText(Together(bs))) else VisibleText(Together(bs)) == Paragraphs(Parts(bs))
  {
    var m := Together(bs);
    VisibleTextIs(m);
    hide VisibleText;
    if |bs| == 1 {
      assert bs[..0] == [];
      assert Parts(bs) == Parts([]) + if Blank(VisibleText(bs[0])) then [] else [VisibleText(bs[0])];
    } else {
      NotBlank(Parts(bs));
    }
  }

  lemma RedactedMore(bs: seq<Block>, b: Block)
    requires AllReasoning(bs) && b.ReasoningBlock? && AllReasoning(bs + [b])
    ensures AnyRedacted(bs + [b]) <==> AnyRedacted(bs) || b.redacted
  {
    var all := bs + [b];
    if b.redacted { assert all[|bs|].redacted; }
    if i :| 0 <= i < |bs| && bs[i].redacted { assert all[i].redacted; }
  }

  lemma TogetherRedacted(bs: seq<Block>)
    requires bs != [] && AllReasoning(bs)
    ensures Together(bs).ReasoningBlock? && (Together(bs).redacted <==> AnyRedacted(bs))
  {
    hide Paragraphs, Parts;
  }

  lemma TogetherMore(bs: seq<Block>, b: Block)
    requires bs != [] && AllReasoning(bs) && b.ReasoningBlock?
    ensures AllReasoning(bs + [b]) && Together(bs).ReasoningBlock?
    ensures Together(bs + [b]) ==
      ReasoningBlock(Joined(VisibleText(Together(bs)), VisibleText(b)), None, [], Together(bs).redacted || b.redacted)
  {
    hide Paragraphs, Parts, VisibleText, Joined, AnyRedacted;
    PartsMore(bs, b);
    RedactedMore(bs, b);
    TogetherRedacted(bs);
    JoinedTogether(bs, b);
  }

  lemma JoinedTogether(bs: seq<Block>, b: Block)
    requires bs != [] && AllReasoning(bs) && b.ReasoningBlock? && Together(bs).ReasoningBlock?
    ensures Joined(VisibleText(Together(bs)), VisibleText(b))
      == Paragraphs(Parts(bs) + if Blank(VisibleText(b)) then [] else [VisibleText(b)])
  {
    hide Paragraphs, Parts, VisibleText, Joined, Together;
    TogetherText(bs);
    JoinedParts(VisibleText(Together(bs)), Parts(bs), VisibleText(b));
  }

  // ----- which blocks are shown, and as what -----

  /** The result joins an earlier tool and is shown there. */
  predicate JoinsTool(spots: seq<Spot>, p: nat)
    requires p < |spots|
  {
    spots[p].block.ToolResult? && Owner(spots, p) >= 0
  }

  /** The positions that show something of their own. */
  function Visible(spots: seq<Spot>, start: nat, end: nat): (r: seq<nat>)
    requires start <= end <= |spots|
    ensures forall k | 0 <= k < |r| :: r[k] < end
    decreases end
  {
    if start == end then []
    else Visible(spots, start, end - 1) + if JoinsTool(spots, end - 1) then [] else [end - 1]
  }

  function Flat(cuts: seq<seq<nat>>): seq<nat> {
    if cuts == [] then [] else Flat(cuts[..|cuts| - 1]) + cuts[|cuts| - 1]
  }

  /** A stretch that is shown as one unit: reasoning, or a single block. */
  predicate GoodCut(spots: seq<Spot>, cut: seq<nat>) {
    && cut != [] && (forall k | 0 <= k < |cut| :: cut[k] < |spots|)
    && if spots[cut[0]].block.ReasoningBlock? then forall k | 0 <= k < |cut| :: spots[cut[k]].block.ReasoningBlock? else |cut| == 1
  }

  predicate Reasons(spots: seq<Spot>, cut: seq<nat>) {
    cut != [] && cut[0] < |spots| && spots[cut[0]].block.ReasoningBlock?
  }

  function BlocksAt(spots: seq<Spot>, cut: seq<nat>): (r: seq<Block>)
    requires forall k | 0 <= k < |cut| :: cut[k] < |spots|
    ensures |r| == |cut|
  {
    seq(|cut|, k requires 0 <= k < |cut| => spots[cut[k]].block)
  }

  /** The unit of a stretch. A tool is called by its number. */
  function UnitFor(spots: seq<Spot>, cut: seq<nat>): Unit<nat>
    requires GoodCut(spots, cut)
  {
    var b := spots[cut[0]].block;
    if b.ReasoningBlock? then ReasoningUnit(Together(BlocksAt(spots, cut)))
    else if b.ToolUse? || b.ToolResult? then ToolUnit(|Openers(spots[..cut[0]])|)
    else BlockUnit(b)
  }

  ghost predicate Displays(units: seq<Unit<nat>>, spots: seq<Spot>, cuts: seq<seq<nat>>) {
    && |units| == |cuts|
    && (forall k | 0 <= k < |cuts| :: GoodCut(spots, cuts[k]) && units[k] == UnitFor(spots, cuts[k]))
    && (forall k | 0 <= k < |cuts| - 1 :: !(Reasons(spots, cuts[k]) && Reasons(spots, cuts[k + 1])))
  }

  lemma FlatMore(cuts: seq<seq<nat>>, cut: seq<nat>)
    ensures Flat(cuts + [cut]) == Flat(cuts) + cut
  {
    assert (cuts + [cut])[..|cuts|] == cuts;
  }

  lemma FlatLonger(cuts: seq<seq<nat>>, p: nat)
    requires cuts != []
    ensures Flat(cuts[|cuts| - 1 := cuts[|cuts| - 1] + [p]]) == Flat(cuts) + [p]
  {
    var n := |cuts| - 1;
    assert cuts[n := cuts[n] + [p]][..n] == cuts[..n];
    Associative(Flat(cuts[..n]), cuts[n], [p]);
  }

  lemma AppendedUnit(units: seq<Unit<nat>>, spots: seq<Spot>, cuts: seq<seq<nat>>, p: nat)
    requires Displays(units, spots, cuts) && GoodCut(spots, [p])
    requires cuts != [] ==> !(Reasons(spots, cuts[|cuts| - 1]) && Reasons(spots, [p]))
    ensures Displays(units + [UnitFor(spots, [p])], spots, cuts + [[p]])
  {
    hide UnitFor, GoodCut, Reasons;
  }

  lemma LongerReasoning(units: seq<Unit<nat>>, spots: seq<Spot>, cuts: seq<seq<nat>>, p: nat)
    requires Displays(units, spots, cuts) && cuts != [] && p < |spots| && spots[p].block.ReasoningBlock?
    requires Reasons(spots, cuts[|cuts| - 1])
    ensures Displays(AppendReasoning(units, spots[p].block), spots, cuts[|cuts| - 1 := cuts[|cuts| - 1] + [p]])
  {
    hide Together, VisibleText, Joined;
    var n, b := |cuts| - 1, spots[p].block;
    var longer := cuts[n] + [p];
    assert GoodCut(spots, cuts[n]);
    assert GoodCut(spots, longer);
    assert BlocksAt(spots, longer) == BlocksAt(spots, cuts[n]) + [b];
    TogetherMore(BlocksAt(spots, cuts[n]), b);
    TogetherReasons(BlocksAt(spots, cuts[n]));
    assert AppendReasoning(units, b) == units[n := UnitFor(spots, longer)];
  }

  lemma TogetherReasons(bs: seq<Block>)
    requires bs != [] && AllReasoning(bs)
    ensures Together(bs).ReasoningBlock?
  {
  }

  lemma LastReasons(units: seq<Unit<nat>>, spots: seq<Spot>, cuts: seq<seq<nat>>)
    requires Displays(units, spots, cuts) && units != []
    ensures units[|units| - 1].ReasoningUnit? <==> Reasons(spots, cuts[|cuts| - 1])
    ensures units[|units| - 1].ReasoningUnit? ==> units[|units| - 1].reasoning.ReasoningBlock?
  {
    hide Together;
    var n := |cuts| - 1;
    assert GoodCut(spots, cuts[n]) && units[n] == UnitFor(spots, cuts[n]);
    if Reasons(spots, cuts[n]) { TogetherReasons(BlocksAt(spots, cuts[n])); }
  }

  /** One more reasoning block. */
  lemma ReasoningDisplayed(units: seq<Unit<nat>>, spots: seq<Spot>, cuts: seq<seq<nat>>, p: nat) returns (more: seq<seq<nat>>)
    requires Displays(units, spots, cuts) && p < |spots| && spots[p].block.ReasoningBlock?
    ensures Displays(AppendReasoning(units, spots[p].block), spots, more) && Flat(more) == Flat(cuts) + [p]
  {
    hide Displays, Together, VisibleText, Joined;
    SameLength(units, spots, cuts);
    if units != [] { LastReasons(units, spots, cuts); }
    if units != [] && units[|units| - 1].ReasoningUnit? {
      more := cuts[|cuts| - 1 := cuts[|cuts| - 1] + [p]];
      LongerReasoning(units, spots, cuts, p);
      FlatLonger(cuts, p);
    } else {
      more := cuts + [[p]];
      AppendedUnit(units, spots, cuts, p);
      FlatMore(cuts, [p]);
      SingleReasoning(spots, p);
    }
  }

  lemma SameLength(units: seq<Unit<nat>>, spots: seq<Spot>, cuts: seq<seq<nat>>)
    requires Displays(units, spots, cuts)
    ensures |units| == |cuts|
  {
  }

  lemma SingleReasoning(spots: seq<Spot>, p: nat)
    requires p < |spots| && spots[p].block.ReasoningBlock?
    ensures GoodCut(spots, [p]) && UnitFor(spots, [p]) == ReasoningUnit(spots[p].block)
  {
  }

  /** What the tracked tools say of the block at p. */
  lemma TrackedAt(spots: seq<Spot>, p: nat, states: States)
    requires p < |spots|
    ensures var t, b := TrackAll(spots[..p], states), spots[p].block;
      && |t.tools| == |Openers(spots[..p])|
      && (b.ToolResult? ==> (JoinsTool(spots, p) <==> b.toolUseID != "" && b.toolUseID in t.byID))
  {
    hide TrackAll, Openers, ToolAt, LastIndex;
    ToolsExplained(spots[..p], states);
  }

  /** One more block. */
  lemma BlockDisplayed(units: seq<Unit<nat>>, spots: seq<Spot>, cuts: seq<seq<nat>>, p: nat, states: States)
    returns (more: seq<seq<nat>>)
    requires Displays(units, spots, cuts) && p < |spots|
    ensures Displays(AddUnit(units, TrackAll(spots[..p], states), spots[p]), spots, more)
    ensures Flat(more) == Flat(cuts) + if JoinsTool(spots, p) then [] else [p]
  {
    hide Displays, TrackAll, AddUnit, JoinsTool, AppendReasoning, Flat;
    var b := spots[p].block;
    AddedIs(units, spots, p, states);
    if b.ReasoningBlock? {
      more := ReasoningDisplayed(units, spots, cuts, p);
    } else if JoinsTool(spots, p) {
      more := cuts;
      assert Flat(cuts) + [] == Flat(cuts);
    } else {
      more := cuts + [[p]];
      SingleDisplayed(units, spots, cuts, p);
      FlatMore(cuts, [p]);
    }
  }

  lemma SingleDisplayed(units: seq<Unit<nat>>, spots: seq<Spot>, cuts: seq<seq<nat>>, p: nat)
    requires Displays(units, spots, cuts) && p < |spots| && !spots[p].block.ReasoningBlock?
    ensures GoodCut(spots, [p]) && Displays(units + [UnitFor(spots, [p])], spots, cuts + [[p]])
  {
    hide Displays, UnitFor;
    AppendedUnit(units, spots, cuts, p);
  }

  /** What adding a block comes to. */
  lemma AddedIs(units: seq<Unit<nat>>, spots: seq<Spot>, p: nat, states: States)
    requires p < |spots|
    ensures var b, r := spots[p].block, AddUnit(units, TrackAll(spots[..p], states), spots[p]);
      && (b.ReasoningBlock? ==> r == AppendReasoning(units, b) && !JoinsTool(spots, p))
      && (JoinsTool(spots, p) ==> r == units)
      && (!b.ReasoningBlock? && !JoinsTool(spots, p) ==> GoodCut(spots, [p]) && r == units + [UnitFor(spots, [p])])
  {
    hide TrackAll, Openers, JoinsTool, AppendReasoning;
    TrackedAt(spots, p, states);
    if !spots[p].block.ToolResult? { NotResult(spots, p); }
  }

  lemma NotResult(spots: seq<Spot>, p: nat)
    requires p < |spots| && (spots[p].block.ToolResult? ==> !JoinsTool(spots, p))
    ensures !JoinsTool(spots, p)
  {
  }

  /** The units of a stretch of blocks are those of its visible positions, cut
      into single blocks and maximal runs of reasoning. */
  lemma {:induction false} UnitsDisplay(spots: seq<Spot>, start: nat, end: nat, states: States) returns (cuts: seq<seq<nat>>)
    requires start <= end <= |spots|
    ensures Displays(UnitsOf(spots, start, end, states), spots, cuts) && Flat(cuts) == Visible(spots, start, end)
    decreases end
  {
    if start == end {
      cuts := [];
    } else {
      hide Displays, AddUnit, TrackAll, JoinsTool, Flat;
      var before := UnitsDisplay(spots, start, end - 1, states);
      cuts := BlockDisplayed(UnitsOf(spots, start, end - 1, states), spots, before, end - 1, states);
    }
  }

  // ----- the groups -----

  /** A unit of a group, with its tool as an object. */
  ghost predicate ShownAs<T>(u: Unit<T>, v: Unit<nat>, tools: seq<T>) {
    match v
    case BlockUnit(b) => u == BlockUnit(b)
    case ReasoningUnit(b) => u == ReasoningUnit(b)
    case ToolUnit(n) => n < |tools| && u == ToolUnit(tools[n])
  }

  /** The blocks of message i, as positions among all blocks. */
  function From(messages: seq<Message>, i: nat): nat
    requires i <= |messages|
  {
    |Spots(messages[..i])|
  }

  lemma {:induction false} SpotsGrow(messages: seq<Message>, i: nat, j: nat)
    requires i <= j <= |messages|
    ensures Spots(messages[..i]) <= Spots(messages[..j])
    decreases j
  {
    if i < j {
      SpotsGrow(messages, i, j - 1);
      assert messages[..j][..j - 1] == messages[..j - 1];
    }
  }

  /** The blocks of a message are at its positions, in order. */
  lemma SpotsOfMessage(messages: seq<Message>, i: nat)
    requires i < |messages|
    ensures From(messages, i + 1) == From(messages, i) + |messages[i].blocks| <= |Spots(messages)|
    ensures forall k | 0 <= k < |messages[i].blocks| ::
      Spots(messages)[From(messages, i) + k] == Spot(messages[i].blocks[k], messages[i].turnID)
  {
    assert messages[..i + 1][..i] == messages[..i];
    SpotsGrow(messages, i + 1, |messages|);
    assert messages[..|messages|] == messages;
    var own := Spots(messages[..i + 1]);
    assert own == Spots(messages[..i]) + SpotsOf(messages[i]);
    forall k | 0 <= k < |messages[i].blocks|
      ensures Spots(messages)[From(messages, i) + k] == Spot(messages[i].blocks[k], messages[i].turnID)
    {
      assert own[From(messages, i) + k] == SpotsOf(messages[i])[k];
    }
  }

  /** The positions of a message that show something of their own. */
  function Own(messages: seq<Message>, i: nat): seq<nat>
    requires i < |messages|
  {
    SpotsOfMessage(messages, i);
    Visible(Spots(messages), From(messages, i), From(messages, i + 1))
  }

  /** The group of message i: it repeats what identifies the message, and its
      units, batches opened up, show the message's own positions in order. */
  ghost predicate Presents<T>(g: MessageGroup<T>, messages: seq<Message>, i: nat, tools: seq<T>)
    requires i < |messages|
  {
    var m := messages[i];
    && g.key == (if m.id.Some? then Named(m.id.value) else Placed(if m.turnID.Some? then m.turnID.value else "msg", i))
    && g.id == m.id && g.turnID == m.turnID && g.role == m.role && g.kind == m.kind && g.pending == m.pending && g.model == m.model
    && exists cuts :: Cut(Flatten(g.units), Spots(messages), cuts, Own(messages, i), tools)
  }

  /** The units show these positions, cut into single blocks and maximal runs of
      reasoning. */
  ghost predicate Cut<T>(units: seq<Unit<T>>, spots: seq<Spot>, cuts: seq<seq<nat>>, own: seq<nat>, tools: seq<T>) {
    && |units| == |cuts| && Flat(cuts) == own
    && (forall k | 0 <= k < |cuts| :: GoodCut(spots, cuts[k]) && ShownAs(units[k], UnitFor(spots, cuts[k]), tools))
    && (forall k | 0 <= k < |cuts| - 1 :: !(Reasons(spots, cuts[k]) && Reasons(spots, cuts[k + 1])))
  }

  lemma {:induction false} UnitsOfPrefix(spots: seq<Spot>, n: nat, start: nat, end: nat, states: States)
    requires start <= end <= n <= |spots|
    ensures UnitsOf(spots[..n], start, end, states) == UnitsOf(spots, start, end, states)
    decreases end
  {
    hide AddUnit, TrackAll;
    if start < end {
      UnitsOfPrefix(spots, n, start, end - 1, states);
      assert spots[..n][..end - 1] == spots[..end - 1];
    }
  }

  /** The units of message i, in terms of all blocks. */
  function OwnUnits(messages: seq<Message>, i: nat, states: States): seq<Unit<nat>>
    requires i < |messages|
  {
    SpotsOfMessage(messages, i);
    UnitsOf(Spots(messages), From(messages, i), From(messages, i + 1), states)
  }

  lemma OwnUnitsOfFront(messages: seq<Message>, n: nat, i: nat, states: States)
    requires i < n <= |messages|
    ensures OwnUnits(messages[..n], i, states) == OwnUnits(messages, i, states)
  {
    hide UnitsOf, Spots;
    SpotsGrow(messages, n, |messages|);
    assert messages[..|messages|] == messages;
    assert messages[..n][..i] == messages[..i] && messages[..n][..i + 1] == messages[..i + 1];
    SpotsOfMessage(messages[..n], i);
    SpotsOfMessage(messages, i);
    var spots, m := Spots(messages), |Spots(messages[..n])|;
    assert Spots(messages[..n]) == spots[..m];
    UnitsOfPrefix(spots, m, From(messages, i), From(messages, i + 1), states);
  }

  lemma OwnWithin(messages: seq<Message>, i: nat, states: States)
    requires i < |messages|
    ensures Within(OwnUnits(messages, i, states), Count(Spots(messages), states))
  {
    hide UnitsOf, Count, Within, Spots, From;
    SpotsOfMessage(messages, i);
    var spots, end := Spots(messages), From(messages, i + 1);
    WithinAll(spots, From(messages, i), end, states);
  }

  lemma WithinAll(spots: seq<Spot>, start: nat, end: nat, states: States)
    requires start <= end <= |spots|
    ensures Within(UnitsOf(spots, start, end, states), Count(spots, states))
  {
    hide UnitsOf, TrackAll;
    UnitsWithin(spots, start, end, states);
    CountGrows(spots, end, |spots|, states);
    assert spots[..|spots|] == spots;
  }

  lemma ResolvedPrefixTools<T>(units: seq<Unit<nat>>, tools: seq<T>, n: nat)
    requires n <= |tools| && Within(units, n)
    ensures Within(units, |tools|) && Resolved(units, tools[..n]) == Resolved(units, tools)
  {
  }

  lemma Untouched(s: seq<nat>, n: nat)
    requires forall k | 0 <= k < |s| :: s[k] < n
    ensures n !in s
  {
  }

  /** The groups are those of the messages that have one, in order. */
  lemma {:induction false} GroupsOfMessages<T>(messages: seq<Message>, states: States, tools: seq<T>) returns (at: seq<nat>)
    requires Count(Spots(messages), states) == |tools|
    ensures |at| == |Groups(messages, states, tools)|
    ensures forall k | 0 <= k < |at| :: at[k] < |messages| && forall l | 0 <= l < k :: at[l] < at[k]
    ensures forall i | 0 <= i < |messages| ::
      && Within(OwnUnits(messages, i, states), |tools|)
      && (i in at <==> OwnUnits(messages, i, states) != [] || messages[i].pending)
    ensures forall k | 0 <= k < |at| ::
      GroupOf(messages[at[k]], at[k], Resolved(OwnUnits(messages, at[k], states), tools)) == [Groups(messages, states, tools)[k]]
    decreases |messages|
  {
    hide Spots, UnitsOf, GroupOf, Resolved, TrackAll, OwnUnits, Within;
    forall i | 0 <= i < |messages| ensures Within(OwnUnits(messages, i, states), |tools|) { OwnWithin(messages, i, states); }
    if messages == [] {
      at := [];
    } else {
      var n := |messages| - 1;
      var front := messages[..n];
      assert messages[..n + 1] == messages;
      OwnWithin(messages, n, states);
      var c := Count(Spots(front), states);
      LastOwn(messages, states, tools);
      var before := GroupsOfMessages(front, states, tools[..c]);
      var units := OwnUnits(messages, n, states);
      var own := GroupOf(messages[n], n, Resolved(units, tools));
      OneGroup(messages[n], n, units, tools);
      at := before + if own != [] then [n] else [];
      Untouched(before, n);
      forall i | 0 <= i < n ensures OwnUnits(messages, i, states) == OwnUnits(front, i, states) && front[i] == messages[i] {
        OwnUnitsOfFront(messages, n, i, states);
      }
      forall k | 0 <= k < |before|
        ensures GroupOf(messages[at[k]], at[k], Resolved(OwnUnits(messages, at[k], states), tools)) == [Groups(messages, states, tools)[k]]
      {
        ResolvedPrefixTools(OwnUnits(front, at[k], states), tools, c);
        assert Groups(messages, states, tools)[k] == Groups(front, states, tools[..c])[k];
      }
    }
  }

  lemma LastOwn<T>(messages: seq<Message>, states: States, tools: seq<T>)
    requires messages != [] && Count(Spots(messages), states) == |tools|
    ensures var n := |messages| - 1;
      var c := Count(Spots(messages[..n]), states);
      && c <= |tools| && Within(OwnUnits(messages, n, states), |tools|)
      && Groups(messages, states, tools)
        == Groups(messages[..n], states, tools[..c]) + GroupOf(messages[n], n, Resolved(OwnUnits(messages, n, states), tools))
  {
    hide UnitsOf, GroupOf, Resolved, TrackAll, Spots;
    var n := |messages| - 1;
    OwnWithin(messages, n, states);
    SpotsOfMessage(messages, n);
    SpotsGrow(messages, n, n + 1);
    assert messages[..n + 1] == messages;
    var spots := Spots(messages);
    CountGrows(spots, From(messages, n), |spots|, states);
    assert spots[..From(messages, n)] == Spots(messages[..n]) && spots[..|spots|] == spots;
  }

  lemma OneGroup<T>(m: Message, i: nat, units: seq<Unit<nat>>, tools: seq<T>)
    requires Within(units, |tools|)
    ensures var own := GroupOf(m, i, Resolved(units, tools));
      |own| <= 1 && (own != [] <==> units != [] || m.pending)
  {
  }

  lemma VisibleNone(units: seq<Unit<nat>>, spots: seq<Spot>, cuts: seq<seq<nat>>)
    requires Displays(units, spots, cuts)
    ensures units == [] <==> Flat(cuts) == []
  {
    if cuts != [] {
      assert GoodCut(spots, cuts[|cuts| - 1]);
    }
  }

  lemma CutOf<T>(units: seq<Unit<nat>>, spots: seq<Spot>, cuts: seq<seq<nat>>, own: seq<nat>, tools: seq<T>)
    requires Displays(units, spots, cuts) && Flat(cuts) == own && Within(units, |tools|)
    ensures Cut(Resolved(units, tools), spots, cuts, own, tools)
  {
    hide UnitFor, GoodCut, Reasons;
  }

  lemma GroupFields<T>(m: Message, i: nat, units: seq<Unit<T>>, g: MessageGroup<T>)
    requires GroupOf(m, i, units) == [g]
    ensures Flatten(g.units) == units
    ensures g.key == (if m.id.Some? then Named(m.id.value) else Placed(if m.turnID.Some? then m.turnID.value else "msg", i))
    ensures g.id == m.id && g.turnID == m.turnID && g.role == m.role && g.kind == m.kind && g.pending == m.pending && g.model == m.model
  {
    hide FoldFrom, Flatten;
    FoldFlattens(units, []);
    assert Unbatched<T>([]) + units == units;
  }

  /** A message has a group exactly if it is pending or has a block to show; and
      the groups, in the order of their messages, show exactly that. */
  lemma GroupsPresent<T>(messages: seq<Message>, states: States, tools: seq<T>) returns (at: seq<nat>)
    requires Count(Spots(messages), states) == |tools|
    ensures |at| == |Groups(messages, states, tools)|
    ensures forall k | 0 <= k < |at| :: at[k] < |messages| && forall l | 0 <= l < k :: at[l] < at[k]
    ensures forall i | 0 <= i < |messages| :: i in at <==> messages[i].pending || Own(messages, i) != []
    ensures forall k | 0 <= k < |at| :: Presents(Groups(messages, states, tools)[k], messages, at[k], tools)
  {
    hide Groups, UnitsOf, GroupOf, Resolved, TrackAll, Displays, Cut, Flat, Visible, Within, Flatten, Spots, From;
    at := GroupsOfMessages(messages, states, tools);
    forall i | 0 <= i < |messages| ensures OwnUnits(messages, i, states) == [] <==> Own(messages, i) == [] {
      SpotsOfMessage(messages, i);
      var cuts := UnitsDisplay(Spots(messages), From(messages, i), From(messages, i + 1), states);
      VisibleNone(OwnUnits(messages, i, states), Spots(messages), cuts);
    }
    forall k | 0 <= k < |at| ensures Presents(Groups(messages, states, tools)[k], messages, at[k], tools) {
      var i := at[k];
      SpotsOfMessage(messages, i);
      var cuts := UnitsDisplay(Spots(messages), From(messages, i), From(messages, i + 1), states);
      CutOf(OwnUnits(messages, i, states), Spots(messages), cuts, Own(messages, i), tools);
      GroupFields(messages[i], i, Resolved(OwnUnits(messages, i, states), tools), Groups(messages, states, tools)[k]);
    }
  }

  // ----- texts and images -----

  /** Texts and images, the blocks that are shown as they are. */
  predicate Plain(b: Block) {
    b.TextBlock? || b.ImageBlock?
  }

  function PlainBlocks(bs: seq<Block>): seq<Block> {
    if bs == [] then []
    else PlainBlocks(bs[..|bs| - 1]) + if Plain(bs[|bs| - 1]) then [bs[|bs| - 1]] else []
  }

  function PlainUnits<T>(units: seq<Unit<T>>): seq<Block> {
    if units == [] then []
    else
      var u := units[|units| - 1];
      PlainUnits(units[..|units| - 1]) + if u.BlockUnit? then [u.block] else []
  }

  function PlainAt(spots: seq<Spot>, at: seq<nat>): seq<Block>
    requires forall k | 0 <= k < |at| :: at[k] < |spots|
  {
    PlainBlocks(BlocksAt(spots, at))
  }

  lemma PlainMore(bs: seq<Block>, b: Block)
    ensures PlainBlocks(bs + [b]) == PlainBlocks(bs) + if Plain(b) then [b] else []
  {
    assert (bs + [b])[..|bs|] == bs;
  }

  lemma {:induction false} PlainConcat(a: seq<Block>, b: seq<Block>)
    ensures PlainBlocks(a + b) == PlainBlocks(a) + PlainBlocks(b)
    decreases |b|
  {
    if b == [] {
      assert a + b == a;
    } else {
      hide Plain;
      var n := |b| - 1;
      PlainConcat(a, b[..n]);
      assert a + b == a + b[..n] + [b[n]];
      PlainMore(a + b[..n], b[n]);
      assert b == b[..n] + [b[n]];
      PlainMore(b[..n], b[n]);
    }
  }

  /** A stretch of reasoning, or a tool, has neither. */
  lemma {:induction false} PlainOfCut(spots: seq<Spot>, cut: seq<nat>)
    requires GoodCut(spots, cut)
    ensures PlainAt(spots, cut) == var u := UnitFor(spots, cut); if u.BlockUnit? then [u.block] else []
  {
    hide Together;
    if spots[cut[0]].block.ReasoningBlock? {
      NothingPlain(BlocksAt(spots, cut));
    } else {
      var b := spots[cut[0]].block;
      assert BlocksAt(spots, cut) == [] + [b];
      PlainMore([], b);
      PlainNone();
    }
  }

  lemma {:induction false} NothingPlain(bs: seq<Block>)
    requires AllReasoning(bs)
    ensures PlainBlocks(bs) == []
    decreases |bs|
  {
    if bs != [] { NothingPlain(bs[..|bs| - 1]); }
  }

  lemma {:induction false} FlatInside(spots: seq<Spot>, cuts: seq<seq<nat>>)
    requires forall k | 0 <= k < |cuts| :: GoodCut(spots, cuts[k])
    ensures forall k | 0 <= k < |Flat(cuts)| :: Flat(cuts)[k] < |spots|
    decreases |cuts|
  {
    hide UnitFor;
    if cuts != [] {
      FlatInside(spots, cuts[..|cuts| - 1]);
      assert GoodCut(spots, cuts[|cuts| - 1]);
    }
  }

  lemma {:induction false} PlainOfCuts<T>(units: seq<Unit<T>>, spots: seq<Spot>, cuts: seq<seq<nat>>, tools: seq<T>)
    requires |units| == |cuts|
    requires forall k | 0 <= k < |cuts| :: GoodCut(spots, cuts[k]) && ShownAs(units[k], UnitFor(spots, cuts[k]), tools)
    requires forall k | 0 <= k < |Flat(cuts)| :: Flat(cuts)[k] < |spots|
    ensures PlainUnits(units) == PlainAt(spots, Flat(cuts))
    decreases |cuts|
  {
    hide UnitFor, PlainBlocks;
    if cuts == [] {
      PlainNone();
    } else {
      var n := |cuts| - 1;
      FlatInside(spots, cuts[..n]);
      PlainOfCuts(units[..n], spots, cuts[..n], tools);
      assert GoodCut(spots, cuts[n]);
      PlainOfCut(spots, cuts[n]);
      assert BlocksAt(spots, Flat(cuts)) == BlocksAt(spots, Flat(cuts[..n])) + BlocksAt(spots, cuts[n]);
      PlainConcat(BlocksAt(spots, Flat(cuts[..n])), BlocksAt(spots, cuts[n]));
    }
  }

  lemma PlainNone()
    ensures PlainBlocks([]) == []
  {
  }

  /** What is not visible is neither. */
  lemma {:induction false} PlainVisible(spots: seq<Spot>, start: nat, end: nat)
    requires start <= end <= |spots|
    ensures PlainAt(spots, Visible(spots, start, end)) == PlainBlocks(seq(end - start, k requires 0 <= k < end - start => spots[start + k].block))
    decreases end
  {
    hide PlainBlocks, JoinsTool;
    var all := seq(end - start, k requires 0 <= k < end - start => spots[start + k].block);
    if start == end {
      assert BlocksAt(spots, Visible(spots, start, end)) == [] && all == [];
    } else {
      var front := seq(end - 1 - start, k requires 0 <= k < end - 1 - start => spots[start + k].block);
      PlainVisible(spots, start, end - 1);
      assert all == front + [spots[end - 1].block];
      PlainMore(front, spots[end - 1].block);
      var own := Visible(spots, start, end - 1);
      if JoinsTool(spots, end - 1) {
        JoinedIsNotPlain(spots, end - 1);
        assert own + [] == own;
      } else {
        assert BlocksAt(spots, own + [end - 1]) == BlocksAt(spots, own) + [spots[end - 1].block];
        PlainMore(BlocksAt(spots, own), spots[end - 1].block);
      }
    }
  }

  lemma JoinedIsNotPlain(spots: seq<Spot>, p: nat)
    requires p < |spots| && JoinsTool(spots, p)
    ensures !Plain(spots[p].block)
  {
  }

  /** The texts and images of a group are those of its message, all of them, in
      order. */
  lemma TextAndImagesShown<T>(g: MessageGroup<T>, messages: seq<Message>, i: nat, tools: seq<T>)
    requires i < |messages| && Presents(g, messages, i, tools)
    ensures PlainUnits(Flatten(g.units)) == PlainBlocks(messages[i].blocks)
  {
    hide Spots, PlainBlocks, UnitFor, GoodCut, Reasons, Flatten, Visible, From;
    var spots := Spots(messages);
    var cuts :| Cut(Flatten(g.units), spots, cuts, Own(messages, i), tools);
    SpotsOfMessage(messages, i);
    FlatInside(spots, cuts);
    PlainOfCuts(Flatten(g.units), spots, cuts, tools);
    var start, end := From(messages, i), From(messages, i + 1);
    PlainVisible(spots, start, end);
    assert seq(end - start, k requires 0 <= k < end - start => spots[start + k].block) == messages[i].blocks;
  }
}
