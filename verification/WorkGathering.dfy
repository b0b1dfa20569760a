/** Which groups are gathered into one item, said of their units, models and
    turns: where an item begins, how far it goes, and when it is in progress. */
module WorkGathering {
  import opened JsText
  import opened Transcript
  import opened DisplayUnits
  import opened WorkGroups
  import opened WorkProperties

  // ----- what a group is -----

  /** An assistant's group that is not some notice. */
  predicate Ordinary(g: Group) {
    g.role.Assistant? && (g.kind.None? || g.kind.value == "")
  }

  predicate HoldsTool(u: Shown) {
    if u.Batch? then u.tools != [] else u.unit.ToolUnit?
  }

  predicate HoldsContent(u: Shown) {
    u.Single? && u.unit.BlockUnit? &&
    (u.unit.block.ImageBlock? || (u.unit.block.TextBlock? && Trim(u.unit.block.text) != []))
  }

  predicate IsBlank(u: Shown) {
    u.Single? && u.unit.BlockUnit? && u.unit.block.TextBlock? && Trim(u.unit.block.text) == []
  }

  predicate HoldsWork(u: Shown) {
    u.Batch? || u.unit.ReasoningUnit? || u.unit.ToolUnit?
  }

  predicate UsesTools(g: Group) {
    Ordinary(g) && exists k | 0 <= k < |g.units| :: HoldsTool(g.units[k])
  }

  predicate ShowsContent(g: Group) {
    exists k | 0 <= k < |g.units| :: HoldsContent(g.units[k])
  }

  /** Nothing but work so far. */
  predicate Works(g: Group) {
    && Ordinary(g) && !ShowsContent(g)
    && (g.pending || forall k | 0 <= k < |g.units| :: HoldsWork(g.units[k]) || IsBlank(g.units[k]))
  }

  predicate Answers(g: Group) {
    Ordinary(g) && ShowsContent(g)
  }

  /** The model first named, its name trimmed; a blank name names none. */
  function FirstModel(groups: seq<Group>): Option<string> {
    if groups == [] then None
    else
      var front, model := FirstModel(groups[..|groups| - 1]), groups[|groups| - 1].model;
      if front.Some? then front
      else if model.Some? && TrimString(model.value) != "" then Some(TrimString(model.value)) else None
  }

  /** The next group is of another model, or of another turn. */
  predicate PartsFrom(groups: seq<Group>, g: Group) {
    var model, turn := FirstModel(groups), FirstTurn(groups);
    || (model.Some? && g.model.Some? && TrimString(g.model.value) != "" && Some(TrimString(g.model.value)) != model)
    || (turn.Some? && turn.value != "" && g.turnID.Some? && g.turnID.value != "" && g.turnID != turn)
  }

  // ----- what an item gathers -----

  function FirstOf(s: Stretch): (g: Group)
    requires s.Work? ==> s.groups != []
  {
    if s.Alone? then s.group else s.groups[0]
  }

  /** The groups so far can be part of one item that is still open. */
  predicate Open(groups: seq<Group>) {
    && groups != [] && UsesTools(groups[0])
    && (forall i | 0 <= i < |groups| :: !ShowsContent(groups[i]))
    && (forall i | 0 < i < |groups| :: Works(groups[i]) && !PartsFrom(groups[..i], groups[i]))
  }

  /** What a stretch gathers. A group stands alone only if it uses no tool. Work
      begins with a group that does, and goes on as long as there is nothing but
      work, up to and including the first group with content; it stops short of
      that only at the end, or before a group of another model or turn, or one
      that neither works nor answers. It is in progress exactly when it is last,
      has no content yet, and the turn that is active is its own. */
  predicate Gathers(s: Stretch, next: Option<Group>, tail: Tail) {
    match s
    case Alone(g) => !UsesTools(g)
    case Work(groups, model, phase) =>
      groups != [] &&
      var n := |groups| - 1;
      && (if n == 0 then UsesTools(groups[0])
          else Open(groups[..n]) && (Works(groups[n]) || Answers(groups[n])) && !PartsFrom(groups[..n], groups[n]))
      && (ShowsContent(groups[n]) || next.None? || PartsFrom(groups, next.value) || !(Works(next.value) || Answers(next.value)))
      && model == FirstModel(groups)
      && (phase.InProgress? <==>
            next.None? && !ShowsContent(groups[n]) && tail.active
            && (tail.turnID.None? || tail.turnID.value == "" || tail.turnID == FirstTurn(groups)))
  }

  function NextAfter(ss: seq<Stretch>, k: nat): Option<Group>
    requires k < |ss| && NonEmpty(ss)
  {
    if k + 1 < |ss| then (assert ss[k + 1] in ss; Some(FirstOf(ss[k + 1]))) else None
  }

  predicate AllGather(ss: seq<Stretch>, tail: Tail)
    requires NonEmpty(ss)
  {
    forall k | 0 <= k < |ss| :: Gathers(ss[k], NextAfter(ss, k), tail)
  }

  // ----- the two vocabularies -----

  lemma {:induction false} ToolsHeld(units: seq<Shown>)
    ensures ToolsOf(units) > 0 <==> exists k | 0 <= k < |units| :: HoldsTool(units[k])
    decreases |units|
  {
    if units != [] {
      ToolsHeld(units[1..]);
      assert units == [units[0]] + units[1..];
      if k :| 0 <= k < |units[1..]| && HoldsTool(units[1..][k]) { assert HoldsTool(units[k + 1]); }
    }
  }

  lemma GroupIs(g: Group)
    ensures CanStartWork(g) <==> UsesTools(g)
    ensures HasVisibleContent(g) <==> ShowsContent(g)
    ensures CanContinueWork(g) <==> Works(g)
    ensures CanCompleteWork(g) <==> Answers(g)
  {
    ToolsHeld(g.units);
    forall k | 0 <= k < |g.units|
      ensures IsVisible(g.units[k]) <==> HoldsContent(g.units[k])
      ensures (IsProcess(g.units[k]) || (IsText(g.units[k]) && !IsNonEmptyText(g.units[k]))) <==> HoldsWork(g.units[k]) || IsBlank(g.units[k])
    {
      assert g.units[k] in g.units;
    }
  }

  /** A buffer that stands for these groups. */
  predicate Gathering(b: Buffer) {
    Open(b.groups) && b.model == FirstModel(b.groups) && b.turnID == FirstTurn(b.groups)
  }

  lemma DisagreesIs(b: Buffer, g: Group)
    requires b.model == FirstModel(b.groups) && b.turnID == FirstTurn(b.groups)
    ensures Disagrees(b, g) <==> PartsFrom(b.groups, g)
  {
  }

  lemma ExtendedIs(b: Buffer, g: Group)
    requires b.model == FirstModel(b.groups) && b.turnID == FirstTurn(b.groups)
    ensures var e := Extended(b, g);
      e.groups[..|e.groups| - 1] == b.groups && e.groups[|e.groups| - 1] == g
      && e.model == FirstModel(e.groups) && e.turnID == FirstTurn(e.groups)
  {
    assert (b.groups + [g])[..|b.groups|] == b.groups;
  }

  lemma OpenedIs(g: Group)
    ensures Opened(g).model == FirstModel([g]) && Opened(g).turnID == FirstTurn([g])
  {
    assert [g][..0] == [];
    assert FirstTurn([]) == None && FirstModel([]) == None;
  }

  lemma StillOpen(b: Buffer, g: Group)
    requires Gathering(b) && Works(g) && !PartsFrom(b.groups, g)
    ensures Gathering(Extended(b, g))
  {
    hide Works, PartsFrom, UsesTools, FirstModel, FirstTurn;
    ExtendedIs(b, g);
    var all := b.groups + [g];
    assert !ShowsContent(g) by { WorksQuietly(g); }
    forall i | 0 < i < |all| ensures Works(all[i]) && !PartsFrom(all[..i], all[i]) {
      if i < |b.groups| { assert all[..i] == b.groups[..i] && all[i] == b.groups[i]; } else { assert all[..i] == b.groups; }
    }
  }

  lemma WorksQuietly(g: Group)
    requires Works(g)
    ensures !ShowsContent(g)
  {
  }

  lemma OpenParts(groups: seq<Group>)
    requires Open(groups)
    ensures var n := |groups| - 1;
      && (if n == 0 then UsesTools(groups[0]) else Open(groups[..n]) && Works(groups[n]) && !PartsFrom(groups[..n], groups[n]))
      && !ShowsContent(groups[n])
  {
    hide Works, PartsFrom, UsesTools, ShowsContent;
    var n := |groups| - 1;
    forall i | 0 < i < n ensures !PartsFrom(groups[..n][..i], groups[i]) { assert groups[..n][..i] == groups[..i]; }
  }

  // ----- the items -----

  lemma FirstIsNext(groups: seq<Group>, index: nat, tail: Tail)
    requires index < |groups|
    ensures var ss := Stretches(groups, index, None, tail);
      NonEmpty(ss) && ss != [] && (ss[0].Work? ==> ss[0].groups != []) && FirstOf(ss[0]) == groups[index]
  {
    hide Stretches;
    StretchesNonEmpty(groups, index, None, tail);
    StretchesPartition(groups, index, None, tail);
    var ss := Stretches(groups, index, None, tail);
    assert Behind(ss)[0] == groups[index];
    assert ss[0] in ss && Behind(ss) == GroupsOf(ss[0]) + Behind(ss[1..]);
  }

  lemma OneMore(s: Stretch, rest: seq<Stretch>, tail: Tail)
    requires NonEmpty(rest) && AllGather(rest, tail) && (s.Work? ==> s.groups != [])
    requires rest != [] ==> rest[0] in rest && Gathers(s, Some(FirstOf(rest[0])), tail)
    requires rest == [] ==> Gathers(s, None, tail)
    ensures NonEmpty([s] + rest) && AllGather([s] + rest, tail)
  {
    hide Gathers;
    var ss := [s] + rest;
    forall t | t in ss && t.Work? ensures t.groups != [] {}
    forall k | 0 <= k < |ss| ensures Gathers(ss[k], NextAfter(ss, k), tail) {
      if k > 0 { assert ss[k] == rest[k - 1] && NextAfter(ss, k) == NextAfter(rest, k - 1); }
    }
  }

  lemma {:induction false} StretchesGather(groups: seq<Group>, index: nat, buffer: Option<Buffer>, tail: Tail)
    requires index <= |groups| && (buffer.Some? ==> Gathering(buffer.value))
    ensures var ss := Stretches(groups, index, buffer, tail); NonEmpty(ss) && AllGather(ss, tail)
    decreases |groups| - index, if buffer.Some? then 1 else 0
  {
    hide HasVisibleContent, CanStartWork, CanContinueWork, CanCompleteWork, Disagrees, Gathers, AllGather, Gathering, Open,
      UsesTools, ShowsContent, Works, Answers, PartsFrom;
    if index == |groups| {
      NoneGather(tail);
      if buffer.Some? { LastGathers(buffer.value, tail); }
    } else {
      var g := groups[index];
      GroupIs(g);
      if buffer.None? {
        if CanStartWork(g) && !HasVisibleContent(g) {
          OpenedGathers(g);
          StretchesGather(groups, index + 1, Some(Opened(g)), tail);
        } else {
          StretchesGather(groups, index + 1, None, tail);
          var s := if CanStartWork(g) then Closed(Opened(g)) else Alone(g);
          forall next ensures Gathers(s, next, tail) { SingleGathers(g, next, tail); }
          OneMore(s, Stretches(groups, index + 1, None, tail), tail);
        }
      } else {
        var b := buffer.value;
        GatheringIs(b);
        DisagreesIs(b, g);
        if Disagrees(b, g) || (!CanCompleteWork(g) && !CanContinueWork(g)) {
          StretchesGather(groups, index, None, tail);
          FirstIsNext(groups, index, tail);
          ClosedGathers(b, g, tail);
          OneMore(Closed(b), Stretches(groups, index, None, tail), tail);
        } else if CanCompleteWork(g) {
          StretchesGather(groups, index + 1, None, tail);
          forall next ensures Gathers(Closed(Extended(b, g)), next, tail) { CompletedGathers(b, g, next, tail); }
          OneMore(Closed(Extended(b, g)), Stretches(groups, index + 1, None, tail), tail);
        } else {
          StillOpen(b, g);
          StretchesGather(groups, index + 1, Some(Extended(b, g)), tail);
        }
      }
    }
  }

  lemma NoneGather(tail: Tail)
    ensures NonEmpty([]) && AllGather([], tail)
  {
  }

  lemma GatheringIs(b: Buffer)
    requires Gathering(b)
    ensures b.groups != [] && Open(b.groups) && b.model == FirstModel(b.groups) && b.turnID == FirstTurn(b.groups)
  {
  }

  lemma OpenedGathers(g: Group)
    requires UsesTools(g) && !ShowsContent(g)
    ensures Gathering(Opened(g))
  {
    OpenedIs(g);
  }

  lemma SingleGathers(g: Group, next: Option<Group>, tail: Tail)
    requires UsesTools(g) ==> ShowsContent(g)
    ensures Gathers(if CanStartWork(g) then Closed(Opened(g)) else Alone(g), next, tail)
  {
    GroupIs(g);
    OpenedIs(g);
    hide UsesTools, ShowsContent, Works, Answers, PartsFrom, CanStartWork;
  }

  lemma LastGathers(b: Buffer, tail: Tail)
    requires Gathering(b)
    ensures var ss := [Work(b.groups, b.model, LastPhase(b, tail))]; NonEmpty(ss) && AllGather(ss, tail)
  {
    OpenParts(b.groups);
    NoneGather(tail);
    hide UsesTools, ShowsContent, Works, Answers, PartsFrom, Open;
    var s := Work(b.groups, b.model, LastPhase(b, tail));
    assert Gathers(s, None, tail);
    OneMore(s, [], tail);
    assert [s] + [] == [s];
  }

  lemma ClosedGathers(b: Buffer, g: Group, tail: Tail)
    requires Gathering(b) && (PartsFrom(b.groups, g) || !(Works(g) || Answers(g)))
    ensures Gathers(Closed(b), Some(g), tail)
  {
    OpenParts(b.groups);
    hide UsesTools, ShowsContent, Works, Answers, PartsFrom, Open;
  }

  lemma CompletedGathers(b: Buffer, g: Group, next: Option<Group>, tail: Tail)
    requires Gathering(b) && Answers(g) && !PartsFrom(b.groups, g)
    ensures Gathers(Closed(Extended(b, g)), next, tail)
  {
    ExtendedIs(b, g);
    assert ShowsContent(g);
    hide UsesTools, ShowsContent, Works, Answers, PartsFrom, Open;
  }

  /** Every item gathers what it should, no more and no less: together with
      these being the input one after another, this leaves no choice. */
  lemma ItemsGather(groups: seq<Group>, tail: Tail)
    ensures var ss := Stretches(groups, 0, None, tail); NonEmpty(ss) && AllGather(ss, tail)
  {
    hide AllGather, Stretches;
    StretchesGather(groups, 0, None, tail);
  }

  // ----- what an item holds -----

  /** A tool of the unit is the call with this id. */
  predicate NamesCall(u: Shown, id: string) {
    if u.Batch? then exists k | 0 <= k < |u.tools| :: UseID(u.tools[k]) == id
    else u.unit.ToolUnit? && UseID(u.unit.tool) == id
  }

  lemma {:induction false} FirstNamed(tools: seq<Tool>)
    ensures var id := FirstID(tools);
      if id == "" then forall k | 0 <= k < |tools| :: UseID(tools[k]) == ""
      else exists k | 0 <= k < |tools| :: UseID(tools[k]) == id
  {
    if tools != [] {
      FirstNamed(tools[1..]);
      assert tools == [tools[0]] + tools[1..];
    }
  }

  lemma {:induction false} FirstCall(units: seq<Shown>)
    ensures var id := FirstToolUseID(units);
      if id == "" then forall k, other | 0 <= k < |units| && NamesCall(units[k], other) :: other == ""
      else exists k | 0 <= k < |units| :: NamesCall(units[k], id)
  {
    if units != [] {
      FirstCall(units[1..]);
      assert units == [units[0]] + units[1..];
      if units[0].Batch? { FirstNamed(units[0].tools); }
      assert forall k | 0 < k < |units| :: units[k] == units[1..][k - 1];
    }
  }

  /** A part per group that has work to show, in order and numbered. */
  ghost predicate PartsOf(groups: seq<Group>, parts: seq<Part>, at: seq<nat>) {
    && |at| == |parts|
    && (forall i | 0 <= i < |parts| ::
          at[i] < |groups| && parts[i] == Part(groups[at[i]], i, Where(groups[at[i]].units, HoldsWork)) && parts[i].units != [])
    && (forall i, j | 0 <= i < j < |parts| :: at[i] < at[j])
    && (forall k | 0 <= k < |groups| :: k in at <==> Where(groups[k].units, HoldsWork) != [])
  }

  lemma {:induction false} SameWork(units: seq<Shown>)
    ensures Where(units, HoldsWork) == Where(units, IsProcess)
    ensures Where(units, HoldsText) == Where(units, IsContent)
    decreases |units|
  {
    if units != [] { SameWork(units[..|units| - 1]); }
  }

  /** Text, even blank, or an image. */
  predicate HoldsText(u: Shown) {
    u.Single? && u.unit.BlockUnit? && (u.unit.block.TextBlock? || u.unit.block.ImageBlock?)
  }

  lemma PartsMore(groups: seq<Group>, parts: seq<Part>, at: seq<nat>, g: Group)
    requires PartsOf(groups, parts, at)
    ensures var own := Where(g.units, HoldsWork);
      if own == [] then PartsOf(groups + [g], parts, at)
      else PartsOf(groups + [g], parts + [Part(g, |parts|, own)], at + [|groups|])
  {
    hide Where;
    var all := groups + [g];
    assert forall k | 0 <= k < |groups| :: all[k] == groups[k];
    assert |groups| !in at;
    assert forall k | k in at + [|groups|] :: k in at || k == |groups|;
  }

  lemma {:induction false} PartsAre(groups: seq<Group>) returns (at: seq<nat>)
    ensures PartsOf(groups, ProcessParts(groups), at)
    decreases |groups|
  {
    hide Where, PartsOf;
    at := [];
    if groups == [] {
      NoParts();
    } else {
      var front, g := groups[..|groups| - 1], groups[|groups| - 1];
      var before := PartsAre(front);
      SameWork(g.units);
      PartsMore(front, ProcessParts(front), before, g);
      assert front + [g] == groups;
      at := if Where(g.units, IsProcess) == [] then before else before + [|front|];
    }
  }

  lemma NoParts()
    ensures PartsOf([], [], [])
  {
  }

  /** An item has the identity of a call of its first group, or of that group if
      there is none; the work of its groups part by part; and, once done, the
      text and images of its last group. */
  lemma ItemHolds(s: Stretch) returns (at: seq<nat>)
    requires s.Work? && s.groups != []
    ensures var item, first, last := ItemOf(s), s.groups[0], s.groups[|s.groups| - 1];
      && item.WorkItem? && item.model == s.model && item.phase == s.phase
      && (item.key.ByTool? ==> item.key.id != "" && exists k | 0 <= k < |first.units| :: NamesCall(first.units[k], item.key.id))
      && (item.key.ByGroup? ==>
            item.key.key == first.key && forall k, id | 0 <= k < |first.units| && NamesCall(first.units[k], id) :: id == "")
      && PartsOf(s.groups, item.processGroups, at)
      && item.contentGroup == (if s.phase.Done? && Where(last.units, HoldsText) != []
                               then Some(Part(last, 0, Where(last.units, HoldsText))) else None)
  {
    hide Where, NamesCall, PartsOf, ProcessParts, FirstToolUseID;
    FirstCall(s.groups[0].units);
    at := PartsAre(s.groups);
    SameWork(s.groups[|s.groups| - 1].units);
  }
}
