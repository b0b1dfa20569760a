/** Gathering an assistant's tool work and the answer that ends it into one
    item of the transcript. */
module WorkGroups {
  import opened Sequences
  import opened JsText
  import opened Transcript
  import opened DisplayUnits

  type Group = MessageGroup<Tool>

  type Shown = DisplayUnit<Tool>

  datatype Phase = InProgress | Done

  datatype WorkKey = ByTool(id: string) | ByGroup(key: Key)

  /** A group reduced to some of its units, under a key made from the item's. */
  datatype Part = Part(group: Group, place: nat, units: seq<Shown>)

  datatype Item =
    | MessageItem(group: Group)
    | WorkItem(key: WorkKey, model: Option<string>, phase: Phase, processGroups: seq<Part>, contentGroup: Option<Part>,
               toolCount: nat)

  // ----- looking at a group -----

  predicate IsProcess(u: Shown) {
    u.Batch? || u.unit.ReasoningUnit? || u.unit.ToolUnit?
  }

  predicate IsText(u: Shown) {
    u.Single? && u.unit.BlockUnit? && u.unit.block.TextBlock?
  }

  predicate IsImage(u: Shown) {
    u.Single? && u.unit.BlockUnit? && u.unit.block.ImageBlock?
  }

  predicate IsContent(u: Shown) {
    IsText(u) || IsImage(u)
  }

  predicate IsNonEmptyText(u: Shown) {
    IsText(u) && Trim(u.unit.block.text) != []
  }

  /** Something a reader sees besides the work. */
  predicate IsVisible(u: Shown) {
    IsNonEmptyText(u) || IsImage(u)
  }

  predicate HasVisibleContent(g: Group) {
    exists u | u in g.units :: IsVisible(u)
  }

  function ToolsOf(units: seq<Shown>): nat {
    if units == [] then 0
    else
      (if units[0].Batch? then |units[0].tools| else if units[0].unit.ToolUnit? then 1 else 0) + ToolsOf(units[1..])
  }

  predicate IsNormalAssistant(g: Group) {
    g.role.Assistant? && !Truthy(g.kind)
  }

  predicate CanStartWork(g: Group) {
    IsNormalAssistant(g) && ToolsOf(g.units) > 0
  }

  predicate CanContinueWork(g: Group) {
    && IsNormalAssistant(g) && !HasVisibleContent(g)
    && (g.pending || forall u | u in g.units :: IsProcess(u) || (IsText(u) && !IsNonEmptyText(u)))
  }

  predicate CanCompleteWork(g: Group) {
    IsNormalAssistant(g) && HasVisibleContent(g)
  }

  /** normalizedModel */
  function Normalized(model: Option<string>): Option<string> {
    if model.None? || TrimString(model.value) == "" then None else Some(TrimString(model.value))
  }

  // ----- one item -----

  function Where<T>(s: seq<T>, p: T -> bool): seq<T> {
    if s == [] then [] else Where(s[..|s| - 1], p) + if p(s[|s| - 1]) then [s[|s| - 1]] else []
  }

  function UseID(tool: Tool): string {
    if tool.use.Some? && tool.use.value.ToolUse? then TrimString(tool.use.value.toolUseID) else ""
  }

  function FirstID(tools: seq<Tool>): string {
    if tools == [] then "" else if UseID(tools[0]) != "" then UseID(tools[0]) else FirstID(tools[1..])
  }

  function FirstToolUseID(units: seq<Shown>): string {
    if units == [] then ""
    else
      var id := if units[0].Batch? then FirstID(units[0].tools)
                else if units[0].unit.ToolUnit? then UseID(units[0].unit.tool) else "";
      if id != "" then id else FirstToolUseID(units[1..])
  }

  function ProcessParts(groups: seq<Group>): (r: seq<Part>) {
    if groups == [] then []
    else
      var front, g := ProcessParts(groups[..|groups| - 1]), groups[|groups| - 1];
      var units := Where(g.units, IsProcess);
      if units == [] then front else front + [Part(g, |front|, units)]
  }

  function CountTools(groups: seq<Group>): nat {
    if groups == [] then 0 else CountTools(groups[..|groups| - 1]) + ToolsOf(groups[|groups| - 1].units)
  }

  function ContentPart(groups: seq<Group>, phase: Phase): Option<Part>
    requires groups != []
  {
    var last := groups[|groups| - 1];
    var units := Where(last.units, IsContent);
    if phase.Done? && units != [] then Some(Part(last, 0, units)) else None
  }

  function WorkOf(groups: seq<Group>, model: Option<string>, phase: Phase): Item
    requires groups != []
  {
    var id := FirstToolUseID(groups[0].units);
    WorkItem(if id != "" then ByTool(id) else ByGroup(groups[0].key), model, phase, ProcessParts(groups),
             ContentPart(groups, phase), CountTools(groups))
  }

  method FilterUnits(units: seq<Shown>, p: Shown -> bool) returns (kept: seq<Shown>)
    ensures kept == Where(units, p)
  {
    kept := [];
    var i := 0;
    while i < |units|
      invariant 0 <= i <= |units|
      invariant kept == Where(units[..i], p)
    {
      assert units[..i + 1][..i] == units[..i];
      if p(units[i]) { kept := kept + [units[i]]; }
      i := i + 1;
    }
    assert units[..i] == units;
  }

  /** buildWorkItem */
  method BuildWorkItem(groups: seq<Group>, model: Option<string>, phase: Phase) returns (item: Item)
    requires groups != []
    ensures item == WorkOf(groups, model, phase)
  {
    var firstToolID := FirstToolUseID(groups[0].units);
    var key := if firstToolID != "" then ByTool(firstToolID) else ByGroup(groups[0].key);
    var processGroups: seq<Part> := [];
    var processIndex, toolCount := 0, 0;
    var i := 0;
    while i < |groups|
      invariant 0 <= i <= |groups|
      invariant processGroups == ProcessParts(groups[..i]) && processIndex == |processGroups|
      invariant toolCount == CountTools(groups[..i])
    {
      assert groups[..i + 1][..i] == groups[..i];
      var units := FilterUnits(groups[i].units, IsProcess);
      toolCount := toolCount + ToolsOf(groups[i].units);
      if |units| > 0 {
        processGroups := processGroups + [Part(groups[i], processIndex, units)];
        processIndex := processIndex + 1;
      }
      i := i + 1;
    }
    assert groups[..i] == groups;
    var contentGroup: Option<Part> := None;
    if phase.Done? {
      var last := groups[|groups| - 1];
      var contentUnits := FilterUnits(last.units, IsContent);
      if |contentUnits| > 0 { contentGroup := Some(Part(last, 0, contentUnits)); }
    }
    item := WorkItem(key, model, phase, processGroups, contentGroup, toolCount);
  }

  // ----- the partition -----

  /** The groups behind one item. */
  datatype Stretch = Alone(group: Group) | Work(groups: seq<Group>, model: Option<string>, phase: Phase)

  datatype Buffer = Buffer(groups: seq<Group>, model: Option<string>, turnID: Option<string>)

  datatype Tail = Tail(active: bool, turnID: Option<string>)

  /** The next group speaks for another model or another turn. */
  predicate Disagrees(b: Buffer, g: Group) {
    || (b.model.Some? && Normalized(g.model).Some? && Normalized(g.model) != b.model)
    || (Truthy(b.turnID) && Truthy(g.turnID) && b.turnID != g.turnID)
  }

  function Extended(b: Buffer, g: Group): Buffer {
    Buffer(b.groups + [g], OrElse(b.model, Normalized(g.model)), OrElse(b.turnID, g.turnID))
  }

  function Opened(g: Group): Buffer {
    Buffer([g], Normalized(g.model), g.turnID)
  }

  function Closed(b: Buffer): Stretch {
    Work(b.groups, b.model, Done)
  }

  function LastPhase(b: Buffer, tail: Tail): Phase {
    if tail.active && (!Truthy(tail.turnID) || tail.turnID == b.turnID) then InProgress else Done
  }

  /** What the loop makes of the groups from `index` on, with this buffer. */
  function Stretches(groups: seq<Group>, index: nat, buffer: Option<Buffer>, tail: Tail): seq<Stretch>
    requires index <= |groups|
    decreases |groups| - index, if buffer.Some? then 1 else 0
  {
    if index == |groups| then
      if buffer.None? then [] else [Work(buffer.value.groups, buffer.value.model, LastPhase(buffer.value, tail))]
    else
      var g := groups[index];
      if buffer.None? then
        if !CanStartWork(g) then [Alone(g)] + Stretches(groups, index + 1, None, tail)
        else if HasVisibleContent(g) then [Closed(Opened(g))] + Stretches(groups, index + 1, None, tail)
        else Stretches(groups, index + 1, Some(Opened(g)), tail)
      else
        var b := buffer.value;
        if Disagrees(b, g) then [Closed(b)] + Stretches(groups, index, None, tail)
        else if CanCompleteWork(g) then [Closed(Extended(b, g))] + Stretches(groups, index + 1, None, tail)
        else if CanContinueWork(g) then Stretches(groups, index + 1, Some(Extended(b, g)), tail)
        else [Closed(b)] + Stretches(groups, index, None, tail)
  }

  function ItemOf(s: Stretch): Item
    requires s.Work? ==> s.groups != []
  {
    match s
    case Alone(g) => MessageItem(g)
    case Work(groups, model, phase) => WorkOf(groups, model, phase)
  }

  predicate NonEmpty(ss: seq<Stretch>) {
    forall s | s in ss && s.Work? :: s.groups != []
  }

  function ItemsOf(ss: seq<Stretch>): seq<Item>
    requires NonEmpty(ss)
  {
    seq(|ss|, i requires 0 <= i < |ss| => assert ss[i] in ss; ItemOf(ss[i]))
  }

  lemma {:induction false} StretchesNonEmpty(groups: seq<Group>, index: nat, buffer: Option<Buffer>, tail: Tail)
    requires index <= |groups| && (buffer.Some? ==> buffer.value.groups != [])
    ensures NonEmpty(Stretches(groups, index, buffer, tail))
    decreases |groups| - index, if buffer.Some? then 1 else 0
  {
    if index < |groups| {
      var g := groups[index];
      if buffer.None? {
        if CanStartWork(g) && !HasVisibleContent(g) {
          StretchesNonEmpty(groups, index + 1, Some(Opened(g)), tail);
        } else {
          StretchesNonEmpty(groups, index + 1, None, tail);
        }
      } else if Disagrees(buffer.value, g) || (!CanCompleteWork(g) && !CanContinueWork(g)) {
        StretchesNonEmpty(groups, index, None, tail);
      } else if CanCompleteWork(g) {
        StretchesNonEmpty(groups, index + 1, None, tail);
      } else {
        StretchesNonEmpty(groups, index + 1, Some(Extended(buffer.value, g)), tail);
      }
    }
  }

  lemma ItemsConcat(a: seq<Stretch>, s: Stretch)
    requires NonEmpty(a) && (s.Work? ==> s.groups != [])
    ensures NonEmpty(a + [s]) && ItemsOf(a + [s]) == ItemsOf(a) + [ItemOf(s)]
  {
  }

  lemma NothingYet()
    ensures NonEmpty([]) && ItemsOf([]) == []
  {
  }

  method PushWork(items: seq<Item>, groups: seq<Group>, model: Option<string>, phase: Phase,
                  ghost done: seq<Stretch>, ghost rest: seq<Stretch>)
    returns (pushed: seq<Item>)
    requires groups != [] && NonEmpty(done) && items == ItemsOf(done)
    ensures var s := Work(groups, model, phase);
      NonEmpty(done + [s]) && pushed == ItemsOf(done + [s]) && done + ([s] + rest) == done + [s] + rest
  {
    hide WorkOf, ItemsOf, NonEmpty;
    var item := BuildWorkItem(groups, model, phase);
    ItemsConcat(done, Work(groups, model, phase));
    Associative(done, [Work(groups, model, phase)], rest);
    pushed := items + [item];
  }

  /** assistantWorkItems */
  method AssistantWorkItems(groups: seq<Group>, tail: Tail) returns (items: seq<Item>)
    ensures NonEmpty(Stretches(groups, 0, None, tail)) && items == ItemsOf(Stretches(groups, 0, None, tail))
  {
    hide HasVisibleContent, CanStartWork, CanContinueWork, CanCompleteWork, Disagrees, WorkOf, ItemsOf, NonEmpty, Normalized;
    NothingYet();
    items := [];
    ghost var done: seq<Stretch> := [];
    var buffer: Option<Buffer> := None;
    var index := 0;
    assert done + Stretches(groups, 0, None, tail) == Stretches(groups, 0, None, tail);
    while index < |groups|
      invariant 0 <= index <= |groups|
      invariant buffer.Some? ==> buffer.value.groups != []
      invariant NonEmpty(done) && items == ItemsOf(done)
      invariant done + Stretches(groups, index, buffer, tail) == Stretches(groups, 0, None, tail)
      decreases |groups| - index, if buffer.Some? then 1 else 0
    {
      var group := groups[index];
      if buffer.None? {
        if CanStartWork(group) {
          if HasVisibleContent(group) {
            items := PushWork(items, [group], Normalized(group.model), Done, done, Stretches(groups, index + 1, None, tail));
            done := done + [Closed(Opened(group))];
          } else {
            buffer := Some(Buffer([group], Normalized(group.model), group.turnID));
          }
        } else {
          items := items + [MessageItem(group)];
          ItemsConcat(done, Alone(group));
          Associative(done, [Alone(group)], Stretches(groups, index + 1, None, tail));
          done := done + [Alone(group)];
        }
        index := index + 1;
        continue;
      }
      var b := buffer.value;
      if Disagrees(b, group) {
        items := PushWork(items, b.groups, b.model, Done, done, Stretches(groups, index, None, tail));
        done := done + [Closed(b)];
        buffer := None;
        continue;
      }
      var effectiveModel := OrElse(b.model, Normalized(group.model));
      if CanCompleteWork(group) {
        items := PushWork(items, b.groups + [group], effectiveModel, Done, done, Stretches(groups, index + 1, None, tail));
        done := done + [Closed(Extended(b, group))];
        buffer := None;
        index := index + 1;
        continue;
      }
      if CanContinueWork(group) {
        buffer := Some(Buffer(b.groups + [group], effectiveModel, OrElse(b.turnID, group.turnID)));
        index := index + 1;
        continue;
      }
      items := PushWork(items, b.groups, b.model, Done, done, Stretches(groups, index, None, tail));
      done := done + [Closed(b)];
      buffer := None;
    }
    if buffer.Some? {
      var b := buffer.value;
      var running := tail.active && (!Truthy(tail.turnID) || tail.turnID == b.turnID);
      items := PushWork(items, b.groups, b.model, if running then InProgress else Done, done, []);
    } else {
      assert done + [] == done;
    }
  }
}
