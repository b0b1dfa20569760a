/** The event reducer behind a live thread: the messages shown so far and the
    two-phase queue of inputs (queued, announced as draining, drained). */
module LiveThreadProjection {
  import opened JsText
  import opened Transcript
  import opened QueuedInputs
  import opened LiveToolEvents

  const LOCAL_COMPACT_COMMAND_ID := "local-compact-command"
  const LOCAL_COMPACT_PENDING_ID := "local-compact-pending"
  const LOCAL_COMPACT_PENDING_KIND := "compact_pending"
  const PENDING_COMPACT_LABEL := Units("Context compacting...")

  datatype Projection = Projection(
    messages: seq<Message>,
    queuedInput: QueuedInputState,
    // Empty slots reserve announced positions the local queue did not have.
    draining: seq<Option<QueuedInput>>,
    compactAdmissionTurnID: Option<string>)

  const EmptyProjection := Projection([], EmptyQueue, [], None)

  datatype Repair = Repair(toolUseID: string, messageID: string)

  /** What an event carries. An absent text is the empty text. */
  datatype Payload =
    | InputScopeChanged
    | TurnAdmitted(compact: bool)
    | TurnStarted(startInput: Text, startKind: Option<string>, startMessageID: Option<string>)
    | TurnCompleted
    | TurnErrored
    | LlmOutputDelta(deltaKind: string, index: int, deltaText: Text, deltaModel: string)
    | LlmResponded(blocks: seq<Block>, model: string, notice: Option<Message>, messageID: Option<string>)
    | LlmErrored
    | LlmRetry(compaction: bool, willRetry: bool)
    | LlmFallback
    | ToolRequested(name: string, toolUseID: string, toolInput: Option<string>, timeoutSeconds: Option<int>)
    | ToolOutputDelta(name: string, toolUseID: string, outputText: Text)
    | ToolCompleted(name: string, toolUseID: string, content: Text, media: Option<Media>, timeoutSeconds: Option<int>)
    | ToolErrored(name: string, toolUseID: string, content: Text, media: Option<Media>, timeoutSeconds: Option<int>)
    | ToolOutcomeUnknown(name: string, toolUseID: string, error: Text)
    | PolicyTrace(traceText: Text, messageID: Option<string>)
    | PendingQueued(input: Text, kind: Option<string>, messageID: Option<string>, pendingCount: int)
    | PendingDraining(count: nat)
    | PendingPromoted
    | PendingDrained(count: nat)
    | PendingDropped(count: nat)
    | CompactStarted(auto: bool)
    | CompactCompleted
    | CompactErrored
    | TranscriptRepaired(repairs: seq<Repair>)
    | OtherEvent

  datatype BrowserEvent = BrowserEvent(turnID: Option<string>, eventID: Option<string>, payload: Payload)

  datatype Effect = Refresh(preserveLiveMessages: bool, preserveLoadedHistory: bool)

  // ----- queue handling -----

  function InputBlocks(input: Text, attachments: seq<Media>): seq<Block> {
    (if input == [] then [] else [TextBlock(input, None)])
    + seq(|attachments|, i requires 0 <= i < |attachments| => ImageBlock(attachments[i]))
  }

  function Matching(input: Text, kind: Option<string>): QueuedInput -> bool {
    (item: QueuedInput) => item.input == input && item.kind == kind
  }

  /** turn.started takes the queued input it announces, or the oldest one when
      it announces none. */
  function ConsumeQueuedInput(state: Projection, input: Text, kind: Option<string>): (Projection, Option<QueuedInput>) {
    var items := state.queuedInput.items;
    var found := FirstIndex(items, Matching(input, kind));
    var index := if found < 0 && input == [] && items != [] then 0 else found;
    if index < 0 then (state, None)
    else (state.(queuedInput := state.queuedInput.(items := items[..index] + items[index + 1..])), Some(items[index]))
  }

  function DrainedMessage(item: QueuedInput, turnID: Option<string>): Message {
    Message(item.messageID, User,
            if Truthy(item.kind) then item.kind else Some("pending_input"),
            turnID, false, InputBlocks(item.input, item.attachments), None)
  }

  function DrainedMessages(items: seq<QueuedInput>, turnID: Option<string>): seq<Message> {
    seq(|items|, i requires 0 <= i < |items| => DrainedMessage(items[i], turnID))
  }

  function PendingAssistant(turnID: Option<string>): Message -> bool {
    (m: Message) => m.turnID == turnID && m.role.Assistant? && m.pending
  }

  /** Drained inputs go right before the turn's pending answer, else at the end. */
  function AppendDrainedInputs(ms: seq<Message>, items: seq<QueuedInput>, turnID: Option<string>): seq<Message> {
    if items == [] then ms
    else
      var additions := DrainedMessages(items, turnID);
      var insertAt := FirstIndex(ms, PendingAssistant(turnID));
      if !Truthy(turnID) || insertAt < 0 then ms + additions
      else ms[..insertAt] + additions + ms[insertAt..]
  }

  /** The inputs held in reserved slots. */
  function Held(slots: seq<Option<QueuedInput>>): seq<QueuedInput> {
    if slots == [] then []
    else (if slots[0].Some? then [slots[0].value] else []) + Held(slots[1..])
  }

  function DrainQueuedInputs(state: Projection, count: nat, turnID: Option<string>): Projection {
    var reserved := Take(state.draining, count);
    var (queue, drained) := Drain(state.queuedInput, count - |reserved|);
    state.(
      queuedInput := queue,
      draining := state.draining[|reserved|..],
      messages := AppendDrainedInputs(state.messages, Held(reserved) + drained, turnID))
  }

  /** One slot for each announced input, empty where the queue has run out. */
  function Slots(drained: seq<QueuedInput>, count: nat): seq<Option<QueuedInput>> {
    seq(count, i requires 0 <= i < count => if i < |drained| then Some(drained[i]) else None)
  }

  function ReserveDraining(state: Projection, count: int): Projection {
    if count <= 0 then state
    else
      var (queue, drained) := Drain(state.queuedInput, count);
      state.(queuedInput := queue, draining := state.draining + Slots(drained, count))
  }

  method ReserveDrainingQueuedInputs(state: Projection, count: int) returns (r: Projection)
    ensures r == ReserveDraining(state, count)
  {
    if count <= 0 { return state; }
    var (queue, drained) := Drain(state.queuedInput, count);
    var reserved: seq<Option<QueuedInput>> := [];
    var index := 0;
    while index < count
      invariant 0 <= index <= count
      invariant reserved == Slots(drained, count)[..index]
    {
      reserved := reserved + [if index < |drained| then Some(drained[index]) else None];
      index := index + 1;
    }
    return state.(queuedInput := queue, draining := state.draining + reserved);
  }

  function ClearQueuedInputs(state: Projection): Projection {
    if state.queuedInput.items == [] && state.draining == [] && state.compactAdmissionTurnID == None then state
    else state.(queuedInput := EmptyQueue, draining := [], compactAdmissionTurnID := None)
  }

  function SettleTerminalQueuedInputs(state: Projection, turnID: Option<string>): Projection {
    if Truthy(turnID) && state.compactAdmissionTurnID == turnID
    then state.(compactAdmissionTurnID := None)
    else ClearQueuedInputs(state)
  }

  // ----- messages -----

  function IsText(): Block -> bool { (b: Block) => b.TextBlock? }

  function MessageText(m: Message): Option<Text> {
    var i := FirstIndex(m.blocks, IsText());
    if i < 0 then None else Some(m.blocks[i].text)
  }

  /** A user message with this text whose turn still has a pending answer. */
  function AwaitsInput(ms: seq<Message>, input: Text): Message -> bool {
    (m: Message) =>
      && m.role.User? && MessageText(m) == Some(input)
      && Truthy(m.turnID)
      && FirstIndex(ms, PendingAssistant(m.turnID)) >= 0
  }

  function FindPendingTurnForInput(ms: seq<Message>, input: Text): Option<string> {
    var i := FirstIndex(ms, AwaitsInput(ms, input));
    if i < 0 then None else ms[i].turnID
  }

  function OfTurn(turnID: Option<string>): Message -> bool { (m: Message) => m.turnID == turnID }
  function UserOf(turnID: Option<string>): Message -> bool { (m: Message) => m.role.User? && m.turnID == turnID }

  function MapMessages(ms: seq<Message>, f: Message -> Message): (r: seq<Message>)
    ensures |r| == |ms|
    ensures forall i | 0 <= i < |ms| :: r[i] == f(ms[i])
  {
    seq(|ms|, i requires 0 <= i < |ms| => f(ms[i]))
  }

  function FilterMessages(ms: seq<Message>, p: Message -> bool): seq<Message> {
    if ms == [] then []
    else (if p(ms[0]) then [ms[0]] else []) + FilterMessages(ms[1..], p)
  }

  function AppendLiveTurn(ms: seq<Message>, turnID: Option<string>, input: Text, kind: Option<string>,
                          fromEvent: bool, attachments: seq<Media>, messageID: Option<string>): seq<Message>
  {
    var blocks := InputBlocks(input, attachments);
    if !Truthy(turnID) || blocks == [] then ms
    else if FirstIndex(ms, OfTurn(turnID)) >= 0 then
      if !fromEvent then ms
      else MapMessages(ms, (m: Message) =>
        if m.turnID == turnID && m.role.User? then m.(id := OrElse(m.id, messageID)) else m)
    else
      var existing := if input != [] then FindPendingTurnForInput(ms, input) else None;
      if Truthy(existing) then
        if !fromEvent then ms
        else MapMessages(ms, (m: Message) =>
          if m.turnID == existing then m.(turnID := turnID, id := if m.role.User? then messageID else m.id) else m)
      else
        ms + [Message(messageID, User, kind, turnID, false, blocks, None),
              Message(None, Assistant, None, turnID, true, [], None)]
  }

  /** llm.responded: the answer takes the place of the turn's first pending
      assistant message, after its notice if it has one. */
  function ApplyAssistantResponse(state: Projection, turnID: Option<string>, p: Payload): Projection
    requires p.LlmResponded?
  {
    if !Truthy(turnID) then state
    else
      var ms := state.messages;
      var notice := if p.notice.Some? then [p.notice.value.(turnID := turnID)] else [];
      var pendingIndex := FirstIndex(ms, PendingAssistant(turnID));
      state.(messages :=
        if pendingIndex >= 0 then
          var m := ms[pendingIndex];
          ms[..pendingIndex] + notice
            + [m.(id := OrElse(p.messageID, m.id), pending := false, blocks := p.blocks, model := Some(p.model))]
            + ms[pendingIndex + 1..]
        else
          ms + notice + [Message(p.messageID, Assistant, None, turnID, false, p.blocks, Some(p.model))])
  }

  function ResetPendingAssistantOutput(state: Projection, turnID: Option<string>, shouldReset: bool): Projection {
    if !Truthy(turnID) || !shouldReset then state
    else state.(messages := MapMessages(state.messages, (m: Message) =>
      if PendingAssistant(turnID)(m) then m.(blocks := []) else m))
  }

  function StreamBlock(reasoning: bool, index: int): Block -> bool {
    (b: Block) =>
      if reasoning then b.ReasoningBlock? && b.streamIndex == Some(index)
      else b.TextBlock? && b.streamIndex == Some(index)
  }

  /** llm.output_delta: text grows in the block of its stream index, in the
      turn's last pending assistant message. */
  function ApplyAssistantOutputDelta(state: Projection, turnID: Option<string>, p: Payload): Projection
    requires p.LlmOutputDelta?
  {
    if !Truthy(turnID) || p.deltaText == [] || (p.deltaKind != "reasoning" && p.deltaKind != "text") then state
    else
      var reasoning := p.deltaKind == "reasoning";
      var ms := state.messages;
      var messageIndex := LastIndex(ms, PendingAssistant(turnID));
      var message :=
        if messageIndex >= 0 then ms[messageIndex]
        else Message(None, Assistant, None, turnID, true, [], None);
      var blocks := message.blocks;
      var blockIndex := FirstIndex(blocks, StreamBlock(reasoning, p.index));
      var grown :=
        if blockIndex >= 0 then
          var b := blocks[blockIndex];
          blocks[blockIndex := b.(text := b.text + p.deltaText)]
        else if reasoning then blocks + [ReasoningBlock(p.deltaText, Some(p.index), [], false)]
        else blocks + [TextBlock(p.deltaText, Some(p.index))];
      var updated := message.(blocks := grown, model := if p.deltaModel != "" then Some(p.deltaModel) else message.model);
      state.(messages := if messageIndex >= 0 then ms[messageIndex := updated] else ms + [updated])
  }

  /** The tool update an event describes; a missing name gets the default. */
  function ResultUpdate(turnID: Option<string>, toolUseID: string, name: string, timeoutSeconds: Option<int>): ToolUpdate {
    ToolUpdate(turnID, toolUseID, if name != "" then name else "exec_command", None, timeoutSeconds)
  }

  function AppendPolicyTrace(ms: seq<Message>, event: BrowserEvent): seq<Message>
    requires event.payload.PolicyTrace?
  {
    var p := event.payload;
    var id :=
      if p.messageID.Some? then p.messageID
      else if Truthy(event.eventID) then Some("policy-" + event.eventID.value) else None;
    if p.traceText == [] || (Truthy(id) && HasID(ms, id.value)) then ms
    else ms + [Message(id, System, Some("policy_event"), event.turnID, false, [TextBlock(p.traceText, None)], None)]
  }

  predicate IsLocalCompact(m: Message) {
    || m.id == Some(LOCAL_COMPACT_COMMAND_ID)
    || m.id == Some(LOCAL_COMPACT_PENDING_ID)
    || m.kind == Some(LOCAL_COMPACT_PENDING_KIND)
  }

  function ClearLocalCompact(ms: seq<Message>): seq<Message> {
    FilterMessages(ms, (m: Message) => !IsLocalCompact(m))
  }

  function ProjectPendingCompact(ms: seq<Message>, commandInput: Text): seq<Message> {
    var withCommand :=
      if commandInput != [] && !HasID(ms, LOCAL_COMPACT_COMMAND_ID)
      then ms + [Message(Some(LOCAL_COMPACT_COMMAND_ID), User, Some("slash_command"), None, false, [TextBlock(commandInput, None)], None)]
      else ms;
    if HasID(withCommand, LOCAL_COMPACT_PENDING_ID) then withCommand
    else withCommand + [Message(Some(LOCAL_COMPACT_PENDING_ID), User, Some(LOCAL_COMPACT_PENDING_KIND), None, true,
                                [TextBlock(PENDING_COMPACT_LABEL, None)], None)]
  }

  /** A message touching a repaired tool call is dropped. */
  predicate TouchesRepair(m: Message, repairs: seq<Repair>) {
    exists i, k | 0 <= i < |m.blocks| && 0 <= k < |repairs| ::
      (m.blocks[i].ToolUse? || m.blocks[i].ToolResult?)
      && repairs[k].toolUseID != "" && m.blocks[i].toolUseID == repairs[k].toolUseID
  }

  // ----- the reducer -----

  function ProjectLiveThreadEvent(state: Projection, event: BrowserEvent): (Projection, seq<Effect>) {
    var turnID := event.turnID;
    match event.payload
    case InputScopeChanged => (state, [Refresh(true, true)])
    case TurnAdmitted(compact) =>
      (if Truthy(turnID) && compact then state.(compactAdmissionTurnID := turnID) else state, [])
    case TurnStarted(input, kind, startMessageID) =>
      var alreadyProjected := Truthy(turnID) && FirstIndex(state.messages, UserOf(turnID)) >= 0;
      var (consumed, item) := if alreadyProjected then (state, None) else ConsumeQueuedInput(state, input, kind);
      var messageID := if startMessageID.Some? then startMessageID else if item.Some? then item.value.messageID else None;
      (consumed.(messages := AppendLiveTurn(consumed.messages, turnID, input, kind, true,
                                            if item.Some? then item.value.attachments else [], messageID)), [])
    case LlmOutputDelta(_, _, _, _) => (ApplyAssistantOutputDelta(state, turnID, event.payload), [])
    case LlmResponded(_, _, _, _) => (ApplyAssistantResponse(state, turnID, event.payload), [])
    case LlmErrored => (ResetPendingAssistantOutput(state, turnID, true), [])
    case LlmRetry(compaction, willRetry) =>
      (if compaction then state else ResetPendingAssistantOutput(state, turnID, willRetry), [])
    case LlmFallback => (ResetPendingAssistantOutput(state, turnID, true), [])
    case ToolRequested(name, toolUseID, toolInput, timeoutSeconds) =>
      (state.(messages := ApplyToolRequested(state.messages,
        ToolUpdate(turnID, toolUseID, if name != "" then name else "?", toolInput, timeoutSeconds))), [])
    case ToolOutputDelta(name, toolUseID, text) =>
      (state.(messages := ApplyToolOutputDelta(state.messages, ResultUpdate(turnID, toolUseID, name, None), text)), [])
    case ToolCompleted(name, toolUseID, content, media, timeoutSeconds) =>
      (state.(messages := ApplyToolResult(state.messages, ResultUpdate(turnID, toolUseID, name, timeoutSeconds), content, media, false)), [])
    case ToolErrored(name, toolUseID, content, media, timeoutSeconds) =>
      (state.(messages := ApplyToolResult(state.messages, ResultUpdate(turnID, toolUseID, name, timeoutSeconds), content, media, true)), [])
    case ToolOutcomeUnknown(name, toolUseID, error) =>
      (state.(messages := ApplyToolResult(state.messages, ResultUpdate(turnID, toolUseID, name, None), error, None, true)), [])
    case PolicyTrace(_, _) => (state.(messages := AppendPolicyTrace(state.messages, event)), [])
    case PendingQueued(input, kind, messageID, pendingCount) =>
      (state.(queuedInput := Enqueue(state.queuedInput, input, kind, pendingCount, [], messageID)), [])
    case PendingDraining(count) => (ReserveDraining(state, count), [])
    case PendingPromoted =>
      var (queue, drained) := Drain(state.queuedInput, 1);
      (state.(queuedInput := queue,
              messages := if drained == [] then state.messages
                          else AppendLiveTurn(state.messages, turnID, drained[0].input, drained[0].kind, true,
                                              drained[0].attachments, drained[0].messageID)), [])
    case PendingDrained(count) => (DrainQueuedInputs(state, count, turnID), [])
    case PendingDropped(count) => (state.(queuedInput := Drop(state.queuedInput, count)), [])
    case TurnCompleted => (SettleTerminalQueuedInputs(state, turnID), [Refresh(false, false)])
    case TurnErrored => (SettleTerminalQueuedInputs(state, turnID), [Refresh(false, false)])
    case CompactStarted(auto) =>
      var admitted := if !auto && Truthy(turnID) then state.(compactAdmissionTurnID := turnID) else state;
      (admitted.(messages := ProjectPendingCompact(admitted.messages, [])), [])
    case CompactCompleted => (state.(messages := ClearLocalCompact(state.messages)), [Refresh(true, false)])
    case CompactErrored => (state.(messages := ClearLocalCompact(state.messages)), [Refresh(true, false)])
    case TranscriptRepaired(repairs) =>
      (state.(messages := FilterMessages(state.messages, (m: Message) => !TouchesRepair(m, repairs))), [Refresh(true, false)])
    case OtherEvent => (state, [])
  }
}
