/** Folding live tool events into the transcript: where a tool use and its
    result are placed, and how streamed output is merged and capped. */
module LiveToolEvents {
  import opened JsText
  import opened Transcript

  const LIVE_TOOL_OUTPUT_MAX_CHARS: nat := 12000

  datatype ToolUpdate = ToolUpdate(
    turnID: Option<string>,
    toolUseID: string,
    toolName: string,
    input: Option<string>,
    timeoutSeconds: Option<int>)

  /** The guard `turnID && toolUseID` of every fold. */
  predicate Addressed(u: ToolUpdate) {
    Truthy(u.turnID) && u.toolUseID != ""
  }

  predicate Positive(t: Option<int>) {
    t.Some? && t.value > 0
  }

  // ----- the tests the searches use -----

  predicate IsUse(b: Block, id: string) {
    b.ToolUse? && b.toolUseID == id
  }

  predicate IsResult(b: Block, id: string) {
    b.ToolResult? && b.toolUseID == id
  }

  predicate HasUse(m: Message, id: string) {
    exists i | 0 <= i < |m.blocks| :: IsUse(m.blocks[i], id)
  }

  predicate HasResult(m: Message, id: string) {
    exists i | 0 <= i < |m.blocks| :: IsResult(m.blocks[i], id)
  }

  /** A user message holding nothing but tool results. */
  predicate ResultsOnly(m: Message) {
    m.role.User? && forall i | 0 <= i < |m.blocks| :: m.blocks[i].ToolResult?
  }

  predicate AssistantUse(m: Message, u: ToolUpdate) {
    m.turnID == u.turnID && m.role.Assistant? && HasUse(m, u.toolUseID)
  }

  predicate UserResult(m: Message, u: ToolUpdate) {
    m.turnID == u.turnID && m.role.User? && HasResult(m, u.toolUseID)
  }

  function UseOf(id: string): Block -> bool { b => IsUse(b, id) }
  function ResultOf(id: string): Block -> bool { b => IsResult(b, id) }
  function InTurn(u: ToolUpdate): Message -> bool { (m: Message) => m.turnID == u.turnID }
  function OutOfTurn(u: ToolUpdate): Message -> bool { (m: Message) => m.turnID != u.turnID }
  function AssistantOf(u: ToolUpdate): Message -> bool { (m: Message) => m.turnID == u.turnID && m.role.Assistant? }
  function AssistantUseOf(u: ToolUpdate): Message -> bool { m => AssistantUse(m, u) }
  function UserResultOf(u: ToolUpdate): Message -> bool { m => UserResult(m, u) }
  function ResultsWith(u: ToolUpdate): Message -> bool { m => ResultsOnly(m) && HasResult(m, u.toolUseID) }
  function ResultsMessage(): Message -> bool { m => ResultsOnly(m) }
  function AssistantOrResults(): Message -> bool { (m: Message) => m.role.Assistant? || ResultsOnly(m) }

  // ----- blocks -----

  function ToolUseBlock(u: ToolUpdate): Block {
    ToolUse(u.toolUseID, u.toolName, u.input, if Positive(u.timeoutSeconds) then u.timeoutSeconds else None)
  }

  /** `{ ...candidate, ...block }` on two tool uses. */
  function MergeUse(candidate: Block, block: Block): Block
    requires candidate.ToolUse? && block.ToolUse?
  {
    ToolUse(block.toolUseID, block.toolName, OrElse(block.input, candidate.input),
            OrElse(block.timeoutSeconds, candidate.timeoutSeconds))
  }

  function MergeUses(blocks: seq<Block>, block: Block): (r: seq<Block>)
    requires block.ToolUse?
    ensures |r| == |blocks|
  {
    seq(|blocks|, i requires 0 <= i < |blocks| =>
      if IsUse(blocks[i], block.toolUseID) then MergeUse(blocks[i], block) else blocks[i])
  }

  predicate NeedsMetadataUpdate(current: Block, u: ToolUpdate)
    requires current.ToolUse?
  {
    || (u.toolName != "" && current.toolName != u.toolName)
    || (Positive(u.timeoutSeconds) && current.timeoutSeconds != u.timeoutSeconds)
  }

  // ----- tool.requested -----

  /** The message a request belongs to: the last one of the turn's assistant
      messages that already names the tool use, else the last one. */
  function RequestTarget(ms: seq<Message>, u: ToolUpdate): (r: int)
    ensures -1 <= r < |ms|
  {
    var named := LastIndex(ms, AssistantUseOf(u));
    if named >= 0 then named else LastIndex(ms, AssistantOf(u))
  }

  method ToolUpdateTargetIndex(ms: seq<Message>, u: ToolUpdate) returns (r: int)
    ensures r == RequestTarget(ms, u)
  {
    var sameTurnAssistant := -1;
    var index := |ms| - 1;
    while index >= 0
      invariant -1 <= index < |ms|
      invariant -1 <= sameTurnAssistant < |ms|
      invariant forall k | index < k < |ms| :: !AssistantUse(ms[k], u)
      invariant sameTurnAssistant >= 0 ==> index < sameTurnAssistant && AssistantOf(u)(ms[sameTurnAssistant])
      invariant forall k | index < k < |ms| && sameTurnAssistant < k :: !AssistantOf(u)(ms[k])
    {
      var message := ms[index];
      if message.turnID == u.turnID && message.role.Assistant? {
        if sameTurnAssistant < 0 {
          sameTurnAssistant := index;
        }
        if HasUse(message, u.toolUseID) {
          LastIndexIs(ms, AssistantUseOf(u), index);
          return index;
        }
      }
      index := index - 1;
    }
    LastIndexIs(ms, AssistantUseOf(u), -1);
    LastIndexIs(ms, AssistantOf(u), sameTurnAssistant);
    return sameTurnAssistant;
  }

  function ApplyToolRequested(ms: seq<Message>, u: ToolUpdate): seq<Message> {
    if !Addressed(u) then ms
    else
      var block := ToolUseBlock(u);
      var target := RequestTarget(ms, u);
      if target >= 0 then
        var blocks := ms[target].blocks;
        var existing := FirstIndex(blocks, UseOf(u.toolUseID));
        ms[target := ms[target].(blocks :=
          if existing >= 0 then blocks[existing := MergeUse(blocks[existing], block)] else blocks + [block])]
      else
        ms + [Message(None, Assistant, None, u.turnID, true, [block], None)]
  }

  // ----- a tool use before its result -----

  /** The messages with a tool use for the update ahead of the turn's first
      result for it: an existing use refreshed, or a placeholder added to the
      last assistant message before that result, or a new assistant message. */
  function WithToolUse(ms: seq<Message>, u: ToolUpdate): seq<Message> {
    if !Addressed(u) || u.toolName == "" then ms
    else
      var first := FirstIndex(ms, UserResultOf(u));
      var at := if first >= 0 then first else |ms|;
      var matching := LastIndex(ms[..at], AssistantUseOf(u));
      var assistant := LastIndex(ms[..at], AssistantOf(u));
      var block := ToolUseBlock(u.(input := None));
      if matching >= 0 then
        var blocks := ms[matching].blocks;
        var use := FirstIndex(blocks, UseOf(u.toolUseID));
        if use >= 0 && !NeedsMetadataUpdate(blocks[use], u) then ms
        else ms[matching := ms[matching].(blocks := MergeUses(blocks, block))]
      else if assistant >= 0 then
        ms[assistant := ms[assistant].(blocks := ms[assistant].blocks + [block])]
      else
        ms[..at] + [Message(None, Assistant, None, u.turnID, true, [block], None)] + ms[at..]
  }

  method EnsureToolUseBeforeResult(ms: seq<Message>, u: ToolUpdate) returns (r: seq<Message>)
    ensures r == WithToolUse(ms, u)
  {
    if !Addressed(u) || u.toolName == "" { return ms; }
    var firstResultIndex := FirstIndex(ms, UserResultOf(u));
    var assistantBeforeResult := -1;
    var matchingAssistantBeforeResult := -1;
    ghost var at := if firstResultIndex >= 0 then firstResultIndex else |ms|;
    var index := 0;
    while index < |ms| && !(firstResultIndex >= 0 && index >= firstResultIndex)
      invariant 0 <= index <= at
      invariant -1 <= assistantBeforeResult < index
      invariant -1 <= matchingAssistantBeforeResult < index
      invariant assistantBeforeResult >= 0 ==> AssistantOf(u)(ms[assistantBeforeResult])
      invariant forall k | assistantBeforeResult < k < index :: !AssistantOf(u)(ms[k])
      invariant matchingAssistantBeforeResult >= 0 ==> AssistantUse(ms[matchingAssistantBeforeResult], u)
      invariant forall k | matchingAssistantBeforeResult < k < index :: !AssistantUse(ms[k], u)
    {
      var message := ms[index];
      if message.turnID == u.turnID && message.role.Assistant? {
        assistantBeforeResult := index;
        if HasUse(message, u.toolUseID) {
          matchingAssistantBeforeResult := index;
        }
      }
      index := index + 1;
    }
    LastIndexIs(ms[..at], AssistantUseOf(u), matchingAssistantBeforeResult);
    LastIndexIs(ms[..at], AssistantOf(u), assistantBeforeResult);

    var block := ToolUseBlock(u.(input := None));
    if matchingAssistantBeforeResult >= 0 {
      var message := ms[matchingAssistantBeforeResult];
      var use := FirstIndex(message.blocks, UseOf(u.toolUseID));
      if use >= 0 && !NeedsMetadataUpdate(message.blocks[use], u) { return ms; }
      return ms[matchingAssistantBeforeResult := message.(blocks := MergeUses(message.blocks, block))];
    }
    if assistantBeforeResult >= 0 {
      var message := ms[assistantBeforeResult];
      return ms[assistantBeforeResult := message.(blocks := message.blocks + [block])];
    }
    var insertAt := if firstResultIndex >= 0 then firstResultIndex else |ms|;
    return ms[..insertAt] + [Message(None, Assistant, None, u.turnID, true, [block], None)] + ms[insertAt..];
  }

  // ----- where a result goes -----

  datatype Target = Target(messageIndex: int, insertIndex: int)

  /** The last contiguous stretch of the turn's messages: ms[lo..hi]. */
  function RunEnd(ms: seq<Message>, u: ToolUpdate): (hi: nat)
    ensures hi <= |ms|
  {
    LastIndex(ms, InTurn(u)) + 1
  }

  function RunStart(ms: seq<Message>, u: ToolUpdate): (lo: nat)
    ensures lo <= RunEnd(ms, u)
  {
    LastIndex(ms[..RunEnd(ms, u)], OutOfTurn(u)) + 1
  }

  /** The first results message, unless an assistant message comes first. */
  function NextResults(rest: seq<Message>): (r: int)
    ensures -1 <= r < |rest|
    ensures r >= 0 ==> ResultsOnly(rest[r])
  {
    var next := FirstIndex(rest, AssistantOrResults());
    if next >= 0 && !rest[next].role.Assistant? then next else -1
  }

  /** In that stretch: the last results message already holding this result;
      else, after the last matching tool use, the results message that follows
      it or a new one right behind it; else the last results message; else a
      new message at the end. */
  function ResultTarget(ms: seq<Message>, u: ToolUpdate): (t: Target)
    ensures -1 <= t.messageIndex < |ms|
    ensures t.messageIndex < 0 ==> 0 <= t.insertIndex <= |ms|
  {
    var lo, hi := RunStart(ms, u), RunEnd(ms, u);
    var run := ms[lo..hi];
    var exact := LastIndex(run, ResultsWith(u));
    var matching := LastIndex(run, AssistantUseOf(u));
    if exact >= 0 then Target(lo + exact, -1)
    else if matching < 0 then
      var fallback := LastIndex(run, ResultsMessage());
      Target(if fallback >= 0 then lo + fallback else -1, |ms|)
    else
      var next := NextResults(ms[lo + matching + 1..hi]);
      if next >= 0 then Target(lo + matching + 1 + next, -1) else Target(-1, lo + matching + 1)
  }

  lemma RunBounds(ms: seq<Message>, u: ToolUpdate)
    ensures RunEnd(ms, u) > 0 ==> ms[RunEnd(ms, u) - 1].turnID == u.turnID
    ensures RunStart(ms, u) > 0 ==> ms[RunStart(ms, u) - 1].turnID != u.turnID
    ensures RunEnd(ms, u) > 0 ==> RunStart(ms, u) < RunEnd(ms, u)
    ensures forall k | RunStart(ms, u) <= k < RunEnd(ms, u) :: ms[k].turnID == u.turnID
    ensures forall k | RunEnd(ms, u) <= k < |ms| :: ms[k].turnID != u.turnID
  {
    var hi := RunEnd(ms, u);
    var last := LastIndex(ms[..hi], OutOfTurn(u));
    LastIndexGreatest(ms, InTurn(u));
    LastIndexGreatest(ms[..hi], OutOfTurn(u));
    assert forall k | last < k < hi :: !OutOfTurn(u)(ms[..hi][k]);
    assert forall k | hi <= k < |ms| :: !InTurn(u)(ms[k]);
    assert hi > 0 ==> InTurn(u)(ms[hi - 1]);
    assert last >= 0 ==> OutOfTurn(u)(ms[..hi][last]);
  }

  // The three ways the search ends.

  lemma ExactTarget(ms: seq<Message>, u: ToolUpdate, index: nat)
    requires RunStart(ms, u) <= index < RunEnd(ms, u)
    requires ResultsOnly(ms[index]) && HasResult(ms[index], u.toolUseID)
    requires forall k | index < k < RunEnd(ms, u) :: !(ResultsOnly(ms[k]) && HasResult(ms[k], u.toolUseID))
    ensures ResultTarget(ms, u) == Target(index, -1)
  {
    var lo, hi := RunStart(ms, u), RunEnd(ms, u);
    LastIndexIs(ms[lo..hi], ResultsWith(u), index - lo);
  }

  lemma FallbackTarget(ms: seq<Message>, u: ToolUpdate, fallback: int)
    requires fallback == -1 || (RunStart(ms, u) <= fallback < RunEnd(ms, u) && ResultsOnly(ms[fallback]))
    requires forall k | RunStart(ms, u) <= k < RunEnd(ms, u) ::
      && !(ResultsOnly(ms[k]) && HasResult(ms[k], u.toolUseID))
      && !AssistantUse(ms[k], u)
      && (fallback < k ==> !ResultsOnly(ms[k]))
    ensures ResultTarget(ms, u) == Target(fallback, |ms|)
  {
    var lo, hi := RunStart(ms, u), RunEnd(ms, u);
    LastIndexIs(ms[lo..hi], ResultsWith(u), -1);
    LastIndexIs(ms[lo..hi], AssistantUseOf(u), -1);
    LastIndexIs(ms[lo..hi], ResultsMessage(), if fallback < 0 then -1 else fallback - lo);
  }

  lemma NextResultsIs(ms: seq<Message>, matching: nat, next: nat, hi: nat)
    requires matching < next <= hi <= |ms|
    requires forall k | matching < k < next :: !AssistantOrResults()(ms[k])
    requires next < hi ==> AssistantOrResults()(ms[next])
    ensures NextResults(ms[matching + 1..hi]) ==
      if next < hi && ResultsOnly(ms[next]) then next - matching - 1 else -1
  {
    FirstIndexIs(ms[matching + 1..hi], AssistantOrResults(), if next < hi then next - matching - 1 else -1);
  }

  lemma TargetAfter(ms: seq<Message>, u: ToolUpdate, lo: nat, hi: nat, matching: nat)
    requires lo == RunStart(ms, u) && hi == RunEnd(ms, u) && lo <= matching < hi
    requires LastIndex(ms[lo..hi], ResultsWith(u)) == -1 && LastIndex(ms[lo..hi], AssistantUseOf(u)) == matching - lo
    ensures var next := NextResults(ms[matching + 1..hi]);
      ResultTarget(ms, u) == if next >= 0 then Target(matching + 1 + next, -1) else Target(-1, matching + 1)
  {
    hide RunStart, RunEnd, NextResults;
  }

  lemma NextTarget(ms: seq<Message>, u: ToolUpdate, matching: nat, next: nat)
    requires RunStart(ms, u) <= matching < next <= RunEnd(ms, u)
    requires AssistantUse(ms[matching], u)
    requires forall k | RunStart(ms, u) <= k < RunEnd(ms, u) :: !ResultsWith(u)(ms[k])
    requires forall k | matching < k < RunEnd(ms, u) :: !AssistantUseOf(u)(ms[k])
    requires forall k | matching < k < next :: !AssistantOrResults()(ms[k])
    requires next < RunEnd(ms, u) ==> ms[next].role.Assistant? || ResultsOnly(ms[next])
    ensures ResultTarget(ms, u) ==
      if next < RunEnd(ms, u) && ResultsOnly(ms[next]) then Target(next, -1) else Target(-1, matching + 1)
  {
    hide RunStart, RunEnd, NextResults, ResultTarget;
    var lo, hi := RunStart(ms, u), RunEnd(ms, u);
    var run := ms[lo..hi];
    LastIndexIs(run, ResultsWith(u), -1);
    LastIndexIs(run, AssistantUseOf(u), matching - lo);
    NextResultsIs(ms, matching, next, hi);
    TargetAfter(ms, u, lo, hi, matching);
  }

  method ToolResultTarget(ms: seq<Message>, u: ToolUpdate) returns (t: Target)
    ensures t == ResultTarget(ms, u)
  {
    ghost var lo, hi := RunStart(ms, u), RunEnd(ms, u);
    RunBounds(ms, u);
    var fallback := Target(-1, |ms|);
    var matchingToolUseIndex := -1;
    var seenTurn := false;
    var index := |ms| - 1;
    while index >= 0
      invariant lo - 1 <= index < |ms|
      invariant seenTurn <==> index < hi - 1
      invariant fallback.insertIndex == |ms|
      invariant fallback.messageIndex == -1 || (index < fallback.messageIndex < hi && ResultsOnly(ms[fallback.messageIndex]))
      invariant matchingToolUseIndex == -1 || (index < matchingToolUseIndex < hi && AssistantUse(ms[matchingToolUseIndex], u))
      invariant forall k | index < k < hi ::
        && !(ResultsOnly(ms[k]) && HasResult(ms[k], u.toolUseID))
        && (matchingToolUseIndex < k ==> !AssistantUse(ms[k], u))
        && (fallback.messageIndex < k ==> !ResultsOnly(ms[k]))
    {
      var message := ms[index];
      if message.turnID != u.turnID {
        if seenTurn {
          break;
        }
      } else {
        seenTurn := true;
        if ResultsOnly(message) {
          if HasResult(message, u.toolUseID) {
            ExactTarget(ms, u, index);
            return Target(index, -1);
          }
          if fallback.messageIndex < 0 {
            fallback := fallback.(messageIndex := index);
          }
        }
        if matchingToolUseIndex < 0 && message.role.Assistant? && HasUse(message, u.toolUseID) {
          matchingToolUseIndex := index;
        }
      }
      index := index - 1;
    }
    assert index == lo - 1 || hi == 0;
    if matchingToolUseIndex < 0 {
      FallbackTarget(ms, u, fallback.messageIndex);
      return fallback;
    }
    index := matchingToolUseIndex + 1;
    while index < |ms|
      invariant matchingToolUseIndex < index <= hi
      invariant forall k | matchingToolUseIndex < k < index :: !ms[k].role.Assistant? && !ResultsOnly(ms[k])
    {
      var message := ms[index];
      if message.turnID != u.turnID { break; }
      if message.role.Assistant? { break; }
      if ResultsOnly(message) {
        NextTarget(ms, u, matchingToolUseIndex, index);
        return Target(index, -1);
      }
      index := index + 1;
    }
    NextTarget(ms, u, matchingToolUseIndex, index);
    return Target(-1, matchingToolUseIndex + 1);
  }

  // ----- merging a result -----

  datatype Mode = Append | Final

  /** The notice that stands for dropped output. */
  const HEADER_START: Text := Units("[live output truncated: ")
  const HEADER_END: Text := Units(" earlier characters omitted]\n")

  function Header(n: nat): Text {
    HEADER_START + Decimal(n) + HEADER_END
  }

  datatype HeaderMatch = NoHeader | HeaderMatch(omitted: nat, length: nat)

  /** The anchored pattern: start, digits, end. */
  function MatchHeader(text: Text): (m: HeaderMatch)
    ensures m.HeaderMatch? ==> m.length <= |text|
  {
    if !(HEADER_START <= text) then NoHeader
    else
      var rest := text[|HEADER_START|..];
      var digits := Run(rest, IsDigit);
      if digits > 0 && HEADER_END <= rest[digits..]
      then HeaderMatch(DecimalValue(rest[..digits]), |HEADER_START| + digits + |HEADER_END|)
      else NoHeader
  }

  function CapLiveToolOutput(text: Text): Text {
    var m := MatchHeader(text);
    var previousOmitted: nat := if m.HeaderMatch? then m.omitted else 0;
    var body := if m.HeaderMatch? then text[m.length..] else text;
    if |body| <= LIVE_TOOL_OUTPUT_MAX_CHARS then
      if previousOmitted > 0 then Header(previousOmitted) + body else body
    else
      Header(previousOmitted + |body| - LIVE_TOOL_OUTPUT_MAX_CHARS) + body[|body| - LIVE_TOOL_OUTPUT_MAX_CHARS..]
  }

  function MergeToolResult(current: Block, incoming: Block, mode: Mode): Block
    requires current.ToolResult? && incoming.ToolResult?
  {
    var media := OrElse(incoming.media, current.media);
    if mode.Append? then
      current.(content := CapLiveToolOutput(current.content + incoming.content), media := media, streaming := true)
    else
      var content := if current.streaming || current.content == [] then incoming.content else current.content;
      current.(content := content, media := media, isError := incoming.isError, streaming := false)
  }

  function UpsertBlock(blocks: seq<Block>, block: Block, mode: Mode): seq<Block>
    requires block.ToolResult?
  {
    var existing := FirstIndex(blocks, ResultOf(block.toolUseID));
    if existing >= 0 then blocks[existing := MergeToolResult(blocks[existing], block, mode)]
    else blocks + [block]
  }

  function UpsertToolResult(ms: seq<Message>, u: ToolUpdate, block: Block, mode: Mode): seq<Message>
    requires block.ToolResult?
  {
    var t := ResultTarget(ms, u);
    if t.messageIndex >= 0 then
      var m := ms[t.messageIndex];
      ms[t.messageIndex := m.(blocks := UpsertBlock(m.blocks, block, mode))]
    else
      ms[..t.insertIndex] + [Message(None, User, None, u.turnID, false, [block], None)] + ms[t.insertIndex..]
  }

  /** tool.output_delta */
  function ApplyToolOutputDelta(ms: seq<Message>, u: ToolUpdate, text: Text): seq<Message> {
    if !Addressed(u) || text == [] then ms
    else UpsertToolResult(WithToolUse(ms, u), u, ToolResult(u.toolUseID, text, None, false, true), Append)
  }

  /** tool.completed, tool.errored, tool.outcome_unknown */
  function ApplyToolResult(ms: seq<Message>, u: ToolUpdate, content: Text, media: Option<Media>, isError: bool): seq<Message> {
    if !Addressed(u) then ms
    else UpsertToolResult(WithToolUse(ms, u), u, ToolResult(u.toolUseID, content, media, isError, false), Final)
  }
}
