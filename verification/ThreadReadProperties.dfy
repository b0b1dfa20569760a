/** Loading keeps what was loaded, and replayed events change nothing. */
module ThreadReadProperties {
  import opened JsText
  import opened Transcript
  import opened QueuedInputs
  import opened LiveToolEvents
  import opened LiveToolProperties
  import opened LiveThreadProjection
  import opened ReducerProperties
  import opened ThreadReadState

  lemma {:induction false} FilterKeeps(ms: seq<Message>, p: Message -> bool, m: Message)
    ensures m in FilterMessages(ms, p) <==> m in ms && p(m)
  {
    if ms != [] {
      FilterKeeps(ms[1..], p, m);
      assert m in ms <==> m == ms[0] || m in ms[1..];
    }
  }

  /** Merging an older page loses no message that carries an id, on either
      side, and keeps the newer page's messages last and untouched. */
  lemma MergeKeepsIDs(current: Page, olderPage: Page, id: string)
    requires id != ""
    ensures var merged := MergeOlderThreadPage(Some(current), olderPage);
      && (HasID(merged.messages, id) <==> HasID(current.messages, id) || HasID(olderPage.messages, id))
      && |current.messages| <= |merged.messages|
      && merged.messages[|merged.messages| - |current.messages|..] == current.messages
  {
    var unseen := FilterMessages(olderPage.messages, FreshIn(current.messages));
    var merged := MergeOlderThreadPage(Some(current), olderPage);
    if HasID(olderPage.messages, id) && !HasID(current.messages, id) {
      var m :| m in olderPage.messages && m.id == Some(id);
      FilterKeeps(olderPage.messages, FreshIn(current.messages), m);
      assert m in merged.messages;
    }
    if HasID(current.messages, id) {
      var m :| m in current.messages && m.id == Some(id);
      assert m in merged.messages;
    }
    if HasID(merged.messages, id) {
      var m :| m in merged.messages && m.id == Some(id);
      FilterKeeps(olderPage.messages, FreshIn(current.messages), m);
    }
  }

  /** What a merged page holds besides: of the older page exactly the messages
      the newer one does not carry, in order and in front; the older page's
      cursor; the annotations of both, the newer one's first. */
  lemma MergedPage(current: Page, olderPage: Page) returns (at: seq<nat>)
    ensures var merged := MergeOlderThreadPage(Some(current), olderPage);
      var n := |merged.messages| - |current.messages|;
      && n >= 0 && merged.messages[n..] == current.messages
      && Picked(olderPage.messages, merged.messages[..n], at)
      && (forall i | 0 <= i < |olderPage.messages| :: i in at <==> Missing(olderPage.messages[i], current.messages))
      && merged.id == current.id && merged.hasMoreBefore == olderPage.hasMoreBefore
      && merged.oldestMessageID == olderPage.oldestMessageID
      && (merged.tracking.Some? <==> current.tracking.Some?)
    ensures current.tracking.Some? ==>
      var own := current.tracking.value;
      var old_ := if olderPage.tracking.Some? then olderPage.tracking.value else Tracking(map[], "");
      var r := MergeOlderThreadPage(Some(current), olderPage).tracking.value;
      && (forall u :: u in r.annotations <==> u in own.annotations || u in old_.annotations)
      && (forall u | u in r.annotations :: r.annotations[u] == if u in own.annotations then own.annotations[u] else old_.annotations[u])
      && r.error == if own.error != "" then own.error else old_.error
  {
    hide FilterMessages, Picked, HasID;
    var p := FreshIn(current.messages);
    at := FilterPicks(olderPage.messages, p);
    forall i | 0 <= i < |olderPage.messages| ensures p(olderPage.messages[i]) <==> Missing(olderPage.messages[i], current.messages) {
      MissingIs(olderPage.messages[i], current.messages);
    }
    var front := FilterMessages(olderPage.messages, p);
    assert (front + current.messages)[|front|..] == current.messages && (front + current.messages)[..|front|] == front;
  }

  /** A load that keeps history keeps every message with an id that was loaded
      before; and whatever it does, the fresh page and its annotations are in. */
  lemma LoadKeepsIDs(state: ReadState, data: Page, opts: LoadOptions, id: string)
    requires id != ""
    ensures var after := ThreadLoaded(state, data, opts);
      && (HasID(Persisted(after), id) <==>
          HasID(data.messages, id) || (KeepsHistory(state, data, opts) && HasID(Persisted(state), id)))
      && after.data.value.tracking == data.tracking
  {
    if KeepsHistory(state, data, opts) {
      MergeKeepsIDs(data, state.data.value, id);
    }
  }

  /** The page a load leaves: the fresh one; and if it is about the thread held
      and history is to be kept, in front of it what was held and is not in it. */
  lemma LoadedPage(state: ReadState, data: Page, opts: LoadOptions) returns (at: seq<nat>)
    ensures var after, keeps := ThreadLoaded(state, data, opts), opts.preserveLoadedHistory && state.data.Some? && state.data.value.id == data.id;
      && after.data.Some? && after.loadError.None? && after.olderError.None?
      && (!keeps ==> after.data == Some(data))
      && (keeps ==>
            var held, r := state.data.value, after.data.value;
            var n := |r.messages| - |data.messages|;
            && n >= 0 && r == data.(messages := r.messages, hasMoreBefore := held.hasMoreBefore, oldestMessageID := held.oldestMessageID)
            && r.messages[n..] == data.messages && Picked(held.messages, r.messages[..n], at)
            && forall i | 0 <= i < |held.messages| :: i in at <==> Missing(held.messages[i], data.messages))
  {
    hide FilterMessages, Picked, Missing;
    at := [];
    if KeepsHistory(state, data, opts) {
      at := MergedPage(data, state.data.value);
    }
  }

  /** A load that fails, and what becomes of an older page, leave the live
      transcript and the queue alone; only a failed load takes the page away. */
  lemma OtherLoads(state: ReadState, page: Page, error: string)
    ensures var r := ThreadLoadFailed(state, error);
      r.projection == state.projection && r.data.None? && r.loadError == Some(error)
    ensures var r := LoadOlderSucceeded(state, page);
      r.projection == state.projection && r.data == Some(MergeOlderThreadPage(state.data, page)) && r.loadError == state.loadError
    ensures var r := LoadOlderFailed(state, error);
      r.projection == state.projection && r.data == state.data && r.loadError == state.loadError && r.olderError == Some(error)
  {
  }

  // ----- live messages across a load -----

  /** The message need not wait for the page: it has no id, or one that the
      messages do not carry. */
  predicate Missing(m: Message, ms: seq<Message>) {
    m.id.None? || m.id.value == "" || forall k | 0 <= k < |ms| :: ms[k].id != m.id
  }

  /** A load that keeps the live messages leaves exactly those, in order, that
      the page then held does not carry; one that does not leaves none. What is
      queued, announced or admitted stays in any case. */
  lemma LiveAfterLoad(state: ReadState, data: Page, opts: LoadOptions) returns (at: seq<nat>)
    ensures var before, after := state.projection, ThreadLoaded(state, data, opts).projection;
      after == before.(messages := after.messages)
    ensures var before, after := state.projection.messages, ThreadLoaded(state, data, opts);
      && (!opts.preserveLiveMessages ==> after.projection.messages == [])
      && (opts.preserveLiveMessages ==>
            && Picked(before, after.projection.messages, at)
            && forall i | 0 <= i < |before| :: i in at <==> Missing(before[i], Persisted(after)))
  {
    hide FilterMessages, Picked, MergeOlderThreadPage, HasID;
    var before, after := state.projection.messages, ThreadLoaded(state, data, opts);
    var p := NotPersisted(Persisted(after));
    at := FilterPicks(before, p);
    forall i | 0 <= i < |before| ensures p(before[i]) <==> Missing(before[i], Persisted(after)) {
      MissingIs(before[i], Persisted(after));
    }
  }

  lemma MissingIs(m: Message, ms: seq<Message>)
    ensures NotPersisted(ms)(m) <==> Missing(m, ms)
  {
    if m.id.Some? && HasID(ms, m.id.value) {
      var q :| q in ms && q.id == Some(m.id.value);
    }
    if m.id.Some? && exists k | 0 <= k < |ms| :: ms[k].id == m.id {
      var k :| 0 <= k < |ms| && ms[k].id == m.id;
      assert ms[k] in ms;
    }
  }

  /** So a message with an id is then shown once: in the page or live. */
  lemma ShownOnce(state: ReadState, data: Page, opts: LoadOptions, id: string)
    requires opts.preserveLiveMessages && id != "" && HasID(state.projection.messages, id)
    ensures var after := ThreadLoaded(state, data, opts);
      HasID(Persisted(after), id) <==> !HasID(after.projection.messages, id)
  {
    var before, after := state.projection.messages, ThreadLoaded(state, data, opts);
    var at := LiveAfterLoad(state, data, opts);
    hide ThreadLoaded;
    var live := after.projection.messages;
    if HasID(Persisted(after), id) {
      var q :| q in Persisted(after) && q.id == Some(id);
      forall m | m in live ensures m.id != Some(id) {
        var k :| 0 <= k < |live| && live[k] == m;
        assert at[k] in at && before[at[k]] == m;
      }
    } else {
      var i :| 0 <= i < |before| && before[i].id == Some(id);
      assert Missing(before[i], Persisted(after));
      var k :| 0 <= k < |at| && at[k] == i;
      assert live[k] == before[i];
    }
  }

  // ----- replays -----

  /** The event names the message or tool call it is about. */
  predicate Identified(event: BrowserEvent) {
    match event.payload
    case LlmResponded(_, _, _, messageID) => Truthy(messageID)
    case PolicyTrace(_, messageID) => Truthy(messageID)
    case PendingQueued(_, _, messageID, _) => Truthy(messageID)
    case ToolRequested(_, toolUseID, _, _) => toolUseID != ""
    case ToolCompleted(_, toolUseID, _, _, _) => toolUseID != ""
    case ToolErrored(_, toolUseID, _, _, _) => toolUseID != ""
    case ToolOutcomeUnknown(_, toolUseID, _) => toolUseID != ""
    case _ => false
  }

  lemma HasIDIn(ms: seq<Message>, more: seq<Message>, i: nat, id: string)
    requires i < |more| && more[i].id == Some(id)
    ensures HasID(ms + more, id)
  {
    assert more[i] in ms + more;
  }

  lemma ResponsePlaced(p: Projection, turnID: Option<string>, payload: Payload) returns (at: nat)
    requires payload.LlmResponded? && Truthy(payload.messageID) && Truthy(turnID)
    ensures var after := ApplyAssistantResponse(p, turnID, payload);
      at < |after.messages| && after.messages[at].id == payload.messageID
  {
    var ms := p.messages;
    var notice := if payload.notice.Some? then [payload.notice.value.(turnID := turnID)] else [];
    var pendingIndex := FirstIndex(ms, PendingAssistant(turnID));
    var after := ApplyAssistantResponse(p, turnID, payload).messages;
    if pendingIndex >= 0 {
      at := pendingIndex + |notice|;
      var front := ms[..pendingIndex] + notice;
      var m := ms[pendingIndex].(id := OrElse(payload.messageID, ms[pendingIndex].id), pending := false,
                                 blocks := payload.blocks, model := Some(payload.model));
      assert |front| == at;
      assert after == front + [m] + ms[pendingIndex + 1..];
      assert after[at] == m;
    } else {
      at := |ms| + |notice|;
      assert after[at].id == payload.messageID;
    }
  }

  lemma ResponseRecorded(p: Projection, turnID: Option<string>, payload: Payload, persisted: seq<Message>)
    requires payload.LlmResponded? && Truthy(payload.messageID)
    ensures var after := ApplyAssistantResponse(p, turnID, payload);
      after == p || HasID(persisted + after.messages, payload.messageID.value)
  {
    if Truthy(turnID) {
      hide ApplyAssistantResponse;
      var at := ResponsePlaced(p, turnID, payload);
      HasIDIn(persisted, ApplyAssistantResponse(p, turnID, payload).messages, at, payload.messageID.value);
    }
  }

  lemma TraceRecorded(ms: seq<Message>, event: BrowserEvent, persisted: seq<Message>)
    requires event.payload.PolicyTrace? && Truthy(event.payload.messageID)
    ensures var after := AppendPolicyTrace(ms, event);
      after == ms || HasID(persisted + after, event.payload.messageID.value)
  {
    var after := AppendPolicyTrace(ms, event);
    if after != ms {
      HasIDIn(persisted, after, |ms|, event.payload.messageID.value);
    }
  }

  lemma QueueRecorded(q: QueuedInputState, input: Text, kind: Option<string>, pendingCount: int, messageID: Option<string>)
    requires Truthy(messageID)
    ensures var after := Enqueue(q, input, kind, pendingCount, [], messageID);
      after == q || exists i | 0 <= i < |after.items| :: after.items[i].messageID == messageID
  {
    var after := Enqueue(q, input, kind, pendingCount, [], messageID);
    if after != q {
      var i := if pendingCount > 0 && |q.items| == pendingCount then pendingCount - 1 else |q.items|;
      assert after.items[i].messageID == messageID;
    }
  }

  lemma UseRecorded(ms: seq<Message>, u: ToolUpdate, persisted: seq<Message>)
    requires u.toolUseID != ""
    ensures var after := ApplyToolRequested(ms, u);
      after == ms || AnyUse(persisted + after, u.toolUseID)
  {
    if Addressed(u) {
      ToolRequestedPlaced(ms, u);
      var after := ApplyToolRequested(ms, u);
      var i :| 0 <= i < |after| && AssistantUse(after[i], u);
      assert (persisted + after)[|persisted| + i] == after[i];
    }
  }

  lemma PairedIsResult(persisted: seq<Message>, ms: seq<Message>, u: ToolUpdate)
    requires exists i: nat, j: nat :: Paired(ms, u, i, j)
    ensures AnyResult(persisted + ms, u.toolUseID)
  {
    var i: nat, j: nat :| Paired(ms, u, i, j);
    assert (persisted + ms)[|persisted| + j] == ms[j];
  }

  lemma ResultRecorded(ms: seq<Message>, u: ToolUpdate, content: Text, media: Option<Media>, isError: bool, persisted: seq<Message>)
    requires u.toolUseID != "" && u.toolName != ""
    ensures var after := ApplyToolResult(ms, u, content, media, isError);
      after == ms || AnyResult(persisted + after, u.toolUseID)
  {
    if Addressed(u) {
      ToolResultPaired(ms, u, content, media, isError);
      PairedIsResult(persisted, ApplyToolResult(ms, u, content, media, isError), u);
    }
  }

  /** Replaying an identified event changes nothing, from any state. */
  lemma ReplayIsIdempotent(state: ReadState, event: BrowserEvent)
    requires Identified(event)
    ensures var once := ProjectLiveBrowserEvent(state, event).0;
      ProjectLiveBrowserEvent(once, event) == (once, [])
  {
    var persisted := Persisted(state);
    if !AlreadyLoaded(persisted, state.projection, event) {
      RecordedOrUnchanged(state, event);
    }
  }

  /** The first delivery either records the event's id or changes nothing. */
  lemma RecordedOrUnchanged(state: ReadState, event: BrowserEvent)
    requires Identified(event)
    ensures var (p, effects) := ProjectLiveThreadEvent(state.projection, event);
      effects == [] && (p == state.projection || AlreadyLoaded(Persisted(state), p, event))
  {
    var s := state.projection;
    var persisted := Persisted(state);
    match event.payload
    case LlmResponded(_, _, _, _) => ResponseRecorded(s, event.turnID, event.payload, persisted);
    case PolicyTrace(_, _) => TraceRecorded(s.messages, event, persisted);
    case PendingQueued(input, kind, messageID, pendingCount) =>
      QueueRecorded(s.queuedInput, input, kind, pendingCount, messageID);
    case ToolRequested(name, id, input, timeout) =>
      UseRecorded(s.messages, ToolUpdate(event.turnID, id, if name != "" then name else "?", input, timeout), persisted);
    case ToolCompleted(name, id, content, media, timeout) =>
      ResultRecorded(s.messages, ResultUpdate(event.turnID, id, name, timeout), content, media, false, persisted);
    case ToolErrored(name, id, content, media, timeout) =>
      ResultRecorded(s.messages, ResultUpdate(event.turnID, id, name, timeout), content, media, true, persisted);
    case ToolOutcomeUnknown(name, id, error) =>
      ResultRecorded(s.messages, ResultUpdate(event.turnID, id, name, None), error, None, true, persisted);
    case _ =>
  }

  // ----- what a call came to -----

  predicate EndsCall(end: BrowserEvent, id: string) {
    (end.payload.ToolCompleted? || end.payload.ToolErrored? || end.payload.ToolOutcomeUnknown?)
    && end.payload.toolUseID == id
  }

  /** The final result such an event brings. */
  function FinalBlock(end: BrowserEvent, id: string): Block
    requires EndsCall(end, id)
  {
    match end.payload
    case ToolCompleted(_, _, content, media, _) => ToolResult(id, content, media, false, false)
    case ToolErrored(_, _, content, media, _) => ToolResult(id, content, media, true, false)
    case ToolOutcomeUnknown(_, _, error) => ToolResult(id, error, None, true, false)
  }

  ghost predicate BlockAt(ms: seq<Message>, i: nat, k: nat, b: Block) {
    i < |ms| && k < |ms[i].blocks| && ms[i].blocks[k] == b
  }

  /** The turn shows this result, and nothing else is shown as the call's
      result: in particular no streamed output. */
  ghost predicate ShowsOutcome(ms: seq<Message>, turnID: Option<string>, final: Block)
    requires final.ToolResult?
  {
    && (exists i: nat, k: nat :: BlockAt(ms, i, k, final) && ms[i].turnID == turnID)
    && (forall i, k | 0 <= i < |ms| && 0 <= k < |ms[i].blocks| :: IsResult(ms[i].blocks[k], final.toolUseID) ==> ms[i].blocks[k] == final)
  }

  ghost predicate ResultFree(ms: seq<Message>, id: string) {
    forall i | 0 <= i < |ms| :: !HasResult(ms[i], id)
  }

  /** Making room for a result adds none. */
  lemma WithToolUseAddsNoResult(ms: seq<Message>, u: ToolUpdate)
    requires ResultFree(ms, u.toolUseID)
    ensures ResultFree(WithToolUse(ms, u), u.toolUseID)
  {
    var r := WithToolUse(ms, u);
    forall i | 0 <= i < |r| ensures !HasResult(r[i], u.toolUseID) {
      forall k | 0 <= k < |r[i].blocks| ensures !IsResult(r[i].blocks[k], u.toolUseID) {
        var j := if |r| == |ms| then i else i - 1;
        assert i < |ms| ==> !HasResult(ms[i], u.toolUseID);
        assert 0 <= j < |ms| ==> !HasResult(ms[j], u.toolUseID);
      }
    }
  }

  /** Where no result is held yet, the final one is placed as it came. */
  lemma OutcomePlaced(ms: seq<Message>, u: ToolUpdate, block: Block, use: nat)
    requires UseFirst(ms, u, use) && ResultFree(ms, u.toolUseID) && IsResult(block, u.toolUseID)
    ensures ShowsOutcome(UpsertToolResult(ms, u, block, Final), u.turnID, block)
  {
    hide ResultTarget, UseFirst;
    TargetAfterUse(ms, u, use);
    var t := ResultTarget(ms, u);
    var r := UpsertToolResult(ms, u, block, Final);
    if t.messageIndex >= 0 {
      var j := t.messageIndex;
      var blocks := ms[j].blocks;
      assert !HasResult(ms[j], u.toolUseID);
      FirstIndexIs(blocks, ResultOf(u.toolUseID), -1);
      assert r == ms[j := ms[j].(blocks := blocks + [block])];
      assert BlockAt(r, j, |blocks|, block);
    } else {
      assert r[t.insertIndex].blocks == [block];
      assert BlockAt(r, t.insertIndex, 0, block);
      assert forall i | t.insertIndex < i < |r| :: r[i] == ms[i - 1];
    }
    forall i, k | 0 <= i < |r| && 0 <= k < |r[i].blocks| && IsResult(r[i].blocks[k], u.toolUseID) ensures r[i].blocks[k] == block {
      assert forall m | 0 <= m < |ms| :: !HasResult(ms[m], u.toolUseID);
    }
  }

  lemma ResultApplied(ms: seq<Message>, u: ToolUpdate, block: Block)
    requires Addressed(u) && u.toolName != "" && ResultFree(ms, u.toolUseID)
    requires IsResult(block, u.toolUseID) && !block.streaming
    ensures ShowsOutcome(ApplyToolResult(ms, u, block.content, block.media, block.isError), u.turnID, block)
  {
    hide WithToolUse, UpsertToolResult, ShowsOutcome, ResultFree, UseFirst;
    var use := WithToolUsePrecedes(ms, u);
    WithToolUseAddsNoResult(ms, u);
    OutcomePlaced(WithToolUse(ms, u), u, block, use);
  }

  /** The update an ending event applies. */
  function EndUpdate(end: BrowserEvent, id: string): ToolUpdate
    requires EndsCall(end, id)
  {
    ResultUpdate(end.turnID, id, end.payload.name, if end.payload.ToolOutcomeUnknown? then None else end.payload.timeoutSeconds)
  }

  lemma EndProjected(state: ReadState, end: BrowserEvent, id: string)
    requires EndsCall(end, id)
    ensures var p, b := state.projection, FinalBlock(end, id);
      ProjectLiveBrowserEvent(state, end).0 ==
        if id != "" && AnyResult(Persisted(state) + p.messages, id) then state
        else state.(projection := p.(messages :=
          ApplyToolResult(p.messages, EndUpdate(end, id), b.content, b.media, b.isError)))
  {
    hide ApplyToolResult, AnyResult;
  }

  /** The event that ends a call leaves its turn showing exactly what the call
      came to if and only if no result of the call was held before, loaded or
      live, final or streamed - or the turn showed just that already. */
  lemma OutcomeShownIff(state: ReadState, end: BrowserEvent, id: string)
    requires EndsCall(end, id)
    ensures var before, after := state.projection.messages, ProjectLiveBrowserEvent(state, end).0.projection.messages;
      ShowsOutcome(after, end.turnID, FinalBlock(end, id))
      <==>
      || (Truthy(end.turnID) && id != "" && !AnyResult(Persisted(state) + before, id))
      || ShowsOutcome(before, end.turnID, FinalBlock(end, id))
  {
    hide ProjectLiveBrowserEvent, ShowsOutcome, WithToolUse, UpsertToolResult;
    EndProjected(state, end, id);
    var before, persisted := state.projection.messages, Persisted(state);
    if Truthy(end.turnID) && id != "" && !AnyResult(persisted + before, id) {
      forall i | 0 <= i < |before| ensures !HasResult(before[i], id) {
        assert (persisted + before)[|persisted| + i] == before[i];
      }
      ResultApplied(before, EndUpdate(end, id), FinalBlock(end, id));
    }
  }

  lemma OutputDeltaProjected(p: Projection, event: BrowserEvent)
    requires event.payload.ToolOutputDelta?
    ensures ProjectLiveThreadEvent(p, event).0
      == p.(messages := ApplyToolOutputDelta(p.messages,
           ResultUpdate(event.turnID, event.payload.toolUseID, event.payload.name, None), event.payload.outputText))
  {
    match event.payload
    case ToolOutputDelta(name, id, text) =>
  }

  lemma OutputDeltaApplied(state: ReadState, event: BrowserEvent)
    requires event.payload.ToolOutputDelta?
    ensures ProjectLiveBrowserEvent(state, event).0
      == state.(projection := ProjectLiveThreadEvent(state.projection, event).0)
  {
  }

  /** The price of that guard: it also recognizes the provisional block of
      streamed output, so once output has streamed, the event that ends the
      call is skipped and the block keeps streaming until the next load. */
  lemma StreamedOutputHidesCompletion(state: ReadState, turnID: Option<string>, name: string, id: string, text: Text, end: BrowserEvent)
    requires Truthy(turnID) && id != "" && text != []
    requires EndsCall(end, id)
    ensures var streamed := ProjectLiveBrowserEvent(state, BrowserEvent(turnID, None, ToolOutputDelta(name, id, text))).0;
      ProjectLiveBrowserEvent(streamed, end) == (streamed, [])
  {
    var u := ResultUpdate(turnID, id, name, None);
    var messages := ApplyToolOutputDelta(state.projection.messages, u, text);
    var streamed := state.(projection := state.projection.(messages := messages));
    var delta := BrowserEvent(turnID, None, ToolOutputDelta(name, id, text));
    OutputDeltaApplied(state, delta);
    OutputDeltaProjected(state.projection, delta);
    OutputDeltaPaired(state.projection.messages, u, text);
    PairedIsResult(Persisted(state), messages, u);
    assert AlreadyLoaded(Persisted(streamed), streamed.projection, end);
  }
}
