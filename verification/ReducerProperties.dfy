/** What each event does to the live transcript and the queue, said of the
    messages themselves: which of them change, how, and that nothing else does. */
module ReducerProperties {
  import opened JsText
  import opened Transcript
  import opened QueuedInputs
  import opened LiveToolEvents
  import opened LiveThreadProjection
  import opened Sequences

  function After(s: Projection, e: BrowserEvent): Projection {
    ProjectLiveThreadEvent(s, e).0
  }

  // ----- picking messages -----

  /** b holds the elements of a at these positions, in order. */
  ghost predicate Picked<T>(a: seq<T>, b: seq<T>, at: seq<nat>) {
    && |at| == |b|
    && (forall k | 0 <= k < |b| :: at[k] < |a| && b[k] == a[at[k]])
    && (forall k, l | 0 <= k < l < |b| :: at[k] < at[l])
  }

  lemma {:induction false} FilterPicks(ms: seq<Message>, p: Message -> bool) returns (at: seq<nat>)
    ensures Picked(ms, FilterMessages(ms, p), at)
    ensures forall i | 0 <= i < |ms| :: i in at <==> p(ms[i])
    decreases |ms|
  {
    if ms == [] {
      at := [];
    } else {
      var rest := FilterPicks(ms[1..], p);
      FilterHead(ms, p);
      hide FilterMessages, Picked;
      at := PickMore(ms, FilterMessages(ms[1..], p), rest, p(ms[0]));
      forall i | 0 <= i < |ms| ensures i in at <==> p(ms[i]) {
        if i > 0 { assert ms[i] == ms[1..][i - 1]; }
      }
    }
  }

  lemma FilterHead(ms: seq<Message>, p: Message -> bool)
    requires ms != []
    ensures FilterMessages(ms, p) == (if p(ms[0]) then [ms[0]] else []) + FilterMessages(ms[1..], p)
  {
  }

  function Moved(at: seq<nat>): (r: seq<nat>)
    ensures |r| == |at| && forall k | 0 <= k < |at| :: r[k] == at[k] + 1
  {
    seq(|at|, k requires 0 <= k < |at| => at[k] + 1)
  }

  lemma MovedHolds(at: seq<nat>, i: nat)
    requires i > 0
    ensures i in Moved(at) <==> i - 1 in at
  {
    if i - 1 in at {
      var k :| 0 <= k < |at| && at[k] == i - 1;
      assert Moved(at)[k] == i;
    }
  }

  lemma PickLater<T>(a: seq<T>, b: seq<T>, rest: seq<nat>)
    requires a != [] && Picked(a[1..], b, rest)
    ensures Picked(a, b, Moved(rest))
  {
    var at := Moved(rest);
    forall k | 0 <= k < |at| ensures at[k] < |a| && b[k] == a[at[k]] {
      assert rest[k] < |a[1..]| && a[1..][rest[k]] == a[rest[k] + 1];
    }
  }

  /** One more element in front, picked or not. */
  lemma PickMore<T>(a: seq<T>, b: seq<T>, rest: seq<nat>, pick: bool) returns (at: seq<nat>)
    requires a != [] && Picked(a[1..], b, rest)
    ensures Picked(a, (if pick then [a[0]] else []) + b, at)
    ensures 0 in at <==> pick
    ensures forall i | 0 < i < |a| :: i in at <==> i - 1 in rest
  {
    hide Picked;
    var moved := Moved(rest);
    PickLater(a, b, rest);
    assert 0 !in moved;
    forall i | 0 < i < |a| ensures i in moved <==> i - 1 in rest {
      MovedHolds(rest, i);
    }
    if pick {
      at := [0] + moved;
      PickFirst(a, b, moved);
    } else {
      at := moved;
      assert [] + b == b;
    }
  }

  lemma PickFirst<T>(a: seq<T>, b: seq<T>, moved: seq<nat>)
    requires a != [] && Picked(a, b, moved) && forall k | 0 <= k < |moved| :: moved[k] > 0
    ensures Picked(a, [a[0]] + b, [0] + moved)
  {
    var at, r := [0] + moved, [a[0]] + b;
    assert forall k | 1 <= k < |r| :: at[k] == moved[k - 1] && r[k] == b[k - 1];
  }

  // ----- the assistant's answer -----

  /** The message waits for the turn's answer. */
  predicate Awaits(m: Message, turnID: Option<string>) {
    m.turnID == turnID && m.role.Assistant? && m.pending
  }

  /** The turn's first message that waits, or the place after the last one. */
  ghost predicate FirstAwaiting(ms: seq<Message>, turnID: Option<string>, at: nat) {
    && at <= |ms|
    && (forall k | 0 <= k < at :: !Awaits(ms[k], turnID))
    && (at < |ms| ==> Awaits(ms[at], turnID))
  }

  ghost predicate LastAwaiting(ms: seq<Message>, turnID: Option<string>, at: nat) {
    && at <= |ms|
    && (at < |ms| ==> Awaits(ms[at], turnID) && forall k | at < k < |ms| :: !Awaits(ms[k], turnID))
    && (at == |ms| ==> forall k | 0 <= k < |ms| :: !Awaits(ms[k], turnID))
  }

  lemma FindFirst(ms: seq<Message>, turnID: Option<string>) returns (at: nat)
    ensures FirstAwaiting(ms, turnID, at)
    ensures FirstIndex(ms, PendingAssistant(turnID)) == if at < |ms| then at else -1
  {
    var p := PendingAssistant(turnID);
    var i := FirstIndex(ms, p);
    at := if i < 0 then |ms| else i;
    FirstIndexLeast(ms, p);
    assert forall k | 0 <= k < at :: !p(ms[k]);
    assert i >= 0 ==> p(ms[i]);
  }

  lemma FindLast(ms: seq<Message>, turnID: Option<string>) returns (at: nat)
    ensures LastAwaiting(ms, turnID, at)
    ensures LastIndex(ms, PendingAssistant(turnID)) == if at < |ms| then at else -1
  {
    var p := PendingAssistant(turnID);
    var i := LastIndex(ms, p);
    at := if i < 0 then |ms| else i;
    LastIndexGreatest(ms, p);
    assert forall k | i < k < |ms| :: !p(ms[k]);
    assert i >= 0 ==> p(ms[i]);
  }

  /** What the answer's message looks like. */
  predicate Answers(m: Message, p: Payload, turnID: Option<string>)
    requires p.LlmResponded?
  {
    m.role.Assistant? && m.turnID == turnID && !m.pending && m.blocks == p.blocks && m.model == Some(p.model)
  }

  /** The notice that stands in front of an answer, if it brings one. */
  function NoticeOf(p: Payload, turnID: Option<string>): seq<Message>
    requires p.LlmResponded?
  {
    if p.notice.Some? then [p.notice.value.(turnID := turnID)] else []
  }

  /** llm.responded: the answer is shown, whole, in the turn's first message
      that waited for it or else in a new last one, its notice right in front of
      it; every other message stays as and where it was, and the queue too. */
  lemma ResponseShown(s: Projection, e: BrowserEvent) returns (at: nat, m: Message)
    requires e.payload.LlmResponded? && Truthy(e.turnID)
    ensures FirstAwaiting(s.messages, e.turnID, at) && Answers(m, e.payload, e.turnID)
    ensures m.id == (if e.payload.messageID.Some? then e.payload.messageID else if at < |s.messages| then s.messages[at].id else None)
    ensures m.kind == if at < |s.messages| then s.messages[at].kind else None
    ensures After(s, e) == s.(messages :=
      s.messages[..at] + NoticeOf(e.payload, e.turnID) + [m] + if at < |s.messages| then s.messages[at + 1..] else [])
  {
    hide FirstAwaiting, After;
    at := FindFirst(s.messages, e.turnID);
    AnswerOf(s, e, at);
    AwaitingBound(s.messages, e.turnID, at);
    if at < |s.messages| {
      WaitsAt(s.messages, e.turnID, at);
      m := s.messages[at].(id := OrElse(e.payload.messageID, s.messages[at].id), pending := false,
                           blocks := e.payload.blocks, model := Some(e.payload.model));
    } else {
      m := Message(e.payload.messageID, Assistant, None, e.turnID, false, e.payload.blocks, Some(e.payload.model));
    }
  }

  lemma AnsweredIs(s: Projection, e: BrowserEvent)
    requires e.payload.LlmResponded?
    ensures After(s, e) == ApplyAssistantResponse(s, e.turnID, e.payload)
  {
    hide ApplyAssistantResponse;
  }

  lemma AnswerInPlace(s: Projection, turnID: Option<string>, p: Payload, at: nat) returns (m: Message)
    requires p.LlmResponded? && Truthy(turnID) && at < |s.messages| && FirstIndex(s.messages, PendingAssistant(turnID)) == at
    ensures m == s.messages[at].(id := OrElse(p.messageID, s.messages[at].id), pending := false, blocks := p.blocks, model := Some(p.model))
    ensures ApplyAssistantResponse(s, turnID, p)
      == s.(messages := s.messages[..at] + NoticeOf(p, turnID) + [m] + s.messages[at + 1..])
  {
    hide FirstIndex;
    m := s.messages[at].(id := OrElse(p.messageID, s.messages[at].id), pending := false, blocks := p.blocks, model := Some(p.model));
  }

  lemma AnswerAppended(s: Projection, turnID: Option<string>, p: Payload) returns (m: Message)
    requires p.LlmResponded? && Truthy(turnID) && FirstIndex(s.messages, PendingAssistant(turnID)) < 0
    ensures m == Message(p.messageID, Assistant, None, turnID, false, p.blocks, Some(p.model))
    ensures ApplyAssistantResponse(s, turnID, p)
      == s.(messages := s.messages[..|s.messages|] + NoticeOf(p, turnID) + [m] + [])
  {
    hide FirstIndex;
    m := Message(p.messageID, Assistant, None, turnID, false, p.blocks, Some(p.model));
    assert s.messages[..|s.messages|] == s.messages;
    Associative(s.messages + NoticeOf(p, turnID), [m], []);
    assert [m] + [] == [m];
  }

  lemma WaitsAt(ms: seq<Message>, turnID: Option<string>, at: nat)
    requires FirstAwaiting(ms, turnID, at) && at < |ms|
    ensures Awaits(ms[at], turnID)
  {
  }

  // ----- streamed output -----

  /** The block of this kind and stream. */
  predicate InStream(b: Block, reasoning: bool, index: int) {
    if reasoning then b.ReasoningBlock? && b.streamIndex == Some(index) else b.TextBlock? && b.streamIndex == Some(index)
  }

  /** The first block of a stream grows by a text, at position j, or a new last
      one holds it. */
  ghost predicate GrownAt(old_: seq<Block>, grown: seq<Block>, reasoning: bool, index: int, text: Text, j: nat) {
    && j <= |old_|
    && (forall k | 0 <= k < j :: !InStream(old_[k], reasoning, index))
    && if j < |old_|
       then InStream(old_[j], reasoning, index) && grown == old_[j := old_[j].(text := old_[j].text + text)]
       else grown == old_ + [if reasoning then ReasoningBlock(text, Some(index), [], false) else TextBlock(text, Some(index))]
  }

  /** The delta says something. */
  predicate Says(p: Payload) {
    p.LlmOutputDelta? && p.deltaText != [] && (p.deltaKind == "reasoning" || p.deltaKind == "text")
  }

  function Fresh(turnID: Option<string>): Message {
    Message(None, Assistant, None, turnID, true, [], None)
  }

  /** llm.output_delta: the text is added to its stream in the turn's last
      message that waits, or in a new one; nothing else changes. */
  lemma DeltaShown(s: Projection, e: BrowserEvent) returns (at: nat, j: nat, blocks: seq<Block>)
    requires Says(e.payload) && Truthy(e.turnID)
    ensures LastAwaiting(s.messages, e.turnID, at)
    ensures var p, ms := e.payload, s.messages;
      var before := if at < |ms| then ms[at] else Fresh(e.turnID);
      var m := before.(blocks := blocks, model := if p.deltaModel != "" then Some(p.deltaModel) else before.model);
      && GrownAt(before.blocks, blocks, p.deltaKind == "reasoning", p.index, p.deltaText, j)
      && After(s, e) == s.(messages := if at < |ms| then ms[at := m] else ms + [m])
  {
    hide FirstIndex, LastIndex, LastAwaiting, After, GrownAt, ApplyAssistantOutputDelta;
    var p, ms := e.payload, s.messages;
    at := FindLast(ms, e.turnID);
    var before := if at < |ms| then ms[at] else Fresh(e.turnID);
    j := FindStream(before.blocks, p.deltaKind == "reasoning", p.index);
    DeltaIs(s, e);
    blocks := DeltaBlocks(s, e.turnID, p, at, j, before);
  }

  lemma DeltaIs(s: Projection, e: BrowserEvent)
    requires e.payload.LlmOutputDelta?
    ensures After(s, e) == ApplyAssistantOutputDelta(s, e.turnID, e.payload)
  {
    hide ApplyAssistantOutputDelta;
  }

  lemma FindStream(blocks: seq<Block>, reasoning: bool, index: int) returns (j: nat)
    ensures j <= |blocks| && (j < |blocks| ==> InStream(blocks[j], reasoning, index))
    ensures forall k | 0 <= k < j :: !InStream(blocks[k], reasoning, index)
    ensures FirstIndex(blocks, StreamBlock(reasoning, index)) == if j < |blocks| then j else -1
  {
    var p := StreamBlock(reasoning, index);
    var i := FirstIndex(blocks, p);
    j := if i < 0 then |blocks| else i;
    FirstIndexLeast(blocks, p);
    assert forall k | 0 <= k < j :: !p(blocks[k]);
    assert i >= 0 ==> p(blocks[i]);
  }

  lemma DeltaBlocks(s: Projection, turnID: Option<string>, p: Payload, at: nat, j: nat, before: Message) returns (blocks: seq<Block>)
    requires Says(p) && Truthy(turnID) && at <= |s.messages|
    requires LastIndex(s.messages, PendingAssistant(turnID)) == if at < |s.messages| then at else -1
    requires before == if at < |s.messages| then s.messages[at] else Fresh(turnID)
    requires var reasoning := p.deltaKind == "reasoning";
      && j <= |before.blocks| && (j < |before.blocks| ==> InStream(before.blocks[j], reasoning, p.index))
      && (forall k | 0 <= k < j :: !InStream(before.blocks[k], reasoning, p.index))
      && FirstIndex(before.blocks, StreamBlock(reasoning, p.index)) == if j < |before.blocks| then j else -1
    ensures GrownAt(before.blocks, blocks, p.deltaKind == "reasoning", p.index, p.deltaText, j)
    ensures var m := before.(blocks := blocks, model := if p.deltaModel != "" then Some(p.deltaModel) else before.model);
      ApplyAssistantOutputDelta(s, turnID, p)
        == s.(messages := if at < |s.messages| then s.messages[at := m] else s.messages + [m])
  {
    hide FirstIndex, LastIndex;
    var reasoning, bs := p.deltaKind == "reasoning", before.blocks;
    blocks :=
      if j < |bs| then bs[j := bs[j].(text := bs[j].text + p.deltaText)]
      else bs + [if reasoning then ReasoningBlock(p.deltaText, Some(p.index), [], false) else TextBlock(p.deltaText, Some(p.index))];
  }

  /** Deltas without a turn, a text or a known kind change nothing. */
  lemma SilentDelta(s: Projection, e: BrowserEvent)
    requires e.payload.LlmOutputDelta? && !(Says(e.payload) && Truthy(e.turnID))
    ensures After(s, e) == s
  {
  }

  /** The attempt is given up and its output is to go. */
  predicate Restarts(p: Payload) {
    p.LlmErrored? || p.LlmFallback? || (p.LlmRetry? && !p.compaction && p.willRetry)
  }

  /** The message without the output of an attempt that was given up. */
  function Emptied(m: Message, turnID: Option<string>): Message {
    if Awaits(m, turnID) then m.(blocks := []) else m
  }

  /** llm.errored, llm.fallback and a retry: what waits loses its output,
      nothing else changes. */
  lemma RestartShown(s: Projection, e: BrowserEvent)
    requires Restarts(e.payload) && Truthy(e.turnID)
    ensures After(s, e) == s.(messages := After(s, e).messages) && |After(s, e).messages| == |s.messages|
    ensures forall i | 0 <= i < |s.messages| :: After(s, e).messages[i] == Emptied(s.messages[i], e.turnID)
  {
    var r := ResetPendingAssistantOutput(s, e.turnID, true);
    assert After(s, e) == r;
    forall i | 0 <= i < |s.messages| ensures r.messages[i] == Emptied(s.messages[i], e.turnID) {
      assert PendingAssistant(e.turnID)(s.messages[i]) <==> Awaits(s.messages[i], e.turnID);
    }
  }

  lemma NoRestart(s: Projection, e: BrowserEvent)
    requires (e.payload.LlmErrored? || e.payload.LlmFallback? || e.payload.LlmRetry?) && !(Restarts(e.payload) && Truthy(e.turnID))
    ensures After(s, e) == s
  {
  }

  // ----- a whole stream -----

  function Reduce(s: Projection, es: seq<BrowserEvent>): Projection
    decreases |es|
  {
    if es == [] then s else Reduce(After(s, es[0]), es[1..])
  }

  predicate Streams(e: BrowserEvent, turnID: Option<string>) {
    e.turnID == turnID && (e.payload.LlmOutputDelta? || e.payload.LlmErrored? || e.payload.LlmRetry? || e.payload.LlmFallback?)
  }

  function TextIn(blocks: seq<Block>, reasoning: bool, index: int): Text {
    if blocks == [] then []
    else if InStream(blocks[0], reasoning, index) then blocks[0].text
    else TextIn(blocks[1..], reasoning, index)
  }

  lemma {:induction false} TextAt(blocks: seq<Block>, reasoning: bool, index: int, j: nat)
    requires j <= |blocks| && (j < |blocks| ==> InStream(blocks[j], reasoning, index))
    requires forall k | 0 <= k < j :: !InStream(blocks[k], reasoning, index)
    ensures TextIn(blocks, reasoning, index) == if j < |blocks| then blocks[j].text else []
    decreases |blocks|
  {
    if j > 0 { TextAt(blocks[1..], reasoning, index, j - 1); }
  }

  lemma {:induction false} TextElsewhere(a: seq<Block>, b: seq<Block>, reasoning: bool, index: int)
    requires |a| <= |b|
    requires forall k | 0 <= k < |a| ::
      a[k] == b[k] || (!InStream(a[k], reasoning, index) && !InStream(b[k], reasoning, index))
    requires forall k | |a| <= k < |b| :: !InStream(b[k], reasoning, index)
    ensures TextIn(b, reasoning, index) == TextIn(a, reasoning, index)
    decreases |b|
  {
    if b != [] {
      if a == [] {
        TextElsewhere(a, b[1..], reasoning, index);
      } else {
        TextElsewhere(a[1..], b[1..], reasoning, index);
      }
    }
  }

  /** A grown stream shows its old text and the new one; others their own. */
  lemma GrownText(old_: seq<Block>, grown: seq<Block>, reasoning: bool, index: int, text: Text, j: nat, r: bool, i: int)
    requires GrownAt(old_, grown, reasoning, index, text, j)
    ensures TextIn(grown, r, i) == TextIn(old_, r, i) + if r == reasoning && i == index then text else []
  {
    if r == reasoning && i == index {
      TextAt(old_, r, i, j);
      TextAt(grown, r, i, j);
    } else {
      TextElsewhere(old_, grown, r, i);
    }
  }

  /** What the turn's last message that waits shows of a stream. */
  function StreamText(ms: seq<Message>, turnID: Option<string>, reasoning: bool, index: int): Text {
    var at := LastIndex(ms, PendingAssistant(turnID));
    if at < 0 then [] else TextIn(ms[at].blocks, reasoning, index)
  }

  /** What an event makes of the text of a stream. */
  function Told(e: BrowserEvent, text: Text, reasoning: bool, index: int): Text {
    if Restarts(e.payload) then []
    else if Says(e.payload) && (e.payload.deltaKind == "reasoning") == reasoning && e.payload.index == index
    then text + e.payload.deltaText
    else text
  }

  function ToldBy(es: seq<BrowserEvent>, text: Text, reasoning: bool, index: int): Text
    decreases |es|
  {
    if es == [] then text else ToldBy(es[1..], Told(es[0], text, reasoning, index), reasoning, index)
  }

  lemma StreamTextIs(ms: seq<Message>, turnID: Option<string>, at: nat, reasoning: bool, index: int)
    requires LastAwaiting(ms, turnID, at)
    ensures StreamText(ms, turnID, reasoning, index) == if at < |ms| then TextIn(ms[at].blocks, reasoning, index) else []
  {
    hide TextIn;
    LastIndexIs(ms, PendingAssistant(turnID), if at < |ms| then at else -1);
  }

  lemma DeltaTells(s: Projection, e: BrowserEvent, reasoning: bool, index: int)
    requires Says(e.payload) && Truthy(e.turnID)
    ensures StreamText(After(s, e).messages, e.turnID, reasoning, index)
      == Told(e, StreamText(s.messages, e.turnID, reasoning, index), reasoning, index)
  {
    hide After, StreamText, TextIn, GrownAt;
    var at, j, blocks := DeltaShown(s, e);
    var before := if at < |s.messages| then s.messages[at] else Fresh(e.turnID);
    GrownText(before.blocks, blocks, e.payload.deltaKind == "reasoning", e.payload.index, e.payload.deltaText, j, reasoning, index);
    StreamTextIs(s.messages, e.turnID, at, reasoning, index);
    StreamTextIs(After(s, e).messages, e.turnID, at, reasoning, index);
    NothingIn(reasoning, index);
  }

  lemma NothingIn(reasoning: bool, index: int)
    ensures TextIn([], reasoning, index) == []
  {
  }

  lemma RestartTells(s: Projection, e: BrowserEvent, reasoning: bool, index: int)
    requires Restarts(e.payload) && Truthy(e.turnID)
    ensures StreamText(After(s, e).messages, e.turnID, reasoning, index) == []
  {
    hide After, StreamText, TextIn;
    RestartShown(s, e);
    NothingIn(reasoning, index);
    var at := FindLast(s.messages, e.turnID);
    StreamTextIs(After(s, e).messages, e.turnID, at, reasoning, index);
  }

  /** However a stream was cut into deltas, and whatever other streams, failed
      attempts and fallbacks came between: it shows what was said in it since
      the last restart. */
  lemma {:induction false} StreamShown(s: Projection, es: seq<BrowserEvent>, turnID: Option<string>, reasoning: bool, index: int)
    requires Truthy(turnID) && forall i | 0 <= i < |es| :: Streams(es[i], turnID)
    ensures StreamText(Reduce(s, es).messages, turnID, reasoning, index)
      == ToldBy(es, StreamText(s.messages, turnID, reasoning, index), reasoning, index)
    decreases |es|
  {
    hide After, StreamText;
    if es != [] {
      var e := es[0];
      assert Streams(e, turnID);
      if Restarts(e.payload) {
        RestartTells(s, e, reasoning, index);
      } else if Says(e.payload) {
        DeltaTells(s, e, reasoning, index);
      } else if e.payload.LlmOutputDelta? {
        SilentDelta(s, e);
      } else {
        NoRestart(s, e);
      }
      StreamShown(After(s, e), es[1..], turnID, reasoning, index);
    }
  }

  // ----- streaming leaves no trace -----

  /** t is s but for what was streamed into the one message at `at` that waits,
      or into a new one if none did. */
  ghost predicate Drafted(s: Projection, t: Projection, turnID: Option<string>, at: nat) {
    var ms, r := s.messages, t.messages;
    && t == s.(messages := r)
    && FirstAwaiting(ms, turnID, at) && (forall k | at < k < |ms| :: !Awaits(ms[k], turnID))
    && if at < |ms| then |r| == |ms| && r == ms[at := ms[at].(blocks := r[at].blocks, model := r[at].model)]
       else r == ms || (|r| == |ms| + 1 && r == ms + [Fresh(turnID).(blocks := r[at].blocks, model := r[at].model)])
  }

  lemma DraftWaits(s: Projection, t: Projection, turnID: Option<string>, at: nat)
    requires Drafted(s, t, turnID, at)
    ensures FirstAwaiting(t.messages, turnID, at) && LastAwaiting(t.messages, turnID, at)
  {
  }

  lemma LastIsUnique(ms: seq<Message>, turnID: Option<string>, a: nat, b: nat)
    requires LastAwaiting(ms, turnID, a) && LastAwaiting(ms, turnID, b)
    ensures a == b
  {
  }

  lemma FirstIsUnique(ms: seq<Message>, turnID: Option<string>, a: nat, b: nat)
    requires FirstAwaiting(ms, turnID, a) && FirstAwaiting(ms, turnID, b)
    ensures a == b
  {
  }

  lemma DeltaDrafts(s: Projection, t: Projection, e: BrowserEvent, at: nat)
    requires Drafted(s, t, e.turnID, at) && Says(e.payload) && Truthy(e.turnID)
    ensures Drafted(s, After(t, e), e.turnID, at)
  {
    hide After, GrownAt, LastAwaiting;
    DraftWaits(s, t, e.turnID, at);
    var i, j, blocks := DeltaShown(t, e);
    LastIsUnique(t.messages, e.turnID, i, at);
  }

  lemma RestartDrafts(s: Projection, t: Projection, e: BrowserEvent, at: nat)
    requires Drafted(s, t, e.turnID, at) && Restarts(e.payload) && Truthy(e.turnID)
    ensures Drafted(s, After(t, e), e.turnID, at)
  {
    hide After;
    DraftWaits(s, t, e.turnID, at);
    RestartShown(t, e);
    var r := After(t, e).messages;
    if at < |t.messages| {
      assert r == t.messages[at := t.messages[at].(blocks := [])];
    } else {
      assert r == t.messages;
    }
  }

  lemma {:induction false} StreamDrafts(s: Projection, t: Projection, es: seq<BrowserEvent>, turnID: Option<string>, at: nat)
    requires Truthy(turnID) && Drafted(s, t, turnID, at) && forall i | 0 <= i < |es| :: Streams(es[i], turnID)
    ensures Drafted(s, Reduce(t, es), turnID, at)
    decreases |es|
  {
    hide After, Drafted;
    if es != [] {
      var e := es[0];
      assert Streams(e, turnID);
      if Restarts(e.payload) {
        RestartDrafts(s, t, e, at);
      } else if Says(e.payload) {
        DeltaDrafts(s, t, e, at);
      } else if e.payload.LlmOutputDelta? {
        SilentDelta(t, e);
      } else {
        NoRestart(t, e);
      }
      StreamDrafts(s, After(t, e), es[1..], turnID, at);
    }
  }

  lemma {:induction false} NothingStreams(s: Projection, es: seq<BrowserEvent>, turnID: Option<string>)
    requires !Truthy(turnID) && forall i | 0 <= i < |es| :: Streams(es[i], turnID)
    ensures Reduce(s, es) == s
    decreases |es|
  {
    hide After;
    if es != [] {
      assert Streams(es[0], turnID);
      if es[0].payload.LlmOutputDelta? { SilentDelta(s, es[0]); } else { NoRestart(s, es[0]); }
      NothingStreams(s, es[1..], turnID);
    }
  }

  /** The answer takes the place of whatever was streamed before it. */
  lemma AnswerReplacesDraft(s: Projection, t: Projection, e: BrowserEvent, at: nat)
    requires e.payload.LlmResponded? && Truthy(e.turnID) && Drafted(s, t, e.turnID, at)
    ensures After(t, e) == After(s, e)
  {
    DraftWaits(s, t, e.turnID, at);
    SameAnswer(s, t, e, at);
    hide After, ApplyAssistantResponse, FirstAwaiting, Drafted, AnsweredAt;
    AnswerOf(s, e, at);
    AnswerOf(t, e, at);
  }

  lemma SameAnswer(s: Projection, t: Projection, e: BrowserEvent, at: nat)
    requires e.payload.LlmResponded? && Drafted(s, t, e.turnID, at)
    ensures t == s.(messages := t.messages)
    ensures AnsweredAt(t.messages, e.payload, e.turnID, at) == AnsweredAt(s.messages, e.payload, e.turnID, at)
  {
    hide NoticeOf;
    var ms, r := s.messages, t.messages;
    if at < |ms| {
      assert r[..at] == ms[..at] && r[at + 1..] == ms[at + 1..];
    } else if r != ms {
      assert at == |ms| && r[..at] == ms[..at] && r[at + 1..] == [];
    }
  }

  /** The messages with an answer at this place. */
  function AnsweredAt(ms: seq<Message>, p: Payload, turnID: Option<string>, at: nat): seq<Message>
    requires p.LlmResponded?
  {
    (if at < |ms| then ms[..at] else ms) + NoticeOf(p, turnID)
    + [if at < |ms| then ms[at].(id := OrElse(p.messageID, ms[at].id), pending := false, blocks := p.blocks, model := Some(p.model))
       else Message(p.messageID, Assistant, None, turnID, false, p.blocks, Some(p.model))]
    + if at < |ms| then ms[at + 1..] else []
  }

  /** The transcript after an answer, given where it goes. */
  lemma AnswerOf(s: Projection, e: BrowserEvent, at: nat)
    requires e.payload.LlmResponded? && Truthy(e.turnID) && FirstAwaiting(s.messages, e.turnID, at)
    ensures After(s, e) == s.(messages := AnsweredAt(s.messages, e.payload, e.turnID, at))
  {
    hide FirstIndex, FirstAwaiting, After, ApplyAssistantResponse;
    var i := FindFirst(s.messages, e.turnID);
    FirstIsUnique(s.messages, e.turnID, i, at);
    AnsweredIs(s, e);
    AwaitingBound(s.messages, e.turnID, at);
    if at < |s.messages| {
      var m := AnswerInPlace(s, e.turnID, e.payload, at);
    } else {
      var m := AnswerAppended(s, e.turnID, e.payload);
    }
  }

  lemma AwaitingBound(ms: seq<Message>, turnID: Option<string>, at: nat)
    requires FirstAwaiting(ms, turnID, at)
    ensures at <= |ms|
  {
  }

  /** At most one message of the turn waits. */
  ghost predicate WaitsOnce(ms: seq<Message>, turnID: Option<string>) {
    forall i, k | 0 <= i < k < |ms| :: !(Awaits(ms[i], turnID) && Awaits(ms[k], turnID))
  }

  /** Whatever was streamed before it, in however many attempts: the answer
      leaves the same transcript as if nothing had been. */
  lemma StreamingLeavesNoTrace(s: Projection, es: seq<BrowserEvent>, e: BrowserEvent)
    requires e.payload.LlmResponded? && WaitsOnce(s.messages, e.turnID)
    requires forall i | 0 <= i < |es| :: Streams(es[i], e.turnID)
    ensures After(Reduce(s, es), e) == After(s, e)
  {
    hide After, Drafted, Reduce;
    if Truthy(e.turnID) {
      var at := FindFirst(s.messages, e.turnID);
      NothingDrafted(s, e.turnID, at);
      StreamDrafts(s, s, es, e.turnID, at);
      AnswerReplacesDraft(s, Reduce(s, es), e, at);
    } else {
      NothingStreams(s, es, e.turnID);
    }
  }

  lemma NothingDrafted(s: Projection, turnID: Option<string>, at: nat)
    requires FirstAwaiting(s.messages, turnID, at) && WaitsOnce(s.messages, turnID)
    ensures Drafted(s, s, turnID, at)
  {
  }

  /** Where two messages of the turn wait, it is otherwise: output goes to the
      last of them, the answer to the first, and the output stays. */
  lemma StreamingLeavesTrace(s: Projection, d: BrowserEvent, e: BrowserEvent)
    requires e.payload.LlmResponded? && d.turnID == e.turnID && Truthy(e.turnID) && Says(d.payload)
    requires !WaitsOnce(s.messages, e.turnID)
    ensures After(After(s, d), e) != After(s, e)
  {
    hide After, GrownAt, TextIn;
    var ms, p := s.messages, d.payload;
    var first := FindFirst(ms, e.turnID);
    var last, j, blocks := DeltaShown(s, d);
    assert first < last < |ms|;
    GrownText(ms[last].blocks, blocks, p.deltaKind == "reasoning", p.index, p.deltaText, j, p.deltaKind == "reasoning", p.index);
    assert blocks != ms[last].blocks;
    var t := After(s, d);
    AnswerOf(s, e, first);
    AnswerOf(t, e, first);
    var n := |NoticeOf(e.payload, e.turnID)|;
    LaterStays(s, e, first, last);
    LaterStays(t, e, first, last);
  }

  lemma LaterStays(s: Projection, e: BrowserEvent, at: nat, k: nat)
    requires e.payload.LlmResponded? && Truthy(e.turnID) && FirstAwaiting(s.messages, e.turnID, at)
    requires at < k < |s.messages|
    ensures var n := |NoticeOf(e.payload, e.turnID)|;
      k + n < |After(s, e).messages| && After(s, e).messages[k + n] == s.messages[k]
  {
    hide After;
    AnswerOf(s, e, at);
    var front := s.messages[..at] + NoticeOf(e.payload, e.turnID);
    assert |front| == at + |NoticeOf(e.payload, e.turnID)|;
  }
}
