/** What turns, queued inputs, repairs and compactions do to the live
    transcript and the queue. */
module TurnProperties {
  import opened JsText
  import opened Transcript
  import opened QueuedInputs
  import opened LiveToolEvents
  import opened LiveThreadProjection
  import opened ReducerProperties

  // ----- inputs -----

  /** The blocks of an input: its text, if it has one, then its images. */
  ghost predicate InputShown(blocks: seq<Block>, input: Text, attachments: seq<Media>) {
    var n := if input == [] then 0 else 1;
    && |blocks| == n + |attachments|
    && (n == 1 ==> blocks[0] == TextBlock(input, None))
    && (forall k | 0 <= k < |attachments| :: blocks[n + k] == ImageBlock(attachments[k]))
  }

  lemma InputBlocksShow(input: Text, attachments: seq<Media>)
    ensures InputShown(InputBlocks(input, attachments), input, attachments)
    ensures InputBlocks(input, attachments) == [] <==> input == [] && attachments == []
  {
  }

  // ----- a turn begins -----

  /** The text of the message is the input. */
  ghost predicate TextIs(m: Message, input: Text) {
    exists b | 0 <= b < |m.blocks| ::
      && m.blocks[b].TextBlock? && m.blocks[b].text == input
      && forall k | 0 <= k < b :: !m.blocks[k].TextBlock?
  }

  /** A user message with this text whose turn waits for its answer. */
  ghost predicate WaitsWith(ms: seq<Message>, i: nat, input: Text) {
    && i < |ms| && ms[i].role.User? && TextIs(ms[i], input) && Truthy(ms[i].turnID)
    && exists k | 0 <= k < |ms| :: Awaits(ms[k], ms[i].turnID)
  }

  /** What a turn with this input makes of the transcript ms. */
  ghost predicate TurnEffect(ms: seq<Message>, r: seq<Message>, turnID: Option<string>, input: Text, kind: Option<string>,
                             attachments: seq<Media>, messageID: Option<string>)
  {
    if !Truthy(turnID) || (input == [] && attachments == []) then
      r == ms
    else if exists k | 0 <= k < |ms| :: ms[k].turnID == turnID then
      // Already shown: its user messages get their id.
      && |r| == |ms|
      && forall k | 0 <= k < |ms| :: r[k] == Named(ms[k], turnID, messageID)
    else if input != [] && exists i: nat :: WaitsWith(ms, i, input) then
      // Shown under a provisional turn: the first such turn takes the id.
      exists i: nat ::
        && WaitsWith(ms, i, input) && (forall k: nat | k < i :: !WaitsWith(ms, k, input))
        && |r| == |ms|
        && forall k | 0 <= k < |ms| :: r[k] == Renamed(ms[k], ms[i].turnID, turnID, messageID)
    else
      // New: the input and a message that waits for the answer.
      && |r| == |ms| + 2 && r[..|ms|] == ms
      && InputShown(r[|ms|].blocks, input, attachments)
      && r[|ms|] == Message(messageID, User, kind, turnID, false, r[|ms|].blocks, None)
      && r[|ms| + 1] == Fresh(turnID)
  }

  function Named(m: Message, turnID: Option<string>, messageID: Option<string>): Message {
    if m.turnID == turnID && m.role.User? && m.id.None? then m.(id := messageID) else m
  }

  function Renamed(m: Message, provisional: Option<string>, turnID: Option<string>, messageID: Option<string>): Message {
    if m.turnID == provisional then m.(turnID := turnID, id := if m.role.User? then messageID else m.id) else m
  }

  lemma MessageTextIs(m: Message, input: Text)
    ensures MessageText(m) == Some(input) <==> TextIs(m, input)
  {
    var i := FirstIndex(m.blocks, IsText());
    FirstIndexLeast(m.blocks, IsText());
    assert forall k | 0 <= k < (if i < 0 then |m.blocks| else i) :: !IsText()(m.blocks[k]);
    assert i >= 0 ==> IsText()(m.blocks[i]);
  }

  lemma AwaitsInputIs(ms: seq<Message>, i: nat, input: Text)
    requires i < |ms|
    ensures AwaitsInput(ms, input)(ms[i]) <==> WaitsWith(ms, i, input)
  {
    hide MessageText, TextIs;
    MessageTextIs(ms[i], input);
    var at := FindFirst(ms, ms[i].turnID);
  }

  lemma ProvisionalTurn(ms: seq<Message>, input: Text) returns (i: nat)
    ensures i <= |ms| && (Truthy(FindPendingTurnForInput(ms, input)) <==> i < |ms|)
    ensures i < |ms| ==> WaitsWith(ms, i, input) && FindPendingTurnForInput(ms, input) == ms[i].turnID
    ensures forall k: nat | k < i :: !WaitsWith(ms, k, input)
    ensures i == |ms| ==> forall k: nat :: !WaitsWith(ms, k, input)
  {
    hide WaitsWith;
    var f := FirstIndex(ms, AwaitsInput(ms, input));
    i := if f < 0 then |ms| else f;
    FirstIndexLeast(ms, AwaitsInput(ms, input));
    assert forall k | 0 <= k < i :: !AwaitsInput(ms, input)(ms[k]);
    forall k: nat | k < i ensures !WaitsWith(ms, k, input) {
      AwaitsInputIs(ms, k, input);
    }
    if f >= 0 {
      AwaitsInputIs(ms, i, input);
      WaitsHasTurn(ms, i, input);
    } else {
      forall k: nat ensures !WaitsWith(ms, k, input) {
        if k >= |ms| { NothingThere(ms, k, input); }
      }
    }
  }

  lemma WaitsHasTurn(ms: seq<Message>, i: nat, input: Text)
    requires WaitsWith(ms, i, input)
    ensures i < |ms| && Truthy(ms[i].turnID)
  {
  }

  lemma NothingThere(ms: seq<Message>, k: nat, input: Text)
    requires k >= |ms|
    ensures !WaitsWith(ms, k, input)
  {
  }

  lemma FindOfTurn(ms: seq<Message>, turnID: Option<string>)
    ensures FirstIndex(ms, OfTurn(turnID)) >= 0 <==> exists k | 0 <= k < |ms| :: ms[k].turnID == turnID
  {
    var i := FirstIndex(ms, OfTurn(turnID));
    FirstIndexLeast(ms, OfTurn(turnID));
    assert forall k | 0 <= k < (if i < 0 then |ms| else i) :: !OfTurn(turnID)(ms[k]);
    assert i >= 0 ==> OfTurn(turnID)(ms[i]);
  }

  lemma FindUserOf(ms: seq<Message>, turnID: Option<string>)
    ensures FirstIndex(ms, UserOf(turnID)) >= 0 <==> exists k | 0 <= k < |ms| :: ms[k].turnID == turnID && ms[k].role.User?
  {
    var i := FirstIndex(ms, UserOf(turnID));
    FirstIndexLeast(ms, UserOf(turnID));
    assert forall k | 0 <= k < (if i < 0 then |ms| else i) :: !UserOf(turnID)(ms[k]);
    assert i >= 0 ==> UserOf(turnID)(ms[i]);
  }

  lemma TurnShown(ms: seq<Message>, turnID: Option<string>, input: Text, kind: Option<string>,
                  attachments: seq<Media>, messageID: Option<string>)
    ensures TurnEffect(ms, AppendLiveTurn(ms, turnID, input, kind, true, attachments, messageID), turnID, input, kind, attachments, messageID)
  {
    hide InputBlocks, InputShown, FindPendingTurnForInput, WaitsWith, FirstIndex;
    InputBlocksShow(input, attachments);
    FindOfTurn(ms, turnID);
    var r := AppendLiveTurn(ms, turnID, input, kind, true, attachments, messageID);
    if !Truthy(turnID) || (input == [] && attachments == []) {
    } else if exists k | 0 <= k < |ms| :: ms[k].turnID == turnID {
      assert forall k | 0 <= k < |ms| :: r[k] == Named(ms[k], turnID, messageID);
    } else {
      var i := ProvisionalTurn(ms, input);
      if input != [] && i < |ms| {
        ProvisionalRenamed(ms, turnID, input, kind, attachments, messageID, ms[i].turnID);
      } else {
        assert r[..|ms|] == ms;
        assert i == |ms| || input == [];
        assert !(input != [] && exists k: nat :: WaitsWith(ms, k, input));
      }
    }
  }

  lemma ProvisionalRenamed(ms: seq<Message>, turnID: Option<string>, input: Text, kind: Option<string>,
                           attachments: seq<Media>, messageID: Option<string>, provisional: Option<string>)
    requires Truthy(turnID) && input != [] && FirstIndex(ms, OfTurn(turnID)) < 0
    requires FindPendingTurnForInput(ms, input) == provisional && Truthy(provisional)
    ensures var r := AppendLiveTurn(ms, turnID, input, kind, true, attachments, messageID);
      |r| == |ms| && forall k | 0 <= k < |ms| :: r[k] == Renamed(ms[k], provisional, turnID, messageID)
  {
    hide FindPendingTurnForInput, FirstIndex;
    var f := (m: Message) => if m.turnID == provisional then m.(turnID := turnID, id := if m.role.User? then messageID else m.id) else m;
    var r := AppendLiveTurn(ms, turnID, input, kind, true, attachments, messageID);
    assert InputBlocks(input, attachments) != [];
    assert r == MapMessages(ms, f);
  }

  // ----- the queued input a turn takes -----

  /** turn.started takes the first queued input with its text and kind, else the
      oldest if it has no text, else none: the one at this position. */
  ghost predicate Takes(items: seq<QueuedInput>, input: Text, kind: Option<string>, at: nat) {
    && at <= |items|
    && if exists k | 0 <= k < |items| :: items[k].input == input && items[k].kind == kind then
         && at < |items| && items[at].input == input && items[at].kind == kind
         && forall k | 0 <= k < at :: !(items[k].input == input && items[k].kind == kind)
       else if input == [] && items != [] then at == 0
       else at == |items|
  }

  lemma Taken(s: Projection, input: Text, kind: Option<string>) returns (at: nat)
    ensures Takes(s.queuedInput.items, input, kind, at)
    ensures ConsumeQueuedInput(s, input, kind) ==
      if at == |s.queuedInput.items| then (s, None)
      else (s.(queuedInput := s.queuedInput.(items := s.queuedInput.items[..at] + s.queuedInput.items[at + 1..])),
            Some(s.queuedInput.items[at]))
  {
    var items := s.queuedInput.items;
    var p := Matching(input, kind);
    var f := FirstIndex(items, p);
    FirstIndexLeast(items, p);
    assert forall k | 0 <= k < (if f < 0 then |items| else f) :: !p(items[k]);
    assert f >= 0 ==> p(items[f]);
    at := if f >= 0 then f else if input == [] && items != [] then 0 else |items|;
  }

  /** turn.started: unless the turn's input is shown already, one queued input
      is taken and lends it attachments and id; the input is shown with a
      message that waits for the answer. */
  lemma TurnStartedShown(s: Projection, e: BrowserEvent) returns (at: nat)
    requires e.payload.TurnStarted?
    ensures var p, items, after := e.payload, s.queuedInput.items, After(s, e);
      var shown := Truthy(e.turnID) && exists k | 0 <= k < |s.messages| :: s.messages[k].turnID == e.turnID && s.messages[k].role.User?;
      && (if shown then at == |items| else Takes(items, p.startInput, p.startKind, at))
      && after == s.(messages := after.messages,
                     queuedInput := s.queuedInput.(items := if at < |items| then items[..at] + items[at + 1..] else items))
      && TurnEffect(s.messages, after.messages, e.turnID, p.startInput, p.startKind,
                    if at < |items| then items[at].attachments else [],
                    OrElse(p.startMessageID, if at < |items| then items[at].messageID else None))
  {
    hide AppendLiveTurn, ConsumeQueuedInput, FirstIndex, TurnEffect, Takes;
    var p, items := e.payload, s.queuedInput.items;
    FindUserOf(s.messages, e.turnID);
    var found := Taken(s, p.startInput, p.startKind);
    TakesBound(items, p.startInput, p.startKind, found);
    var shown := Truthy(e.turnID) && exists k | 0 <= k < |s.messages| :: s.messages[k].turnID == e.turnID && s.messages[k].role.User?;
    at := if shown then |items| else found;
    TurnShown(s.messages, e.turnID, p.startInput, p.startKind, if at < |items| then items[at].attachments else [],
              OrElse(p.startMessageID, if at < |items| then items[at].messageID else None));
  }

  lemma TakesBound(items: seq<QueuedInput>, input: Text, kind: Option<string>, at: nat)
    requires Takes(items, input, kind, at)
    ensures at <= |items|
  {
  }

  /** pending.promoted: the oldest queued input becomes the turn's. */
  lemma PromotedShown(s: Projection, e: BrowserEvent)
    requires e.payload.PendingPromoted?
    ensures var items, after := s.queuedInput.items, After(s, e);
      if items == [] then after == s
      else
        && after == s.(messages := after.messages, queuedInput := s.queuedInput.(items := items[1..]))
        && TurnEffect(s.messages, after.messages, e.turnID, items[0].input, items[0].kind, items[0].attachments, items[0].messageID)
  {
    hide AppendLiveTurn, TurnEffect;
    var items := s.queuedInput.items;
    if items != [] {
      TurnShown(s.messages, e.turnID, items[0].input, items[0].kind, items[0].attachments, items[0].messageID);
      assert Take(items, 1) == [items[0]];
    } else {
      assert items[0..] == items;
    }
  }

  // ----- inputs shown when they are drained -----

  /** One user message for a drained input. */
  ghost predicate ShowsInput(m: Message, item: QueuedInput, turnID: Option<string>) {
    && InputShown(m.blocks, item.input, item.attachments)
    && m == Message(item.messageID, User, if Truthy(item.kind) then item.kind else Some("pending_input"), turnID, false, m.blocks, None)
  }

  /** Drained inputs are shown in order, in front of the message that waits for
      the turn's answer, or at the end. */
  lemma DrainedShown(ms: seq<Message>, items: seq<QueuedInput>, turnID: Option<string>) returns (at: nat, added: seq<Message>)
    ensures at <= |ms| && AppendDrainedInputs(ms, items, turnID) == ms[..at] + added + ms[at..]
    ensures if Truthy(turnID) then FirstAwaiting(ms, turnID, at) else at == |ms|
    ensures |added| == |items| && forall k | 0 <= k < |items| :: ShowsInput(added[k], items[k], turnID)
  {
    at := FindFirst(ms, turnID);
    if !Truthy(turnID) { at := |ms|; }
    added := DrainedMessages(items, turnID);
    forall k | 0 <= k < |items| ensures ShowsInput(added[k], items[k], turnID) {
      InputBlocksShow(items[k].input, items[k].attachments);
    }
    hide FirstIndex, DrainedMessages;
    assert ms[..at] + ms[at..] == ms && ms[..at] + [] + ms[at..] == ms;
    if at == |ms| { assert ms[..at] == ms && ms[at..] == [] && ms + added + [] == ms + added; }
    if items == [] { assert added == []; }
  }

  /** pending.drained: the inputs announced come first, then those queued. */
  lemma DrainShown(s: Projection, e: BrowserEvent) returns (taken: seq<QueuedInput>)
    requires e.payload.PendingDrained?
    ensures var n, announced, items := e.payload.count, s.draining, s.queuedInput.items;
      var more := if n <= |announced| then 0 else if n - |announced| <= |items| then n - |announced| else |items|;
      && taken == Held(if n <= |announced| then announced[..n] else announced) + items[..more]
      && After(s, e) == s.(messages := AppendDrainedInputs(s.messages, taken, e.turnID),
                           draining := if n <= |announced| then announced[n..] else [],
                           queuedInput := s.queuedInput.(items := items[more..]))
  {
    hide AppendDrainedInputs, Held;
    var n, announced, items := e.payload.count, s.draining, s.queuedInput.items;
    var more := if n <= |announced| then 0 else if n - |announced| <= |items| then n - |announced| else |items|;
    taken := Held(if n <= |announced| then announced[..n] else announced) + items[..more];
    assert items[0..] == items && items[..0] == [];
    assert items[..|items|] == items && announced[..|announced|] == announced;
  }

  // ----- the queue -----

  /** The new item takes over what it names and keeps what the old one had. */
  ghost predicate Updates(item: QueuedInput, old_: QueuedInput, input: Text, kind: Option<string>, messageID: Option<string>) {
    && item.id == old_.id && item.input == input && item.kind == kind && item.attachments == old_.attachments
    && item.messageID == (var id := OrElse(messageID, old_.messageID); if Truthy(id) then id else None)
  }

  /** pending.queued: the input joins the end of the queue; if the count says
      the queue is as long already, its last item is the one meant, and if it is
      longer nothing is known of it. */
  lemma QueuedShown(s: Projection, e: BrowserEvent)
    requires e.payload.PendingQueued?
    ensures var p, q, after := e.payload, s.queuedInput, After(s, e);
      var items := q.items;
      && after == s.(queuedInput := after.queuedInput)
      && (p.input == [] || (p.pendingCount > 0 && |items| > p.pendingCount) ==> after == s)
      && (p.input != [] && p.pendingCount > 0 && |items| == p.pendingCount ==>
            && |after.queuedInput.items| == |items| && after.queuedInput.items[..|items| - 1] == items[..|items| - 1]
            && (after == s || Updates(after.queuedInput.items[|items| - 1], items[|items| - 1], p.input, p.kind, p.messageID))
            && after.queuedInput.items[|items| - 1].input == p.input && after.queuedInput.items[|items| - 1].kind == p.kind)
      && (p.input != [] && !(p.pendingCount > 0 && |items| >= p.pendingCount) ==>
            && |after.queuedInput.items| == |items| + 1 && after.queuedInput.items[..|items|] == items
            && var item := after.queuedInput.items[|items|];
               && item.input == p.input && item.kind == p.kind && item.attachments == []
               && item.messageID == (if Truthy(p.messageID) then p.messageID else None)
               && (p.messageID.Some? ==> item.id == p.messageID.value && after.queuedInput.nextSeq == q.nextSeq)
               && (p.messageID.None? ==> item.id == "queued-" + DecimalString(q.nextSeq) && after.queuedInput.nextSeq == q.nextSeq + 1))
  {
    hide DecimalString;
  }

  /** pending.dropped: the oldest inputs go. */
  lemma DroppedShown(s: Projection, e: BrowserEvent)
    requires e.payload.PendingDropped?
    ensures var n, items := e.payload.count, s.queuedInput.items;
      After(s, e) == s.(queuedInput := s.queuedInput.(items := if n < |items| then items[n..] else []))
  {
    assert s.queuedInput.items[0..] == s.queuedInput.items;
  }

  /** The end of a turn empties the queue, unless the turn was a compaction that
      had been admitted; the transcript stays. */
  lemma TurnEnded(s: Projection, e: BrowserEvent)
    requires e.payload.TurnCompleted? || e.payload.TurnErrored?
    ensures var after := After(s, e);
      if Truthy(e.turnID) && s.compactAdmissionTurnID == e.turnID then after == s.(compactAdmissionTurnID := None)
      else after.messages == s.messages && after.queuedInput.items == [] && after.draining == [] && after.compactAdmissionTurnID.None?
  {
  }

  // ----- repairs, compactions, traces -----

  ghost predicate Touches(m: Message, repairs: seq<Repair>) {
    exists b, k | 0 <= b < |m.blocks| && 0 <= k < |repairs| ::
      && (m.blocks[b].ToolUse? || m.blocks[b].ToolResult?)
      && repairs[k].toolUseID != "" && m.blocks[b].toolUseID == repairs[k].toolUseID
  }

  /** transcript.repaired: exactly the messages about a repaired call go. */
  lemma RepairShown(s: Projection, e: BrowserEvent) returns (at: seq<nat>)
    requires e.payload.TranscriptRepaired?
    ensures After(s, e) == s.(messages := After(s, e).messages)
    ensures Picked(s.messages, After(s, e).messages, at)
    ensures forall i | 0 <= i < |s.messages| :: i in at <==> !Touches(s.messages[i], e.payload.repairs)
  {
    hide Picked, FilterMessages;
    var p := (m: Message) => !TouchesRepair(m, e.payload.repairs);
    at := FilterPicks(s.messages, p);
    forall i | 0 <= i < |s.messages| ensures p(s.messages[i]) <==> !Touches(s.messages[i], e.payload.repairs) {
      TouchesIs(s.messages[i], e.payload.repairs);
    }
  }

  lemma TouchesIs(m: Message, repairs: seq<Repair>)
    ensures TouchesRepair(m, repairs) <==> Touches(m, repairs)
  {
  }

  /** compact.started: one notice is shown, however often it starts. */
  lemma CompactionShown(s: Projection, e: BrowserEvent)
    requires e.payload.CompactStarted?
    ensures var notice := Message(Some("local-compact-pending"), User, Some("compact_pending"), None, true,
                                  [TextBlock(Units("Context compacting..."), None)], None);
      After(s, e) == s.(
        messages := if HasID(s.messages, "local-compact-pending") then s.messages else s.messages + [notice],
        compactAdmissionTurnID := if !e.payload.auto && Truthy(e.turnID) then e.turnID else s.compactAdmissionTurnID)
  {
    hide Units;
  }

  /** Its end, good or bad, takes the notice and the command away again. */
  lemma CompactionEnded(s: Projection, e: BrowserEvent) returns (at: seq<nat>)
    requires e.payload.CompactCompleted? || e.payload.CompactErrored?
    ensures After(s, e) == s.(messages := After(s, e).messages)
    ensures Picked(s.messages, After(s, e).messages, at)
    ensures forall i | 0 <= i < |s.messages| :: i in at <==>
      && s.messages[i].id != Some("local-compact-command") && s.messages[i].id != Some("local-compact-pending")
      && s.messages[i].kind != Some("compact_pending")
  {
    hide Picked, FilterMessages;
    at := FilterPicks(s.messages, (m: Message) => !IsLocalCompact(m));
  }

  /** A policy trace with a text is shown at the end, once if it has an id. */
  lemma TraceShown(s: Projection, e: BrowserEvent)
    requires e.payload.PolicyTrace?
    ensures var p := e.payload;
      var id := if p.messageID.Some? then p.messageID else if Truthy(e.eventID) then Some("policy-" + e.eventID.value) else None;
      After(s, e) ==
        if p.traceText == [] || (Truthy(id) && HasID(s.messages, id.value)) then s
        else s.(messages := s.messages + [Message(id, System, Some("policy_event"), e.turnID, false, [TextBlock(p.traceText, None)], None)])
  {
  }

  /** A compaction that was admitted keeps its turn's end from emptying the
      queue. */
  lemma AdmissionShown(s: Projection, e: BrowserEvent)
    requires e.payload.TurnAdmitted?
    ensures After(s, e) == if e.payload.compact && Truthy(e.turnID) then s.(compactAdmissionTurnID := e.turnID) else s
  {
  }

  // ----- refreshes -----

  /** Which events ask for a refresh, and what it keeps. */
  lemma RefreshesAsked(s: Projection, e: BrowserEvent)
    ensures ProjectLiveThreadEvent(s, e).1 ==
      if e.payload.InputScopeChanged? then [Refresh(true, true)]
      else if e.payload.TurnCompleted? || e.payload.TurnErrored? then [Refresh(false, false)]
      else if e.payload.CompactCompleted? || e.payload.CompactErrored? || e.payload.TranscriptRepaired? then [Refresh(true, false)]
      else []
  {
  }
}
