/** What folding tool events guarantees: every result follows a use of its own
    turn, nothing else moves, and streamed output has a closed form. */
module LiveToolProperties {
  import opened JsText
  import opened Transcript
  import opened LiveToolEvents

  // ----- everything that is not about one tool call -----

  predicate About(b: Block, id: string) {
    IsUse(b, id) || IsResult(b, id)
  }

  /** The blocks not about the tool call, in order. */
  function Keep(blocks: seq<Block>, id: string): seq<Block> {
    if blocks == [] then []
    else (if About(blocks[0], id) then [] else [blocks[0]]) + Keep(blocks[1..], id)
  }

  /** Each such block of the transcript together with the message that holds
      it (without its blocks), in order. */
  function Placed(header: Message, blocks: seq<Block>): seq<(Message, Block)> {
    if blocks == [] then [] else [(header, blocks[0])] + Placed(header, blocks[1..])
  }

  function Others(ms: seq<Message>, id: string): seq<(Message, Block)> {
    if ms == [] then []
    else Placed(ms[0].(blocks := []), Keep(ms[0].blocks, id)) + Others(ms[1..], id)
  }

  lemma {:induction false} OthersConcat(a: seq<Message>, b: seq<Message>, id: string)
    ensures Others(a + b, id) == Others(a, id) + Others(b, id)
  {
    if a == [] {
      assert a + b == b;
    } else {
      var first := Placed(a[0].(blocks := []), Keep(a[0].blocks, id));
      calc {
        Others(a + b, id);
        { assert (a + b)[1..] == a[1..] + b; }
        first + Others(a[1..] + b, id);
        { OthersConcat(a[1..], b, id); }
        first + (Others(a[1..], id) + Others(b, id));
        (first + Others(a[1..], id)) + Others(b, id);
        Others(a, id) + Others(b, id);
      }
    }
  }

  lemma OthersSingle(m: Message, m': Message, id: string)
    requires m.(blocks := []) == m'.(blocks := []) && Keep(m.blocks, id) == Keep(m'.blocks, id)
    ensures Others([m], id) == Others([m'], id)
  {
    assert [m][1..] == [] && [m'][1..] == [];
  }

  lemma OthersReplaced(ms: seq<Message>, i: nat, m: Message, id: string)
    requires i < |ms|
    requires m.(blocks := []) == ms[i].(blocks := [])
    requires Keep(m.blocks, id) == Keep(ms[i].blocks, id)
    ensures Others(ms[i := m], id) == Others(ms, id)
  {
    hide Others, Keep, Placed;
    OthersSingle(ms[i], m, id);
    OthersConcat(ms[..i], [ms[i]] + ms[i + 1..], id);
    OthersConcat(ms[..i], [m] + ms[i + 1..], id);
    OthersConcat([ms[i]], ms[i + 1..], id);
    OthersConcat([m], ms[i + 1..], id);
    assert ms == ms[..i] + ([ms[i]] + ms[i + 1..]);
    assert ms[i := m] == ms[..i] + ([m] + ms[i + 1..]);
  }

  lemma OthersInserted(ms: seq<Message>, i: nat, m: Message, id: string)
    requires i <= |ms|
    requires Keep(m.blocks, id) == []
    ensures Others(ms[..i] + [m] + ms[i..], id) == Others(ms, id)
  {
    calc {
      Others(ms[..i] + [m] + ms[i..], id);
      { OthersConcat(ms[..i] + [m], ms[i..], id); OthersConcat(ms[..i], [m], id); }
      Others(ms[..i], id) + Others([m], id) + Others(ms[i..], id);
      Others(ms[..i], id) + Others(ms[i..], id);
      { OthersConcat(ms[..i], ms[i..], id); assert ms == ms[..i] + ms[i..]; }
      Others(ms, id);
    }
  }

  lemma {:induction false} KeepPointwise(a: seq<Block>, b: seq<Block>, id: string)
    requires |a| == |b|
    requires forall i | 0 <= i < |a| :: a[i] == b[i] || (About(a[i], id) && About(b[i], id))
    ensures Keep(a, id) == Keep(b, id)
  {
    if a != [] { KeepPointwise(a[1..], b[1..], id); }
  }

  lemma {:induction false} KeepAppended(a: seq<Block>, b: Block, id: string)
    requires About(b, id)
    ensures Keep(a + [b], id) == Keep(a, id)
  {
    if a == [] {
    } else {
      KeepAppended(a[1..], b, id);
      assert (a + [b])[1..] == a[1..] + [b];
    }
  }

  // ----- a use precedes every result of the turn -----

  ghost predicate UseFirst(ms: seq<Message>, u: ToolUpdate, i: nat) {
    && i < |ms|
    && AssistantUse(ms[i], u)
    && forall k | 0 <= k <= i :: !UserResult(ms[k], u)
  }

  /** Making room for a result: an assistant message of the turn naming the use
      then precedes every result of the turn for it. */
  lemma WithToolUsePrecedes(ms: seq<Message>, u: ToolUpdate) returns (i: nat)
    requires Addressed(u) && u.toolName != ""
    ensures UseFirst(WithToolUse(ms, u), u, i)
  {
    hide FirstIndex, LastIndex, NeedsMetadataUpdate;
    var first := FirstIndex(ms, UserResultOf(u));
    var at := if first >= 0 then first else |ms|;
    assert forall k | 0 <= k < at :: !UserResult(ms[k], u) by {
      FirstIndexLeast(ms, UserResultOf(u));
      assert forall k | 0 <= k < at :: !UserResultOf(u)(ms[k]);
    }
    var before := ms[..at];
    var matching := LastIndex(before, AssistantUseOf(u));
    var assistant := LastIndex(before, AssistantOf(u));
    var block := ToolUseBlock(u.(input := None));
    var r := WithToolUse(ms, u);
    if matching >= 0 {
      i := matching;
      assert AssistantUse(ms[i], u) by { assert AssistantUseOf(u)(before[i]); }
      if r != ms {
        var e :| 0 <= e < |ms[i].blocks| && IsUse(ms[i].blocks[e], u.toolUseID);
        assert IsUse(r[i].blocks[e], u.toolUseID);
      }
    } else if assistant >= 0 {
      i := assistant;
      assert AssistantOf(u)(before[i]);
      assert IsUse(r[i].blocks[|ms[i].blocks|], u.toolUseID);
    } else {
      i := at;
      assert IsUse(r[at].blocks[0], u.toolUseID);
    }
  }

  lemma WithToolUseOthers(ms: seq<Message>, u: ToolUpdate)
    requires Addressed(u) && u.toolName != ""
    ensures Others(WithToolUse(ms, u), u.toolUseID) == Others(ms, u.toolUseID)
  {
    var first := FirstIndex(ms, UserResultOf(u));
    var at := if first >= 0 then first else |ms|;
    var matching := LastIndex(ms[..at], AssistantUseOf(u));
    var assistant := LastIndex(ms[..at], AssistantOf(u));
    var block := ToolUseBlock(u.(input := None));
    if matching >= 0 {
      var merged := MergeUses(ms[matching].blocks, block);
      KeepPointwise(merged, ms[matching].blocks, u.toolUseID);
      OthersReplaced(ms, matching, ms[matching].(blocks := merged), u.toolUseID);
    } else if assistant >= 0 {
      KeepAppended(ms[assistant].blocks, block, u.toolUseID);
      OthersReplaced(ms, assistant, ms[assistant].(blocks := ms[assistant].blocks + [block]), u.toolUseID);
    } else {
      KeepAppended([], block, u.toolUseID);
      OthersInserted(ms, at, Message(None, Assistant, None, u.turnID, true, [block], None), u.toolUseID);
    }
  }

  /** A use inside the turn's last stretch is at or before the last one there. */
  lemma LastUseInRun(ms: seq<Message>, u: ToolUpdate, i: nat)
    requires i < |ms| && AssistantUse(ms[i], u)
    ensures i < RunEnd(ms, u)
    ensures i <= RunStart(ms, u) + LastIndex(ms[RunStart(ms, u)..RunEnd(ms, u)], AssistantUseOf(u)) || i < RunStart(ms, u)
  {
    RunBounds(ms, u);
    var lo, hi := RunStart(ms, u), RunEnd(ms, u);
    if i >= lo {
      var run := ms[lo..hi];
      LastIndexGreatest(run, AssistantUseOf(u));
      assert run[i - lo] == ms[i];
      assert AssistantUseOf(u)(run[i - lo]);
    }
  }

  /** The target's message is a results message of that stretch. */
  lemma TargetInRun(ms: seq<Message>, u: ToolUpdate)
    ensures var t := ResultTarget(ms, u);
      t.messageIndex >= 0 ==>
        RunStart(ms, u) <= t.messageIndex < RunEnd(ms, u) && ResultsOnly(ms[t.messageIndex])
  {
    hide RunStart, RunEnd;
    var lo, hi := RunStart(ms, u), RunEnd(ms, u);
    var run := ms[lo..hi];
    var exact := LastIndex(run, ResultsWith(u));
    var fallback := LastIndex(run, ResultsMessage());
    assert exact >= 0 ==> ResultsWith(u)(run[exact]);
    assert fallback >= 0 ==> ResultsMessage()(run[fallback]);
  }

  /** Where the result lands is after that use. */
  lemma TargetAfterUse(ms: seq<Message>, u: ToolUpdate, i: nat)
    requires UseFirst(ms, u, i)
    ensures var t := ResultTarget(ms, u);
      && (t.messageIndex >= 0 ==>
        i < t.messageIndex && ms[t.messageIndex].turnID == u.turnID && ResultsOnly(ms[t.messageIndex]))
      && (t.messageIndex < 0 ==> i < t.insertIndex)
  {
    TargetInRun(ms, u);
    RunBounds(ms, u);
    LastUseInRun(ms, u, i);
    var lo := RunStart(ms, u);
    var exact := LastIndex(ms[lo..RunEnd(ms, u)], ResultsWith(u));
    if exact >= 0 {
      assert ResultsWith(u)(ms[lo..RunEnd(ms, u)][exact]);
      assert UserResult(ms[lo + exact], u);
    }
  }

  ghost predicate Paired(ms: seq<Message>, u: ToolUpdate, i: nat, j: nat) {
    i < j < |ms| && AssistantUse(ms[i], u) && UserResult(ms[j], u)
  }

  lemma UpsertedPaired(ms: seq<Message>, u: ToolUpdate, block: Block, mode: Mode, i: nat) returns (j: nat)
    requires UseFirst(ms, u, i)
    requires IsResult(block, u.toolUseID)
    ensures Paired(UpsertToolResult(ms, u, block, mode), u, i, j)
    ensures Others(UpsertToolResult(ms, u, block, mode), u.toolUseID) == Others(ms, u.toolUseID)
  {
    hide ResultTarget, FirstIndex, Others, CapLiveToolOutput;
    TargetAfterUse(ms, u, i);
    var t := ResultTarget(ms, u);
    var r := UpsertToolResult(ms, u, block, mode);
    if t.messageIndex >= 0 {
      j := t.messageIndex;
      var blocks := ms[j].blocks;
      var existing := FirstIndex(blocks, ResultOf(block.toolUseID));
      if existing >= 0 {
        var merged := MergeToolResult(blocks[existing], block, mode);
        assert IsResult(r[j].blocks[existing], u.toolUseID);
        KeepPointwise(blocks[existing := merged], blocks, u.toolUseID);
      } else {
        assert IsResult(r[j].blocks[|blocks|], u.toolUseID);
        KeepAppended(blocks, block, u.toolUseID);
      }
      OthersReplaced(ms, j, r[j], u.toolUseID);
    } else {
      j := t.insertIndex;
      assert IsResult(r[j].blocks[0], u.toolUseID);
      KeepAppended([], block, u.toolUseID);
      OthersInserted(ms, j, r[j], u.toolUseID);
    }
  }

  /** After a nonempty output delta the turn holds a result for the call, a use
      of the call sits in an earlier message of the same turn, and every other
      block is where it was. */
  lemma OutputDeltaPaired(ms: seq<Message>, u: ToolUpdate, text: Text)
    requires Addressed(u) && u.toolName != "" && text != []
    ensures exists i: nat, j: nat :: Paired(ApplyToolOutputDelta(ms, u, text), u, i, j)
    ensures Others(ApplyToolOutputDelta(ms, u, text), u.toolUseID) == Others(ms, u.toolUseID)
  {
    var i := WithToolUsePrecedes(ms, u);
    WithToolUseOthers(ms, u);
    var block := ToolResult(u.toolUseID, text, None, false, true);
    var j := UpsertedPaired(WithToolUse(ms, u), u, block, Append, i);
    var r := ApplyToolOutputDelta(ms, u, text);
    assert Paired(r, u, i, j);
  }

  /** The same for a final result. */
  lemma ToolResultPaired(ms: seq<Message>, u: ToolUpdate, content: Text, media: Option<Media>, isError: bool)
    requires Addressed(u) && u.toolName != ""
    ensures exists i: nat, j: nat :: Paired(ApplyToolResult(ms, u, content, media, isError), u, i, j)
    ensures Others(ApplyToolResult(ms, u, content, media, isError), u.toolUseID) == Others(ms, u.toolUseID)
  {
    var i := WithToolUsePrecedes(ms, u);
    WithToolUseOthers(ms, u);
    var block := ToolResult(u.toolUseID, content, media, isError, false);
    var j := UpsertedPaired(WithToolUse(ms, u), u, block, Final, i);
    var r := ApplyToolResult(ms, u, content, media, isError);
    assert Paired(r, u, i, j);
  }

  /** A request leaves a use of the call in the turn, and every other block
      where it was. */
  lemma ToolRequestedPlaced(ms: seq<Message>, u: ToolUpdate)
    requires Addressed(u)
    ensures exists i | 0 <= i < |ApplyToolRequested(ms, u)| :: AssistantUse(ApplyToolRequested(ms, u)[i], u)
    ensures Others(ApplyToolRequested(ms, u), u.toolUseID) == Others(ms, u.toolUseID)
  {
    var block := ToolUseBlock(u);
    var r := ApplyToolRequested(ms, u);
    var target := RequestTarget(ms, u);
    if target >= 0 {
      assert AssistantUseOf(u)(ms[target]) || AssistantOf(u)(ms[target]);
      var blocks := ms[target].blocks;
      var existing := FirstIndex(blocks, UseOf(u.toolUseID));
      if existing >= 0 {
        var merged := MergeUse(blocks[existing], block);
        assert IsUse(r[target].blocks[existing], u.toolUseID);
        KeepPointwise(r[target].blocks, blocks, u.toolUseID);
      } else {
        assert IsUse(r[target].blocks[|blocks|], u.toolUseID);
        KeepAppended(blocks, block, u.toolUseID);
      }
      OthersReplaced(ms, target, r[target], u.toolUseID);
      assert AssistantUse(r[target], u);
    } else {
      assert IsUse(r[|ms|].blocks[0], u.toolUseID);
      KeepAppended([], block, u.toolUseID);
      OthersInserted(ms, |ms|, r[|ms|], u.toolUseID);
      assert r == ms[..|ms|] + [r[|ms|]] + ms[|ms|..];
      assert AssistantUse(r[|ms|], u);
    }
  }

  // ----- what the placed use and result hold -----

  /** A timeout counts only if it is positive. */
  function TimeoutOf(u: ToolUpdate): Option<int> {
    if u.timeoutSeconds.Some? && u.timeoutSeconds.value > 0 then u.timeoutSeconds else None
  }

  /** The last message of the list with this property, if there is one. */
  ghost predicate LastWith(ms: seq<Message>, p: Message -> bool, at: nat) {
    at < |ms| && p(ms[at]) && forall k | at < k < |ms| :: !p(ms[k])
  }

  /** The first use of the call in the message. */
  ghost predicate FirstUse(m: Message, id: string, j: nat) {
    j < |m.blocks| && IsUse(m.blocks[j], id) && forall k | 0 <= k < j :: !IsUse(m.blocks[k], id)
  }

  /** tool.requested: the use is shown with the name, input and timeout of the
      request. It takes the place of the first use of the call in the turn's last
      assistant message that has one, which lends what the request lacks; else it
      joins the turn's last assistant message, or stands in one of its own.
      Nothing else changes. */
  lemma RequestShown(ms: seq<Message>, u: ToolUpdate) returns (at: nat, j: nat)
    requires Addressed(u)
    ensures var r, use := ApplyToolRequested(ms, u), ToolUse(u.toolUseID, u.toolName, u.input, TimeoutOf(u));
      if exists i | 0 <= i < |ms| :: AssistantUse(ms[i], u) then
        && LastWith(ms, m => AssistantUse(m, u), at) && FirstUse(ms[at], u.toolUseID, j)
        && var old_ := ms[at].blocks[j];
           r == ms[at := ms[at].(blocks := ms[at].blocks[j :=
             use.(input := OrElse(u.input, old_.input), timeoutSeconds := OrElse(TimeoutOf(u), old_.timeoutSeconds))])]
      else if exists i | 0 <= i < |ms| :: ms[i].turnID == u.turnID && ms[i].role.Assistant? then
        && LastWith(ms, (m: Message) => m.turnID == u.turnID && m.role.Assistant?, at)
        && r == ms[at := ms[at].(blocks := ms[at].blocks + [use])]
      else
        r == ms + [Message(None, Assistant, None, u.turnID, true, [use], None)]
  {
    hide FirstIndex, LastIndex, HasUse;
    var named, any := LastIndex(ms, AssistantUseOf(u)), LastIndex(ms, AssistantOf(u));
    LastIndexGreatest(ms, AssistantUseOf(u));
    LastIndexGreatest(ms, AssistantOf(u));
    assert forall k | named < k < |ms| :: !AssistantUseOf(u)(ms[k]);
    assert forall k | any < k < |ms| :: !AssistantOf(u)(ms[k]);
    assert named >= 0 ==> AssistantUseOf(u)(ms[named]);
    assert any >= 0 ==> AssistantOf(u)(ms[any]);
    at := if named >= 0 then named else if any >= 0 then any else 0;
    j := 0;
    if named >= 0 {
      j := FindUse(ms[named], u.toolUseID);
    } else if any >= 0 {
      NoUse(ms[any], u);
    }
  }

  lemma FindUse(m: Message, id: string) returns (j: nat)
    requires HasUse(m, id)
    ensures FirstUse(m, id, j) && FirstIndex(m.blocks, UseOf(id)) == j
  {
    var i := FirstIndex(m.blocks, UseOf(id));
    FirstIndexLeast(m.blocks, UseOf(id));
    assert forall k | 0 <= k < (if i < 0 then |m.blocks| else i) :: !UseOf(id)(m.blocks[k]);
    assert i >= 0 ==> UseOf(id)(m.blocks[i]);
    j := i;
  }

  lemma NoUse(m: Message, u: ToolUpdate)
    requires m.turnID == u.turnID && m.role.Assistant? && !AssistantUse(m, u)
    ensures FirstIndex(m.blocks, UseOf(u.toolUseID)) < 0
  {
    FirstIndexIs(m.blocks, UseOf(u.toolUseID), -1);
  }

  /** A use of the call ahead of its result keeps its input and takes the name
      and timeout that came with the result. */
  predicate Refreshed(b: Block, r: Block, u: ToolUpdate) {
    if IsUse(b, u.toolUseID)
    then r == b || r == ToolUse(u.toolUseID, u.toolName, b.input, OrElse(TimeoutOf(u), b.timeoutSeconds))
    else r == b
  }

  /** Making room for a result: if an assistant message ahead of the turn's first
      result for the call has a use, the last such message is brought up to date;
      else a use with the name and timeout of the update, and no input, joins the
      last assistant message ahead of it, or stands in a new one right there. */
  lemma RoomShown(ms: seq<Message>, u: ToolUpdate) returns (first: nat, at: nat)
    requires Addressed(u) && u.toolName != ""
    ensures first <= |ms| && (forall k | 0 <= k < first :: !UserResult(ms[k], u)) && (first < |ms| ==> UserResult(ms[first], u))
    ensures var r, use := WithToolUse(ms, u), ToolUse(u.toolUseID, u.toolName, None, TimeoutOf(u));
      if exists i | 0 <= i < first :: AssistantUse(ms[i], u) then
        && LastWith(ms[..first], m => AssistantUse(m, u), at)
        && |r| == |ms| && (forall k | 0 <= k < |ms| && k != at :: r[k] == ms[k])
        && r[at] == ms[at].(blocks := r[at].blocks) && |r[at].blocks| == |ms[at].blocks|
        && (forall k | 0 <= k < |ms[at].blocks| :: Refreshed(ms[at].blocks[k], r[at].blocks[k], u))
        && (exists k | 0 <= k < |r[at].blocks| :: IsUse(r[at].blocks[k], u.toolUseID) && r[at].blocks[k].toolName == u.toolName)
      else if exists i | 0 <= i < first :: ms[i].turnID == u.turnID && ms[i].role.Assistant? then
        && LastWith(ms[..first], (m: Message) => m.turnID == u.turnID && m.role.Assistant?, at)
        && r == ms[at := ms[at].(blocks := ms[at].blocks + [use])]
      else
        r == ms[..first] + [Message(None, Assistant, None, u.turnID, true, [use], None)] + ms[first..]
  {
    hide FirstIndex, LastIndex, HasUse, MergeUses, HasResult;
    var f := FirstIndex(ms, UserResultOf(u));
    first := if f >= 0 then f else |ms|;
    FirstIndexLeast(ms, UserResultOf(u));
    assert forall k | 0 <= k < first :: !UserResultOf(u)(ms[k]);
    assert f >= 0 ==> UserResultOf(u)(ms[f]);
    var front := ms[..first];
    var named, any := LastIndex(front, AssistantUseOf(u)), LastIndex(front, AssistantOf(u));
    LastIndexGreatest(front, AssistantUseOf(u));
    LastIndexGreatest(front, AssistantOf(u));
    assert forall k | named < k < first :: !AssistantUseOf(u)(front[k]);
    assert forall k | any < k < first :: !AssistantOf(u)(front[k]);
    assert named >= 0 ==> AssistantUseOf(u)(front[named]);
    assert any >= 0 ==> AssistantOf(u)(front[any]);
    at := if named >= 0 then named else if any >= 0 then any else 0;
    if named >= 0 {
      UseBroughtUp(ms, u, first, named);
    }
  }

  lemma UseBroughtUp(ms: seq<Message>, u: ToolUpdate, first: nat, at: nat)
    requires Addressed(u) && u.toolName != "" && at < first <= |ms| && AssistantUse(ms[at], u)
    requires FirstIndex(ms, UserResultOf(u)) == (if first < |ms| then first else -1)
    requires LastIndex(ms[..first], AssistantUseOf(u)) == at
    ensures var r := WithToolUse(ms, u);
      && |r| == |ms| && (forall k | 0 <= k < |ms| && k != at :: r[k] == ms[k])
      && r[at] == ms[at].(blocks := r[at].blocks) && |r[at].blocks| == |ms[at].blocks|
      && (forall k | 0 <= k < |ms[at].blocks| :: Refreshed(ms[at].blocks[k], r[at].blocks[k], u))
      && (exists k | 0 <= k < |r[at].blocks| :: IsUse(r[at].blocks[k], u.toolUseID) && r[at].blocks[k].toolName == u.toolName)
  {
    hide FirstIndex, LastIndex;
    var j := FindUse(ms[at], u.toolUseID);
    var r := WithToolUse(ms, u);
    assert IsUse(r[at].blocks[j], u.toolUseID) && r[at].blocks[j].toolName == u.toolName;
  }
}
