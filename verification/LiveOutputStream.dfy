/** A whole stream of output deltas: the running header of dropped characters
    has a closed form, and the stream keeps hitting one and the same block. */
module LiveOutputStream {
  import opened Sequences
  import opened JsText
  import opened Transcript
  import opened LiveToolEvents
  import opened LiveToolProperties

  function Concat(deltas: seq<Text>): Text {
    if deltas == [] then [] else Concat(deltas[..|deltas| - 1]) + deltas[|deltas| - 1]
  }

  /** What the block holds after the deltas: the first is stored as it is, each
      later one is appended and capped. */
  function StreamContent(deltas: seq<Text>): Text
    requires deltas != []
  {
    var last := deltas[|deltas| - 1];
    if |deltas| == 1 then last
    else CapLiveToolOutput(StreamContent(deltas[..|deltas| - 1]) + last)
  }

  /** The text with everything but its last characters replaced by a count. */
  function Truncated(t: Text): Text {
    if |t| <= LIVE_TOOL_OUTPUT_MAX_CHARS then t
    else Header(|t| - LIVE_TOOL_OUTPUT_MAX_CHARS) + t[|t| - LIVE_TOOL_OUTPUT_MAX_CHARS..]
  }

  lemma MatchOwnHeader(n: nat, rest: Text)
    ensures MatchHeader(Header(n) + rest) == HeaderMatch(n, |Header(n)|)
  {
    var text := Header(n) + rest;
    var digits := Decimal(n);
    var tail := text[|HEADER_START|..];
    assert tail == digits + (HEADER_END + rest);
    assert !IsDigit(HEADER_END[0]);
    RunIs(tail, IsDigit, |digits|);
    assert tail[..|digits|] == digits;
    assert tail[|digits|..] == HEADER_END + rest;
    DecimalRoundTrip(n);
    assert HEADER_START <= text;
    assert HEADER_END <= tail[|digits|..];
  }

  /** A notice is found whatever follows it, and found already once it is
      complete. */
  lemma MatchExtends(t: Text, more: Text)
    requires MatchHeader(t).HeaderMatch?
    ensures MatchHeader(t + more) == MatchHeader(t)
  {
    var rest := t[|HEADER_START|..];
    var digits := Run(rest, IsDigit);
    assert (t + more)[|HEADER_START|..] == rest + more;
    assert rest[digits] == HEADER_END[0];
    RunIs(rest + more, IsDigit, digits);
    assert (rest + more)[digits..] == rest[digits..] + more;
    assert (rest + more)[..digits] == rest[..digits];
  }

  lemma MatchComplete(t: Text, more: Text)
    requires MatchHeader(t + more).HeaderMatch? && MatchHeader(t + more).length <= |t|
    ensures MatchHeader(t) == MatchHeader(t + more)
  {
    var whole := (t + more)[|HEADER_START|..];
    var digits := Run(whole, IsDigit);
    var rest := t[|HEADER_START|..];
    assert whole == rest + more;
    assert whole[digits] == HEADER_END[0] && digits + |HEADER_END| <= |rest|;
    assert forall i | 0 <= i < digits :: rest[i] == whole[i];
    RunIs(rest, IsDigit, digits);
    assert rest[..digits] == whole[..digits];
    assert rest[digits..][..|HEADER_END|] == whole[digits..][..|HEADER_END|];
  }

  /** Capping counts on from the notice it finds. */
  lemma CapCounted(n: nat, body: Text)
    requires |body| > LIVE_TOOL_OUTPUT_MAX_CHARS
    ensures CapLiveToolOutput(Header(n) + body)
      == Header(n + |body| - LIVE_TOOL_OUTPUT_MAX_CHARS) + body[|body| - LIVE_TOOL_OUTPUT_MAX_CHARS..]
  {
    hide Header, Decimal, MatchHeader;
    MatchOwnHeader(n, body);
    assert (Header(n) + body)[|Header(n)|..] == body;
  }

  lemma CapPlain(t: Text)
    requires MatchHeader(t).NoHeader?
    ensures CapLiveToolOutput(t) == Truncated(t)
  {
    hide MatchHeader, Header, Decimal, Run;
  }

  lemma TruncatedShape(t: Text, d: Text, omitted: nat, body: Text)
    requires |t| > LIVE_TOOL_OUTPUT_MAX_CHARS
    requires omitted == |t| - LIVE_TOOL_OUTPUT_MAX_CHARS && body == t[omitted..] + d
    ensures Truncated(t) + d == Header(omitted) + body
    ensures Truncated(t + d) == Header(omitted + |d|) + body[|d|..]
  {
    assert (t + d)[omitted + |d|..] == body[|d|..];
  }

  lemma TruncatedGrows(t: Text, d: Text)
    requires |t| > LIVE_TOOL_OUTPUT_MAX_CHARS && d != []
    ensures CapLiveToolOutput(Truncated(t) + d) == Truncated(t + d)
  {
    hide Header, MatchHeader, CapLiveToolOutput, Truncated;
    var omitted: nat := |t| - LIVE_TOOL_OUTPUT_MAX_CHARS;
    var body := t[omitted..] + d;
    TruncatedShape(t, d, omitted, body);
    CapCounted(omitted, body);
  }

  /** One capping step advances the closed form. */
  lemma CapStep(t: Text, d: Text)
    requires d != []
    requires MatchHeader(t + d).NoHeader?
    ensures CapLiveToolOutput(Truncated(t) + d) == Truncated(t + d)
  {
    if |t| <= LIVE_TOOL_OUTPUT_MAX_CHARS {
      CapPlain(t + d);
    } else {
      TruncatedGrows(t, d);
    }
  }

  /** The text after a notice, which counts on from n. */
  function CountedOn(n: nat, body: Text): Text {
    if |body| <= LIVE_TOOL_OUTPUT_MAX_CHARS then Header(n) + body
    else Header(n + |body| - LIVE_TOOL_OUTPUT_MAX_CHARS) + body[|body| - LIVE_TOOL_OUTPUT_MAX_CHARS..]
  }

  /** What is shown of a text: the count goes on from a notice it begins with,
      and a notice of zero is dropped. */
  function ShownOf(t: Text): Text {
    var m := MatchHeader(t);
    if m.NoHeader? then Truncated(t)
    else if m.omitted > 0 then CountedOn(m.omitted, t[m.length..])
    else Truncated(t[m.length..])
  }

  /** A notice at the start is not itself too long to be shown, and one of zero
      is not followed by another notice. */
  predicate Regular(t: Text) {
    var m := MatchHeader(t);
    m.HeaderMatch? ==> m.length <= LIVE_TOOL_OUTPUT_MAX_CHARS && (m.omitted == 0 ==> MatchHeader(t[m.length..]).NoHeader?)
  }

  lemma CapRegular(t: Text)
    requires Regular(t)
    ensures CapLiveToolOutput(t) == ShownOf(t)
  {
    hide MatchHeader, Header;
  }

  lemma RegularPrefix(t: Text, d: Text)
    requires Regular(t + d)
    ensures Regular(t)
    ensures MatchHeader(t).HeaderMatch? ==>
      var m := MatchHeader(t); MatchHeader(t + d) == m && (t + d)[m.length..] == t[m.length..] + d
  {
    hide MatchHeader;
    var m := MatchHeader(t);
    if m.HeaderMatch? {
      MatchExtends(t, d);
      assert (t + d)[m.length..] == t[m.length..] + d;
      if MatchHeader(t[m.length..]).HeaderMatch? { MatchExtends(t[m.length..], d); }
    }
  }

  lemma DropFromSum<T>(b: seq<T>, d: seq<T>, n: nat)
    requires n <= |b|
    ensures (b + d)[n + |d|..] == (b[n..] + d)[|d|..]
  {
  }

  lemma CountedShape(n: nat, b: Text, d: Text, dropped: nat)
    requires |b| == dropped + LIVE_TOOL_OUTPUT_MAX_CHARS && dropped > 0
    ensures CountedOn(n, b) + d == Header(n + dropped) + (b[dropped..] + d)
    ensures CountedOn(n, b + d) == Header(n + dropped + |d|) + (b[dropped..] + d)[|d|..]
  {
    hide Header;
    Associative(Header(n + dropped), b[dropped..], d);
    DropFromSum(b, d, dropped);
  }

  /** Capping after a notice that counts something. */
  lemma CapFound(n: nat, body: Text)
    requires n > 0
    ensures CapLiveToolOutput(Header(n) + body) == CountedOn(n, body)
  {
    hide Header, MatchHeader;
    MatchOwnHeader(n, body);
    assert (Header(n) + body)[|Header(n)|..] == body;
  }

  lemma CountedStep(n: nat, b: Text, d: Text)
    requires n > 0 && d != []
    ensures CapLiveToolOutput(CountedOn(n, b) + d) == CountedOn(n, b + d)
  {
    hide Header, CapLiveToolOutput;
    if |b| <= LIVE_TOOL_OUTPUT_MAX_CHARS {
      Associative(Header(n), b, d);
      CapFound(n, b + d);
    } else {
      hide CountedOn;
      var dropped: nat := |b| - LIVE_TOOL_OUTPUT_MAX_CHARS;
      CountedShape(n, b, d, dropped);
      CapCounted(n + dropped, b[dropped..] + d);
    }
  }

  /** One more delta, after what is shown so far. */
  lemma ShownStep(t: Text, d: Text)
    requires d != [] && Regular(t + d)
    ensures CapLiveToolOutput(ShownOf(t) + d) == ShownOf(t + d)
  {
    hide MatchHeader, Header, CapLiveToolOutput, CountedOn;
    RegularPrefix(t, d);
    var m := MatchHeader(t);
    if m.HeaderMatch? {
      if m.omitted > 0 {
        CountedStep(m.omitted, t[m.length..], d);
      } else {
        CapStep(t[m.length..], d);
      }
    } else if |t| <= LIVE_TOOL_OUTPUT_MAX_CHARS {
      CapRegular(t + d);
    } else {
      if MatchHeader(t + d).HeaderMatch? { MatchComplete(t, d); }
      TruncatedGrows(t, d);
    }
  }

  /** Two or more deltas fold to what is shown of their concatenation, however
      it was cut into deltas. */
  lemma {:induction false} StreamContentClosedForm(deltas: seq<Text>)
    requires |deltas| >= 2
    requires forall i | 0 <= i < |deltas| :: deltas[i] != []
    requires Regular(Concat(deltas))
    ensures StreamContent(deltas) == ShownOf(Concat(deltas))
    decreases |deltas|
  {
    hide Regular, ShownOf, CapLiveToolOutput;
    var init, last := deltas[..|deltas| - 1], deltas[|deltas| - 1];
    var t := Concat(init);
    if |deltas| == 2 {
      assert init == [init[0]] && init[..0] == [];
      assert t == Concat([]) + init[0] == init[0];
      assert StreamContent(init) == t;
      CapRegular(t + last);
    } else {
      RegularPrefix(t, last);
      StreamContentClosedForm(init);
      ShownStep(t, last);
    }
  }

  lemma CutInTwo(a: Text, b: Text)
    ensures Concat([a, b]) == a + b && StreamContent([a, b]) == CapLiveToolOutput(a + b)
  {
    assert [a, b][..1] == [a] && [a][..0] == [];
    assert Concat([a]) == Concat([]) + a == a;
  }

  lemma CutInThree(a: Text, b: Text, c: Text)
    ensures Concat([a, b, c]) == a + b + c
    ensures StreamContent([a, b, c]) == CapLiveToolOutput(CapLiveToolOutput(a + b) + c)
  {
    hide CapLiveToolOutput;
    assert [a, b, c][..2] == [a, b];
    CutInTwo(a, b);
  }

  /** A notice of zero in front of a short text is dropped. */
  lemma ZeroDropped(body: Text)
    requires |body| <= LIVE_TOOL_OUTPUT_MAX_CHARS
    ensures CapLiveToolOutput(Header(0) + body) == body
  {
    hide Header, MatchHeader;
    MatchOwnHeader(0, body);
    assert (Header(0) + body)[|Header(0)|..] == body;
  }

  ghost predicate CutsDiffer(a: seq<Text>, b: seq<Text>) {
    && |a| >= 2 && |b| >= 2 && Concat(a) == Concat(b)
    && (forall i | 0 <= i < |a| :: a[i] != []) && (forall i | 0 <= i < |b| :: b[i] != [])
    && StreamContent(a) != StreamContent(b)
  }

  lemma ZeroTwice(zero: Text, body: Text)
    requires zero == Header(0) && body != [] && |zero + body| <= LIVE_TOOL_OUTPUT_MAX_CHARS
    ensures StreamContent([zero, zero, body]) == body && StreamContent([zero, zero + body]) == zero + body
    ensures Concat([zero, zero, body]) == Concat([zero, zero + body])
  {
    hide Header, CapLiveToolOutput, Concat, StreamContent;
    CutInThree(zero, zero, body);
    CutInTwo(zero, zero + body);
    ZeroDropped(zero);
    ZeroDropped(body);
    ZeroDropped(zero + body);
    Associative(zero, zero, body);
  }

  lemma ZeroLength()
    ensures 1 <= |Header(0)| <= 100
  {
    assert |Decimal(0)| == 1;
  }

  lemma ZerosDiffer(zero: Text, body: Text)
    requires zero == Header(0) && 1 <= |zero| <= 100 && body == [120]
    ensures CutsDiffer([zero, zero, body], [zero, zero + body])
  {
    hide Header, Concat, StreamContent;
    ZeroTwice(zero, body);
    assert |zero + body| > |body|;
  }

  /** Two notices of zero in a row: what is shown then depends on the cut, so no
      closed form of the text can cover it. */
  lemma CutMatters()
    ensures exists a, b :: CutsDiffer(a, b)
  {
    hide CutsDiffer, Header;
    var zero: Text := Header(0);
    ZeroLength();
    ZerosDiffer(zero, [120]);
  }

  // ----- the stream in the transcript -----

  /** Where a streaming call sits: its use is block `useBlock` of message `use`,
      its only result block `resultBlock` of message `result`, inside the
      turn's last stretch lo..hi. */
  datatype Spot = Spot(use: nat, useBlock: nat, result: nat, resultBlock: nat, lo: nat, hi: nat)

  ghost predicate UseReady(ms: seq<Message>, u: ToolUpdate, use: nat, useBlock: nat, limit: nat) {
    && use < limit <= |ms|
    && AssistantUse(ms[use], u)
    && (forall k | use < k < limit :: !AssistantUse(ms[k], u))
    && useBlock < |ms[use].blocks|
    && (forall i | 0 <= i < useBlock :: !IsUse(ms[use].blocks[i], u.toolUseID))
    && IsUse(ms[use].blocks[useBlock], u.toolUseID)
    && !NeedsMetadataUpdate(ms[use].blocks[useBlock], u)
  }

  ghost predicate LastStretch(ms: seq<Message>, u: ToolUpdate, lo: nat, hi: nat) {
    && lo < hi <= |ms|
    && (forall k | lo <= k < hi :: ms[k].turnID == u.turnID)
    && (forall k | hi <= k < |ms| :: ms[k].turnID != u.turnID)
    && (lo > 0 ==> ms[lo - 1].turnID != u.turnID)
  }

  ghost predicate Streaming(ms: seq<Message>, u: ToolUpdate, s: Spot, content: Text) {
    && LastStretch(ms, u, s.lo, s.hi)
    && UseReady(ms, u, s.use, s.useBlock, s.result)
    && s.lo <= s.result < s.hi
    && ResultsOnly(ms[s.result])
    && (forall k | 0 <= k < |ms| && k != s.result :: !UserResult(ms[k], u))
    && s.resultBlock < |ms[s.result].blocks|
    && (forall i | 0 <= i < s.resultBlock :: !IsResult(ms[s.result].blocks[i], u.toolUseID))
    && IsResult(ms[s.result].blocks[s.resultBlock], u.toolUseID)
    && ms[s.result].blocks[s.resultBlock].content == content
    && ms[s.result].blocks[s.resultBlock].streaming
  }

  lemma StretchBounds(ms: seq<Message>, u: ToolUpdate, lo: nat, hi: nat)
    requires LastStretch(ms, u, lo, hi)
    ensures RunStart(ms, u) == lo && RunEnd(ms, u) == hi
  {
    LastIndexIs(ms, InTurn(u), hi - 1);
    LastIndexIs(ms[..hi], OutOfTurn(u), lo - 1);
  }

  /** A ready use needs nothing. */
  lemma NothingToPrepare(ms: seq<Message>, u: ToolUpdate, use: nat, useBlock: nat, first: int)
    requires Addressed(u) && u.toolName != ""
    requires -1 <= first < |ms|
    requires first >= 0 ==> UserResult(ms[first], u)
    requires forall k | 0 <= k < (if first < 0 then |ms| else first) :: !UserResult(ms[k], u)
    requires UseReady(ms, u, use, useBlock, if first < 0 then |ms| else first)
    ensures WithToolUse(ms, u) == ms
  {
    FirstIndexIs(ms, UserResultOf(u), first);
    var at := if first < 0 then |ms| else first;
    LastIndexIs(ms[..at], AssistantUseOf(u), use);
    FirstIndexIs(ms[use].blocks, UseOf(u.toolUseID), useBlock);
  }

  /** Each further delta extends the same block and disturbs nothing else. */
  lemma StreamContinues(ms: seq<Message>, u: ToolUpdate, s: Spot, content: Text, d: Text)
    requires Addressed(u) && u.toolName != "" && d != []
    requires Streaming(ms, u, s, content)
    ensures Streaming(ApplyToolOutputDelta(ms, u, d), u, s, CapLiveToolOutput(content + d))
  {
    hide CapLiveToolOutput, WithToolUse, ResultTarget;
    var j := s.result;
    var blocks := ms[j].blocks;
    assert HasResult(ms[j], u.toolUseID);
    NothingToPrepare(ms, u, s.use, s.useBlock, j);
    StretchBounds(ms, u, s.lo, s.hi);
    ExactTarget(ms, u, j);
    FirstIndexIs(blocks, ResultOf(u.toolUseID), s.resultBlock);
    var merged := MergeToolResult(blocks[s.resultBlock], ToolResult(u.toolUseID, d, None, false, true), Append);
    var m := ms[j].(blocks := blocks[s.resultBlock := merged]);
    assert ApplyToolOutputDelta(ms, u, d) == ms[j := m];
  }

  /** The final result replaces what was streamed and ends the streaming;
      nothing else changes. */
  lemma StreamFinalized(ms: seq<Message>, u: ToolUpdate, s: Spot, streamed: Text,
                        content: Text, media: Option<Media>, isError: bool)
    requires Addressed(u) && u.toolName != ""
    requires Streaming(ms, u, s, streamed)
    ensures var m := ms[s.result];
      ApplyToolResult(ms, u, content, media, isError) == ms[s.result := m.(blocks := m.blocks[s.resultBlock :=
        ToolResult(u.toolUseID, content, OrElse(media, m.blocks[s.resultBlock].media), isError, false)])]
  {
    var j := s.result;
    var blocks := ms[j].blocks;
    assert HasResult(ms[j], u.toolUseID);
    NothingToPrepare(ms, u, s.use, s.useBlock, j);
    StretchBounds(ms, u, s.lo, s.hi);
    ExactTarget(ms, u, j);
    FirstIndexIs(blocks, ResultOf(u.toolUseID), s.resultBlock);
  }

  ghost predicate NoResult(ms: seq<Message>, u: ToolUpdate) {
    forall k | 0 <= k < |ms| :: !UserResult(ms[k], u)
  }

  /** A use already there gets its metadata where it stands. */
  lemma PreparedMatching(ms: seq<Message>, u: ToolUpdate, matching: nat) returns (useBlock: nat)
    requires Addressed(u) && u.toolName != "" && NoResult(ms, u) && FirstIndex(ms, UserResultOf(u)) < 0
    requires ms[..|ms|] == ms && LastIndex(ms, AssistantUseOf(u)) == matching < |ms|
    requires forall k | matching < k < |ms| :: !AssistantUse(ms[k], u)
    ensures UseReady(WithToolUse(ms, u), u, matching, useBlock, |WithToolUse(ms, u)|)
    ensures NoResult(WithToolUse(ms, u), u)
  {
    hide RunStart, RunEnd;
    var r := WithToolUse(ms, u);
    assert AssistantUseOf(u)(ms[matching]);
    var blocks := ms[matching].blocks;
    var e :| 0 <= e < |blocks| && IsUse(blocks[e], u.toolUseID);
    FirstIndexLeast(blocks, UseOf(u.toolUseID));
    assert UseOf(u.toolUseID)(blocks[e]);
    useBlock := FirstIndex(blocks, UseOf(u.toolUseID));
    assert forall i | 0 <= i < useBlock :: !UseOf(u.toolUseID)(blocks[i]);
    assert IsUse(r[matching].blocks[useBlock], u.toolUseID);
  }

  /** Without one, it joins the turn's last assistant message or stands in one
      of its own at the end. */
  lemma PreparedNew(ms: seq<Message>, u: ToolUpdate) returns (use: nat, useBlock: nat)
    requires Addressed(u) && u.toolName != "" && NoResult(ms, u) && FirstIndex(ms, UserResultOf(u)) < 0
    requires ms[..|ms|] == ms && LastIndex(ms, AssistantUseOf(u)) < 0
    requires forall k | 0 <= k < |ms| :: !AssistantUse(ms[k], u)
    ensures UseReady(WithToolUse(ms, u), u, use, useBlock, |WithToolUse(ms, u)|)
    ensures NoResult(WithToolUse(ms, u), u)
  {
    hide RunStart, RunEnd;
    var r := WithToolUse(ms, u);
    var assistant := LastIndex(ms, AssistantOf(u));
    if assistant >= 0 {
      use, useBlock := assistant, |ms[assistant].blocks|;
      assert AssistantOf(u)(ms[assistant]);
      assert IsUse(r[use].blocks[useBlock], u.toolUseID);
    } else {
      use, useBlock := |ms|, 0;
      assert IsUse(r[use].blocks[useBlock], u.toolUseID);
    }
  }

  /** Before any result has arrived, preparing leaves a ready use and still no
      result. */
  lemma Prepared(ms: seq<Message>, u: ToolUpdate) returns (use: nat, useBlock: nat)
    requires Addressed(u) && u.toolName != ""
    requires NoResult(ms, u)
    ensures UseReady(WithToolUse(ms, u), u, use, useBlock, |WithToolUse(ms, u)|)
    ensures NoResult(WithToolUse(ms, u), u)
  {
    hide WithToolUse, UseReady;
    FirstIndexIs(ms, UserResultOf(u), -1);
    assert ms[..|ms|] == ms;
    var matching := LastIndex(ms, AssistantUseOf(u));
    LastIndexGreatest(ms, AssistantUseOf(u));
    assert forall k | matching < k < |ms| :: !AssistantUseOf(u)(ms[k]);
    if matching >= 0 {
      use := matching;
      useBlock := PreparedMatching(ms, u, matching);
    } else {
      use, useBlock := PreparedNew(ms, u);
    }
  }

  lemma StretchExists(ms: seq<Message>, u: ToolUpdate, k: nat)
    requires k < |ms| && ms[k].turnID == u.turnID
    ensures LastStretch(ms, u, RunStart(ms, u), RunEnd(ms, u))
    ensures k < RunEnd(ms, u)
  {
    RunBounds(ms, u);
  }

  /** The first delta of a call that has no result yet opens the stream. */
  lemma StreamStarts(ms: seq<Message>, u: ToolUpdate, text: Text)
    requires Addressed(u) && u.toolName != "" && text != []
    requires NoResult(ms, u)
    ensures exists s :: Streaming(ApplyToolOutputDelta(ms, u, text), u, s, text)
  {
    var use, useBlock := Prepared(ms, u);
    var w := WithToolUse(ms, u);
    var block := ToolResult(u.toolUseID, text, None, false, true);
    var r := UpsertToolResult(w, u, block, Append);
    assert r == ApplyToolOutputDelta(ms, u, text);
    StretchExists(w, u, use);
    TargetAfterUse(w, u, use);
    TargetInRun(w, u);
    var lo, hi := RunStart(w, u), RunEnd(w, u);
    var t := ResultTarget(w, u);
    var s: Spot;
    if t.messageIndex >= 0 {
      s := OpenedInMessage(w, u, use, useBlock, lo, hi, t.messageIndex, block);
    } else {
      TargetInsert(w, u);
      s := OpenedInserted(w, u, use, useBlock, lo, hi, t.insertIndex, block);
    }
    assert Streaming(r, u, s, text);
  }

  lemma OpenedInMessage(w: seq<Message>, u: ToolUpdate, use: nat, useBlock: nat, lo: nat, hi: nat, j: nat, block: Block) returns (s: Spot)
    requires NoResult(w, u) && LastStretch(w, u, lo, hi) && UseReady(w, u, use, useBlock, |w|)
    requires use < j && lo <= j < hi && ResultsOnly(w[j])
    requires IsResult(block, u.toolUseID) && block.streaming
    ensures Streaming(w[j := w[j].(blocks := UpsertBlock(w[j].blocks, block, Append))], u, s, block.content)
  {
    var blocks := w[j].blocks;
    assert forall i | 0 <= i < |blocks| :: !IsResult(blocks[i], u.toolUseID) by {
      assert !UserResult(w[j], u);
    }
    FirstIndexIs(blocks, ResultOf(u.toolUseID), -1);
    s := Spot(use, useBlock, j, |blocks|, lo, hi);
  }

  lemma OpenedInserted(w: seq<Message>, u: ToolUpdate, use: nat, useBlock: nat, lo: nat, hi: nat, at: nat, block: Block) returns (s: Spot)
    requires NoResult(w, u) && LastStretch(w, u, lo, hi) && UseReady(w, u, use, useBlock, |w|)
    requires use < at && (lo < at <= hi || at == |w|)
    requires IsResult(block, u.toolUseID) && block.streaming
    ensures Streaming(w[..at] + [Message(None, User, None, u.turnID, false, [block], None)] + w[at..], u, s, block.content)
  {
    var r := w[..at] + [Message(None, User, None, u.turnID, false, [block], None)] + w[at..];
    assert forall k | at < k < |r| :: r[k] == w[k - 1];
    s := if at <= hi then Spot(use, useBlock, at, 0, lo, hi + 1) else Spot(use, useBlock, at, 0, at, at + 1);
  }

  lemma TargetInsert(ms: seq<Message>, u: ToolUpdate)
    requires ResultTarget(ms, u).messageIndex < 0
    ensures RunStart(ms, u) < ResultTarget(ms, u).insertIndex <= RunEnd(ms, u) || ResultTarget(ms, u).insertIndex == |ms|
  {
  }

  /** The transcript after a list of deltas for one call. */
  function ApplyDeltas(ms: seq<Message>, u: ToolUpdate, deltas: seq<Text>): seq<Message> {
    if deltas == [] then ms
    else ApplyToolOutputDelta(ApplyDeltas(ms, u, deltas[..|deltas| - 1]), u, deltas[|deltas| - 1])
  }

  ghost predicate Streamed(ms: seq<Message>, u: ToolUpdate, content: Text) {
    exists s :: Streaming(ms, u, s, content)
  }

  lemma StreamedStep(ms: seq<Message>, u: ToolUpdate, content: Text, d: Text)
    requires Addressed(u) && u.toolName != "" && d != []
    requires Streamed(ms, u, content)
    ensures Streamed(ApplyToolOutputDelta(ms, u, d), u, CapLiveToolOutput(content + d))
  {
    var s :| Streaming(ms, u, s, content);
    StreamContinues(ms, u, s, content, d);
  }

  lemma {:induction false} StreamHolds(ms: seq<Message>, u: ToolUpdate, deltas: seq<Text>)
    requires Addressed(u) && u.toolName != "" && NoResult(ms, u)
    requires deltas != [] && forall i | 0 <= i < |deltas| :: deltas[i] != []
    ensures Streamed(ApplyDeltas(ms, u, deltas), u, StreamContent(deltas))
    decreases |deltas|
  {
    hide ApplyToolOutputDelta, CapLiveToolOutput, Streaming, NoResult;
    var init, last := deltas[..|deltas| - 1], deltas[|deltas| - 1];
    var before := ApplyDeltas(ms, u, init);
    assert ApplyDeltas(ms, u, deltas) == ApplyToolOutputDelta(before, u, last);
    if |deltas| == 1 {
      StreamStarts(ms, u, last);
    } else {
      StreamHolds(ms, u, init);
      StreamedStep(before, u, StreamContent(init), last);
    }
  }

  /** However a call's output is cut into two or more deltas, the transcript
      ends up with one streaming result block for it holding the closed form. */
  lemma StreamedOutput(ms: seq<Message>, u: ToolUpdate, deltas: seq<Text>)
    requires Addressed(u) && u.toolName != "" && NoResult(ms, u)
    requires |deltas| >= 2 && forall i | 0 <= i < |deltas| :: deltas[i] != []
    requires Regular(Concat(deltas))
    ensures Streamed(ApplyDeltas(ms, u, deltas), u, ShownOf(Concat(deltas)))
  {
    hide Regular, ShownOf, Streamed, StreamContent;
    StreamHolds(ms, u, deltas);
    StreamContentClosedForm(deltas);
  }
}
