/** The browser's transcript values: messages made of blocks. */
module Transcript {
  import opened JsText

  datatype Option<+T> = None | Some(value: T)

  /** JavaScript truthiness of an optional string. */
  predicate Truthy(o: Option<string>) {
    o.Some? && o.value != ""
  }

  /** `a ?? b` on optional values. */
  function OrElse<T>(a: Option<T>, b: Option<T>): Option<T> {
    if a.Some? then a else b
  }

  datatype Role = User | Assistant | System

  datatype Media = Media(artifactPath: string, mediaType: string, sha256: string, originalBytes: int)

  /** A block of a message. A missing tool-use id or text is the empty string:
      the code never distinguishes the two. Tool input is an opaque serialized
      value. */
  datatype Block =
    | TextBlock(text: Text, streamIndex: Option<int>)
    | ReasoningBlock(text: Text, streamIndex: Option<int>, content: Text, redacted: bool)
    | ImageBlock(image: Media)
    | ToolUse(toolUseID: string, toolName: string, input: Option<string>, timeoutSeconds: Option<int>)
    | ToolResult(toolUseID: string, content: Text, media: Option<Media>, isError: bool, streaming: bool)

  datatype Message = Message(
    id: Option<string>,
    role: Role,
    kind: Option<string>,
    turnID: Option<string>,
    pending: bool,
    blocks: seq<Block>,
    model: Option<string>)

  /** Some message of the list carries this id. */
  predicate HasID(ms: seq<Message>, id: string) {
    exists m | m in ms :: m.id == Some(id)
  }

  // ----- array searches -----

  /** `findIndex`: the first position satisfying p, or -1. */
  function FirstIndex<T>(s: seq<T>, p: T -> bool): (r: int)
    ensures -1 <= r < |s|
    ensures r >= 0 ==> p(s[r])
  {
    if s == [] then -1
    else if p(s[0]) then 0
    else var r := FirstIndex(s[1..], p); if r < 0 then -1 else r + 1
  }

  /** `findLastIndex`: the last position satisfying p, or -1. */
  function LastIndex<T>(s: seq<T>, p: T -> bool): (r: int)
    ensures -1 <= r < |s|
    ensures r >= 0 ==> p(s[r])
  {
    if s == [] then -1
    else if p(s[|s| - 1]) then |s| - 1
    else LastIndex(s[..|s| - 1], p)
  }

  lemma FirstIndexLeast<T>(s: seq<T>, p: T -> bool)
    ensures forall k | 0 <= k < (if FirstIndex(s, p) < 0 then |s| else FirstIndex(s, p)) :: !p(s[k])
  {
    if s != [] && !p(s[0]) {
      FirstIndexLeast(s[1..], p);
      assert forall k | 1 <= k < |s| :: s[k] == s[1..][k - 1];
    }
  }

  lemma LastIndexGreatest<T>(s: seq<T>, p: T -> bool)
    ensures forall k | LastIndex(s, p) < k < |s| :: !p(s[k])
  {
    if s != [] && !p(s[|s| - 1]) {
      LastIndexGreatest(s[..|s| - 1], p);
      assert forall k | 0 <= k < |s| - 1 :: s[k] == s[..|s| - 1][k];
    }
  }

  lemma FirstIndexIs<T>(s: seq<T>, p: T -> bool, r: int)
    requires -1 <= r < |s|
    requires r >= 0 ==> p(s[r])
    requires forall k | 0 <= k < (if r < 0 then |s| else r) :: !p(s[k])
    ensures FirstIndex(s, p) == r
  {
    FirstIndexLeast(s, p);
    var f := FirstIndex(s, p);
    assert f >= 0 ==> p(s[f]);
    assert r >= 0 ==> p(s[r]);
  }

  lemma LastIndexIs<T>(s: seq<T>, p: T -> bool, r: int)
    requires -1 <= r < |s|
    requires r >= 0 ==> p(s[r])
    requires forall k | r < k < |s| :: !p(s[k])
    ensures LastIndex(s, p) == r
  {
    LastIndexGreatest(s, p);
    var f := LastIndex(s, p);
    assert f >= 0 ==> p(s[f]);
    assert r >= 0 ==> p(s[r]);
  }
}
