/** The browser's queue of inputs that were accepted but not yet shown. */
module QueuedInputs {
  import opened JsText
  import opened Transcript

  datatype QueuedInput = QueuedInput(
    id: string,
    messageID: Option<string>,
    input: Text,
    kind: Option<string>,
    attachments: seq<Media>)

  datatype QueuedInputState = QueuedInputState(items: seq<QueuedInput>, nextSeq: nat)

  const EmptyQueue := QueuedInputState([], 0)

  function DecimalString(n: nat): string {
    var t := Decimal(n);
    seq(|t|, i requires 0 <= i < |t| => t[i] as int as char)
  }

  /** Media references are compared by path, type and hash only. */
  predicate SameAttachments(a: seq<Media>, b: seq<Media>) {
    && |a| == |b|
    && forall i | 0 <= i < |a| ::
      && a[i].artifactPath == b[i].artifactPath
      && a[i].mediaType == b[i].mediaType
      && a[i].sha256 == b[i].sha256
  }

  /** The queue item for an accepted input; an existing item keeps its id and
      lends what the new one lacks. The flag says a fresh number was used. */
  function MakeItem(nextSeq: nat, existing: Option<QueuedInput>, input: Text, kind: Option<string>,
                    attachments: seq<Media>, messageID: Option<string>): (QueuedInput, nat)
  {
    var persistedID :=
      if messageID.Some? then messageID
      else if existing.Some? then existing.value.messageID else None;
    var numbered := existing.None? && messageID.None?;
    (QueuedInput(
      if existing.Some? then existing.value.id
      else if messageID.Some? then messageID.value
      else "queued-" + DecimalString(nextSeq),
      if Truthy(persistedID) then persistedID else None,
      input,
      kind,
      if attachments != [] then attachments
      else if existing.Some? then existing.value.attachments else []),
     if numbered then nextSeq + 1 else nextSeq)
  }

  function Enqueue(state: QueuedInputState, input: Text, kind: Option<string>, pendingCount: int,
                   attachments: seq<Media>, messageID: Option<string>): QueuedInputState
  {
    var current := state.items;
    if input == [] && attachments == [] then state
    else if pendingCount > 0 && |current| > pendingCount then state
    else if pendingCount > 0 && |current| == pendingCount then
      var existing := current[pendingCount - 1];
      var (item, nextSeq) := MakeItem(state.nextSeq, Some(existing), input, kind, attachments, messageID);
      if && existing.input == item.input
         && existing.kind == item.kind
         && existing.messageID == item.messageID
         && SameAttachments(existing.attachments, item.attachments)
      then state
      else QueuedInputState(current[pendingCount - 1 := item], nextSeq)
    else
      var (item, nextSeq) := MakeItem(state.nextSeq, None, input, kind, attachments, messageID);
      QueuedInputState(current + [item], nextSeq)
  }

  /** `slice(0, count)` */
  function Take<T>(s: seq<T>, count: nat): seq<T> {
    if count >= |s| then s else s[..count]
  }

  function Drain(state: QueuedInputState, count: int): (QueuedInputState, seq<QueuedInput>) {
    if count <= 0 then (state, [])
    else
      var drained := Take(state.items, count);
      (state.(items := state.items[|drained|..]), drained)
  }

  function Drop(state: QueuedInputState, count: int): QueuedInputState {
    if count <= 0 then state
    else state.(items := state.items[if count < |state.items| then count else |state.items|..])
  }
}
