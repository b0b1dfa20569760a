/** The state behind one open thread: the loaded page, the live projection on
    top of it, and how loads and live events change them. */
module ThreadReadState {
  import opened JsText
  import opened Transcript
  import opened QueuedInputs
  import opened LiveToolEvents
  import opened LiveThreadProjection

  /** Input-tracking annotations by message id; their content is opaque here. */
  datatype Tracking = Tracking(annotations: map<string, string>, error: string)

  datatype Page = Page(
    id: string,
    messages: seq<Message>,
    tracking: Option<Tracking>,
    hasMoreBefore: bool,
    oldestMessageID: Option<string>)

  datatype ReadState = ReadState(
    data: Option<Page>,
    loadError: Option<string>,
    projection: Projection,
    loadingOlder: bool,
    olderError: Option<string>)

  const InitialReadState := ReadState(None, None, EmptyProjection, false, None)

  // ----- pages -----

  function FreshIn(current: seq<Message>): Message -> bool {
    (m: Message) => !Truthy(m.id) || !HasID(current, m.id.value)
  }

  function MergeTracking(current: Option<Tracking>, olderPage: Option<Tracking>): Option<Tracking> {
    if current.None? then None
    else
      var before := if olderPage.Some? then olderPage.value else Tracking(map[], "");
      Some(Tracking(before.annotations + current.value.annotations,
                    if current.value.error != "" then current.value.error else before.error))
  }

  function MergeOlderThreadPage(current: Option<Page>, olderPage: Page): Page {
    if current.None? then olderPage
    else current.value.(
      messages := FilterMessages(olderPage.messages, FreshIn(current.value.messages)) + current.value.messages,
      tracking := MergeTracking(current.value.tracking, olderPage.tracking),
      hasMoreBefore := olderPage.hasMoreBefore,
      oldestMessageID := olderPage.oldestMessageID)
  }

  datatype LoadOptions = LoadOptions(preserveLiveMessages: bool, preserveLoadedHistory: bool, recordLoadFailure: bool)

  /** Live messages that the loaded page does not carry yet. */
  function NotPersisted(persisted: seq<Message>): Message -> bool {
    (m: Message) => !Truthy(m.id) || !HasID(persisted, m.id.value)
  }

  predicate KeepsHistory(state: ReadState, data: Page, opts: LoadOptions) {
    opts.preserveLoadedHistory && state.data.Some? && state.data.value.id == data.id
  }

  function ThreadLoaded(state: ReadState, data: Page, opts: LoadOptions): ReadState {
    var merged :=
      if KeepsHistory(state, data, opts)
      then MergeOlderThreadPage(Some(data), state.data.value).(tracking := data.tracking)
      else data;
    ReadState(
      Some(merged),
      None,
      state.projection.(messages :=
        if opts.preserveLiveMessages then FilterMessages(state.projection.messages, NotPersisted(merged.messages)) else []),
      opts.preserveLoadedHistory && state.loadingOlder,
      None)
  }

  function ThreadLoadFailed(state: ReadState, error: string): ReadState {
    state.(data := None, loadError := Some(error), loadingOlder := false, olderError := None)
  }

  function LoadOlderStarted(state: ReadState): ReadState {
    state.(loadingOlder := true, olderError := None)
  }

  function LoadOlderSucceeded(state: ReadState, page: Page): ReadState {
    state.(data := Some(MergeOlderThreadPage(state.data, page)), loadingOlder := false)
  }

  function LoadOlderFailed(state: ReadState, error: string): ReadState {
    state.(loadingOlder := false, olderError := Some(error))
  }

  // ----- live events -----

  predicate AnyUse(ms: seq<Message>, id: string) {
    exists i | 0 <= i < |ms| :: HasUse(ms[i], id)
  }

  predicate AnyResult(ms: seq<Message>, id: string) {
    exists i | 0 <= i < |ms| :: HasResult(ms[i], id)
  }

  /** The event's transcript effect is already there: replays are skipped. */
  predicate AlreadyLoaded(persisted: seq<Message>, projection: Projection, event: BrowserEvent) {
    var ms := persisted + projection.messages;
    match event.payload
    case TurnStarted(_, _, messageID) => Truthy(messageID) && HasID(ms, messageID.value)
    case LlmResponded(_, _, _, messageID) => Truthy(messageID) && HasID(ms, messageID.value)
    case PolicyTrace(_, messageID) => Truthy(messageID) && HasID(ms, messageID.value)
    case PendingQueued(_, _, messageID, _) =>
      Truthy(messageID) && (
        || HasID(ms, messageID.value)
        || (exists i | 0 <= i < |projection.queuedInput.items| :: projection.queuedInput.items[i].messageID == messageID)
        || (exists i | 0 <= i < |projection.draining| ::
              projection.draining[i].Some? && projection.draining[i].value.messageID == messageID))
    case ToolRequested(_, toolUseID, _, _) => toolUseID != "" && AnyUse(ms, toolUseID)
    case ToolCompleted(_, toolUseID, _, _, _) => toolUseID != "" && AnyResult(ms, toolUseID)
    case ToolErrored(_, toolUseID, _, _, _) => toolUseID != "" && AnyResult(ms, toolUseID)
    case ToolOutcomeUnknown(_, toolUseID, _) => toolUseID != "" && AnyResult(ms, toolUseID)
    case TranscriptRepaired(repairs) =>
      |repairs| > 0 && forall i | 0 <= i < |repairs| :: repairs[i].messageID != "" && HasID(ms, repairs[i].messageID)
    case _ => false
  }

  function Persisted(state: ReadState): seq<Message> {
    if state.data.Some? then state.data.value.messages else []
  }

  function ProjectLiveBrowserEvent(state: ReadState, event: BrowserEvent): (ReadState, seq<Effect>) {
    if AlreadyLoaded(Persisted(state), state.projection, event) then (state, [])
    else
      var (projection, effects) := ProjectLiveThreadEvent(state.projection, event);
      (state.(projection := projection), effects)
  }
}
