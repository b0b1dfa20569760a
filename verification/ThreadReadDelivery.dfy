/** What is answered and announced is shown: the pages, the statuses and the
    live events of one open thread that count, and which do. */
module ThreadReadDelivery {
  import opened JsText
  import opened Transcript
  import opened QueuedInputs
  import opened LiveToolEvents
  import opened LiveThreadProjection
  import opened ReducerProperties
  import opened ThreadReadState
  import opened ThreadReadProperties
  import opened ThreadReadProtocol

  // ----- statuses -----

  /** The statuses differ at most in this thread's. */
  ghost predicate OnlyOf(before: map<string, Status>, after: map<string, Status>, thread: string) {
    && (forall t | t != thread :: t in before <==> t in after)
    && (forall t | t != thread && t in before :: after[t] == before[t])
  }

  predicate Live(c: Controller, sub: nat) {
    sub < |c.subs| && c.subs[sub].subscribed && c.subs[sub].threadID == c.route
  }

  /** An event of a live subscription shows its status; a stream that broke off,
      and one that was closed, take the status away. */
  lemma StatusDelivered(w: World, sub: nat, e: BrowserEvent, status: Status)
    requires Live(w.c, sub) && w.c.subs[sub].hasStatus
    ensures var thread, after := w.c.subs[sub].threadID, Step(w, StreamEvent(sub, e, status)).c.statuses;
      thread in after && after[thread] == status && OnlyOf(w.c.statuses, after, thread)
    ensures var thread, after := w.c.subs[sub].threadID, Step(w, StreamError(sub)).c.statuses;
      thread !in after && OnlyOf(w.c.statuses, after, thread)
    ensures var thread, after := w.c.subs[sub].threadID, Step(w, Unsubscribe(sub)).c.statuses;
      thread !in after && OnlyOf(w.c.statuses, after, thread)
  {
    hide ProjectLiveBrowserEvent, RunEffects;
    var (state, effects) := ProjectLiveBrowserEvent(w.c.state, e);
    EffectsKeepStatuses(WithState(DeliverStatus(w, sub, status), state), effects);
  }

  lemma {:induction false} EffectsKeepStatuses(w: World, effects: seq<Effect>)
    ensures RunEffects(w, effects).c.statuses == w.c.statuses && RunEffects(w, effects).c.subs == w.c.subs
    ensures RunEffects(w, effects).c.route == w.c.route
    ensures forall id | id in w.c.pending && id < w.c.nextRequest ::
      id in RunEffects(w, effects).c.pending && RunEffects(w, effects).c.pending[id] == w.c.pending[id]
    ensures w.c.nextRequest <= RunEffects(w, effects).c.nextRequest
    decreases |effects|
  {
    hide InputMessageIDs;
    if effects != [] {
      EffectsKeepStatuses(BeginRefresh(w, w.c.route, LoadOptions(effects[0].preserveLiveMessages, effects[0].preserveLoadedHistory, false)),
        effects[1..]);
    }
  }

  /** No other step touches a status, and no status but that thread's. */
  lemma OtherStatuses(w: World, a: Action)
    ensures var after := Step(w, a).c.statuses;
      after == w.c.statuses || exists sub: nat :: StatusAction(w.c, a, sub) && OnlyOf(w.c.statuses, after, w.c.subs[sub].threadID)
  {
    hide ProjectLiveBrowserEvent, RunEffects, BeginRefresh, RefreshApplies, RefreshCurrent, OlderApplies, OlderCurrent, ThreadLoaded,
      SendRefresh, SendOlder, LoadOlderSucceeded, StatusApplies;
    var after := Step(w, a).c.statuses;
    match a
    case StreamEvent(sub, e, status) =>
      var (state, effects) := ProjectLiveBrowserEvent(w.c.state, e);
      if Live(w.c, sub) {
        EffectsKeepStatuses(WithState(DeliverStatus(w, sub, status), state), effects);
        assert StatusAction(w.c, a, sub) && OnlyOf(w.c.statuses, after, w.c.subs[sub].threadID);
      }
    case LocalChange(projection, effects) =>
      EffectsKeepStatuses(WithState(w, w.c.state.(projection := projection)), effects);
    case StreamError(sub) => if after != w.c.statuses { assert StatusAction(w.c, a, sub); }
    case Unsubscribe(sub) => if after != w.c.statuses { assert StatusAction(w.c, a, sub); }
    case StatusAnswered(id, _) => AnswerChangesOne(w, a);
    case StatusFailed(id) => AnswerChangesOne(w, a);
    case _ => PageStepKeepsStatuses(w, a);
  }

  lemma PageStepKeepsStatuses(w: World, a: Action)
    requires a.SetRoute? || a.ResetForRoute? || a.StartRefresh? || a.RefreshAnswered? || a.RefreshFailed? || a.StartLoadOlder?
      || a.OlderAnswered? || a.OlderFailed? || a.Subscribe? || a.StreamOpened?
    ensures Step(w, a).c.statuses == w.c.statuses
  {
    hide RefreshApplies, RefreshCurrent, OlderApplies, OlderCurrent, ThreadLoaded, InputMessageIDs;
  }

  lemma AnswerChangesOne(w: World, a: Action)
    requires a.StatusAnswered? || a.StatusFailed?
    ensures var after := Step(w, a).c.statuses;
      after == w.c.statuses || exists sub: nat :: StatusAction(w.c, a, sub) && OnlyOf(w.c.statuses, after, w.c.subs[sub].threadID)
  {
    if a.request in w.c.pending && w.c.pending[a.request].StatusRequest? && StatusApplies(w.c, w.c.pending[a.request]) {
      var sub := w.c.pending[a.request].sub;
      assert StatusAction(w.c, a, sub) && OnlyOf(w.c.statuses, Step(w, a).c.statuses, w.c.subs[sub].threadID);
    }
  }

  /** The action brings, or takes away, the status this subscription shows. */
  predicate StatusAction(c: Controller, a: Action, sub: nat)
    ensures StatusAction(c, a, sub) ==> sub < |c.subs|
  {
    || ((a.StreamEvent? || a.StreamError?) && a.sub == sub && Live(c, sub))
    || (a.Unsubscribe? && a.sub == sub && sub < |c.subs|)
    || ((a.StatusAnswered? || a.StatusFailed?) && a.request in c.pending && c.pending[a.request].StatusRequest?
        && c.pending[a.request].sub == sub && Live(c, sub))
  }

  // ----- GETs -----

  /** The GET's answer would be shown now. */
  predicate Awaited(c: Controller, id: RequestID) {
    id in c.pending && c.pending[id].StatusRequest? && StatusApplies(c, c.pending[id])
  }

  /** What makes a GET of this subscription count for nothing: another route,
      and any sign of life of the subscription itself. */
  predicate Outdates(c: Controller, a: Action, sub: nat) {
    || a.SetRoute?
    || ((a.Unsubscribe? || a.StreamOpened? || a.StreamEvent? || a.StreamError?) && a.sub == sub)
    || ((a.StatusAnswered? || a.StatusFailed?) && a.request in c.pending && c.pending[a.request].StatusRequest?
        && c.pending[a.request].sub == sub)
  }

  /** No step of these does. */
  ghost predicate NothingOutdates(w: World, actions: seq<Action>, sub: nat)
    decreases |actions|
  {
    actions == [] || (!Outdates(w.c, actions[0], sub) && NothingOutdates(Step(w, actions[0]), actions[1..], sub))
  }

  /** The world after these steps. */
  function From(w: World, actions: seq<Action>): World
    decreases |actions|
  {
    if actions == [] then w else From(Step(w, actions[0]), actions[1..])
  }

  /** The GET still waits, for the same subscription. */
  predicate Waits(c: Controller, next: Controller, id: RequestID)
    requires Awaited(c, id)
  {
    Awaited(next, id) && next.pending[id] == c.pending[id] && id < next.nextRequest
    && next.subs[next.pending[id].sub] == c.subs[c.pending[id].sub] && next.route == c.route
  }

  lemma StaysAwaited(w: World, a: Action, id: RequestID)
    requires Awaited(w.c, id) && id < w.c.nextRequest && !Outdates(w.c, a, w.c.pending[id].sub)
    ensures Waits(w.c, Step(w, a).c, id)
  {
    hide ProjectLiveBrowserEvent, RunEffects;
    if a.StreamEvent? {
      var (state, effects) := ProjectLiveBrowserEvent(w.c.state, a.event);
      if Live(w.c, a.sub) { EffectsKeepStatuses(WithState(DeliverStatus(w, a.sub, a.status), state), effects); }
    } else if a.LocalChange? {
      EffectsKeepStatuses(WithState(w, w.c.state.(projection := a.projection)), a.effects);
    } else if a.RefreshAnswered? || a.RefreshFailed? || a.OlderAnswered? || a.OlderFailed? {
      PageAnswerWaits(w, a, id);
    } else {
      OtherStepWaits(w, a, id);
    }
  }

  lemma PageAnswerWaits(w: World, a: Action, id: RequestID)
    requires Awaited(w.c, id) && id < w.c.nextRequest
    requires a.RefreshAnswered? || a.RefreshFailed? || a.OlderAnswered? || a.OlderFailed?
    ensures Waits(w.c, Step(w, a).c, id)
  {
    hide RefreshApplies, RefreshCurrent, OlderApplies, OlderCurrent, ThreadLoaded, InputMessageIDs, LoadOlderSucceeded;
  }

  lemma OtherStepWaits(w: World, a: Action, id: RequestID)
    requires Awaited(w.c, id) && id < w.c.nextRequest && !Outdates(w.c, a, w.c.pending[id].sub)
    requires !(a.StreamEvent? || a.LocalChange? || a.RefreshAnswered? || a.RefreshFailed? || a.OlderAnswered? || a.OlderFailed?)
    ensures Waits(w.c, Step(w, a).c, id)
  {
    hide ThreadLoaded, InputMessageIDs, LoadOlderSucceeded, ProjectLiveBrowserEvent, RunEffects;
    if a.StreamError? || a.Unsubscribe? || a.StatusAnswered? || a.StatusFailed? {
      hide Send, SendRefresh, SendOlder, SendStatus, BeginRefresh;
    } else {
      hide RefreshCurrent, OlderCurrent, DeliverStatus;
    }
  }

  lemma {:induction false} StayAwaited(w: World, between: seq<Action>, id: RequestID)
    requires Awaited(w.c, id) && id < w.c.nextRequest && NothingOutdates(w, between, w.c.pending[id].sub)
    ensures var next := From(w, between).c;
      Awaited(next, id) && next.pending[id] == w.c.pending[id]
      && next.subs[next.pending[id].sub] == w.c.subs[w.c.pending[id].sub]
    decreases |between|
  {
    hide Step, Outdates, Awaited;
    if between != [] {
      StaysAwaited(w, between[0], id);
      StayAwaited(Step(w, between[0]), between[1..], id);
    }
  }

  /** When a live stream opens a GET is sent; whatever happens between, as long
      as nothing outdates it, its answer is shown, and its failure takes the
      status away. */
  lemma FreshGetShown(w: World, sub: nat, between: seq<Action>, status: Status) returns (id: RequestID)
    requires Live(w.c, sub) && w.c.subs[sub].hasStatus
    requires NothingOutdates(Step(w, StreamOpened(sub)), between, sub)
    ensures var thread, now := w.c.subs[sub].threadID, From(Step(w, StreamOpened(sub)), between);
      && id in now.c.pending
      && Step(now, StatusAnswered(id, status)).c.statuses == now.c.statuses[thread := status]
      && Step(now, StatusFailed(id)).c.statuses == now.c.statuses - {thread}
  {
    hide NothingOutdates, From, ProjectLiveBrowserEvent, RunEffects, ThreadLoaded, InputMessageIDs, RefreshApplies, RefreshCurrent;
    id := w.c.nextRequest;
    OpenedAwaits(w, sub);
    StayAwaited(Step(w, StreamOpened(sub)), between, id);
  }

  lemma OpenedAwaits(w: World, sub: nat)
    requires Live(w.c, sub) && w.c.subs[sub].hasStatus
    ensures var c, id := Step(w, StreamOpened(sub)).c, w.c.nextRequest;
      Awaited(c, id) && id < c.nextRequest && c.pending[id].sub == sub && sub < |c.subs| && c.subs[sub].threadID == w.c.subs[sub].threadID
  {
    hide InputMessageIDs;
  }

  // ----- pages -----

  /** An answer that counts shows its page; any other leaves the page shown. */
  lemma RefreshShowsPage(w: World, id: RequestID, page: Page) returns (at: seq<nat>)
    requires id in w.c.pending && w.c.pending[id].RefreshRequest?
    ensures var r, before, after := w.c.pending[id], w.c.state, Step(w, RefreshAnswered(id, page)).c.state;
      var keeps := r.opts.preserveLoadedHistory && before.data.Some? && before.data.value.id == page.id;
      && (!RefreshApplies(w.c, r) ==> after == before)
      && (RefreshApplies(w.c, r) && !keeps ==> after.data == Some(page))
      && (RefreshApplies(w.c, r) && keeps ==>
            && after.data.Some?
            && var held, shown := before.data.value, after.data.value;
               var n := |shown.messages| - |page.messages|;
               && n >= 0 && shown.messages[n..] == page.messages && Picked(held.messages, shown.messages[..n], at)
               && (forall i | 0 <= i < |held.messages| :: i in at <==> Missing(held.messages[i], page.messages))
               && shown == page.(messages := shown.messages, hasMoreBefore := held.hasMoreBefore, oldestMessageID := held.oldestMessageID))
  {
    hide ThreadLoaded, Picked, Missing, InputMessageIDs;
    at := LoadedPage(w.c.state, page, w.c.pending[id].opts);
  }

  /** An older page that counts goes in front of the page held, without what
      that page carries already; one that does not leaves the page shown. */
  lemma OlderShowsPage(w: World, id: RequestID, page: Page) returns (at: seq<nat>)
    requires id in w.c.pending && w.c.pending[id].OlderRequest?
    ensures var r, before, after := w.c.pending[id], w.c.state, Step(w, OlderAnswered(id, page)).c.state;
      && (!OlderApplies(w.c, r) ==> after == before)
      && (OlderApplies(w.c, r) ==> after.projection == before.projection && after.data.Some? && !after.loadingOlder)
      && (OlderApplies(w.c, r) && before.data.None? ==> after.data == Some(page))
      && (OlderApplies(w.c, r) && before.data.Some? ==>
            var held, shown := before.data.value.messages, after.data.value.messages;
            var n := |shown| - |held|;
            && n >= 0 && shown[n..] == held && Picked(page.messages, shown[..n], at)
            && (forall i | 0 <= i < |page.messages| :: i in at <==> Missing(page.messages[i], held))
            && after.data.value.oldestMessageID == page.oldestMessageID && after.data.value.hasMoreBefore == page.hasMoreBefore)
  {
    hide Picked, Missing, FilterMessages, MergeTracking;
    at := [];
    if w.c.state.data.Some? { at := MergedPage(w.c.state.data.value, page); }
  }

  /** A failure is shown only where it was asked to be. */
  lemma FailureShown(w: World, id: RequestID, error: string)
    requires id in w.c.pending && w.c.pending[id].RefreshRequest?
    ensures var r, before, after := w.c.pending[id], w.c.state, Step(w, RefreshFailed(id, error)).c.state;
      if RefreshCurrent(w.c, r) && r.opts.recordLoadFailure then
        after.data.None? && after.loadError == Some(error) && after.projection == before.projection
      else after == before
  {
  }

  /** A refresh of a thread is sent, and counts on its route until a later one. */
  lemma RefreshSent(w: World, threadID: string, opts: LoadOptions)
    requires threadID != ""
    ensures var c, id := Step(w, StartRefresh(threadID, opts)).c, w.c.nextRequest;
      && id in c.pending && c.pending[id].RefreshRequest? && c.pending[id].threadID == threadID && c.pending[id].opts == opts
      && (RefreshApplies(c, c.pending[id]) <==> w.c.route == threadID)
      && forall r | r in c.pending && c.pending[r].RefreshRequest? && r != id && c.pending[r].revision <= w.c.historyRevision ::
           !RefreshCurrent(c, c.pending[r])
  {
    hide InputMessageIDs;
  }

  // ----- replayed events -----

  /** A message with this id is shown, in the page or live. */
  ghost predicate MessageShown(state: ReadState, id: Option<string>) {
    id.Some? && id.value != "" &&
    ((exists i | 0 <= i < |Persisted(state)| :: Persisted(state)[i].id == id)
     || (exists i | 0 <= i < |state.projection.messages| :: state.projection.messages[i].id == id))
  }

  /** A block of the kind is shown for the call. */
  ghost predicate BlockShown(state: ReadState, id: string, isOne: (Block, string) -> bool) {
    id != "" &&
    ((exists i, k | 0 <= i < |Persisted(state)| && 0 <= k < |Persisted(state)[i].blocks| :: isOne(Persisted(state)[i].blocks[k], id))
     || (exists i, k | 0 <= i < |state.projection.messages| && 0 <= k < |state.projection.messages[i].blocks| ::
           isOne(state.projection.messages[i].blocks[k], id)))
  }

  /** A queued input with this id is in the queue, or announced. */
  ghost predicate InputWaiting(state: ReadState, id: Option<string>) {
    var p := state.projection;
    id.Some? && id.value != "" &&
    ((exists i | 0 <= i < |p.queuedInput.items| :: p.queuedInput.items[i].messageID == id)
     || (exists i | 0 <= i < |p.draining| :: p.draining[i].Some? && p.draining[i].value.messageID == id))
  }

  /** What the event would add is there already. */
  ghost predicate Replayed(state: ReadState, e: BrowserEvent) {
    match e.payload
    case TurnStarted(_, _, id) => MessageShown(state, id)
    case LlmResponded(_, _, _, id) => MessageShown(state, id)
    case PolicyTrace(_, id) => MessageShown(state, id)
    case PendingQueued(_, _, id, _) => MessageShown(state, id) || InputWaiting(state, id)
    case ToolRequested(_, id, _, _) => BlockShown(state, id, IsUse)
    case ToolCompleted(_, id, _, _, _) => BlockShown(state, id, IsResult)
    case ToolErrored(_, id, _, _, _) => BlockShown(state, id, IsResult)
    case ToolOutcomeUnknown(_, id, _) => BlockShown(state, id, IsResult)
    case TranscriptRepaired(repairs) =>
      repairs != [] && forall i | 0 <= i < |repairs| :: MessageShown(state, Some(repairs[i].messageID))
    case _ => false
  }

  lemma MessageIsShown(state: ReadState, id: Option<string>)
    ensures MessageShown(state, id) <==> Truthy(id) && HasID(Persisted(state) + state.projection.messages, id.value)
  {
    var a, b := Persisted(state), state.projection.messages;
    if i :| 0 <= i < |a| && a[i].id == id { assert a[i] in a + b; }
    if i :| 0 <= i < |b| && b[i].id == id { assert b[i] in a + b; }
  }

  lemma UseIsShown(state: ReadState, id: string)
    ensures id != "" ==> (AnyUse(Persisted(state) + state.projection.messages, id) <==> BlockShown(state, id, IsUse))
  {
    var a, b := Persisted(state), state.projection.messages;
    forall i | 0 <= i < |a| ensures (a + b)[i] == a[i] {}
    forall i | 0 <= i < |b| ensures (a + b)[|a| + i] == b[i] {}
    if i, k :| 0 <= i < |a| && 0 <= k < |a[i].blocks| && IsUse(a[i].blocks[k], id) { assert HasUse((a + b)[i], id); }
    if i, k :| 0 <= i < |b| && 0 <= k < |b[i].blocks| && IsUse(b[i].blocks[k], id) { assert HasUse((a + b)[|a| + i], id); }
  }

  lemma ResultIsShown(state: ReadState, id: string)
    ensures id != "" ==> (AnyResult(Persisted(state) + state.projection.messages, id) <==> BlockShown(state, id, IsResult))
  {
    var a, b := Persisted(state), state.projection.messages;
    forall i | 0 <= i < |a| ensures (a + b)[i] == a[i] {}
    forall i | 0 <= i < |b| ensures (a + b)[|a| + i] == b[i] {}
    if i, k :| 0 <= i < |a| && 0 <= k < |a[i].blocks| && IsResult(a[i].blocks[k], id) { assert HasResult((a + b)[i], id); }
    if i, k :| 0 <= i < |b| && 0 <= k < |b[i].blocks| && IsResult(b[i].blocks[k], id) { assert HasResult((a + b)[|a| + i], id); }
  }

  /** An event is skipped exactly if what it would add is there already; any
      other has the whole effect it has on the live transcript. */
  lemma SkippedIff(state: ReadState, e: BrowserEvent)
    ensures var (after, asked) := ProjectLiveBrowserEvent(state, e);
      if Replayed(state, e) then after == state && asked == []
      else after == state.(projection := ProjectLiveThreadEvent(state.projection, e).0) && asked == ProjectLiveThreadEvent(state.projection, e).1
  {
    hide ProjectLiveThreadEvent, Replayed, AlreadyLoaded;
    ReplayedIs(state, e);
  }

  lemma ReplayedIs(state: ReadState, e: BrowserEvent)
    ensures Replayed(state, e) <==> AlreadyLoaded(Persisted(state), state.projection, e)
  {
    hide HasID, AnyUse, AnyResult, MessageShown, BlockShown;
    NoBlockShown(state);
    match e.payload
    case ToolRequested(_, id, _, _) => UseIsShown(state, id);
    case ToolCompleted(_, id, _, _, _) => ResultIsShown(state, id);
    case ToolErrored(_, id, _, _, _) => ResultIsShown(state, id);
    case ToolOutcomeUnknown(_, id, _) => ResultIsShown(state, id);
    case TranscriptRepaired(repairs) =>
      forall i | 0 <= i < |repairs|
        ensures MessageShown(state, Some(repairs[i].messageID)) <==>
          repairs[i].messageID != "" && HasID(Persisted(state) + state.projection.messages, repairs[i].messageID)
      {
        MessageIsShown(state, Some(repairs[i].messageID));
      }
    case TurnStarted(_, _, id) => MessageIsShown(state, id);
    case LlmResponded(_, _, _, id) => MessageIsShown(state, id);
    case PolicyTrace(_, id) => MessageIsShown(state, id);
    case PendingQueued(_, _, id, _) => MessageIsShown(state, id);
    case _ =>
  }

  lemma NoBlockShown(state: ReadState)
    ensures !BlockShown(state, "", IsUse) && !BlockShown(state, "", IsResult)
  {
  }
}
