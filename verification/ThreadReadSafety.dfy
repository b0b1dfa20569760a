/** What holds in every run of the thread protocol, whatever the order in which
    requests are answered. */
module ThreadReadSafety {
  import opened Transcript
  import opened LiveThreadProjection
  import opened ThreadReadState
  import opened ThreadReadProperties
  import opened ThreadReadProtocol

  // ----- the invariant -----

  /** The request asked for the annotations of every user message now held. */
  predicate CoversHistory(state: ReadState, threadID: string, ids: seq<string>) {
    state.data.Some? && state.data.value.id == threadID ==>
      forall u | u in UserIDs(state.data.value.messages) :: u in ids
  }

  predicate RequestSound(w: World, id: RequestID)
    requires id in w.c.pending
  {
    var c, h := w.c, w.h;
    && id < c.nextRequest && id in h.begun && id in h.sent
    && h.begun[id] <= h.sent[id] <= h.clock
    && match c.pending[id]
       case RefreshRequest(threadID, opts, revision, routeVersion, loadedRevision, ids) =>
         && routeVersion <= c.routeRevision
         && (routeVersion == c.routeRevision ==> h.routeChanged < h.begun[id])
         && revision <= c.historyRevision
         && revision !in h.applied
         && loadedRevision <= c.loadedHistoryRevision
         && (opts.preserveLoadedHistory && revision == c.historyRevision && loadedRevision == c.loadedHistoryRevision
             ==> CoversHistory(c.state, threadID, ids))
       case OlderRequest(threadID, before, routeVersion, revision) =>
         && routeVersion <= c.routeRevision
         && (routeVersion == c.routeRevision ==> h.routeChanged < h.begun[id])
         && revision <= c.historyRevision
         && (revision == c.historyRevision ==> h.refreshBegun < h.sent[id])
       case StatusRequest(sub, generation, statusVersion) =>
         && sub < |c.subs|
         && generation <= c.subs[sub].refreshGeneration
         && statusVersion <= c.subs[sub].statusRevision
         && (statusVersion == c.subs[sub].statusRevision && sub in h.lastEvent ==> h.lastEvent[sub] < h.sent[id])
  }

  ghost predicate Sound(w: World) {
    var c, h := w.c, w.h;
    && h.routeChanged <= h.clock && h.refreshBegun <= h.clock
    && (forall s | s in h.lastEvent :: h.lastEvent[s] <= h.clock && s < |c.subs|)
    && (forall id | id in c.pending :: RequestSound(w, id))
    && (forall i, j | i in c.pending && j in c.pending && i != j && c.pending[i].RefreshRequest? && c.pending[j].RefreshRequest? ::
          c.pending[i].revision != c.pending[j].revision)
    && (forall k | 0 <= k < |h.applied| :: h.applied[k] <= c.historyRevision)
    && (forall k, l | 0 <= k < l < |h.applied| :: h.applied[k] < h.applied[l])
  }

  /** Between steps every recorded time is in the past. */
  ghost predicate Inv(w: World) {
    && Sound(w)
    && w.h.routeChanged < w.h.clock && w.h.refreshBegun < w.h.clock
    && (forall s | s in w.h.lastEvent :: w.h.lastEvent[s] < w.h.clock)
    && (forall id | id in w.c.pending :: w.h.sent[id] < w.h.clock)
  }

  // ----- the pieces of a step keep it -----

  lemma SettleSound(w: World, id: RequestID)
    requires Sound(w)
    ensures Sound(Settle(w, id))
  {
    forall k | k in Settle(w, id).c.pending ensures RequestSound(Settle(w, id), k) {
      assert RequestSound(w, k);
    }
  }

  lemma UserIDsHead(ms: seq<Message>)
    requires ms != []
    ensures UserIDs(ms) == (if ms[0].role.User? && Truthy(ms[0].id) then [ms[0].id.value] else []) + UserIDs(ms[1..])
  {
  }

  lemma {:induction false} UserIDsConcat(a: seq<Message>, b: seq<Message>)
    ensures UserIDs(a + b) == UserIDs(a) + UserIDs(b)
    decreases |a|
  {
    if a == [] {
      assert a + b == b;
    } else {
      hide UserIDs;
      UserIDsConcat(a[1..], b);
      assert (a + b)[1..] == a[1..] + b;
      UserIDsHead(a + b);
      UserIDsHead(a);
    }
  }

  lemma RequestCovers(state: ReadState, threadID: string, opts: LoadOptions)
    requires opts.preserveLoadedHistory
    ensures CoversHistory(state, threadID, InputMessageIDs(state, threadID, opts))
  {
    if state.data.Some? && state.data.value.id == threadID {
      UserIDsConcat(state.data.value.messages, if opts.preserveLiveMessages then state.projection.messages else []);
    }
  }

  lemma SendSound(w: World, request: Request, begun: nat)
    requires Sound(w) && begun <= w.h.clock
    requires RequestSound(Send(w, request, begun), w.c.nextRequest)
    requires request.RefreshRequest? ==>
      forall id | id in w.c.pending && w.c.pending[id].RefreshRequest? :: w.c.pending[id].revision != request.revision
    ensures Sound(Send(w, request, begun))
  {
    var next := Send(w, request, begun);
    forall k | k in next.c.pending ensures RequestSound(next, k) {
      if k != w.c.nextRequest { assert RequestSound(w, k); }
    }
  }

  lemma SendRefreshSound(w: World, threadID: string, opts: LoadOptions, begun: nat)
    requires Sound(w) && w.h.routeChanged < begun <= w.h.clock
    requires forall id | id in w.c.pending && w.c.pending[id].RefreshRequest? :: w.c.pending[id].revision != w.c.historyRevision
    requires w.c.historyRevision !in w.h.applied
    ensures Sound(SendRefresh(w, threadID, opts, w.c.historyRevision, w.c.routeRevision, begun))
  {
    if opts.preserveLoadedHistory { RequestCovers(w.c.state, threadID, opts); }
    var request := RefreshRequest(threadID, opts, w.c.historyRevision, w.c.routeRevision, w.c.loadedHistoryRevision,
                                  InputMessageIDs(w.c.state, threadID, opts));
    SendSound(w, request, begun);
  }

  lemma BeginRefreshSound(w: World, threadID: string, opts: LoadOptions)
    requires Sound(w) && w.h.routeChanged < w.h.clock
    ensures Sound(BeginRefresh(w, threadID, opts))
    ensures BeginRefresh(w, threadID, opts).h.routeChanged == w.h.routeChanged
    ensures BeginRefresh(w, threadID, opts).h.clock == w.h.clock
  {
    if threadID != "" {
      var bumped := World(w.c.(historyRevision := w.c.historyRevision + 1), w.h.(refreshBegun := w.h.clock));
      forall k | k in bumped.c.pending ensures RequestSound(bumped, k) {
        assert RequestSound(w, k);
      }
      assert Sound(bumped);
      assert forall id | id in w.c.pending && w.c.pending[id].RefreshRequest? :: RequestSound(w, id);
      SendRefreshSound(bumped, threadID, opts, w.h.clock);
    }
  }

  lemma {:induction false} RunEffectsSound(w: World, effects: seq<Effect>)
    requires Sound(w) && w.h.routeChanged < w.h.clock
    ensures Sound(RunEffects(w, effects))
    decreases |effects|
  {
    if effects != [] {
      var opts := LoadOptions(effects[0].preserveLiveMessages, effects[0].preserveLoadedHistory, false);
      BeginRefreshSound(w, w.c.route, opts);
      RunEffectsSound(BeginRefresh(w, w.c.route, opts), effects[1..]);
    }
  }

  lemma SendOlderSound(w: World, threadID: string, before: string, begun: nat)
    requires Sound(w) && w.h.routeChanged < begun <= w.h.clock && w.h.refreshBegun < w.h.clock
    ensures Sound(SendOlder(w, threadID, before, w.c.routeRevision, begun))
  {
    SendSound(w, OlderRequest(threadID, before, w.c.routeRevision, w.c.historyRevision), begun);
  }

  /** Changing what is shown keeps every request sound, as long as the loaded
      page stays, goes away, or is reported as a history load. */
  lemma StateChangeSound(w: World, state: ReadState, loaded: nat)
    requires Sound(w)
    requires loaded > w.c.loadedHistoryRevision
      || (loaded == w.c.loadedHistoryRevision && (state.data == w.c.state.data || state.data.None?))
    ensures Sound(World(w.c.(state := state, loadedHistoryRevision := loaded), w.h))
  {
    var next := World(w.c.(state := state, loadedHistoryRevision := loaded), w.h);
    forall k | k in next.c.pending ensures RequestSound(next, k) {
      assert RequestSound(w, k);
    }
  }

  /** Changes that touch only subscriptions and shown statuses. */
  lemma SubChangeSound(w: World, sub: nat, s: Subscription, statuses: map<string, Status>, lastEvent: map<nat, nat>)
    requires Sound(w) && sub < |w.c.subs|
    requires s.refreshGeneration >= w.c.subs[sub].refreshGeneration
    requires s.statusRevision >= w.c.subs[sub].statusRevision
    requires lastEvent == w.h.lastEvent
      || (lastEvent == w.h.lastEvent[sub := w.h.clock] && s.statusRevision > w.c.subs[sub].statusRevision)
    ensures Sound(World(w.c.(subs := w.c.subs[sub := s], statuses := statuses), w.h.(lastEvent := lastEvent)))
  {
    var next := World(w.c.(subs := w.c.subs[sub := s], statuses := statuses), w.h.(lastEvent := lastEvent));
    forall k | k in next.c.pending ensures RequestSound(next, k) {
      assert RequestSound(w, k);
    }
  }

  lemma StatusRequestSound(w: World, sub: nat)
    requires Sound(w) && sub < |w.c.subs|
    requires sub in w.h.lastEvent ==> w.h.lastEvent[sub] < w.h.clock
    ensures Sound(Send(w, StatusRequest(sub, w.c.subs[sub].refreshGeneration, w.c.subs[sub].statusRevision), w.h.clock))
  {
    hide Sound;
    SendSound(w, StatusRequest(sub, w.c.subs[sub].refreshGeneration, w.c.subs[sub].statusRevision), w.h.clock);
  }

  lemma SendStatusSound(w: World, sub: nat)
    requires Sound(w) && sub < |w.c.subs|
    requires sub in w.h.lastEvent ==> w.h.lastEvent[sub] < w.h.clock
    ensures Sound(SendStatus(w, sub))
    ensures SendStatus(w, sub).h.routeChanged == w.h.routeChanged
    ensures SendStatus(w, sub).h.clock == w.h.clock
  {
    hide Sound;
    var s := w.c.subs[sub];
    if s.hasStatus {
      var s' := s.(refreshGeneration := s.refreshGeneration + 1);
      SubChangeSound(w, sub, s', w.c.statuses, w.h.lastEvent);
      StatusRequestSound(World(w.c.(subs := w.c.subs[sub := s']), w.h), sub);
    }
  }

  // ----- every step keeps it -----

  /** The clock ticks: what happened in the step is now in the past. */
  lemma Ticked(w: World, clock: nat)
    requires Sound(w) && w.h.clock < clock
    ensures Inv(World(w.c, w.h.(clock := clock)))
  {
    var next := World(w.c, w.h.(clock := clock));
    forall k | k in next.c.pending ensures RequestSound(next, k) {
      assert RequestSound(w, k);
    }
    assert forall id | id in w.c.pending :: RequestSound(w, id);
  }

  lemma RouteSound(w: World, id: string)
    requires Inv(w)
    ensures Sound(Act(w, SetRoute(id)))
  {
    var next := Act(w, SetRoute(id));
    forall k | k in next.c.pending ensures RequestSound(next, k) {
      assert RequestSound(w, k);
    }
  }

  /** No request in flight is for the refresh that is now current. */
  ghost predicate NoneCurrent(w: World) {
    && w.c.historyRevision !in w.h.applied
    && forall k | k in w.c.pending && w.c.pending[k].RefreshRequest? :: w.c.pending[k].revision != w.c.historyRevision
  }

  /** The page is taken over: what was in flight is no longer about it. */
  lemma AppliedSound(w: World, state: ReadState)
    requires Sound(w) && NoneCurrent(w)
    ensures Sound(World(w.c.(state := state), w.h.(applied := w.h.applied + [w.c.historyRevision])))
  {
    hide CoversHistory;
    var next := World(w.c.(state := state), w.h.(applied := w.h.applied + [w.c.historyRevision]));
    forall k | k in next.c.pending ensures RequestSound(next, k) {
      assert RequestSound(w, k);
    }
  }

  lemma SettledIsNotCurrent(w: World, id: RequestID)
    requires Sound(w) && id in w.c.pending && w.c.pending[id].RefreshRequest?
    ensures var r := w.c.pending[id];
      && (r.revision == w.c.historyRevision ==> NoneCurrent(Settle(w, id)))
      && id in w.h.begun && w.h.begun[id] <= w.h.clock
      && (r.routeVersion == w.c.routeRevision ==> w.h.routeChanged < w.h.begun[id])
  {
    assert RequestSound(w, id);
  }

  lemma RefreshAnsweredSound(w: World, id: RequestID, page: Page)
    requires Inv(w) && id in w.c.pending && w.c.pending[id].RefreshRequest?
    ensures Sound(Act(w, RefreshAnswered(id, page)))
  {
    hide RequestSound, ThreadLoaded, SendRefresh;
    var r := w.c.pending[id];
    var settled := Settle(w, id);
    SettleSound(w, id);
    SettledIsNotCurrent(w, id);
    hide Sound;
    if RefreshApplies(w.c, r) {
      AppliedSound(settled, ThreadLoaded(w.c.state, page, r.opts));
    } else if RefreshCurrent(w.c, r) {
      SendRefreshSound(settled, r.threadID, r.opts, w.h.begun[id]);
    }
  }

  lemma RefreshFailedSound(w: World, id: RequestID, error: string)
    requires Inv(w) && id in w.c.pending && w.c.pending[id].RefreshRequest?
    ensures Sound(Act(w, RefreshFailed(id, error)))
  {
    var settled := Settle(w, id);
    SettleSound(w, id);
    StateChangeSound(settled, ThreadLoadFailed(w.c.state, error), w.c.loadedHistoryRevision);
  }

  lemma OlderBegunSound(w: World, threadID: string, before: string)
    requires Inv(w)
    ensures Sound(Act(w, StartLoadOlder(threadID, before)))
  {
    var started := WithState(w, LoadOlderStarted(w.c.state));
    StateChangeSound(w, LoadOlderStarted(w.c.state), w.c.loadedHistoryRevision);
    SendOlderSound(started, threadID, before, w.h.clock);
  }

  lemma OlderWasBegun(w: World, id: RequestID)
    requires Sound(w) && id in w.c.pending && w.c.pending[id].OlderRequest?
    ensures id in w.h.begun && w.h.begun[id] <= w.h.clock
    ensures w.c.pending[id].routeVersion == w.c.routeRevision ==> w.h.routeChanged < w.h.begun[id]
  {
    assert RequestSound(w, id);
  }

  lemma OlderSettledSound(w: World, id: RequestID, a: Action)
    requires Inv(w) && id in w.c.pending && w.c.pending[id].OlderRequest?
    requires (a.OlderAnswered? || a.OlderFailed?) && a.request == id
    ensures Sound(Act(w, a))
  {
    hide RequestSound, SendOlder, LoadOlderSucceeded;
    var r := w.c.pending[id];
    var settled := Settle(w, id);
    SettleSound(w, id);
    OlderWasBegun(w, id);
    hide Sound;
    if OlderApplies(w.c, r) {
      if a.OlderAnswered? {
        OlderSucceededSound(settled, LoadOlderSucceeded(w.c.state, a.page));
      } else {
        StateChangeSound(settled, LoadOlderFailed(w.c.state, a.error), w.c.loadedHistoryRevision);
      }
    } else if OlderCurrent(w.c, r) {
      SendOlderSound(settled, r.threadID, r.before, w.h.begun[id]);
    }
  }

  lemma OlderSucceededSound(w: World, state: ReadState)
    requires Sound(w)
    ensures Sound(World(w.c.(loadedHistoryRevision := w.c.loadedHistoryRevision + 1, state := state), w.h))
  {
    hide Sound;
    StateChangeSound(w, state, w.c.loadedHistoryRevision + 1);
  }

  lemma SubscribeSound(w: World, threadID: string, hasStatus: bool)
    requires Inv(w)
    ensures Sound(Act(w, Subscribe(threadID, hasStatus)))
  {
    var grown := World(w.c.(subs := w.c.subs + [Subscription(threadID, hasStatus, true, 0, 0)]), w.h);
    forall k | k in grown.c.pending ensures RequestSound(grown, k) {
      assert RequestSound(w, k);
    }
    SendStatusSound(grown, |w.c.subs|);
  }

  lemma DeliveredSound(w: World, sub: nat, status: Status, state: ReadState, effects: seq<Effect>)
    requires Inv(w) && sub < |w.c.subs|
    requires state.data == w.c.state.data
    ensures Sound(RunEffects(WithState(DeliverStatus(w, sub, status), state), effects))
  {
    var s := w.c.subs[sub];
    var told := DeliverStatus(w, sub, status);
    SubChangeSound(w, sub, s.(statusRevision := s.statusRevision + 1), told.c.statuses, told.h.lastEvent);
    StateChangeSound(told, state, told.c.loadedHistoryRevision);
    RunEffectsSound(WithState(told, state), effects);
  }

  lemma EventKeepsData(state: ReadState, event: BrowserEvent)
    ensures ProjectLiveBrowserEvent(state, event).0.data == state.data
  {
  }

  lemma StreamEventSound(w: World, sub: nat, event: BrowserEvent, status: Status)
    requires Inv(w) && sub < |w.c.subs|
    ensures Sound(Act(w, StreamEvent(sub, event, status)))
  {
    EventKeepsData(w.c.state, event);
    var (state, effects) := ProjectLiveBrowserEvent(w.c.state, event);
    DeliveredSound(w, sub, status, state, effects);
  }

  lemma StatusAnsweredSound(w: World, id: RequestID, status: Status)
    requires Inv(w) && id in w.c.pending && w.c.pending[id].StatusRequest?
    ensures Sound(Act(w, StatusAnswered(id, status)))
  {
    hide RequestSound;
    var r := w.c.pending[id];
    var settled := Settle(w, id);
    SettleSound(w, id);
    if StatusApplies(w.c, r) {
      var s := w.c.subs[r.sub];
      SubChangeSound(settled, r.sub, s.(statusRevision := s.statusRevision + 1), w.c.statuses[s.threadID := status], w.h.lastEvent);
    }
  }

  lemma StatusFailedSound(w: World, id: RequestID)
    requires Inv(w) && id in w.c.pending && w.c.pending[id].StatusRequest?
    ensures Sound(Act(w, StatusFailed(id)))
  {
    hide RequestSound;
    var r := w.c.pending[id];
    var settled := Settle(w, id);
    SettleSound(w, id);
    if StatusApplies(w.c, r) {
      var s := w.c.subs[r.sub];
      SubChangeSound(settled, r.sub, s, w.c.statuses - {s.threadID}, w.h.lastEvent);
      assert w.c.subs[r.sub := s] == w.c.subs;
    }
  }

  lemma UnsubscribeSound(w: World, sub: nat)
    requires Inv(w)
    ensures Sound(Act(w, Unsubscribe(sub)))
  {
    hide RequestSound;
    if sub < |w.c.subs| {
      var s := w.c.subs[sub];
      SubChangeSound(w, sub, s.(subscribed := false, refreshGeneration := s.refreshGeneration + 1),
                     if s.hasStatus then w.c.statuses - {s.threadID} else w.c.statuses, w.h.lastEvent);
    }
  }

  lemma StreamErrorSound(w: World, sub: nat)
    requires Inv(w)
    ensures Sound(Act(w, StreamError(sub)))
  {
    hide RequestSound;
    if sub < |w.c.subs| {
      var s := w.c.subs[sub];
      SubChangeSound(w, sub, s.(statusRevision := s.statusRevision + 1),
                     if s.hasStatus then w.c.statuses - {s.threadID} else w.c.statuses, w.h.lastEvent);
    }
  }

  lemma StreamOpenedSound(w: World, sub: nat)
    requires Inv(w)
    ensures Sound(Act(w, StreamOpened(sub)))
  {
    hide RequestSound, SendStatus, BeginRefresh;
    if sub < |w.c.subs| {
      SendStatusSound(w, sub);
      BeginRefreshSound(SendStatus(w, sub), w.c.subs[sub].threadID, LoadOptions(true, true, false));
    }
  }

  lemma ActSound(w: World, a: Action)
    requires Inv(w)
    ensures Sound(Act(w, a))
  {
    assert Sound(w) && w.h.routeChanged < w.h.clock;
    hide Sound, Inv, RequestSound, ProjectLiveBrowserEvent, BeginRefresh, RunEffects;
    match a
    case SetRoute(id) => RouteSound(w, id);
    case ResetForRoute => StateChangeSound(w, ReadState(None, None, EmptyProjection, false, None), w.c.loadedHistoryRevision);
    case StartRefresh(threadID, opts) => BeginRefreshSound(w, threadID, opts);
    case RefreshAnswered(id, page) =>
      if id in w.c.pending && w.c.pending[id].RefreshRequest? { RefreshAnsweredSound(w, id, page); }
    case RefreshFailed(id, error) =>
      if id in w.c.pending && w.c.pending[id].RefreshRequest? { RefreshFailedSound(w, id, error); }
    case StartLoadOlder(threadID, before) => OlderBegunSound(w, threadID, before);
    case OlderAnswered(id, _) =>
      if id in w.c.pending && w.c.pending[id].OlderRequest? { OlderSettledSound(w, id, a); }
    case OlderFailed(id, _) =>
      if id in w.c.pending && w.c.pending[id].OlderRequest? { OlderSettledSound(w, id, a); }
    case Subscribe(threadID, hasStatus) => SubscribeSound(w, threadID, hasStatus);
    case Unsubscribe(sub) => UnsubscribeSound(w, sub);
    case StreamOpened(sub) => StreamOpenedSound(w, sub);
    case StreamError(sub) => StreamErrorSound(w, sub);
    case StreamEvent(sub, event, status) =>
      if sub < |w.c.subs| { StreamEventSound(w, sub, event, status); }
    case StatusAnswered(id, status) =>
      if id in w.c.pending && w.c.pending[id].StatusRequest? { StatusAnsweredSound(w, id, status); }
    case StatusFailed(id) =>
      if id in w.c.pending && w.c.pending[id].StatusRequest? { StatusFailedSound(w, id); }
    case LocalChange(projection, effects) =>
      StateChangeSound(w, w.c.state.(projection := projection), w.c.loadedHistoryRevision);
      RunEffectsSound(WithState(w, w.c.state.(projection := projection)), effects);
  }

  lemma StepKeepsClock(w: World, a: Action)
    ensures Act(w, a).h.clock == w.h.clock
  {
  }

  lemma InitialInv()
    ensures Inv(Run(Initial, []))
  {
  }

  lemma StepInv(w: World, a: Action)
    requires Inv(w)
    ensures Inv(Step(w, a))
  {
    hide Sound, Inv, Act;
    ActSound(w, a);
    StepKeepsClock(w, a);
    Ticked(Act(w, a), w.h.clock + 1);
  }

  /** The invariant holds in every run. */
  lemma {:induction false} RunInv(actions: seq<Action>)
    ensures Inv(Run(Initial, actions))
    decreases |actions|
  {
    if actions == [] {
      InitialInv();
    } else {
      hide Inv, Step;
      RunInv(actions[..|actions| - 1]);
      StepInv(Run(Initial, actions[..|actions| - 1]), actions[|actions| - 1]);
    }
  }
}
