/** The guarantees of the thread protocol, for every run. */
module ThreadReadGuarantees {
  import opened Transcript
  import opened LiveThreadProjection
  import opened ReducerProperties
  import opened TurnProperties
  import opened ThreadReadState
  import opened ThreadReadProperties
  import opened ThreadReadProtocol
  import opened ThreadReadSafety

  predicate Annotated(tracking: Option<Tracking>, ids: seq<string>) {
    tracking.Some? && forall u | u in ids :: u in tracking.value.annotations
  }

  lemma {:induction false} UserIDsIn(ms: seq<Message>, u: string)
    ensures u in UserIDs(ms) <==> exists m | m in ms :: m.role.User? && Truthy(m.id) && m.id.value == u
  {
    if ms != [] {
      UserIDsIn(ms[1..], u);
      assert ms == [ms[0]] + ms[1..];
    }
  }

  /** In every run, a refresh that applies while keeping history (the answer
      being about the thread that was asked for) asked for the annotations of
      every user message it keeps, and loses no message with an id. Hence, if
      the server annotates the ids it was asked for and those of its own page,
      every user message is annotated afterwards. */
  lemma KeptHistoryIsAnnotated(actions: seq<Action>, id: RequestID, page: Page)
    requires var c := Run(Initial, actions).c;
      && id in c.pending && c.pending[id].RefreshRequest?
      && RefreshApplies(c, c.pending[id])
      && page.id == c.pending[id].threadID
      && KeepsHistory(c.state, page, c.pending[id].opts)
    ensures
      var w := Run(Initial, actions);
      var asked := w.c.pending[id].inputMessageIDs;
      var after := Step(w, RefreshAnswered(id, page)).c.state;
      && (forall u | u in UserIDs(Persisted(w.c.state)) :: u in asked)
      && (forall m: string | m != "" && HasID(Persisted(w.c.state), m) :: HasID(Persisted(after), m))
      && (Annotated(page.tracking, asked) && Annotated(page.tracking, UserIDs(page.messages))
          ==> Annotated(after.data.value.tracking, UserIDs(Persisted(after))))
  {
    var w := Run(Initial, actions);
    RunInv(actions);
    assert RequestSound(w, id);
    var r := w.c.pending[id];
    var after := ThreadLoaded(w.c.state, page, r.opts);
    forall m: string | m != "" && HasID(Persisted(w.c.state), m) ensures HasID(Persisted(after), m) {
      LoadKeepsIDs(w.c.state, page, r.opts, m);
    }
    forall u | u in UserIDs(Persisted(after)) ensures u in r.inputMessageIDs || u in UserIDs(page.messages) {
      UserIDsIn(Persisted(after), u);
      var m :| m in Persisted(after) && m.role.User? && Truthy(m.id) && m.id.value == u;
      FilterKeeps(w.c.state.data.value.messages, FreshIn(page.messages), m);
      UserIDsIn(page.messages, u);
      UserIDsIn(Persisted(w.c.state), u);
    }
  }

  /** Refreshes apply in the order they were started: each applied one was
      started after all applied before it. */
  lemma RefreshesApplyInOrder(actions: seq<Action>, id: RequestID)
    requires var c := Run(Initial, actions).c;
      id in c.pending && c.pending[id].RefreshRequest? && RefreshApplies(c, c.pending[id])
    ensures var w := Run(Initial, actions);
      && (forall k | 0 <= k < |w.h.applied| :: w.h.applied[k] < w.c.pending[id].revision)
      && (forall k, l | 0 <= k < l < |w.h.applied| :: w.h.applied[k] < w.h.applied[l])
  {
    hide Run, Step, Act;
    var w := Run(Initial, actions);
    RunInv(actions);
    assert RequestSound(w, id);
    var revision := w.c.pending[id].revision;
    assert revision == w.c.historyRevision && revision !in w.h.applied;
    forall k | 0 <= k < |w.h.applied| ensures w.h.applied[k] < revision {
      assert w.h.applied[k] in w.h.applied;
    }
  }

  /** In every run, a refresh that applies leaves of the live messages exactly
      those, in order, that the page then held does not carry, if it was to keep
      them, and none otherwise; and the queue as it was. */
  lemma RefreshShowsLive(actions: seq<Action>, id: RequestID, page: Page) returns (at: seq<nat>)
    requires var c := Run(Initial, actions).c;
      id in c.pending && c.pending[id].RefreshRequest? && RefreshApplies(c, c.pending[id])
    ensures var c := Run(Initial, actions).c;
      var before, after := c.state.projection, Step(Run(Initial, actions), RefreshAnswered(id, page)).c.state;
      && after.projection == before.(messages := after.projection.messages)
      && (!c.pending[id].opts.preserveLiveMessages ==> after.projection.messages == [])
      && (c.pending[id].opts.preserveLiveMessages ==>
            && Picked(before.messages, after.projection.messages, at)
            && forall i | 0 <= i < |before.messages| :: i in at <==> Missing(before.messages[i], Persisted(after)))
  {
    hide Run, ThreadLoaded, Picked, Missing;
    var c := Run(Initial, actions).c;
    at := LiveAfterLoad(c.state, page, c.pending[id].opts);
  }

  /** A stream that opens again on the current route asks for a refresh that
      keeps both, which applies if it is the next to be answered: what is live
      and not yet in the page stays on the screen. */
  lemma ReopenedKeepsLive(actions: seq<Action>, sub: nat, page: Page) returns (id: RequestID, at: seq<nat>)
    requires var c := Run(Initial, actions).c;
      sub < |c.subs| && c.subs[sub].threadID == c.route && c.route != ""
    ensures var w := Run(Initial, actions);
      var next := Run(Initial, actions + [StreamOpened(sub)]);
      var before, after := w.c.state.projection, Step(next, RefreshAnswered(id, page)).c.state;
      && id in next.c.pending && next.c.pending[id].RefreshRequest?
      && next.c.pending[id].opts == LoadOptions(true, true, false) && RefreshApplies(next.c, next.c.pending[id])
      && after.projection == before.(messages := after.projection.messages)
      && Picked(before.messages, after.projection.messages, at)
      && forall i | 0 <= i < |before.messages| :: i in at <==> Missing(before.messages[i], Persisted(after))
  {
    hide Run, Picked, Missing, RefreshApplies, Step;
    var w := Run(Initial, actions);
    RunStep(actions, StreamOpened(sub));
    id := OpenedRefresh(w, sub);
    at := RefreshShowsLive(actions + [StreamOpened(sub)], id, page);
  }

  lemma OpenedRefresh(w: World, sub: nat) returns (id: RequestID)
    requires sub < |w.c.subs| && w.c.subs[sub].threadID == w.c.route && w.c.route != ""
    ensures var c := Step(w, StreamOpened(sub)).c;
      && id in c.pending && c.pending[id].RefreshRequest? && c.pending[id].opts == LoadOptions(true, true, false)
      && RefreshApplies(c, c.pending[id]) && c.state == w.c.state
  {
    hide InputMessageIDs;
    id := SendStatus(w, sub).c.nextRequest;
  }

  /** The end of a turn, told by a live subscription of the route, starts a
      refresh that replaces the live transcript by the persisted one; a repaired
      transcript or a compaction that ended starts one that keeps it. */
  lemma EventRefreshes(w: World, sub: nat, e: BrowserEvent, status: Status) returns (id: RequestID)
    requires sub < |w.c.subs| && w.c.subs[sub].subscribed && w.c.subs[sub].threadID == w.c.route && w.c.route != ""
    requires e.payload.TurnCompleted? || e.payload.TurnErrored? || e.payload.CompactCompleted? || e.payload.CompactErrored?
      || e.payload.InputScopeChanged?
    ensures var c := Step(w, StreamEvent(sub, e, status)).c;
      && id in c.pending && c.pending[id].RefreshRequest? && RefreshApplies(c, c.pending[id])
      && c.pending[id].opts == LoadOptions(!(e.payload.TurnCompleted? || e.payload.TurnErrored?), e.payload.InputScopeChanged?, false)
  {
    hide ProjectLiveThreadEvent, AlreadyLoaded, DeliverStatus;
    id := w.c.nextRequest;
    RefreshesAsked(w.c.state.projection, e);
    NotLoaded(w.c.state, e);
    var (state, effects) := ProjectLiveBrowserEvent(w.c.state, e);
    OneEffect(WithState(DeliverStatus(w, sub, status), state), effects);
    Delivered(w, sub, status);
  }

  lemma NotLoaded(state: ReadState, e: BrowserEvent)
    requires e.payload.TurnCompleted? || e.payload.TurnErrored? || e.payload.CompactCompleted? || e.payload.CompactErrored?
      || e.payload.InputScopeChanged?
    ensures !AlreadyLoaded(Persisted(state), state.projection, e)
  {
  }

  lemma OneEffect(w: World, effects: seq<Effect>)
    requires |effects| == 1
    ensures RunEffects(w, effects) == BeginRefresh(w, w.c.route, LoadOptions(effects[0].preserveLiveMessages, effects[0].preserveLoadedHistory, false))
  {
    hide BeginRefresh;
    assert effects[1..] == [];
  }

  lemma Delivered(w: World, sub: nat, status: Status)
    requires sub < |w.c.subs|
    ensures var v := DeliverStatus(w, sub, status);
      v.c.nextRequest == w.c.nextRequest && v.c.route == w.c.route && v.c.routeRevision == w.c.routeRevision
      && v.c.historyRevision == w.c.historyRevision && v.c.loadedHistoryRevision == w.c.loadedHistoryRevision
  {
  }

  /** The action answers or fails this request for pages. */
  predicate SettlesPage(c: Controller, a: Action, id: RequestID) {
    id in c.pending &&
    ((c.pending[id].RefreshRequest? && (a.RefreshAnswered? || a.RefreshFailed?) && a.request == id)
     || (c.pending[id].OlderRequest? && (a.OlderAnswered? || a.OlderFailed?) && a.request == id))
  }

  /** An operation called before the route last changed is over: whatever its
      request brings, nothing changes and nothing is sent again. */
  lemma EarlierRouteIsInert(actions: seq<Action>, a: Action, id: RequestID)
    requires var w := Run(Initial, actions);
      SettlesPage(w.c, a, id) && id in w.h.begun && w.h.begun[id] <= w.h.routeChanged
    ensures var w := Run(Initial, actions);
      Step(w, a).c == w.c.(pending := w.c.pending - {id})
  {
    RunInv(actions);
    assert RequestSound(Run(Initial, actions), id);
  }

  /** An older page counts only if no refresh started since it was last asked
      for; otherwise the shown state stays and the page is asked for again. */
  lemma OlderPageAfterRefresh(actions: seq<Action>, a: Action, id: RequestID)
    requires var w := Run(Initial, actions);
      && SettlesPage(w.c, a, id) && w.c.pending[id].OlderRequest?
      && id in w.h.sent && w.h.sent[id] <= w.h.refreshBegun
    ensures var w := Run(Initial, actions);
      && Step(w, a).c.state == w.c.state
      && (OlderCurrent(w.c, w.c.pending[id]) ==>
            w.c.nextRequest in Step(w, a).c.pending &&
            Step(w, a).c.pending[w.c.nextRequest]
              == w.c.pending[id].(revision := w.c.historyRevision))
  {
    RunInv(actions);
    assert RequestSound(Run(Initial, actions), id);
  }

  /** A status GET never overwrites, and its failure never clears, a status
      that a later event of the same subscription delivered. */
  lemma StatusNotOverwritten(actions: seq<Action>, a: Action, id: RequestID)
    requires var w := Run(Initial, actions);
      && id in w.c.pending && w.c.pending[id].StatusRequest?
      && (a.StatusAnswered? || a.StatusFailed?) && a.request == id
      && w.c.pending[id].sub in w.h.lastEvent && id in w.h.sent
      && w.h.sent[id] <= w.h.lastEvent[w.c.pending[id].sub]
    ensures var w := Run(Initial, actions);
      Step(w, a).c == w.c.(pending := w.c.pending - {id})
  {
    RunInv(actions);
    assert RequestSound(Run(Initial, actions), id);
  }

  // ----- several subscriptions -----

  /** The subscription shows statuses now. */
  predicate ShowsStatus(c: Controller, sub: nat) {
    sub < |c.subs| && c.subs[sub].subscribed && c.subs[sub].hasStatus
  }

  /** No thread has two subscriptions that show its status. */
  predicate Apart(c: Controller) {
    forall i, j | 0 <= i < j < |c.subs| && ShowsStatus(c, i) && ShowsStatus(c, j) :: c.subs[i].threadID != c.subs[j].threadID
  }

  predicate ApartThroughout(actions: seq<Action>) {
    forall n | 0 <= n <= |actions| :: Apart(Run(Initial, actions[..n]).c)
  }

  function ShownStatus(c: Controller, threadID: string): Option<Status> {
    if threadID in c.statuses then Some(c.statuses[threadID]) else None
  }

  predicate SettlesStatus(c: Controller, a: Action) {
    (a.StatusAnswered? || a.StatusFailed?) && a.request in c.pending && c.pending[a.request].StatusRequest?
  }

  /** The answer or failure of a GET changes the shown status of a thread for
      which s delivered one after the GET was sent. */
  predicate Overwrites(w: World, a: Action, s: nat) {
    && SettlesStatus(w.c, a)
    && a.request in w.h.sent && s in w.h.lastEvent && w.h.sent[a.request] <= w.h.lastEvent[s]
    && s < |w.c.subs| && w.c.subs[s].hasStatus
    && ShownStatus(Step(w, a).c, w.c.subs[s].threadID) != ShownStatus(w.c, w.c.subs[s].threadID)
  }

  /** A GET in flight for a subscription that shows statuses was sent after
      every event of the thread's other subscriptions. */
  ghost predicate Latest(w: World, id: RequestID)
    requires id in w.c.pending && w.c.pending[id].StatusRequest?
  {
    var i := w.c.pending[id].sub;
    && i < |w.c.subs| && w.c.subs[i].hasStatus && id in w.h.sent
    && (w.c.subs[i].subscribed ==>
          forall s | s in w.h.lastEvent && s < |w.c.subs| && s != i && w.c.subs[s].hasStatus
            && w.c.subs[s].threadID == w.c.subs[i].threadID :: w.h.lastEvent[s] < w.h.sent[id])
  }

  ghost predicate GetsAreLatest(w: World) {
    forall id | id in w.c.pending && w.c.pending[id].StatusRequest? :: Latest(w, id)
  }

  predicate AllEarlier(h: History) {
    forall s | s in h.lastEvent :: h.lastEvent[s] < h.clock
  }

  /** The GET was in flight before, or is sent just now, after all events. */
  predicate Inherited(w: World, v: World, id: RequestID)
    requires id in v.c.pending && v.c.pending[id].StatusRequest?
  {
    id in v.h.sent &&
    if id in w.c.pending && w.c.pending[id] == v.c.pending[id] && id in w.h.sent && v.h.sent[id] == w.h.sent[id] then true
    else v.h.sent[id] == w.h.clock && AllEarlier(w.h) && v.c.pending[id].sub < |v.c.subs| && v.c.subs[v.c.pending[id].sub].hasStatus
  }

  /** Going from w to v within a step delivers no event. */
  ghost predicate Eventless(w: World, v: World) {
    && v.h.clock == w.h.clock && v.h.lastEvent == w.h.lastEvent
    && |w.c.subs| <= |v.c.subs|
    && (forall i | 0 <= i < |w.c.subs| ::
          && v.c.subs[i].threadID == w.c.subs[i].threadID && v.c.subs[i].hasStatus == w.c.subs[i].hasStatus
          && (v.c.subs[i].subscribed ==> w.c.subs[i].subscribed))
    && (forall id | id in v.c.pending && v.c.pending[id].StatusRequest? :: Inherited(w, v, id))
  }

  lemma EventlessKeeps(w: World, v: World)
    requires GetsAreLatest(w) && Eventless(w, v)
    requires forall s | s in w.h.lastEvent :: s < |w.c.subs|
    ensures GetsAreLatest(v)
  {
    forall id | id in v.c.pending && v.c.pending[id].StatusRequest? ensures Latest(v, id) {
      assert Inherited(w, v, id);
      if id in w.c.pending && w.c.pending[id] == v.c.pending[id] { assert Latest(w, id); }
    }
  }

  lemma EventlessChain(u: World, v: World, w: World)
    requires Eventless(u, v) && Eventless(v, w)
    ensures Eventless(u, w)
  {
    forall id | id in w.c.pending && w.c.pending[id].StatusRequest? ensures Inherited(u, w, id) {
      assert Inherited(v, w, id);
      if id in v.c.pending && v.c.pending[id] == w.c.pending[id] { assert Inherited(u, v, id); }
    }
  }

  /** Every GET in flight has its time of sending on record. */
  ghost predicate SentKnown(w: World) {
    forall id | id in w.c.pending && w.c.pending[id].StatusRequest? :: id in w.h.sent
  }

  lemma BeginRefreshEventless(w: World, threadID: string, opts: LoadOptions)
    requires SentKnown(w)
    ensures Eventless(w, BeginRefresh(w, threadID, opts)) && SentKnown(BeginRefresh(w, threadID, opts))
  {
    hide InputMessageIDs;
  }

  lemma {:induction false} RunEffectsEventless(w: World, effects: seq<Effect>)
    requires SentKnown(w)
    ensures Eventless(w, RunEffects(w, effects)) && SentKnown(RunEffects(w, effects))
    decreases |effects|
  {
    hide Inherited, BeginRefresh;
    if effects == [] {
      EventlessSelf(w);
    } else {
      var opts := LoadOptions(effects[0].preserveLiveMessages, effects[0].preserveLoadedHistory, false);
      var next := BeginRefresh(w, w.c.route, opts);
      BeginRefreshEventless(w, w.c.route, opts);
      RunEffectsEventless(next, effects[1..]);
      EventlessChain(w, next, RunEffects(next, effects[1..]));
    }
  }

  lemma EventlessSelf(w: World)
    requires SentKnown(w)
    ensures Eventless(w, w)
  {
  }

  lemma SendStatusEventless(w: World, sub: nat)
    requires SentKnown(w) && AllEarlier(w.h) && sub < |w.c.subs|
    ensures Eventless(w, SendStatus(w, sub)) && SentKnown(SendStatus(w, sub))
  {
  }

  lemma RouteStepEventless(w: World, a: Action)
    requires SentKnown(w) && (a.SetRoute? || a.ResetForRoute?)
    ensures Eventless(w, Act(w, a))
  {
  }

  lemma SettleEventless(w: World, id: RequestID)
    requires SentKnown(w)
    ensures Eventless(w, Settle(w, id)) && SentKnown(Settle(w, id))
  {
  }

  lemma ShownEventless(w: World, v: World)
    requires SentKnown(w)
    requires v.c.pending == w.c.pending && v.c.subs == w.c.subs
    requires v.h.clock == w.h.clock && v.h.lastEvent == w.h.lastEvent && v.h.sent == w.h.sent
    ensures Eventless(w, v)
  {
  }

  lemma SendPageEventless(w: World, request: Request, begun: nat)
    requires SentKnown(w) && !request.StatusRequest?
    ensures Eventless(w, Send(w, request, begun))
  {
  }

  lemma RefreshStepEventless(w: World, a: Action)
    requires SentKnown(w) && (a.RefreshAnswered? || a.RefreshFailed?)
    ensures Eventless(w, Act(w, a))
  {
    hide Eventless, SentKnown, ThreadLoaded, ThreadLoadFailed, InputMessageIDs, RefreshCurrent, RefreshApplies, Send;
    var id := a.request;
    EventlessSelf(w);
    if id in w.c.pending && w.c.pending[id].RefreshRequest? {
      var r := w.c.pending[id];
      var settled, next := Settle(w, id), Act(w, a);
      SettleEventless(w, id);
      if a.RefreshAnswered? && RefreshCurrent(w.c, r) && !RefreshApplies(w.c, r) {
        SendPageEventless(settled, RefreshRequest(r.threadID, r.opts, r.revision, r.routeVersion, w.c.loadedHistoryRevision,
          InputMessageIDs(w.c.state, r.threadID, r.opts)), Begun(w.h, id));
      } else {
        ShownEventless(settled, next);
      }
      EventlessChain(w, settled, next);
    }
  }

  lemma OlderStepEventless(w: World, a: Action)
    requires SentKnown(w) && (a.OlderAnswered? || a.OlderFailed?)
    ensures Eventless(w, Act(w, a))
  {
    hide Eventless, SentKnown, LoadOlderSucceeded, LoadOlderFailed, OlderCurrent, OlderApplies, Send;
    var id := a.request;
    EventlessSelf(w);
    if id in w.c.pending && w.c.pending[id].OlderRequest? {
      var r := w.c.pending[id];
      var settled, next := Settle(w, id), Act(w, a);
      SettleEventless(w, id);
      if OlderCurrent(w.c, r) && !OlderApplies(w.c, r) {
        SendPageEventless(settled, OlderRequest(r.threadID, r.before, r.routeVersion, w.c.historyRevision), Begun(w.h, id));
      } else {
        ShownEventless(settled, next);
      }
      EventlessChain(w, settled, next);
    }
  }

  lemma StartOlderEventless(w: World, threadID: string, before: string)
    requires SentKnown(w)
    ensures Eventless(w, Act(w, StartLoadOlder(threadID, before)))
  {
    hide Eventless, SentKnown, LoadOlderStarted, Send;
    EventlessSelf(w);
    if before != "" && !w.c.state.loadingOlder {
      var started := WithState(w, LoadOlderStarted(w.c.state));
      ShownEventless(w, started);
      if w.c.route == threadID {
        StartedKnown(w, started);
        SendPageEventless(started, OlderRequest(threadID, before, w.c.routeRevision, w.c.historyRevision), w.h.clock);
        EventlessChain(w, started, Act(w, StartLoadOlder(threadID, before)));
      }
    }
  }

  lemma StartedKnown(w: World, v: World)
    requires SentKnown(w) && v.c.pending == w.c.pending && v.h.sent == w.h.sent
    ensures SentKnown(v)
  {
  }

  lemma SubscribeEventless(w: World, threadID: string, hasStatus: bool)
    requires SentKnown(w) && AllEarlier(w.h)
    ensures Eventless(w, Act(w, Subscribe(threadID, hasStatus)))
  {
    hide SendStatus, Inherited;
    var grown := World(w.c.(subs := w.c.subs + [Subscription(threadID, hasStatus, true, 0, 0)]), w.h);
    assert Eventless(w, grown) by { GrownEventless(w, grown); }
    SendStatusEventless(grown, |w.c.subs|);
    EventlessChain(w, grown, SendStatus(grown, |w.c.subs|));
  }

  lemma GrownEventless(w: World, v: World)
    requires SentKnown(w) && w.c.subs <= v.c.subs && v.c == w.c.(subs := v.c.subs) && v.h == w.h
    ensures Eventless(w, v)
  {
  }

  lemma StreamOpenedEventless(w: World, sub: nat)
    requires SentKnown(w) && AllEarlier(w.h)
    ensures Eventless(w, Act(w, StreamOpened(sub)))
  {
    hide BeginRefresh, SendStatus, Eventless, SentKnown;
    EventlessSelf(w);
    if sub < |w.c.subs| {
      var opts := LoadOptions(true, true, false);
      var sent := SendStatus(w, sub);
      SendStatusEventless(w, sub);
      BeginRefreshEventless(sent, w.c.subs[sub].threadID, opts);
      EventlessChain(w, sent, BeginRefresh(sent, w.c.subs[sub].threadID, opts));
    }
  }

  lemma SubStepEventless(w: World, a: Action)
    requires SentKnown(w)
    requires a.Unsubscribe? || a.StreamError? || a.StatusAnswered? || a.StatusFailed?
    ensures Eventless(w, Act(w, a))
  {
  }

  /** An event of the only subscription that shows its thread's status. */
  lemma DeliverStatusKeeps(w: World, sub: nat, status: Status, state: ReadState)
    requires GetsAreLatest(w) && Apart(w.c)
    requires sub < |w.c.subs| && w.c.subs[sub].subscribed
    ensures GetsAreLatest(WithState(DeliverStatus(w, sub, status), state))
  {
    hide Apart;
    var v := WithState(DeliverStatus(w, sub, status), state);
    forall id | id in v.c.pending && v.c.pending[id].StatusRequest? ensures Latest(v, id) {
      var i := w.c.pending[id].sub;
      assert Latest(w, id);
      if i != sub { ApartPair(w.c, i, sub); }
    }
  }

  lemma ApartPair(c: Controller, i: nat, j: nat)
    requires Apart(c) && i != j
    ensures ShowsStatus(c, i) && ShowsStatus(c, j) ==> c.subs[i].threadID != c.subs[j].threadID
  {
  }

  lemma StreamEventKeeps(w: World, sub: nat, status: Status, state: ReadState, effects: seq<Effect>)
    requires GetsAreLatest(w) && Apart(w.c)
    requires forall s | s in w.h.lastEvent :: s < |w.c.subs|
    requires sub < |w.c.subs| && w.c.subs[sub].subscribed
    ensures GetsAreLatest(RunEffects(WithState(DeliverStatus(w, sub, status), state), effects))
  {
    hide RunEffects, Latest, Apart, Eventless;
    var shown := WithState(DeliverStatus(w, sub, status), state);
    DeliverStatusKeeps(w, sub, status, state);
    LatestIsSent(shown);
    RunEffectsEventless(shown, effects);
    EventlessKeeps(shown, RunEffects(shown, effects));
  }

  lemma LatestIsSent(w: World)
    requires GetsAreLatest(w)
    ensures SentKnown(w)
  {
    forall id | id in w.c.pending && w.c.pending[id].StatusRequest? ensures id in w.h.sent {
      assert Latest(w, id);
    }
  }

  lemma ActKeepsLatest(w: World, a: Action)
    requires GetsAreLatest(w) && AllEarlier(w.h) && Apart(w.c)
    requires forall s | s in w.h.lastEvent :: s < |w.c.subs|
    ensures GetsAreLatest(Act(w, a))
  {
    LatestIsSent(w);
    hide Eventless, GetsAreLatest, Apart, BeginRefresh, RunEffects, ProjectLiveBrowserEvent;
    if a.StreamEvent? {
      if a.sub < |w.c.subs| && w.c.subs[a.sub].subscribed && w.c.route == w.c.subs[a.sub].threadID {
        var (state, effects) := ProjectLiveBrowserEvent(w.c.state, a.event);
        StreamEventKeeps(w, a.sub, a.status, state, effects);
      }
    } else {
      match a
      case StartRefresh(threadID, opts) => BeginRefreshEventless(w, threadID, opts);
      case LocalChange(projection, effects) => LocalChangeEventless(w, projection, effects);
      case RefreshAnswered(_, _) => RefreshStepEventless(w, a);
      case RefreshFailed(_, _) => RefreshStepEventless(w, a);
      case StartLoadOlder(threadID, before) => StartOlderEventless(w, threadID, before);
      case OlderAnswered(_, _) => OlderStepEventless(w, a);
      case OlderFailed(_, _) => OlderStepEventless(w, a);
      case SetRoute(_) => RouteStepEventless(w, a);
      case ResetForRoute => RouteStepEventless(w, a);
      case Subscribe(threadID, hasStatus) => SubscribeEventless(w, threadID, hasStatus);
      case StreamOpened(sub) => StreamOpenedEventless(w, sub);
      case _ => SubStepEventless(w, a);
      EventlessKeeps(w, Act(w, a));
    }
  }

  lemma LocalChangeEventless(w: World, projection: Projection, effects: seq<Effect>)
    requires SentKnown(w)
    ensures Eventless(w, Act(w, LocalChange(projection, effects)))
  {
    hide RunEffects;
    var shown := WithState(w, w.c.state.(projection := projection));
    assert Eventless(w, shown);
    RunEffectsEventless(shown, effects);
    EventlessChain(w, shown, RunEffects(shown, effects));
  }

  lemma {:induction false} RunKeepsLatest(actions: seq<Action>)
    requires ApartThroughout(actions)
    ensures GetsAreLatest(Run(Initial, actions))
  {
    hide Act, GetsAreLatest, Apart;
    if actions == [] {
      InitialIsLatest();
    } else {
      var before, a := actions[..|actions| - 1], actions[|actions| - 1];
      assert forall n | 0 <= n <= |before| :: actions[..n] == before[..n];
      RunKeepsLatest(before);
      RunInv(before);
      var w := Run(Initial, before);
      assert before[..|before|] == before;
      ActKeepsLatest(w, a);
      TickKeepsLatest(Act(w, a), w.h.clock + 1);
    }
  }

  lemma InitialIsLatest()
    ensures GetsAreLatest(Run(Initial, []))
  {
  }

  lemma TickKeepsLatest(w: World, clock: nat)
    requires GetsAreLatest(w)
    ensures GetsAreLatest(World(w.c, w.h.(clock := clock)))
  {
    var v := World(w.c, w.h.(clock := clock));
    forall id | id in v.c.pending && v.c.pending[id].StatusRequest? ensures Latest(v, id) {
      assert Latest(w, id);
    }
  }

  /** As long as no two subscriptions show the status of one thread together,
      no GET, answered or failed, ever overwrites a status that a later event
      delivered - whatever other threads are subscribed to. */
  lemma StatusNeverOverwritten(actions: seq<Action>, a: Action, s: nat)
    requires ApartThroughout(actions)
    ensures !Overwrites(Run(Initial, actions), a, s)
  {
    hide Run, GetsAreLatest, ApartThroughout;
    var w := Run(Initial, actions);
    if SettlesStatus(w.c, a) {
      RunInv(actions);
      RunKeepsLatest(actions);
      assert RequestSound(w, a.request);
      assert Latest(w, a.request) by { LatestAt(w, a.request); }
    }
  }

  lemma LatestAt(w: World, id: RequestID)
    requires GetsAreLatest(w) && id in w.c.pending && w.c.pending[id].StatusRequest?
    ensures Latest(w, id)
  {
  }

  // ----- and when two of them show one thread's status -----

  lemma RunStep(actions: seq<Action>, a: Action)
    ensures Run(Initial, actions + [a]) == Step(Run(Initial, actions), a)
  {
    assert (actions + [a])[..|actions|] == actions;
  }

  lemma RunThreeMore(actions: seq<Action>, a: Action, b: Action, c: Action)
    ensures Run(Initial, actions + [a, b, c]) == Step(Step(Step(Run(Initial, actions), a), b), c)
  {
    hide Run, Step;
    RunStep(actions, a);
    RunStep(actions + [a], b);
    RunStep(actions + [a] + [b], c);
    assert actions + [a] + [b] + [c] == actions + [a, b, c];
  }

  lemma RouteEffect(w: World, id: string)
    ensures var next := Step(w, SetRoute(id));
      && next.c.route == id && next.c.subs == w.c.subs && next.c.nextRequest == w.c.nextRequest
      && next.h.clock == w.h.clock + 1
  {
  }

  /** Opening the stream of i sends a GET for it. */
  lemma OpenedEffect(w: World, i: nat)
    requires ShowsStatus(w.c, i)
    ensures var next, s := Step(w, StreamOpened(i)), w.c.subs[i];
      && next.c.route == w.c.route && next.h.clock == w.h.clock + 1
      && next.c.subs == w.c.subs[i := s.(refreshGeneration := s.refreshGeneration + 1)]
      && w.c.nextRequest in next.c.pending
      && next.c.pending[w.c.nextRequest] == StatusRequest(i, s.refreshGeneration + 1, s.statusRevision)
      && w.c.nextRequest in next.h.sent && next.h.sent[w.c.nextRequest] == w.h.clock
  {
    hide InputMessageIDs;
  }

  lemma QuietEventEffect(w: World, sub: nat, status: Status)
    requires ShowsStatus(w.c, sub) && w.c.route == w.c.subs[sub].threadID
    ensures var s := w.c.subs[sub];
      var next := Step(w, StreamEvent(sub, BrowserEvent(None, None, OtherEvent), status));
      && next.c == w.c.(subs := w.c.subs[sub := s.(statusRevision := s.statusRevision + 1)],
                        statuses := w.c.statuses[s.threadID := status])
      && next.h == w.h.(lastEvent := w.h.lastEvent[sub := w.h.clock], clock := w.h.clock + 1)
  {
    var event := BrowserEvent(None, None, OtherEvent);
    assert ProjectLiveBrowserEvent(w.c.state, event) == (w.c.state, []);
  }

  /** In any run that ever lets two subscriptions show the status of one
      thread, it can happen next: the stream of one opens and its GET is sent,
      the other delivers a status, and the answer to the GET overwrites it. */
  lemma OverlappingSubscriptionsOverwrite(actions: seq<Action>, i: nat, j: nat, early: Status, late: Status)
    requires var c := Run(Initial, actions).c;
      i != j && ShowsStatus(c, i) && ShowsStatus(c, j) && c.subs[i].threadID == c.subs[j].threadID
    requires early != late
    ensures var c := Run(Initial, actions).c;
      var t := c.subs[i].threadID;
      var w := Run(Initial, actions + [SetRoute(t), StreamOpened(i), StreamEvent(j, BrowserEvent(None, None, OtherEvent), late)]);
      var answer := StatusAnswered(c.nextRequest, early);
      && Overwrites(w, answer, j)
      && ShownStatus(w.c, t) == Some(late) && ShownStatus(Step(w, answer).c, t) == Some(early)
  {
    hide Run, Step;
    var w0 := Run(Initial, actions);
    var t := w0.c.subs[i].threadID;
    var event := StreamEvent(j, BrowserEvent(None, None, OtherEvent), late);
    var w1 := Step(w0, SetRoute(t));
    var w2 := Step(w1, StreamOpened(i));
    var w3 := Step(w2, event);
    RunThreeMore(actions, SetRoute(t), StreamOpened(i), event);
    RouteEffect(w0, t);
    OpenedEffect(w1, i);
    QuietEventEffect(w2, j, late);
    AnswerEffect(w3, w0.c.nextRequest, early);
  }

  lemma AnswerEffect(w: World, id: RequestID, status: Status)
    requires id in w.c.pending && w.c.pending[id].StatusRequest? && StatusApplies(w.c, w.c.pending[id])
    ensures ShownStatus(Step(w, StatusAnswered(id, status)).c, w.c.subs[w.c.pending[id].sub].threadID) == Some(status)
  {
  }
}
