/** The "loading older messages" flag against the requests it stands for. */
module ThreadReadLoading {
  import opened Transcript
  import opened LiveThreadProjection
  import opened ThreadReadState
  import opened ThreadReadProtocol
  import opened ThreadReadSafety

  /** The older-page requests in flight whose answer still counts for the route. */
  function Loads(c: Controller): set<RequestID> {
    set id | id in c.pending && c.pending[id].OlderRequest? && OlderCurrent(c, c.pending[id])
  }

  /** The flag is up exactly while one such request is in flight; there is never
      a second one. */
  ghost predicate Mirrors(c: Controller) {
    if c.state.loadingOlder then exists id :: Loads(c) == {id} else Loads(c) == {}
  }

  predicate NumbersFresh(c: Controller) {
    forall id | id in c.pending :: id < c.nextRequest
  }

  /** The steps that part the two: the route changes, or the state is reset,
      during a load; a load is begun for another thread than the route's; a
      refresh that does not keep the history applies, or one that records its
      failure fails, during a load. */
  predicate Disturbs(c: Controller, a: Action) {
    match a
    case SetRoute(id) => c.route != id && c.state.loadingOlder
    case ResetForRoute => c.state.loadingOlder
    case StartLoadOlder(threadID, before) => before != "" && !c.state.loadingOlder && c.route != threadID
    case RefreshAnswered(id, _) =>
      && c.state.loadingOlder && id in c.pending && c.pending[id].RefreshRequest?
      && RefreshApplies(c, c.pending[id]) && !c.pending[id].opts.preserveLoadedHistory
    case RefreshFailed(id, _) =>
      && c.state.loadingOlder && id in c.pending && c.pending[id].RefreshRequest?
      && RefreshCurrent(c, c.pending[id]) && c.pending[id].opts.recordLoadFailure
    case _ => false
  }

  // ----- what the pieces of a step do to the two -----

  predicate SameLoading(c: Controller, d: Controller) {
    Loads(d) == Loads(c) && d.state.loadingOlder == c.state.loadingOlder
  }

  lemma BeginRefreshKeepsLoading(w: World, threadID: string, opts: LoadOptions)
    requires NumbersFresh(w.c)
    ensures SameLoading(w.c, BeginRefresh(w, threadID, opts).c) && NumbersFresh(BeginRefresh(w, threadID, opts).c)
  {
    hide InputMessageIDs;
  }

  lemma {:induction false} RunEffectsKeepsLoading(w: World, effects: seq<Effect>)
    requires NumbersFresh(w.c)
    ensures SameLoading(w.c, RunEffects(w, effects).c)
    decreases |effects|
  {
    hide BeginRefresh, NumbersFresh, Loads;
    if effects != [] {
      var opts := LoadOptions(effects[0].preserveLiveMessages, effects[0].preserveLoadedHistory, false);
      BeginRefreshKeepsLoading(w, w.c.route, opts);
      RunEffectsKeepsLoading(BeginRefresh(w, w.c.route, opts), effects[1..]);
    }
  }

  lemma SendStatusKeepsLoading(w: World, sub: nat)
    requires NumbersFresh(w.c) && sub < |w.c.subs|
    ensures SameLoading(w.c, SendStatus(w, sub).c) && NumbersFresh(SendStatus(w, sub).c)
  {
  }

  lemma SettleLoads(w: World, id: RequestID)
    ensures Loads(Settle(w, id).c) == Loads(w.c) - {id}
  {
  }

  lemma SendOlderLoads(w: World, threadID: string, before: string, begun: nat)
    requires NumbersFresh(w.c) && w.c.route == threadID
    ensures Loads(SendOlder(w, threadID, before, w.c.routeRevision, begun).c) == Loads(w.c) + {w.c.nextRequest}
  {
  }

  /** Requests for another state of the route do not count. */
  lemma RouteDropsLoads(w: World, id: string)
    requires Inv(w) && w.c.route != id
    ensures Loads(Act(w, SetRoute(id)).c) == {}
  {
    assert forall k | k in w.c.pending :: RequestSound(w, k);
  }

  // ----- step by step -----

  lemma OlderSettledMirrors(w: World, a: Action, id: RequestID)
    requires NumbersFresh(w.c) && Mirrors(w.c) && id in w.c.pending && w.c.pending[id].OlderRequest?
    requires (a.OlderAnswered? || a.OlderFailed?) && a.request == id
    ensures Mirrors(Act(w, a).c)
  {
    hide LoadOlderSucceeded, SendOlder;
    var r := w.c.pending[id];
    var settled := Settle(w, id);
    SettleLoads(w, id);
    if OlderCurrent(w.c, r) {
      assert id in Loads(w.c);
      LoadingIs(w.c, id);
      assert Loads(settled.c) == {};
      if !OlderApplies(w.c, r) {
        SendOlderLoads(settled, r.threadID, r.before, Begun(w.h, id));
        var again := SendOlder(settled, r.threadID, r.before, r.routeVersion, Begun(w.h, id));
        SendKeepsFlag(settled, r.threadID, r.before, r.routeVersion, Begun(w.h, id));
        assert Loads(again.c) == {w.c.nextRequest};
      } else {
        OlderEndsLoading(w.c.state, a);
        assert Loads(Act(w, a).c) == Loads(settled.c);
      }
    } else {
      assert id !in Loads(w.c);
      assert Loads(settled.c) == Loads(w.c);
    }
  }

  lemma OlderEndsLoading(state: ReadState, a: Action)
    ensures a.OlderAnswered? ==> !LoadOlderSucceeded(state, a.page).loadingOlder
    ensures a.OlderFailed? ==> !LoadOlderFailed(state, a.error).loadingOlder
  {
  }

  lemma SendKeepsFlag(w: World, threadID: string, before: string, routeVersion: nat, begun: nat)
    ensures SendOlder(w, threadID, before, routeVersion, begun).c.state == w.c.state
  {
  }

  /** One current request in flight: the flag is up for it. */
  lemma LoadingIs(c: Controller, id: RequestID)
    requires Mirrors(c) && id in Loads(c)
    ensures c.state.loadingOlder && Loads(c) == {id}
  {
  }

  lemma RefreshSettledMirrors(w: World, a: Action, id: RequestID)
    requires NumbersFresh(w.c) && Mirrors(w.c) && id in w.c.pending && w.c.pending[id].RefreshRequest?
    requires (a.RefreshAnswered? || a.RefreshFailed?) && a.request == id
    ensures Mirrors(Act(w, a).c) <==> !Disturbs(w.c, a)
  {
    hide InputMessageIDs;
    var settled := Settle(w, id);
    SettleLoads(w, id);
    assert Loads(settled.c) == Loads(w.c);
    assert Loads(Act(w, a).c) == Loads(w.c);
  }

  lemma StartedMirrors(w: World, threadID: string, before: string)
    requires NumbersFresh(w.c) && Mirrors(w.c)
    ensures Mirrors(Act(w, StartLoadOlder(threadID, before)).c) <==> !Disturbs(w.c, StartLoadOlder(threadID, before))
  {
    hide SendOlder;
    if before != "" && !w.c.state.loadingOlder {
      var started := WithState(w, LoadOlderStarted(w.c.state));
      assert Loads(started.c) == {};
      if w.c.route == threadID {
        SendOlderLoads(started, threadID, before, w.h.clock);
        SendKeepsFlag(started, threadID, before, w.c.routeRevision, w.h.clock);
        assert {} + {w.c.nextRequest} == {w.c.nextRequest};
      }
    }
  }

  lemma RouteMirrors(w: World, id: string)
    requires Inv(w) && Mirrors(w.c)
    ensures Mirrors(Act(w, SetRoute(id)).c) <==> !Disturbs(w.c, SetRoute(id))
  {
    if w.c.route != id { RouteDropsLoads(w, id); }
  }

  lemma SubStepKeepsLoading(w: World, a: Action)
    requires NumbersFresh(w.c)
    requires a.Subscribe? || a.Unsubscribe? || a.StreamOpened? || a.StreamError?
    ensures SameLoading(w.c, Act(w, a).c)
  {
    hide BeginRefresh, SendStatus;
    if a.Subscribe? {
      var grown := World(w.c.(subs := w.c.subs + [Subscription(a.threadID, a.hasStatus, true, 0, 0)]), w.h);
      assert Loads(grown.c) == Loads(w.c);
      SendStatusKeepsLoading(grown, |w.c.subs|);
    } else if a.StreamOpened? {
      if a.sub < |w.c.subs| {
        SendStatusKeepsLoading(w, a.sub);
        BeginRefreshKeepsLoading(SendStatus(w, a.sub), w.c.subs[a.sub].threadID, LoadOptions(true, true, false));
      }
    } else {
      assert Loads(Act(w, a).c) == Loads(w.c);
    }
  }

  lemma StatusKeepsLoading(w: World, a: Action)
    requires a.StatusAnswered? || a.StatusFailed?
    ensures SameLoading(w.c, Act(w, a).c)
  {
    hide StatusApplies;
    assert Loads(Act(w, a).c) == Loads(w.c);
  }

  lemma ShownKeepsLoading(w: World, v: World, effects: seq<Effect>)
    requires NumbersFresh(w.c) && v.c.pending == w.c.pending && v.c.nextRequest == w.c.nextRequest
    requires v.c.route == w.c.route && v.c.routeRevision == w.c.routeRevision
    requires v.c.state.loadingOlder == w.c.state.loadingOlder
    ensures SameLoading(w.c, RunEffects(v, effects).c)
  {
    hide RunEffects;
    assert Loads(v.c) == Loads(w.c);
    RunEffectsKeepsLoading(v, effects);
  }

  lemma EventKeepsFlag(state: ReadState, event: BrowserEvent)
    ensures ProjectLiveBrowserEvent(state, event).0.loadingOlder == state.loadingOlder
  {
    hide ProjectLiveThreadEvent, AlreadyLoaded;
  }

  lemma EventKeepsLoading(w: World, sub: nat, event: BrowserEvent, status: Status)
    requires NumbersFresh(w.c)
    ensures SameLoading(w.c, Act(w, StreamEvent(sub, event, status)).c)
  {
    hide RunEffects, ProjectLiveBrowserEvent;
    if sub < |w.c.subs| && w.c.subs[sub].subscribed && w.c.route == w.c.subs[sub].threadID {
      EventKeepsFlag(w.c.state, event);
      var (state, effects) := ProjectLiveBrowserEvent(w.c.state, event);
      ShownKeepsLoading(w, WithState(DeliverStatus(w, sub, status), state), effects);
    }
  }

  lemma OtherStepKeepsLoading(w: World, a: Action)
    requires NumbersFresh(w.c)
    requires a.StartRefresh? || a.Subscribe? || a.Unsubscribe? || a.StreamOpened? || a.StreamEvent? || a.StreamError?
      || a.StatusAnswered? || a.StatusFailed? || a.LocalChange?
    ensures SameLoading(w.c, Act(w, a).c)
  {
    hide Loads, NumbersFresh, BeginRefresh, RunEffects;
    match a
    case StartRefresh(threadID, opts) => BeginRefreshKeepsLoading(w, threadID, opts);
    case StreamEvent(sub, event, status) => EventKeepsLoading(w, sub, event, status);
    case LocalChange(projection, effects) =>
      ShownKeepsLoading(w, WithState(w, w.c.state.(projection := projection)), effects);
    case StatusAnswered(_, _) => StatusKeepsLoading(w, a);
    case StatusFailed(_) => StatusKeepsLoading(w, a);
    case _ => SubStepKeepsLoading(w, a);
  }

  lemma InvNumbers(w: World)
    requires Inv(w)
    ensures NumbersFresh(w.c)
  {
    assert forall id | id in w.c.pending :: RequestSound(w, id);
  }

  /** While flag and request agree, a step parts them if and only if it is one
      of the disturbing ones. */
  lemma PartedIff(actions: seq<Action>, a: Action)
    requires Mirrors(Run(Initial, actions).c)
    ensures Mirrors(Step(Run(Initial, actions), a).c) <==> !Disturbs(Run(Initial, actions).c, a)
  {
    RunInv(actions);
    StepMirrors(Run(Initial, actions), a);
  }

  lemma StepMirrors(w: World, a: Action)
    requires Inv(w) && Mirrors(w.c)
    ensures Mirrors(Act(w, a).c) <==> !Disturbs(w.c, a)
  {
    InvNumbers(w);
    hide Inv, NumbersFresh, Loads, RefreshApplies, RefreshCurrent;
    match a
    case SetRoute(id) => RouteMirrors(w, id);
    case ResetForRoute => ResetMirrors(w);
    case StartLoadOlder(threadID, before) => StartedMirrors(w, threadID, before);
    case RefreshAnswered(id, _) =>
      if id in w.c.pending && w.c.pending[id].RefreshRequest? { RefreshSettledMirrors(w, a, id); }
    case RefreshFailed(id, _) =>
      if id in w.c.pending && w.c.pending[id].RefreshRequest? { RefreshSettledMirrors(w, a, id); }
    case OlderAnswered(id, _) =>
      if id in w.c.pending && w.c.pending[id].OlderRequest? { OlderSettledMirrors(w, a, id); }
    case OlderFailed(id, _) =>
      if id in w.c.pending && w.c.pending[id].OlderRequest? { OlderSettledMirrors(w, a, id); }
    case _ => OtherStepKeepsLoading(w, a);
  }

  lemma ResetMirrors(w: World)
    requires Mirrors(w.c)
    ensures Mirrors(Act(w, ResetForRoute).c) <==> !w.c.state.loadingOlder
  {
    assert Loads(Act(w, ResetForRoute).c) == Loads(w.c);
  }

  predicate Undisturbed(actions: seq<Action>) {
    forall n | 0 <= n < |actions| :: !Disturbs(Run(Initial, actions[..n]).c, actions[n])
  }

  /** In every run without such a step, the flag is up exactly while one
      older-page request of the current route is in flight. */
  lemma {:induction false} LoadingMirrors(actions: seq<Action>)
    requires Undisturbed(actions)
    ensures Mirrors(Run(Initial, actions).c)
    decreases |actions|
  {
    if actions == [] {
      assert Loads(Initial.c) == {};
    } else {
      hide Act, Mirrors, Disturbs;
      var before := actions[..|actions| - 1];
      assert forall n | 0 <= n < |before| :: actions[..n] == before[..n];
      LoadingMirrors(before);
      PartedIff(before, actions[|actions| - 1]);
    }
  }

  /** A reset right after the route changed puts them together again, whatever
      was in flight. */
  lemma RouteChangeRestores(actions: seq<Action>, id: string)
    requires Run(Initial, actions).c.route != id
    ensures Mirrors(Step(Step(Run(Initial, actions), SetRoute(id)), ResetForRoute).c)
  {
    hide Run;
    var w := Run(Initial, actions);
    RunInv(actions);
    RouteDropsLoads(w, id);
    var changed := Step(w, SetRoute(id));
    assert Loads(Step(changed, ResetForRoute).c) == Loads(changed.c);
  }
}
