/** The protocol of one open thread: refreshes, older-page loads, status GETs
    and stream events in flight together. Every operation is cut where it
    awaits an answer; the requests in flight are part of the state and may be
    answered in any order, or never. */
module ThreadReadProtocol {
  import opened Transcript
  import opened LiveThreadProjection
  import opened ThreadReadState

  type Status = string
  type RequestID = nat

  datatype Request =
    | RefreshRequest(threadID: string, opts: LoadOptions, revision: nat, routeVersion: nat,
                     loadedRevision: nat, inputMessageIDs: seq<string>)
    | OlderRequest(threadID: string, before: string, routeVersion: nat, revision: nat)
    | StatusRequest(sub: nat, generation: nat, statusVersion: nat)

  /** The variables one subscribeLiveEvents call closes over. */
  datatype Subscription = Subscription(
    threadID: string, hasStatus: bool, subscribed: bool, statusRevision: nat, refreshGeneration: nat)

  datatype Controller = Controller(
    state: ReadState,
    route: string,
    routeRevision: nat,
    historyRevision: nat,
    loadedHistoryRevision: nat,
    subs: seq<Subscription>,
    statuses: map<string, Status>,
    pending: map<RequestID, Request>,
    nextRequest: RequestID)

  /** What has happened so far, for stating properties: no step reads it. Times
      count steps. `begun` is when the operation behind a request was called,
      `sent` when that request was last sent. */
  datatype History = History(
    clock: nat,
    routeChanged: nat,
    refreshBegun: nat,
    begun: map<RequestID, nat>,
    sent: map<RequestID, nat>,
    lastEvent: map<nat, nat>,
    applied: seq<nat>)

  datatype World = World(c: Controller, h: History)

  datatype Action =
    | SetRoute(id: string)
    | ResetForRoute
    | StartRefresh(threadID: string, opts: LoadOptions)
    | RefreshAnswered(request: RequestID, page: Page)
    | RefreshFailed(request: RequestID, error: string)
    | StartLoadOlder(threadID: string, before: string)
    | OlderAnswered(request: RequestID, page: Page)
    | OlderFailed(request: RequestID, error: string)
    | Subscribe(threadID: string, hasStatus: bool)
    | Unsubscribe(sub: nat)
    | StreamOpened(sub: nat)
    | StreamEvent(sub: nat, event: BrowserEvent, status: Status)
    | StreamError(sub: nat)
    | StatusAnswered(request: RequestID, status: Status)
    | StatusFailed(request: RequestID)
    | LocalChange(projection: Projection, effects: seq<Effect>)

  const Initial := World(
    Controller(InitialReadState, "", 0, 0, 0, [], map[], map[], 0),
    History(1, 0, 0, map[], map[], map[], []))

  // ----- sending requests -----

  /** The ids of the user's messages. */
  function UserIDs(ms: seq<Message>): seq<string> {
    if ms == [] then []
    else (if ms[0].role.User? && Truthy(ms[0].id) then [ms[0].id.value] else []) + UserIDs(ms[1..])
  }

  function InputMessageIDs(state: ReadState, threadID: string, opts: LoadOptions): seq<string> {
    if opts.preserveLoadedHistory && state.data.Some? && state.data.value.id == threadID
    then UserIDs(state.data.value.messages + if opts.preserveLiveMessages then state.projection.messages else [])
    else []
  }

  function Send(w: World, request: Request, begun: nat): World {
    var id := w.c.nextRequest;
    World(w.c.(pending := w.c.pending[id := request], nextRequest := id + 1),
          w.h.(begun := w.h.begun[id := begun], sent := w.h.sent[id := w.h.clock]))
  }

  function SendRefresh(w: World, threadID: string, opts: LoadOptions, revision: nat, routeVersion: nat, begun: nat): World {
    Send(w, RefreshRequest(threadID, opts, revision, routeVersion, w.c.loadedHistoryRevision,
                           InputMessageIDs(w.c.state, threadID, opts)), begun)
  }

  function BeginRefresh(w: World, threadID: string, opts: LoadOptions): World {
    if threadID == "" then w
    else
      var revision := w.c.historyRevision + 1;
      SendRefresh(World(w.c.(historyRevision := revision), w.h.(refreshBegun := w.h.clock)),
                  threadID, opts, revision, w.c.routeRevision, w.h.clock)
  }

  function RunEffects(w: World, effects: seq<Effect>): (r: World)
    ensures r.h.clock == w.h.clock
    decreases |effects|
  {
    if effects == [] then w
    else RunEffects(BeginRefresh(w, w.c.route, LoadOptions(effects[0].preserveLiveMessages, effects[0].preserveLoadedHistory, false)),
                    effects[1..])
  }

  function SendStatus(w: World, sub: nat): World
    requires sub < |w.c.subs|
  {
    var s := w.c.subs[sub];
    if !s.hasStatus then w
    else
      var generation := s.refreshGeneration + 1;
      Send(World(w.c.(subs := w.c.subs[sub := s.(refreshGeneration := generation)]), w.h),
           StatusRequest(sub, generation, s.statusRevision), w.h.clock)
  }

  // ----- answers -----

  function Settle(w: World, id: RequestID): World {
    World(w.c.(pending := w.c.pending - {id}), w.h)
  }

  function WithState(w: World, state: ReadState): World {
    World(w.c.(state := state), w.h)
  }

  /** An answer to a refresh counts only in its route epoch, on its route, and
      while no later refresh has started. */
  predicate RefreshCurrent(c: Controller, r: Request)
    requires r.RefreshRequest?
  {
    r.routeVersion == c.routeRevision && c.route == r.threadID && r.revision == c.historyRevision
  }

  predicate RefreshApplies(c: Controller, r: Request)
    requires r.RefreshRequest?
  {
    RefreshCurrent(c, r) && !(r.opts.preserveLoadedHistory && r.loadedRevision != c.loadedHistoryRevision)
  }

  predicate OlderCurrent(c: Controller, r: Request)
    requires r.OlderRequest?
  {
    r.routeVersion == c.routeRevision && c.route == r.threadID
  }

  predicate OlderApplies(c: Controller, r: Request)
    requires r.OlderRequest?
  {
    OlderCurrent(c, r) && r.revision == c.historyRevision
  }

  predicate StatusApplies(c: Controller, r: Request)
    requires r.StatusRequest?
  {
    r.sub < |c.subs| &&
    var s := c.subs[r.sub];
    s.subscribed && c.route == s.threadID && r.generation == s.refreshGeneration && r.statusVersion == s.statusRevision
  }

  function SendOlder(w: World, threadID: string, before: string, routeVersion: nat, begun: nat): World {
    Send(w, OlderRequest(threadID, before, routeVersion, w.c.historyRevision), begun)
  }

  function Begun(h: History, id: RequestID): nat {
    if id in h.begun then h.begun[id] else 0
  }

  /** A stream event brings its own status, and outdates the GETs in flight. */
  function DeliverStatus(w: World, sub: nat, status: Status): World
    requires sub < |w.c.subs|
  {
    var s := w.c.subs[sub];
    World(w.c.(subs := w.c.subs[sub := s.(statusRevision := s.statusRevision + 1)],
               statuses := if s.hasStatus then w.c.statuses[s.threadID := status] else w.c.statuses),
          w.h.(lastEvent := w.h.lastEvent[sub := w.h.clock]))
  }

  /** One step. An action whose request is not in flight, or whose subscription
      does not exist, changes nothing. */
  function Act(w: World, a: Action): World {
    var c := w.c;
    match a
    case SetRoute(id) =>
      if c.route == id then w
      else World(c.(route := id, routeRevision := c.routeRevision + 1), w.h.(routeChanged := w.h.clock))
    case ResetForRoute =>
      WithState(w, ReadState(None, None, EmptyProjection, false, None))
    case StartRefresh(threadID, opts) => BeginRefresh(w, threadID, opts)
    case RefreshAnswered(id, page) =>
      if id !in c.pending || !c.pending[id].RefreshRequest? then w
      else
        var r := c.pending[id];
        var settled := Settle(w, id);
        if !RefreshCurrent(c, r) then settled
        else if !RefreshApplies(c, r) then SendRefresh(settled, r.threadID, r.opts, r.revision, r.routeVersion, Begun(w.h, id))
        else World(settled.c.(state := ThreadLoaded(c.state, page, r.opts)), w.h.(applied := w.h.applied + [r.revision]))
    case RefreshFailed(id, error) =>
      if id !in c.pending || !c.pending[id].RefreshRequest? then w
      else
        var r := c.pending[id];
        if !RefreshCurrent(c, r) || !r.opts.recordLoadFailure then Settle(w, id)
        else WithState(Settle(w, id), ThreadLoadFailed(c.state, error))
    case StartLoadOlder(threadID, before) =>
      if before == "" || c.state.loadingOlder then w
      else
        var started := WithState(w, LoadOlderStarted(c.state));
        if c.route != threadID then started
        else SendOlder(started, threadID, before, c.routeRevision, w.h.clock)
    case OlderAnswered(id, page) =>
      if id !in c.pending || !c.pending[id].OlderRequest? then w
      else
        var r := c.pending[id];
        var settled := Settle(w, id);
        if !OlderCurrent(c, r) then settled
        else if !OlderApplies(c, r) then SendOlder(settled, r.threadID, r.before, r.routeVersion, Begun(w.h, id))
        else World(settled.c.(loadedHistoryRevision := c.loadedHistoryRevision + 1,
                              state := LoadOlderSucceeded(c.state, page)), w.h)
    case OlderFailed(id, error) =>
      if id !in c.pending || !c.pending[id].OlderRequest? then w
      else
        var r := c.pending[id];
        var settled := Settle(w, id);
        if !OlderCurrent(c, r) then settled
        else if !OlderApplies(c, r) then SendOlder(settled, r.threadID, r.before, r.routeVersion, Begun(w.h, id))
        else WithState(settled, LoadOlderFailed(c.state, error))
    case Subscribe(threadID, hasStatus) =>
      SendStatus(World(c.(subs := c.subs + [Subscription(threadID, hasStatus, true, 0, 0)]), w.h), |c.subs|)
    case Unsubscribe(sub) =>
      if sub >= |c.subs| then w
      else
        var s := c.subs[sub];
        World(c.(subs := c.subs[sub := s.(subscribed := false, refreshGeneration := s.refreshGeneration + 1)],
                 statuses := if s.hasStatus then c.statuses - {s.threadID} else c.statuses), w.h)
    case StreamOpened(sub) =>
      if sub >= |c.subs| then w
      else BeginRefresh(SendStatus(w, sub), c.subs[sub].threadID, LoadOptions(true, true, false))
    case StreamEvent(sub, event, status) =>
      if sub >= |c.subs| || !c.subs[sub].subscribed || c.route != c.subs[sub].threadID then w
      else
        var (state, effects) := ProjectLiveBrowserEvent(c.state, event);
        RunEffects(WithState(DeliverStatus(w, sub, status), state), effects)
    case StreamError(sub) =>
      if sub >= |c.subs| || !c.subs[sub].subscribed || c.route != c.subs[sub].threadID then w
      else
        var s := c.subs[sub];
        World(c.(subs := c.subs[sub := s.(statusRevision := s.statusRevision + 1)],
                 statuses := if s.hasStatus then c.statuses - {s.threadID} else c.statuses), w.h)
    case StatusAnswered(id, status) =>
      if id !in c.pending || !c.pending[id].StatusRequest? then w
      else
        var r := c.pending[id];
        if !StatusApplies(c, r) then Settle(w, id)
        else
          var s := c.subs[r.sub];
          World(Settle(w, id).c.(subs := c.subs[r.sub := s.(statusRevision := s.statusRevision + 1)],
                                 statuses := c.statuses[s.threadID := status]), w.h)
    case StatusFailed(id) =>
      if id !in c.pending || !c.pending[id].StatusRequest? then w
      else
        var r := c.pending[id];
        if !StatusApplies(c, r) then Settle(w, id)
        else World(Settle(w, id).c.(statuses := c.statuses - {c.subs[r.sub].threadID}), w.h)
    case LocalChange(projection, effects) =>
      RunEffects(WithState(w, c.state.(projection := projection)), effects)
  }

  function Step(w: World, a: Action): World {
    var next := Act(w, a);
    World(next.c, next.h.(clock := w.h.clock + 1))
  }

  function Run(w: World, actions: seq<Action>): World {
    if actions == [] then w
    else Step(Run(w, actions[..|actions| - 1]), actions[|actions| - 1])
  }
}
