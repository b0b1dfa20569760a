/** The controller as it runs: one object whose fields every callback updates.
    Each method is one callback, from one await to the next, and does to the
    object exactly what its step of the protocol does. */
module ThreadReadController {
  import opened Transcript
  import opened LiveThreadProjection
  import opened ThreadReadState
  import P = ThreadReadProtocol

  class Controller {
    var state: ReadState
    var route: string
    var routeRevision: nat
    var historyRevision: nat
    var loadedHistoryRevision: nat
    var subs: seq<P.Subscription>
    var statuses: map<string, P.Status>
    var pending: map<P.RequestID, P.Request>
    var nextRequest: P.RequestID
    ghost var history: P.History

    ghost function View(): P.World
      reads this
    {
      P.World(P.Controller(state, route, routeRevision, historyRevision, loadedHistoryRevision,
                           subs, statuses, pending, nextRequest), history)
    }

    constructor ()
      ensures View() == P.Initial
    {
      state, route := InitialReadState, "";
      routeRevision, historyRevision, loadedHistoryRevision := 0, 0, 0;
      subs, statuses, pending, nextRequest := [], map[], map[], 0;
      history := P.Initial.h;
    }

    ghost method Tick()
      modifies this`history
      ensures history == old(history).(clock := old(history).clock + 1)
    {
      history := history.(clock := history.clock + 1);
    }

    method Send(request: P.Request, ghost begun: nat)
      modifies this`pending, this`nextRequest, this`history
      ensures View() == P.Send(old(View()), request, begun)
    {
      history := history.(begun := history.begun[nextRequest := begun],
                          sent := history.sent[nextRequest := history.clock]);
      pending := pending[nextRequest := request];
      nextRequest := nextRequest + 1;
    }

    // ----- refresh -----

    method RequestThread(threadID: string, opts: LoadOptions, revision: nat, routeVersion: nat, ghost begun: nat)
      modifies this`pending, this`nextRequest, this`history
      ensures View() == P.SendRefresh(old(View()), threadID, opts, revision, routeVersion, begun)
    {
      var loadedRevision := loadedHistoryRevision;
      var inputMessageIDs := P.InputMessageIDs(state, threadID, opts);
      Send(P.RefreshRequest(threadID, opts, revision, routeVersion, loadedRevision, inputMessageIDs), begun);
    }

    method BeginRefresh(threadID: string, opts: LoadOptions)
      modifies this`historyRevision, this`pending, this`nextRequest, this`history
      ensures View() == P.BeginRefresh(old(View()), threadID, opts)
    {
      if threadID == "" { return; }
      historyRevision := historyRevision + 1;
      history := history.(refreshBegun := history.clock);
      RequestThread(threadID, opts, historyRevision, routeRevision, history.clock);
    }

    method Refresh(threadID: string, opts: LoadOptions)
      modifies this
      ensures View() == P.Step(old(View()), P.StartRefresh(threadID, opts))
    {
      BeginRefresh(threadID, opts);
      Tick();
    }

    method RefreshAnswered(id: P.RequestID, page: Page)
      requires id in pending && pending[id].RefreshRequest?
      modifies this
      ensures View() == P.Step(old(View()), P.RefreshAnswered(id, page))
    {
      var r := pending[id];
      pending := pending - {id};
      if r.routeVersion != routeRevision || route != r.threadID || r.revision != historyRevision {
        Tick();
        return;
      }
      // Pagination finished while this request was in flight: ask again.
      if r.opts.preserveLoadedHistory && r.loadedRevision != loadedHistoryRevision {
        RequestThread(r.threadID, r.opts, r.revision, r.routeVersion, P.Begun(history, id));
        Tick();
        return;
      }
      state := ThreadLoaded(state, page, r.opts);
      history := history.(applied := history.applied + [r.revision]);
      Tick();
    }

    method RefreshFailed(id: P.RequestID, error: string)
      requires id in pending && pending[id].RefreshRequest?
      modifies this
      ensures View() == P.Step(old(View()), P.RefreshFailed(id, error))
    {
      var r := pending[id];
      pending := pending - {id};
      if r.routeVersion == routeRevision && route == r.threadID && r.revision == historyRevision {
        if r.opts.recordLoadFailure {
          state := ThreadLoadFailed(state, error);
        }
      }
      Tick();
    }

    method RunThreadReadEffects(effects: seq<Effect>)
      modifies this`historyRevision, this`pending, this`nextRequest, this`history
      ensures View() == P.RunEffects(old(View()), effects)
    {
      var i := 0;
      assert effects[0..] == effects;
      while i < |effects|
        invariant 0 <= i <= |effects|
        invariant unchanged(this`state, this`route, this`routeRevision, this`loadedHistoryRevision, this`subs, this`statuses)
        invariant P.RunEffects(View(), effects[i..]) == P.RunEffects(old(View()), effects)
      {
        assert effects[i..][1..] == effects[i + 1..];
        BeginRefresh(route, LoadOptions(effects[i].preserveLiveMessages, effects[i].preserveLoadedHistory, false));
        i := i + 1;
      }
    }

    /** The result of a submission or a hint: a new projection and its effects. */
    method RunThreadReadResult(projection: Projection, effects: seq<Effect>)
      modifies this
      ensures View() == P.Step(old(View()), P.LocalChange(projection, effects))
    {
      state := state.(projection := projection);
      RunThreadReadEffects(effects);
      Tick();
    }

    // ----- older pages -----

    method LoadOlderMessages(threadID: string, before: string)
      modifies this
      ensures View() == P.Step(old(View()), P.StartLoadOlder(threadID, before))
    {
      if before != "" && !state.loadingOlder {
        var routeVersion := routeRevision;
        state := LoadOlderStarted(state);
        if route == threadID {
          Send(P.OlderRequest(threadID, before, routeVersion, historyRevision), history.clock);
        }
      }
      Tick();
    }

    method OlderAnswered(id: P.RequestID, page: Page)
      requires id in pending && pending[id].OlderRequest?
      modifies this
      ensures View() == P.Step(old(View()), P.OlderAnswered(id, page))
    {
      var r := pending[id];
      pending := pending - {id};
      if r.routeVersion == routeRevision && route == r.threadID {
        if r.revision != historyRevision {
          Send(P.OlderRequest(r.threadID, r.before, r.routeVersion, historyRevision), P.Begun(history, id));
        } else {
          loadedHistoryRevision := loadedHistoryRevision + 1;
          state := LoadOlderSucceeded(state, page);
        }
      }
      Tick();
    }

    method OlderFailed(id: P.RequestID, error: string)
      requires id in pending && pending[id].OlderRequest?
      modifies this
      ensures View() == P.Step(old(View()), P.OlderFailed(id, error))
    {
      var r := pending[id];
      pending := pending - {id};
      if r.routeVersion == routeRevision && route == r.threadID {
        if r.revision != historyRevision {
          Send(P.OlderRequest(r.threadID, r.before, r.routeVersion, historyRevision), P.Begun(history, id));
        } else {
          state := LoadOlderFailed(state, error);
        }
      }
      Tick();
    }

    // ----- routes -----

    method SetRoute(id: string)
      modifies this
      ensures View() == P.Step(old(View()), P.SetRoute(id))
    {
      if route != id {
        routeRevision := routeRevision + 1;
        history := history.(routeChanged := history.clock);
      }
      route := id;
      Tick();
    }

    method ResetForRoute()
      modifies this
      ensures View() == P.Step(old(View()), P.ResetForRoute)
    {
      state := ReadState(None, None, EmptyProjection, false, None);
      Tick();
    }

    // ----- live events -----

    method RefreshStatus(sub: nat)
      requires sub < |subs|
      modifies this`subs, this`pending, this`nextRequest, this`history
      ensures View() == P.SendStatus(old(View()), sub)
    {
      var s := subs[sub];
      if !s.hasStatus { return; }
      var generation := s.refreshGeneration + 1;
      subs := subs[sub := s.(refreshGeneration := generation)];
      Send(P.StatusRequest(sub, generation, s.statusRevision), history.clock);
    }

    method SubscribeLiveEvents(threadID: string, hasStatus: bool)
      modifies this
      ensures View() == P.Step(old(View()), P.Subscribe(threadID, hasStatus))
    {
      subs := subs + [P.Subscription(threadID, hasStatus, true, 0, 0)];
      RefreshStatus(|subs| - 1);
      Tick();
    }

    method Unsubscribe(sub: nat)
      requires sub < |subs|
      modifies this
      ensures View() == P.Step(old(View()), P.Unsubscribe(sub))
    {
      var s := subs[sub];
      subs := subs[sub := s.(subscribed := false, refreshGeneration := s.refreshGeneration + 1)];
      if s.hasStatus {
        statuses := statuses - {s.threadID};
      }
      Tick();
    }

    method OnOpen(sub: nat)
      requires sub < |subs|
      modifies this
      ensures View() == P.Step(old(View()), P.StreamOpened(sub))
    {
      RefreshStatus(sub);
      BeginRefresh(subs[sub].threadID, LoadOptions(true, true, false));
      Tick();
    }

    method Deliver(sub: nat, status: P.Status, next: ReadState, effects: seq<Effect>)
      requires sub < |subs|
      modifies this
      ensures View() == P.RunEffects(P.WithState(P.DeliverStatus(old(View()), sub, status), next), effects)
    {
      var s := subs[sub];
      subs := subs[sub := s.(statusRevision := s.statusRevision + 1)];
      if s.hasStatus {
        statuses := statuses[s.threadID := status];
      }
      history := history.(lastEvent := history.lastEvent[sub := history.clock]);
      state := next;
      RunThreadReadEffects(effects);
    }

    method OnEvent(sub: nat, event: BrowserEvent, status: P.Status)
      requires sub < |subs|
      modifies this
      ensures View() == P.Step(old(View()), P.StreamEvent(sub, event, status))
    {
      if subs[sub].subscribed && route == subs[sub].threadID {
        var (next, effects) := ProjectLiveBrowserEvent(state, event);
        Deliver(sub, status, next, effects);
      }
      Tick();
    }

    method OnError(sub: nat)
      requires sub < |subs|
      modifies this
      ensures View() == P.Step(old(View()), P.StreamError(sub))
    {
      var s := subs[sub];
      if s.subscribed && route == s.threadID {
        subs := subs[sub := s.(statusRevision := s.statusRevision + 1)];
        if s.hasStatus {
          statuses := statuses - {s.threadID};
        }
      }
      Tick();
    }

    method StatusAnswered(id: P.RequestID, status: P.Status)
      requires id in pending && pending[id].StatusRequest? && pending[id].sub < |subs|
      modifies this
      ensures View() == P.Step(old(View()), P.StatusAnswered(id, status))
    {
      var r := pending[id];
      pending := pending - {id};
      var s := subs[r.sub];
      if s.subscribed && route == s.threadID && r.generation == s.refreshGeneration && r.statusVersion == s.statusRevision {
        subs := subs[r.sub := s.(statusRevision := s.statusRevision + 1)];
        statuses := statuses[s.threadID := status];
      }
      Tick();
    }

    method StatusFailed(id: P.RequestID)
      requires id in pending && pending[id].StatusRequest? && pending[id].sub < |subs|
      modifies this
      ensures View() == P.Step(old(View()), P.StatusFailed(id))
    {
      var r := pending[id];
      pending := pending - {id};
      var s := subs[r.sub];
      if s.subscribed && route == s.threadID && r.generation == s.refreshGeneration && r.statusVersion == s.statusRevision {
        statuses := statuses - {s.threadID};
      }
      Tick();
    }
  }
}
