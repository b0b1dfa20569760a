/** The lifecycle operations of one Fleet manager. Everything a manager sees of
    the world may have changed since it last looked: each call into the system
    first lets the other actors run. */
module FleetLifecycle {
  import opened Transcript
  import opened FleetRecords
  import opened FleetStatus
  import opened FleetWorld

  datatype Failure = Conflict | NotFound | Busy | Cancelled | Other

  datatype Outcome = Ok(status: AgentStatus) | Err(failure: Failure)

  datatype RuntimeRead = Missing | Unreadable | Found(record: Record)

  datatype Maintenance = Free | AlreadyRunning | MaintenanceFailed

  // ----- restarts -----

  datatype ActivityState = NoActivity | Idle | Working | OtherActivity
  datatype TurnState = Errored | TurnCancelled | OtherTurnState

  datatype Activity = Activity(threadID: string, turnID: string, state: ActivityState, turnState: TurnState, errorKind: string)

  const RUNTIME_RESTART := "runtime_restart"

  datatype Resume = Resume(required: bool, sent: bool, threadID: string, turnID: string, failed: bool)

  const NoResume := Resume(false, false, "", "", false)

  /** The turn a restart interrupted: one at work, or one that had failed. */
  predicate Interrupted(a: Activity) {
    a.state.Working? || (a.state.Idle? && a.turnState.Errored?)
  }

  /** What the replacement must report of that turn. */
  predicate Confirms(actual: Activity, expected: Activity) {
    && actual.threadID == expected.threadID && actual.turnID == expected.turnID
    && actual.state.Idle?
    && (if expected.turnState.Errored?
        then actual.turnState.Errored? && actual.errorKind == expected.errorKind
        else actual.turnState.TurnCancelled? && actual.errorKind == RUNTIME_RESTART)
  }

  /** A continuation that was posted, and what was known when it was. */
  datatype Continuation = Continuation(
    agent: AgentID, record: Record, threadID: string, turnID: string,
    replacement: Health, acknowledged: bool, interrupted: Activity, reported: Activity)

  predicate Justified(c: Continuation) {
    && c.replacement.Healthy? && c.acknowledged
    && Interrupted(c.interrupted) && Confirms(c.reported, c.interrupted)
    && c.threadID == c.interrupted.threadID && c.turnID == c.interrupted.turnID
  }

  /** What an operation keeps while it holds the agent's lock. */
  predicate Kept(w: World, w': World, me: Actor, agent: AgentID) {
    && Later(w, w')
    && (Holds(w, me, agent) ==> Holds(w', me, agent))
    && (Maintains(w, me, agent) ==> Maintains(w', me, agent))
    && (Holds(w, me, agent) && agent in w.registry ==>
          agent in w'.registry && w'.registry[agent] == w.registry[agent])
  }

  /** What an actor spawned in a run, and for what cause. */
  function Spawns(run: seq<Step>, me: Actor): seq<(AgentID, Cause)> {
    if run == [] then []
    else
      var s := run[|run| - 1];
      Spawns(run[..|run| - 1], me) + if s.actor == me && s.action.Spawn? then [(s.action.agent, s.action.cause)] else []
  }

  lemma {:induction false} SpawnsConcat(a: seq<Step>, b: seq<Step>, me: Actor)
    ensures Spawns(a + b, me) == Spawns(a, me) + Spawns(b, me)
    decreases |b|
  {
    if b == [] {
      assert a + b == a;
    } else {
      assert (a + b)[..|a + b| - 1] == a + b[..|b| - 1];
      SpawnsConcat(a, b[..|b| - 1], me);
    }
  }

  lemma {:induction false} OthersSpawnNothing(run: seq<Step>, me: Actor)
    requires forall k | 0 <= k < |run| :: run[k].actor != me
    ensures Spawns(run, me) == []
    decreases |run|
  {
    if run != [] { OthersSpawnNothing(run[..|run| - 1], me); }
  }

  lemma SeenFirst(w: World, run: seq<Step>, me: Actor, agent: AgentID, sign: Sign)
    requires run != [] && Enabled(w, run[0])
    ensures Seen(w, run, me, agent, sign)
      == (if SignOf(w, run[0], me, agent) == Some(sign) then 1 else 0) + Seen(Apply(w, run[0]), run[1..], me, agent, sign)
  {
    hide Enabled, Apply, SignOf;
  }

  lemma {:induction false} SeenConcat(w: World, a: seq<Step>, b: seq<Step>, me: Actor, agent: AgentID, sign: Sign)
    requires ValidRun(w, a) && ValidRun(After(w, a), b)
    ensures ValidRun(w, a + b)
    ensures Seen(w, a + b, me, agent, sign) == Seen(w, a, me, agent, sign) + Seen(After(w, a), b, me, agent, sign)
    decreases |a|
  {
    hide Enabled, Apply, SignOf;
    RunJoin(w, a, b);
    if a == [] {
      assert a + b == b;
    } else {
      SeenConcat(Apply(w, a[0]), a[1..], b, me, agent, sign);
      assert (a + b)[1..] == a[1..] + b && (a + b)[0] == a[0];
      hide Seen, ValidRun, After;
      SeenFirst(w, a, me, agent, sign);
      SeenFirst(w, a + b, me, agent, sign);
    }
  }

  /** Whatever was spawned in between was this agent, once: found stopped if it
      was classified as stopped, and else cleaned up after having been classified
      as unhealthy. */
  predicate SpawnedOn(before: seq<(AgentID, Cause)>, now: seq<(AgentID, Cause)>, agent: AgentID, seen: Health) {
    || now == before
    || (|now| == |before| + 1 && now[..|before|] == before && now[|before|].0 == agent
        && if now[|before|].1.FoundStopped? then seen.Stopped? else seen.Unhealthy?)
  }

  datatype ManagedAction = StartAgent | EnableAgent | RestartAgent | StopAgent | DisableAgent

  datatype Reconciled = Adopted | Cleaned | Started | Skipped | Failed

  /** What was found and done for one entry at startup. */
  datatype Told = Told(reports: seq<Reconciled>, seen: AgentStatus, outcome: Option<Outcome>, cleaned: bool, health: Health)

  /** The reports of the entries, one after another. */
  function Listed(entries: seq<(AgentID, Entry)>, told: seq<Told>): seq<(AgentID, Reconciled)>
    requires |told| == |entries|
    decreases |told|
  {
    if told == [] then []
    else
      var own := told[|told| - 1].reports;
      Listed(entries[..|told| - 1], told[..|told| - 1])
        + seq(|own|, n requires 0 <= n < |own| => (entries[|told| - 1].0, own[n]))
  }

  lemma ListedMore(entries: seq<(AgentID, Entry)>, told: seq<Told>, e: (AgentID, Entry), t: Told)
    requires |told| == |entries|
    ensures Listed(entries + [e], told + [t])
      == Listed(entries, told) + seq(|t.reports|, n requires 0 <= n < |t.reports| => (e.0, t.reports[n]))
  {
    assert (entries + [e])[..|told|] == entries && (told + [t])[..|told|] == told;
  }

  class Manager {
    const me: Actor
    var w: World
    // The run so far: the steps of everybody since the start.
    ghost var start: World
    ghost var run: seq<Step>
    ghost var posted: seq<Continuation>
    // The activities reported so far, by agent.
    ghost var heard: seq<(AgentID, Activity)>

    ghost predicate Valid()
      reads this
    {
      && WellFormed(start) && start.notes == map[]
      && ValidRun(start, run) && After(start, run) == w
    }

    /** The operation kept what it should, and spawned nothing. */
    ghost predicate Quietly(before: World, sofar: seq<Step>, agent: AgentID)
      reads this
    {
      Kept(before, w, me, agent) && Spawns(run, me) == Spawns(sofar, me) && Onward(sofar, agent)
    }

    /** What was learned and done stays so. */
    ghost predicate Onward(sofar: seq<Step>, agent: AgentID)
      reads this
    {
      forall sign: Sign :: Seen(start, sofar, me, agent, sign) <= Seen(start, run, me, agent, sign)
    }

    /** Between two points of the run this sign was given. */
    ghost predicate Gave(before: seq<Step>, now: seq<Step>, agent: AgentID, sign: Sign)
      reads this`start
    {
      Seen(start, now, me, agent, sign) > Seen(start, before, me, agent, sign)
    }

    ghost predicate Shows(sofar: seq<Step>, agent: AgentID, sign: Sign)
      reads this
    {
      Gave(sofar, run, agent, sign)
    }

    /** A classification made since then, under the lock, rests on its sign. */
    ghost predicate Observed(sofar: seq<Step>, agent: AgentID, health: Health)
      reads this
    {
      match health
      case Healthy => Shows(sofar, agent, SawHealthy)
      case Stopped => Shows(sofar, agent, SawStopped)
      case Unhealthy => Shows(sofar, agent, SawUnhealthy)
      case Ambiguous => Shows(sofar, agent, SawAmbiguous)
    }

    lemma Sane()
      requires Valid()
      ensures WellFormed(w)
    {
      RunLater(start, run);
    }

    constructor (me: Actor, w: World)
      requires WellFormed(w) && w.notes == map[]
      ensures Valid() && this.w == w && this.me == me && posted == [] && heard == []
    {
      this.me, this.w := me, w;
      start, run, posted, heard := w, [], [], [];
    }

    // ----- steps -----

    /** The other actors run: any guarded steps of theirs, any number. */
    method Interfere(agent: AgentID)
      requires Valid()
      modifies this`w, this`run
      ensures Valid() && Quietly(old(w), old(run), agent) && Undisturbed(old(w), w, me, agent)
    {
      Sane();
      var others: seq<Step> := *;
      if ValidRun(w, others) && forall k | 0 <= k < |others| :: others[k].actor != me {
        RunLater(w, others);
        OthersDoNotDisturb(w, others, me, agent);
        RunJoin(start, run, others);
        SpawnsConcat(run, others, me);
        OthersSpawnNothing(others, me);
        forall sign: Sign { SeenConcat(start, run, others, me, agent, sign); }
        run := run + others;
        w := After(w, others);
      }
    }

    lemma OneSign(a: AgentID, action: Action, sign: Sign)
      requires Valid() && Enabled(w, By(me, action))
      ensures Seen(start, run + [By(me, action)], me, a, sign) ==
        Seen(start, run, me, a, sign) + if SignOf(w, By(me, action), me, a) == Some(sign) then 1 else 0
    {
      hide Enabled, Apply, SignOf;
      var s := By(me, action);
      OneStep(w, s);
      SeenConcat(start, run, [s], me, a, sign);
      SeenFirst(w, [s], me, a, sign);
      assert [s][1..] == [];
      assert Seen(Apply(w, s), [], me, a, sign) == 0;
    }

    /** A step of this manager, whose guard must hold. */
    method Do(action: Action)
      requires Valid() && Enabled(w, By(me, action))
      modifies this`w, this`run
      ensures Valid()
      ensures w == Apply(old(w), By(me, action)) && run == old(run) + [By(me, action)]
      ensures Spawns(run, me) == Spawns(old(run), me) + if action.Spawn? then [(action.agent, action.cause)] else []
      ensures forall a: AgentID, sign: Sign ::
        Seen(start, run, me, a, sign)
          == Seen(start, old(run), me, a, sign) + (if SignOf(old(w), By(me, action), me, a) == Some(sign) then 1 else 0)
    {
      forall a: AgentID, sign: Sign ensures Seen(start, run + [By(me, action)], me, a, sign) ==
        Seen(start, run, me, a, sign) + if SignOf(w, By(me, action), me, a) == Some(sign) then 1 else 0
      {
        OneSign(a, action, sign);
      }
      assert (run + [By(me, action)])[..|run|] == run;
      var s := By(me, action);
      OneStep(w, s);
      RunJoin(start, run, [s]);
      run := run + [s];
      w := Apply(w, s);
    }

    /** Whatever the operations below have been doing, together with everybody
        else: records removed so far were judged unhealthy and name the dead, and
        every spawn was made by the holder of the agent's lock, who had found the
        agent stopped or cleaned up after it while no process had its endpoint. */
    lemma Guarantees(k: nat)
      requires Valid() && k < |run|
      ensures ValidRun(start, run[..k])
      ensures run[k].action.Remove? ==>
        (var at, r := After(start, run[..k]), run[k].action.record;
         && run[k].actor in at.notes && at.notes[run[k].actor].Judged?
         && Classify(r, at.notes[run[k].actor].inspection, at.notes[run[k].actor].probe).Unhealthy?
         && r.writer in at.dead && r.writer in w.dead)
      ensures run[k].action.Spawn? ==>
        exists j :: ClearedAt(start, run[..k], run[k].actor, run[k].action.agent, run[k].action.cause, j)
    {
      RunSplit(start, run, k);
      if run[k].action.Remove? {
        RemovedAreDead(start, run, k);
      } else if run[k].action.Spawn? {
        SpawnIsJustified(start, run, k);
      }
    }

    // ----- what the system answers -----

    /** Reading the record, and noting what was read. */
    method ReadRuntime(agent: AgentID) returns (r: RuntimeRead)
      requires Valid()
      modifies this`w, this`run
      ensures Valid() && Quietly(old(w), old(run), agent)
      ensures r.Found? ==> Names(w, r.record) && Noted(w, me, Saw(agent, r.record, Maintains(w, me, agent)))
      ensures r.Missing? && Holds(w, me, agent) && Maintains(w, me, agent) ==>
        Shows(old(run), agent, DidClean)
      ensures r.Missing? ==>
        Noted(w, me, if Holds(w, me, agent) && Maintains(w, me, agent) then Cleared(agent, NothingToClean) else SawNone(agent))
    {
      Interfere(agent);
      var unreadable: bool := *;
      if unreadable {
        return Unreadable;
      }
      Sane();
      Do(Read(agent));
      return if agent in w.runtime then Found(w.runtime[agent]) else Missing;
    }

    /** The process of a record is not there: noted of the record last read. */
    method ProcessGone(agent: AgentID, r: Record)
      requires Valid() && Names(w, r) && r.pid !in w.alive
      modifies this`w, this`run
      ensures Valid() && Quietly(old(w), old(run), agent) && r.writer in w.dead
      ensures forall guarded | Noted(old(w), me, Saw(agent, r, guarded)) :: Noted(w, me, SawDead(agent, r, guarded, GONE))
    {
      hide Spawns, Seen;
      Sane();
      FoundDead(w, r);
      if me in w.notes && w.notes[me].Saw? && w.notes[me].record == r { Do(FindGone); }
    }

    /** Another process has its pid: noted likewise. */
    method ProcessReplaced(agent: AgentID, r: Record)
      requires Valid() && Names(w, r) && r.identity.Some? && r.pid in w.alive && w.alive[r.pid] != r.identity.value
      modifies this`w, this`run
      ensures Valid() && Quietly(old(w), old(run), agent) && r.writer in w.dead
      ensures forall guarded | Noted(old(w), me, Saw(agent, r, guarded)) :: Noted(w, me, SawDead(agent, r, guarded, REPLACED))
    {
      hide Spawns, Seen;
      Sane();
      FoundDead(w, r);
      if me in w.notes && w.notes[me].Saw? && w.notes[me].record == r { Do(FindReplaced); }
    }

    /** The process is there, and the one recorded where that can be told. */
    method ProcessAlive(agent: AgentID, r: Record, identity: Identity)
      requires Valid() && Names(w, r) && r.pid in w.alive && !identity.IdentityReplaced?
      requires identity.IdentityMatched? ==> r.identity == Some(w.alive[r.pid])
      modifies this`w, this`run
      ensures Valid() && Quietly(old(w), old(run), agent)
      ensures forall guarded | Noted(old(w), me, Saw(agent, r, guarded)) ::
        Noted(w, me, SawAlive(agent, r, guarded, Inspection(true, true, identity)))
    {
      hide Spawns, Seen;
      if me in w.notes && w.notes[me].Saw? && w.notes[me].record == r { Do(FindAlive(identity)); }
    }

    /** An inspection that found the process gone or replaced. */
    predicate FindsDead(i: Inspection) {
      i.existenceKnown && (!i.alive || i.identity.IdentityReplaced?)
    }

    /** Looking at the process a record names. Not finding it, or finding another
        one under its pid, means that the record's writer is dead. */
    method InspectRecordedProcess(agent: AgentID, r: Record) returns (i: Inspection)
      requires Valid() && Names(w, r)
      modifies this`w, this`run
      ensures Valid() && Quietly(old(w), old(run), agent)
      ensures FindsDead(i) ==> r.writer in w.dead
      ensures FindsDead(i) ==> forall guarded | Noted(old(w), me, Saw(agent, r, guarded)) ::
        Noted(w, me, SawDead(agent, r, guarded, i))
      ensures i.identity.IdentityReplaced? || i.identity.IdentityMatched? ==> i.alive && r.identity.Some?
      ensures i.existenceKnown && i.alive && !i.identity.IdentityReplaced? && AcceptsIdentity(r, i) ==>
        forall guarded | Noted(old(w), me, Saw(agent, r, guarded)) :: Noted(w, me, SawAlive(agent, r, guarded, i))
    {
      hide Spawns, Seen, ValidRun, After, NotesSound;
      Interfere(agent);
      var failed: bool := *;
      if failed { return Inspection(false, false, IdentityUnknown); }
      var alive := r.pid in w.alive;
      if !alive {
        ProcessGone(agent, r);
        return Inspection(false, true, IdentityUnknown);
      }
      if r.identity.None? {
        ProcessAlive(agent, r, IdentityUnknown);
        return Inspection(true, true, IdentityUnknown);
      }
      i := IdentifyProcess(agent, r);
    }

    /** Comparing the identity of a process that was there with the recorded one. */
    method IdentifyProcess(agent: AgentID, r: Record) returns (i: Inspection)
      requires Valid() && Names(w, r) && r.identity.Some?
      modifies this`w, this`run
      ensures Valid() && Quietly(old(w), old(run), agent)
      ensures i.existenceKnown && i.alive
      ensures i.identity.IdentityReplaced? ==> r.writer in w.dead
      ensures i.identity.IdentityReplaced? ==> forall guarded | Noted(old(w), me, Saw(agent, r, guarded)) ::
        Noted(w, me, SawDead(agent, r, guarded, i))
      ensures i.identity.IdentityMatched? ==> forall guarded | Noted(old(w), me, Saw(agent, r, guarded)) ::
        Noted(w, me, SawAlive(agent, r, guarded, i))
    {
      hide Spawns, Seen, ValidRun, After, NotesSound;
      Interfere(agent);
      var failed: bool := *;
      if failed || r.pid !in w.alive { return Inspection(true, true, IdentityUnknown); }
      var identity := w.alive[r.pid];
      if Some(identity) == r.identity {
        ProcessAlive(agent, r, IdentityMatched);
        return Inspection(true, true, IdentityMatched);
      }
      ProcessReplaced(agent, r);
      return Inspection(true, true, IdentityReplaced);
    }

    /** The answer of the endpoint completes the observations of a record. */
    method ProbeEndpoint(agent: AgentID) returns (p: Probe)
      requires Valid()
      modifies this`w, this`run
      ensures Valid() && Quietly(old(w), old(run), agent)
      ensures forall r, guarded, i | Noted(old(w), me, SawDead(agent, r, guarded, i)) ::
        Noted(w, me, Judged(agent, r, guarded, i, p))
      ensures forall r, guarded, i | Noted(old(w), me, SawDead(agent, r, guarded, i)) && FindsDead(i) && Classify(r, i, p).Unhealthy? ::
        Shows(old(run), agent, SawUnhealthy)
      ensures forall r, guarded, i | Noted(old(w), me, SawAlive(agent, r, guarded, i)) && p.ProbeMatched? && AcceptsIdentity(r, i) ::
        Shows(old(run), agent, SawHealthy)
    {
      hide Spawns, Seen, ValidRun, After, NotesSound;
      Interfere(agent);
      var answer: nat := *;
      p := if answer == 0 then ProbeMatched else if answer == 1 then ProbeMismatch
           else if answer == 2 then ProbeHTTPStatus else ProbeUnreachable;
      if me in w.notes && (w.notes[me].SawDead? || w.notes[me].SawAlive?) { Do(Hear(p)); }
    }

    /** The endpoint is free only if no process and no other manager has it. */
    method AcquireMaintenance(agent: AgentID) returns (g: Maintenance)
      requires Valid()
      modifies this`w, this`run
      ensures Valid() && Quietly(old(w), old(run), agent)
      ensures g.Free? ==> Maintains(w, me, agent) && !Maintains(old(w), me, agent)
      ensures g.Free? && Noted(old(w), me, SawNone(agent)) && Holds(old(w), me, agent) ==>
        Noted(w, me, Cleared(agent, FoundStopped)) && Shows(old(run), agent, SawStopped)
    {
      Interfere(agent);
      var failed: bool := *;
      if failed { return MaintenanceFailed; }
      if agent in w.guards { return AlreadyRunning; }
      Do(Guard(agent));
      return Free;
    }

    method CloseMaintenance(agent: AgentID)
      requires Valid() && Maintains(w, me, agent)
      modifies this`w, this`run
      ensures Valid() && Later(old(w), w) && Onward(old(run), agent) && Spawns(run, me) == Spawns(old(run), me) && !Maintains(w, me, agent)
      ensures w.locks == old(w).locks && w.registry == old(w).registry
      ensures forall a, cause | Noted(old(w), me, Cleared(a, cause)) :: Noted(w, me, Cleared(a, cause))
    {
      Do(Unguard(agent));
    }

    method InspectBinding(agent: AgentID) returns (b: Binding)
      requires Valid()
      modifies this`w, this`run
      ensures Valid() && Quietly(old(w), old(run), agent)
    {
      Interfere(agent);
      var answer: nat := *;
      return if answer == 0 then Bound else if answer == 1 then Orphaned else Invalid;
    }

    /** Some wait, request or read whose outcome is not under Fleet's control. */
    method Ask(agent: AgentID) returns (ok: bool)
      requires Valid()
      modifies this`w, this`run
      ensures Valid() && Quietly(old(w), old(run), agent) && Undisturbed(old(w), w, me, agent)
    {
      Interfere(agent);
      ok := *;
    }

    /** What the runtime reports to be working on; every report is kept. */
    method ReadActivity(agent: AgentID) returns (a: Option<Activity>)
      requires Valid()
      modifies this`w, this`run, this`heard
      ensures Valid() && Quietly(old(w), old(run), agent)
      ensures heard == if a.Some? then old(heard) + [(agent, a.value)] else old(heard)
    {
      var ok := Ask(agent);
      var answer: Activity := *;
      if !ok { return None; }
      heard := heard + [(agent, answer)];
      return Some(answer);
    }

    /** Removing a record that was judged under the guard. */
    method RemoveRuntime(agent: AgentID, r: Record, i: Inspection, p: Probe) returns (ok: bool)
      requires Valid() && Holds(w, me, agent) && Maintains(w, me, agent)
      requires Noted(w, me, Judged(agent, r, true, i, p)) && CleanupRemoves(i, p)
      modifies this`w, this`run
      ensures Valid() && Quietly(old(w), old(run), agent)
      ensures ok ==> Noted(w, me, Cleared(agent, CleanedUp(r, i, p)))
      ensures ok ==> Shows(old(run), agent, DidClean)
    {
      ok := Ask(agent);
      if ok { Do(Remove(agent, r)); }
    }

    /** Only who was cleared can spawn, and it says for what cause. */
    method SpawnProcess(agent: AgentID, binding: Binding, cause: Cause) returns (pid: Option<Pid>)
      requires Valid() && Holds(w, me, agent) && Noted(w, me, Cleared(agent, cause))
      requires binding.Bound? && agent in w.registry && w.registry[agent].enabled
      modifies this`w, this`run
      ensures Valid() && Kept(old(w), w, me, agent) && Onward(old(run), agent)
      ensures Spawns(run, me) == Spawns(old(run), me) + [(agent, cause)]
    {
      Interfere(agent);
      Do(Spawn(agent, binding, cause));
      var ok: bool := *;
      var answer: Pid := *;
      return if ok then Some(answer) else None;
    }

    // ----- status -----

    /** Taking the endpoint guard and giving it back: an actor that holds the
        lock and saw no record thereby knows the agent to be stopped. */
    method MaintenanceIsFree(agent: AgentID) returns (free: bool)
      requires Valid()
      modifies this`w, this`run
      ensures Valid() && Quietly(old(w), old(run), agent)
      ensures free ==> !Maintains(old(w), me, agent)
      ensures free && Noted(old(w), me, SawNone(agent)) && Holds(old(w), me, agent) ==>
        Noted(w, me, Cleared(agent, FoundStopped)) && Shows(old(run), agent, SawStopped)
    {
      var guard := AcquireMaintenance(agent);
      free := guard.Free?;
      if free { CloseMaintenance(agent); }
    }

    /** What the record, its process and its endpoint show. */
    method ObserveStatus(agent: AgentID, entry: Entry, problem: bool) returns (s: AgentStatus)
      requires Valid()
      modifies this`w, this`run
      ensures Valid() && Quietly(old(w), old(run), agent)
      ensures s.id == agent && s.enabled == entry.enabled && s.autostart == entry.autostart
      ensures s.health.Stopped? && Holds(old(w), me, agent) ==>
        Noted(w, me, Cleared(agent, FoundStopped)) && Shows(old(run), agent, SawStopped)
      ensures s.health.Healthy? ==> s.processAlive && s.endpointMatched && Shows(old(run), agent, SawHealthy)
      ensures s.health.Unhealthy? ==> Shows(old(run), agent, SawUnhealthy)
    {
      hide Spawns, Seen, ValidRun, After, WellFormed, ProvesReachable;
      var binding := InspectBinding(agent);
      s := AgentStatus(agent, entry.enabled, entry.autostart, binding, Ambiguous, false, false, false, false);
      if problem {
        return s.(binding := Invalid);
      }
      var read := ReadRuntime(agent);
      if read.Missing? {
        var free := MaintenanceIsFree(agent);
        if free { s := s.(health := Stopped); }
        return;
      }
      s := s.(runtimePresent := true);
      if read.Unreadable? { return; }
      s := ObserveRecorded(agent, read.record, s);
    }

    /** The status of an agent with a readable record. */
    method ObserveRecorded(agent: AgentID, r: Record, before: AgentStatus) returns (s: AgentStatus)
      requires Valid() && Names(w, r) && Noted(w, me, Saw(agent, r, Maintains(w, me, agent)))
      requires before.health.Ambiguous?
      modifies this`w, this`run
      ensures Valid() && Quietly(old(w), old(run), agent)
      ensures s == before.(health := s.health, processAlive := s.processAlive,
                           endpointReachable := s.endpointReachable, endpointMatched := s.endpointMatched)
      ensures !s.health.Stopped?
      ensures s.health.Healthy? ==> s.processAlive && s.endpointMatched && Shows(old(run), agent, SawHealthy)
      ensures s.health.Unhealthy? ==> Shows(old(run), agent, SawUnhealthy)
    {
      hide Spawns, Seen, ValidRun, After, WellFormed, ProvesReachable;
      s := before;
      var process := InspectRecordedProcess(agent, r);
      if !process.existenceKnown { return; }
      var probe := ProbeEndpoint(agent);
      s := s.(processAlive := process.alive,
              endpointReachable := probe.ProbeMatched? || ProvesReachable(probe),
              endpointMatched := probe.ProbeMatched?,
              health := Classify(r, process, probe));
    }

    /** What cannot be told, and a binding at fault, are kept with the run. */
    method NoteDoubts(agent: AgentID, s: AgentStatus)
      requires Valid()
      modifies this`w, this`run
      ensures Valid() && Quietly(old(w), old(run), agent)
      ensures w.notes == old(w).notes && w.locks == old(w).locks
      ensures s.health.Ambiguous? ==> Shows(old(run), agent, SawAmbiguous)
      ensures !s.binding.Bound? ==> Shows(old(run), agent, SawUnbound)
    {
      hide Spawns, Seen, ValidRun, After;
      if s.health.Ambiguous? { Do(Doubt(agent)); }
      if !s.binding.Bound? { Do(FindUnbound(agent)); }
    }

    /** The status under the lock: whatever it says was observed meanwhile. */
    method InspectStatus(agent: AgentID, entry: Entry, problem: bool) returns (s: AgentStatus)
      requires Valid()
      modifies this`w, this`run
      ensures Valid() && Quietly(old(w), old(run), agent)
      ensures s.id == agent && s.enabled == entry.enabled && s.autostart == entry.autostart
      ensures s.health.Stopped? && Holds(old(w), me, agent) ==>
        Noted(w, me, Cleared(agent, FoundStopped)) && Shows(old(run), agent, SawStopped)
      ensures s.health.Healthy? ==> s.processAlive && s.endpointMatched && Shows(old(run), agent, SawHealthy)
      ensures s.health.Unhealthy? ==> Shows(old(run), agent, SawUnhealthy)
      ensures s.health.Ambiguous? ==> Shows(old(run), agent, SawAmbiguous)
      ensures !s.binding.Bound? ==> Shows(old(run), agent, SawUnbound)
    {
      hide Spawns, Seen, ValidRun, After, WellFormed;
      s := ObserveStatus(agent, entry, problem);
      NoteDoubts(agent, s);
    }

    // ----- stale cleanup -----

    /** A cleanup's observations and verdict: it removes the record exactly when
        they classify the runtime as unhealthy, and then its writer is dead. */
    method ObserveForCleanup(agent: AgentID, current: Record) returns (remove: bool, process: Inspection, probe: Probe)
      requires Valid() && Names(w, current) && Noted(w, me, Saw(agent, current, true))
      modifies this`w, this`run
      ensures Valid() && Quietly(old(w), old(run), agent)
      ensures remove <==> Classify(current, process, probe).Unhealthy?
      ensures remove ==> current.writer in w.dead && Noted(w, me, Judged(agent, current, true, process, probe))
    {
      probe := ProbeUnreachable;
      process := InspectRecordedProcess(agent, current);
      if !process.existenceKnown { return false, process, probe; }
      var processReplaced := process.identity.IdentityReplaced?;
      if process.alive && !processReplaced { return false, process, probe; }
      assert Noted(w, me, SawDead(agent, current, true, process));
      probe := ProbeEndpoint(agent);
      SameDecision(current, process, probe);
      if probe.ProbeMatched? || (!processReplaced && ProvesReachable(probe)) { return false, process, probe; }
      return true, process, probe;
    }

    /** A record is removed only after such a verdict, reached and carried out
        with the endpoint guard in hand. Success leaves this actor cleared to
        spawn for having cleaned up; the guard is given back in every case. */
    method CleanStaleRuntime(agent: AgentID, expected: Record) returns (ok: bool)
      requires Valid() && Holds(w, me, agent)
      modifies this`w, this`run
      ensures Valid() && Quietly(old(w), old(run), agent)
      ensures ok ==> HasCleared(w, me, agent) && !w.notes[me].cause.FoundStopped? && !Maintains(w, me, agent)
      ensures ok ==> Shows(old(run), agent, DidClean)
    {
      var guard := AcquireMaintenance(agent);
      if !guard.Free? { return false; }
      ok := CleanUnderMaintenance(agent, expected);
      CloseMaintenance(agent);
    }

    method CleanUnderMaintenance(agent: AgentID, expected: Record) returns (ok: bool)
      requires Valid() && Holds(w, me, agent) && Maintains(w, me, agent)
      modifies this`w, this`run
      ensures Valid() && Quietly(old(w), old(run), agent)
      ensures ok ==> HasCleared(w, me, agent) && !w.notes[me].cause.FoundStopped?
      ensures ok ==> Shows(old(run), agent, DidClean)
    {
      var read := ReadRuntime(agent);
      if read.Missing? { return true; }
      if read.Unreadable? { return false; }
      var current := read.record;
      if current != expected { return false; }
      var remove, process, probe := ObserveForCleanup(agent, current);
      if !remove { return false; }
      SameDecision(current, process, probe);
      ok := RemoveRuntime(agent, current, process, probe);
    }

    // ----- start -----

    predicate StartConflict(entry: Entry, s: AgentStatus) {
      !s.binding.Bound? || !entry.enabled
    }

    /** What a start finds before it may spawn: the agent stopped, or unhealthy
        and cleaned up after. Anything else is refused, unless it is Healthy. */
    method PrepareStart(agent: AgentID, entry: Entry) returns (status: AgentStatus, ok: bool)
      requires Valid() && Holds(w, me, agent)
      modifies this`w, this`run
      ensures Valid() && Quietly(old(w), old(run), agent)
      ensures ok ==> status.binding.Bound? && entry.enabled && !status.health.Ambiguous?
      ensures Observed(old(run), agent, status.health)
      ensures entry.enabled && (status.health.Healthy? || status.health.Stopped?) ==> ok || Shows(old(run), agent, SawUnbound)
      ensures ok && status.health.Unhealthy? ==> Shows(old(run), agent, DidClean)
      ensures ok && !status.health.Healthy? ==>
        HasCleared(w, me, agent) && if w.notes[me].cause.FoundStopped? then status.health.Stopped? else status.health.Unhealthy?
    {
      hide Spawns, Seen, ValidRun, After, Classify;
      var problem := Ask(agent);
      status := InspectStatus(agent, entry, problem);
      if StartConflict(entry, status) { return status, false; }
      if status.health.Healthy? || status.health.Stopped? { return status, true; }
      if !status.health.Unhealthy? { return status, false; }
      var read := ReadRuntime(agent);
      if !read.Found? { return status, false; }
      ok := CleanStaleRuntime(agent, read.record);
    }

    /** Starting an agent under its lock. The entry is the one registered now. */
    method StartEntry(agent: AgentID, entry: Entry, ticks: nat) returns (r: Outcome, ghost seen: Health)
      requires Valid() && Holds(w, me, agent)
      requires agent in w.registry && w.registry[agent] == entry
      modifies this`w, this`run
      ensures Valid() && Kept(old(w), w, me, agent) && Onward(old(run), agent)
      ensures SpawnedOn(Spawns(old(run), me), Spawns(run, me), agent, seen)
      ensures r.Ok? ==> r.status.health.Healthy? && entry.enabled && Shows(old(run), agent, SawHealthy)
      ensures Observed(old(run), agent, seen)
      ensures entry.enabled && seen.Healthy? ==> r.Ok? || Shows(old(run), agent, SawUnbound)
      ensures entry.enabled && seen.Stopped? ==> Spawns(run, me) != Spawns(old(run), me) || Shows(old(run), agent, SawUnbound)
    {
      hide Spawns, Seen, ValidRun, After;
      var status, ok := PrepareStart(agent, entry);
      seen := status.health;
      if !ok { return Err(Conflict), seen; }
      if status.health.Healthy? { return Ok(status), seen; }
      ghost var before := Spawns(run, me);
      ghost var cause := w.notes[me].cause;
      var pid := SpawnProcess(agent, status.binding, w.notes[me].cause);
      assert (before + [(agent, cause)])[..|before|] == before;
      if pid.None? { return Err(Other), seen; }
      r := AwaitReady(agent, entry, pid.value, ticks);
    }

    /** The readiness poll: it ends well only on a healthy classification. */
    method AwaitReady(agent: AgentID, entry: Entry, pid: Pid, ticks: nat) returns (r: Outcome)
      requires Valid()
      modifies this`w, this`run
      ensures Valid() && Quietly(old(w), old(run), agent)
      ensures r.Ok? ==> r.status.health.Healthy? && Shows(old(run), agent, SawHealthy)
    {
      hide Spawns, Seen, ValidRun, After, Noted;
      var remaining := ticks;
      while remaining > 0
        invariant Valid() && Quietly(old(w), old(run), agent)
      {
        remaining := remaining - 1;
        var ended := ReadyTick(agent, entry, pid);
        if ended.Some? { return ended.value; }
      }
      return Err(Other);
    }

    /** One look at a process that is starting: the end of the poll, if it is. */
    method ReadyTick(agent: AgentID, entry: Entry, pid: Pid) returns (ended: Option<Outcome>)
      requires Valid()
      modifies this`w, this`run
      ensures Valid() && Quietly(old(w), old(run), agent)
      ensures ended.Some? && ended.value.Ok? ==> ended.value.status.health.Healthy? && Shows(old(run), agent, SawHealthy)
    {
      hide Spawns, Seen, ValidRun, After, Noted, WellFormed;
      var exited := Ask(agent);
      if exited { return Some(Err(Other)); }
      var read := ReadRuntime(agent);
      if read.Unreadable? {
        // Unreadable metadata is retried for a while.
        var retry := Ask(agent);
        return if retry then None else Some(Err(Other));
      }
      if read.Missing? { return None; }
      if read.record.pid != pid { return Some(Err(Conflict)); }
      var probe := ProbeEndpoint(agent);
      if probe.ProbeMismatch? { return Some(Err(Conflict)); }
      if !probe.ProbeMatched? { return None; }
      var problem := Ask(agent);
      var ready := InspectStatus(agent, entry, problem);
      return if ready.health.Healthy? then Some(Ok(ready)) else None;
    }

    // ----- stop -----

    /** What a stop that succeeds has seen and done since, by what it first found:
        the agent stopped; or unhealthy, and cleaned up after; or healthy, and
        the process it then asked to shut down is dead. Nothing else will do. */
    ghost predicate StopDone(sofar: seq<Step>, agent: AgentID, was: Health, asked: Option<Record>)
      reads this
    {
      match was
      case Stopped => Shows(sofar, agent, SawStopped)
      case Unhealthy => Shows(sofar, agent, SawUnhealthy) && Shows(sofar, agent, DidClean)
      case Healthy =>
        && Shows(sofar, agent, SawHealthy)
        && asked.Some? && Shows(sofar, agent, AskedStop(asked.value)) && asked.value.writer in w.dead
      case Ambiguous => false
    }

    /** Stopping an agent whose record is stale is cleaning up after it. */
    method StopUnhealthy(agent: AgentID, entry: Entry) returns (r: Outcome)
      requires Valid() && Holds(w, me, agent)
      modifies this`w, this`run
      ensures Valid() && Quietly(old(w), old(run), agent)
      ensures r.Ok? ==> Shows(old(run), agent, DidClean)
    {
      hide Spawns, Seen, ValidRun, After;
      var read := ReadRuntime(agent);
      if !read.Found? { return Err(Conflict); }
      var cleaned := CleanStaleRuntime(agent, read.record);
      if !cleaned { return Err(Conflict); }
      r := Inspected(agent, entry);
    }

    /** Stopping under the lock: it succeeds only as StopDone says, so never when
        the runtime was ambiguous. */
    method StopEntryPolicy(agent: AgentID, entry: Entry, restarting: bool, onlyIdle: bool, ticks: nat)
      returns (r: Outcome, acknowledged: bool, ghost was: Health, ghost asked: Option<Record>)
      requires Valid() && Holds(w, me, agent)
      modifies this`w, this`run
      ensures Valid() && Quietly(old(w), old(run), agent)
      ensures r.Ok? ==> StopDone(old(run), agent, was, asked)
      ensures Observed(old(run), agent, was)
      ensures was.Stopped? ==> r.Ok?
      ensures was.Ambiguous? ==> r == Err(Conflict)
      ensures was.Healthy? && asked.None? ==> r == Err(Conflict)
      ensures acknowledged ==> restarting && was.Healthy? && asked.Some? && Shows(old(run), agent, AskedStop(asked.value))
    {
      hide Spawns, Seen, ValidRun, After;
      acknowledged, asked := false, None;
      var problem := Ask(agent);
      var status := InspectStatus(agent, entry, problem);
      was := status.health;
      if status.health.Stopped? { return Ok(status), false, was, None; }
      if status.health.Unhealthy? {
        r := StopUnhealthy(agent, entry);
        return;
      }
      if !status.health.Healthy? { return Err(Conflict), false, was, None; }
      r, acknowledged, asked := StopHealthy(agent, entry, restarting, onlyIdle, ticks);
    }

    /** The shutdown request, to the process of the record last read. */
    method RequestShutdown(agent: AgentID, r: Record) returns (accepted: bool)
      requires Valid() && exists guarded :: Noted(w, me, Saw(agent, r, guarded))
      modifies this`w, this`run
      ensures Valid() && Quietly(old(w), old(run), agent) && Shows(old(run), agent, AskedStop(r))
    {
      hide Spawns, Seen;
      Do(Shut(agent, r));
      accepted := Ask(agent);
    }

    method StopHealthy(agent: AgentID, entry: Entry, restarting: bool, onlyIdle: bool, ticks: nat)
      returns (r: Outcome, acknowledged: bool, ghost asked: Option<Record>)
      requires Valid() && Holds(w, me, agent)
      modifies this`w, this`run
      ensures Valid() && Quietly(old(w), old(run), agent)
      ensures r.Ok? ==> asked.Some? && Shows(old(run), agent, AskedStop(asked.value)) && asked.value.writer in w.dead
      ensures acknowledged ==> restarting && asked.Some? && Shows(old(run), agent, AskedStop(asked.value))
      ensures asked.None? ==> r == Err(Conflict)
    {
      hide Spawns, Seen, ValidRun, After;
      acknowledged, asked := false, None;
      var read := ReadRuntime(agent);
      if !read.Found? { return Err(Conflict), false, None; }
      var runtimeState := read.record;
      asked := Some(runtimeState);
      var accepted := RequestShutdown(agent, runtimeState);
      if !accepted {
        var busy := Ask(agent);
        r := if busy then Err(Busy) else Err(Conflict);
        return;
      }
      if restarting && !onlyIdle {
        acknowledged := Ask(agent);
      }
      r := AwaitStopped(agent, entry, runtimeState, ticks);
    }

    /** The shutdown poll: it ends well only when the process the request went
        to is dead, with its record gone or cleaned up. */
    method AwaitStopped(agent: AgentID, entry: Entry, runtimeState: Record, ticks: nat) returns (r: Outcome)
      requires Valid() && Holds(w, me, agent) && Names(w, runtimeState)
      modifies this`w, this`run
      ensures Valid() && Quietly(old(w), old(run), agent)
      ensures r.Ok? ==> runtimeState.writer in w.dead
    {
      hide Spawns, Seen, ValidRun, After;
      var remaining := ticks;
      while remaining > 0
        invariant Valid() && Quietly(old(w), old(run), agent) && Holds(w, me, agent)
        invariant Names(w, runtimeState)
      {
        remaining := remaining - 1;
        var cancelled := Ask(agent);
        if cancelled { return Err(Cancelled); }
        var ended := StopTick(agent, entry, runtimeState);
        if ended.Some? { return ended.value; }
      }
      return Err(Conflict);
    }

    /** One look at a process that is stopping: the end of the poll, if it is. */
    method StopTick(agent: AgentID, entry: Entry, runtimeState: Record) returns (ended: Option<Outcome>)
      requires Valid() && Holds(w, me, agent) && Names(w, runtimeState)
      modifies this`w, this`run
      ensures Valid() && Quietly(old(w), old(run), agent)
      ensures ended.Some? && ended.value.Ok? ==> runtimeState.writer in w.dead
    {
      hide Spawns, Seen, ValidRun, After, Classify, Noted, WellFormed;
      var current := ReadRuntime(agent);
      var process := InspectRecordedProcess(agent, runtimeState);
      if !process.existenceKnown { return Some(Err(Conflict)); }
      var stopped := !process.alive || process.identity.IdentityReplaced?;
      if current.Missing? && stopped {
        var gone := Inspected(agent, entry);
        return Some(gone);
      }
      if current.Found? && current.record != runtimeState { return Some(Err(Conflict)); }
      if current.Unreadable? { return Some(Err(Conflict)); }
      if !stopped || !current.Found? { return None; }
      var clean, probe := StaleWhileStopping(agent, runtimeState, process);
      if !clean { return None; }
      var cleaned := CleanStaleRuntime(agent, runtimeState);
      if !cleaned { return Some(Err(Conflict)); }
      var status := Inspected(agent, entry);
      return Some(status);
    }

    /** The stop loop cleans up exactly when its observations of the record
        classify the runtime as unhealthy. */
    method StaleWhileStopping(agent: AgentID, runtimeState: Record, process: Inspection) returns (clean: bool, ghost probe: Probe)
      requires Valid() && FindsDead(process)
      modifies this`w, this`run
      ensures Valid() && Quietly(old(w), old(run), agent)
      ensures clean <==> Classify(runtimeState, process, probe).Unhealthy?
    {
      hide Spawns, Seen, ValidRun, After;
      var answer := ProbeEndpoint(agent);
      probe := answer;
      var processReplaced := process.identity.IdentityReplaced?;
      clean := !answer.ProbeMatched? && (processReplaced || !ProvesReachable(answer));
      SameDecision(runtimeState, process, probe);
    }

    method Inspected(agent: AgentID, entry: Entry) returns (r: Outcome)
      requires Valid()
      modifies this`w, this`run
      ensures Valid() && Quietly(old(w), old(run), agent) && r.Ok?
    {
      var problem := Ask(agent);
      var status := InspectStatus(agent, entry, problem);
      return Ok(status);
    }

    // ----- restart -----

    /** Waiting for the replacement to report the interrupted turn. Either it
        confirms it, or there is an error to show. */
    method ConfirmRestartInterrupted(agent: AgentID, expected: Activity, ticks: nat)
      returns (confirmed: bool, failed: bool, reported: Activity)
      requires Valid()
      modifies this`w, this`run, this`heard
      ensures Valid() && Quietly(old(w), old(run), agent)
      ensures confirmed ==> !failed && Confirms(reported, expected)
      ensures !confirmed ==> failed
      ensures old(heard) <= heard
    {
      reported := expected;
      var remaining := ticks;
      while remaining > 0
        invariant Valid() && Quietly(old(w), old(run), agent) && old(heard) <= heard
      {
        remaining := remaining - 1;
        var read := ReadActivity(agent);
        if read.None? { return false, true, expected; }
        var actual := read.value;
        if actual.threadID != "" || actual.turnID != "" || !actual.state.NoActivity? {
          if actual.threadID != expected.threadID || actual.turnID != expected.turnID { return false, true, actual; }
          if !actual.state.Idle? { return false, true, actual; }
          var expectedState := if expected.turnState.Errored? then Errored else TurnCancelled;
          var expectedKind := if expected.turnState.Errored? then expected.errorKind else RUNTIME_RESTART;
          if actual.turnState != expectedState { return false, true, actual; }
          if actual.errorKind != expectedKind { return false, true, actual; }
          return true, false, actual;
        }
      }
      return false, true, expected;
    }

    method Reload(agent: AgentID) returns (e: Option<Entry>)
      requires Valid()
      modifies this`w, this`run
      ensures Valid() && Quietly(old(w), old(run), agent)
      ensures e.Some? ==> agent in w.registry && w.registry[agent] == e.value
    {
      var ok := Ask(agent);
      return if ok && agent in w.registry then Some(w.registry[agent]) else None;
    }

    predicate RestartSkipped(s: AgentStatus) {
      !s.enabled || !s.binding.Bound? || !s.health.Healthy?
    }

    /** At most one continuation was posted since before, and it is justified. */
    ghost predicate PostedOnce(before: seq<Continuation>, agent: AgentID)
      reads this`posted
    {
      posted == before ||
      (|posted| == |before| + 1 && before <= posted && Justified(posted[|before|]) && posted[|before|].agent == agent)
    }

    /** The first activity reported since then. */
    ghost predicate FirstHeard(before: seq<(AgentID, Activity)>, agent: AgentID, a: Activity)
      reads this`heard
    {
      before <= heard && |before| < |heard| && heard[|before|] == (agent, a)
    }

    /** What the runtime was working on before it is stopped. */
    method DetectInterrupted(agent: AgentID) returns (interrupted: Option<Activity>, failed: bool)
      requires Valid()
      modifies this`w, this`run, this`heard
      ensures Valid() && Quietly(old(w), old(run), agent)
      ensures interrupted.Some? ==> Interrupted(interrupted.value) && !failed
      ensures old(heard) <= heard && (heard == old(heard) <==> failed)
      ensures !failed ==> exists a :: FirstHeard(old(heard), agent, a) && interrupted == if Interrupted(a) then Some(a) else None
    {
      var read := ReadRuntime(agent);
      if !read.Found? { return None, true; }
      var activity := ReadActivity(agent);
      if activity.None? { return None, true; }
      assert FirstHeard(old(heard), agent, activity.value);
      return if Interrupted(activity.value) then activity else None, false;
    }

    /** Once the replacement is healthy, its confirmed turn is continued. */
    method ResumeInterrupted(agent: AgentID, status: AgentStatus, interrupted: Activity, acknowledged: bool, ticks: nat)
      returns (resume: Resume)
      requires Valid() && status.health.Healthy? && Interrupted(interrupted)
      modifies this`w, this`run, this`posted, this`heard
      ensures Valid() && Quietly(old(w), old(run), agent) && PostedOnce(old(posted), agent)
      ensures resume.sent ==> resume.required && !resume.failed
      ensures resume.sent ==> posted != old(posted) && resume.threadID == posted[|old(posted)|].threadID
      ensures resume.required && !resume.sent ==> resume.failed
      ensures posted == old(posted) ==> resume.failed
      ensures old(heard) <= heard
    {
      resume := NoResume;
      if !acknowledged { return resume.(failed := true); }
      var read := ReadRuntime(agent);
      if !read.Found? { return resume.(failed := true); }
      var confirmed, failed, reported := ConfirmRestartInterrupted(agent, interrupted, ticks);
      if failed { return resume.(failed := true); }
      if !confirmed { return; }
      resume := resume.(required := true, threadID := interrupted.threadID);
      posted := posted + [Continuation(agent, read.record, resume.threadID, interrupted.turnID,
                                       status.health, acknowledged, interrupted, reported)];
      var accepted := Ask(agent);
      if !accepted { return resume.(failed := true); }
      var turnID: string := *;
      return resume.(sent := true, turnID := turnID);
    }

    /** A restart posts at most one continuation, and only a justified one. One
        that was sent leaves no error; one that was required but not sent does.
        No turn is passed over in silence: what a healthy runtime was working on
        is asked for before it is stopped, and if that was interrupted and the
        restart succeeds, a continuation was posted or there is an error. */
    method RestartEntry(agent: AgentID, entry: Entry, requireEligible: bool, ticks: nat)
      returns (r: Outcome, resume: Resume, ghost was: Health, ghost asked: Option<Record>)
      requires Valid() && Holds(w, me, agent)
      requires agent in w.registry && w.registry[agent] == entry
      modifies this`w, this`run, this`posted, this`heard
      ensures Valid() && Kept(old(w), w, me, agent) && PostedOnce(old(posted), agent)
      ensures resume.sent ==> resume.required && !resume.failed
      ensures resume.sent ==> posted != old(posted) && resume.threadID == posted[|old(posted)|].threadID
      ensures resume.required && !resume.sent ==> resume.failed
      ensures r.Ok? ==> r.status.health.Healthy? && Shows(old(run), agent, SawHealthy) && StopDone(old(run), agent, was, asked)
      ensures resume.required ==> r.Ok?
      ensures old(heard) <= heard
      ensures r.Ok? ==> forall a | FirstHeard(old(heard), agent, a) && Interrupted(a) :: posted != old(posted) || resume.failed
      ensures r.Ok? && heard == old(heard) && !resume.failed ==>
        Shows(old(run), agent, SawStopped) || Shows(old(run), agent, SawUnhealthy) || Shows(old(run), agent, SawAmbiguous)
    {
      hide Spawns, Seen, ValidRun, After, RestartSkipped, StartConflict, Interrupted, WellFormed, PostedOnce;
      NothingPosted(agent);
      resume, was, asked := NoResume, Ambiguous, None;
      var problem := Ask(agent);
      var status := InspectStatus(agent, entry, problem);
      if requireEligible && RestartSkipped(status) { return Err(Other), resume, was, asked; }
      if StartConflict(entry, status) { return Err(Conflict), resume, was, asked; }
      var interrupted: Option<Activity> := None;
      var failed := false;
      if status.health.Healthy? {
        interrupted, failed := DetectInterrupted(agent);
      }
      resume := resume.(failed := failed);
      r, resume, was, asked := StopAndStart(agent, entry, interrupted, resume, ticks);
    }

    /** The agent is stopped, and what is registered then is started. */
    method StopAndStart(agent: AgentID, entry: Entry, interrupted: Option<Activity>, before: Resume, ticks: nat)
      returns (r: Outcome, resume: Resume, ghost was: Health, ghost asked: Option<Record>)
      requires Valid() && Holds(w, me, agent)
      requires agent in w.registry && w.registry[agent] == entry
      requires interrupted.Some? ==> Interrupted(interrupted.value)
      requires !before.required && !before.sent
      modifies this`w, this`run, this`posted, this`heard
      ensures Valid() && Kept(old(w), w, me, agent) && PostedOnce(old(posted), agent) && Onward(old(run), agent)
      ensures resume.sent ==> resume.required && !resume.failed
      ensures resume.sent ==> posted != old(posted) && resume.threadID == posted[|old(posted)|].threadID
      ensures resume.required && !resume.sent ==> resume.failed
      ensures r.Ok? ==> r.status.health.Healthy? && Shows(old(run), agent, SawHealthy) && StopDone(old(run), agent, was, asked)
      ensures resume.required ==> r.Ok?
      ensures old(heard) <= heard && (interrupted.None? ==> heard == old(heard))
      ensures r.Ok? && interrupted.Some? ==> posted != old(posted) || resume.failed
      ensures before.failed && interrupted.None? ==> resume.failed
    {
      hide Spawns, Seen, ValidRun, After, Interrupted, WellFormed, PostedOnce;
      resume := before;
      assert PostedOnce(posted, agent) by { NothingPosted(agent); }
      var stopped, acknowledged;
      stopped, acknowledged, was, asked := StopEntryPolicy(agent, entry, true, false, ticks);
      if stopped.Err? { return stopped, resume, was, asked; }
      var reloaded := Reload(agent);
      if reloaded.None? { return Err(NotFound), resume, was, asked; }
      r, resume := StartAndResume(agent, reloaded.value, interrupted, acknowledged, resume, ticks);
    }

    lemma NothingPosted(agent: AgentID)
      ensures PostedOnce(posted, agent)
    {
    }

    /** The replacement is started, and the interrupted turn taken up again. */
    method StartAndResume(agent: AgentID, entry: Entry, interrupted: Option<Activity>, acknowledged: bool, before: Resume, ticks: nat)
      returns (r: Outcome, resume: Resume)
      requires Valid() && Holds(w, me, agent)
      requires agent in w.registry && w.registry[agent] == entry
      requires interrupted.Some? ==> Interrupted(interrupted.value)
      requires !before.required && !before.sent
      modifies this`w, this`run, this`posted, this`heard
      ensures Valid() && Kept(old(w), w, me, agent) && PostedOnce(old(posted), agent)
      ensures resume.sent ==> resume.required && !resume.failed
      ensures resume.sent ==> posted != old(posted) && resume.threadID == posted[|old(posted)|].threadID
      ensures resume.required && !resume.sent ==> resume.failed
      ensures Onward(old(run), agent)
      ensures r.Ok? ==> r.status.health.Healthy? && Shows(old(run), agent, SawHealthy)
      ensures resume.required ==> r.Ok?
      ensures old(heard) <= heard && (interrupted.None? ==> heard == old(heard))
      ensures r.Ok? && interrupted.Some? ==> posted != old(posted) || resume.failed
      ensures before.failed && interrupted.None? ==> resume.failed
    {
      hide Spawns, Seen, ValidRun, After, Interrupted, WellFormed;
      resume := before;
      ghost var seen;
      r, seen := StartEntry(agent, entry, ticks);
      if r.Ok? && interrupted.Some? {
        resume := ResumeInterrupted(agent, r.status, interrupted.value, acknowledged, ticks);
      }
    }

    // ----- operations -----

    /** Taking the agent's lifecycle lock, if it is free right now. */
    method TakeLock(agent: AgentID) returns (ok: bool)
      requires Valid()
      modifies this`w, this`run
      ensures Valid() && (ok ==> Holds(w, me, agent)) && Later(old(w), w) && Onward(old(run), agent) && Spawns(run, me) == Spawns(old(run), me)
    {
      Interfere(agent);
      if agent in w.locks { return false; }
      Do(Lock(agent));
      return true;
    }

    method ReleaseLock(agent: AgentID)
      requires Valid() && Holds(w, me, agent)
      modifies this`w, this`run
      ensures Valid() && agent !in w.locks && w.registry == old(w).registry && Later(old(w), w)
      ensures Spawns(run, me) == Spawns(old(run), me) && Onward(old(run), agent)
    {
      Do(Release(agent));
    }

    /** A change to the entry under the lock. */
    method UpdateAgent(agent: AgentID, enabled: Option<bool>, autostart: Option<bool>) returns (ok: bool)
      requires Valid() && Holds(w, me, agent)
      modifies this`w, this`run
      ensures Valid() && Holds(w, me, agent) && Later(old(w), w) && Onward(old(run), agent) && Spawns(run, me) == Spawns(old(run), me)
      ensures ok ==> agent in w.registry && (enabled.Some? ==> w.registry[agent].enabled == enabled.value)
      ensures ok ==> agent in w.registry && (autostart.Some? ==> w.registry[agent].autostart == autostart.value)
      ensures ok && enabled.None? && agent in old(w).registry ==> w.registry[agent].enabled == old(w).registry[agent].enabled
    {
      ok := Ask(agent);
      if ok {
        if agent !in w.registry { return false; }
        var entry := w.registry[agent];
        Do(Update(agent, Entry(if enabled.Some? then enabled.value else entry.enabled,
                               if autostart.Some? then autostart.value else entry.autostart)));
      }
    }

    /** The bound Supervisor's autostart follows an explicit start or stop. */
    method SupervisorAutostart(agent: AgentID, desired: bool) returns (ok: bool, bound: bool)
      requires Valid() && Holds(w, me, agent)
      modifies this`w, this`run
      ensures Valid() && Holds(w, me, agent) && Later(old(w), w) && Onward(old(run), agent) && Spawns(run, me) == Spawns(old(run), me)
      ensures ok && bound ==> agent in w.registry && w.registry[agent].autostart == desired
    {
      bound := false;
      ok := Ask(agent);
      if !ok { return; }
      bound := Ask(agent);
      if bound { ok := UpdateAgent(agent, None, Some(desired)); }
    }

    /** An explicit start: it ends Healthy with the entry enabled, and an agent
        that is the bound Supervisor is set to start automatically. */
    method Start(agent: AgentID, ticks: nat) returns (r: Outcome, ghost seen: Health, ghost supervisor: bool)
      requires Valid()
      modifies this`w, this`run
      ensures Valid() && Onward(old(run), agent) && SpawnedOn(Spawns(old(run), me), Spawns(run, me), agent, seen)
      ensures r.Ok? ==> r.status.health.Healthy? && agent in w.registry && w.registry[agent].enabled
      ensures r.Ok? ==> Shows(old(run), agent, SawHealthy)
      ensures seen.Ambiguous? || Observed(old(run), agent, seen)
      ensures r.Ok? && supervisor ==> w.registry[agent].autostart
    {
      seen, supervisor := Ambiguous, false;
      var locked := TakeLock(agent);
      if !locked { return Err(Conflict), seen, supervisor; }
      r, seen, supervisor := StartLocked(agent, ticks);
      ReleaseLock(agent);
    }

    method StartLocked(agent: AgentID, ticks: nat) returns (r: Outcome, ghost seen: Health, ghost supervisor: bool)
      requires Valid() && Holds(w, me, agent)
      modifies this`w, this`run
      ensures Valid() && Holds(w, me, agent) && Onward(old(run), agent) && SpawnedOn(Spawns(old(run), me), Spawns(run, me), agent, seen)
      ensures r.Ok? ==> r.status.health.Healthy? && agent in w.registry && w.registry[agent].enabled
      ensures r.Ok? ==> Shows(old(run), agent, SawHealthy)
      ensures seen.Ambiguous? || Observed(old(run), agent, seen)
      ensures r.Ok? && supervisor ==> w.registry[agent].autostart
    {
      seen, supervisor := Ambiguous, false;
      var reloaded := Reload(agent);
      if reloaded.None? { return Err(NotFound), seen, supervisor; }
      var ok;
      ok, supervisor := SupervisorAutostart(agent, true);
      if !ok { return Err(Other), seen, supervisor; }
      reloaded := Reload(agent);
      if reloaded.None? { return Err(NotFound), seen, supervisor; }
      r, seen := StartEntry(agent, reloaded.value, ticks);
    }

    method Stop(agent: AgentID, ticks: nat) returns (r: Outcome, ghost was: Health, ghost asked: Option<Record>)
      requires Valid()
      modifies this`w, this`run
      ensures Valid()
      ensures r.Ok? ==> StopDone(old(run), agent, was, asked)
    {
      was, asked := Ambiguous, None;
      var locked := TakeLock(agent);
      if !locked { return Err(Conflict), was, asked; }
      r, was, asked := StopLocked(agent, ticks);
      ReleaseLock(agent);
    }

    method StopLocked(agent: AgentID, ticks: nat) returns (r: Outcome, ghost was: Health, ghost asked: Option<Record>)
      requires Valid() && Holds(w, me, agent)
      modifies this`w, this`run
      ensures Valid() && Holds(w, me, agent)
      ensures r.Ok? ==> StopDone(old(run), agent, was, asked)
    {
      hide Spawns, Seen, ValidRun, After, WellFormed;
      was, asked := Ambiguous, None;
      var reloaded := Reload(agent);
      if reloaded.None? { return Err(NotFound), was, asked; }
      var ok, bound := SupervisorAutostart(agent, false);
      if !ok { return Err(Other), was, asked; }
      reloaded := Reload(agent);
      if reloaded.None? { return Err(NotFound), was, asked; }
      var acknowledged;
      r, acknowledged, was, asked := StopEntryPolicy(agent, reloaded.value, false, false, ticks);
    }

    method Restart(agent: AgentID, requireEligible: bool, ticks: nat)
      returns (r: Outcome, resume: Resume, ghost was: Health, ghost asked: Option<Record>)
      requires Valid()
      modifies this`w, this`run, this`posted, this`heard
      ensures Valid() && PostedOnce(old(posted), agent)
      ensures r.Ok? ==> Shows(old(run), agent, SawHealthy) && StopDone(old(run), agent, was, asked)
      ensures resume.sent ==> resume.required && !resume.failed && posted != old(posted)
      ensures resume.required && !resume.sent ==> resume.failed
      ensures r.Ok? ==> forall a | FirstHeard(old(heard), agent, a) && Interrupted(a) :: posted != old(posted) || resume.failed
      ensures r.Ok? && heard == old(heard) && !resume.failed ==>
        Shows(old(run), agent, SawStopped) || Shows(old(run), agent, SawUnhealthy) || Shows(old(run), agent, SawAmbiguous)
    {
      hide Spawns, Seen, ValidRun, After, WellFormed;
      resume, was, asked := NoResume, Ambiguous, None;
      var locked := TakeLock(agent);
      if !locked { return Err(Conflict), resume, was, asked; }
      var reloaded := Reload(agent);
      if reloaded.None? {
        r := Err(NotFound);
      } else {
        r, resume, was, asked := RestartEntry(agent, reloaded.value, requireEligible, ticks);
      }
      ReleaseLock(agent);
    }

    /** Disabling succeeds, and touches the entry at all, only after the stop
        did; either way the entry then says what was asked for. */
    method SetEnabled(agent: AgentID, enabled: bool, ticks: nat)
      returns (r: Outcome, ghost was: Health, ghost asked: Option<Record>)
      requires Valid()
      modifies this`w, this`run
      ensures Valid()
      ensures r.Ok? ==> agent in w.registry && w.registry[agent].enabled == enabled
      ensures r.Ok? && !enabled ==> StopDone(old(run), agent, was, asked)
    {
      was, asked := Ambiguous, None;
      var locked := TakeLock(agent);
      if !locked { return Err(Conflict), was, asked; }
      r, was, asked := SetEnabledLocked(agent, enabled, ticks);
      ReleaseLock(agent);
    }

    method SetEnabledLocked(agent: AgentID, enabled: bool, ticks: nat)
      returns (r: Outcome, ghost was: Health, ghost asked: Option<Record>)
      requires Valid() && Holds(w, me, agent)
      modifies this`w, this`run
      ensures Valid() && Holds(w, me, agent)
      ensures r.Ok? ==> agent in w.registry && w.registry[agent].enabled == enabled
      ensures r.Ok? && !enabled ==> StopDone(old(run), agent, was, asked)
      ensures !enabled && agent in old(w).registry ==>
        StopDone(old(run), agent, was, asked) || (agent in w.registry && w.registry[agent] == old(w).registry[agent])
    {
      hide Spawns, Seen, ValidRun, After, WellFormed;
      was, asked := Ambiguous, None;
      var reloaded := Reload(agent);
      if reloaded.None? { return Err(NotFound), was, asked; }
      if !enabled {
        var acknowledged;
        r, acknowledged, was, asked := StopEntryPolicy(agent, reloaded.value, false, false, ticks);
        if r.Err? { return; }
      }
      var ok := UpdateAgent(agent, Some(enabled), None);
      if !ok { return Err(Other), was, asked; }
      reloaded := Reload(agent);
      if reloaded.None? { return Err(NotFound), was, asked; }
      r := Inspected(agent, reloaded.value);
    }

    /** Removal deletes the entry only after the agent was stopped. */
    method RemoveAgent(agent: AgentID, ticks: nat) returns (ok: bool, ghost was: Health, ghost asked: Option<Record>)
      requires Valid()
      modifies this`w, this`run
      ensures Valid()
      ensures ok ==> agent !in w.registry
      ensures ok ==> StopDone(old(run), agent, was, asked)
    {
      was, asked := Ambiguous, None;
      var locked := TakeLock(agent);
      if !locked { return false, was, asked; }
      ok, was, asked := RemoveLocked(agent, ticks);
      ReleaseLock(agent);
    }

    method RemoveLocked(agent: AgentID, ticks: nat) returns (ok: bool, ghost was: Health, ghost asked: Option<Record>)
      requires Valid() && Holds(w, me, agent)
      modifies this`w, this`run
      ensures Valid() && Holds(w, me, agent)
      ensures ok ==> agent !in w.registry
      ensures ok ==> StopDone(old(run), agent, was, asked)
      ensures agent in old(w).registry ==>
        StopDone(old(run), agent, was, asked) || (agent in w.registry && w.registry[agent] == old(w).registry[agent])
    {
      hide Spawns, Seen, ValidRun, After, WellFormed;
      was, asked := Ambiguous, None;
      var reloaded := Reload(agent);
      if reloaded.None? { return false, was, asked; }
      // The Supervisor is refused here, and so is a wrong confirmation.
      var confirmed := Ask(agent);
      if !confirmed { return false, was, asked; }
      var stopped, acknowledged;
      stopped, acknowledged, was, asked := StopEntryPolicy(agent, reloaded.value, false, false, ticks);
      if stopped.Err? { return false, was, asked; }
      ok := DeleteEntry(agent);
    }

    /** The entry is deleted with the endpoint guard in hand. */
    method DeleteEntry(agent: AgentID) returns (ok: bool)
      requires Valid() && Holds(w, me, agent)
      modifies this`w, this`run
      ensures Valid() && Holds(w, me, agent) && Later(old(w), w) && Onward(old(run), agent)
      ensures ok ==> agent !in w.registry
    {
      hide Spawns, Seen, WellFormed;
      var guard := AcquireMaintenance(agent);
      if !guard.Free? { return false; }
      ok := Ask(agent);
      if ok { Do(Delete(agent)); }
      CloseMaintenance(agent);
    }

    /** Registration: the entry is made if it is missing, updated under its
        lock, and started if asked. */
    method Add(agent: AgentID, autostart: Option<bool>, start: bool, requireNew: bool, ticks: nat) returns (r: Outcome, created: bool)
      requires Valid()
      modifies this`w, this`run
      ensures Valid()
      ensures r.Ok? && requireNew ==> created
      ensures r.Ok? && start ==> r.status.health.Healthy? && Shows(old(run), agent, SawHealthy)
    {
      Interfere(agent);
      created := agent !in w.registry;
      if created { Do(Register(agent, Entry(true, false))); }
      if requireNew && !created { return Err(Conflict), false; }
      var locked := TakeLock(agent);
      if !locked { return Err(Conflict), created; }
      r := AddLocked(agent, autostart, start, ticks);
      ReleaseLock(agent);
    }

    method AddLocked(agent: AgentID, autostart: Option<bool>, start: bool, ticks: nat) returns (r: Outcome)
      requires Valid() && Holds(w, me, agent)
      modifies this`w, this`run
      ensures Valid() && Holds(w, me, agent)
      ensures r.Ok? && start ==> r.status.health.Healthy? && Shows(old(run), agent, SawHealthy)
    {
      if autostart.Some? {
        var ok := UpdateAgent(agent, None, autostart);
        if !ok { return Err(Other); }
      }
      var reloaded := Reload(agent);
      if reloaded.None? { return Err(NotFound); }
      if start {
        ghost var seen;
        r, seen := StartEntry(agent, reloaded.value, ticks);
      } else {
        r := Inspected(agent, reloaded.value);
      }
    }

    // ----- management and reconciliation -----

    method ApplyManagedLifecycle(agent: AgentID, entry: Entry, action: ManagedAction, interrupt: bool, ticks: nat)
      returns (r: Outcome, ghost was: Health, ghost asked: Option<Record>)
      requires Valid() && Holds(w, me, agent)
      requires agent in w.registry && w.registry[agent] == entry
      modifies this`w, this`run, this`posted, this`heard
      ensures Valid() && Holds(w, me, agent) && PostedOnce(old(posted), agent)
      ensures posted != old(posted) ==> action.RestartAgent? && interrupt
      ensures r.Ok? && (action.StartAgent? || action.RestartAgent?) ==> r.status.health.Healthy?
      ensures r.Ok? && action.EnableAgent? ==> agent in w.registry && w.registry[agent].enabled
      ensures r.Ok? && action.DisableAgent? ==> agent in w.registry && !w.registry[agent].enabled
      ensures r.Ok? && (action.StopAgent? || action.DisableAgent? || action.RestartAgent?) ==> StopDone(old(run), agent, was, asked)
      ensures r.Ok? && (action.StartAgent? || action.RestartAgent?) ==> Shows(old(run), agent, SawHealthy)
    {
      hide Spawns, Seen, ValidRun, After, WellFormed;
      was, asked := Ambiguous, None;
      match action
      case StartAgent =>
        ghost var seen;
        r, seen := StartEntry(agent, entry, ticks);
      case EnableAgent =>
        r := UpdateEnabled(agent, true);
      case RestartAgent =>
        if interrupt {
          var resume;
          r, resume, was, asked := RestartEntry(agent, entry, false, ticks);
          return;
        }
        r, was, asked := RestartIdle(agent, entry, ticks);
      case StopAgent =>
        r, was, asked := StopManaged(agent, entry, false, interrupt, ticks);
      case DisableAgent =>
        r, was, asked := StopManaged(agent, entry, true, interrupt, ticks);
    }

    /** A managed stop, after which the agent may be disabled. */
    method StopManaged(agent: AgentID, entry: Entry, disable: bool, interrupt: bool, ticks: nat)
      returns (r: Outcome, ghost was: Health, ghost asked: Option<Record>)
      requires Valid() && Holds(w, me, agent)
      modifies this`w, this`run
      ensures Valid() && Holds(w, me, agent)
      ensures r.Ok? ==> StopDone(old(run), agent, was, asked)
      ensures r.Ok? && disable ==> agent in w.registry && !w.registry[agent].enabled
      ensures agent in old(w).registry ==>
        StopDone(old(run), agent, was, asked) || (agent in w.registry && w.registry[agent] == old(w).registry[agent])
    {
      hide Spawns, Seen, ValidRun, After, WellFormed;
      var acknowledged;
      r, acknowledged, was, asked := StopEntryPolicy(agent, entry, false, !interrupt, ticks);
      if r.Ok? && disable { r := UpdateEnabled(agent, false); }
    }

    method UpdateEnabled(agent: AgentID, enabled: bool) returns (r: Outcome)
      requires Valid() && Holds(w, me, agent)
      modifies this`w, this`run
      ensures Valid() && Holds(w, me, agent) && Later(old(w), w) && Onward(old(run), agent)
      ensures r.Ok? ==> agent in w.registry && w.registry[agent].enabled == enabled
    {
      var ok := UpdateAgent(agent, Some(enabled), None);
      if !ok { return Err(Other); }
      var reloaded := Reload(agent);
      if reloaded.None? { return Err(NotFound); }
      r := Inspected(agent, reloaded.value);
    }

    /** A restart that waits for idleness: no turn is interrupted, none resumed. */
    method RestartIdle(agent: AgentID, entry: Entry, ticks: nat) returns (r: Outcome, ghost was: Health, ghost asked: Option<Record>)
      requires Valid() && Holds(w, me, agent)
      requires agent in w.registry && w.registry[agent] == entry
      modifies this`w, this`run
      ensures Valid() && Kept(old(w), w, me, agent)
      ensures r.Ok? ==> r.status.health.Healthy? && Shows(old(run), agent, SawHealthy) && StopDone(old(run), agent, was, asked)
    {
      hide Spawns, Seen, ValidRun, After, WellFormed, StartConflict;
      was, asked := Ambiguous, None;
      var problem := Ask(agent);
      var status := InspectStatus(agent, entry, problem);
      if StartConflict(entry, status) { return Err(Conflict), was, asked; }
      var acknowledged;
      r, acknowledged, was, asked := StopEntryPolicy(agent, entry, false, true, ticks);
      if r.Err? { return; }
      ghost var seen;
      r, seen := StartEntry(agent, entry, ticks);
    }

    /** A managed action: authorized, never on the caller itself, under the lock. */
    method ManagedLifecycle(agent: AgentID, caller: AgentID, action: ManagedAction, interrupt: bool, ticks: nat)
      returns (r: Outcome, ghost was: Health, ghost asked: Option<Record>)
      requires Valid()
      modifies this`w, this`run, this`posted, this`heard
      ensures Valid() && PostedOnce(old(posted), agent)
      ensures posted != old(posted) ==> action.RestartAgent? && interrupt
      ensures agent == caller ==> r.Err? && posted == old(posted) && Spawns(run, me) == Spawns(old(run), me)
      ensures r.Ok? && (action.StopAgent? || action.DisableAgent? || action.RestartAgent?) ==> StopDone(old(run), agent, was, asked)
      ensures r.Ok? && (action.StartAgent? || action.RestartAgent?) ==> r.status.health.Healthy? && Shows(old(run), agent, SawHealthy)
      ensures r.Ok? && action.EnableAgent? ==> agent in w.registry && w.registry[agent].enabled
      ensures r.Ok? && action.DisableAgent? ==> agent in w.registry && !w.registry[agent].enabled
    {
      hide Spawns, Seen, ValidRun, After, WellFormed;
      was, asked := Ambiguous, None;
      var authorized := Ask(agent);
      if !authorized || agent == caller { return Err(Other), was, asked; }
      var locked := TakeLock(agent);
      if !locked { return Err(Conflict), was, asked; }
      var reloaded := Reload(agent);
      if reloaded.None? {
        r := Err(NotFound);
      } else {
        r, was, asked := ApplyManagedLifecycle(agent, reloaded.value, action, interrupt, ticks);
      }
      ReleaseLock(agent);
    }

    /** What is to be reported of an agent found in this state. */
    ghost predicate Reported(reports: seq<Reconciled>, entry: Entry, seen: AgentStatus, outcome: Option<Outcome>, cleaned: bool) {
      var goOn := seen.health.Stopped? || cleaned;
      var starts := goOn && seen.binding.Bound? && entry.enabled && entry.autostart;
      && (cleaned ==> seen.health.Unhealthy?)
      && (Adopted in reports <==> seen.health.Healthy?)
      && (Cleaned in reports <==> cleaned)
      && (outcome.Some? <==> starts)
      && (Started in reports <==> starts && outcome.value.Ok?)
      && (Started in reports ==> outcome.value.status.health.Healthy?)
      && (Skipped in reports <==> goOn && !starts)
      && (Failed in reports ==>
            seen.health.Ambiguous? || (seen.health.Unhealthy? && !cleaned) || (starts && outcome.value.Err?))
      && ((seen.health.Unhealthy? && !cleaned) || (starts && outcome.value.Err?) ==> Failed in reports)
      && |reports| <= if cleaned then 2 else 1
    }

    /** What a report says rests on what was seen and done meanwhile. */
    ghost predicate Evident(t: Told, agent: AgentID, before: seq<Step>, now: seq<Step>)
      reads this`start
    {
      && (t.seen.health.Healthy? ==> Gave(before, now, agent, SawHealthy))
      && (t.seen.health.Unhealthy? ==> Gave(before, now, agent, SawUnhealthy))
      && (t.cleaned ==> Gave(before, now, agent, DidClean))
      && (Started in t.reports ==> Gave(before, now, agent, SawHealthy))
    }

    /** What was found and done for one entry, and how the run went on. */
    ghost predicate Accounts(t: Told, e: (AgentID, Entry), before: seq<Step>, now: seq<Step>)
      reads this`start
    {
      && Reported(t.reports, e.1, t.seen, t.outcome, t.cleaned) && t.seen.id == e.0
      && Evident(t, e.0, before, now)
      && (Spawns(now, me) != Spawns(before, me) ==> e.1.enabled && e.1.autostart)
      && SpawnedOn(Spawns(before, me), Spawns(now, me), e.0, t.health)
    }

    /** Startup reconciliation: healthy agents are adopted, stale records cleaned
        up, and the agents that should run are started. The reports are those of
        the entries in turn, and each says what happened to its agent in its
        stretch of the run, runs[i] to runs[i + 1]. */
    method Reconcile(entries: seq<(AgentID, Entry)>, ticks: nat)
      returns (reports: seq<(AgentID, Reconciled)>, ghost told: seq<Told>, ghost runs: seq<seq<Step>>)
      requires Valid()
      modifies this`w, this`run
      ensures Valid()
      ensures |told| == |entries| && reports == Listed(entries, told)
      ensures |runs| == |entries| + 1 && runs[0] == old(run) && runs[|entries|] == run
      ensures forall i | 0 <= i < |entries| :: Accounts(told[i], entries[i], runs[i], runs[i + 1])
    {
      hide Spawns, Seen, ValidRun, After, Accounts, WellFormed;
      reports, told, runs := [], [], [run];
      var i := 0;
      while i < |entries|
        invariant 0 <= i <= |entries| && Valid()
        invariant |told| == i && reports == Listed(entries[..i], told)
        invariant |runs| == i + 1 && runs[0] == old(run) && runs[i] == run
        invariant forall k | 0 <= k < i :: Accounts(told[k], entries[k], runs[k], runs[k + 1])
      {
        var e := entries[i];
        ghost var before := run;
        var own, seen, outcome, cleaned, health := ReconcileOne(e.0, e.1, ticks);
        ghost var t := Told(own, seen, outcome, cleaned, health);
        assert Accounts(t, e, before, run) by { AccountsFor(t, e, before); }
        ListedMore(entries[..i], told, e, t);
        assert entries[..i] + [e] == entries[..i + 1];
        reports := reports + seq(|own|, n requires 0 <= n < |own| => (e.0, own[n]));
        told, runs := told + [t], runs + [run];
        i := i + 1;
      }
      assert entries[..i] == entries;
    }

    lemma AccountsFor(t: Told, e: (AgentID, Entry), before: seq<Step>)
      requires Reported(t.reports, e.1, t.seen, t.outcome, t.cleaned) && t.seen.id == e.0
      requires Evident(t, e.0, before, run)
      requires Spawns(run, me) != Spawns(before, me) ==> e.1.enabled && e.1.autostart
      requires SpawnedOn(Spawns(before, me), Spawns(run, me), e.0, t.health)
      ensures Accounts(t, e, before, run)
    {
    }

    /** The Supervisor is started last, on a fresh look at its entry. */
    method ReconcileSupervisor(agent: AgentID, ticks: nat) returns (r: Option<Outcome>, ghost e: Option<Entry>, ghost seen: Health)
      requires Valid()
      modifies this`w, this`run
      ensures Valid() && Onward(old(run), agent) && SpawnedOn(Spawns(old(run), me), Spawns(run, me), agent, seen)
      ensures r.Some? && r.value.Ok? ==> Shows(old(run), agent, SawHealthy)
      ensures r.Some? && r.value.Ok? ==> r.value.status.health.Healthy? && e.Some? && e.value.enabled && e.value.autostart
      ensures r.None? ==> e.Some? && !(e.value.enabled && e.value.autostart)
      ensures Spawns(run, me) != Spawns(old(run), me) ==> e.Some? && e.value.enabled && e.value.autostart
    {
      r, e, seen := None, None, Ambiguous;
      var locked := TakeLock(agent);
      if !locked { return Some(Err(Conflict)), e, seen; }
      var reloaded := Reload(agent);
      e := reloaded;
      if reloaded.None? {
        r := Some(Err(NotFound));
      } else if reloaded.value.enabled && reloaded.value.autostart {
        var started;
        started, seen := StartEntry(agent, reloaded.value, ticks);
        r := Some(started);
      }
      ReleaseLock(agent);
    }

    method ReconcileOne(agent: AgentID, entry: Entry, ticks: nat)
      returns (reports: seq<Reconciled>, ghost seen: AgentStatus, ghost outcome: Option<Outcome>, ghost cleaned: bool, ghost health: Health)
      requires Valid()
      modifies this`w, this`run
      ensures Valid()
      ensures Reported(reports, entry, seen, outcome, cleaned) && seen.id == agent
      ensures Evident(Told(reports, seen, outcome, cleaned, health), agent, old(run), run)
      ensures Spawns(run, me) != Spawns(old(run), me) ==> entry.enabled && entry.autostart
      ensures SpawnedOn(Spawns(old(run), me), Spawns(run, me), agent, health)
    {
      hide Spawns, Seen, ValidRun, After, WellFormed, Kept;
      reports, outcome, cleaned, health := [], None, false, Ambiguous;
      seen := AgentStatus(agent, entry.enabled, entry.autostart, Invalid, Ambiguous, false, false, false, false);
      var readable := Ask(agent);
      if !readable { reports := [Failed]; return; }
      var supervisor := Ask(agent);
      // The Supervisor is started after the others.
      if supervisor { return; }
      var problem := Ask(agent);
      var status := InspectStatus(agent, entry, problem);
      seen := status;
      reports, outcome, cleaned, health := ReconcileFound(agent, entry, status, ticks);
    }

    /** What is done about an agent found in this state. */
    method ReconcileFound(agent: AgentID, entry: Entry, status: AgentStatus, ticks: nat)
      returns (reports: seq<Reconciled>, ghost outcome: Option<Outcome>, ghost cleaned: bool, ghost health: Health)
      requires Valid() && status.enabled == entry.enabled && status.autostart == entry.autostart
      modifies this`w, this`run
      ensures Valid() && Onward(old(run), agent)
      ensures Reported(reports, entry, status, outcome, cleaned) && reports != []
      ensures cleaned ==> Shows(old(run), agent, DidClean)
      ensures Started in reports ==> Shows(old(run), agent, SawHealthy)
      ensures Spawns(run, me) != Spawns(old(run), me) ==> entry.enabled && entry.autostart
      ensures SpawnedOn(Spawns(old(run), me), Spawns(run, me), agent, health)
    {
      hide Spawns, Seen, ValidRun, After, WellFormed, Kept;
      reports, outcome, cleaned, health := [], None, false, Ambiguous;
      if status.health.Healthy? { reports := [Adopted]; return; }
      if status.health.Ambiguous? { reports := [Failed]; return; }
      if status.health.Unhealthy? {
        var done := CleanOnStartup(agent);
        if !done { reports := [Failed]; return; }
        cleaned := true;
        reports := [Cleaned];
      }
      if status.binding.Bound? && status.enabled && status.autostart {
        var started;
        ghost var bound;
        started, health, bound := Start(agent, ticks);
        outcome := Some(started);
        reports := reports + [if started.Ok? then Started else Failed];
      } else {
        reports := reports + [Skipped];
      }
    }

    /** Cleaning up under the lock. */
    method CleanOnStartup(agent: AgentID) returns (cleaned: bool)
      requires Valid()
      modifies this`w, this`run
      ensures Valid() && Spawns(run, me) == Spawns(old(run), me) && Onward(old(run), agent)
      ensures cleaned ==> Shows(old(run), agent, DidClean)
    {
      cleaned := false;
      var locked := TakeLock(agent);
      if !locked { return false; }
      var read := ReadRuntime(agent);
      if read.Found? {
        cleaned := CleanStaleRuntime(agent, read.record);
      }
      ReleaseLock(agent);
    }
  }

  lemma OneStep(w: World, s: Step)
    requires Enabled(w, s)
    ensures ValidRun(w, [s]) && After(w, [s]) == Apply(w, s)
  {
    assert [s][1..] == [];
    assert ValidRun(Apply(w, s), []) && After(Apply(w, s), []) == Apply(w, s);
  }

  lemma {:induction false} RunJoin(w: World, a: seq<Step>, b: seq<Step>)
    requires ValidRun(w, a) && ValidRun(After(w, a), b)
    ensures ValidRun(w, a + b) && After(w, a + b) == After(After(w, a), b)
    decreases |a|
  {
    if a == [] {
      assert a + b == b;
    } else {
      RunJoin(Apply(w, a[0]), a[1..], b);
      assert (a + b)[1..] == a[1..] + b;
    }
  }
}
