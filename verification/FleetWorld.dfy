/** The world several Fleet managers act on at once: processes that die and
    whose pids are reused, runtime records on disk, the agent registry, the
    lifecycle locks and the endpoint guards. Each atomic step belongs to an
    actor and has a guard; a run is any interleaving of guarded steps. */
module FleetWorld {
  import opened Transcript
  import opened FleetRecords
  import opened FleetStatus

  type Actor = nat

  /** Who has an agent's endpoint: a process that is starting or serving, or a
      manager for maintenance. */
  datatype Guardian = Process(incarnation: Incarnation) | Maintainer(actor: Actor)

  /** Why an actor may spawn an agent: it was found stopped, or its stale record
      was removed on these observations, or was gone by the time it came to it. */
  datatype Cause =
    | FoundStopped
    | CleanedUp(record: Record, inspection: Inspection, probe: Probe)
    | NothingToClean

  /** What an actor has observed of an agent since it last took or let go of a
      lock. `guarded`: it had the agent's endpoint when it read the record. */
  datatype Note =
    | SawNone(agent: AgentID)
    | Saw(agent: AgentID, record: Record, guarded: bool)
    | SawDead(agent: AgentID, record: Record, guarded: bool, inspection: Inspection)
    | SawAlive(agent: AgentID, record: Record, guarded: bool, inspection: Inspection)
    | Judged(agent: AgentID, record: Record, guarded: bool, inspection: Inspection, probe: Probe)
    | Cleared(agent: AgentID, cause: Cause)

  datatype World = World(
    born: map<Incarnation, Pid>,
    dead: set<Incarnation>,
    alive: map<Pid, Incarnation>,
    runtime: map<AgentID, Record>,
    guards: map<AgentID, Guardian>,
    registry: map<AgentID, Entry>,
    locks: map<AgentID, Actor>,
    notes: map<Actor, Note>)

  datatype Action =
    // Processes.
    | Born(incarnation: Incarnation, pid: Pid)
    | Die(incarnation: Incarnation)
    | Bind(agent: AgentID, incarnation: Incarnation)
    | Unbind(agent: AgentID)
    | Publish(agent: AgentID, record: Record)
    | Withdraw(agent: AgentID, record: Record)
    // Managers.
    | Lock(agent: AgentID)
    | Release(agent: AgentID)
    | Guard(agent: AgentID)
    | Unguard(agent: AgentID)
    | Read(agent: AgentID)
    | FindGone
    | FindReplaced
    | FindAlive(identity: Identity)
    | Hear(probe: Probe)
    | Doubt(agent: AgentID)
    | FindUnbound(agent: AgentID)
    | Remove(agent: AgentID, record: Record)
    | Shut(agent: AgentID, record: Record)
    | Spawn(agent: AgentID, binding: Binding, cause: Cause)
    | Register(agent: AgentID, entry: Entry)
    | Update(agent: AgentID, entry: Entry)
    | Delete(agent: AgentID)

  datatype Step = By(actor: Actor, action: Action)

  /** The record names an incarnation that existed, by its own pid and, if at
      all, its own fingerprint. */
  predicate Names(w: World, r: Record) {
    && r.writer in w.born && w.born[r.writer] == r.pid
    && (r.identity.Some? ==> r.identity.value == r.writer)
  }

  predicate Holds(w: World, actor: Actor, agent: AgentID) {
    agent in w.locks && w.locks[agent] == actor
  }

  predicate Maintains(w: World, actor: Actor, agent: AgentID) {
    agent in w.guards && w.guards[agent] == Maintainer(actor)
  }

  predicate Serves(w: World, incarnation: Incarnation, agent: AgentID) {
    agent in w.guards && w.guards[agent] == Process(incarnation)
  }

  predicate Noted(w: World, actor: Actor, note: Note) {
    actor in w.notes && w.notes[actor] == note
  }

  predicate HasCleared(w: World, actor: Actor, agent: AgentID) {
    actor in w.notes && w.notes[actor].Cleared? && w.notes[actor].agent == agent
  }

  /** What a step may assume of the world it happens in. */
  predicate Enabled(w: World, s: Step) {
    match s.action
    case Born(i, pid) => i !in w.born && pid !in w.alive
    case Die(i) => i in w.born && i !in w.dead
    case Bind(a, i) => a !in w.guards && i in w.born && i !in w.dead
    case Unbind(a) => a in w.guards && w.guards[a].Process?
    case Publish(a, r) => Serves(w, r.writer, a) && Names(w, r)
    case Withdraw(a, r) => Serves(w, r.writer, a)
    case Lock(a) => a !in w.locks
    case Release(a) => Holds(w, s.actor, a)
    case Guard(a) => a !in w.guards
    case Unguard(a) => Maintains(w, s.actor, a)
    case Read(_) => true
    case FindGone => s.actor in w.notes && w.notes[s.actor].Saw? && w.notes[s.actor].record.pid !in w.alive
    case FindReplaced =>
      s.actor in w.notes && w.notes[s.actor].Saw? &&
      (var r := w.notes[s.actor].record; r.pid in w.alive && r.identity.Some? && w.alive[r.pid] != r.identity.value)
    case FindAlive(i) =>
      s.actor in w.notes && w.notes[s.actor].Saw? && !i.IdentityReplaced? &&
      (var r := w.notes[s.actor].record; r.pid in w.alive && (i.IdentityMatched? ==> r.identity == Some(w.alive[r.pid])))
    case Doubt(_) => true
    case FindUnbound(_) => true
    case Hear(_) => s.actor in w.notes && (w.notes[s.actor].SawDead? || w.notes[s.actor].SawAlive?)
    case Shut(a, r) =>
      s.actor in w.notes && w.notes[s.actor].Saw? && w.notes[s.actor].agent == a && w.notes[s.actor].record == r
    case Remove(a, r) =>
      && Holds(w, s.actor, a) && Maintains(w, s.actor, a)
      && s.actor in w.notes && w.notes[s.actor].Judged?
      && (var n := w.notes[s.actor]; n.agent == a && n.record == r && n.guarded && CleanupRemoves(n.inspection, n.probe))
    case Spawn(a, binding, cause) =>
      && Holds(w, s.actor, a) && Noted(w, s.actor, Cleared(a, cause)) && binding.Bound?
      && a in w.registry && w.registry[a].enabled
    case Register(a, _) => a !in w.registry
    case Update(a, _) => Holds(w, s.actor, a) && a in w.registry
    case Delete(a) => Holds(w, s.actor, a) && Maintains(w, s.actor, a)
  }

  function Without(guards: map<AgentID, Guardian>, i: Incarnation): map<AgentID, Guardian> {
    map a | a in guards && guards[a] != Process(i) :: guards[a]
  }

  /** What reading the record tells an actor. A record missing while the actor
      has both the lock and the endpoint leaves nothing to clean. */
  function AfterReading(w: World, actor: Actor, a: AgentID): Note {
    if a in w.runtime then Saw(a, w.runtime[a], Maintains(w, actor, a))
    else if Holds(w, actor, a) && Maintains(w, actor, a) then Cleared(a, NothingToClean)
    else SawNone(a)
  }

  const GONE := Inspection(false, true, IdentityUnknown)
  const REPLACED := Inspection(true, true, IdentityReplaced)

  function BornAfter(w: World, s: Step): map<Incarnation, Pid> {
    if s.action.Born? then w.born[s.action.incarnation := s.action.pid] else w.born
  }

  function DeadAfter(w: World, s: Step): set<Incarnation> {
    if s.action.Die? then w.dead + {s.action.incarnation} else w.dead
  }

  function AliveAfter(w: World, s: Step): map<Pid, Incarnation> {
    match s.action
    case Born(i, pid) => w.alive[pid := i]
    case Die(i) => map p | p in w.alive && w.alive[p] != i :: w.alive[p]
    case _ => w.alive
  }

  /** Both ways of removing a record leave a different one alone. */
  function RuntimeAfter(w: World, s: Step): map<AgentID, Record> {
    match s.action
    case Publish(a, r) => w.runtime[a := r]
    case Withdraw(a, r) => if a in w.runtime && w.runtime[a] == r then w.runtime - {a} else w.runtime
    case Remove(a, r) => if a in w.runtime && w.runtime[a] == r then w.runtime - {a} else w.runtime
    case _ => w.runtime
  }

  /** A process that dies lets go of its endpoint. */
  function GuardsAfter(w: World, s: Step): map<AgentID, Guardian> {
    match s.action
    case Die(i) => Without(w.guards, i)
    case Bind(a, i) => w.guards[a := Process(i)]
    case Unbind(a) => w.guards - {a}
    case Guard(a) => w.guards[a := Maintainer(s.actor)]
    case Unguard(a) => w.guards - {a}
    case _ => w.guards
  }

  function RegistryAfter(w: World, s: Step): map<AgentID, Entry> {
    match s.action
    case Register(a, e) => w.registry[a := e]
    case Update(a, e) => w.registry[a := e]
    case Delete(a) => w.registry - {a}
    case _ => w.registry
  }

  function LocksAfter(w: World, s: Step): map<AgentID, Actor> {
    match s.action
    case Lock(a) => w.locks[a := s.actor]
    case Release(a) => w.locks - {a}
    case _ => w.locks
  }

  /** What the actor of a step knows after it. A free endpoint, after the record
      was missing, means that the agent is stopped. */
  function OwnNoteAfter(w: World, s: Step): Option<Note>
    requires Enabled(w, s)
  {
    var me := s.actor;
    var kept := if me in w.notes then Some(w.notes[me]) else None;
    match s.action
    case Lock(_) => None
    case Release(_) => None
    case Guard(a) => if kept == Some(SawNone(a)) && Holds(w, me, a) then Some(Cleared(a, FoundStopped)) else kept
    case Unguard(_) => if kept.Some? && kept.value.Cleared? then kept else None
    case Read(a) => Some(AfterReading(w, me, a))
    case FindGone => Some(SawDead(kept.value.agent, kept.value.record, kept.value.guarded, GONE))
    case FindReplaced => Some(SawDead(kept.value.agent, kept.value.record, kept.value.guarded, REPLACED))
    case FindAlive(i) => Some(SawAlive(kept.value.agent, kept.value.record, kept.value.guarded, Inspection(true, true, i)))
    case Hear(p) =>
      if kept.value.SawDead? then Some(Judged(kept.value.agent, kept.value.record, kept.value.guarded, kept.value.inspection, p)) else kept
    case Remove(a, r) => Some(Cleared(a, CleanedUp(r, kept.value.inspection, kept.value.probe)))
    case Spawn(_, _, _) => None
    case _ => kept
  }

  function NotesAfter(w: World, s: Step): map<Actor, Note>
    requires Enabled(w, s)
  {
    var own := OwnNoteAfter(w, s);
    if own.None? then w.notes - {s.actor} else w.notes[s.actor := own.value]
  }

  function Apply(w: World, s: Step): World
    requires Enabled(w, s)
  {
    World(BornAfter(w, s), DeadAfter(w, s), AliveAfter(w, s), RuntimeAfter(w, s), GuardsAfter(w, s),
          RegistryAfter(w, s), LocksAfter(w, s), NotesAfter(w, s))
  }

  predicate ValidRun(w: World, run: seq<Step>)
    decreases |run|
  {
    run == [] || (Enabled(w, run[0]) && ValidRun(Apply(w, run[0]), run[1..]))
  }

  function After(w: World, run: seq<Step>): World
    requires ValidRun(w, run)
    decreases |run|
  {
    if run == [] then w else After(Apply(w, run[0]), run[1..])
  }

  // ----- what every reachable world satisfies -----

  /** Exactly the living have a pid of their own. */
  predicate ProcessesWellFormed(w: World) {
    && (forall p | p in w.alive :: w.alive[p] in w.born && w.born[w.alive[p]] == p && w.alive[p] !in w.dead)
    && (forall i | i in w.born && i !in w.dead :: w.born[i] in w.alive && w.alive[w.born[i]] == i)
    && (forall i | i in w.dead :: i in w.born)
  }

  predicate RecordsWellFormed(w: World) {
    forall a | a in w.runtime :: Names(w, w.runtime[a])
  }

  /** A record an actor saw is a real one, and still there as long as the actor
      has had the endpoint since. */
  predicate RecordSound(w: World, actor: Actor, a: AgentID, r: Record, guarded: bool) {
    && Names(w, r)
    && (guarded ==> Maintains(w, actor, a) && a in w.runtime && w.runtime[a] == r)
  }

  /** What an actor has noted is true, and what it concluded follows. */
  predicate NoteSound(w: World, actor: Actor)
    requires actor in w.notes
  {
    match w.notes[actor]
    case SawNone(_) => true
    case Saw(a, r, guarded) => RecordSound(w, actor, a, r, guarded)
    case SawDead(a, r, guarded, _) => RecordSound(w, actor, a, r, guarded) && r.writer in w.dead
    case SawAlive(a, r, guarded, _) => RecordSound(w, actor, a, r, guarded)
    case Judged(a, r, guarded, _, _) => RecordSound(w, actor, a, r, guarded) && r.writer in w.dead
    case Cleared(a, cause) => Holds(w, actor, a) && (cause.CleanedUp? ==> cause.record.writer in w.dead)
  }

  predicate NotesSound(w: World) {
    forall m | m in w.notes :: NoteSound(w, m)
  }

  predicate WellFormed(w: World) {
    ProcessesWellFormed(w) && RecordsWellFormed(w) && NotesSound(w)
  }

  lemma StepProcesses(w: World, s: Step)
    requires ProcessesWellFormed(w) && Enabled(w, s)
    ensures ProcessesWellFormed(Apply(w, s))
  {
    hide RuntimeAfter, GuardsAfter, RegistryAfter, LocksAfter, NotesAfter;
  }

  lemma StepNames(w: World, s: Step, r: Record)
    requires Enabled(w, s) && Names(w, r)
    ensures Names(Apply(w, s), r)
  {
    hide AliveAfter, DeadAfter, RuntimeAfter, GuardsAfter, RegistryAfter, LocksAfter, NotesAfter;
  }

  lemma StepRecords(w: World, s: Step)
    requires RecordsWellFormed(w) && Enabled(w, s)
    ensures RecordsWellFormed(Apply(w, s))
  {
    hide BornAfter, AliveAfter, DeadAfter, GuardsAfter, RegistryAfter, LocksAfter, NotesAfter, Names;
    forall a | a in RuntimeAfter(w, s) ensures Names(Apply(w, s), RuntimeAfter(w, s)[a]) {
      StepNames(w, s, RuntimeAfter(w, s)[a]);
    }
  }

  /** A process that is not found under its pid, or found to be another one, is
      dead. */
  lemma FoundDead(w: World, r: Record)
    requires ProcessesWellFormed(w) && Names(w, r)
    requires r.pid !in w.alive || (r.identity.Some? && w.alive[r.pid] != r.identity.value)
    ensures r.writer in w.dead
  {
  }

  /** While an actor has the endpoint, the record is out of everybody's reach but
      its own. */
  lemma GuardedRecord(w: World, s: Step, m: Actor, a: AgentID)
    requires Enabled(w, s) && Maintains(w, m, a)
    requires s.actor == m ==> !s.action.Remove? && !s.action.Unguard?
    ensures Maintains(Apply(w, s), m, a)
    ensures a in w.runtime <==> a in Apply(w, s).runtime
    ensures a in w.runtime ==> Apply(w, s).runtime[a] == w.runtime[a]
  {
    hide BornAfter, AliveAfter, DeadAfter, RegistryAfter, LocksAfter, NotesAfter, Names;
  }

  lemma RecordStaysSound(w: World, s: Step, m: Actor, a: AgentID, r: Record, guarded: bool)
    requires Enabled(w, s) && RecordSound(w, m, a, r, guarded)
    requires s.actor == m ==> !s.action.Remove? && !s.action.Unguard?
    ensures RecordSound(Apply(w, s), m, a, r, guarded)
  {
    hide Apply, Enabled, Names, Maintains;
    StepNames(w, s, r);
    if guarded { GuardedRecord(w, s, m, a); }
  }

  lemma LockKept(w: World, s: Step, m: Actor, a: AgentID)
    requires Enabled(w, s) && Holds(w, m, a)
    requires s.actor == m ==> !s.action.Release?
    ensures Holds(Apply(w, s), m, a)
  {
    hide BornAfter, AliveAfter, DeadAfter, RegistryAfter, RuntimeAfter, GuardsAfter, NotesAfter, Names;
  }

  /** A note that is kept stays true, whoever acts. */
  lemma KeptNote(w: World, s: Step, m: Actor)
    requires WellFormed(w) && Enabled(w, s) && m in w.notes && m in Apply(w, s).notes
    requires Apply(w, s).notes[m] == w.notes[m]
    requires s.actor == m ==> !s.action.Remove? && !s.action.Release? && (s.action.Unguard? ==> w.notes[m].Cleared?)
    ensures NoteSound(Apply(w, s), m)
  {
    assert NoteSound(w, m);
    assert w.dead <= Apply(w, s).dead;
    hide Apply, Enabled, RecordSound, Holds, WellFormed;
    match w.notes[m]
    case SawNone(_) =>
    case Saw(a, r, guarded) => RecordStaysSound(w, s, m, a, r, guarded);
    case SawDead(a, r, guarded, _) => RecordStaysSound(w, s, m, a, r, guarded);
    case SawAlive(a, r, guarded, _) => RecordStaysSound(w, s, m, a, r, guarded);
    case Judged(a, r, guarded, _, _) => RecordStaysSound(w, s, m, a, r, guarded);
    case Cleared(a, _) => LockKept(w, s, m, a);
  }

  /** The notes that a step makes are true. */
  lemma ReadNote(w: World, s: Step)
    requires WellFormed(w) && Enabled(w, s) && s.action.Read?
    ensures NoteSound(Apply(w, s), s.actor)
  {
  }

  lemma DeadNote(w: World, s: Step)
    requires WellFormed(w) && Enabled(w, s) && (s.action.FindGone? || s.action.FindReplaced?)
    ensures NoteSound(Apply(w, s), s.actor)
  {
    var n := w.notes[s.actor];
    assert NoteSound(w, s.actor);
    FoundDead(w, n.record);
    RecordStaysSound(w, s, s.actor, n.agent, n.record, n.guarded);
    hide RecordSound;
  }

  lemma JudgedNote(w: World, s: Step)
    requires WellFormed(w) && Enabled(w, s) && s.action.Hear?
    ensures NoteSound(Apply(w, s), s.actor)
  {
    var n := w.notes[s.actor];
    assert NoteSound(w, s.actor);
    RecordStaysSound(w, s, s.actor, n.agent, n.record, n.guarded);
    hide RecordSound;
  }

  lemma AliveNote(w: World, s: Step)
    requires WellFormed(w) && Enabled(w, s) && s.action.FindAlive?
    ensures NoteSound(Apply(w, s), s.actor)
  {
    var n := w.notes[s.actor];
    assert NoteSound(w, s.actor);
    RecordStaysSound(w, s, s.actor, n.agent, n.record, n.guarded);
    hide RecordSound;
  }

  lemma ClearedNote(w: World, s: Step)
    requires WellFormed(w) && Enabled(w, s) && (s.action.Remove? || s.action.Guard?) && s.actor in Apply(w, s).notes
    requires Apply(w, s).notes[s.actor].Cleared?
    ensures NoteSound(Apply(w, s), s.actor)
  {
    if s.actor in w.notes { assert NoteSound(w, s.actor); }
  }

  lemma OwnNote(w: World, s: Step)
    requires WellFormed(w) && Enabled(w, s) && s.actor in Apply(w, s).notes
    ensures NoteSound(Apply(w, s), s.actor)
  {
    hide WellFormed, NoteSound, Enabled;
    if s.action.Read? { ReadNote(w, s); }
    else if s.action.FindGone? || s.action.FindReplaced? { DeadNote(w, s); }
    else if s.action.FindAlive? { AliveNote(w, s); }
    else if s.action.Hear? { JudgedNote(w, s); }
    else if s.action.Remove? || (s.action.Guard? && Apply(w, s).notes[s.actor].Cleared?) { ClearedNote(w, s); }
    else { KeptNote(w, s, s.actor); }
  }

  lemma StepWellFormed(w: World, s: Step)
    requires WellFormed(w) && Enabled(w, s)
    ensures WellFormed(Apply(w, s))
  {
    StepProcesses(w, s);
    StepRecords(w, s);
    hide ProcessesWellFormed, RecordsWellFormed, NoteSound, Enabled, OwnNoteAfter;
    forall m | m in Apply(w, s).notes ensures NoteSound(Apply(w, s), m) {
      if m == s.actor { OwnNote(w, s); } else { KeptNote(w, s, m); }
    }
  }

  // ----- runs -----

  /** Nothing comes back from the dead, and incarnations keep their pids. */
  predicate Later(w: World, w': World) {
    && w.dead <= w'.dead
    && (forall i | i in w.born :: i in w'.born && w'.born[i] == w.born[i])
  }

  lemma StepLater(w: World, s: Step)
    requires Enabled(w, s)
    ensures Later(w, Apply(w, s))
  {
    hide AliveAfter, RuntimeAfter, GuardsAfter, RegistryAfter, LocksAfter, NotesAfter;
  }

  lemma {:induction false} RunLater(w: World, run: seq<Step>)
    requires WellFormed(w) && ValidRun(w, run)
    ensures WellFormed(After(w, run)) && Later(w, After(w, run))
    decreases |run|
  {
    hide Enabled, Apply, WellFormed;
    if run != [] {
      StepWellFormed(w, run[0]);
      StepLater(w, run[0]);
      RunLater(Apply(w, run[0]), run[1..]);
    }
  }

  /** What others cannot do: take what an actor holds, change the entry under
      its lock or the record under its guard, or touch what it has noted. */
  predicate Undisturbed(w: World, w': World, me: Actor, agent: AgentID) {
    && (Holds(w, me, agent) ==> Holds(w', me, agent))
    && (Holds(w, me, agent) && agent in w.registry ==> agent in w'.registry && w'.registry[agent] == w.registry[agent])
    && (Maintains(w, me, agent) ==> Maintains(w', me, agent))
    && (Maintains(w, me, agent) && agent in w.runtime ==> agent in w'.runtime && w'.runtime[agent] == w.runtime[agent])
    && (Maintains(w, me, agent) && agent !in w.runtime ==> agent !in w'.runtime)
    && (me in w.notes <==> me in w'.notes)
    && (me in w.notes ==> w'.notes[me] == w.notes[me])
  }

  lemma EntryKept(w: World, s: Step, me: Actor, agent: AgentID)
    requires Enabled(w, s) && s.actor != me && Holds(w, me, agent) && agent in w.registry
    ensures agent in Apply(w, s).registry && Apply(w, s).registry[agent] == w.registry[agent]
  {
    hide BornAfter, AliveAfter, DeadAfter, LocksAfter, RuntimeAfter, GuardsAfter, NotesAfter, Names;
  }

  lemma OtherDoesNotDisturb(w: World, s: Step, me: Actor, agent: AgentID)
    requires Enabled(w, s) && s.actor != me
    ensures Undisturbed(w, Apply(w, s), me, agent)
  {
    if Holds(w, me, agent) { LockKept(w, s, me, agent); }
    if Holds(w, me, agent) && agent in w.registry { EntryKept(w, s, me, agent); }
    if Maintains(w, me, agent) { GuardedRecord(w, s, me, agent); }
    hide Enabled, OwnNoteAfter, Holds, Maintains, BornAfter, AliveAfter, DeadAfter, LocksAfter, RuntimeAfter, GuardsAfter, RegistryAfter;
  }

  lemma {:induction false} OthersDoNotDisturb(w: World, run: seq<Step>, me: Actor, agent: AgentID)
    requires ValidRun(w, run)
    requires forall k | 0 <= k < |run| :: run[k].actor != me
    ensures Undisturbed(w, After(w, run), me, agent)
    decreases |run|
  {
    if run != [] {
      assert run[0].actor != me;
      OtherDoesNotDisturb(w, run[0], me, agent);
      OthersDoNotDisturb(Apply(w, run[0]), run[1..], me, agent);
    }
  }

  lemma FirstStep(w: World, run: seq<Step>)
    requires run != []
    ensures ValidRun(w, run) <==> Enabled(w, run[0]) && ValidRun(Apply(w, run[0]), run[1..])
    ensures ValidRun(w, run) ==> After(w, run) == After(Apply(w, run[0]), run[1..])
  {
    hide Enabled, Apply;
  }

  lemma {:induction false} RunSplit(w: World, run: seq<Step>, k: nat)
    requires k <= |run| && ValidRun(w, run)
    ensures ValidRun(w, run[..k]) && ValidRun(After(w, run[..k]), run[k..])
    ensures After(After(w, run[..k]), run[k..]) == After(w, run)
    decreases |run|
  {
    if k == 0 {
      assert run[..0] == [] && run[0..] == run;
    } else {
      hide Enabled, Apply, ValidRun, After;
      FirstStep(w, run);
      RunSplit(Apply(w, run[0]), run[1..], k - 1);
      assert run[..k][1..] == run[1..][..k - 1] && run[..k][0] == run[0];
      assert run[k..] == run[1..][k - 1..];
      FirstStep(w, run[..k]);
    }
  }

  /** The step at position k, and the worlds around it. */
  lemma StepAt(w: World, run: seq<Step>, k: nat)
    requires k < |run| && ValidRun(w, run)
    ensures ValidRun(w, run[..k]) && ValidRun(w, run[..k + 1])
    ensures Enabled(After(w, run[..k]), run[k])
    ensures After(w, run[..k + 1]) == Apply(After(w, run[..k]), run[k])
  {
    RunSplit(w, run, k);
    RunSplit(w, run, k + 1);
    RunSplit(w, run[..k + 1], k);
    assert run[..k + 1][..k] == run[..k] && run[..k + 1][k..] == [run[k]];
    assert [run[k]][1..] == [];
  }

  // ----- removals -----

  /** Every runtime record Fleet removes, anywhere in any run, is the one on
      disk, is removed under the agent's lock and endpoint guard on observations
      that classify the runtime as unhealthy, and names an incarnation that is
      dead by then and stays dead. */
  lemma RemovedAreDead(w: World, run: seq<Step>, k: nat)
    requires WellFormed(w) && ValidRun(w, run)
    requires k < |run| && run[k].action.Remove?
    ensures ValidRun(w, run[..k])
    ensures var at, a, r, me := After(w, run[..k]), run[k].action.agent, run[k].action.record, run[k].actor;
      && Holds(at, me, a) && Maintains(at, me, a) && a in at.runtime && at.runtime[a] == r
      && me in at.notes && at.notes[me].Judged? && Classify(r, at.notes[me].inspection, at.notes[me].probe).Unhealthy?
      && r.writer in at.dead && r.writer in After(w, run).dead
  {
    StepAt(w, run, k);
    RunLater(w, run[..k]);
    var at := After(w, run[..k]);
    assert NoteSound(at, run[k].actor);
    SameDecision(run[k].action.record, at.notes[run[k].actor].inspection, at.notes[run[k].actor].probe);
    RunSplit(w, run, k);
    RunLater(at, run[k..]);
  }

  /** A disabled agent is not spawned again until it is enabled or registered
      anew as enabled. */
  lemma {:induction false} DisabledIsNotSpawned(w: World, run: seq<Step>, agent: AgentID, k: nat)
    requires ValidRun(w, run)
    requires agent in w.registry ==> !w.registry[agent].enabled
    requires forall j | 0 <= j < |run| ::
      && !(run[j].action.Update? && run[j].action.agent == agent && run[j].action.entry.enabled)
      && !(run[j].action.Register? && run[j].action.agent == agent && run[j].action.entry.enabled)
    requires k < |run|
    ensures !(run[k].action.Spawn? && run[k].action.agent == agent)
    decreases |run|
  {
    if k > 0 {
      var next := Apply(w, run[0]);
      assert agent in next.registry ==> !next.registry[agent].enabled;
      DisabledIsNotSpawned(next, run[1..], agent, k - 1);
    }
  }

  // ----- what leads up to a spawn -----

  /** Steps that would invalidate what an actor has seen of the agent. */
  predicate Disturbs(s: Step, me: Actor, agent: AgentID) {
    && (s.action.Spawn? || s.action.Release? || s.action.Lock? || (s.actor != me && (s.action.Update? || s.action.Delete? || s.action.Remove?)))
    && s.action.agent == agent
  }

  /** The actor read the record of the agent and found none. */
  ghost predicate FoundNone(w: World, run: seq<Step>, me: Actor, agent: AgentID, i: nat)
    requires ValidRun(w, run)
  {
    && i < |run| && run[i] == By(me, Read(agent))
    && ValidRun(w, run[..i]) && agent !in After(w, run[..i]).runtime
  }

  /** The step that cleared the actor, for this cause. In each case the actor
      held the lock and, after the step, has the endpoint, so that no process
      that is starting or serving does. */
  ghost predicate ClearedAt(w: World, run: seq<Step>, me: Actor, agent: AgentID, cause: Cause, j: nat)
    requires ValidRun(w, run)
  {
    && j < |run| && run[j].actor == me
    && ValidRun(w, run[..j]) && ValidRun(w, run[..j + 1])
    && (var at := After(w, run[..j]);
        && Holds(at, me, agent) && Maintains(After(w, run[..j + 1]), me, agent)
        && match cause
           case FoundStopped =>
             // The record was missing, and then the endpoint was free.
             run[j].action == Guard(agent) && agent !in at.guards && exists i: nat :: i < j && FoundNone(w, run, me, agent, i)
           case CleanedUp(r, i, p) =>
             && run[j].action == Remove(agent, r) && Maintains(at, me, agent)
             && agent in at.runtime && at.runtime[agent] == r && r.writer in at.dead && Classify(r, i, p).Unhealthy?
           case NothingToClean =>
             run[j].action == Read(agent) && Maintains(at, me, agent) && agent !in at.runtime)
    && (forall l | j < l < |run| :: !Disturbs(run[l], me, agent))
  }

  /** What was said of a prefix holds of the longer run. */
  lemma FoundNoneGrows(w: World, run: seq<Step>, s: Step, me: Actor, agent: AgentID, i: nat)
    requires ValidRun(w, run + [s]) && ValidRun(w, run) && FoundNone(w, run, me, agent, i)
    ensures FoundNone(w, run + [s], me, agent, i)
  {
    assert (run + [s])[..i] == run[..i];
  }

  lemma ClearedAtGrows(w: World, run: seq<Step>, s: Step, me: Actor, agent: AgentID, cause: Cause, j: nat)
    requires ValidRun(w, run + [s]) && ValidRun(w, run) && ClearedAt(w, run, me, agent, cause, j)
    requires !Disturbs(s, me, agent)
    ensures ClearedAt(w, run + [s], me, agent, cause, j)
  {
    assert (run + [s])[..j] == run[..j] && (run + [s])[..j + 1] == run[..j + 1];
    if cause.FoundStopped? {
      var i: nat :| i < j && FoundNone(w, run, me, agent, i);
      FoundNoneGrows(w, run, s, me, agent, i);
    }
  }

  lemma {:induction false} NoneHasCause(w: World, run: seq<Step>, me: Actor, agent: AgentID) returns (i: nat)
    requires WellFormed(w) && w.notes == map[] && ValidRun(w, run)
    requires Noted(After(w, run), me, SawNone(agent))
    ensures FoundNone(w, run, me, agent, i)
    decreases |run|
  {
    i := 0;
    if run != [] {
      var n := |run| - 1;
      StepAt(w, run, n);
      assert run[..n + 1] == run && run == run[..n] + [run[n]];
      if run[n] == By(me, Read(agent)) {
        i := n;
      } else {
        RunLater(w, run[..n]);
        if run[n].actor != me { OtherDoesNotDisturb(After(w, run[..n]), run[n], me, agent); }
        i := NoneHasCause(w, run[..n], me, agent);
        FoundNoneGrows(w, run[..n], run[n], me, agent, i);
      }
    }
  }

  /** A step that clears its actor. */
  predicate Clears(w: World, s: Step, agent: AgentID) {
    || (s.action == Guard(agent) && Noted(w, s.actor, SawNone(agent)) && Holds(w, s.actor, agent))
    || (s.action == Read(agent) && AfterReading(w, s.actor, agent).Cleared?)
    || (s.action.Remove? && s.action.agent == agent)
  }

  /** The last step of a run, with the world it happened in. */
  ghost predicate LastStep(w: World, run: seq<Step>, at: World, s: Step) {
    && ValidRun(w, run) && run != [] && run[|run| - 1] == s
    && ValidRun(w, run[..|run| - 1]) && After(w, run[..|run| - 1]) == at
    && WellFormed(at) && Enabled(at, s) && After(w, run) == Apply(at, s)
  }

  lemma FoundNoneBefore(w: World, run: seq<Step>, me: Actor, agent: AgentID, i: nat)
    requires ValidRun(w, run) && FoundNone(w, run, me, agent, i)
    ensures i < |run|
  {
  }

  lemma GuardClears(at: World, me: Actor, agent: AgentID)
    requires Enabled(at, By(me, Guard(agent))) && Noted(at, me, SawNone(agent)) && Holds(at, me, agent)
    ensures var w := Apply(at, By(me, Guard(agent)));
      Noted(w, me, Cleared(agent, FoundStopped)) && Maintains(w, me, agent) && agent !in at.guards
  {
    hide RuntimeAfter, AliveAfter;
  }

  lemma FoundStoppedStep(w: World, run: seq<Step>, at: World, me: Actor, agent: AgentID)
    requires WellFormed(w) && w.notes == map[] && LastStep(w, run, at, By(me, Guard(agent)))
    requires Noted(at, me, SawNone(agent)) && Holds(at, me, agent)
    ensures Noted(After(w, run), me, Cleared(agent, FoundStopped)) && ClearedAt(w, run, me, agent, FoundStopped, |run| - 1)
  {
    hide WellFormed, Apply, Enabled, ValidRun, After, FoundNone, Noted, Maintains, Holds;
    GuardClears(at, me, agent);
    var n := |run| - 1;
    var i := NoneHasCause(w, run[..n], me, agent);
    assert run[..n + 1] == run && run == run[..n] + [run[n]];
    FoundNoneGrows(w, run[..n], run[n], me, agent, i);
    assert i < n by { FoundNoneBefore(w, run[..n], me, agent, i); }
  }

  lemma NothingToCleanStep(w: World, run: seq<Step>, at: World, me: Actor, agent: AgentID)
    requires LastStep(w, run, at, By(me, Read(agent))) && AfterReading(at, me, agent).Cleared?
    ensures Noted(After(w, run), me, Cleared(agent, NothingToClean)) && ClearedAt(w, run, me, agent, NothingToClean, |run| - 1)
  {
    hide WellFormed;
    assert run[..|run|] == run;
  }

  lemma CleanedUpStep(w: World, run: seq<Step>, at: World, me: Actor, agent: AgentID, r: Record)
    requires LastStep(w, run, at, By(me, Remove(agent, r)))
    ensures HasCleared(After(w, run), me, agent) && After(w, run).notes[me].cause.CleanedUp?
    ensures ClearedAt(w, run, me, agent, After(w, run).notes[me].cause, |run| - 1)
  {
    assert run[..|run|] == run;
    assert NoteSound(at, me);
    hide WellFormed;
    SameDecision(r, at.notes[me].inspection, at.notes[me].probe);
  }

  lemma ClearingStep(w: World, run: seq<Step>, at: World, me: Actor, agent: AgentID)
    requires WellFormed(w) && w.notes == map[] && run != [] && LastStep(w, run, at, run[|run| - 1])
    requires run[|run| - 1].actor == me && Clears(at, run[|run| - 1], agent)
    ensures HasCleared(After(w, run), me, agent)
    ensures ClearedAt(w, run, me, agent, After(w, run).notes[me].cause, |run| - 1)
  {
    hide WellFormed, ClearedAt, LastStep;
    var s := run[|run| - 1];
    if s.action.Guard? {
      FoundStoppedStep(w, run, at, me, agent);
    } else if s.action.Read? {
      NothingToCleanStep(w, run, at, me, agent);
    } else {
      CleanedUpStep(w, run, at, me, agent, s.action.record);
    }
  }

  /** A clearance goes back to the step that gave it, and nothing has disturbed
      it since. */
  lemma {:induction false} ClearanceHasCause(w: World, run: seq<Step>, me: Actor, agent: AgentID) returns (j: nat)
    requires WellFormed(w) && w.notes == map[] && ValidRun(w, run)
    requires HasCleared(After(w, run), me, agent)
    ensures ClearedAt(w, run, me, agent, After(w, run).notes[me].cause, j)
    decreases |run|
  {
    j := 0;
    if run != [] {
      var n := |run| - 1;
      var s := run[n];
      StepAt(w, run, n);
      assert run[..n + 1] == run && run == run[..n] + [s];
      var at := After(w, run[..n]);
      RunLater(w, run[..n]);
      if s.actor == me && Clears(at, s, agent) {
        ClearingStep(w, run, at, me, agent);
        j := n;
      } else {
        KeptClearance(at, s, me, agent);
        j := ClearanceHasCause(w, run[..n], me, agent);
        ClearedAtGrows(w, run[..n], s, me, agent, at.notes[me].cause, j);
      }
    }
  }

  lemma KeptClearance(w: World, s: Step, me: Actor, agent: AgentID)
    requires WellFormed(w) && Enabled(w, s) && HasCleared(Apply(w, s), me, agent)
    requires !(s.actor == me && Clears(w, s, agent))
    ensures HasCleared(w, me, agent) && w.notes[me] == Apply(w, s).notes[me] && !Disturbs(s, me, agent)
  {
    if s.actor != me {
      OtherDoesNotDisturb(w, s, me, agent);
    }
    assert HasCleared(w, me, agent);
    assert NoteSound(w, me);
  }

  /** Every spawn, anywhere in any run: its actor holds the agent's lock, the
      entry is registered, enabled and bound, and the actor was cleared for the
      cause it gives: it found the agent stopped, or cleaned up after it, while
      it had the lock and no process had the endpoint. Since then nobody spawned
      the agent, let go of or took its lock, and no other actor changed its
      entry or removed its record. */
  lemma SpawnIsJustified(w: World, run: seq<Step>, k: nat)
    requires WellFormed(w) && w.notes == map[] && ValidRun(w, run)
    requires k < |run| && run[k].action.Spawn?
    ensures ValidRun(w, run[..k])
    ensures var a, me := run[k].action.agent, run[k].actor;
      && (exists j :: ClearedAt(w, run[..k], me, a, run[k].action.cause, j))
      && var at := After(w, run[..k]);
         Holds(at, me, a) && a in at.registry && at.registry[a].enabled && run[k].action.binding.Bound?
  {
    StepAt(w, run, k);
    var j := ClearanceHasCause(w, run[..k], run[k].actor, run[k].action.agent);
  }

  // ----- what an actor has learned and done -----

  /** What a step tells its actor about an agent, or asks of it. */
  datatype Sign =
    // The record was missing and the endpoint free, under the lock.
    | SawStopped
    // The recorded process lives, is the one recorded where that can be told,
    // and its endpoint answered with its identity.
    | SawHealthy
    // It is gone or replaced, and the endpoint does not answer for it.
    | SawUnhealthy
    // The record was removed, or found gone, under lock and guard.
    | DidClean
    // The process that wrote this record was asked to shut down.
    | AskedStop(record: Record)
    // What was observed does not tell.
    | SawAmbiguous
    // The workspace is not the agent's, or its registry entry is at fault.
    | SawUnbound

  /** What a step is for its actor, as far as this agent goes. */
  function SignOf(w: World, s: Step, me: Actor, agent: AgentID): Option<Sign> {
    if s.actor != me then None
    else
      match s.action
      case Guard(a) => if a == agent && Noted(w, me, SawNone(agent)) && Holds(w, me, agent) then Some(SawStopped) else None
      case Read(a) => if a == agent && AfterReading(w, me, agent).Cleared? then Some(DidClean) else None
      case Remove(a, _) => if a == agent then Some(DidClean) else None
      case Shut(a, r) => if a == agent then Some(AskedStop(r)) else None
      case Doubt(a) => if a == agent then Some(SawAmbiguous) else None
      case FindUnbound(a) => if a == agent then Some(SawUnbound) else None
      case Hear(p) =>
        if me !in w.notes then None
        else (
          match w.notes[me]
          case SawAlive(a, r, _, i) =>
            if a == agent && p.ProbeMatched? && (r.identity.None? || i.identity.IdentityMatched?) then Some(SawHealthy) else None
          case SawDead(a, r, _, i) =>
            if a == agent && !p.ProbeMatched? && (i.identity.IdentityReplaced? || !(p.ProbeMismatch? || p.ProbeHTTPStatus?))
            then Some(SawUnhealthy) else None
          case _ => None)
      case _ => None
  }

  /** How often a run gave an actor this sign. */
  function Seen(w: World, run: seq<Step>, me: Actor, agent: AgentID, sign: Sign): nat
    decreases |run|
  {
    if run == [] || !Enabled(w, run[0]) then 0
    else (if SignOf(w, run[0], me, agent) == Some(sign) then 1 else 0) + Seen(Apply(w, run[0]), run[1..], me, agent, sign)
  }
}
