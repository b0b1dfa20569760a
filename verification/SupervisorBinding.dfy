/** The Supervisor's role record. Its operations may be cut off by a crash
    between any two persistent writes; whatever was written stays. */
module SupervisorBinding {
  import opened Transcript

  type AgentID = string

  datatype RoleState = Initializing | Ready | Removed

  datatype Settlement = Settlement(agentID: AgentID, confirmed: bool)

  datatype Role = Role(
    state: RoleState,
    agent: AgentID,
    enabled: bool,
    autostart: bool,
    retained: seq<AgentID>,
    settlement: Option<Settlement>)

  /** An operation returned, gave up with an error, or was cut off by a crash. */
  datatype Result = Done | Failed | Crashed

  // ----- what successive records may look like -----

  predicate NoDuplicates(ids: seq<AgentID>) {
    forall i, j | 0 <= i < j < |ids| :: ids[i] != ids[j]
  }

  /** The retained agents are distinct, and the recorded agent is one of them
      exactly when the role was removed. */
  predicate Consistent(r: Role) {
    NoDuplicates(r.retained) && (r.agent in r.retained <==> r.state.Removed?)
  }

  /** One record may follow another. */
  predicate Follows(p: Role, n: Role) {
    if n.agent == p.agent then
      || (n.retained == p.retained && !p.state.Removed? && n.state.Ready?)
      || (n.retained == p.retained + [p.agent] && p.state.Ready? && n.state.Removed?)
    else
      n.retained == p.retained && p.state.Removed? && n.state.Initializing?
  }

  /** A history of records. */
  predicate Chain(h: seq<Role>) {
    && (forall i | 0 <= i < |h| :: Consistent(h[i]))
    && (forall i | 0 < i < |h| :: Follows(h[i - 1], h[i]))
    && (h != [] ==> h[0].state.Initializing? && h[0].retained == [])
  }

  /** Every agent a history has recorded. */
  function Recorded(h: seq<Role>): set<AgentID> {
    set i | 0 <= i < |h| :: h[i].agent
  }

  /** The retained list only grows. */
  lemma {:induction false} RetainedGrows(h: seq<Role>, i: nat, j: nat)
    requires Chain(h) && i <= j < |h|
    ensures h[i].retained <= h[j].retained
    decreases j
  {
    if i < j {
      RetainedGrows(h, i, j - 1);
      assert Follows(h[j - 1], h[j]);
    }
  }

  /** It is exactly the list of the agents recorded before the current one, in
      order, and of the current one once it is removed. */
  function Retirements(h: seq<Role>): seq<AgentID> {
    if h == [] then []
    else
      var last := h[|h| - 1];
      Retirements(h[..|h| - 1]) + (if last.state.Removed? && (|h| == 1 || !h[|h| - 2].state.Removed?) then [last.agent] else [])
  }

  lemma {:induction false} RetainedAreTheRetired(h: seq<Role>)
    requires Chain(h) && h != []
    ensures h[|h| - 1].retained == Retirements(h)
  {
    var n := |h| - 1;
    if n > 0 {
      assert Chain(h[..n]);
      RetainedAreTheRetired(h[..n]);
      assert Follows(h[n - 1], h[n]);
    } else {
      assert Retirements(h[..0]) == [];
    }
  }

  /** A retired agent never takes the role again: once an agent was recorded as
      removed, no record after another agent's names it. */
  lemma {:induction false} RetiredStayRetired(h: seq<Role>, i: nat, j: nat)
    requires Chain(h) && i <= j < |h| && h[i].state.Removed?
    ensures h[j].agent == h[i].agent ==> h[j].state.Removed?
    ensures h[i].agent in h[j].retained
  {
    RetainedGrows(h, i, j);
    assert Consistent(h[i]) && Consistent(h[j]);
    var k :| 0 <= k < |h[i].retained| && h[i].retained[k] == h[i].agent;
    assert h[j].retained[k] == h[i].agent;
  }

  // ----- what an operation makes of the record -----

  /** The acknowledgement is the one there was, or one about this agent. */
  predicate Settled(b: Role, r: Role) {
    r.settlement == b.settlement || (r.settlement.Some? && r.settlement.value.agentID == b.agent)
  }

  /** What is known of its work goes on with the record; a removed role's stays. */
  predicate Carried(b: Role, r: Role) {
    if b.state.Removed? then r.settlement == b.settlement else Settled(b, r)
  }

  /** The same agent in the role, at most initialized or acknowledged meanwhile. */
  predicate SameHolder(b: Role, r: Role) {
    && r == b.(state := r.state, settlement := r.settlement) && Carried(b, r)
    && (r.state == b.state || (b.state.Initializing? && r.state.Ready?))
  }

  /** The retained list once the recorded agent has been retired. */
  function RetiredList(b: Role): seq<AgentID> {
    if b.state.Removed? then b.retained else b.retained + [b.agent]
  }

  /** A completed removal: the agent is retained, once; a removed role stays as
      it is. */
  predicate RemovedFrom(b: Role, r: Role) {
    r == b.(state := Removed, retained := RetiredList(b), settlement := r.settlement) && Carried(b, r)
  }

  /** A fresh agent in the place of b's, at this stage. */
  predicate Replaces(b: Role, r: Role, id: AgentID, stage: RoleState) {
    r == Role(stage, id, true, true, RetiredList(b), r.settlement) && Carried(b, r)
  }

  /** A completed reset: a planned agent became ready; any other agent is
      retained and the new one is ready. */
  predicate ResetFrom(b: Role, r: Role, id: AgentID) {
    if b.state.Initializing? then r == b.(state := Ready) else Replaces(b, r, id, Ready)
  }

  /** Where a removal of b can be cut off: before the agent was retired, or
      after. */
  predicate OnTheWayOut(b: Role, r: Role) {
    SameHolder(b, r) || RemovedFrom(b, r)
  }

  /** Where a reset of b can be cut off: a role that is still being initialized
      stays as it is; any other is at the agent it had, retired or not, or at a
      planned one of the given ids. */
  predicate OnTheWayToReset(b: Role, r: Role, ids: set<AgentID>) {
    if b.state.Initializing? then r == b
    else
      || (SameHolder(b, r) && r.state == b.state)
      || RemovedFrom(b, r)
      || (r.agent in ids && Replaces(b, r, r.agent, Initializing))
  }

  /** No agent but these was registered, enabled or disabled. */
  predicate OnlyThese(before: map<AgentID, bool>, after: map<AgentID, bool>, changed: set<AgentID>) {
    && (forall a | a in before && a !in changed :: a in after && after[a] == before[a])
    && (forall a | a in after && a !in changed :: a in before)
  }

  predicate IsDisabled(agents: map<AgentID, bool>, agent: AgentID) {
    agent in agents && !agents[agent]
  }

  /** A cut-off reset that is cut off again is still on the way from the start. */
  lemma StillOnTheWay(b: Role, r: Role, next: Role, ids: set<AgentID>, id: AgentID)
    requires OnTheWayToReset(b, r, ids) && OnTheWayToReset(r, next, {id})
    ensures OnTheWayToReset(b, next, ids + {id})
  {
  }

  /** And one that then completes has done what the first was for. */
  lemma CompletesTheReset(b: Role, r: Role, next: Role, ids: set<AgentID>, id: AgentID)
    requires OnTheWayToReset(b, r, ids) && ResetFrom(r, next, id)
    ensures b.state.Initializing? ==> ResetFrom(b, next, id)
    ensures !b.state.Initializing? ==> next.agent in ids + {id} && ResetFrom(b, next, next.agent)
  {
  }

  class Supervisor {
    // supervisor.json, if it exists.
    var record: Option<Role>
    // The registered agents and whether each is enabled.
    var agents: map<AgentID, bool>
    // Every record ever written, and every id ever planned.
    ghost var history: seq<Role>
    ghost var planned: set<AgentID>

    ghost predicate Valid()
      reads this
    {
      && Chain(history)
      && (record.None? <==> history == [])
      && (record.Some? ==> record.value == history[|history| - 1])
      && Recorded(history) <= planned
      && (record.Some? ==> forall a | a in record.value.retained :: a in planned)
    }

    constructor ()
      ensures Valid() && record.None?
    {
      record, agents, history, planned := None, map[], [], {};
    }

    /** An atomic write of the role file. */
    method WriteRole(r: Role)
      requires Valid() && Consistent(r) && r.agent in planned
      requires record.None? ==> r.state.Initializing? && r.retained == []
      requires record.Some? ==> Follows(record.value, r)
      modifies this`record, this`history
      ensures Valid() && record == Some(r) && history == old(history) + [r]
    {
      history := history + [r];
      record := Some(r);
      assert forall i | 0 <= i < |history| :: history[i] == r || history[i] in old(history);
      assert forall a | a in Recorded(history) :: a == r.agent || a in Recorded(old(history));
    }

    /** A call that may fail, or at which the process may die. */
    method Attempt() returns (r: Result)
    {
      var answer: nat := *;
      return if answer == 0 then Crashed else if answer == 1 then Failed else Done;
    }

    /** Planning a Supervisor under an identity that never existed before. */
    method PlanSupervisor(id: AgentID, retained: seq<AgentID>, settlement: Option<Settlement>) returns (r: Result)
      requires Valid() && id !in planned
      requires record.None? ==> retained == []
      requires record.Some? ==> record.value.state.Removed? && retained == record.value.retained
      modifies this`record, this`history, this`planned
      ensures Valid() && (r.Done? ==> record == Some(Role(Initializing, id, true, true, retained, settlement)))
      ensures !r.Done? ==> record == old(record)
      ensures old(history) <= history && planned == old(planned) + {id}
    {
      planned := planned + {id};
      r := Attempt();
      if !r.Done? { return; }
      if record.Some? { assert Consistent(history[|history| - 1]); }
      WriteRole(Role(Initializing, id, true, true, retained, settlement));
    }

    /** Publishing the identity if it is not registered; an existing one stays. */
    method RestoreIdentity(agent: AgentID, enabled: bool) returns (r: Result)
      modifies this`agents
      ensures r.Done? ==> agents == if agent in old(agents) then old(agents) else old(agents)[agent := enabled]
      ensures !r.Done? ==> agents == old(agents)
    {
      r := Attempt();
      if r.Done? && agent !in agents { agents := agents[agent := enabled]; }
    }

    method FinishInitialization(role: Role) returns (r: Result)
      requires Valid() && record.Some? && !record.value.state.Removed?
      requires role.agent == record.value.agent && role.retained == record.value.retained
      modifies this`record, this`history, this`agents
      ensures Valid() && old(history) <= history
      ensures r.Done? ==> record == Some(role.(state := Ready)) && role.agent in agents
      ensures !r.Done? ==> record == old(record)
      ensures agents == if role.agent in old(agents) || role.agent !in agents then old(agents) else old(agents)[role.agent := role.enabled]
    {
      r := RestoreIdentity(role.agent, role.enabled);
      if !r.Done? { return; }
      // Configuration and guidance are written where missing.
      r := Attempt();
      if !r.Done? { return; }
      assert Consistent(history[|history| - 1]);
      assert role.agent in Recorded(history);
      WriteRole(role.(state := Ready));
    }

    method SetEnabled(agent: AgentID, enabled: bool) returns (r: Result)
      modifies this`agents
      ensures r.Done? ==> agent in old(agents) && agents == old(agents)[agent := enabled]
      ensures !r.Done? ==> agents == old(agents)
    {
      r := Attempt();
      if r.Done? {
        if agent !in agents { return Failed; }
        agents := agents[agent := enabled];
      }
    }

    /** The work queue's acknowledgement is recorded beside the role. */
    method SettleWork(role: Role, configured: bool) returns (r: Result, settled: Role)
      requires Valid() && record == Some(role) && role.state.Ready?
      modifies this`record, this`history
      ensures Valid() && old(history) <= history
      ensures record == Some(settled) || (r.Crashed? && record == Some(role))
      ensures settled == role.(settlement := settled.settlement) && Settled(role, settled)
      ensures r.Done? ==> record == Some(settled)
      ensures r.Done? && configured ==> settled.settlement.Some? && settled.settlement.value.agentID == role.agent
      ensures r.Done? && !configured ==> settled == role
      ensures !r.Done? ==> settled == role
    {
      settled := role;
      if !configured { return Done, role; }
      r := Attempt();
      if !r.Done? { return; }
      var confirmed: bool := *;
      assert Consistent(history[|history| - 1]);
      assert role.agent in Recorded(history);
      settled := role.(settlement := Some(Settlement(role.agent, confirmed)));
      WriteRole(settled);
    }

    /** Initialization. Run to completion, it leaves the role ready, or removed
        if it had been removed; it never replaces a recorded agent, and no agent
        but the recorded one is touched. Where the Supervisor is not wanted, none
        is planned, and one that is ready gets disabled and its work settled. */
    method EnsureSupervisor(enabled: bool, id: AgentID, configured: bool) returns (r: Result)
      requires Valid() && id !in planned
      modifies this
      ensures Valid() && old(history) <= history
      ensures r.Done? && enabled ==> record.Some? && !record.value.state.Initializing?
      ensures old(record).Some? ==> record.Some? && SameHolder(old(record).value, record.value)
      ensures planned <= old(planned) + {id}
      ensures old(record).None? && record.Some? ==>
        enabled && (record == Some(Role(Initializing, id, true, true, [], None)) || record == Some(Role(Ready, id, true, true, [], None)))
      ensures r.Done? && !(old(record).Some? && !old(record).value.state.Initializing?) && record.Some? ==> record.value.agent in agents
      ensures r.Done? && !enabled && record.Some? && record.value.state.Ready? ==>
        && IsDisabled(agents, record.value.agent)
        && (configured ==> record.value.settlement.Some? && record.value.settlement.value.agentID == record.value.agent)
      ensures OnlyThese(old(agents), agents, if record.Some? then {record.value.agent} else {})
    {
      if record.None? {
        if !enabled { return Done; }
        r := PlanSupervisor(id, [], None);
        if !r.Done? { return; }
      }
      if record.value.state.Initializing? {
        r := FinishInitialization(record.value);
        if !r.Done? { return; }
      }
      if !enabled && record.value.state.Ready? {
        r := DisableReady(configured);
        if !r.Done? { return; }
      }
      r := Done;
    }

    /** The agent is disabled, and then its work settled. */
    method DisableReady(configured: bool) returns (r: Result)
      requires Valid() && record.Some? && record.value.state.Ready?
      modifies this`record, this`history, this`agents
      ensures Valid() && old(history) <= history && record.Some?
      ensures record == Some(old(record).value.(settlement := record.value.settlement)) && Settled(old(record).value, record.value)
      ensures r.Done? ==> IsDisabled(agents, record.value.agent)
      ensures r.Done? && configured ==> record.value.settlement.Some? && record.value.settlement.value.agentID == record.value.agent
      ensures OnlyThese(old(agents), agents, {record.value.agent})
    {
      r := SetEnabled(record.value.agent, false);
      if !r.Done? { return; }
      var settled;
      r, settled := SettleWork(record.value, configured);
    }

    /** Explicit repair of a role that was not removed. */
    method RepairSupervisor() returns (r: Result)
      requires Valid()
      modifies this
      ensures Valid() && old(history) <= history
      ensures r.Done? ==> old(record).Some? && !old(record).value.state.Removed?
      ensures r.Done? ==> record == Some(old(record).value.(state := Ready, enabled := false, autostart := false))
      ensures r.Done? ==> agents == if record.value.agent in old(agents) then old(agents) else old(agents)[record.value.agent := false]
      ensures !r.Done? ==> record == old(record)
    {
      if record.None? || record.value.state.Removed? { return Failed; }
      r := Attempt();
      if !r.Done? { return; }
      r := FinishInitialization(record.value.(enabled := false, autostart := false));
    }

    /** Removal (reset false) or reset (reset true) of the role. */
    method RetireSupervisor(reset: bool, id: AgentID, configured: bool) returns (r: Result)
      requires Valid() && id !in planned
      modifies this
      ensures Valid() && old(history) <= history && planned <= old(planned) + {id}
      ensures r.Done? ==> old(record).Some? && record.Some?
      ensures r.Done? && !reset ==> RemovedFrom(old(record).value, record.value)
      ensures r.Done? && reset ==> ResetFrom(old(record).value, record.value, id)
      ensures !r.Done? && old(record).Some? ==> record.Some?
      ensures !r.Done? && old(record).Some? && !reset ==> OnTheWayOut(old(record).value, record.value)
      ensures !r.Done? && old(record).Some? && reset ==> OnTheWayToReset(old(record).value, record.value, {id})
      ensures r.Done? && reset ==> record.value.agent in agents
      ensures r.Done? && !old(record).value.state.Removed? && !(reset && old(record).value.state.Initializing?) ==>
        && IsDisabled(agents, old(record).value.agent)
        && (configured ==> record.value.settlement.Some? && record.value.settlement.value.agentID == old(record).value.agent)
      ensures OnlyThese(old(agents), agents, {id} + if old(record).Some? then {old(record).value.agent} else {})
    {
      if record.None? { return Failed; }
      if record.value.state.Initializing? {
        r := FinishInitialization(record.value);
        if !r.Done? { return; }
        if reset { return Done; }
      }
      if !record.value.state.Removed? {
        r := RetireReady(configured);
        if !r.Done? { return; }
      }
      if reset {
        r := PlanSupervisor(id, record.value.retained, record.value.settlement);
        if !r.Done? { return; }
        r := FinishInitialization(record.value);
        if !r.Done? { return; }
      }
      r := Done;
    }

    /** The agent is disabled, its work settled, and then it is retained. */
    method RetireReady(configured: bool) returns (r: Result)
      requires Valid() && record.Some? && record.value.state.Ready?
      modifies this`record, this`history, this`agents
      ensures Valid() && old(history) <= history && record.Some?
      ensures r.Done? ==> RemovedFrom(old(record).value, record.value) && IsDisabled(agents, record.value.agent)
      ensures r.Done? && configured ==> record.value.settlement.Some? && record.value.settlement.value.agentID == record.value.agent
      ensures !r.Done? ==> SameHolder(old(record).value, record.value) && record.value.state.Ready?
      ensures OnlyThese(old(agents), agents, {old(record).value.agent})
    {
      r := DisableReady(configured);
      if !r.Done? { return; }
      r := Attempt();
      if !r.Done? { return; }
      RecordRemoval(record.value);
    }

    method RecordRemoval(role: Role)
      requires Valid() && record == Some(role) && role.state.Ready?
      modifies this`record, this`history
      ensures Valid() && old(history) <= history
      ensures record == Some(role.(state := Removed, retained := role.retained + [role.agent]))
    {
      var removed := role.(state := Removed, retained := role.retained + [role.agent]);
      assert Consistent(history[|history| - 1]);
      assert role.agent in Recorded(history);
      assert removed.retained[|role.retained|] == role.agent;
      WriteRole(removed);
    }

    /** A reset cut off any number of times is completed by the first run that
        is not: one ready Supervisor under an id planned on the way, or the one
        that was being initialized, and the agent it started from retained
        exactly once, wherever the runs before stopped. */
    method ResetUntilDone(ids: seq<AgentID>, configured: bool) returns (r: Result)
      requires Valid() && record.Some? && NoDuplicates(ids) && forall id | id in ids :: id !in planned
      modifies this
      ensures Valid() && old(history) <= history && record.Some?
      ensures r.Done? && old(record).value.state.Initializing? ==> record == Some(old(record).value.(state := Ready))
      ensures r.Done? && !old(record).value.state.Initializing? ==>
        record.value.agent in ids && ResetFrom(old(record).value, record.value, record.value.agent)
      ensures !r.Done? ==> OnTheWayToReset(old(record).value, record.value, set id | id in ids)
    {
      ghost var b := record.value;
      r := Failed;
      var i := 0;
      while i < |ids|
        invariant 0 <= i <= |ids| && !r.Done?
        invariant Valid() && old(history) <= history && record.Some?
        invariant OnTheWayToReset(b, record.value, set k | 0 <= k < i :: ids[k])
        invariant planned <= old(planned) + set k | 0 <= k < i :: ids[k]
      {
        ghost var before := record.value;
        ghost var used := set k | 0 <= k < i :: ids[k];
        assert ids[i] in ids && ids[i] !in used;
        r := RetireSupervisor(true, ids[i], configured);
        if r.Done? {
          CompletesTheReset(b, before, record.value, used, ids[i]);
          return;
        }
        StillOnTheWay(b, before, record.value, used, ids[i]);
        i := i + 1;
        assert used + {ids[i - 1]} == set k | 0 <= k < i :: ids[k];
      }
      assert (set k | 0 <= k < i :: ids[k]) == set id | id in ids;
    }

    /** Initialization cut off any number of times is completed by the first run
        that is not; the agent recorded first stays in the role. */
    method EnsureUntilDone(ids: seq<AgentID>, configured: bool) returns (r: Result)
      requires Valid() && NoDuplicates(ids) && forall id | id in ids :: id !in planned
      modifies this
      ensures Valid() && old(history) <= history
      ensures r.Done? ==> record.Some? && !record.value.state.Initializing?
      ensures old(record).Some? ==> record.Some? && SameHolder(old(record).value, record.value)
      ensures old(record).None? && record.Some? ==> record.value.agent in ids && record.value.retained == []
    {
      r := Failed;
      var i := 0;
      while i < |ids|
        invariant 0 <= i <= |ids| && !r.Done?
        invariant Valid() && old(history) <= history
        invariant old(record).Some? ==> record.Some? && SameHolder(old(record).value, record.value)
        invariant old(record).None? && record.Some? ==> record.value.agent in ids && record.value.retained == [] && !record.value.state.Removed?
        invariant planned <= old(planned) + set k | 0 <= k < i :: ids[k]
      {
        assert ids[i] in ids && forall k | 0 <= k < i :: ids[k] != ids[i];
        r := EnsureSupervisor(true, ids[i], configured);
        if r.Done? { return; }
        i := i + 1;
      }
    }
  }
}
