/** How Fleet classifies an agent's runtime from what it observes, and when it
    may remove the record. */
module FleetStatus {
  import opened Transcript
  import opened FleetRecords

  datatype Identity = IdentityUnknown | IdentityMatched | IdentityReplaced

  datatype Inspection = Inspection(alive: bool, existenceKnown: bool, identity: Identity)

  /** How the endpoint answered: with its exact identity, with another one, with
      an HTTP error, or not at all. */
  datatype Probe = ProbeMatched | ProbeMismatch | ProbeHTTPStatus | ProbeUnreachable

  datatype Health = Healthy | Stopped | Unhealthy | Ambiguous

  datatype AgentStatus = AgentStatus(
    id: AgentID,
    enabled: bool,
    autostart: bool,
    binding: Binding,
    health: Health,
    runtimePresent: bool,
    processAlive: bool,
    endpointReachable: bool,
    endpointMatched: bool)

  /** An answer that shows something is listening. */
  predicate ProvesReachable(p: Probe) {
    p.ProbeMismatch? || p.ProbeHTTPStatus?
  }

  predicate AcceptsIdentity(r: Record, i: Inspection) {
    r.identity.None? || i.identity.IdentityMatched?
  }

  /** The classification of a readable record. */
  function Classify(r: Record, i: Inspection, p: Probe): Health {
    var replaced := i.identity.IdentityReplaced?;
    var matched := p.ProbeMatched?;
    var reachable := matched || ProvesReachable(p);
    if !i.existenceKnown then Ambiguous
    else if i.alive && matched && AcceptsIdentity(r, i) then Healthy
    else if replaced && matched then Ambiguous
    else if replaced && !matched then Unhealthy
    else if !i.alive && !reachable then Unhealthy
    else Ambiguous
  }

  /** The guard of the stale cleanup. */
  predicate CleanupRemoves(i: Inspection, p: Probe) {
    var replaced := i.identity.IdentityReplaced?;
    && i.existenceKnown
    && !(i.alive && !replaced)
    && !(p.ProbeMatched? || (!replaced && ProvesReachable(p)))
  }

  /** When the stop loop, finding the record still there, cleans it up. */
  predicate StopCleansUp(i: Inspection, p: Probe) {
    var replaced := i.identity.IdentityReplaced?;
    && i.existenceKnown
    && (!i.alive || replaced)
    && !p.ProbeMatched? && (replaced || !ProvesReachable(p))
  }

  /** Classification, cleanup and stop loop take the same decision on the same
      observations of a record. */
  lemma SameDecision(r: Record, i: Inspection, p: Probe)
    ensures Classify(r, i, p).Unhealthy? <==> CleanupRemoves(i, p)
    ensures StopCleansUp(i, p) <==> CleanupRemoves(i, p)
  {
  }

  /** What each classification of a record means. A runtime is healthy exactly
      when its process is there, is the recorded one as far as that is recorded,
      and its endpoint answered as itself. It is unhealthy exactly when the
      recorded process is known to be gone and nothing answers in its place, or
      when another process has its pid and the endpoint did not answer as the
      recorded one. Everything else is ambiguous; no record reads as stopped. */
  lemma ClassifyMeans(r: Record, i: Inspection, p: Probe)
    ensures Classify(r, i, p).Healthy? <==>
      i.existenceKnown && i.alive && p.ProbeMatched? && (r.identity.Some? ==> i.identity.IdentityMatched?)
    ensures Classify(r, i, p).Unhealthy? <==>
      i.existenceKnown && !(i.alive && p.ProbeMatched? && (r.identity.Some? ==> i.identity.IdentityMatched?)) &&
      if i.identity.IdentityReplaced? then !p.ProbeMatched? else !i.alive && p.ProbeUnreachable?
    ensures !Classify(r, i, p).Stopped?
  {
  }
}
