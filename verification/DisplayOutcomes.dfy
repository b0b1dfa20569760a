/** Which tool calls are shown as failed although nothing said so: those whose
    outcome will not come any more. */
module DisplayOutcomes {
  import opened Transcript
  import opened DisplayUnits
  import opened DisplayProperties

  /** The turn kept for an id is that of its latest use. */
  lemma {:induction false} TurnsAre(spots: seq<Spot>, states: States, id: string)
    ensures var t := TrackAll(spots, states); id in t.turns ==>
      id != "" && LastIndex(spots, UseWith(id)) >= 0 && t.turns[id] == spots[LastIndex(spots, UseWith(id))].turnID
    decreases |spots|
  {
    hide LastIndex;
    if spots != [] {
      var front, s := spots[..|spots| - 1], spots[|spots| - 1];
      TurnsAre(front, states, id);
      LastUse(front, s, id);
      assert spots == front + [s];
    }
  }

  lemma {:induction false} NoResultMeans(spots: seq<Spot>, k: nat)
    ensures LastResult(spots, k).None? <==> forall l | 0 <= l < |spots| :: Owner(spots, l) != k
    decreases |spots|
  {
    hide Owner;
    if spots != [] {
      var n := |spots| - 1;
      NoResultMeans(spots[..n], k);
      forall l | 0 <= l < n ensures Owner(spots[..n], l) == Owner(spots, l) { OwnerBefore(spots, n, l); }
    }
  }

  lemma OwnerBefore(spots: seq<Spot>, n: nat, l: nat)
    requires l < n <= |spots|
    ensures Owner(spots[..n], l) == Owner(spots, l)
  {
    assert spots[..n][..l] == spots[..l];
  }

  lemma LatestMeans(spots: seq<Spot>, id: string, k: nat)
    requires k < |spots| && UseWith(id)(spots[k])
    ensures LastIndex(spots, UseWith(id)) == k <==> forall l | k < l < |spots| :: !UseWith(id)(spots[l])
  {
    LastIndexGreatest(spots, UseWith(id));
    if forall l | k < l < |spots| :: !UseWith(id)(spots[l]) { LastIndexIs(spots, UseWith(id), k); }
  }

  /** The use at k is the latest of its id, no result belongs to it, the runtime
      knows nothing of it, and it is not of the active turn. */
  predicate Abandoned(spots: seq<Spot>, k: nat, states: States, activeTurnID: Option<string>)
    requires k < |spots|
  {
    && spots[k].block.ToolUse? && spots[k].block.toolUseID != ""
    && (forall l | k < l < |spots| :: !UseWith(spots[k].block.toolUseID)(spots[l]))
    && (forall l | 0 <= l < |spots| :: Owner(spots, l) != k)
    && spots[k].block.toolUseID !in states
    && (activeTurnID.None? || activeTurnID.value == "" || spots[k].turnID != activeTurnID)
  }

  lemma LostMeans(spots: seq<Spot>, states: States, i: nat, activeTurnID: Option<string>)
    requires i < |TrackAll(spots, states).tools|
    ensures |TrackAll(spots, states).tools| == |Openers(spots)|
    ensures Lost(TrackAll(spots, states), i, activeTurnID) <==> Abandoned(spots, Openers(spots)[i], states, activeTurnID)
  {
    ToolsExplained(spots, states);
    var t, k := TrackAll(spots, states), Openers(spots)[i];
    NoResultMeans(spots, k);
    hide TrackAll, Openers, LastIndex, Owner, LastResult;
    assert t.tools[i] == ToolAt(spots, k, states);
    if spots[k].block.ToolUse? {
      var id := spots[k].block.toolUseID;
      LatestMeans(spots, id, k);
      TurnsAre(spots, states, id);
      if id in t.byID { SamePlace(spots, t.byID[id], i); }
    }
  }

  lemma SamePlace(spots: seq<Spot>, i: nat, j: nat)
    requires i < |Openers(spots)| && j < |Openers(spots)|
    ensures Openers(spots)[i] == Openers(spots)[j] <==> i == j
  {
    if i < j { OpenersIncrease(spots, i, j); }
    if j < i { OpenersIncrease(spots, j, i); }
  }

  /** Once the runtime's status is known, exactly the abandoned calls are shown
      as failed, and every other tool as it is. */
  lemma OutcomesShown(spots: seq<Spot>, states: States, loaded: bool, activeTurnID: Option<string>, i: nat)
    requires i < |TrackAll(spots, states).tools|
    ensures |Openers(spots)| == |TrackAll(spots, states).tools| == |Settled(TrackAll(spots, states), loaded, activeTurnID)|
    ensures Settled(TrackAll(spots, states), loaded, activeTurnID)[i] ==
      var tool := ToolAt(spots, Openers(spots)[i], states);
      if loaded && Abandoned(spots, Openers(spots)[i], states, activeTurnID) then tool.(state := Some(Errored)) else tool
  {
    hide TrackAll, Openers, Abandoned, Lost, ToolAt;
    LostMeans(spots, states, i, activeTurnID);
    ToolsExplained(spots, states);
  }
}
