/** Archiving threads in batches: those deepest in the ancestry first, so that
    no thread goes before its descendants. The ancestry may be cyclic. */
module ThreadBatches {
  import opened Transcript

  datatype Thread = Thread(id: string, parent: Option<string>)

  type Index = map<string, Thread>

  /** The parent recorded for an id. */
  function ParentOf(index: Index, id: string): Option<string> {
    if id in index then index[id].parent else None
  }

  /** How many ancestors there are from `parent` on, before one is missing, has
      no parent, or was already seen. */
  function DepthFrom(index: Index, visited: set<string>, parent: Option<string>): nat
    decreases index.Keys - visited, if Truthy(parent) then 1 else 0
  {
    if !Truthy(parent) || parent.value in visited then 0
    else
      assert parent.value in index ==> parent.value in index.Keys - visited;
      1 + DepthFrom(index, visited + {parent.value}, ParentOf(index, parent.value))
  }

  function Depth(index: Index, t: Thread): nat {
    DepthFrom(index, {t.id}, t.parent)
  }

  /** The depth as the loop finds it. */
  method FindDepth(index: Index, t: Thread) returns (depth: nat)
    ensures depth == Depth(index, t)
  {
    var visited := {t.id};
    var parent := t.parent;
    depth := 0;
    while Truthy(parent) && parent.value !in visited
      invariant depth + DepthFrom(index, visited, parent) == Depth(index, t)
      decreases index.Keys - visited, if Truthy(parent) then 1 else 0
    {
      assert parent.value in index ==> parent.value in index.Keys - visited;
      visited := visited + {parent.value};
      depth := depth + 1;
      parent := ParentOf(index, parent.value);
    }
  }

  // ----- the groups -----

  /** The targets of one depth, in the order given. */
  function AtDepth(index: Index, targets: seq<Thread>, d: nat): seq<Thread> {
    if targets == [] then []
    else
      var front, t := targets[..|targets| - 1], targets[|targets| - 1];
      AtDepth(index, front, d) + if Depth(index, t) == d then [t] else []
  }

  /** From depth d downwards, the groups that are not empty. */
  function Descending(index: Index, targets: seq<Thread>, d: nat): seq<seq<Thread>> {
    (if AtDepth(index, targets, d) != [] then [AtDepth(index, targets, d)] else [])
    + if d == 0 then [] else Descending(index, targets, d - 1)
  }

  function Deepest(index: Index, targets: seq<Thread>): nat {
    if targets == [] then 0
    else
      var rest, d := Deepest(index, targets[..|targets| - 1]), Depth(index, targets[|targets| - 1]);
      if d > rest then d else rest
  }

  function Batches(index: Index, targets: seq<Thread>): seq<seq<Thread>> {
    Descending(index, targets, Deepest(index, targets))
  }

  /** The map from depth to group, after some targets. */
  ghost predicate Collected(index: Index, targets: seq<Thread>, groups: map<nat, seq<Thread>>) {
    && (forall d | d in groups :: groups[d] == AtDepth(index, targets, d) && groups[d] != [])
    && (forall d: nat | AtDepth(index, targets, d) != [] :: d in groups)
  }

  lemma AtDepthAppend(index: Index, targets: seq<Thread>, t: Thread, d: nat)
    ensures AtDepth(index, targets + [t], d) == AtDepth(index, targets, d) + if Depth(index, t) == d then [t] else []
  {
    assert (targets + [t])[..|targets|] == targets;
  }

  lemma DeepestAppend(index: Index, targets: seq<Thread>, t: Thread)
    ensures Deepest(index, targets + [t]) == if Depth(index, t) > Deepest(index, targets) then Depth(index, t) else Deepest(index, targets)
  {
    assert (targets + [t])[..|targets|] == targets;
  }

  lemma CollectedAppend(index: Index, targets: seq<Thread>, groups: map<nat, seq<Thread>>, t: Thread)
    requires Collected(index, targets, groups)
    ensures var d := Depth(index, t);
      Collected(index, targets + [t], groups[d := (if d in groups then groups[d] else []) + [t]])
  {
    hide AtDepth, Depth;
    var depth := Depth(index, t);
    var after := groups[depth := (if depth in groups then groups[depth] else []) + [t]];
    forall d: nat ensures AtDepth(index, targets + [t], d) == AtDepth(index, targets, d) + if depth == d then [t] else [] {
      AtDepthAppend(index, targets, t, d);
    }
    assert [] + [t] == [t];
    forall d | d in after ensures after[d] == AtDepth(index, targets + [t], d) && after[d] != [] {
      assert AtDepth(index, targets, d) + [] == AtDepth(index, targets, d);
    }
    forall d: nat | AtDepth(index, targets + [t], d) != [] ensures d in after {
      assert AtDepth(index, targets, d) + [] == AtDepth(index, targets, d);
    }
  }

  method CollectGroups(index: Index, targets: seq<Thread>) returns (groups: map<nat, seq<Thread>>, deepest: nat)
    ensures Collected(index, targets, groups) && deepest == Deepest(index, targets)
  {
    hide Depth, Collected;
    groups, deepest := map[], 0;
    assert Collected(index, targets[..0], groups) by { NoneCollected(index); }
    var i := 0;
    while i < |targets|
      invariant 0 <= i <= |targets|
      invariant Collected(index, targets[..i], groups) && deepest == Deepest(index, targets[..i])
    {
      var t := targets[i];
      assert targets[..i + 1] == targets[..i] + [t];
      CollectedAppend(index, targets[..i], groups, t);
      DeepestAppend(index, targets[..i], t);
      var depth := FindDepth(index, t);
      var group := if depth in groups then groups[depth] else [];
      groups := groups[depth := group + [t]];
      if depth > deepest { deepest := depth; }
      i := i + 1;
    }
    assert targets[..i] == targets;
  }

  lemma NoneCollected(index: Index)
    ensures Collected(index, [], map[])
  {
  }

  /** What is left to append, below some depth. */
  function Below(index: Index, targets: seq<Thread>, d: nat): seq<seq<Thread>> {
    if d == 0 then [] else Descending(index, targets, d - 1)
  }

  lemma NextBatch(index: Index, targets: seq<Thread>, groups: map<nat, seq<Thread>>, d: nat, batches: seq<seq<Thread>>)
    requires Collected(index, targets, groups)
    ensures batches + Below(index, targets, d + 1) ==
      (if d in groups then batches + [groups[d]] else batches) + Below(index, targets, d)
  {
    hide AtDepth;
    if d in groups {
      assert batches + ([groups[d]] + Below(index, targets, d)) == batches + [groups[d]] + Below(index, targets, d);
    } else {
      assert [] + Below(index, targets, d) == Below(index, targets, d);
    }
  }

  /** threadBatchGroups: group by depth, then sort the depths downwards. */
  method ThreadBatchGroups(index: Index, targets: seq<Thread>) returns (batches: seq<seq<Thread>>)
    ensures batches == Batches(index, targets)
  {
    hide AtDepth, Depth, Deepest, Descending, Collected;
    var groups, deepest := CollectGroups(index, targets);
    batches := [];
    var d := deepest + 1;
    while d > 0
      invariant 0 <= d <= deepest + 1
      invariant batches + Below(index, targets, d) == Batches(index, targets)
    {
      d := d - 1;
      NextBatch(index, targets, groups, d, batches);
      if d in groups { batches := batches + [groups[d]]; }
    }
  }

  // ----- a partition, deepest first -----

  function Together(batches: seq<seq<Thread>>): seq<Thread> {
    if batches == [] then [] else batches[0] + Together(batches[1..])
  }

  lemma TogetherFirst(b: seq<Thread>, rest: seq<seq<Thread>>)
    ensures Together([b] + rest) == b + Together(rest)
  {
    assert ([b] + rest)[1..] == rest;
  }

  /** Targets no deeper than d. */
  function Within(index: Index, targets: seq<Thread>, d: nat): multiset<Thread> {
    if targets == [] then multiset{}
    else
      var t := targets[|targets| - 1];
      Within(index, targets[..|targets| - 1], d) + if Depth(index, t) <= d then multiset{t} else multiset{}
  }

  lemma {:induction false} WithinStep(index: Index, targets: seq<Thread>, d: nat)
    ensures Within(index, targets, d) ==
      multiset(AtDepth(index, targets, d)) + if d == 0 then multiset{} else Within(index, targets, d - 1)
    decreases |targets|
  {
    if targets != [] { WithinStep(index, targets[..|targets| - 1], d); }
  }

  lemma {:induction false} DescendingTakesAll(index: Index, targets: seq<Thread>, d: nat)
    ensures multiset(Together(Descending(index, targets, d))) == Within(index, targets, d)
    decreases d
  {
    hide AtDepth, Within, Together;
    WithinStep(index, targets, d);
    var rest := if d == 0 then [] else Descending(index, targets, d - 1);
    if d > 0 { DescendingTakesAll(index, targets, d - 1); } else { TogetherNone(); }
    var own := AtDepth(index, targets, d);
    if own != [] {
      TogetherFirst(own, rest);
      assert Descending(index, targets, d) == [own] + rest;
    } else {
      assert Descending(index, targets, d) == [] + rest == rest;
    }
  }

  lemma TogetherNone()
    ensures Together([]) == []
  {
  }

  lemma {:induction false} AllWithin(index: Index, targets: seq<Thread>, d: nat)
    requires d >= Deepest(index, targets)
    ensures Within(index, targets, d) == multiset(targets)
    decreases |targets|
  {
    if targets != [] {
      AllWithin(index, targets[..|targets| - 1], d);
      assert targets == targets[..|targets| - 1] + [targets[|targets| - 1]];
    }
  }

  /** Every target is in exactly one batch, as often as it was given. */
  lemma BatchesPartition(index: Index, targets: seq<Thread>)
    ensures multiset(Together(Batches(index, targets))) == multiset(targets)
  {
    DescendingTakesAll(index, targets, Deepest(index, targets));
    AllWithin(index, targets, Deepest(index, targets));
  }

  /** Each batch is one depth, in the order given, and depths fall. */
  lemma {:induction false} BatchIsDepth(index: Index, targets: seq<Thread>, d: nat, i: nat) returns (depth: nat)
    requires i < |Descending(index, targets, d)|
    ensures depth <= d && Descending(index, targets, d)[i] == AtDepth(index, targets, depth) != []
    decreases d
  {
    var own := AtDepth(index, targets, d);
    if own != [] && i == 0 {
      depth := d;
    } else {
      depth := BatchIsDepth(index, targets, d - 1, if own != [] then i - 1 else i);
    }
  }

  /** The group of a depth is the targets of that depth, in the order given. */
  lemma {:induction false} GroupInOrder(index: Index, targets: seq<Thread>, d: nat) returns (at: seq<nat>)
    ensures |at| == |AtDepth(index, targets, d)|
    ensures forall k | 0 <= k < |at| :: at[k] < |targets| && AtDepth(index, targets, d)[k] == targets[at[k]]
    ensures forall k, l | 0 <= k < l < |at| :: at[k] < at[l]
    ensures forall i | 0 <= i < |targets| :: i in at <==> Depth(index, targets[i]) == d
    decreases |targets|
  {
    hide Depth;
    at := [];
    if targets != [] {
      var n := |targets| - 1;
      var front := GroupInOrder(index, targets[..n], d);
      at := front + if Depth(index, targets[n]) == d then [n] else [];
      assert n !in front;
    }
  }

  lemma {:induction false} HasDepth(index: Index, targets: seq<Thread>, d: nat, t: Thread)
    requires t in AtDepth(index, targets, d)
    ensures Depth(index, t) == d && t in targets
    decreases |targets|
  {
    var front := targets[..|targets| - 1];
    if t in AtDepth(index, front, d) { HasDepth(index, front, d, t); }
  }

  lemma DescendingStep(index: Index, targets: seq<Thread>, d: nat) returns (own: seq<seq<Thread>>)
    ensures |own| <= 1 && (own != [] ==> own[0] == AtDepth(index, targets, d))
    ensures Descending(index, targets, d) == own + if d == 0 then [] else Descending(index, targets, d - 1)
  {
    own := if AtDepth(index, targets, d) != [] then [AtDepth(index, targets, d)] else [];
  }

  /** Threads in a batch found below depth d are less deep. */
  lemma Shallower(index: Index, targets: seq<Thread>, d: nat, i: nat, t: Thread)
    requires i < |Descending(index, targets, d)| && t in Descending(index, targets, d)[i]
    ensures Depth(index, t) <= d
  {
    hide Descending, AtDepth, Depth;
    var depth := BatchIsDepth(index, targets, d, i);
    HasDepth(index, targets, depth, t);
  }

  /** A deeper thread stands in an earlier batch. */
  lemma {:induction false} DeeperFirst(index: Index, targets: seq<Thread>, d: nat, i: nat, j: nat, s: Thread, t: Thread)
    requires var bs := Descending(index, targets, d); i < |bs| && j < |bs| && s in bs[i] && t in bs[j]
    requires Depth(index, s) > Depth(index, t)
    ensures i < j
    decreases d
  {
    hide Descending, AtDepth, Depth;
    var own := DescendingStep(index, targets, d);
    var k := |own|;
    if i < k {
      HasDepth(index, targets, d, s);
      if j < k { HasDepth(index, targets, d, t); }
    } else if j < k {
      HasDepth(index, targets, d, t);
      Shallower(index, targets, d - 1, i - k, s);
    } else {
      DeeperFirst(index, targets, d - 1, i - k, j - k, s, t);
    }
  }

  // ----- descendants before ancestors -----

  /** n steps up from one id lead to another. */
  predicate Reaches(index: Index, from: string, to: string, n: nat)
    decreases n
  {
    if n == 0 then from == to
    else Truthy(ParentOf(index, from)) && Reaches(index, ParentOf(index, from).value, to, n - 1)
  }

  /** The id is its own ancestor. */
  ghost predicate OnCycle(index: Index, id: string) {
    exists n: nat | n > 0 :: Reaches(index, id, id, n)
  }

  ghost predicate Above(index: Index, parent: Option<string>, id: string) {
    Truthy(parent) && exists n: nat :: Reaches(index, parent.value, id, n)
  }

  lemma {:induction false} ReachesOn(index: Index, from: string, mid: string, to: string, m: nat, n: nat)
    requires Reaches(index, from, mid, m)
    ensures Reaches(index, from, to, m + n) <==> Reaches(index, mid, to, n)
    decreases m
  {
    if m > 0 { ReachesOn(index, ParentOf(index, from).value, mid, to, m - 1, n); }
  }

  /** Who descends from outside a cycle is outside as well. */
  lemma CycleIsInherited(index: Index, from: string, to: string, n: nat)
    requires Reaches(index, from, to, n) && OnCycle(index, from)
    ensures OnCycle(index, to)
  {
    var m: nat :| m > 0 && Reaches(index, from, from, m);
    ReachesOn(index, from, from, to, m, n);
    ReachesOn(index, from, to, to, n, m);
    assert m + n == n + m;
  }

  /** What was seen makes no difference if it is not met again. */
  lemma {:induction false} SeenElsewhere(index: Index, v: set<string>, w: set<string>, parent: Option<string>)
    requires forall id | (id in v) != (id in w) :: !Above(index, parent, id)
    ensures DepthFrom(index, v, parent) == DepthFrom(index, w, parent)
    decreases index.Keys - v, if Truthy(parent) then 1 else 0
  {
    if Truthy(parent) {
      var p := parent.value;
      var next := ParentOf(index, p);
      assert Reaches(index, p, p, 0);
      assert Above(index, parent, p);
      if p !in v {
        forall id | (id in v + {p}) != (id in w + {p}) ensures !Above(index, next, id) {
          if Above(index, next, id) {
            var n: nat :| Reaches(index, next.value, id, n);
            assert Reaches(index, p, id, n + 1);
            assert Above(index, parent, id);
          }
        }
        assert p in index ==> p in index.Keys - v;
        SeenElsewhere(index, v + {p}, w + {p}, next);
      }
    }
  }

  /** The depth an id would have as a target. */
  function DepthOfID(index: Index, id: string): nat {
    DepthFrom(index, {id}, ParentOf(index, id))
  }

  lemma OneDeeper(index: Index, id: string)
    requires !OnCycle(index, id) && Truthy(ParentOf(index, id))
    ensures DepthOfID(index, id) == 1 + DepthOfID(index, ParentOf(index, id).value)
  {
    var p := ParentOf(index, id).value;
    var next := ParentOf(index, p);
    assert Reaches(index, id, p, 1) by { assert Reaches(index, p, p, 0); }
    assert p != id;
    assert !Above(index, next, id) by {
      if Above(index, next, id) {
        var n: nat :| Reaches(index, next.value, id, n);
        assert Reaches(index, p, id, n + 1);
        assert Reaches(index, id, id, n + 2);
      }
    }
    SeenElsewhere(index, {id, p}, {p}, next);
    assert {id} + {p} == {id, p};
  }

  lemma {:induction false} ChainDepth(index: Index, from: string, to: string, n: nat)
    requires !OnCycle(index, to) && Reaches(index, from, to, n)
    ensures DepthOfID(index, from) == n + DepthOfID(index, to)
    decreases n
  {
    if n > 0 {
      if OnCycle(index, from) { CycleIsInherited(index, from, to, n); }
      OneDeeper(index, from);
      ChainDepth(index, ParentOf(index, from).value, to, n - 1);
    }
  }

  /** The index knows the target as it is. */
  predicate Indexed(index: Index, t: Thread) {
    t.id in index && index[t.id].parent == t.parent
  }

  // ----- what the depth counts -----

  /** The ids met from a parent on, until one is missing or was met before. */
  lemma {:induction false} MetFrom(index: Index, visited: set<string>, parent: Option<string>) returns (met: set<string>)
    ensures |met| == DepthFrom(index, visited, parent) && met !! visited
    ensures forall id | id in met :: Above(index, parent, id)
    ensures Truthy(parent) ==> parent.value in met + visited
    ensures forall id | id in met && Truthy(ParentOf(index, id)) :: ParentOf(index, id).value in met + visited
    decreases index.Keys - visited, if Truthy(parent) then 1 else 0
  {
    met := {};
    if Truthy(parent) && parent.value !in visited {
      var p := parent.value;
      var next := ParentOf(index, p);
      assert p in index ==> p in index.Keys - visited;
      var rest := MetFrom(index, visited + {p}, next);
      met := rest + {p};
      assert Reaches(index, p, p, 0);
      forall id | id in rest ensures Above(index, parent, id) {
        var n: nat :| Reaches(index, next.value, id, n);
        assert Reaches(index, p, id, n + 1);
      }
    }
  }

  lemma {:induction false} NeverLeaves(index: Index, ids: set<string>, from: string, to: string, n: nat)
    requires from in ids && Reaches(index, from, to, n)
    requires forall id | id in ids && Truthy(ParentOf(index, id)) :: ParentOf(index, id).value in ids
    ensures to in ids
    decreases n
  {
    if n > 0 { NeverLeaves(index, ids, ParentOf(index, from).value, to, n - 1); }
  }

  /** The depth of a target is the number of its ancestors other than itself,
      each counted once however often the chain of parents comes around, and a
      parent that is missing from the index counted as well. */
  lemma DepthCountsAncestors(index: Index, t: Thread) returns (ancestors: set<string>)
    requires Indexed(index, t)
    ensures |ancestors| == Depth(index, t)
    ensures forall id :: id in ancestors <==> id != t.id && Above(index, t.parent, id)
  {
    ancestors := MetFrom(index, {t.id}, t.parent);
    var all := ancestors + {t.id};
    forall id | id != t.id && Above(index, t.parent, id) ensures id in ancestors {
      var n: nat :| Reaches(index, t.parent.value, id, n);
      NeverLeaves(index, all, t.parent.value, id, n);
    }
  }

  /** A target goes in an earlier batch than each of its ancestors that is not
      its own ancestor, whatever other cycles there are. */
  lemma DescendantsFirst(index: Index, targets: seq<Thread>, i: nat, j: nat, descendant: Thread, ancestor: Thread, n: nat)
    requires !OnCycle(index, ancestor.id) && Indexed(index, descendant) && Indexed(index, ancestor)
    requires n > 0 && Reaches(index, descendant.id, ancestor.id, n)
    requires var bs := Batches(index, targets); i < |bs| && j < |bs| && descendant in bs[i] && ancestor in bs[j]
    ensures i < j
  {
    ChainDepth(index, descendant.id, ancestor.id, n);
    DeeperFirst(index, targets, Deepest(index, targets), i, j, descendant, ancestor);
  }

  lemma {:induction false} InSomeBatch(batches: seq<seq<Thread>>, t: Thread) returns (i: nat)
    requires t in Together(batches)
    ensures i < |batches| && t in batches[i]
    decreases |batches|
  {
    if t in batches[0] {
      i := 0;
    } else {
      var k := InSomeBatch(batches[1..], t);
      i := k + 1;
    }
  }

  /** Every target goes before each of its ancestors among the targets. */
  ghost predicate Ordered(index: Index, targets: seq<Thread>) {
    var bs := Batches(index, targets);
    forall i, j, s: Thread, t: Thread, n: nat | 0 <= i < |bs| && 0 <= j < |bs| && s in bs[i] && t in bs[j] && n > 0 && Reaches(index, s.id, t.id, n) ::
      i < j
  }

  lemma OwnAncestor(index: Index, targets: seq<Thread>, t: Thread)
    requires t in targets && OnCycle(index, t.id)
    ensures !Ordered(index, targets)
  {
    hide Batches, OnCycle;
    BatchesPartition(index, targets);
    assert t in multiset(targets);
    var i := InSomeBatch(Batches(index, targets), t);
    var n := CycleLength(index, t.id);
  }

  lemma CycleLength(index: Index, id: string) returns (n: nat)
    requires OnCycle(index, id)
    ensures n > 0 && Reaches(index, id, id, n)
  {
    n :| n > 0 && Reaches(index, id, id, n);
  }

  lemma {:induction false} BatchedTarget(index: Index, targets: seq<Thread>, i: nat, t: Thread)
    requires i < |Batches(index, targets)| && t in Batches(index, targets)[i]
    ensures t in targets
  {
    hide Descending, AtDepth, Depth;
    var d := BatchIsDepth(index, targets, Deepest(index, targets), i);
    HasDepth(index, targets, d, t);
  }

  /** Where the index knows the targets, all of them go before their ancestors
      exactly when none is its own ancestor. */
  lemma OrderedIff(index: Index, targets: seq<Thread>)
    requires forall t | t in targets :: Indexed(index, t)
    ensures Ordered(index, targets) <==> forall t | t in targets :: !OnCycle(index, t.id)
  {
    if t :| t in targets && OnCycle(index, t.id) {
      OwnAncestor(index, targets, t);
    } else {
      var bs := Batches(index, targets);
      forall i, j, s: Thread, t: Thread, n: nat | 0 <= i < |bs| && 0 <= j < |bs| && s in bs[i] && t in bs[j] && n > 0 && Reaches(index, s.id, t.id, n)
        ensures i < j
      {
        BatchedTarget(index, targets, i, s);
        BatchedTarget(index, targets, j, t);
        DescendantsFirst(index, targets, i, j, s, t, n);
      }
    }
  }

  /** In a cycle neither thread is above the other: both go in one batch. */
  lemma CycleSharesBatch()
    ensures var a, b := Thread("a", Some("b")), Thread("b", Some("a"));
      Batches(map["a" := a, "b" := b], [a, b]) == [[a, b]]
  {
    var a, b := Thread("a", Some("b")), Thread("b", Some("a"));
    var index := map["a" := a, "b" := b];
    assert Depth(index, a) == 1 by { assert DepthFrom(index, {"a"} + {"b"}, Some("a")) == 0; }
    assert Depth(index, b) == 1 by { assert DepthFrom(index, {"b"} + {"a"}, Some("b")) == 0; }
    hide Depth;
    assert [a, b][..1] == [a] && [a][..0] == [];
    assert Deepest(index, [a]) == 1 && Deepest(index, [a, b]) == 1;
    AtDepthAppend(index, [], a, 1);
    AtDepthAppend(index, [], a, 0);
    assert [] + [a] == [a] && [a] + [b] == [a, b];
    AtDepthAppend(index, [a], b, 1);
    AtDepthAppend(index, [a], b, 0);
    assert Descending(index, [a, b], 0) == [];
  }
}
