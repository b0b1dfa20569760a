/** Which entries a walk meets, said of the graph itself: those of the mappings
    that merging leads to, each pair of each mapping once. */
module YamlEntries {
  import opened Transcript
  import opened YamlWalk
  import opened YamlTrace

  /** The node an alias stands for, and any other node itself. */
  function Into(h: Heap, v: nat): nat
    requires v < |h| && Parsed(h)
  {
    if h[v].kind.Alias? && h[v].alias.Some? then h[v].alias.value else v
  }

  /** The value is a container, or an alias of one, and that is in the set. */
  predicate LeadsIn(h: Heap, v: nat, s: set<nat>)
    requires v < |h| && Parsed(h)
  {
    Resolves(h, v) && Into(h, v) in s
  }

  /** A key and its value begin at this position of a mapping. */
  predicate IsPair(h: Heap, m: nat, i: nat) {
    m < |h| && h[m].kind.Mapping? && i % 2 == 0 && i + 1 < |h[m].content|
  }

  /** What a walk goes on to from this container is in the set: the values under
      the merge keys of a mapping, the items of a sequence. */
  ghost predicate LinksIn(h: Heap, m: nat, s: set<nat>)
    requires Parsed(h)
  {
    && Container(h, m)
    && (forall i: nat | IsPair(h, m, i) && IsMergeKey(h[h[m].content[i]]) :: LeadsIn(h, h[m].content[i + 1], s))
    && (h[m].kind.Sequence? ==> forall i | 0 <= i < |h[m].content| :: LeadsIn(h, h[m].content[i], s))
  }

  /** A set of containers that merging does not leave. */
  ghost predicate ClosedSet(h: Heap, s: set<nat>)
    requires Parsed(h)
  {
    forall m | m in s :: LinksIn(h, m, s)
  }

  function EntryAt(h: Heap, m: nat, i: nat): Entry
    requires Parsed(h) && IsPair(h, m, i)
  {
    Entry(h[m].content[i], h[m].content[i + 1], IsMergeKey(h[h[m].content[i]]))
  }

  /** The entries are the pairs at these places, and no place is named twice. */
  predicate Sources(h: Heap, es: seq<Entry>, from: seq<(nat, nat)>)
    requires Parsed(h)
  {
    && |from| == |es|
    && (forall k | 0 <= k < |es| :: IsPair(h, from[k].0, from[k].1) && es[k] == EntryAt(h, from[k].0, from[k].1))
    && (forall k, l | 0 <= k < l < |es| :: from[k] != from[l])
  }

  /** All places in these mappings, and in m from position i on, and no others. */
  ghost predicate Covers(h: Heap, from: seq<(nat, nat)>, s: set<nat>, m: nat, i: nat) {
    forall n: nat, j: nat :: (n, j) in from <==> IsPair(h, n, j) && (n in s || (n == m && i <= j))
  }

  // ----- a walk closes off what it reaches -----

  lemma LinksGrow(h: Heap, m: nat, s: set<nat>, t: set<nat>)
    requires Parsed(h) && LinksIn(h, m, s) && s <= t
    ensures LinksIn(h, m, t)
  {
  }

  lemma {:induction false} TraceCloses(h: Heap, visited: set<nat>, node: nat)
    requires node < |h| && Parsed(h) && Containers(h, visited) && Trace(h, visited, node).Steps?
    ensures var t := Trace(h, visited, node);
      LeadsIn(h, node, t.visited) && forall m | m in t.visited && m !in visited :: LinksIn(h, m, t.visited)
    decreases Unvisited(visited, h), if h[node].kind.Alias? then 1 else 0
  {
    hide LinksIn;
    var n := h[node];
    if n.kind.Alias? {
      TraceCloses(h, visited, n.alias.value);
    } else if node !in visited {
      assert node in Unvisited(visited, h);
      if n.kind.Mapping? {
        PairsClose(h, visited + {node}, node, 0);
        MappingLinks(h, node, Trace(h, visited, node).visited);
      } else {
        ItemsClose(h, visited + {node}, n.content, 0);
        SequenceLinks(h, node, Trace(h, visited, node).visited);
      }
    }
  }

  lemma MappingLinks(h: Heap, m: nat, s: set<nat>)
    requires Parsed(h) && m < |h| && h[m].kind.Mapping?
    requires forall i: nat | IsPair(h, m, i) && IsMergeKey(h[h[m].content[i]]) :: LeadsIn(h, h[m].content[i + 1], s)
    ensures LinksIn(h, m, s)
  {
  }

  lemma SequenceLinks(h: Heap, m: nat, s: set<nat>)
    requires Parsed(h) && m < |h| && h[m].kind.Sequence?
    requires forall i | 0 <= i < |h[m].content| :: LeadsIn(h, h[m].content[i], s)
    ensures LinksIn(h, m, s)
  {
  }

  lemma {:induction false} PairsClose(h: Heap, visited: set<nat>, m: nat, i: nat)
    requires Parsed(h) && Containers(h, visited) && m < |h| && h[m].kind.Mapping? && i <= |h[m].content| && i % 2 == 0
    requires TracePairs(h, visited, h[m].content, i).Steps?
    ensures var t := TracePairs(h, visited, h[m].content, i);
      && (forall j: nat | i <= j && IsPair(h, m, j) && IsMergeKey(h[h[m].content[j]]) :: LeadsIn(h, h[m].content[j + 1], t.visited))
      && (forall n | n in t.visited && n !in visited :: LinksIn(h, n, t.visited))
    decreases Unvisited(visited, h), 2 + |h[m].content| - i
  {
    hide LinksIn, Trace, Resolves;
    var content := h[m].content;
    if i + 1 < |content| {
      var merge := IsMergeKey(h[content[i]]);
      var r := if merge then Trace(h, visited, content[i + 1]) else Steps(visited, []);
      if merge { TraceCloses(h, visited, content[i + 1]); }
      assert Unvisited(r.visited, h) <= Unvisited(visited, h);
      PairsClose(h, r.visited, m, i + 2);
      var t := TracePairs(h, visited, content, i);
      forall n | n in t.visited && n !in visited ensures LinksIn(h, n, t.visited) {
        if n in r.visited { LinksGrow(h, n, r.visited, t.visited); }
      }
    }
  }

  lemma {:induction false} ItemsClose(h: Heap, visited: set<nat>, content: seq<nat>, i: nat)
    requires Parsed(h) && Containers(h, visited) && (forall k | 0 <= k < |content| :: content[k] < |h|) && i <= |content|
    requires TraceItems(h, visited, content, i).Steps?
    ensures var t := TraceItems(h, visited, content, i);
      && (forall j | i <= j < |content| :: LeadsIn(h, content[j], t.visited))
      && (forall n | n in t.visited && n !in visited :: LinksIn(h, n, t.visited))
    decreases Unvisited(visited, h), 2 + |content| - i
  {
    hide LinksIn, Trace, Resolves;
    if i < |content| {
      var r := Trace(h, visited, content[i]);
      TraceCloses(h, visited, content[i]);
      assert Unvisited(r.visited, h) <= Unvisited(visited, h);
      ItemsClose(h, r.visited, content, i + 1);
      var t := TraceItems(h, visited, content, i);
      forall n | n in t.visited && n !in visited ensures LinksIn(h, n, t.visited) {
        if n in r.visited { LinksGrow(h, n, r.visited, t.visited); }
      }
    }
  }

  // ----- and reaches no more than it must -----

  lemma {:induction false} TraceWithin(h: Heap, visited: set<nat>, node: nat, s: set<nat>)
    requires node < |h| && Parsed(h) && Containers(h, visited) && visited <= s && ClosedSet(h, s) && LeadsIn(h, node, s)
    ensures var t := Trace(h, visited, node); t.Steps? && t.visited <= s
    decreases Unvisited(visited, h), if h[node].kind.Alias? then 1 else 0
  {
    var n := h[node];
    if n.kind.Alias? {
      TraceWithin(h, visited, n.alias.value, s);
    } else if node !in visited {
      assert node in Unvisited(visited, h) && LinksIn(h, node, s);
      if n.kind.Mapping? {
        PairsWithin(h, visited + {node}, node, 0, s);
      } else {
        ItemsWithin(h, visited + {node}, n.content, 0, s);
      }
    }
  }

  lemma {:induction false} PairsWithin(h: Heap, visited: set<nat>, m: nat, i: nat, s: set<nat>)
    requires Parsed(h) && Containers(h, visited) && visited <= s && ClosedSet(h, s)
    requires m in s && m < |h| && h[m].kind.Mapping? && i <= |h[m].content| && i % 2 == 0
    ensures var t := TracePairs(h, visited, h[m].content, i); t.Steps? && t.visited <= s
    decreases Unvisited(visited, h), 2 + |h[m].content| - i
  {
    hide Trace, Resolves, ClosedSet;
    var content := h[m].content;
    if i + 1 < |content| {
      var merge := IsMergeKey(h[content[i]]);
      if merge {
        MemberLinks(h, m, s);
        assert IsPair(h, m, i);
        TraceWithin(h, visited, content[i + 1], s);
      }
      var r := if merge then Trace(h, visited, content[i + 1]) else Steps(visited, []);
      assert Unvisited(r.visited, h) <= Unvisited(visited, h);
      PairsWithin(h, r.visited, m, i + 2, s);
    }
  }

  lemma MemberLinks(h: Heap, m: nat, s: set<nat>)
    requires Parsed(h) && ClosedSet(h, s) && m in s
    ensures LinksIn(h, m, s)
  {
  }

  lemma {:induction false} ItemsWithin(h: Heap, visited: set<nat>, content: seq<nat>, i: nat, s: set<nat>)
    requires Parsed(h) && Containers(h, visited) && visited <= s && ClosedSet(h, s)
    requires i <= |content| && (forall k | 0 <= k < |content| :: content[k] < |h| && LeadsIn(h, content[k], s))
    ensures var t := TraceItems(h, visited, content, i); t.Steps? && t.visited <= s
    decreases Unvisited(visited, h), 2 + |content| - i
  {
    hide Trace, Resolves, ClosedSet;
    if i < |content| {
      TraceWithin(h, visited, content[i], s);
      var r := Trace(h, visited, content[i]);
      assert Unvisited(r.visited, h) <= Unvisited(visited, h);
      ItemsWithin(h, r.visited, content, i + 1, s);
    }
  }

  // ----- the pairs it meets -----

  lemma {:induction false} TraceSources(h: Heap, visited: set<nat>, node: nat) returns (from: seq<(nat, nat)>)
    requires node < |h| && Parsed(h) && Containers(h, visited) && Trace(h, visited, node).Steps?
    ensures var t := Trace(h, visited, node); Sources(h, t.entries, from) && Covers(h, from, t.visited - visited, |h|, 0)
    decreases Unvisited(visited, h), if h[node].kind.Alias? then 1 else 0
  {
    var n := h[node];
    from := [];
    if n.kind.Alias? {
      from := TraceSources(h, visited, n.alias.value);
    } else if node !in visited {
      assert node in Unvisited(visited, h);
      if n.kind.Mapping? {
        from := PairsSources(h, visited + {node}, node, 0);
      } else {
        from := ItemsSources(h, visited + {node}, n.content, 0);
        NoPairs(h, node);
      }
    }
  }

  lemma NoPairs(h: Heap, m: nat)
    requires m < |h| && !h[m].kind.Mapping?
    ensures forall j: nat :: !IsPair(h, m, j)
  {
  }

  lemma SourcesConcat(h: Heap, es: seq<Entry>, from: seq<(nat, nat)>, more: seq<Entry>, rest: seq<(nat, nat)>)
    requires Parsed(h) && Sources(h, es, from) && Sources(h, more, rest)
    requires forall n: nat, j: nat :: !((n, j) in from && (n, j) in rest)
    ensures Sources(h, es + more, from + rest)
  {
    forall k, l | 0 <= k < l < |es + more| ensures (from + rest)[k] != (from + rest)[l] {
      if k < |es| <= l {
        var (n, j) := from[k];
        assert (n, j) in from && rest[l - |es|] in rest;
      }
    }
  }

  lemma {:induction false} PairsSources(h: Heap, visited: set<nat>, m: nat, i: nat) returns (from: seq<(nat, nat)>)
    requires Parsed(h) && Containers(h, visited) && m in visited && m < |h| && h[m].kind.Mapping? && i <= |h[m].content| && i % 2 == 0
    requires TracePairs(h, visited, h[m].content, i).Steps?
    ensures var t := TracePairs(h, visited, h[m].content, i);
      Sources(h, t.entries, from) && Covers(h, from, t.visited - visited, m, i)
    decreases Unvisited(visited, h), 2 + |h[m].content| - i
  {
    hide Trace, Sources;
    var content := h[m].content;
    from := [];
    if i + 1 < |content| {
      var merge := IsMergeKey(h[content[i]]);
      var r := if merge then Trace(h, visited, content[i + 1]) else Steps(visited, []);
      var below: seq<(nat, nat)> := [];
      if merge { below := TraceSources(h, visited, content[i + 1]); } else { NoSources(h); }
      assert Unvisited(r.visited, h) <= Unvisited(visited, h);
      var rest := PairsSources(h, r.visited, m, i + 2);
      OwnSource(h, m, i);
      var t, u := TracePairs(h, visited, content, i), TracePairs(h, r.visited, content, i + 2);
      assert Covers(h, below, r.visited - visited, |h|, 0);
      SourcesConcat(h, r.entries, below, u.entries, rest);
      SourcesConcat(h, [EntryAt(h, m, i)], [(m, i)], r.entries + u.entries, below + rest);
      from := [(m, i)] + (below + rest);
      assert t.entries == [EntryAt(h, m, i)] + (r.entries + u.entries);
    } else {
      NoSources(h);
    }
  }

  lemma NoSources(h: Heap)
    requires Parsed(h)
    ensures Sources(h, [], [])
  {
  }

  lemma OwnSource(h: Heap, m: nat, i: nat)
    requires Parsed(h) && IsPair(h, m, i)
    ensures Sources(h, [EntryAt(h, m, i)], [(m, i)])
  {
  }

  lemma {:induction false} ItemsSources(h: Heap, visited: set<nat>, content: seq<nat>, i: nat) returns (from: seq<(nat, nat)>)
    requires Parsed(h) && Containers(h, visited) && (forall k | 0 <= k < |content| :: content[k] < |h|) && i <= |content|
    requires TraceItems(h, visited, content, i).Steps?
    ensures var t := TraceItems(h, visited, content, i); Sources(h, t.entries, from) && Covers(h, from, t.visited - visited, |h|, 0)
    decreases Unvisited(visited, h), 2 + |content| - i
  {
    hide Trace, Sources;
    from := [];
    if i < |content| {
      var r := Trace(h, visited, content[i]);
      var first := TraceSources(h, visited, content[i]);
      assert Unvisited(r.visited, h) <= Unvisited(visited, h);
      var rest := ItemsSources(h, r.visited, content, i + 1);
      SourcesConcat(h, r.entries, first, TraceItems(h, r.visited, content, i + 1).entries, rest);
      from := first + rest;
    } else {
      NoSources(h);
    }
  }

  // ----- together -----

  /** The walk from a node goes through exactly when some set of containers has
      it and is not left by merging. It then visits the least such set, and its
      entries are the pairs of the mappings in it, each once. */
  lemma EntriesMet(h: Heap, node: nat) returns (from: seq<(nat, nat)>)
    requires Parsed(h) && node < |h|
    ensures var t := Trace(h, {}, node);
      && (t.Steps? <==> exists s :: ClosedSet(h, s) && LeadsIn(h, node, s))
      && (t.Steps? ==>
            && ClosedSet(h, t.visited) && LeadsIn(h, node, t.visited)
            && (forall s | ClosedSet(h, s) && LeadsIn(h, node, s) :: t.visited <= s)
            && Sources(h, t.entries, from)
            && forall m: nat, i: nat :: (m, i) in from <==> IsPair(h, m, i) && m in t.visited)
  {
    hide Trace, LinksIn, Sources;
    from := [];
    forall s | ClosedSet(h, s) && LeadsIn(h, node, s) ensures Trace(h, {}, node).Steps? && Trace(h, {}, node).visited <= s {
      TraceWithin(h, {}, node, s);
    }
    if Trace(h, {}, node).Steps? {
      TraceCloses(h, {}, node);
      from := TraceSources(h, {}, node);
    }
  }
}
