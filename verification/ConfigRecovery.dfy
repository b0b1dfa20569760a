/** When merging a redacted configuration against its original gives the
    original back. */
module ConfigRecovery {
  import opened Transcript
  import opened YamlWalk
  import opened YamlTrace
  import opened ConfigRedaction
  import opened ConfigRoundTrip

  // ----- finding environment.variables again -----

  /** Some nodes have been redacted, nothing else. */
  predicate Redacting(h: Heap, h': Heap) {
    && |h| == |h'|
    && forall i | 0 <= i < |h| :: h'[i] == h[i] || (h[i].kind.Scalar? && h'[i] == RedactedNode(h[i]))
  }

  /** The pair found keeps being found while its key shows, and then no other. */
  lemma {:induction false} LookupWhileRedacting(h: Heap, h': Heap, content: seq<nat>, key: string, i: nat, found: Lookup, found': Lookup)
    requires Redacting(h, h') && key != REDACTED
    requires forall k | 0 <= k < |content| :: content[k] < |h|
    requires !found.Duplicate? && (found.Unique? ==> found.key < |h| && found.value < |h| && h[found.key].value == key)
    requires found' == if found.Unique? && h'[found.key].value == key then found else Absent
    ensures var r := LookupFrom(h, content, key, i, found);
      !r.Duplicate? ==>
        && (r.Unique? ==> h[r.key].value == key)
        && LookupFrom(h', content, key, i, found') == if r.Unique? && h'[r.key].value == key then r else Absent
    decreases |content| - i
  {
    if i + 1 < |content| {
      var k := content[i];
      if h[k].value != key {
        LookupWhileRedacting(h, h', content, key, i + 2, found, found');
      } else if !found.Unique? {
        var now := Unique(k, content[i + 1]);
        LookupWhileRedacting(h, h', content, key, i + 2, now, if h'[k].value == key then now else Absent);
      }
    }
  }

  lemma ValueWhileRedacting(h: Heap, h': Heap, node: nat, key: string)
    requires Parsed(h) && Parsed(h') && Redacting(h, h') && key != REDACTED && node < |h|
    ensures var r := UniqueMappingValue(h, node, key);
      !r.Duplicate? ==>
        && (r.Unique? ==> h[r.key].value == key)
        && UniqueMappingValue(h', node, key) == if r.Unique? && h'[r.key].value == key then r else Absent
  {
    if h[node].kind.Mapping? {
      LookupWhileRedacting(h, h', h[node].content, key, 0, Absent, Absent);
    }
  }

  /** The variables stay where they are, or are no longer found because one of
      the two keys on the way to them was redacted. */
  lemma VariablesWhileRedacting(d: Doc, h': Heap)
    requires GoodDoc(d) && Redacting(d.h, h') && Parsed(h') && EnvironmentVariables(d).Vars?
    ensures GoodDoc(d.(h := h'))
    ensures var v := EnvironmentVariables(d);
      && d.h[v.environmentKey].value == "environment" && d.h[v.variablesKey].value == "variables"
      && EnvironmentVariables(d.(h := h')) ==
        if h'[v.environmentKey] == d.h[v.environmentKey] && h'[v.variablesKey] == d.h[v.variablesKey] then v
        else NoVariables
  {
    ValueWhileRedacting(d.h, h', d.root.value, "environment");
    var environment := UniqueMappingValue(d.h, d.root.value, "environment");
    ValueWhileRedacting(d.h, h', environment.value, "variables");
  }

  // ----- a walk that leaves the graph alone has a trace -----

  lemma RedactingTransitive(a: Heap, b: Heap, c: Heap)
    requires Redacting(a, b) && Redacting(b, c)
    ensures Redacting(a, c)
    ensures a == c ==> b == a
  {
    if a == c {
      forall i | 0 <= i < |a| ensures b[i] == a[i] {
      }
    }
  }

  predicate Gentle(pass: Pass) {
    pass.Redact? || pass.Collect?
  }

  lemma VisitIsGentle(pass: Pass, c: Ctx, key: string, v: nat)
    requires v < |c.h| && Parsed(c.h) && Gentle(pass)
    ensures var r := Visit(pass, c, key, v); r.Fine? ==> Redacting(c.h, r.c.h)
  {
    var s := ScalarOf(c.h, v);
    if s.Some? { assert c.h[s.value].kind.Scalar?; }
  }

  /** If the walk went through and changed nothing, the trace is the walk's. */
  predicate Tracked(h: Heap, r: Walked, t: Traced) {
    r.Good? ==> (Redacting(h, r.c.h) && Containers(h, r.visited) && (r.c.h == h ==> t.Steps? && t.visited == r.visited))
  }

  lemma {:induction false} GentleWalk(pass: Pass, visited: set<nat>, c: Ctx, node: nat)
    requires node < |c.h| && Parsed(c.h) && Gentle(pass) && Containers(c.h, visited)
    ensures Tracked(c.h, Walk(pass, visited, c, node), Trace(c.h, visited, node))
    decreases Unvisited(visited, c.h), if c.h[node].kind.Alias? then 1 else 0
  {
    var n := c.h[node];
    if n.kind.Alias? {
      if n.alias.Some? { GentleWalk(pass, visited, c, n.alias.value); }
    } else if node !in visited {
      assert node in Unvisited(visited, c.h);
      if n.kind.Mapping? { GentlePairs(pass, visited + {node}, c, n.content, 0); }
      if n.kind.Sequence? { GentleItems(pass, visited + {node}, c, n.content, 0); }
    }
  }

  lemma GentleEntry(pass: Pass, visited: set<nat>, c: Ctx, key: Node, value: nat, rank: nat)
    requires value < |c.h| && Parsed(c.h) && Gentle(pass) && Containers(c.h, visited) && rank > 0
    requires IsMergeKey(key) ==> Tracked(c.h, Walk(pass, visited, c, value), Trace(c.h, visited, value))
    ensures Tracked(c.h, WalkEntry(pass, visited, c, key, value, rank),
                    if IsMergeKey(key) then Trace(c.h, visited, value) else Steps(visited, []))
  {
    VisitIsGentle(pass, c, key.value, value);
  }

  /** Two parts of a walk, and the traces of both. */
  lemma TrackedTogether(h: Heap, first: Walked, t: Traced, second: Walked, u: Traced)
    requires first.Good? && Tracked(h, first, t) && Tracked(first.c.h, second, u)
    ensures second.Good? ==> Redacting(h, second.c.h) && Containers(h, second.visited)
    ensures second.Good? && second.c.h == h ==>
      first.c.h == h && t.Steps? && t.visited == first.visited && u.Steps? && u.visited == second.visited
  {
    if second.Good? { RedactingTransitive(h, first.c.h, second.c.h); }
  }

  lemma {:induction false} GentlePairs(pass: Pass, visited: set<nat>, c: Ctx, content: seq<nat>, i: nat)
    requires Parsed(c.h) && Gentle(pass) && Containers(c.h, visited)
    requires i <= |content| && forall k | 0 <= k < |content| :: content[k] < |c.h|
    ensures Tracked(c.h, WalkPairs(pass, visited, c, content, i), TracePairs(c.h, visited, content, i))
    decreases Unvisited(visited, c.h), 2 + |content| - i
  {
    if i + 1 < |content| {
      var key, value := c.h[content[i]], content[i + 1];
      if IsMergeKey(key) { GentleWalk(pass, visited, c, value); }
      GentleEntry(pass, visited, c, key, value, |content| - i);
      var r := WalkEntry(pass, visited, c, key, value, |content| - i);
      var t := if IsMergeKey(key) then Trace(c.h, visited, value) else Steps(visited, []);
      if r.Good? {
        RestOfPairs(pass, visited, c, content, i, r, t);
      }
    }
  }

  lemma {:induction false} RestOfPairs(pass: Pass, visited: set<nat>, c: Ctx, content: seq<nat>, i: nat, r: Walked, t: Traced)
    requires Parsed(c.h) && Gentle(pass) && Containers(c.h, visited)
    requires i + 1 < |content| && forall k | 0 <= k < |content| :: content[k] < |c.h|
    requires r == WalkEntry(pass, visited, c, c.h[content[i]], content[i + 1], |content| - i)
    requires t == if IsMergeKey(c.h[content[i]]) then Trace(c.h, visited, content[i + 1]) else Steps(visited, [])
    requires r.Good? && Tracked(c.h, r, t)
    ensures Tracked(c.h, WalkPairs(pass, visited, c, content, i), TracePairs(c.h, visited, content, i))
    decreases Unvisited(visited, c.h), 1 + |content| - i
  {
    assert Unvisited(r.visited, r.c.h) <= Unvisited(visited, c.h);
    GentlePairs(pass, r.visited, r.c, content, i + 2);
    TrackedTogether(c.h, r, t, WalkPairs(pass, r.visited, r.c, content, i + 2), TracePairs(r.c.h, r.visited, content, i + 2));
  }

  lemma {:induction false} GentleItems(pass: Pass, visited: set<nat>, c: Ctx, content: seq<nat>, i: nat)
    requires Parsed(c.h) && Gentle(pass) && Containers(c.h, visited)
    requires i <= |content| && forall k | 0 <= k < |content| :: content[k] < |c.h|
    ensures Tracked(c.h, WalkItems(pass, visited, c, content, i), TraceItems(c.h, visited, content, i))
    decreases Unvisited(visited, c.h), 2 + |content| - i
  {
    if i < |content| {
      GentleWalk(pass, visited, c, content[i]);
      var r := Walk(pass, visited, c, content[i]);
      if r.Good? {
        assert Unvisited(r.visited, r.c.h) <= Unvisited(visited, c.h);
        GentleItems(pass, r.visited, r.c, content, i + 1);
        TrackedTogether(c.h, r, Trace(c.h, visited, content[i]),
          WalkItems(pass, r.visited, r.c, content, i + 1), TraceItems(r.c.h, r.visited, content, i + 1));
      }
    }
  }

  // ----- scanning touches nothing that was redacted -----

  predicate OnlyLiterals(h: Heap, h': Heap) {
    |h| == |h'| && forall i | 0 <= i < |h| && h[i].tag == STRING_TAG :: h'[i] == h[i]
  }

  lemma ScanVisit(c: Ctx, key: string, v: nat)
    requires v < |c.h| && Parsed(c.h)
    ensures var r := Visit(Scan, c, key, v); r.Fine? ==> OnlyLiterals(c.h, r.c.h)
  {
  }

  lemma {:induction false} ScanWalk(visited: set<nat>, c: Ctx, node: nat)
    requires node < |c.h| && Parsed(c.h)
    ensures var r := Walk(Scan, visited, c, node); r.Good? ==> OnlyLiterals(c.h, r.c.h)
    decreases Unvisited(visited, c.h), if c.h[node].kind.Alias? then 1 else 0
  {
    var n := c.h[node];
    if n.kind.Alias? {
      if n.alias.Some? { ScanWalk(visited, c, n.alias.value); }
    } else if node !in visited {
      assert node in Unvisited(visited, c.h);
      if n.kind.Mapping? { ScanPairs(visited + {node}, c, n.content, 0); }
      if n.kind.Sequence? { ScanItems(visited + {node}, c, n.content, 0); }
    }
  }

  lemma {:induction false} ScanPairs(visited: set<nat>, c: Ctx, content: seq<nat>, i: nat)
    requires Parsed(c.h) && i <= |content| && forall k | 0 <= k < |content| :: content[k] < |c.h|
    ensures var r := WalkPairs(Scan, visited, c, content, i); r.Good? ==> OnlyLiterals(c.h, r.c.h)
    decreases Unvisited(visited, c.h), 2 + |content| - i
  {
    if i + 1 < |content| {
      var key, value := c.h[content[i]], content[i + 1];
      if IsMergeKey(key) { ScanWalk(visited, c, value); }
      ScanVisit(c, key.value, value);
      var r := WalkEntry(Scan, visited, c, key, value, |content| - i);
      if r.Good? {
        assert Unvisited(r.visited, r.c.h) <= Unvisited(visited, c.h);
        ScanPairs(r.visited, r.c, content, i + 2);
      }
    }
  }

  lemma {:induction false} ScanItems(visited: set<nat>, c: Ctx, content: seq<nat>, i: nat)
    requires Parsed(c.h) && i <= |content| && forall k | 0 <= k < |content| :: content[k] < |c.h|
    ensures var r := WalkItems(Scan, visited, c, content, i); r.Good? ==> OnlyLiterals(c.h, r.c.h)
    decreases Unvisited(visited, c.h), 2 + |content| - i
  {
    if i < |content| {
      ScanWalk(visited, c, content[i]);
      var r := Walk(Scan, visited, c, content[i]);
      if r.Good? {
        assert Unvisited(r.visited, r.c.h) <= Unvisited(visited, c.h);
        ScanItems(r.visited, r.c, content, i + 1);
      }
    }
  }

  // ----- the theorem -----

  /** No two names clash whether or not the values standing as keys are hidden,
      no merge key is a value, and no entry is reached while its name is hidden. */
  predicate ValuesRecoverable(h: Heap, es: seq<Entry>)
    requires Parsed(h) && InHeap(h, es) && AllScalars(h, es)
  {
    var values := Targets(h, es);
    && DistinctNames(h, {}, es, {}) && DistinctNames(h, values, es, {})
    && MergeKeysOutside(es, values) && Replayable(h, es, values)
  }

  /** What a caller can check in the original before redacting it: the walk goes
      through, every value is a scalar, neither key on the way to the variables
      is one of the values, and the values are recoverable. */
  predicate Recoverable(d: Doc)
    requires GoodDoc(d)
  {
    match EnvironmentVariables(d)
    case Malformed => false
    case NoVariables => true
    case Vars(environmentKey, variablesKey, node) =>
      var t := Trace(d.h, {}, node);
      && t.Steps? && AllScalars(d.h, t.entries)
      && environmentKey !in Targets(d.h, t.entries) && variablesKey !in Targets(d.h, t.entries)
      && ValuesRecoverable(d.h, t.entries)
  }

  lemma RedactedDoc(d: Doc)
    requires GoodDoc(d) && EnvironmentVariables(d).Vars? && RedactConfig(d).Ok?
    ensures var red, v := RedactConfig(d).doc, EnvironmentVariables(d);
      && Redacting(d.h, red.h) && GoodDoc(red)
      && (red.h == d.h ==> Trace(d.h, {}, v.node).Steps?)
  {
    GentleWalk(Redact, {}, Begin(d.h), EnvironmentVariables(d).node);
  }

  /** Where even the walk over the original breaks off, nothing is recovered. */
  lemma NoTraceIsLost(d: Doc)
    requires GoodDoc(d) && EnvironmentVariables(d).Vars? && RedactConfig(d).Ok?
    requires Trace(d.h, {}, EnvironmentVariables(d).node).NoTrace?
    ensures MergeConfig(RedactConfig(d).doc, Some(d)) != Ok(d)
  {
    hide Walk, Trace, Redacting, OnlyLiterals, Containers;
    var red, v := RedactConfig(d).doc, EnvironmentVariables(d);
    RedactedDoc(d);
    VariablesWhileRedacting(d, red.h);
    assert red == d.(h := red.h);
    hide EnvironmentVariables;
    if EnvironmentVariables(red) == v {
      var scan := Walk(Scan, {}, Begin(red.h), v.node);
      ScanWalk({}, Begin(red.h), v.node);
      if scan.Good? && !scan.c.needsMerge {
        StaysRedacted(d.h, red.h, scan.c.h);
      }
      GentleWalk(Collect, {}, Begin(d.h), v.node);
      CollectLeavesHeap({}, Begin(d.h), v.node);
    }
  }

  lemma StaysRedacted(h: Heap, red: Heap, scanned: Heap)
    requires Redacting(h, red) && OnlyLiterals(red, scanned) && red != h
    ensures scanned != h
  {
    var i :| 0 <= i < |h| && red[i] != h[i];
    assert scanned[i] == red[i];
  }

  lemma {:induction false} CollectLeavesHeap(visited: set<nat>, c: Ctx, node: nat)
    requires node < |c.h| && Parsed(c.h)
    ensures var r := Walk(Collect, visited, c, node); r.Good? ==> r.c.h == c.h
    decreases Unvisited(visited, c.h), if c.h[node].kind.Alias? then 1 else 0
  {
    var n := c.h[node];
    if n.kind.Alias? {
      if n.alias.Some? { CollectLeavesHeap(visited, c, n.alias.value); }
    } else if node !in visited {
      assert node in Unvisited(visited, c.h);
      if n.kind.Mapping? { CollectPairs(visited + {node}, c, n.content, 0); }
      if n.kind.Sequence? { CollectItems(visited + {node}, c, n.content, 0); }
    }
  }

  lemma {:induction false} CollectPairs(visited: set<nat>, c: Ctx, content: seq<nat>, i: nat)
    requires Parsed(c.h) && i <= |content| && forall k | 0 <= k < |content| :: content[k] < |c.h|
    ensures var r := WalkPairs(Collect, visited, c, content, i); r.Good? ==> r.c.h == c.h
    decreases Unvisited(visited, c.h), 2 + |content| - i
  {
    if i + 1 < |content| {
      var key, value := c.h[content[i]], content[i + 1];
      if IsMergeKey(key) { CollectLeavesHeap(visited, c, value); }
      var r := WalkEntry(Collect, visited, c, key, value, |content| - i);
      if r.Good? {
        assert Unvisited(r.visited, r.c.h) <= Unvisited(visited, c.h);
        CollectPairs(r.visited, r.c, content, i + 2);
      }
    }
  }

  lemma {:induction false} CollectItems(visited: set<nat>, c: Ctx, content: seq<nat>, i: nat)
    requires Parsed(c.h) && i <= |content| && forall k | 0 <= k < |content| :: content[k] < |c.h|
    ensures var r := WalkItems(Collect, visited, c, content, i); r.Good? ==> r.c.h == c.h
    decreases Unvisited(visited, c.h), 2 + |content| - i
  {
    if i < |content| {
      CollectLeavesHeap(visited, c, content[i]);
      var r := Walk(Collect, visited, c, content[i]);
      if r.Good? {
        assert Unvisited(r.visited, r.c.h) <= Unvisited(visited, c.h);
        CollectItems(r.visited, r.c, content, i + 1);
      }
    }
  }

  /** Redaction hides exactly the values. */
  lemma RedactionHidesValues(d: Doc, es: seq<Entry>)
    requires GoodDoc(d) && EnvironmentVariables(d).Vars? && RedactConfig(d).Ok? && InHeap(d.h, es)
    requires Trace(d.h, {}, EnvironmentVariables(d).node).Steps? && Trace(d.h, {}, EnvironmentVariables(d).node).entries == es
    ensures AllScalars(d.h, es) && Setting(d.h, Targets(d.h, es))
    ensures RedactConfig(d).doc.h == Mix(d.h, Targets(d.h, es))
  {
    assert Mix(d.h, {}) == d.h;
    WalkIsFold(Redact, d.h, {}, Begin(d.h), EnvironmentVariables(d).node);
    RedactFold(d.h, es, {}, {});
    assert {} + Targets(d.h, es) == Targets(d.h, es);
    MixParsed(d.h, Targets(d.h, es));
  }

  /** What the original has to offer, if its names are distinct. */
  lemma OriginalValues(d: Doc, es: seq<Entry>)
    requires GoodDoc(d) && EnvironmentVariables(d).Vars? && InHeap(d.h, es) && AllScalars(d.h, es)
    requires Trace(d.h, {}, EnvironmentVariables(d).node).Steps? && Trace(d.h, {}, EnvironmentVariables(d).node).entries == es
    ensures ExistingValues(d).Some? <==> DistinctNames(d.h, {}, es, {})
    ensures var e := ExistingValues(d);
      e.Some? ==> Supplies(d.h, es, e.value) && (REDACTED in e.value ==> Has(d.h, es, REDACTED))
  {
    assert Mix(d.h, {}) == d.h;
    WalkIsFold(Collect, d.h, {}, Begin(d.h), EnvironmentVariables(d).node);
    CollectFold(d.h, es, {}, map[]);
  }

  lemma NoOrdinaryEntries(h: Heap, es: seq<Entry>)
    requires Parsed(h) && InHeap(h, es) && !AnyOrdinary(es)
    ensures AllScalars(h, es) && Targets(h, es) == {}
    ensures DistinctNames(h, {}, es, {}) && MergeKeysOutside(es, {}) && Replayable(h, es, {})
    decreases |es|
  {
    if es != [] {
      assert es[0].merge;
      assert InHeap(h, es[1..]);
      HeadKeys(es, {});
      NoOrdinaryEntries(h, es[1..]);
    }
  }

  /** Merging, once the placeholders have been scanned. */
  lemma RestoreRecovers(d: Doc, es: seq<Entry>, existing: map<string, Node>, node: nat)
    requires GoodDoc(d) && node < |d.h| && Trace(d.h, {}, node).Steps? && Trace(d.h, {}, node).entries == es
    requires InHeap(d.h, es) && AllScalars(d.h, es) && Setting(d.h, Targets(d.h, es))
    requires GoodPass(Restore(existing)) && Supplies(d.h, es, existing)
    requires REDACTED in existing ==> Has(d.h, es, REDACTED)
    requires DistinctNames(d.h, {}, es, {}) && DistinctNames(d.h, Targets(d.h, es), es, {})
    requires MergeKeysOutside(es, Targets(d.h, es))
    ensures var w := Walk(Restore(existing), {}, Begin(Mix(d.h, Targets(d.h, es))), node);
      && (w.Good? <==> Replayable(d.h, es, Targets(d.h, es)))
      && (w.Good? ==> w.c.h == d.h)
  {
    var values := Targets(d.h, es);
    WalkIsFold(Restore(existing), d.h, {}, Begin(Mix(d.h, values)), node);
    RestoreFold(d.h, es, values, values, {}, {}, {}, existing);
    assert values - values == {};
    assert Mix(d.h, {}) == d.h;
  }

  predicate TraceIs(h: Heap, node: nat, es: seq<Entry>)
    requires Parsed(h) && node < |h|
  {
    var t := Trace(h, {}, node);
    t.Steps? && t.entries == es
  }

  /** Scanning the redacted configuration. */
  lemma ScanOfRedacted(h: Heap, node: nat, es: seq<Entry>)
    requires Parsed(h) && node < |h| && TraceIs(h, node, es) && InHeap(h, es) && AllScalars(h, es)
    requires Setting(h, Targets(h, es))
    ensures var values, red := Targets(h, es), Mix(h, Targets(h, es));
      var scan := Walk(Scan, {}, Begin(red), node);
      && (scan.Good? <==> MergeKeysOutside(es, values) && DistinctNames(h, values, es, {}))
      && (scan.Good? ==> scan.c.h == red && scan.c.literal == {} && scan.c.needsMerge == AnyOrdinary(es))
  {
    WalkIsFold(Scan, h, {}, Begin(Mix(h, Targets(h, es))), node);
    ScanFold(h, es, Targets(h, es), {}, false);
  }

  /** Merging, where environment.variables is still found. */
  lemma MergeWithVariables(d: Doc, red: Doc, es: seq<Entry>, node: nat)
    requires GoodDoc(d) && GoodDoc(red) && EnvironmentVariables(d).Vars? && EnvironmentVariables(d) == EnvironmentVariables(red)
    requires node == EnvironmentVariables(d).node && TraceIs(d.h, node, es) && InHeap(d.h, es) && AllScalars(d.h, es)
    requires Setting(d.h, Targets(d.h, es)) && red == d.(h := Mix(d.h, Targets(d.h, es)))
    ensures MergeConfig(red, Some(d)) == if ValuesRecoverable(d.h, es) then Ok(d) else Err
  {
    hide Walk, Trace, DistinctNames, Replayable, Targets, AllScalars, EnvironmentVariables;
    ScanOfRedacted(d.h, node, es);
    var scan := Walk(Scan, {}, Begin(red.h), node);
    if scan.Good? && scan.c.needsMerge {
      assert Begin(scan.c.h).(literal := scan.c.literal) == Begin(red.h);
      OriginalValues(d, es);
      var existing := ExistingValues(d);
      if existing.Some? {
        ExistingAreScalars(d);
        RestoreRecovers(d, es, existing.value, node);
      }
    } else if scan.Good? {
      NoOrdinaryEntries(d.h, es);
      assert Mix(d.h, {}) == d.h;
    }
  }

  /** What merging the redacted configuration yields, on a graph with a trace:
      the original or nothing at all, but never another value. */
  lemma MergeOfRedacted(d: Doc)
    requires GoodDoc(d) && EnvironmentVariables(d).Vars? && RedactConfig(d).Ok?
    requires Trace(d.h, {}, EnvironmentVariables(d).node).Steps?
    ensures var red := RedactConfig(d).doc;
      MergeConfig(red, Some(d)) == if Recoverable(d) then Ok(d)
                                   else if EnvironmentVariables(red).Vars? then Err
                                   else Ok(red)
  {
    var red, v := RedactConfig(d).doc, EnvironmentVariables(d);
    var es := Trace(d.h, {}, v.node).entries;
    assert InHeap(d.h, es);
    RedactedDoc(d);
    RedactionHidesValues(d, es);
    VariablesWhileRedacting(d, red.h);
    assert red == d.(h := red.h);
    KeysShow(d.h, Targets(d.h, es), v.environmentKey, v.variablesKey);
    if EnvironmentVariables(red) == v {
      MergeWithVariables(d, red, es, v.node);
    }
  }

  lemma KeysShow(h: Heap, hidden: set<nat>, a: nat, b: nat)
    requires a < |h| && b < |h| && h[a].value != REDACTED && h[b].value != REDACTED
    ensures Mix(h, hidden)[a] == h[a] && Mix(h, hidden)[b] == h[b] <==> a !in hidden && b !in hidden
  {
  }

  /** Redacting a configuration and merging it against the original gives the
      original back, node for node, exactly when the original is recoverable. */
  lemma MergeUndoesRedact(d: Doc)
    requires GoodDoc(d) && RedactConfig(d).Ok?
    ensures MergeConfig(RedactConfig(d).doc, Some(d)) == Ok(d) <==> Recoverable(d)
  {
    var v := EnvironmentVariables(d);
    if v.Vars? {
      if Trace(d.h, {}, v.node).Steps? {
        MergeOfRedacted(d);
        var red := RedactConfig(d).doc;
        if !EnvironmentVariables(red).Vars? { assert red != d; }
      } else {
        NoTraceIsLost(d);
      }
    }
  }

  // ----- configurations without tricks, and one with -----

  predicate KeysOutside(es: seq<Entry>, values: set<nat>) {
    forall i | 0 <= i < |es| :: es[i].key !in values
  }

  /** Where no key is a value, redaction asks only for scalars and new names. */
  lemma {:induction false} RedactableByName(h: Heap, es: seq<Entry>, hidden: set<nat>, seen: set<string>)
    requires Parsed(h) && InHeap(h, es) && KeysOutside(es, hidden + Targets(h, es))
    ensures Redactable(h, es, hidden, seen) <==> AllScalars(h, es) && DistinctNames(h, {}, es, seen)
    decreases |es|
  {
    hide AllScalars, Targets, ScalarOf;
    if es == [] {
      NoneRedacted(h, Begin(h));
    } else {
      var e, rest := es[0], es[1..];
      HeadScalars(h, es);
      HeadTarget(h, es);
      assert forall i | 0 <= i < |rest| :: rest[i] == es[i + 1];
      var s := ScalarOf(h, e.value);
      if e.merge {
        RedactableByName(h, rest, hidden, seen);
      } else if s.Some? {
        RedactableByName(h, rest, hidden + {s.value}, seen + {h[e.key].value});
      }
    }
  }

  /** Which configurations are redacted, and into what: a malformed one is
      refused, one without variables is given as it is, and of any other whose
      variables can be walked exactly the values are redacted, if each is a
      scalar and its name, as shown by then, is new. */
  lemma RedactionIs(d: Doc)
    requires GoodDoc(d)
    ensures EnvironmentVariables(d).Malformed? ==> RedactConfig(d).Err?
    ensures EnvironmentVariables(d).NoVariables? ==> RedactConfig(d) == Ok(d)
    ensures EnvironmentVariables(d).Vars? && Trace(d.h, {}, EnvironmentVariables(d).node).Steps? ==>
      var es := Trace(d.h, {}, EnvironmentVariables(d).node).entries;
      && RedactConfig(d) == (if Redactable(d.h, es, {}, {}) then Ok(d.(h := Mix(d.h, Targets(d.h, es)))) else Err)
      && (KeysOutside(es, Targets(d.h, es)) ==>
            (RedactConfig(d).Ok? <==> AllScalars(d.h, es) && DistinctNames(d.h, {}, es, {})))
  {
    hide Walk, Trace, Redactable, Targets, AllScalars, DistinctNames, Fold;
    var vars := EnvironmentVariables(d);
    if vars.Vars? && Trace(d.h, {}, vars.node).Steps? {
      var es := Trace(d.h, {}, vars.node).entries;
      assert Mix(d.h, {}) == d.h;
      WalkIsFold(Redact, d.h, {}, Begin(d.h), vars.node);
      RedactFold(d.h, es, {}, {});
      assert {} + Targets(d.h, es) == Targets(d.h, es);
      if KeysOutside(es, Targets(d.h, es)) { RedactableByName(d.h, es, {}, {}); }
    }
  }

  /** Where no key is a value, hiding values changes no name. */
  lemma {:induction false} NamesStay(h: Heap, es: seq<Entry>, values: set<nat>, still: set<nat>, seen: set<string>)
    requires Parsed(h) && InHeap(h, es) && AllScalars(h, es) && KeysOutside(es, values) && still <= values
    ensures DistinctNames(h, values, es, seen) <==> DistinctNames(h, {}, es, seen)
    ensures Replayable(h, es, still)
    decreases |es|
  {
    if es != [] {
      HeadScalars(h, es);
      if es[0].merge {
        NamesStay(h, es[1..], values, still, seen);
      } else {
        NamesStay(h, es[1..], values, still - {ScalarOf(h, es[0].value).value}, seen + {h[es[0].key].value});
      }
    }
  }

  /** As long as no value stands as a key anywhere, accepted redaction is always
      undone, however values are shared. */
  lemma SharedValuesRecover(d: Doc)
    requires GoodDoc(d) && RedactConfig(d).Ok?
    requires var v := EnvironmentVariables(d);
      v.Vars? ==>
        (var t := Trace(d.h, {}, v.node);
         t.Steps? && KeysOutside(t.entries, Targets(d.h, t.entries))
         && v.environmentKey !in Targets(d.h, t.entries) && v.variablesKey !in Targets(d.h, t.entries))
    ensures MergeConfig(RedactConfig(d).doc, Some(d)) == Ok(d)
  {
    var v := EnvironmentVariables(d);
    if v.Vars? {
      var es := Trace(d.h, {}, v.node).entries;
      RedactionHidesValues(d, es);
      RedactionIs(d);
      NamesStay(d.h, es, Targets(d.h, es), Targets(d.h, es), {});
    }
    MergeUndoesRedact(d);
  }

  function Text(value: string): Node {
    Node(Scalar, STRING_TAG, value, OtherStyle(0), None, [], "")
  }

  function Link(kind: Kind, alias: Option<nat>, content: seq<nat>): Node {
    Node(kind, "", "", OtherStyle(0), alias, content, "")
  }

  /** environment.variables holding one variable whose value is an alias of its
      own key. */
  const SelfNamed := Doc([Link(Mapping, None, [1, 2]), Text("environment"), Link(Mapping, None, [3, 4]), Text("variables"),
                          Link(Mapping, None, [5, 6]), Text("FOO"), Link(Alias, Some(5), [])], Some(0))

  /** The one entry of that configuration. */
  const SelfEntry := Entry(5, 6, false)

  lemma SelfNamedVariables()
    ensures GoodDoc(SelfNamed)
    ensures EnvironmentVariables(SelfNamed) == Vars(1, 3, 4)
  {
    var h := SelfNamed.h;
    assert LookupFrom(h, [1, 2], "environment", 2, Unique(1, 2)) == Unique(1, 2);
    assert LookupFrom(h, [3, 4], "variables", 2, Unique(3, 4)) == Unique(3, 4);
  }

  lemma SelfNamedGraph()
    ensures GoodDoc(SelfNamed) && EnvironmentVariables(SelfNamed) == Vars(1, 3, 4)
    ensures TraceIs(SelfNamed.h, 4, [SelfEntry]) && ScalarOf(SelfNamed.h, 6) == Some(5)
  {
    SelfNamedVariables();
    SelfNamedPairs(SelfNamed.h);
  }

  lemma SelfNamedPairs(h: Heap)
    requires |h| == 7 && Parsed(h) && h[4].kind.Mapping? && h[4].content == [5, 6] && h[5].value == "FOO" && h[5].tag == STRING_TAG
    ensures TraceIs(h, 4, [SelfEntry])
  {
    assert TracePairs(h, {4}, [5, 6], 2) == Steps({4}, []);
    assert {} + {4} == {4};
    assert !IsMergeKey(h[5]);
    assert TracePairs(h, {4}, [5, 6], 0) == Steps({4}, [SelfEntry] + [] + []);
  }

  lemma SelfNamedAccepted()
    ensures GoodDoc(SelfNamed) && RedactConfig(SelfNamed).Ok?
  {
    SelfNamedGraph();
    var h, es := SelfNamed.h, [SelfEntry];
    assert InHeap(h, es) && es[1..] == [];
    WalkIsFold(Redact, h, {}, Begin(h), 4);
    Unfold(Redact, Begin(h), es);
    assert h[5].value == "FOO";
    assert !IsMergeKey(h[5]);
  }

  /** Redaction accepts it, hides the key with the value, and the merge then
      finds no existing value for the placeholder. */
  lemma SelfNamedIsLost()
    ensures GoodDoc(SelfNamed) && RedactConfig(SelfNamed).Ok?
    ensures MergeConfig(RedactConfig(SelfNamed).doc, Some(SelfNamed)) == Err
  {
    var d, h, es := SelfNamed, SelfNamed.h, [SelfEntry];
    SelfNamedGraph();
    SelfNamedAccepted();
    RedactionHidesValues(d, es);
    assert es[1..] == [];
    assert Targets(h, es) == {5};
    assert !Readable(h, {5}, es[0]);
    assert !Replayable(h, es, {5});
    KeysShow(h, {5}, 1, 3);
    RedactedDoc(d);
    var red := RedactConfig(d).doc;
    VariablesWhileRedacting(d, red.h);
    assert red == d.(h := Mix(h, {5}));
    MergeWithVariables(d, red, es, 4);
  }
}
