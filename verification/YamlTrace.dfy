/** The walk seen as a list of entries: which entries it meets depends only on
    the shape of the graph and on which keys are merge keys, so a walk over a
    heap whose scalars are being rewritten is a fold over that list. */
module YamlTrace {
  import opened Transcript
  import opened YamlWalk

  datatype Entry = Entry(key: nat, value: nat, merge: bool)

  datatype Traced = Steps(visited: set<nat>, entries: seq<Entry>) | NoTrace

  /** A mapping or a sequence. */
  predicate Container(h: Heap, n: nat) {
    n < |h| && (h[n].kind.Mapping? || h[n].kind.Sequence?)
  }

  predicate Resolves(h: Heap, v: nat)
    requires v < |h| && Parsed(h)
  {
    if h[v].kind.Alias? then h[v].alias.Some? && Container(h, h[v].alias.value) else Container(h, v)
  }

  predicate Containers(h: Heap, visited: set<nat>) {
    forall n | n in visited :: Container(h, n)
  }

  predicate GoodEntries(h: Heap, es: seq<Entry>)
    requires Parsed(h)
  {
    forall i | 0 <= i < |es| ::
      && es[i].key < |h| && es[i].value < |h|
      && (es[i].merge <==> IsMergeKey(h[es[i].key]))
      && (es[i].merge ==> Resolves(h, es[i].value))
  }

  function Trace(h: Heap, visited: set<nat>, node: nat): (r: Traced)
    requires node < |h| && Parsed(h) && Containers(h, visited)
    ensures r.Steps? ==> visited <= r.visited && Containers(h, r.visited) && Resolves(h, node) && GoodEntries(h, r.entries)
    decreases Unvisited(visited, h), if h[node].kind.Alias? then 1 else 0
  {
    var n := h[node];
    if n.kind.Alias? then
      if n.alias.None? then NoTrace else Trace(h, visited, n.alias.value)
    else if node in visited then Steps(visited, [])
    else
      assert node in Unvisited(visited, h);
      match n.kind
      case Mapping => TracePairs(h, visited + {node}, n.content, 0)
      case Sequence => TraceItems(h, visited + {node}, n.content, 0)
      case _ => NoTrace
  }

  function TracePairs(h: Heap, visited: set<nat>, content: seq<nat>, i: nat): (r: Traced)
    requires Parsed(h) && Containers(h, visited) && forall k | 0 <= k < |content| :: content[k] < |h|
    requires i <= |content|
    ensures r.Steps? ==> visited <= r.visited && Containers(h, r.visited) && GoodEntries(h, r.entries)
    decreases Unvisited(visited, h), 2 + |content| - i
  {
    if i + 1 >= |content| then Steps(visited, [])
    else
      var merge := IsMergeKey(h[content[i]]);
      var r := if merge then Trace(h, visited, content[i + 1]) else Steps(visited, []);
      if r.NoTrace? then NoTrace
      else
        assert Unvisited(r.visited, h) <= Unvisited(visited, h);
        var rest := TracePairs(h, r.visited, content, i + 2);
        if rest.NoTrace? then NoTrace
        else Steps(rest.visited, [Entry(content[i], content[i + 1], merge)] + r.entries + rest.entries)
  }

  function TraceItems(h: Heap, visited: set<nat>, content: seq<nat>, i: nat): (r: Traced)
    requires Parsed(h) && Containers(h, visited) && forall k | 0 <= k < |content| :: content[k] < |h|
    requires i <= |content|
    ensures r.Steps? ==> visited <= r.visited && Containers(h, r.visited) && GoodEntries(h, r.entries)
    decreases Unvisited(visited, h), 2 + |content| - i
  {
    if i == |content| then Steps(visited, [])
    else
      var r := Trace(h, visited, content[i]);
      if r.NoTrace? then NoTrace
      else
        assert Unvisited(r.visited, h) <= Unvisited(visited, h);
        var rest := TraceItems(h, r.visited, content, i + 1);
        if rest.NoTrace? then NoTrace else Steps(rest.visited, r.entries + rest.entries)
  }

  // ----- folding a pass over the entries -----

  /** A fold goes through, breaks off with the walk's error, or is stuck where
      an ordinary key has turned into a merge key. */
  datatype Folded = Went(c: Ctx) | Broke | Stuck

  function FoldStep(pass: Pass, c: Ctx, e: Entry): Folded
    requires Parsed(c.h) && e.key < |c.h| && e.value < |c.h|
  {
    var key := c.h[e.key];
    if e.merge then (if IsMergeKey(key) then Went(c) else Broke)
    else if IsMergeKey(key) then Stuck
    else
      var v := Visit(pass, c, key.value, e.value);
      if v.Bad? then Broke else Went(v.c)
  }

  predicate InHeap(h: Heap, es: seq<Entry>) {
    forall i | 0 <= i < |es| :: es[i].key < |h| && es[i].value < |h|
  }

  function Fold(pass: Pass, c: Ctx, es: seq<Entry>): (r: Folded)
    requires Parsed(c.h) && GoodPass(pass) && InHeap(c.h, es)
    ensures r.Went? ==> SameShape(c.h, r.c.h) && Parsed(r.c.h)
    decreases |es|
  {
    if es == [] then Went(c)
    else
      var first := FoldStep(pass, c, es[0]);
      VisitShape(pass, c, c.h[es[0].key].value, es[0].value);
      if first.Went? then
        assert InHeap(first.c.h, es[1..]);
        Fold(pass, first.c, es[1..])
      else first
  }

  lemma {:induction false} FoldConcat(pass: Pass, c: Ctx, a: seq<Entry>, b: seq<Entry>)
    requires Parsed(c.h) && GoodPass(pass) && InHeap(c.h, a) && InHeap(c.h, b)
    ensures InHeap(c.h, a + b)
    ensures Fold(pass, c, a + b) ==
      if Fold(pass, c, a).Went? then Fold(pass, Fold(pass, c, a).c, b) else Fold(pass, c, a)
    decreases |a|
  {
    if a == [] {
      assert a + b == b;
    } else {
      assert (a + b)[1..] == a[1..] + b;
      var first := FoldStep(pass, c, a[0]);
      VisitShape(pass, c, c.h[a[0].key].value, a[0].value);
      if first.Went? {
        FoldConcat(pass, first.c, a[1..], b);
      }
    }
  }

  /** Every value is a scalar. */
  predicate AllScalars(h: Heap, es: seq<Entry>)
    requires Parsed(h) && InHeap(h, es)
  {
    forall i | 0 <= i < |es| && !es[i].merge :: ScalarOf(h, es[i].value).Some?
  }

  /** The walk did what the fold says. Where the values are scalars, an ordinary
      key that has turned into a merge key makes it fail. */
  predicate Agrees(w: Walked, f: Folded, visited: set<nat>, scalars: bool) {
    match f
    case Went(c) => w == Good(visited, c)
    case Broke => w.Failed?
    case Stuck => scalars ==> w.Failed?
  }

  lemma ShapeResolves(h: Heap, h': Heap, v: nat)
    requires Parsed(h) && Parsed(h') && SameShape(h, h') && v < |h| && Resolves(h, v)
    ensures ScalarOf(h', v).None?
  {
  }

  lemma {:induction false} WalkIsFold(pass: Pass, h: Heap, visited: set<nat>, c: Ctx, node: nat)
    requires node < |h| && Parsed(h) && Containers(h, visited) && Trace(h, visited, node).Steps?
    requires SameShape(h, c.h) && Parsed(c.h) && GoodPass(pass)
    ensures var t := Trace(h, visited, node);
      Agrees(Walk(pass, visited, c, node), Fold(pass, c, t.entries), t.visited, AllScalars(h, t.entries))
    decreases Unvisited(visited, h), if h[node].kind.Alias? then 1 else 0
  {
    var n := h[node];
    if n.kind.Alias? {
      WalkIsFold(pass, h, visited, c, n.alias.value);
    } else if node !in visited {
      assert node in Unvisited(visited, h);
      if n.kind.Mapping? {
        WalkPairsIsFold(pass, h, visited + {node}, c, n.content, 0);
      } else {
        WalkItemsIsFold(pass, h, visited + {node}, c, n.content, 0);
      }
    }
  }

  lemma {:induction false} WalkPairsIsFold(pass: Pass, h: Heap, visited: set<nat>, c: Ctx, content: seq<nat>, i: nat)
    requires Parsed(h) && Containers(h, visited) && forall k | 0 <= k < |content| :: content[k] < |h|
    requires i <= |content| && TracePairs(h, visited, content, i).Steps?
    requires SameShape(h, c.h) && Parsed(c.h) && GoodPass(pass)
    ensures var t := TracePairs(h, visited, content, i);
      Agrees(WalkPairs(pass, visited, c, content, i), Fold(pass, c, t.entries), t.visited, AllScalars(h, t.entries))
    decreases Unvisited(visited, h), 2 + |content| - i
  {
    hide AllScalars, Resolves, ScalarOf, Fold, FoldStep, Walk, Trace, WalkEntry;
    if i + 1 < |content| {
      var key, value := content[i], content[i + 1];
      var merge := IsMergeKey(h[key]);
      var r := if merge then Trace(h, visited, value) else Steps(visited, []);
      var head := [Entry(key, value, merge)] + r.entries;
      var rest := TracePairs(h, r.visited, content, i + 2);
      assert Unvisited(r.visited, h) <= Unvisited(visited, h);
      if merge { WalkIsFold(pass, h, visited, c, value); }
      EntryIsFold(pass, h, visited, c, key, value, r.entries, r.visited, |content| - i);
      FoldConcat(pass, c, head, rest.entries);
      AllScalarsParts(h, head, rest.entries);
      var f := Fold(pass, c, head);
      if f.Went? {
        SameShapeTransitive(h, c.h, f.c.h);
        WalkPairsIsFold(pass, h, r.visited, f.c, content, i + 2);
      }
    } else {
      FoldNone(pass, c);
    }
  }

  lemma FoldNone(pass: Pass, c: Ctx)
    requires Parsed(c.h) && GoodPass(pass)
    ensures Fold(pass, c, []) == Went(c)
  {
  }

  lemma EntryIsFold(pass: Pass, h: Heap, visited: set<nat>, c: Ctx, key: nat, value: nat, tail: seq<Entry>, after: set<nat>, rank: nat)
    requires Parsed(h) && SameShape(h, c.h) && Parsed(c.h) && GoodPass(pass) && key < |h| && value < |h| && rank > 0
    requires Containers(h, visited)
    requires InHeap(h, tail) && InHeap(c.h, tail)
    requires var merge := IsMergeKey(h[key]);
      if merge then Resolves(h, value) && Agrees(Walk(pass, visited, c, value), Fold(pass, c, tail), after, AllScalars(h, tail))
      else tail == [] && after == visited
    ensures var head := [Entry(key, value, IsMergeKey(h[key]))] + tail;
      InHeap(h, head) && InHeap(c.h, head)
      && Agrees(WalkEntry(pass, visited, c, c.h[key], value, rank), Fold(pass, c, head), after, AllScalars(h, head))
  {
    var head := [Entry(key, value, IsMergeKey(h[key]))] + tail;
    assert head[1..] == tail;
    HeadIsFold(pass, c, head, tail);
    if IsMergeKey(h[key]) {
      ShapeResolves(h, c.h, value);
      if AllScalars(h, head) { AllScalarsTail(h, head, tail); }
      hide AllScalars, Fold, Walk, Resolves;
    } else {
      if AllScalars(h, head) {
        assert ScalarOf(h, head[0].value).Some?;
        ScalarIsNoWalk(pass, h, visited, c, value);
      }
      VisitShape(pass, c, c.h[key].value, value);
      FoldNoTail(pass, c, head);
      hide AllScalars, Fold, Walk, Resolves, Visit;
    }
  }

  /** A single entry. */
  lemma FoldNoTail(pass: Pass, c: Ctx, head: seq<Entry>)
    requires Parsed(c.h) && GoodPass(pass) && InHeap(c.h, head) && |head| == 1
    ensures Fold(pass, c, head) == FoldStep(pass, c, head[0])
  {
    VisitShape(pass, c, c.h[head[0].key].value, head[0].value);
    assert head[1..] == [];
  }

  /** Nothing can be merged from a scalar. */
  lemma ScalarIsNoWalk(pass: Pass, h: Heap, visited: set<nat>, c: Ctx, v: nat)
    requires Parsed(h) && SameShape(h, c.h) && Parsed(c.h) && GoodPass(pass) && v < |h| && Containers(h, visited)
    requires ScalarOf(h, v).Some?
    ensures Walk(pass, visited, c, v).Failed?
  {
    var s := ScalarOf(h, v).value;
    assert s !in visited;
    assert Walk(pass, visited, c, s).Failed?;
  }

  lemma AllScalarsTail(h: Heap, head: seq<Entry>, tail: seq<Entry>)
    requires Parsed(h) && InHeap(h, head) && InHeap(h, tail) && head != [] && head[1..] == tail && AllScalars(h, head)
    ensures AllScalars(h, tail)
  {
    forall i | 0 <= i < |tail| && !tail[i].merge ensures ScalarOf(h, tail[i].value).Some? {
      assert head[i + 1] == tail[i];
    }
  }

  lemma AllScalarsParts(h: Heap, a: seq<Entry>, b: seq<Entry>)
    requires Parsed(h) && InHeap(h, a) && InHeap(h, b) && InHeap(h, a + b)
    ensures AllScalars(h, a + b) <==> AllScalars(h, a) && AllScalars(h, b)
  {
    assert forall i | 0 <= i < |a| :: (a + b)[i] == a[i];
    assert forall i | 0 <= i < |b| :: (a + b)[|a| + i] == b[i];
  }

  lemma SameShapeTransitive(a: Heap, b: Heap, c: Heap)
    requires SameShape(a, b) && SameShape(b, c)
    ensures SameShape(a, c)
  {
  }

  lemma HeadIsFold(pass: Pass, c: Ctx, head: seq<Entry>, tail: seq<Entry>)
    requires Parsed(c.h) && GoodPass(pass) && InHeap(c.h, head)
    requires head != [] && head[1..] == tail
    ensures Fold(pass, c, head) ==
      if FoldStep(pass, c, head[0]).Went? then
        (VisitShape(pass, c, c.h[head[0].key].value, head[0].value);
        Fold(pass, FoldStep(pass, c, head[0]).c, tail))
      else FoldStep(pass, c, head[0])
  {
  }

  lemma {:induction false} WalkItemsIsFold(pass: Pass, h: Heap, visited: set<nat>, c: Ctx, content: seq<nat>, i: nat)
    requires Parsed(h) && Containers(h, visited) && forall k | 0 <= k < |content| :: content[k] < |h|
    requires i <= |content| && TraceItems(h, visited, content, i).Steps?
    requires SameShape(h, c.h) && Parsed(c.h) && GoodPass(pass)
    ensures var t := TraceItems(h, visited, content, i);
      Agrees(WalkItems(pass, visited, c, content, i), Fold(pass, c, t.entries), t.visited, AllScalars(h, t.entries))
    decreases Unvisited(visited, h), 2 + |content| - i
  {
    hide AllScalars, Resolves, ScalarOf;
    if i < |content| {
      var r := Trace(h, visited, content[i]);
      var rest := TraceItems(h, r.visited, content, i + 1);
      assert Unvisited(r.visited, h) <= Unvisited(visited, h);
      WalkIsFold(pass, h, visited, c, content[i]);
      FoldConcat(pass, c, r.entries, rest.entries);
      AllScalarsParts(h, r.entries, rest.entries);
      var f := Fold(pass, c, r.entries);
      if f.Went? {
        SameShapeTransitive(h, c.h, f.c.h);
        WalkItemsIsFold(pass, h, r.visited, f.c, content, i + 1);
      }
    }
  }

  // ----- passes that leave the keys alone -----

  /** The same keys are merge keys. */
  predicate SameKeys(h: Heap, h': Heap) {
    |h| == |h'| && forall i | 0 <= i < |h| :: IsMergeKey(h'[i]) <==> IsMergeKey(h[i])
  }

  predicate Steady(pass: Pass) {
    pass.Scan? || pass.Collect?
  }

  lemma SteadyVisit(pass: Pass, c: Ctx, key: string, v: nat)
    requires v < |c.h| && Parsed(c.h) && Steady(pass)
    ensures var r := Visit(pass, c, key, v); r.Fine? ==> SameKeys(c.h, r.c.h)
  {
  }

  /** A walk that goes through has a trace, if it leaves the keys alone. */
  predicate Traces(h: Heap, r: Walked, t: Traced) {
    r.Good? ==> t.Steps? && t.visited == r.visited && SameShape(h, r.c.h) && SameKeys(h, r.c.h)
  }

  lemma SameKeysTransitive(a: Heap, b: Heap, c: Heap)
    requires SameKeys(a, b) && SameKeys(b, c)
    ensures SameKeys(a, c)
  {
  }

  lemma {:induction false} SteadyWalk(pass: Pass, h: Heap, visited: set<nat>, c: Ctx, node: nat)
    requires Parsed(h) && node < |h| && Containers(h, visited) && Steady(pass)
    requires SameShape(h, c.h) && SameKeys(h, c.h) && Parsed(c.h)
    ensures Traces(h, Walk(pass, visited, c, node), Trace(h, visited, node))
    decreases Unvisited(visited, h), if h[node].kind.Alias? then 1 else 0
  {
    var n := h[node];
    if n.kind.Alias? {
      if n.alias.Some? { SteadyWalk(pass, h, visited, c, n.alias.value); }
    } else if node !in visited {
      assert node in Unvisited(visited, h);
      if n.kind.Mapping? { SteadyPairs(pass, h, visited + {node}, c, n.content, 0); }
      if n.kind.Sequence? { SteadyItems(pass, h, visited + {node}, c, n.content, 0); }
    }
  }

  lemma SteadyEntry(pass: Pass, h: Heap, visited: set<nat>, c: Ctx, key: nat, value: nat, rank: nat)
    requires Parsed(h) && key < |h| && value < |h| && Containers(h, visited) && Steady(pass) && rank > 0
    requires SameShape(h, c.h) && SameKeys(h, c.h) && Parsed(c.h)
    requires IsMergeKey(h[key]) ==> Traces(h, Walk(pass, visited, c, value), Trace(h, visited, value))
    ensures Traces(h, WalkEntry(pass, visited, c, c.h[key], value, rank),
                   if IsMergeKey(h[key]) then Trace(h, visited, value) else Steps(visited, []))
  {
    VisitShape(pass, c, c.h[key].value, value);
    SteadyVisit(pass, c, c.h[key].value, value);
    var r := Visit(pass, c, c.h[key].value, value);
    if r.Fine? {
      SameShapeTransitive(h, c.h, r.c.h);
      SameKeysTransitive(h, c.h, r.c.h);
    }
  }

  lemma {:induction false} SteadyPairs(pass: Pass, h: Heap, visited: set<nat>, c: Ctx, content: seq<nat>, i: nat)
    requires Parsed(h) && Containers(h, visited) && Steady(pass)
    requires i <= |content| && forall k | 0 <= k < |content| :: content[k] < |h|
    requires SameShape(h, c.h) && SameKeys(h, c.h) && Parsed(c.h)
    ensures Traces(h, WalkPairs(pass, visited, c, content, i), TracePairs(h, visited, content, i))
    decreases Unvisited(visited, h), 2 + |content| - i
  {
    if i + 1 < |content| {
      var key, value := content[i], content[i + 1];
      if IsMergeKey(h[key]) { SteadyWalk(pass, h, visited, c, value); }
      SteadyEntry(pass, h, visited, c, key, value, |content| - i);
      var r := WalkEntry(pass, visited, c, c.h[key], value, |content| - i);
      if r.Good? {
        assert Unvisited(r.visited, h) <= Unvisited(visited, h);
        SteadyPairs(pass, h, r.visited, r.c, content, i + 2);
      }
    }
  }

  lemma {:induction false} SteadyItems(pass: Pass, h: Heap, visited: set<nat>, c: Ctx, content: seq<nat>, i: nat)
    requires Parsed(h) && Containers(h, visited) && Steady(pass)
    requires i <= |content| && forall k | 0 <= k < |content| :: content[k] < |h|
    requires SameShape(h, c.h) && SameKeys(h, c.h) && Parsed(c.h)
    ensures Traces(h, WalkItems(pass, visited, c, content, i), TraceItems(h, visited, content, i))
    decreases Unvisited(visited, h), 2 + |content| - i
  {
    if i < |content| {
      SteadyWalk(pass, h, visited, c, content[i]);
      var r := Walk(pass, visited, c, content[i]);
      if r.Good? {
        assert Unvisited(r.visited, h) <= Unvisited(visited, h);
        SteadyItems(pass, h, r.visited, r.c, content, i + 1);
      }
    }
  }
}
