/** Merging an edited configuration, said of the entries of its
    environment.variables and of their values: what the user wrote stays, what
    the user left redacted comes from the current configuration. */
module ConfigEdits {
  import opened Transcript
  import opened YamlWalk
  import opened YamlTrace
  import opened ConfigRedaction
  import opened ConfigRoundTrip

  // ----- escaped placeholders -----

  /** A value marked as meaning the placeholder's own text. */
  predicate Literal(n: Node) {
    n.tag == LITERAL_TAG
  }

  predicate Placeholder(n: Node) {
    n.value == REDACTED && !Literal(n)
  }

  function Unescape(n: Node): Node {
    n.(tag := STRING_TAG, style := DoubleQuoted)
  }

  /** The graph with these escaped values turned into plain ones. */
  function Unescaped(h: Heap, literal: set<nat>): (r: Heap)
    ensures |r| == |h|
    ensures forall i | 0 <= i < |h| :: r[i] == if i in literal then Unescape(h[i]) else h[i]
  {
    seq(|h|, i requires 0 <= i < |h| => if i in literal then Unescape(h[i]) else h[i])
  }

  /** The values that are marked. */
  function Literals(h: Heap, es: seq<Entry>): set<nat>
    requires Parsed(h) && InHeap(h, es)
  {
    set s | s in Targets(h, es) && Literal(h[s])
  }

  /** The mark stands only on the placeholder. */
  predicate LiteralsPlain(h: Heap, es: seq<Entry>)
    requires Parsed(h) && InHeap(h, es)
  {
    forall s | s in Targets(h, es) && Literal(h[s]) :: h[s].value == REDACTED
  }

  /** Some value was left redacted. */
  predicate LeftRedacted(h: Heap, es: seq<Entry>)
    requires Parsed(h) && InHeap(h, es)
  {
    exists s :: s in Targets(h, es) && Placeholder(h[s])
  }

  predicate Unescaping(h: Heap, done: set<nat>) {
    forall s | s in done :: s < |h| && ScalarShape(h[s]) && Literal(h[s]) && h[s].value == REDACTED
  }

  lemma UnescapedParsed(h: Heap, done: set<nat>)
    requires Parsed(h) && Unescaping(h, done)
    ensures SameShape(h, Unescaped(h, done)) && Parsed(Unescaped(h, done))
  {
    ShapeParsed(h, Unescaped(h, done));
  }

  lemma ScalarOfShape(h: Heap, g: Heap, v: nat)
    requires Parsed(h) && Parsed(g) && SameShape(h, g) && v < |h|
    ensures ScalarOf(g, v) == ScalarOf(h, v)
  {
  }

  function Scanning(h: Heap, done: set<nat>, seen: set<string>, needs: bool): Ctx {
    Ctx(Unescaped(h, done), seen, done, done != {}, needs, map[])
  }

  /** What scanning one entry does. */
  lemma ScanEditStep(h: Heap, e: Entry, done: set<nat>, seen: set<string>, needs: bool)
    requires Parsed(h) && EntryOf(h, e) && Unescaping(h, done) && Parsed(Unescaped(h, done))
    ensures var name, s := h[e.key].value, ScalarOf(h, e.value);
      FoldStep(Scan, Scanning(h, done, seen, needs), e) ==
        if e.merge then Went(Scanning(h, done, seen, needs))
        else if name in seen || s.None? then Broke
        else if !Literal(h[s.value]) then Went(Scanning(h, done, seen + {name}, needs || h[s.value].value == REDACTED))
        else if h[s.value].value != REDACTED then Broke
        else Went(Scanning(h, done + {s.value}, seen + {name}, needs))
  {
    UnescapedParsed(h, done);
    ScalarOfShape(h, Unescaped(h, done), e.value);
    var c, s := Scanning(h, done, seen, needs), ScalarOf(h, e.value);
    KeyUnescaped(h, done, e.key);
    if !e.merge && h[e.key].value !in seen && s.Some? && Literal(h[s.value]) && h[s.value].value == REDACTED {
      if s.value in done {
        assert done + {s.value} == done;
      } else {
        assert c.h[s.value := Unescape(h[s.value])] == Unescaped(h, done + {s.value});
      }
    }
  }

  lemma KeyUnescaped(h: Heap, done: set<nat>, key: nat)
    requires Unescaping(h, done) && key < |h|
    ensures Unescaped(h, done)[key].value == h[key].value
    ensures IsMergeKey(Unescaped(h, done)[key]) <==> IsMergeKey(h[key])
  {
  }

  /** The scan of an edited document: it goes through exactly when every value is
      a scalar, no name stands twice, and marks stand only on the placeholder. */
  lemma {:induction false} ScanEdits(h: Heap, es: seq<Entry>, done: set<nat>, seen: set<string>, needs: bool)
    requires Parsed(h) && InHeap(h, es) && GoodEntries(h, es) && Unescaping(h, done) && Parsed(Unescaped(h, done))
    ensures var f := Fold(Scan, Scanning(h, done, seen, needs), es);
      && !f.Stuck?
      && (f.Went? <==> AllScalars(h, es) && DistinctNames(h, {}, es, seen) && LiteralsPlain(h, es))
      && (f.Went? ==> f.c.h == Unescaped(h, done + Literals(h, es)) && f.c.literal == done + Literals(h, es)
                      && f.c.needsMerge == (needs || LeftRedacted(h, es)))
    decreases |es|
  {
    hide AllScalars, Targets, FoldStep, Unescaped, Fold;
    var c := Scanning(h, done, seen, needs);
    if es == [] {
      NoneScanned(h, c);
      assert done + {} == done;
    } else {
      var e, rest := es[0], es[1..];
      HeadTarget(h, es);
      HeadScalars(h, es);
      ScanEditStep(h, e, done, seen, needs);
      UnescapedParsed(h, done);
      InUnescaped(h, done, es);
      Unfold(Scan, c, es);
      var s := ScalarOf(h, e.value);
      if e.merge {
        ScanEdits(h, rest, done, seen, needs);
        assert Literals(h, es) == Literals(h, rest);
      } else if s.Some? && h[e.key].value !in seen {
        ScannedOne(h, es, done, seen, needs);
      }
    }
  }

  lemma NoneScanned(h: Heap, c: Ctx)
    requires Parsed(h) && Parsed(c.h)
    ensures Fold(Scan, c, []) == Went(c) && Targets(h, []) == {} && AllScalars(h, [])
  {
  }

  lemma InUnescaped(h: Heap, done: set<nat>, es: seq<Entry>)
    requires InHeap(h, es)
    ensures InHeap(Unescaped(h, done), es)
  {
  }

  lemma ScannedOne(h: Heap, es: seq<Entry>, done: set<nat>, seen: set<string>, needs: bool)
    requires Parsed(h) && InHeap(h, es) && GoodEntries(h, es) && Unescaping(h, done) && Parsed(Unescaped(h, done))
    requires es != [] && !es[0].merge && ScalarOf(h, es[0].value).Some? && h[es[0].key].value !in seen
    ensures var f := Fold(Scan, Scanning(h, done, seen, needs), es);
      && !f.Stuck?
      && (f.Went? <==> AllScalars(h, es) && DistinctNames(h, {}, es, seen) && LiteralsPlain(h, es))
      && (f.Went? ==> f.c.h == Unescaped(h, done + Literals(h, es)) && f.c.literal == done + Literals(h, es)
                      && f.c.needsMerge == (needs || LeftRedacted(h, es)))
    decreases |es|, 0
  {
    hide AllScalars, Targets, FoldStep, Unescaped, Fold;
    var e, rest := es[0], es[1..];
    var name, s := h[e.key].value, ScalarOf(h, e.value).value;
    HeadTarget(h, es);
    HeadScalars(h, es);
    ScanEditStep(h, e, done, seen, needs);
    UnescapedParsed(h, done);
    InUnescaped(h, done, es);
    Unfold(Scan, Scanning(h, done, seen, needs), es);
    if !Literal(h[s]) {
      ScanEdits(h, rest, done, seen + {name}, needs || h[s].value == REDACTED);
      assert Literals(h, es) == Literals(h, rest);
      assert LeftRedacted(h, es) <==> LeftRedacted(h, rest) || Placeholder(h[s]);
    } else if h[s].value == REDACTED {
      UnescapedParsed(h, done + {s});
      ScanEdits(h, rest, done + {s}, seen + {name}, needs);
      assert Literals(h, es) == Literals(h, rest) + {s};
      assert done + {s} + Literals(h, rest) == done + Literals(h, es);
      assert LeftRedacted(h, es) <==> LeftRedacted(h, rest);
    } else {
      assert !LiteralsPlain(h, es);
    }
  }

  // ----- filling the placeholders in -----

  /** The graph once this entry's value has been replaced, if it is an
      unescaped placeholder with a current value. */
  function Replaced(g: Heap, e: Entry, literal: set<nat>, values: map<string, Node>): (r: Heap)
    requires Parsed(g) && e.key < |g| && e.value < |g| && GoodPass(Restore(values))
    ensures SameShape(g, r) && Parsed(r)
  {
    var name, s := g[e.key].value, ScalarOf(g, e.value);
    if e.merge || s.None? || s.value in literal || g[s.value].value != REDACTED || name !in values then g
    else
      var r := g[s.value := values[name]];
      assert ScalarShape(g[s.value]) && ScalarShape(values[name]);
      ShapeParsed(g, r);
      r
  }

  /** The graph after the first n entries. */
  function Filled(g: Heap, es: seq<Entry>, literal: set<nat>, values: map<string, Node>, n: nat): (r: Heap)
    requires Parsed(g) && InHeap(g, es) && GoodPass(Restore(values)) && n <= |es|
    ensures SameShape(g, r) && Parsed(r)
    decreases n
  {
    if n == 0 then g
    else
      var before := Filled(g, es, literal, values, n - 1);
      SameShapeTransitive(g, before, Replaced(before, es[n - 1], literal, values));
      Replaced(before, es[n - 1], literal, values)
  }

  /** The name entry i shows when its turn comes. */
  function NameAt(g: Heap, es: seq<Entry>, literal: set<nat>, values: map<string, Node>, i: nat): string
    requires Parsed(g) && InHeap(g, es) && GoodPass(Restore(values)) && i < |es|
  {
    Filled(g, es, literal, values, i)[es[i].key].value
  }

  function NamesBefore(g: Heap, es: seq<Entry>, literal: set<nat>, values: map<string, Node>, n: nat): set<string>
    requires Parsed(g) && InHeap(g, es) && GoodPass(Restore(values)) && n <= |es|
    decreases n
  {
    if n == 0 then {}
    else NamesBefore(g, es, literal, values, n - 1)
         + if es[n - 1].merge then {} else {NameAt(g, es, literal, values, n - 1)}
  }

  /** The merge gets past entry i: a merge key is still one, and any other key
      still none; its name is new; and a placeholder still standing there has a
      current value. */
  predicate Passable(g: Heap, es: seq<Entry>, literal: set<nat>, values: map<string, Node>, i: nat)
    requires Parsed(g) && InHeap(g, es) && AllScalars(g, es) && GoodPass(Restore(values)) && i < |es|
  {
    var now, e := Filled(g, es, literal, values, i), es[i];
    && (e.merge <==> IsMergeKey(now[e.key]))
    && (!e.merge ==>
          var name, s := NameAt(g, es, literal, values, i), ScalarOf(g, e.value).value;
          && name !in NamesBefore(g, es, literal, values, i)
          && (s in literal || now[s].value != REDACTED || name in values))
  }

  function Filling(g: Heap, es: seq<Entry>, literal: set<nat>, values: map<string, Node>, n: nat): Ctx
    requires Parsed(g) && InHeap(g, es) && GoodPass(Restore(values)) && n <= |es|
  {
    Ctx(Filled(g, es, literal, values, n), NamesBefore(g, es, literal, values, n), literal, false, false, map[])
  }

  lemma ReplaceStep(now: Heap, seen: set<string>, e: Entry, literal: set<nat>, values: map<string, Node>)
    requires Parsed(now) && e.key < |now| && e.value < |now| && GoodPass(Restore(values))
    ensures var c := Ctx(now, seen, literal, false, false, map[]);
      var name, s := now[e.key].value, ScalarOf(now, e.value);
      FoldStep(Restore(values), c, e) ==
        if e.merge then (if IsMergeKey(now[e.key]) then Went(c) else Broke)
        else if IsMergeKey(now[e.key]) then Stuck
        else if name !in seen && s.Some? && (s.value in literal || now[s.value].value != REDACTED || name in values) then
          Went(c.(h := Replaced(now, e, literal, values), seen := seen + {name}))
        else Broke
    ensures e.merge ==> Replaced(now, e, literal, values) == now
  {
  }

  /** What restoring one entry does. */
  lemma FillStep(g: Heap, es: seq<Entry>, literal: set<nat>, values: map<string, Node>, i: nat)
    requires Parsed(g) && InHeap(g, es) && AllScalars(g, es) && GoodPass(Restore(values)) && i < |es|
    ensures InHeap(Filled(g, es, literal, values, i), es)
    ensures var f := FoldStep(Restore(values), Filling(g, es, literal, values, i), es[i]);
      && (f.Went? <==> Passable(g, es, literal, values, i))
      && (f.Went? ==> f.c == Filling(g, es, literal, values, i + 1))
  {
    var now := Filled(g, es, literal, values, i);
    ScalarOfShape(g, now, es[i].value);
    ReplaceStep(now, NamesBefore(g, es, literal, values, i), es[i], literal, values);
    hide ScalarOf, Parsed, SameShape, FoldStep, Replaced, IsMergeKey, GoodPass;
  }

  /** Restoring goes through exactly when it gets past every entry. */
  lemma {:induction false} FillAll(g: Heap, es: seq<Entry>, literal: set<nat>, values: map<string, Node>, i: nat)
    requires Parsed(g) && InHeap(g, es) && AllScalars(g, es) && GoodPass(Restore(values)) && i <= |es|
    ensures InHeap(Filled(g, es, literal, values, i), es[i..])
    ensures var f := Fold(Restore(values), Filling(g, es, literal, values, i), es[i..]);
      && (f.Went? <==> forall k | i <= k < |es| :: Passable(g, es, literal, values, k))
      && (f.Went? ==> f.c.h == Filled(g, es, literal, values, |es|))
    decreases |es| - i
  {
    hide AllScalars, Passable, FoldStep, Filled, NamesBefore, Fold;
    var c := Filling(g, es, literal, values, i);
    if i == |es| {
      FoldNone(Restore(values), c);
      assert es[i..] == [];
    } else {
      FillStep(g, es, literal, values, i);
      assert es[i..][0] == es[i] && es[i..][1..] == es[i + 1..];
      Unfold(Restore(values), c, es[i..]);
      FillAll(g, es, literal, values, i + 1);
    }
  }

  // ----- what the filled graph holds -----

  /** The entry stands for this scalar. */
  predicate Aims(g: Heap, e: Entry, s: nat)
    requires Parsed(g) && e.value < |g|
  {
    !e.merge && ScalarOf(g, e.value) == Some(s)
  }

  predicate Standing(g: Heap, literal: set<nat>, s: nat)
    requires s < |g|
  {
    s !in literal && g[s].value == REDACTED
  }

  /** Of the first n entries, entry j gives s its value: its current value is
      the first that is not the placeholder again, or the last of all. */
  predicate Fills(g: Heap, es: seq<Entry>, literal: set<nat>, values: map<string, Node>, n: nat, s: nat, j: nat)
    requires Parsed(g) && InHeap(g, es) && GoodPass(Restore(values)) && n <= |es|
  {
    && j < n && Aims(g, es[j], s) && NameAt(g, es, literal, values, j) in values
    && (forall i | 0 <= i < j && Aims(g, es[i], s) :: Echoes(g, es, literal, values, i))
    && (Echoes(g, es, literal, values, j) ==> forall i | j < i < n :: !Aims(g, es[i], s))
  }

  /** The current value of entry i is the placeholder's text itself. */
  predicate Echoes(g: Heap, es: seq<Entry>, literal: set<nat>, values: map<string, Node>, i: nat)
    requires Parsed(g) && InHeap(g, es) && GoodPass(Restore(values)) && i < |es|
  {
    var name := NameAt(g, es, literal, values, i);
    name in values && values[name].value == REDACTED
  }

  lemma OneFills(g: Heap, es: seq<Entry>, literal: set<nat>, values: map<string, Node>, n: nat, s: nat, i: nat, j: nat)
    requires Parsed(g) && InHeap(g, es) && GoodPass(Restore(values)) && n <= |es|
    requires Fills(g, es, literal, values, n, s, i) && Fills(g, es, literal, values, n, s, j)
    ensures i == j
  {
    hide Aims, Echoes, NameAt;
  }

  /** What the first n entries have made of s. */
  ghost predicate FilledAt(g: Heap, es: seq<Entry>, literal: set<nat>, values: map<string, Node>, n: nat, s: nat)
    requires Parsed(g) && InHeap(g, es) && GoodPass(Restore(values)) && n <= |es| && s < |g|
  {
    var now := Filled(g, es, literal, values, n)[s];
    if Standing(g, literal, s) && exists i :: 0 <= i < n && Aims(g, es[i], s) then
      exists j: nat :: Fills(g, es, literal, values, n, s, j) && now == values[NameAt(g, es, literal, values, j)]
    else now == g[s]
  }

  lemma FilledNext(g: Heap, es: seq<Entry>, literal: set<nat>, values: map<string, Node>, n: nat, s: nat)
    requires Parsed(g) && InHeap(g, es) && AllScalars(g, es) && GoodPass(Restore(values)) && n < |es| && s < |g|
    requires Passable(g, es, literal, values, n)
    ensures var now, next := Filled(g, es, literal, values, n)[s], Filled(g, es, literal, values, n + 1)[s];
      if Aims(g, es[n], s) && s !in literal && now.value == REDACTED then
        NameAt(g, es, literal, values, n) in values && next == values[NameAt(g, es, literal, values, n)]
      else next == now
  {
    ScalarOfShape(g, Filled(g, es, literal, values, n), es[n].value);
    hide NamesBefore;
  }

  lemma {:induction false} FilledIs(g: Heap, es: seq<Entry>, literal: set<nat>, values: map<string, Node>, n: nat, s: nat)
    requires Parsed(g) && InHeap(g, es) && AllScalars(g, es) && GoodPass(Restore(values)) && n <= |es| && s < |g|
    requires forall k | 0 <= k < n :: Passable(g, es, literal, values, k)
    ensures FilledAt(g, es, literal, values, n, s)
    decreases n
  {
    hide Aims, AllScalars, Passable, Filled, FilledAt, Standing;
    if n == 0 {
      FilledNone(g, es, literal, values, s);
    } else {
      FilledIs(g, es, literal, values, n - 1, s);
      FilledNext(g, es, literal, values, n - 1, s);
      FilledMore(g, es, literal, values, n - 1, s);
    }
  }

  lemma FilledNone(g: Heap, es: seq<Entry>, literal: set<nat>, values: map<string, Node>, s: nat)
    requires Parsed(g) && InHeap(g, es) && GoodPass(Restore(values)) && s < |g|
    ensures FilledAt(g, es, literal, values, 0, s)
  {
  }

  lemma FilledMore(g: Heap, es: seq<Entry>, literal: set<nat>, values: map<string, Node>, n: nat, s: nat)
    requires Parsed(g) && InHeap(g, es) && GoodPass(Restore(values)) && n < |es| && s < |g|
    requires FilledAt(g, es, literal, values, n, s)
    requires var now, next := Filled(g, es, literal, values, n)[s], Filled(g, es, literal, values, n + 1)[s];
      if Aims(g, es[n], s) && s !in literal && now.value == REDACTED then
        NameAt(g, es, literal, values, n) in values && next == values[NameAt(g, es, literal, values, n)]
      else next == now
    ensures FilledAt(g, es, literal, values, n + 1, s)
  {
    hide Aims, NameAt, Filled;
    var before := exists i :: 0 <= i < n && Aims(g, es[i], s);
    if Standing(g, literal, s) && before {
      var j: nat :| Fills(g, es, literal, values, n, s, j)
        && Filled(g, es, literal, values, n)[s] == values[NameAt(g, es, literal, values, j)];
      assert Aims(g, es[j], s);
      if Aims(g, es[n], s) && Echoes(g, es, literal, values, j) {
        assert Fills(g, es, literal, values, n + 1, s, n);
      } else {
        assert Fills(g, es, literal, values, n + 1, s, j);
      }
    } else if Standing(g, literal, s) && Aims(g, es[n], s) {
      assert Fills(g, es, literal, values, n + 1, s, n);
    }
  }

  // ----- merging an edited document -----

  /** The scan lets the document pass: its variables can be walked, every value
      is a scalar, no name stands twice, and marks stand only on placeholders. */
  predicate WellEdited(h: Heap, node: nat)
    requires Parsed(h) && node < |h|
  {
    var t := Trace(h, {}, node);
    && t.Steps? && AllScalars(h, t.entries)
    && DistinctNames(h, {}, t.entries, {}) && LiteralsPlain(h, t.entries)
  }

  /** The entries of a document's variables. */
  function EntriesOf(h: Heap, node: nat): (es: seq<Entry>)
    requires Parsed(h) && node < |h|
    ensures InHeap(h, es) && GoodEntries(h, es)
  {
    var t := Trace(h, {}, node);
    if t.Steps? then t.entries else []
  }

  lemma ScanOfEdited(h: Heap, node: nat)
    requires Parsed(h) && node < |h|
    ensures var w, es := Walk(Scan, {}, Begin(h), node), EntriesOf(h, node);
      && (w.Good? <==> WellEdited(h, node))
      && (w.Good? ==> w.c.h == Unescaped(h, Literals(h, es)) && w.c.literal == Literals(h, es)
                      && w.c.needsMerge == LeftRedacted(h, es))
  {
    hide Walk, Trace, Fold, AllScalars, DistinctNames, Targets, LiteralsPlain, LeftRedacted;
    SteadyWalk(Scan, h, {}, Begin(h), node);
    if Trace(h, {}, node).Steps? {
      var es := Trace(h, {}, node).entries;
      assert Unescaped(h, {}) == h;
      assert Scanning(h, {}, {}, false) == Begin(h);
      WalkIsFold(Scan, h, {}, Begin(h), node);
      ScanEdits(h, es, {}, {}, false);
      assert {} + Literals(h, es) == Literals(h, es);
    }
  }

  /** The current configuration can be read: it has no variables, or they are
      scalars of distinct names. */
  predicate Legible(current: Doc)
    requires GoodDoc(current)
  {
    match EnvironmentVariables(current)
    case Malformed => false
    case NoVariables => true
    case Vars(_, _, node) =>
      var t := Trace(current.h, {}, node);
      t.Steps? && AllScalars(current.h, t.entries) && DistinctNames(current.h, {}, t.entries, {})
  }

  /** These are its values: for each name the scalar of the entry so named. */
  ghost predicate CurrentValues(current: Doc, values: map<string, Node>)
    requires GoodDoc(current) && Legible(current)
  {
    match EnvironmentVariables(current)
    case Malformed => false
    case NoVariables => values == map[]
    case Vars(_, _, node) => Collected(current.h, EntriesOf(current.h, node), map[], values)
  }

  lemma ExistingValuesAre(current: Doc)
    requires GoodDoc(current)
    ensures ExistingValues(current).Some? <==> Legible(current)
    ensures ExistingValues(current).Some? ==>
      CurrentValues(current, ExistingValues(current).value) && GoodPass(Restore(ExistingValues(current).value))
  {
    ExistingAreScalars(current);
    if EnvironmentVariables(current).Vars? {
      var h, node := current.h, EnvironmentVariables(current).node;
      hide Walk, Trace, Fold, AllScalars, DistinctNames, Collected;
      SteadyWalk(Collect, h, {}, Begin(h), node);
      if Trace(h, {}, node).Steps? {
        assert Mix(h, {}) == h;
        WalkIsFold(Collect, h, {}, Begin(h), node);
        CollectFold(h, Trace(h, {}, node).entries, {}, map[]);
      }
    }
  }

  /** The current values, where the current configuration can be read. */
  function ValuesOf(current: Option<Doc>): (values: map<string, Node>)
    requires current.Some? ==> GoodDoc(current.value)
    ensures GoodPass(Restore(values))
  {
    if current.None? then map[]
    else
      ExistingAreScalars(current.value);
      var existing := ExistingValues(current.value);
      if existing.Some? then existing.value else map[]
  }

  /** The scanned graph: marks taken off. */
  function Scanned(h: Heap, node: nat): (g: Heap)
    requires Parsed(h) && node < |h| && WellEdited(h, node)
    ensures SameShape(h, g) && Parsed(g) && InHeap(g, EntriesOf(h, node)) && AllScalars(g, EntriesOf(h, node))
  {
    var es := EntriesOf(h, node);
    UnescapedParsed(h, Literals(h, es));
    Unescaped(h, Literals(h, es))
  }

  /** What the merge asks of an edited document and the current one. */
  predicate Mergeable(d: Doc, current: Option<Doc>)
    requires GoodDoc(d) && (current.Some? ==> GoodDoc(current.value))
  {
    match EnvironmentVariables(d)
    case Malformed => false
    case NoVariables => true
    case Vars(_, _, node) =>
      var es := EntriesOf(d.h, node);
      && WellEdited(d.h, node)
      && (LeftRedacted(d.h, es) ==>
            && current.Some? && Legible(current.value)
            && forall k | 0 <= k < |es| :: Passable(Scanned(d.h, node), es, Literals(d.h, es), ValuesOf(current), k))
  }

  function MergedHeap(d: Doc, current: Option<Doc>): Heap
    requires GoodDoc(d) && (current.Some? ==> GoodDoc(current.value)) && Mergeable(d, current)
  {
    match EnvironmentVariables(d)
    case NoVariables => d.h
    case Vars(_, _, node) =>
      var es, g := EntriesOf(d.h, node), Scanned(d.h, node);
      if LeftRedacted(d.h, es) then Filled(g, es, Literals(d.h, es), ValuesOf(current), |es|) else g
  }

  lemma RestoreOfEdited(h: Heap, node: nat, values: map<string, Node>)
    requires Parsed(h) && node < |h| && WellEdited(h, node) && GoodPass(Restore(values))
    ensures var es, g := EntriesOf(h, node), Scanned(h, node);
      var w := Walk(Restore(values), {}, Begin(g).(literal := Literals(h, es)), node);
      && (w.Good? <==> forall k | 0 <= k < |es| :: Passable(g, es, Literals(h, es), values, k))
      && (w.Good? ==> w.c.h == Filled(g, es, Literals(h, es), values, |es|))
  {
    hide Walk, Trace, Fold, AllScalars, DistinctNames, Targets, LiteralsPlain, Passable, Filled, Scanned;
    var es, g := EntriesOf(h, node), Scanned(h, node);
    var lits := Literals(h, es);
    var c := Begin(g).(literal := lits);
    FillNone(g, es, lits, values);
    FillAll(g, es, lits, values, 0);
    assert es[0..] == es;
    WalkIsFold(Restore(values), h, {}, c, node);
  }

  lemma FillNone(g: Heap, es: seq<Entry>, literal: set<nat>, values: map<string, Node>)
    requires Parsed(g) && InHeap(g, es) && GoodPass(Restore(values))
    ensures Filling(g, es, literal, values, 0) == Begin(g).(literal := literal)
  {
  }

  /** Which edited documents the merge accepts, and what it makes of them. */
  lemma MergeOfEdited(d: Doc, current: Option<Doc>)
    requires GoodDoc(d) && (current.Some? ==> GoodDoc(current.value))
    ensures MergeConfig(d, current).Ok? <==> Mergeable(d, current)
    ensures MergeConfig(d, current).Ok? ==> MergeConfig(d, current).doc == d.(h := MergedHeap(d, current))
  {
    hide Walk, Trace, Fold, AllScalars, DistinctNames, Targets, LiteralsPlain, LeftRedacted, Passable, Filled, WellEdited, Legible;
    var vars := EnvironmentVariables(d);
    if vars.Vars? {
      ScanOfEdited(d.h, vars.node);
      if current.Some? { ExistingValuesAre(current.value); }
      if WellEdited(d.h, vars.node) { RestoreOfEdited(d.h, vars.node, ValuesOf(current)); }
    }
  }
}
