/** What merging an edited configuration makes of each of its values. */
module ConfigMerging {
  import opened Transcript
  import opened YamlWalk
  import opened YamlTrace
  import opened ConfigRedaction
  import opened ConfigRoundTrip
  import opened ConfigRecovery
  import opened ConfigEdits

  lemma {:induction false} TargetsAimed(h: Heap, es: seq<Entry>, s: nat)
    requires Parsed(h) && InHeap(h, es)
    ensures s in Targets(h, es) <==> exists i :: 0 <= i < |es| && Aims(h, es[i], s)
    decreases |es|
  {
    hide Targets;
    if es == [] {
      NoneScanned(h, Begin(h));
    } else {
      HeadTarget(h, es);
      TargetsAimed(h, es[1..], s);
      assert es == [es[0]] + es[1..];
      assert s in Targets(h, es) <==> s in Targets(h, es[1..]) || Aims(h, es[0], s);
      assert forall i | 0 < i < |es| :: es[i] == es[1..][i - 1];
      assert forall i | 0 <= i < |es[1..]| :: es[1..][i] == es[i + 1];
    }
  }

  /** The scanned graph, against the document: the values that are marked lose
      their marks, texts stay, and the same values stand for entries. */
  lemma ScannedIs(h: Heap, node: nat, s: nat)
    requires Parsed(h) && node < |h| && WellEdited(h, node) && s < |h|
    ensures var g, es := Scanned(h, node), EntriesOf(h, node);
      && g[s] == (if s in Literals(h, es) then Unescape(h[s]) else h[s])
      && g[s].value == h[s].value
      && (s in Targets(h, es) ==> (Standing(g, Literals(h, es), s) <==> Placeholder(h[s])))
  {
  }

  lemma SameAims(h: Heap, g: Heap, e: Entry, s: nat)
    requires Parsed(h) && Parsed(g) && SameShape(h, g) && e.value < |h|
    ensures Aims(g, e, s) <==> Aims(h, e, s)
  {
    ScalarOfShape(h, g, e.value);
  }

  /** The name an entry goes by in the merge: the text of its key, unless the
      key is itself a placeholder among the values. */
  lemma NameShown(h: Heap, node: nat, values: map<string, Node>, j: nat)
    requires Parsed(h) && node < |h| && WellEdited(h, node) && GoodPass(Restore(values))
    requires j < |EntriesOf(h, node)|
    requires var es := EntriesOf(h, node); var key := es[j].key; key in Targets(h, es) ==> !Placeholder(h[key])
    requires forall k | 0 <= k < j :: Passable(Scanned(h, node), EntriesOf(h, node), Literals(h, EntriesOf(h, node)), values, k)
    ensures var es := EntriesOf(h, node);
      && Filled(Scanned(h, node), es, Literals(h, es), values, j)[es[j].key] == Scanned(h, node)[es[j].key]
      && NameAt(Scanned(h, node), es, Literals(h, es), values, j) == h[es[j].key].value
  {
    hide Scanned, EntriesOf, WellEdited, Passable, Filled, Standing, Aims, Targets, AllScalars;
    var g, es := Scanned(h, node), EntriesOf(h, node);
    var key := es[j].key;
    ScannedIs(h, node, key);
    FilledIs(g, es, Literals(h, es), values, j, key);
    if key !in Targets(h, es) {
      TargetsAimed(h, es, key);
      forall i | 0 <= i < j ensures !Aims(g, es[i], key) { SameAims(h, g, es[i], key); }
    }
  }

  /** What has become of s. */
  ghost predicate MergedAt(h: Heap, node: nat, values: map<string, Node>, s: nat, after: Node)
    requires Parsed(h) && node < |h| && WellEdited(h, node) && GoodPass(Restore(values)) && s < |h|
  {
    var es, g := EntriesOf(h, node), Scanned(h, node);
    var literal := Literals(h, es);
    if s !in Targets(h, es) then after == h[s]
    else if Literal(h[s]) then after == Unescape(h[s])
    else if h[s].value != REDACTED then after == h[s]
    else exists j: nat :: Fills(g, es, literal, values, |es|, s, j) && after == values[NameAt(g, es, literal, values, j)]
  }

  /** Of an accepted document, whatever stands for no variable stays; a marked
      placeholder becomes the plain text; a value the user wrote stays; and each
      value left redacted is the current value of one of its names: of the first
      whose current value is not the placeholder's text again, or the last. */
  lemma MergedValues(d: Doc, current: Option<Doc>)
    requires GoodDoc(d) && (current.Some? ==> GoodDoc(current.value))
    requires EnvironmentVariables(d).Vars? && MergeConfig(d, current).Ok?
    ensures var r, node := MergeConfig(d, current).doc, EnvironmentVariables(d).node;
      && r.root == d.root && |r.h| == |d.h| && WellEdited(d.h, node)
      && forall s | 0 <= s < |d.h| :: MergedAt(d.h, node, ValuesOf(current), s, r.h[s])
  {
    hide Passable, Filled, WellEdited, Legible, MergeConfig, LeftRedacted, MergedAt, Scanned, Targets, AllScalars, EntriesOf;
    MergeOfEdited(d, current);
    var h, node, values := d.h, EnvironmentVariables(d).node, ValuesOf(current);
    var es, g := EntriesOf(h, node), Scanned(h, node);
    forall s | 0 <= s < |h| ensures MergedAt(h, node, values, s, MergedHeap(d, current)[s]) {
      if LeftRedacted(h, es) {
        MergedOne(h, node, values, s);
      } else {
        UnfilledOne(h, node, values, s);
      }
    }
  }

  lemma UnfilledOne(h: Heap, node: nat, values: map<string, Node>, s: nat)
    requires Parsed(h) && node < |h| && WellEdited(h, node) && GoodPass(Restore(values)) && s < |h|
    requires !LeftRedacted(h, EntriesOf(h, node))
    ensures MergedAt(h, node, values, s, Scanned(h, node)[s])
  {
    ScannedIs(h, node, s);
    hide Scanned, EntriesOf, WellEdited, Fills, Targets;
  }

  lemma MergedOne(h: Heap, node: nat, values: map<string, Node>, s: nat)
    requires Parsed(h) && node < |h| && WellEdited(h, node) && GoodPass(Restore(values)) && s < |h|
    requires var es := EntriesOf(h, node);
      forall k | 0 <= k < |es| :: Passable(Scanned(h, node), es, Literals(h, es), values, k)
    ensures var es := EntriesOf(h, node);
      MergedAt(h, node, values, s, Filled(Scanned(h, node), es, Literals(h, es), values, |es|)[s])
  {
    hide Scanned, EntriesOf, WellEdited, Passable, Filled, Aims, Targets, AllScalars, Fills, NameAt;
    var g, es := Scanned(h, node), EntriesOf(h, node);
    ScannedIs(h, node, s);
    FilledIs(g, es, Literals(h, es), values, |es|, s);
    TargetsAimed(h, es, s);
    forall i | 0 <= i < |es| ensures Aims(g, es[i], s) <==> Aims(h, es[i], s) { SameAims(h, g, es[i], s); }
  }

  // ----- where no value stands as a key -----

  /** The current value of entry i's own name is a real one. */
  predicate Supplied(h: Heap, es: seq<Entry>, values: map<string, Node>, i: nat)
    requires InHeap(h, es) && i < |es|
  {
    var name := h[es[i].key].value;
    name in values && values[name].value != REDACTED
  }

  /** A placeholder at entry j has a current value, by this name or by an
      earlier name of the same value. */
  predicate Answered(h: Heap, es: seq<Entry>, values: map<string, Node>, j: nat)
    requires Parsed(h) && InHeap(h, es) && AllScalars(h, es) && j < |es|
  {
    es[j].merge ||
    (var s := ScalarOf(h, es[j].value).value;
     || !Placeholder(h[s])
     || h[es[j].key].value in values
     || exists i | 0 <= i < j :: Aims(h, es[i], s) && Supplied(h, es, values, i))
  }

  lemma {:induction false} NamesDiffer(h: Heap, es: seq<Entry>, seen: set<string>, i: nat, j: nat)
    requires InHeap(h, es) && DistinctNames(h, {}, es, seen)
    requires i < j < |es| && !es[i].merge && !es[j].merge
    ensures h[es[i].key].value != h[es[j].key].value
    decreases |es|
  {
    assert InHeap(h, es[1..]);
    var seen' := if es[0].merge then seen else seen + {h[es[0].key].value};
    if i == 0 {
      DistinctAvoidsSeen(h, {}, es[1..], seen', j - 1);
    } else {
      NamesDiffer(h, es[1..], seen', i - 1, j - 1);
    }
  }

  /** Without values standing as keys the names are the document's own. */
  lemma {:induction false} NamesBeforeAre(h: Heap, node: nat, values: map<string, Node>, n: nat)
    requires Parsed(h) && node < |h| && WellEdited(h, node) && GoodPass(Restore(values)) && n <= |EntriesOf(h, node)|
    requires KeysOutside(EntriesOf(h, node), Targets(h, EntriesOf(h, node)))
    requires forall k | 0 <= k < n :: Passable(Scanned(h, node), EntriesOf(h, node), Literals(h, EntriesOf(h, node)), values, k)
    ensures var es := EntriesOf(h, node);
      forall name :: name in NamesBefore(Scanned(h, node), es, Literals(h, es), values, n) <==>
        exists i :: 0 <= i < n && Named(h, es, name, i)
    decreases n
  {
    hide Scanned, EntriesOf, WellEdited, Passable, NameAt, Targets, AllScalars;
    if n > 0 {
      var g, es := Scanned(h, node), EntriesOf(h, node);
      NamesBeforeAre(h, node, values, n - 1);
      NameShown(h, node, values, n - 1);
      forall name
        ensures name in NamesBefore(g, es, Literals(h, es), values, n) <==> exists i :: 0 <= i < n && Named(h, es, name, i)
      {
        assert name in NamesBefore(g, es, Literals(h, es), values, n) <==>
          name in NamesBefore(g, es, Literals(h, es), values, n - 1) || Named(h, es, name, n - 1);
      }
    }
  }

  /** Entry j is passed exactly when its value is answered for. */
  lemma PassedByName(h: Heap, node: nat, values: map<string, Node>, j: nat)
    requires Parsed(h) && node < |h| && WellEdited(h, node) && GoodPass(Restore(values)) && j < |EntriesOf(h, node)|
    requires KeysOutside(EntriesOf(h, node), Targets(h, EntriesOf(h, node)))
    requires forall k | 0 <= k < j :: Passable(Scanned(h, node), EntriesOf(h, node), Literals(h, EntriesOf(h, node)), values, k)
    ensures var es := EntriesOf(h, node); AllScalars(h, es)
    ensures var es := EntriesOf(h, node);
      Passable(Scanned(h, node), es, Literals(h, es), values, j) <==> Answered(h, es, values, j)
  {
    var g, es := Scanned(h, node), EntriesOf(h, node);
    var e, literal := es[j], Literals(h, es);
    assert AllScalars(h, es) && DistinctNames(h, {}, es, {});
    assert e.merge <==> IsMergeKey(h[e.key]);
    ScannedIs(h, node, e.key);
    NameShown(h, node, values, j);
    hide Scanned, EntriesOf, WellEdited, Filled, NamesBefore, Targets, NameAt;
    if !e.merge {
      NamesBeforeAre(h, node, values, j);
      var name, s := h[e.key].value, ScalarOf(h, e.value).value;
      ScalarOfShape(h, g, e.value);
      if name in NamesBefore(g, es, literal, values, j) {
        var i :| 0 <= i < j && Named(h, es, name, i);
        NamesDiffer(h, es, {}, i, j);
      }
      StandingByName(h, node, values, j, s);
    }
  }

  /** Whether the placeholder still stands when entry j has its turn. */
  lemma StandingByName(h: Heap, node: nat, values: map<string, Node>, j: nat, s: nat)
    requires Parsed(h) && node < |h| && WellEdited(h, node) && GoodPass(Restore(values)) && j < |EntriesOf(h, node)|
    requires s < |h| && Aims(h, EntriesOf(h, node)[j], s)
    requires KeysOutside(EntriesOf(h, node), Targets(h, EntriesOf(h, node)))
    requires forall k | 0 <= k < j :: Passable(Scanned(h, node), EntriesOf(h, node), Literals(h, EntriesOf(h, node)), values, k)
    ensures var g, es := Scanned(h, node), EntriesOf(h, node);
      Standing(Filled(g, es, Literals(h, es), values, j), Literals(h, es), s) <==>
        Placeholder(h[s]) && !exists i :: 0 <= i < j && Aims(h, es[i], s) && Supplied(h, es, values, i)
  {
    hide Scanned, EntriesOf, WellEdited, Passable, Filled, Aims, Targets, AllScalars, NameAt;
    var g, es := Scanned(h, node), EntriesOf(h, node);
    var literal := Literals(h, es);
    TargetsAimed(h, es, s);
    ScannedIs(h, node, s);
    FilledIs(g, es, literal, values, j, s);
    forall i | 0 <= i < j
      ensures Aims(g, es[i], s) <==> Aims(h, es[i], s)
      ensures NameAt(g, es, literal, values, i) == h[es[i].key].value
    {
      SameAims(h, g, es[i], s);
      NameShown(h, node, values, i);
    }
  }

  predicate AllPassable(h: Heap, node: nat, values: map<string, Node>, n: nat)
    requires Parsed(h) && node < |h| && WellEdited(h, node) && GoodPass(Restore(values)) && n <= |EntriesOf(h, node)|
  {
    var es := EntriesOf(h, node);
    forall k | 0 <= k < n :: Passable(Scanned(h, node), es, Literals(h, es), values, k)
  }

  predicate AllAnswered(h: Heap, node: nat, values: map<string, Node>, n: nat)
    requires Parsed(h) && node < |h| && WellEdited(h, node) && n <= |EntriesOf(h, node)|
  {
    forall k | 0 <= k < n :: Answered(h, EntriesOf(h, node), values, k)
  }

  lemma OneMore(h: Heap, node: nat, values: map<string, Node>, n: nat)
    requires Parsed(h) && node < |h| && WellEdited(h, node) && GoodPass(Restore(values)) && n < |EntriesOf(h, node)|
    requires KeysOutside(EntriesOf(h, node), Targets(h, EntriesOf(h, node)))
    requires AllPassable(h, node, values, n)
    ensures AllPassable(h, node, values, n + 1) <==> Answered(h, EntriesOf(h, node), values, n)
  {
    PassedByName(h, node, values, n);
    hide Scanned, EntriesOf, WellEdited, Passable, Answered, Targets, AllScalars, Literals, KeysOutside;
  }

  lemma {:induction false} AllPassedByName(h: Heap, node: nat, values: map<string, Node>, n: nat)
    requires Parsed(h) && node < |h| && WellEdited(h, node) && GoodPass(Restore(values)) && n <= |EntriesOf(h, node)|
    requires KeysOutside(EntriesOf(h, node), Targets(h, EntriesOf(h, node)))
    ensures AllPassable(h, node, values, n) <==> AllAnswered(h, node, values, n)
    decreases n
  {
    if n > 0 {
      AllPassedByName(h, node, values, n - 1);
      FewerPassable(h, node, values, n - 1);
      if AllPassable(h, node, values, n - 1) { OneMore(h, node, values, n - 1); }
      OneMoreAnswered(h, node, values, n - 1);
      hide *;
    }
  }

  lemma FewerPassable(h: Heap, node: nat, values: map<string, Node>, n: nat)
    requires Parsed(h) && node < |h| && WellEdited(h, node) && GoodPass(Restore(values)) && n < |EntriesOf(h, node)|
    ensures AllPassable(h, node, values, n + 1) ==> AllPassable(h, node, values, n)
  {
    hide Scanned, EntriesOf, WellEdited, Passable, Literals;
  }

  lemma OneMoreAnswered(h: Heap, node: nat, values: map<string, Node>, n: nat)
    requires Parsed(h) && node < |h| && WellEdited(h, node) && n < |EntriesOf(h, node)|
    ensures AllAnswered(h, node, values, n + 1) <==> AllAnswered(h, node, values, n) && Answered(h, EntriesOf(h, node), values, n)
  {
    assert AllScalars(h, EntriesOf(h, node));
    hide EntriesOf, WellEdited, Answered, AllScalars;
  }

  /** Where no value stands as a key, the merge of an edited document fails only
      for what can be read off the two documents: the document or the current
      one is not well-formed, or a placeholder has no current value. */
  lemma MergeableByName(d: Doc, current: Option<Doc>)
    requires GoodDoc(d) && (current.Some? ==> GoodDoc(current.value)) && EnvironmentVariables(d).Vars?
    requires var es := EntriesOf(d.h, EnvironmentVariables(d).node); KeysOutside(es, Targets(d.h, es))
    ensures var node := EnvironmentVariables(d).node;
      var es := EntriesOf(d.h, node);
      MergeConfig(d, current).Ok? <==>
        && WellEdited(d.h, node)
        && (LeftRedacted(d.h, es) ==>
              current.Some? && Legible(current.value) && AllAnswered(d.h, node, ValuesOf(current), |es|))
  {
    hide Passable, Filled, MergeConfig, LeftRedacted, Scanned, Targets, Answered, EnvironmentVariables, Legible, ValuesOf;
    MergeOfEdited(d, current);
    var node := EnvironmentVariables(d).node;
    if WellEdited(d.h, node) { AllPassedByName(d.h, node, ValuesOf(current), |EntriesOf(d.h, node)|); }
  }

  /** Entry j is the one whose name gives s its value: the first of its names
      with a current value that is a real one, or the last of them. */
  predicate Gives(h: Heap, es: seq<Entry>, values: map<string, Node>, s: nat, j: nat)
    requires Parsed(h) && InHeap(h, es)
  {
    && j < |es| && Aims(h, es[j], s) && h[es[j].key].value in values
    && (forall i | 0 <= i < j && Aims(h, es[i], s) :: !Supplied(h, es, values, i))
    && (Supplied(h, es, values, j) || forall i | j < i < |es| :: !Aims(h, es[i], s))
  }

  /** There, a value left redacted is the current value of its own name. */
  lemma MergedByName(d: Doc, current: Option<Doc>, s: nat)
    requires GoodDoc(d) && (current.Some? ==> GoodDoc(current.value))
    requires EnvironmentVariables(d).Vars? && MergeConfig(d, current).Ok?
    requires var es := EntriesOf(d.h, EnvironmentVariables(d).node);
      KeysOutside(es, Targets(d.h, es)) && s in Targets(d.h, es) && Placeholder(d.h[s])
    ensures var es, r := EntriesOf(d.h, EnvironmentVariables(d).node), MergeConfig(d, current).doc;
      |r.h| == |d.h| &&
      exists j: nat :: Gives(d.h, es, ValuesOf(current), s, j) && r.h[s] == ValuesOf(current)[d.h[es[j].key].value]
  {
    hide Passable, Filled, WellEdited, Legible, MergeConfig, Scanned, Targets, AllScalars, EntriesOf, NameAt, Aims, Gives, Echoes;
    MergeOfEdited(d, current);
    MergedValues(d, current);
    var h, node, values := d.h, EnvironmentVariables(d).node, ValuesOf(current);
    var es, g, literal := EntriesOf(h, node), Scanned(h, node), Literals(h, EntriesOf(h, node));
    var after := MergeConfig(d, current).doc.h[s];
    assert MergedAt(h, node, values, s, after);
    var j: nat :| Fills(g, es, literal, values, |es|, s, j) && after == values[NameAt(g, es, literal, values, j)];
    LeftRedactedBy(h, es, s);
    FillerGives(h, node, values, s, j);
  }

  lemma LeftRedactedBy(h: Heap, es: seq<Entry>, s: nat)
    requires Parsed(h) && InHeap(h, es) && s in Targets(h, es) && Placeholder(h[s])
    ensures LeftRedacted(h, es)
  {
  }

  lemma FillerGives(h: Heap, node: nat, values: map<string, Node>, s: nat, j: nat)
    requires Parsed(h) && node < |h| && WellEdited(h, node) && GoodPass(Restore(values))
    requires KeysOutside(EntriesOf(h, node), Targets(h, EntriesOf(h, node)))
    requires var es := EntriesOf(h, node);
      && (forall k | 0 <= k < |es| :: Passable(Scanned(h, node), es, Literals(h, es), values, k))
      && Fills(Scanned(h, node), es, Literals(h, es), values, |es|, s, j)
    ensures var es := EntriesOf(h, node);
      Gives(h, es, values, s, j) && NameAt(Scanned(h, node), es, Literals(h, es), values, j) == h[es[j].key].value
  {
    hide Scanned, EntriesOf, WellEdited, Passable, Targets, AllScalars, NameAt, Aims;
    var g, es := Scanned(h, node), EntriesOf(h, node);
    forall i | 0 <= i < |es|
      ensures Aims(g, es[i], s) <==> Aims(h, es[i], s)
      ensures NameAt(g, es, Literals(h, es), values, i) == h[es[i].key].value
    {
      SameAims(h, g, es[i], s);
      NameShown(h, node, values, i);
    }
  }
}
