/** Merging undoes redacting, exactly when no value hides a key the merge still
    has to read. */
module ConfigRoundTrip {
  import opened Transcript
  import opened YamlWalk
  import opened YamlTrace
  import opened ConfigRedaction

  // ----- targets and names -----

  /** The scalars a list of entries stands for. */
  function Targets(h: Heap, es: seq<Entry>): (r: set<nat>)
    requires Parsed(h) && InHeap(h, es)
    ensures forall s | s in r :: s < |h| && ScalarShape(h[s])
  {
    if es == [] then {}
    else
      var rest := Targets(h, es[1..]);
      var s := ScalarOf(h, es[0].value);
      if es[0].merge || s.None? then rest else rest + {s.value}
  }

  /** The graph with a set of its scalars redacted. */
  function Mix(h: Heap, hidden: set<nat>): (r: Heap)
    ensures |r| == |h|
    ensures forall i | 0 <= i < |h| :: r[i] == if i in hidden then RedactedNode(h[i]) else h[i]
  {
    seq(|h|, i requires 0 <= i < |h| => if i in hidden then RedactedNode(h[i]) else h[i])
  }

  predicate Hideable(h: Heap, hidden: set<nat>) {
    forall s | s in hidden :: s < |h| && ScalarShape(h[s])
  }

  lemma MixParsed(h: Heap, hidden: set<nat>)
    requires Parsed(h) && Hideable(h, hidden)
    ensures SameShape(h, Mix(h, hidden)) && Parsed(Mix(h, hidden))
  {
    ShapeParsed(h, Mix(h, hidden));
  }

  lemma MixScalarOf(h: Heap, hidden: set<nat>, v: nat)
    requires Parsed(h) && Hideable(h, hidden) && v < |h| && Parsed(Mix(h, hidden))
    ensures ScalarOf(Mix(h, hidden), v) == ScalarOf(h, v)
  {
  }

  /** The text a key shows while some scalars are redacted. */
  function NameIn(h: Heap, hidden: set<nat>, key: nat): string
    requires key < |h|
  {
    if key in hidden then REDACTED else h[key].value
  }

  lemma MixKey(h: Heap, hidden: set<nat>, key: nat)
    requires key < |h|
    ensures Mix(h, hidden)[key].value == NameIn(h, hidden, key)
    ensures IsMergeKey(Mix(h, hidden)[key]) <==> key !in hidden && IsMergeKey(h[key])
  {
  }

  /** The names the ordinary keys show are distinct, and new. */
  predicate DistinctNames(h: Heap, hidden: set<nat>, es: seq<Entry>, seen: set<string>)
    requires InHeap(h, es)
    decreases |es|
  {
    es == [] ||
    (assert InHeap(h, es[1..]);
     if es[0].merge then DistinctNames(h, hidden, es[1..], seen)
     else
       var name := NameIn(h, hidden, es[0].key);
       name !in seen && DistinctNames(h, hidden, es[1..], seen + {name}))
  }

  predicate MergeKeysOutside(es: seq<Entry>, hidden: set<nat>) {
    forall i | 0 <= i < |es| && es[i].merge :: es[i].key !in hidden
  }

  /** A context in which nothing but names has been noted. */
  function Plain(h: Heap, seen: set<string>): Ctx {
    Ctx(h, seen, {}, false, false, map[])
  }

  /** An entry of the graph: its key is a merge key exactly when it says so. */
  predicate EntryOf(h: Heap, e: Entry)
    requires Parsed(h)
  {
    && e.key < |h| && e.value < |h|
    && (e.merge <==> IsMergeKey(h[e.key]))
    && (e.merge ==> Resolves(h, e.value))
  }

  predicate Setting(h: Heap, hidden: set<nat>) {
    Parsed(h) && Hideable(h, hidden) && Parsed(Mix(h, hidden))
  }

  /** What one visit meets on a graph with some scalars redacted. */
  lemma MixVisit(pass: Pass, h: Heap, hidden: set<nat>, c: Ctx, e: Entry)
    requires Setting(h, hidden) && EntryOf(h, e) && c.h == Mix(h, hidden)
    ensures var name, s := NameIn(h, hidden, e.key), ScalarOf(h, e.value);
      FoldStep(pass, c, e) ==
        if e.merge then (if e.key in hidden then Broke else Went(c))
        else if name in c.seen || s.None? then Broke
        else
          var v := VisitScalar(pass, c.(seen := c.seen + {name}), name, s.value);
          if v.Bad? then Broke else Went(v.c)
  {
    MixKey(h, hidden, e.key);
    MixScalarOf(h, hidden, e.value);
  }

  lemma Unfold(pass: Pass, c: Ctx, es: seq<Entry>)
    requires Parsed(c.h) && GoodPass(pass) && InHeap(c.h, es) && es != []
    ensures InHeap(c.h, es[1..])
    ensures var first := FoldStep(pass, c, es[0]);
      && (!first.Went? ==> Fold(pass, c, es) == first)
      && (first.Went? ==>
            && SameShape(c.h, first.c.h) && Parsed(first.c.h) && InHeap(first.c.h, es[1..])
            && Fold(pass, c, es) == Fold(pass, first.c, es[1..]))
  {
    VisitShape(pass, c, c.h[es[0].key].value, es[0].value);
  }

  // ----- the redacting pass -----

  /** Redacting one value hides it. */
  lemma RedactStep(h: Heap, hidden: set<nat>, seen: set<string>, e: Entry)
    requires Setting(h, hidden) && EntryOf(h, e) && !e.merge
    ensures var name, s := NameIn(h, hidden, e.key), ScalarOf(h, e.value);
      FoldStep(Redact, Plain(Mix(h, hidden), seen), e) ==
        if name in seen || s.None? then Broke else Went(Plain(Mix(h, hidden + {s.value}), seen + {name}))
    ensures var s := ScalarOf(h, e.value); s.Some? ==> Setting(h, hidden + {s.value})
  {
    MixVisit(Redact, h, hidden, Plain(Mix(h, hidden), seen), e);
    var s := ScalarOf(h, e.value);
    if s.Some? {
      MixParsed(h, hidden + {s.value});
      assert Mix(h, hidden)[s.value := RedactedNode(Mix(h, hidden)[s.value])] == Mix(h, hidden + {s.value});
    }
  }

  lemma HeadTarget(h: Heap, es: seq<Entry>)
    requires Parsed(h) && InHeap(h, es) && es != []
    ensures InHeap(h, es[1..])
    ensures var s := ScalarOf(h, es[0].value);
      Targets(h, es) == Targets(h, es[1..]) + if es[0].merge || s.None? then {} else {s.value}
  {
    assert InHeap(h, es[1..]);
  }

  lemma NoneRedacted(h: Heap, c: Ctx)
    requires Parsed(h) && Parsed(c.h)
    ensures Fold(Redact, c, []) == Went(c) && Targets(h, []) == {} && AllScalars(h, [])
  {
  }

  /** Redaction gets through: each value is a scalar, and each name, as it shows
      by then, is new; a merge key that has been redacted is none any more. */
  predicate Redactable(h: Heap, es: seq<Entry>, hidden: set<nat>, seen: set<string>)
    requires Parsed(h) && InHeap(h, es)
    decreases |es|
  {
    es == [] ||
    (assert InHeap(h, es[1..]);
     if es[0].merge then es[0].key !in hidden && Redactable(h, es[1..], hidden, seen)
     else
       var name, s := NameIn(h, hidden, es[0].key), ScalarOf(h, es[0].value);
       name !in seen && s.Some? && Redactable(h, es[1..], hidden + {s.value}, seen + {name}))
  }

  /** If redaction is accepted, it hides exactly the targets. */
  lemma {:induction false} RedactFold(h: Heap, es: seq<Entry>, hidden: set<nat>, seen: set<string>)
    requires Setting(h, hidden) && GoodEntries(h, es) && InHeap(h, es)
    ensures var f := Fold(Redact, Plain(Mix(h, hidden), seen), es);
      && !f.Stuck?
      && (f.Went? <==> Redactable(h, es, hidden, seen))
      && (f.Went? ==> AllScalars(h, es) && f.c.h == Mix(h, hidden + Targets(h, es)))
    decreases |es|
  {
    hide Mix, ScalarOf, Targets, AllScalars, FoldStep, Fold;
    var c := Plain(Mix(h, hidden), seen);
    if es == [] {
      NoneRedacted(h, c);
      assert hidden + {} == hidden;
    } else {
      var e, rest := es[0], es[1..];
      Unfold(Redact, c, es);
      HeadScalars(h, es);
      HeadTarget(h, es);
      if e.merge {
        MixVisit(Redact, h, hidden, c, e);
        RedactFold(h, rest, hidden, seen);
      } else {
        RedactStep(h, hidden, seen, e);
        if FoldStep(Redact, c, e).Went? {
          var hidden' := hidden + {ScalarOf(h, e.value).value};
          RedactFold(h, rest, hidden', seen + {NameIn(h, hidden, e.key)});
          assert hidden' + Targets(h, rest) == hidden + Targets(h, es);
        }
      }
    }
  }

  lemma HeadScalars(h: Heap, es: seq<Entry>)
    requires Parsed(h) && InHeap(h, es) && es != []
    ensures InHeap(h, es[1..])
    ensures AllScalars(h, es) <==> (!es[0].merge ==> ScalarOf(h, es[0].value).Some?) && AllScalars(h, es[1..])
  {
    assert es == [es[0]] + es[1..];
  }

  // ----- the scanning pass -----

  predicate AnyOrdinary(es: seq<Entry>) {
    exists i | 0 <= i < |es| :: !es[i].merge
  }

  lemma HeadKeys(es: seq<Entry>, hidden: set<nat>)
    requires es != []
    ensures MergeKeysOutside(es, hidden) <==> (es[0].merge ==> es[0].key !in hidden) && MergeKeysOutside(es[1..], hidden)
    ensures AnyOrdinary(es) <==> !es[0].merge || AnyOrdinary(es[1..])
  {
    assert es == [es[0]] + es[1..];
  }

  lemma ScanStep(h: Heap, hidden: set<nat>, seen: set<string>, needs: bool, e: Entry)
    requires Setting(h, hidden) && EntryOf(h, e)
    requires e.merge || (ScalarOf(h, e.value).Some? && ScalarOf(h, e.value).value in hidden)
    ensures var c := Plain(Mix(h, hidden), seen).(needsMerge := needs);
      var name := NameIn(h, hidden, e.key);
      FoldStep(Scan, c, e) ==
        if e.merge then (if e.key in hidden then Broke else Went(c))
        else if name in seen then Broke
        else Went(Plain(Mix(h, hidden), seen + {name}).(needsMerge := true))
  {
    MixVisit(Scan, h, hidden, Plain(Mix(h, hidden), seen).(needsMerge := needs), e);
  }

  lemma HeadTargets(h: Heap, es: seq<Entry>, hidden: set<nat>)
    requires Parsed(h) && InHeap(h, es) && es != [] && AllScalars(h, es) && Targets(h, es) <= hidden
    ensures InHeap(h, es[1..]) && AllScalars(h, es[1..]) && Targets(h, es[1..]) <= hidden
    ensures es[0].merge || (ScalarOf(h, es[0].value).Some? && ScalarOf(h, es[0].value).value in hidden)
  {
    HeadScalars(h, es);
  }

  /** On a graph whose targets are all hidden the scan changes nothing; it goes
      through exactly when no merge key is hidden and the names shown differ. */
  lemma {:induction false} ScanFold(h: Heap, es: seq<Entry>, hidden: set<nat>, seen: set<string>, needs: bool)
    requires Setting(h, hidden) && GoodEntries(h, es) && InHeap(h, es)
    requires AllScalars(h, es) && Targets(h, es) <= hidden
    ensures var c := Plain(Mix(h, hidden), seen).(needsMerge := needs);
      var f := Fold(Scan, c, es);
      && !f.Stuck?
      && (f.Went? <==> MergeKeysOutside(es, hidden) && DistinctNames(h, hidden, es, seen))
      && (f.Went? ==> f.c.h == c.h && f.c.literal == {} && f.c.needsMerge == (needs || AnyOrdinary(es)))
    decreases |es|
  {
    hide Mix, ScalarOf, Targets, AllScalars, FoldStep, MergeKeysOutside, AnyOrdinary;
    var c := Plain(Mix(h, hidden), seen).(needsMerge := needs);
    if es == [] {
      NoKeys(hidden);
    } else {
      var e, rest := es[0], es[1..];
      HeadTargets(h, es, hidden);
      ScanStep(h, hidden, seen, needs, e);
      Unfold(Scan, c, es);
      HeadKeys(es, hidden);
      if e.merge {
        ScanFold(h, rest, hidden, seen, needs);
      } else {
        ScanFold(h, rest, hidden, seen + {NameIn(h, hidden, e.key)}, true);
      }
    }
  }

  lemma NoKeys(hidden: set<nat>)
    ensures MergeKeysOutside([], hidden) && !AnyOrdinary([])
  {
  }

  // ----- the collecting pass -----

  /** Entry i is an ordinary one for this name. */
  predicate Named(h: Heap, es: seq<Entry>, name: string, i: nat)
    requires InHeap(h, es) && i < |es|
  {
    !es[i].merge && h[es[i].key].value == name
  }

  predicate Has(h: Heap, es: seq<Entry>, name: string)
    requires InHeap(h, es)
  {
    exists i | 0 <= i < |es| :: Named(h, es, name, i)
  }

  /** The values found: those of the entries, by their names, and otherwise
      what was there before. */
  ghost predicate Collected(h: Heap, es: seq<Entry>, before: map<string, Node>, after: map<string, Node>)
    requires Parsed(h) && InHeap(h, es) && AllScalars(h, es)
  {
    && (forall i | 0 <= i < |es| && !es[i].merge ::
          h[es[i].key].value in after && after[h[es[i].key].value] == h[ScalarOf(h, es[i].value).value])
    && (forall name | !Has(h, es, name) :: (name in after <==> name in before))
    && (forall name | !Has(h, es, name) && name in before :: after[name] == before[name])
  }

  lemma {:induction false} DistinctAvoidsSeen(h: Heap, hidden: set<nat>, es: seq<Entry>, seen: set<string>, i: nat)
    requires InHeap(h, es) && DistinctNames(h, hidden, es, seen)
    requires i < |es| && !es[i].merge
    ensures NameIn(h, hidden, es[i].key) !in seen
    decreases |es|
  {
    assert InHeap(h, es[1..]);
    if i > 0 {
      var seen' := if es[0].merge then seen else seen + {NameIn(h, hidden, es[0].key)};
      DistinctAvoidsSeen(h, hidden, es[1..], seen', i - 1);
    }
  }

  lemma HeadNamed(h: Heap, es: seq<Entry>, name: string)
    requires InHeap(h, es) && es != []
    ensures InHeap(h, es[1..])
    ensures Has(h, es, name) <==> Named(h, es, name, 0) || Has(h, es[1..], name)
  {
    assert InHeap(h, es[1..]);
    forall i: nat | 0 < i < |es| ensures Named(h, es, name, i) <==> Named(h, es[1..], name, i - 1) {
    }
    if Has(h, es[1..], name) {
      var i :| 0 <= i < |es[1..]| && Named(h, es[1..], name, i);
      assert Named(h, es, name, i + 1);
    }
  }

  lemma CollectHead(h: Heap, es: seq<Entry>, seen: set<string>, before: map<string, Node>, after: map<string, Node>)
    requires Parsed(h) && InHeap(h, es) && es != [] && InHeap(h, es[1..]) && AllScalars(h, es) && AllScalars(h, es[1..])
    requires !es[0].merge && DistinctNames(h, {}, es[1..], seen + {h[es[0].key].value})
    requires Collected(h, es[1..], before[h[es[0].key].value := h[ScalarOf(h, es[0].value).value]], after)
    ensures Collected(h, es, before, after)
  {
    var name, rest := h[es[0].key].value, es[1..];
    if Has(h, rest, name) {
      var i :| 0 <= i < |rest| && Named(h, rest, name, i);
      DistinctAvoidsSeen(h, {}, rest, seen + {name}, i);
    }
    forall i | 0 <= i < |es| && !es[i].merge
      ensures h[es[i].key].value in after && after[h[es[i].key].value] == h[ScalarOf(h, es[i].value).value]
    {
      if i > 0 { assert es[i] == rest[i - 1]; }
    }
    forall other | !Has(h, es, other)
      ensures (other in after <==> other in before) && (other in before ==> after[other] == before[other])
    {
      HeadNamed(h, es, other);
      assert !Named(h, es, other, 0);
    }
  }

  lemma {:induction false} CollectFold(h: Heap, es: seq<Entry>, seen: set<string>, found: map<string, Node>)
    requires Setting(h, {}) && GoodEntries(h, es) && InHeap(h, es)
    ensures var f := Fold(Collect, Plain(h, seen).(found := found), es);
      && !f.Stuck?
      && (f.Went? <==> AllScalars(h, es) && DistinctNames(h, {}, es, seen))
      && (f.Went? ==> Collected(h, es, found, f.c.found))
    decreases |es|
  {
    var c := Plain(h, seen).(found := found);
    if es != [] {
      var e, rest := es[0], es[1..];
      assert Mix(h, {}) == h;
      MixVisit(Collect, h, {}, c, e);
      Unfold(Collect, c, es);
      HeadScalars(h, es);
      if e.merge {
        CollectFold(h, rest, seen, found);
        var f := Fold(Collect, c, es);
        if f.Went? { CollectMerge(h, es, found, f.c.found); }
      } else if ScalarOf(h, e.value).Some? && h[e.key].value !in seen {
        var name := h[e.key].value;
        var found' := found[name := h[ScalarOf(h, e.value).value]];
        CollectFold(h, rest, seen + {name}, found');
        var f := Fold(Collect, c, es);
        if f.Went? { CollectHead(h, es, seen, found, f.c.found); }
      }
    }
  }

  lemma CollectMerge(h: Heap, es: seq<Entry>, before: map<string, Node>, after: map<string, Node>)
    requires Parsed(h) && InHeap(h, es) && es != [] && InHeap(h, es[1..]) && AllScalars(h, es) && AllScalars(h, es[1..])
    requires es[0].merge && Collected(h, es[1..], before, after)
    ensures Collected(h, es, before, after)
  {
    forall i | 0 <= i < |es| && !es[i].merge
      ensures h[es[i].key].value in after && after[h[es[i].key].value] == h[ScalarOf(h, es[i].value).value]
    {
      assert es[i] == es[1..][i - 1];
    }
    forall other | !Has(h, es, other)
      ensures (other in after <==> other in before) && (other in before ==> after[other] == before[other])
    {
      HeadNamed(h, es, other);
    }
  }

  // ----- the restoring pass -----

  /** A placeholder can be replaced here: its key still shows its own name, or
      the value needs no replacing any more. */
  predicate Readable(h: Heap, hidden: set<nat>, e: Entry)
    requires Parsed(h) && e.key < |h| && e.value < |h|
  {
    var s := ScalarOf(h, e.value);
    || e.merge
    || e.key !in hidden
    || h[e.key].value == REDACTED
    || (s.Some? && s.value !in hidden && h[s.value].value != REDACTED)
  }

  /** The same of every entry, each restoring its target for those after it. */
  predicate Replayable(h: Heap, es: seq<Entry>, hidden: set<nat>)
    requires Parsed(h) && InHeap(h, es) && AllScalars(h, es)
    decreases |es|
  {
    es == [] ||
    (HeadScalars(h, es);
     Readable(h, hidden, es[0])
     && Replayable(h, es[1..], if es[0].merge then hidden else hidden - {ScalarOf(h, es[0].value).value}))
  }

  /** The existing values give each entry its original scalar. */
  predicate Supplies(h: Heap, es: seq<Entry>, existing: map<string, Node>)
    requires Parsed(h) && InHeap(h, es) && AllScalars(h, es)
  {
    forall i | 0 <= i < |es| && !es[i].merge ::
      h[es[i].key].value in existing && existing[h[es[i].key].value] == h[ScalarOf(h, es[i].value).value]
  }

  /** Names seen while restoring, against the original names (`plain`) and the
      names seen while scanning (`veiled`) of the same entries. */
  predicate SeenSoFar(seen: set<string>, plain: set<string>, veiled: set<string>) {
    && (forall n | n in seen :: n in plain || n == REDACTED)
    && (REDACTED in seen ==> REDACTED in veiled)
  }

  /** What restoring one entry does: its target gets its own value back, unless
      its key is still hidden while its value is. */
  lemma RestoreStep(h: Heap, e: Entry, all: set<nat>, hidden: set<nat>, seen: set<string>,
                    plain: set<string>, veiled: set<string>, existing: map<string, Node>)
    requires Setting(h, hidden) && hidden <= all && EntryOf(h, e) && GoodPass(Restore(existing))
    requires !e.merge && ScalarOf(h, e.value).Some? && SeenSoFar(seen, plain, veiled)
    requires NameIn(h, {}, e.key) !in plain && NameIn(h, all, e.key) !in veiled
    requires h[e.key].value in existing && existing[h[e.key].value] == h[ScalarOf(h, e.value).value]
    requires e.key in all && REDACTED in existing ==> h[e.key].value == REDACTED
    ensures var s := ScalarOf(h, e.value).value;
      FoldStep(Restore(existing), Plain(Mix(h, hidden), seen), e) ==
        if Readable(h, hidden, e) then Went(Plain(Mix(h, hidden - {s}), seen + {NameIn(h, hidden, e.key)}))
        else Broke
    ensures SeenSoFar(seen + {NameIn(h, hidden, e.key)}, plain + {NameIn(h, {}, e.key)}, veiled + {NameIn(h, all, e.key)})
  {
    var c, s := Plain(Mix(h, hidden), seen), ScalarOf(h, e.value).value;
    MixVisit(Restore(existing), h, hidden, c, e);
    var after := Mix(h, hidden - {s});
    if Readable(h, hidden, e) {
      if c.h[s].value == REDACTED {
        assert c.h[s := h[s]] == after;
      } else {
        assert c.h == after;
      }
    }
  }

  /** No key that hides its name is called by the placeholder in the original,
      so the placeholder is not an existing name when one is needed. */
  lemma PlaceholderIsNoName(h: Heap, es: seq<Entry>, all: set<nat>, veiled: set<string>)
    requires InHeap(h, es) && es != [] && !es[0].merge && DistinctNames(h, all, es, veiled)
    requires REDACTED in veiled || Has(h, es, REDACTED)
    requires es[0].key in all
    ensures h[es[0].key].value == REDACTED
  {
    if h[es[0].key].value != REDACTED {
      var i :| 0 <= i < |es| && Named(h, es, REDACTED, i);
      assert i > 0 && InHeap(h, es[1..]);
      DistinctAvoidsSeen(h, all, es[1..], veiled + {REDACTED}, i - 1);
      assert false;
    }
  }

  /** How far restoring has come: what is still hidden, which names it saw, and
      what it has to restore from. */
  predicate Restoring(h: Heap, es: seq<Entry>, all: set<nat>, hidden: set<nat>, seen: set<string>,
                      plain: set<string>, veiled: set<string>, existing: map<string, Node>)
    requires Parsed(h) && InHeap(h, es)
  {
    && Setting(h, hidden) && hidden <= all && GoodEntries(h, es)
    && GoodPass(Restore(existing)) && AllScalars(h, es) && Supplies(h, es, existing)
    && MergeKeysOutside(es, all) && DistinctNames(h, {}, es, plain) && DistinctNames(h, all, es, veiled)
    && SeenSoFar(seen, plain, veiled)
    && (REDACTED in existing ==> REDACTED in veiled || Has(h, es, REDACTED))
  }

  lemma RestoringMerge(h: Heap, es: seq<Entry>, all: set<nat>, hidden: set<nat>, seen: set<string>,
                       plain: set<string>, veiled: set<string>, existing: map<string, Node>)
    requires Parsed(h) && InHeap(h, es) && Restoring(h, es, all, hidden, seen, plain, veiled, existing)
    requires es != [] && es[0].merge && InHeap(h, es[1..])
    ensures FoldStep(Restore(existing), Plain(Mix(h, hidden), seen), es[0]) == Went(Plain(Mix(h, hidden), seen))
    ensures Restoring(h, es[1..], all, hidden, seen, plain, veiled, existing)
  {
    MixVisit(Restore(existing), h, hidden, Plain(Mix(h, hidden), seen), es[0]);
    HeadKeys(es, all);
    HeadScalars(h, es);
    HeadNamed(h, es, REDACTED);
    RestSupplied(h, es, existing);
  }

  lemma RestoringOrdinary(h: Heap, es: seq<Entry>, all: set<nat>, hidden: set<nat>, seen: set<string>,
                          plain: set<string>, veiled: set<string>, existing: map<string, Node>)
    requires Parsed(h) && InHeap(h, es) && Restoring(h, es, all, hidden, seen, plain, veiled, existing)
    requires es != [] && !es[0].merge && InHeap(h, es[1..])
    ensures ScalarOf(h, es[0].value).Some?
    ensures var e := es[0];
      var s := ScalarOf(h, e.value).value;
      && FoldStep(Restore(existing), Plain(Mix(h, hidden), seen), e) ==
        (if Readable(h, hidden, e) then Went(Plain(Mix(h, hidden - {s}), seen + {NameIn(h, hidden, e.key)}))
         else Broke)
      && Restoring(h, es[1..], all, hidden - {s}, seen + {NameIn(h, hidden, e.key)},
                   plain + {NameIn(h, {}, e.key)}, veiled + {NameIn(h, all, e.key)}, existing)
  {
    var e := es[0];
    HeadKeys(es, all);
    HeadScalars(h, es);
    HeadNamed(h, es, REDACTED);
    RestSupplied(h, es, existing);
    if e.key in all && REDACTED in existing { PlaceholderIsNoName(h, es, all, veiled); }
    RestoreStep(h, e, all, hidden, seen, plain, veiled, existing);
    MixParsed(h, hidden - {ScalarOf(h, e.value).value});
  }

  /** Restoring goes through exactly when every entry can be replayed, and then
      every target has its own value back. */
  lemma {:induction false} RestoreFold(h: Heap, es: seq<Entry>, all: set<nat>, hidden: set<nat>, seen: set<string>,
                                       plain: set<string>, veiled: set<string>, existing: map<string, Node>)
    requires Parsed(h) && InHeap(h, es) && Restoring(h, es, all, hidden, seen, plain, veiled, existing)
    ensures var f := Fold(Restore(existing), Plain(Mix(h, hidden), seen), es);
      && !f.Stuck?
      && (f.Went? <==> Replayable(h, es, hidden))
      && (f.Went? ==> f.c.h == Mix(h, hidden - Targets(h, es)))
    decreases |es|
  {
    var c := Plain(Mix(h, hidden), seen);
    if es == [] {
      assert hidden - {} == hidden;
    } else {
      var e, rest := es[0], es[1..];
      Unfold(Restore(existing), c, es);
      if e.merge {
        RestoringMerge(h, es, all, hidden, seen, plain, veiled, existing);
        RestoreFold(h, rest, all, hidden, seen, plain, veiled, existing);
      } else {
        RestoringOrdinary(h, es, all, hidden, seen, plain, veiled, existing);
        if Readable(h, hidden, e) {
          var s := ScalarOf(h, e.value).value;
          RestoreFold(h, rest, all, hidden - {s}, seen + {NameIn(h, hidden, e.key)},
            plain + {NameIn(h, {}, e.key)}, veiled + {NameIn(h, all, e.key)}, existing);
          assert hidden - {s} - Targets(h, rest) == hidden - Targets(h, es);
        }
      }
    }
  }

  lemma RestSupplied(h: Heap, es: seq<Entry>, existing: map<string, Node>)
    requires Parsed(h) && InHeap(h, es) && es != [] && InHeap(h, es[1..]) && AllScalars(h, es) && AllScalars(h, es[1..])
    requires Supplies(h, es, existing)
    ensures Supplies(h, es[1..], existing)
  {
    forall i | 0 <= i < |es[1..]| && !es[1..][i].merge
      ensures var e := es[1..][i]; h[e.key].value in existing && existing[h[e.key].value] == h[ScalarOf(h, e.value).value]
    {
      assert es[i + 1] == es[1..][i];
    }
  }
}
