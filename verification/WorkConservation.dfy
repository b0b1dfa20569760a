/** No unit a reader could see is lost or repeated by gathering work. */
module WorkConservation {
  import opened Sequences
  import opened JsText
  import opened Transcript
  import opened DisplayUnits
  import opened WorkGroups
  import opened WorkProperties

  /** All units of this kind, group after group. */
  function UnitsIn(groups: seq<Group>, p: Shown -> bool): seq<Shown> {
    if groups == [] then [] else UnitsIn(groups[..|groups| - 1], p) + Where(groups[|groups| - 1].units, p)
  }

  function PartUnits(parts: seq<Part>): seq<Shown> {
    if parts == [] then [] else PartUnits(parts[..|parts| - 1]) + parts[|parts| - 1].units
  }

  /** The reasoning and tool units an item shows. */
  function ProcessOf(item: Item): seq<Shown> {
    match item
    case MessageItem(g) => Where(g.units, IsProcess)
    case WorkItem(_, _, _, parts, _, _) => PartUnits(parts)
  }

  /** The text and images an item shows. */
  function VisibleOf(item: Item): seq<Shown> {
    match item
    case MessageItem(g) => Where(g.units, IsVisible)
    case WorkItem(_, _, _, _, content, _) => if content.None? then [] else Where(content.value.units, IsVisible)
  }

  // ----- filtering -----

  lemma {:induction false} WhereNone<T>(s: seq<T>, p: T -> bool)
    requires forall x | x in s :: !p(x)
    ensures Where(s, p) == []
    decreases |s|
  {
    if s != [] { WhereNone(s[..|s| - 1], p); }
  }

  lemma WhereAppend<T>(s: seq<T>, x: T, p: T -> bool)
    ensures Where(s + [x], p) == Where(s, p) + if p(x) then [x] else []
  {
    assert (s + [x])[..|s|] == s;
  }

  lemma {:induction false} WhereTwice<T>(s: seq<T>, p: T -> bool, q: T -> bool)
    requires forall x | x in s && q(x) :: p(x)
    ensures Where(Where(s, p), q) == Where(s, q)
    decreases |s|
  {
    if s != [] {
      var front, last := s[..|s| - 1], s[|s| - 1];
      WhereTwice(front, p, q);
      WhereAppend(Where(front, p), last, q);
      assert last in s;
      assert Where(front, p) + [] == Where(front, p);
    }
  }

  // ----- concatenation -----

  lemma UnitsInLast(groups: seq<Group>, p: Shown -> bool)
    requires groups != []
    ensures UnitsIn(groups, p) == UnitsIn(groups[..|groups| - 1], p) + Where(groups[|groups| - 1].units, p)
  {
  }

  lemma {:induction false} UnitsInConcat(a: seq<Group>, b: seq<Group>, p: Shown -> bool)
    ensures UnitsIn(a + b, p) == UnitsIn(a, p) + UnitsIn(b, p)
    decreases |b|
  {
    if b == [] {
      assert a + b == a;
    } else {
      hide UnitsIn, Where;
      var n := |b| - 1;
      assert (a + b)[..|a + b| - 1] == a + b[..n];
      UnitsInConcat(a, b[..n], p);
      UnitsInLast(a + b, p);
      UnitsInLast(b, p);
      Associative(UnitsIn(a, p), UnitsIn(b[..n], p), Where(b[n].units, p));
    }
  }

  lemma UnitsInOne(g: Group, p: Shown -> bool)
    ensures UnitsIn([g], p) == Where(g.units, p)
  {
    assert [g][..0] == [];
  }

  lemma {:induction false} QuietShowsNothing(groups: seq<Group>)
    requires Quiet(groups)
    ensures UnitsIn(groups, IsVisible) == []
    decreases |groups|
  {
    if groups != [] {
      QuietShowsNothing(groups[..|groups| - 1]);
      var g := groups[|groups| - 1];
      assert !HasVisibleContent(g);
      WhereNone(g.units, IsVisible);
    }
  }

  // ----- one item -----

  lemma PartsAppend(parts: seq<Part>, p: Part)
    ensures PartUnits(parts + [p]) == PartUnits(parts) + p.units
  {
    assert (parts + [p])[..|parts|] == parts;
  }

  lemma {:induction false} ProcessKept(groups: seq<Group>)
    ensures PartUnits(ProcessParts(groups)) == UnitsIn(groups, IsProcess)
    decreases |groups|
  {
    if groups != [] {
      var g := groups[|groups| - 1];
      ProcessKept(groups[..|groups| - 1]);
      var front := ProcessParts(groups[..|groups| - 1]);
      PartsAppend(front, Part(g, |front|, Where(g.units, IsProcess)));
    }
  }

  lemma ContentKept(s: Stretch)
    requires s.Work? && GoodStretch(s)
    ensures VisibleOf(ItemOf(s)) == UnitsIn(s.groups, IsVisible)
  {
    hide AgreesOnModel, AgreesOnTurn, FirstTurn, HasVisibleContent;
    var n := |s.groups| - 1;
    if s.phase.InProgress? {
      QuietShowsNothing(s.groups);
    } else {
      var last := s.groups[n];
      QuietShowsNothing(s.groups[..n]);
      UnitsInLast(s.groups, IsVisible);
      WhereTwice(last.units, IsContent, IsVisible);
    }
  }

  lemma StretchKept(s: Stretch)
    requires GoodStretch(s)
    ensures s.Work? ==> s.groups != []
    ensures ProcessOf(ItemOf(s)) == UnitsIn(GroupsOf(s), IsProcess)
    ensures VisibleOf(ItemOf(s)) == UnitsIn(GroupsOf(s), IsVisible)
  {
    if s.Alone? {
      UnitsInOne(s.group, IsProcess);
      UnitsInOne(s.group, IsVisible);
    } else {
      ProcessKept(s.groups);
      ContentKept(s);
    }
  }

  // ----- all items -----

  function AllProcess(items: seq<Item>): seq<Shown> {
    if items == [] then [] else ProcessOf(items[0]) + AllProcess(items[1..])
  }

  function AllVisible(items: seq<Item>): seq<Shown> {
    if items == [] then [] else VisibleOf(items[0]) + AllVisible(items[1..])
  }

  lemma {:induction false} ItemsKeep(ss: seq<Stretch>)
    requires NonEmpty(ss) && AllGood(ss)
    ensures AllProcess(ItemsOf(ss)) == UnitsIn(Behind(ss), IsProcess)
    ensures AllVisible(ItemsOf(ss)) == UnitsIn(Behind(ss), IsVisible)
    decreases |ss|
  {
    if ss != [] {
      hide UnitsIn, GoodStretch, ItemOf, ProcessOf, VisibleOf;
      var s, rest := ss[0], ss[1..];
      assert s in ss;
      assert NonEmpty(rest) && AllGood(rest);
      ItemsKeep(rest);
      StretchKept(s);
      assert ItemsOf(ss)[0] == ItemOf(s) && ItemsOf(ss)[1..] == ItemsOf(rest);
      UnitsInConcat(GroupsOf(s), Behind(rest), IsProcess);
      UnitsInConcat(GroupsOf(s), Behind(rest), IsVisible);
    }
  }

  /** The items show every reasoning and tool unit, every nonblank text and
      every image of the input, each once and each kind in order. */
  lemma NothingVisibleIsLost(groups: seq<Group>, tail: Tail)
    ensures var ss := Stretches(groups, 0, None, tail);
      && NonEmpty(ss)
      && AllProcess(ItemsOf(ss)) == UnitsIn(groups, IsProcess)
      && AllVisible(ItemsOf(ss)) == UnitsIn(groups, IsVisible)
  {
    hide Stretches, ItemsOf, NonEmpty, AllGood, UnitsIn;
    StretchesNonEmpty(groups, 0, None, tail);
    StretchesGood(groups, 0, None, tail);
    WorkPartitions(groups, tail);
    ItemsKeep(Stretches(groups, 0, None, tail));
  }

  // ----- the count of tools -----

  lemma ToolsOfOne(u: Shown, rest: seq<Shown>)
    ensures ToolsOf([u] + rest) == ToolsOf([u]) + ToolsOf(rest)
  {
    assert ([u] + rest)[1..] == rest && [u][1..] == [];
  }

  lemma {:induction false} ToolsOfConcat(a: seq<Shown>, b: seq<Shown>)
    ensures ToolsOf(a + b) == ToolsOf(a) + ToolsOf(b)
    decreases |a|
  {
    if a == [] {
      assert a + b == b;
    } else {
      assert a + b == [a[0]] + (a[1..] + b) && a == [a[0]] + a[1..];
      ToolsOfOne(a[0], a[1..] + b);
      ToolsOfOne(a[0], a[1..]);
      ToolsOfConcat(a[1..], b);
    }
  }

  lemma {:induction false} ToolsAreProcess(units: seq<Shown>)
    ensures ToolsOf(Where(units, IsProcess)) == ToolsOf(units)
    decreases |units|
  {
    if units != [] {
      var front, u := units[..|units| - 1], units[|units| - 1];
      ToolsAreProcess(front);
      assert units == front + [u];
      ToolsOfConcat(front, [u]);
      ToolsOfConcat(Where(front, IsProcess), [u]);
      assert [u][1..] == [];
      assert Where(front, IsProcess) + [] == Where(front, IsProcess);
    }
  }

  lemma {:induction false} CountIsShown(groups: seq<Group>)
    ensures CountTools(groups) == ToolsOf(UnitsIn(groups, IsProcess))
    decreases |groups|
  {
    if groups != [] {
      var front, g := groups[..|groups| - 1], groups[|groups| - 1];
      CountIsShown(front);
      ToolsAreProcess(g.units);
      ToolsOfConcat(UnitsIn(front, IsProcess), Where(g.units, IsProcess));
    }
  }

  /** The count an item announces is the number of tools it shows. */
  lemma CountedToolsAreShown(s: Stretch)
    requires s.Work? && GoodStretch(s)
    ensures ItemOf(s).toolCount == ToolsOf(ProcessOf(ItemOf(s)))
  {
    StretchKept(s);
    CountIsShown(s.groups);
  }
}
