/** Work items lose nothing, agree within themselves, and at most the last one
    is still in progress. */
module WorkProperties {
  import opened Transcript
  import opened DisplayUnits
  import opened WorkGroups

  // ----- the groups behind the items are the input -----

  function GroupsOf(s: Stretch): seq<Group> {
    if s.Alone? then [s.group] else s.groups
  }

  function Behind(ss: seq<Stretch>): seq<Group> {
    if ss == [] then [] else GroupsOf(ss[0]) + Behind(ss[1..])
  }

  lemma BehindFirst(s: Stretch, rest: seq<Stretch>)
    ensures Behind([s] + rest) == GroupsOf(s) + Behind(rest)
  {
    assert ([s] + rest)[1..] == rest;
  }

  lemma BehindOne(s: Stretch)
    ensures Behind([s]) == GroupsOf(s)
  {
    assert [s] + [] == [s];
    BehindFirst(s, []);
  }

  function Pending(buffer: Option<Buffer>): seq<Group> {
    if buffer.Some? then buffer.value.groups else []
  }

  /** With no buffer: the group stands alone, or opens one. */
  lemma {:induction false} PartitionClosed(groups: seq<Group>, index: nat, tail: Tail)
    requires index < |groups|
    ensures Behind(Stretches(groups, index, None, tail)) == Pending(None) + groups[index..]
    decreases |groups| - index, 0, 1
  {
    hide HasVisibleContent, CanStartWork, Behind, Normalized;
    var g := groups[index];
    assert groups[index..] == [g] + groups[index + 1..] && Pending(None) + groups[index..] == groups[index..];
    if CanStartWork(g) && !HasVisibleContent(g) {
      StretchesPartition(groups, index + 1, Some(Opened(g)), tail);
    } else {
      StretchesPartition(groups, index + 1, None, tail);
      assert Pending(None) + groups[index + 1..] == groups[index + 1..];
      BehindFirst(if CanStartWork(g) then Closed(Opened(g)) else Alone(g), Stretches(groups, index + 1, None, tail));
    }
  }

  /** With a buffer: it is closed before the group, or takes it in. */
  lemma {:induction false} PartitionOpen(groups: seq<Group>, index: nat, b: Buffer, tail: Tail)
    requires index < |groups|
    ensures Behind(Stretches(groups, index, Some(b), tail)) == b.groups + groups[index..]
    decreases |groups| - index, 1, 1
  {
    hide HasVisibleContent, CanContinueWork, CanCompleteWork, CanStartWork, Disagrees, Behind, Normalized;
    var g := groups[index];
    assert b.groups + groups[index..] == b.groups + [g] + groups[index + 1..];
    if Disagrees(b, g) || (!CanCompleteWork(g) && !CanContinueWork(g)) {
      StretchesPartition(groups, index, None, tail);
      assert Pending(None) + groups[index..] == groups[index..];
      BehindFirst(Closed(b), Stretches(groups, index, None, tail));
    } else if CanCompleteWork(g) {
      StretchesPartition(groups, index + 1, None, tail);
      assert Pending(None) + groups[index + 1..] == groups[index + 1..];
      BehindFirst(Closed(Extended(b, g)), Stretches(groups, index + 1, None, tail));
    } else {
      StretchesPartition(groups, index + 1, Some(Extended(b, g)), tail);
    }
  }

  lemma {:induction false} StretchesPartition(groups: seq<Group>, index: nat, buffer: Option<Buffer>, tail: Tail)
    requires index <= |groups|
    ensures Behind(Stretches(groups, index, buffer, tail)) == Pending(buffer) + groups[index..]
    decreases |groups| - index, if buffer.Some? then 1 else 0, 2
  {
    hide Behind;
    if index == |groups| {
      if buffer.Some? {
        BehindOne(Work(buffer.value.groups, buffer.value.model, LastPhase(buffer.value, tail)));
      } else {
        BehindNone();
      }
    } else if buffer.None? {
      PartitionClosed(groups, index, tail);
    } else {
      PartitionOpen(groups, index, buffer.value, tail);
    }
  }

  lemma BehindNone()
    ensures Behind([]) == []
  {
  }

  /** The groups behind the items, one after another, are the input. */
  lemma WorkPartitions(groups: seq<Group>, tail: Tail)
    ensures Behind(Stretches(groups, 0, None, tail)) == groups
  {
    StretchesPartition(groups, 0, None, tail);
    assert groups[0..] == groups && Pending(None) + groups == groups;
  }

  // ----- every item agrees within itself -----

  /** The first turn id given at all, even an empty one. */
  function FirstTurn(groups: seq<Group>): Option<string> {
    if groups == [] then None else OrElse(FirstTurn(groups[..|groups| - 1]), groups[|groups| - 1].turnID)
  }

  predicate AgreesOnModel(groups: seq<Group>, model: Option<string>) {
    && (forall g | g in groups :: Normalized(g.model).None? || Normalized(g.model) == model)
    && (model.Some? ==> exists g | g in groups :: Normalized(g.model) == model)
  }

  predicate FollowsTurn(groups: seq<Group>, turnID: Option<string>) {
    Truthy(turnID) ==> forall g | g in groups && Truthy(g.turnID) :: g.turnID == turnID
  }

  predicate AgreesOnTurn(groups: seq<Group>) {
    forall g, h | g in groups && h in groups && Truthy(g.turnID) && Truthy(h.turnID) :: g.turnID == h.turnID
  }

  predicate Quiet(groups: seq<Group>) {
    forall g | g in groups :: !HasVisibleContent(g)
  }

  /** The group can go on in a buffer, or begin one. */
  predicate JoinsWork(g: Group) {
    !HasVisibleContent(g) && (CanStartWork(g) || CanContinueWork(g))
  }

  /** No group that can be gathered with a later one has an empty turn id. */
  predicate NoEmptyTurn(groups: seq<Group>) {
    forall g | g in groups && JoinsWork(g) :: g.turnID != Some("")
  }

  predicate AllJoin(groups: seq<Group>) {
    forall g | g in groups :: JoinsWork(g)
  }

  predicate GoodBuffer(b: Buffer) {
    && b.groups != [] && AllJoin(b.groups) && Quiet(b.groups) && AgreesOnModel(b.groups, b.model)
    && b.turnID == FirstTurn(b.groups) && FollowsTurn(b.groups, b.turnID)
    && (b.turnID.None? ==> forall g | g in b.groups :: g.turnID.None?)
  }

  /** Only its last group shows more than work, and only once it is done. */
  predicate GoodStretch(s: Stretch) {
    s.Work? ==>
      (&& s.groups != []
       && Quiet(s.groups[..|s.groups| - 1])
       && (s.phase.InProgress? ==> Quiet(s.groups))
       && AgreesOnModel(s.groups, s.model)
       && (NoEmptyTurn(s.groups) ==> AgreesOnTurn(s.groups)))
  }

  lemma OpenedIsGood(g: Group)
    requires !HasVisibleContent(g) && CanStartWork(g)
    ensures GoodBuffer(Opened(g))
  {
    hide HasVisibleContent, CanStartWork, Normalized;
    assert [g][..0] == [];
    assert FirstTurn([g]) == OrElse(FirstTurn([]), g.turnID);
    assert forall h | h in [g] :: h == g;
    assert [g][0] == g;
  }

  lemma OpenedCloses(g: Group)
    ensures GoodStretch(Closed(Opened(g)))
  {
    hide HasVisibleContent, Normalized;
    assert [g][..0] == [];
    assert g in [g];
  }

  /** What one more group leaves true: everything but its being quiet. */
  lemma ExtendedAgrees(b: Buffer, g: Group)
    requires GoodBuffer(b) && !Disagrees(b, g)
    ensures var e := Extended(b, g);
      && AgreesOnModel(e.groups, e.model) && e.turnID == FirstTurn(e.groups) && FollowsTurn(e.groups, e.turnID)
      && (e.turnID.None? ==> forall h | h in e.groups :: h.turnID.None?)
  {
    hide HasVisibleContent, Normalized;
    var e := Extended(b, g);
    assert e.groups[..|e.groups| - 1] == b.groups;
    assert g in e.groups;
    if b.model.Some? {
      var h :| h in b.groups && Normalized(h.model) == b.model;
      assert h in e.groups;
    }
  }

  /** The first turn id given is some group's, and no group before it has one. */
  lemma {:induction false} FirstTurnGiven(groups: seq<Group>)
    ensures FirstTurn(groups).Some? ==> exists g | g in groups :: g.turnID == FirstTurn(groups)
    decreases |groups|
  {
    if groups != [] {
      var front, last := groups[..|groups| - 1], groups[|groups| - 1];
      FirstTurnGiven(front);
      if FirstTurn(front).Some? {
        var g :| g in front && g.turnID == FirstTurn(front);
        assert g in groups;
      }
      assert last in groups;
    }
  }

  lemma FollowingAgrees(groups: seq<Group>, turnID: Option<string>)
    requires FollowsTurn(groups, turnID) && turnID == FirstTurn(groups) && turnID != Some("")
    requires turnID.None? ==> forall g | g in groups :: g.turnID.None?
    ensures AgreesOnTurn(groups)
  {
    hide FirstTurn;
  }

  lemma BufferAgrees(b: Buffer)
    requires GoodBuffer(b) && NoEmptyTurn(b.groups)
    ensures b.turnID != Some("") && AgreesOnTurn(b.groups)
  {
    hide HasVisibleContent, AgreesOnModel, JoinsWork, FirstTurn;
    FirstTurnGiven(b.groups);
    FollowingAgrees(b.groups, b.turnID);
  }

  lemma GoodCloses(b: Buffer, phase: Phase)
    requires GoodBuffer(b)
    ensures GoodStretch(Work(b.groups, b.model, phase))
  {
    hide HasVisibleContent, Normalized, FirstTurn;
    if NoEmptyTurn(b.groups) { BufferAgrees(b); }
  }

  /** The group that completes a buffer has its turn, if both have one. */
  lemma CompletedAgrees(b: Buffer, g: Group)
    requires GoodBuffer(b) && !Disagrees(b, g) && NoEmptyTurn(b.groups)
    ensures AgreesOnTurn(b.groups + [g])
  {
    hide HasVisibleContent, Normalized, FirstTurn, AgreesOnModel, JoinsWork, NoEmptyTurn;
    BufferAgrees(b);
  }

  lemma GoodCompletes(b: Buffer, g: Group)
    requires GoodBuffer(b) && !Disagrees(b, g)
    ensures GoodStretch(Closed(Extended(b, g)))
  {
    var e := Extended(b, g);
    ExtendedAgrees(b, g);
    assert Quiet(b.groups) && e.groups[..|e.groups| - 1] == b.groups;
    assert forall h | h in b.groups :: h in e.groups;
    hide HasVisibleContent, Normalized, FirstTurn, Disagrees, AgreesOnModel, AgreesOnTurn, JoinsWork, GoodBuffer;
    if NoEmptyTurn(e.groups) {
      CompletedAgrees(b, g);
    }
  }

  lemma GoodContinues(b: Buffer, g: Group)
    requires GoodBuffer(b) && !Disagrees(b, g) && CanContinueWork(g)
    ensures GoodBuffer(Extended(b, g))
  {
    ExtendedAgrees(b, g);
    hide HasVisibleContent, Normalized, FirstTurn, Disagrees;
  }

  predicate AllGood(ss: seq<Stretch>) {
    forall s | s in ss :: GoodStretch(s)
  }

  lemma {:induction false} StretchesGood(groups: seq<Group>, index: nat, buffer: Option<Buffer>, tail: Tail)
    requires index <= |groups| && (buffer.Some? ==> GoodBuffer(buffer.value))
    ensures AllGood(Stretches(groups, index, buffer, tail))
    decreases |groups| - index, if buffer.Some? then 1 else 0
  {
    hide HasVisibleContent, CanStartWork, CanContinueWork, CanCompleteWork, Disagrees, GoodBuffer, GoodStretch, Normalized;
    if index == |groups| {
      if buffer.Some? { GoodCloses(buffer.value, LastPhase(buffer.value, tail)); }
    } else {
      var g := groups[index];
      if buffer.None? {
        if CanStartWork(g) && !HasVisibleContent(g) {
          OpenedIsGood(g);
          StretchesGood(groups, index + 1, Some(Opened(g)), tail);
        } else {
          StretchesGood(groups, index + 1, None, tail);
          OpenedCloses(g);
          assert GoodStretch(Alone(g)) by { AloneIsGood(g); }
        }
      } else {
        var b := buffer.value;
        if Disagrees(b, g) || (!CanCompleteWork(g) && !CanContinueWork(g)) {
          StretchesGood(groups, index, None, tail);
          GoodCloses(b, Done);
        } else if CanCompleteWork(g) {
          StretchesGood(groups, index + 1, None, tail);
          GoodCompletes(b, g);
        } else {
          GoodContinues(b, g);
          StretchesGood(groups, index + 1, Some(Extended(b, g)), tail);
        }
      }
    }
  }

  lemma AloneIsGood(g: Group)
    ensures GoodStretch(Alone(g))
  {
  }

  /** Within every item: one model, one turn as long as no group that could be
      gathered with a later one has an empty turn id, and content only where
      the work is done. */
  lemma WorkAgrees(groups: seq<Group>, tail: Tail, s: Stretch)
    requires s in Stretches(groups, 0, None, tail) && s.Work?
    ensures AgreesOnModel(s.groups, s.model)
    ensures NoEmptyTurn(groups) ==> AgreesOnTurn(s.groups)
    ensures s.phase.InProgress? ==> Quiet(s.groups)
  {
    hide NoEmptyTurn, AgreesOnTurn;
    StretchesGood(groups, 0, None, tail);
    assert GoodStretch(s);
    if NoEmptyTurn(groups) { PartHasNoEmptyTurn(groups, tail, s); }
  }

  lemma PartHasNoEmptyTurn(groups: seq<Group>, tail: Tail, s: Stretch)
    requires NoEmptyTurn(groups) && s in Stretches(groups, 0, None, tail) && s.Work?
    ensures NoEmptyTurn(s.groups)
  {
    WorkPartitions(groups, tail);
    forall g | g in s.groups ensures g in groups {
      IsBehind(Stretches(groups, 0, None, tail), s, g);
    }
  }

  lemma {:induction false} IsBehind(ss: seq<Stretch>, s: Stretch, g: Group)
    requires s in ss && g in GroupsOf(s)
    ensures g in Behind(ss)
    decreases |ss|
  {
    if s != ss[0] { IsBehind(ss[1..], s, g); }
  }

  // ----- at most the last item is in progress -----

  lemma {:induction false} OnlyLastInProgress(groups: seq<Group>, index: nat, buffer: Option<Buffer>, tail: Tail, i: nat)
    requires index <= |groups|
    requires var ss := Stretches(groups, index, buffer, tail); i < |ss| && ss[i].Work? && ss[i].phase.InProgress?
    ensures i == |Stretches(groups, index, buffer, tail)| - 1
    decreases |groups| - index, if buffer.Some? then 1 else 0
  {
    hide HasVisibleContent, CanStartWork, CanContinueWork, CanCompleteWork, Disagrees, Normalized;
    if index < |groups| {
      var g := groups[index];
      if buffer.None? {
        if CanStartWork(g) && !HasVisibleContent(g) {
          OnlyLastInProgress(groups, index + 1, Some(Opened(g)), tail, i);
        } else {
          OnlyLastInProgress(groups, index + 1, None, tail, i - 1);
        }
      } else {
        var b := buffer.value;
        if Disagrees(b, g) || (!CanCompleteWork(g) && !CanContinueWork(g)) {
          OnlyLastInProgress(groups, index, None, tail, i - 1);
        } else if CanCompleteWork(g) {
          OnlyLastInProgress(groups, index + 1, None, tail, i - 1);
        } else {
          OnlyLastInProgress(groups, index + 1, Some(Extended(b, g)), tail, i);
        }
      }
    }
  }

  // ----- an empty turn id -----

  /** A group with nothing but a tool's work. */
  function Working(turnID: Option<string>): Group {
    MessageGroup(Named(""), None, turnID, Assistant, None, true, [Single(ToolUnit(Tool(None, None, None)))], None)
  }

  lemma WorkingJoins(turnID: Option<string>)
    ensures var g := Working(turnID);
      CanStartWork(g) && CanContinueWork(g) && !HasVisibleContent(g) && !CanCompleteWork(g) && Normalized(g.model).None?
  {
    assert ToolsOf(Working(turnID).units) > 0;
  }

  /** A buffer takes in a group that goes on with it. */
  lemma Gathered(groups: seq<Group>, index: nat, b: Buffer, tail: Tail)
    requires index < |groups| && !Disagrees(b, groups[index]) && CanContinueWork(groups[index])
    ensures Stretches(groups, index, Some(b), tail) == Stretches(groups, index + 1, Some(Extended(b, groups[index])), tail)
  {
    hide Disagrees, HasVisibleContent, Extended;
  }

  /** A buffer that noted an empty turn id takes in any turn. */
  lemma EmptyTakesBoth(front: seq<Group>, b: Buffer, tail: Tail)
    requires b.groups == front && b.turnID == Some("")
    ensures var a, c := Working(Some("a")), Working(Some("b"));
      var ss := Stretches(front + [a, c], |front|, Some(b), tail);
      |ss| == 1 && ss[0].Work? && ss[0].groups == front + [a, c]
  {
    hide Working, CanContinueWork, CanCompleteWork, CanStartWork, HasVisibleContent, Normalized;
    var a, c := Working(Some("a")), Working(Some("b"));
    WorkingJoins(Some("a"));
    WorkingJoins(Some("b"));
    var groups := front + [a, c];
    var one := Extended(b, a);
    Gathered(groups, |front|, b, tail);
    Gathered(groups, |front| + 1, one, tail);
    assert Extended(one, c).groups == front + [a, c];
  }

  lemma EmptyOpens(g: Group, tail: Tail)
    requires g.turnID == Some("") && CanStartWork(g) && !HasVisibleContent(g)
    ensures var groups := [g] + [Working(Some("a")), Working(Some("b"))];
      var ss := Stretches(groups, 0, None, tail);
      |ss| == 1 && ss[0].Work? && ss[0].groups == groups
  {
    hide CanStartWork, HasVisibleContent, Working, Normalized;
    EmptyTakesBoth([g], Opened(g), tail);
  }

  lemma EmptyFollows(g: Group, tail: Tail)
    requires g.turnID == Some("") && CanContinueWork(g)
    ensures var groups := [Working(None), g] + [Working(Some("a")), Working(Some("b"))];
      var ss := Stretches(groups, 0, None, tail);
      |ss| == 1 && ss[0].Work? && ss[0].groups == groups
  {
    var first := Working(None);
    WorkingJoins(None);
    var b := Opened(first);
    assert !Disagrees(b, g) && Extended(b, g).turnID == Some("") && Extended(b, g).groups == [first, g];
    hide CanStartWork, CanContinueWork, HasVisibleContent, Working, Normalized, Disagrees, Extended, Opened;
    var groups := [first, g] + [Working(Some("a")), Working(Some("b"))];
    assert groups[0] == first && groups[1] == g;
    Gathered(groups, 1, b, tail);
    EmptyTakesBoth([first, g], Extended(b, g), tail);
  }

  /** An item that holds these two groups holds two turns. */
  lemma TwoTurns(front: seq<Group>)
    ensures !AgreesOnTurn(front + [Working(Some("a")), Working(Some("b"))])
  {
    var groups := front + [Working(Some("a")), Working(Some("b"))];
    assert groups[|front|] in groups && groups[|front| + 1] in groups;
    assert groups[|front|].turnID == Some("a") && groups[|front| + 1].turnID == Some("b");
  }

  /** No condition but that one will do: every group that can be gathered with
      a later one and has an empty turn id can stand among groups without any,
      in one item with groups of two different turns. */
  lemma EmptyTurnSharesItem(g: Group, tail: Tail)
    requires JoinsWork(g) && g.turnID == Some("")
    ensures exists before, after :: SharedItem(before, g, after, tail)
  {
    hide Working, CanStartWork, CanContinueWork, HasVisibleContent, AgreesOnTurn, Stretches;
    var a, c := Working(Some("a")), Working(Some("b"));
    NoneOfThemEmpty();
    if CanStartWork(g) {
      EmptyOpens(g, tail);
      TwoTurns([g]);
      assert [] + [g] + [a, c] == [g] + [a, c];
      assert [] + [a, c] == [a, c];
      assert SharedItem([], g, [a, c], tail);
    } else {
      EmptyFollows(g, tail);
      TwoTurns([Working(None), g]);
      assert [Working(None)] + [g] + [a, c] == [Working(None), g] + [a, c];
      assert SharedItem([Working(None)], g, [a, c], tail);
    }
  }

  ghost predicate SharedItem(before: seq<Group>, g: Group, after: seq<Group>, tail: Tail) {
    var ss := Stretches(before + [g] + after, 0, None, tail);
    && (forall h | h in before + after :: h.turnID != Some(""))
    && |ss| == 1 && ss[0].Work? && !AgreesOnTurn(ss[0].groups)
  }

  lemma NoneOfThemEmpty()
    ensures forall h | h in [Working(None)] + [Working(Some("a")), Working(Some("b"))] :: h.turnID != Some("")
    ensures forall h | h in [Working(Some("a")), Working(Some("b"))] :: h.turnID != Some("")
  {
  }
}
