/** Announcing a drain, draining in pieces and queueing in between all come to
    the same queue and transcript. */
module DrainingProperties {
  import opened Sequences
  import opened Transcript
  import opened QueuedInputs
  import opened LiveToolEvents
  import opened LiveThreadProjection
  import opened ReducerProperties

  lemma HeldHead(a: seq<Option<QueuedInput>>)
    requires a != []
    ensures Held(a) == (if a[0].Some? then [a[0].value] else []) + Held(a[1..])
  {
  }

  lemma {:induction false} HeldConcat(a: seq<Option<QueuedInput>>, b: seq<Option<QueuedInput>>)
    ensures Held(a + b) == Held(a) + Held(b)
  {
    if a == [] {
      assert a + b == b;
    } else {
      hide Held;
      HeldConcat(a[1..], b);
      assert (a + b)[1..] == a[1..] + b;
      HeldHead(a + b);
      HeldHead(a);
    }
  }

  lemma {:induction false} HeldSlots(drained: seq<QueuedInput>, count: nat)
    requires |drained| <= count
    ensures Held(Slots(drained, count)) == drained
  {
    if count > 0 {
      var rest := if drained == [] then [] else drained[1..];
      hide Held;
      HeldSlots(rest, count - 1);
      assert Slots(drained, count)[1..] == Slots(rest, count - 1);
      HeldHead(Slots(drained, count));
    }
  }

  /** Draining what was announced takes exactly what draining without the
      announcement would have taken, and leaves the same state. */
  lemma AnnouncedDrain(s: Projection, n: nat, turnID: Option<string>)
    ensures DrainQueuedInputs(ReserveDraining(s, n), |s.draining| + n, turnID)
      == DrainQueuedInputs(s, |s.draining| + n, turnID)
  {
    var (queue, drained) := Drain(s.queuedInput, n);
    var a := ReserveDraining(s, n);
    HeldConcat(s.draining, Slots(drained, n));
    HeldSlots(drained, n);
    if n > 0 {
      assert Take(a.draining, |s.draining| + n) == a.draining;
      assert Held(a.draining) + [] == Held(s.draining) + drained;
    }
  }

  lemma DrainedMessagesConcat(x: seq<QueuedInput>, y: seq<QueuedInput>, turnID: Option<string>)
    ensures DrainedMessages(x + y, turnID) == DrainedMessages(x, turnID) + DrainedMessages(y, turnID)
  {
  }

  /** Inserted user messages push the pending answer back. */
  lemma PendingAfterInsert(ms: seq<Message>, i: int, xs: seq<Message>, turnID: Option<string>)
    requires i == FirstIndex(ms, PendingAssistant(turnID))
    requires forall k | 0 <= k < |xs| :: xs[k].role.User?
    ensures FirstIndex(if i < 0 then ms + xs else ms[..i] + xs + ms[i..], PendingAssistant(turnID))
      == if i < 0 then -1 else i + |xs|
  {
    var p := PendingAssistant(turnID);
    FirstIndexLeast(ms, p);
    if i < 0 {
      FirstIndexIs(ms + xs, p, -1);
    } else {
      var mid := ms[..i] + xs + ms[i..];
      assert forall k | 0 <= k < i :: mid[k] == ms[k];
      assert forall k | i <= k < i + |xs| :: mid[k] == xs[k - i];
      FirstIndexIs(mid, p, i + |xs|);
    }
  }

  /** Messages inserted before the turn's pending reply, or at the end. */
  function Inserted(ms: seq<Message>, additions: seq<Message>, turnID: Option<string>): seq<Message> {
    var i := FirstIndex(ms, PendingAssistant(turnID));
    if !Truthy(turnID) || i < 0 then ms + additions else ms[..i] + additions + ms[i..]
  }

  lemma AppendIsInserted(ms: seq<Message>, x: seq<QueuedInput>, turnID: Option<string>)
    requires x != []
    ensures AppendDrainedInputs(ms, x, turnID) == Inserted(ms, DrainedMessages(x, turnID), turnID)
  {
  }

  lemma SplitAtInsert<T>(a: seq<T>, b: seq<T>, c: seq<T>)
    ensures (a + b + c)[..|a| + |b|] == a + b && (a + b + c)[|a| + |b|..] == c
  {
  }

  lemma InsertedTwice(ms: seq<Message>, i: int, xs: seq<Message>, ys: seq<Message>, turnID: Option<string>)
    requires i == FirstIndex(ms, PendingAssistant(turnID))
    requires Truthy(turnID) ==> FirstIndex(Inserted(ms, xs, turnID), PendingAssistant(turnID)) == if i < 0 then -1 else i + |xs|
    ensures Inserted(Inserted(ms, xs, turnID), ys, turnID) == Inserted(ms, xs + ys, turnID)
  {
    hide FirstIndex, PendingAssistant;
    if Truthy(turnID) && i >= 0 {
      SplitAtInsert(ms[..i], xs, ms[i..]);
      Associative(ms[..i], xs, ys);
    } else {
      Associative(ms, xs, ys);
    }
  }

  /** Two batches in a row land like one. */
  lemma AppendTwice(ms: seq<Message>, x: seq<QueuedInput>, y: seq<QueuedInput>, turnID: Option<string>)
    ensures AppendDrainedInputs(AppendDrainedInputs(ms, x, turnID), y, turnID) == AppendDrainedInputs(ms, x + y, turnID)
  {
    if x == [] {
      assert x + y == y;
    } else if y == [] {
      assert x + y == x;
    } else {
      hide Inserted, AppendDrainedInputs;
      var i := FirstIndex(ms, PendingAssistant(turnID));
      var xs, ys := DrainedMessages(x, turnID), DrainedMessages(y, turnID);
      DrainedMessagesConcat(x, y, turnID);
      if Truthy(turnID) { PendingAfter(ms, i, xs, turnID); }
      InsertedTwice(ms, i, xs, ys, turnID);
      AppendIsInserted(ms, x, turnID);
      AppendIsInserted(Inserted(ms, xs, turnID), y, turnID);
      AppendIsInserted(ms, x + y, turnID);
    }
  }

  lemma PendingAfter(ms: seq<Message>, i: int, xs: seq<Message>, turnID: Option<string>)
    requires i == FirstIndex(ms, PendingAssistant(turnID)) && Truthy(turnID)
    requires forall k | 0 <= k < |xs| :: xs[k].role.User?
    ensures FirstIndex(Inserted(ms, xs, turnID), PendingAssistant(turnID)) == if i < 0 then -1 else i + |xs|
  {
    PendingAfterInsert(ms, i, xs, turnID);
  }

  lemma {:induction false} TakeParts<T>(s: seq<T>, a: nat, b: nat)
    ensures Take(s, a + b) == Take(s, a) + Take(s[|Take(s, a)|..], b)
    ensures s[|Take(s, a + b)|..] == s[|Take(s, a)|..][|Take(s[|Take(s, a)|..], b)|..]
  {
  }

  lemma DrainParts(q: QueuedInputState, a: nat, b: nat)
    ensures Drain(q, a + b) == (Drain(Drain(q, a).0, b).0, Drain(q, a).1 + Drain(Drain(q, a).0, b).1)
  {
    TakeParts(q.items, a, b);
  }

  /** What a drain of n takes, in order, and the slots and queue it leaves. */
  function Taken(slots: seq<Option<QueuedInput>>, queue: QueuedInputState, n: nat): seq<QueuedInput> {
    Held(Take(slots, n)) + Drain(queue, n - |Take(slots, n)|).1
  }

  function Left(slots: seq<Option<QueuedInput>>, queue: QueuedInputState, n: nat): (seq<Option<QueuedInput>>, QueuedInputState) {
    (slots[|Take(slots, n)|..], Drain(queue, n - |Take(slots, n)|).0)
  }

  lemma TakenInParts(slots: seq<Option<QueuedInput>>, queue: QueuedInputState, a: nat, b: nat)
    ensures var (slots', queue') := Left(slots, queue, a);
      && Taken(slots, queue, a + b) == Taken(slots, queue, a) + Taken(slots', queue', b)
      && Left(slots, queue, a + b) == Left(slots', queue', b)
  {
    hide Held, Drain;
    var ra := Take(slots, a);
    var rb := Take(slots[|ra|..], b);
    TakeParts(slots, a, b);
    HeldConcat(ra, rb);
    DrainParts(queue, a - |ra|, b - |rb|);
    if a > |slots| {
      HeldNone(rb);
    } else {
      DrainNone(queue);
    }
  }

  lemma HeldNone(slots: seq<Option<QueuedInput>>)
    ensures slots == [] ==> Held(slots) == []
  {
  }

  lemma DrainNone(queue: QueuedInputState)
    ensures Drain(queue, 0) == (queue, [])
  {
  }

  /** The state a drain leaves, given what it takes. */
  lemma DrainIs(s: Projection, n: nat, turnID: Option<string>, messages: seq<Message>)
    requires messages == AppendDrainedInputs(s.messages, Taken(s.draining, s.queuedInput, n), turnID)
    ensures DrainQueuedInputs(s, n, turnID)
      == Projection(messages, Left(s.draining, s.queuedInput, n).1, Left(s.draining, s.queuedInput, n).0, s.compactAdmissionTurnID)
  {
  }

  /** Draining a and then b is draining a + b. */
  lemma DrainInParts(s: Projection, a: nat, b: nat, turnID: Option<string>)
    ensures DrainQueuedInputs(DrainQueuedInputs(s, a, turnID), b, turnID) == DrainQueuedInputs(s, a + b, turnID)
  {
    var (slots, queue) := Left(s.draining, s.queuedInput, a);
    var x, y := Taken(s.draining, s.queuedInput, a), Taken(slots, queue, b);
    var first := AppendDrainedInputs(s.messages, x, turnID);
    var mid := Projection(first, queue, slots, s.compactAdmissionTurnID);
    assert DrainQueuedInputs(s, a, turnID) == mid by { DrainIs(s, a, turnID, first); }
    var both := AppendDrainedInputs(first, y, turnID);
    assert both == AppendDrainedInputs(s.messages, x + y, turnID) by { AppendTwice(s.messages, x, y, turnID); }
    TakenInParts(s.draining, s.queuedInput, a, b);
    DrainIs(mid, b, turnID, both);
    DrainIs(s, a + b, turnID, both);
  }

  // ----- what happens between the announcement and the drain -----

  /** Everything but a drain, and the end of a turn, which empties the queue. */
  predicate KeepsAnnounced(e: BrowserEvent) {
    !e.payload.PendingDrained? && !e.payload.TurnCompleted? && !e.payload.TurnErrored?
  }

  /** Announced slots stay in front, whatever is announced after them. */
  lemma EventKeepsAnnounced(s: Projection, e: BrowserEvent)
    requires KeepsAnnounced(e)
    ensures s.draining <= After(s, e).draining
  {
    hide AppendLiveTurn, ApplyToolResult, ApplyToolRequested, ApplyToolOutputDelta, Enqueue;
    hide AppendPolicyTrace, ProjectPendingCompact, ClearLocalCompact, FilterMessages, Drain, Slots;
  }

  lemma {:induction false} EventsKeepAnnounced(s: Projection, es: seq<BrowserEvent>)
    requires forall i | 0 <= i < |es| :: KeepsAnnounced(es[i])
    ensures s.draining <= Reduce(s, es).draining
    decreases |es|
  {
    hide After, KeepsAnnounced;
    if es != [] {
      var next := After(s, es[0]);
      EventKeepsAnnounced(s, es[0]);
      EventsKeepAnnounced(next, es[1..]);
      PrefixOfPrefix(s.draining, next.draining, Reduce(next, es[1..]).draining);
    }
  }

  /** Draining what is announced leaves the queue alone. */
  lemma DrainFromSlots(t: Projection, slots: seq<Option<QueuedInput>>, turnID: Option<string>)
    requires slots <= t.draining
    ensures DrainQueuedInputs(t, |slots|, turnID)
      == t.(draining := t.draining[|slots|..], messages := AppendDrainedInputs(t.messages, Held(slots), turnID))
  {
    assert Take(t.draining, |slots|) == slots;
    assert Held(slots) + [] == Held(slots);
  }

  /** What is held after n more were announced. */
  lemma HeldAfterAnnouncing(s: Projection, n: nat)
    ensures |ReserveDraining(s, n).draining| == |s.draining| + n
    ensures Held(ReserveDraining(s, n).draining) == Held(s.draining) + Take(s.queuedInput.items, n)
  {
    var taken := Take(s.queuedInput.items, n);
    if n > 0 {
      HeldConcat(s.draining, Slots(taken, n));
      HeldSlots(taken, n);
    } else {
      assert taken == [];
    }
  }

  /** Whatever happens between announcing n more inputs and draining all that
      was announced - inputs queued, dropped, promoted or consumed, turns begun,
      more inputs announced, anything but a drain or the end of a turn - the
      drain shows exactly the inputs announced by then, in order, and leaves the
      queue and later announcements as those events made them. */
  lemma LaterInputsAreNotDrained(s: Projection, n: nat, between: seq<BrowserEvent>, turnID: Option<string>)
    requires forall i | 0 <= i < |between| :: KeepsAnnounced(between[i])
    ensures
      var t, announced := Reduce(ReserveDraining(s, n), between), |s.draining| + n;
      && announced <= |t.draining|
      && DrainQueuedInputs(t, announced, turnID)
        == t.(draining := t.draining[announced..],
              messages := AppendDrainedInputs(t.messages, Held(s.draining) + Take(s.queuedInput.items, n), turnID))
  {
    hide Reduce, KeepsAnnounced, DrainQueuedInputs, ReserveDraining, Held;
    EventsKeepAnnounced(ReserveDraining(s, n), between);
    HeldAfterAnnouncing(s, n);
    DrainFromSlots(Reduce(ReserveDraining(s, n), between), ReserveDraining(s, n).draining, turnID);
  }
}
