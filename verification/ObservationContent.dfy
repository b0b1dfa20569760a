/** The content between its markers: the octets Go counted are the characters
    the browser counts back, and lines are found where they were written. */
module ObservationContent {
  import opened Sequences
  import opened JsText
  import opened Unicode
  import opened Transcript
  import opened ObservationText
  import opened ObservationParser

  // ----- octets and code units -----

  lemma Utf16Head(s: Str)
    requires s != []
    ensures Utf16(s) == UnitsOf(s[0]) + Utf16(s[1..])
  {
  }

  lemma {:induction false} Utf16Concat(a: Str, b: Str)
    ensures Utf16(a + b) == Utf16(a) + Utf16(b)
    decreases |a|
  {
    if a == [] {
      assert a + b == b;
    } else {
      hide Utf16, UnitsOf;
      Utf16Concat(a[1..], b);
      assert (a + b)[1..] == a[1..] + b;
      Utf16Head(a + b);
      Utf16Head(a);
      Associative(UnitsOf(a[0]), Utf16(a[1..]), Utf16(b));
    }
  }

  lemma Utf8Head(s: Str)
    requires s != []
    ensures Utf8(s) == Octets(s[0]) + Utf8(s[1..])
  {
  }

  lemma {:induction false} Utf8Concat(a: Str, b: Str)
    ensures Utf8(a + b) == Utf8(a) + Utf8(b)
    decreases |a|
  {
    if a == [] {
      assert a + b == b;
    } else {
      hide Utf8, Octets;
      Utf8Concat(a[1..], b);
      assert (a + b)[1..] == a[1..] + b;
      Utf8Head(a + b);
      Utf8Head(a);
      assert Octets(a[0]) + (Utf8(a[1..]) + Utf8(b)) == Octets(a[0]) + Utf8(a[1..]) + Utf8(b);
    }
  }

  /** The widths agree with section 3 of RFC 3629. */
  lemma WidthIsOctets(c: Scalar)
    ensures Width(c as int) == |Octets(c)|
  {
  }

  lemma PrefixStep(before: Text, c: Scalar, after: Text, want: nat)
    requires want > 0
    ensures PrefixFrom(before + UnitsOf(c) + after, |before|, want) ==
      if |Octets(c)| > want then None
      else PrefixFrom(before + UnitsOf(c) + after, |before + UnitsOf(c)|, want - |Octets(c)|)
  {
    CodePointOf(c, before, after);
    WidthIsOctets(c);
  }

  lemma HeadUnits(before: Text, s: Str, rest: Text)
    requires s != []
    ensures before + UnitsOf(s[0]) + (Utf16(s[1..]) + rest) == before + Utf16(s) + rest
    ensures before + UnitsOf(s[0]) + Utf16(s[1..]) + rest == before + Utf16(s) + rest
    ensures before + UnitsOf(s[0]) + Utf16(s[1..]) == before + Utf16(s)
  {
    Regroup(before, UnitsOf(s[0]), Utf16(s[1..]), rest);
  }

  /** Counting as many octets as the text has ends exactly where it ends,
      whatever follows. */
  lemma {:induction false} PrefixOfContent(before: Text, s: Str, rest: Text)
    ensures PrefixFrom(before + Utf16(s) + rest, |before|, |Utf8(s)|) == Some(|before + Utf16(s)|)
    decreases |s|
  {
    if s != [] {
      HeadUnits(before, s, rest);
      PrefixStep(before, s[0], Utf16(s[1..]) + rest, |Utf8(s)|);
      PrefixOfContent(before + UnitsOf(s[0]), s[1..], rest);
    }
  }

  /** Counting more octets than the text has finds no end. */
  lemma {:induction false} PrefixOfShort(before: Text, s: Str, want: nat)
    requires want > |Utf8(s)|
    ensures PrefixFrom(before + Utf16(s), |before|, want) == None
    decreases |s|
  {
    if s != [] {
      HeadUnits(before, s, []);
      PrefixStep(before, s[0], Utf16(s[1..]), want);
      PrefixOfShort(before + UnitsOf(s[0]), s[1..], want - |Octets(s[0])|);
    }
  }

  /** Trimming newlines drops whole characters, and with them octets. */
  lemma {:induction false} TrimContent(s: Str) returns (k: nat)
    ensures k <= |s| && TrimNewlines(Utf16(s)) == Utf16(s[..k])
    ensures k < |s| ==> |Utf8(s[..k])| < |Utf8(s)|
    ensures k == |s| <==> !EndsWithNewline(Utf16(s))
  {
    if s == [] {
      k := 0;
    } else {
      var front, c := s[..|s| - 1], s[|s| - 1];
      assert s == front + [c];
      Utf16Concat(front, [c]);
      Utf8Concat(front, [c]);
      assert [c][1..] == [];
      assert Utf16([c]) == UnitsOf(c) + [] && Utf8([c]) == Octets(c) + [];
      var t := Utf16(s);
      assert t[|t| - 1] == UnitsOf(c)[|UnitsOf(c)| - 1];
      if t[|t| - 1] == NEWLINE {
        assert |UnitsOf(c)| == 1;
        assert t[..|t| - 1] == Utf16(front);
        k := TrimContent(front);
        assert front[..k] == s[..k];
        if k == |front| { assert front[..k] == front; }
      } else {
        k := |s|;
        assert s[..k] == s;
      }
    }
  }

  lemma {:induction false} TrimNewlinesConcat(a: Text, b: Text)
    ensures TrimNewlines(a + b) == if TrimNewlines(b) == [] then TrimNewlines(a) else a + TrimNewlines(b)
    decreases |b|
  {
    if b == [] {
      assert a + b == a;
    } else {
      assert (a + b)[|a + b| - 1] == b[|b| - 1];
      if b[|b| - 1] == NEWLINE {
        assert (a + b)[..|a + b| - 1] == a + b[..|b| - 1];
        TrimNewlinesConcat(a, b[..|b| - 1]);
      }
    }
  }

  // ----- lines -----

  predicate SingleLine(t: Text) {
    forall i | 0 <= i < |t| :: InLine(t[i])
  }

  lemma RunInLine(l: Text, rest: Text)
    requires SingleLine(l) && (rest == [] || rest[0] == NEWLINE)
    ensures Run(l + rest, InLine) == |l| && Run(l + rest, NotNewline) == |l|
  {
    forall i | 0 <= i < |l| ensures InLine((l + rest)[i]) && NotNewline((l + rest)[i]) {
      assert InLine(l[i]);
    }
    RunIs(l + rest, InLine, |l|);
    RunIs(l + rest, NotNewline, |l|);
  }

  /** The line differs from what is looked for. */
  predicate Differs(l: Text, wanted: Text) {
    exists i | 0 <= i < |l| && i < |wanted| :: l[i] != wanted[i]
  }

  /** No text that begins with this line is what the search looks for. */
  ghost predicate Misses(l: Text, at: Text -> bool) {
    SingleLine(l) && forall rest: Text :: !at(l + rest)
  }

  lemma DiffersMisses(l: Text, wanted: Text)
    requires SingleLine(l) && Differs(l, wanted)
    ensures Misses(l, StartsWith(wanted))
  {
    var i :| 0 <= i < |l| && i < |wanted| && l[i] != wanted[i];
    forall rest: Text ensures !StartsWith(wanted)(l + rest) {
      assert (l + rest)[i] == l[i];
    }
  }

  lemma DiffersFromContent(l: Text)
    requires SingleLine(l) && Differs(l, Units("content:"))
    ensures Misses(l, ContentLine)
  {
    var i :| 0 <= i < |l| && i < 8 && l[i] != Units("content:")[i];
    assert Units("content:\n")[i] == Units("content:")[i] && Units("content:\r\n")[i] == Units("content:")[i];
    forall rest: Text ensures !ContentLine(l + rest) {
      assert (l + rest)[i] == l[i];
    }
  }

  function Shifted(n: nat, r: Option<nat>): Option<nat> {
    if r.None? then None else Some(n + r.value)
  }

  /** The search passes a line that does not match. */
  lemma SkipLine(l: Text, rest: Text, at: Text -> bool)
    requires Misses(l, at)
    ensures FirstLine(l + [NEWLINE] + rest, at) == Shifted(|l| + 1, FirstLine(rest, at))
  {
    var t := l + [NEWLINE] + rest;
    assert t == l + ([NEWLINE] + rest);
    RunInLine(l, [NEWLINE] + rest);
    assert t[|l| + 1..] == rest;
  }

  lemma LinesHead(ls: seq<Text>, rest: Text)
    requires ls != []
    ensures Lines(ls) + rest == ls[0] + [NEWLINE] + (Lines(ls[1..]) + rest)
    ensures |Lines(ls)| == |ls[0]| + 1 + |Lines(ls[1..])|
  {
  }

  lemma {:induction false} SkipLines(ls: seq<Text>, rest: Text, at: Text -> bool)
    requires forall l | l in ls :: Misses(l, at)
    ensures FirstLine(Lines(ls) + rest, at) == Shifted(|Lines(ls)|, FirstLine(rest, at))
  {
    if ls == [] {
      assert Lines(ls) + rest == rest;
    } else {
      var l, tail := ls[0], ls[1..];
      assert FirstLine(Lines(tail) + rest, at) == Shifted(|Lines(tail)|, FirstLine(rest, at)) by {
        SkipLines(tail, rest, at);
      }
      SkipHead(l, Lines(tail) + rest, at, |Lines(tail)|, FirstLine(rest, at));
      LinesHead(ls, rest);
    }
  }

  lemma SkipHead(l: Text, after: Text, at: Text -> bool, n: nat, found: Option<nat>)
    requires Misses(l, at) && FirstLine(after, at) == Shifted(n, found)
    ensures FirstLine(l + [NEWLINE] + after, at) == Shifted(|l| + 1 + n, found)
  {
    SkipLine(l, after, at);
  }

  // ----- the value on a line -----

  lemma TrimStartsAtText(t: Text)
    requires t != [] && !IsSpace(t[0])
    ensures Trim(t) == TrimEnd(t)
  {
    RunIs(t, IsSpace, 0);
    assert t[0..] == t;
  }

  lemma RunOfSpaces(spaces: Text, rest: Text)
    requires forall i | 0 <= i < |spaces| :: IsSpace(spaces[i])
    requires rest != [] && !IsSpace(rest[0])
    ensures Run(spaces + rest, IsSpace) == |spaces|
  {
    RunIs(spaces + rest, IsSpace, |spaces|);
  }

  /** Spaces, even over the end of a line, and then a line of text. */
  lemma ValueBeyond(spaces: Text, shown: Text, tail: Text)
    requires (forall i | 0 <= i < |spaces| :: IsSpace(spaces[i])) && SingleLine(shown) && (tail == [] || tail[0] == NEWLINE)
    requires shown != [] && !IsSpace(shown[0])
    ensures ValueIn(spaces + (shown + tail)) == Some(Trim(shown))
  {
    hide Run, Trim, IsSpace, ValueIn;
    var t := spaces + (shown + tail);
    assert (shown + tail)[0] == shown[0];
    RunOfSpaces(spaces, shown + tail);
    assert t[|spaces|..] == shown + tail;
    RunInLine(shown, tail);
    assert t[|spaces|..|spaces| + |shown|] == shown;
    ValueIs(t, |spaces|, |shown|);
  }

  lemma ValueIs(t: Text, r: nat, n: nat)
    requires r == Run(t, IsSpace) < |t| && n == Run(t[r..], InLine)
    ensures r + n <= |t| && ValueIn(t) == Some(Trim(t[r..r + n]))
  {
    hide Run, Trim, IsSpace;
  }

  lemma TrimOfShown(value: Text, k: nat)
    requires k == Run(value, IsSpace) && k < |value|
    ensures Trim(value[k..]) == Trim(value)
  {
    TrimStartsAtText(value[k..]);
  }

  /** A value with something to show comes back trimmed. */
  lemma ValueAfter(value: Text, rest: Text)
    requires SingleLine(value) && (rest == [] || rest[0] == NEWLINE) && Run(value, IsSpace) < |value|
    ensures ValueIn([32] + value + rest) == Some(Trim(value))
  {
    hide ValueIn, Trim;
    var k := Run(value, IsSpace);
    var spaces, shown := [32] + value[..k], value[k..];
    TrimOfShown(value, k);
    assert SingleLine(shown);
    ValueBeyond(spaces, shown, rest);
    assert value == value[..k] + shown;
    Regroup([32], value[..k], shown, rest);
  }
}
