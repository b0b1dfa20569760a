/** What a rendered observation says besides its id, content and attachments:
    each piece of metadata and each error stands on a line of its own. */
module ObservationLines {
  import opened Sequences
  import opened JsText
  import opened Unicode
  import opened ObservationText
  import opened ObservationParser
  import opened ObservationContent
  import opened ObservationFooter
  import opened ObservationRoundTrip

  /** A line of the text begins here. */
  predicate LineAt(t: Text, l: Text, k: nat) {
    && k + |l| <= |t| && t[k..k + |l|] == l
    && (k == 0 || t[k - 1] == NEWLINE)
    && (k + |l| == |t| || t[k + |l|] == NEWLINE)
  }

  /** The text has this line. */
  ghost predicate HasLine(t: Text, l: Text) {
    exists k: nat :: LineAt(t, l, k)
  }

  predicate Plain(l: Text) {
    l != [] && forall i | 0 <= i < |l| :: l[i] != NEWLINE
  }

  predicate AtLineStart(t: Text) {
    t == [] || t[|t| - 1] == NEWLINE
  }

  lemma {:induction false} TrimKeeps(t: Text, n: nat)
    requires 0 < n <= |t| && t[n - 1] != NEWLINE
    ensures var r := TrimNewlines(t); n <= |r| <= |t| && r == t[..|r|] && (|r| < |t| ==> t[|r|] == NEWLINE)
    decreases |t|
  {
    if n < |t| && t[|t| - 1] == NEWLINE {
      TrimKeeps(t[..|t| - 1], n);
    }
  }

  lemma LinesEnd(ls: seq<Text>)
    ensures AtLineStart(Lines(ls))
  {
    if ls != [] {
      LinesSnoc(ls[..|ls| - 1], ls[|ls| - 1]);
      assert ls[..|ls| - 1] + [ls[|ls| - 1]] == ls;
    }
  }

  lemma LineAfter(head: Text, l: Text, rest: Text)
    requires Plain(l) && AtLineStart(head)
    ensures HasLine(TrimNewlines(head + (l + ([NEWLINE] + rest))), l)
  {
    var t, k := head + (l + ([NEWLINE] + rest)), |head|;
    var n := k + |l|;
    assert t[n - 1] == l[|l| - 1] && t[n] == NEWLINE;
    TrimKeeps(t, n);
    hide TrimNewlines;
    assert LineAt(TrimNewlines(t), l, k);
  }

  lemma Regroup(front: Text, a: Text, l: Text, r: Text, after: Text)
    ensures front + (a + (l + [NEWLINE] + r)) + after == (front + a) + (l + ([NEWLINE] + (r + after)))
  {
    var x := l + [NEWLINE];
    Associative(front, a, x + r);
    Associative(front + a, x + r, after);
    Associative(x, r, after);
    Associative(l, [NEWLINE], r + after);
  }

  lemma SplitAt(front: Text, ls: seq<Text>, after: Text, i: nat)
    requires i < |ls|
    ensures front + Lines(ls) + after == (front + Lines(ls[..i])) + (ls[i] + ([NEWLINE] + (Lines(ls[i + 1..]) + after)))
  {
    assert ls[..i] + ls[i..] == ls;
    LinesConcat(ls[..i], ls[i..]);
    assert ls[i..][0] == ls[i] && ls[i..][1..] == ls[i + 1..];
    assert Lines(ls[i..]) == ls[i] + [NEWLINE] + Lines(ls[i + 1..]);
    hide Lines;
    Regroup(front, Lines(ls[..i]), ls[i], Lines(ls[i + 1..]), after);
  }

  /** A line is found among others, whatever stands before and after them, and
      the final trim does not touch it. */
  lemma LineShown(front: Text, ls: seq<Text>, after: Text, i: nat)
    requires i < |ls| && Plain(ls[i]) && AtLineStart(front)
    ensures HasLine(TrimNewlines(front + Lines(ls) + after), ls[i])
  {
    hide Lines, HasLine, TrimNewlines, Plain;
    SplitAt(front, ls, after, i);
    LinesEnd(ls[..i]);
    assert AtLineStart(front + Lines(ls[..i]));
    LineAfter(front + Lines(ls[..i]), ls[i], Lines(ls[i + 1..]) + after);
  }

  // ----- the metadata -----

  lemma MetadataLine(r: Record, report: Report, i: nat)
    requires i <= |Front(r)| && Plain((Front(r) + [LengthLine(r)])[i])
    ensures HasLine(Rendered(r, report), (Front(r) + [LengthLine(r)])[i])
  {
    hide Front, LengthLine, Footer, ContentSection, Units, HasLine, Lines, TrimNewlines;
    var ls, after := Front(r) + [LengthLine(r)], ContentSection(r) + Footer(r, report);
    LineShown(Title() + [NEWLINE], ls, after, i);
    Associative(Title() + [NEWLINE] + Lines(ls), ContentSection(r), Footer(r, report));
  }

  lemma NamedPlain(name: string, value: Text)
    requires name != "" && (forall i | 0 <= i < |name| :: ' ' <= name[i] < 128 as char)
    requires SingleLine(value)
    ensures Plain(Units(name) + value)
  {
    var l := Units(name) + value;
    forall i | 0 <= i < |l| ensures l[i] != NEWLINE {
      if i < |name| { assert l[i] == Units(name)[i]; } else { assert l[i] == value[i - |name|] && InLine(value[i - |name|]); }
    }
  }

  lemma FrontLine(r: Record, report: Report, name: string, value: Text, i: nat)
    requires name != "" && (forall k | 0 <= k < |name| :: ' ' <= name[k] < 128 as char)
    requires SingleLine(value) && i <= |Front(r)| && (Front(r) + [LengthLine(r)])[i] == Units(name) + value
    ensures HasLine(Rendered(r, report), Units(name) + value)
  {
    hide Front, LengthLine, Rendered, HasLine, Units, Plain;
    NamedPlain(name, value);
    MetadataLine(r, report, i);
  }

  lemma IDsShown(r: Record, report: Report)
    requires GoodRecord(r)
    ensures var t := Rendered(r, report);
      && HasLine(t, Units("observation_id: ") + r.id) && HasLine(t, Units("observable_id: ") + r.observableID)
      && HasLine(t, Units("kind: ") + r.kind) && HasLine(t, Units("severity: ") + r.severity)
  {
    hide HasLine, Rendered, SignedDecimal, Units, SingleLine, LengthLine;
    FrontLine(r, report, "observation_id: ", r.id, 0);
    FrontLine(r, report, "observable_id: ", r.observableID, 1);
    FrontLine(r, report, "kind: ", r.kind, 2);
    FrontLine(r, report, "severity: ", r.severity, 3);
  }

  lemma RestShown(r: Record, report: Report)
    requires GoodRecord(r)
    ensures var t := Rendered(r, report);
      && HasLine(t, Units("window_start: ") + SignedDecimal(r.windowStart))
      && HasLine(t, Units("window_end: ") + SignedDecimal(r.windowEnd))
      && HasLine(t, Units("content_bytes: ") + Decimal(|Utf8(r.content)|))
  {
    hide HasLine, Rendered, SignedDecimal, Units, SingleLine;
    NumberInLine(r.windowStart);
    NumberInLine(r.windowEnd);
    DecimalInLine(|Utf8(r.content)|);
    FrontLine(r, report, "window_start: ", SignedDecimal(r.windowStart), 4);
    FrontLine(r, report, "window_end: ", SignedDecimal(r.windowEnd), 5);
    FrontLine(r, report, "content_bytes: ", Decimal(|Utf8(r.content)|), |Front(r)|);
  }

  /** What the record says of itself is there line by line; that it was cut, and
      the artifact that holds the whole, where this is so. */
  lemma MetadataShown(r: Record, report: Report)
    requires GoodRecord(r)
    ensures var t := Rendered(r, report);
      && HasLine(t, Units("observation_id: ") + r.id) && HasLine(t, Units("observable_id: ") + r.observableID)
      && HasLine(t, Units("kind: ") + r.kind) && HasLine(t, Units("severity: ") + r.severity)
      && HasLine(t, Units("window_start: ") + SignedDecimal(r.windowStart))
      && HasLine(t, Units("window_end: ") + SignedDecimal(r.windowEnd))
      && HasLine(t, Units("content_bytes: ") + Decimal(|Utf8(r.content)|))
      && (r.truncated ==> HasLine(t, Units("truncated: true")))
      && (r.artifactPath != [] ==> HasLine(t, Units("artifact_path: ") + r.artifactPath))
  {
    hide HasLine, Rendered, SignedDecimal, Units, SingleLine, LengthLine;
    IDsShown(r, report);
    RestShown(r, report);
    assert SingleLine([]) by { NothingInLine(); }
    assert Units("truncated: true") + [] == Units("truncated: true");
    if r.truncated { FrontLine(r, report, "truncated: true", [], 6); }
    if r.artifactPath != [] { FrontLine(r, report, "artifact_path: ", r.artifactPath, if r.truncated then 7 else 6); }
  }

  lemma NothingInLine()
    ensures SingleLine([])
  {
  }

  // ----- the errors -----

  /** Everything before the section of errors. */
  function UpToErrors(r: Record, report: Report): Text {
    Title() + [NEWLINE] + Lines(Front(r) + [LengthLine(r)]) + ContentSection(r) + AttachmentSection(report)
  }

  lemma SectionEnds(before: Text, title: Text, ls: seq<Text>)
    requires AtLineStart(before)
    ensures AtLineStart(before + Section(title, ls))
  {
    hide Lines;
    LinesEnd([title] + ls);
    if ls == [] { assert before + [] == before; }
  }

  lemma ContentEnds(before: Text, r: Record)
    ensures AtLineStart(before + ContentSection(r))
  {
    hide Units, Utf16;
  }

  lemma UpToErrorsEnds(r: Record, report: Report)
    ensures AtLineStart(UpToErrors(r, report))
    ensures Rendered(r, report) == TrimNewlines(UpToErrors(r, report) + ErrorSections(r, report))
  {
    hide ContentSection, Units, Lines, Front, Section, TrimNewlines, AtLineStart, ErrorSections, Items;
    var front := Title() + [NEWLINE] + Lines(Front(r) + [LengthLine(r)]);
    ContentEnds(front, r);
    SectionEnds(front + ContentSection(r), Units("attachments:"), Items(report.valid));
    Associative(front + ContentSection(r), AttachmentSection(report), ErrorSections(r, report));
  }

  lemma SectionLine(before: Text, title: Text, ls: seq<Text>, after: Text, i: nat)
    requires i < |ls| && Plain(ls[i]) && AtLineStart(before)
    ensures HasLine(TrimNewlines(before + (Section(title, ls) + after)), ls[i])
  {
    hide HasLine, Lines, TrimNewlines, Plain;
    LineShown(before, [title] + ls, after, i + 1);
    assert ([title] + ls)[i + 1] == ls[i];
    Associative(before, Lines([title] + ls), after);
  }

  /** Every error stands on a line of its own: of an attachment that could not
      be read, with its path where it has one, and of one that was not stored. */
  lemma ErrorsShown(r: Record, report: Report, i: nat)
    ensures i < |report.errors| && SingleLine(report.errors[i].path) && SingleLine(report.errors[i].error) ==>
      var e := report.errors[i];
      HasLine(Rendered(r, report), if e.path == [] then Units("- ") + e.error else Units("- ") + (e.path + Units(": ") + e.error))
    ensures i < |r.attachmentErrors| && SingleLine(r.attachmentErrors[i]) ==>
      HasLine(Rendered(r, report), Units("- ") + r.attachmentErrors[i])
  {
    if i < |report.errors| && SingleLine(report.errors[i].path) && SingleLine(report.errors[i].error) { ErrorShown(r, report, i); }
    if i < |r.attachmentErrors| && SingleLine(r.attachmentErrors[i]) { StoredShown(r, report, i); }
  }

  lemma ErrorShown(r: Record, report: Report, i: nat)
    requires i < |report.errors| && SingleLine(report.errors[i].path) && SingleLine(report.errors[i].error)
    ensures var e := report.errors[i];
      HasLine(Rendered(r, report), if e.path == [] then Units("- ") + e.error else Units("- ") + (e.path + Units(": ") + e.error))
  {
    hide HasLine, Rendered, UpToErrors, Section, Units, SingleLine, AtLineStart, Plain, TrimNewlines;
    var e := report.errors[i];
    var ls, stored := ErrorLines(report.errors), Section(Units("stored_attachment_errors:"), StoredLines(r.attachmentErrors));
    UpToErrorsEnds(r, report);
    ErrorLineIs(e);
    SectionLine(UpToErrors(r, report), Units("attachment_errors:"), ls, stored, i);
  }

  lemma ErrorLineIs(e: AttachmentError)
    requires SingleLine(e.path) && SingleLine(e.error)
    ensures Plain(ErrorLine(e))
    ensures ErrorLine(e) == if e.path == [] then Units("- ") + e.error else Units("- ") + (e.path + Units(": ") + e.error)
  {
    hide Units;
    if e.path == [] {
      assert Units("- ") + [] == Units("- ");
      NamedPlain("- ", e.error);
    } else {
      ColonInLine();
      BothInLine(e.path, Units(": "));
      BothInLine(e.path + Units(": "), e.error);
      NamedPlain("- ", e.path + Units(": ") + e.error);
      Associative(Units("- "), e.path + Units(": "), e.error);
    }
  }

  lemma ColonInLine()
    ensures SingleLine(Units(": "))
  {
  }

  lemma StoredShown(r: Record, report: Report, i: nat)
    requires i < |r.attachmentErrors| && SingleLine(r.attachmentErrors[i])
    ensures HasLine(Rendered(r, report), Units("- ") + r.attachmentErrors[i])
  {
    hide HasLine, Rendered, UpToErrors, Units, AtLineStart, Plain, TrimNewlines, Section;
    UpToErrorsEnds(r, report);
    var title, stored := Units("stored_attachment_errors:"), StoredLines(r.attachmentErrors);
    var before := UpToErrors(r, report) + Section(Units("attachment_errors:"), ErrorLines(report.errors));
    SectionEnds(UpToErrors(r, report), Units("attachment_errors:"), ErrorLines(report.errors));
    NamedPlain("- ", r.attachmentErrors[i]);
    SectionLine(before, title, stored, [], i);
    assert Section(title, stored) + [] == Section(title, stored);
    Associative(UpToErrors(r, report), Section(Units("attachment_errors:"), ErrorLines(report.errors)), Section(title, stored));
  }
}
