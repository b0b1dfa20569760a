/** Parsing a rendered observation recovers it, whatever its content says. */
module ObservationRoundTrip {
  import opened Sequences
  import opened JsText
  import opened Unicode
  import opened Transcript
  import opened ObservationText
  import opened ObservationParser
  import opened ObservationContent
  import opened ObservationFooter

  /** Metadata that stays on its lines, and a content whose length is exact in
      JavaScript. */
  predicate GoodRecord(r: Record) {
    && SingleLine(r.id) && SingleLine(r.observableID) && SingleLine(r.kind) && SingleLine(r.severity) && SingleLine(r.artifactPath)
    && |Utf8(r.content)| <= MAX_SAFE_INTEGER
  }

  /** The id as it is shown. A blank one is passed over, and the pattern goes on
      to the next line, which is the kind. */
  function ShownID(r: Record): Text {
    if Run(r.observableID, IsSpace) < |r.observableID| then Trim(r.observableID) else Trim(Units("kind: ") + r.kind)
  }

  /** Something follows the content, so that its end is not trimmed. */
  predicate HasFooter(r: Record, report: Report) {
    report.valid != [] || report.errors != [] || r.attachmentErrors != []
  }

  function ShownContent(r: Record, report: Report): Text {
    if HasFooter(r, report) then Utf16(r.content) else TrimNewlines(Utf16(r.content))
  }

  // ----- the metadata lines -----

  lemma BothInLine(a: Text, b: Text)
    requires SingleLine(a) && SingleLine(b)
    ensures SingleLine(a + b)
  {
  }

  lemma NumberInLine(n: int)
    ensures SingleLine(SignedDecimal(n))
  {
    if n < 0 { DecimalInLine(-n); BothInLine([45], Decimal(-n)); } else { DecimalInLine(n); }
  }

  /** A metadata line begins with its name, which none of the searches is for. */
  lemma NamedMisses(name: string, value: Text)
    requires name != "" && name[0] != 'c' && forall i | 0 <= i < |name| :: ' ' <= name[i] < 128 as char
    requires SingleLine(value)
    ensures Misses(Units(name) + value, ContentLine) && Misses(Units(name) + value, StartsWith(Units("content_bytes:")))
  {
    var l := Units(name) + value;
    BothInLine(Units(name), value);
    assert l[0] == Units(name)[0];
    assert Units("content:")[0] == 99 && Units("content_bytes:")[0] == 99;
    assert Differs(l, Units("content:")) && Differs(l, Units("content_bytes:"));
    DiffersFromContent(l);
    DiffersMisses(l, Units("content_bytes:"));
  }

  ghost predicate MissesBoth(l: Text) {
    Misses(l, ContentLine) && Misses(l, StartsWith(Units("content_bytes:")))
  }

  lemma TextMisses(r: Record)
    requires GoodRecord(r)
    ensures MissesBoth(Units("observation_id: ") + r.id) && MissesBoth(Units("observable_id: ") + r.observableID)
    ensures MissesBoth(Units("kind: ") + r.kind) && MissesBoth(Units("severity: ") + r.severity)
  {
    hide Misses, Units;
    NamedMisses("observation_id: ", r.id);
    NamedMisses("observable_id: ", r.observableID);
    NamedMisses("kind: ", r.kind);
    NamedMisses("severity: ", r.severity);
  }

  lemma RestMisses(r: Record)
    requires GoodRecord(r)
    ensures MissesBoth(Units("window_start: ") + SignedDecimal(r.windowStart))
    ensures MissesBoth(Units("window_end: ") + SignedDecimal(r.windowEnd))
    ensures MissesBoth(Units("truncated: true"))
    ensures r.artifactPath != [] ==> MissesBoth(Units("artifact_path: ") + r.artifactPath)
  {
    hide Misses, SignedDecimal, Units;
    NumberInLine(r.windowStart);
    NumberInLine(r.windowEnd);
    NamedMisses("window_start: ", SignedDecimal(r.windowStart));
    NamedMisses("window_end: ", SignedDecimal(r.windowEnd));
    NamedMisses("truncated: true", []);
    assert Units("truncated: true") + [] == Units("truncated: true");
    if r.artifactPath != [] { NamedMisses("artifact_path: ", r.artifactPath); }
  }

  lemma FrontMisses(r: Record, l: Text)
    requires GoodRecord(r) && l in Front(r)
    ensures MissesBoth(l)
  {
    hide MissesBoth, SignedDecimal, Units;
    TextMisses(r);
    RestMisses(r);
  }

  lemma LengthIsNoContent(r: Record)
    ensures Misses(LengthLine(r), ContentLine)
  {
    var l := LengthLine(r);
    DecimalInLine(|Utf8(r.content)|);
    BothInLine(Units("content_bytes: "), Decimal(|Utf8(r.content)|));
    assert l[7] == Units("content_bytes: ")[7] == 95 && Units("content:")[7] == 58;
    assert Differs(l, Units("content:"));
    DiffersFromContent(l);
  }

  // ----- values -----

  lemma ValueAt(t: Text, name: Text, start: nat, rest: Text)
    requires FirstLine(t, StartsWith(name + [58])) == Some(start)
    requires start + |name| + 1 <= |t| && t[start + |name| + 1..] == rest
    ensures LineValue(t, name) == ValueIn(rest)
  {
    hide FirstLine, Run, StartsWith, Trim, IsSpace;
  }

  /** The value on the first line with a name, once the lines before it are
      passed. */
  lemma ValueFound(ls: seq<Text>, name: Text, rest: Text)
    requires forall l | l in ls :: Misses(l, StartsWith(name + [58]))
    ensures LineValue(Lines(ls) + (name + [58] + rest), name) == ValueIn(rest)
  {
    hide LineValue, ValueIn, Lines;
    var t := name + [58] + rest;
    SkipLines(ls, t, StartsWith(name + [58]));
    AtOnce(t, StartsWith(name + [58]));
    assert (Lines(ls) + t)[|Lines(ls)| + |name| + 1..] == rest;
    ValueAt(Lines(ls) + t, name, |Lines(ls)|, rest);
  }

  lemma AtOnce(t: Text, at: Text -> bool)
    requires at(t)
    ensures FirstLine(t, at) == Some(0)
  {
  }

  lemma LengthLineIs(r: Record)
    ensures Units("content_bytes") + [58] == Units("content_bytes:")
    ensures LengthLine(r) == Units("content_bytes") + [58] + ([32] + Decimal(|Utf8(r.content)|))
  {
    assert Units("content_bytes: ") == Units("content_bytes") + [58] + [32];
  }

  /** The octet count is read back. */
  lemma LengthFound(r: Record)
    requires GoodRecord(r)
    ensures UnsignedInteger(LineValue(Metadata(r), Units("content_bytes"))) == Some(|Utf8(r.content)|)
  {
    hide Front, Units, UnsignedInteger, LengthLine;
    LengthLineIs(r);
    forall l | l in Front(r) ensures Misses(l, StartsWith(Units("content_bytes:"))) {
      FrontMisses(r, l);
    }
    ValueFound(Front(r), Units("content_bytes"), [32] + Decimal(|Utf8(r.content)|));
    DigitsShow(|Utf8(r.content)|);
  }

  lemma DigitsShow(n: nat)
    requires n <= MAX_SAFE_INTEGER
    ensures UnsignedInteger(ValueIn([32] + Decimal(n))) == Some(n)
  {
    hide ValueIn;
    var d := Decimal(n);
    DigitsAreText(n);
    DecimalInLine(n);
    ValueBeyond([32], d, []);
    assert d + [] == d;
    DecimalRoundTrip(n);
  }

  lemma DigitsAreText(n: nat)
    ensures var d := Decimal(n); !IsSpace(d[0]) && Trim(d) == d && Run(d, IsDigit) == |d|
  {
    var d := Decimal(n);
    assert IsDigit(d[0]) && IsDigit(d[|d| - 1]);
    TrimStartsAtText(d);
    RunIs(d, IsDigit, |d|);
  }

  lemma IDMisses(r: Record)
    requires GoodRecord(r)
    ensures Misses(Units("observation_id: ") + r.id, StartsWith(Units("observable_id:")))
  {
    var tag := Units("observation_id: ");
    assert tag[6] == 97 && tag[7] == 116 && Units("observable_id:")[6] == 97 && Units("observable_id:")[7] == 98;
    var l := tag + r.id;
    BothInLine(tag, r.id);
    assert l[7] == tag[7];
    assert Differs(l, Units("observable_id:"));
    DiffersMisses(l, Units("observable_id:"));
  }

  lemma KindBegins(kind: Text)
    ensures SingleLine(Units("kind: ")) && (Units("kind: ") + kind) != [] && !IsSpace((Units("kind: ") + kind)[0])
  {
    assert (Units("kind: ") + kind)[0] == 107;
  }

  lemma IDValue(r: Record, more: Text)
    requires GoodRecord(r)
    ensures ValueIn([32] + r.observableID + ([NEWLINE] + (Units("kind: ") + r.kind + ([NEWLINE] + more)))) == Some(ShownID(r))
  {
    hide Units, ValueIn, Utf8, Trim;
    var id, kind, tail := r.observableID, Units("kind: ") + r.kind, [NEWLINE] + more;
    if Run(id, IsSpace) < |id| {
      ValueAfter(id, [NEWLINE] + (kind + tail));
    } else {
      KindBegins(r.kind);
      BothInLine(Units("kind: "), r.kind);
      ValueBeyond([32] + id + [NEWLINE], kind, tail);
      assert [32] + id + ([NEWLINE] + (kind + tail)) == [32] + id + [NEWLINE] + (kind + tail);
    }
  }

  lemma ThreeLines(a: Text, b: Text, c: Text, more: seq<Text>, tail: Text)
    ensures Lines([a, b, c] + more) + tail == Lines([a]) + (b + ([NEWLINE] + (c + ([NEWLINE] + (Lines(more) + tail)))))
  {
    hide Lines;
    var ls := [a, b, c] + more;
    assert ls[1..][1..] == [c] + more && ls[1..] == [b, c] + more && ls[1..][1..][1..] == more;
    LinesHead(ls, tail);
    LinesHead(ls[1..], tail);
    LinesHead(ls[1..][1..], tail);
    Associative(c, [NEWLINE], Lines(more) + tail);
    Associative(b, [NEWLINE], c + ([NEWLINE] + (Lines(more) + tail)));
    OneLine(a);
  }

  lemma OneLine(a: Text)
    ensures Lines([a]) == a + [NEWLINE]
  {
    assert [a][1..] == [];
  }

  lemma FrontStarts(r: Record)
    ensures |Front(r)| >= 3
    ensures Front(r) == [Units("observation_id: ") + r.id, Units("observable_id") + [58] + ([32] + r.observableID), Units("kind: ") + r.kind]
      + Front(r)[3..]
  {
    hide SignedDecimal;
    assert Units("observable_id: ") == Units("observable_id") + [58] + [32];
    Associative(Units("observable_id") + [58], [32], r.observableID);
  }

  lemma FrontSplits(r: Record, tail: Text)
    ensures Lines(Front(r)) + tail ==
      Lines([Units("observation_id: ") + r.id])
      + (Units("observable_id") + [58] + ([32] + r.observableID + ([NEWLINE] + (Units("kind: ") + r.kind + ([NEWLINE] + (Lines(Front(r)[3..]) + tail))))))
  {
    hide SignedDecimal, Front, Units, Lines;
    FrontStarts(r);
    var c, more := Units("kind: ") + r.kind, Front(r)[3..];
    ThreeLines(Units("observation_id: ") + r.id, Units("observable_id") + [58] + ([32] + r.observableID), c, more, tail);
    Associative(Units("observable_id") + [58], [32] + r.observableID, [NEWLINE] + (c + ([NEWLINE] + (Lines(more) + tail))));
  }

  /** The id is read back, whatever follows the metadata. */
  lemma IDFound(r: Record, tail: Text)
    requires GoodRecord(r)
    ensures LineValue(Lines(Front(r)) + tail, Units("observable_id")) == Some(ShownID(r))
  {
    var name, more := Units("observable_id"), Lines(Front(r)[3..]) + tail;
    var rest := [32] + r.observableID + ([NEWLINE] + (Units("kind: ") + r.kind + ([NEWLINE] + more)));
    FrontSplits(r, tail);
    IDMisses(r);
    assert name + [58] == Units("observable_id:");
    ValueFound([Units("observation_id: ") + r.id], name, rest);
    IDValue(r, more);
  }

  // ----- the content -----

  /** What is left of the content and the footer after the final trim. */
  function Remains(r: Record, report: Report): Text {
    TrimNewlines(ContentSection(r) + Footer(r, report))
  }

  function Metadata(r: Record): Text {
    Lines(Front(r)) + LengthLine(r)
  }

  lemma ContentLineFound(r: Record, rest: Text)
    requires GoodRecord(r)
    ensures FirstLine(Metadata(r) + [NEWLINE] + rest, ContentLine) == Shifted(|Metadata(r)| + 1, FirstLine(rest, ContentLine))
  {
    var ls := Front(r) + [LengthLine(r)];
    LinesSnoc(Front(r), LengthLine(r));
    assert Lines(ls) == Metadata(r) + [NEWLINE];
    forall l | l in ls ensures Misses(l, ContentLine) {
      if l == LengthLine(r) { LengthIsNoContent(r); } else { FrontMisses(r, l); }
    }
    SkipLines(ls, rest, ContentLine);
  }

  lemma MetadataEnds(r: Record)
    ensures Metadata(r) != [] && IsDigit(Metadata(r)[|Metadata(r)| - 1])
  {
    var n := Decimal(|Utf8(r.content)|);
    assert LengthLine(r)[|LengthLine(r)| - 1] == n[|n| - 1] && IsDigit(n[|n| - 1]);
  }

  /** An envelope from its parts. */
  function EnvelopeOf(id: Text, rest: Text, detail: Text, length: Option<nat>): Envelope
    requires length.Some? ==> length.value <= |rest|
  {
    if length.None? then Envelope(Some(id), rest, detail, [])
    else Envelope(Some(id), rest[..length.value], detail, AttachmentFooter(rest[length.value..]))
  }

  lemma ParseDetailAt(detail: Text, start: nat, m: Text, rest: Text, id: Text, n: nat)
    requires FirstLine(detail, ContentLine) == Some(start)
    requires 2 <= start && start + 9 <= |detail| && detail[start - 2] != 13 && detail[start + 8] == 10
    requires detail[..start - 1] == m && detail[start + 9..] == rest
    requires LineValue(m, Units("observable_id")) == Some(id)
    requires UnsignedInteger(LineValue(m, Units("content_bytes"))) == Some(n)
    ensures ParseDetail(detail) == EnvelopeOf(id, rest, detail, PrefixFrom(rest, 0, n))
  {
    hide FirstLine, LineValue, UnsignedInteger, Units, PrefixFrom, AttachmentFooter, ContentLine;
  }

  /** A detail with a content line. */
  lemma ParseWithContent(r: Record, rest: Text)
    requires GoodRecord(r)
    ensures var detail := Metadata(r) + [NEWLINE] + (Units("content:\n") + rest);
      ParseDetail(detail) == EnvelopeOf(ShownID(r), rest, detail, PrefixFrom(rest, 0, |Utf8(r.content)|))
  {
    hide Front, Units, LineValue, UnsignedInteger, ShownID, PrefixFrom, AttachmentFooter, Run, FirstLine, ParseDetail;
    var m := Metadata(r);
    var line := Units("content:\n") + rest;
    var detail := m + [NEWLINE] + line;
    ContentLineFound(r, line);
    ContentBreak(line, rest);
    AtOnce(line, ContentLine);
    var start := |m| + 1;
    assert detail[start..] == line;
    assert detail[start + 8] == line[8];
    assert detail[start + 9..] == rest;
    MetadataEnds(r);
    assert detail[start - 2] == m[|m| - 1];
    assert detail[..start - 1] == m;
    LengthFound(r);
    IDFound(r, LengthLine(r));
    ParseDetailAt(detail, start, m, rest, ShownID(r), |Utf8(r.content)|);
  }

  lemma ContentBreak(line: Text, rest: Text)
    requires line == Units("content:\n") + rest
    ensures |line| >= 9 && line[8] == 10 && line[9..] == rest && ContentLine(line)
  {
    assert line[8] == Units("content:\n")[8];
  }

  /** A detail whose content line was trimmed away. */
  lemma ParseWithoutContent(r: Record)
    requires GoodRecord(r)
    ensures var e := ParseDetail(Metadata(r) + [NEWLINE] + Units("content:"));
      e.observableID == Some(ShownID(r)) && e.content == [] && e.footer == []
  {
    hide Front, Units, LineValue, UnsignedInteger, ShownID;
    var line := Units("content:");
    ContentLineFound(r, line);
    NoLine(line);
    IDFound(r, LengthLine(r) + [NEWLINE] + line);
    assert Lines(Front(r)) + (LengthLine(r) + [NEWLINE] + line) == Metadata(r) + [NEWLINE] + line;
  }

  lemma NoLine(line: Text)
    requires line == Units("content:")
    ensures FirstLine(line, ContentLine) == None
  {
    RunIs(line, NotNewline, 8);
    assert |Units("content:\n")| == 9 && |Units("content:\r\n")| == 10;
  }

  lemma TitleEnds(name: string)
    requires name != "" && name[|name| - 1] == ':'
    ensures Units(name) != [] && Units(name)[|Units(name)| - 1] != NEWLINE
  {
  }

  lemma SectionIsText(name: string, ls: seq<Text>, rest: Text)
    requires name != "" && name[|name| - 1] == ':'
    ensures ls == [] ==> Section(Units(name), ls) == []
    ensures ls != [] ==> Section(Units(name), ls) + rest != [] && TrimNewlines(Section(Units(name), ls) + rest) != []
  {
    hide Units;
    if ls != [] {
      TitleEnds(name);
      SectionBegins(Units(name), ls);
      SectionShows(Units(name), [NEWLINE] + Lines(ls), rest);
    }
  }

  lemma FooterIsText(r: Record, report: Report)
    ensures HasFooter(r, report) <==> TrimNewlines(Footer(r, report)) != []
    ensures HasFooter(r, report) <==> Footer(r, report) != []
  {
    hide Units, Section;
    var stored := Section(Units("stored_attachment_errors:"), StoredLines(r.attachmentErrors));
    SectionIsText("attachments:", Items(report.valid), ErrorSections(r, report));
    SectionIsText("attachment_errors:", ErrorLines(report.errors), stored);
    SectionIsText("stored_attachment_errors:", StoredLines(r.attachmentErrors), []);
    assert |Items(report.valid)| == |report.valid| && |ErrorLines(report.errors)| == |report.errors|;
    assert |StoredLines(r.attachmentErrors)| == |r.attachmentErrors|;
    assert stored + [] == stored;
    assert [] + stored == stored;
    assert [] + ErrorSections(r, report) == ErrorSections(r, report);
  }

  lemma SectionShows(title: Text, body: Text, rest: Text)
    requires title != [] && title[|title| - 1] != NEWLINE
    ensures title + body + rest != [] && TrimNewlines(title + body + rest) != []
  {
    Associative(title, body, rest);
    TrimKeeps(title, body + rest);
  }

  /** The newline that ends the content, where it brings none of its own. */
  function Ending(r: Record): Text {
    if EndsWithNewline(Utf16(r.content)) then [] else [NEWLINE]
  }

  lemma SectionIsContent(r: Record)
    ensures ContentSection(r) == Units("content:\n") + (Utf16(r.content) + Ending(r))
  {
    assert Units("content:\n") == Units("content:") + [NEWLINE];
  }

  /** With a footer, everything before it stays as it is. */
  lemma ContentBeforeFooter(r: Record, report: Report)
    requires HasFooter(r, report)
    ensures Remains(r, report) == Units("content:\n") + (Utf16(r.content) + (Ending(r) + TrimNewlines(Footer(r, report))))
  {
    FooterIsText(r, report);
    SectionIsContent(r);
    TrimNewlinesConcat(ContentSection(r), Footer(r, report));
    Associative(Units("content:\n"), Utf16(r.content) + Ending(r), TrimNewlines(Footer(r, report)));
    Associative(Utf16(r.content), Ending(r), TrimNewlines(Footer(r, report)));
  }

  /** Without one, the content loses its newlines at the end. */
  lemma ContentAtEnd(r: Record, report: Report)
    requires !HasFooter(r, report)
    ensures var content := TrimNewlines(Utf16(r.content));
      Remains(r, report) == if content == [] then Units("content:") else Units("content:\n") + content
  {
    hide Footer, Utf16;
    FooterIsText(r, report);
    SectionIsContent(r);
    var content := Utf16(r.content);
    assert ContentSection(r) + [] == ContentSection(r);
    TrimNewlinesConcat(content, Ending(r));
    assert TrimNewlines(Ending(r)) == [];
    TrimNewlinesConcat(Units("content:\n"), content + Ending(r));
    TrimOneNewline(Units("content:"));
    assert Units("content:") + [NEWLINE] == Units("content:\n");
  }

  // ----- the theorem -----

  /** What parsing the detail of a rendered observation gives. */
  predicate Recovered(e: Envelope, r: Record, report: Report) {
    e.observableID == Some(ShownID(r)) && e.content == ShownContent(r, report) && Attachments(e.footer) == ShownAll(report.valid)
  }

  lemma WholeContentRead(r: Record, footer: Text)
    ensures PrefixFrom(Utf16(r.content) + footer, 0, |Utf8(r.content)|) == Some(|Utf16(r.content)|)
  {
    hide Utf16, Utf8, PrefixFrom;
    PrefixOfContent([], r.content, footer);
    assert [] + Utf16(r.content) + footer == Utf16(r.content) + footer && [] + Utf16(r.content) == Utf16(r.content);
  }

  lemma RecoveredWithFooter(r: Record, report: Report)
    requires GoodRecord(r) && GoodReport(report) && HasFooter(r, report)
    ensures Recovered(ParseDetail(Metadata(r) + [NEWLINE] + Remains(r, report)), r, report)
  {
    hide Metadata, Units, Footer, ShownAll, ParseDetail, AttachmentFooter, Attachments;
    hide Utf16, Utf8, PrefixFrom, Remains, GoodRecord, ShownID, TrimNewlines;
    var content, footer := Utf16(r.content), Ending(r) + TrimNewlines(Footer(r, report));
    ContentBeforeFooter(r, report);
    ParseWithContent(r, content + footer);
    WholeContentRead(r, footer);
    assert (content + footer)[..|content|] == content && (content + footer)[|content|..] == footer;
    FooterRoundTrip(r, report, Ending(r));
  }

  lemma RecoveredWithoutFooter(r: Record, report: Report)
    requires GoodRecord(r) && !HasFooter(r, report)
    ensures Recovered(ParseDetail(Metadata(r) + [NEWLINE] + Remains(r, report)), r, report)
  {
    hide ParseDetail, Metadata, AttachmentFooter, PrefixFrom, Units, Utf8, Front, Footer;
    var content := TrimNewlines(Utf16(r.content));
    ContentAtEnd(r, report);
    NoAttachments();
    if content == [] {
      ParseWithoutContent(r);
    } else {
      ParseWithContent(r, content);
      TrimmedContentRead(r);
    }
  }

  /** Counting octets in what is left of the content. */
  lemma TrimmedContentRead(r: Record)
    ensures var content := TrimNewlines(Utf16(r.content));
      var length := PrefixFrom(content, 0, |Utf8(r.content)|);
      length == None || (length == Some(|content|) && content[..|content|] == content && AttachmentFooter(content[|content|..]) == [])
  {
    var content := TrimNewlines(Utf16(r.content));
    var k := TrimContent(r.content);
    if k == |r.content| {
      assert r.content[..k] == r.content;
      PrefixOfContent([], r.content, []);
      assert [] + content + [] == content && [] + content == content;
      FooterOfNothing([]);
      assert content[|content|..] == [];
    } else {
      PrefixOfShort([], r.content[..k], |Utf8(r.content)|);
      assert [] + content == content;
    }
  }

  lemma TitleIsTrimmed()
    ensures SingleLine(Title()) && Title() != [] && Title()[|Title()| - 1] == 110 && Trim(Title()) == Title()
  {
    assert Title()[0] == 79 && Title()[|Title()| - 1] == 110;
    TrimStartsAtText(Title());
  }

  lemma TitledEnvelope(t: Text, n: nat)
    requires 0 < n < |t| && Run(t, NotNewline) == n && t[n - 1] != 13 && Trim(t[..n]) == Title()
    ensures ParseEnvelope(t) == Some(ParseDetail(t[n + 1..]))
  {
    hide Run, Trim, Units, ParseDetail, NotNewline;
  }

  lemma FirstOfTwo(a: Text, b: Text)
    ensures (a + ([NEWLINE] + b))[..|a|] == a && (a + ([NEWLINE] + b))[|a| + 1..] == b
  {
  }

  lemma TitleShows(rest: Text)
    ensures ParseEnvelope(Title() + [NEWLINE] + rest) == Some(ParseDetail(rest))
  {
    hide Run, Trim, Title, ParseEnvelope, ParseDetail;
    TitleIsTrimmed();
    RunInLine(Title(), [NEWLINE] + rest);
    FirstOfTwo(Title(), rest);
    TitledEnvelope(Title() + ([NEWLINE] + rest), |Title()|);
    Associative(Title(), [NEWLINE], rest);
  }

  lemma RemainsShow(r: Record, report: Report)
    ensures Remains(r, report) != []
  {
    hide Units, Footer, Utf16;
    TitleEnds("content:");
    var body := [NEWLINE] + (Utf16(r.content) + Ending(r));
    assert ContentSection(r) == Units("content:") + body;
    SectionShows(Units("content:"), body, Footer(r, report));
  }

  lemma RenderedIs(r: Record, report: Report)
    ensures Rendered(r, report) == Title() + [NEWLINE] + (Metadata(r) + [NEWLINE] + Remains(r, report))
  {
    hide Front, Footer, Units, Lines, LengthLine, ContentSection, TrimNewlines;
    var front, body := Title() + [NEWLINE] + Lines(Front(r) + [LengthLine(r)]), ContentSection(r) + Footer(r, report);
    Associative(front, ContentSection(r), Footer(r, report));
    TrimNewlinesConcat(front, body);
    RemainsShow(r, report);
    LinesSnoc(Front(r), LengthLine(r));
    Associative(Lines(Front(r)), LengthLine(r), [NEWLINE]);
    Associative(Title() + [NEWLINE], Metadata(r) + [NEWLINE], Remains(r, report));
  }

  /** The round trip: the id comes back trimmed, the content exactly unless
      nothing follows it, and the attachments in order, whatever lines the
      content holds. */
  lemma ObservationRoundTrip(r: Record, report: Report)
    requires GoodRecord(r) && GoodReport(report)
    ensures var e := ParseEnvelope(Rendered(r, report));
      && e.Some?
      && e.value.observableID == Some(ShownID(r))
      && e.value.content == ShownContent(r, report)
      && Attachments(e.value.footer) == ShownAll(report.valid)
  {
    RenderedIs(r, report);
    TitleShows(Metadata(r) + [NEWLINE] + Remains(r, report));
    if HasFooter(r, report) {
      RecoveredWithFooter(r, report);
    } else {
      RecoveredWithoutFooter(r, report);
    }
  }
}
