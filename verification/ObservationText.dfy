/** Rendering an observation as text for a model message. Strings are given as
    the browser receives them; the content also as Go counts it, in octets. */
module ObservationText {
  import opened Sequences
  import opened JsText
  import opened Unicode
  import opened JsonString

  /** A record; window times are in milliseconds. */
  datatype Record = Record(id: Text, observableID: Text, kind: Text, severity: Text, windowStart: int, windowEnd: int,
                           truncated: bool, artifactPath: Text, content: Str, attachmentErrors: seq<Text>)

  /** A validated attachment; `image` is the media package's verdict on its
      media type. */
  datatype Attachment = Attachment(image: bool, name: Text, path: Text, artifactPath: Text, mediaType: Text,
                                   bytes: nat, sha256: Text, width: int, height: int)

  datatype AttachmentError = AttachmentError(path: Text, error: Text)

  datatype Report = Report(valid: seq<Attachment>, errors: seq<AttachmentError>)

  const NEWLINE: CodeUnit := 10

  function SignedDecimal(n: int): Text {
    if n < 0 then [45] + Decimal(-n) else Decimal(n)
  }

  function TrimNewlines(t: Text): Text {
    if t != [] && t[|t| - 1] == NEWLINE then TrimNewlines(t[..|t| - 1]) else t
  }

  function EndsWithNewline(t: Text): bool {
    t != [] && t[|t| - 1] == NEWLINE
  }

  /** Every line with the newline that ends it. */
  function Lines(ls: seq<Text>): Text {
    if ls == [] then [] else ls[0] + [NEWLINE] + Lines(ls[1..])
  }

  lemma {:induction false} LinesConcat(a: seq<Text>, b: seq<Text>)
    ensures Lines(a + b) == Lines(a) + Lines(b)
  {
    if a == [] {
      assert a + b == b;
    } else {
      LinesConcat(a[1..], b);
      assert (a + b)[1..] == a[1..] + b;
    }
  }

  // ----- the text, as a specification -----

  function Title(): Text {
    Units("Observable observation")
  }

  /** The metadata lines that come before the content's length. */
  function Front(r: Record): seq<Text> {
    [Units("observation_id: ") + r.id,
     Units("observable_id: ") + r.observableID,
     Units("kind: ") + r.kind,
     Units("severity: ") + r.severity,
     Units("window_start: ") + SignedDecimal(r.windowStart),
     Units("window_end: ") + SignedDecimal(r.windowEnd)]
    + (if r.truncated then [Units("truncated: true")] else [])
    + (if r.artifactPath != [] then [Units("artifact_path: ") + r.artifactPath] else [])
  }

  function LengthLine(r: Record): Text {
    Units("content_bytes: ") + Decimal(|Utf8(r.content)|)
  }

  /** The content on lines of its own. */
  function ContentSection(r: Record): Text {
    var content := Utf16(r.content);
    Units("content:") + [NEWLINE] + content + (if EndsWithNewline(content) then [] else [NEWLINE])
  }

  /** One attachment's line, from its end backwards. */
  function Closing(a: Attachment): Text {
    (if a.sha256 != [] then Units(", sha256=") + a.sha256 else [])
    + (if a.width > 0 && a.height > 0 then Units(", ") + Decimal(a.width) + Units("x") + Decimal(a.height) else [])
    + Units(")")
  }

  function BytesOn(a: Attachment): Text {
    Decimal(a.bytes) + Units(" bytes") + Closing(a)
  }

  function MediaOn(a: Attachment): Text {
    a.mediaType + Units(", ") + BytesOn(a)
  }

  function ArtifactOn(a: Attachment): Text {
    a.artifactPath + Units(" (") + MediaOn(a)
  }

  function SourceOf(a: Attachment): Text {
    if a.name == [] then a.path else a.name
  }

  function Item(a: Attachment): Text {
    Units(if a.image then "- image source=" else "- file source=")
    + (Quoted(SourceOf(a)) + Units(" artifact=") + ArtifactOn(a))
  }

  function Items(valid: seq<Attachment>): seq<Text> {
    seq(|valid|, i requires 0 <= i < |valid| => Item(valid[i]))
  }

  function ErrorLine(e: AttachmentError): Text {
    Units("- ") + (if e.path != [] then e.path + Units(": ") else []) + e.error
  }

  function ErrorLines(errors: seq<AttachmentError>): seq<Text> {
    seq(|errors|, i requires 0 <= i < |errors| => ErrorLine(errors[i]))
  }

  function StoredLines(errors: seq<Text>): seq<Text> {
    seq(|errors|, i requires 0 <= i < |errors| => Units("- ") + errors[i])
  }

  /** A section with its title, unless it would be empty. */
  function Section(title: Text, ls: seq<Text>): Text {
    if ls != [] then Lines([title] + ls) else []
  }

  /** The sections that list errors. */
  function ErrorSections(r: Record, report: Report): Text {
    Section(Units("attachment_errors:"), ErrorLines(report.errors))
    + Section(Units("stored_attachment_errors:"), StoredLines(r.attachmentErrors))
  }

  function AttachmentSection(report: Report): Text {
    Section(Units("attachments:"), Items(report.valid))
  }

  /** Everything after the content. */
  function Footer(r: Record, report: Report): Text {
    AttachmentSection(report) + ErrorSections(r, report)
  }

  function Rendered(r: Record, report: Report): Text {
    TrimNewlines(Title() + [NEWLINE] + Lines(Front(r) + [LengthLine(r)]) + ContentSection(r) + Footer(r, report))
  }

  // ----- the builder -----

  lemma LinesSnoc(ls: seq<Text>, l: Text)
    ensures Lines(ls + [l]) == Lines(ls) + (l + [NEWLINE])
  {
    LinesConcat(ls, [l]);
    assert [l][1..] == [];
    assert Lines([l]) == l + [NEWLINE];
  }

  lemma NextLine(head: seq<Text>, ls: seq<Text>, i: nat)
    requires i < |ls|
    ensures Lines(head + ls[..i + 1]) == Lines(head + ls[..i]) + (ls[i] + [NEWLINE])
  {
    LinesSnoc(head + ls[..i], ls[i]);
    assert head + ls[..i] + [ls[i]] == head + ls[..i + 1];
  }

  method WriteSection(built: Text, title: Text, ls: seq<Text>) returns (sb: Text)
    ensures sb == built + Section(title, ls)
  {
    sb := built;
    if |ls| > 0 {
      sb := sb + (title + [NEWLINE]);
      LinesSnoc([], title);
      assert [] + [title] == [title];
      var i := 0;
      while i < |ls|
        invariant 0 <= i <= |ls|
        invariant sb == built + Lines([title] + ls[..i])
      {
        NextLine([title], ls, i);
        sb := sb + (ls[i] + [NEWLINE]);
        i := i + 1;
      }
      assert ls[..i] == ls;
    }
  }

  /** The metadata, line by line. */
  method WriteMetadata(built: Text, r: Record) returns (sb: Text)
    ensures sb == built + Lines(Front(r) + [LengthLine(r)])
  {
    hide Units, SignedDecimal;
    var lines := [Units("observation_id: ") + r.id, Units("observable_id: ") + r.observableID,
                  Units("kind: ") + r.kind, Units("severity: ") + r.severity,
                  Units("window_start: ") + SignedDecimal(r.windowStart), Units("window_end: ") + SignedDecimal(r.windowEnd)];
    if r.truncated { lines := lines + [Units("truncated: true")]; }
    if r.artifactPath != [] { lines := lines + [Units("artifact_path: ") + r.artifactPath]; }
    lines := lines + [LengthLine(r)];
    assert lines == Front(r) + [LengthLine(r)];
    sb := built;
    var i := 0;
    while i < |lines|
      invariant 0 <= i <= |lines|
      invariant sb == built + Lines(lines[..i])
    {
      LinesSnoc(lines[..i], lines[i]);
      assert lines[..i] + [lines[i]] == lines[..i + 1];
      sb := sb + (lines[i] + [NEWLINE]);
      i := i + 1;
    }
    assert lines[..i] == lines;
  }

  method TrimRight(t: Text) returns (r: Text)
    ensures r == TrimNewlines(t)
  {
    var n := |t|;
    assert t[..n] == t;
    while n > 0 && t[n - 1] == NEWLINE
      invariant 0 <= n <= |t|
      invariant TrimNewlines(t[..n]) == TrimNewlines(t)
    {
      assert t[..n][..n - 1] == t[..n - 1];
      n := n - 1;
    }
    r := t[..n];
  }

  /** The content's section: a newline is added only where one is missing. */
  method WriteContent(built: Text, r: Record) returns (sb: Text)
    ensures sb == built + ContentSection(r)
  {
    var content := Utf16(r.content);
    var section := Units("content:") + [NEWLINE] + content;
    if !EndsWithNewline(content) { section := section + [NEWLINE]; }
    sb := built + section;
  }

  /** renderObservationText */
  method RenderObservationText(r: Record, report: Report) returns (text: Text)
    ensures text == Rendered(r, report)
  {
    var sb := WriteMetadata(Title() + [NEWLINE], r);
    sb := WriteContent(sb, r);
    ghost var upToContent := sb;
    sb := WriteSection(sb, Units("attachments:"), Items(report.valid));
    sb := WriteSection(sb, Units("attachment_errors:"), ErrorLines(report.errors));
    sb := WriteSection(sb, Units("stored_attachment_errors:"), StoredLines(r.attachmentErrors));
    Associative(upToContent + AttachmentSection(report), Section(Units("attachment_errors:"), ErrorLines(report.errors)),
      Section(Units("stored_attachment_errors:"), StoredLines(r.attachmentErrors)));
    Associative(upToContent, AttachmentSection(report), ErrorSections(r, report));
    text := TrimRight(sb);
  }
}
