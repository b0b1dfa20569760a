/** Taking an observation's text apart again in the browser. */
module ObservationParser {
  import opened JsText
  import opened Unicode
  import opened JsonString
  import opened Transcript

  datatype Envelope = Envelope(observableID: Option<Text>, content: Text, detail: Text, footer: Text)

  datatype Display = Display(image: bool, sourcePath: Text, artifactPath: Text, mediaType: Text, bytes: nat)

  const MAX_SAFE_INTEGER := 9007199254740991

  predicate NotNewline(u: CodeUnit) {
    u != 10
  }

  predicate InLine(u: CodeUnit) {
    u != 10 && u != 13
  }

  predicate NotSpace(u: CodeUnit) {
    !IsSpace(u)
  }

  predicate InMediaType(u: CodeUnit) {
    u != 44 && u != 10 && u != 13
  }

  // ----- finding lines -----

  /** The start of the first line whose text from there on satisfies `at`. */
  function FirstLine(t: Text, at: Text -> bool): (r: Option<nat>)
    ensures r.Some? ==> r.value <= |t|
    decreases |t|
  {
    if at(t) then Some(0)
    else
      var n := Run(t, NotNewline);
      if n == |t| then None
      else
        var r := FirstLine(t[n + 1..], at);
        if r.None? then None else Some(n + 1 + r.value)
  }

  lemma {:induction false} FirstLineHolds(t: Text, at: Text -> bool)
    ensures var r := FirstLine(t, at); r.Some? ==> at(t[r.value..])
    decreases |t|
  {
    var n := Run(t, NotNewline);
    if at(t) {
      assert t[0..] == t;
    } else if n < |t| {
      FirstLineHolds(t[n + 1..], at);
      var r := FirstLine(t[n + 1..], at);
      if r.Some? { assert t[n + 1..][r.value..] == t[n + 1 + r.value..]; }
    }
  }

  function StartsWith(prefix: Text): Text -> bool {
    (t: Text) => prefix <= t
  }

  /** "content:" alone on its line. */
  predicate ContentLine(t: Text) {
    Units("content:\n") <= t || Units("content:\r\n") <= t
  }

  /** Where the line break before a line begins. */
  function BreakBefore(t: Text, start: nat): (r: nat)
    requires start <= |t|
    ensures r <= start
  {
    if start == 0 then 0
    else if start >= 2 && t[start - 2] == 13 then start - 2
    else start - 1
  }

  /** The rest of the first line with text on it, trimmed. */
  function ValueIn(t: Text): Option<Text> {
    var r := Run(t, IsSpace);
    if r == |t| then None else Some(Trim(t[r..r + Run(t[r..], InLine)]))
  }

  /** lineValue */
  function LineValue(t: Text, name: Text): Option<Text> {
    var at := FirstLine(t, StartsWith(name + [58]));
    FirstLineHolds(t, StartsWith(name + [58]));
    if at.None? then None else ValueIn(t[at.value + |name| + 1..])
  }

  /** unsignedInteger */
  function UnsignedInteger(value: Option<Text>): Option<nat> {
    if value.None? || value.value == [] || Run(value.value, IsDigit) < |value.value| then None
    else
      var n := DecimalValue(value.value);
      if n <= MAX_SAFE_INTEGER then Some(n) else None
  }

  // ----- counting octets -----

  /** The octets of a code point in UTF-8, as the browser reckons them. */
  function Width(codePoint: nat): nat {
    if codePoint <= 0x7F then 1 else if codePoint <= 0x7FF then 2 else if codePoint <= 0xFFFF then 3 else 4
  }

  /** The position at which exactly `want` more octets have been passed. */
  function PrefixFrom(t: Text, i: nat, want: nat): (r: Option<nat>)
    requires i <= |t|
    ensures r.Some? ==> i <= r.value <= |t|
    decreases |t| - i
  {
    if want == 0 then Some(i)
    else if i == |t| then None
    else
      var (codePoint, size) := CodePointAt(t, i);
      var w := Width(codePoint);
      if w > want then None else PrefixFrom(t, i + size, want - w)
  }

  /** utf8PrefixCodeUnits */
  method Utf8PrefixCodeUnits(t: Text, byteLength: nat) returns (r: Option<nat>)
    ensures r == PrefixFrom(t, 0, byteLength)
  {
    if byteLength == 0 { return Some(0); }
    var bytes, codeUnits := 0, 0;
    while codeUnits < |t|
      invariant 0 <= codeUnits <= |t| && 0 <= bytes < byteLength
      invariant PrefixFrom(t, 0, byteLength) == PrefixFrom(t, codeUnits, byteLength - bytes)
    {
      var (codePoint, size) := CodePointAt(t, codeUnits);
      bytes := bytes + Width(codePoint);
      if bytes > byteLength { return None; }
      codeUnits := codeUnits + size;
      if bytes == byteLength { return Some(codeUnits); }
    }
    return None;
  }

  // ----- the envelope -----

  /** observationAttachmentFooter */
  function AttachmentFooter(t: Text): Text {
    var footer := if Units("\r\n") <= t then t[2..] else if Units("\n") <= t then t[1..] else t;
    if (|| Units("attachments:\n- image source=") <= footer || Units("attachments:\n- file source=") <= footer
        || Units("attachments:\r\n- image source=") <= footer || Units("attachments:\r\n- file source=") <= footer)
    then footer else []
  }

  /** parseObservationTextEnvelope */
  function ParseEnvelope(text: Text): Option<Envelope> {
    var n := Run(text, NotNewline);
    var firstLine := if n < |text| && n > 0 && text[n - 1] == 13 then text[..n - 1] else text[..n];
    if Trim(firstLine) != Units("Observable observation") then None
    else Some(ParseDetail(if n == |text| then [] else text[n + 1..]))
  }

  function ParseDetail(detail: Text): Envelope {
    var start := FirstLine(detail, ContentLine);
    FirstLineHolds(detail, ContentLine);
    if start.None? then Envelope(LineValue(detail, Units("observable_id")), [], detail, [])
    else
      var metadata := detail[..BreakBefore(detail, start.value)];
      var contentStart := start.value + 8 + if detail[start.value + 8] == 13 then 2 else 1;
      var contentBytes := UnsignedInteger(LineValue(metadata, Units("content_bytes")));
      var rest := detail[contentStart..];
      var length := if contentBytes.Some? then PrefixFrom(rest, 0, contentBytes.value) else None;
      if length.None? then Envelope(LineValue(metadata, Units("observable_id")), rest, detail, [])
      else Envelope(LineValue(metadata, Units("observable_id")), rest[..length.value], detail, AttachmentFooter(rest[length.value..]))
  }

  // ----- attachments -----

  function SplitLines(t: Text): (r: seq<Text>)
    ensures |r| > 0
    decreases |t|
  {
    var n := Run(t, NotNewline);
    if n == |t| then [t]
    else [if n > 0 && t[n - 1] == 13 then t[..n - 1] else t[..n]] + SplitLines(t[n + 1..])
  }

  /** What follows "source=": the literal, and then the rest of the line. */
  function ParseSource(image: bool, t: Text): Option<Display> {
    if t == [] || t[0] != QUOTE then None
    else
      var n := BodyLength(t[1..]);
      if n.None? then None
      else
        var rest := t[n.value + 2..];
        var source := Unescape(t[1..1 + n.value]);
        if source.None? || !(Units(" artifact=") <= rest) then None
        else ParseArtifact(image, source.value, rest[10..])
  }

  function ParseArtifact(image: bool, source: Text, t: Text): Option<Display> {
    var n := Run(t, NotSpace);
    if n == 0 || !(Units(" (") <= t[n..]) then None
    else ParseMedia(image, source, t[..n], t[n + 2..])
  }

  function ParseMedia(image: bool, source: Text, artifact: Text, t: Text): Option<Display> {
    var n := Run(t, InMediaType);
    if n == 0 || !(Units(", ") <= t[n..]) then None
    else ParseBytes(image, source, artifact, Trim(t[..n]), t[n + 2..])
  }

  function ParseBytes(image: bool, source: Text, artifact: Text, mediaType: Text, t: Text): Option<Display> {
    var n := Run(t, IsDigit);
    if n == 0 || !(Units(" bytes") <= t[n..]) then None
    else if Closes(t[n + 6..]) then Some(Display(image, source, artifact, mediaType, DecimalValue(t[..n])))
    else None
  }

  predicate NotClosing(u: CodeUnit) {
    u != 10 && u != 13 && u != 41
  }

  /** The end of the line: a parenthesis, perhaps after a comma and more. */
  predicate Closes(t: Text) {
    t != [] && (t[0] == 41 || t[0] == 44) && (var n := Run(t, NotClosing); n + 1 == |t| && t[n] == 41)
  }

  /** One line of the list. */
  function ParseItem(line: Text): Option<Display> {
    if Units("- image source=") <= line then ParseSource(true, line[15..])
    else if Units("- file source=") <= line then ParseSource(false, line[14..])
    else None
  }

  /** Items up to the first line that is none. */
  function ParseItems(lines: seq<Text>): seq<Display> {
    if lines == [] then []
    else
      var d := ParseItem(lines[0]);
      if d.None? then [] else [d.value] + ParseItems(lines[1..])
  }

  function Attachments(t: Text): seq<Display> {
    var lines := SplitLines(t);
    if lines[0] != Units("attachments:") then [] else ParseItems(lines[1..])
  }

  /** parseObservationAttachments */
  method ParseObservationAttachments(text: Text) returns (attachments: seq<Display>)
    ensures attachments == Attachments(text)
  {
    hide ParseItem, SplitLines, Units;
    attachments := [];
    var lines := SplitLines(text);
    if lines[0] != Units("attachments:") { return; }
    var i := 1;
    while i < |lines|
      invariant 1 <= i <= |lines|
      invariant Attachments(text) == attachments + ParseItems(lines[i..])
    {
      var d := ParseItem(lines[i]);
      if d.None? { break; }
      assert lines[i..][1..] == lines[i + 1..];
      attachments := attachments + [d.value];
      i := i + 1;
    }
  }
}
