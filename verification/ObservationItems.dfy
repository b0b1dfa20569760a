/** Every attachment line is read back as the attachment it was written for. */
module ObservationItems {
  import opened Sequences
  import opened JsText
  import opened JsonString
  import opened Transcript
  import opened ObservationText
  import opened ObservationParser
  import opened ObservationContent

  /** What the media package promises of a validated attachment. */
  predicate GoodAttachment(a: Attachment) {
    && a.artifactPath != [] && (forall i | 0 <= i < |a.artifactPath| :: NotSpace(a.artifactPath[i]))
    && a.mediaType != [] && (forall i | 0 <= i < |a.mediaType| :: InMediaType(a.mediaType[i]))
    && (forall i | 0 <= i < |a.sha256| :: NotClosing(a.sha256[i]))
  }

  /** How an attachment is shown. */
  function Shown(a: Attachment): Display {
    Display(a.image, SourceOf(a), a.artifactPath, Trim(a.mediaType), a.bytes)
  }

  /** A piece of text is followed by something its characters exclude. */
  lemma RunOfPiece(piece: Text, rest: Text, p: CodeUnit -> bool)
    requires forall i | 0 <= i < |piece| :: p(piece[i])
    requires rest != [] && !p(rest[0])
    ensures Run(piece + rest, p) == |piece|
    ensures (piece + rest)[..|piece|] == piece && (piece + rest)[|piece|..] == rest
  {
    RunIs(piece + rest, p, |piece|);
  }

  lemma DigitsNotClosing(n: nat)
    ensures forall i | 0 <= i < |Decimal(n)| :: NotClosing(Decimal(n)[i])
  {
    forall i | 0 <= i < |Decimal(n)| ensures NotClosing(Decimal(n)[i]) {
      assert IsDigit(Decimal(n)[i]);
    }
  }

  lemma AllBoth(a: Text, b: Text, p: CodeUnit -> bool)
    requires forall i | 0 <= i < |a| :: p(a[i])
    requires forall i | 0 <= i < |b| :: p(b[i])
    ensures forall i | 0 <= i < |a + b| :: p((a + b)[i])
  {
  }

  /** What may stand before the closing parenthesis. */
  predicate Inside(t: Text) {
    forall i | 0 <= i < |t| :: NotClosing(t[i])
  }

  lemma InsideBoth(a: Text, b: Text)
    requires Inside(a) && Inside(b)
    ensures Inside(a + b)
  {
  }

  function SizePart(a: Attachment): Text {
    if a.width > 0 && a.height > 0 then Units(", ") + Decimal(a.width) + Units("x") + Decimal(a.height) else []
  }

  lemma SizeInside(a: Attachment)
    ensures Inside(SizePart(a)) && (SizePart(a) != [] ==> SizePart(a)[0] == 44)
  {
    if a.width > 0 && a.height > 0 {
      DigitsNotClosing(a.width);
      DigitsNotClosing(a.height);
      InsideBoth(Units(", "), Decimal(a.width));
      InsideBoth(Units(", ") + Decimal(a.width), Units("x"));
      InsideBoth(Units(", ") + Decimal(a.width) + Units("x"), Decimal(a.height));
      assert SizePart(a)[0] == Units(", ")[0];
    }
  }

  function HashPart(a: Attachment): Text {
    if a.sha256 != [] then Units(", sha256=") + a.sha256 else []
  }

  lemma HashInside(a: Attachment)
    requires GoodAttachment(a)
    ensures Inside(HashPart(a)) && (HashPart(a) != [] ==> HashPart(a)[0] == 44)
  {
    InsideBoth(Units(", sha256="), a.sha256);
    if a.sha256 != [] { assert HashPart(a)[0] == Units(", sha256=")[0]; }
  }

  lemma ClosingCloses(a: Attachment)
    requires GoodAttachment(a)
    ensures Closes(Closing(a))
  {
    var more := HashPart(a) + SizePart(a);
    assert Closing(a) == more + Units(")");
    hide HashPart, SizePart, Closing;
    HashInside(a);
    SizeInside(a);
    InsideBoth(HashPart(a), SizePart(a));
    assert Units(")") == [41];
    RunOfPiece(more, [41], NotClosing);
    assert more != [] ==> more[0] == 44;
  }

  lemma BytesParse(a: Attachment, image: bool, source: Text, artifact: Text, mediaType: Text)
    requires GoodAttachment(a)
    ensures ParseBytes(image, source, artifact, mediaType, BytesOn(a)) == Some(Display(image, source, artifact, mediaType, a.bytes))
  {
    hide Closing, Closes;
    var n, rest := Decimal(a.bytes), Units(" bytes") + Closing(a);
    assert BytesOn(a) == n + rest;
    RunOfPiece(n, rest, IsDigit);
    assert BytesOn(a)[|n| + 6..] == Closing(a);
    ClosingCloses(a);
    DecimalRoundTrip(a.bytes);
  }

  lemma MediaParse(a: Attachment, image: bool, source: Text, artifact: Text)
    requires GoodAttachment(a)
    ensures ParseMedia(image, source, artifact, MediaOn(a)) == ParseBytes(image, source, artifact, Trim(a.mediaType), BytesOn(a))
  {
    var rest := Units(", ") + BytesOn(a);
    assert MediaOn(a) == a.mediaType + rest;
    RunOfPiece(a.mediaType, rest, InMediaType);
    assert MediaOn(a)[|a.mediaType| + 2..] == BytesOn(a);
  }

  lemma ArtifactParse(a: Attachment, image: bool, source: Text)
    requires GoodAttachment(a)
    ensures ParseArtifact(image, source, ArtifactOn(a)) == ParseMedia(image, source, a.artifactPath, MediaOn(a))
  {
    var rest := Units(" (") + MediaOn(a);
    assert ArtifactOn(a) == a.artifactPath + rest;
    RunOfPiece(a.artifactPath, rest, NotSpace);
    assert ArtifactOn(a)[|a.artifactPath| + 2..] == MediaOn(a);
  }

  lemma SourceStep(image: bool, t: Text, n: nat, source: Text, rest: Text)
    requires n + 2 <= |t| && t[0] == QUOTE && BodyLength(t[1..]) == Some(n) && Unescape(t[1..1 + n]) == Some(source)
    requires t[n + 2..] == Units(" artifact=") + rest
    ensures ParseSource(image, t) == ParseArtifact(image, source, rest)
  {
    hide BodyLength, Unescape, ParseArtifact;
    assert t[n + 2..][10..] == rest;
  }

  lemma QuotedPieces(body: Text, after: Text)
    ensures var t := [QUOTE] + body + [QUOTE] + after;
      && t[1..] == body + ([QUOTE] + after) && t[1..1 + |body|] == body && t[|body| + 2..] == after
  {
  }

  lemma SourceWithBody(image: bool, source: Text, body: Text, rest: Text)
    requires BodyLength(body + ([QUOTE] + (Units(" artifact=") + rest))) == Some(|body|) && Unescape(body) == Some(source)
    ensures ParseSource(image, [QUOTE] + body + [QUOTE] + (Units(" artifact=") + rest)) == ParseArtifact(image, source, rest)
  {
    QuotedPieces(body, Units(" artifact=") + rest);
    SourceStep(image, [QUOTE] + body + [QUOTE] + (Units(" artifact=") + rest), |body|, source, rest);
  }

  lemma SourceParse(image: bool, source: Text, rest: Text)
    ensures ParseSource(image, Quoted(source) + Units(" artifact=") + rest) == ParseArtifact(image, source, rest)
  {
    BodyOfEscaped(source, [QUOTE] + (Units(" artifact=") + rest));
    JsonRoundTrip(source);
    SourceWithBody(image, source, Escape(source), rest);
    Associative(Quoted(source), Units(" artifact="), rest);
  }

  lemma ItemKind(image: bool, rest: Text)
    ensures ParseItem(Units(if image then "- image source=" else "- file source=") + rest) == ParseSource(image, rest)
  {
    var t := Units(if image then "- image source=" else "- file source=") + rest;
    if image {
      assert t[15..] == rest;
    } else {
      assert t[14..] == rest;
      assert t[2] != Units("- image source=")[2];
    }
  }

  /** One line. */
  lemma ItemRoundTrip(a: Attachment)
    requires GoodAttachment(a)
    ensures ParseItem(Item(a)) == Some(Shown(a))
  {
    ItemKind(a.image, Quoted(SourceOf(a)) + Units(" artifact=") + ArtifactOn(a));
    SourceParse(a.image, SourceOf(a), ArtifactOn(a));
    ArtifactParse(a, a.image, SourceOf(a));
    MediaParse(a, a.image, SourceOf(a), a.artifactPath);
    BytesParse(a, a.image, SourceOf(a), a.artifactPath, Trim(a.mediaType));
  }
}
