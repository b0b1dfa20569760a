/** The list of attachments after the content is found and read back in order. */
module ObservationFooter {
  import opened Sequences
  import opened JsText
  import opened JsonString
  import opened Transcript
  import opened ObservationText
  import opened ObservationParser
  import opened ObservationContent
  import opened ObservationItems

  predicate GoodReport(report: Report) {
    forall i | 0 <= i < |report.valid| :: GoodAttachment(report.valid[i])
  }

  function ShownAll(valid: seq<Attachment>): seq<Display> {
    seq(|valid|, i requires 0 <= i < |valid| => Shown(valid[i]))
  }

  // ----- an item is one line -----

  lemma {:induction false} EscapedInLine(t: Text)
    ensures SingleLine(Escape(t))
  {
    if t != [] {
      EscapedInLine(t[1..]);
      UnitInLine(t[0]);
      AllBoth(EscapeUnit(t[0]), Escape(t[1..]), InLine);
    }
  }

  lemma UnitInLine(u: CodeUnit)
    ensures SingleLine(EscapeUnit(u))
  {
  }

  lemma ClosingInLine(a: Attachment)
    requires GoodAttachment(a)
    ensures SingleLine(Closing(a)) && Closing(a) != [] && Closing(a)[|Closing(a)| - 1] == 41
  {
    ClosingCloses(a);
    var n := Run(Closing(a), NotClosing);
    forall i | 0 <= i < |Closing(a)| ensures InLine(Closing(a)[i]) {
      if i < n { assert NotClosing(Closing(a)[i]); }
    }
  }

  lemma DecimalInLine(n: nat)
    ensures SingleLine(Decimal(n))
  {
    forall i | 0 <= i < |Decimal(n)| ensures InLine(Decimal(n)[i]) {
      assert IsDigit(Decimal(n)[i]);
    }
  }

  lemma MediaInLine(a: Attachment)
    requires GoodAttachment(a)
    ensures SingleLine(MediaOn(a)) && MediaOn(a) != [] && MediaOn(a)[|MediaOn(a)| - 1] == 41
  {
    ClosingInLine(a);
    DecimalInLine(a.bytes);
    forall i | 0 <= i < |a.mediaType| ensures InLine(a.mediaType[i]) {
      assert InMediaType(a.mediaType[i]);
    }
    AllBoth(Decimal(a.bytes) + Units(" bytes"), Closing(a), InLine);
    AllBoth(a.mediaType + Units(", "), BytesOn(a), InLine);
  }

  lemma ItemInLine(a: Attachment)
    requires GoodAttachment(a)
    ensures SingleLine(Item(a)) && Item(a) != [] && Item(a)[|Item(a)| - 1] == 41
  {
    MediaInLine(a);
    EscapedInLine(SourceOf(a));
    forall i | 0 <= i < |a.artifactPath| ensures InLine(a.artifactPath[i]) {
      assert NotSpace(a.artifactPath[i]);
    }
    AllBoth(a.artifactPath + Units(" ("), MediaOn(a), InLine);
    AllBoth([QUOTE], Escape(SourceOf(a)), InLine);
    AllBoth(Quoted(SourceOf(a)), Units(" artifact="), InLine);
    AllBoth(Quoted(SourceOf(a)) + Units(" artifact="), ArtifactOn(a), InLine);
  }

  // ----- splitting -----

  lemma SplitLine(l: Text, rest: Text)
    requires SingleLine(l)
    ensures SplitLines(l + [NEWLINE] + rest) == [l] + SplitLines(rest)
  {
    var t := l + [NEWLINE] + rest;
    assert t == l + ([NEWLINE] + rest);
    RunInLine(l, [NEWLINE] + rest);
    assert t[..|l|] == l && t[|l| + 1..] == rest;
    assert l != [] ==> InLine(l[|l| - 1]);
  }

  lemma SplitSingle(l: Text)
    requires SingleLine(l)
    ensures SplitLines(l) == [l]
  {
    assert l + [] == l;
    RunInLine(l, []);
  }

  /** Lines that read as these attachments. */
  predicate Reads(ls: seq<Text>, ds: seq<Display>) {
    |ls| == |ds| && forall i | 0 <= i < |ls| :: SingleLine(ls[i]) && ParseItem(ls[i]) == Some(ds[i])
  }

  lemma {:induction false} ListParses(ls: seq<Text>, ds: seq<Display>, rest: Text)
    requires Reads(ls, ds)
    ensures ParseItems(SplitLines(Lines(ls) + rest)) == ds + ParseItems(SplitLines(rest))
    decreases |ls|
  {
    if ls == [] {
      assert Lines(ls) + rest == rest;
    } else {
      PartReads(ls, ds, 1, |ls|);
      assert ls[1..|ls|] == ls[1..] && ds[1..|ls|] == ds[1..];
      ListParses(ls[1..], ds[1..], rest);
      LineParses(ls[0], ds[0], Lines(ls[1..]) + rest);
      Heads(ds, ParseItems(SplitLines(rest)));
      LinesHead(ls, rest);
    }
  }

  lemma Heads(ds: seq<Display>, more: seq<Display>)
    requires ds != []
    ensures [ds[0]] + (ds[1..] + more) == ds + more
  {
  }

  lemma PartReads(ls: seq<Text>, ds: seq<Display>, i: nat, j: nat)
    requires Reads(ls, ds) && i <= j <= |ls|
    ensures Reads(ls[i..j], ds[i..j])
  {
  }

  lemma LineParses(l: Text, d: Display, tail: Text)
    requires SingleLine(l) && ParseItem(l) == Some(d)
    ensures ParseItems(SplitLines(l + [NEWLINE] + tail)) == [d] + ParseItems(SplitLines(tail))
  {
    SplitLine(l, tail);
    HeadParses(l, d, SplitLines(tail));
  }

  lemma HeadParses(l: Text, d: Display, lines: seq<Text>)
    requires ParseItem(l) == Some(d)
    ensures ParseItems([l] + lines) == [d] + ParseItems(lines)
  {
    assert ([l] + lines)[1..] == lines;
  }

  lemma OneParses(l: Text, d: Display)
    requires SingleLine(l) && ParseItem(l) == Some(d)
    ensures ParseItems(SplitLines(l)) == [d]
  {
    SplitSingle(l);
    HeadParses(l, d, []);
    assert [l] + [] == [l];
  }

  lemma ItemsRead(valid: seq<Attachment>)
    requires forall i | 0 <= i < |valid| :: GoodAttachment(valid[i])
    ensures Reads(Items(valid), ShownAll(valid))
  {
    forall i | 0 <= i < |valid|
      ensures SingleLine(Items(valid)[i]) && ParseItem(Items(valid)[i]) == Some(ShownAll(valid)[i])
    {
      ItemInLine(valid[i]);
      ItemRoundTrip(valid[i]);
    }
  }

  /** A text that does not begin with a dash lists nothing. */
  lemma NoItems(t: Text)
    requires t != [] && InLine(t[0]) && t[0] != 45
    ensures ParseItems(SplitLines(t)) == []
  {
    var line := SplitLines(t)[0];
    assert line != [] && line[0] == t[0] by {
      var n := Run(t, NotNewline);
      assert n > 0;
    }
    assert Units("- image source=")[0] == 45 && Units("- file source=")[0] == 45;
  }

  // ----- the footer -----

  lemma TrimKeeps(front: Text, rest: Text)
    requires front != [] && front[|front| - 1] != NEWLINE
    ensures TrimNewlines(front + rest) == front + TrimNewlines(rest)
  {
    TrimNewlinesConcat(front, rest);
    if TrimNewlines(rest) == [] { assert front + [] == front; }
  }

  lemma SectionBegins(title: Text, ls: seq<Text>)
    requires ls != []
    ensures Section(title, ls) == title + ([NEWLINE] + Lines(ls))
  {
    assert ([title] + ls)[1..] == ls;
  }

  /** The error sections begin with a title of their own. */
  lemma ErrorsBegin(r: Record, report: Report)
    requires ErrorSections(r, report) != []
    ensures var e := TrimNewlines(ErrorSections(r, report));
      && e != [] && InLine(e[0]) && e[0] != 45 && e[0] != 10 && e[0] != 13
      && (Units("attachment_errors:") <= e || e[0] == 115)
  {
    var stored := Section(Units("stored_attachment_errors:"), StoredLines(r.attachmentErrors));
    if report.errors != [] {
      var title := Units("attachment_errors:");
      SectionBegins(title, ErrorLines(report.errors));
      Associative(title, [NEWLINE] + Lines(ErrorLines(report.errors)), stored);
      TrimKeeps(title, [NEWLINE] + Lines(ErrorLines(report.errors)) + stored);
    } else {
      var title := Units("stored_attachment_errors:");
      assert ErrorSections(r, report) == stored;
      SectionBegins(title, StoredLines(r.attachmentErrors));
      TrimKeeps(title, [NEWLINE] + Lines(StoredLines(r.attachmentErrors)));
    }
  }

  predicate Opening(nl: Text) {
    nl == [] || nl == [NEWLINE]
  }

  /** Where no attachments are listed, none are read. */
  lemma NoFooter(r: Record, report: Report, nl: Text)
    requires Opening(nl) && report.valid == []
    ensures Attachments(AttachmentFooter(nl + TrimNewlines(Footer(r, report)))) == []
  {
    var e := TrimNewlines(ErrorSections(r, report));
    assert Footer(r, report) == ErrorSections(r, report);
    if e != [] {
      ErrorsBegin(r, report);
      NoAttachmentsTitle(e);
      FooterAfter(nl, e);
    } else {
      FooterOfNothing(nl);
      assert nl + e == nl;
    }
    NoAttachments();
  }

  lemma FooterOfNothing(nl: Text)
    requires Opening(nl)
    ensures AttachmentFooter(nl) == []
  {
    if nl == [NEWLINE] { assert nl[1..] == []; }
  }

  lemma NoAttachments()
    ensures Attachments([]) == []
  {
    var empty: Text := [];
    assert SplitLines(empty) == [empty];
    assert |Units("attachments:")| == 12;
  }

  predicate Announces(t: Text) {
    || Units("attachments:\n- image source=") <= t || Units("attachments:\n- file source=") <= t
    || Units("attachments:\r\n- image source=") <= t || Units("attachments:\r\n- file source=") <= t
  }

  lemma FooterAfter(nl: Text, t: Text)
    requires Opening(nl) && t != [] && t[0] != 10 && t[0] != 13
    ensures AttachmentFooter(nl + t) == if Announces(t) then t else []
  {
    var whole := nl + t;
    assert Units("\r\n")[0] == 13 && Units("\n")[0] == 10 && |Units("\n")| == 1;
    if nl == [] {
      assert whole == t;
    } else {
      assert whole[1..] == t;
      assert whole[0] == 10;
    }
  }

  lemma NoAttachmentsTitle(t: Text)
    requires t != [] && (Units("attachment_errors:") <= t || t[0] == 115)
    ensures !Announces(t)
  {
    if Units("attachment_errors:") <= t { assert t[10] == 95; }
    assert Units("attachments:\n- image source=")[10] == 115 && Units("attachments:\n- file source=")[10] == 115;
    assert Units("attachments:\r\n- image source=")[10] == 115 && Units("attachments:\r\n- file source=")[10] == 115;
    assert Units("attachments:\n- image source=")[0] == 97 && Units("attachments:\n- file source=")[0] == 97;
    assert Units("attachments:\r\n- image source=")[0] == 97 && Units("attachments:\r\n- file source=")[0] == 97;
  }

  lemma ImageAnnounces(t: Text, rest: Text)
    requires t == Units("attachments:") + [NEWLINE] + (Units("- image source=") + rest)
    ensures Announces(t)
  {
    var wanted := Units("attachments:\n- image source=");
    assert wanted == Units("attachments:") + [NEWLINE] + Units("- image source=");
    assert t == wanted + rest;
  }

  lemma FileAnnounces(t: Text, rest: Text)
    requires t == Units("attachments:") + [NEWLINE] + (Units("- file source=") + rest)
    ensures Announces(t)
  {
    var wanted := Units("attachments:\n- file source=");
    assert wanted == Units("attachments:") + [NEWLINE] + Units("- file source=");
    assert t == wanted + rest;
  }

  /** A line that introduces an image or a file. */
  predicate Introduces(l: Text) {
    Units("- image source=") <= l || Units("- file source=") <= l
  }

  lemma LineAnnounces(l: Text, rest: Text)
    requires Introduces(l)
    ensures Announces(Units("attachments:") + [NEWLINE] + (l + rest))
  {
    if Units("- image source=") <= l {
      assert l + rest == Units("- image source=") + (l[15..] + rest);
      ImageAnnounces(Units("attachments:") + [NEWLINE] + (l + rest), l[15..] + rest);
    } else {
      assert l + rest == Units("- file source=") + (l[14..] + rest);
      FileAnnounces(Units("attachments:") + [NEWLINE] + (l + rest), l[14..] + rest);
    }
  }

  lemma LinesAnnounce(ls: seq<Text>, tail: Text)
    requires if ls == [] then Introduces(tail) else Introduces(ls[0])
    ensures Announces(Units("attachments:") + [NEWLINE] + (Lines(ls) + tail))
  {
    if ls == [] {
      LineAnnounces(tail, []);
      assert Lines(ls) + tail == tail + [];
    } else {
      var rest := Lines(ls[1..]) + tail;
      LinesHead(ls, tail);
      LineAnnounces(ls[0], [NEWLINE] + rest);
      Associative(ls[0], [NEWLINE], rest);
    }
  }

  /** A list, and then text that lists nothing more or one item more. */
  lemma ListedFooter(nl: Text, ls: seq<Text>, ds: seq<Display>, tail: Text)
    requires Opening(nl) && Reads(ls, ds)
    requires if ls == [] then Introduces(tail) else Introduces(ls[0])
    ensures var t := Units("attachments:") + [NEWLINE] + (Lines(ls) + tail);
      Attachments(AttachmentFooter(nl + t)) == ds + ParseItems(SplitLines(tail))
  {
    var title, list := Units("attachments:"), Lines(ls) + tail;
    LinesAnnounce(ls, tail);
    assert (title + [NEWLINE] + list)[0] == 97;
    FooterAfter(nl, title + [NEWLINE] + list);
    TitleSplits(list);
    ListParses(ls, ds, tail);
  }

  lemma TitleSplits(list: Text)
    ensures Attachments(Units("attachments:") + [NEWLINE] + list) == ParseItems(SplitLines(list))
  {
    SplitLine(Units("attachments:"), list);
    assert ([Units("attachments:")] + SplitLines(list))[1..] == SplitLines(list);
  }

  lemma ItemIntroduces(a: Attachment)
    ensures Introduces(Item(a))
  {
  }

  lemma TrimmedWithErrors(title: Text, ls: seq<Text>, errors: Text)
    requires ls != [] && TrimNewlines(errors) != []
    ensures TrimNewlines(Section(title, ls) + errors) == title + [NEWLINE] + (Lines(ls) + TrimNewlines(errors))
  {
    SectionBegins(title, ls);
    TrimNewlinesConcat(Section(title, ls), errors);
    Regroup(title, [NEWLINE], Lines(ls), TrimNewlines(errors));
  }

  lemma TrimmedWithoutErrors(title: Text, front: seq<Text>, last: Text)
    requires last != [] && last[|last| - 1] != NEWLINE
    ensures TrimNewlines(Section(title, front + [last])) == title + [NEWLINE] + (Lines(front) + last)
  {
    SectionBegins(title, front + [last]);
    LinesSnoc(front, last);
    TrimOneNewline(title + [NEWLINE] + (Lines(front) + last));
    Regrouped(title, [NEWLINE], Lines(front), last, [NEWLINE]);
  }

  lemma TrimOneNewline(t: Text)
    requires t != [] && t[|t| - 1] != NEWLINE
    ensures TrimNewlines(t + [NEWLINE]) == t
  {
    assert (t + [NEWLINE])[..|t|] == t;
  }

  lemma Regrouped(a: Text, b: Text, c: Text, d: Text, e: Text)
    ensures a + (b + (c + (d + e))) == a + b + (c + d) + e
  {
  }

  lemma FooterWithErrors(nl: Text, ls: seq<Text>, ds: seq<Display>, errors: Text)
    requires Opening(nl) && ls != [] && Reads(ls, ds) && Introduces(ls[0])
    requires var e := TrimNewlines(errors); e != [] && InLine(e[0]) && e[0] != 45
    ensures Attachments(AttachmentFooter(nl + TrimNewlines(Section(Units("attachments:"), ls) + errors))) == ds
  {
    TrimmedWithErrors(Units("attachments:"), ls, errors);
    ListedFooter(nl, ls, ds, TrimNewlines(errors));
    NoItems(TrimNewlines(errors));
  }

  lemma FooterOfListAndLast(nl: Text, front: seq<Text>, last: Text, ds: seq<Display>, d: Display)
    requires Opening(nl) && Reads(front, ds) && SingleLine(last) && ParseItem(last) == Some(d)
    requires Introduces(last) && last[|last| - 1] == 41 && (front != [] ==> Introduces(front[0]))
    ensures Attachments(AttachmentFooter(nl + TrimNewlines(Section(Units("attachments:"), front + [last])))) == ds + [d]
  {
    TrimmedWithoutErrors(Units("attachments:"), front, last);
    ListedFooter(nl, front, ds, last);
    OneParses(last, d);
  }

  /** The lines of a report's list, the last one apart. */
  lemma LastItem(valid: seq<Attachment>, front: seq<Attachment>, last: Attachment)
    requires valid == front + [last]
    ensures Items(valid) == Items(front) + [Item(last)] && ShownAll(valid) == ShownAll(front) + [Shown(last)]
  {
  }

  lemma FooterOfValid(nl: Text, valid: seq<Attachment>)
    requires Opening(nl) && valid != [] && forall i | 0 <= i < |valid| :: GoodAttachment(valid[i])
    ensures Attachments(AttachmentFooter(nl + TrimNewlines(Section(Units("attachments:"), Items(valid))))) == ShownAll(valid)
  {
    var n := |valid| - 1;
    var front, last := valid[..n], valid[n];
    LastItem(valid, front, last);
    ItemsRead(front);
    ItemInLine(last);
    ItemRoundTrip(last);
    ItemIntroduces(last);
    if front != [] { ItemIntroduces(front[0]); }
    FooterOfListAndLast(nl, Items(front), Item(last), ShownAll(front), Shown(last));
  }

  lemma FooterOfValidAndErrors(nl: Text, valid: seq<Attachment>, errors: Text)
    requires Opening(nl) && valid != [] && forall i | 0 <= i < |valid| :: GoodAttachment(valid[i])
    requires var e := TrimNewlines(errors); e != [] && InLine(e[0]) && e[0] != 45
    ensures Attachments(AttachmentFooter(nl + TrimNewlines(Section(Units("attachments:"), Items(valid)) + errors))) == ShownAll(valid)
  {
    ItemsRead(valid);
    ItemIntroduces(valid[0]);
    FooterWithErrors(nl, Items(valid), ShownAll(valid), errors);
  }

  /** Whatever follows the content, exactly the validated attachments are read
      from it, in order. */
  lemma FooterRoundTrip(r: Record, report: Report, nl: Text)
    requires Opening(nl) && GoodReport(report)
    ensures Attachments(AttachmentFooter(nl + TrimNewlines(Footer(r, report)))) == ShownAll(report.valid)
  {
    if report.valid == [] {
      NoFooter(r, report, nl);
    } else if ErrorSections(r, report) == [] {
      FooterOfValid(nl, report.valid);
      assert AttachmentSection(report) + [] == AttachmentSection(report);
    } else {
      ErrorsBegin(r, report);
      FooterOfValidAndErrors(nl, report.valid, ErrorSections(r, report));
    }
  }
}
