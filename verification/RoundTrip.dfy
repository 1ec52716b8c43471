/** Splitting a printed document gives its lines back, exactly when none of them reads as Markdown. */
module RoundTrip {
  import opened Wrappers
  import opened Text
  import opened Document
  import opened Assembly
  import opened Classification
  import opened Structuring
  import opened Markdown
  import opened Chunking
  import opened ChunkTheorems

  // ----- reading single rows

  lemma TrimOfTrimmed(s: string)
    requires Trimmed(s)
    ensures Trim(s) == s
  {
    TrimmedIffFixed(s);
  }

  /** A printed page marker is parsed back to its page. */
  lemma ParsePrintedMarker(page: nat)
    requires page <= USIZE_MAX
    ensures ParsePageMarker(PageMarker(page)) == Some(page)
  {
    var digits := Digits(page);
    ValueOfDigits(page);
    assert PageMarker(page) == "<!--" + (" " + ("page" + (" " + ("" + digits))) + " ") + "-->";
    MarkerIsParsed(PageMarker(page), " ", " ", "", digits, " ", page);
  }

  lemma ReadMarker(row: string, page: nat)
    requires Trimmed(row) && row != "" && ParsePageMarker(row) == Some(page)
    ensures Read(row) == Marker(page)
  {
    TrimOfTrimmed(row);
  }

  lemma ReadSection(row: string, heading: string)
    requires Trimmed(row) && row != "" && ParsePageMarker(row).None? && StripPrefix(row, "## ") == Some(heading)
    ensures Read(row) == Section(Trim(heading))
  {
    TrimOfTrimmed(row);
  }

  lemma ReadText(text: string)
    requires Trimmed(text) && text != ""
    ensures Read(text).Body? <==> Plain(text)
    ensures Read(text).Body? ==> Read(text).text == text
  {
    TrimOfTrimmed(text);
    ReadTells(text);
  }

  lemma MarkerIsTrimmed(page: nat)
    ensures Trimmed(PageMarker(page))
  {
    var row := PageMarker(page);
    assert row[0] == '<' && row[|row| - 1] == '>';
  }

  lemma HeadingRow(text: string)
    requires Trimmed(text) && text != ""
    ensures Trimmed("## " + text) && ParsePageMarker("## " + text).None?
    ensures StripPrefix("## " + text, "## ") == Some(text)
  {
    var row := "## " + text;
    assert row[0] == '#' && row[|row| - 1] == text[|text| - 1];
    assert row[3..] == text;
    assert StripPrefix(row, "<!--") == None;
  }

  // ----- reading a whole document

  /** How a line's rows are read. */
  ghost predicate ReadsRight(read: string -> Item, line: Line) {
    && read(PageMarker(line.page)) == Marker(line.page)
    && read("## " + line.text) == Section(line.text)
    && (read(line.text).Body? ==> read(line.text).text == line.text)
  }

  ghost predicate ReadsAllRight(read: string -> Item, lines: seq<Line>) {
    read("") == Blank && forall k :: 0 <= k < |lines| ==> ReadsRight(read, lines[k])
  }

  /** The line comes back as body text, or is a heading. */
  predicate Returns(read: string -> Item, line: Line) {
    line.kind != Heading ==> read(line.text).Body?
  }

  predicate AllReturn(read: string -> Item, lines: seq<Line>) {
    forall k :: 0 <= k < |lines| ==> Returns(read, lines[k])
  }

  lemma ReadReadsRight(line: Line)
    requires line.page <= USIZE_MAX && line.text != "" && Trimmed(line.text)
    ensures ReadsRight(Read, line)
  {
    MarkerIsTrimmed(line.page);
    ParsePrintedMarker(line.page);
    ReadMarker(PageMarker(line.page), line.page);
    HeadingRow(line.text);
    ReadSection("## " + line.text, line.text);
    TrimOfTrimmed(line.text);
    ReadText(line.text);
  }

  /** Pages are numbered from 1 within the machine word, and lines are normal text. */
  predicate Printable(lines: seq<Line>) {
    forall k :: 0 <= k < |lines| ==>
      1 <= lines[k].page <= USIZE_MAX && lines[k].text != "" && Normal(lines[k].text)
  }

  /** No body or icon line reads as a page marker or a heading. */
  ghost predicate Clean(lines: seq<Line>) {
    forall k :: 0 <= k < |lines| && lines[k].kind != Heading ==> Plain(lines[k].text)
  }

  /** The texts of the lines that are no headings, in order. */
  function Prose(lines: seq<Line>): seq<string> {
    if lines == [] then []
    else Prose(lines[..|lines| - 1]) + if lines[|lines| - 1].kind == Heading then [] else [lines[|lines| - 1].text]
  }

  function LatestHeading(lines: seq<Line>): string {
    if lines == [] then ""
    else if lines[|lines| - 1].kind == Heading then lines[|lines| - 1].text
    else LatestHeading(lines[..|lines| - 1])
  }

  function HeadingCount(lines: seq<Line>): nat {
    if lines == [] then 0
    else HeadingCount(lines[..|lines| - 1]) + if lines[|lines| - 1].kind == Heading then 1 else 0
  }

  /** The lines that are no headings, each with its own page and the latest heading before it. */
  function PlacedLines(lines: seq<Line>): seq<Placed> {
    if lines == [] then []
    else
      var init, line := lines[..|lines| - 1], lines[|lines| - 1];
      PlacedLines(init)
      + if line.kind == Heading then [] else [Placed(line.text, line.page, LatestHeading(init), HeadingCount(init))]
  }

  /** The scan's state and findings after some items. */
  ghost predicate Scans(items: seq<Item>, page: nat, heading: string, section: nat, body: seq<Placed>) {
    && PageAfter(items) == page
    && HeadingAfter(items) == heading
    && SectionAfter(items) == section
    && BodyLines(items) == body
  }

  lemma ScanMarker(items: seq<Item>, marker: nat, heading: string, section: nat, body: seq<Placed>)
    requires Scans(items, PageAfter(items), heading, section, body)
    ensures Scans(items + [Blank, Marker(marker)], marker, heading, section, body)
  {
    ReadOneMore(items, Blank);
    ReadOneMore(items + [Blank], Marker(marker));
    assert items + [Blank, Marker(marker)] == items + [Blank] + [Marker(marker)];
  }

  lemma ScanBlank(items: seq<Item>, page: nat, heading: string, section: nat, body: seq<Placed>)
    requires Scans(items, page, heading, section, body)
    ensures Scans(items + [Blank], page, heading, section, body)
  {
    ReadOneMore(items, Blank);
  }

  lemma ScanHeading(items: seq<Item>, page: nat, heading: string, text: string, section: nat, body: seq<Placed>)
    requires Scans(items, page, heading, section, body)
    ensures Scans(items + [Section(text)], page, text, section + 1, body)
  {
    ReadOneMore(items, Section(text));
  }

  lemma ScanSection(items: seq<Item>, page: nat, heading: string, text: string, section: nat, body: seq<Placed>)
    requires Scans(items, page, heading, section, body)
    ensures Scans(items + [Blank, Section(text), Blank], page, text, section + 1, body)
  {
    var one := items + [Blank];
    var two := one + [Section(text)];
    ScanBlank(items, page, heading, section, body);
    ScanHeading(one, page, heading, text, section, body);
    ScanBlank(two, page, text, section + 1, body);
    assert items + [Blank, Section(text), Blank] == two + [Blank];
  }

  lemma ScanBody(items: seq<Item>, page: nat, heading: string, text: string, section: nat, body: seq<Placed>)
    requires Scans(items, page, heading, section, body)
    ensures Scans(items + [Item.Body(text)], page, heading, section, body + [Placed(text, page, heading, section)])
  {
    ReadOneMore(items, Item.Body(text));
  }

  /** The items before the line's own: a blank and its marker where the page changes. */
  function MarkerItems(page: nat, line: Line): seq<Item> {
    if line.page != page then [Blank, Marker(line.page)] else []
  }

  function OwnItems(read: string -> Item, line: Line): seq<Item> {
    if line.kind == Heading then [Blank, Section(line.text), Blank] else [read(line.text)]
  }

  lemma ReadRowsOf(read: string -> Item, page: nat, line: Line)
    requires read("") == Blank && ReadsRight(read, line)
    ensures Map(read, RowsOf(page, line)) == MarkerItems(page, line) + OwnItems(read, line)
  {
  }

  /** The scan keeps to the document's own account of its lines. */
  ghost predicate InStep(items: seq<Item>, lines: seq<Line>) {
    && Scans(items, PageAfter(items), LatestHeading(lines), HeadingCount(lines), PlacedLines(lines))
    && (lines != [] ==> PageAfter(items) == LastPage(lines))
  }

  lemma StaysInStep(read: string -> Item, items: seq<Item>, lines: seq<Line>, line: Line)
    requires InStep(items, lines) && line.page >= 1
    requires line.kind != Heading ==> read(line.text) == Item.Body(line.text)
    ensures InStep(items + (MarkerItems(LastPage(lines), line) + OwnItems(read, line)), lines + [line])
  {
    var all, marks := lines + [line], MarkerItems(LastPage(lines), line);
    assert all[..|lines|] == lines;
    var marked := items + marks;
    if line.page != LastPage(lines) {
      ScanMarker(items, line.page, LatestHeading(lines), HeadingCount(lines), PlacedLines(lines));
    } else {
      assert marked == items;
    }
    assert Scans(marked, line.page, LatestHeading(lines), HeadingCount(lines), PlacedLines(lines));
    assert marked + OwnItems(read, line) == items + (marks + OwnItems(read, line));
    if line.kind == Heading {
      ScanSection(marked, line.page, LatestHeading(lines), line.text, HeadingCount(lines), PlacedLines(lines));
    } else {
      ScanBody(marked, line.page, LatestHeading(lines), line.text, HeadingCount(lines), PlacedLines(lines));
    }
  }

  lemma {:induction false} RowsOfReturningLines(read: string -> Item, lines: seq<Line>)
    requires ReadsAllRight(read, lines) && AllReturn(read, lines)
    requires forall k :: 0 <= k < |lines| ==> lines[k].page >= 1
    ensures InStep(Map(read, Rows(lines)), lines)
  {
    if lines != [] {
      var n := |lines| - 1;
      var init, line := lines[..n], lines[n];
      RowsOfReturningLines(read, init);
      assert ReadsRight(read, line) && Returns(read, line);
      ReadRowsOf(read, LastPage(init), line);
      MapAppend(read, Rows(init), RowsOf(LastPage(init), line));
      StaysInStep(read, Map(read, Rows(init)), init, line);
      assert init + [line] == lines;
    }
  }

  // ----- lines that do read as Markdown

  lemma BodiesOfAppend(a: seq<Item>, b: seq<Item>)
    ensures Bodies(a + b) == Bodies(a) + Bodies(b)
  {
    if a == [] {
      assert a + b == b;
    } else {
      assert (a + b)[1..] == a[1..] + b;
      BodiesOfAppend(a[1..], b);
    }
  }

  lemma BodiesOfRows(read: string -> Item, page: nat, line: Line)
    requires read("") == Blank && ReadsRight(read, line)
    ensures Bodies(Map(read, RowsOf(page, line)))
      == if line.kind != Heading && read(line.text).Body? then [line.text] else []
  {
    ReadRowsOf(read, page, line);
    BodiesOfAppend(MarkerItems(page, line), OwnItems(read, line));
    BodiesOfMarker(page, line);
    BodiesOfOwn(read, line);
  }

  lemma BodiesOfMarker(page: nat, line: Line)
    ensures Bodies(MarkerItems(page, line)) == []
  {
    BodiesOfAppend([Blank], [Marker(line.page)]);
    assert [Blank] + [Marker(line.page)] == [Blank, Marker(line.page)];
  }

  lemma BodiesOfOwn(read: string -> Item, line: Line)
    requires read(line.text).Body? ==> read(line.text).text == line.text
    ensures Bodies(OwnItems(read, line)) == if line.kind != Heading && read(line.text).Body? then [line.text] else []
  {
    if line.kind == Heading {
      BodiesOfAppend([Blank], [Section(line.text)]);
      BodiesOfAppend([Blank, Section(line.text)], [Blank]);
      assert OwnItems(read, line) == [Blank] + [Section(line.text)] + [Blank];
    }
  }

  /** Only lines that read as body text come back; every other one is one too few. */
  lemma {:induction false} OnlyPlainLinesReturn(read: string -> Item, lines: seq<Line>)
    requires ReadsAllRight(read, lines)
    ensures |Bodies(Map(read, Rows(lines)))| <= |Prose(lines)|
    ensures AllReturn(read, lines) ==> Bodies(Map(read, Rows(lines))) == Prose(lines)
    ensures !AllReturn(read, lines) ==> |Bodies(Map(read, Rows(lines)))| < |Prose(lines)|
  {
    if lines != [] {
      var n := |lines| - 1;
      var init, line := lines[..n], lines[n];
      OnlyPlainLinesReturn(read, init);
      assert ReadsRight(read, line);
      MapAppend(read, Rows(init), RowsOf(LastPage(init), line));
      BodiesOfAppend(Map(read, Rows(init)), Map(read, RowsOf(LastPage(init), line)));
      BodiesOfRows(read, LastPage(init), line);
      AllReturnOneMore(read, init, line);
      assert init + [line] == lines;
    }
  }

  lemma AllReturnOneMore(read: string -> Item, init: seq<Line>, line: Line)
    ensures AllReturn(read, init + [line]) <==> AllReturn(read, init) && Returns(read, line)
  {
    var all := init + [line];
    if AllReturn(read, all) {
      forall k | 0 <= k < |init| ensures Returns(read, init[k]) { assert Returns(read, all[k]); }
      assert Returns(read, all[|init|]);
    }
  }

  // ----- the transcript

  lemma NormalIsPlainRow(text: string)
    requires Normal(text)
    ensures PlainRow(text) && PlainRow("## " + text)
  {
    assert forall c :: c in text ==> c != '\n';
    assert forall i :: 0 <= i < |text| ==> ("## " + text)[i + 3] == text[i];
  }

  lemma MarkerIsPlainRow(page: nat)
    ensures PlainRow(PageMarker(page))
  {
    var digits := Digits(page);
    assert forall c :: c in digits ==> IsDigit(c);
    assert forall c :: c in PageMarker(page) ==> c in "<!-- page " || c in digits || c in " -->";
    assert PageMarker(page)[|PageMarker(page)| - 1] == '>';
  }

  lemma {:induction false} RowsArePlain(lines: seq<Line>)
    requires Printable(lines)
    ensures forall row :: row in Rows(lines) ==> PlainRow(row)
  {
    if lines != [] {
      var line := lines[|lines| - 1];
      RowsArePlain(lines[..|lines| - 1]);
      NormalIsPlainRow(line.text);
      MarkerIsPlainRow(line.page);
    }
  }

  /** The lines of the transcript are the rows printed. */
  lemma LinesOfMarkdown(lines: seq<Line>)
    requires Printable(lines)
    ensures Lines(Render(lines)) == Rows(lines)
  {
    MarkdownIsRows(lines);
    RowsArePlain(lines);
    LinesOfUnlines(Rows(lines));
  }

  /** Reading the transcript of printable lines. */
  lemma ReadingOfMarkdown(lines: seq<Line>)
    requires Printable(lines)
    ensures ReadsAllRight(Read, lines)
    ensures AllReturn(Read, lines) <==> Clean(lines)
    ensures ReadAll(Lines(Render(lines))) == Map(Read, Rows(lines))
  {
    LinesOfMarkdown(lines);
    forall k | 0 <= k < |lines|
      ensures ReadsRight(Read, lines[k]) && (Read(lines[k].text).Body? <==> Plain(lines[k].text))
    {
      ReadReadsRight(lines[k]);
      ReadText(lines[k].text);
    }
    ReturnIffPlain(lines);
  }

  lemma ReturnIffPlain(lines: seq<Line>)
    requires forall k :: 0 <= k < |lines| ==> (Read(lines[k].text).Body? <==> Plain(lines[k].text))
    ensures AllReturn(Read, lines) <==> Clean(lines)
  {
    if AllReturn(Read, lines) {
      forall k | 0 <= k < |lines| && lines[k].kind != Heading ensures Plain(lines[k].text) {
        assert Returns(Read, lines[k]);
      }
    }
  }

  lemma StructuredIsPrintable(pages: seq<seq<Segment>>, doc: ExtractedDocument, u: Unicode)
    requires Structured(pages, doc, u) && |pages| <= USIZE_MAX
    ensures Printable(doc.lines)
  {
    StructureAccounts(pages, doc, u);
  }

  lemma RecoveredIffClean(lines: seq<Line>)
    requires Printable(lines)
    ensures Flatten(ChunkRows(Split(Render(lines)))) == Prose(lines) <==> Clean(lines)
  {
    ReadingOfMarkdown(lines);
    OnlyPlainLinesReturn(Read, lines);
    SplitConserves(Render(lines));
    BodiesAreTexts(Lines(Render(lines)));
  }

  /** The chunks of a document's transcript hold its prose, exactly when no such line reads as Markdown. */
  lemma RoundTripIffClean(pages: seq<seq<Segment>>, doc: ExtractedDocument, u: Unicode)
    requires Structured(pages, doc, u) && |pages| <= USIZE_MAX
    ensures Flatten(ChunkRows(Split(Render(doc.lines)))) == Prose(doc.lines) <==> Clean(doc.lines)
  {
    StructuredIsPrintable(pages, doc, u);
    RecoveredIffClean(doc.lines);
  }

  /** The groups behind the chunks are the document's lines, each with its own page and latest heading. */
  lemma GroupsOfMarkdown(lines: seq<Line>)
    requires Printable(lines) && Clean(lines)
    ensures Flatten(Groups(Render(lines))) == PlacedLines(lines)
  {
    ReadingOfMarkdown(lines);
    RowsOfReturningLines(Read, lines);
    PackIsCutting(PlacedLines(lines));
  }

  /** Then each line is also in a chunk with its latest heading, and each chunk has its first line's page. */
  lemma RoundTripKeepsPlaces(pages: seq<seq<Segment>>, doc: ExtractedDocument, u: Unicode)
    requires Structured(pages, doc, u) && |pages| <= USIZE_MAX && Clean(doc.lines)
    ensures Flatten(Groups(Render(doc.lines))) == PlacedLines(doc.lines)
    ensures forall i :: 0 <= i < |Split(Render(doc.lines))| ==> HoldsGroup(Render(doc.lines), i)
  {
    var transcript := Render(doc.lines);
    StructuredIsPrintable(pages, doc, u);
    GroupsOfMarkdown(doc.lines);
    forall i | 0 <= i < |Split(transcript)| ensures HoldsGroup(transcript, i) { ChunkHoldsGroup(transcript, i); }
  }
}
