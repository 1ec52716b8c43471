/**
 The failing half of the round trip has real inputs: a page with one run of text that reads
 as Markdown becomes a document whose one line the chunks do not hold.
 */
module LostLines {
  import opened Text
  import opened Document
  import opened Assembly
  import opened Classification
  import opened Structuring
  import opened Markdown
  import opened Chunking
  import opened ChunkTheorems
  import opened RoundTrip
  import opened Wrappers

  // ----- counting

  lemma {:induction false} CountAppend(a: string, b: string, such: char -> bool)
    ensures Count(a + b, such) == Count(a, such) + Count(b, such)
  {
    if b == "" {
      assert a + b == a;
    } else {
      var n := |b| - 1;
      CountAppend(a, b[..n], such);
      assert (a + b)[..|a + b| - 1] == a + b[..n];
    }
  }

  lemma {:induction false} CountNone(s: string, such: char -> bool)
    requires forall c :: c in s ==> !such(c)
    ensures Count(s, such) == 0
  {
    if s != "" { CountNone(s[..|s| - 1], such); }
  }

  lemma {:induction false} CountAll(s: string, such: char -> bool)
    requires forall c :: c in s ==> such(c)
    ensures Count(s, such) == |s|
  {
    if s != "" { CountAll(s[..|s| - 1], such); }
  }

  // ----- a page with one unnamed run of text

  function OneRun(text: string): seq<seq<Segment>> {
    [[Segment(text, 0.0, 0.0, 1.0, 0.0, "")]]
  }

  /** Clean prose: normal text of one line, without icons, and not garbled. */
  predicate Prosaic(text: string, u: Unicode) {
    && text != "" && Normal(text)
    && (forall c :: c in text ==> !IsBreak(c) && !IsIconGlyph(c))
    && !Garbled(text, u)
  }

  lemma WholeTextIsClean(text: string)
    requires forall c :: c in text ==> !IsBreak(c)
    ensures CleanSegmentText(text) == text
  {
    var clean := CleanSegmentText(text);
    assert |clean| < |text| ==> text[|clean|] in text;
  }

  lemma CleanOneRun(s: Segment)
    ensures Flatten(CleanTexts([s])) == CleanSegmentText(s.text)
  {
    assert CleanTexts([s]) == [] + [CleanSegmentText(s.text)];
    FlattenSnoc([], CleanSegmentText(s.text));
  }

  lemma OneIsOrdered(s: Segment)
    ensures StableOrder([s], [s])
  {
  }

  lemma TextOfOneRun(text: string)
    requires Normal(text) && forall c :: c in text ==> !IsBreak(c)
    ensures LineText(OneRun(text)[0]) == text
  {
    var group := OneRun(text)[0];
    CleanOneRun(group[0]);
    WholeTextIsClean(text);
    OneIsOrdered(group[0]);
    LineTextIsDetermined(group, group, text);
  }

  lemma GroupsOfOneRun(text: string)
    ensures PagedGroups(OneRun(text)) == [PagedGroup(1, OneRun(text)[0])]
  {
    var pages := OneRun(text);
    assert GroupsOf(pages[0]) == [pages[0]] by {
      GroupsSnoc([], pages[0][0]);
      assert [] + [pages[0][0]] == pages[0];
    }
    PagedGroupsOneMore(pages, 0);
    assert pages[..1] == pages;
  }

  lemma CharsOfOneRun(text: string)
    ensures Chars(OneRun(text)[0]) == text
  {
    assert SegmentTexts(OneRun(text)[0]) == [] + [text];
    FlattenSnoc([], text);
  }

  lemma OnlyNothingDominates(text: string, family: Option<string>)
    requires MayDominate(OneRun(text)[0], family)
    ensures family == None
  {
    assert FontFamily("") == "";
  }

  /** Unnamed text without icons is body text, whatever the body's family. */
  lemma KindOfOneRun(text: string, body: string, kind: LineKind, u: Unicode)
    requires forall c :: c in text ==> !IsIconGlyph(c)
    requires MayClassify(OneRun(text)[0], body, kind, u)
    ensures kind == LineKind.Body
  {
    var group := OneRun(text)[0];
    CharsOfOneRun(text);
    CountNone(text, Icon());
    assert !MostlyIcons(text);
    forall family ensures MayDominate(group, family) ==> !TitleLike(text, family, body, u) {
      if MayDominate(group, family) { OnlyNothingDominates(text, family); }
    }
  }

  lemma DocumentOfOneRun(text: string, doc: ExtractedDocument, u: Unicode)
    requires Prosaic(text, u) && Structured(OneRun(text), doc, u)
    ensures doc.lines == [Line(1, LineKind.Body, text)]
  {
    var body, kinds :| StructuredAs(OneRun(text), body, kinds, doc, u);
    var paged := PagedGroup(1, OneRun(text)[0]);
    GroupsOfOneRun(text);
    TextOfOneRun(text);
    KindIsBody(text, body, kinds, u);
    OneGroupBecomes(paged, LineKind.Body, u);
  }

  lemma KindIsBody(text: string, body: string, kinds: seq<LineKind>, u: Unicode)
    requires text != "" && LineText(OneRun(text)[0]) == text && forall c :: c in text ==> !IsIconGlyph(c)
    requires KindsFit([PagedGroup(1, OneRun(text)[0])], kinds, body, u)
    ensures kinds == [LineKind.Body]
  {
    assert [PagedGroup(1, OneRun(text)[0])][0].group == OneRun(text)[0];
    KindOfOneRun(text, body, kinds[0], u);
  }

  lemma OneGroupBecomes(paged: PagedGroup, kind: LineKind, u: Unicode)
    requires Survives(LineText(paged.group), kind, u)
    ensures AfterGroups([paged], [kind], u).lines == [Line(paged.page, kind, LineText(paged.group))]
  {
    OneGroupIsTaken(paged, kind, u);
    SurvivorIsKept(EMPTY_DOCUMENT, paged, kind, u);
  }

  lemma OneGroupIsTaken(paged: PagedGroup, kind: LineKind, u: Unicode)
    ensures AfterGroups([paged], [kind], u) == AfterGroup(EMPTY_DOCUMENT, paged, kind, u)
  {
    AfterGroupsSnoc([], [], u, paged, kind);
    assert [] + [paged] == [paged] && [] + [kind] == [kind];
  }

  lemma SurvivorIsKept(doc: ExtractedDocument, paged: PagedGroup, kind: LineKind, u: Unicode)
    requires Survives(LineText(paged.group), kind, u)
    ensures AfterGroup(doc, paged, kind, u).lines == doc.lines + [Line(paged.page, kind, LineText(paged.group))]
  {
  }

  lemma NothingNamed(text: string)
    ensures MayDominate(OneRun(text)[0], None) && MayBeBody(OneRun(text), "")
  {
    var pages := OneRun(text);
    assert pages[..0] == [] && Flatten(pages) == [] + pages[0];
    assert FontFamily("") == "";
    assert MayDominate(pages[0], None);
    assert MayDominate(Flatten(pages), None);
  }

  lemma MayBeBodyText(text: string, u: Unicode)
    requires forall c :: c in text ==> !IsIconGlyph(c)
    ensures MayClassify(OneRun(text)[0], "", LineKind.Body, u)
  {
    var group := OneRun(text)[0];
    CharsOfOneRun(text);
    CountNone(text, Icon());
    NothingNamed(text);
    assert !TitleLike(text, None, "", u);
  }

  /** Such a page does become a document. */
  lemma OneRunIsStructured(text: string, u: Unicode) returns (doc: ExtractedDocument)
    requires Prosaic(text, u)
    ensures Structured(OneRun(text), doc, u)
  {
    var kinds := [LineKind.Body];
    GroupsOfOneRun(text);
    NothingNamed(text);
    MayBeBodyText(text, u);
    doc := AfterGroups(PagedGroups(OneRun(text)), kinds, u);
    assert KindsFit(PagedGroups(OneRun(text)), kinds, "", u);
    assert StructuredAs(OneRun(text), "", kinds, doc, u);
  }

  /** If it reads as Markdown, its one line is lost, in every document it may become. */
  lemma UnplainTextIsLost(text: string, u: Unicode)
    requires Prosaic(text, u) && !Plain(text)
    ensures exists doc :: Structured(OneRun(text), doc, u)
    ensures forall doc :: Structured(OneRun(text), doc, u) ==>
      doc.lines == [Line(1, LineKind.Body, text)] && Flatten(ChunkRows(Split(Render(doc.lines)))) != Prose(doc.lines)
  {
    var some := OneRunIsStructured(text, u);
    forall doc | Structured(OneRun(text), doc, u)
      ensures doc.lines == [Line(1, LineKind.Body, text)] && Flatten(ChunkRows(Split(Render(doc.lines)))) != Prose(doc.lines)
    {
      DocumentOfOneRun(text, doc, u);
      assert !Plain(doc.lines[0].text);
      RoundTripIffClean(OneRun(text), doc, u);
    }
  }

  // ----- two such texts

  const HASH_LINE := "## A"
  const MARKER_LINE := "<!-- page 7 -->"

  lemma HashLineIsProsaic(u: Unicode)
    requires u.alphabetic('A')
    ensures Prosaic(HASH_LINE, u) && !Plain(HASH_LINE)
  {
    CountNone(HASH_LINE, Weird(u));
    assert Normal(HASH_LINE);
  }

  /** A page whose text starts like a heading, in a font without a name: the line is not recovered. */
  lemma HashPageIsLost(u: Unicode)
    requires u.alphabetic('A')
    ensures exists doc :: Structured(OneRun("## A"), doc, u)
    ensures forall doc :: Structured(OneRun("## A"), doc, u) ==>
      Flatten(ChunkRows(Split(Render(doc.lines)))) != Prose(doc.lines)
  {
    HashLineIsProsaic(u);
    UnplainTextIsLost(HASH_LINE, u);
  }

  lemma MarkerLineIsWeird(u: Unicode)
    requires (forall c :: c in "page" ==> u.alphabetic(c)) && u.numeric('7')
    ensures Count(MARKER_LINE, Weird(u)) <= 2
  {
    var middle := "!-- page 7 --";
    CountNone(middle, Weird(u));
    CountAppend("<", middle, Weird(u));
    CountAppend("<" + middle, ">", Weird(u));
    assert MARKER_LINE == "<" + middle + ">";
  }

  lemma MarkerLineIsVisible()
    ensures Count(MARKER_LINE, Visible()) >= 7
  {
    CountAll("<!--", Visible());
    CountAll("page", Visible());
    CountAppend("page", " 7 -->", Visible());
    CountAppend(" ", "page" + " 7 -->", Visible());
    CountAppend("<!--", " " + ("page" + " 7 -->"), Visible());
    assert MARKER_LINE == "<!--" + (" " + ("page" + " 7 -->"));
  }

  lemma MarkerLineIsNormal()
    ensures Normal(MARKER_LINE)
  {
  }

  lemma MarkerLineIsSound()
    ensures forall c :: c in MARKER_LINE ==> !IsBreak(c) && !IsIconGlyph(c) && !SureGarble(c)
  {
  }

  lemma MarkerLineIsProsaic(u: Unicode)
    requires (forall c :: c in "page" ==> u.alphabetic(c)) && u.numeric('7')
    ensures Prosaic(MARKER_LINE, u)
  {
    MarkerLineIsWeird(u);
    MarkerLineIsVisible();
    MarkerLineIsNormal();
    MarkerLineIsSound();
    assert forall i :: 0 <= i < |MARKER_LINE| ==> MARKER_LINE[i] in MARKER_LINE;
  }

  lemma MarkerIsNotPlain(page: nat)
    requires page <= USIZE_MAX
    ensures !Plain(PageMarker(page))
  {
    ParsePrintedMarker(page);
    ParsePageMarkerIff(PageMarker(page), page);
  }

  lemma MarkerLineIsMarker()
    ensures PageMarker(7) == MARKER_LINE
  {
    assert Digits(7) == ['7'];
  }

  /** A page whose text reads as a page marker: the line is not recovered either. */
  lemma MarkerPageIsLost(u: Unicode)
    requires (forall c :: c in "page" ==> u.alphabetic(c)) && u.numeric('7')
    ensures exists doc :: Structured(OneRun("<!-- page 7 -->"), doc, u)
    ensures forall doc :: Structured(OneRun("<!-- page 7 -->"), doc, u) ==>
      Flatten(ChunkRows(Split(Render(doc.lines)))) != Prose(doc.lines)
  {
    MarkerLineIsProsaic(u);
    MarkerLineIsMarker();
    MarkerIsNotPlain(7);
    UnplainTextIsLost(MARKER_LINE, u);
  }
}
