/** `structure`: from the segments of the pages to the lines of a document, and what becomes of every group. */
module Structuring {
  import opened Text
  import opened Document
  import opened Assembly
  import opened Classification

  datatype PagedGroup = PagedGroup(page: nat, group: seq<Segment>)

  function OnPage(page: nat, groups: seq<seq<Segment>>): (paged: seq<PagedGroup>)
    ensures |paged| == |groups|
  {
    seq(|groups|, i requires 0 <= i < |groups| => PagedGroup(page, groups[i]))
  }

  /** The groups of all pages, in order, under page numbers from 1. */
  function PagedGroups(pages: seq<seq<Segment>>): seq<PagedGroup> {
    if pages == [] then []
    else
      var n := |pages| - 1;
      PagedGroups(pages[..n]) + OnPage(n + 1, GroupsOf(pages[n]))
  }

  // ----- one group

  /** Prose that is garbled is dropped; icons are expected to look odd. */
  predicate Dropped(text: string, kind: LineKind, u: Unicode) {
    text != "" && kind != Icons && Garbled(text, u)
  }

  predicate Survives(text: string, kind: LineKind, u: Unicode) {
    text != "" && !Dropped(text, kind, u)
  }

  function AfterGroup(doc: ExtractedDocument, paged: PagedGroup, kind: LineKind, u: Unicode): ExtractedDocument {
    var text := LineText(paged.group);
    if Dropped(text, kind, u) then doc.(droppedGarbled := doc.droppedGarbled + 1)
    else if Survives(text, kind, u) then
      ExtractedDocument(doc.lines + [Line(paged.page, kind, text)], doc.kept + 1, doc.droppedGarbled)
    else doc
  }

  const EMPTY_DOCUMENT := ExtractedDocument([], 0, 0)

  function AfterGroups(paged: seq<PagedGroup>, kinds: seq<LineKind>, u: Unicode): ExtractedDocument
    requires |kinds| == |paged|
  {
    if paged == [] then EMPTY_DOCUMENT
    else
      var n := |paged| - 1;
      AfterGroup(AfterGroups(paged[..n], kinds[..n], u), paged[n], kinds[n], u)
  }

  // ----- the whole document

  /** Each group with text has a kind its fonts and characters allow. */
  ghost predicate KindsFit(paged: seq<PagedGroup>, kinds: seq<LineKind>, body: string, u: Unicode) {
    && |kinds| == |paged|
    && forall i {:trigger paged[i]} :: 0 <= i < |paged| && LineText(paged[i].group) != "" ==>
        MayClassify(paged[i].group, body, kinds[i], u)
  }

  ghost predicate StructuredAs(
    pages: seq<seq<Segment>>, body: string, kinds: seq<LineKind>, doc: ExtractedDocument, u: Unicode)
  {
    && MayBeBody(pages, body)
    && KindsFit(PagedGroups(pages), kinds, body, u)
    && doc == AfterGroups(PagedGroups(pages), kinds, u)
  }

  /** `doc` is what `structure` may make of the pages, whichever way ties between families fall. */
  ghost predicate Structured(pages: seq<seq<Segment>>, doc: ExtractedDocument, u: Unicode) {
    exists body, kinds :: StructuredAs(pages, body, kinds, doc, u)
  }

  /** What the loop knows after the groups in `paged`. */
  ghost predicate SoFar(paged: seq<PagedGroup>, kinds: seq<LineKind>, body: string, doc: ExtractedDocument, u: Unicode) {
    KindsFit(paged, kinds, body, u) && doc == AfterGroups(paged, kinds, u)
  }

  lemma AfterGroupsSnoc(paged: seq<PagedGroup>, kinds: seq<LineKind>, u: Unicode, p: PagedGroup, kind: LineKind)
    requires |kinds| == |paged|
    ensures AfterGroups(paged + [p], kinds + [kind], u) == AfterGroup(AfterGroups(paged, kinds, u), p, kind, u)
  {
    assert (paged + [p])[..|paged|] == paged && (kinds + [kind])[..|paged|] == kinds;
  }

  lemma OneMoreGroup(before: ExtractedDocument, paged: seq<PagedGroup>, kinds: seq<LineKind>, body: string, u: Unicode,
      p: PagedGroup, kind: LineKind)
    requires SoFar(paged, kinds, body, before, u)
    requires LineText(p.group) != "" ==> MayClassify(p.group, body, kind, u)
    ensures SoFar(paged + [p], kinds + [kind], body, AfterGroup(before, p, kind, u), u)
  {
    AfterGroupsSnoc(paged, kinds, u, p, kind);
    var all, allKinds := paged + [p], kinds + [kind];
    forall i | 0 <= i < |all| && LineText(all[i].group) != "" ensures MayClassify(all[i].group, body, allKinds[i], u) {
      if i < |paged| { assert paged[i] == all[i]; }
    }
  }

  /** The body of the loop of `structure`, over one group. */
  method TakeGroup(before: ExtractedDocument, page: nat, group: seq<Segment>, body: string, u: Unicode,
      ghost paged: seq<PagedGroup>, ghost kinds: seq<LineKind>)
    returns (doc: ExtractedDocument, ghost allKinds: seq<LineKind>)
    requires SoFar(paged, kinds, body, before, u)
    ensures SoFar(paged + [PagedGroup(page, group)], allKinds, body, doc, u)
  {
    doc := before;
    var text := AssembleText(group);
    if text == "" {
      allKinds := kinds + [Body];
      OneMoreGroup(before, paged, kinds, body, u, PagedGroup(page, group), Body);
      return;
    }
    var kind := Classify(group, body, u);
    allKinds := kinds + [kind];
    OneMoreGroup(before, paged, kinds, body, u, PagedGroup(page, group), kind);
    var garbled := false;
    if kind != Icons { garbled := IsGarbled(text, u); }
    if garbled {
      doc := doc.(droppedGarbled := doc.droppedGarbled + 1);
      return;
    }
    doc := doc.(kept := doc.kept + 1, lines := doc.lines + [Line(page, kind, text)]);
  }

  lemma OnPageOneMore(page: nat, groups: seq<seq<Segment>>, g: nat)
    requires g < |groups|
    ensures OnPage(page, groups[..g + 1]) == OnPage(page, groups[..g]) + [PagedGroup(page, groups[g])]
  {
  }

  /** The loop of `structure` over the groups of one page. */
  method TakePage(before: ExtractedDocument, page: nat, segments: seq<Segment>, body: string, u: Unicode,
      ghost paged: seq<PagedGroup>, ghost kinds: seq<LineKind>)
    returns (doc: ExtractedDocument, ghost allKinds: seq<LineKind>)
    requires SoFar(paged, kinds, body, before, u)
    ensures SoFar(paged + OnPage(page, GroupsOf(segments)), allKinds, body, doc, u)
  {
    doc, allKinds := before, kinds;
    var groups := GroupIntoLines(segments);
    ghost var taken := paged;
    NoGroupsYet(paged, page, groups);
    for g := 0 to |groups|
      invariant taken == paged + OnPage(page, groups[..g])
      invariant SoFar(taken, allKinds, body, doc, u)
    {
      doc, allKinds := TakeGroup(doc, page, groups[g], body, u, taken, allKinds);
      TakenOneMore(paged, page, groups, g);
      taken := taken + [PagedGroup(page, groups[g])];
    }
    assert groups[..|groups|] == groups;
  }

  lemma NoGroupsYet(paged: seq<PagedGroup>, page: nat, groups: seq<seq<Segment>>)
    ensures paged + OnPage(page, groups[..0]) == paged
  {
  }

  lemma TakenOneMore(paged: seq<PagedGroup>, page: nat, groups: seq<seq<Segment>>, g: nat)
    requires g < |groups|
    ensures paged + OnPage(page, groups[..g]) + [PagedGroup(page, groups[g])] == paged + OnPage(page, groups[..g + 1])
  {
    OnPageOneMore(page, groups, g);
  }

  lemma PagedGroupsOneMore(pages: seq<seq<Segment>>, p: nat)
    requires p < |pages|
    ensures PagedGroups(pages[..p + 1]) == PagedGroups(pages[..p]) + OnPage(p + 1, GroupsOf(pages[p]))
  {
    assert pages[..p + 1][..p] == pages[..p];
  }

  /** `structure`. */
  method Structure(pages: seq<seq<Segment>>, u: Unicode) returns (doc: ExtractedDocument)
    ensures Structured(pages, doc, u)
  {
    var body := DominantBodyFamily(pages);
    doc := EMPTY_DOCUMENT;
    ghost var kinds: seq<LineKind> := [];
    ghost var paged: seq<PagedGroup> := [];
    for p := 0 to |pages|
      invariant paged == PagedGroups(pages[..p])
      invariant SoFar(paged, kinds, body, doc, u)
    {
      doc, kinds := TakePage(doc, p + 1, pages[p], body, u, paged, kinds);
      PagedGroupsOneMore(pages, p);
      paged := paged + OnPage(p + 1, GroupsOf(pages[p]));
    }
    assert pages[..|pages|] == pages;
    assert StructuredAs(pages, body, kinds, doc, u);
  }

  // ----- what becomes of every group

  /** Line `k` is group `i`. */
  ghost predicate IsLine(line: Line, paged: PagedGroup, kind: LineKind, u: Unicode) {
    && line == Line(paged.page, kind, LineText(paged.group))
    && line.text != "" && (kind == Icons || !Garbled(line.text, u))
  }

  /** The group has no text, or its text is garbled and it is no line of icons. */
  predicate IsLost(paged: PagedGroup, kind: LineKind, u: Unicode) {
    var text := LineText(paged.group);
    text == "" || (kind != Icons && Garbled(text, u))
  }

  predicate Rising(at: seq<nat>) {
    forall k, l :: 0 <= k < l < |at| ==> at[k] < at[l]
  }

  /** The lines are the groups at the rising positions `at`; any other group has no text or is garbled prose. */
  ghost predicate Selects(at: seq<nat>, lines: seq<Line>, paged: seq<PagedGroup>, kinds: seq<LineKind>, u: Unicode)
    requires |kinds| == |paged|
  {
    && |at| == |lines| && Rising(at)
    && (forall k :: 0 <= k < |at| ==> at[k] < |paged|)
    && (forall k {:trigger IsLine(lines[k], paged[at[k]], kinds[at[k]], u)} :: 0 <= k < |at| ==>
      IsLine(lines[k], paged[at[k]], kinds[at[k]], u))
    && (forall i {:trigger IsLost(paged[i], kinds[i], u)} :: 0 <= i < |paged| && i !in at ==> IsLost(paged[i], kinds[i], u))
  }

  lemma SelectingLines(at: seq<nat>, lines: seq<Line>, paged: seq<PagedGroup>, kinds: seq<LineKind>, u: Unicode,
      p: PagedGroup, kind: LineKind, line: Line, k: nat)
    requires |kinds| == |paged| && Selects(at, lines, paged, kinds, u) && IsLine(line, p, kind, u) && k <= |at|
    ensures (at + [|paged|])[k] <= |paged|
    ensures IsLine((lines + [line])[k], (paged + [p])[(at + [|paged|])[k]], (kinds + [kind])[(at + [|paged|])[k]], u)
  {
    if k < |at| { assert IsLine(lines[k], paged[at[k]], kinds[at[k]], u); }
  }

  lemma SelectingSkipsNoMore(at: seq<nat>, lines: seq<Line>, paged: seq<PagedGroup>, kinds: seq<LineKind>, u: Unicode,
      p: PagedGroup, kind: LineKind, i: nat)
    requires |kinds| == |paged| && Selects(at, lines, paged, kinds, u) && i <= |paged| && i !in at + [|paged|]
    ensures i < |paged| && IsLost((paged + [p])[i], (kinds + [kind])[i], u)
  {
    var next := at + [|paged|];
    assert next[|at|] == |paged|;
    assert forall k :: 0 <= k < |at| ==> at[k] == next[k];
    assert i !in at;
    assert IsLost(paged[i], kinds[i], u);
  }

  lemma Selecting(at: seq<nat>, lines: seq<Line>, paged: seq<PagedGroup>, kinds: seq<LineKind>, u: Unicode,
      p: PagedGroup, kind: LineKind, line: Line)
    requires |kinds| == |paged| && Selects(at, lines, paged, kinds, u) && IsLine(line, p, kind, u)
    ensures Selects(at + [|paged|], lines + [line], paged + [p], kinds + [kind], u)
  {
    var next, after, all, allKinds := at + [|paged|], lines + [line], paged + [p], kinds + [kind];
    forall k | 0 <= k < |next| ensures next[k] < |all| && IsLine(after[k], all[next[k]], allKinds[next[k]], u) {
      SelectingLines(at, lines, paged, kinds, u, p, kind, line, k);
    }
    forall i | 0 <= i < |all| && i !in next ensures IsLost(all[i], allKinds[i], u) {
      SelectingSkipsNoMore(at, lines, paged, kinds, u, p, kind, i);
    }
  }

  lemma Skipping(at: seq<nat>, lines: seq<Line>, paged: seq<PagedGroup>, kinds: seq<LineKind>, u: Unicode,
      p: PagedGroup, kind: LineKind)
    requires |kinds| == |paged| && Selects(at, lines, paged, kinds, u) && IsLost(p, kind, u)
    ensures Selects(at, lines, paged + [p], kinds + [kind], u)
  {
    var all, allKinds := paged + [p], kinds + [kind];
    forall k | 0 <= k < |at| ensures IsLine(lines[k], all[at[k]], allKinds[at[k]], u) {
      assert IsLine(lines[k], paged[at[k]], kinds[at[k]], u);
    }
    forall i | 0 <= i < |all| && i !in at ensures IsLost(all[i], allKinds[i], u) {
      if i < |paged| { assert IsLost(paged[i], kinds[i], u); }
    }
  }

  lemma SelectGroup(at: seq<nat>, doc: ExtractedDocument, paged: seq<PagedGroup>, kinds: seq<LineKind>, u: Unicode,
      p: PagedGroup, kind: LineKind) returns (next: seq<nat>)
    requires |kinds| == |paged| && Selects(at, doc.lines, paged, kinds, u)
    ensures Selects(next, AfterGroup(doc, p, kind, u).lines, paged + [p], kinds + [kind], u)
  {
    var text := LineText(p.group);
    if Survives(text, kind, u) {
      Selecting(at, doc.lines, paged, kinds, u, p, kind, Line(p.page, kind, text));
      next := at + [|paged|];
    } else {
      Skipping(at, doc.lines, paged, kinds, u, p, kind);
      next := at;
    }
  }

  lemma SelectOneMore(at: seq<nat>, paged: seq<PagedGroup>, kinds: seq<LineKind>, u: Unicode, p: PagedGroup, kind: LineKind)
    returns (next: seq<nat>)
    requires |kinds| == |paged| && Selects(at, AfterGroups(paged, kinds, u).lines, paged, kinds, u)
    ensures Selects(next, AfterGroups(paged + [p], kinds + [kind], u).lines, paged + [p], kinds + [kind], u)
  {
    next := SelectGroup(at, AfterGroups(paged, kinds, u), paged, kinds, u, p, kind);
    AfterGroupsSnoc(paged, kinds, u, p, kind);
  }

  lemma {:induction false} SelectionUpTo(paged: seq<PagedGroup>, kinds: seq<LineKind>, u: Unicode, n: nat) returns (at: seq<nat>)
    requires n <= |paged| == |kinds|
    ensures Selects(at, AfterGroups(paged[..n], kinds[..n], u).lines, paged[..n], kinds[..n], u)
  {
    if n == 0 {
      at := [];
    } else {
      at := SelectionUpTo(paged, kinds, u, n - 1);
      at := SelectOneMore(at, paged[..n - 1], kinds[..n - 1], u, paged[n - 1], kinds[n - 1]);
      PrefixGrows(paged, n - 1);
      PrefixGrows(kinds, n - 1);
    }
  }

  /** Exactly the groups with text that are no garbled prose become lines, in order. */
  lemma SelectionOfGroups(paged: seq<PagedGroup>, kinds: seq<LineKind>, u: Unicode) returns (at: seq<nat>)
    requires |kinds| == |paged|
    ensures Selects(at, AfterGroups(paged, kinds, u).lines, paged, kinds, u)
  {
    at := SelectionUpTo(paged, kinds, u, |paged|);
    assert paged[..|paged|] == paged && kinds[..|kinds|] == kinds;
  }

  /** How many groups have text. */
  function WithText(paged: seq<PagedGroup>): nat {
    if paged == [] then 0
    else WithText(paged[..|paged| - 1]) + if LineText(paged[|paged| - 1].group) != "" then 1 else 0
  }

  lemma {:induction false} ReportAddsUp(paged: seq<PagedGroup>, kinds: seq<LineKind>, u: Unicode)
    requires |kinds| == |paged|
    ensures
      var doc := AfterGroups(paged, kinds, u);
      doc.kept == |doc.lines| && doc.kept + doc.droppedGarbled == WithText(paged)
  {
    if paged != [] {
      var n := |paged| - 1;
      ReportAddsUp(paged[..n], kinds[..n], u);
    }
  }

  lemma {:induction false} PagesAscend(pages: seq<seq<Segment>>)
    ensures forall i :: 0 <= i < |PagedGroups(pages)| ==> 1 <= PagedGroups(pages)[i].page <= |pages|
    ensures forall i, j :: 0 <= i < j < |PagedGroups(pages)| ==> PagedGroups(pages)[i].page <= PagedGroups(pages)[j].page
    ensures forall i :: 0 <= i < |PagedGroups(pages)| ==>
      var paged := PagedGroups(pages)[i]; paged.group in GroupsOf(pages[paged.page - 1])
  {
    if pages != [] {
      PagesAscend(pages[..|pages| - 1]);
    }
  }

  /** What any document of `structure` looks like. */
  predicate WellFormed(doc: ExtractedDocument, pages: nat) {
    && doc.kept == |doc.lines|
    && (forall k :: 0 <= k < |doc.lines| ==>
      && 1 <= doc.lines[k].page <= pages
      && doc.lines[k].text != "" && Normal(doc.lines[k].text))
    && (forall k, l :: 0 <= k < l < |doc.lines| ==> doc.lines[k].page <= doc.lines[l].page)
  }

  lemma LineTextIsNormal(group: seq<Segment>)
    ensures Normal(LineText(group))
  {
    SortIsStableOrder(group);
    LineTextIsDetermined(group, SortByLeft(group), LineText(group));
  }

  /** The line is the normal text of a group of its page. */
  ghost predicate OfItsPage(line: Line, pages: seq<seq<Segment>>) {
    && 1 <= line.page <= |pages|
    && line.text != "" && Normal(line.text)
    && exists group :: group in GroupsOf(pages[line.page - 1]) && line.text == LineText(group)
  }

  lemma IsLineTells(line: Line, paged: PagedGroup, kind: LineKind, u: Unicode)
    requires IsLine(line, paged, kind, u)
    ensures line.page == paged.page && line.text == LineText(paged.group) && line.text != ""
  {
  }

  lemma LineIsOfItsPage(pages: seq<seq<Segment>>, line: Line, i: nat)
    requires i < |PagedGroups(pages)| && line.page == PagedGroups(pages)[i].page
    requires line.text == LineText(PagedGroups(pages)[i].group) && line.text != ""
    ensures OfItsPage(line, pages)
  {
    GroupIsOfItsPage(pages, i);
    TextIsOfItsPage(pages, line, PagedGroups(pages)[i].group);
  }

  lemma GroupIsOfItsPage(pages: seq<seq<Segment>>, i: nat)
    requires i < |PagedGroups(pages)|
    ensures
      var paged := PagedGroups(pages)[i];
      1 <= paged.page <= |pages| && paged.group in GroupsOf(pages[paged.page - 1])
  {
    PagesAscend(pages);
  }

  lemma TextIsOfItsPage(pages: seq<seq<Segment>>, line: Line, group: seq<Segment>)
    requires 1 <= line.page <= |pages| && group in GroupsOf(pages[line.page - 1])
    requires line.text == LineText(group) && line.text != ""
    ensures OfItsPage(line, pages)
  {
    LineTextIsNormal(group);
  }

  lemma SelectedPagesAscend(pages: seq<seq<Segment>>, lines: seq<Line>, at: seq<nat>, kinds: seq<LineKind>, u: Unicode,
      k: nat, l: nat)
    requires |kinds| == |PagedGroups(pages)| && Selects(at, lines, PagedGroups(pages), kinds, u)
    requires k < l < |lines|
    ensures lines[k].page <= lines[l].page
  {
    PagesAscend(pages);
    var paged := PagedGroups(pages);
    assert IsLine(lines[k], paged[at[k]], kinds[at[k]], u) && IsLine(lines[l], paged[at[l]], kinds[at[l]], u);
  }

  /** The report adds up, pages never go back, and every line is normal text of a group of its page. */
  lemma StructureAccounts(pages: seq<seq<Segment>>, doc: ExtractedDocument, u: Unicode)
    requires Structured(pages, doc, u)
    ensures WellFormed(doc, |pages|)
    ensures doc.kept + doc.droppedGarbled == WithText(PagedGroups(pages))
    ensures forall k :: 0 <= k < |doc.lines| ==> OfItsPage(doc.lines[k], pages)
  {
    var body, kinds :| StructuredAs(pages, body, kinds, doc, u);
    var paged := PagedGroups(pages);
    ReportAddsUp(paged, kinds, u);
    var at := SelectionOfGroups(paged, kinds, u);
    forall k | 0 <= k < |doc.lines| ensures OfItsPage(doc.lines[k], pages) {
      IsLineTells(doc.lines[k], paged[at[k]], kinds[at[k]], u);
      LineIsOfItsPage(pages, doc.lines[k], at[k]);
    }
    forall k, l | 0 <= k < l < |doc.lines| ensures doc.lines[k].page <= doc.lines[l].page {
      SelectedPagesAscend(pages, doc.lines, at, kinds, u, k, l);
    }
  }

  /** No group with text vanishes from a document but garbled prose. */
  lemma StructureSelects(pages: seq<seq<Segment>>, doc: ExtractedDocument, u: Unicode)
    requires Structured(pages, doc, u)
    ensures exists body, kinds, at ::
      && StructuredAs(pages, body, kinds, doc, u)
      && Selects(at, doc.lines, PagedGroups(pages), kinds, u)
  {
    var body, kinds :| StructuredAs(pages, body, kinds, doc, u);
    var at := SelectionOfGroups(PagedGroups(pages), kinds, u);
  }
}
