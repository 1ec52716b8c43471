/** Segments, lines and documents, and the grouping of a page's segments into visual lines. */
module Document {
  import opened Text

  /** A run of text on a page; coordinates in points from the bottom left. */
  datatype Segment = Segment(text: string, left: real, right: real, top: real, bottom: real, font: string) {
    function Height(): real { top - bottom }
  }

  datatype LineKind = Heading | Body | Icons

  datatype Line = Line(page: nat, kind: LineKind, text: string)

  datatype ExtractedDocument = ExtractedDocument(lines: seq<Line>, kept: nat, droppedGarbled: nat)

  // ----- grouping into visual lines

  function Max(a: real, b: real): real {
    if a >= b then a else b
  }

  /** The baselines are within 0.6 of the taller height, that is, of one of the two. */
  predicate SameLine(prev: Segment, curr: Segment): (same: bool)
    ensures same <==>
      || -0.6 * (prev.top - prev.bottom) <= curr.bottom - prev.bottom <= 0.6 * (prev.top - prev.bottom)
      || -0.6 * (curr.top - curr.bottom) <= curr.bottom - prev.bottom <= 0.6 * (curr.top - curr.bottom)
  {
    var gap := curr.bottom - prev.bottom;
    (if gap >= 0.0 then gap else -gap) <= Max(prev.Height(), curr.Height()) * 0.6
  }

  /** Segment `i` of a group is on the line of the one before it. */
  predicate Joined(group: seq<Segment>, i: int)
    requires 0 < i < |group|
  {
    SameLine(group[i - 1], group[i])
  }

  ghost predicate OnOneLine(group: seq<Segment>) {
    && group != []
    && (forall i {:trigger Joined(group, i)} :: 0 < i < |group| ==> Joined(group, i))
  }

  /** Group `g` starts where the baseline jumps away from the end of the group before it. */
  predicate Parted(groups: seq<seq<Segment>>, g: int)
    requires 0 < g < |groups|
  {
    && groups[g - 1] != [] && groups[g] != []
    && !SameLine(groups[g - 1][|groups[g - 1]| - 1], groups[g][0])
  }

  /** The page cut into non-empty groups, exactly where two neighbours are not on one line. */
  ghost predicate Grouping(page: seq<Segment>, groups: seq<seq<Segment>>) {
    && Flatten(groups) == page
    && (forall g {:trigger OnOneLine(groups[g])} :: 0 <= g < |groups| ==> OnOneLine(groups[g]))
    && (forall g {:trigger Parted(groups, g)} :: 0 < g < |groups| ==> Parted(groups, g))
  }

  /** The groups, one segment at a time. */
  function GroupsOf(page: seq<Segment>): (groups: seq<seq<Segment>>)
    ensures page == [] <==> groups == []
  {
    if page == [] then []
    else
      var n := |page| - 1;
      var groups := GroupsOf(page[..n]);
      if n > 0 && SameLine(page[n - 1], page[n])
      then groups[..|groups| - 1] + [groups[|groups| - 1] + [page[n]]]
      else groups + [[page[n]]]
  }

  lemma GroupsSnoc(page: seq<Segment>, s: Segment)
    ensures
      var groups := GroupsOf(page);
      GroupsOf(page + [s]) ==
        if page != [] && SameLine(page[|page| - 1], s)
        then groups[..|groups| - 1] + [groups[|groups| - 1] + [s]]
        else groups + [[s]]
  {
    var all := page + [s];
    assert all[..|all| - 1] == page;
  }

  lemma OpenGroupGrows(page: seq<Segment>, groups: seq<seq<Segment>>, open: seq<Segment>, s: Segment)
    requires page != [] && GroupsOf(page) == groups + [open] && SameLine(page[|page| - 1], s)
    ensures GroupsOf(page + [s]) == groups + [open + [s]]
  {
    GroupsSnoc(page, s);
    assert (groups + [open])[..|groups|] == groups;
  }

  /** Before segment `i`: `lines` are closed, and the group from `start` on is open. */
  ghost predicate OpenAt(page: seq<Segment>, lines: seq<seq<Segment>>, start: nat, i: nat) {
    if page == [] then lines == [] && start == 0
    else start < i <= |page| && GroupsOf(page[..i]) == lines + [page[start..i]]
  }

  lemma OpensAtFirst(page: seq<Segment>)
    ensures OpenAt(page, [], 0, 1)
  {
    if page != [] {
      GroupsSnoc([], page[0]);
      assert page[..1] == [] + [page[0]];
    }
  }

  lemma StaysOpen(page: seq<Segment>, lines: seq<seq<Segment>>, start: nat, i: nat)
    requires OpenAt(page, lines, start, i) && 0 < i < |page| && SameLine(page[i - 1], page[i])
    ensures OpenAt(page, lines, start, i + 1)
  {
    OpenGroupGrows(page[..i], lines, page[start..i], page[i]);
    assert page[..i + 1] == page[..i] + [page[i]];
    assert page[start..i + 1] == page[start..i] + [page[i]];
  }

  lemma OpensNext(page: seq<Segment>, lines: seq<seq<Segment>>, start: nat, i: nat)
    requires OpenAt(page, lines, start, i) && 0 < i < |page| && !SameLine(page[i - 1], page[i])
    ensures start < i && OpenAt(page, lines + [page[start..i]], i, i + 1)
  {
    GroupsSnoc(page[..i], page[i]);
    assert page[..i + 1] == page[..i] + [page[i]];
    assert page[i..i + 1] == [page[i]];
  }

  lemma ClosesAtEnd(page: seq<Segment>, lines: seq<seq<Segment>>, start: nat, i: nat)
    requires OpenAt(page, lines, start, i) && i >= |page|
    ensures GroupsOf(page) == if start < |page| then lines + [page[start..]] else lines
  {
    assert page[..|page|] == page;
  }

  /** `group_into_lines`: a new group starts where the baseline jumps. */
  method GroupIntoLines(page: seq<Segment>) returns (lines: seq<seq<Segment>>)
    ensures lines == GroupsOf(page)
  {
    lines := [];
    var start := 0;
    var i := 1;
    OpensAtFirst(page);
    while i < |page|
      invariant 0 <= start < i && OpenAt(page, lines, start, i)
    {
      var prev, curr := page[i - 1], page[i];
      if !SameLine(prev, curr) {
        OpensNext(page, lines, start, i);
        lines := lines + [page[start..i]];
        start := i;
      } else {
        StaysOpen(page, lines, start, i);
      }
      i := i + 1;
    }
    ClosesAtEnd(page, lines, start, i);
    if start < |page| {
      lines := lines + [page[start..]];
    }
  }

  /** The last segment of the last group is the page's. */
  lemma GroupingEnds(page: seq<Segment>, groups: seq<seq<Segment>>)
    requires Grouping(page, groups) && groups != []
    ensures page != [] && groups[|groups| - 1] != []
    ensures groups[|groups| - 1][|groups[|groups| - 1]| - 1] == page[|page| - 1]
  {
    assert OnOneLine(groups[|groups| - 1]);
  }

  /** A line starting where the baseline jumps is one more group. */
  lemma GroupingOpens(page: seq<Segment>, groups: seq<seq<Segment>>, line: seq<Segment>)
    requires Grouping(page, groups) && OnOneLine(line)
    requires page != [] ==> !SameLine(page[|page| - 1], line[0])
    ensures Grouping(page + line, groups + [line])
  {
    FlattenSnoc(groups, line);
    if groups != [] { GroupingEnds(page, groups); }
    var after := groups + [line];
    forall g | 0 < g < |after| ensures Parted(after, g) {
      if g < |groups| { assert Parted(groups, g); }
    }
  }

  /** All but the last group are a grouping of what lies before it, and it starts where the baseline jumps. */
  lemma GroupingCloses(page: seq<Segment>, groups: seq<seq<Segment>>)
    requires Grouping(page, groups) && groups != []
    ensures
      var init, last := groups[..|groups| - 1], groups[|groups| - 1];
      && OnOneLine(last)
      && page == Flatten(init) + last
      && Grouping(Flatten(init), init)
      && (Flatten(init) != [] ==> !SameLine(Flatten(init)[|Flatten(init)| - 1], last[0]))
  {
    var init := groups[..|groups| - 1];
    forall g | 0 < g < |init| ensures Parted(init, g) { assert Parted(groups, g); }
    forall g | 0 <= g < |init| ensures OnOneLine(init[g]) { assert OnOneLine(groups[g]); }
    assert OnOneLine(groups[|groups| - 1]);
    if init != [] {
      GroupingEnds(Flatten(init), init);
      assert Parted(groups, |groups| - 1);
    }
  }

  lemma OnOneLineGrows(line: seq<Segment>, s: Segment)
    requires OnOneLine(line) && SameLine(line[|line| - 1], s)
    ensures OnOneLine(line + [s])
  {
    var longer := line + [s];
    forall i | 0 < i < |longer| ensures Joined(longer, i) {
      if i < |line| { assert Joined(line, i); }
    }
  }

  /** The groups are a grouping: nothing lost or reordered, each a maximal run of one line. */
  lemma {:induction false} GroupsOfIsGrouping(page: seq<Segment>)
    ensures Grouping(page, GroupsOf(page))
  {
    if page != [] {
      var n := |page| - 1;
      var before := GroupsOf(page[..n]);
      GroupsOfIsGrouping(page[..n]);
      assert page[..n] + [page[n]] == page;
      if n > 0 && SameLine(page[n - 1], page[n]) {
        var init, last := before[..|before| - 1], before[|before| - 1];
        GroupingEnds(page[..n], before);
        GroupingCloses(page[..n], before);
        OnOneLineGrows(last, page[n]);
        GroupingOpens(Flatten(init), init, last + [page[n]]);
        assert Flatten(init) + (last + [page[n]]) == page;
      } else {
        GroupingOpens(page[..n], before, [page[n]]);
      }
    }
  }

  lemma OnOneLineShrinks(line: seq<Segment>)
    requires OnOneLine(line) && |line| > 1
    ensures OnOneLine(line[..|line| - 1]) && SameLine(line[|line| - 2], line[|line| - 1])
  {
    var n := |line| - 1;
    forall i | 0 < i < n ensures Joined(line[..n], i) { assert Joined(line, i); }
    assert Joined(line, n);
  }

  /** A line's worth of segments after a jump of the baseline becomes exactly one group. */
  lemma {:induction false} GroupsOfLine(page: seq<Segment>, line: seq<Segment>)
    requires OnOneLine(line)
    requires page != [] ==> !SameLine(page[|page| - 1], line[0])
    ensures GroupsOf(page + line) == GroupsOf(page) + [line]
  {
    var init, last := line[..|line| - 1], line[|line| - 1];
    assert line == init + [last];
    if init == [] {
      GroupsSnoc(page, last);
    } else {
      OnOneLineShrinks(line);
      GroupsOfLine(page, init);
      OpenLineGrows(page, init, last);
    }
  }

  lemma OpenLineGrows(page: seq<Segment>, init: seq<Segment>, last: Segment)
    requires init != [] && GroupsOf(page + init) == GroupsOf(page) + [init] && SameLine(init[|init| - 1], last)
    ensures GroupsOf(page + (init + [last])) == GroupsOf(page) + [init + [last]]
  {
    OpenGroupGrows(page + init, GroupsOf(page), init, last);
    assert page + (init + [last]) == (page + init) + [last];
  }

  /** There is no other grouping of a page. */
  lemma {:induction false} GroupingIsUnique(page: seq<Segment>, groups: seq<seq<Segment>>)
    requires Grouping(page, groups)
    ensures groups == GroupsOf(page)
    decreases |groups|
  {
    if groups != [] {
      var init, last := groups[..|groups| - 1], groups[|groups| - 1];
      GroupingCloses(page, groups);
      GroupingIsUnique(Flatten(init), init);
      GroupsOfLine(Flatten(init), last);
      assert groups == init + [last];
    }
  }

  /** `group_into_lines` cuts a page in the one way that breaks it exactly where the baseline jumps. */
  lemma GroupingIffGroupsOf(page: seq<Segment>, groups: seq<seq<Segment>>)
    ensures Grouping(page, groups) <==> groups == GroupsOf(page)
  {
    GroupsOfIsGrouping(page);
    if Grouping(page, groups) { GroupingIsUnique(page, groups); }
  }
}
