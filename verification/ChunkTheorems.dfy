/**
 What `split` promises: nothing is lost, reordered or misplaced, no chunk outgrows its
 budget, none could have taken the next line, and no other cutting has fewer chunks.
 */
module ChunkTheorems {
  import opened Text
  import opened Chunking

  // ----- cuttings

  predicate OneSection(group: seq<Placed>) {
    forall i :: 0 <= i < |group| ==> group[i].section == group[0].section
  }

  /** A chunk's worth of lines: one section, and a single line or within the budget. */
  predicate Allowed(group: seq<Placed>) {
    && group != []
    && OneSection(group)
    && (|group| == 1 || |Content(group)| <= MAX_CHUNK_CHARS)
  }

  /** `groups` cuts `lines` into consecutive allowed groups. */
  ghost predicate Cutting(groups: seq<seq<Placed>>, lines: seq<Placed>) {
    && Flatten(groups) == lines
    && (forall i :: 0 <= i < |groups| ==> Allowed(groups[i]))
  }

  lemma ContentGrows(group: seq<Placed>, line: Placed)
    ensures |Content(group + [line])| == if group == [] then |line.text| else |Content(group)| + 1 + |line.text|
  {
    assert (group + [line])[..|group|] == group;
  }

  lemma PackOneIsCutting(groups: seq<seq<Placed>>, lines: seq<Placed>, line: Placed)
    requires Cutting(groups, lines)
    ensures Cutting(PackOne(groups, line), lines + [line])
  {
    if groups != [] && Fits(groups[|groups| - 1], line) {
      var init, last := groups[..|groups| - 1], groups[|groups| - 1];
      FlattenSnoc(init, last + [line]);
      ContentGrows(last, line);
    } else {
      FlattenSnoc(groups, [line]);
    }
  }

  /** The packing is a cutting: every line is in one chunk, in order, and no chunk is over budget. */
  lemma {:induction false} PackIsCutting(lines: seq<Placed>)
    ensures Cutting(Pack(lines), lines)
  {
    if lines != [] {
      var init := lines[..|lines| - 1];
      PackIsCutting(init);
      PackOneIsCutting(Pack(init), init, lines[|lines| - 1]);
      assert init + [lines[|lines| - 1]] == lines;
    }
  }

  // ----- tightness

  /** Group `i` had no room for the first line of the next one. */
  predicate Tight(groups: seq<seq<Placed>>, i: nat)
    requires i + 1 < |groups| && groups[i] != [] && groups[i + 1] != []
  {
    groups[i][0].section == groups[i + 1][0].section ==>
      |Content(groups[i])| + 1 + |groups[i + 1][0].text| > MAX_CHUNK_CHARS
  }

  /** Two consecutive chunks of a section could not be joined even by one line. */
  lemma {:induction false} PackIsTight(lines: seq<Placed>)
    ensures NonEmpty(Pack(lines))
    ensures forall i :: 0 <= i < |Pack(lines)| - 1 ==> Tight(Pack(lines), i)
  {
    PackIsNonEmpty(lines);
    if lines != [] {
      var init, line := lines[..|lines| - 1], lines[|lines| - 1];
      PackIsTight(init);
      var before, after := Pack(init), Pack(lines);
      forall i | 0 <= i < |after| - 1 ensures Tight(after, i) {
        if i + 1 < |before| { assert Tight(before, i); }
      }
    }
  }

  // ----- optimality

  lemma {:induction false} ContentOfSuffix(group: seq<Placed>, k: nat)
    requires k < |group|
    ensures |Content(group[k..])| <= |Content(group)|
  {
    var init, line := group[..|group| - 1], group[|group| - 1];
    assert group == init + [line];
    ContentGrows(init, line);
    if k < |init| {
      ContentOfSuffix(init, k);
      assert group[k..] == init[k..] + [line];
      ContentGrows(init[k..], line);
    } else {
      assert group[k..] == [line];
    }
  }

  /** A cutting with its last line taken away. */
  function Shortened(groups: seq<seq<Placed>>): seq<seq<Placed>>
    requires groups != [] && groups[|groups| - 1] != []
  {
    var last := groups[|groups| - 1];
    if |last| == 1 then groups[..|groups| - 1] else groups[..|groups| - 1] + [last[..|last| - 1]]
  }

  lemma CuttingEnds(groups: seq<seq<Placed>>, lines: seq<Placed>)
    requires Cutting(groups, lines) && lines != []
    ensures groups != [] && |groups[|groups| - 1]| <= |lines|
    ensures groups[|groups| - 1] == lines[|lines| - |groups[|groups| - 1]|..]
  {
  }

  lemma AllowedShorter(group: seq<Placed>)
    requires Allowed(group) && |group| > 1
    ensures Allowed(group[..|group| - 1])
  {
    var n := |group| - 1;
    ContentGrows(group[..n], group[n]);
    assert group[..n] + [group[n]] == group;
  }

  lemma ShortenedIsCutting(groups: seq<seq<Placed>>, lines: seq<Placed>)
    requires Cutting(groups, lines) && lines != []
    ensures groups != [] && groups[|groups| - 1] != []
    ensures Cutting(Shortened(groups), lines[..|lines| - 1])
  {
    CuttingEnds(groups, lines);
    var init, last := groups[..|groups| - 1], groups[|groups| - 1];
    assert Allowed(last);
    assert lines == Flatten(init) + last;
    if |last| > 1 {
      var shorter := last[..|last| - 1];
      AllowedShorter(last);
      FlattenSnoc(init, shorter);
      assert lines[..|lines| - 1] == Flatten(init) + shorter;
    } else {
      assert lines[..|lines| - 1] == Flatten(init);
    }
  }

  /** The packing has used at most as many groups, and if as many, its last one is no longer. */
  predicate Leads(packed: seq<seq<Placed>>, groups: seq<seq<Placed>>) {
    && |packed| <= |groups|
    && (packed != [] && |packed| == |groups| ==> |packed[|packed| - 1]| <= |groups[|groups| - 1]|)
  }

  ghost predicate Ahead(lines: seq<Placed>, groups: seq<seq<Placed>>) {
    Leads(Pack(lines), groups)
  }

  /** When the last groups are level, a line the other cutting took in also fits the packing. */
  lemma RoomIsShared(init: seq<Placed>, line: Placed, groups: seq<seq<Placed>>)
    requires init != [] && Cutting(groups, init) && Ahead(init, groups) && |Pack(init)| == |groups|
    requires Allowed(groups[|groups| - 1] + [line])
    ensures Pack(init) != [] && Fits(Pack(init)[|groups| - 1], line)
  {
    PackIsCutting(init);
    CuttingEnds(groups, init);
    CuttingEnds(Pack(init), init);
    SuffixHasRoom(groups[|groups| - 1], Pack(init)[|groups| - 1], line);
  }

  /** A non-empty tail of a group has room for what the group has room for. */
  lemma SuffixHasRoom(group: seq<Placed>, tail: seq<Placed>, line: Placed)
    requires tail != [] && |tail| <= |group| && tail == group[|group| - |tail|..]
    requires Allowed(group + [line])
    ensures Fits(tail, line)
  {
    var k := |group| - |tail|;
    ContentOfSuffix(group, k);
    ContentGrows(group, line);
    var all := group + [line];
    assert all[|group|] == line && all[k] == tail[0];
    assert all[k].section == all[0].section && all[|group|].section == all[0].section;
  }

  /** A line that opens a group in the other cutting may open one in the packing. */
  lemma LeadsWhereOneOpens(packed: seq<seq<Placed>>, line: Placed, groups: seq<seq<Placed>>)
    requires groups != [] && |groups[|groups| - 1]| == 1 && Leads(packed, groups[..|groups| - 1])
    ensures Leads(PackOne(packed, line), groups)
  {
    if packed != [] && Fits(packed[|packed| - 1], line) {
      assert |PackOne(packed, line)| == |packed|;
    } else {
      assert PackOne(packed, line) == packed + [[line]];
    }
  }

  /** With a group in hand the packing may open one where the other cutting does not. */
  lemma LeadsStrictly(packed: seq<seq<Placed>>, line: Placed, groups: seq<seq<Placed>>)
    requires |packed| < |groups| && groups[|groups| - 1] != []
    ensures Leads(PackOne(packed, line), groups)
  {
    if packed != [] && Fits(packed[|packed| - 1], line) {
      assert |PackOne(packed, line)| == |packed|;
    } else {
      assert PackOne(packed, line) == packed + [[line]];
    }
  }

  /** Level with the other cutting, the packing takes the line in as well. */
  lemma LeadsWhereBothTakeIn(packed: seq<seq<Placed>>, line: Placed, groups: seq<seq<Placed>>)
    requires packed != [] && |packed| == |groups| && Fits(packed[|packed| - 1], line)
    requires |packed[|packed| - 1]| + 1 <= |groups[|groups| - 1]|
    ensures Leads(PackOne(packed, line), groups)
  {
    var last := packed[|packed| - 1];
    assert PackOne(packed, line) == packed[..|packed| - 1] + [last + [line]];
  }

  /** Taking in one more line keeps the packing ahead. */
  lemma AheadOneMore(init: seq<Placed>, line: Placed, groups: seq<seq<Placed>>)
    requires groups != [] && groups[|groups| - 1] != [] && Allowed(groups[|groups| - 1])
    requires groups[|groups| - 1][|groups[|groups| - 1]| - 1] == line
    requires Cutting(Shortened(groups), init) && Ahead(init, Shortened(groups))
    ensures Leads(PackOne(Pack(init), line), groups)
  {
    var last, shorter := groups[|groups| - 1], Shortened(groups);
    if |last| == 1 {
      LeadsWhereOneOpens(Pack(init), line, groups);
    } else if |Pack(init)| < |groups| {
      LeadsStrictly(Pack(init), line, groups);
    } else {
      assert shorter[|groups| - 1] == last[..|last| - 1];
      assert last[..|last| - 1] + [line] == last;
      CutsSomething(shorter, init);
      RoomIsShared(init, line, shorter);
      LeadsWhereBothTakeIn(Pack(init), line, groups);
    }
  }

  lemma CutsSomething(groups: seq<seq<Placed>>, lines: seq<Placed>)
    requires Cutting(groups, lines) && groups != []
    ensures lines != []
  {
    assert Allowed(groups[|groups| - 1]);
  }

  lemma {:induction false} PackStaysAhead(lines: seq<Placed>, groups: seq<seq<Placed>>)
    requires Cutting(groups, lines)
    ensures Ahead(lines, groups)
  {
    if lines != [] {
      var init, line := lines[..|lines| - 1], lines[|lines| - 1];
      ShortenedIsCutting(groups, lines);
      PackStaysAhead(init, Shortened(groups));
      CuttingEnds(groups, lines);
      assert Allowed(groups[|groups| - 1]);
      AheadOneMore(init, line, groups);
      assert Pack(lines) == PackOne(Pack(init), line);
    }
  }

  /** No cutting of the lines into allowed groups has fewer groups than the packing. */
  lemma PackIsOptimal(lines: seq<Placed>, groups: seq<seq<Placed>>)
    requires Cutting(groups, lines)
    ensures |Pack(lines)| <= |groups|
  {
    PackStaysAhead(lines, groups);
  }

  // ----- headings and pages

  lemma {:induction false} HeadingsBySection(items: seq<Item>)
    ensures forall p :: p in BodyLines(items) ==>
      p.section <= SectionAfter(items) && (p.section == SectionAfter(items) ==> p.heading == HeadingAfter(items))
    ensures forall p, q :: p in BodyLines(items) && q in BodyLines(items) && p.section == q.section ==> p.heading == q.heading
  {
    if items != [] {
      HeadingsBySection(items[..|items| - 1]);
    }
  }

  lemma InFlatten<T>(groups: seq<seq<T>>, i: nat, x: T)
    requires i < |groups| && x in groups[i]
    ensures x in Flatten(groups)
  {
    if i < |groups| - 1 {
      InFlatten(groups[..|groups| - 1], i, x);
    }
  }

  // ----- reading the lines back out of a chunk

  /** How much of `s` lies before its last newline, all of it if there is none. */
  function BeforeLastNewline(s: string): (n: nat)
    ensures n <= |s|
    ensures n < |s| ==> s[n] == '\n'
    ensures forall k :: n < k < |s| ==> s[k] != '\n'
    ensures n == |s| <==> OneLine(s)
  {
    if OneLine(s) then |s|
    else if s[|s| - 1] == '\n' then |s| - 1
    else
      assert exists k :: 0 <= k < |s| - 1 && s[k] == '\n' && s[..|s| - 1][k] == '\n';
      BeforeLastNewline(s[..|s| - 1])
  }

  /** The rows of a text, cut at each newline. */
  function SplitRows(s: string): seq<string> {
    var n := BeforeLastNewline(s);
    if n == |s| then [s] else SplitRows(s[..n]) + [s[n + 1..]]
  }

  lemma SplitRowsLast(s: string, row: string)
    requires OneLine(row)
    ensures SplitRows(s + "\n" + row) == SplitRows(s) + [row]
  {
    var all := s + "\n" + row;
    var n := BeforeLastNewline(all);
    assert all[|s|] == '\n';
    assert forall k :: |s| < k < |all| ==> all[k] == row[k - |s| - 1];
    assert all[..n] == s && all[n + 1..] == row;
  }

  function Texts(lines: seq<Placed>): (texts: seq<string>)
    ensures |texts| == |lines|
  {
    seq(|lines|, i requires 0 <= i < |lines| => lines[i].text)
  }

  lemma TextsAppend(a: seq<Placed>, b: seq<Placed>)
    ensures Texts(a + b) == Texts(a) + Texts(b)
  {
  }

  lemma ContentSnoc(group: seq<Placed>, line: Placed)
    ensures Content(group + [line]) == if group == [] then line.text else Content(group) + "\n" + line.text
  {
    assert (group + [line])[..|group|] == group;
  }

  lemma {:induction false} RowsOfContent(group: seq<Placed>)
    requires group != [] && forall p :: p in group ==> OneLine(p.text)
    ensures SplitRows(Content(group)) == Texts(group)
  {
    var init, last := group[..|group| - 1], group[|group| - 1];
    assert group == init + [last] && last in group;
    if init == [] {
      RowsOfOne(last);
    } else {
      RowsOfContent(init);
      RowsOfMore(init, last);
    }
  }

  lemma RowsOfOne(line: Placed)
    requires OneLine(line.text)
    ensures SplitRows(Content([line])) == Texts([line])
  {
    assert SplitRows(line.text) == [line.text];
  }

  lemma RowsOfMore(group: seq<Placed>, line: Placed)
    requires group != [] && SplitRows(Content(group)) == Texts(group) && OneLine(line.text)
    ensures SplitRows(Content(group + [line])) == Texts(group + [line])
  {
    ContentSnoc(group, line);
    SplitRowsLast(Content(group), line.text);
    TextsAppend(group, [line]);
  }

  /** The lines of each chunk's content. */
  function ChunkRows(chunks: seq<Chunk>): seq<seq<string>> {
    seq(|chunks|, i requires 0 <= i < |chunks| => SplitRows(chunks[i].content))
  }

  lemma {:induction false} RowsOfChunks(groups: seq<seq<Placed>>)
    requires NonEmpty(groups) && forall p :: p in Flatten(groups) ==> OneLine(p.text)
    ensures Flatten(ChunkRows(ChunksOf(groups))) == Texts(Flatten(groups))
  {
    if groups != [] {
      var init, last := groups[..|groups| - 1], groups[|groups| - 1];
      var rows := SplitRows(Content(last));
      assert Flatten(groups) == Flatten(init) + last;
      RowsOfChunks(init);
      RowsOfContent(last);
      assert ChunkRows(ChunksOf(groups)) == ChunkRows(ChunksOf(init)) + [rows];
      FlattenSnoc(ChunkRows(ChunksOf(init)), rows);
      TextsAppend(Flatten(init), last);
    }
  }

  /** The body of a transcript: its lines that, trimmed, are not blank, no page marker and no heading, in order. */
  ghost function BodyTexts(raws: seq<string>): seq<string> {
    if raws == [] then []
    else
      var n := |raws| - 1;
      BodyTexts(raws[..n]) + if IsBodyLine(raws[n]) then [Trim(raws[n])] else []
  }

  ghost predicate IsBodyLine(raw: string) {
    Trim(raw) != "" && Plain(Trim(raw))
  }

  /** The body texts among the items, in order. */
  function Bodies(items: seq<Item>): seq<string> {
    if items == [] then []
    else
      match items[0]
      case Body(text) => [text] + Bodies(items[1..])
      case _ => Bodies(items[1..])
  }

  lemma BodiesAppend(items: seq<Item>, item: Item)
    ensures Bodies(items + [item]) == Bodies(items) + if item.Body? then [item.text] else []
  {
    if items != [] {
      BodiesAppend(items[1..], item);
      assert (items + [item])[1..] == items[1..] + [item];
    }
  }

  lemma ReadIsBody(raw: string)
    ensures Read(raw).Body? <==> IsBodyLine(raw)
    ensures Read(raw).Body? ==> Read(raw).text == Trim(raw)
  {
    ReadTells(raw);
  }

  lemma ReadAllOneMore(raws: seq<string>, n: nat)
    requires n < |raws|
    ensures ReadAll(raws[..n + 1]) == ReadAll(raws[..n]) + [Read(raws[n])]
  {
    PrefixGrows(raws, n);
    MapAppend(Read, raws[..n], [raws[n]]);
    assert Map(Read, [raws[n]]) == [Read(raws[n])];
  }

  lemma BodiesOfOneMore(raws: seq<string>, n: nat)
    requires n < |raws|
    ensures Bodies(ReadAll(raws[..n + 1]))
      == Bodies(ReadAll(raws[..n])) + if IsBodyLine(raws[n]) then [Trim(raws[n])] else []
  {
    ReadAllOneMore(raws, n);
    BodiesAppend(ReadAll(raws[..n]), Read(raws[n]));
    ReadIsBody(raws[n]);
  }

  lemma {:induction false} BodiesAreTexts(raws: seq<string>)
    ensures Bodies(ReadAll(raws)) == BodyTexts(raws)
  {
    if raws != [] {
      var n := |raws| - 1;
      BodiesAreTexts(raws[..n]);
      BodiesOfOneMore(raws, n);
      assert raws[..n + 1] == raws;
    }
  }

  lemma {:induction false} TextsOfBodyLines(items: seq<Item>)
    ensures Texts(BodyLines(items)) == Bodies(items)
  {
    if items != [] {
      var init, item := items[..|items| - 1], items[|items| - 1];
      TextsOfBodyLines(init);
      BodiesAppend(init, item);
      assert init + [item] == items;
      ReadOneMore(init, item);
      if item.Body? {
        assert Texts(BodyLines(items)) == Texts(BodyLines(init)) + [item.text];
      }
    }
  }

  lemma TrimOneLine(s: string)
    requires OneLine(s)
    ensures OneLine(Trim(s))
  {
    var t := TrimStart(s);
    assert forall c :: c in t ==> c in s;
  }

  lemma BodiesAreOneLine(items: seq<Item>)
    requires forall item :: item in items && item.Body? ==> OneLine(item.text)
    ensures forall text :: text in Bodies(items) ==> OneLine(text)
  {
    if items != [] {
      BodiesAreOneLine(items[1..]);
    }
  }

  lemma ReadAllIsOneLine(transcript: string, item: Item)
    requires item in ReadAll(Lines(transcript)) && item.Body?
    ensures OneLine(item.text)
  {
    var raws := Lines(transcript);
    LinesAreOneLine(transcript);
    var k :| 0 <= k < |raws| && Read(raws[k]) == item;
    ReadTells(raws[k]);
    TrimOneLine(raws[k]);
  }

  lemma PlacedIsOneLine(transcript: string, p: Placed)
    requires p in BodyLines(ReadAll(Lines(transcript)))
    ensures OneLine(p.text)
  {
    var items := ReadAll(Lines(transcript));
    var lines := BodyLines(items);
    TextsOfBodyLines(items);
    forall item | item in items && item.Body? ensures OneLine(item.text) { ReadAllIsOneLine(transcript, item); }
    BodiesAreOneLine(items);
    var k :| 0 <= k < |lines| && lines[k] == p;
    assert Texts(lines)[k] == p.text;
  }

  // ----- what is in force at a line

  /** No page marker among the items from `k` to before `j`. */
  predicate NoMarker(items: seq<Item>, k: nat, j: nat)
    requires j <= |items|
  {
    forall i :: k <= i < j ==> !items[i].Marker?
  }

  predicate NoHeading(items: seq<Item>, k: nat, j: nat)
    requires j <= |items|
  {
    forall i :: k <= i < j ==> !items[i].Section?
  }

  /** `page` is that of the last marker before item `j`, 1 before any. */
  predicate PageInForce(items: seq<Item>, j: nat, page: nat)
    requires j <= |items|
  {
    || (page == 1 && NoMarker(items, 0, j))
    || (exists k: nat :: k < j && items[k] == Marker(page) && NoMarker(items, k + 1, j))
  }

  /** `heading` is the last one before item `j`, empty before any. */
  predicate HeadingInForce(items: seq<Item>, j: nat, heading: string)
    requires j <= |items|
  {
    || (heading == "" && NoHeading(items, 0, j))
    || (exists k: nat :: k < j && items[k] == Section(heading) && NoHeading(items, k + 1, j))
  }

  lemma {:induction false} PageAfterIsInForce(items: seq<Item>, j: nat)
    requires j <= |items|
    ensures PageInForce(items, j, PageAfter(items[..j]))
  {
    if j > 0 {
      assert items[..j][..j - 1] == items[..j - 1];
      if items[j - 1].Marker? {
        assert items[j - 1] == Marker(items[j - 1].page);
      } else {
        PageAfterIsInForce(items, j - 1);
      }
    }
  }

  lemma {:induction false} HeadingAfterIsInForce(items: seq<Item>, j: nat)
    requires j <= |items|
    ensures HeadingInForce(items, j, HeadingAfter(items[..j]))
  {
    if j > 0 {
      assert items[..j][..j - 1] == items[..j - 1];
      if items[j - 1].Section? {
        assert items[j - 1] == Section(items[j - 1].heading);
      } else {
        HeadingAfterIsInForce(items, j - 1);
      }
    }
  }

  /** Item `j` is the body line, with the page and the heading in force there. */
  predicate PlacedAt(items: seq<Item>, j: nat, p: Placed) {
    && j < |items|
    && items[j] == Body(p.text)
    && PageInForce(items, j, p.page)
    && HeadingInForce(items, j, p.heading)
  }

  /** `lines` are the body lines among the first `n` items, found at the rising positions `at`. */
  ghost predicate PlacedLines(items: seq<Item>, n: nat, at: seq<nat>, lines: seq<Placed>)
    requires n <= |items|
  {
    && |at| == |lines|
    && (forall k, l :: 0 <= k < l < |at| ==> at[k] < at[l])
    && (forall k {:trigger PlacedAt(items, at[k], lines[k])} :: 0 <= k < |at| ==> at[k] < n && PlacedAt(items, at[k], lines[k]))
    && (forall j: nat :: j < n && items[j].Body? ==> j in at)
  }

  lemma PlacedOneMore(items: seq<Item>, n: nat, at: seq<nat>, lines: seq<Placed>, p: Placed)
    requires n < |items| && PlacedLines(items, n, at, lines) && PlacedAt(items, n, p)
    ensures PlacedLines(items, n + 1, at + [n], lines + [p])
  {
    var at', lines' := at + [n], lines + [p];
    forall k | 0 <= k < |at'| ensures at'[k] < n + 1 && PlacedAt(items, at'[k], lines'[k]) {
      if k < |at| { assert PlacedAt(items, at[k], lines[k]); }
    }
    assert at'[|at|] == n;
    forall j: nat | j < n && items[j].Body? ensures j in at' { assert j in at; }
  }

  lemma BodyLinesOneMore(items: seq<Item>, n: nat)
    requires n < |items|
    ensures
      var before := BodyLines(items[..n]);
      BodyLines(items[..n + 1]) ==
        if items[n].Body? then before + [PlacedAfter(items[..n], items[n].text)] else before
  {
    assert items[..n + 1][..n] == items[..n];
  }

  lemma PlacedAfterIsInPlace(items: seq<Item>, n: nat)
    requires n < |items| && items[n].Body?
    ensures PlacedAt(items, n, PlacedAfter(items[..n], items[n].text))
  {
    PageAfterIsInForce(items, n);
    HeadingAfterIsInForce(items, n);
  }

  lemma PlacedSkips(items: seq<Item>, n: nat, at: seq<nat>, lines: seq<Placed>)
    requires n < |items| && PlacedLines(items, n, at, lines) && !items[n].Body?
    ensures PlacedLines(items, n + 1, at, lines)
  {
    forall k | 0 <= k < |at| ensures at[k] < n + 1 && PlacedAt(items, at[k], lines[k]) {
      assert PlacedAt(items, at[k], lines[k]);
    }
  }

  lemma PlacesOneMore(items: seq<Item>, n: nat, at: seq<nat>) returns (next: seq<nat>)
    requires n < |items| && PlacedLines(items, n, at, BodyLines(items[..n]))
    ensures PlacedLines(items, n + 1, next, BodyLines(items[..n + 1]))
  {
    var lines := BodyLines(items[..n]);
    BodyLinesOneMore(items, n);
    if items[n].Body? {
      PlacedAfterIsInPlace(items, n);
      PlacedOneMore(items, n, at, lines, PlacedAfter(items[..n], items[n].text));
      next := at + [n];
    } else {
      PlacedSkips(items, n, at, lines);
      next := at;
    }
  }

  lemma {:induction false} PlacesUpTo(items: seq<Item>, n: nat) returns (at: seq<nat>)
    requires n <= |items|
    ensures PlacedLines(items, n, at, BodyLines(items[..n]))
  {
    if n == 0 {
      at := [];
    } else {
      at := PlacesUpTo(items, n - 1);
      at := PlacesOneMore(items, n - 1, at);
    }
  }

  /** Each body line is placed where it stands, under the last heading and on the page of the last marker before it. */
  lemma BodyLinesAreInPlace(items: seq<Item>) returns (at: seq<nat>)
    ensures PlacedLines(items, |items|, at, BodyLines(items))
  {
    at := PlacesUpTo(items, |items|);
    assert items[..|items|] == items;
  }

  // ----- the theorems about split

  /** Conservation: the chunks' lines, in order, are the transcript's body. */
  lemma SplitConserves(transcript: string)
    ensures Flatten(ChunkRows(Split(transcript))) == BodyTexts(Lines(transcript))
  {
    BodiesAreTexts(Lines(transcript));
    var items := ReadAll(Lines(transcript));
    var lines := BodyLines(items);
    PackIsCutting(lines);
    TextsOfBodyLines(items);
    forall p | p in lines ensures OneLine(p.text) { PlacedIsOneLine(transcript, p); }
    RowsOfChunks(Groups(transcript));
  }

  lemma GroupHasOneHeading(transcript: string, i: nat)
    requires i < |Groups(transcript)|
    ensures
      var group := Groups(transcript)[i];
      forall p :: p in group ==> p in BodyLines(ReadAll(Lines(transcript))) && p.heading == group[0].heading
  {
    var items := ReadAll(Lines(transcript));
    var groups := Groups(transcript);
    PackIsCutting(BodyLines(items));
    HeadingsBySection(items);
    assert Allowed(groups[i]);
    forall p | p in groups[i] ensures p in BodyLines(items) && p.heading == groups[i][0].heading {
      InFlatten(groups, i, p);
      InFlatten(groups, i, groups[i][0]);
    }
  }

  /** Chunk `i` holds the lines of its group, with the heading of each of them and the page of the first. */
  ghost predicate HoldsGroup(transcript: string, i: nat)
    requires i < |Split(transcript)|
  {
    var group, chunk := Groups(transcript)[i], Split(transcript)[i];
    && SplitRows(chunk.content) == Texts(group)
    && chunk.page == group[0].page
    && (forall p :: p in group ==> p.heading == chunk.heading)
  }

  lemma ChunkHoldsGroup(transcript: string, i: nat)
    requires i < |Split(transcript)|
    ensures HoldsGroup(transcript, i)
  {
    var group := Groups(transcript)[i];
    GroupHasOneHeading(transcript, i);
    forall p | p in group ensures OneLine(p.text) { PlacedIsOneLine(transcript, p); }
    RowsOfContent(group);
  }

  /**
   Provenance: the lines of the chunks, one chunk after the other, are the body lines where they
   stand, each under the last heading and on the page of the last marker before it; a chunk has
   the heading of each of its lines and the page of its first.
   */
  lemma SplitProvenance(transcript: string) returns (at: seq<nat>)
    ensures |Groups(transcript)| == |Split(transcript)|
    ensures forall i :: 0 <= i < |Split(transcript)| ==> HoldsGroup(transcript, i)
    ensures
      var items := ReadAll(Lines(transcript));
      PlacedLines(items, |items|, at, Flatten(Groups(transcript)))
  {
    var items := ReadAll(Lines(transcript));
    PackIsCutting(BodyLines(items));
    at := BodyLinesAreInPlace(items);
    forall i | 0 <= i < |Split(transcript)| ensures HoldsGroup(transcript, i) { ChunkHoldsGroup(transcript, i); }
  }

  /** Size: a chunk is non-empty, and one line or within the budget; the next chunk's first line did not fit. */
  lemma SplitSizes(transcript: string, i: nat)
    requires i < |Split(transcript)|
    ensures
      var groups, chunks := Groups(transcript), Split(transcript);
      && groups[i] != []
      && (|groups[i]| == 1 || |chunks[i].content| <= 1200)
      && (i + 1 < |chunks| && groups[i][0].section == groups[i + 1][0].section ==>
        |chunks[i].content| + 1 + |groups[i + 1][0].text| > 1200)
  {
    var lines := BodyLines(ReadAll(Lines(transcript)));
    PackIsCutting(lines);
    PackIsTight(lines);
    assert Allowed(Groups(transcript)[i]);
    if i + 1 < |Groups(transcript)| { assert Tight(Groups(transcript), i); }
  }

  /** Optimality: no cutting of the body into one-section groups, each a line or within the budget, has fewer chunks. */
  lemma SplitIsOptimal(transcript: string, groups: seq<seq<Placed>>)
    requires Cutting(groups, BodyLines(ReadAll(Lines(transcript))))
    ensures |Split(transcript)| <= |groups|
  {
    PackIsOptimal(BodyLines(ReadAll(Lines(transcript))), groups);
  }

  // ----- a transcript of one line

  lemma LinesOfOne(text: string)
    requires OneLine(text) && text != ""
    ensures Lines(text) == [text]
  {
    assert FindNewline(text) == |text|;
  }

  lemma PackOfOne(text: string)
    ensures Pack(BodyLines([Item.Body(text)])) == [[Placed(text, 1, "", 0)]]
  {
    ReadOneMore([], Item.Body(text));
    assert [] + [Item.Body(text)] == [Item.Body(text)];
    assert Pack([]) == [];
  }

  lemma ChunksOfOne(line: Placed)
    ensures ChunksOf([[line]]) == [Chunk(line.heading, line.page, line.text)]
  {
  }

  /** A single line that is no page marker and no heading is its own chunk, on page 1 under no heading. */
  lemma PlainLineIsAChunk(text: string)
    requires OneLine(text) && Trimmed(text) && text != "" && Plain(text)
    ensures Split(text) == [Chunk("", 1, text)]
  {
    LinesOfOne(text);
    TrimmedIffFixed(text);
    ReadTells(text);
    assert ReadAll([text]) == [Item.Body(text)];
    PackOfOne(text);
    ChunksOfOne(Placed(text, 1, "", 0));
  }

  /** A comment that does not open with the word `page` is no page marker. */
  lemma OtherCommentIsPlain(inner: string)
    requires !("page" <= Trim(inner))
    ensures Plain("<!--" + inner + "-->")
  {
    var line := "<!--" + inner + "-->";
    CommentOf(inner);
    assert line[0] == '<';
    forall n: nat ensures !IsMarker(line, n) { ParsePageMarkerIff(line, n); }
  }

  lemma NoteIsPlain(line: string)
    requires line == "<!--" + (" " + "note" + " ") + "-->"
    ensures Plain(line)
  {
    TrimOfText(" ", "note", " ");
    assert "page"[0] != "note"[0];
    OtherCommentIsPlain(" " + "note" + " ");
  }

  lemma NoteIsTrimmed()
    ensures OneLine("<!-- note -->") && Trimmed("<!-- note -->")
  {
  }

  /** A comment that is no page marker is text. */
  lemma NoteIsAChunk()
    ensures Split("<!-- note -->") == [Chunk("", 1, "<!-- note -->")]
  {
    NoteIsPlain("<!-- note -->");
    NoteIsTrimmed();
    PlainLineIsAChunk("<!-- note -->");
  }
}
