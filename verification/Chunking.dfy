/** The splitting of a transcript into chunks, and what the resulting chunks are. */
module Chunking {
  import opened Wrappers
  import opened Text

  const MAX_CHUNK_CHARS := 1200

  datatype Chunk = Chunk(heading: string, page: nat, content: string)

  // ----- reading one line

  /** What a comment encloses. */
  function CommentBody(line: string): Option<string> {
    match StripPrefix(line, "<!--")
    case None => None
    case Some(open) => StripSuffix(open, "-->")
  }

  function PageNumber(comment: string): Option<nat> {
    match StripPrefix(Trim(comment), "page")
    case None => None
    case Some(number) => ParseUsize(Trim(number))
  }

  /** `parse_page_marker`. */
  function ParsePageMarker(line: string): Option<nat> {
    match CommentBody(line)
    case None => None
    case Some(comment) => PageNumber(comment)
  }

  /** How a page marker is written: a comment around the word `page` and a number, spaced at will. */
  predicate MadeOf(line: string, before: string, between: string, sign: string, digits: string, after: string, n: nat) {
    && line == "<!--" + (before + ("page" + (between + (sign + digits))) + after) + "-->"
    && AllSpace(before) && AllSpace(between) && AllSpace(after)
    && (sign == "" || sign == "+")
    && digits != "" && AllDigits(digits) && Value(digits) == n <= 0xFFFF_FFFF_FFFF_FFFF
  }

  /** The line is a marker of page `n`. */
  ghost predicate IsMarker(line: string, n: nat) {
    exists before, between, sign, digits, after :: MadeOf(line, before, between, sign, digits, after, n)
  }

  /** The line is no page marker and no heading. */
  ghost predicate Plain(line: string) {
    !("## " <= line) && forall n: nat :: !IsMarker(line, n)
  }

  lemma CommentOf(inner: string)
    ensures CommentBody("<!--" + inner + "-->") == Some(inner)
  {
    var line := "<!--" + inner + "-->";
    assert line[..4] == "<!--" && line[4..] == inner + "-->";
  }

  lemma DigitsAreVisible(digits: string)
    requires digits != "" && AllDigits(digits)
    ensures !IsSpace(digits[0]) && !IsSpace(digits[|digits| - 1]) && digits[0] != '+'
  {
    assert IsDigit(digits[0]) && IsDigit(digits[|digits| - 1]);
  }

  lemma SignedIsTrimmed(sign: string, digits: string)
    requires (sign == "" || sign == "+") && digits != "" && AllDigits(digits)
    ensures Trimmed(sign + digits) && sign + digits != ""
  {
    var s := sign + digits;
    DigitsAreVisible(digits);
    assert s[|s| - 1] == digits[|digits| - 1];
    if sign == "" { assert s[0] == digits[0]; } else { assert s[0] == '+'; }
  }

  lemma UnsignedOf(sign: string, digits: string)
    requires (sign == "" || sign == "+") && digits != "" && digits[0] != '+'
    ensures Unsigned(sign + digits) == digits
  {
    if sign == "" { assert sign + digits == digits; } else { assert (sign + digits)[1..] == digits; }
  }

  lemma NumberOf(sign: string, digits: string)
    requires (sign == "" || sign == "+") && digits != "" && AllDigits(digits) && Value(digits) <= USIZE_MAX
    ensures ParseUsize(sign + digits) == Some(Value(digits))
  {
    DigitsAreVisible(digits);
    UnsignedOf(sign, digits);
  }

  lemma TrimNamed(before: string, rest: string, after: string)
    requires AllSpace(before) && AllSpace(after) && rest != "" && !IsSpace(rest[|rest| - 1])
    ensures Trim(before + ("page" + rest) + after) == "page" + rest
    ensures StripPrefix("page" + rest, "page") == Some(rest)
  {
    var named := "page" + rest;
    assert named[0] == 'p' && named[|named| - 1] == rest[|rest| - 1];
    TrimOfText(before, named, after);
    assert named[..4] == "page" && named[4..] == rest;
  }

  lemma TrimSpaced(between: string, number: string)
    requires AllSpace(between) && Trimmed(number)
    ensures Trim(between + number) == number
  {
    TrimOf(between, number, "");
    assert between + number + "" == between + number;
  }

  lemma PageNumberParts(comment: string, named: string, rest: string, number: string)
    requires Trim(comment) == named && StripPrefix(named, "page") == Some(rest) && Trim(rest) == number
    ensures PageNumber(comment) == ParseUsize(number)
  {
  }

  lemma PageNumberOf(before: string, between: string, number: string, after: string)
    requires AllSpace(before) && AllSpace(between) && AllSpace(after) && Trimmed(number) && number != ""
    ensures PageNumber(before + ("page" + (between + number)) + after) == ParseUsize(number)
  {
    var rest := between + number;
    assert rest[|rest| - 1] == number[|number| - 1];
    TrimNamed(before, rest, after);
    TrimSpaced(between, number);
    PageNumberParts(before + ("page" + rest) + after, "page" + rest, rest, number);
  }

  lemma MarkerIsParsed(line: string, before: string, between: string, sign: string, digits: string, after: string, n: nat)
    requires MadeOf(line, before, between, sign, digits, after, n)
    ensures ParsePageMarker(line) == Some(n)
  {
    NumberOf(sign, digits);
    SignedIsTrimmed(sign, digits);
    PageNumberOf(before, between, sign + digits, after);
    CommentOf(before + ("page" + (between + (sign + digits))) + after);
  }

  lemma NumberIsSigned(s: string) returns (sign: string, digits: string)
    requires ParseUsize(s).Some?
    ensures s == sign + digits && (sign == "" || sign == "+")
    ensures digits != "" && AllDigits(digits) && Value(digits) == ParseUsize(s).value <= USIZE_MAX
  {
    sign := if "+" <= s then "+" else "";
    digits := s[|sign|..];
  }

  lemma CommentParts(line: string)
    requires CommentBody(line).Some?
    ensures line == "<!--" + CommentBody(line).value + "-->"
  {
    PrefixParts(line, "<!--");
    SuffixParts(StripPrefix(line, "<!--").value, "-->");
  }

  lemma SpacesMeet(comment: string, before: string, number: string, rest: string, between: string, middle: string, tail: string)
    requires comment == before + ("page" + number) + rest && number == between + middle + tail
    requires AllSpace(tail) && AllSpace(rest)
    ensures comment == before + ("page" + (between + middle)) + (tail + rest) && AllSpace(tail + rest)
  {
  }

  lemma NamedParts(comment: string) returns (before: string, number: string, after: string)
    requires PageNumber(comment).Some?
    ensures comment == before + ("page" + number) + after && AllSpace(before) && AllSpace(after)
    ensures PageNumber(comment) == ParseUsize(Trim(number))
  {
    before, after := TrimParts(comment);
    number := StripPrefix(Trim(comment), "page").value;
    PrefixParts(Trim(comment), "page");
  }

  lemma NumberParts(comment: string) returns (before: string, between: string, sign: string, digits: string, after: string)
    requires PageNumber(comment).Some?
    ensures comment == before + ("page" + (between + (sign + digits))) + after
    ensures AllSpace(before) && AllSpace(between) && AllSpace(after)
    ensures sign == "" || sign == "+"
    ensures digits != "" && AllDigits(digits) && Value(digits) == PageNumber(comment).value <= USIZE_MAX
  {
    var number, tail, rest;
    before, number, rest := NamedParts(comment);
    between, tail := TrimParts(number);
    sign, digits := NumberIsSigned(Trim(number));
    SpacesMeet(comment, before, number, rest, between, Trim(number), tail);
    after := tail + rest;
  }

  lemma ParsedIsMarker(line: string)
    requires ParsePageMarker(line).Some?
    ensures IsMarker(line, ParsePageMarker(line).value)
  {
    CommentParts(line);
    var before, between, sign, digits, after := NumberParts(CommentBody(line).value);
    assert MadeOf(line, before, between, sign, digits, after, ParsePageMarker(line).value);
  }

  /** Exactly the lines written as a page marker are parsed as one, each as its own page. */
  lemma ParsePageMarkerIff(line: string, n: nat)
    ensures ParsePageMarker(line) == Some(n) <==> IsMarker(line, n)
  {
    if ParsePageMarker(line) == Some(n) { ParsedIsMarker(line); }
    if IsMarker(line, n) {
      var before, between, sign, digits, after :| MadeOf(line, before, between, sign, digits, after, n);
      MarkerIsParsed(line, before, between, sign, digits, after, n);
    }
  }

  datatype Item = Blank | Marker(page: nat) | Section(heading: string) | Body(text: string)

  function ReadLine(line: string): Item {
    if line == "" then Blank
    else
      match ParsePageMarker(line)
      case Some(n) => Marker(n)
      case None =>
        match StripPrefix(line, "## ")
        case Some(heading) => Section(Trim(heading))
        case None => Body(line)
  }

  /** What the scan makes of a line. */
  function Read(raw: string): Item {
    ReadLine(Trim(raw))
  }

  lemma HeadingIsNoMarker(line: string)
    requires "## " <= line
    ensures ParsePageMarker(line) == None
  {
    assert line[0] == '#';
  }

  lemma PlainIff(line: string)
    ensures Plain(line) <==> !("## " <= line) && ParsePageMarker(line) == None
  {
    forall n: nat ensures ParsePageMarker(line) == Some(n) <==> IsMarker(line, n) { ParsePageMarkerIff(line, n); }
    if ParsePageMarker(line).Some? { assert IsMarker(line, ParsePageMarker(line).value); }
  }

  lemma ReadLineTells(line: string)
    ensures ReadLine(line) == Blank <==> line == ""
    ensures ReadLine(line).Marker? <==> line != "" && ParsePageMarker(line).Some?
    ensures ReadLine(line).Marker? ==> ParsePageMarker(line) == Some(ReadLine(line).page)
    ensures ReadLine(line).Section? <==> line != "" && ParsePageMarker(line).None? && "## " <= line
    ensures ReadLine(line).Section? ==> ReadLine(line).heading == Trim(line[3..])
    ensures ReadLine(line).Body? ==> ReadLine(line).text == line
  {
  }

  /** Each kind of line, by what is left of it once trimmed. */
  lemma ReadTells(raw: string)
    ensures
      var line := Trim(raw);
      && (Read(raw) == Blank <==> line == "")
      && (forall n: nat :: Read(raw) == Marker(n) <==> IsMarker(line, n))
      && (Read(raw).Section? <==> "## " <= line)
      && (Read(raw).Section? ==> Read(raw).heading == Trim(line[3..]))
      && (Read(raw) == Body(line) <==> line != "" && Plain(line))
      && (Read(raw).Body? ==> Read(raw).text == line)
  {
    var line := Trim(raw);
    ReadLineTells(line);
    PlainIff(line);
    if "## " <= line { HeadingIsNoMarker(line); }
    forall n: nat ensures Read(raw) == Marker(n) <==> IsMarker(line, n) { ParsePageMarkerIff(line, n); }
  }

  lemma ReadNonEmpty(raw: string)
    ensures Read(raw).Body? ==> Read(raw).text != ""
  {
  }

  // ----- body lines with their place in the transcript

  /** A body line, the page and heading in force at it, and how many headings precede it. */
  datatype Placed = Placed(text: string, page: nat, heading: string, section: nat)

  /** The scan's reading of a whole transcript. */
  function ReadAll(lines: seq<string>): (items: seq<Item>)
    ensures |items| == |lines| && forall i :: 0 <= i < |lines| ==> items[i] == Read(lines[i])
  {
    Map(Read, lines)
  }

  /** The page set by the last marker, 1 before any. */
  function PageAfter(items: seq<Item>): nat {
    if items == [] then 1
    else
      match items[|items| - 1]
      case Marker(n) => n
      case _ => PageAfter(items[..|items| - 1])
  }

  /** The last heading, empty before any. */
  function HeadingAfter(items: seq<Item>): string {
    if items == [] then ""
    else
      match items[|items| - 1]
      case Section(h) => h
      case _ => HeadingAfter(items[..|items| - 1])
  }

  function SectionAfter(items: seq<Item>): nat {
    if items == [] then 0
    else SectionAfter(items[..|items| - 1]) + if items[|items| - 1].Section? then 1 else 0
  }

  /** The body lines, in order, each with its place. */
  function BodyLines(items: seq<Item>): seq<Placed> {
    if items == [] then []
    else
      var init := items[..|items| - 1];
      match items[|items| - 1]
      case Body(text) => BodyLines(init) + [Placed(text, PageAfter(init), HeadingAfter(init), SectionAfter(init))]
      case _ => BodyLines(init)
  }

  // ----- packing

  /** A group's lines joined by newlines. */
  function Content(group: seq<Placed>): string {
    if group == [] then ""
    else if |group| == 1 then group[0].text
    else Content(group[..|group| - 1]) + "\n" + group[|group| - 1].text
  }

  predicate Fits(group: seq<Placed>, line: Placed) {
    && group != []
    && group[0].section == line.section
    && |Content(group)| + 1 + |line.text| <= MAX_CHUNK_CHARS
  }

  /** The groups after one more line: it joins the last group if that one is of its section and has room. */
  function PackOne(groups: seq<seq<Placed>>, line: Placed): seq<seq<Placed>> {
    if groups != [] && Fits(groups[|groups| - 1], line)
    then groups[..|groups| - 1] + [groups[|groups| - 1] + [line]]
    else groups + [[line]]
  }

  /** Greedy packing. */
  function Pack(lines: seq<Placed>): seq<seq<Placed>> {
    if lines == [] then [] else PackOne(Pack(lines[..|lines| - 1]), lines[|lines| - 1])
  }

  function ChunkOf(group: seq<Placed>): Chunk
    requires group != []
  {
    Chunk(group[0].heading, group[0].page, Content(group))
  }

  predicate NonEmpty(groups: seq<seq<Placed>>) {
    forall i :: 0 <= i < |groups| ==> groups[i] != []
  }

  function ChunksOf(groups: seq<seq<Placed>>): seq<Chunk>
    requires NonEmpty(groups)
  {
    seq(|groups|, i requires 0 <= i < |groups| => ChunkOf(groups[i]))
  }

  lemma PackOneIsNonEmpty(groups: seq<seq<Placed>>, line: Placed)
    requires NonEmpty(groups)
    ensures NonEmpty(PackOne(groups, line)) && PackOne(groups, line) != []
  {
  }

  lemma {:induction false} PackIsNonEmpty(lines: seq<Placed>)
    ensures NonEmpty(Pack(lines))
    ensures lines != [] ==> Pack(lines) != []
  {
    if lines != [] {
      PackIsNonEmpty(lines[..|lines| - 1]);
      PackOneIsNonEmpty(Pack(lines[..|lines| - 1]), lines[|lines| - 1]);
    }
  }

  /** The groups of body lines behind the chunks of a transcript. */
  function Groups(transcript: string): (groups: seq<seq<Placed>>)
    ensures NonEmpty(groups)
  {
    var lines := BodyLines(ReadAll(Lines(transcript)));
    PackIsNonEmpty(lines);
    Pack(lines)
  }

  /** The specification of `split`. */
  function Split(transcript: string): seq<Chunk> {
    ChunksOf(Groups(transcript))
  }

  // ----- the imperative splitter

  /** The open chunk and the finished ones. */
  class Builder {
    var chunks: seq<Chunk>
    var heading: string
    var page: nat
    var content: string

    constructor ()
      ensures chunks == [] && heading == "" && page == 0 && content == ""
    {
      chunks, heading, page, content := [], "", 0, "";
    }

    /** The finished chunks, with the open one closed behind them. */
    function Closed(): seq<Chunk>
      reads this
    {
      if content == "" then chunks else chunks + [Chunk(heading, page, content)]
    }

    method Flush()
      modifies this
      ensures chunks == old(Closed()) && content == ""
      ensures heading == old(heading) && page == old(page)
    {
      if content != "" {
        chunks := chunks + [Chunk(heading, page, content)];
        content := "";
      }
    }

    method StartSection(newHeading: string)
      modifies this
      ensures chunks == old(Closed()) && content == ""
      ensures heading == newHeading && page == old(page)
    {
      Flush();
      heading := newHeading;
    }

    method PushLine(line: string, linePage: nat)
      modifies this
      ensures heading == old(heading)
      ensures
        var joins := old(content) != "" && |old(content)| + 1 + |line| <= MAX_CHUNK_CHARS;
        if joins then chunks == old(chunks) && page == old(page) && content == old(content) + "\n" + line
        else chunks == old(Closed()) && page == linePage && content == line
    {
      if content == "" {
        page := linePage;
        content := content + line;
        return;
      }
      var wouldBe := |content| + 1 + |line|;
      if wouldBe > MAX_CHUNK_CHARS {
        Flush();
        page := linePage;
        content := content + line;
      } else {
        content := content + "\n";
        content := content + line;
      }
    }

    method Finish() returns (all: seq<Chunk>)
      modifies this
      ensures all == old(Closed()) && chunks == all && content == ""
    {
      Flush();
      all := chunks;
    }

    /** The builder holds `groups`, the last one open exactly if it is of the current section. */
    ghost predicate Holds(groups: seq<seq<Placed>>, currentHeading: string, section: nat)
      reads this
    {
      && heading == currentHeading
      && NonEmpty(groups)
      && Closed() == ChunksOf(groups)
      && (groups != [] ==> groups[|groups| - 1][0].section <= section)
      && (content != "" <==> groups != [] && groups[|groups| - 1][0].section == section)
    }
  }

  lemma OpenedGroup(groups: seq<seq<Placed>>, line: Placed)
    requires NonEmpty(groups)
    ensures NonEmpty(groups + [[line]])
    ensures ChunksOf(groups + [[line]]) == ChunksOf(groups) + [Chunk(line.heading, line.page, line.text)]
  {
  }

  lemma ExtendedGroup(groups: seq<seq<Placed>>, line: Placed)
    requires NonEmpty(groups) && groups != []
    ensures
      var n := |groups| - 1;
      var extended := groups[..n] + [groups[n] + [line]];
      && NonEmpty(extended)
      && ChunksOf(extended) == ChunksOf(groups)[..n]
          + [Chunk(groups[n][0].heading, groups[n][0].page, Content(groups[n]) + "\n" + line.text)]
  {
    var n := |groups| - 1;
    assert (groups[n] + [line])[..|groups[n]|] == groups[n];
  }

  method PushPlaced(builder: Builder, ghost groups: seq<seq<Placed>>, ghost placed: Placed, line: string, page: nat)
    requires builder.Holds(groups, placed.heading, placed.section)
    requires placed.text == line && placed.page == page && line != ""
    modifies builder
    ensures builder.Holds(PackOne(groups, placed), placed.heading, placed.section)
  {
    OpenedGroup(groups, placed);
    if builder.content != "" {
      ExtendedGroup(groups, placed);
      assert builder.Closed()[|groups| - 1] == ChunkOf(groups[|groups| - 1]);
      assert builder.chunks == ChunksOf(groups)[..|groups| - 1];
    }
    builder.PushLine(line, page);
  }

  lemma ReadOneMore(items: seq<Item>, item: Item)
    ensures var all := items + [item];
      && PageAfter(all) == (if item.Marker? then item.page else PageAfter(items))
      && HeadingAfter(all) == (if item.Section? then item.heading else HeadingAfter(items))
      && SectionAfter(all) == SectionAfter(items) + (if item.Section? then 1 else 0)
      && BodyLines(all) == BodyLines(items) + (if item.Body? then [PlacedAfter(items, item.text)] else [])
      && Pack(BodyLines(all)) == (if item.Body? then PackOne(Pack(BodyLines(items)), PlacedAfter(items, item.text)) else Pack(BodyLines(items)))
  {
    var all := items + [item];
    assert all[..|all| - 1] == items;
    if item.Body? {
      assert BodyLines(all)[..|BodyLines(items)|] == BodyLines(items);
    }
  }

  /** A body line as placed after `items`. */
  function PlacedAfter(items: seq<Item>, text: string): Placed {
    Placed(text, PageAfter(items), HeadingAfter(items), SectionAfter(items))
  }

  /** The builder after scanning `items`. */
  ghost predicate Scanned(builder: Builder, items: seq<Item>)
    reads builder
  {
    builder.Holds(Pack(BodyLines(items)), HeadingAfter(items), SectionAfter(items))
  }

  /** One pass of the loop of `split`, over line `raw`. */
  method ScanLine(builder: Builder, ghost before: seq<Item>, raw: string, page: nat) returns (newPage: nat)
    requires Scanned(builder, before) && page == PageAfter(before)
    modifies builder
    ensures Scanned(builder, before + [Read(raw)]) && newPage == PageAfter(before + [Read(raw)])
  {
    var item := Read(raw);
    ReadOneMore(before, item);
    newPage := page;
    match item {
      case Blank =>
      case Marker(n) => newPage := n;
      case Section(heading) => builder.StartSection(heading);
      case Body(line) =>
        ReadNonEmpty(raw);
        PushPlaced(builder, Pack(BodyLines(before)), PlacedAfter(before, line), line, page);
    }
  }

  /** `split`: one pass over the lines. */
  method SplitTranscript(transcript: string) returns (chunks: seq<Chunk>)
    ensures chunks == Split(transcript)
  {
    var builder := new Builder();
    var page := 1;
    var lines := Lines(transcript);
    ghost var items := ReadAll(lines);
    for k := 0 to |lines|
      invariant page == PageAfter(items[..k])
      invariant Scanned(builder, items[..k])
    {
      PrefixGrows(items, k);
      page := ScanLine(builder, items[..k], lines[k], page);
    }
    assert items[..|lines|] == items;
    assert builder.Closed() == ChunksOf(Pack(BodyLines(items)));
    chunks := builder.Finish();
  }
}
