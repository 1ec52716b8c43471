/** What a line is, judged by its fonts and characters, and whether its text is too broken to keep. */
module Classification {
  import opened Wrappers
  import opened Text
  import opened Document

  const MIN_HEADING_LETTERS := 3
  const MAX_HEADING_CHARS := 48

  /** The Unicode tables the judgements consult. */
  datatype Unicode = Unicode(
    alphabetic: char -> bool, numeric: char -> bool, uppercase: char -> bool, lowercase: char -> bool)

  // ----- characters

  /** The Private Use Area of the basic plane. */
  predicate IsIconGlyph(c: char) {
    '\U{E000}' <= c <= '\U{F8FF}'
  }

  /** The Unicode category `Cc`. */
  predicate IsControl(c: char) {
    c <= '\U{1F}' || '\U{7F}' <= c <= '\U{9F}'
  }

  predicate IsPlausible(c: char, u: Unicode) {
    u.alphabetic(c) || u.numeric(c) || c in ".,;:!?'\"()[]-\U{2013}\U{2014}\U{2026}\U{201C}\U{201D}\U{2018}\U{2019}/&%+=\U{B0}#*@"
  }

  /** How many characters of `s` are such. */
  function Count(s: string, such: char -> bool): (n: nat)
    ensures n <= |s|
  {
    if s == "" then 0 else Count(s[..|s| - 1], such) + if such(s[|s| - 1]) then 1 else 0
  }

  lemma CountOneMore(s: string, k: nat, such: char -> bool)
    requires k < |s|
    ensures Count(s[..k + 1], such) == Count(s[..k], such) + if such(s[k]) then 1 else 0
  {
    assert s[..k + 1][..k] == s[..k];
  }

  /** Counting fewer kinds of characters counts fewer characters. */
  lemma CountIsBounded(s: string, such: char -> bool, also: char -> bool)
    requires forall c :: c in s && such(c) ==> also(c)
    ensures Count(s, such) <= Count(s, also)
  {
    if s != "" { CountIsBounded(s[..|s| - 1], such, also); }
  }

  function Visible(): char -> bool { c => !IsSpace(c) }
  function Icon(): char -> bool { c => !IsSpace(c) && IsIconGlyph(c) }
  function NotIcon(): char -> bool { c => !IsIconGlyph(c) }
  function Cased(u: Unicode): char -> bool { c => u.uppercase(c) || u.lowercase(c) }
  function Weird(u: Unicode): char -> bool { c => !IsSpace(c) && !IsPlausible(c, u) }

  /** What each count takes in; no icon is white space, and no letter or numeral is weird. */
  lemma WhatCounts(c: char, u: Unicode)
    ensures Visible()(c) <==> !IsSpace(c)
    ensures Icon()(c) <==> '\U{E000}' <= c <= '\U{F8FF}'
    ensures NotIcon()(c) <==> c < '\U{E000}' || c > '\U{F8FF}'
    ensures Cased(u)(c) <==> u.uppercase(c) || u.lowercase(c)
    ensures Weird(u)(c) ==> !IsSpace(c) && !u.alphabetic(c) && !u.numeric(c)
  {
  }

  // ----- font families

  /** What lies before the first `mark`, and after it. */
  function SplitOnce(s: string, mark: char): (r: Option<(string, string)>)
    ensures r.None? <==> mark !in s
    ensures r.Some? ==> s == r.value.0 + [mark] + r.value.1 && mark !in r.value.0
  {
    if s == "" then None
    else if s[0] == mark then Some(("", s[1..]))
    else
      match SplitOnce(s[1..], mark)
      case None => None
      case Some(parts) => Some(([s[0]] + parts.0, parts.1))
  }

  predicate IsSubsetTag(prefix: string) {
    |prefix| == 6 && forall i :: 0 <= i < 6 ==> 'A' <= prefix[i] <= 'Z'
  }

  /** `font_family`: the name without its subset tag and its style. */
  function FontFamily(font: string): string {
    var parts := SplitOnce(font, '+');
    var name := if parts.Some? && IsSubsetTag(parts.value.0) then parts.value.1 else font;
    match SplitOnce(name, '-')
    case Some(split) => split.0
    case None => name
  }

  lemma {:induction false} SplitAtMark(head: string, mark: char, tail: string)
    requires mark !in head
    ensures SplitOnce(head + [mark] + tail, mark) == Some((head, tail))
  {
    var s := head + [mark] + tail;
    if head == "" {
      assert s[1..] == tail;
    } else {
      SplitAtMark(head[1..], mark, tail);
      assert s[1..] == head[1..] + [mark] + tail;
      assert [head[0]] + head[1..] == head;
    }
  }

  /** A style never looks like a subset tag. */
  lemma StyleIsNoTag(family: string, style: string)
    requires '+' !in family
    ensures
      var parts := SplitOnce(family + "-" + style, '+');
      parts.Some? ==> !IsSubsetTag(parts.value.0)
  {
    var s := family + "-" + style;
    var parts := SplitOnce(s, '+');
    if parts.Some? {
      var head := parts.value.0;
      assert s[|head|] == '+';
      assert |head| > |family| && head[|family|] == s[|family|] == '-';
    }
  }

  /** All weights and styles of a face collapse: any subset tag and any style leave the family. */
  lemma FamilyIgnoresTagAndStyle(family: string, tag: string, style: string)
    requires '+' !in family && '-' !in family && IsSubsetTag(tag)
    ensures FontFamily(family) == family
    ensures FontFamily(family + "-" + style) == family
    ensures FontFamily(tag + "+" + family) == family
    ensures FontFamily(tag + "+" + (family + "-" + style)) == family
  {
    SplitAtMark(tag, '+', family);
    SplitAtMark(tag, '+', family + "-" + style);
    SplitAtMark(family, '-', style);
    StyleIsNoTag(family, style);
  }

  /** Any other prefix is part of the name. */
  lemma OtherPrefixStays(prefix: string, name: string)
    requires '+' !in prefix && '-' !in prefix && '-' !in name && !IsSubsetTag(prefix)
    ensures FontFamily(prefix + "+" + name) == prefix + "+" + name
  {
    SplitAtMark(prefix, '+', name);
  }

  // ----- the dominant family

  /** How many non-icon characters are set in the family. */
  function Coverage(segments: seq<Segment>, family: string): nat {
    if segments == [] then 0
    else
      var n := |segments| - 1;
      Coverage(segments[..n], family)
      + if FontFamily(segments[n].font) == family then Count(segments[n].text, NotIcon()) else 0
  }

  predicate Occurs(segments: seq<Segment>, family: string) {
    family != "" && exists i :: 0 <= i < |segments| && FontFamily(segments[i].font) == family
  }

  /** A named family that covers the most, if there is a named one. */
  ghost predicate MayDominate(segments: seq<Segment>, family: Option<string>) {
    match family
    case None => forall f :: !Occurs(segments, f)
    case Some(best) =>
      && Occurs(segments, best)
      && forall f :: Occurs(segments, f) ==> Coverage(segments, f) <= Coverage(segments, best)
  }

  /** The tally holds each named family with its coverage. */
  ghost predicate Tallied(segments: seq<Segment>, tally: map<string, nat>) {
    && (forall f :: f in tally <==> Occurs(segments, f))
    && (forall f :: f in tally ==> tally[f] == Coverage(segments, f))
  }

  lemma OccursOneMore(segments: seq<Segment>, s: Segment, f: string)
    ensures Occurs(segments + [s], f) <==> Occurs(segments, f) || (f != "" && FontFamily(s.font) == f)
    ensures Coverage(segments + [s], f)
      == Coverage(segments, f) + if FontFamily(s.font) == f then Count(s.text, NotIcon()) else 0
    ensures !Occurs(segments, f) && f != "" ==> Coverage(segments, f) == 0
  {
    var all := segments + [s];
    assert all[..|segments|] == segments;
    assert forall i :: 0 <= i < |segments| ==> all[i] == segments[i];
    assert all[|segments|] == s;
    if !Occurs(segments, f) && f != "" { AbsentCoversNothing(segments, f); }
  }

  lemma {:induction false} AbsentCoversNothing(segments: seq<Segment>, f: string)
    requires f != "" && !Occurs(segments, f)
    ensures Coverage(segments, f) == 0
  {
    if segments != [] {
      var init := segments[..|segments| - 1];
      assert forall i :: 0 <= i < |init| ==> init[i] == segments[i];
      AbsentCoversNothing(init, f);
    }
  }

  /** The body of the counting loops: an unnamed family is passed over. */
  method Tally(before: map<string, nat>, s: Segment, ghost segments: seq<Segment>) returns (tally: map<string, nat>)
    requires Tallied(segments, before)
    ensures Tallied(segments + [s], tally)
  {
    tally := before;
    forall f ensures Occurs(segments + [s], f) <==> Occurs(segments, f) || (f != "" && FontFamily(s.font) == f) {
      OccursOneMore(segments, s, f);
    }
    var family := FontFamily(s.font);
    if family != "" {
      var letters := CountChars(s.text, NotIcon());
      tally := tally[family := (if family in tally then tally[family] else 0) + letters];
    }
    forall f | f in tally ensures tally[f] == Coverage(segments + [s], f) { OccursOneMore(segments, s, f); }
  }

  /** `filter(..).count()` over characters. */
  method CountChars(s: string, such: char -> bool) returns (n: nat)
    ensures n == Count(s, such)
  {
    n := 0;
    for k := 0 to |s|
      invariant n == Count(s[..k], such)
    {
      CountOneMore(s, k, such);
      if such(s[k]) { n := n + 1; }
    }
    assert s[..|s|] == s;
  }

  /** `max_by_key` over a map, whose order of iteration is anyone's guess. */
  method MaxByCount(tally: map<string, nat>) returns (best: Option<string>)
    ensures best.None? <==> tally == map[]
    ensures best.Some? ==> best.value in tally && forall f :: f in tally ==> tally[f] <= tally[best.value]
  {
    best := None;
    var rest := tally.Keys;
    while rest != {}
      invariant rest <= tally.Keys
      invariant best.None? <==> rest == tally.Keys
      invariant best.Some? ==> best.value in tally
      invariant best.Some? ==> forall f :: f in tally && f !in rest ==> tally[f] <= tally[best.value]
      decreases |rest|
    {
      var f :| f in rest;
      if best.None? || tally[best.value] <= tally[f] { best := Some(f); }
      rest := rest - {f};
    }
    if best.None? { assert tally.Keys == {}; }
  }

  lemma TallyDecides(segments: seq<Segment>, tally: map<string, nat>, best: Option<string>)
    requires Tallied(segments, tally)
    requires best.None? <==> tally == map[]
    requires best.Some? ==> best.value in tally && forall f :: f in tally ==> tally[f] <= tally[best.value]
    ensures MayDominate(segments, best)
  {
    if best.None? {
      forall f ensures !Occurs(segments, f) { assert f !in tally; }
    } else {
      forall f | Occurs(segments, f) ensures Coverage(segments, f) <= Coverage(segments, best.value) { assert f in tally; }
    }
  }

  /** `dominant_family`. */
  method DominantFamily(group: seq<Segment>) returns (family: Option<string>)
    ensures MayDominate(group, family)
  {
    var tally: map<string, nat> := map[];
    for k := 0 to |group|
      invariant Tallied(group[..k], tally)
    {
      PrefixGrows(group, k);
      tally := Tally(tally, group[k], group[..k]);
    }
    assert group[..|group|] == group;
    family := MaxByCount(tally);
    TallyDecides(group, tally, family);
  }

  /** The body text's family: a dominant one of all pages, or the empty name. */
  ghost predicate MayBeBody(pages: seq<seq<Segment>>, body: string) {
    exists family :: MayDominate(Flatten(pages), family) && body == if family.Some? then family.value else ""
  }

  /** The inner counting loop, over one page. */
  method TallyPage(before: map<string, nat>, page: seq<Segment>, ghost earlier: seq<Segment>) returns (tally: map<string, nat>)
    requires Tallied(earlier, before)
    ensures Tallied(earlier + page, tally)
  {
    tally := before;
    assert earlier + page[..0] == earlier;
    for k := 0 to |page|
      invariant Tallied(earlier + page[..k], tally)
    {
      assert earlier + page[..k] + [page[k]] == earlier + page[..k + 1];
      tally := Tally(tally, page[k], earlier + page[..k]);
    }
    assert page[..|page|] == page;
  }

  lemma FlattenOneMore<T>(groups: seq<seq<T>>, k: nat)
    requires k < |groups|
    ensures Flatten(groups[..k + 1]) == Flatten(groups[..k]) + groups[k]
  {
    PrefixGrows(groups, k);
    FlattenSnoc(groups[..k], groups[k]);
  }

  /** `dominant_body_family`. */
  method DominantBodyFamily(pages: seq<seq<Segment>>) returns (body: string)
    ensures MayBeBody(pages, body)
  {
    var tally: map<string, nat> := map[];
    for p := 0 to |pages|
      invariant Tallied(Flatten(pages[..p]), tally)
    {
      FlattenOneMore(pages, p);
      tally := TallyPage(tally, pages[p], Flatten(pages[..p]));
    }
    assert pages[..|pages|] == pages;
    var family := MaxByCount(tally);
    TallyDecides(Flatten(pages), tally, family);
    body := if family.Some? then family.value else "";
  }

  // ----- the kind of a line

  function SegmentTexts(group: seq<Segment>): (texts: seq<string>)
    ensures |texts| == |group| && forall i :: 0 <= i < |group| ==> texts[i] == group[i].text
  {
    Map((s: Segment) => s.text, group)
  }

  /** All characters of the line. */
  function Chars(group: seq<Segment>): string {
    Flatten(SegmentTexts(group))
  }

  /** Enough of the visible characters are icons: at least three in five. */
  predicate MostlyIcons(chars: string) {
    Count(chars, Visible()) > 0 && 5 * Count(chars, Icon()) >= 3 * Count(chars, Visible())
  }

  /** At least four in five of the cased letters, and at least one, are uppercase. */
  predicate MostlyUppercase(chars: string, u: Unicode) {
    Count(chars, Cased(u)) > 0 && 5 * Count(chars, u.uppercase) >= 4 * Count(chars, Cased(u))
  }

  /** Short, wordy, in capitals, and not in the body's family. */
  predicate TitleLike(chars: string, family: Option<string>, body: string, u: Unicode) {
    && family.Some? && family.value != body
    && Count(chars, u.alphabetic) >= MIN_HEADING_LETTERS
    && |chars| <= MAX_HEADING_CHARS
    && MostlyUppercase(chars, u)
  }

  /** The kinds the line may be given; a tie between families leaves the choice open. */
  ghost predicate MayClassify(group: seq<Segment>, body: string, kind: LineKind, u: Unicode) {
    var chars := Chars(group);
    match kind
    case Icons => MostlyIcons(chars)
    case Heading =>
      && Count(chars, Visible()) > 0 && !MostlyIcons(chars)
      && exists family :: MayDominate(group, family) && TitleLike(chars, family, body, u)
    case Body =>
      || Count(chars, Visible()) == 0
      || (!MostlyIcons(chars) && exists family :: MayDominate(group, family) && !TitleLike(chars, family, body, u))
  }

  /** `is_mostly_uppercase`. */
  method IsMostlyUppercase(chars: string, u: Unicode) returns (mostly: bool)
    ensures mostly == MostlyUppercase(chars, u)
  {
    var upper, cased := 0, 0;
    for k := 0 to |chars|
      invariant upper == Count(chars[..k], u.uppercase)
      invariant cased == Count(chars[..k], Cased(u))
    {
      CountOneMore(chars, k, u.uppercase);
      CountOneMore(chars, k, Cased(u));
      if u.uppercase(chars[k]) {
        upper, cased := upper + 1, cased + 1;
      } else if u.lowercase(chars[k]) {
        cased := cased + 1;
      }
    }
    assert chars[..|chars|] == chars;
    mostly := cased > 0 && 5 * upper >= 4 * cased;
  }

  /** Three letters, at most 48 characters, and four capitals in five cased letters. */
  predicate InTitleCase(chars: string, u: Unicode) {
    && Count(chars, u.alphabetic) >= 3 && |chars| <= 48
    && Count(chars, Cased(u)) > 0 && 5 * Count(chars, u.uppercase) >= 4 * Count(chars, Cased(u))
  }

  /** `classify`. */
  method Classify(group: seq<Segment>, body: string, u: Unicode) returns (kind: LineKind)
    ensures MayClassify(group, body, kind, u)
    ensures
      var chars := Flatten(SegmentTexts(group));
      var visible, icons := Count(chars, Visible()), Count(chars, Icon());
      && (kind == Icons <==> visible > 0 && 5 * icons >= 3 * visible)
      && (kind == Heading ==>
        && visible > 0 && InTitleCase(chars, u)
        && exists family :: MayDominate(group, Some(family)) && family != body)
      && (kind == Body && visible > 0 && InTitleCase(chars, u) ==>
        MayDominate(group, None) || MayDominate(group, Some(body)))
  {
    var chars := Chars(group);
    var nonSpace, icons := 0, 0;
    for k := 0 to |chars|
      invariant nonSpace == Count(chars[..k], Visible())
      invariant icons == Count(chars[..k], Icon())
    {
      CountOneMore(chars, k, Visible());
      CountOneMore(chars, k, Icon());
      if !IsSpace(chars[k]) {
        nonSpace := nonSpace + 1;
        if IsIconGlyph(chars[k]) { icons := icons + 1; }
      }
    }
    assert chars[..|chars|] == chars;
    if nonSpace == 0 { return Body; }
    if 5 * icons >= 3 * nonSpace { return Icons; }

    var family := DominantFamily(group);
    var letters := CountChars(chars, u.alphabetic);
    var uppercase := IsMostlyUppercase(chars, u);
    var isHeading :=
      && family.Some? && family.value != body
      && letters >= MIN_HEADING_LETTERS
      && |chars| <= MAX_HEADING_CHARS
      && uppercase;
    assert isHeading == TitleLike(chars, family, body, u);
    kind := if isHeading then Heading else Body;
  }

  // ----- garble

  /** A control or replacement character: a broken font for sure. */
  predicate SureGarble(c: char) {
    !IsSpace(c) && (IsControl(c) || c == '\U{FFFD}' || '\U{80}' <= c <= '\U{9F}')
  }

  /** A sure sign anywhere, or more than three in ten visible characters implausible. */
  predicate Garbled(text: string, u: Unicode) {
    (exists i :: 0 <= i < |text| && SureGarble(text[i])) || 10 * Count(text, Weird(u)) > 3 * Count(text, Visible())
  }

  /** `is_garbled`: one scan, left at the first sure sign. */
  method IsGarbled(text: string, u: Unicode) returns (garbled: bool)
    ensures garbled == Garbled(text, u)
    ensures garbled <==>
      || (exists i ::
        && 0 <= i < |text| && !IsSpace(text[i])
        && (text[i] <= '\U{1F}' || '\U{7F}' <= text[i] <= '\U{9F}' || text[i] == '\U{FFFD}'))
      || 10 * Count(text, Weird(u)) > 3 * Count(text, Visible())
  {
    var weird, total := 0, 0;
    for k := 0 to |text|
      invariant weird == Count(text[..k], Weird(u))
      invariant total == Count(text[..k], Visible())
      invariant forall i :: 0 <= i < k ==> !SureGarble(text[i])
    {
      var c := text[k];
      CountOneMore(text, k, Weird(u));
      CountOneMore(text, k, Visible());
      if IsSpace(c) { continue; }
      total := total + 1;
      if IsControl(c) || c == '\U{FFFD}' || '\U{80}' <= c <= '\U{9F}' {
        assert SureGarble(text[k]);
        return true;
      }
      if !IsPlausible(c, u) { weird := weird + 1; }
    }
    assert text[..|text|] == text;
    CountIsBounded(text, Weird(u), Visible());
    garbled := total > 0 && 10 * weird > 3 * total;
  }
}
