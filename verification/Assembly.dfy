/** The text of a visual line: its segments from left to right, cleaned and joined. */
module Assembly {
  import opened Text
  import opened Document

  // ----- left to right

  predicate LeftToRight(segments: seq<Segment>) {
    forall i, j :: 0 <= i < j < |segments| ==> segments[i].left <= segments[j].left
  }

  /** The segments that start at `x`, in order. */
  function AtLeft(segments: seq<Segment>, x: real): seq<Segment> {
    if segments == [] then []
    else
      var n := |segments| - 1;
      AtLeft(segments[..n], x) + if segments[n].left == x then [segments[n]] else []
  }

  /** `ordered` is `group` from left to right, segments with the same start in their old order. */
  ghost predicate StableOrder(group: seq<Segment>, ordered: seq<Segment>) {
    LeftToRight(ordered) && forall x: real :: AtLeft(ordered, x) == AtLeft(group, x)
  }

  function InsertByLeft(ordered: seq<Segment>, s: Segment): seq<Segment> {
    var n := |ordered| - 1;
    if ordered == [] || ordered[n].left <= s.left then ordered + [s]
    else InsertByLeft(ordered[..n], s) + [ordered[n]]
  }

  /** The stable sort by left edge. */
  function SortByLeft(group: seq<Segment>): seq<Segment> {
    if group == [] then []
    else InsertByLeft(SortByLeft(group[..|group| - 1]), group[|group| - 1])
  }

  lemma AtLeftSnoc(segments: seq<Segment>, s: Segment, x: real)
    ensures AtLeft(segments + [s], x) == AtLeft(segments, x) + if s.left == x then [s] else []
  {
    assert (segments + [s])[..|segments|] == segments;
  }

  lemma {:induction false} InsertKeepsElements(ordered: seq<Segment>, s: Segment)
    ensures multiset(InsertByLeft(ordered, s)) == multiset(ordered) + multiset{s}
  {
    var n := |ordered| - 1;
    if ordered != [] && ordered[n].left > s.left {
      InsertKeepsElements(ordered[..n], s);
      assert ordered == ordered[..n] + [ordered[n]];
    }
  }

  predicate EndsBy(segments: seq<Segment>, x: real) {
    forall i :: 0 <= i < |segments| ==> segments[i].left <= x
  }

  lemma {:induction false} InsertEndsBy(ordered: seq<Segment>, s: Segment, x: real)
    requires EndsBy(ordered, x) && s.left <= x
    ensures EndsBy(InsertByLeft(ordered, s), x)
  {
    var n := |ordered| - 1;
    if ordered != [] && ordered[n].left > s.left { InsertEndsBy(ordered[..n], s, x); }
  }

  lemma {:induction false} InsertKeepsOrder(ordered: seq<Segment>, s: Segment)
    requires LeftToRight(ordered)
    ensures LeftToRight(InsertByLeft(ordered, s))
  {
    var n := |ordered| - 1;
    if ordered != [] && ordered[n].left > s.left {
      InsertKeepsOrder(ordered[..n], s);
      InsertEndsBy(ordered[..n], s, ordered[n].left);
    }
  }

  /** A segment further right does not come between. */
  lemma StaysLast(init: seq<Segment>, last: Segment, inserted: seq<Segment>, s: Segment, x: real)
    requires s.left < last.left && AtLeft(inserted, x) == AtLeft(init, x) + if s.left == x then [s] else []
    ensures AtLeft(inserted + [last], x) == AtLeft(init + [last], x) + if s.left == x then [s] else []
  {
    AtLeftSnoc(inserted, last, x);
    AtLeftSnoc(init, last, x);
  }

  lemma {:induction false} InsertGoesLast(ordered: seq<Segment>, s: Segment, x: real)
    ensures AtLeft(InsertByLeft(ordered, s), x) == AtLeft(ordered, x) + if s.left == x then [s] else []
  {
    var n := |ordered| - 1;
    if ordered == [] || ordered[n].left <= s.left {
      AtLeftSnoc(ordered, s, x);
    } else {
      InsertGoesLast(ordered[..n], s, x);
      StaysLast(ordered[..n], ordered[n], InsertByLeft(ordered[..n], s), s, x);
      assert ordered == ordered[..n] + [ordered[n]];
    }
  }

  /** The sort is a stable order of its input, and a permutation of it. */
  lemma {:induction false} SortIsStableOrder(group: seq<Segment>)
    ensures StableOrder(group, SortByLeft(group))
    ensures multiset(SortByLeft(group)) == multiset(group)
  {
    if group != [] {
      var n := |group| - 1;
      SortIsStableOrder(group[..n]);
      assert group == group[..n] + [group[n]];
      InsertKeepsOrder(SortByLeft(group[..n]), group[n]);
      InsertKeepsElements(SortByLeft(group[..n]), group[n]);
      forall x: real ensures AtLeft(SortByLeft(group), x) == AtLeft(group, x) {
        InsertGoesLast(SortByLeft(group[..n]), group[n], x);
      }
    }
  }

  lemma AtLeftFinds(segments: seq<Segment>, i: nat)
    requires i < |segments|
    ensures AtLeft(segments, segments[i].left) != []
  {
    if i < |segments| - 1 { AtLeftFinds(segments[..|segments| - 1], i); }
  }

  lemma AtLeftIsThere(segments: seq<Segment>, x: real)
    requires AtLeft(segments, x) != []
    ensures exists i :: 0 <= i < |segments| && segments[i].left == x
  {
    var n := |segments| - 1;
    if segments[n].left != x {
      AtLeftIsThere(segments[..n], x);
      var i :| 0 <= i < n && segments[..n][i].left == x;
      assert segments[i].left == x;
    }
  }

  lemma ReachesAsFar(ordered: seq<Segment>, x: real)
    requires LeftToRight(ordered) && AtLeft(ordered, x) != []
    ensures ordered != [] && x <= ordered[|ordered| - 1].left
  {
    AtLeftIsThere(ordered, x);
  }

  lemma LastIsFurthest(group: seq<Segment>, a: seq<Segment>, b: seq<Segment>)
    requires StableOrder(group, a) && StableOrder(group, b) && a != []
    ensures b != [] && a[|a| - 1].left <= b[|b| - 1].left
  {
    var x := a[|a| - 1].left;
    AtLeftFinds(a, |a| - 1);
    assert AtLeft(a, x) == AtLeft(group, x) == AtLeft(b, x);
    ReachesAsFar(b, x);
  }

  lemma LastsAgree(group: seq<Segment>, a: seq<Segment>, b: seq<Segment>)
    requires StableOrder(group, a) && StableOrder(group, b) && a != [] && b != []
    requires a[|a| - 1].left == b[|b| - 1].left
    ensures a[|a| - 1] == b[|b| - 1]
    ensures StableOrder(a[..|a| - 1], b[..|b| - 1])
  {
    var p, q := |a| - 1, |b| - 1;
    var x := a[p].left;
    assert AtLeft(a[..p], x) + [a[p]] == AtLeft(a, x) == AtLeft(group, x) == AtLeft(b, x) == AtLeft(b[..q], x) + [b[q]];
    assert a[p] == AtLeft(a, x)[|AtLeft(a, x)| - 1] == b[q];
    forall y: real ensures AtLeft(b[..q], y) == AtLeft(a[..p], y) {
      var tail := if y == x then [a[p]] else [];
      assert AtLeft(a[..p], y) + tail == AtLeft(a, y) == AtLeft(group, y) == AtLeft(b, y) == AtLeft(b[..q], y) + tail;
      assert AtLeft(a[..p], y) == AtLeft(a, y)[..|AtLeft(a, y)| - |tail|] == AtLeft(b[..q], y);
    }
  }

  /** There is only one stable order of a group. */
  lemma {:induction false} StableOrderIsUnique(group: seq<Segment>, a: seq<Segment>, b: seq<Segment>)
    requires StableOrder(group, a) && StableOrder(group, b)
    ensures a == b
    decreases |a|
  {
    if a != [] {
      LastIsFurthest(group, a, b);
      LastIsFurthest(group, b, a);
      var p, q := |a| - 1, |b| - 1;
      LastsAgree(group, a, b);
      StableOrderIsUnique(a[..p], a[..p], b[..q]);
      assert a == a[..p] + [a[p]] && b == b[..q] + [b[q]];
    } else if b != [] {
      LastIsFurthest(group, b, a);
    }
  }

  // ----- up to the first break

  predicate IsBreak(c: char) {
    c == '\r' || c == '\n'
  }

  /** `clean_segment_text`: the text before its first carriage return or newline. */
  function CleanSegmentText(text: string): (clean: string)
    ensures clean <= text
    ensures forall i :: 0 <= i < |clean| ==> !IsBreak(clean[i])
    ensures clean == text || IsBreak(text[|clean|])
  {
    if text == "" || IsBreak(text[0]) then "" else [text[0]] + CleanSegmentText(text[1..])
  }

  // ----- whitespace

  /** A visible character, and whether it follows another one directly. */
  datatype Glyph = Glyph(c: char, attached: bool)

  predicate EndsVisible(s: string) {
    s != "" && !IsSpace(s[|s| - 1])
  }

  /** All that is seen of a text: its characters and where the words break. */
  function Glyphs(s: string): seq<Glyph> {
    if s == "" then []
    else
      var n := |s| - 1;
      Glyphs(s[..n]) + if IsSpace(s[n]) then [] else [Glyph(s[n], EndsVisible(s[..n]))]
  }

  /** A single space is the only whitespace, and only between words. */
  predicate Normal(s: string) {
    && Trimmed(s)
    && (forall i :: 0 <= i < |s| && IsSpace(s[i]) ==> s[i] == ' ')
    && (forall i :: 0 < i < |s| && IsSpace(s[i]) ==> !IsSpace(s[i - 1]))
  }

  /** `str::split_whitespace`. */
  function Words(s: string): (words: seq<string>)
    ensures EndsVisible(s) ==> words != []
  {
    if s == "" then []
    else
      var n := |s| - 1;
      var words := Words(s[..n]);
      if IsSpace(s[n]) then words
      else if EndsVisible(s[..n]) then words[..|words| - 1] + [words[|words| - 1] + [s[n]]]
      else words + [[s[n]]]
  }

  function JoinWords(words: seq<string>): string {
    if words == [] then ""
    else if |words| == 1 then words[0]
    else JoinWords(words[..|words| - 1]) + " " + words[|words| - 1]
  }

  /** `normalize_whitespace`. */
  function NormalizeWhitespace(s: string): string {
    JoinWords(Words(s))
  }

  lemma GlyphsSnoc(s: string, c: char)
    ensures Glyphs(s + [c]) == Glyphs(s) + if IsSpace(c) then [] else [Glyph(c, EndsVisible(s))]
  {
    assert (s + [c])[..|s|] == s;
  }

  lemma JoinOpens(words: seq<string>, word: string)
    ensures JoinWords(words + [word]) == if words == [] then word else JoinWords(words) + " " + word
  {
    assert (words + [word])[..|words|] == words;
  }

  lemma JoinGrows(init: seq<string>, last: string, c: char)
    ensures JoinWords(init + [last + [c]]) == JoinWords(init + [last]) + [c]
  {
    JoinOpens(init, last);
    JoinOpens(init, last + [c]);
    if init != [] {
      var head := JoinWords(init) + " ";
      assert head + (last + [c]) == (head + last) + [c];
    }
  }

  lemma NormalGrows(t: string, c: char)
    requires Normal(t) && !IsSpace(c)
    ensures Normal(t + [c])
    ensures t != "" ==> Glyphs(t + [c]) == Glyphs(t) + [Glyph(c, true)]
  {
    GlyphsSnoc(t, c);
  }

  lemma NormalGrowsSpaced(t: string, c: char)
    requires Normal(t) && t != "" && !IsSpace(c)
    ensures Normal(t + " " + [c])
  {
    var s := t + " " + [c];
    assert forall i :: 0 <= i < |t| ==> s[i] == t[i];
    assert s[|t|] == ' ' && s[|t| + 1] == c;
  }

  /** A character after a space, or at the start, is not attached. */
  lemma GlyphsGrow(t: string, c: char)
    requires !IsSpace(c)
    ensures Glyphs((if t == "" then "" else t + " ") + [c]) == Glyphs(t) + [Glyph(c, false)]
  {
    GlyphsSnoc(t, c);
    GlyphsSnoc(t, ' ');
    GlyphsSnoc(t + " ", c);
  }

  /** One more character, as the words and the normal text see it. */
  lemma NormalizeOneMore(s: string, c: char)
    ensures
      var before, after := NormalizeWhitespace(s), NormalizeWhitespace(s + [c]);
      if IsSpace(c) then after == before
      else if EndsVisible(s) then after == before + [c]
      else after == (if Words(s) == [] then "" else before + " ") + [c]
  {
    assert (s + [c])[..|s|] == s;
    if !IsSpace(c) {
      if EndsVisible(s) {
        var words := Words(s);
        assert words == words[..|words| - 1] + [words[|words| - 1]];
        JoinGrows(words[..|words| - 1], words[|words| - 1], c);
      } else {
        JoinOpens(Words(s), [c]);
      }
    }
  }

  /** The normal text is normal, shows what the text shows, and is empty only without words. */
  lemma {:induction false} NormalizeShowsTheSame(s: string)
    ensures Normal(NormalizeWhitespace(s))
    ensures Glyphs(NormalizeWhitespace(s)) == Glyphs(s)
    ensures NormalizeWhitespace(s) == "" <==> Words(s) == []
  {
    if s != "" {
      var n := |s| - 1;
      var before := NormalizeWhitespace(s[..n]);
      NormalizeShowsTheSame(s[..n]);
      assert s == s[..n] + [s[n]];
      NormalizeOneMore(s[..n], s[n]);
      GlyphsSnoc(s[..n], s[n]);
      if !IsSpace(s[n]) {
        NormalGrows(before, s[n]);
        GlyphsGrow(before, s[n]);
        if before != "" { NormalGrowsSpaced(before, s[n]); }
      }
    }
  }

  /** What lies before the last character of a normal text. */
  lemma NormalEnds(t: string)
    requires Normal(t) && t != ""
    ensures
      var n := |t| - 1;
      if n > 0 && !IsSpace(t[n - 1])
      then Normal(t[..n]) && t[..n] != "" && Glyphs(t) == Glyphs(t[..n]) + [Glyph(t[n], true)]
      else
        var rest := if n == 0 then "" else t[..n - 1];
        && Normal(rest) && (n > 0 ==> rest != "") && Glyphs(t) == Glyphs(rest) + [Glyph(t[n], false)]
        && t == (if rest == "" then "" else rest + " ") + [t[n]]
  {
    var n := |t| - 1;
    assert t == t[..n] + [t[n]];
    if n > 0 && IsSpace(t[n - 1]) {
      assert t[..n] == t[..n - 1] + [t[n - 1]];
      GlyphsSnoc(t[..n - 1], t[n - 1]);
    }
  }

  /** Normal texts that show the same are the same. */
  lemma {:induction false} NormalIsDetermined(a: string, b: string)
    requires Normal(a) && Normal(b) && Glyphs(a) == Glyphs(b)
    ensures a == b
  {
    if a != "" { NormalEnds(a); }
    if b != "" { NormalEnds(b); }
    if a != "" && b != "" {
      var n, m := |a| - 1, |b| - 1;
      var shown := Glyphs(a);
      assert shown[|shown| - 1].c == a[n] == b[m];
      if shown[|shown| - 1].attached {
        assert Glyphs(a[..n]) == shown[..|shown| - 1] == Glyphs(b[..m]);
        NormalIsDetermined(a[..n], b[..m]);
        assert a == a[..n] + [a[n]] && b == b[..m] + [b[m]];
      } else {
        var p, q := if n == 0 then "" else a[..n - 1], if m == 0 then "" else b[..m - 1];
        assert Glyphs(p) == shown[..|shown| - 1] == Glyphs(q);
        NormalIsDetermined(p, q);
      }
    }
  }

  // ----- the line's text

  /** The clean texts of the segments. */
  function CleanTexts(segments: seq<Segment>): (texts: seq<string>)
    ensures |texts| == |segments| && forall i :: 0 <= i < |segments| ==> texts[i] == CleanSegmentText(segments[i].text)
  {
    Map((s: Segment) => CleanSegmentText(s.text), segments)
  }

  function LineText(group: seq<Segment>): string {
    NormalizeWhitespace(Flatten(CleanTexts(SortByLeft(group))))
  }

  /** A line's text is the one normal text showing what its segments show, left to right, before their breaks. */
  lemma LineTextIsDetermined(group: seq<Segment>, ordered: seq<Segment>, t: string)
    requires StableOrder(group, ordered)
    ensures t == LineText(group) <==> Normal(t) && Glyphs(t) == Glyphs(Flatten(CleanTexts(ordered)))
  {
    SortIsStableOrder(group);
    StableOrderIsUnique(group, SortByLeft(group), ordered);
    NormalizeShowsTheSame(Flatten(CleanTexts(ordered)));
    if Normal(t) && Glyphs(t) == Glyphs(Flatten(CleanTexts(ordered))) { NormalIsDetermined(t, LineText(group)); }
  }

  lemma CleanTextsOneMore(segments: seq<Segment>, k: nat)
    requires k < |segments|
    ensures Flatten(CleanTexts(segments[..k + 1])) == Flatten(CleanTexts(segments[..k])) + CleanSegmentText(segments[k].text)
  {
    assert CleanTexts(segments[..k + 1]) == CleanTexts(segments[..k]) + [CleanSegmentText(segments[k].text)];
    FlattenSnoc(CleanTexts(segments[..k]), CleanSegmentText(segments[k].text));
  }

  /** `assemble_text`: a normal text that shows the segments' clean texts, one after the other from left to right. */
  method AssembleText(group: seq<Segment>) returns (line: string)
    ensures line == LineText(group) && Normal(line)
    ensures forall ordered :: StableOrder(group, ordered) ==> Glyphs(line) == Glyphs(Flatten(CleanTexts(ordered)))
  {
    var ordered := SortByLeft(group);
    var text := "";
    for k := 0 to |ordered|
      invariant text == Flatten(CleanTexts(ordered[..k]))
    {
      CleanTextsOneMore(ordered, k);
      text := text + CleanSegmentText(ordered[k].text);
    }
    assert ordered[..|ordered|] == ordered;
    line := NormalizeWhitespace(text);
    SortIsStableOrder(group);
    forall other | StableOrder(group, other) ensures Normal(line) && Glyphs(line) == Glyphs(Flatten(CleanTexts(other))) {
      LineTextIsDetermined(group, other, line);
    }
  }
}
