/** Text as `seq<char>`: the string operations of the Rust standard library the pipeline uses. */
module Text {
  import opened Wrappers

  /** A machine-word count, 64 bits wide. */
  const USIZE_MAX: nat := 0xFFFF_FFFF_FFFF_FFFF

  const I32_MAX: nat := 0x7FFF_FFFF

  /** The Unicode `White_Space` property. */
  predicate IsSpace(c: char) {
    || '\t' <= c <= '\r'
    || c == ' '
    || c == '\U{85}'
    || c == '\U{A0}'
    || c == '\U{1680}'
    || '\U{2000}' <= c <= '\U{200A}'
    || c == '\U{2028}'
    || c == '\U{2029}'
    || c == '\U{202F}'
    || c == '\U{205F}'
    || c == '\U{3000}'
  }

  // ----- trimming

  function TrimStart(s: string): (r: string)
    ensures |r| <= |s| && r == s[|s| - |r|..]
    ensures r != "" ==> !IsSpace(r[0])
    ensures forall i :: 0 <= i < |s| - |r| ==> IsSpace(s[i])
  {
    if s != "" && IsSpace(s[0]) then TrimStart(s[1..]) else s
  }

  function TrimEnd(s: string): (r: string)
    ensures |r| <= |s| && r == s[..|r|]
    ensures r != "" ==> !IsSpace(r[|r| - 1])
    ensures forall i :: |r| <= i < |s| ==> IsSpace(s[i])
  {
    if s != "" && IsSpace(s[|s| - 1]) then TrimEnd(s[..|s| - 1]) else s
  }

  function Trim(s: string): string {
    TrimEnd(TrimStart(s))
  }

  /** Neither end is whitespace. */
  predicate Trimmed(s: string) {
    s == "" || (!IsSpace(s[0]) && !IsSpace(s[|s| - 1]))
  }

  lemma TrimmedIffFixed(s: string)
    ensures Trimmed(s) <==> Trim(s) == s
    ensures Trimmed(Trim(s))
  {
    var t := TrimStart(s);
    var r := TrimEnd(t);
    assert r != "" ==> r[0] == t[0];
  }

  predicate AllSpace(s: string) {
    forall i :: 0 <= i < |s| ==> IsSpace(s[i])
  }

  lemma TrimStartParts(s: string) returns (before: string)
    ensures s == before + TrimStart(s) && AllSpace(before)
  {
    before := s[..|s| - |TrimStart(s)|];
  }

  lemma TrimEndParts(s: string) returns (after: string)
    ensures s == TrimEnd(s) + after && AllSpace(after)
  {
    after := s[|TrimEnd(s)|..];
  }

  lemma PartsMeet(s: string, before: string, rest: string, t: string, after: string)
    requires s == before + rest && rest == t + after
    ensures s == before + t + after
  {
  }

  /** Trimming takes off whitespace at both ends, all of it. */
  lemma TrimParts(s: string) returns (before: string, after: string)
    ensures s == before + Trim(s) + after && AllSpace(before) && AllSpace(after) && Trimmed(Trim(s))
  {
    before := TrimStartParts(s);
    after := TrimEndParts(TrimStart(s));
    PartsMeet(s, before, TrimStart(s), Trim(s), after);
    TrimmedIffFixed(s);
  }

  /** Two tails that start right after the same kind of characters are one. */
  lemma TailIsUnique(s: string, before: string, rest: string, k: nat, such: char -> bool)
    requires s == before + rest && k <= |s|
    requires (forall i :: 0 <= i < |before| ==> such(before[i])) && (rest != "" ==> !such(rest[0]))
    requires (forall i :: 0 <= i < k ==> such(s[i])) && (k < |s| ==> !such(s[k]))
    ensures s[k..] == rest
  {
    assert forall i :: 0 <= i < |before| ==> such(s[i]);
    assert rest != "" ==> s[|before|] == rest[0];
  }

  lemma HeadIsUnique(s: string, rest: string, after: string, k: nat, such: char -> bool)
    requires s == rest + after && k <= |s|
    requires (forall i :: 0 <= i < |after| ==> such(after[i])) && (rest != "" ==> !such(rest[|rest| - 1]))
    requires (forall i :: k <= i < |s| ==> such(s[i])) && (k > 0 ==> !such(s[k - 1]))
    ensures s[..k] == rest
  {
    assert forall i :: |rest| <= i < |s| ==> s[i] == after[i - |rest|];
    assert rest != "" ==> s[|rest| - 1] == rest[|rest| - 1];
  }

  lemma TrimStartOf(before: string, rest: string)
    requires AllSpace(before) && (rest != "" ==> !IsSpace(rest[0]))
    ensures TrimStart(before + rest) == rest
  {
    var s := before + rest;
    TailIsUnique(s, before, rest, |s| - |TrimStart(s)|, IsSpace);
  }

  lemma TrimEndOf(rest: string, after: string)
    requires AllSpace(after) && (rest != "" ==> !IsSpace(rest[|rest| - 1]))
    ensures TrimEnd(rest + after) == rest
  {
    var s := rest + after;
    HeadIsUnique(s, rest, after, |TrimEnd(s)|, IsSpace);
  }

  lemma BlankTrims(s: string)
    requires AllSpace(s)
    ensures Trim(s) == ""
  {
    TrimStartOf(s, "");
    assert s + "" == s;
  }

  lemma TrimIs(s: string, rest: string, t: string)
    requires TrimStart(s) == rest && TrimEnd(rest) == t
    ensures Trim(s) == t
  {
  }

  lemma TrimOfText(before: string, t: string, after: string)
    requires AllSpace(before) && AllSpace(after) && t != "" && !IsSpace(t[0]) && !IsSpace(t[|t| - 1])
    ensures Trim(before + t + after) == t
  {
    var rest := t + after;
    assert rest[0] == t[0];
    PartsMeet(before + rest, before, rest, t, after);
    TrimStartOf(before, rest);
    TrimEndOf(t, after);
    TrimIs(before + rest, rest, t);
  }

  lemma TrimOfBlank(before: string, after: string)
    requires AllSpace(before) && AllSpace(after)
    ensures Trim(before + "" + after) == ""
  {
    BlankTrims(before + "" + after);
  }

  /** There is only one way to take it off. */
  lemma TrimOf(before: string, t: string, after: string)
    requires AllSpace(before) && Trimmed(t) && AllSpace(after)
    ensures Trim(before + t + after) == t
  {
    if t == "" { TrimOfBlank(before, after); } else { TrimOfText(before, t, after); }
  }

  // ----- prefixes and suffixes

  function StripPrefix(s: string, prefix: string): Option<string> {
    if prefix <= s then Some(s[|prefix|..]) else None
  }

  function StripSuffix(s: string, suffix: string): Option<string> {
    if |suffix| <= |s| && s[|s| - |suffix|..] == suffix then Some(s[..|s| - |suffix|]) else None
  }

  lemma PrefixParts(s: string, prefix: string)
    requires StripPrefix(s, prefix).Some?
    ensures s == prefix + StripPrefix(s, prefix).value
  {
  }

  lemma SuffixParts(s: string, suffix: string)
    requires StripSuffix(s, suffix).Some?
    ensures s == StripSuffix(s, suffix).value + suffix
  {
  }

  // ----- lines

  function FindNewline(s: string): (i: nat)
    ensures i <= |s|
    ensures i < |s| ==> s[i] == '\n'
    ensures forall k :: 0 <= k < i ==> s[k] != '\n'
  {
    if s == "" || s[0] == '\n' then 0 else 1 + FindNewline(s[1..])
  }

  function DropCarriageReturn(s: string): string {
    if s != "" && s[|s| - 1] == '\r' then s[..|s| - 1] else s
  }

  /** `str::lines`: a line ends at `\n` or `\r\n`; a last line may lack its ending. */
  function Lines(s: string): seq<string> {
    if s == "" then []
    else
      var i := FindNewline(s);
      if i == |s| then [s] else [DropCarriageReturn(s[..i])] + Lines(s[i + 1..])
  }

  predicate OneLine(s: string) {
    '\n' !in s
  }

  lemma LinesAreOneLine(s: string)
    ensures forall line :: line in Lines(s) ==> OneLine(line)
  {
    if s != "" {
      var i := FindNewline(s);
      if i < |s| {
        LinesAreOneLine(s[i + 1..]);
        assert OneLine(s[..i]);
      }
    }
  }

  /** A complete first line splits off. */
  lemma LinesOfLine(line: string, rest: string)
    requires OneLine(line) && (line != "" ==> line[|line| - 1] != '\r')
    ensures Lines(line + "\n" + rest) == [line] + Lines(rest)
  {
    var s := line + "\n" + rest;
    var i := FindNewline(s);
    assert s[|line|] == '\n';
    assert forall k :: 0 <= k < |line| ==> s[k] == line[k];
    assert s[..i] == line && s[i + 1..] == rest;
  }

  // ----- numbers

  predicate IsDigit(c: char) {
    '0' <= c <= '9'
  }

  predicate AllDigits(s: string) {
    forall i :: 0 <= i < |s| ==> IsDigit(s[i])
  }

  function Value(s: string): nat
    requires AllDigits(s)
  {
    if s == "" then 0 else 10 * Value(s[..|s| - 1]) + (s[|s| - 1] as int - '0' as int)
  }

  /** What follows an optional sign. */
  function Unsigned(s: string): string {
    if "+" <= s then s[1..] else s
  }

  /** `str::parse::<usize>`: an optional `+`, then digits, within the word. */
  function ParseUsize(s: string): Option<nat> {
    var digits := Unsigned(s);
    if digits != "" && AllDigits(digits) && Value(digits) <= USIZE_MAX then Some(Value(digits)) else None
  }

  /** Decimal printing. */
  function Digits(n: nat): (s: string)
    ensures s != "" && AllDigits(s)
  {
    if n < 10 then [('0' as int + n) as char] else Digits(n / 10) + [('0' as int + n % 10) as char]
  }

  lemma ValueOfDigits(n: nat)
    ensures Value(Digits(n)) == n
  {
    if n >= 10 {
      ValueOfDigits(n / 10);
      var s := Digits(n);
      assert s[..|s| - 1] == Digits(n / 10);
    }
  }

  // ----- sequences of sequences

  function Flatten<T>(groups: seq<seq<T>>): seq<T> {
    if groups == [] then [] else Flatten(groups[..|groups| - 1]) + groups[|groups| - 1]
  }

  lemma FlattenSnoc<T>(groups: seq<seq<T>>, last: seq<T>)
    ensures Flatten(groups + [last]) == Flatten(groups) + last
  {
    assert (groups + [last])[..|groups|] == groups;
  }

  function Map<A, B>(f: A -> B, s: seq<A>): (r: seq<B>)
    ensures |r| == |s| && forall i :: 0 <= i < |s| ==> r[i] == f(s[i])
  {
    seq(|s|, i requires 0 <= i < |s| => f(s[i]))
  }

  lemma MapAppend<A, B>(f: A -> B, a: seq<A>, b: seq<A>)
    ensures Map(f, a + b) == Map(f, a) + Map(f, b)
  {
  }

  lemma PrefixGrows<T>(s: seq<T>, k: nat)
    requires k < |s|
    ensures s[..k] + [s[k]] == s[..k + 1]
  {
  }
}
