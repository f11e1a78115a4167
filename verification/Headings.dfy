// The heading pattern of pipeline/parsing.py, as a regular expression and as a scanner. Everything is stated
// for any list of titles; the four canonical ones are `TITLES`.
module Headings {
  import opened Common
  import opened Text

  const TITLES: seq<string> := ["Summary", "Findings", "Suggestions", "Positives"]

  /** No title starts another one, and titles hold neither white space nor hashes. */
  ghost predicate GoodTitles(titles: seq<string>) {
    && titles != []
    && PrefixFree(titles)
    && forall a :: 0 <= a < |titles| ==> titles[a] != "" && forall c :: c in titles[a] ==> !IsSpace(c) && c != '#'
  }

  lemma LettersAreInk(title: string)
    requires forall i :: 0 <= i < |title| ==> 'A' <= title[i] <= 'z'
    ensures forall c :: c in title ==> !IsSpace(c) && c != '#'
  {
  }

  lemma CanonicalTitlesAreGood()
    ensures GoodTitles(TITLES)
  {
    hide IsSpace;
    var a, b, c, d := TITLES[0], TITLES[1], TITLES[2], TITLES[3];
    assert a[0] == 'S' && a[2] == 'm' && b[0] == 'F' && c[0] == 'S' && c[2] == 'g' && d[0] == 'P';
    LettersAreInk(a);
    LettersAreInk(b);
    LettersAreInk(c);
    LettersAreInk(d);
  }

  /** The alternation of the titles. */
  function AnyOf(titles: seq<string>): Regex
    requires titles != []
  {
    if |titles| == 1 then Literal(titles[0]) else Or(Literal(titles[0]), AnyOf(titles[1..]))
  }

  /** The title, as group 1, and the rest of its line. */
  function Named(titles: seq<string>): Regex
    requires titles != []
  {
    Then(Group(AnyOf(titles)), Then(Many(Whitespace), LineEnd))
  }

  /** `^##\s+(Summary|Findings|Suggestions|Positives)\s*$`, multi-line. */
  function HeadingPattern(titles: seq<string>): Regex
    requires titles != []
  {
    Then(LineStart, Then(Literal("##"), Then(One(Whitespace), Then(Many(Whitespace), Named(titles)))))
  }

  // ---------- the scanner, on what follows a line start ----------

  /** A heading at the start of a text: which title, where it stands, and where the match ends. */
  datatype Heading = Heading(title: nat, titleAt: nat, length: nat)

  function TitleIn(titles: seq<string>, s: string): (title: Option<nat>)
    ensures title.Some? ==> title.value < |titles| && titles[title.value] <= s
  {
    if titles == [] then None
    else if titles[0] <= s then Some(0)
    else match TitleIn(titles[1..], s)
      case None => None
      case Some(k) => Some(k + 1)
  }

  /** The last line end inside the leading white space, counting the end of the text. */
  function LineEndIn(s: string): (end: Option<nat>)
    ensures end.Some? ==> end.value <= |s|
  {
    if s == "" then Some(0)
    else if !IsSpace(s[0]) then None
    else match LineEndIn(s[1..])
      case Some(e) => Some(e + 1)
      case None => if s[0] == '\n' then Some(0) else None
  }

  lemma {:induction false} LineEndIsLast(s: string)
    ensures LineEndIn(s).Some? ==> LineEndIn(s).value <= Spaces(s) && AtLineEnd(s, LineEndIn(s).value)
    ensures forall e: nat :: e <= Spaces(s) && AtLineEnd(s, e) ==> LineEndIn(s).Some? && e <= LineEndIn(s).value
  {
    if s != "" && IsSpace(s[0]) {
      LineEndIsLast(s[1..]);
      forall e: nat | e <= Spaces(s) && AtLineEnd(s, e) ensures LineEndIn(s).Some? && e <= LineEndIn(s).value {
        if e > 0 { assert AtLineEnd(s[1..], e - 1); }
      }
    }
  }

  /** The scanner's named part behind the white space. */
  function BehindSpaces(titles: seq<string>, s: string): (heading: Option<Heading>)
    ensures heading.Some? ==>
              && heading.value.title < |titles|
              && heading.value.titleAt <= heading.value.length <= |s|
  {
    match TitleIn(titles, s)
    case None => None
    case Some(k) =>
      match LineEndIn(s[|titles[k]|..])
      case None => None
      case Some(e) => Some(Heading(k, 0, |titles[k]| + e))
  }

  function Shifted(heading: Option<Heading>, offset: nat): Option<Heading> {
    match heading
    case None => None
    case Some(h) => Some(Heading(h.title, offset + h.titleAt, offset + h.length))
  }

  /** What follows two hashes and a white-space character: more white space, a title, and a line end. */
  function NamedIn(titles: seq<string>, s: string): (heading: Option<Heading>)
    ensures heading.Some? ==>
              && heading.value.title < |titles|
              && heading.value.titleAt <= heading.value.length <= |s|
  {
    Shifted(BehindSpaces(titles, s[Spaces(s)..]), Spaces(s))
  }

  function HeadingIn(titles: seq<string>, s: string): (heading: Option<Heading>)
    ensures heading.Some? ==>
              && heading.value.title < |titles|
              && 3 <= heading.value.titleAt <= heading.value.length <= |s|
              && s[0] == '#' && s[1] == '#'
  {
    if |s| < 3 || s[0] != '#' || s[1] != '#' || !IsSpace(s[2]) then None
    else
      Shifted(NamedIn(titles, s[3..]), 3)
  }

  /** The heading that the pattern matches at position `i` of a text. */
  function HeadingAt(titles: seq<string>, text: string, i: nat): Option<Heading>
    requires i <= |text|
  {
    if AtLineStart(text, i) then HeadingIn(titles, text[i..]) else None
  }

  // ---------- the scanner is the pattern ----------

  lemma LineEndHits(text: string, i: nat, group: Option<(nat, nat)>)
    ensures Continue(LineEnd, text, [Hit(i, group)]) == if AtLineEnd(text, i) then [Hit(i, group)] else []
  {
    ContinueOne(LineEnd, text, Hit(i, group));
  }

  /** Greedy white space then `$`: backtracks to the last line end inside the white space. */
  lemma {:induction false} TailHits(text: string, i: nat, group: Option<(nat, nat)>)
    requires i <= |text|
    ensures var end, hits := LineEndIn(text[i..]), Continue(LineEnd, text, Hits(Many(Whitespace), text, i, group));
            if end == None then hits == [] else hits != [] && hits[0] == Hit(i + end.value, group)
    decreases |text| - i
  {
    LineEndHits(text, i, group);
    if i < |text| && IsSpace(text[i]) {
      var later := Hits(Many(Whitespace), text, i + 1, group);
      TailHits(text, i + 1, group);
      ContinueAppend(LineEnd, text, later, [Hit(i, group)]);
      assert text[i..][1..] == text[i + 1..];
    }
  }

  lemma PrefixStarts(text: string, n: nat, s: string)
    requires n <= |text|
    ensures StartsWith(text, n, s) <==> s <= text[n..]
  {
    if s <= text[n..] {
      assert text[n..][..|s|] == text[n..n + |s|];
    }
  }

  /** No title starts another one. */
  ghost predicate PrefixFree(titles: seq<string>) {
    forall a, b :: 0 <= a < |titles| && 0 <= b < |titles| && titles[a] <= titles[b] ==> a == b
  }

  lemma {:induction false} TitleFound(titles: seq<string>, k: nat, s: string)
    requires PrefixFree(titles) && k < |titles| && titles[k] <= s
    ensures TitleIn(titles, s) == Some(k)
  {
    if titles[0] <= s {
      OnePrefix(s, titles[0], titles[k]);
    } else {
      RestIsPrefixFree(titles);
      TitleFound(titles[1..], k - 1, s);
    }
  }

  /** At most one title stands at the start of a text. */
  lemma OneTitleAtMost(titles: seq<string>, s: string)
    requires titles != [] && PrefixFree(titles) && titles[0] <= s
    ensures PrefixFree(titles[1..]) && TitleIn(titles[1..], s) == None
  {
    var rest := titles[1..];
    RestIsPrefixFree(titles);
    var later := TitleIn(rest, s);
    if later.Some? {
      assert titles[later.value + 1] == rest[later.value];
      OnePrefix(s, titles[0], titles[later.value + 1]);
    }
  }

  lemma RestIsPrefixFree(titles: seq<string>)
    requires titles != [] && PrefixFree(titles)
    ensures PrefixFree(titles[1..])
  {
    var rest := titles[1..];
    forall a, b | 0 <= a < |rest| && 0 <= b < |rest| && rest[a] <= rest[b] ensures a == b {
      assert titles[a + 1] <= titles[b + 1];
    }
  }

  /** The one hit of the title that stands at `n`, if any. */
  ghost function TitleHits(titles: seq<string>, text: string, n: nat, group: Option<(nat, nat)>): seq<Hit>
    requires n <= |text|
  {
    match TitleIn(titles, text[n..])
    case None => []
    case Some(k) => [Hit(n + |titles[k]|, group)]
  }

  lemma TitleHitsStep(titles: seq<string>, text: string, n: nat, group: Option<(nat, nat)>)
    requires titles != [] && n <= |text| && PrefixFree(titles)
    ensures PrefixFree(titles[1..])
    ensures TitleHits(titles, text, n, group) ==
            (if StartsWith(text, n, titles[0]) then [Hit(n + |titles[0]|, group)] else [])
            + TitleHits(titles[1..], text, n, group)
  {
    PrefixStarts(text, n, titles[0]);
    if titles[0] <= text[n..] { OneTitleAtMost(titles, text[n..]); } else { RestIsPrefixFree(titles); }
  }

  /** So the alternation has at most one way to match. */
  lemma {:induction false} AnyOfHits(titles: seq<string>, text: string, n: nat, group: Option<(nat, nat)>)
    requires titles != [] && n <= |text| && PrefixFree(titles)
    ensures Hits(AnyOf(titles), text, n, group) == TitleHits(titles, text, n, group)
  {
    LiteralHits(titles[0], text, n, group);
    TitleHitsStep(titles, text, n, group);
    if |titles| > 1 {
      AnyOfHits(titles[1..], text, n, group);
      OrHits(Literal(titles[0]), AnyOf(titles[1..]), text, n, group);
    } else {
      assert TitleHits(titles[1..], text, n, group) == [];
    }
  }

  lemma OnePrefix(s: string, a: string, b: string)
    requires a <= s && b <= s
    ensures a <= b || b <= a
  {
    if |a| <= |b| { assert a == b[..|a|]; } else { assert b == a[..|b|]; }
  }

  /** `alternatives` matches exactly the title that stands at `n`. */
  ghost predicate TitlesAgree(titles: seq<string>, alternatives: Regex, text: string, n: nat)
    requires n <= |text|
  {
    Hits(alternatives, text, n, None) == TitleHits(titles, text, n, None)
  }

  /** The hits of `Then(Group(alternatives), tail)`, as a value. */
  ghost predicate NamedThen(titles: seq<string>, tail: Regex, text: string, n: nat, hits: seq<Hit>)
    requires n <= |text|
  {
    var title := TitleIn(titles, text[n..]);
    if title == None then hits == []
    else
      var after := n + |titles[title.value]|;
      after <= |text| && hits == Hits(tail, text, after, Some((n, after)))
  }

  /** The named part: a title, captured, then what follows it. */
  lemma NamedHits(titles: seq<string>, alternatives: Regex, tail: Regex, text: string, n: nat)
    requires n <= |text| && TitlesAgree(titles, alternatives, text, n)
    ensures NamedThen(titles, tail, text, n, Hits(Then(Group(alternatives), tail), text, n, None))
  {
    ThenGroup(alternatives, tail, text, n, None);
  }

  lemma TitleOpens(titles: seq<string>, s: string)
    requires GoodTitles(titles) && TitleIn(titles, s).Some?
    ensures s != "" && !IsSpace(s[0]) && s[0] != '#'
  {
    var title := titles[TitleIn(titles, s).value];
    assert title[0] in title;
  }

  lemma NoTitleOnSpace(titles: seq<string>, alternatives: Regex, tail: Regex, text: string, e: nat)
    requires GoodTitles(titles) && e < |text| && IsSpace(text[e]) && TitlesAgree(titles, alternatives, text, e)
    ensures Hits(Then(Group(alternatives), tail), text, e, None) == []
  {
    assert text[e..][0] == text[e];
    if TitleIn(titles, text[e..]).Some? { TitleOpens(titles, text[e..]); }
    NamedHits(titles, alternatives, tail, text, e);
  }

  /** Two hashes at a line start, then a white-space character. */
  predicate Marked(text: string, i: nat) {
    AtLineStart(text, i) && i + 2 < |text| && text[i] == '#' && text[i + 1] == '#' && IsSpace(text[i + 2])
  }

  lemma HashHits(hashes: string, spaced: Regex, text: string, i: nat)
    requires i <= |text| && hashes == "##"
    ensures Hits(Then(LineStart, Then(Literal(hashes), spaced)), text, i, None) ==
            if AtLineStart(text, i) && i + 1 < |text| && text[i] == '#' && text[i + 1] == '#'
            then Hits(spaced, text, i + 2, None) else []
  {
    ThenLineStart(Then(Literal(hashes), spaced), text, i, None);
    ThenLiteral(hashes, spaced, text, i, None);
    StartsWithHashes(text, i);
  }

  lemma StartsWithHashes(text: string, i: nat)
    requires i <= |text|
    ensures StartsWith(text, i, "##") <==> i + 2 <= |text| && text[i] == '#' && text[i + 1] == '#'
  {
    if i + 2 <= |text| {
      var two := text[i..i + 2];
      assert two[0] == text[i] && two[1] == text[i + 1];
      assert two == [two[0], two[1]];
    }
  }

  /** `tail` matches like the scanner's line end. */
  ghost predicate TailAgrees(tail: Regex, text: string, e: nat, group: Option<(nat, nat)>)
    requires e <= |text|
  {
    var end, hits := LineEndIn(text[e..]), Hits(tail, text, e, group);
    if end == None then hits == [] else hits != [] && hits[0] == Hit(e + end.value, group)
  }

  lemma SuffixOfSuffix(text: string, i: nat, n: nat)
    requires i <= n <= |text|
    ensures text[i..][n - i..] == text[n..]
  {
  }

  /** The named part on values: a title and a line end behind it make a heading, and a hit. */
  lemma NamedFinds(titles: seq<string>, text: string, n: nat, title: Option<nat>, end: Option<nat>, hits: seq<Hit>)
    requires n <= |text| && title == TitleIn(titles, text[n..])
    requires title == None ==> hits == []
    requires title.Some? ==>
               var after := n + |titles[title.value]|;
               && after <= |text| && end == LineEndIn(text[after..])
               && if end == None then hits == []
                  else hits != [] && hits[0] == Hit(after + end.value, Some((n, after)))
    ensures PatternFinds(BehindSpaces(titles, text[n..]), hits, titles, n)
  {
    if title.Some? { SuffixOfSuffix(text, n, n + |titles[title.value]|); }
  }

  lemma NamedPartAgrees(titles: seq<string>, tail: Regex, text: string, n: nat, hits: seq<Hit>)
    requires n <= |text| && NamedThen(titles, tail, text, n, hits)
    requires forall e: nat, group {:trigger TailAgrees(tail, text, e, group)} :: e <= |text| ==>
               TailAgrees(tail, text, e, group)
    ensures PatternFinds(BehindSpaces(titles, text[n..]), hits, titles, n)
  {
    var title := TitleIn(titles, text[n..]);
    if title == None {
      NamedFinds(titles, text, n, title, None, hits);
    } else {
      var after := n + |titles[title.value]|;
      assert TailAgrees(tail, text, after, Some((n, after)));
      NamedFinds(titles, text, n, title, LineEndIn(text[after..]), hits);
    }
  }

  /** `found` is the match tried first among `hits`, with its title as group 1; or there is no match at all. */
  ghost predicate PatternFinds(found: Option<Heading>, hits: seq<Hit>, titles: seq<string>, i: nat) {
    if found == None || found.value.title >= |titles| then found == None && hits == []
    else
      var h := found.value;
      && hits != []
      && hits[0] == Hit(i + h.length, Some((i + h.titleAt, i + h.titleAt + |titles[h.title]|)))
  }

  lemma ShiftedFinds(found: Option<Heading>, hits: seq<Hit>, titles: seq<string>, i: nat, offset: nat)
    requires PatternFinds(found, hits, titles, i + offset)
    ensures PatternFinds(Shifted(found, offset), hits, titles, i)
  {
  }

  lemma HeadingAtParts(titles: seq<string>, text: string, i: nat)
    requires i <= |text|
    ensures HeadingAt(titles, text, i) ==
            if Marked(text, i) then Shifted(NamedIn(titles, text[i + 3..]), 3) else None
  {
    if i + 3 <= |text| { SuffixOfSuffix(text, i, i + 3); }
  }

  lemma NamedInParts(titles: seq<string>, text: string, i: nat, n: nat)
    requires i <= |text| && n == i + Spaces(text[i..])
    ensures n <= |text| && NamedIn(titles, text[i..]) == Shifted(BehindSpaces(titles, text[n..]), n - i)
  {
    SuffixOfSuffix(text, i, n);
  }

  /** The scanner behind a mark: white space, then the named part. */
  lemma BehindMark(titles: seq<string>, text: string, i: nat, n: nat, hits: seq<Hit>)
    requires i <= n <= |text| && n == i + Spaces(text[i..])
    requires PatternFinds(BehindSpaces(titles, text[n..]), hits, titles, n)
    ensures PatternFinds(NamedIn(titles, text[i..]), hits, titles, i)
  {
    hide BehindSpaces, NamedIn, Spaces, IsSpace, PatternFinds;
    var behind := BehindSpaces(titles, text[n..]);
    NamedInParts(titles, text, i, n);
    ShiftedFinds(behind, hits, titles, i, n - i);
  }

  lemma WholePattern(titles: seq<string>, text: string, i: nat, hits: seq<Hit>, inner: seq<Hit>)
    requires i <= |text| && hits == if Marked(text, i) then inner else []
    requires i + 3 <= |text| ==> PatternFinds(NamedIn(titles, text[i + 3..]), inner, titles, i + 3)
    ensures PatternFinds(HeadingAt(titles, text, i), hits, titles, i)
  {
    HeadingAtParts(titles, text, i);
    if Marked(text, i) { ShiftedFinds(NamedIn(titles, text[i + 3..]), inner, titles, i, 3); }
  }

  lemma TitleBehindSpaces(titles: seq<string>, text: string, n: nat)
    requires n <= |text| && BehindSpaces(titles, text[n..]).Some?
    ensures var h := BehindSpaces(titles, text[n..]).value; h.titleAt == 0 && StartsWith(text, n, titles[h.title])
  {
    PrefixStarts(text, n, titles[BehindSpaces(titles, text[n..]).value.title]);
  }

  /** The title the scanner reports is the text of group 1. */
  lemma TitleStandsThere(titles: seq<string>, text: string, i: nat)
    requires i <= |text|
    ensures var found := HeadingAt(titles, text, i);
            found.Some? ==> StartsWith(text, i + found.value.titleAt, titles[found.value.title])
  {
    hide HeadingAt, BehindSpaces, NamedIn, StartsWith, Spaces, IsSpace, AtLineStart;
    HeadingAtParts(titles, text, i);
    if HeadingAt(titles, text, i).Some? {
      var n := i + 3 + Spaces(text[i + 3..]);
      NamedInParts(titles, text, i + 3, n);
      TitleBehindSpaces(titles, text, n);
    }
  }

  lemma TitlePart(titles: seq<string>, alternatives: Regex, tail: Regex, text: string)
    requires GoodTitles(titles) && alternatives == AnyOf(titles) && tail == Then(Many(Whitespace), LineEnd)
    ensures forall e: nat, group {:trigger TailAgrees(tail, text, e, group)} :: e <= |text| ==>
              TailAgrees(tail, text, e, group)
    ensures forall e: nat {:trigger TitlesAgree(titles, alternatives, text, e)} :: e <= |text| ==>
              TitlesAgree(titles, alternatives, text, e)
  {
    forall e: nat, group | e <= |text| ensures TailAgrees(tail, text, e, group) {
      TailHits(text, e, group);
    }
    forall e: nat | e <= |text| ensures TitlesAgree(titles, alternatives, text, e) {
      AnyOfHits(titles, text, e, None);
    }
  }

  lemma NamedNeverOnSpace(titles: seq<string>, alternatives: Regex, tail: Regex, text: string)
    requires GoodTitles(titles)
    requires forall e: nat {:trigger TitlesAgree(titles, alternatives, text, e)} :: e <= |text| ==>
               TitlesAgree(titles, alternatives, text, e)
    ensures NeverOnSpace(Then(Group(alternatives), tail), text, None)
  {
    forall e: nat | e < |text| && IsSpace(text[e]) ensures Hits(Then(Group(alternatives), tail), text, e, None) == [] {
      NoTitleOnSpace(titles, alternatives, tail, text, e);
    }
  }

  lemma NamedPart(titles: seq<string>, alternatives: Regex, tail: Regex, text: string, n: nat)
    requires n <= |text| && TitlesAgree(titles, alternatives, text, n)
    requires forall e: nat, group {:trigger TailAgrees(tail, text, e, group)} :: e <= |text| ==>
               TailAgrees(tail, text, e, group)
    ensures PatternFinds(BehindSpaces(titles, text[n..]),
                         Hits(Then(Group(alternatives), tail), text, n, None), titles, n)
  {
    NamedHits(titles, alternatives, tail, text, n);
    NamedPartAgrees(titles, tail, text, n, Hits(Then(Group(alternatives), tail), text, n, None));
  }

  lemma NamedAt(titles: seq<string>, text: string, n: nat)
    requires n <= |text| && GoodTitles(titles)
    ensures PatternFinds(BehindSpaces(titles, text[n..]), Hits(Named(titles), text, n, None), titles, n)
  {
    TitlePart(titles, AnyOf(titles), Then(Many(Whitespace), LineEnd), text);
    NamedPart(titles, AnyOf(titles), Then(Many(Whitespace), LineEnd), text, n);
  }

  lemma NamedBehindSpaces(titles: seq<string>, text: string, i: nat, n: nat)
    requires i <= |text| && GoodTitles(titles) && n == i + Spaces(text[i..])
    ensures n <= |text|
    ensures Hits(Then(Many(Whitespace), Named(titles)), text, i, None) == Hits(Named(titles), text, n, None)
  {
    TitlePart(titles, AnyOf(titles), Then(Many(Whitespace), LineEnd), text);
    NamedNeverOnSpace(titles, AnyOf(titles), Then(Many(Whitespace), LineEnd), text);
    ThenSpaces(Named(titles), text, i, None);
  }

  /** The parts put together, on the hits of each part. */
  lemma Assembled(titles: seq<string>, text: string, i: nat, whole: seq<Hit>, spaced: seq<Hit>, rest: seq<Hit>)
    requires i <= |text|
    requires whole ==
             if AtLineStart(text, i) && i + 1 < |text| && text[i] == '#' && text[i + 1] == '#' then spaced else []
    requires i + 2 <= |text| ==> spaced == if i + 2 < |text| && IsSpace(text[i + 2]) then rest else []
    requires i + 3 <= |text| ==>
               var n := i + 3 + Spaces(text[i + 3..]);
               n <= |text| && PatternFinds(BehindSpaces(titles, text[n..]), rest, titles, n)
    ensures PatternFinds(HeadingAt(titles, text, i), whole, titles, i)
  {
    if i + 3 <= |text| { BehindMark(titles, text, i + 3, i + 3 + Spaces(text[i + 3..]), rest); }
    WholePattern(titles, text, i, whole, rest);
  }

  lemma RestFinds(titles: seq<string>, text: string, i: nat, n: nat)
    requires GoodTitles(titles) && i <= |text| && n == i + Spaces(text[i..])
    ensures n <= |text|
    ensures PatternFinds(BehindSpaces(titles, text[n..]),
                         Hits(Then(Many(Whitespace), Named(titles)), text, i, None), titles, n)
  {
    hide Hits, Named, BehindSpaces, PatternFinds, Spaces;
    NamedBehindSpaces(titles, text, i, n);
    NamedAt(titles, text, n);
  }

  /** What the scanner finds is what the pattern matches. */
  lemma ScannerIsPattern(titles: seq<string>, text: string, i: nat)
    requires GoodTitles(titles) && i <= |text|
    ensures PatternFinds(HeadingAt(titles, text, i), Hits(HeadingPattern(titles), text, i, None), titles, i)
  {
    hide Hits, Literal, Named, HeadingAt, BehindSpaces, PatternFinds, Spaces, AtLineStart;
    var rest := Then(Many(Whitespace), Named(titles));
    var spaced := Then(One(Whitespace), rest);
    HashHits("##", spaced, text, i);
    if i + 2 <= |text| { ThenOne(Whitespace, rest, text, i + 2, None); }
    if i + 3 <= |text| { RestFinds(titles, text, i + 3, i + 3 + Spaces(text[i + 3..])); }
    Assembled(titles, text, i, Hits(HeadingPattern(titles), text, i, None),
              Hits(spaced, text, i + 2, None), Hits(rest, text, i + 3, None));
  }
}
