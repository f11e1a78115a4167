// The review parser (pipeline/parsing.py) and the section printer of pipeline/reviewer.py.
module Parsing {
  import opened Common
  import opened Text
  import opened Headings

  datatype ParsedReview = ParsedReview(summary: string, findings: string, suggestions: string, positives: string,
                                       raw: string, parseFailed: bool)

  // ---------- all headings of a text ----------

  datatype Match = Match(start: nat, end: nat, title: nat)

  /** `finditer` from position `i`: the next search starts where the last match ended. */
  function Matches(titles: seq<string>, text: string, i: nat): seq<Match>
    decreases |text| - i
  {
    if i >= |text| then []
    else match HeadingAt(titles, text, i)
      case Some(h) => [Match(i, i + h.length, h.title)] + Matches(titles, text, i + h.length)
      case None => Matches(titles, text, i + 1)
  }

  /** A heading as it stands in the text, and the text up to the next one. */
  datatype Block = Block(title: nat, heading: string, body: string)

  /** The length of the text before the first heading; `bol` says whether the text is at the beginning of a line. */
  function BeforeHeading(titles: seq<string>, s: string, bol: bool): (n: nat)
    ensures n <= |s|
  {
    if s == "" || (bol && HeadingIn(titles, s).Some?) then 0
    else 1 + BeforeHeading(titles, s[1..], s[0] == '\n')
  }

  function Blocks(titles: seq<string>, s: string, bol: bool): seq<Block>
    decreases |s|, 1
  {
    BlocksFrom(titles, s[BeforeHeading(titles, s, bol)..])
  }

  /** The blocks of a text that opens with a heading, if it has any left. */
  function BlocksFrom(titles: seq<string>, s: string): seq<Block>
    decreases |s|, 0
  {
    match HeadingIn(titles, s)
    case None => []
    case Some(h) =>
      var rest, bol := s[h.length..], s[h.length - 1] == '\n';
      [Block(h.title, s[..h.length], rest[..BeforeHeading(titles, rest, bol)])] + Blocks(titles, rest, bol)
  }

  /** The blocks cut out of the text at the matches. */
  function Cut(text: string, matches: seq<Match>): seq<Block>
    requires InOrder(text, matches)
  {
    if matches == [] then []
    else
      var m := matches[0];
      [Block(m.title, text[m.start..m.end], text[m.end..BodyEnd(text, matches, 0)])] + Cut(text, matches[1..])
  }

  /** Where the body of match `i` ends: at the next match or at the end of the text. */
  function BodyEnd(text: string, matches: seq<Match>, i: nat): nat
    requires i < |matches|
  {
    if i + 1 < |matches| then matches[i + 1].start else |text|
  }

  ghost predicate InOrder(text: string, matches: seq<Match>) {
    forall i :: 0 <= i < |matches| ==> matches[i].start < matches[i].end <= BodyEnd(text, matches, i) <= |text|
  }

  // ---------- the index form and the suffix form agree ----------

  lemma LineStartAfter(text: string, i: nat)
    requires i < |text|
    ensures AtLineStart(text, i + 1) == (text[i] == '\n')
  {
  }

  lemma SkipOne(titles: seq<string>, s: string, bol: bool)
    requires s != "" && !(bol && HeadingIn(titles, s).Some?)
    ensures BeforeHeading(titles, s, bol) == 1 + BeforeHeading(titles, s[1..], s[0] == '\n')
    ensures Blocks(titles, s, bol) == Blocks(titles, s[1..], s[0] == '\n')
  {
    var n := BeforeHeading(titles, s[1..], s[0] == '\n');
    assert s[1..][n..] == s[n + 1..];
  }

  lemma OpenWithHeading(titles: seq<string>, s: string, h: Heading, rest: string, bol: bool)
    requires HeadingIn(titles, s) == Some(h) && rest == s[h.length..] && bol == (s[h.length - 1] == '\n')
    ensures BeforeHeading(titles, s, true) == 0
    ensures Blocks(titles, s, true) ==
            [Block(h.title, s[..h.length], rest[..BeforeHeading(titles, rest, bol)])] + Blocks(titles, rest, bol)
  {
    assert s[0..] == s;
  }

  lemma Slices(text: string, i: nat, j: nat, n: nat)
    requires i < j && j + n <= |text|
    ensures text[i..][..j - i] == text[i..j] && text[i..][j - i..] == text[j..] && text[i..][j - i - 1] == text[j - 1]
    ensures text[j..][..n] == text[j..j + n]
  {
  }

  lemma FirstMatch(titles: seq<string>, text: string, i: nat, h: Heading, rest: seq<Match>, n: nat)
    requires i < |text| && i + h.length <= |text| && h.length > 0 && InOrder(text, rest)
    requires n == (if rest == [] then |text| else rest[0].start) && i + h.length <= n
    ensures var matches := [Match(i, i + h.length, h.title)] + rest;
            && InOrder(text, matches)
            && Cut(text, matches) ==
               [Block(h.title, text[i..i + h.length], text[i + h.length..n])] + Cut(text, rest)
  {
    var matches := [Match(i, i + h.length, h.title)] + rest;
    assert matches[1..] == rest;
    forall k | 0 <= k < |matches|
      ensures matches[k].start < matches[k].end <= BodyEnd(text, matches, k) <= |text|
    {
      if k > 0 {
        assert rest[k - 1] == matches[k] && BodyEnd(text, matches, k) == BodyEnd(text, rest, k - 1);
      } else if rest != [] {
        assert rest[0] == matches[1];
      }
    }
  }

  lemma {:induction false} MatchesAreBlocks(titles: seq<string>, text: string, i: nat)
    requires i <= |text|
    ensures var matches, n := Matches(titles, text, i), BeforeHeading(titles, text[i..], AtLineStart(text, i));
            && InOrder(text, matches)
            && Cut(text, matches) == Blocks(titles, text[i..], AtLineStart(text, i))
            && i + n == if matches == [] then |text| else matches[0].start
    decreases |text| - i
  {
    if i < |text| {
      var s, bol := text[i..], AtLineStart(text, i);
      match HeadingAt(titles, text, i)
      case None =>
        SkipOne(titles, s, bol);
        assert s[1..] == text[i + 1..];
        LineStartAfter(text, i);
        MatchesAreBlocks(titles, text, i + 1);
      case Some(h) =>
        HeadingStep(titles, text, i, h);
    }
  }

  lemma BlocksStep(titles: seq<string>, text: string, i: nat, h: Heading, after: nat, n: nat)
    requires i < |text| && HeadingAt(titles, text, i) == Some(h) && after == i + h.length
    requires n == BeforeHeading(titles, text[after..], AtLineStart(text, after))
    ensures BeforeHeading(titles, text[i..], AtLineStart(text, i)) == 0
    ensures Blocks(titles, text[i..], AtLineStart(text, i)) ==
            [Block(h.title, text[i..after], text[after..after + n])]
            + Blocks(titles, text[after..], AtLineStart(text, after))
  {
    hide Blocks, BeforeHeading, HeadingIn, AtLineStart;
    LineStartAfter(text, after - 1);
    Slices(text, i, after, n);
    OpenWithHeading(titles, text[i..], h, text[after..], AtLineStart(text, after));
  }

  lemma {:induction false} HeadingStep(titles: seq<string>, text: string, i: nat, h: Heading)
    requires i < |text| && HeadingAt(titles, text, i) == Some(h)
    ensures var matches := Matches(titles, text, i);
            && InOrder(text, matches)
            && Cut(text, matches) == Blocks(titles, text[i..], AtLineStart(text, i))
            && BeforeHeading(titles, text[i..], AtLineStart(text, i)) == 0 && matches != [] && matches[0].start == i
    decreases |text| - i, 0
  {
    hide HeadingIn, Blocks, BeforeHeading, Cut, InOrder;
    var after := i + h.length;
    var n := BeforeHeading(titles, text[after..], AtLineStart(text, after));
    MatchesAreBlocks(titles, text, after);
    BlocksStep(titles, text, i, h, after, n);
    FirstMatch(titles, text, i, h, Matches(titles, text, after), after + n);
  }

  // ---------- no two headings overlap, and none is missed ----------

  lemma LineEndIsBlank(s: string)
    requires LineEndIn(s).Some?
    ensures Blank(s[..LineEndIn(s).value])
  {
    LineEndIsLast(s);
    SpacesIsMaximal(s);
    assert s[..LineEndIn(s).value] == s[..Spaces(s)][..LineEndIn(s).value];
  }

  lemma BehindShape(titles: seq<string>, s: string) returns (b: string)
    requires BehindSpaces(titles, s).Some?
    ensures var h := BehindSpaces(titles, s).value;
            Blank(b) && h.titleAt == 0 && s[..h.length] == titles[h.title] + b
  {
    var title := titles[TitleIn(titles, s).value];
    LineEndIsBlank(s[|title|..]);
    b := s[|title|..][..LineEndIn(s[|title|..]).value];
    assert s == title + s[|title|..];
  }

  lemma NamedShape(titles: seq<string>, s: string) returns (a: string, b: string)
    requires NamedIn(titles, s).Some?
    ensures var h := NamedIn(titles, s).value;
            Blank(a) && Blank(b) && |a| == h.titleAt && s[..h.length] == a + titles[h.title] + b
  {
    hide BehindSpaces;
    var n := Spaces(s);
    SpacesIsMaximal(s);
    a := s[..n];
    b := BehindShape(titles, s[n..]);
    var length := BehindSpaces(titles, s[n..]).value.length;
    assert s[..n + length] == a + s[n..][..length];
  }

  /** A heading is two hashes, white space, its title, white space. */
  lemma HeadingShape(titles: seq<string>, s: string) returns (a: string, b: string)
    requires HeadingIn(titles, s).Some?
    ensures var h := HeadingIn(titles, s).value;
            Blank(a) && Blank(b) && |a| + 2 == h.titleAt && s[..h.length] == "##" + a + titles[h.title] + b
  {
    hide NamedIn;
    var a1, b1 := NamedShape(titles, s[3..]);
    var length := NamedIn(titles, s[3..]).value.length;
    a, b := [s[2]] + a1, b1;
    assert s[..3 + length] == [s[0], s[1]] + [s[2]] + s[3..][..length];
  }

  /** Two hashes at a line start, white space `a`, title `k`, white space `b`, and the end of a line. */
  ghost predicate StandsAs(titles: seq<string>, text: string, i: nat, k: nat, a: string, b: string) {
    && i <= |text| && AtLineStart(text, i) && k < |titles|
    && a != "" && Blank(a) && Blank(b)
    && var heading := "##" + a + titles[k] + b;
       heading <= text[i..] && AtLineEnd(text, i + |heading|)
  }

  lemma EndOfHeading(titles: seq<string>, s: string)
    requires HeadingIn(titles, s).Some?
    ensures AtLineEnd(s, HeadingIn(titles, s).value.length)
  {
    var named := s[3..];
    var behind := named[Spaces(named)..];
    var rest := behind[|titles[TitleIn(titles, behind).value]|..];
    LineEndIsLast(rest);
    var n := |s| - |rest|;
    assert rest == s[n..];
  }

  /** The hashes, spaces and title in front of a text that begins with white space up to a line end. */
  lemma HeadingFound(titles: seq<string>, k: nat, a: string, b: string, rest: string)
    requires GoodTitles(titles) && k < |titles| && a != "" && Blank(a) && Blank(b)
    requires AtLineEnd(b + rest, |b|)
    ensures HeadingIn(titles, "##" + a + titles[k] + b + rest).Some?
  {
    hide LineEndIn;
    var s, tail := "##" + a + titles[k] + b + rest, b + rest;
    var named := titles[k] + tail;
    assert titles[k][0] in titles[k];
    assert s[3..] == a[1..] + named;
    SpacesOf(a[1..], named);
    assert (a[1..] + named)[|a| - 1..] == named;
    assert titles[k] <= named;
    TitleFound(titles, k, named);
    assert named[|titles[k]|..] == tail;
    LineEndIsLast(tail);
    BlankIsSpaces(b, rest);
  }

  lemma {:induction false} BlankIsSpaces(b: string, rest: string)
    requires Blank(b)
    ensures |b| <= Spaces(b + rest)
  {
    if b != "" {
      assert (b + rest)[1..] == b[1..] + rest;
      BlankIsSpaces(b[1..], rest);
    }
  }

  /** What a heading is, without scanner and pattern. */
  lemma HeadingStandsIff(titles: seq<string>, text: string, i: nat)
    requires GoodTitles(titles) && i <= |text|
    ensures HeadingAt(titles, text, i).Some? <==> exists k: nat, a, b :: StandsAs(titles, text, i, k, a, b)
  {
    hide HeadingIn;
    var s := text[i..];
    if HeadingAt(titles, text, i).Some? {
      var h := HeadingIn(titles, s).value;
      var a, b := HeadingShape(titles, s);
      EndOfHeading(titles, s);
      assert s[..h.length] <= s;
      assert AtLineEnd(text, i + h.length) by { if h.length < |s| { assert s[h.length] == text[i + h.length]; } }
      assert StandsAs(titles, text, i, h.title, a, b);
    }
    if k: nat, a, b :| StandsAs(titles, text, i, k, a, b) {
      var heading := "##" + a + titles[k] + b;
      var rest := s[|heading|..];
      assert s == heading + rest;
      assert b + rest == s[|heading| - |b|..];
      if rest != "" { assert rest[0] == text[i + |heading|]; }
      HeadingFound(titles, k, a, b, rest);
    }
  }

  lemma InsideHeading(titles: seq<string>, s: string, j: nat)
    requires GoodTitles(titles) && HeadingIn(titles, s).Some? && 2 <= j < HeadingIn(titles, s).value.length
    ensures s[j] != '#'
  {
    hide HeadingIn;
    var h := HeadingIn(titles, s).value;
    var a, b := HeadingShape(titles, s);
    var title, n := titles[h.title], 2 + |a|;
    assert s[j] == s[..h.length][j];
    if j < n {
      assert s[j] == a[j - 2];
    } else if j < n + |title| {
      assert s[j] == title[j - n] && title[j - n] in title;
    } else {
      assert s[j] == b[j - n - |title|];
    }
  }

  /** No heading starts inside another one. */
  lemma HeadingsDoNotOverlap(titles: seq<string>, text: string, i: nat, j: nat)
    requires GoodTitles(titles) && i <= |text| && HeadingAt(titles, text, i).Some?
    requires i < j < i + HeadingAt(titles, text, i).value.length
    ensures HeadingAt(titles, text, j) == None
  {
    if j == i + 1 {
      assert text[i] == text[i..][0] == '#';
    } else {
      InsideHeading(titles, text[i..], j - i);
      assert text[j] == text[i..][j - i] == text[j..][0];
    }
  }

  /** The matches are exactly the positions where a heading stands. */
  lemma {:induction false} MatchesAreAllHeadings(titles: seq<string>, text: string, i: nat, j: nat)
    requires GoodTitles(titles) && i <= j <= |text|
    ensures HeadingAt(titles, text, j).Some? <==> exists m :: m in Matches(titles, text, i) && m.start == j
    ensures forall m :: m in Matches(titles, text, i) ==>
              && i <= m.start < |text| && HeadingAt(titles, text, m.start).Some?
              && var h := HeadingAt(titles, text, m.start).value; m == Match(m.start, m.start + h.length, h.title)
    decreases |text| - i
  {
    hide HeadingIn;
    if i < |text| {
      match HeadingAt(titles, text, i)
      case None =>
        MatchesAreAllHeadings(titles, text, i + 1, if j == i then i + 1 else j);
      case Some(h) =>
        var after := i + h.length;
        assert Matches(titles, text, i) == [Match(i, after, h.title)] + Matches(titles, text, after);
        MatchesAreAllHeadings(titles, text, after, if j < after then after else j);
        if j == i {
          assert Matches(titles, text, i)[0].start == i;
        } else if j < after {
          HeadingsDoNotOverlap(titles, text, i, j);
        }
    } else {
      assert text[j..] == "" && HeadingIn(titles, "") == None;
    }
  }

  // ---------- headings and bodies tile the text ----------

  function Joined(blocks: seq<Block>): string {
    if blocks == [] then "" else blocks[0].heading + blocks[0].body + Joined(blocks[1..])
  }

  lemma JoinedOne(block: Block, rest: seq<Block>, heading: string, body: string, after: string)
    requires block.heading == heading && block.body == body && after == body + Joined(rest)
    ensures Joined([block] + rest) == heading + after
  {
    assert ([block] + rest)[1..] == rest;
    assert heading + body + Joined(rest) == heading + (body + Joined(rest));
  }

  /** From the first heading on, headings and bodies make up the whole text, in order. */
  lemma {:induction false} BlocksTile(titles: seq<string>, s: string, bol: bool)
    ensures s == s[..BeforeHeading(titles, s, bol)] + Joined(Blocks(titles, s, bol))
    decreases |s|
  {
    hide HeadingIn, BeforeHeading, Joined;
    var n := BeforeHeading(titles, s, bol);
    var t := s[n..];
    assert s == s[..n] + t;
    match HeadingIn(titles, t)
    case None =>
      StopsAtHeading(titles, s, bol);
      NothingJoined();
    case Some(h) =>
      var rest, restBol := t[h.length..], t[h.length - 1] == '\n';
      var body := rest[..BeforeHeading(titles, rest, restBol)];
      BlocksTile(titles, rest, restBol);
      JoinedOne(Block(h.title, t[..h.length], body), Blocks(titles, rest, restBol), t[..h.length], body, rest);
      assert t == t[..h.length] + rest;
  }

  lemma NothingJoined()
    ensures Joined([]) == ""
  {
  }

  lemma {:induction false} StopsAtHeading(titles: seq<string>, s: string, bol: bool)
    ensures var n := BeforeHeading(titles, s, bol); n == |s| <==> HeadingIn(titles, s[n..]) == None
  {
    if s == "" || (bol && HeadingIn(titles, s).Some?) {
      assert s[0..] == s;
    } else {
      hide HeadingIn;
      StopsAtHeading(titles, s[1..], s[0] == '\n');
      var n := BeforeHeading(titles, s[1..], s[0] == '\n');
      assert s[1..][n..] == s[n + 1..];
    }
  }

  // ---------- the sections ----------

  /** What the parser leaves in one section: the trimmed body of the last block with that title. */
  function Section(blocks: seq<Block>, k: nat): string {
    if blocks == [] then ""
    else
      var last := blocks[|blocks| - 1];
      if last.title == k then Strip(last.body) else Section(blocks[..|blocks| - 1], k)
  }

  function Sections(titles: seq<string>, text: string): seq<string> {
    seq(|titles|, (k: nat) => Section(Blocks(titles, text, true), k))
  }

  lemma {:induction false} SectionIsLastBody(blocks: seq<Block>, k: nat)
    ensures (forall b :: b in blocks ==> b.title != k) ==> Section(blocks, k) == ""
    ensures forall i :: 0 <= i < |blocks| && blocks[i].title == k
                        && (forall j :: i < j < |blocks| ==> blocks[j].title != k) ==>
                          Section(blocks, k) == Strip(blocks[i].body)
  {
    if blocks != [] && blocks[|blocks| - 1].title != k {
      SectionIsLastBody(blocks[..|blocks| - 1], k);
    }
  }

  lemma {:induction false} CutPoint(text: string, matches: seq<Match>, i: nat)
    requires InOrder(text, matches) && i < |matches|
    ensures |Cut(text, matches)| == |matches|
    ensures var m := matches[i];
            Cut(text, matches)[i] == Block(m.title, text[m.start..m.end], text[m.end..BodyEnd(text, matches, i)])
  {
    if i > 0 { CutPoint(text, matches[1..], i - 1); } else if |matches| > 1 { CutPoint(text, matches[1..], 0); }
  }

  /** What the parser's loop finds at match `i`. */
  ghost predicate MatchIsBlock(text: string, matches: seq<Match>, i: nat)
    requires InOrder(text, matches) && i < |matches|
  {
    var blocks := Blocks(TITLES, text, true);
    && |blocks| == |matches| && matches[i].title < |TITLES|
    && blocks[i].title == matches[i].title && blocks[i].body == text[matches[i].end..BodyEnd(text, matches, i)]
  }

  lemma ParserFacts(text: string)
    ensures var matches := Matches(TITLES, text, 0);
            && InOrder(text, matches) && |Blocks(TITLES, text, true)| == |matches|
            && (forall i :: 0 <= i < |matches| ==> MatchIsBlock(text, matches, i))
            && (matches == [] <==> forall i :: 0 <= i <= |text| ==> HeadingAt(TITLES, text, i) == None)
  {
    hide HeadingIn, Blocks;
    var matches := Matches(TITLES, text, 0);
    MatchesAreBlocks(TITLES, text, 0);
    assert text[0..] == text;
    CanonicalTitlesAreGood();
    forall i | 0 <= i <= |text| ensures HeadingAt(TITLES, text, i).Some? ==> matches != [] {
      MatchesAreAllHeadings(TITLES, text, 0, i);
    }
    MatchesAreAllHeadings(TITLES, text, 0, 0);
    forall i | 0 <= i < |matches| ensures MatchIsBlock(text, matches, i) {
      CutPoint(text, matches, i);
      assert matches[i] in matches;
    }
    if matches != [] {
      assert matches[0] in matches;
      assert HeadingAt(TITLES, text, matches[0].start).Some?;
    }
    assert |Cut(text, matches)| == |matches| by { if matches != [] { CutPoint(text, matches, 0); } }
  }

  ghost predicate Holds(sections: map<string, string>, blocks: seq<Block>) {
    && sections.Keys == {"Summary", "Findings", "Suggestions", "Positives"}
    && forall k :: 0 <= k < |TITLES| ==> TITLES[k] in sections && sections[TITLES[k]] == Section(blocks, k)
  }

  lemma OverwriteSection(sections: map<string, string>, blocks: seq<Block>, i: nat, title: nat, body: string)
    requires i < |blocks| && Holds(sections, blocks[..i])
    requires blocks[i].title == title < |TITLES| && body == Strip(blocks[i].body)
    ensures Holds(sections[TITLES[title] := body], blocks[..i + 1])
  {
    assert blocks[..i + 1][..i] == blocks[..i];
    CanonicalTitlesAreGood();
    assert forall k :: 0 <= k < |TITLES| && k != title ==> TITLES[k] != TITLES[title];
  }

  const NO_SECTIONS := map["Summary" := "", "Findings" := "", "Suggestions" := "", "Positives" := ""]

  lemma NoSectionsYet()
    ensures Holds(NO_SECTIONS, [])
  {
  }

  /** The four sections of the dictionary, in the order of the titles. */
  lemma InTitleOrder(sections: map<string, string>, text: string)
    requires Holds(sections, Blocks(TITLES, text, true))
    ensures "Summary" in sections && "Findings" in sections && "Suggestions" in sections && "Positives" in sections
    ensures [sections["Summary"], sections["Findings"], sections["Suggestions"], sections["Positives"]] ==
            Sections(TITLES, text)
  {
    assert TITLES[0] == "Summary" && TITLES[1] == "Findings" && TITLES[2] == "Suggestions" && TITLES[3] == "Positives";
  }

  /** The text itself, a failure exactly when no heading stands in it, and the four sections. */
  ghost predicate IsParseOf(review: ParsedReview, text: string) {
    && review.raw == text
    && (review.parseFailed <==> forall i :: 0 <= i <= |text| ==> HeadingAt(TITLES, text, i) == None)
    && [review.summary, review.findings, review.suggestions, review.positives] == Sections(TITLES, text)
  }

  /** The parser: all matches, then one pass that overwrites the sections. */
  method ParseReviewOutput(text: string) returns (review: ParsedReview)
    ensures IsParseOf(review, text)
  {
    hide HeadingAt, Matches, Blocks, Strip, Holds, Sections;
    var sections := NO_SECTIONS;
    var matches := Matches(TITLES, text, 0);
    ghost var blocks := Blocks(TITLES, text, true);
    ParserFacts(text);
    NoSectionsYet();
    if matches == [] {
      InTitleOrder(sections, text);
      return ParsedReview("", "", "", "", text, true);
    }
    var i := 0;
    while i < |matches|
      invariant i <= |matches|
      invariant Holds(sections, blocks[..i])
    {
      assert MatchIsBlock(text, matches, i);
      var bodyEnd := if i + 1 < |matches| then matches[i + 1].start else |text|;
      var body := Strip(text[matches[i].end..bodyEnd]);
      OverwriteSection(sections, blocks, i, matches[i].title, body);
      sections := sections[TITLES[matches[i].title] := body];
      i := i + 1;
    }
    assert blocks[..|matches|] == blocks;
    InTitleOrder(sections, text);
    review := ParsedReview(sections["Summary"], sections["Findings"], sections["Suggestions"], sections["Positives"],
                           text, false);
  }
}
