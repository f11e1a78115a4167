// Printing sections (`_render_review_body` of pipeline/reviewer.py) and parsing them again.
module RoundTrip {
  import opened Common
  import opened Text
  import opened Headings
  import opened Parsing
  import opened Appended

  // ---------- counting characters that are not white space ----------

  function Ink(s: string): nat {
    if s == "" then 0 else (if IsSpace(s[0]) then 0 else 1) + Ink(s[1..])
  }

  lemma {:induction false} InkOfSum(a: string, b: string)
    ensures Ink(a + b) == Ink(a) + Ink(b)
  {
    if a == "" {
      assert a + b == b;
    } else {
      assert (a + b)[1..] == a[1..] + b;
      InkOfSum(a[1..], b);
    }
  }

  lemma {:induction false} InkOfBlank(s: string)
    ensures Ink(s) == 0 <==> Blank(s)
  {
    if s != "" {
      InkOfBlank(s[1..]);
      assert s == [s[0]] + s[1..];
      if Blank(s[1..]) && IsSpace(s[0]) {
        forall i | 0 <= i < |s| ensures IsSpace(s[i]) { if i > 0 { assert s[i] == s[1..][i - 1]; } }
      }
    }
  }

  /** `strip` loses no ink. */
  lemma InkOfStrip(s: string)
    ensures Ink(Strip(s)) == Ink(s)
  {
    hide Strip, Ink;
    var a, b := StripTrims(s);
    InkOfSum(a + Strip(s), b);
    InkOfSum(a, Strip(s));
    InkOfBlank(a);
    InkOfBlank(b);
  }

  function HeadInk(blocks: seq<Block>): nat {
    if blocks == [] then 0 else Ink(blocks[0].heading) + HeadInk(blocks[1..])
  }

  function BodyInk(blocks: seq<Block>): nat {
    if blocks == [] then 0 else Ink(blocks[0].body) + BodyInk(blocks[1..])
  }

  lemma HeadInkOfMore(block: Block, rest: seq<Block>)
    ensures HeadInk([block] + rest) == Ink(block.heading) + HeadInk(rest)
  {
    assert ([block] + rest)[1..] == rest;
  }

  // ---------- a text, a separator, and what follows ----------

  lemma {:induction false} BlankThenNext(titles: seq<string>, w: string, next: string, bol: bool)
    requires Separates(w, next) && (next != "" ==> w != "")
    ensures BeforeHeading(titles, w + next, bol) == |w| + BeforeHeading(titles, next, true)
    ensures Blocks(titles, w + next, bol) == Blocks(titles, next, true)
  {
    hide Blocks;
    var s := w + next;
    if w == "" {
      NoBlocks(titles, bol);
      NoBlocks(titles, true);
    } else {
      SkipOne(titles, s, bol);
      assert s[1..] == w[1..] + next;
      if |w| == 1 && next != "" {
        assert s[1..] == next;
      } else {
        BlankThenNext(titles, w[1..], next, s[0] == '\n');
      }
    }
  }

  lemma NoBlocks(titles: seq<string>, bol: bool)
    ensures BeforeHeading(titles, "", bol) == 0 && Blocks(titles, "", bol) == []
  {
  }

  /** A text without headings is skipped, with its separator. */
  lemma {:induction false} FreeThenNext(titles: seq<string>, c: string, w: string, next: string, bol: bool)
    requires GoodTitles(titles) && Separates(w, next) && (c != "" ==> EndsInInk(c))
    requires BeforeHeading(titles, c, bol) == |c| && BeforeHeading(titles, next, true) == 0
    ensures BeforeHeading(titles, c + (w + next), bol) == |c| + |w|
    ensures Blocks(titles, c + (w + next), bol) == Blocks(titles, next, true)
  {
    hide Blocks, HeadingIn;
    var x := w + next;
    if c == "" {
      assert c + x == x;
      BlankThenNext(titles, w, next, bol);
    } else {
      HeadingAppended(titles, c, w, next);
      assert (c + x)[1..] == c[1..] + x;
      SkipOne(titles, c + x, bol);
      if |c| > 1 { InkAfter(c, 1); }
      FreeThenNext(titles, c[1..], w, next, c[0] == '\n');
    }
  }

  /** The headings of a text followed by a separator are its own headings, then those of what follows. */
  lemma {:induction false} HeadsThenNext(titles: seq<string>, c: string, w: string, next: string, bol: bool)
    requires GoodTitles(titles) && Separates(w, next) && (c != "" ==> EndsInInk(c))
    ensures HeadInk(Blocks(titles, c + (w + next), bol)) ==
            HeadInk(Blocks(titles, c, bol)) + HeadInk(Blocks(titles, next, true))
    decreases |c|
  {
    hide Blocks, HeadingIn, HeadInk;
    var x := w + next;
    if c == "" {
      assert c + x == x;
      BlankThenNext(titles, w, next, bol);
      NoBlocks(titles, bol);
      NoInk();
    } else if bol && HeadingIn(titles, c).Some? {
      HeadThenNext(titles, c, w, next);
    } else {
      HeadingAppended(titles, c, w, next);
      SkipOne(titles, c + x, bol);
      SkipOne(titles, c, bol);
      assert (c + x)[1..] == c[1..] + x;
      if |c| > 1 { InkAfter(c, 1); }
      HeadsThenNext(titles, c[1..], w, next, c[0] == '\n');
    }
  }

  lemma NoInk()
    ensures HeadInk([]) == 0 && BodyInk([]) == 0
  {
  }

  lemma {:induction false} HeadThenNext(titles: seq<string>, c: string, w: string, next: string)
    requires GoodTitles(titles) && Separates(w, next) && EndsInInk(c) && HeadingIn(titles, c).Some?
    ensures HeadInk(Blocks(titles, c + (w + next), true)) ==
            HeadInk(Blocks(titles, c, true)) + HeadInk(Blocks(titles, next, true))
    decreases |c|, 0
  {
    hide Blocks, HeadingIn, HeadInk;
    var x := w + next;
    var h := HeadingIn(titles, c).value;
    HeadingAppended(titles, c, w, next);
    var rest, restBol := c[h.length..], c[h.length - 1] == '\n';
    OpenWithHeading(titles, c, h, rest, restBol);
    var after := HeadingIn(titles, c + x).value;
    HeadInkOfMore(Block(h.title, c[..h.length], rest[..BeforeHeading(titles, rest, restBol)]),
                  Blocks(titles, rest, restBol));
    if h.length < |c| {
      var later := rest + x;
      assert (c + x)[h.length..] == later && (c + x)[..h.length] == c[..h.length];
      OpenWithHeading(titles, c + x, after, later, restBol);
      HeadInkOfMore(Block(h.title, c[..h.length], later[..BeforeHeading(titles, later, restBol)]),
                    Blocks(titles, later, restBol));
      InkAfter(c, h.length);
      HeadsThenNext(titles, rest, w, next, restBol);
    } else {
      assert c[..h.length] == c && rest == "";
      HeadAtEnd(titles, c, w, next, after);
      NoBlocks(titles, restBol);
      NoInk();
    }
  }

  /** A heading that reaches the end of the text also takes the separator up to its last line end. */
  lemma HeadAtEnd(titles: seq<string>, c: string, w: string, next: string, h: Heading)
    requires Separates(w, next) && c != "" && HeadingIn(titles, c + (w + next)) == Some(h)
    requires h.length == |c| + if next == "" then |w| else |w| - 1
    ensures HeadInk(Blocks(titles, c + (w + next), true)) == Ink(c) + HeadInk(Blocks(titles, next, true))
  {
    hide Blocks, HeadingIn, HeadInk;
    var s, taken := c + (w + next), w[..h.length - |c|];
    var left := w[h.length - |c|..];
    assert s[..h.length] == c + taken && s[h.length..] == left + next;
    var bol := s[h.length - 1] == '\n';
    OpenWithHeading(titles, s, h, left + next, bol);
    BlankThenNext(titles, left, next, bol);
    HeadInkOfMore(Block(h.title, c + taken, (left + next)[..BeforeHeading(titles, left + next, bol)]),
                  Blocks(titles, left + next, bol));
    InkOfSum(c, taken);
    InkOfBlank(taken);
  }

  // ---------- the printer ----------

  datatype Part = Part(title: nat, body: string)

  function Join(pieces: seq<string>, separator: string): string {
    if pieces == [] then ""
    else if |pieces| == 1 then pieces[0]
    else pieces[0] + separator + Join(pieces[1..], separator)
  }

  function PartText(titles: seq<string>, part: Part): string
    requires part.title < |titles|
  {
    "## " + titles[part.title] + "\n\n" + part.body
  }

  ghost predicate GoodParts(titles: seq<string>, parts: seq<Part>) {
    forall p :: p in parts ==> p.title < |titles| && p.body != "" && Trimmed(p.body)
  }

  /** The sections that are not empty, in order, from number `k` on. */
  function Parts(bodies: seq<string>, k: nat): (parts: seq<Part>)
    ensures forall p :: p in parts ==> k <= p.title < |bodies| && p.body == bodies[p.title] != ""
    decreases |bodies| - k
  {
    if k >= |bodies| then []
    else (if bodies[k] == "" then [] else [Part(k, bodies[k])]) + Parts(bodies, k + 1)
  }

  lemma PartsFrom(bodies: seq<string>, k: nat)
    requires k < |bodies|
    ensures Parts(bodies, k) == (if bodies[k] == "" then [] else [Part(k, bodies[k])]) + Parts(bodies, k + 1)
  {
  }

  function Texts(titles: seq<string>, parts: seq<Part>): seq<string>
    requires forall p :: p in parts ==> p.title < |titles|
  {
    if parts == [] then [] else [PartText(titles, parts[0])] + Texts(titles, parts[1..])
  }

  function Print(titles: seq<string>, parts: seq<Part>): string
    requires forall p :: p in parts ==> p.title < |titles|
  {
    Join(Texts(titles, parts), "\n\n")
  }

  /** The separator and what follows the first part. */
  lemma PrintOne(titles: seq<string>, parts: seq<Part>) returns (w: string, next: string)
    requires parts != [] && GoodParts(titles, parts)
    ensures GoodParts(titles, parts[1..]) && next == Print(titles, parts[1..]) && Separates(w, next)
    ensures w == if |parts| == 1 then "" else "\n\n"
    ensures Print(titles, parts) == PartText(titles, parts[0]) + (w + next)
  {
    assert forall p :: p in parts[1..] ==> p in parts;
    w, next := if |parts| == 1 then "" else "\n\n", Print(titles, parts[1..]);
    var texts := Texts(titles, parts);
    assert texts[1..] == Texts(titles, parts[1..]);
    if |parts| > 1 {
      assert Print(titles, parts) == texts[0] + "\n\n" + next;
      assert next[0] == '#' by {
        assert parts[1..] != [] && texts[1..] != [];
        assert PartText(titles, parts[1])[0] == '#';
      }
    }
  }

  // ---------- a printed part, as the parser sees it ----------

  lemma LineEndOfBlankLine(s: string)
    requires s != "" && !IsSpace(s[0])
    ensures LineEndIn("\n\n" + s) == Some(1)
  {
    assert ("\n\n" + s)[1..] == "\n" + s && ("\n" + s)[1..] == s;
    assert LineEndIn(s) == None;
  }

  lemma HeadingOf(titles: seq<string>, k: nat, s: string)
    requires GoodTitles(titles) && k < |titles| && LineEndIn(s).Some?
    ensures HeadingIn(titles, "## " + titles[k] + s) == Some(Heading(k, 3, 3 + |titles[k]| + LineEndIn(s).value))
  {
    hide LineEndIn, TitleIn;
    var text, named := "## " + titles[k] + s, titles[k] + s;
    assert text[3..] == named;
    assert titles[k][0] in titles[k];
    assert Spaces(named) == 0 && named[0..] == named;
    assert titles[k] <= named;
    TitleFound(titles, k, named);
    assert named[|titles[k]|..] == s;
  }

  /** A printed heading is matched up to the end of its own line. */
  lemma PrintedHeading(titles: seq<string>, k: nat, s: string)
    requires GoodTitles(titles) && k < |titles| && s != "" && !IsSpace(s[0])
    ensures HeadingIn(titles, "## " + titles[k] + "\n\n" + s) == Some(Heading(k, 3, 4 + |titles[k]|))
  {
    hide HeadingIn, LineEndIn;
    LineEndOfBlankLine(s);
    HeadingOf(titles, k, "\n\n" + s);
    assert "## " + titles[k] + "\n\n" + s == "## " + titles[k] + ("\n\n" + s);
  }

  function HeadingText(titles: seq<string>, k: nat): string
    requires k < |titles|
  {
    "## " + titles[k] + "\n"
  }

  lemma PrintedSlices(titles: seq<string>, part: Part, x: string)
    requires part.title < |titles|
    ensures var s, n := PartText(titles, part) + x, 4 + |titles[part.title]|;
            && s == "## " + titles[part.title] + "\n\n" + (part.body + x)
            && n <= |s| && s[n - 1] == '\n'
            && s[..n] == HeadingText(titles, part.title) && s[n..] == "\n" + (part.body + x)
            && s == HeadingText(titles, part.title) + ("\n" + (part.body + x))
  {
  }

  lemma PrintedHeadingLine(titles: seq<string>, part: Part, x: string, rest: string)
    requires GoodTitles(titles) && part.title < |titles| && part.body != "" && !IsSpace(part.body[0])
    requires rest == "\n" + (part.body + x)
    ensures var s := PartText(titles, part) + x;
            && BeforeHeading(titles, s, true) == 0
            && Blocks(titles, s, true) ==
               [Block(part.title, HeadingText(titles, part.title), rest[..BeforeHeading(titles, rest, true)])]
               + Blocks(titles, rest, true)
  {
    hide HeadingIn, Blocks, PartText, HeadingText, BeforeHeading;
    PrintedSlices(titles, part, x);
    PrintedHeading(titles, part.title, part.body + x);
    OpenWithHeading(titles, PartText(titles, part) + x, Heading(part.title, 3, 4 + |titles[part.title]|), rest, true);
  }

  lemma SkipNewline(titles: seq<string>, tail: string)
    ensures var rest := "\n" + tail;
            && Blocks(titles, rest, true) == Blocks(titles, tail, true)
            && rest[..BeforeHeading(titles, rest, true)] == "\n" + tail[..BeforeHeading(titles, tail, true)]
  {
    hide HeadingIn, Blocks;
    var rest, n := "\n" + tail, BeforeHeading(titles, tail, true);
    NewlineIsNoHeading(titles, tail);
    SkipOne(titles, rest, true);
    assert rest[1..] == tail;
    assert rest[..1 + n] == "\n" + tail[..n];
  }

  /** The first printed part: its heading line, and a body that starts on the next line. */
  lemma FirstPart(titles: seq<string>, part: Part, x: string)
    requires GoodTitles(titles) && part.title < |titles| && part.body != "" && !IsSpace(part.body[0])
    ensures var s, tail := PartText(titles, part) + x, part.body + x;
            && BeforeHeading(titles, s, true) == 0
            && Blocks(titles, s, true) ==
               [Block(part.title, HeadingText(titles, part.title), "\n" + tail[..BeforeHeading(titles, tail, true)])]
               + Blocks(titles, tail, true)
  {
    hide HeadingIn, Blocks, PartText, HeadingText, BeforeHeading;
    PrintedHeadingLine(titles, part, x, "\n" + (part.body + x));
    SkipNewline(titles, part.body + x);
  }

  lemma NewlineIsNoHeading(titles: seq<string>, s: string)
    ensures HeadingIn(titles, "\n" + s) == None
  {
  }

  /** No heading stands at the start of a line of the text. */
  ghost predicate HeadingFree(titles: seq<string>, s: string) {
    forall i :: 0 <= i <= |s| ==> HeadingAt(titles, s, i) == None
  }

  lemma {:induction false} FreeFrom(titles: seq<string>, s: string, i: nat)
    requires i <= |s|
    ensures BeforeHeading(titles, s[i..], AtLineStart(s, i)) == |s| - i <==>
            forall j :: i <= j <= |s| ==> HeadingAt(titles, s, j) == None
    decreases |s| - i
  {
    hide HeadingIn;
    if i == |s| {
      EmptyIsNoHeading(titles);
    } else if HeadingAt(titles, s, i) == None {
      FreeFrom(titles, s, i + 1);
      LineStartAfter(s, i);
      assert s[i..][1..] == s[i + 1..];
    }
  }

  lemma EmptyIsNoHeading(titles: seq<string>)
    ensures HeadingIn(titles, "") == None
  {
  }

  lemma HeadingFreeMeansNoneBefore(titles: seq<string>, s: string)
    ensures HeadingFree(titles, s) <==> BeforeHeading(titles, s, true) == |s|
  {
    hide HeadingAt;
    FreeFrom(titles, s, 0);
    assert s[0..] == s;
  }

  ghost predicate PartsAreBlocks(parts: seq<Part>, blocks: seq<Block>) {
    && |blocks| == |parts|
    && forall i :: 0 <= i < |parts| ==> blocks[i].title == parts[i].title && Strip(blocks[i].body) == parts[i].body
  }

  /** Parts whose bodies hold no heading are parsed back, one block each. */
  lemma {:induction false} PrintedParts(titles: seq<string>, parts: seq<Part>)
    requires GoodTitles(titles) && GoodParts(titles, parts)
    requires forall p :: p in parts ==> HeadingFree(titles, p.body)
    ensures BeforeHeading(titles, Print(titles, parts), true) == 0
    ensures PartsAreBlocks(parts, Blocks(titles, Print(titles, parts), true))
  {
    hide HeadingIn, Blocks, HeadingFree, Strip, Print, Trimmed;
    if parts == [] {
      PrintNothing(titles);
      NoBlocks(titles, true);
    } else {
      var w, next := PrintOne(titles, parts);
      var part := parts[0];
      PrintedParts(titles, parts[1..]);
      TrimmedEnds(part.body);
      FirstPart(titles, part, w + next);
      HeadingFreeMeansNoneBefore(titles, part.body);
      FreeThenNext(titles, part.body, w, next, true);
      assert (part.body + (w + next))[..|part.body| + |w|] == part.body + w;
      StripIsUnique("\n", part.body, w);
      assert "\n" + (part.body + w) == "\n" + part.body + w;
      OneMoreBlock(parts, Block(part.title, HeadingText(titles, part.title), "\n" + (part.body + w)),
                   Blocks(titles, next, true));
    }
  }

  lemma OneMoreBlock(parts: seq<Part>, block: Block, rest: seq<Block>)
    requires parts != [] && PartsAreBlocks(parts[1..], rest)
    requires block.title == parts[0].title && Strip(block.body) == parts[0].body
    ensures PartsAreBlocks(parts, [block] + rest)
  {
    hide Strip;
    var blocks := [block] + rest;
    forall i | 0 <= i < |parts| ensures blocks[i].title == parts[i].title && Strip(blocks[i].body) == parts[i].body {
      if i > 0 { assert blocks[i] == rest[i - 1] && parts[i] == parts[1..][i - 1]; }
    }
  }

  lemma PrintNothing(titles: seq<string>)
    ensures Print(titles, []) == ""
  {
  }

  lemma TrimmedEnds(s: string)
    requires Trimmed(s) && s != ""
    ensures EndsInInk(s) && !IsSpace(s[0])
  {
  }

  // ---------- counting: a heading inside a body costs ink that no section gets back ----------

  function PartInk(parts: seq<Part>): nat {
    if parts == [] then 0 else Ink(parts[0].body) + PartInk(parts[1..])
  }

  /** The ink of the headings inside the bodies. */
  function InnerInk(titles: seq<string>, parts: seq<Part>): nat {
    if parts == [] then 0 else HeadInk(Blocks(titles, parts[0].body, true)) + InnerInk(titles, parts[1..])
  }

  lemma InkOfPart(titles: seq<string>, part: Part, w: string, next: string)
    requires part.title < |titles| && Blank(w)
    ensures Ink(PartText(titles, part) + (w + next)) ==
            Ink(HeadingText(titles, part.title)) + Ink(part.body) + Ink(next)
  {
    hide Ink, PartText, HeadingText;
    var x := w + next;
    PrintedSlices(titles, part, x);
    InkOfSum(HeadingText(titles, part.title), "\n" + (part.body + x));
    InkOfSum("\n", part.body + x);
    InkOfSum(part.body, x);
    InkOfSum(w, next);
    InkOfBlank(w);
    InkOfBlank("\n");
  }

  /** The parser's headings in printed parts: the printed ones and those inside the bodies. */
  lemma {:induction false} HeadInkOfPrint(titles: seq<string>, parts: seq<Part>)
    requires GoodTitles(titles) && GoodParts(titles, parts)
    ensures HeadInk(Blocks(titles, Print(titles, parts), true)) + PartInk(parts) ==
            Ink(Print(titles, parts)) + InnerInk(titles, parts)
  {
    hide HeadingIn, Blocks, HeadInk, Ink, Print, Trimmed, PartText, HeadingText;
    if parts == [] {
      PrintNothing(titles);
      NoBlocks(titles, true);
      NoInk();
      InkOfBlank("");
    } else {
      var w, next := PrintOne(titles, parts);
      var part := parts[0];
      HeadInkOfPrint(titles, parts[1..]);
      TrimmedEnds(part.body);
      FirstPart(titles, part, w + next);
      HeadsThenNext(titles, part.body, w, next, true);
      var tail := part.body + (w + next);
      var body := "\n" + tail[..BeforeHeading(titles, tail, true)];
      HeadInkOfMore(Block(part.title, HeadingText(titles, part.title), body), Blocks(titles, tail, true));
      InkOfPart(titles, part, w, next);
    }
  }

  lemma {:induction false} InkOfJoined(blocks: seq<Block>)
    ensures Ink(Joined(blocks)) == HeadInk(blocks) + BodyInk(blocks)
  {
    if blocks != [] {
      InkOfJoined(blocks[1..]);
      InkOfSum(blocks[0].heading + blocks[0].body, Joined(blocks[1..]));
      InkOfSum(blocks[0].heading, blocks[0].body);
    }
  }

  function SumInk(sections: seq<string>): nat {
    if sections == [] then 0 else Ink(sections[0]) + SumInk(sections[1..])
  }

  /** Sections taken from blocks hold no more ink than the bodies. */
  lemma {:induction false} SectionsHoldNoMoreInk(blocks: seq<Block>, n: nat)
    ensures SumInk(seq(n, (k: nat) => Section(blocks, k))) <= BodyInk(blocks)
  {
    if blocks == [] {
      var none := seq(n, (k: nat) => Section(blocks, k));
      NoneHaveInk(none);
    } else {
      var rest, last := blocks[..|blocks| - 1], blocks[|blocks| - 1];
      var before, after := seq(n, (k: nat) => Section(rest, k)), seq(n, (k: nat) => Section(blocks, k));
      SectionsHoldNoMoreInk(rest, n);
      BodyInkOfLast(rest, last);
      assert blocks == rest + [last];
      InkOfStrip(last.body);
      if last.title < n {
        assert after == before[last.title := Strip(last.body)];
        OneSectionChanged(before, last.title, Strip(last.body));
      } else {
        assert after == before;
      }
    }
  }

  lemma {:induction false} NoneHaveInk(sections: seq<string>)
    requires forall s :: s in sections ==> s == ""
    ensures SumInk(sections) == 0
  {
    if sections != [] {
      assert sections[0] in sections && forall s :: s in sections[1..] ==> s in sections;
      NoneHaveInk(sections[1..]);
    }
  }

  lemma {:induction false} BodyInkOfLast(blocks: seq<Block>, last: Block)
    ensures BodyInk(blocks + [last]) == BodyInk(blocks) + Ink(last.body)
  {
    if blocks != [] {
      assert (blocks + [last])[1..] == blocks[1..] + [last];
      BodyInkOfLast(blocks[1..], last);
    }
  }

  lemma {:induction false} OneSectionChanged(sections: seq<string>, k: nat, s: string)
    requires k < |sections|
    ensures SumInk(sections[k := s]) <= SumInk(sections) + Ink(s)
  {
    var changed := sections[k := s];
    if k == 0 {
      assert changed[1..] == sections[1..];
    } else {
      assert changed[1..] == sections[1..][k - 1 := s];
      OneSectionChanged(sections[1..], k - 1, s);
    }
  }

  lemma {:induction false} InkOfParts(bodies: seq<string>, k: nat)
    requires k <= |bodies|
    ensures PartInk(Parts(bodies, k)) == SumInk(bodies[k..])
    decreases |bodies| - k
  {
    if k < |bodies| {
      InkOfParts(bodies, k + 1);
      assert bodies[k..][0] == bodies[k] && bodies[k..][1..] == bodies[k + 1..];
      var rest := Parts(bodies, k + 1);
      if bodies[k] == "" {
        assert Parts(bodies, k) == rest;
      } else {
        assert Parts(bodies, k) == [Part(k, bodies[k])] + rest && ([Part(k, bodies[k])] + rest)[1..] == rest;
      }
    }
  }

  // ---------- the round trip ----------

  function PrintSections(titles: seq<string>, bodies: seq<string>): string
    requires |bodies| == |titles|
  {
    Print(titles, Parts(bodies, 0))
  }

  ghost predicate AllTrimmed(bodies: seq<string>) {
    forall k :: 0 <= k < |bodies| ==> Trimmed(bodies[k])
  }

  ghost predicate AllHeadingFree(titles: seq<string>, bodies: seq<string>) {
    forall k :: 0 <= k < |bodies| ==> HeadingFree(titles, bodies[k])
  }

  lemma {:induction false} PartOf(bodies: seq<string>, k: nat, title: nat) returns (i: nat)
    requires k <= title < |bodies| && bodies[title] != ""
    ensures i < |Parts(bodies, k)| && Parts(bodies, k)[i] == Part(title, bodies[title])
    decreases |bodies| - k
  {
    PartsFrom(bodies, k);
    hide Parts;
    if title == k {
      i := 0;
    } else {
      i := PartOf(bodies, k + 1, title);
      if bodies[k] != "" { i := i + 1; }
    }
  }

  lemma {:induction false} SectionOfAgreeing(blocks: seq<Block>, k: nat, i: nat, body: string)
    requires i < |blocks| && blocks[i].title == k
    requires forall j :: 0 <= j < |blocks| && blocks[j].title == k ==> Strip(blocks[j].body) == body
    ensures Section(blocks, k) == body
  {
    hide Strip;
    var n := |blocks| - 1;
    if blocks[n].title != k { SectionOfAgreeing(blocks[..n], k, i, body); }
  }

  /** Parts parsed back one by one give the sections back. */
  lemma SectionsFromParts(bodies: seq<string>, blocks: seq<Block>, k: nat)
    requires k < |bodies| && PartsAreBlocks(Parts(bodies, 0), blocks)
    ensures Section(blocks, k) == bodies[k]
  {
    hide Strip;
    var parts := Parts(bodies, 0);
    forall j | 0 <= j < |blocks| && blocks[j].title == k
      ensures Strip(blocks[j].body) == bodies[k] && bodies[k] != ""
    {
      assert parts[j] in parts;
    }
    if bodies[k] == "" {
      SectionIsLastBody(blocks, k);
    } else {
      var i := PartOf(bodies, 0, k);
      SectionOfAgreeing(blocks, k, i, bodies[k]);
    }
  }

  lemma PrintedSectionsParse(titles: seq<string>, bodies: seq<string>)
    requires GoodTitles(titles) && |bodies| == |titles| && AllTrimmed(bodies) && AllHeadingFree(titles, bodies)
    ensures Sections(titles, PrintSections(titles, bodies)) == bodies
  {
    hide HeadingFree, Trimmed, Blocks, Section;
    var parts := Parts(bodies, 0);
    assert GoodParts(titles, parts);
    PrintedParts(titles, parts);
    var blocks := Blocks(titles, Print(titles, parts), true);
    forall k | 0 <= k < |bodies| ensures Section(blocks, k) == bodies[k] {
      SectionsFromParts(bodies, blocks, k);
    }
  }

  lemma {:induction false} NoInnerInk(titles: seq<string>, parts: seq<Part>)
    requires GoodTitles(titles) && InnerInk(titles, parts) == 0
    ensures forall p :: p in parts ==> HeadingFree(titles, p.body)
  {
    if parts != [] {
      NoHeadInkMeansFree(titles, parts[0].body);
      NoInnerInk(titles, parts[1..]);
      assert parts == [parts[0]] + parts[1..];
    }
  }

  lemma NoHeadInkMeansFree(titles: seq<string>, s: string)
    requires GoodTitles(titles) && HeadInk(Blocks(titles, s, true)) == 0
    ensures HeadingFree(titles, s)
  {
    hide HeadingFree, HeadingIn;
    var n := BeforeHeading(titles, s, true);
    var t := s[n..];
    HeadingFreeMeansNoneBefore(titles, s);
    StopsAtHeading(titles, s, true);
    if n < |s| { HeadingHasInk(titles, t); }
  }

  lemma HeadingHasInk(titles: seq<string>, s: string)
    requires HeadingIn(titles, s).Some?
    ensures Ink(s[..HeadingIn(titles, s).value.length]) > 0
  {
    var text := s[..HeadingIn(titles, s).value.length];
    InkOfBlank(text);
    assert text[0] == '#';
  }

  /** A heading inside a body shows: the sections that come back hold less ink. */
  lemma InnerHeadingsShow(titles: seq<string>, bodies: seq<string>)
    requires GoodTitles(titles) && |bodies| == |titles| && AllTrimmed(bodies)
    requires Sections(titles, PrintSections(titles, bodies)) == bodies
    ensures InnerInk(titles, Parts(bodies, 0)) == 0
  {
    hide Trimmed, Blocks, Section, Print, Ink;
    var parts := Parts(bodies, 0);
    var text := Print(titles, parts);
    var blocks := Blocks(titles, text, true);
    HeadInkOfPrint(titles, parts);
    InkOfParts(bodies, 0);
    assert bodies[0..] == bodies;
    SectionsHoldNoMoreInk(blocks, |titles|);
    assert SumInk(bodies) <= BodyInk(blocks);
    BlocksTile(titles, text, true);
    InkOfSum(text[..BeforeHeading(titles, text, true)], Joined(blocks));
    InkOfJoined(blocks);
  }

  lemma {:induction false} SectionsAreTrimmed(blocks: seq<Block>, k: nat)
    ensures Trimmed(Section(blocks, k))
  {
    if blocks != [] {
      var last := blocks[|blocks| - 1];
      if last.title == k {
        var a, b := StripTrims(last.body);
      } else {
        SectionsAreTrimmed(blocks[..|blocks| - 1], k);
      }
    }
  }

  /** Exactly the trimmed bodies without a heading survive printing and parsing. */
  lemma RoundTripIffTrimmedAndHeadingFree(titles: seq<string>, bodies: seq<string>)
    requires GoodTitles(titles) && |bodies| == |titles|
    ensures Sections(titles, PrintSections(titles, bodies)) == bodies <==>
            AllTrimmed(bodies) && AllHeadingFree(titles, bodies)
  {
    hide HeadingFree, Trimmed, Blocks, Section, PrintSections;
    var sections := Sections(titles, PrintSections(titles, bodies));
    if AllTrimmed(bodies) && AllHeadingFree(titles, bodies) {
      PrintedSectionsParse(titles, bodies);
    } else if sections == bodies {
      SurvivorsAreTrimmedAndFree(titles, bodies);
    }
  }

  lemma SurvivorsAreTrimmedAndFree(titles: seq<string>, bodies: seq<string>)
    requires GoodTitles(titles) && |bodies| == |titles|
    requires Sections(titles, PrintSections(titles, bodies)) == bodies
    ensures AllTrimmed(bodies) && AllHeadingFree(titles, bodies)
  {
    hide HeadingFree, Trimmed, Blocks, Section;
    var blocks := Blocks(titles, PrintSections(titles, bodies), true);
    forall k | 0 <= k < |bodies| ensures Trimmed(bodies[k]) {
      SectionsAreTrimmed(blocks, k);
      assert bodies[k] == Section(blocks, k);
    }
    InnerHeadingsShow(titles, bodies);
    NoInnerInk(titles, Parts(bodies, 0));
    forall k | 0 <= k < |bodies| ensures HeadingFree(titles, bodies[k]) {
      if bodies[k] == "" {
        EmptyIsFree(titles);
      } else {
        var i := PartOf(bodies, 0, k);
        assert Parts(bodies, 0)[i] in Parts(bodies, 0);
      }
    }
  }

  lemma EmptyIsFree(titles: seq<string>)
    ensures HeadingFree(titles, "")
  {
  }

  // ---------- printing what was parsed ----------

  lemma {:induction false} SkipPrefix(titles: seq<string>, s: string, bol: bool, j: nat)
    requires j <= BeforeHeading(titles, s, bol)
    ensures BeforeHeading(titles, s[j..], if j == 0 then bol else s[j - 1] == '\n') == BeforeHeading(titles, s, bol) - j
    decreases j
  {
    hide HeadingIn;
    if j == 0 {
      assert s[0..] == s;
    } else {
      SkipPrefix(titles, s[1..], s[0] == '\n', j - 1);
      assert s[1..][j - 1..] == s[j..];
    }
  }

  lemma HeadingOpensLine(titles: seq<string>, s: string, bol: bool)
    requires 0 < BeforeHeading(titles, s, bol) < |s|
    ensures var n := BeforeHeading(titles, s, bol); s[n - 1] == '\n' && s[n] == '#'
  {
    var n := BeforeHeading(titles, s, bol);
    SkipPrefix(titles, s, bol, n);
    assert s[n..][0] == s[n];
  }

  /** Conversely, a text skipped in its context holds no heading of its own. */
  lemma {:induction false} FreeInContext(titles: seq<string>, c: string, w: string, next: string, bol: bool)
    requires GoodTitles(titles) && Separates(w, next) && (c != "" ==> EndsInInk(c))
    requires BeforeHeading(titles, c + (w + next), bol) >= |c|
    ensures BeforeHeading(titles, c, bol) == |c|
  {
    hide HeadingIn;
    if c != "" {
      var x := w + next;
      HeadingAppended(titles, c, w, next);
      assert (c + x)[1..] == c[1..] + x;
      if |c| > 1 { InkAfter(c, 1); }
      FreeInContext(titles, c[1..], w, next, c[0] == '\n');
    }
  }

  lemma LastOf(a: string, c: string, w: string)
    requires c != ""
    ensures (a + c + w)[|a + c + w| - 1] == if w == "" then c[|c| - 1] else w[|w| - 1]
  {
  }

  /** White space at both ends of a body: the trimmed body, and the separator behind it. */
  lemma BodySeparator(titles: seq<string>, rest: string, bol: bool) returns (a: string, w: string)
    ensures var n := BeforeHeading(titles, rest, bol);
            && Blank(a) && rest[..n] == a + Strip(rest[..n]) + w
            && (Strip(rest[..n]) != "" ==> Separates(w, rest[n..]))
  {
    hide BeforeHeading, Strip;
    var n := BeforeHeading(titles, rest, bol);
    var c := Strip(rest[..n]);
    a, w := StripTrims(rest[..n]);
    if c != "" && n < |rest| {
      HeadingOpensLine(titles, rest, bol);
      assert rest[n - 1] == rest[..n][n - 1];
      LastOf(a, c, w);
    }
  }

  /** A parsed body holds a heading only if, once trimmed, it opens with one. */
  lemma ParsedBodyIsFree(titles: seq<string>, rest: string, bol: bool)
    requires GoodTitles(titles)
    ensures var c := Strip(rest[..BeforeHeading(titles, rest, bol)]);
            HeadingFree(titles, c) <==> HeadingIn(titles, c) == None
  {
    hide HeadingIn, HeadingFree, Strip;
    var n := BeforeHeading(titles, rest, bol);
    var c := Strip(rest[..n]);
    HeadingFreeMeansNoneBefore(titles, c);
    if c == "" {
      EmptyIsNoHeading(titles);
    } else if HeadingIn(titles, c) == None {
      var a, w := BodySeparator(titles, rest, bol);
      var next := rest[n..];
      var before := if a == "" then bol else rest[|a| - 1] == '\n';
      assert rest == rest[..n] + next;
      assert rest[|a|..] == c + (w + next);
      SkipPrefix(titles, rest, bol, |a|);
      var x, y := StripTrims(rest[..n]);
      TrimmedEnds(c);
      FreeInContext(titles, c, w, next, before);
    }
  }

  lemma {:induction false} ParsedBodiesAreFree(titles: seq<string>, s: string, bol: bool)
    requires GoodTitles(titles)
    ensures forall b :: b in Blocks(titles, s, bol) ==>
              (HeadingFree(titles, Strip(b.body)) <==> HeadingIn(titles, Strip(b.body)) == None)
    decreases |s|
  {
    hide HeadingIn, HeadingFree, BeforeHeading, Strip;
    var t := s[BeforeHeading(titles, s, bol)..];
    if HeadingIn(titles, t).Some? {
      var h := HeadingIn(titles, t).value;
      var rest, restBol := t[h.length..], t[h.length - 1] == '\n';
      ParsedBodyIsFree(titles, rest, restBol);
      ParsedBodiesAreFree(titles, rest, restBol);
    }
  }

  lemma ParsedSectionIsFree(titles: seq<string>, text: string, k: nat)
    requires GoodTitles(titles) && k < |titles|
    ensures var section := Sections(titles, text)[k];
            Trimmed(section) && (HeadingFree(titles, section) <==> HeadingIn(titles, section) == None)
  {
    hide HeadingIn, HeadingFree, Blocks, Strip;
    var blocks := Blocks(titles, text, true);
    SectionsAreTrimmed(blocks, k);
    ParsedBodiesAreFree(titles, text, true);
    EmptyIsFree(titles);
    EmptyIsNoHeading(titles);
    SectionIsEmptyOrBody(blocks, k);
  }

  lemma {:induction false} SectionIsEmptyOrBody(blocks: seq<Block>, k: nat)
    ensures Section(blocks, k) == "" || exists b :: b in blocks && Section(blocks, k) == Strip(b.body)
  {
    if blocks != [] {
      var last := blocks[|blocks| - 1];
      if last.title != k { SectionIsEmptyOrBody(blocks[..|blocks| - 1], k); } else { assert last in blocks; }
    }
  }

  /** Printing a parsed review and parsing it again changes nothing exactly when no section opens with a heading. */
  lemma ReparsingIsStableIff(titles: seq<string>, text: string)
    requires GoodTitles(titles)
    ensures var sections := Sections(titles, text);
            Sections(titles, PrintSections(titles, sections)) == sections <==>
            forall k :: 0 <= k < |titles| ==> HeadingIn(titles, sections[k]) == None
  {
    hide HeadingIn, HeadingFree, Sections, PrintSections, Trimmed;
    var sections := Sections(titles, text);
    SectionCount(titles, text);
    forall k | 0 <= k < |titles|
      ensures Trimmed(sections[k]) && (HeadingFree(titles, sections[k]) <==> HeadingIn(titles, sections[k]) == None)
    {
      ParsedSectionIsFree(titles, text, k);
    }
    RoundTripIffTrimmedAndHeadingFree(titles, sections);
  }

  lemma SectionCount(titles: seq<string>, text: string)
    ensures |Sections(titles, text)| == |titles|
  {
  }

  lemma NextPart(titles: seq<string>, bodies: seq<string>, k: nat)
    requires k < |bodies| == |titles|
    ensures Texts(titles, Parts(bodies, k)) ==
            (if bodies[k] == "" then [] else ["## " + titles[k] + "\n\n" + bodies[k]])
            + Texts(titles, Parts(bodies, k + 1))
  {
    var rest := Parts(bodies, k + 1);
    if bodies[k] == "" {
      assert Parts(bodies, k) == rest;
    } else {
      assert Parts(bodies, k) == [Part(k, bodies[k])] + rest && ([Part(k, bodies[k])] + rest)[1..] == rest;
    }
  }

  /** The section part of `_render_review_body`. */
  method RenderSections(review: ParsedReview) returns (text: string)
    ensures text == PrintSections(TITLES, [review.summary, review.findings, review.suggestions, review.positives])
  {
    hide Join, Parts;
    var bodies := [review.summary, review.findings, review.suggestions, review.positives];
    var sections: seq<string> := [];
    var k := 0;
    while k < |TITLES|
      invariant k <= |TITLES|
      invariant Texts(TITLES, Parts(bodies, 0)) == sections + Texts(TITLES, Parts(bodies, k))
    {
      NextPart(TITLES, bodies, k);
      if bodies[k] != "" {
        sections := sections + ["## " + TITLES[k] + "\n\n" + bodies[k]];
      }
      k := k + 1;
    }
    NoMoreParts(TITLES, bodies);
    assert sections == Texts(TITLES, Parts(bodies, 0));
    text := Join(sections, "\n\n");
  }

  lemma NoMoreParts(titles: seq<string>, bodies: seq<string>)
    requires |titles| == |bodies|
    ensures Texts(titles, Parts(bodies, |bodies|)) == []
  {
  }

  // ---------- what is printed, written out ----------

  /** A block behind what has been printed so far. */
  function WithBlock(printed: string, title: string, body: string): string {
    if body == "" then printed
    else (if printed == "" then "" else printed + "\n\n") + "## " + title + "\n\n" + body
  }

  lemma {:induction false} JoinAppend(pieces: seq<string>, last: string, separator: string)
    ensures Join(pieces + [last], separator) ==
            if pieces == [] then last else Join(pieces, separator) + separator + last
  {
    if |pieces| > 1 {
      assert (pieces + [last])[1..] == pieces[1..] + [last];
      JoinAppend(pieces[1..], last, separator);
    } else {
      assert (pieces + [last])[|pieces|..] == [last];
    }
  }

  lemma JoinedIsEmpty(pieces: seq<string>, separator: string)
    requires forall p :: p in pieces ==> p != ""
    ensures Join(pieces, separator) == "" <==> pieces == []
  {
    if pieces != [] { assert pieces[0] in pieces; }
  }

  /** One more section behind the ones printed so far. */
  lemma OneMorePrinted(texts: seq<string>, printed: string, title: string, body: string)
    requires printed == Join(texts, "\n\n") && forall p :: p in texts ==> p != ""
    ensures var more := texts + BlockText(title, body);
            WithBlock(printed, title, body) == Join(more, "\n\n") && forall p :: p in more ==> p != ""
  {
    var text := "## " + title + "\n\n" + body;
    JoinedIsEmpty(texts, "\n\n");
    JoinAppend(texts, text, "\n\n");
    if body == "" { assert texts + [] == texts; }
    assert printed + "\n\n" + "## " + title + "\n\n" + body == printed + "\n\n" + text;
    assert "" + "## " + title + "\n\n" + body == text;
  }

  function BlockText(title: string, body: string): seq<string> {
    if body == "" then [] else ["## " + title + "\n\n" + body]
  }

  lemma FourTexts(bodies: seq<string>)
    requires |bodies| == 4
    ensures Texts(TITLES, Parts(bodies, 0)) ==
            BlockText("Summary", bodies[0]) + BlockText("Findings", bodies[1])
            + BlockText("Suggestions", bodies[2]) + BlockText("Positives", bodies[3])
  {
    hide Parts, Texts, BlockText;
    NextText(bodies, 0, "Summary");
    NextText(bodies, 1, "Findings");
    NextText(bodies, 2, "Suggestions");
    NextText(bodies, 3, "Positives");
    NoMoreParts(TITLES, bodies);
    FourSums(BlockText("Summary", bodies[0]), BlockText("Findings", bodies[1]), BlockText("Suggestions", bodies[2]),
             BlockText("Positives", bodies[3]));
  }

  lemma NextText(bodies: seq<string>, k: nat, title: string)
    requires k < |bodies| == 4 && TITLES[k] == title
    ensures Texts(TITLES, Parts(bodies, k)) == BlockText(title, bodies[k]) + Texts(TITLES, Parts(bodies, k + 1))
  {
    hide Parts, Texts;
    NextPart(TITLES, bodies, k);
  }

  lemma FourSums(a: seq<string>, b: seq<string>, c: seq<string>, d: seq<string>)
    ensures a + (b + (c + (d + []))) == a + b + c + d
  {
  }

  /** The printed review: the four headings in this order, each with its body, and the empty ones left out. */
  lemma PrintedIs(summary: string, findings: string, suggestions: string, positives: string)
    ensures PrintSections(TITLES, [summary, findings, suggestions, positives]) ==
            WithBlock(WithBlock(WithBlock(WithBlock("", "Summary", summary), "Findings", findings),
                                "Suggestions", suggestions), "Positives", positives)
  {
    hide Join, Parts, Texts, WithBlock, BlockText;
    var bodies := [summary, findings, suggestions, positives];
    FourTexts(bodies);
    var t0, t1 := BlockText("Summary", summary), BlockText("Findings", findings);
    var t2 := BlockText("Suggestions", suggestions);
    var p0 := WithBlock("", "Summary", summary);
    var p1 := WithBlock(p0, "Findings", findings);
    NothingIsJoined("\n\n");
    OneMorePrinted([], "", "Summary", summary);
    assert [] + t0 == t0;
    OneMorePrinted(t0, p0, "Findings", findings);
    OneMorePrinted(t0 + t1, p1, "Suggestions", suggestions);
    OneMorePrinted(t0 + t1 + t2, WithBlock(p1, "Suggestions", suggestions), "Positives", positives);
  }

  lemma NothingIsJoined(separator: string)
    ensures Join([], separator) == ""
  {
  }

  // ---------- the case that escapes ----------

  lemma {:induction false} NoHashOpensALine(titles: seq<string>, s: string, bol: bool)
    requires forall i {:trigger s[i]} :: 0 <= i < |s| && s[i] == '#' ==> if i == 0 then !bol else s[i - 1] != '\n'
    ensures BeforeHeading(titles, s, bol) == |s|
  {
    if s != "" {
      assert s[0] == '#' ==> !bol;
      NoHash(titles, s);
      hide HeadingIn;
      assert forall i :: 0 <= i < |s[1..]| ==> s[1..][i] == s[i + 1];
      NoHashOpensALine(titles, s[1..], s[0] == '\n');
    }
  }

  lemma NoHash(titles: seq<string>, s: string)
    requires s != ""
    ensures s[0] != '#' ==> HeadingIn(titles, s) == None
  {
  }

  const INDENTED := "\n  ## Findings\nx"
  const ESCAPED := "## Findings\nx"

  lemma IndentedBody()
    ensures LineEndIn(INDENTED) == Some(0) && Strip(INDENTED) == ESCAPED
    ensures BeforeHeading(TITLES, INDENTED, false) == |INDENTED|
  {
    hide Strip;
    assert INDENTED == "\n  " + ESCAPED + "";
    assert INDENTED[1..][1..][1..] == ESCAPED;
    StripIsUnique("\n  ", ESCAPED, "");
    NoHashOpensALine(TITLES, INDENTED, false);
  }

  lemma EscapedIsHeading()
    ensures HeadingIn(TITLES, ESCAPED).Some?
  {
    CanonicalTitlesAreGood();
    hide HeadingIn;
    assert "\nx"[1..] == "x" && LineEndIn("x") == None;
    HeadingOf(TITLES, 1, "\nx");
    assert ESCAPED == "## " + TITLES[1] + "\nx";
  }

  /** An indented heading that opens a body becomes a real one when it is printed at the start of a line. */
  lemma IndentedHeadingEscapes() returns (text: string)
    ensures Sections(TITLES, PrintSections(TITLES, Sections(TITLES, text))) != Sections(TITLES, text)
  {
    hide HeadingIn, Sections, PrintSections;
    text := "## " + TITLES[0] + INDENTED;
    CanonicalTitlesAreGood();
    IndentedBody();
    EscapedIsHeading();
    HeadingOf(TITLES, 0, INDENTED);
    IndentedSection(text);
    ReparsingIsStableIff(TITLES, text);
  }

  lemma IndentedSection(text: string)
    requires text == "## " + TITLES[0] + INDENTED && HeadingIn(TITLES, text) == Some(Heading(0, 3, 3 + |TITLES[0]|))
    ensures Sections(TITLES, text)[0] == ESCAPED
  {
    hide HeadingIn, Strip, BeforeHeading;
    IndentedBody();
    OpenWithHeading(TITLES, text, HeadingIn(TITLES, text).value, INDENTED, false);
    NothingInside(TITLES, INDENTED, false);
    assert Blocks(TITLES, text, true) == [Block(0, text[..3 + |TITLES[0]|], INDENTED)];
  }

  lemma NothingInside(titles: seq<string>, s: string, bol: bool)
    requires BeforeHeading(titles, s, bol) == |s|
    ensures Blocks(titles, s, bol) == [] && s[..BeforeHeading(titles, s, bol)] == s
  {
    hide HeadingIn;
    StopsAtHeading(titles, s, bol);
  }
}