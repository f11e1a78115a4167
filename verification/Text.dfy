// Python text primitives: white space, strip, and the part of `re` the service uses.
module Text {
  import opened Common

  /** The characters `\s` matches and `str.strip` removes. */
  predicate IsSpace(c: char) {
    var n := c as int;
    || 0x09 <= n <= 0x0D || 0x1C <= n <= 0x20 || n == 0x85 || n == 0xA0 || n == 0x1680
    || 0x2000 <= n <= 0x200A || n == 0x2028 || n == 0x2029 || n == 0x202F || n == 0x205F || n == 0x3000
  }

  /** Code point by code point: the six controls of ASCII and its separators, and the Unicode spaces. */
  lemma WhiteSpaceIs(c: char)
    ensures IsSpace(c) <==>
            c as int in {0x9, 0xA, 0xB, 0xC, 0xD, 0x1C, 0x1D, 0x1E, 0x1F, 0x20, 0x85, 0xA0, 0x1680,
                         0x2000, 0x2001, 0x2002, 0x2003, 0x2004, 0x2005, 0x2006, 0x2007, 0x2008, 0x2009, 0x200A,
                         0x2028, 0x2029, 0x202F, 0x205F, 0x3000}
  {
  }

  /** The number of leading white-space characters. */
  function Spaces(s: string): (n: nat)
    ensures n <= |s|
  {
    if s != "" && IsSpace(s[0]) then 1 + Spaces(s[1..]) else 0
  }

  /** The length without trailing white space. */
  function TrimmedLength(s: string): (n: nat)
    ensures n <= |s|
  {
    if s != "" && IsSpace(s[|s| - 1]) then TrimmedLength(s[..|s| - 1]) else |s|
  }

  function RStrip(s: string): string {
    s[..TrimmedLength(s)]
  }

  function Strip(s: string): string {
    RStrip(s[Spaces(s)..])
  }

  predicate Trimmed(s: string) {
    s != "" ==> !IsSpace(s[0]) && !IsSpace(s[|s| - 1])
  }

  predicate Blank(s: string) {
    forall i :: 0 <= i < |s| ==> IsSpace(s[i])
  }

  lemma {:induction false} SpacesIsMaximal(s: string)
    ensures Blank(s[..Spaces(s)])
    ensures Spaces(s) < |s| ==> !IsSpace(s[Spaces(s)])
  {
    if s != "" && IsSpace(s[0]) {
      SpacesIsMaximal(s[1..]);
      assert s[..Spaces(s)] == [s[0]] + s[1..][..Spaces(s[1..])];
    }
  }

  lemma {:induction false} TrimmedLengthIsMinimal(s: string)
    ensures Blank(s[TrimmedLength(s)..])
    ensures TrimmedLength(s) > 0 ==> !IsSpace(s[TrimmedLength(s) - 1])
  {
    if s != "" && IsSpace(s[|s| - 1]) {
      TrimmedLengthIsMinimal(s[..|s| - 1]);
      assert s[TrimmedLength(s)..] == s[..|s| - 1][TrimmedLength(s)..] + [s[|s| - 1]];
    }
  }

  lemma {:induction false} SpacesOf(a: string, b: string)
    requires Blank(a) && (b != "" ==> !IsSpace(b[0]))
    ensures Spaces(a + b) == |a|
  {
    if a == "" {
      assert a + b == b;
    } else {
      assert (a + b)[1..] == a[1..] + b;
      SpacesOf(a[1..], b);
    }
  }

  lemma {:induction false} TrimmedLengthOf(a: string, b: string)
    requires Blank(b) && (a != "" ==> !IsSpace(a[|a| - 1]))
    ensures TrimmedLength(a + b) == |a|
  {
    if b == "" {
      assert a + b == a;
    } else {
      assert (a + b)[..|a + b| - 1] == a + b[..|b| - 1];
      TrimmedLengthOf(a, b[..|b| - 1]);
    }
  }

  /** `strip` finds the one trimmed text between the white space on both sides. */
  lemma StripIsUnique(a: string, middle: string, b: string)
    requires Blank(a) && Blank(b) && Trimmed(middle)
    ensures Strip(a + middle + b) == middle
  {
    if middle == "" {
      SpacesOf(a + b, "");
      assert a + middle + b == a + b + "";
    } else {
      SpacesOf(a, middle + b);
      TrimmedLengthOf(middle, b);
      assert a + middle + b == a + (middle + b);
    }
  }

  lemma ThreeParts(s: string, n: nat, m: nat)
    requires n <= |s| && m <= |s[n..]|
    ensures s == s[..n] + s[n..][..m] + s[n..][m..]
  {
    assert s[n..] == s[n..][..m] + s[n..][m..];
  }

  lemma StripTrims(s: string) returns (a: string, b: string)
    ensures Blank(a) && Blank(b) && Trimmed(Strip(s)) && s == a + Strip(s) + b
  {
    var n := Spaces(s);
    var m := TrimmedLength(s[n..]);
    a, b := s[..n], s[n..][m..];
    ThreeParts(s, n, m);
    SpacesIsMaximal(s);
    RStripTrims(s[n..]);
  }

  lemma RStripTrims(s: string)
    requires s != "" ==> !IsSpace(s[0])
    ensures Trimmed(RStrip(s)) && Blank(s[TrimmedLength(s)..])
  {
    TrimmedLengthIsMinimal(s);
  }

  // ---------- regular expressions, matched by backtracking ----------

  datatype CharClass = Exactly(c: char) | IgnoringCase(c: char) | Whitespace | NotNewline

  /** Simple case folding of an ASCII letter; `i` also stands for U+0130 and U+0131, as in `re.IGNORECASE`. */
  predicate SameLetter(c: char, letter: char) {
    || c == letter
    || ('a' <= letter <= 'z' && c as int == letter as int - 32)
    || (letter == 'i' && (c as int == 0x130 || c as int == 0x131))
  }

  predicate In(cls: CharClass, c: char) {
    match cls
    case Exactly(d) => c == d
    case IgnoringCase(d) => SameLetter(c, d)
    case Whitespace => IsSpace(c)
    case NotNewline => c != '\n'
  }

  /** Patterns under `re.MULTILINE`. The word boundary carries the classification of word characters. */
  datatype Regex =
    | Empty
    | One(cls: CharClass)
    | Many(cls: CharClass)
    | Lazy(cls: CharClass)
    | LineStart
    | LineEnd
    | WordBoundary(word: char -> bool)
    | Then(first: Regex, second: Regex)
    | Or(left: Regex, right: Regex)
    | Group(inner: Regex)

  /** One way to match: where it ends, and the span of group 1. */
  datatype Hit = Hit(end: nat, group: Option<(nat, nat)>)

  predicate AtLineStart(text: string, i: nat) {
    i <= |text| && (i == 0 || text[i - 1] == '\n')
  }

  predicate AtLineEnd(text: string, i: nat) {
    i == |text| || (i < |text| && text[i] == '\n')
  }

  predicate WordAt(word: char -> bool, text: string, i: int) {
    0 <= i < |text| && word(text[i])
  }

  /** All ways to match from position `i`, in the order a backtracking matcher tries them: the first one wins. */
  function Hits(r: Regex, text: string, i: nat, group: Option<(nat, nat)>): seq<Hit>
    decreases r, 0, |text| - i
  {
    match r
    case Empty => [Hit(i, group)]
    case One(cls) => if i < |text| && In(cls, text[i]) then [Hit(i + 1, group)] else []
    case Many(cls) =>
      (if i < |text| && In(cls, text[i]) then Hits(r, text, i + 1, group) else []) + [Hit(i, group)]
    case Lazy(cls) =>
      [Hit(i, group)] + if i < |text| && In(cls, text[i]) then Hits(r, text, i + 1, group) else []
    case LineStart => if AtLineStart(text, i) then [Hit(i, group)] else []
    case LineEnd => if AtLineEnd(text, i) then [Hit(i, group)] else []
    case WordBoundary(word) => if WordAt(word, text, i - 1) != WordAt(word, text, i) then [Hit(i, group)] else []
    case Then(a, b) => Continue(b, text, Hits(a, text, i, group))
    case Or(a, b) => Hits(a, text, i, group) + Hits(b, text, i, group)
    case Group(a) => Captured(Hits(a, text, i, group), i)
  }

  function Continue(r: Regex, text: string, hits: seq<Hit>): seq<Hit>
    decreases r, 1, |hits|
  {
    if hits == [] then []
    else Hits(r, text, hits[0].end, hits[0].group) + Continue(r, text, hits[1..])
  }

  function Captured(hits: seq<Hit>, from: nat): seq<Hit> {
    if hits == [] then [] else [Hit(hits[0].end, Some((from, hits[0].end)))] + Captured(hits[1..], from)
  }

  function Literal(s: string): Regex {
    if s == "" then Empty else Then(One(Exactly(s[0])), Literal(s[1..]))
  }

  function LiteralNoCase(s: string): Regex {
    if s == "" then Empty else Then(One(IgnoringCase(s[0])), LiteralNoCase(s[1..]))
  }

  lemma ContinueOne(r: Regex, text: string, hit: Hit)
    ensures Continue(r, text, [hit]) == Hits(r, text, hit.end, hit.group)
  {
    assert [hit][1..] == [];
  }

  lemma {:induction false} ContinueAppend(r: Regex, text: string, a: seq<Hit>, b: seq<Hit>)
    ensures Continue(r, text, a + b) == Continue(r, text, a) + Continue(r, text, b)
  {
    if a == [] {
      assert a + b == b;
    } else {
      assert (a + b)[1..] == a[1..] + b;
      ContinueAppend(r, text, a[1..], b);
    }
  }

  predicate StartsWith(text: string, i: nat, s: string) {
    i + |s| <= |text| && text[i..i + |s|] == s
  }

  lemma {:induction false} LiteralHits(s: string, text: string, i: nat, group: Option<(nat, nat)>)
    requires i <= |text|
    ensures Hits(Literal(s), text, i, group) == if StartsWith(text, i, s) then [Hit(i + |s|, group)] else []
  {
    if s != "" {
      if i < |text| && text[i] == s[0] {
        ContinueOne(Literal(s[1..]), text, Hit(i + 1, group));
        LiteralHits(s[1..], text, i + 1, group);
        if i + |s| <= |text| {
          assert text[i..i + |s|] == [text[i]] + text[i + 1..i + |s|];
        }
      } else if i + |s| <= |text| {
        assert text[i..i + |s|][0] == text[i];
      }
    }
  }

  // ---------- one step of a sequence at a time ----------

  lemma ThenOne(cls: CharClass, r: Regex, text: string, i: nat, group: Option<(nat, nat)>)
    requires i <= |text|
    ensures Hits(Then(One(cls), r), text, i, group) ==
            if i < |text| && In(cls, text[i]) then Hits(r, text, i + 1, group) else []
  {
    if i < |text| && In(cls, text[i]) { ContinueOne(r, text, Hit(i + 1, group)); }
  }

  lemma ThenLineStart(r: Regex, text: string, i: nat, group: Option<(nat, nat)>)
    requires i <= |text|
    ensures Hits(Then(LineStart, r), text, i, group) == if AtLineStart(text, i) then Hits(r, text, i, group) else []
  {
    if AtLineStart(text, i) { ContinueOne(r, text, Hit(i, group)); }
  }

  lemma ThenLiteral(s: string, r: Regex, text: string, i: nat, group: Option<(nat, nat)>)
    requires i <= |text|
    ensures Hits(Then(Literal(s), r), text, i, group) ==
            if StartsWith(text, i, s) then Hits(r, text, i + |s|, group) else []
  {
    LiteralHits(s, text, i, group);
    if StartsWith(text, i, s) { ContinueOne(r, text, Hit(i + |s|, group)); }
  }

  lemma OrHits(a: Regex, b: Regex, text: string, i: nat, group: Option<(nat, nat)>)
    requires i <= |text|
    ensures Hits(Or(a, b), text, i, group) == Hits(a, text, i, group) + Hits(b, text, i, group)
  {
    hide Continue, Captured, In, AtLineStart, AtLineEnd, WordAt;
  }

  /** A group with at most one way to match, followed by anything. */
  lemma ThenGroup(t: Regex, r: Regex, text: string, n: nat, group: Option<(nat, nat)>)
    requires n <= |text| && |Hits(t, text, n, group)| <= 1
    ensures var hits := Hits(t, text, n, group);
            Hits(Then(Group(t), r), text, n, group) ==
            if hits == [] then [] else Hits(r, text, hits[0].end, Some((n, hits[0].end)))
  {
    var hits := Hits(t, text, n, group);
    if hits != [] {
      assert hits == [hits[0]] && hits[1..] == [];
      var captured := Hit(hits[0].end, Some((n, hits[0].end)));
      assert Captured(hits, n) == [captured] + Captured(hits[1..], n);
      assert Hits(Group(t), text, n, group) == [captured];
      ContinueOne(r, text, captured);
    }
  }

  ghost predicate NeverOnSpace(r: Regex, text: string, group: Option<(nat, nat)>) {
    forall e: nat {:trigger Hits(r, text, e, group)} :: e < |text| && IsSpace(text[e]) ==>
      Hits(r, text, e, group) == []
  }

  /** After greedy white space, a continuation that cannot start on white space starts right behind all of it. */
  lemma {:induction false} ThenSpaces(r: Regex, text: string, i: nat, group: Option<(nat, nat)>)
    requires i <= |text| && NeverOnSpace(r, text, group)
    ensures i + Spaces(text[i..]) <= |text|
    ensures Hits(Then(Many(Whitespace), r), text, i, group) == Hits(r, text, i + Spaces(text[i..]), group)
    decreases |text| - i
  {
    ContinueOne(r, text, Hit(i, group));
    if i < |text| && IsSpace(text[i]) {
      ThenSpaces(r, text, i + 1, group);
      assert text[i..][1..] == text[i + 1..];
      var later := Hits(Many(Whitespace), text, i + 1, group);
      ContinueAppend(r, text, later, [Hit(i, group)]);
    } else {
      assert Hits(Many(Whitespace), text, i, group) == [Hit(i, group)];
    }
  }
}
