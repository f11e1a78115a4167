// What a text means to the heading scanner when white space and then another heading, or nothing, follow it.
module Appended {
  import opened Common
  import opened Text
  import opened Headings
  import opened Parsing

  /** White space up to the start of a line that opens with a hash, or up to the end of the text. */
  ghost predicate Separates(w: string, next: string) {
    Blank(w) && (next != "" ==> next[0] == '#' && w != "" && w[|w| - 1] == '\n')
  }

  ghost predicate EndsInInk(s: string) {
    s != "" && !IsSpace(s[|s| - 1])
  }

  lemma {:induction false} SpacesAppended(s: string, x: string)
    requires EndsInInk(s)
    ensures Spaces(s + x) == Spaces(s) < |s|
  {
    if IsSpace(s[0]) {
      assert (s + x)[1..] == s[1..] + x;
      SpacesAppended(s[1..], x);
    }
  }

  lemma {:induction false} LineEndAppended(s: string, x: string)
    requires EndsInInk(s)
    ensures LineEndIn(s + x) == LineEndIn(s)
    ensures LineEndIn(s).Some? ==> LineEndIn(s).value < |s|
  {
    if IsSpace(s[0]) {
      assert (s + x)[1..] == s[1..] + x;
      LineEndAppended(s[1..], x);
    }
  }

  /** The line end just before the next heading, or at the end of the text. */
  lemma {:induction false} LineEndOfSeparator(w: string, next: string)
    requires Separates(w, next)
    ensures LineEndIn(w + next) == Some(if next == "" then |w| else |w| - 1)
  {
    if w == "" {
      assert w + next == "";
    } else {
      assert (w + next)[1..] == w[1..] + next;
      if |w| > 1 || next == "" {
        LineEndOfSeparator(w[1..], next);
      } else {
        assert w[1..] + next == next;
        assert LineEndIn(next) == None;
      }
    }
  }

  lemma CrossesInto(t: string, s: string, x: string)
    requires t <= s + x && |t| > |s|
    ensures x != "" && x[0] in t
  {
    assert t[|s|] == x[0];
  }

  lemma {:induction false} TitleAppended(titles: seq<string>, s: string, x: string)
    requires forall a :: 0 <= a < |titles| ==> forall c :: c in titles[a] ==> !IsSpace(c)
    requires x != "" ==> IsSpace(x[0])
    ensures TitleIn(titles, s + x) == TitleIn(titles, s)
  {
    if titles != [] {
      TitleAppended(titles[1..], s, x);
      var t := titles[0];
      if t <= s + x && |t| > |s| { CrossesInto(t, s, x); }
      assert t <= s + x <==> t <= s by {
        if t <= s { assert t <= s + x; }
        if t <= s + x && |t| <= |s| { assert t == (s + x)[..|t|] == s[..|t|]; }
      }
    }
  }

  /** A heading seen in `s` is seen in `s + x` with the same title; it grows by `more` if it reaches the end of `s`. */
  ghost predicate Grows(before: Option<Heading>, after: Option<Heading>, length: nat, more: nat) {
    match before
    case None => after == None
    case Some(h) => after == Some(h.(length := if h.length == length then length + more else h.length))
  }

  lemma LineEndGrows(rest: string, w: string, next: string)
    requires (rest != "" ==> EndsInInk(rest)) && Separates(w, next)
    ensures var before, after := LineEndIn(rest), LineEndIn(rest + (w + next));
            && (rest != "" ==> before == after && (before.Some? ==> before.value < |rest|))
            && (rest == "" ==> before == Some(0) && after == Some(if next == "" then |w| else |w| - 1))
  {
    if rest == "" {
      assert rest + (w + next) == w + next;
      LineEndOfSeparator(w, next);
    } else {
      LineEndAppended(rest, w + next);
    }
  }

  lemma BehindSpacesAppended(titles: seq<string>, s: string, w: string, next: string)
    requires GoodTitles(titles) && EndsInInk(s) && Separates(w, next) && !IsSpace(s[0])
    ensures Grows(BehindSpaces(titles, s), BehindSpaces(titles, s + (w + next)), |s|,
                  if next == "" then |w| else |w| - 1)
  {
    hide LineEndIn, TitleIn, Separates;
    var x := w + next;
    if x != "" { SeparatorIsSpace(w, next); }
    TitleAppended(titles, s, x);
    var title := TitleIn(titles, s);
    if title.Some? {
      var n := |titles[title.value]|;
      if n < |s| { InkAfter(s, n); }
      assert (s + x)[n..] == s[n..] + x;
      LineEndGrows(s[n..], w, next);
    }
  }

  lemma SeparatorIsSpace(w: string, next: string)
    requires Separates(w, next) && w + next != ""
    ensures IsSpace((w + next)[0])
  {
  }

  lemma InkAfter(s: string, n: nat)
    requires EndsInInk(s) && n < |s|
    ensures EndsInInk(s[n..])
  {
  }

  lemma ShiftGrows(before: Option<Heading>, after: Option<Heading>, length: nat, more: nat, offset: nat)
    requires Grows(before, after, length, more)
    ensures Grows(Shifted(before, offset), Shifted(after, offset), offset + length, more)
  {
  }

  lemma NamedAppended(titles: seq<string>, s: string, w: string, next: string)
    requires GoodTitles(titles) && EndsInInk(s) && Separates(w, next)
    ensures Grows(NamedIn(titles, s), NamedIn(titles, s + (w + next)), |s|, if next == "" then |w| else |w| - 1)
  {
    hide BehindSpaces, Grows, Shifted;
    var x, n := w + next, Spaces(s);
    SpacesAppended(s, x);
    SpacesIsMaximal(s);
    InkAfter(s, n);
    assert (s + x)[n..] == s[n..] + x;
    BehindSpacesAppended(titles, s[n..], w, next);
    ShiftGrows(BehindSpaces(titles, s[n..]), BehindSpaces(titles, s[n..] + x), |s| - n,
               if next == "" then |w| else |w| - 1, n);
  }

  /** Hashes at the end of a text are no heading, whatever separator follows. */
  lemma NothingNamedInSeparator(titles: seq<string>, w: string, next: string)
    requires GoodTitles(titles) && Separates(w, next)
    ensures NamedIn(titles, w + next) == None
  {
    SpacesOf(w, next);
    assert (w + next)[|w|..] == next;
    if TitleIn(titles, next).Some? { TitleOpens(titles, next); }
  }

  /** The heading at the start of a text, when a separator follows the text. */
  lemma HeadingAppended(titles: seq<string>, s: string, w: string, next: string)
    requires GoodTitles(titles) && EndsInInk(s) && Separates(w, next)
    ensures Grows(HeadingIn(titles, s), HeadingIn(titles, s + (w + next)), |s|, if next == "" then |w| else |w| - 1)
  {
    hide NamedIn;
    var x, more := w + next, if next == "" then |w| else |w| - 1;
    if |s| >= 3 {
      assert (s + x)[3..] == s[3..] + x;
      if IsSpace(s[2]) {
        InkAfter(s, 3);
        NamedAppended(titles, s[3..], w, next);
        ShiftGrows(NamedIn(titles, s[3..]), NamedIn(titles, s[3..] + x), |s| - 3, more, 3);
      }
    } else if w != "" && |s| == 2 {
      assert (s + x)[3..] == w[1..] + next;
      assert Separates(w[1..], next) || (|w| == 1 && next != "");
      if Separates(w[1..], next) {
        NothingNamedInSeparator(titles, w[1..], next);
      } else {
        assert (s + x)[3..] == next;
        HashIsNotNamed(titles, next);
      }
    } else if w != "" {
      assert (s + x)[1] == w[0];
    } else {
      assert s + x == s;
    }
  }

  lemma HashIsNotNamed(titles: seq<string>, next: string)
    requires GoodTitles(titles) && next != "" && next[0] == '#'
    ensures NamedIn(titles, next) == None
  {
    assert Spaces(next) == 0 && next[0..] == next;
    if TitleIn(titles, next).Some? { TitleOpens(titles, next); }
  }
}