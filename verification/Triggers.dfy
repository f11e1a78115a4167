// The review command: orchestration/triggers.py and the copy of its pattern in pipeline/fetcher.py.
module Triggers {
  import opened Common
  import opened Text
  import opened Headings

  type Span = Option<(nat, nat)>

  /** `\s*(.*?)\s*$` */
  const TAIL := Then(Many(Whitespace), Then(Group(Lazy(NotNewline)), Then(Many(Whitespace), LineEnd)))

  /** `^@vidi-pr\s+review\b`, ignoring case; `word` says which characters are word characters. */
  function FetcherPattern(word: char -> bool): Regex {
    Command(WordBoundary(word))
  }

  /** `^@vidi-pr\s+review\b\s*(.*?)\s*$`, ignoring case. */
  function TriggerPattern(word: char -> bool): Regex {
    Command(Then(WordBoundary(word), TAIL))
  }

  function Command(rest: Regex): Regex {
    Then(LineStart, Then(LiteralNoCase("@vidi-pr"),
      Then(One(Whitespace), Then(Many(Whitespace), Then(LiteralNoCase("review"), rest)))))
  }

  /** `search` from position `i`: the first position that matches, and its first match. */
  function Search(r: Regex, text: string, i: nat): Option<Hit>
    requires i <= |text|
    decreases |text| - i
  {
    var hits := Hits(r, text, i, None);
    if hits != [] then Some(hits[0]) else if i == |text| then None else Search(r, text, i + 1)
  }

  datatype ParsedTrigger = ParsedTrigger(extraContext: Option<string>)

  function ParseTrigger(word: char -> bool, body: Option<string>): Option<ParsedTrigger> {
    if body == None || body.value == "" then None
    else match Search(TriggerPattern(word), body.value, 0)
      case None => None
      case Some(hit) => Some(ParsedTrigger(ExtraContext(body.value, hit.group)))
  }

  function ExtraContext(text: string, group: Span): Option<string> {
    if group == None || !(group.value.0 <= group.value.1 <= |text|) then None
    else
      var extra := Strip(text[group.value.0..group.value.1]);
      if extra == "" then None else Some(extra)
  }

  datatype Comment = Comment(author: string, body: string)

  /** The conversation filter of `fetch_pr_content`. */
  function Conversation(word: char -> bool, botLogin: string, comments: seq<Comment>): seq<Comment> {
    if comments == [] then []
    else
      var comment := comments[0];
      (if comment.author != botLogin && Search(FetcherPattern(word), comment.body, 0) == None then [comment] else [])
      + Conversation(word, botLogin, comments[1..])
  }

  // ---------- a tail that never fails changes no verdict ----------

  ghost predicate NeverFails(r: Regex, text: string) {
    forall i: nat, group: Span {:trigger Hits(r, text, i, group)} :: i <= |text| ==> Hits(r, text, i, group) != []
  }

  ghost predicate InRange(text: string, hits: seq<Hit>) {
    forall k :: 0 <= k < |hits| ==> hits[k].end <= |text|
  }

  /** Matches of `a` start with a match of `b`, and go on with the first match of `tail` from there. */
  ghost predicate GoesOn(a: Regex, b: Regex, tail: Regex, text: string, i: nat, group: Span) {
    var hits, first := Hits(a, text, i, group), Hits(b, text, i, group);
    if first == [] then hits == []
    else
      var rest := Hits(tail, text, first[0].end, first[0].group);
      hits != [] && rest != [] && hits[0] == rest[0]
  }

  ghost predicate GoesOnAlways(a: Regex, b: Regex, tail: Regex, text: string) {
    forall i: nat, group: Span {:trigger GoesOn(a, b, tail, text, i, group)} :: i <= |text| ==>
      GoesOn(a, b, tail, text, i, group)
  }

  lemma ThenIs(a: Regex, b: Regex, text: string, i: nat, group: Span)
    ensures Hits(Then(a, b), text, i, group) == Continue(b, text, Hits(a, text, i, group))
  {
    hide Continue, Captured, In, AtLineStart, AtLineEnd, WordAt;
  }

  lemma {:induction false} HitsInRange(r: Regex, text: string, i: nat, group: Span)
    requires i <= |text|
    ensures InRange(text, Hits(r, text, i, group))
    decreases r, 0, |text| - i
  {
    match r
    case Many(cls) => if i < |text| && In(cls, text[i]) { HitsInRange(r, text, i + 1, group); }
    case Lazy(cls) => if i < |text| && In(cls, text[i]) { HitsInRange(r, text, i + 1, group); }
    case Then(a, b) =>
      HitsInRange(a, text, i, group);
      ContinueInRange(b, text, Hits(a, text, i, group));
    case Or(a, b) =>
      HitsInRange(a, text, i, group);
      HitsInRange(b, text, i, group);
    case Group(a) =>
      HitsInRange(a, text, i, group);
      CapturedInRange(text, Hits(a, text, i, group), i);
    case _ =>
  }

  lemma {:induction false} ContinueInRange(r: Regex, text: string, hits: seq<Hit>)
    requires InRange(text, hits)
    ensures InRange(text, Continue(r, text, hits))
    decreases r, 1, |hits|
  {
    if hits != [] {
      HitsInRange(r, text, hits[0].end, hits[0].group);
      ContinueInRange(r, text, hits[1..]);
    }
  }

  lemma {:induction false} CapturedInRange(text: string, hits: seq<Hit>, from: nat)
    requires InRange(text, hits)
    ensures InRange(text, Captured(hits, from))
  {
    if hits != [] { CapturedInRange(text, hits[1..], from); }
  }

  lemma ContinueFirst(r: Regex, text: string, hits: seq<Hit>)
    requires hits != [] && Hits(r, text, hits[0].end, hits[0].group) != []
    ensures Continue(r, text, hits) != []
    ensures Continue(r, text, hits)[0] == Hits(r, text, hits[0].end, hits[0].group)[0]
  {
    hide Hits;
  }

  lemma AppendTail(p: Regex, tail: Regex, text: string)
    requires NeverFails(tail, text)
    ensures GoesOnAlways(Then(p, tail), p, tail, text)
  {
    hide Hits;
    forall i: nat, group: Span | i <= |text| ensures GoesOn(Then(p, tail), p, tail, text, i, group) {
      var first := Hits(p, text, i, group);
      ThenIs(p, tail, text, i, group);
      HitsInRange(p, text, i, group);
      if first != [] { ContinueFirst(tail, text, first); }
    }
  }

  lemma {:induction false} ContinueGoesOn(a: Regex, b: Regex, tail: Regex, text: string, hits: seq<Hit>)
    requires GoesOnAlways(a, b, tail, text) && InRange(text, hits)
    ensures var more, first := Continue(a, text, hits), Continue(b, text, hits);
            if first == [] then more == []
            else
              var rest := Hits(tail, text, first[0].end, first[0].group);
              more != [] && rest != [] && more[0] == rest[0]
  {
    hide Hits;
    if hits != [] {
      assert GoesOn(a, b, tail, text, hits[0].end, hits[0].group);
      ContinueGoesOn(a, b, tail, text, hits[1..]);
    }
  }

  lemma Behind(p: Regex, a: Regex, b: Regex, tail: Regex, text: string)
    requires GoesOnAlways(a, b, tail, text)
    ensures GoesOnAlways(Then(p, a), Then(p, b), tail, text)
  {
    hide Hits;
    forall i: nat, group: Span | i <= |text| ensures GoesOn(Then(p, a), Then(p, b), tail, text, i, group) {
      ThenIs(p, a, text, i, group);
      ThenIs(p, b, text, i, group);
      HitsInRange(p, text, i, group);
      ContinueGoesOn(a, b, tail, text, Hits(p, text, i, group));
    }
  }

  // ---------- what the tail matches ----------

  /** The first line end at or after `i`. */
  function LineEndFrom(text: string, i: nat): (end: nat)
    requires i <= |text|
    ensures i <= end <= |text| && AtLineEnd(text, end)
    decreases |text| - i
  {
    if AtLineEnd(text, i) then i else LineEndFrom(text, i + 1)
  }

  /** The rest of the line at `i`. */
  function LineRest(text: string, i: nat): string
    requires i <= |text|
  {
    text[i..LineEndFrom(text, i)]
  }

  /** `\s*$` matches exactly where the rest of the line is blank. */
  lemma {:induction false} BlankRest(text: string, i: nat)
    requires i <= |text|
    ensures LineEndIn(text[i..]).Some? <==> Blank(LineRest(text, i))
    decreases |text| - i
  {
    if i < |text| {
      var rest := LineRest(text, i);
      assert text[i..][1..] == text[i + 1..];
      if text[i] != '\n' {
        assert rest == [text[i]] + LineRest(text, i + 1);
        BlankRest(text, i + 1);
        assert rest[0] == text[i];
      }
    }
  }

  /** The position behind the last character of the line that is not white space, or `i`. */
  function LastInk(text: string, i: nat): (end: nat)
    requires i <= |text|
    ensures i <= end <= LineEndFrom(text, i)
  {
    i + TrimmedLength(LineRest(text, i))
  }

  lemma {:induction false} SameLineEnd(text: string, i: nat, j: nat)
    requires i <= |text|
    requires i <= j <= LineEndFrom(text, i)
    ensures LineEndFrom(text, j) == LineEndFrom(text, i)
    ensures forall k :: i <= k < j ==> text[k] != '\n'
    decreases j - i
  {
    if i < j { SameLineEnd(text, i + 1, j); }
  }

  lemma BlankFromLastInk(text: string, i: nat, j: nat)
    requires i <= |text| && i <= j <= LineEndFrom(text, i)
    ensures LineEndIn(text[j..]).Some? <==> LastInk(text, i) <= j
  {
    SameLineEnd(text, i, j);
    BlankRest(text, j);
    var line, n := LineRest(text, i), LastInk(text, i) - i;
    TrimmedLengthIsMinimal(line);
    assert LineRest(text, j) == line[j - i..];
    if n <= j - i {
      assert line[j - i..] == line[n..][j - i - n..];
    } else {
      assert line[j - i..][n - 1 - (j - i)] == line[n - 1];
    }
  }

  /** The hits of `(.*?)` that remain at position `i`, for a group that opened at `from`. */
  function Remaining(text: string, from: nat, i: nat, group: Span): seq<Hit>
    requires i <= |text|
  {
    Captured(Hits(Lazy(NotNewline), text, i, group), from)
  }

  lemma RemainingStep(text: string, from: nat, i: nat, group: Span)
    requires i <= |text|
    ensures Remaining(text, from, i, group) ==
            [Hit(i, Some((from, i)))]
            + if i < |text| && text[i] != '\n' then Remaining(text, from, i + 1, group) else []
  {
    var later := if i < |text| && text[i] != '\n' then Hits(Lazy(NotNewline), text, i + 1, group) else [];
    var hits := [Hit(i, group)] + later;
    assert Hits(Lazy(NotNewline), text, i, group) == hits;
    assert hits[1..] == later;
    assert Captured(hits, from) == [Hit(i, Some((from, i)))] + Captured(hits[1..], from);
    assert Captured([], from) == [];
  }

  const LINE_TAIL := Then(Many(Whitespace), LineEnd)

  lemma LineTailHits(text: string, i: nat, group: Span)
    requires i <= |text|
    ensures var hits := Hits(LINE_TAIL, text, i, group);
            && (hits != [] <==> LineEndIn(text[i..]).Some?)
            && (hits != [] ==> hits[0].group == group)
  {
    hide Hits;
    ThenIs(Many(Whitespace), LineEnd, text, i, group);
    TailHits(text, i, group);
  }

  /** The lazy group stops as early as it can: behind the last ink of its line. */
  lemma {:induction false} LazyStops(text: string, from: nat, i: nat, group: Span)
    requires from <= |text| && from <= i <= LastInk(text, from)
    ensures i <= |text|
    ensures var hits := Continue(LINE_TAIL, text, Remaining(text, from, i, group));
            hits != [] && hits[0].group == Some((from, LastInk(text, from)))
    decreases LastInk(text, from) - i
  {
    hide Hits, Remaining, LastInk;
    var here := Hit(i, Some((from, i)));
    RemainingStep(text, from, i, group);
    BlankFromLastInk(text, from, i);
    LineTailHits(text, i, here.group);
    var later := if i < |text| && text[i] != '\n' then Remaining(text, from, i + 1, group) else [];
    ContinueAppend(LINE_TAIL, text, [here], later);
    ContinueOne(LINE_TAIL, text, here);
    if i < LastInk(text, from) {
      SameLineEnd(text, from, i + 1);
      LazyStops(text, from, i + 1, group);
    }
  }

  lemma {:induction false} ManyFirst(text: string, i: nat, group: Span)
    requires i <= |text|
    ensures var hits := Hits(Many(Whitespace), text, i, group);
            i + Spaces(text[i..]) <= |text| && hits != [] && hits[0] == Hit(i + Spaces(text[i..]), group)
    decreases |text| - i
  {
    if i < |text| && IsSpace(text[i]) {
      ManyFirst(text, i + 1, group);
      assert text[i..][1..] == text[i + 1..];
    }
  }

  /** The tail matches everywhere; its group is the first line with ink behind the position, trimmed at its end. */
  lemma TailMatches(text: string, i: nat, group: Span)
    requires i <= |text|
    ensures var hits, n := Hits(TAIL, text, i, group), i + Spaces(text[i..]);
            n <= |text| && hits != [] && hits[0].group == Some((n, LastInk(text, n)))
  {
    hide Hits, LastInk;
    var n := i + Spaces(text[i..]);
    var rest := Then(Group(Lazy(NotNewline)), LINE_TAIL);
    ThenIs(Many(Whitespace), rest, text, i, group);
    ManyFirst(text, i, group);
    GroupHits(text, n, group);
    ThenIs(Group(Lazy(NotNewline)), LINE_TAIL, text, n, group);
    LazyStops(text, n, n, group);
    ContinueFirst(rest, text, Hits(Many(Whitespace), text, i, group));
  }

  lemma GroupHits(text: string, n: nat, group: Span)
    requires n <= |text|
    ensures Hits(Group(Lazy(NotNewline)), text, n, group) == Remaining(text, n, n, group)
  {
  }

  // ---------- the two patterns agree ----------

  lemma TriggerGoesOn(word: char -> bool, text: string)
    ensures GoesOnAlways(TriggerPattern(word), FetcherPattern(word), TAIL, text)
  {
    hide Hits, GoesOnAlways, LiteralNoCase;
    assert NeverFails(TAIL, text) by {
      forall i: nat, group: Span | i <= |text| ensures Hits(TAIL, text, i, group) != [] { TailMatches(text, i, group); }
    }
    var boundary := WordBoundary(word);
    var a0, b0 := Then(boundary, TAIL), boundary;
    AppendTail(boundary, TAIL, text);
    Behind(LiteralNoCase("review"), a0, b0, TAIL, text);
    var a1, b1 := Then(LiteralNoCase("review"), a0), Then(LiteralNoCase("review"), b0);
    Behind(Many(Whitespace), a1, b1, TAIL, text);
    var a2, b2 := Then(Many(Whitespace), a1), Then(Many(Whitespace), b1);
    Behind(One(Whitespace), a2, b2, TAIL, text);
    var a3, b3 := Then(One(Whitespace), a2), Then(One(Whitespace), b2);
    Behind(LiteralNoCase("@vidi-pr"), a3, b3, TAIL, text);
    Behind(LineStart, Then(LiteralNoCase("@vidi-pr"), a3), Then(LiteralNoCase("@vidi-pr"), b3), TAIL, text);
  }

  /** Wherever one pattern is found first, so is the other. */
  lemma {:induction false} SearchesAgree(a: Regex, b: Regex, tail: Regex, text: string, i: nat)
    requires i <= |text| && GoesOnAlways(a, b, tail, text)
    ensures match Search(b, text, i)
            case None => Search(a, text, i) == None
            case Some(hit) =>
              var rest := Hits(tail, text, hit.end, hit.group);
              rest != [] && Search(a, text, i) == Some(rest[0])
    ensures Search(b, text, i).Some? ==> Search(b, text, i).value.end <= |text|
    decreases |text| - i
  {
    hide Hits;
    assert GoesOn(a, b, tail, text, i, None);
    HitsInRange(b, text, i, None);
    if Hits(b, text, i, None) == [] && i < |text| { SearchesAgree(a, b, tail, text, i + 1); }
  }

  /**
   * A comment triggers a review exactly when the fetcher's own pattern finds a command in it, and its extra
   * context is the first line with ink behind the command, which need not be the line of the command.
   */
  lemma TriggerIffFetcherFinds(word: char -> bool, body: string)
    ensures var found, trigger := Search(FetcherPattern(word), body, 0), ParseTrigger(word, Some(body));
            && (trigger.Some? <==> found.Some?)
            && (found.Some? ==>
                  var e := found.value.end;
                  && e <= |body| && e + Spaces(body[e..]) <= |body|
                  && var line := Strip(LineRest(body, e + Spaces(body[e..])));
                     trigger.value.extraContext == if line == "" then None else Some(line))
  {
    hide Hits, Command, Strip, TAIL;
    TriggerGoesOn(word, body);
    SearchesAgree(TriggerPattern(word), FetcherPattern(word), TAIL, body, 0);
    var found := Search(FetcherPattern(word), body, 0);
    if body == "" {
      NothingInEmpty(word);
    } else if found.Some? {
      var e := found.value.end;
      var n := e + Spaces(body[e..]);
      TailMatches(body, e, found.value.group);
      StripOfRStrip(LineRest(body, n));
      InkSlice(body, n);
    }
  }

  lemma StripOfRStrip(s: string)
    ensures Strip(RStrip(s)) == Strip(s)
  {
    hide Strip, TrimmedLength;
    var r, tail := RStrip(s), s[TrimmedLength(s)..];
    TrimmedLengthIsMinimal(s);
    var a, b := StripTrims(r);
    assert s == r + tail;
    assert s == a + Strip(r) + (b + tail);
    StripIsUnique(a, Strip(r), b + tail);
  }

  lemma InkSlice(text: string, n: nat)
    requires n <= |text|
    ensures text[n..LastInk(text, n)] == RStrip(LineRest(text, n))
  {
  }

  lemma NothingInEmpty(word: char -> bool)
    ensures Search(FetcherPattern(word), "", 0) == None
  {
    hide Hits, Captured;
    var rest := Then(One(Whitespace), Then(Many(Whitespace), Then(LiteralNoCase("review"), WordBoundary(word))));
    var cls, literal := IgnoringCase("@vidi-pr"[0]), LiteralNoCase("@vidi-pr"[1..]);
    ThenLineStart(Then(LiteralNoCase("@vidi-pr"), rest), "", 0, None);
    ThenIs(LiteralNoCase("@vidi-pr"), rest, "", 0, None);
    assert LiteralNoCase("@vidi-pr") == Then(One(cls), literal);
    ThenOne(cls, literal, "", 0, None);
  }

  /** The conversation holds, in order, the comments of others that are no review command. */
  lemma {:induction false} ConversationIsWithoutTriggers(word: char -> bool, botLogin: string, comments: seq<Comment>)
    ensures Conversation(word, botLogin, comments) ==
            Kept(comments, (comment: Comment) =>
                   comment.author != botLogin && ParseTrigger(word, Some(comment.body)) == None)
  {
    hide FetcherPattern, ParseTrigger, Search;
    if comments != [] {
      TriggerIffFetcherFinds(word, comments[0].body);
      ConversationIsWithoutTriggers(word, botLogin, comments[1..]);
    }
  }

  function Kept(comments: seq<Comment>, keep: Comment -> bool): seq<Comment> {
    if comments == [] then [] else (if keep(comments[0]) then [comments[0]] else []) + Kept(comments[1..], keep)
  }

  // ---------- what a command is ----------

  predicate SameLetters(text: string, i: nat, s: string) {
    i + |s| <= |text| && forall k :: 0 <= k < |s| ==> SameLetter(text[i + k], s[k])
  }

  lemma {:induction false} NoCaseHits(s: string, text: string, i: nat, group: Span)
    requires i <= |text|
    ensures Hits(LiteralNoCase(s), text, i, group) == if SameLetters(text, i, s) then [Hit(i + |s|, group)] else []
  {
    if s != "" {
      hide Continue;
      ThenOne(IgnoringCase(s[0]), LiteralNoCase(s[1..]), text, i, group);
      if i < |text| && SameLetter(text[i], s[0]) {
        NoCaseHits(s[1..], text, i + 1, group);
        OneMoreLetter(s, text, i);
      } else if i < |text| {
        OtherLetter(s, text, i);
      }
    }
  }

  lemma OtherLetter(s: string, text: string, i: nat)
    requires s != "" && i < |text| && !SameLetter(text[i], s[0])
    ensures !SameLetters(text, i, s)
  {
    assert !SameLetter(text[i + 0], s[0]);
  }

  lemma OneMoreLetter(s: string, text: string, i: nat)
    requires s != "" && i < |text| && SameLetter(text[i], s[0])
    ensures SameLetters(text, i, s) <==> SameLetters(text, i + 1, s[1..])
  {
    hide SameLetter;
    if SameLetters(text, i + 1, s[1..]) {
      forall k | 0 <= k < |s| ensures SameLetter(text[i + k], s[k]) {
        if k > 0 { assert SameLetter(text[i + 1 + (k - 1)], s[1..][k - 1]); }
      }
    } else if SameLetters(text, i, s) {
      forall k | 0 <= k < |s[1..]| ensures SameLetter(text[i + 1 + k], s[1..][k]) {
        assert SameLetter(text[i + (k + 1)], s[k + 1]);
      }
    }
  }

  lemma ThenNoCase(s: string, r: Regex, text: string, i: nat, group: Span)
    requires i <= |text|
    ensures Hits(Then(LiteralNoCase(s), r), text, i, group) ==
            if SameLetters(text, i, s) then Hits(r, text, i + |s|, group) else []
  {
    hide Hits, LiteralNoCase, SameLetters;
    ThenIs(LiteralNoCase(s), r, text, i, group);
    NoCaseHits(s, text, i, group);
    if SameLetters(text, i, s) { ContinueOne(r, text, Hit(i + |s|, group)); }
  }

  /** A command: the mention at the start of a line, white space, the word `review`. */
  predicate CommandAt(word: char -> bool, text: string, i: nat) {
    && AtLineStart(text, i) && SameLetters(text, i, "@vidi-pr") && i + 8 < |text| && IsSpace(text[i + 8])
    && var n := i + 9 + Spaces(text[i + 9..]);
       SameLetters(text, n, "review") && WordAt(word, text, n + 5) != WordAt(word, text, n + 6)
  }

  lemma ReviewNeverOnSpace(word: char -> bool, text: string)
    ensures NeverOnSpace(Then(LiteralNoCase("review"), WordBoundary(word)), text, None)
  {
    hide Hits, LiteralNoCase;
    var boundary := WordBoundary(word);
    forall e: nat | e < |text| && IsSpace(text[e])
      ensures Hits(Then(LiteralNoCase("review"), boundary), text, e, None) == []
    {
      ThenNoCase("review", boundary, text, e, None);
      assert SameLetters(text, e, "review") ==> SameLetter(text[e + 0], "review"[0]);
    }
  }

  /** The position behind the word `review`. */
  function CommandEnd(text: string, i: nat): nat
    requires i + 9 <= |text|
  {
    i + 9 + Spaces(text[i + 9..]) + 6
  }

  /** The pattern of the fetcher matches exactly the commands, in one way. */
  lemma FetcherPatternFindsCommands(word: char -> bool, text: string, i: nat)
    requires i <= |text|
    ensures Hits(FetcherPattern(word), text, i, None) ==
            if CommandAt(word, text, i) then [Hit(CommandEnd(text, i), None)] else []
  {
    hide Hits, LiteralNoCase, SameLetters, AtLineStart, IsSpace, Spaces, WordAt;
    var boundary := WordBoundary(word);
    var review := Then(LiteralNoCase("review"), boundary);
    var spaced := Then(Many(Whitespace), review);
    ThenLineStart(Then(LiteralNoCase("@vidi-pr"), Then(One(Whitespace), spaced)), text, i, None);
    ThenNoCase("@vidi-pr", Then(One(Whitespace), spaced), text, i, None);
    if SameLetters(text, i, "@vidi-pr") {
      Fits(text, i, "@vidi-pr");
      ThenOne(Whitespace, spaced, text, i + 8, None);
      if i + 8 < |text| {
        var n := i + 9 + Spaces(text[i + 9..]);
        ReviewNeverOnSpace(word, text);
        ThenSpaces(review, text, i + 9, None);
        ThenNoCase("review", boundary, text, n, None);
        BoundaryHits(word, text, n + 6);
      }
    }
  }

  lemma Fits(text: string, i: nat, s: string)
    requires SameLetters(text, i, s)
    ensures i + |s| <= |text|
  {
  }

  lemma BoundaryHits(word: char -> bool, text: string, i: nat)
    ensures Hits(WordBoundary(word), text, i, None) ==
            if WordAt(word, text, i - 1) != WordAt(word, text, i) then [Hit(i, None)] else []
  {
  }

  ghost predicate MatchesAt(r: Regex, text: string, i: nat) {
    Hits(r, text, i, None) != []
  }

  lemma {:induction false} SearchFinds(r: Regex, text: string, i: nat)
    requires i <= |text|
    ensures Search(r, text, i).Some? <==> exists j: nat :: i <= j <= |text| && MatchesAt(r, text, j)
    decreases |text| - i
  {
    hide Hits;
    assert MatchesAt(r, text, i) <==> Hits(r, text, i, None) != [];
    if Hits(r, text, i, None) == [] && i < |text| { SearchFinds(r, text, i + 1); }
  }

  /** A comment triggers a review exactly when a command stands somewhere in it. */
  lemma TriggersIffCommandStands(word: char -> bool, body: string)
    ensures ParseTrigger(word, Some(body)).Some? <==> exists i: nat :: i <= |body| && CommandAt(word, body, i)
  {
    hide Hits, FetcherPattern, ParseTrigger, Search;
    TriggerIffFetcherFinds(word, body);
    SearchFinds(FetcherPattern(word), body, 0);
    forall i: nat | i <= |body| ensures MatchesAt(FetcherPattern(word), body, i) <==> CommandAt(word, body, i) {
      FetcherPatternFindsCommands(word, body, i);
    }
  }

  // ---------- which line the extra context comes from ----------

  /** What trailing text on the line at `e` would give. */
  function OwnLine(body: string, e: nat): Option<string>
    requires e <= |body|
  {
    var line := Strip(LineRest(body, e));
    if line == "" then None else Some(line)
  }

  lemma BlankPrefix(s: string, k: nat)
    requires k <= |s|
    ensures Blank(s[..k]) <==> k <= Spaces(s)
  {
    SpacesIsMaximal(s);
    hide Spaces, IsSpace;
    if k <= Spaces(s) {
      assert s[..k] == s[..Spaces(s)][..k];
    } else {
      assert s[..k][Spaces(s)] == s[Spaces(s)];
    }
  }

  lemma BlankLineRest(body: string, e: nat)
    requires e <= |body|
    ensures Blank(LineRest(body, e)) <==> LineEndFrom(body, e) <= e + Spaces(body[e..])
  {
    hide Blank, Spaces;
    BlankPrefix(body[e..], LineEndFrom(body, e) - e);
    assert LineRest(body, e) == body[e..][..LineEndFrom(body, e) - e];
  }

  lemma StripOfBlank(s: string)
    ensures Strip(s) == "" <==> Blank(s)
  {
    hide Strip;
    var a, b := StripTrims(s);
    if Blank(s) {
      StripIsUnique(s, "", "");
      assert s + "" + "" == s;
    }
    assert Strip(s) == "" ==> s == a + b;
  }

  lemma StripBehindSpaces(a: string, s: string)
    requires Blank(a)
    ensures Strip(a + s) == Strip(s)
  {
    hide Strip;
    var b, c := StripTrims(s);
    assert a + s == a + b + Strip(s) + c;
    StripIsUnique(a + b, Strip(s), c);
  }

  /** The first line with ink is the line of `e` unless that one is blank; it is blank only if all that follows is. */
  lemma FirstInkLine(body: string, e: nat)
    requires e <= |body|
    ensures var n := e + Spaces(body[e..]);
            && n <= |body|
            && (!Blank(LineRest(body, e)) ==> Strip(LineRest(body, n)) == Strip(LineRest(body, e)))
            && (Blank(LineRest(body, n)) <==> Blank(body[e..]))
  {
    hide Spaces, IsSpace, Strip, LineEndFrom;
    var m := Spaces(body[e..]);
    var n := e + m;
    SpacesIsMaximal(body[e..]);
    BlankLineRest(body, e);
    if n < LineEndFrom(body, e) {
      SameLineEnd(body, e, n);
      assert LineRest(body, e) == body[e..][..m] + LineRest(body, n);
      StripBehindSpaces(body[e..][..m], LineRest(body, n));
    }
    InkAtStart(body, n);
    BlankPrefix(body[e..], |body| - e);
    assert body[e..][..|body| - e] == body[e..];
    if n < |body| { assert body[e..][m] == body[n]; }
  }

  lemma InkAtStart(body: string, n: nat)
    requires n <= |body| && (n < |body| ==> !IsSpace(body[n]))
    ensures Blank(LineRest(body, n)) <==> n == |body|
  {
    if n < |body| { assert LineRest(body, n)[0] == body[n]; }
  }

  /**
   * The extra context is the trailing text on the line of the command exactly when there is such text, or nothing but
   * white space follows the command at all; otherwise it comes from a later line.
   */
  lemma ExtraContextIsOfItsLineIff(word: char -> bool, body: string)
    requires Search(FetcherPattern(word), body, 0).Some?
    ensures var e := Search(FetcherPattern(word), body, 0).value.end;
            && e <= |body| && ParseTrigger(word, Some(body)).Some?
            && var extra := ParseTrigger(word, Some(body)).value.extraContext;
               && (extra == OwnLine(body, e) <==> !Blank(LineRest(body, e)) || Blank(body[e..]))
               && (!Blank(LineRest(body, e)) ==> extra == Some(Strip(LineRest(body, e))))
               && (extra.Some? <==> !Blank(body[e..]))
  {
    hide FetcherPattern, ParseTrigger, Search, Strip, LineRest, Blank, Spaces;
    TriggerIffFetcherFinds(word, body);
    var e := Search(FetcherPattern(word), body, 0).value.end;
    FirstInkLine(body, e);
    StripOfBlank(LineRest(body, e));
    StripOfBlank(LineRest(body, e + Spaces(body[e..])));
  }

  lemma {:induction false} LastLineEnd(text: string, i: nat)
    requires i <= |text| && forall k :: i <= k < |text| ==> text[k] != '\n'
    ensures LineEndFrom(text, i) == |text|
    decreases |text| - i
  {
    if i < |text| { LastLineEnd(text, i + 1); }
  }

  const COMMAND_LINE := "@vidi-pr review\n"

  lemma CommandLineIsCommand(word: char -> bool, s: string)
    requires word('w') && !word('\n')
    ensures CommandAt(word, COMMAND_LINE + s, 0) && CommandEnd(COMMAND_LINE + s, 0) == 15
  {
    var body := COMMAND_LINE + s;
    assert body[9..][0] == 'r';
    assert SameLetters(body, 0, "@vidi-pr");
    assert SameLetters(body, 9, "review");
  }

  /** A bare command followed by a line of text: that next line becomes the extra context. */
  lemma NextLineBecomesContext(word: char -> bool, s: string)
    requires word('w') && !word('\n')
    requires s != "" && Trimmed(s) && '\n' !in s
    ensures var trigger := ParseTrigger(word, Some(COMMAND_LINE + s));
            trigger.Some? && trigger.value.extraContext == Some(s)
    ensures OwnLine(COMMAND_LINE + s, 15) == None
  {
    hide FetcherPattern, ParseTrigger, Strip, CommandAt, Hits;
    var body := COMMAND_LINE + s;
    CommandLineIsCommand(word, s);
    FetcherPatternFindsCommands(word, body, 0);
    assert Search(FetcherPattern(word), body, 0) == Some(Hit(15, None));
    TriggerIffFetcherFinds(word, body);
    NextLine(s);
  }

  lemma NextLine(s: string)
    requires s != "" && Trimmed(s) && '\n' !in s
    ensures var body := COMMAND_LINE + s;
            && 15 + Spaces(body[15..]) == 16 && Strip(LineRest(body, 16)) == s && OwnLine(body, 15) == None
  {
    hide Strip;
    var body := COMMAND_LINE + s;
    assert body[15..] == "\n" + s && body[16..] == s;
    SpacesOf("\n", s);
    LastLineEnd(body, 16);
    assert LineRest(body, 16) == "" + s + "";
    StripIsUnique("", s, "");
    assert LineRest(body, 15) == "";
    StripOfBlank("");
  }

  // ---------- letter case ----------

  /** Lower case of an ASCII letter. */
  function ToLower(c: char): char {
    if 'A' <= c <= 'Z' then (c as int + 32) as char else c
  }

  /** A letter of the command matches in both cases; i also matches its dotted capital and its dotless small form. */
  lemma SameLetterIs(c: char, letter: char)
    ensures SameLetter(c, letter) <==>
            if 'a' <= letter <= 'z' then ToLower(c) == letter || (letter == 'i' && c as int in {0x130, 0x131})
            else c == letter
  {
  }

  /** Any mixture of cases of the command, at the start of a comment, triggers a review. */
  lemma AnyCaseTriggers(word: char -> bool, command: string, rest: string)
    requires |command| == 15 && forall k :: 0 <= k < 15 ==> ToLower(command[k]) == "@vidi-pr review"[k]
    requires word(command[14]) && (rest != "" ==> !word(rest[0]))
    ensures ParseTrigger(word, Some(command + rest)).Some?
  {
    hide ParseTrigger;
    CommandInAnyCase(word, command, rest);
    TriggersIffCommandStands(word, command + rest);
  }

  lemma CommandInAnyCase(word: char -> bool, command: string, rest: string)
    requires |command| == 15 && forall k :: 0 <= k < 15 ==> ToLower(command[k]) == "@vidi-pr review"[k]
    requires word(command[14]) && (rest != "" ==> !word(rest[0]))
    ensures CommandAt(word, command + rest, 0)
  {
    var body := command + rest;
    forall k | 0 <= k < 8 ensures SameLetter(body[0 + k], "@vidi-pr"[k]) {
      assert "@vidi-pr"[k] == "@vidi-pr review"[k] == ToLower(body[k]);
      SameLetterIs(body[k], "@vidi-pr"[k]);
    }
    assert "@vidi-pr review"[8] == ' ' == ToLower(body[8]);
    assert "@vidi-pr review"[9] == 'r' == ToLower(body[9]) && body[9..][0] == body[9];
    forall k | 0 <= k < 6 ensures SameLetter(body[9 + k], "review"[k]) {
      assert "review"[k] == "@vidi-pr review"[9 + k] == ToLower(body[9 + k]);
      SameLetterIs(body[9 + k], "review"[k]);
    }
  }

  lemma MixedCaseExample(word: char -> bool)
    requires word('w') && !word(' ')
    ensures ParseTrigger(word, Some("@Vidi-PR Review please")).Some?
  {
    hide ParseTrigger;
    AnyCaseTriggers(word, "@Vidi-PR Review", " please");
    assert "@Vidi-PR Review" + " please" == "@Vidi-PR Review please";
  }
}
