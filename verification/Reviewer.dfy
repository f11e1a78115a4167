// pipeline/reviewer.py: from the changed files of a pull request to the prompts and the rendered review.
module Reviewer {
  import opened Common
  import opened Storage
  import opened Outcome
  import opened Chunking
  import opened Headings
  import opened Parsing
  import opened RoundTrip

  /** What one call of the model comes back with. `Crashes` is any exception but `LLMError` and `GitHubError`. */
  datatype LlmReply = Answer(content: string) | LlmError(message: string) | Crashes(message: string)

  datatype Prompt = ReviewPrompt(chunk: Chunk) | SynthesisPrompt(outputs: seq<string>)

  /**
   * What the run depends on. The first three are what the fetches bring, or the exception they raise: whether the
   * pull request is a draft, which paths its config ignores, and its files. `llm(k)` answers the k-th call. `quote`
   * is how the text of a failed parse is shown.
   */
  datatype Services = Services(
    draft: Result<bool, string>, config: Result<string -> bool, string>, content: Result<seq<ChangedFile>, string>,
    llm: nat -> LlmReply, quote: string -> string, footer: string)

  /** The pull request is there, and it is reviewed even if it is a draft. */
  predicate GoesOn(services: Services, skipDraftCheck: bool) {
    services.draft.Success? && (services.draft.value ==> skipDraftCheck)
  }

  // ---------- which files are reviewed ----------

  function FilterFiles(files: seq<ChangedFile>, ignored: string -> bool): seq<ChangedFile> {
    if files == [] then []
    else
      (if files[0].patch.Some? && !ignored(files[0].filename) then [files[0]] else [])
      + FilterFiles(files[1..], ignored)
  }

  /** Filtering keeps every copy of an eligible file and drops all others. */
  lemma {:induction false} FilterKeepsEligible(files: seq<ChangedFile>, ignored: string -> bool, file: ChangedFile)
    ensures multiset(FilterFiles(files, ignored))[file] ==
            if file.patch.Some? && !ignored(file.filename) then multiset(files)[file] else 0
  {
    if files != [] {
      FilterKeepsEligible(files[1..], ignored, file);
      assert files == [files[0]] + files[1..];
    }
  }

  lemma {:induction false} FlattenEmpty(chunks: seq<seq<ChangedFile>>)
    requires forall i :: 0 <= i < |chunks| ==> chunks[i] != []
    ensures Flatten(chunks) == [] <==> chunks == []
  {
  }

  /** No chunk is opened exactly when a cap forbids it or every file is too large for a chunk. */
  lemma NoChunksIff(files: seq<ChangedFile>, limits: Limits)
    ensures PackFiles(files, limits).chunks == [] <==>
            || limits.maxFiles <= 0 || limits.maxChunks <= 0
            || forall f :: f in files ==> |PatchText(f)| > limits.maxChunkChars
  {
    var sorted, bins := LargestFirst(files), PackFiles(files, limits);
    forall f ensures FileSize(f) == |PatchText(f)| { SizeIsPatchLength(f); }
    hide PatchText;
    LargestFirstSorts(files);
    PackIsWellPacked(sorted, limits);
    FlattenEmpty(bins.chunks);
    SameFiles(files, sorted);
    if bins.chunks == [] {
      assert multiset(bins.skipped) == multiset(files);
      SameFiles(bins.skipped, files);
    } else {
      var file := bins.chunks[0][0];
      assert file in bins.chunks[0];
      InFlatten(bins.chunks, 0, file);
      assert file in multiset(files);
    }
  }

  lemma SameFiles(a: seq<ChangedFile>, b: seq<ChangedFile>)
    requires multiset(a) == multiset(b)
    ensures forall f :: f in a <==> f in b
  {
    forall f ensures f in a <==> f in b { assert f in multiset(a) <==> f in multiset(b); }
  }

  // ---------- the calls ----------

  function ReviewPrompts(chunks: seq<Chunk>): seq<Prompt> {
    seq(|chunks|, i requires 0 <= i < |chunks| => ReviewPrompt(chunks[i]))
  }

  /** The files of all review prompts, in order. */
  function PromptFiles(prompts: seq<Prompt>): seq<ChangedFile> {
    if prompts == [] then []
    else
      (match prompts[0] case ReviewPrompt(chunk) => chunk.files case SynthesisPrompt(_) => [])
      + PromptFiles(prompts[1..])
  }

  /** The calls so far were answered, and these are the parsed answers. */
  ghost predicate Answered(llm: nat -> LlmReply, outputs: seq<ParsedReview>) {
    forall k :: 0 <= k < |outputs| ==> llm(k).Answer? && IsParseOf(outputs[k], llm(k).content)
  }

  method RunChunks(chunks: seq<Chunk>, llm: nat -> LlmReply)
    returns (outputs: seq<ParsedReview>, prompts: seq<Prompt>, failure: Option<LlmReply>)
    ensures Answered(llm, outputs) && prompts <= ReviewPrompts(chunks)
    ensures |prompts| <= |chunks| && forall k :: 0 <= k < |prompts| ==> prompts[k] == ReviewPrompt(chunks[k])
    ensures failure == None ==> |outputs| == |prompts| == |chunks|
    ensures failure.Some? ==> |prompts| == |outputs| + 1 && failure.value == llm(|outputs|) && !failure.value.Answer?
  {
    hide IsParseOf;
    outputs, prompts, failure := [], [], None;
    for index := 0 to |chunks|
      invariant |outputs| == |prompts| == index
      invariant Answered(llm, outputs) && prompts <= ReviewPrompts(chunks)
    {
      prompts := prompts + [ReviewPrompt(chunks[index])];
      var reply := llm(index);
      if !reply.Answer? {
        failure := Some(reply);
        return;
      }
      var review := ParseReviewOutput(reply.content);
      outputs := outputs + [review];
    }
  }

  function Raws(outputs: seq<ParsedReview>): seq<string> {
    seq(|outputs|, i requires 0 <= i < |outputs| => outputs[i].raw)
  }

  /** One output stands for itself; several are given to the model once more. */
  method MaybeSynthesize(outputs: seq<ParsedReview>, llm: nat -> LlmReply)
    returns (review: ParsedReview, prompts: seq<Prompt>, failure: Option<LlmReply>)
    ensures |outputs| == 1 ==> review == outputs[0] && prompts == [] && failure == None
    ensures |outputs| != 1 ==>
              && prompts == [SynthesisPrompt(Raws(outputs))] && |prompts[0].outputs| == |outputs|
              && forall k :: 0 <= k < |outputs| ==> prompts[0].outputs[k] == outputs[k].raw
    ensures |outputs| != 1 && failure == None ==> llm(|outputs|).Answer? && IsParseOf(review, llm(|outputs|).content)
    ensures failure.Some? ==> failure.value == llm(|outputs|) && !failure.value.Answer?
  {
    if |outputs| == 1 {
      return outputs[0], [], None;
    }
    prompts, failure := [SynthesisPrompt(Raws(outputs))], None;
    match llm(|outputs|) {
      case Answer(content) => review := ParseReviewOutput(content);
      case other => review, failure := ParsedReview("", "", "", "", "", true), Some(other);
    }
  }

  function Early(status: JobStatus, detail: StatusDetail): Rendered {
    EarlyResult(ReviewResult(status, Some(detail), None, 0, None, None))
  }

  function FailureFrom(message: string): Rendered {
    EarlyResult(ReviewResult(Failed, Some(LlmFailure), None, 0, Some(message),
      Some("vidi-pr could not complete the review: llm_failure (" +
           message[..if |message| < 200 then |message| else 200] + ")")))
  }

  /** An exception of the model ends the run early; any other leaves `prepare`. */
  function Stopped(failure: LlmReply): Result<Rendered, string>
    requires !failure.Answer?
  {
    match failure
    case LlmError(message) => Success(FailureFrom(message))
    case Crashes(message) => Failure(message)
  }

  /** Every eligible file is in exactly one review prompt or among the skipped ones, and no other file is. */
  ghost predicate CoversEligible(files: seq<ChangedFile>, ignored: string -> bool, prompts: seq<Prompt>,
                                 skipped: seq<ChangedFile>)
  {
    forall file {:trigger multiset(files)[file]} ::
      multiset(PromptFiles(prompts))[file] + multiset(skipped)[file] ==
      if file.patch.Some? && !ignored(file.filename) then multiset(files)[file] else 0
  }

  ghost predicate NothingFits(files: seq<ChangedFile>, ignored: string -> bool, limits: Limits) {
    || limits.maxFiles <= 0 || limits.maxChunks <= 0
    || forall f :: f in files && f.patch.Some? && !ignored(f.filename) ==> |f.patch.value| > limits.maxChunkChars
  }

  lemma {:induction false} PromptFilesAre(chunks: seq<seq<ChangedFile>>, total: nat, first: nat)
    ensures var numbered := seq(|chunks|, i requires 0 <= i < |chunks| => Chunk(first + i, total, chunks[i]));
            PromptFiles(ReviewPrompts(numbered)) == Flatten(chunks)
  {
    var numbered := seq(|chunks|, i requires 0 <= i < |chunks| => Chunk(first + i, total, chunks[i]));
    if chunks != [] {
      var rest := chunks[1..];
      PromptFilesAre(rest, total, first + 1);
      assert ReviewPrompts(numbered)[1..] ==
             ReviewPrompts(seq(|rest|, i requires 0 <= i < |rest| => Chunk(first + 1 + i, total, rest[i])));
    }
  }

  lemma NumberedFiles(chunks: seq<seq<ChangedFile>>)
    ensures PromptFiles(ReviewPrompts(Numbered(chunks))) == Flatten(chunks)
  {
    hide PromptFiles, Flatten;
    PromptFilesAre(chunks, |chunks|, 1);
    assert Numbered(chunks) == seq(|chunks|, i requires 0 <= i < |chunks| => Chunk(1 + i, |chunks|, chunks[i]));
  }

  /** The packing of the eligible files, as the review prompts show it. */
  lemma PackingCovers(files: seq<ChangedFile>, ignored: string -> bool, limits: Limits)
    ensures var bins := PackFiles(FilterFiles(files, ignored), limits);
            && CoversEligible(files, ignored, ReviewPrompts(Numbered(bins.chunks)), bins.skipped)
            && (bins.chunks == [] || |bins.chunks| <= limits.maxChunks)
            && (bins.chunks == [] <==> NothingFits(files, ignored, limits))
  {
    hide PromptFiles, Flatten, FilterFiles, LargestFirst, Pack, Numbered, ReviewPrompts;
    var eligible := FilterFiles(files, ignored);
    var bins := PackFiles(eligible, limits);
    LargestFirstSorts(eligible);
    PackIsWellPacked(LargestFirst(eligible), limits);
    NumberedFiles(bins.chunks);
    forall file
      ensures multiset(Flatten(bins.chunks))[file] + multiset(bins.skipped)[file] ==
              if file.patch.Some? && !ignored(file.filename) then multiset(files)[file] else 0
    {
      FilterKeepsEligible(files, ignored, file);
      assert (multiset(Flatten(bins.chunks)) + multiset(bins.skipped))[file] == multiset(eligible)[file];
    }
    NoChunksIff(eligible, limits);
    forall file ensures file in eligible <==> file in files && file.patch.Some? && !ignored(file.filename) {
      FilterKeepsEligible(files, ignored, file);
      assert file in multiset(eligible) <==> file in eligible;
      assert file in multiset(files) <==> file in files;
    }
  }

  // ---------- prepare ----------

  /** The number of model calls of a run that is not cut short. */
  function Calls(chunks: nat): nat {
    if chunks > 1 then chunks + 1 else chunks
  }

  // ---------- _render_review_body ----------

  const MAX_REVIEW_BODY := 65536
  const TRUNCATION_NOTE := "\n\n_(review truncated to fit GitHub's body length limit)_"

  function Fields(review: ParsedReview): seq<string> {
    [review.summary, review.findings, review.suggestions, review.positives]
  }

  function ReviewText(review: ParsedReview, quote: string -> string): string {
    if review.parseFailed then quote(review.raw) else PrintSections(TITLES, Fields(review))
  }

  function Listed(names: seq<string>): seq<string> {
    seq(|names|, i requires 0 <= i < |names| => "- `" + names[i] + "`")
  }

  function NotReviewed(names: seq<string>): string {
    if names == [] then "" else "\n\n## Not reviewed due to size\n\n" + Join(Listed(names), "\n")
  }

  function FullBody(review: ParsedReview, skipped: seq<string>, quote: string -> string, footer: string): string {
    ReviewText(review, quote) + NotReviewed(skipped) + "\n\n" + footer
  }

  /** A body within the limit is posted whole; a longer one is cut, at exactly the limit, and says so. */
  function Truncated(body: string): (posted: string)
    ensures |posted| <= MAX_REVIEW_BODY
    ensures |body| <= 65536 ==> posted == body
    ensures |body| > 65536 ==>
              var note := "\n\n_(review truncated to fit GitHub's body length limit)_";
              |posted| == 65536 && posted == body[..65536 - |note|] + note
  {
    if |body| <= MAX_REVIEW_BODY then body else body[..MAX_REVIEW_BODY - |TRUNCATION_NOTE|] + TRUNCATION_NOTE
  }

  method RenderReviewBody(review: ParsedReview, skipped: seq<string>, quote: string -> string, footer: string)
    returns (body: string)
    ensures body == Truncated(FullBody(review, skipped, quote, footer))
    ensures var full :=
              (if review.parseFailed then quote(review.raw)
               else PrintSections(TITLES, [review.summary, review.findings, review.suggestions, review.positives]))
              + (if skipped == [] then "" else "\n\n## Not reviewed due to size\n\n" + Join(Listed(skipped), "\n"))
              + "\n\n" + footer;
            |full| <= 65536 ==> body == full
  {
    hide PrintSections, Join;
    var text;
    if review.parseFailed {
      text := quote(review.raw);
    } else {
      text := RenderSections(review);
    }
    if skipped != [] {
      text := text + ("\n\n## Not reviewed due to size\n\n" + Join(Listed(skipped), "\n"));
    } else {
      assert text == text + "";
    }
    body := Truncated(text + "\n\n" + footer);
  }

  /** The printed sections open the posted body, unless they are themselves cut. */
  ghost predicate ShowsWhole(review: ParsedReview, full: string) {
    |full| <= MAX_REVIEW_BODY || |PrintSections(TITLES, Fields(review))| + |TRUNCATION_NOTE| <= MAX_REVIEW_BODY
  }

  // ---------- what a completed run promises ----------

  /** The prompt that gives the model its own first `n` answers. */
  ghost predicate Synthesises(prompt: Prompt, llm: nat -> LlmReply, n: nat) {
    && prompt.SynthesisPrompt? && |prompt.outputs| == n
    && forall k :: 0 <= k < n ==> llm(k).Answer? && prompt.outputs[k] == llm(k).content
  }

  /** A review parsed from the last answer, and every eligible file accounted for. */
  ghost predicate Complete(files: seq<ChangedFile>, ignored: string -> bool, limits: Limits, services: Services,
                           rendered: Rendered, prompts: seq<Prompt>, skipped: seq<ChangedFile>, review: ParsedReview)
  {
    && rendered.Body?
    && CoversEligible(files, ignored, prompts, skipped)
    && 1 <= rendered.chunkCount <= limits.maxChunks
    && |prompts| == Calls(rendered.chunkCount) == (if rendered.chunkCount > 1 then rendered.chunkCount + 1 else 1)
    && (forall k :: 0 <= k < rendered.chunkCount ==>
          prompts[k].ReviewPrompt? && prompts[k].chunk.index == k + 1 && prompts[k].chunk.total == rendered.chunkCount)
    && (rendered.chunkCount > 1 ==> Synthesises(prompts[rendered.chunkCount], services.llm, rendered.chunkCount))
    && (forall k :: 0 <= k < |prompts| ==> services.llm(k).Answer?)
    && IsParseOf(review, services.llm(|prompts| - 1).content)
    && rendered.body == Truncated(FullBody(review, Filenames(skipped), services.quote, services.footer))
    && rendered.detail == if review.parseFailed then Some(ParseFailed) else None
  }

  /**
   * End to end: the body of a completed run opens with printed sections that parse back to the sections of the model's
   * last answer, exactly when none of these opens with a heading.
   */
  lemma PostedSectionsParseBackIff(files: seq<ChangedFile>, ignored: string -> bool, limits: Limits, services: Services,
                                   rendered: Rendered, prompts: seq<Prompt>, skipped: seq<ChangedFile>,
                                   review: ParsedReview)
    requires Complete(files, ignored, limits, services, rendered, prompts, skipped, review) && !review.parseFailed
    requires ShowsWhole(review, FullBody(review, Filenames(skipped), services.quote, services.footer))
    ensures var printed, answer := PrintSections(TITLES, Fields(review)), services.llm(|prompts| - 1).content;
            && printed <= rendered.body
            && (Sections(TITLES, printed) == Sections(TITLES, answer) <==>
                forall k :: 0 <= k < |TITLES| ==> HeadingIn(TITLES, Sections(TITLES, answer)[k]) == None)
  {
    hide PrintSections, Sections, CoversEligible, Filenames, HeadingIn, IsParseOf, FullBody, Truncated;
    AnswerParsesBackIff(review, services.llm(|prompts| - 1).content);
    BodyOpensWithReview(review, Filenames(skipped), services.quote, services.footer);
  }

  lemma AnswerParsesBackIff(review: ParsedReview, answer: string)
    requires IsParseOf(review, answer)
    ensures Sections(TITLES, PrintSections(TITLES, Fields(review))) == Sections(TITLES, answer) <==>
            forall k :: 0 <= k < |TITLES| ==> HeadingIn(TITLES, Sections(TITLES, answer)[k]) == None
  {
    hide PrintSections, Sections, HeadingIn, HeadingAt;
    assert Fields(review) == Sections(TITLES, answer);
    CanonicalTitlesAreGood();
    ReparsingIsStableIff(TITLES, answer);
  }

  lemma BodyOpensWithReview(review: ParsedReview, names: seq<string>, quote: string -> string, footer: string)
    requires !review.parseFailed && ShowsWhole(review, FullBody(review, names, quote, footer))
    ensures PrintSections(TITLES, Fields(review)) <= Truncated(FullBody(review, names, quote, footer))
  {
    hide PrintSections, NotReviewed, Truncated;
    var printed, rest := PrintSections(TITLES, Fields(review)), NotReviewed(names) + "\n\n" + footer;
    assert FullBody(review, names, quote, footer) == printed + rest;
    BodyOpensWith(printed, rest);
  }

  /** Every piece stands in the joined text, behind a separator, and before one or at the end. */
  lemma {:induction false} JoinSplits(pieces: seq<string>, separator: string, k: nat) returns (a: string, b: string)
    requires k < |pieces|
    ensures separator + Join(pieces, separator) == a + (separator + pieces[k]) + b
    ensures b == "" || separator <= b
  {
    if |pieces| == 1 {
      a, b := "", "";
    } else if k == 0 {
      a, b := "", separator + Join(pieces[1..], separator);
      assert separator + (pieces[0] + separator + Join(pieces[1..], separator)) == a + (separator + pieces[0]) + b;
    } else {
      a, b := JoinSplits(pieces[1..], separator, k - 1);
      assert separator + (pieces[0] + separator + Join(pieces[1..], separator)) ==
             separator + pieces[0] + (separator + Join(pieces[1..], separator));
      assert separator + pieces[0] + (a + (separator + pieces[k]) + b) ==
             separator + pieces[0] + a + (separator + pieces[k]) + b;
      a := separator + pieces[0] + a;
    }
  }

  /** In a body within the limit, each skipped name has a line of its own under the heading that announces it. */
  lemma SkippedNamesArePosted(review: ParsedReview, names: seq<string>, quote: string -> string, footer: string, k: nat)
    returns (a: string, b: string)
    requires k < |names| && |FullBody(review, names, quote, footer)| <= 65536
    ensures Truncated(FullBody(review, names, quote, footer)) ==
            ReviewText(review, quote) + "\n\n## Not reviewed due to size\n" + a + ("\n- `" + names[k] + "`\n") + b
  {
    hide Join, ReviewText, Truncated, FullBody, NotReviewed;
    var text := ReviewText(review, quote);
    var c, d := JoinSplits(Listed(names), "\n", k);
    NotReviewedLines(names, c, Listed(names)[k], d);
    assert Listed(names)[k] == "- `" + names[k] + "`";
    a, b := c, (d + "\n\n" + footer)[1..];
    NameHasItsLine(text, c, names[k], d, footer);
    BodyIs(review, names, quote, footer);
  }

  lemma BodyIs(review: ParsedReview, names: seq<string>, quote: string -> string, footer: string)
    requires |FullBody(review, names, quote, footer)| <= 65536
    ensures Truncated(FullBody(review, names, quote, footer)) ==
            ReviewText(review, quote) + NotReviewed(names) + "\n\n" + footer
  {
    hide NotReviewed, ReviewText;
  }

  lemma NotReviewedLines(names: seq<string>, c: string, line: string, d: string)
    requires names != [] && "\n" + Join(Listed(names), "\n") == c + ("\n" + line) + d
    ensures NotReviewed(names) == "\n\n## Not reviewed due to size\n" + (c + ("\n" + line) + d)
  {
    hide Join, Listed;
    var list := Join(Listed(names), "\n");
    assert "\n\n## Not reviewed due to size\n\n" == "\n\n## Not reviewed due to size\n" + "\n";
    assert "\n\n## Not reviewed due to size\n" + "\n" + list == "\n\n## Not reviewed due to size\n" + ("\n" + list);
  }

  lemma NameHasItsLine(text: string, c: string, name: string, d: string, footer: string)
    requires d == "" || "\n" <= d
    ensures d + "\n\n" + footer != ""
    ensures var list := "\n\n## Not reviewed due to size\n" + (c + ("\n" + ("- `" + name + "`")) + d);
            text + list + "\n\n" + footer ==
            text + "\n\n## Not reviewed due to size\n" + c + ("\n- `" + name + "`\n") + (d + "\n\n" + footer)[1..]
  {
    var head, rest := "\n\n## Not reviewed due to size\n", d + "\n\n" + footer;
    assert rest[0] == '\n' && rest == "\n" + rest[1..];
    Regrouped(text, head, c, "\n" + ("- `" + name + "`"), d, "\n\n" + footer, rest);
    LineOf(name, rest);
    Regroup4(text + head + c, "\n" + ("- `" + name + "`"), rest, "\n- `" + name + "`\n", rest[1..]);
  }

  lemma Regrouped(text: string, head: string, c: string, line: string, d: string, tail: string, rest: string)
    requires tail != "" && rest == d + tail
    ensures text + (head + (c + line + d)) + tail == text + head + c + line + rest
  {
  }

  lemma LineOf(name: string, rest: string)
    requires rest != "" && rest[0] == '\n'
    ensures "\n" + ("- `" + name + "`") + rest == "\n- `" + name + "`\n" + rest[1..]
  {
  }

  lemma Regroup4(a: string, line: string, rest: string, whole: string, after: string)
    requires line + rest == whole + after
    ensures a + line + rest == a + whole + after
  {
    assert a + line + rest == a + (line + rest);
    assert a + whole + after == a + (whole + after);
  }

  lemma BodyOpensWith(printed: string, rest: string)
    requires |printed + rest| <= MAX_REVIEW_BODY || |printed| + |TRUNCATION_NOTE| <= MAX_REVIEW_BODY
    ensures printed <= Truncated(printed + rest)
  {
  }

  lemma {:induction false} SynthesisShowsNoFile(prompts: seq<Prompt>, outputs: seq<string>)
    ensures PromptFiles(prompts + [SynthesisPrompt(outputs)]) == PromptFiles(prompts)
  {
    if prompts != [] {
      assert (prompts + [SynthesisPrompt(outputs)])[1..] == prompts[1..] + [SynthesisPrompt(outputs)];
      SynthesisShowsNoFile(prompts[1..], outputs);
    }
  }

  /** The prompts of both rounds together: the files of the first, one call more if there was a second. */
  lemma BothRounds(files: seq<ChangedFile>, limits: Limits, services: Services, chunks: seq<Chunk>, first: seq<Prompt>,
                   second: seq<Prompt>, outputs: seq<ParsedReview>, review: ParsedReview, skipped: seq<ChangedFile>,
                   ignored: string -> bool, body: string)
    requires CoversEligible(files, ignored, ReviewPrompts(chunks), skipped)
    requires body == Truncated(FullBody(review, Filenames(skipped), services.quote, services.footer))
    requires 1 <= |chunks| <= limits.maxChunks && |outputs| == |first| == |chunks| && first <= ReviewPrompts(chunks)
    requires forall k :: 0 <= k < |chunks| ==> chunks[k].index == k + 1 && chunks[k].total == |chunks|
    requires Answered(services.llm, outputs)
    requires |outputs| == 1 ==> review == outputs[0] && second == []
    requires |outputs| != 1 ==>
               && second == [SynthesisPrompt(Raws(outputs))]
               && services.llm(|outputs|).Answer? && IsParseOf(review, services.llm(|outputs|).content)
    ensures Complete(files, ignored, limits, services,
                     Body(body, if review.parseFailed then Some(ParseFailed) else None, |chunks|),
                     first + second, skipped, review)
  {
    hide IsParseOf, PromptFiles, Filenames, FullBody, Truncated;
    assert first == ReviewPrompts(chunks);
    if |outputs| == 1 {
      assert first + second == first;
      assert IsParseOf(outputs[0], services.llm(0).content);
    } else {
      SynthesisShowsNoFile(first, Raws(outputs));
      RawsAreAnswers(outputs, services.llm);
    }
  }

  lemma RawsAreAnswers(outputs: seq<ParsedReview>, llm: nat -> LlmReply)
    requires Answered(llm, outputs)
    ensures Synthesises(SynthesisPrompt(Raws(outputs)), llm, |outputs|)
  {
  }

  lemma NothingToPack(limits: Limits)
    ensures PackFiles([], limits).chunks == []
  {
    NoChunksIff([], limits);
  }

  lemma SameCount(chunks: seq<seq<ChangedFile>>)
    ensures |Numbered(chunks)| == |chunks|
  {
  }

  /** How a run ends that the model cuts short. */
  ghost predicate StoppedBy(reply: LlmReply, rendered: Result<Rendered, string>) {
    match reply
    case Answer(_) => false
    case Crashes(message) => rendered == Failure(message)
    case LlmError(message) =>
      var shown := if |message| <= 200 then message else message[..200];
      rendered == Success(EarlyResult(ReviewResult(
        Failed, Some(LlmFailure), None, 0, Some(message),
        Some("vidi-pr could not complete the review: llm_failure (" + shown + ")"))))
  }

  ghost predicate EndsEarly(rendered: Result<Rendered, string>, detail: StatusDetail) {
    rendered == Success(EarlyResult(ReviewResult(Done, Some(detail), None, 0, None, None)))
  }

  /** What `prepare` must come back with, case by case. */
  ghost predicate Prepared(services: Services, limits: Limits, skipDraftCheck: bool, rendered: Result<Rendered, string>,
                           prompts: seq<Prompt>, skipped: seq<ChangedFile>, review: ParsedReview)
  {
    && (services.draft.Failure? ==> rendered == Failure(services.draft.error) && prompts == [])
    && (services.draft == Success(true) && !skipDraftCheck ==> EndsEarly(rendered, DraftedAfterEvent) && prompts == [])
    && (GoesOn(services, skipDraftCheck) && services.config.Failure? ==>
          rendered == Failure(services.config.error) && prompts == [])
    && (GoesOn(services, skipDraftCheck) && services.config.Success? && services.content.Failure? ==>
          rendered == Failure(services.content.error) && prompts == [])
    && (GoesOn(services, skipDraftCheck) && services.config.Success? && services.content.Success? ==>
          Reviewed(services.content.value, services.config.value, limits, services, rendered, prompts, skipped, review))
  }

  ghost predicate Reviewed(files: seq<ChangedFile>, ignored: string -> bool, limits: Limits, services: Services,
                           rendered: Result<Rendered, string>, prompts: seq<Prompt>, skipped: seq<ChangedFile>,
                           review: ParsedReview)
  {
    && (prompts == [] <==> NothingFits(files, ignored, limits))
    && (prompts == [] ==> EndsEarly(rendered, NoReviewableFiles))
    && (rendered.Success? && rendered.value.Body? ==>
          Complete(files, ignored, limits, services, rendered.value, prompts, skipped, review))
    && (prompts != [] && !(rendered.Success? && rendered.value.Body?) ==>
          StoppedBy(services.llm(|prompts| - 1), rendered))
  }

  /** `prepare`. An exception of the fetches leaves it; a failure of the model does not. */
  method Prepare(services: Services, limits: Limits, skipDraftCheck: bool)
    returns (rendered: Result<Rendered, string>, prompts: seq<Prompt>,
             ghost skipped: seq<ChangedFile>, ghost review: ParsedReview)
    ensures rendered.Success? ==> WellFormedEarly(rendered.value)
    ensures Prepared(services, limits, skipDraftCheck, rendered, prompts, skipped, review)
  {
    hide Reviewed;
    prompts, skipped, review := [], [], ParsedReview("", "", "", "", "", true);
    if services.draft.Failure? {
      return Failure(services.draft.error), prompts, skipped, review;
    }
    if services.draft.value && !skipDraftCheck {
      return Success(Early(Done, DraftedAfterEvent)), prompts, skipped, review;
    }
    if services.config.Failure? {
      return Failure(services.config.error), prompts, skipped, review;
    }
    if services.content.Failure? {
      return Failure(services.content.error), prompts, skipped, review;
    }
    rendered, prompts, skipped, review :=
      ReviewFiles(services.content.value, services.config.value, limits, services);
  }

  /** `prepare` from the point where everything has been fetched. */
  method ReviewFiles(files: seq<ChangedFile>, ignored: string -> bool, limits: Limits, services: Services)
    returns (rendered: Result<Rendered, string>, prompts: seq<Prompt>,
             ghost skipped: seq<ChangedFile>, ghost review: ParsedReview)
    ensures rendered.Success? ==> WellFormedEarly(rendered.value)
    ensures Reviewed(files, ignored, limits, services, rendered, prompts, skipped, review)
  {
    hide PackFiles, FilterFiles, NothingFits, CoversEligible, Complete, FullBody, Truncated;
    hide Numbered, ReviewPrompts, Raws, IsParseOf, Filenames, IsPacking, StoppedBy, Stopped;
    prompts, skipped, review := [], [], ParsedReview("", "", "", "", "", true);
    var eligible := FilterFiles(files, ignored);
    ghost var bins := PackFiles(eligible, limits);
    PackingCovers(files, ignored, limits);
    if eligible == [] {
      NothingToPack(limits);
      return Success(Early(Done, NoReviewableFiles)), prompts, skipped, review;
    }
    var packing, left := PackChunks(eligible, limits);
    SameCount(bins.chunks);
    if packing.chunks == [] {
      return Success(Early(Done, NoReviewableFiles)), prompts, skipped, review;
    }
    skipped := left;
    var outputs, reviewPrompts, failure := RunChunks(packing.chunks, services.llm);
    if failure.Some? {
      StoppedIsShown(failure.value);
      return Stopped(failure.value), reviewPrompts, skipped, review;
    }
    var final, synthesisPrompts, synthesisFailure := MaybeSynthesize(outputs, services.llm);
    prompts := reviewPrompts + synthesisPrompts;
    review := final;
    if synthesisFailure.Some? {
      StoppedIsShown(synthesisFailure.value);
      return Stopped(synthesisFailure.value), prompts, skipped, review;
    }
    var body := RenderReviewBody(final, packing.skipped, services.quote, services.footer);
    rendered := Success(Body(body, if final.parseFailed then Some(ParseFailed) else None, |packing.chunks|));
    NumberedFromOne(eligible, limits, packing, left);
    BothRounds(files, limits, services, packing.chunks, reviewPrompts, synthesisPrompts, outputs, final, left,
               ignored, body);
  }

  lemma StoppedIsShown(reply: LlmReply)
    requires !reply.Answer?
    ensures StoppedBy(reply, Stopped(reply))
  {
    if reply.LlmError? && |reply.message| <= 200 { assert reply.message[..|reply.message|] == reply.message; }
  }

  lemma NumberedFromOne(files: seq<ChangedFile>, limits: Limits, packing: PackingResult, left: seq<ChangedFile>)
    requires IsPacking(files, limits, packing, left)
    ensures forall k :: 0 <= k < |packing.chunks| ==>
              packing.chunks[k].index == k + 1 && packing.chunks[k].total == |packing.chunks|
  {
  }

  /** `Reviewer.run`: prepare, then post. This is what the worker's protocol relies on. */
  method RunJob(services: Services, limits: Limits, replies: seq<PostReply>)
    returns (outcome: Result<ReviewResult, string>, response: Option<int>, attempts: nat, prompts: seq<Prompt>,
             ghost rendered: Result<Rendered, string>, ghost skipped: seq<ChangedFile>, ghost review: ParsedReview)
    requires |replies| == MAX_ATTEMPTS
    ensures Prepared(services, limits, false, rendered, prompts, skipped, review)
    ensures rendered.Failure? ==> outcome == Failure(rendered.error) && response == None && attempts == 0
    ensures rendered.Success? && rendered.value.EarlyResult? ==>
              outcome == Success(rendered.value.result) && response == None && attempts == 0
    ensures rendered.Success? && rendered.value.Body? ==>
              PostEnds(rendered.value, replies, outcome, response, attempts)
    ensures outcome.Success? ==> WellFormedResult(outcome.value, response)
  {
    hide Prepared, PostEnds;
    var ready;
    ready, prompts, skipped, review := Prepare(services, limits, false);
    rendered := ready;
    outcome, response, attempts := Run(ready, replies);
  }
}
