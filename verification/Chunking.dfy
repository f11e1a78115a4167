// pipeline/chunking.py: the greedy packer that spreads changed files over review chunks.
module Chunking {
  import opened Common

  datatype ChangedFile = ChangedFile(filename: string, patch: Option<string>)

  datatype Chunk = Chunk(index: nat, total: nat, files: seq<ChangedFile>)

  datatype PackingResult = PackingResult(chunks: seq<Chunk>, skipped: seq<string>)

  /** The three caps. The packer itself accepts any integers. */
  datatype Limits = Limits(maxFiles: int, maxChunks: int, maxChunkChars: int)

  function FileSize(file: ChangedFile): nat {
    match file.patch
    case None => 0
    case Some(text) => |text|
  }

  /** Sum of a weight over a list of files. */
  function Weigh(w: ChangedFile -> nat, files: seq<ChangedFile>): nat {
    if files == [] then 0 else w(files[0]) + Weigh(w, files[1..])
  }

  function Total(files: seq<ChangedFile>): nat {
    Weigh(FileSize, files)
  }

  /** All files of a list of groups, in order. */
  function Flatten(groups: seq<seq<ChangedFile>>): seq<ChangedFile> {
    if groups == [] then [] else groups[0] + Flatten(groups[1..])
  }

  // ---------- sorted(files, key=_file_size, reverse=True) ----------

  function InsertBySize(file: ChangedFile, files: seq<ChangedFile>): seq<ChangedFile> {
    if files == [] then [file]
    else if FileSize(file) >= FileSize(files[0]) then [file] + files
    else [files[0]] + InsertBySize(file, files[1..])
  }

  function LargestFirst(files: seq<ChangedFile>): seq<ChangedFile> {
    if files == [] then [] else InsertBySize(files[0], LargestFirst(files[1..]))
  }

  ghost predicate NonIncreasing(files: seq<ChangedFile>) {
    forall i, j :: 0 <= i < j < |files| ==> FileSize(files[i]) >= FileSize(files[j])
  }

  function OfSize(n: nat, files: seq<ChangedFile>): seq<ChangedFile> {
    if files == [] then []
    else (if FileSize(files[0]) == n then [files[0]] else []) + OfSize(n, files[1..])
  }

  lemma {:induction false} InsertPermutes(file: ChangedFile, files: seq<ChangedFile>)
    ensures multiset(InsertBySize(file, files)) == multiset(files) + multiset{file}
  {
    if files != [] && FileSize(file) < FileSize(files[0]) {
      InsertPermutes(file, files[1..]);
      assert files == [files[0]] + files[1..];
    }
  }

  lemma {:induction false} InsertKeepsOrder(file: ChangedFile, files: seq<ChangedFile>)
    requires NonIncreasing(files)
    ensures NonIncreasing(InsertBySize(file, files))
  {
    if files != [] && FileSize(file) < FileSize(files[0]) {
      var rest := InsertBySize(file, files[1..]);
      InsertKeepsOrder(file, files[1..]);
      InsertPermutes(file, files[1..]);
      forall j | 0 <= j < |rest|
        ensures FileSize(rest[j]) <= FileSize(files[0])
      {
        assert rest[j] in multiset(rest);
        assert rest[j] == file || rest[j] in files[1..];
      }
    }
  }

  lemma {:induction false} InsertIsStable(file: ChangedFile, files: seq<ChangedFile>, n: nat)
    ensures OfSize(n, InsertBySize(file, files)) == OfSize(n, [file]) + OfSize(n, files)
  {
    if files == [] {
    } else if FileSize(file) >= FileSize(files[0]) {
      assert ([file] + files)[1..] == files;
    } else {
      InsertIsStable(file, files[1..], n);
      assert InsertBySize(file, files)[1..] == InsertBySize(file, files[1..]);
    }
  }

  lemma {:induction false} SortPermutesAndOrders(files: seq<ChangedFile>)
    ensures NonIncreasing(LargestFirst(files)) && multiset(LargestFirst(files)) == multiset(files)
  {
    if files != [] {
      SortPermutesAndOrders(files[1..]);
      InsertKeepsOrder(files[0], LargestFirst(files[1..]));
      InsertPermutes(files[0], LargestFirst(files[1..]));
      assert files == [files[0]] + files[1..];
    }
  }

  lemma {:induction false} SortIsStable(files: seq<ChangedFile>, n: nat)
    ensures OfSize(n, LargestFirst(files)) == OfSize(n, files)
  {
    hide FileSize, InsertBySize;
    if files != [] {
      SortIsStable(files[1..], n);
      InsertIsStable(files[0], LargestFirst(files[1..]), n);
      assert [files[0]][1..] == [];
    }
  }

  /** The sort is a permutation, largest first, and stable among files of equal size. */
  lemma LargestFirstSorts(files: seq<ChangedFile>)
    ensures NonIncreasing(LargestFirst(files))
    ensures multiset(LargestFirst(files)) == multiset(files)
    ensures forall n: nat :: OfSize(n, LargestFirst(files)) == OfSize(n, files)
  {
    SortPermutesAndOrders(files);
    forall n: nat ensures OfSize(n, LargestFirst(files)) == OfSize(n, files) {
      SortIsStable(files, n);
    }
  }

  // ---------- the packing loop as a fold ----------

  datatype Bins = Bins(chunks: seq<seq<ChangedFile>>, skipped: seq<ChangedFile>, placed: nat)

  const EMPTY_BINS := Bins([], [], 0)

  /** The first chunk that still has room for `size` characters. */
  function FirstFit(chunks: seq<seq<ChangedFile>>, size: nat, cap: int): (target: Option<nat>)
    ensures target == None ==> forall i :: 0 <= i < |chunks| ==> Total(chunks[i]) + size > cap
    ensures target.Some? ==>
              && target.value < |chunks| && Total(chunks[target.value]) + size <= cap
              && forall i :: 0 <= i < target.value ==> Total(chunks[i]) + size > cap
  {
    if chunks == [] then None
    else if Total(chunks[0]) + size <= cap then Some(0)
    else match FirstFit(chunks[1..], size, cap)
      case None => None
      case Some(i) => Some(i + 1)
  }

  function Place(bins: Bins, file: ChangedFile, limits: Limits): Bins {
    var size := FileSize(file);
    if bins.placed >= limits.maxFiles || size > limits.maxChunkChars then
      bins.(skipped := bins.skipped + [file])
    else
      match FirstFit(bins.chunks, size, limits.maxChunkChars)
      case Some(t) =>
        bins.(chunks := bins.chunks[t := bins.chunks[t] + [file]], placed := bins.placed + 1)
      case None =>
        if |bins.chunks| >= limits.maxChunks then bins.(skipped := bins.skipped + [file])
        else bins.(chunks := bins.chunks + [[file]], placed := bins.placed + 1)
  }

  function Pack(sorted: seq<ChangedFile>, limits: Limits): Bins {
    if sorted == [] then EMPTY_BINS
    else Place(Pack(sorted[..|sorted| - 1], limits), sorted[|sorted| - 1], limits)
  }

  function Filenames(files: seq<ChangedFile>): seq<string> {
    seq(|files|, i requires 0 <= i < |files| => files[i].filename)
  }

  function Numbered(chunks: seq<seq<ChangedFile>>): seq<Chunk> {
    seq(|chunks|, i requires 0 <= i < |chunks| => Chunk(i + 1, |chunks|, chunks[i]))
  }

  // ---------- what the loop keeps ----------

  ghost predicate WithinCaps(bins: Bins, limits: Limits) {
    && (bins.chunks == [] || |bins.chunks| <= limits.maxChunks)
    && (bins.placed == 0 || bins.placed <= limits.maxFiles)
    && forall i :: 0 <= i < |bins.chunks| ==>
         bins.chunks[i] != [] && Total(bins.chunks[i]) <= limits.maxChunkChars
  }

  /** No file of a later chunk would have fitted an earlier one. */
  ghost predicate NoEarlierFit(chunks: seq<seq<ChangedFile>>, cap: int) {
    forall i, j, f :: 0 <= i < j < |chunks| && f in chunks[j] ==> Total(chunks[i]) + FileSize(f) > cap
  }

  /** Nothing placed in a chunk, or in a later one, is larger than the file that opened it. */
  ghost predicate OpenedLargestFirst(chunks: seq<seq<ChangedFile>>) {
    forall i, j, f :: 0 <= i <= j < |chunks| && chunks[i] != [] && f in chunks[j] ==>
      FileSize(f) <= FileSize(chunks[i][0])
  }

  /** Why the packer may leave a file out. */
  ghost predicate CannotBePlaced(bins: Bins, file: ChangedFile, limits: Limits) {
    || FileSize(file) > limits.maxChunkChars
    || bins.placed >= limits.maxFiles
    || (&& |bins.chunks| >= limits.maxChunks
        && forall i :: 0 <= i < |bins.chunks| ==> Total(bins.chunks[i]) + FileSize(file) > limits.maxChunkChars)
  }

  /** Every file is placed once or skipped once, and `placed` counts the placed ones. */
  ghost predicate Conserves(bins: Bins, files: seq<ChangedFile>) {
    && multiset(Flatten(bins.chunks)) + multiset(bins.skipped) == multiset(files)
    && bins.placed == |Flatten(bins.chunks)|
  }

  ghost predicate WellShaped(bins: Bins, limits: Limits) {
    && WithinCaps(bins, limits)
    && NoEarlierFit(bins.chunks, limits.maxChunkChars)
    && OpenedLargestFirst(bins.chunks)
  }

  ghost predicate SkipsOnlyWhenStuck(bins: Bins, limits: Limits) {
    forall f :: f in bins.skipped ==> CannotBePlaced(bins, f, limits)
  }

  ghost predicate WellPacked(bins: Bins, files: seq<ChangedFile>, limits: Limits) {
    && Conserves(bins, files)
    && WellShaped(bins, limits)
    && SkipsOnlyWhenStuck(bins, limits)
  }

  lemma {:induction false} WeighAppend(w: ChangedFile -> nat, a: seq<ChangedFile>, b: seq<ChangedFile>)
    ensures Weigh(w, a + b) == Weigh(w, a) + Weigh(w, b)
  {
    if a == [] {
      assert a + b == b;
    } else {
      assert (a + b)[1..] == a[1..] + b;
      WeighAppend(w, a[1..], b);
    }
  }

  lemma {:induction false} FlattenAppend(a: seq<seq<ChangedFile>>, b: seq<seq<ChangedFile>>)
    ensures Flatten(a + b) == Flatten(a) + Flatten(b)
  {
    if a == [] {
      assert a + b == b;
    } else {
      assert (a + b)[1..] == a[1..] + b;
      FlattenAppend(a[1..], b);
    }
  }

  lemma {:induction false} FlattenGrows(chunks: seq<seq<ChangedFile>>, t: nat, file: ChangedFile)
    requires t < |chunks|
    ensures multiset(Flatten(chunks[t := chunks[t] + [file]])) == multiset(Flatten(chunks)) + multiset{file}
    ensures |Flatten(chunks[t := chunks[t] + [file]])| == |Flatten(chunks)| + 1
  {
    var grown := chunks[t := chunks[t] + [file]];
    if t == 0 {
      assert grown[1..] == chunks[1..];
    } else {
      assert grown[1..] == chunks[1..][t - 1 := chunks[1..][t - 1] + [file]];
      FlattenGrows(chunks[1..], t - 1, file);
    }
  }

  lemma {:induction false} InFlatten(chunks: seq<seq<ChangedFile>>, j: nat, file: ChangedFile)
    requires j < |chunks| && file in chunks[j]
    ensures file in Flatten(chunks)
  {
    if j > 0 { InFlatten(chunks[1..], j - 1, file); }
  }

  /** Appending to chunk `t`, where every earlier chunk was too full. */
  lemma GrowKeepsShape(chunks: seq<seq<ChangedFile>>, t: nat, file: ChangedFile, cap: int)
    requires t < |chunks| && NoEarlierFit(chunks, cap) && OpenedLargestFirst(chunks)
    requires forall i :: 0 <= i < |chunks| ==> chunks[i] != []
    requires forall i :: 0 <= i < t ==> Total(chunks[i]) + FileSize(file) > cap
    requires forall i, f :: 0 <= i < |chunks| && f in chunks[i] ==> FileSize(file) <= FileSize(f)
    ensures var grown := chunks[t := chunks[t] + [file]];
            && NoEarlierFit(grown, cap) && OpenedLargestFirst(grown)
            && Total(grown[t]) == Total(chunks[t]) + FileSize(file)
  {
    var grown := chunks[t := chunks[t] + [file]];
    WeighAppend(FileSize, chunks[t], [file]);
    assert FileSize(file) == Total([file]);
    forall i, j, f | 0 <= i < j < |grown| && f in grown[j]
      ensures Total(grown[i]) + FileSize(f) > cap
    {
      assert Total(grown[i]) >= Total(chunks[i]);
      assert f in chunks[j] || (j == t && f == file);
    }
    forall i, j, f | 0 <= i <= j < |grown| && grown[i] != [] && f in grown[j]
      ensures FileSize(f) <= FileSize(grown[i][0])
    {
      assert grown[i][0] == chunks[i][0] && chunks[i][0] in chunks[i];
      assert f in chunks[j] || (j == t && f == file);
    }
  }

  lemma OpenKeepsShape(chunks: seq<seq<ChangedFile>>, file: ChangedFile, cap: int)
    requires NoEarlierFit(chunks, cap) && OpenedLargestFirst(chunks)
    requires forall i :: 0 <= i < |chunks| ==> Total(chunks[i]) + FileSize(file) > cap
    requires forall i, f :: 0 <= i < |chunks| && f in chunks[i] ==> FileSize(file) <= FileSize(f)
    ensures NoEarlierFit(chunks + [[file]], cap) && OpenedLargestFirst(chunks + [[file]])
  {
    var wider := chunks + [[file]];
    forall i, j, f | 0 <= i <= j < |wider| && wider[i] != [] && f in wider[j]
      ensures FileSize(f) <= FileSize(wider[i][0])
    {
      if j == |chunks| && i < j { assert chunks[i][0] in chunks[i]; }
    }
  }

  /** Chunks only grow, so a reason for leaving a file out stays a reason. */
  lemma PlaceKeepsReasons(bins: Bins, file: ChangedFile, limits: Limits, out: ChangedFile)
    requires CannotBePlaced(bins, out, limits)
    ensures CannotBePlaced(Place(bins, file, limits), out, limits)
  {
    match FirstFit(bins.chunks, FileSize(file), limits.maxChunkChars)
    case Some(t) => WeighAppend(FileSize, bins.chunks[t], [file]);
    case None =>
  }

  lemma PlaceConserves(bins: Bins, before: seq<ChangedFile>, file: ChangedFile, limits: Limits)
    requires Conserves(bins, before)
    ensures Conserves(Place(bins, file, limits), before + [file])
  {
    var next := Place(bins, file, limits);
    if next.chunks == bins.chunks {
      assert multiset(next.skipped) == multiset(bins.skipped) + multiset{file};
    } else {
      match FirstFit(bins.chunks, FileSize(file), limits.maxChunkChars)
      case Some(t) => FlattenGrows(bins.chunks, t, file);
      case None =>
        FlattenAppend(bins.chunks, [[file]]);
        assert Flatten([[file]]) == [file] + [];
    }
  }

  lemma PlaceKeepsCaps(bins: Bins, file: ChangedFile, limits: Limits)
    requires WithinCaps(bins, limits)
    ensures WithinCaps(Place(bins, file, limits), limits)
  {
    match FirstFit(bins.chunks, FileSize(file), limits.maxChunkChars)
    case Some(t) => WeighAppend(FileSize, bins.chunks[t], [file]);
    case None => assert Total([file]) == FileSize(file) + Total([file][1..]);
  }

  lemma PlaceKeepsShape(bins: Bins, file: ChangedFile, limits: Limits)
    requires WellShaped(bins, limits)
    requires forall i, f :: 0 <= i < |bins.chunks| && f in bins.chunks[i] ==> FileSize(file) <= FileSize(f)
    ensures WellShaped(Place(bins, file, limits), limits)
  {
    PlaceKeepsCaps(bins, file, limits);
    var next, cap := Place(bins, file, limits), limits.maxChunkChars;
    if next.chunks != bins.chunks {
      match FirstFit(bins.chunks, FileSize(file), cap)
      case Some(t) => GrowKeepsShape(bins.chunks, t, file, cap);
      case None => OpenKeepsShape(bins.chunks, file, cap);
    }
  }

  lemma PlaceKeepsWellPacked(bins: Bins, before: seq<ChangedFile>, file: ChangedFile, limits: Limits)
    requires WellPacked(bins, before, limits)
    requires forall f :: f in before ==> FileSize(file) <= FileSize(f)
    ensures WellPacked(Place(bins, file, limits), before + [file], limits)
  {
    var next := Place(bins, file, limits);
    forall i, f | 0 <= i < |bins.chunks| && f in bins.chunks[i]
      ensures FileSize(file) <= FileSize(f)
    {
      InFlatten(bins.chunks, i, f);
      assert f in multiset(Flatten(bins.chunks));
      assert f in multiset(before);
    }
    PlaceConserves(bins, before, file, limits);
    PlaceKeepsShape(bins, file, limits);
    forall f | f in next.skipped ensures CannotBePlaced(next, f, limits) {
      if f in bins.skipped { PlaceKeepsReasons(bins, file, limits, f); }
    }
  }

  lemma {:induction false} PackIsWellPacked(sorted: seq<ChangedFile>, limits: Limits)
    requires NonIncreasing(sorted)
    ensures WellPacked(Pack(sorted, limits), sorted, limits)
  {
    if sorted != [] {
      var n := |sorted| - 1;
      var before := sorted[..n];
      PackIsWellPacked(before, limits);
      PlaceKeepsWellPacked(Pack(before, limits), before, sorted[n], limits);
      assert before + [sorted[n]] == sorted;
    }
  }

  // ---------- pack_chunks ----------

  /** The packer's final state, with the skipped files themselves rather than their names. */
  function PackFiles(files: seq<ChangedFile>, limits: Limits): Bins {
    Pack(LargestFirst(files), limits)
  }

  function Sizes(chunks: seq<seq<ChangedFile>>): seq<nat> {
    seq(|chunks|, i requires 0 <= i < |chunks| => Total(chunks[i]))
  }

  /** The inner loop of the packer: the first running size that leaves room. */
  method FindTarget(chunksSizes: seq<nat>, size: nat, cap: int, ghost chunks: seq<seq<ChangedFile>>)
    returns (target: Option<nat>)
    requires chunksSizes == Sizes(chunks)
    ensures target == FirstFit(chunks, size, cap)
  {
    target := None;
    for i := 0 to |chunksSizes|
      invariant target == None
      invariant forall k :: 0 <= k < i ==> Total(chunks[k]) + size > cap
    {
      if chunksSizes[i] + size <= cap {
        target := Some(i);
        break;
      }
    }
  }

  lemma GrowSizes(chunks: seq<seq<ChangedFile>>, t: nat, file: ChangedFile)
    requires t < |chunks|
    ensures Sizes(chunks[t := chunks[t] + [file]]) == Sizes(chunks)[t := Sizes(chunks)[t] + FileSize(file)]
  {
    WeighAppend(FileSize, chunks[t], [file]);
    assert Total([file]) == FileSize(file) + Total([file][1..]);
  }

  lemma OpenSizes(chunks: seq<seq<ChangedFile>>, file: ChangedFile)
    ensures Sizes(chunks + [[file]]) == Sizes(chunks) + [FileSize(file)]
  {
    assert Total([file]) == FileSize(file) + Total([file][1..]);
  }

  lemma PackNext(sorted: seq<ChangedFile>, n: nat, limits: Limits)
    requires n < |sorted|
    ensures Pack(sorted[..n + 1], limits) == Place(Pack(sorted[..n], limits), sorted[n], limits)
  {
    assert sorted[..n + 1][..n] == sorted[..n];
  }

  lemma FilenamesAppend(files: seq<ChangedFile>, file: ChangedFile)
    ensures Filenames(files + [file]) == Filenames(files) + [file.filename]
  {
  }

  // ---------- what the result means, on the patch texts ----------

  function PatchText(file: ChangedFile): string {
    if file.patch == None then "" else file.patch.value
  }

  /** The patches of a chunk, one after the other. */
  function PatchTexts(files: seq<ChangedFile>): string {
    if files == [] then "" else PatchText(files[0]) + PatchTexts(files[1..])
  }

  function FilesOf(chunks: seq<Chunk>): seq<ChangedFile> {
    if chunks == [] then [] else chunks[0].files + FilesOf(chunks[1..])
  }

  ghost predicate ByPatchLength(files: seq<ChangedFile>) {
    forall i, j :: 0 <= i < j < |files| ==> |PatchText(files[i])| >= |PatchText(files[j])|
  }

  /** Why a file that was left out had no place in the end. */
  ghost predicate HasNoPlace(file: ChangedFile, chunks: seq<Chunk>, limits: Limits) {
    || |PatchText(file)| > limits.maxChunkChars
    || |FilesOf(chunks)| >= limits.maxFiles
    || (&& |chunks| >= limits.maxChunks
        && forall k :: 0 <= k < |chunks| ==> |PatchTexts(chunks[k].files)| + |PatchText(file)| > limits.maxChunkChars)
  }

  /** The packing of `files`, with the files `left` out: conserved, numbered from 1, within the caps, first fit. */
  ghost predicate IsPacking(files: seq<ChangedFile>, limits: Limits, result: PackingResult, left: seq<ChangedFile>) {
    var chunks := result.chunks;
    && multiset(FilesOf(chunks)) + multiset(left) == multiset(files)
    && |result.skipped| == |left| && (forall k :: 0 <= k < |left| ==> result.skipped[k] == left[k].filename)
    && (chunks == [] || |chunks| <= limits.maxChunks)
    && (FilesOf(chunks) == [] || |FilesOf(chunks)| <= limits.maxFiles)
    && (forall k :: 0 <= k < |chunks| ==>
          && chunks[k].index == k + 1 && chunks[k].total == |chunks|
          && chunks[k].files != [] && ByPatchLength(chunks[k].files)
          && |PatchTexts(chunks[k].files)| <= limits.maxChunkChars)
    && (forall i, k, f :: 0 <= i < k < |chunks| && f in chunks[k].files ==>
          |PatchTexts(chunks[i].files)| + |PatchText(f)| > limits.maxChunkChars)
    && ByPatchLength(left)
    && forall f :: f in left ==> HasNoPlace(f, chunks, limits)
  }

  lemma SizeIsPatchLength(file: ChangedFile)
    ensures FileSize(file) == |PatchText(file)|
  {
  }

  lemma {:induction false} TotalIsPatchLength(files: seq<ChangedFile>)
    ensures Total(files) == |PatchTexts(files)|
  {
    if files != [] {
      SizeIsPatchLength(files[0]);
      TotalIsPatchLength(files[1..]);
    }
  }

  lemma {:induction false} FilesOfNumbered(chunks: seq<seq<ChangedFile>>, total: nat, first: nat)
    ensures var numbered := seq(|chunks|, i requires 0 <= i < |chunks| => Chunk(i + first, total, chunks[i]));
            FilesOf(numbered) == Flatten(chunks)
  {
    if chunks != [] {
      var numbered := seq(|chunks|, i requires 0 <= i < |chunks| => Chunk(i + first, total, chunks[i]));
      var rest := chunks[1..];
      FilesOfNumbered(rest, total, first + 1);
      assert numbered[1..] == seq(|rest|, i requires 0 <= i < |rest| => Chunk(i + (first + 1), total, rest[i]));
    }
  }

  lemma NonIncreasingIsByPatchLength(files: seq<ChangedFile>)
    ensures NonIncreasing(files) <==> ByPatchLength(files)
  {
    forall file ensures FileSize(file) == |PatchText(file)| { SizeIsPatchLength(file); }
  }

  /** Files are appended in the order they are tried, so every chunk and the files left out keep that order. */
  ghost predicate InTriedOrder(bins: Bins, tried: seq<ChangedFile>) {
    && (forall k :: 0 <= k < |bins.chunks| ==> NonIncreasing(bins.chunks[k]))
    && NonIncreasing(bins.skipped)
    && (forall k, f :: 0 <= k < |bins.chunks| && f in bins.chunks[k] ==> f in tried)
    && forall f :: f in bins.skipped ==> f in tried
  }

  lemma {:induction false} PackKeepsOrder(sorted: seq<ChangedFile>, limits: Limits)
    requires NonIncreasing(sorted)
    ensures InTriedOrder(Pack(sorted, limits), sorted)
  {
    if sorted != [] {
      var n := |sorted| - 1;
      var before := sorted[..n];
      PackKeepsOrder(before, limits);
      PlaceKeepsOrder(Pack(before, limits), before, sorted[n], limits);
      assert before + [sorted[n]] == sorted;
    }
  }

  lemma PlaceKeepsOrder(bins: Bins, tried: seq<ChangedFile>, file: ChangedFile, limits: Limits)
    requires InTriedOrder(bins, tried) && forall f :: f in tried ==> FileSize(f) >= FileSize(file)
    ensures InTriedOrder(Place(bins, file, limits), tried + [file])
  {
    hide FileSize, Total;
    AppendKeepsOrder(bins.skipped, file);
    forall k | 0 <= k < |bins.chunks| ensures NonIncreasing(bins.chunks[k] + [file]) {
      AppendKeepsOrder(bins.chunks[k], file);
    }
  }

  lemma AppendKeepsOrder(files: seq<ChangedFile>, file: ChangedFile)
    requires NonIncreasing(files) && forall f :: f in files ==> FileSize(f) >= FileSize(file)
    ensures NonIncreasing(files + [file])
  {
    hide FileSize;
  }

  lemma PackFilesIsPacking(files: seq<ChangedFile>, limits: Limits)
    ensures var bins := PackFiles(files, limits);
            IsPacking(files, limits, PackingResult(Numbered(bins.chunks), Filenames(bins.skipped)), bins.skipped)
  {
    hide FileSize, Total, Pack, LargestFirst, FilesOf, PatchTexts, PatchText, Flatten;
    var sorted, bins := LargestFirst(files), PackFiles(files, limits);
    var chunks := Numbered(bins.chunks);
    LargestFirstSorts(files);
    PackIsWellPacked(sorted, limits);
    PackKeepsOrder(sorted, limits);
    FilesOfNumbered(bins.chunks, |bins.chunks|, 1);
    NonIncreasingIsByPatchLength(bins.skipped);
    forall k | 0 <= k < |chunks|
      ensures Total(bins.chunks[k]) == |PatchTexts(chunks[k].files)| && ByPatchLength(chunks[k].files)
    {
      TotalIsPatchLength(bins.chunks[k]);
      NonIncreasingIsByPatchLength(bins.chunks[k]);
    }
    forall f ensures FileSize(f) == |PatchText(f)| { SizeIsPatchLength(f); }
  }

  method PackChunks(files: seq<ChangedFile>, limits: Limits)
    returns (result: PackingResult, ghost left: seq<ChangedFile>)
    ensures IsPacking(files, limits, result, left)
    ensures left == PackFiles(files, limits).skipped
    ensures result.chunks == Numbered(PackFiles(files, limits).chunks)
    ensures result.skipped == Filenames(PackFiles(files, limits).skipped)
  {
    var sortedFiles := LargestFirst(files);
    var chunksFiles: seq<seq<ChangedFile>> := [];
    var chunksSizes: seq<nat> := [];
    var skipped: seq<string> := [];
    var placedCount := 0;
    ghost var bins := EMPTY_BINS;
    hide IsPacking;

    for n := 0 to |sortedFiles|
      invariant bins == Pack(sortedFiles[..n], limits)
      invariant chunksFiles == bins.chunks && placedCount == bins.placed
      invariant skipped == Filenames(bins.skipped)
      invariant chunksSizes == Sizes(chunksFiles)
    {
      var file := sortedFiles[n];
      var size := FileSize(file);
      PackNext(sortedFiles, n, limits);
      FilenamesAppend(bins.skipped, file);
      bins := Place(bins, file, limits);

      if placedCount >= limits.maxFiles {
        skipped := skipped + [file.filename];
        continue;
      }

      if size > limits.maxChunkChars {
        skipped := skipped + [file.filename];
        continue;
      }

      var target := FindTarget(chunksSizes, size, limits.maxChunkChars, chunksFiles);
      if target == None {
        if |chunksFiles| >= limits.maxChunks {
          skipped := skipped + [file.filename];
          continue;
        }
        OpenSizes(chunksFiles, file);
        chunksFiles := chunksFiles + [[file]];
        chunksSizes := chunksSizes + [size];
      } else {
        var t := target.value;
        GrowSizes(chunksFiles, t, file);
        chunksFiles := chunksFiles[t := chunksFiles[t] + [file]];
        chunksSizes := chunksSizes[t := chunksSizes[t] + size];
      }
      placedCount := placedCount + 1;
    }

    assert sortedFiles[..|sortedFiles|] == sortedFiles;
    result := PackingResult(Numbered(chunksFiles), skipped);
    left := bins.skipped;
    PackFilesIsPacking(files, limits);
  }
}
