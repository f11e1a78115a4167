// What the packer of pipeline/chunking.py guarantees about its result: it is maximal, its chunks
// are well filled, and it opens at most half again as many chunks as any other packing.
module ChunkingBounds {
  import opened Common
  import opened Chunking

  // ---------- weights over lists and groups ----------

  /** Taking one occurrence of a file out of a list. */
  lemma Without(w: ChangedFile -> nat, files: seq<ChangedFile>, file: ChangedFile) returns (rest: seq<ChangedFile>)
    requires file in multiset(files)
    ensures multiset(rest) == multiset(files) - multiset{file}
    ensures Weigh(w, files) == w(file) + Weigh(w, rest)
  {
    var p :| 0 <= p < |files| && files[p] == file;
    var before, after := files[..p], files[p + 1..];
    rest := before + after;
    assert files == before + ([file] + after);
    WeighAppend(w, before, after);
    WeighAppend(w, before, [file] + after);
    assert ([file] + after)[1..] == after;
  }

  lemma {:induction false} WeighMonotone(w: ChangedFile -> nat, a: seq<ChangedFile>, b: seq<ChangedFile>)
    requires multiset(a) <= multiset(b)
    ensures Weigh(w, a) <= Weigh(w, b)
  {
    if a != [] {
      assert a == [a[0]] + a[1..];
      assert multiset(a) == multiset{a[0]} + multiset(a[1..]);
      var rest := Without(w, b, a[0]);
      WeighMonotone(w, a[1..], rest);
    }
  }

  lemma WeighSplit(w: ChangedFile -> nat, groups: seq<seq<ChangedFile>>, j: nat)
    requires j <= |groups|
    ensures Flatten(groups) == Flatten(groups[..j]) + Flatten(groups[j..])
    ensures Weigh(w, Flatten(groups)) == Weigh(w, Flatten(groups[..j])) + Weigh(w, Flatten(groups[j..]))
  {
    assert groups == groups[..j] + groups[j..];
    FlattenAppend(groups[..j], groups[j..]);
    WeighAppend(w, Flatten(groups[..j]), Flatten(groups[j..]));
  }

  lemma OneMore(n: nat, c: nat)
    ensures (n + 1) * c == n * c + c
  {
  }

  lemma OneMoreEach(n: nat, c: nat)
    ensures n * (c + 1) == n * c + n
  {
  }

  lemma {:induction false} WeighAtMost(w: ChangedFile -> nat, groups: seq<seq<ChangedFile>>, c: nat)
    requires forall i :: 0 <= i < |groups| ==> Weigh(w, groups[i]) <= c
    ensures Weigh(w, Flatten(groups)) <= |groups| * c
  {
    if groups != [] {
      WeighAtMost(w, groups[1..], c);
      OneMore(|groups| - 1, c);
      WeighAppend(w, groups[0], Flatten(groups[1..]));
    }
  }

  lemma {:induction false} WeighAtLeast(w: ChangedFile -> nat, groups: seq<seq<ChangedFile>>)
    requires forall i :: 0 <= i < |groups| ==> Weigh(w, groups[i]) >= 1
    ensures Weigh(w, Flatten(groups)) >= |groups|
  {
    if groups != [] {
      WeighAtLeast(w, groups[1..]);
      WeighAppend(w, groups[0], Flatten(groups[1..]));
    }
  }

  lemma {:induction false} EachAtMostTotal(files: seq<ChangedFile>, file: ChangedFile)
    requires file in files
    ensures FileSize(file) <= Total(files)
  {
    if file != files[0] { EachAtMostTotal(files[1..], file); }
  }

  /** A file of more than half the limit; two of them never share a chunk. */
  function Big(cap: int): ChangedFile -> nat {
    (f: ChangedFile) => if 2 * FileSize(f) > cap then 1 else 0
  }

  /** Two big files already exceed the limit. */
  lemma {:induction false} OneBigFilePerGroup(cap: nat, group: seq<ChangedFile>)
    ensures Weigh(Big(cap), group) >= 1 ==> 2 * Total(group) > cap
    ensures Weigh(Big(cap), group) >= 2 ==> Total(group) > cap
  {
    if group != [] { OneBigFilePerGroup(cap, group[1..]); }
  }

  // ---------- the 3/2 bound ----------

  /** A way to put at least the given files into groups that respect the limit. */
  ghost predicate Packs(groups: seq<seq<ChangedFile>>, files: seq<ChangedFile>, cap: int) {
    && multiset(files) <= multiset(Flatten(groups))
    && forall i :: 0 <= i < |groups| ==> Total(groups[i]) <= cap
  }

  ghost predicate FirstFitShape(chunks: seq<seq<ChangedFile>>, cap: int) {
    && (forall i :: 0 <= i < |chunks| ==> chunks[i] != [] && Total(chunks[i]) <= cap)
    && NoEarlierFit(chunks, cap)
    && OpenedLargestFirst(chunks)
  }

  lemma BigFilesNeedGroups(files: seq<ChangedFile>, groups: seq<seq<ChangedFile>>, cap: nat)
    requires Packs(groups, files, cap)
    ensures Weigh(Big(cap), files) <= |groups|
  {
    var w := Big(cap);
    WeighMonotone(w, files, Flatten(groups));
    forall i | 0 <= i < |groups| ensures Weigh(w, groups[i]) <= 1 { OneBigFilePerGroup(cap, groups[i]); }
    WeighAtMost(w, groups, 1);
  }

  lemma FilesNeedRoom(files: seq<ChangedFile>, groups: seq<seq<ChangedFile>>, cap: nat)
    requires Packs(groups, files, cap)
    ensures Total(files) <= |groups| * cap
  {
    WeighMonotone(FileSize, files, Flatten(groups));
    WeighAtMost(FileSize, groups, cap);
  }

  /** If chunk `j - 1` opened with a big file, so did all before it: `j` big files, `j` groups. */
  lemma ManyBigFiles(chunks: seq<seq<ChangedFile>>, groups: seq<seq<ChangedFile>>, cap: nat, j: nat)
    requires FirstFitShape(chunks, cap) && Packs(groups, Flatten(chunks), cap)
    requires 1 <= j <= |chunks| && 2 * FileSize(chunks[j - 1][0]) > cap
    ensures |groups| >= j
  {
    var w := Big(cap);
    var heads, first := chunks[..j], chunks[j - 1][0];
    assert first in chunks[j - 1];
    forall i | 0 <= i < |heads| ensures Weigh(w, heads[i]) >= 1 {
      assert FileSize(chunks[i][0]) >= FileSize(first);
      assert w(heads[i][0]) == 1;
    }
    WeighAtLeast(w, heads);
    WeighSplit(w, chunks, j);
    BigFilesNeedGroups(Flatten(chunks), groups, cap);
  }

  lemma {:induction false} TailHoldsManyFiles(tail: seq<seq<ChangedFile>>)
    requires tail != [] && tail[|tail| - 1] != []
    requires forall i :: 0 <= i < |tail| - 1 ==> |tail[i]| >= 2
    ensures |Flatten(tail)| >= 2 * |tail| - 1
  {
    if |tail| > 1 { TailHoldsManyFiles(tail[1..]); }
  }

  /** Pair each full chunk with one file that did not fit it. */
  lemma {:induction false} PairedTotals(heads: seq<seq<ChangedFile>>, others: seq<ChangedFile>, cap: nat)
    requires |others| >= |heads|
    requires forall i, f :: 0 <= i < |heads| && f in others ==> Total(heads[i]) + FileSize(f) >= cap
    ensures Total(Flatten(heads)) + Total(others) >= |heads| * cap
  {
    if heads != [] {
      assert others[0] in others;
      PairedTotals(heads[1..], others[1..], cap);
      OneMore(|heads| - 1, cap);
      WeighAppend(FileSize, heads[0], Flatten(heads[1..]));
    }
  }

  lemma FilesComeFromChunks(chunks: seq<seq<ChangedFile>>, file: ChangedFile) returns (j: nat)
    requires file in Flatten(chunks)
    ensures j < |chunks| && file in chunks[j]
  {
    if file in chunks[0] {
      j := 0;
    } else {
      var i := FilesComeFromChunks(chunks[1..], file);
      j := i + 1;
    }
  }

  lemma SomethingToPack(chunks: seq<seq<ChangedFile>>, groups: seq<seq<ChangedFile>>, cap: int)
    requires chunks != [] && chunks[0] != [] && Packs(groups, Flatten(chunks), cap)
    ensures groups != []
  {
    assert chunks[0][0] in multiset(Flatten(chunks));
    assert chunks[0][0] in multiset(Flatten(groups));
  }

  /** A total above `n` full chunks needs more than `n` groups. */
  lemma FewerGroupsHoldLess(m: nat, n: nat, cap: nat, total: nat)
    requires n * (cap + 1) <= total <= m * cap && n > 0
    ensures m > n
  {
    OneMoreEach(n, cap);
    assert m <= n ==> m * cap <= n * cap;
  }

  lemma TailChunkHoldsTwo(chunks: seq<seq<ChangedFile>>, cap: nat, j: nat, i: nat)
    requires FirstFitShape(chunks, cap) && j <= i < |chunks| - 1
    requires 2 * FileSize(chunks[j][0]) <= cap
    ensures |chunks[i]| >= 2
  {
    var last := chunks[|chunks| - 1];
    assert last[0] in last;
    assert Total(chunks[i]) + FileSize(last[0]) > cap;
    assert chunks[i][0] in chunks[i];
    assert FileSize(last[0]) <= FileSize(chunks[j][0]);
    assert FileSize(chunks[i][0]) <= FileSize(chunks[j][0]);
    if |chunks[i]| == 1 { assert Total(chunks[i]) == FileSize(chunks[i][0]) + Total(chunks[i][1..]); }
  }

  lemma TailIsLong(chunks: seq<seq<ChangedFile>>, cap: nat, j: nat)
    requires FirstFitShape(chunks, cap) && 1 <= j <= |chunks| && 2 * FileSize(chunks[j - 1][0]) <= cap
    ensures |Flatten(chunks[j - 1..])| >= 2 * (|chunks| - j) + 1
  {
    var tail := chunks[j - 1..];
    forall i | 0 <= i < |tail| - 1 ensures |tail[i]| >= 2 {
      TailChunkHoldsTwo(chunks, cap, j - 1, j - 1 + i);
    }
    TailHoldsManyFiles(tail);
  }

  lemma TailOverflowsHeads(chunks: seq<seq<ChangedFile>>, cap: nat, j: nat)
    requires FirstFitShape(chunks, cap) && 1 <= j <= |chunks|
    ensures forall i, f :: 0 <= i < j - 1 && f in Flatten(chunks[j - 1..]) ==> Total(chunks[i]) + FileSize(f) > cap
  {
    forall i, f | 0 <= i < j - 1 && f in Flatten(chunks[j - 1..]) ensures Total(chunks[i]) + FileSize(f) > cap {
      var at := FilesComeFromChunks(chunks[j - 1..], f);
      assert f in chunks[j - 1 + at];
    }
  }

  /** Otherwise the chunks from `j - 1` on hold enough small files to overfill all chunks before. */
  lemma ManySmallFiles(chunks: seq<seq<ChangedFile>>, groups: seq<seq<ChangedFile>>, cap: nat, j: nat)
    requires FirstFitShape(chunks, cap) && Packs(groups, Flatten(chunks), cap)
    requires 1 <= j <= |chunks| && 3 * j <= 2 * |chunks| + 2
    requires 2 * FileSize(chunks[j - 1][0]) <= cap
    ensures |groups| >= j
  {
    SomethingToPack(chunks, groups, cap);
    if j > 1 {
      TailIsLong(chunks, cap, j);
      TailOverflowsHeads(chunks, cap, j);
      PairedTotals(chunks[..j - 1], Flatten(chunks[j - 1..]), cap + 1);
      WeighSplit(FileSize, chunks, j - 1);
      FilesNeedRoom(Flatten(chunks), groups, cap);
      FewerGroupsHoldLess(|groups|, j - 1, cap, Total(Flatten(chunks)));
    }
  }

  lemma FirstFitUsesAtMostThreeHalves(chunks: seq<seq<ChangedFile>>, groups: seq<seq<ChangedFile>>, cap: int)
    requires FirstFitShape(chunks, cap) && Packs(groups, Flatten(chunks), cap)
    ensures 2 * |chunks| <= 3 * |groups|
  {
    if chunks != [] {
      var j := (2 * |chunks| + 2) / 3;
      if 2 * FileSize(chunks[j - 1][0]) > cap {
        ManyBigFiles(chunks, groups, cap, j);
      } else {
        ManySmallFiles(chunks, groups, cap, j);
      }
    }
  }

  // ---------- the theorems about pack_chunks ----------

  /** Nothing is lost or duplicated, every chunk is usable, and every skip has a reason that holds at the end. */
  lemma PackingIsMaximal(files: seq<ChangedFile>, limits: Limits)
    ensures WellPacked(PackFiles(files, limits), files, limits)
    ensures forall f :: f in PackFiles(files, limits).skipped ==>
              CannotBePlaced(PackFiles(files, limits), f, limits)
  {
    LargestFirstSorts(files);
    PackIsWellPacked(LargestFirst(files), limits);
  }

  /**
   * The 3/2 bound, with or without skipped files: `groups` is any way of packing what was placed
   * (and possibly more) under the same character limit.
   */
  lemma AtMostThreeHalvesOfAnyPacking(files: seq<ChangedFile>, limits: Limits, groups: seq<seq<ChangedFile>>)
    requires Packs(groups, Flatten(PackFiles(files, limits).chunks), limits.maxChunkChars)
    ensures 2 * |PackFiles(files, limits).chunks| <= 3 * |groups|
  {
    PackingIsMaximal(files, limits);
    FirstFitUsesAtMostThreeHalves(PackFiles(files, limits).chunks, groups, limits.maxChunkChars);
  }

  lemma EachPackedFileFits(files: seq<ChangedFile>, groups: seq<seq<ChangedFile>>, cap: int, p: nat)
    requires Packs(groups, files, cap) && p < |files|
    ensures FileSize(files[p]) <= cap
  {
    assert files[p] in multiset(files);
    assert files[p] in multiset(Flatten(groups));
    var at := FilesComeFromChunks(groups, files[p]);
    EachAtMostTotal(groups[at], files[p]);
  }

  lemma PackingOneMore(files: seq<ChangedFile>, groups: seq<seq<ChangedFile>>, cap: int, n: nat)
    requires Packs(groups, files, cap) && n < |files|
    ensures Packs(groups, files[..n] + [files[n]], cap)
  {
    assert files == files[..n] + [files[n]] + files[n + 1..];
  }

  lemma PlacedPlusSkipped(bins: Bins, files: seq<ChangedFile>)
    requires Conserves(bins, files)
    ensures bins.placed + |bins.skipped| == |files|
  {
    assert |multiset(Flatten(bins.chunks)) + multiset(bins.skipped)| == |multiset(files)|;
  }

  lemma {:induction false} PrefixSkipsNothing(sorted: seq<ChangedFile>, limits: Limits,
                                               groups: seq<seq<ChangedFile>>, n: nat)
    requires NonIncreasing(sorted) && n <= |sorted| <= limits.maxFiles
    requires Packs(groups, sorted, limits.maxChunkChars) && 3 * |groups| <= 2 * limits.maxChunks
    ensures Pack(sorted[..n], limits).skipped == []
  {
    if n > 0 {
      PrefixSkipsNothing(sorted, limits, groups, n - 1);
      PackNext(sorted, n - 1, limits);
      NextSkipsNothing(sorted, limits, groups, n - 1, Pack(sorted[..n - 1], limits));
    }
  }

  lemma NextSkipsNothing(sorted: seq<ChangedFile>, limits: Limits, groups: seq<seq<ChangedFile>>, n: nat, bins: Bins)
    requires NonIncreasing(sorted) && n < |sorted| <= limits.maxFiles
    requires Packs(groups, sorted, limits.maxChunkChars) && 3 * |groups| <= 2 * limits.maxChunks
    requires bins == Pack(sorted[..n], limits) && bins.skipped == []
    ensures Place(bins, sorted[n], limits).skipped == []
  {
    PackedPrefix(sorted, limits, n);
    EachPackedFileFits(sorted, groups, limits.maxChunkChars, n);
    PackingOneMore(sorted, groups, limits.maxChunkChars, n);
    PlaceSkipsNothing(bins, sorted[..n], sorted[n], limits, groups);
  }

  lemma PackedPrefix(sorted: seq<ChangedFile>, limits: Limits, n: nat)
    requires NonIncreasing(sorted) && n < |sorted|
    ensures WellPacked(Pack(sorted[..n], limits), sorted[..n], limits)
    ensures Pack(sorted[..n], limits).placed <= n
    ensures forall f :: f in sorted[..n] ==> FileSize(sorted[n]) <= FileSize(f)
  {
    PackIsWellPacked(sorted[..n], limits);
    PlacedPlusSkipped(Pack(sorted[..n], limits), sorted[..n]);
  }

  lemma PlaceSkipsNothing(bins: Bins, before: seq<ChangedFile>, file: ChangedFile, limits: Limits,
                          groups: seq<seq<ChangedFile>>)
    requires WellPacked(bins, before, limits) && bins.skipped == [] && bins.placed < limits.maxFiles
    requires forall f :: f in before ==> FileSize(file) <= FileSize(f)
    requires FileSize(file) <= limits.maxChunkChars
    requires Packs(groups, before + [file], limits.maxChunkChars) && 3 * |groups| <= 2 * limits.maxChunks
    ensures Place(bins, file, limits).skipped == []
  {
    if FirstFit(bins.chunks, FileSize(file), limits.maxChunkChars) == None {
      OneMoreChunkWouldBeTooMany(bins, before, file, limits, groups);
    }
  }

  lemma OneMoreChunkWouldBeTooMany(bins: Bins, before: seq<ChangedFile>, file: ChangedFile, limits: Limits,
                                   groups: seq<seq<ChangedFile>>)
    requires WellPacked(bins, before, limits) && bins.skipped == []
    requires forall f :: f in before ==> FileSize(file) <= FileSize(f)
    requires FileSize(file) <= limits.maxChunkChars
    requires FirstFit(bins.chunks, FileSize(file), limits.maxChunkChars) == None
    requires Packs(groups, before + [file], limits.maxChunkChars) && 3 * |groups| <= 2 * limits.maxChunks
    ensures |bins.chunks| < limits.maxChunks
  {
    var wider, cap := bins.chunks + [[file]], limits.maxChunkChars;
    forall i, f | 0 <= i < |bins.chunks| && f in bins.chunks[i] ensures FileSize(file) <= FileSize(f) {
      InFlatten(bins.chunks, i, f);
      assert f in multiset(Flatten(bins.chunks));
      assert f in multiset(before);
    }
    OpenKeepsShape(bins.chunks, file, cap);
    assert Total([file]) == FileSize(file) + Total([file][1..]);
    FlattenAppend(bins.chunks, [[file]]);
    assert Flatten([[file]]) == [file] + [];
    FirstFitUsesAtMostThreeHalves(wider, groups, cap);
  }

  /** A pull request that some packing fits into two thirds of the allowed chunks is reviewed whole. */
  lemma NothingIsSkippedWhenTwoThirdsSuffice(files: seq<ChangedFile>, limits: Limits,
                                             groups: seq<seq<ChangedFile>>)
    requires |files| <= limits.maxFiles
    requires Packs(groups, files, limits.maxChunkChars) && 3 * |groups| <= 2 * limits.maxChunks
    ensures PackFiles(files, limits).skipped == []
  {
    var sorted := LargestFirst(files);
    LargestFirstSorts(files);
    assert |sorted| == |multiset(sorted)| == |multiset(files)|;
    PrefixSkipsNothing(sorted, limits, groups, |sorted|);
    assert sorted[..|sorted|] == sorted;
  }

  lemma TwoChunksOverflow(files: seq<ChangedFile>, limits: Limits, i: nat, j: nat)
    requires i < |PackFiles(files, limits).chunks| && j < |PackFiles(files, limits).chunks| && i != j
    ensures var chunks := PackFiles(files, limits).chunks;
            Total(chunks[i]) + Total(chunks[j]) > limits.maxChunkChars
  {
    PackingIsMaximal(files, limits);
    var chunks := PackFiles(files, limits).chunks;
    var later := if i < j then j else i;
    assert chunks[later][0] in chunks[later];
    EachAtMostTotal(chunks[later], chunks[later][0]);
  }

  /** Neighbours that overflow together make the whole list more than half full. */
  lemma {:induction false} NeighboursFill(chunks: seq<seq<ChangedFile>>, cap: nat)
    requires chunks != []
    requires forall i :: 0 <= i < |chunks| - 1 ==> Total(chunks[i]) + Total(chunks[i + 1]) >= cap
    ensures 2 * Total(Flatten(chunks)) >= (|chunks| - 1) * cap + Total(chunks[0]) + Total(chunks[|chunks| - 1])
  {
    WeighAppend(FileSize, chunks[0], Flatten(chunks[1..]));
    if |chunks| > 1 {
      NeighboursFill(chunks[1..], cap);
      assert Total(chunks[0]) + Total(chunks[1]) >= cap;
      OneMore(|chunks| - 2, cap);
    } else {
      assert Flatten(chunks[1..]) == [];
    }
  }

  /** With two chunks or more, the chunks are on average more than half full. */
  lemma ChunksAreMoreThanHalfFull(files: seq<ChangedFile>, limits: Limits)
    requires |PackFiles(files, limits).chunks| >= 2
    ensures var chunks := PackFiles(files, limits).chunks;
            |chunks| * limits.maxChunkChars < 2 * Total(Flatten(chunks))
  {
    PackingIsMaximal(files, limits);
    var chunks, cap := PackFiles(files, limits).chunks, limits.maxChunkChars;
    forall i | 0 <= i < |chunks| - 1 ensures Total(chunks[i]) + Total(chunks[i + 1]) > cap {
      TwoChunksOverflow(files, limits, i, i + 1);
    }
    TwoChunksOverflow(files, limits, 0, |chunks| - 1);
    NeighboursFill(chunks, cap + 1);
    OneMore(|chunks| - 1, cap + 1);
    OneMoreEach(|chunks|, cap);
  }

  // ---------- the bound cannot be improved ----------

  lemma TotalOfThree(a: ChangedFile, b: ChangedFile, c: ChangedFile)
    ensures Total([a]) == FileSize(a)
    ensures Total([a, b]) == FileSize(a) + FileSize(b)
    ensures Total([a, b, c]) == FileSize(a) + FileSize(b) + FileSize(c)
  {
    assert Total([c]) == FileSize(c) + Total([c][1..]);
    assert Total([a]) == FileSize(a) + Total([a][1..]);
    assert Total([b]) == FileSize(b) + Total([b][1..]);
    WeighAppend(FileSize, [a], [b]);
    WeighAppend(FileSize, [a, b], [c]);
    assert [a] + [b] == [a, b] && [a, b] + [c] == [a, b, c];
  }

  /**
   * Sizes of two large and four small files that fill two chunks as `large, small, small` each, while first fit puts
   * both large files together and then finds room for only three of the small ones.
   */
  predicate TightSizes(large: nat, small: nat, cap: int) {
    && large + 2 * small <= cap < 2 * large + small
    && 2 * large <= cap < 4 * small
  }

  ghost predicate TightCase(large: ChangedFile, small: ChangedFile, limits: Limits) {
    && TightSizes(FileSize(large), FileSize(small), limits.maxChunkChars)
    && limits.maxFiles >= 6 && limits.maxChunks >= 2
  }

  /** Such sizes exist for the caps 7, 10, 11, 13 and all above, and for no other. */
  lemma TightSizesExistIff(cap: nat)
    ensures (exists large: nat, small: nat :: TightSizes(large, small, cap)) <==> cap in {7, 10, 11} || cap >= 13
  {
    var small := cap / 4 + 1;
    if cap in {7, 10, 11} || cap >= 13 {
      assert TightSizes(cap - 2 * small, small, cap);
    }
  }

  function SixFiles(large: ChangedFile, small: ChangedFile): seq<ChangedFile> {
    [large, large, small, small, small, small]
  }

  /**
   * Two chunks would do, yet the packer wants a third one: with `maxChunks == 2` it skips a file
   * that another packing would have reviewed. So neither the 3/2 nor the two thirds can be improved.
   */
  lemma TwoChunksWouldDoButAFileIsSkipped(large: ChangedFile, small: ChangedFile, limits: Limits)
    requires TightCase(large, small, limits)
    ensures var files := SixFiles(large, small);
            var groups := [[large, small, small], [large, small, small]];
            && Packs(groups, files, limits.maxChunkChars)
            && PackFiles(files, limits).skipped == (if limits.maxChunks == 2 then [small] else [])
            && |PackFiles(files, limits).chunks| == (if limits.maxChunks == 2 then 2 else 3)
  {
    TwoGroupsHoldSixFiles(large, small, limits.maxChunkChars);
    SixFilesAreSorted(large, small, limits);
    hide SixFiles, Pack, Packs, PackFiles, FileSize;
    Trace(large, small, limits);
  }

  lemma SixFilesAreSorted(large: ChangedFile, small: ChangedFile, limits: Limits)
    requires FileSize(small) <= FileSize(large)
    ensures PackFiles(SixFiles(large, small), limits) == Pack(SixFiles(large, small), limits)
  {
    hide FileSize, Pack;
    SortedAlready(SixFiles(large, small));
  }

  lemma FlattenTwice(group: seq<ChangedFile>)
    ensures Flatten([group, group]) == group + group
  {
    assert [group, group][1..] == [group] && [group][1..] == [];
    assert Flatten([group]) == group + Flatten([group][1..]);
    assert Flatten([group, group]) == group + Flatten([group, group][1..]);
  }

  lemma SameSixFiles(large: ChangedFile, small: ChangedFile)
    requires large != small
    ensures multiset([large, small, small] + [large, small, small]) == multiset(SixFiles(large, small))
  {
  }

  lemma TwoGroupsHoldSixFiles(large: ChangedFile, small: ChangedFile, cap: int)
    requires large != small && FileSize(large) + 2 * FileSize(small) <= cap
    ensures var groups := [[large, small, small], [large, small, small]];
            Packs(groups, SixFiles(large, small), cap)
  {
    hide Flatten, Total, FileSize, SixFiles;
    TotalOfThree(large, small, small);
    FlattenTwice([large, small, small]);
    SameSixFiles(large, small);
  }

  lemma {:induction false} SortedAlready(files: seq<ChangedFile>)
    requires NonIncreasing(files)
    ensures LargestFirst(files) == files
  {
    if files != [] {
      SortedAlready(files[1..]);
      assert files == [files[0]] + files[1..];
    }
  }

  /** Appending where the first chunk with room is `t`. */
  lemma PlaceAt(bins: Bins, file: ChangedFile, limits: Limits, t: nat, chunk: seq<ChangedFile>)
    requires t < |bins.chunks| && bins.placed < limits.maxFiles && FileSize(file) <= limits.maxChunkChars
    requires forall i :: 0 <= i < t ==> Total(bins.chunks[i]) + FileSize(file) > limits.maxChunkChars
    requires Total(bins.chunks[t]) + FileSize(file) <= limits.maxChunkChars
    requires chunk == bins.chunks[t] + [file]
    ensures Place(bins, file, limits) == Bins(bins.chunks[t := chunk], bins.skipped, bins.placed + 1)
  {
  }

  /** Where no open chunk has room, a new one is opened if the cap allows it. */
  lemma PlaceNew(bins: Bins, file: ChangedFile, limits: Limits)
    requires bins.placed < limits.maxFiles && FileSize(file) <= limits.maxChunkChars
    requires forall i :: 0 <= i < |bins.chunks| ==> Total(bins.chunks[i]) + FileSize(file) > limits.maxChunkChars
    ensures Place(bins, file, limits) ==
            if |bins.chunks| < limits.maxChunks then Bins(bins.chunks + [[file]], bins.skipped, bins.placed + 1)
            else Bins(bins.chunks, bins.skipped + [file], bins.placed)
  {
  }

  lemma FirstThree(large: ChangedFile, small: ChangedFile, limits: Limits)
    requires TightCase(large, small, limits)
    ensures Pack(SixFiles(large, small)[..3], limits) == Bins([[large, large], [small]], [], 3)
  {
    var files := SixFiles(large, small);
    TotalOfThree(large, large, small);
    assert files[..0] == [];
    PackNext(files, 0, limits);
    PlaceNew(EMPTY_BINS, large, limits);
    PackNext(files, 1, limits);
    PlaceAt(Bins([[large]], [], 1), large, limits, 0, [large, large]);
    PackNext(files, 2, limits);
    PlaceNew(Bins([[large, large]], [], 2), small, limits);
  }

  lemma FourthFile(large: ChangedFile, small: ChangedFile, limits: Limits)
    requires TightCase(large, small, limits)
    ensures Pack(SixFiles(large, small)[..4], limits) == Bins([[large, large], [small, small]], [], 4)
  {
    FirstThree(large, small, limits);
    TotalOfThree(large, large, small);
    TotalOfThree(small, small, small);
    PackNext(SixFiles(large, small), 3, limits);
    PlaceAt(Bins([[large, large], [small]], [], 3), small, limits, 1, [small, small]);
  }

  lemma FifthFile(large: ChangedFile, small: ChangedFile, limits: Limits)
    requires TightCase(large, small, limits)
    ensures Pack(SixFiles(large, small)[..5], limits) == Bins([[large, large], [small, small, small]], [], 5)
  {
    FourthFile(large, small, limits);
    TotalOfThree(large, large, small);
    TotalOfThree(small, small, small);
    PackNext(SixFiles(large, small), 4, limits);
    PlaceAt(Bins([[large, large], [small, small]], [], 4), small, limits, 1, [small, small, small]);
  }

  lemma Trace(large: ChangedFile, small: ChangedFile, limits: Limits)
    requires TightCase(large, small, limits)
    ensures Pack(SixFiles(large, small), limits) ==
            if limits.maxChunks == 2 then Bins([[large, large], [small, small, small]], [small], 5)
            else Bins([[large, large], [small, small, small], [small]], [], 6)
  {
    var files := SixFiles(large, small);
    FifthFile(large, small, limits);
    TotalOfThree(large, large, small);
    TotalOfThree(small, small, small);
    PackNext(files, 5, limits);
    PlaceNew(Bins([[large, large], [small, small, small]], [], 5), small, limits);
    assert files[..6] == files;
  }
}
