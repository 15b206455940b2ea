/**
 Planning a split backup (gui/backup_analysis.go and gui/backup_split_api.go): the folders found are sized and
 sorted, a policy decides whether to split, and the plan gives every folder to exactly one job.
 */
module SplitPlans {
  import opened BinPacking
  import opened FirstFitDecreasing

  const GIB := 1024 * 1024 * 1024
  const DEFAULT_SPLIT_SIZE_GB := 150
  const SPLIT_THRESHOLD: Word := DEFAULT_SPLIT_SIZE_GB * GIB
  const ACCESS_DENIED_ESTIMATE: Word := 500 * GIB

  /** The path and naming functions of the platform. */
  datatype Naming = Naming(cleanKey: string -> string, dir: string -> string, idOf: string -> string,
                           binIdOf: (string, seq<FolderInfo>, nat) -> string)

  /** What sizing one folder brings: a size, or access denied. */
  datatype Found = Found(path: string, name: string, size: Word, denied: bool)

  function InfoOf(f: Found): FolderInfo {
    FolderInfo(f.path, f.name, if f.denied then ACCESS_DENIED_ESTIMATE else f.size, f.denied, "")
  }

  function InfosOf(found: seq<Found>): (infos: seq<FolderInfo>)
    ensures |infos| == |found|
    ensures forall i :: 0 <= i < |found| ==>
              infos[i] == FolderInfo(found[i].path, found[i].name,
                                     if found[i].denied then 500 * 1024 * 1024 * 1024 else found[i].size,
                                     found[i].denied, "")
  {
    if found == [] then [] else InfosOf(found[..|found| - 1]) + [InfoOf(found[|found| - 1])]
  }

  function SumWrapped(folders: seq<FolderInfo>): Word {
    Total(SizeOf, folders) % U64
  }

  /** The sizes found so far, and what they add up to. */
  ghost predicate Taken(found: seq<Found>, infos: seq<FolderInfo>, total: Word) {
    infos == InfosOf(found) && total == SumWrapped(infos)
  }

  lemma TakeOne(found: seq<Found>, infos: seq<FolderInfo>, total: Word, f: Found)
    requires Taken(found, infos, total)
    ensures Taken(found + [f], infos + [InfoOf(f)], Plus(total, InfoOf(f).size))
  {
    TotalSnoc(SizeOf, infos, InfoOf(f));
    assert (found + [f])[..|found|] == found;
  }

  /** Ceiling division in 64 bits. */
  function Jobs(total: Word, binSize: Word): nat
    requires binSize > 0
  {
    Plus(total, binSize - 1) / binSize
  }

  function Suggested(split: bool, total: Word, binSize: Word): nat
    requires split ==> binSize > 0
  {
    if !split then 1 else if Jobs(total, binSize) < 2 then 2 else Jobs(total, binSize)
  }

  class BackupAnalysis {
    var totalSize: Word
    var folders: seq<FolderInfo>
    var shouldSplit: bool
    var suggestedJobs: nat
    var rootsWithFiles: seq<string>
    var incomplete: bool

    /** The second half of AnalyzeBackupDirs: take in the sizes, sort, decide with the default policy. */
    constructor (found: seq<Found>, roots: seq<string>, expired: bool)
      ensures multiset(folders) == multiset(InfosOf(found)) && Descending(folders)
      ensures totalSize == SumWrapped(folders) && rootsWithFiles == roots && incomplete == expired
      ensures shouldSplit <==> !expired && totalSize > 150 * 1024 * 1024 * 1024
      ensures suggestedJobs == Suggested(shouldSplit, totalSize, SPLIT_THRESHOLD)
      ensures !shouldSplit ==> suggestedJobs == 1
    {
      var infos: seq<FolderInfo>, total: Word := [], 0;
      var n := 0;
      while n < |found|
        invariant n <= |found| && Taken(found[..n], infos, total)
      {
        TakeOne(found[..n], infos, total, found[n]);
        assert found[..n + 1] == found[..n] + [found[n]];
        infos := infos + [InfoOf(found[n])];
        total := Plus(total, InfoOf(found[n]).size);
        n := n + 1;
      }
      assert found[..n] == found;
      var sorted := SortLargestFirst(infos);
      TotalPermuted(SizeOf, infos, sorted);
      folders, totalSize, rootsWithFiles, incomplete := sorted, total, roots, expired;
      shouldSplit := !expired && total > SPLIT_THRESHOLD;
      suggestedJobs := Suggested(!expired && total > SPLIT_THRESHOLD, total, SPLIT_THRESHOLD);
    }

    /** Decide again with the configured policy. A bin size of zero makes the division panic. */
    method ApplyConfiguredSplit(binSize: Word, disabled: bool) returns (panicked: bool)
      modifies this`shouldSplit, this`suggestedJobs
      ensures shouldSplit <==> !disabled && !incomplete && totalSize > binSize
      ensures panicked <==> shouldSplit && binSize == 0
      ensures !panicked ==> suggestedJobs == Suggested(shouldSplit, totalSize, binSize)
      ensures !shouldSplit ==> suggestedJobs == 1
    {
      shouldSplit := !disabled && !incomplete && totalSize > binSize;
      if shouldSplit {
        if binSize == 0 {
          return true;
        }
        suggestedJobs := Jobs(totalSize, binSize);
        if suggestedJobs < 2 {
          suggestedJobs := 2;
        }
      } else {
        suggestedJobs := 1;
      }
      return false;
    }
  }

  lemma Inserted(sorted: seq<FolderInfo>, folder: FolderInfo, at: nat)
    requires at <= |sorted| && Descending(sorted)
    requires forall i :: 0 <= i < at ==> sorted[i].size >= folder.size
    requires at < |sorted| ==> sorted[at].size <= folder.size
    ensures Descending(sorted[..at] + [folder] + sorted[at..])
    ensures multiset(sorted[..at] + [folder] + sorted[at..]) == multiset(sorted) + multiset{folder}
  {
    assert sorted == sorted[..at] + sorted[at..];
  }

  /** Largest first; folders of the same size come in any order. */
  method SortLargestFirst(folders: seq<FolderInfo>) returns (sorted: seq<FolderInfo>)
    ensures multiset(sorted) == multiset(folders) && Descending(sorted)
  {
    sorted := [];
    var n := 0;
    while n < |folders|
      invariant n <= |folders| && multiset(sorted) == multiset(folders[..n]) && Descending(sorted)
    {
      var at := FindPlace(sorted, folders[n]);
      Inserted(sorted, folders[n], at);
      assert folders[..n + 1] == folders[..n] + [folders[n]];
      sorted := sorted[..at] + [folders[n]] + sorted[at..];
      n := n + 1;
    }
    assert folders[..n] == folders;
  }

  method FindPlace(sorted: seq<FolderInfo>, folder: FolderInfo) returns (at: nat)
    ensures at <= |sorted| && (forall i :: 0 <= i < at ==> sorted[i].size >= folder.size)
    ensures at < |sorted| ==> sorted[at].size <= folder.size
  {
    at := 0;
    var passEquals: bool := *;
    while at < |sorted| && (sorted[at].size > folder.size || (passEquals && sorted[at].size == folder.size))
      invariant at <= |sorted| && forall i :: 0 <= i < at ==> sorted[i].size >= folder.size
    {
      at := at + 1;
      passEquals := *;
    }
  }

  const WRAP_GB := 0x4_0000_0000

  /** The configured bin size, from a 64-bit number of GiB. */
  function SplitSizeBytes(gb: int): (size: Word)
    requires -HALF_U64 <= gb < HALF_U64
    ensures gb <= 0 ==> size == 150 * 1024 * 1024 * 1024
  {
    (if gb <= 0 then DEFAULT_SPLIT_SIZE_GB else gb) * GIB % U64
  }

  lemma WrapsAway(q: nat, y: nat)
    requires y < U64
    ensures (q * U64 + y) % U64 == y
  {
  }

  /** 2^34 GiB are 2^64 bytes. */
  lemma SplitSizeWraps(gb: int)
    requires 0 < gb < HALF_U64
    ensures SplitSizeBytes(gb) == gb % WRAP_GB * GIB
  {
    WrapsAway(gb / WRAP_GB, gb % WRAP_GB * GIB);
    assert gb == gb / WRAP_GB * WRAP_GB + gb % WRAP_GB;
  }

  /**
   A configured size makes packing safe exactly if it is below 2^33 GiB modulo 2^34, and is zero exactly at its
   multiples.
   */
  lemma SplitSizeLimits(gb: int)
    requires 0 < gb < HALF_U64
    ensures NeverOverfills(SplitSizeBytes(gb)) <==> gb % WRAP_GB < WRAP_GB / 2
    ensures SplitSizeBytes(gb) == 0 <==> gb % WRAP_GB == 0
    ensures gb < WRAP_GB ==> SplitSizeBytes(gb) == gb * GIB
  {
    SplitSizeWraps(gb);
    FitTestSound(SplitSizeBytes(gb));
  }
}
