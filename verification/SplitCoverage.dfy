/**
 What the plan of a split promises: everything is backed up exactly once, in jobs of the right size, and in few of them.
 */
module SplitCoverage {
  import opened Lists
  import opened BinPacking
  import opened FirstFitDecreasing
  import opened SplitPlans
  import opened SplitJobs

  function FoldersOf(jobs: seq<SplitJob>): seq<string> {
    if jobs == [] then [] else jobs[0].folders + FoldersOf(jobs[1..])
  }

  function SizesOf(jobs: seq<SplitJob>): nat {
    if jobs == [] then 0 else jobs[0].totalSize + SizesOf(jobs[1..])
  }

  lemma {:induction false} JobsAppend(a: seq<SplitJob>, b: seq<SplitJob>)
    ensures FoldersOf(a + b) == FoldersOf(a) + FoldersOf(b)
    ensures SizesOf(a + b) == SizesOf(a) + SizesOf(b)
  {
    if a == [] {
      assert a + b == b;
    } else {
      assert (a + b)[1..] == a[1..] + b;
      JobsAppend(a[1..], b);
    }
  }

  /** Two lists of jobs that differ in nothing but their numbers. */
  ghost predicate SameWork(a: seq<SplitJob>, b: seq<SplitJob>) {
    |a| == |b| && forall i :: 0 <= i < |a| ==> a[i].folders == b[i].folders && a[i].totalSize == b[i].totalSize
  }

  lemma {:induction false} SameWorkSameSums(a: seq<SplitJob>, b: seq<SplitJob>)
    requires SameWork(a, b)
    ensures FoldersOf(a) == FoldersOf(b) && SizesOf(a) == SizesOf(b)
  {
    if a != [] {
      SameWorkSameSums(a[1..], b[1..]);
    }
  }

  lemma SoloJobsRest(folders: seq<FolderInfo>, naming: Naming, parentID: string)
    requires folders != []
    ensures SoloJobs(folders, naming, parentID)[1..] == SoloJobs(folders[1..], naming, parentID)
    ensures Paths(folders) == [folders[0].path] + Paths(folders[1..])
  {
  }

  lemma {:induction false} SoloJobsWork(folders: seq<FolderInfo>, naming: Naming, parentID: string)
    ensures FoldersOf(SoloJobs(folders, naming, parentID)) == Paths(folders)
    ensures SizesOf(SoloJobs(folders, naming, parentID)) == Total(SizeOf, folders)
  {
    if folders != [] {
      SoloJobsWork(folders[1..], naming, parentID);
      SoloJobsRest(folders, naming, parentID);
    }
  }

  /** Packed jobs hold their bins, whatever names they get. */
  ghost predicate Carry(jobs: seq<SplitJob>, bins: seq<seq<FolderInfo>>) {
    |jobs| == |bins| && forall i :: 0 <= i < |bins| ==>
      jobs[i].folders == Paths(bins[i]) && jobs[i].totalSize == SumWrapped(bins[i])
  }

  lemma {:induction false} CarriedWork(jobs: seq<SplitJob>, bins: seq<seq<FolderInfo>>)
    requires Carry(jobs, bins)
    ensures FoldersOf(jobs) == Paths(All(bins))
    ensures Total(SizeOf, All(bins)) < U64 ==> SizesOf(jobs) == Total(SizeOf, All(bins))
  {
    if bins == [] {
      assert Paths(All(bins)) == [];
    } else {
      CarriedWork(jobs[1..], bins[1..]);
      assert Paths(All(bins)) == Paths(bins[0]) + Paths(All(bins[1..]));
      TotalAppend(SizeOf, bins[0], All(bins[1..]));
    }
  }

  /** Reordering folders reorders their paths. */
  lemma {:induction false} PathsPermuted(s: seq<FolderInfo>, t: seq<FolderInfo>)
    requires multiset(s) == multiset(t)
    ensures multiset(Paths(s)) == multiset(Paths(t))
    decreases |s|
  {
    SameLength(s, t);
    if s == [] {
    } else {
      var k := HeadElsewhere(s, t);
      PathsPermuted(s[1..], t[..k] + t[k + 1..]);
      assert Paths(s) == [s[0].path] + Paths(s[1..]);
      assert Paths(t[..k] + t[k + 1..]) == Paths(t)[..k] + Paths(t)[k + 1..];
      WithoutOne(Paths(t), k);
      assert Paths(t)[k] in multiset(Paths(t));
    }
  }

  /** The jobs before the remainder jobs. */
  function Covering(folders: seq<FolderInfo>, binSize: Word): nat {
    |Pick(folders, binSize, true)| + |Bins(folders, binSize)|
  }

  lemma PlanParts(folders: seq<FolderInfo>, roots: seq<string>, binSize: Word, naming: Naming, parentID: string)
    ensures var jobs, n := Plan(folders, roots, binSize, naming, parentID), Covering(folders, binSize);
            && |jobs| == n + |roots|
            && SameWork(jobs[..n], SoloJobs(Pick(folders, binSize, true), naming, parentID)
                                   + PackedJobs(Bins(folders, binSize), naming, ParentPath(folders, naming), parentID))
  {
  }

  /** What the jobs before the remainder jobs hold together. */
  lemma CoveringWork(folders: seq<FolderInfo>, roots: seq<string>, binSize: Word, naming: Naming, parentID: string)
    ensures var jobs, n := Plan(folders, roots, binSize, naming, parentID), Covering(folders, binSize);
            var solo, bins := Pick(folders, binSize, true), Bins(folders, binSize);
            && |jobs| == n + |roots|
            && FoldersOf(jobs[..n]) == Paths(solo) + Paths(All(bins))
            && (Total(SizeOf, All(bins)) < U64 ==> SizesOf(jobs[..n]) == Total(SizeOf, solo) + Total(SizeOf, All(bins)))
  {
    var jobs, n := Plan(folders, roots, binSize, naming, parentID), Covering(folders, binSize);
    var alone := SoloJobs(Pick(folders, binSize, true), naming, parentID);
    var packed := PackedJobs(Bins(folders, binSize), naming, ParentPath(folders, naming), parentID);
    PlanParts(folders, roots, binSize, naming, parentID);
    SameWorkSameSums(jobs[..n], alone + packed);
    JobsAppend(alone, packed);
    SoloJobsWork(Pick(folders, binSize, true), naming, parentID);
    CarriedWork(packed, Bins(folders, binSize));
  }

  lemma TwoHalves(solo: seq<FolderInfo>, packed: seq<FolderInfo>, folders: seq<FolderInfo>)
    requires multiset(solo + packed) == multiset(folders)
    ensures multiset(Paths(solo) + Paths(packed)) == multiset(Paths(folders))
    ensures Total(SizeOf, solo) + Total(SizeOf, packed) == Total(SizeOf, folders)
  {
    PathsPermuted(solo + packed, folders);
    assert Paths(solo + packed) == Paths(solo) + Paths(packed);
    TotalAppend(SizeOf, solo, packed);
    TotalPermuted(SizeOf, solo + packed, folders);
  }

  /**
   Every analysed folder is in exactly one job before the remainder jobs, and the sizes of those jobs add up to all of
   it.
   */
  lemma EveryFolderOnce(folders: seq<FolderInfo>, roots: seq<string>, binSize: Word, naming: Naming, parentID: string)
    ensures var jobs, n := Plan(folders, roots, binSize, naming, parentID), Covering(folders, binSize);
            && |jobs| == n + |roots|
            && multiset(FoldersOf(jobs[..n])) == multiset(Paths(folders))
            && (Total(SizeOf, folders) < U64 ==> SizesOf(jobs[..n]) == Total(SizeOf, folders))
  {
    CoveringWork(folders, roots, binSize, naming, parentID);
    AllFolders(folders, binSize);
    TwoHalves(Pick(folders, binSize, true), All(Bins(folders, binSize)), folders);
  }

  lemma AllFolders(folders: seq<FolderInfo>, binSize: Word)
    ensures multiset(Pick(folders, binSize, true) + All(Bins(folders, binSize))) == multiset(folders)
  {
    PickAll(folders, binSize);
    PackConserves(Pick(folders, binSize, false), binSize);
    MultisetOfSum(Pick(folders, binSize, true), All(Bins(folders, binSize)));
  }

  lemma {:induction false} BelowExactly(folders: seq<FolderInfo>, root: string, naming: Naming, path: string)
    ensures path in Below(folders, root, naming) <==>
            exists f :: f in folders && f.path == path && naming.cleanKey(naming.dir(path)) == naming.cleanKey(root)
  {
    if folders != [] {
      var n := |folders| - 1;
      BelowExactly(folders[..n], root, naming, path);
      assert folders == folders[..n] + [folders[n]];
    }
  }

  /** The remainder job of a root backs up the root without exactly the analysed folders directly below it. */
  lemma RemaindersExact(folders: seq<FolderInfo>, roots: seq<string>, binSize: Word, naming: Naming, parentID: string,
                        r: nat, path: string)
    requires r < |roots|
    ensures var job := Plan(folders, roots, binSize, naming, parentID)[Covering(folders, binSize) + r];
            && job.folders == [roots[r]] && job.totalSize == 0 && job.parentID == parentID
            && job.backupID == naming.idOf(roots[r]) + "_rootfiles"
            && (path in job.excludeList <==>
                exists f :: f in folders && f.path == path
                  && naming.cleanKey(naming.dir(path)) == naming.cleanKey(roots[r]))
  {
    BelowExactly(folders, roots[r], naming, path);
  }

  /** Jobs are numbered 1 .. n, and each knows n. */
  lemma JobsNumbered(folders: seq<FolderInfo>, roots: seq<string>, binSize: Word, naming: Naming, parentID: string,
                     i: nat)
    requires i < |Plan(folders, roots, binSize, naming, parentID)|
    ensures var jobs := Plan(folders, roots, binSize, naming, parentID);
            jobs[i].index == i + 1 && jobs[i].totalJobs == |jobs|
  {
  }

  lemma PickWithin(folders: seq<FolderInfo>, binSize: Word)
    ensures AllWithin(Pick(folders, binSize, false), binSize)
  {
  }

  lemma BinsFit(folders: seq<FolderInfo>, binSize: Word)
    requires binSize < HALF_U64
    ensures forall b :: 0 <= b < |Bins(folders, binSize)| ==> Total(SizeOf, Bins(folders, binSize)[b]) <= binSize
  {
    PickWithin(folders, binSize);
    PackPacks(Pick(folders, binSize, false), binSize);
  }

  lemma InTheMiddle(a: seq<SplitJob>, b: seq<SplitJob>, c: seq<SplitJob>, k: nat)
    requires k < |b|
    ensures (a + b + c)[|a| + k] == b[k]
  {
  }

  lemma PackedPart(folders: seq<FolderInfo>, roots: seq<string>, binSize: Word, naming: Naming, parentID: string,
                   b: nat)
    requires b < |Bins(folders, binSize)|
    ensures var jobs := Plan(folders, roots, binSize, naming, parentID);
            |Pick(folders, binSize, true)| + b < |jobs| &&
            jobs[|Pick(folders, binSize, true)| + b] ==
            PackedJob(Bins(folders, binSize)[b], b, naming, ParentPath(folders, naming), parentID)
              .(index := |Pick(folders, binSize, true)| + b + 1, totalJobs := |jobs|)
  {
    var alone := SoloJobs(Pick(folders, binSize, true), naming, parentID);
    var packed := PackedJobs(Bins(folders, binSize), naming, ParentPath(folders, naming), parentID);
    var remainders := RemainderJobs(roots, folders, naming, parentID);
    InTheMiddle(alone, packed, remainders, b);
  }

  /** A packed job is no larger than a bin, and its size is that of its folders. */
  lemma PackedJobsFit(folders: seq<FolderInfo>, roots: seq<string>, binSize: Word, naming: Naming, parentID: string,
                      b: nat)
    requires binSize < HALF_U64 && b < |Bins(folders, binSize)|
    ensures var job, bin := Plan(folders, roots, binSize, naming, parentID)[|Pick(folders, binSize, true)| + b],
            Bins(folders, binSize)[b];
            job.folders == Paths(bin) && job.totalSize == Total(SizeOf, bin) <= binSize
  {
    PackedPart(folders, roots, binSize, naming, parentID, b);
    BinsFit(folders, binSize);
    SmallSum(Bins(folders, binSize)[b]);
  }

  lemma SmallSum(folders: seq<FolderInfo>)
    requires Total(SizeOf, folders) < U64
    ensures SumWrapped(folders) == Total(SizeOf, folders)
  {
  }

  lemma {:induction false} PickDescending(folders: seq<FolderInfo>, binSize: Word, solo: bool)
    requires Descending(folders)
    ensures Descending(Pick(folders, binSize, solo))
  {
    if folders != [] {
      var n := |folders| - 1;
      PickDescending(folders[..n], binSize, solo);
      var less := Pick(folders[..n], binSize, solo);
      forall k | 0 <= k < |less|
        ensures less[k].size >= folders[n].size
      {
        assert less[k] in folders[..n];
      }
    }
  }

  /** The plan of analysed folders: at most half as many packed jobs again as any other way of packing would need. */
  lemma PlanThreeHalves(folders: seq<FolderInfo>, binSize: Word, packing: seq<seq<FolderInfo>>)
    requires Descending(folders) && binSize < HALF_U64
    requires ValidPacking(packing, Pick(folders, binSize, false), binSize)
    ensures 2 * |Bins(folders, binSize)| <= 3 * |packing|
  {
    PickDescending(folders, binSize, false);
    PickWithin(folders, binSize);
    ThreeHalves(Pick(folders, binSize, false), binSize, packing);
  }

  /** A split is only decided on when there is something to split: the branch for "nothing to do" is never taken. */
  lemma NothingToDoUnreachable(folders: seq<FolderInfo>, totalSize: Word, threshold: Word, binSize: Word)
    requires totalSize == SumWrapped(folders) && totalSize > threshold
    ensures Pick(folders, binSize, true) != [] || Pick(folders, binSize, false) != []
  {
    PickAll(folders, binSize);
    assert folders != [];
    assert folders[0] in multiset(Pick(folders, binSize, true)) + multiset(Pick(folders, binSize, false));
  }
}
