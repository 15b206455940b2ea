/**
 The number of jobs that is suggested before the plan of a split is made (applyConfiguredSplit in
 gui/backup_split_api.go), and when it is an estimate of the number of bins.
 */
module SplitEstimates {
  import opened Lists
  import opened BinPacking
  import opened FirstFitDecreasing
  import opened SplitPlans
  import opened SplitJobs
  import opened SplitCoverage

  /** Any two neighbouring bins exceed the target together: the second one's first folder did not fit into the first. */
  lemma NeighboursExceed(bins: seq<Bin>, target: Word, i: nat)
    requires Packed(bins, target) && i + 1 < |bins|
    ensures Total(SizeOf, bins[i].folders) + Total(SizeOf, bins[i + 1].folders) >= target + 1
  {
    WeighsOne(SizeOf, bins[i + 1].folders, 0);
  }

  lemma {:induction false} HalfFull(lists: seq<seq<FolderInfo>>, target: nat)
    requires forall i :: 0 <= i < |lists| - 1 ==> Total(SizeOf, lists[i]) + Total(SizeOf, lists[i + 1]) >= target + 1
    ensures Total(SizeOf, All(lists)) >= |lists| / 2 * (target + 1)
  {
    if |lists| >= 2 {
      var rest := lists[2..];
      HalfFull(rest, target);
      assert lists == [lists[0]] + ([lists[1]] + rest);
      assert All(lists) == lists[0] + (lists[1] + All(rest)) by {
        assert lists[1..][1..] == rest;
      }
      TotalAppend(SizeOf, lists[0], lists[1] + All(rest));
      TotalAppend(SizeOf, lists[1], All(rest));
      OneMoreTimes(|lists| / 2, target + 1);
      assert |rest| / 2 == |lists| / 2 - 1;
    }
  }

  lemma FewerTimes(a: nat, b: nat, x: nat)
    requires a * x < b * x
    ensures a < b
  {
  }

  lemma Ceiling(total: nat, binSize: nat)
    requires 0 < binSize && 0 < total
    ensures var s := (total + binSize - 1) / binSize; 0 < s && (s - 1) * binSize < total <= s * binSize
  {
    var s := (total + binSize - 1) / binSize;
    assert s * binSize <= total + binSize - 1 < s * binSize + binSize;
    assert s != 0;
    OneMoreTimes(s, binSize);
  }

  lemma CeilingBounds(total: nat, binSize: nat, k: nat)
    requires 0 < binSize < total && k / 2 * (binSize + 1) <= total <= k * binSize
    ensures var s := (total + binSize - 1) / binSize; 2 <= s <= k <= 2 * s - 1
  {
    var s, half := (total + binSize - 1) / binSize, k / 2;
    Ceiling(total, binSize);
    FewerTimes(s - 1, k, binSize);
    FewerTimes(1, s, binSize);
    assert half * (binSize + 1) == half * binSize + half;
    if half > 0 {
      FewerTimes(half, s, binSize);
    }
  }

  lemma PackedBounds(bins: seq<Bin>, target: Word)
    requires Packed(bins, target)
    ensures |bins| / 2 * (target + 1) <= Total(SizeOf, All(Contents(bins))) <= |bins| * target
  {
    var lists := Contents(bins);
    TotalAtMost(SizeOf, lists, target);
    forall i | 0 <= i < |lists| - 1
      ensures Total(SizeOf, lists[i]) + Total(SizeOf, lists[i + 1]) >= target + 1
    {
      NeighboursExceed(bins, target, i);
    }
    HalfFull(lists, target);
  }

  lemma NoneAlone(folders: seq<FolderInfo>, binSize: Word)
    requires Pick(folders, binSize, true) == []
    ensures Total(SizeOf, All(Bins(folders, binSize))) == Total(SizeOf, folders)
  {
    AllFolders(folders, binSize);
    assert [] + All(Bins(folders, binSize)) == All(Bins(folders, binSize));
    TotalPermuted(SizeOf, All(Bins(folders, binSize)), folders);
  }

  lemma SuggestedJobs(total: Word, binSize: Word, k: nat)
    requires 0 < binSize < total && total + binSize <= U64
    requires k / 2 * (binSize + 1) <= total <= k * binSize
    ensures var s := Suggested(true, total, binSize); s <= k <= 2 * s - 1
  {
    CeilingBounds(total, binSize, k);
  }

  /** A ceiling division that wraps around comes out as zero, and the suggestion is the least there is. */
  lemma WrappedSuggestion(total: Word, binSize: Word)
    requires 0 < binSize && total + binSize > U64
    ensures Suggested(true, total, binSize) == 2
  {
    assert total + (binSize - 1) - U64 < binSize;
    assert Plus(total, binSize - 1) == total + (binSize - 1) - U64;
  }

  /** Two bins or three, if there is no room for two pairs of bins, and more if not even three full ones are enough. */
  lemma FewBins(total: nat, binSize: nat, k: nat)
    requires 0 < binSize < total && k / 2 * (binSize + 1) <= total <= k * binSize
    ensures k >= 2 && (total <= 2 * binSize + 1 ==> k <= 3) && (total > 3 * binSize ==> k > 3)
  {
    FewerTimes(1, k, binSize);
    NoMoreTimes(2, k / 2, binSize + 1);
    NoMoreTimes(k, 3, binSize);
  }

  /** What the suggested number of jobs says about the number of bins. */
  ghost predicate Estimates(s: nat, bins: nat) {
    s <= bins <= 2 * s - 1
  }

  /**
   The suggested number of jobs is a real estimate when no folder goes alone: packing needs that many jobs, and not
   twice as many. If the division wraps around it is always two; that still holds for up to two bins' worth, and no
   longer for more than three.
   */
  lemma SuggestionIsAnEstimate(folders: seq<FolderInfo>, totalSize: Word, binSize: Word)
    requires Pick(folders, binSize, true) == [] && 0 < binSize < HALF_U64
    requires totalSize == Total(SizeOf, folders) && binSize < totalSize
    ensures var s, k := Suggested(true, totalSize, binSize), |Bins(folders, binSize)|;
            if totalSize + binSize <= U64 then Estimates(s, k)
            else
              && s == 2 && (TwoSuffice(totalSize, binSize) ==> Estimates(s, k))
              && (totalSize > 3 * binSize ==> !Estimates(s, k))
  {
    var bins := Pack(Pick(folders, binSize, false), binSize);
    PickWithin(folders, binSize);
    PackPacks(Pick(folders, binSize, false), binSize);
    PackedBounds(bins, binSize);
    NoneAlone(folders, binSize);
    if totalSize + binSize <= U64 {
      SuggestedJobs(totalSize, binSize, |bins|);
    } else {
      WrappedSuggestion(totalSize, binSize);
      FewBins(totalSize, binSize, |bins|);
      if binSize % 2 == 0 && totalSize == 2 * binSize + 2 && |bins| >= 4 {
        FourBins(bins, binSize);
      }
    }
  }

  /** A total that never takes more than three bins: two pairs of bins need more. */
  predicate TwoSuffice(totalSize: nat, binSize: nat) {
    totalSize <= 2 * binSize + 1 || (binSize % 2 == 0 && totalSize == 2 * binSize + 2)
  }

  lemma TotalOfTwo(lists: seq<seq<FolderInfo>>)
    requires |lists| >= 2
    ensures Total(SizeOf, All(lists)) ==
            Total(SizeOf, lists[0]) + Total(SizeOf, lists[1]) + Total(SizeOf, All(lists[2..]))
  {
    assert lists[1..][1..] == lists[2..];
    TotalAppend(SizeOf, lists[0], All(lists[1..]));
    TotalAppend(SizeOf, lists[1], All(lists[2..]));
  }

  /** Any two bins exceed the target together. */
  lemma TwoExceed(bins: seq<Bin>, target: Word, i: nat, j: nat)
    requires Packed(bins, target) && i < j < |bins|
    ensures bins[i].used + bins[j].used >= target + 1
  {
    WeighsOne(SizeOf, bins[j].folders, 0);
  }

  /** Four numbers of which any two exceed an even bound exceed it twice by three. */
  lemma FourExceed(a: nat, b: nat, c: nat, d: nat, half: nat)
    requires a + b > 2 * half && a + c > 2 * half && a + d > 2 * half
    requires b + c > 2 * half && b + d > 2 * half && c + d > 2 * half
    ensures a + b + c + d >= 4 * half + 3
  {
  }

  lemma FourBins(bins: seq<Bin>, target: Word)
    requires Packed(bins, target) && |bins| >= 4 && target % 2 == 0
    ensures Total(SizeOf, All(Contents(bins))) >= 2 * target + 3
  {
    var lists := Contents(bins);
    TotalOfTwo(lists);
    TotalOfTwo(lists[2..]);
    TwoExceed(bins, target, 0, 1);
    TwoExceed(bins, target, 0, 2);
    TwoExceed(bins, target, 0, 3);
    TwoExceed(bins, target, 1, 2);
    TwoExceed(bins, target, 1, 3);
    TwoExceed(bins, target, 2, 3);
    FourExceed(bins[0].used, bins[1].used, bins[2].used, bins[3].used, target / 2);
  }

  // Where the division wraps around: exactly when two jobs are an estimate for all folders.

  /** However the folders divide up this total, as long as none goes alone, two jobs are an estimate. */
  ghost predicate TwoAlwaysEstimates(totalSize: Word, binSize: Word) {
    forall folders ::
      Descending(folders) && Pick(folders, binSize, true) == [] && Total(SizeOf, folders) == totalSize ==>
        Estimates(2, |Bins(folders, binSize)|)
  }

  function Sized(size: Word): FolderInfo {
    FolderInfo("", "", size, false, "")
  }

  /** Folders as large as a bin, and one for the rest. */
  function Filling(total: Word, binSize: Word): (folders: seq<FolderInfo>)
    requires 0 < binSize
    ensures forall f :: f in folders ==> !Solo(f, binSize)
    ensures Descending(folders) && Total(SizeOf, folders) == total
    decreases total
  {
    if total <= binSize then [Sized(total)] else [Sized(binSize)] + Filling(total - binSize, binSize)
  }

  /** Four folders as equal as can be. */
  function Quarters(total: Word): seq<FolderInfo> {
    [Sized((total + 3) / 4), Sized((total + 2) / 4), Sized((total + 1) / 4), Sized(total / 4)]
  }

  lemma Quarter(total: nat, k: nat, q: nat, r: nat)
    requires total == 4 * q + r && r + k < 8
    ensures (total + k) / 4 == if r + k >= 4 then q + 1 else q
  {
  }

  lemma TotalOfFour(a: FolderInfo, b: FolderInfo, c: FolderInfo, d: FolderInfo)
    ensures Total(SizeOf, [a, b, c, d]) == a.size + b.size + c.size + d.size
  {
    assert [a, b, c, d] == [] + [a] + [b] + [c] + [d];
    TotalSnoc(SizeOf, [], a);
    TotalSnoc(SizeOf, [] + [a], b);
    TotalSnoc(SizeOf, [] + [a] + [b], c);
    TotalSnoc(SizeOf, [] + [a] + [b] + [c], d);
  }

  lemma QuarterSum(total: nat)
    ensures (total + 3) / 4 + (total + 2) / 4 + (total + 1) / 4 + total / 4 == total
    ensures total / 4 <= (total + 1) / 4 <= (total + 2) / 4 <= (total + 3) / 4
  {
    var q, r := total / 4, total % 4;
    Quarter(total, 1, q, r);
    Quarter(total, 2, q, r);
    Quarter(total, 3, q, r);
  }

  lemma QuartersInAll(total: Word)
    ensures Descending(Quarters(total)) && Total(SizeOf, Quarters(total)) == total
  {
    QuarterSum(total);
    TotalOfFour(Sized((total + 3) / 4), Sized((total + 2) / 4), Sized((total + 1) / 4), Sized(total / 4));
  }

  lemma TwoQuarters(total: nat, binSize: nat)
    requires 2 * binSize + 2 <= total <= 3 * binSize && !TwoSuffice(total, binSize)
    ensures total / 4 + (total + 1) / 4 > binSize && (total + 3) / 4 <= binSize
  {
    var q, r := total / 4, total % 4;
    Quarter(total, 1, q, r);
    Quarter(total, 3, q, r);
    if 2 * q == binSize {
      assert binSize % 2 == 0;
    }
  }

  lemma QuartersExceed(total: Word, binSize: Word)
    requires 2 * binSize + 2 <= total <= 3 * binSize && !TwoSuffice(total, binSize)
    ensures AllWithin(Quarters(total), binSize)
    ensures forall i, j :: 0 <= i < j < 4 ==> Quarters(total)[i].size + Quarters(total)[j].size > binSize
  {
    var fs := Quarters(total);
    QuartersInAll(total);
    TwoQuarters(total, binSize);
    assert fs[0].size <= binSize && fs[2].size + fs[3].size > binSize;
    forall i, j | 0 <= i < j < 4
      ensures fs[i].size + fs[j].size > binSize
    {
      assert fs[i].size >= fs[2].size && fs[j].size >= fs[3].size;
    }
  }

  /** Folders of which no two go together fill a bin each. */
  lemma {:induction false} OneBinEach(folders: seq<FolderInfo>, target: Word)
    requires AllWithin(folders, target) && target < HALF_U64
    requires forall i, j :: 0 <= i < j < |folders| ==> folders[i].size + folders[j].size > target
    ensures |Pack(folders, target)| == |folders|
    ensures forall i :: 0 <= i < |folders| ==> Pack(folders, target)[i].used == folders[i].size
  {
    if folders != [] {
      var n := |folders| - 1;
      OneBinEach(folders[..n], target);
      var bins := Pack(folders[..n], target);
      forall i | 0 <= i < n
        ensures !Fits(bins[i], folders[n], target)
      {
        FitsTruly(bins[i], folders[n], target);
      }
    }
  }

  lemma {:induction false} NoneGoesAlone(folders: seq<FolderInfo>, binSize: Word)
    requires forall f :: f in folders ==> !Solo(f, binSize)
    ensures Pick(folders, binSize, true) == [] && Pick(folders, binSize, false) == folders
  {
    if folders != [] {
      FrontAndLast(folders);
      NoneGoesAlone(folders[..|folders| - 1], binSize);
      assert !Solo(folders[|folders| - 1], binSize);
    }
  }

  /** The suggestion of two is an estimate for all folders exactly if no two pairs of bins can come about. */
  lemma TwoIsAnEstimateExactly(totalSize: Word, binSize: Word)
    requires 0 < binSize < HALF_U64 && binSize < totalSize && totalSize + binSize > U64
    ensures Suggested(true, totalSize, binSize) == 2
    ensures TwoAlwaysEstimates(totalSize, binSize) <==> TwoSuffice(totalSize, binSize)
  {
    WrappedSuggestion(totalSize, binSize);
    if TwoSuffice(totalSize, binSize) {
      forall folders | Pick(folders, binSize, true) == [] && Total(SizeOf, folders) == totalSize
        ensures Estimates(2, |Bins(folders, binSize)|)
      {
        SuggestionIsAnEstimate(folders, totalSize, binSize);
      }
    } else if totalSize > 3 * binSize {
      var folders := Filling(totalSize, binSize);
      NoneGoesAlone(folders, binSize);
      SuggestionIsAnEstimate(folders, totalSize, binSize);
    } else {
      var folders := Quarters(totalSize);
      QuartersInAll(totalSize);
      QuartersExceed(totalSize, binSize);
      NoneGoesAlone(folders, binSize);
      OneBinEach(folders, binSize);
      assert |Bins(folders, binSize)| == 4;
    }
  }
}
