/**
 Packing folders into bins, first fit (binPackFolders in gui/backup_analysis.go), on 64-bit sizes that wrap
 around like the source's.
 */
module BinPacking {

  const U64 := 0x1_0000_0000_0000_0000
  const HALF_U64 := 0x8000_0000_0000_0000

  type Word = n: nat | n < U64

  function Plus(a: Word, b: Word): Word {
    (a + b) % U64
  }

  datatype FolderInfo = FolderInfo(path: string, name: string, size: Word, accessDenied: bool, backupID: string)

  datatype Bin = Bin(folders: seq<FolderInfo>, used: Word)

  predicate Fits(bin: Bin, folder: FolderInfo, target: Word) {
    Plus(bin.used, folder.size) <= target
  }

  /** The first bin from `from` on that takes the folder, or the number of bins. */
  function FirstFit(bins: seq<Bin>, folder: FolderInfo, target: Word, from: nat): (i: nat)
    requires from <= |bins|
    ensures from <= i <= |bins|
    ensures forall j :: from <= j < i ==> !Fits(bins[j], folder, target)
    ensures i < |bins| ==> Fits(bins[i], folder, target)
    decreases |bins| - from
  {
    if from == |bins| || Fits(bins[from], folder, target) then from else FirstFit(bins, folder, target, from + 1)
  }

  function Place(bins: seq<Bin>, folder: FolderInfo, target: Word): seq<Bin> {
    var i := FirstFit(bins, folder, target, 0);
    if i < |bins| then bins[i := Bin(bins[i].folders + [folder], Plus(bins[i].used, folder.size))]
    else bins + [Bin([folder], folder.size)]
  }

  /** Placing the folders one after the other. */
  function Pack(folders: seq<FolderInfo>, target: Word): seq<Bin> {
    if folders == [] then [] else Place(Pack(folders[..|folders| - 1], target), folders[|folders| - 1], target)
  }

  function Contents(bins: seq<Bin>): (contents: seq<seq<FolderInfo>>)
    ensures |contents| == |bins| && forall i :: 0 <= i < |bins| ==> contents[i] == bins[i].folders
  {
    seq(|bins|, i requires 0 <= i < |bins| => bins[i].folders)
  }

  method BinPackFolders(folders: seq<FolderInfo>, target: Word) returns (result: seq<seq<FolderInfo>>)
    ensures result == Contents(Pack(folders, target))
  {
    var bins: seq<Bin> := [];
    var n := 0;
    while n < |folders|
      invariant n <= |folders| && bins == Pack(folders[..n], target)
    {
      var folder := folders[n];
      assert folders[..n + 1][..n] == folders[..n];
      var i := 0;
      while i < |bins| && !Fits(bins[i], folder, target)
        invariant i <= |bins| && FirstFit(bins, folder, target, i) == FirstFit(bins, folder, target, 0)
      {
        i := i + 1;
      }
      if i < |bins| {
        bins := bins[i := Bin(bins[i].folders + [folder], Plus(bins[i].used, folder.size))];
      } else {
        bins := bins + [Bin([folder], folder.size)];
      }
      n := n + 1;
    }
    assert folders[..n] == folders;
    result := [];
    n := 0;
    while n < |bins|
      invariant n <= |bins| && result == Contents(bins)[..n]
    {
      result := result + [bins[n].folders];
      n := n + 1;
    }
  }

  /** What the folders of a list weigh together, whatever is weighed. */
  function Total(weigh: FolderInfo -> nat, folders: seq<FolderInfo>): nat {
    if folders == [] then 0 else weigh(folders[0]) + Total(weigh, folders[1..])
  }

  function SizeOf(folder: FolderInfo): nat {
    folder.size
  }

  function All(lists: seq<seq<FolderInfo>>): seq<FolderInfo> {
    if lists == [] then [] else lists[0] + All(lists[1..])
  }

  lemma {:induction false} TotalAppend(weigh: FolderInfo -> nat, a: seq<FolderInfo>, b: seq<FolderInfo>)
    ensures Total(weigh, a + b) == Total(weigh, a) + Total(weigh, b)
  {
    if a == [] {
      assert a + b == b;
    } else {
      assert (a + b)[1..] == a[1..] + b;
      TotalAppend(weigh, a[1..], b);
    }
  }

  lemma TotalSnoc(weigh: FolderInfo -> nat, a: seq<FolderInfo>, folder: FolderInfo)
    ensures Total(weigh, a + [folder]) == Total(weigh, a) + weigh(folder)
  {
    TotalAppend(weigh, a, [folder]);
    assert [folder][1..] == [];
  }

  lemma {:induction false} AllAppend(a: seq<seq<FolderInfo>>, b: seq<seq<FolderInfo>>)
    ensures All(a + b) == All(a) + All(b)
  {
    if a == [] {
      assert a + b == b;
    } else {
      assert (a + b)[1..] == a[1..] + b;
      AllAppend(a[1..], b);
    }
  }

  /** A bin that gets one more folder: nothing else changes. */
  lemma AllGrows(lists: seq<seq<FolderInfo>>, i: nat, folder: FolderInfo)
    requires i < |lists|
    ensures multiset(All(lists[i := lists[i] + [folder]])) == multiset(All(lists)) + multiset{folder}
  {
    var before, after, grown := lists[..i], lists[i + 1..], lists[i] + [folder];
    AllOfThree(before, lists[i], after);
    AllOfThree(before, grown, after);
    assert lists == before + [lists[i]] + after;
    assert lists[i := grown] == before + [grown] + after;
    OneMoreInside(All(before), lists[i], folder, All(after));
  }

  lemma OneMoreInside(a: seq<FolderInfo>, b: seq<FolderInfo>, folder: FolderInfo, c: seq<FolderInfo>)
    ensures multiset(a + (b + [folder]) + c) == multiset(a + b + c) + multiset{folder}
  {
  }

  lemma AllOfThree(before: seq<seq<FolderInfo>>, mid: seq<FolderInfo>, after: seq<seq<FolderInfo>>)
    ensures All(before + [mid] + after) == All(before) + mid + All(after)
  {
    AllAppend(before + [mid], after);
    AllAppend(before, [mid]);
    assert [mid][1..] == [] && mid + [] == mid;
  }

  lemma PlaceConserves(bins: seq<Bin>, folder: FolderInfo, target: Word)
    ensures multiset(All(Contents(Place(bins, folder, target)))) == multiset(All(Contents(bins))) + multiset{folder}
  {
    var i := FirstFit(bins, folder, target, 0);
    if i < |bins| {
      AllGrows(Contents(bins), i, folder);
      assert Contents(Place(bins, folder, target)) == Contents(bins)[i := bins[i].folders + [folder]];
    } else {
      AllAppend(Contents(bins), [[folder]]);
      assert [[folder]][1..] == [] && [folder] + [] == [folder];
      assert Contents(Place(bins, folder, target)) == Contents(bins) + [[folder]];
    }
  }

  /** Every folder ends up in exactly one bin, whatever the sizes. */
  lemma {:induction false} PackConserves(folders: seq<FolderInfo>, target: Word)
    ensures multiset(All(Contents(Pack(folders, target)))) == multiset(folders)
  {
    if folders == [] {
      assert Contents(Pack(folders, target)) == [];
    } else {
      var n := |folders| - 1;
      PackConserves(folders[..n], target);
      PlaceConserves(Pack(folders[..n], target), folders[n], target);
      assert folders == folders[..n] + [folders[n]];
    }
  }

  ghost predicate AllWithin(folders: seq<FolderInfo>, target: Word) {
    forall i :: 0 <= i < |folders| ==> folders[i].size <= target
  }

  /**
   What first fit keeps: bins are filled to at most the target, and no folder would have fitted into an earlier bin.
   */
  ghost predicate Packed(bins: seq<Bin>, target: Word) {
    && (forall i :: 0 <= i < |bins| ==>
          bins[i].folders != [] && bins[i].used == Total(SizeOf, bins[i].folders) <= target)
    && (forall i, j, k :: 0 <= i < j < |bins| && 0 <= k < |bins[j].folders| ==>
          bins[i].used + bins[j].folders[k].size > target)
  }

  /** No wrap: the fit test compares the true sum. */
  lemma FitsTruly(bin: Bin, folder: FolderInfo, target: Word)
    requires bin.used <= target && folder.size <= target < HALF_U64
    ensures Fits(bin, folder, target) <==> bin.used + folder.size <= target
    ensures Plus(bin.used, folder.size) == bin.used + folder.size
  {
  }

  lemma PlacePacks(bins: seq<Bin>, folder: FolderInfo, target: Word)
    requires Packed(bins, target) && folder.size <= target < HALF_U64
    ensures Packed(Place(bins, folder, target), target)
  {
    var i := FirstFit(bins, folder, target, 0);
    forall j | 0 <= j < |bins|
      ensures Fits(bins[j], folder, target) <==> bins[j].used + folder.size <= target
      ensures Plus(bins[j].used, folder.size) == bins[j].used + folder.size
    {
      FitsTruly(bins[j], folder, target);
    }
    if i < |bins| {
      PutIntoPacks(bins, folder, target, i);
    } else {
      PutLastPacks(bins, folder, target);
    }
  }

  lemma PutIntoPacks(bins: seq<Bin>, folder: FolderInfo, target: Word, i: nat)
    requires Packed(bins, target) && i < |bins| && bins[i].used + folder.size <= target
    requires forall j :: 0 <= j < i ==> bins[j].used + folder.size > target
    ensures Packed(bins[i := Bin(bins[i].folders + [folder], bins[i].used + folder.size)], target)
  {
    TotalSnoc(SizeOf, bins[i].folders, folder);
    var after := bins[i := Bin(bins[i].folders + [folder], bins[i].used + folder.size)];
    forall a, b, k | 0 <= a < b < |after| && 0 <= k < |after[b].folders|
      ensures after[a].used + after[b].folders[k].size > target
    {
      if b != i || k < |bins[b].folders| {
        assert after[b].folders[k] == bins[b].folders[k];
      }
    }
  }

  lemma PutLastPacks(bins: seq<Bin>, folder: FolderInfo, target: Word)
    requires Packed(bins, target) && folder.size <= target
    requires forall j :: 0 <= j < |bins| ==> bins[j].used + folder.size > target
    ensures Packed(bins + [Bin([folder], folder.size)], target)
  {
    TotalSnoc(SizeOf, [], folder);
    assert [] + [folder] == [folder];
  }

  lemma {:induction false} PackPacks(folders: seq<FolderInfo>, target: Word)
    requires AllWithin(folders, target) && target < HALF_U64
    ensures Packed(Pack(folders, target), target)
  {
    if folders != [] {
      var n := |folders| - 1;
      PackPacks(folders[..n], target);
      PlacePacks(Pack(folders[..n], target), folders[n], target);
    }
  }

  /** No bin holds more than the target, whatever folders are packed. */
  ghost predicate NeverOverfills(target: Word) {
    forall folders: seq<FolderInfo>, i: nat ::
      AllWithin(folders, target) && i < |Pack(folders, target)| ==>
        Total(SizeOf, Pack(folders, target)[i].folders) <= target
  }

  /** From half the range of a 64-bit size on, two folders as large as the target wrap around into one bin. */
  lemma WrapsIntoOneBin(target: Word, folder: FolderInfo)
    requires target >= HALF_U64 && folder.size == target
    ensures Pack([folder, folder], target) == [Bin([folder, folder], Plus(target, target))]
    ensures Total(SizeOf, [folder, folder]) == 2 * target > target
  {
    assert [folder, folder][..1] == [folder] && [folder][..0] == [];
    assert [] + [Bin([folder], folder.size)] == [Bin([folder], folder.size)];
    assert Pack([folder], target) == [Bin([folder], folder.size)];
    assert Plus(target, target) == 2 * target - U64;
    assert FirstFit([Bin([folder], target)], folder, target, 0) == 0;
    TotalSnoc(SizeOf, [folder], folder);
    TotalSnoc(SizeOf, [], folder);
    assert [folder] + [folder] == [folder, folder] && [] + [folder] == [folder];
  }

  /**
   The fit test is right for all folders exactly if the target is below 2^63: then a used size plus a folder cannot
   wrap.
   */
  lemma FitTestSound(target: Word)
    ensures NeverOverfills(target) <==> target < HALF_U64
  {
    if target < HALF_U64 {
      forall folders: seq<FolderInfo>, i: nat | AllWithin(folders, target) && i < |Pack(folders, target)|
        ensures Total(SizeOf, Pack(folders, target)[i].folders) <= target
      {
        PackPacks(folders, target);
      }
    } else {
      var folder := FolderInfo("", "", target, false, "");
      WrapsIntoOneBin(target, folder);
      assert AllWithin([folder, folder], target);
      assert Total(SizeOf, Pack([folder, folder], target)[0].folders) > target;
    }
  }
}
