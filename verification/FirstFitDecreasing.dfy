/**
 How good first fit decreasing is: on folders sorted largest first, it never needs more than half again as many
 bins as any packing at all. The argument is Simchi-Levi's: look at bin number ceil(2k/3) of k.
 */
module FirstFitDecreasing {
  import opened Lists
  import opened BinPacking

  ghost predicate Descending(folders: seq<FolderInfo>) {
    forall i, j :: 0 <= i < j < |folders| ==> folders[i].size >= folders[j].size
  }

  /**
   Every bin's first folder is its largest, bins are opened with ever smaller folders, and nothing is below `least`.
   */
  ghost predicate Headed(bins: seq<Bin>, least: nat) {
    && (forall i :: 0 <= i < |bins| ==> bins[i].folders != [])
    && (forall i, k :: 0 <= i < |bins| && 0 <= k < |bins[i].folders| ==>
          least <= bins[i].folders[k].size <= bins[i].folders[0].size)
    && (forall i, j :: 0 <= i < j < |bins| ==> bins[i].folders[0].size >= bins[j].folders[0].size)
  }

  lemma PlaceHeaded(bins: seq<Bin>, least: nat, folder: FolderInfo, target: Word)
    requires Headed(bins, least) && folder.size <= least
    ensures Headed(Place(bins, folder, target), folder.size)
  {
    var i := FirstFit(bins, folder, target, 0);
    var after := Place(bins, folder, target);
    forall b, k | 0 <= b < |after| && 0 <= k < |after[b].folders|
      ensures folder.size <= after[b].folders[k].size <= after[b].folders[0].size
    {
      if b < |bins| {
        assert least <= bins[b].folders[0].size;
        assert after[b].folders[0] == bins[b].folders[0];
        if k < |bins[b].folders| {
          assert after[b].folders[k] == bins[b].folders[k];
        }
      }
    }
  }

  lemma {:induction false} PackHeaded(folders: seq<FolderInfo>, target: Word)
    requires Descending(folders) && folders != []
    ensures Headed(Pack(folders, target), folders[|folders| - 1].size)
  {
    var n := |folders| - 1;
    if n == 0 {
      assert Pack(folders[..0], target) == [];
      PlaceHeaded([], folders[0].size, folders[0], target);
    } else {
      PackHeaded(folders[..n], target);
      PlaceHeaded(Pack(folders[..n], target), folders[n - 1].size, folders[n], target);
    }
  }

  /** A packing of these folders: each in one bin, no bin over the target. */
  ghost predicate ValidPacking(packing: seq<seq<FolderInfo>>, folders: seq<FolderInfo>, target: nat) {
    && multiset(All(packing)) == multiset(folders)
    && forall i :: 0 <= i < |packing| ==> Total(SizeOf, packing[i]) <= target
  }

  // Weighing lists.

  lemma TotalWithout(weigh: FolderInfo -> nat, s: seq<FolderInfo>, k: nat)
    requires k < |s|
    ensures Total(weigh, s) == weigh(s[k]) + Total(weigh, s[..k] + s[k + 1..])
  {
    Around(s, k);
    TotalOfThree(weigh, s[..k], s[k], s[k + 1..]);
  }

  lemma TotalOfThree(weigh: FolderInfo -> nat, before: seq<FolderInfo>, folder: FolderInfo, after: seq<FolderInfo>)
    ensures Total(weigh, before + [folder] + after) == weigh(folder) + Total(weigh, before + after)
  {
    TotalAppend(weigh, before + [folder], after);
    TotalSnoc(weigh, before, folder);
    TotalAppend(weigh, before, after);
  }

  /** Weighing does not depend on the order. */
  lemma {:induction false} TotalPermuted(weigh: FolderInfo -> nat, s: seq<FolderInfo>, t: seq<FolderInfo>)
    requires multiset(s) == multiset(t)
    ensures Total(weigh, s) == Total(weigh, t)
    decreases |s|
  {
    if s == [] {
      assert |multiset(t)| == 0;
    } else {
      var k := HeadElsewhere(s, t);
      TotalPermuted(weigh, s[1..], t[..k] + t[k + 1..]);
      TotalWithout(weigh, t, k);
    }
  }

  lemma OneMoreTimes(n: nat, x: nat)
    requires n > 0
    ensures n * x == (n - 1) * x + x
  {
  }

  lemma {:induction false} TotalAtMost(weigh: FolderInfo -> nat, packing: seq<seq<FolderInfo>>, most: nat)
    requires forall i :: 0 <= i < |packing| ==> Total(weigh, packing[i]) <= most
    ensures Total(weigh, All(packing)) <= |packing| * most
  {
    if packing != [] {
      TotalAtMost(weigh, packing[1..], most);
      OneMoreTimes(|packing|, most);
      TotalAppend(weigh, packing[0], All(packing[1..]));
    }
  }

  lemma {:induction false} TotalAtLeast(weigh: FolderInfo -> nat, packing: seq<seq<FolderInfo>>, n: nat)
    requires n <= |packing| && forall i :: 0 <= i < n ==> Total(weigh, packing[i]) >= 1
    ensures Total(weigh, All(packing)) >= n
  {
    if n > 0 {
      TotalAppend(weigh, packing[0], All(packing[1..]));
      TotalAtLeast(weigh, packing[1..], n - 1);
    }
  }

  lemma WeighsOne(weigh: FolderInfo -> nat, s: seq<FolderInfo>, k: nat)
    requires k < |s|
    ensures Total(weigh, s) >= weigh(s[k])
  {
    TotalWithout(weigh, s, k);
  }

  // Case A: bin number j was opened with a folder above half the target.

  function Big(target: nat): FolderInfo -> nat {
    (folder: FolderInfo) => if 2 * folder.size > target then 1 else 0
  }

  /** Two folders above half the target do not share a bin. */
  lemma {:induction false} OneBigPerBin(s: seq<FolderInfo>, target: nat)
    requires Total(SizeOf, s) <= target
    ensures Total(Big(target), s) <= 1
    ensures Total(Big(target), s) == 1 ==> 2 * Total(SizeOf, s) > target
  {
    if s != [] {
      OneBigPerBin(s[1..], target);
    }
  }

  lemma BigHeads(bins: seq<Bin>, least: nat, folders: seq<FolderInfo>, target: Word, packing: seq<seq<FolderInfo>>,
                 j: nat)
    requires Headed(bins, least) && 0 < j <= |bins| && 2 * bins[j - 1].folders[0].size > target
    requires multiset(All(Contents(bins))) == multiset(folders) && ValidPacking(packing, folders, target)
    ensures |packing| >= j
  {
    var big := Big(target);
    forall i | 0 <= i < j
      ensures Total(big, Contents(bins)[i]) >= 1
    {
      assert bins[i].folders[0].size >= bins[j - 1].folders[0].size;
      WeighsOne(big, bins[i].folders, 0);
    }
    TotalAtLeast(big, Contents(bins), j);
    TotalPermuted(big, All(Contents(bins)), All(packing));
    forall i | 0 <= i < |packing|
      ensures Total(big, packing[i]) <= 1
    {
      OneBigPerBin(packing[i], target);
    }
    TotalAtMost(big, packing, 1);
  }

  // Case B: from bin number j on there are only folders of at most half the target.

  /** Then all but the last bin hold two folders at least: the last bin's would have fitted beside a single one. */
  lemma TwoEach(bins: seq<Bin>, least: nat, target: Word, j: nat)
    requires Packed(bins, target) && Headed(bins, least) && 0 < j <= |bins| && 2 * bins[j - 1].folders[0].size <= target
    ensures forall i :: j - 1 <= i < |bins| - 1 ==> |bins[i].folders| >= 2
  {
    var last := |bins| - 1;
    forall i | j - 1 <= i < last
      ensures |bins[i].folders| >= 2
    {
      SingleTotal(bins[i].folders);
      assert 2 * bins[i].folders[0].size <= target && 2 * bins[last].folders[0].size <= target;
      assert bins[i].used + bins[last].folders[0].size > target;
    }
  }

  lemma SingleTotal(folders: seq<FolderInfo>)
    ensures |folders| == 1 ==> Total(SizeOf, folders) == folders[0].size
  {
    if |folders| == 1 {
      TotalWithout(SizeOf, folders, 0);
    }
  }

  lemma {:induction false} LengthOfAll(lists: seq<seq<FolderInfo>>)
    requires forall i :: 0 <= i < |lists| - 1 ==> |lists[i]| >= 2
    requires lists != [] ==> |lists[|lists| - 1]| >= 1
    ensures lists != [] ==> |All(lists)| >= 2 * |lists| - 1
  {
    if |lists| > 1 {
      LengthOfAll(lists[1..]);
    }
  }

  /** So the bins from number j on hold many folders. */
  lemma ManyLater(bins: seq<Bin>, least: nat, target: Word, j: nat)
    requires Packed(bins, target) && Headed(bins, least) && 0 < j <= |bins| && 2 * bins[j - 1].folders[0].size <= target
    ensures |All(Contents(bins)[j - 1..])| >= 2 * (|bins| - j) + 1
  {
    var later := Contents(bins)[j - 1..];
    TwoEach(bins, least, target, j);
    assert forall i :: 0 <= i < |later| ==> later[i] == bins[j - 1 + i].folders;
    LengthOfAll(later);
  }

  lemma {:induction false} InSomeBin(lists: seq<seq<FolderInfo>>, k: nat) returns (b: nat, c: nat)
    requires k < |All(lists)|
    ensures b < |lists| && c < |lists[b]| && lists[b][c] == All(lists)[k]
  {
    if k < |lists[0]| {
      b, c := 0, k;
    } else {
      b, c := InSomeBin(lists[1..], k - |lists[0]|);
      b := b + 1;
    }
  }

  /** `m` bins and `m` folders that fit into none of them together exceed m targets. */
  lemma {:induction false} PairedExcess(bins: seq<Bin>, later: seq<FolderInfo>, target: nat, m: nat)
    requires m <= |bins| && m <= |later|
    requires forall i :: 0 <= i < |bins| ==> bins[i].used == Total(SizeOf, bins[i].folders)
    requires forall i :: 0 <= i < m ==> bins[i].used + later[i].size > target
    ensures Total(SizeOf, All(Contents(bins)[..m])) + Total(SizeOf, later[..m]) >= m * (target + 1)
  {
    if m > 0 {
      PairedExcess(bins, later, target, m - 1);
      OneMoreTimes(m, target + 1);
      var cs := Contents(bins);
      assert cs[..m] == cs[..m - 1] + [cs[m - 1]] && later[..m] == later[..m - 1] + [later[m - 1]];
      AllAppend(cs[..m - 1], [cs[m - 1]]);
      assert [cs[m - 1]][1..] == [] && cs[m - 1] + [] == cs[m - 1];
      TotalAppend(SizeOf, All(cs[..m - 1]), cs[m - 1]);
      TotalSnoc(SizeOf, later[..m - 1], later[m - 1]);
    }
  }

  /** The first m bins and m folders of the later ones are a part of everything. */
  lemma PartOfAll(cs: seq<seq<FolderInfo>>, from: nat, m: nat)
    requires m <= from <= |cs| && m <= |All(cs[from..])|
    ensures Total(SizeOf, All(cs[..m])) + Total(SizeOf, All(cs[from..])[..m]) <= Total(SizeOf, All(cs))
  {
    var later := All(cs[from..]);
    assert cs == cs[..m] + cs[m..from] + cs[from..];
    AllAppend(cs[..m] + cs[m..from], cs[from..]);
    AllAppend(cs[..m], cs[m..from]);
    TotalAppend(SizeOf, All(cs[..m]) + All(cs[m..from]), later);
    TotalAppend(SizeOf, All(cs[..m]), All(cs[m..from]));
    assert later == later[..m] + later[m..];
    TotalAppend(SizeOf, later[..m], later[m..]);
  }

  lemma LaterDoNotFit(bins: seq<Bin>, target: Word, from: nat, m: nat)
    requires Packed(bins, target) && m <= from <= |bins| && m <= |All(Contents(bins)[from..])|
    ensures forall i :: 0 <= i < m ==> bins[i].used + All(Contents(bins)[from..])[i].size > target
  {
    forall i | 0 <= i < m
      ensures bins[i].used + All(Contents(bins)[from..])[i].size > target
    {
      var b, c := InSomeBin(Contents(bins)[from..], i);
      assert All(Contents(bins)[from..])[i] == bins[from + b].folders[c];
    }
  }

  lemma ManyTargets(n: nat, m: nat, target: nat, excess: nat, room: nat)
    requires 0 < m && excess == m * (target + 1) && room == n * target && excess <= room
    ensures n >= m + 1
  {
    assert m * (target + 1) == m * target + m;
    NoMoreTimes(n, m, target);
  }

  lemma NoMoreTimes(a: nat, b: nat, x: nat)
    ensures a <= b ==> a * x <= b * x
  {
  }

  lemma SomePacking(folders: seq<FolderInfo>, target: nat, packing: seq<seq<FolderInfo>>)
    requires folders != [] && ValidPacking(packing, folders, target)
    ensures packing != []
  {
    assert folders[0] in multiset(folders);
    assert folders[0] in All(packing);
  }

  lemma PairsExceed(bins: seq<Bin>, later: seq<FolderInfo>, target: Word, m: nat, excess: nat)
    requires m <= |bins| && m <= |later| && excess == m * (target + 1)
    requires forall i :: 0 <= i < |bins| ==> bins[i].used == Total(SizeOf, bins[i].folders)
    requires forall i :: 0 <= i < m ==> bins[i].used + later[i].size > target
    ensures Total(SizeOf, All(Contents(bins)[..m])) + Total(SizeOf, later[..m]) >= excess
  {
    PairedExcess(bins, later, target, m);
  }

  lemma ExceedsFrom(bins: seq<Bin>, target: Word, from: nat, m: nat, excess: nat)
    requires Packed(bins, target) && m <= from <= |bins| && m <= |All(Contents(bins)[from..])|
    requires excess == m * (target + 1)
    ensures Total(SizeOf, All(Contents(bins))) >= excess
  {
    LaterDoNotFit(bins, target, from, m);
    PairsExceed(bins, All(Contents(bins)[from..]), target, m, excess);
    PartOfAll(Contents(bins), from, m);
  }

  lemma ExceedsTargets(bins: seq<Bin>, least: nat, target: Word, j: nat, m: nat, excess: nat, placed: seq<FolderInfo>)
    requires Packed(bins, target) && Headed(bins, least) && 0 < j <= |bins| && 2 * bins[j - 1].folders[0].size <= target
    requires m <= j - 1 && m <= 2 * (|bins| - j) + 1 && excess == m * (target + 1) && placed == All(Contents(bins))
    ensures Total(SizeOf, placed) >= excess
  {
    ManyLater(bins, least, target, j);
    ExceedsFrom(bins, target, j - 1, m, excess);
  }

  lemma FillsAtMost(packing: seq<seq<FolderInfo>>, folders: seq<FolderInfo>, placed: seq<FolderInfo>, target: nat,
                    room: nat)
    requires multiset(placed) == multiset(folders) && ValidPacking(packing, folders, target)
    requires room == |packing| * target
    ensures Total(SizeOf, placed) <= room
  {
    TotalPermuted(SizeOf, placed, All(packing));
    TotalAtMost(SizeOf, packing, target);
  }

  lemma Times(a: nat, b: nat) returns (product: nat)
    ensures product == a * b
  {
    product := a * b;
  }

  /** What exceeds m targets takes more than m bins. */
  lemma EnoughBins(packing: seq<seq<FolderInfo>>, folders: seq<FolderInfo>, placed: seq<FolderInfo>, target: nat,
                   m: nat, excess: nat)
    requires multiset(placed) == multiset(folders) && ValidPacking(packing, folders, target)
    requires 0 < m && excess == m * (target + 1) && Total(SizeOf, placed) >= excess
    ensures |packing| >= m + 1
  {
    var room := Times(|packing|, target);
    FillsAtMost(packing, folders, placed, target, room);
    ManyTargets(|packing|, m, target, excess, room);
  }

  lemma SmallTail(bins: seq<Bin>, least: nat, folders: seq<FolderInfo>, target: Word, packing: seq<seq<FolderInfo>>,
                  j: nat, m: nat)
    requires Packed(bins, target) && Headed(bins, least) && 0 < j <= |bins| && 2 * bins[j - 1].folders[0].size <= target
    requires multiset(All(Contents(bins))) == multiset(folders) && ValidPacking(packing, folders, target)
    requires 0 < m <= j - 1 && m <= 2 * (|bins| - j) + 1
    ensures |packing| >= m + 1
  {
    var placed := All(Contents(bins));
    if |packing| <= m {
      var excess := Times(m, target + 1);
      ExceedsTargets(bins, least, target, j, m, excess, placed);
      EnoughBins(packing, folders, placed, target, m, excess);
    }
  }

  /** First fit decreasing needs at most 3/2 times the bins of any packing. */
  lemma ThreeHalves(folders: seq<FolderInfo>, target: Word, packing: seq<seq<FolderInfo>>)
    requires Descending(folders) && AllWithin(folders, target) && target < HALF_U64
    requires ValidPacking(packing, folders, target)
    ensures 2 * |Pack(folders, target)| <= 3 * |packing|
  {
    var bins := Pack(folders, target);
    var k := |bins|;
    PackPacks(folders, target);
    PackConserves(folders, target);
    if k == 0 {
    } else {
      SomePacking(folders, target, packing);
      var j := (2 * k + 2) / 3;
      var least := folders[|folders| - 1].size;
      PackHeaded(folders, target);
      if 2 * bins[j - 1].folders[0].size > target {
        BigHeads(bins, least, folders, target, packing, j);
      } else {
        var m := if j - 1 < 2 * (k - j) + 1 then j - 1 else 2 * (k - j) + 1;
        if m > 0 {
          SmallTail(bins, least, folders, target, packing, j, m);
        }
      }
    }
  }
}
