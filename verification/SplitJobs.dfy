/**
 The jobs of a split backup (the parts of CreateSplitJobs in gui/backup_analysis.go): folders too large for a bin go
 alone, the others are packed, and a root with files of its own gets a remainder job for them.
 */
module SplitJobs {
  import opened Lists
  import opened BinPacking
  import opened SplitPlans

  datatype SplitJob = SplitJob(index: nat, totalJobs: nat, folders: seq<string>, totalSize: Word, backupID: string,
                               parentID: string, excludeList: seq<string>)

  predicate Solo(folder: FolderInfo, binSize: Word) {
    folder.size > binSize || folder.accessDenied
  }

  /** The folders that go alone, or those that do not, in their order. */
  function Pick(folders: seq<FolderInfo>, binSize: Word, solo: bool): (picked: seq<FolderInfo>)
    ensures |picked| <= |folders|
    ensures forall f :: f in picked ==> f in folders && Solo(f, binSize) == solo
  {
    if folders == [] then []
    else
      var last := folders[|folders| - 1];
      Pick(folders[..|folders| - 1], binSize, solo) + (if Solo(last, binSize) == solo then [last] else [])
  }

  function Paths(folders: seq<FolderInfo>): (paths: seq<string>)
    ensures |paths| == |folders| && forall i :: 0 <= i < |folders| ==> paths[i] == folders[i].path
  {
    seq(|folders|, i requires 0 <= i < |folders| => folders[i].path)
  }

  /** The analysed folders directly below a root, in their order. */
  function Below(folders: seq<FolderInfo>, root: string, naming: Naming): (paths: seq<string>) {
    if folders == [] then []
    else
      var last := folders[|folders| - 1];
      Below(folders[..|folders| - 1], root, naming) +
      (if naming.cleanKey(naming.dir(last.path)) == naming.cleanKey(root) then [last.path] else [])
  }

  function SoloJob(folder: FolderInfo, naming: Naming, parentID: string): SplitJob {
    SplitJob(0, 0, [folder.path], folder.size, if folder.backupID == "" then naming.idOf(folder.path)
             else folder.backupID, parentID, [])
  }

  function PackedJob(bin: seq<FolderInfo>, i: nat, naming: Naming, parentPath: string, parentID: string): SplitJob {
    SplitJob(0, 0, Paths(bin), SumWrapped(bin), naming.binIdOf(parentPath, bin, i + 1), parentID, [])
  }

  function RemainderJob(root: string, folders: seq<FolderInfo>, naming: Naming, parentID: string): SplitJob {
    SplitJob(0, 0, [root], 0, naming.idOf(root) + "_rootfiles", parentID, Below(folders, root, naming))
  }

  function Numbered(jobs: seq<SplitJob>): (numbered: seq<SplitJob>)
    ensures |numbered| == |jobs|
    ensures forall i :: 0 <= i < |jobs| ==> numbered[i] == jobs[i].(index := i + 1, totalJobs := |jobs|)
  {
    seq(|jobs|, i requires 0 <= i < |jobs| => jobs[i].(index := i + 1, totalJobs := |jobs|))
  }

  function SoloJobs(folders: seq<FolderInfo>, naming: Naming, parentID: string): (jobs: seq<SplitJob>)
    ensures |jobs| == |folders| && forall i :: 0 <= i < |jobs| ==> jobs[i] == SoloJob(folders[i], naming, parentID)
  {
    seq(|folders|, i requires 0 <= i < |folders| => SoloJob(folders[i], naming, parentID))
  }

  function PackedJobs(bins: seq<seq<FolderInfo>>, naming: Naming, parentPath: string,
                      parentID: string): (jobs: seq<SplitJob>)
    ensures |jobs| == |bins| && forall i :: 0 <= i < |jobs| ==>
              jobs[i] == PackedJob(bins[i], i, naming, parentPath, parentID)
  {
    seq(|bins|, i requires 0 <= i < |bins| => PackedJob(bins[i], i, naming, parentPath, parentID))
  }

  function RemainderJobs(roots: seq<string>, folders: seq<FolderInfo>, naming: Naming,
                         parentID: string): (jobs: seq<SplitJob>)
    ensures |jobs| == |roots| && forall i :: 0 <= i < |jobs| ==>
              jobs[i] == RemainderJob(roots[i], folders, naming, parentID)
  {
    seq(|roots|, i requires 0 <= i < |roots| => RemainderJob(roots[i], folders, naming, parentID))
  }

  function ParentPath(folders: seq<FolderInfo>, naming: Naming): string {
    if folders == [] then "" else naming.dir(folders[0].path)
  }

  function Bins(folders: seq<FolderInfo>, binSize: Word): seq<seq<FolderInfo>> {
    Contents(Pack(Pick(folders, binSize, false), binSize))
  }

  /** The plan of a split. */
  function Plan(folders: seq<FolderInfo>, roots: seq<string>, binSize: Word, naming: Naming,
                parentID: string): seq<SplitJob>
  {
    Numbered(SoloJobs(Pick(folders, binSize, true), naming, parentID)
             + PackedJobs(Bins(folders, binSize), naming, ParentPath(folders, naming), parentID)
             + RemainderJobs(roots, folders, naming, parentID))
  }

  function WholeJob(folders: seq<FolderInfo>, totalSize: Word, parentID: string): SplitJob {
    SplitJob(1, 1, Paths(folders), totalSize, parentID, parentID, [])
  }

  const BIN_TARGET_SIZE: Word := DEFAULT_SPLIT_SIZE_GB * GIB

  /** A remainder job for each root that has files of its own. */
  method AddRemainders(start: seq<SplitJob>, roots: seq<string>, folders: seq<FolderInfo>, naming: Naming,
                       parentID: string)
    returns (jobs: seq<SplitJob>)
    ensures jobs == start + RemainderJobs(roots, folders, naming, parentID)
  {
    var added: seq<SplitJob> := [];
    var i := 0;
    while i < |roots|
      invariant i <= |roots| && added == RemainderJobs(roots, folders, naming, parentID)[..i]
    {
      var subExcludes := Excludes(folders, roots[i], naming);
      added := added + [SplitJob(0, 0, [roots[i]], 0, naming.idOf(roots[i]) + "_rootfiles", parentID, subExcludes)];
      i := i + 1;
    }
    jobs := start + added;
  }

  method Excludes(folders: seq<FolderInfo>, root: string, naming: Naming) returns (paths: seq<string>)
    ensures paths == Below(folders, root, naming)
  {
    paths := [];
    var rootKey := naming.cleanKey(root);
    var n := 0;
    while n < |folders|
      invariant n <= |folders| && paths == Below(folders[..n], root, naming)
    {
      assert folders[..n + 1][..n] == folders[..n];
      if naming.cleanKey(naming.dir(folders[n].path)) == rootKey {
        paths := paths + [folders[n].path];
      }
      n := n + 1;
    }
    assert folders[..n] == folders;
  }

  method Number(unnumbered: seq<SplitJob>) returns (jobs: seq<SplitJob>)
    ensures jobs == Numbered(unnumbered)
  {
    jobs := unnumbered;
    var i := 0;
    while i < |jobs|
      invariant i <= |jobs| == |unnumbered|
      invariant forall k :: 0 <= k < |jobs| ==> jobs[k] == if k < i then Numbered(unnumbered)[k] else unnumbered[k]
    {
      jobs := jobs[i := jobs[i].(index := i + 1, totalJobs := |jobs|)];
      i := i + 1;
    }
  }

  ghost predicate Separated(folders: seq<FolderInfo>, binSize: Word, solo: seq<FolderInfo>, packable: seq<FolderInfo>) {
    solo == Pick(folders, binSize, true) && packable == Pick(folders, binSize, false)
  }

  lemma SeparateOne(folders: seq<FolderInfo>, folder: FolderInfo, binSize: Word, solo: seq<FolderInfo>,
                    packable: seq<FolderInfo>)
    requires Separated(folders, binSize, solo, packable)
    ensures if Solo(folder, binSize) then Separated(folders + [folder], binSize, solo + [folder], packable)
            else Separated(folders + [folder], binSize, solo, packable + [folder])
  {
    PickSnoc(folders, folder, binSize, true);
    PickSnoc(folders, folder, binSize, false);
  }

  method Separate(folders: seq<FolderInfo>, binSize: Word) returns (solo: seq<FolderInfo>, packable: seq<FolderInfo>)
    ensures solo == Pick(folders, binSize, true) && packable == Pick(folders, binSize, false)
  {
    solo, packable := [], [];
    var n := 0;
    while n < |folders|
      invariant n <= |folders| && Separated(folders[..n], binSize, solo, packable)
    {
      SeparateOne(folders[..n], folders[n], binSize, solo, packable);
      assert folders[..n + 1] == folders[..n] + [folders[n]];
      if folders[n].size > binSize || folders[n].accessDenied {
        solo := solo + [folders[n]];
      } else {
        packable := packable + [folders[n]];
      }
      n := n + 1;
    }
    assert folders[..n] == folders;
  }

  lemma PickSnoc(folders: seq<FolderInfo>, folder: FolderInfo, binSize: Word, solo: bool)
    ensures Pick(folders + [folder], binSize, solo) ==
            if Solo(folder, binSize) == solo then Pick(folders, binSize, solo) + [folder]
              else Pick(folders, binSize, solo)
  {
    assert (folders + [folder])[..|folders|] == folders;
  }

  lemma OneMore(a: seq<FolderInfo>, b: seq<FolderInfo>, all: seq<FolderInfo>, folder: FolderInfo)
    requires multiset(a) + multiset(b) == multiset(all)
    ensures multiset(a + [folder]) + multiset(b) == multiset(all + [folder])
    ensures multiset(a) + multiset(b + [folder]) == multiset(all + [folder])
  {
  }

  /** Nothing is lost between the two kinds. */
  ghost predicate PicksAll(folders: seq<FolderInfo>, binSize: Word) {
    multiset(Pick(folders, binSize, true)) + multiset(Pick(folders, binSize, false)) == multiset(folders)
  }

  lemma PicksOneMore(folders: seq<FolderInfo>, folder: FolderInfo, binSize: Word)
    requires PicksAll(folders, binSize)
    ensures PicksAll(folders + [folder], binSize)
  {
    var solo, others := Pick(folders, binSize, true), Pick(folders, binSize, false);
    OneMore(solo, others, folders, folder);
    SeparateOne(folders, folder, binSize, solo, others);
  }

  lemma {:induction false} PickAll(folders: seq<FolderInfo>, binSize: Word)
    ensures PicksAll(folders, binSize)
  {
    if folders != [] {
      var n := |folders| - 1;
      PickAll(folders[..n], binSize);
      PicksOneMore(folders[..n], folders[n], binSize);
      FrontAndLast(folders);
    }
  }

  /** Each kind holds every folder of its kind as often as it was found, and no other. */
  lemma {:induction false} PickExactly(folders: seq<FolderInfo>, binSize: Word, folder: FolderInfo)
    ensures var alone := folder.size > binSize || folder.accessDenied;
            && multiset(Pick(folders, binSize, true))[folder] == (if alone then multiset(folders)[folder] else 0)
            && multiset(Pick(folders, binSize, false))[folder] == (if alone then 0 else multiset(folders)[folder])
  {
    if folders != [] {
      var n := |folders| - 1;
      PickExactly(folders[..n], binSize, folder);
      FrontAndLast(folders);
      MultisetOfSum(folders[..n], [folders[n]]);
    }
  }

  /** Both kinds keep the order of the folders. */
  lemma {:induction false} PickInOrder(a: seq<FolderInfo>, b: seq<FolderInfo>, binSize: Word, solo: bool)
    ensures Pick(a + b, binSize, solo) == Pick(a, binSize, solo) + Pick(b, binSize, solo)
    decreases |b|
  {
    if b == [] {
      assert a + b == a;
    } else {
      var n := |b| - 1;
      FrontAndLast(b);
      assert a + b == (a + b[..n]) + [b[n]];
      PickInOrder(a, b[..n], binSize, solo);
      PickSnoc(a + b[..n], b[n], binSize, solo);
      SumOfThree(Pick(a, binSize, solo), Pick(b[..n], binSize, solo),
                 if Solo(b[n], binSize) == solo then [b[n]] else []);
    }
  }
}
