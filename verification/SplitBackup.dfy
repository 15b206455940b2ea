/** Planning the jobs of a backup (CreateSplitJobs in gui/backup_analysis.go), split or not. */
module SplitBackups {
  import opened BinPacking
  import opened SplitPlans
  import opened SplitJobs
  import opened SplitCoverage

  /** The jobs from the first one on hold one folder each, in this order. */
  ghost predicate Alone(jobs: seq<SplitJob>, solo: seq<FolderInfo>, naming: Naming, parentID: string) {
    |solo| <= |jobs| && forall i :: 0 <= i < |solo| ==>
      && jobs[i].folders == [solo[i].path] && jobs[i].totalSize == solo[i].size
      && jobs[i].backupID == (if solo[i].backupID != "" then solo[i].backupID else naming.idOf(solo[i].path))
      && jobs[i].parentID == parentID && jobs[i].excludeList == []
  }

  /** The jobs from number `from` on hold one bin each. */
  ghost predicate Together(jobs: seq<SplitJob>, from: nat, bins: seq<seq<FolderInfo>>, top: string, naming: Naming,
                           parentID: string)
  {
    from + |bins| <= |jobs| && forall b :: 0 <= b < |bins| ==>
      && jobs[from + b].folders == Paths(bins[b]) && jobs[from + b].totalSize == Total(SizeOf, bins[b]) % U64
      && jobs[from + b].backupID == naming.binIdOf(top, bins[b], b + 1)
      && jobs[from + b].parentID == parentID && jobs[from + b].excludeList == []
  }

  lemma AloneInPlan(solo: seq<FolderInfo>, rest: seq<SplitJob>, naming: Naming, parentID: string)
    ensures Alone(Numbered(SoloJobs(solo, naming, parentID) + rest), solo, naming, parentID)
  {
  }

  lemma TogetherInPlan(before: seq<SplitJob>, bins: seq<seq<FolderInfo>>, after: seq<SplitJob>, top: string,
                       naming: Naming, parentID: string)
    ensures Together(Numbered(before + PackedJobs(bins, naming, top, parentID) + after), |before|, bins, top, naming,
                     parentID)
  {
  }

  lemma PlanSpelledOut(folders: seq<FolderInfo>, roots: seq<string>, binSize: Word, naming: Naming, parentID: string)
    requires folders != []
    ensures var jobs, solo := Plan(folders, roots, binSize, naming, parentID), Pick(folders, binSize, true);
            && Alone(jobs, solo, naming, parentID)
            && Together(jobs, |solo|, Bins(folders, binSize), naming.dir(folders[0].path), naming, parentID)
            && |jobs| == |solo| + |Bins(folders, binSize)| + |roots|
  {
    var alone := SoloJobs(Pick(folders, binSize, true), naming, parentID);
    var packed := PackedJobs(Bins(folders, binSize), naming, ParentPath(folders, naming), parentID);
    var remainders := RemainderJobs(roots, folders, naming, parentID);
    assert alone + packed + remainders == alone + (packed + remainders);
    AloneInPlan(Pick(folders, binSize, true), packed + remainders, naming, parentID);
    TogetherInPlan(alone, Bins(folders, binSize), remainders, ParentPath(folders, naming), naming, parentID);
  }

  ghost predicate DirectlyBelow(folders: seq<FolderInfo>, path: string, root: string, naming: Naming) {
    exists f :: f in folders && f.path == path && naming.cleanKey(naming.dir(path)) == naming.cleanKey(root)
  }

  /** A job for a root's own files: the root without the folders directly below it. */
  ghost predicate Remainder(job: SplitJob, root: string, folders: seq<FolderInfo>, naming: Naming, parentID: string) {
    && job.folders == [root] && job.totalSize == 0 && job.parentID == parentID
    && job.backupID == naming.idOf(root) + "_rootfiles"
    && forall path :: path in job.excludeList <==> DirectlyBelow(folders, path, root, naming)
  }

  /** The jobs from number `from` on are for the roots' own files. */
  ghost predicate Remaining(jobs: seq<SplitJob>, from: nat, roots: seq<string>, folders: seq<FolderInfo>,
                            naming: Naming, parentID: string)
  {
    from + |roots| <= |jobs| &&
    forall r :: 0 <= r < |roots| ==> Remainder(jobs[from + r], roots[r], folders, naming, parentID)
  }

  lemma OneRemains(job: SplitJob, folders: seq<FolderInfo>, roots: seq<string>, binSize: Word, naming: Naming,
                   parentID: string, r: nat)
    requires r < |roots|
    requires job == Plan(folders, roots, binSize, naming, parentID)[Covering(folders, binSize) + r]
    ensures Remainder(job, roots[r], folders, naming, parentID)
  {
    forall path: string
      ensures job.folders == [roots[r]] && job.totalSize == 0 && job.parentID == parentID
      ensures job.backupID == naming.idOf(roots[r]) + "_rootfiles"
      ensures path in job.excludeList <==> DirectlyBelow(folders, path, roots[r], naming)
    {
      RemaindersExact(folders, roots, binSize, naming, parentID, r, path);
    }
    RemaindersExact(folders, roots, binSize, naming, parentID, r, "");
  }

  lemma PlanRemains(folders: seq<FolderInfo>, roots: seq<string>, binSize: Word, naming: Naming, parentID: string)
    ensures Remaining(Plan(folders, roots, binSize, naming, parentID), Covering(folders, binSize), roots, folders,
                      naming, parentID)
  {
    var jobs, n := Plan(folders, roots, binSize, naming, parentID), Covering(folders, binSize);
    forall r | 0 <= r < |roots|
      ensures Remainder(jobs[n + r], roots[r], folders, naming, parentID)
    {
      OneRemains(jobs[n + r], folders, roots, binSize, naming, parentID, r);
    }
  }

  /** Which folders go alone, and which are packed. */
  ghost predicate Chosen(folders: seq<FolderInfo>, binSize: Word, solo: seq<FolderInfo>, packed: seq<FolderInfo>) {
    forall f :: && multiset(solo)[f] == (if f.size > binSize || f.accessDenied then multiset(folders)[f] else 0)
                && multiset(packed)[f] == (if f.size > binSize || f.accessDenied then 0 else multiset(folders)[f])
  }

  lemma PlanChooses(folders: seq<FolderInfo>, binSize: Word)
    ensures Chosen(folders, binSize, Pick(folders, binSize, true), All(Bins(folders, binSize)))
  {
    PackConserves(Pick(folders, binSize, false), binSize);
    forall f: FolderInfo
      ensures var alone := f.size > binSize || f.accessDenied;
              && multiset(Pick(folders, binSize, true))[f] == (if alone then multiset(folders)[f] else 0)
              && multiset(Pick(folders, binSize, false))[f] == (if alone then 0 else multiset(folders)[f])
    {
      PickExactly(folders, binSize, f);
    }
  }

  /** One job for everything. */
  ghost predicate Undivided(jobs: seq<SplitJob>, folders: seq<FolderInfo>, totalSize: Word, parentID: string) {
    && |jobs| == 1 && jobs[0].index == 1 && jobs[0].totalJobs == 1
    && jobs[0].folders == Paths(folders) && jobs[0].excludeList == [] && jobs[0].totalSize == totalSize
    && jobs[0].backupID == parentID && jobs[0].parentID == parentID
  }

  /** Large folders one by one, the others packed, the roots' own files last; or there is nothing to do. */
  method Divide(folders: seq<FolderInfo>, roots: seq<string>, binSize: Word, naming: Naming, parentID: string)
    returns (nothing: bool, jobs: seq<SplitJob>, ghost solo: seq<FolderInfo>, ghost bins: seq<seq<FolderInfo>>)
    ensures nothing <==> folders == []
    ensures !nothing ==>
              && jobs == Plan(folders, roots, binSize, naming, parentID)
              && solo == Pick(folders, binSize, true) && bins == Bins(folders, binSize)
  {
    var parentPath := ParentPath(folders, naming);
    var large, packable := Separate(folders, binSize);
    PickAll(folders, binSize);
    assert folders == [] || folders[0] in multiset(large) + multiset(packable);
    nothing, jobs, solo, bins := large == [] && packable == [], [], [], [];
    if !nothing {
      jobs := SoloJobs(large, naming, parentID);
      var packed := BinPackFolders(packable, binSize);
      jobs := jobs + PackedJobs(packed, naming, parentPath, parentID);
      jobs := AddRemainders(jobs, roots, folders, naming, parentID);
      jobs := Number(jobs);
      solo, bins := large, packed;
    }
  }

  /** What a split promises: the plan, said job by job. */
  ghost predicate Divided(jobs: seq<SplitJob>, covering: nat, folders: seq<FolderInfo>, roots: seq<string>,
                          binSize: Word, naming: Naming, parentID: string, solo: seq<FolderInfo>,
                          bins: seq<seq<FolderInfo>>)
  {
    && folders != [] && covering == |solo| + |bins| && |jobs| == covering + |roots|
    && Chosen(folders, binSize, solo, All(bins))
    && Alone(jobs, solo, naming, parentID)
    && Together(jobs, |solo|, bins, naming.dir(folders[0].path), naming, parentID)
    && Remaining(jobs, covering, roots, folders, naming, parentID)
  }

  /** Every folder is in exactly one of the jobs before those for the roots' own files. */
  ghost predicate Covers(jobs: seq<SplitJob>, covering: nat, folders: seq<FolderInfo>) {
    covering <= |jobs| && multiset(FoldersOf(jobs[..covering])) == multiset(Paths(folders))
  }

  lemma UndividedCovers(jobs: seq<SplitJob>, folders: seq<FolderInfo>, totalSize: Word, parentID: string)
    requires Undivided(jobs, folders, totalSize, parentID)
    ensures Covers(jobs, 1, folders)
  {
    assert FoldersOf(jobs[..1]) == Paths(folders);
  }

  lemma PlanDivides(folders: seq<FolderInfo>, roots: seq<string>, binSize: Word, naming: Naming, parentID: string)
    requires folders != []
    ensures var jobs, n := Plan(folders, roots, binSize, naming, parentID), Covering(folders, binSize);
            && Covers(jobs, n, folders)
            && Divided(jobs, n, folders, roots, binSize, naming, parentID, Pick(folders, binSize, true),
                       Bins(folders, binSize))
  {
    EveryFolderOnce(folders, roots, binSize, naming, parentID);
    PlanSpelledOut(folders, roots, binSize, naming, parentID);
    PlanChooses(folders, binSize);
    PlanRemains(folders, roots, binSize, naming, parentID);
  }

  /**
   Every folder is in exactly one of the first `covering` jobs; those after them are for the roots' own files. In a
   split `solo` are the folders that get a job each, and `bins` those of the jobs after them.
   */
  method CreateSplitJobs(analysis: BackupAnalysis, parentID: string, naming: Naming, size: Word)
    returns (jobs: seq<SplitJob>, ghost covering: nat, ghost solo: seq<FolderInfo>, ghost bins: seq<seq<FolderInfo>>)
    ensures Covers(jobs, covering, analysis.folders)
    ensures !analysis.shouldSplit || analysis.folders == [] ==>
              covering == 1 && Undivided(jobs, analysis.folders, analysis.totalSize, parentID)
    ensures analysis.shouldSplit && analysis.folders != [] ==>
              var binSize: Word := if size == 0 then 150 * 1024 * 1024 * 1024 else size;
              && bins == Bins(analysis.folders, binSize)
              && Divided(jobs, covering, analysis.folders, analysis.rootsWithFiles, binSize, naming, parentID, solo,
                         bins)
              && jobs == Plan(analysis.folders, analysis.rootsWithFiles, binSize, naming, parentID)
  {
    var binSize: Word := if size == 0 then BIN_TARGET_SIZE else size;
    covering, solo, bins := 1, [], [];
    var nothing := true;
    if analysis.shouldSplit {
      nothing, jobs, solo, bins := Divide(analysis.folders, analysis.rootsWithFiles, binSize, naming, parentID);
    }
    if nothing {
      jobs := [WholeJob(analysis.folders, analysis.totalSize, parentID)];
      UndividedCovers(jobs, analysis.folders, analysis.totalSize, parentID);
    } else {
      covering := Covering(analysis.folders, binSize);
      PlanDivides(analysis.folders, analysis.rootsWithFiles, binSize, naming, parentID);
    }
  }
}
