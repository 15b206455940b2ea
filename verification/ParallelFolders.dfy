/**
 Several folders in one run (RunBackup and runFoldersParallel in gui/backup_inline.go). The main loop starts
 folders under a semaphore; each folder merges its result into the aggregate under a mutex and then gives its
 slot back. RunAll lets the main loop and the folders take their steps in any order.
 */
module ParallelFolders {
  import opened Options
  import opened Lists
  import opened Outcomes
  import opened Aggregates
  import opened StopButtons

  /**
   What backing up one folder leaves behind: its result, unless it was cancelled, and whether it returned an error.
   */
  datatype FolderResult = FolderResult(status: Option<Summary>, failed: bool)

  ghost predicate Honest(r: FolderResult) {
    !r.failed <==> r.status.Some? && Success(r.status.value.outcome)
  }

  datatype FolderError = FolderFailed(folder: nat) | NotBackedUp(folders: nat) | ReleaseFailed

  /** What is merged for a folder: an error without a result counts as a failure with nothing in it. */
  function Part(r: FolderResult): Summary {
    match r.status
    case Some(s) => s
    case None => NothingYet(Failed)
  }

  /** The results of some folders, in the order in which they came in. */
  function Parts(order: seq<nat>, results: seq<FolderResult>): (parts: seq<Summary>)
    requires forall k :: 0 <= k < |order| ==> order[k] < |results|
    ensures |parts| == |order| && forall k :: 0 <= k < |order| ==> parts[k] == Part(results[order[k]])
  {
    seq(|order|, k requires 0 <= k < |order| => Part(results[order[k]]))
  }

  /** Their errors, in no order. */
  function ErrorsOf(order: seq<nat>, results: seq<FolderResult>): multiset<FolderError>
    requires forall k :: 0 <= k < |order| ==> order[k] < |results|
  {
    if order == [] then multiset{}
    else
      var last := order[|order| - 1];
      ErrorsOf(order[..|order| - 1], results) +
      if results[last].failed then multiset{FolderFailed(last)} else multiset{}
  }

  function Upto(n: nat): (s: seq<nat>)
    ensures |s| == n && forall k :: 0 <= k < n ==> s[k] == k
  {
    seq(n, k => k)
  }

  function Numbers(n: nat): (s: set<nat>)
    ensures forall i: nat :: i in s <==> i < n
  {
    if n == 0 then {} else Numbers(n - 1) + {n - 1}
  }

  lemma {:induction false} NumbersOnce(n: nat)
    ensures multiset(Upto(n)) == multiset(Numbers(n))
  {
    if n > 0 {
      NumbersOnce(n - 1);
      assert Upto(n) == Upto(n - 1) + [n - 1];
    }
  }

  lemma WithoutOneFolder(order: seq<nat>, results: seq<FolderResult>, k: nat)
    requires forall j :: 0 <= j < |order| ==> order[j] < |results|
    requires k < |order|
    ensures multiset(Parts(order, results)) ==
            multiset(Parts(order[..k] + order[k + 1..], results)) + multiset{Part(results[order[k]])}
  {
    var parts, less := Parts(order, results), Parts(order[..k] + order[k + 1..], results);
    assert less == parts[..k] + parts[k + 1..];
    WithoutOne(parts, k);
    assert parts[k] in multiset(parts);
  }

  lemma WithoutFirstFolder(order: seq<nat>, results: seq<FolderResult>)
    requires forall j :: 0 <= j < |order| ==> order[j] < |results|
    requires order != []
    ensures multiset(Parts(order, results)) == multiset(Parts(order[1..], results)) + multiset{Part(results[order[0]])}
  {
    var parts := Parts(order, results);
    HeadAndTail(parts);
    MultisetOfSum([parts[0]], parts[1..]);
    assert parts[1..] == Parts(order[1..], results);
  }

  lemma {:induction false} SamePartsInAnyOrder(order: seq<nat>, other: seq<nat>, results: seq<FolderResult>)
    requires multiset(order) == multiset(other)
    requires forall k :: 0 <= k < |order| ==> order[k] < |results|
    requires forall k :: 0 <= k < |other| ==> other[k] < |results|
    ensures multiset(Parts(order, results)) == multiset(Parts(other, results))
    decreases |order|
  {
    SameLength(order, other);
    if order != [] {
      var k := HeadElsewhere(order, other);
      var rest, less := order[1..], other[..k] + other[k + 1..];
      assert forall j :: 0 <= j < |less| ==> less[j] == if j < k then other[j] else other[j + 1];
      SamePartsInAnyOrder(rest, less, results);
      WithoutFirstFolder(order, results);
      WithoutOneFolder(other, results, k);
    }
  }

  lemma {:induction false} ErrorsOfSome(order: seq<nat>, results: seq<FolderResult>)
    requires forall k :: 0 <= k < |order| ==> order[k] < |results|
    ensures ErrorsOf(order, results) == multiset{} <==> forall k :: 0 <= k < |order| ==> !results[order[k]].failed
  {
    if order != [] {
      var n := |order| - 1;
      ErrorsOfSome(order[..n], results);
      assert forall k :: 0 <= k < n ==> order[..n][k] == order[k];
      if results[order[n]].failed {
        assert FolderFailed(order[n]) in ErrorsOf(order, results);
      }
    }
  }

  /** The order in which a batch's folders came in leaves no trace in the aggregate, but for the order of its lists. */
  lemma OrderIrrelevant(order: seq<nat>, results: seq<FolderResult>, n: nat)
    requires n <= |results| && multiset(order) == multiset(Numbers(n))
    ensures forall k :: 0 <= k < |order| ==> order[k] < n
    ensures var start := NothingYet(VerifiedSuccess);
            TallyOf(MergeAll(start, Parts(order, results))) == TallyOf(MergeAll(start, Parts(Upto(n), results)))
  {
    forall k | 0 <= k < |order|
      ensures order[k] < n
    {
      assert order[k] in multiset(order);
    }
    NumbersOnce(n);
    SamePartsInAnyOrder(order, Upto(n), results);
    MergeOrderIrrelevant(NothingYet(VerifiedSuccess), Parts(order, results), Parts(Upto(n), results));
  }

  const CLEAN := NothingYet(VerifiedSuccess)

  /** What has been collected once the folders in `order` have come in and `skipped` folders were given up. */
  ghost predicate Collected(agg: Summary, errors: seq<FolderError>, order: seq<nat>, results: seq<FolderResult>,
                            skipped: nat)
  {
    && (forall k :: 0 <= k < |order| ==> order[k] < |results|)
    && agg == MergeAll(CLEAN, Parts(order, results))
    && multiset(errors) == ErrorsOf(order, results) +
       (if skipped > 0 then multiset{NotBackedUp(skipped)} else multiset{})
  }

  lemma CollectMore(agg: Summary, errors: seq<FolderError>, order: seq<nat>, results: seq<FolderResult>, skipped: nat,
                    i: nat)
    requires Collected(agg, errors, order, results, skipped) && i < |results|
    ensures Collected(Combine(agg, Part(results[i])), if results[i].failed then errors + [FolderFailed(i)] else errors,
                      order + [i], results, skipped)
  {
    MergeAllSnoc(CLEAN, Parts(order, results), Part(results[i]));
    assert Parts(order + [i], results) == Parts(order, results) + [Part(results[i])];
    assert (order + [i])[..|order|] == order;
  }

  lemma CollectSkipped(agg: Summary, errors: seq<FolderError>, order: seq<nat>, results: seq<FolderResult>,
                       skipped: nat)
    requires Collected(agg, errors, order, results, 0)
    ensures Collected(agg, errors + (if skipped > 0 then [NotBackedUp(skipped)] else []), order, results, skipped)
  {
  }

  ghost predicate Distinct(order: seq<nat>) {
    forall j, k :: 0 <= j < k < |order| ==> order[j] != order[k]
  }

  lemma {:induction false} DistinctMultiset(order: seq<nat>, folders: set<nat>)
    requires Distinct(order) && forall i :: i in folders <==> i in order
    ensures multiset(order) == multiset(folders)
  {
    if order == [] {
      assert folders == {};
    } else {
      var n := |order| - 1;
      assert order == order[..n] + [order[n]];
      DistinctMultiset(order[..n], folders - {order[n]});
      assert folders == folders - {order[n]} + {order[n]};
    }
  }

  /**
   Where the goroutines of a batch are: started is how far the main loop got, holding whether it has a slot in hand.
   */
  datatype Progress = Progress(started: nat, slots: nat, holding: bool, over: bool, running: set<nat>,
                               merged: set<nat>) {

    /** The semaphore counts the folders that have not given their slot back, and the slot the main loop holds. */
    ghost predicate Counted(folders: nat, parallel: nat) {
      && started <= folders && slots <= parallel
      && (holding ==> !over && started < folders)
      && running !! merged
      && (forall i :: i in running ==> i < started)
      && (forall i :: i in merged ==> i < started)
      && slots == |running| + |merged| + (if holding then 1 else 0)
    }

    /** A folder that was running has come in. */
    function Merged(i: nat): Progress {
      this.(running := running - {i}, merged := merged + {i})
    }

    /** How many steps are left before everything is done. */
    ghost function StepsLeft(folders: nat): int {
      4 * (folders - started) + 2 * |running| + |merged| + (if over then 0 else 2) - (if holding then 1 else 0)
    }

    /** The folders started came in once each, except those still running. */
    ghost predicate Covers(order: seq<nat>) {
      Distinct(order) && forall i: nat :: i in order <==> i < started && i !in running
    }
  }

  lemma LaunchCounts(p: Progress, folders: nat, parallel: nat, order: seq<nat>)
    requires p.Counted(folders, parallel) && p.holding && p.Covers(order)
    ensures var next := p.(holding := false, running := p.running + {p.started}, started := p.started + 1);
            next.Counted(folders, parallel) && next.Covers(order) && next.StepsLeft(folders) < p.StepsLeft(folders)
  {
    assert p.started !in p.running;
  }

  lemma MergeCounts(p: Progress, folders: nat, parallel: nat, order: seq<nat>, i: nat)
    requires p.Counted(folders, parallel) && i in p.running && p.Covers(order)
    ensures p.Merged(i).Counted(folders, parallel) && p.Merged(i).Covers(order + [i])
    ensures p.Merged(i).StepsLeft(folders) < p.StepsLeft(folders)
  {
    assert i !in p.merged;
    var next := order + [i];
    assert forall j :: j in next <==> j in order || j == i;
  }

  /** One batch: `results` says what each folder will come to if it is started, which nobody knows before. */
  class Batch {
    const results: seq<FolderResult>
    const agg: BackupStatus
    var errors: seq<FolderError>
    var progress: Progress
    ghost var order: seq<nat>
    ghost var skipped: nat
    ghost var capacity: nat
    ghost var peak: nat

    ghost predicate Collecting()
      reads this`errors, this`order, this`skipped, agg
    {
      Collected(agg.Told(), errors, order, results, skipped)
    }

    ghost predicate Valid(parallel: nat)
      reads this, agg
    {
      && progress.Counted(|results|, parallel) && progress.Covers(order)
      && Collecting()
      && progress.slots <= peak <= parallel
      && skipped == if progress.over then |results| - progress.started else 0
    }

    constructor (results: seq<FolderResult>, agg: BackupStatus)
      requires agg.Told() == CLEAN
      ensures this.results == results && this.agg == agg && forall parallel :: Valid(parallel)
      ensures progress == Progress(0, 0, false, false, {}, {})
    {
      this.results, this.agg := results, agg;
      errors, progress := [], Progress(0, 0, false, false, {}, {});
      order, skipped, capacity, peak := [], 0, 0, 0;
    }

    /** The folders not started were not backed up, which is an error of its own. */
    method GiveUp(folders: nat)
      requires Collecting() && skipped == 0 < folders
      modifies this`errors, this`skipped
      ensures Collecting() && skipped == folders
    {
      CollectSkipped(agg.Told(), errors, order, results, folders);
      errors := errors + [NotBackedUp(folders)];
      skipped := folders;
    }

    /** With a slot in hand the main loop looks at the stop button, then starts the next folder or gives up the rest. */
    method Launch(ghost parallel: nat, stop: StopButton)
      requires Valid(parallel) && progress.holding && stop.Valid()
      modifies this`progress, this`errors, this`skipped, stop
      ensures Valid(parallel) && stop.Valid()
      ensures var p := old(progress);
              progress == if stop.seen then p.(holding := false, slots := p.slots - 1, over := true)
                          else p.(holding := false, running := p.running + {p.started}, started := p.started + 1)
      ensures progress.StepsLeft(|results|) < old(progress).StepsLeft(|results|)
    {
      var stopped := stop.Poll();
      if stopped {
        GiveUpRest(parallel);
      } else {
        StartNext(parallel);
      }
    }

    method GiveUpRest(ghost parallel: nat)
      requires Valid(parallel) && progress.holding
      modifies this`progress, this`errors, this`skipped
      ensures Valid(parallel)
      ensures progress == old(progress).(holding := false, slots := old(progress).slots - 1, over := true)
    {
      GiveUp(|results| - progress.started);
      progress := progress.(holding := false, slots := progress.slots - 1, over := true);
    }

    method StartNext(ghost parallel: nat)
      requires Valid(parallel) && progress.holding
      modifies this`progress
      ensures Valid(parallel)
      ensures var p := old(progress);
              progress == p.(holding := false, running := p.running + {p.started}, started := p.started + 1)
      ensures progress.StepsLeft(|results|) < old(progress).StepsLeft(|results|)
    {
      LaunchCounts(progress, |results|, parallel, order);
      progress := progress.(holding := false, running := progress.running + {progress.started},
                            started := progress.started + 1);
    }

    /** What a folder adds to the aggregate; one without a result, cancelled or crashed, makes it a failure. */
    method Join(r: FolderResult)
      requires Honest(r)
      modifies agg
      ensures agg.Told() == Combine(old(agg.Told()), Part(r))
    {
      if r.status.Some? {
        var child := new BackupStatus(r.status.value);
        agg.Merge(child);
      } else if r.failed {
        ghost var t := agg.Told();
        assert t.directories + [] == t.directories && t.excluded + [] == t.excluded;
        assert t.skipped + [] == t.skipped && t.corrupted + [] == t.corrupted;
        agg.outcome := Failed;
      }
    }

    method Collect(i: nat)
      requires Collecting() && i < |results| && Honest(results[i])
      modifies this`errors, this`order, agg
      ensures Collecting() && order == old(order) + [i]
    {
      CollectMore(agg.Told(), errors, order, results, skipped, i);
      Join(results[i]);
      errors := if results[i].failed then errors + [FolderFailed(i)] else errors;
      order := order + [i];
    }

    /** A folder is done and has the mutex: its result joins the aggregate. */
    method MergeResult(ghost parallel: nat, i: nat)
      requires Valid(parallel) && i in progress.running && i < |results| && Honest(results[i])
      modifies this`progress, this`errors, this`order, agg
      ensures Valid(parallel) && progress == old(progress).Merged(i)
      ensures progress.StepsLeft(|results|) < old(progress).StepsLeft(|results|)
    {
      ghost var before := order;
      Collect(i);
      Arrive(parallel, i, before);
    }

    method Arrive(ghost parallel: nat, i: nat, ghost before: seq<nat>)
      requires progress.Counted(|results|, parallel) && i in progress.running
      requires progress.Covers(before) && order == before + [i]
      requires Collecting() && progress.slots <= peak <= parallel
      requires skipped == if progress.over then |results| - progress.started else 0
      modifies this`progress
      ensures Valid(parallel) && progress == old(progress).Merged(i)
      ensures progress.StepsLeft(|results|) < old(progress).StepsLeft(|results|)
    {
      MergeCounts(progress, |results|, parallel, before, i);
      progress := progress.Merged(i);
    }

    /** The main loop takes a slot for its next folder, waiting for one if need be. */
    method Acquire(parallel: nat)
      requires Valid(parallel) && !progress.over && !progress.holding
      requires progress.started < |results| && progress.slots < parallel
      modifies this`progress, this`peak
      ensures Valid(parallel) && progress == old(progress).(holding := true, slots := old(progress).slots + 1)
    {
      progress := progress.(holding := true, slots := progress.slots + 1);
      peak := if peak < progress.slots then progress.slots else peak;
    }

    /** A merged folder gives its slot back. */
    method Release(ghost parallel: nat, i: nat)
      requires Valid(parallel) && i in progress.merged
      modifies this`progress
      ensures Valid(parallel)
      ensures progress == old(progress).(merged := old(progress).merged - {i}, slots := old(progress).slots - 1)
      ensures progress.StepsLeft(|results|) < old(progress).StepsLeft(|results|)
    {
      progress := progress.(merged := progress.merged - {i}, slots := progress.slots - 1);
    }

    /** Every folder has been started or given up. */
    method Leave(ghost parallel: nat)
      requires Valid(parallel) && !progress.over && !progress.holding && progress.started == |results|
      modifies this`progress
      ensures Valid(parallel) && progress == old(progress).(over := true)
    {
      progress := progress.(over := true);
    }

    /** A folder that is done comes in, or one that came in gives its slot back. */
    method FolderStep(ghost parallel: nat)
      requires forall i :: 0 <= i < |results| ==> Honest(results[i])
      requires Valid(parallel) && progress.running + progress.merged != {}
      modifies this`progress, this`errors, this`order, agg
      ensures Valid(parallel)
      ensures progress.over == old(progress).over && progress.started == old(progress).started
      ensures progress.StepsLeft(|results|) < old(progress).StepsLeft(|results|)
    {
      if
      case progress.running != {} =>
        var i :| i in progress.running;
        MergeResult(parallel, i);
      case progress.merged != {} =>
        var i :| i in progress.merged;
        Release(parallel, i);
    }

    /** The main loop and the folders in any interleaving, until the wait group lets the main loop go on. */
    method RunAll(parallel: nat, stop: StopButton)
      requires forall i :: 0 <= i < |results| ==> Honest(results[i])
      requires Valid(parallel) && progress == Progress(0, 0, false, false, {}, {}) && parallel > 0 && stop.Valid()
      modifies this, agg, stop
      ensures Valid(parallel) && stop.Valid() && progress == Progress(progress.started, 0, false, true, {}, {})
      ensures progress.started < |results| ==> stop.pressed
      ensures capacity == parallel
    {
      capacity := parallel;
      while !(progress.over && progress.running == {} && progress.merged == {})
        invariant Valid(parallel) && stop.Valid() && capacity == parallel
        invariant progress.over && progress.started < |results| ==> stop.pressed
        decreases progress.StepsLeft(|results|)
      {
        if
        case !progress.over && !progress.holding && progress.started < |results| && progress.slots < parallel =>
          Acquire(parallel);
        case progress.holding =>
          Launch(parallel, stop);
        case !progress.over && !progress.holding && progress.started == |results| =>
          Leave(parallel);
        case progress.running + progress.merged != {} =>
          FolderStep(parallel);
      }
    }
  }

  /** A collection without errors is one whose folders all succeeded; anything else shows in the outcome. */
  lemma CollectedHonestly(agg: Summary, errors: seq<FolderError>, order: seq<nat>, results: seq<FolderResult>,
                          skipped: nat)
    requires Collected(agg, errors, order, results, skipped)
    requires forall i :: 0 <= i < |results| ==> Honest(results[i])
    ensures errors == [] <==> skipped == 0 && Success(agg.outcome)
    ensures Success(agg.outcome) <==> forall k :: 0 <= k < |order| ==> !results[order[k]].failed
  {
    PartsHonestly(order, results);
    ErrorsOfSome(order, results);
    NoErrors(errors, ErrorsOf(order, results), if skipped > 0 then multiset{NotBackedUp(skipped)} else multiset{});
  }

  lemma PartsHonestly(order: seq<nat>, results: seq<FolderResult>)
    requires forall k :: 0 <= k < |order| ==> order[k] < |results|
    requires forall i :: 0 <= i < |results| ==> Honest(results[i])
    ensures Success(MergeAll(CLEAN, Parts(order, results)).outcome) <==> forall k :: 0 <= k < |order| ==>
              !results[order[k]].failed
  {
    MergedSuccess(CLEAN, Parts(order, results));
    EachHonestly(order, results);
  }

  predicate AllSucceed(parts: seq<Summary>) {
    forall i :: 0 <= i < |parts| ==> Success(parts[i].outcome)
  }

  lemma EachHonestly(order: seq<nat>, results: seq<FolderResult>)
    requires forall k :: 0 <= k < |order| ==> order[k] < |results|
    requires forall i :: 0 <= i < |results| ==> Honest(results[i])
    ensures AllSucceed(Parts(order, results)) <==> forall k :: 0 <= k < |order| ==> !results[order[k]].failed
  {
    var parts := Parts(order, results);
    forall k | 0 <= k < |order|
      ensures Success(parts[k].outcome) <==> !results[order[k]].failed
    {
      assert Honest(results[order[k]]);
    }
  }

  lemma NoErrors(errors: seq<FolderError>, some: multiset<FolderError>, others: multiset<FolderError>)
    requires multiset(errors) == some + others
    ensures errors == [] <==> some == multiset{} && others == multiset{}
  {
    if errors != [] {
      assert errors[0] in multiset(errors);
    }
  }

  /** Everything in the batch went well. */
  ghost predicate AllWell(results: seq<FolderResult>, started: nat) {
    started == |results| && forall i :: 0 <= i < |results| ==> !results[i].failed
  }

  /** The merged result of the folders 0 .. started, merged one after the other. */
  function InTurn(results: seq<FolderResult>, started: nat): Summary
    requires started <= |results|
  {
    MergeAll(CLEAN, Parts(Upto(started), results))
  }

  /** Once nothing runs any more, what was collected does not depend on who came in when. */
  lemma CollectedInAnyOrder(agg: Summary, errors: seq<FolderError>, order: seq<nat>, results: seq<FolderResult>,
                            skipped: nat, p: Progress)
    requires Collected(agg, errors, order, results, skipped) && p.Covers(order) && p.running == {}
             && p.started <= |results|
    ensures TallyOf(agg) == TallyOf(InTurn(results, p.started))
  {
    DistinctMultiset(order, Numbers(p.started));
    OrderIrrelevant(order, results, p.started);
  }

  lemma AllCameInWell(order: seq<nat>, results: seq<FolderResult>, p: Progress)
    requires p.Covers(order) && p.running == {} && p.started == |results|
    ensures forall k :: 0 <= k < |order| ==> order[k] < |results|
    ensures (forall k :: 0 <= k < |order| ==> !results[order[k]].failed) <==> AllWell(results, p.started)
  {
    forall k | 0 <= k < |order|
      ensures order[k] < |results|
    {
      assert order[k] in order;
    }
    if forall k :: 0 <= k < |order| ==> !results[order[k]].failed {
      forall i | 0 <= i < |results|
        ensures !results[i].failed
      {
        assert i in order;
      }
    }
  }

  lemma FinishedHonestly(agg: Summary, errors: seq<FolderError>, order: seq<nat>, results: seq<FolderResult>,
                         p: Progress)
    requires p.started <= |results| && Collected(agg, errors, order, results, |results| - p.started) && p.Covers(order)
             && p.running == {}
    requires forall i :: 0 <= i < |results| ==> Honest(results[i])
    ensures errors == [] <==> AllWell(results, p.started)
    ensures errors == [] ==> Success(agg.outcome)
    ensures errors != [] && p.started == |results| ==> !Success(agg.outcome)
  {
    CollectedHonestly(agg, errors, order, results, |results| - p.started);
    if p.started == |results| {
      AllCameInWell(order, results, p);
    }
  }

  lemma BatchIsHonest(batch: Batch, parallel: nat)
    requires batch.Valid(parallel) && batch.progress.over && batch.progress.running == {}
    requires forall i :: 0 <= i < |batch.results| ==> Honest(batch.results[i])
    ensures batch.errors == [] <==> AllWell(batch.results, batch.progress.started)
    ensures batch.errors == [] ==> Success(batch.agg.outcome)
    ensures batch.errors != [] && batch.progress.started == |batch.results| ==> !Success(batch.agg.outcome)
    ensures batch.progress.started <= |batch.results|
    ensures TallyOf(batch.agg.Told()) == TallyOf(InTurn(batch.results, batch.progress.started))
  {
    FinishedHonestly(batch.agg.Told(), batch.errors, batch.order, batch.results, batch.progress);
    CollectedInAnyOrder(batch.agg.Told(), batch.errors, batch.order, batch.results, batch.skipped, batch.progress);
  }

  /** A run in which some folder was never started is at best partial. */
  function Incomplete(outcome: Outcome, started: nat): (o: Outcome)
    ensures Rank(o) <= Rank(Partial) && Rank(o) <= Rank(outcome)
    ensures o == Failed <==> started == 0 || outcome == Failed
  {
    if started == 0 then Failed
    else if Rank(outcome) > Rank(Partial) then Partial
    else outcome
  }

  /** The worst of the folders that were started, and never a success if something was left undone. */
  function Grade(results: seq<FolderResult>, started: nat, released: bool): Outcome
    requires started <= |results|
  {
    if started == |results| && released then InTurn(results, started).outcome
    else Incomplete(InTurn(results, started).outcome, started)
  }

  /** A summary but for its outcome, in any order of its lists. */
  function Counts(s: Summary): Tally {
    TallyOf(s.(outcome := Failed))
  }

  /**
   A batch may be reported: no error was recorded exactly if the outcome is a success, and nothing was lost on the way.
   */
  ghost predicate Reports(errors: seq<FolderError>, told: Summary, results: seq<FolderResult>, started: nat,
                          released: bool)
  {
    && started <= |results|
    && (errors == [] <==> AllWell(results, started) && released)
    && (errors == [] <==> Success(told.outcome))
    && told.outcome == Grade(results, started, released)
    && Counts(told) == Counts(InTurn(results, started))
  }

  ghost predicate Reportable(batch: Batch, released: bool)
    reads batch, batch.agg
  {
    Reports(batch.errors, batch.agg.Told(), batch.results, batch.progress.started, released)
  }

  lemma Settles(errors: seq<FolderError>, told: Summary, results: seq<FolderResult>, started: nat, released: bool)
    requires started <= |results| && TallyOf(told) == TallyOf(InTurn(results, started))
    requires errors == [] <==> AllWell(results, started)
    requires errors == [] ==> Success(told.outcome)
    requires errors != [] && started == |results| ==> !Success(told.outcome)
    ensures Reports(if released then errors else errors + [ReleaseFailed],
                    if released && started == |results| then told
                      else told.(outcome := Incomplete(told.outcome, started)),
                    results, started, released)
  {
  }

  /** Cancelled before any folder was started. */
  method GiveUpAll(batch: Batch, ghost parallel: nat)
    requires batch.Valid(parallel) && batch.progress == Progress(0, 0, false, false, {}, {}) && |batch.results| > 0
    modifies batch`errors, batch.agg
    ensures Reportable(batch, true) && batch.progress.started == 0
  {
    CollectedInAnyOrder(batch.agg.Told(), batch.errors, batch.order, batch.results, 0, batch.progress);
    batch.agg.outcome := Failed;
    batch.errors := [NotBackedUp(|batch.results|)];
  }

  /** After the folders: the snapshot may fail to be released, and a folder never started forbids a success. */
  method Settle(batch: Batch, released: bool, ghost parallel: nat)
    requires batch.Valid(parallel) && batch.progress.over && batch.progress.running == {}
    requires forall i :: 0 <= i < |batch.results| ==> Honest(batch.results[i])
    modifies batch`errors, batch.agg`outcome
    ensures Reportable(batch, released) && batch.progress.started == old(batch.progress.started)
  {
    BatchIsHonest(batch, parallel);
    ghost var told, started := batch.agg.Told(), batch.progress.started;
    Settles(batch.errors, told, batch.results, started, released);
    if !released {
      batch.errors := batch.errors + [ReleaseFailed];
      batch.agg.outcome := Incomplete(batch.agg.outcome, batch.progress.started);
    }
    if |batch.errors| > 0 && batch.progress.started < |batch.results| {
      batch.agg.outcome := Incomplete(batch.agg.outcome, batch.progress.started);
    }
    assert batch.agg.Told() == if released && started == |batch.results| then told
        else told.(outcome := Incomplete(told.outcome, started));
  }

  /**
   runFoldersParallel: cancelled before anything starts; or from one snapshot of all folders, which may fail to be
   released; or, if that snapshot is refused, one folder at a time.
   */
  method RunFolders(batch: Batch, useVSS: bool, parallel: nat, stop: StopButton) returns (released: bool)
    requires forall i :: 0 <= i < |batch.results| ==> Honest(batch.results[i])
    requires batch.Valid(parallel) && batch.Valid(1) && batch.progress == Progress(0, 0, false, false, {}, {})
    requires parallel > 0 && stop.Valid() && |batch.results| > 0
    modifies batch, batch.agg, stop
    ensures Reportable(batch, released)
    ensures batch.progress.started < |batch.results| ==> stop.pressed
    ensures !released ==> useVSS
    ensures batch.progress.started > 0 ==>
              && batch.peak <= batch.capacity
              && (batch.capacity == parallel || (useVSS && batch.capacity == 1))
  {
    released := true;
    var stopped := stop.Poll();
    if !stopped {
      stopped := stop.Poll();
    }
    if stopped {
      GiveUpAll(batch, parallel);
      return;
    }
    var refused: bool := *;
    if useVSS && refused {
      batch.RunAll(1, stop);
      Settle(batch, released, 1);
    } else {
      batch.RunAll(parallel, stop);
      released := *;
      released := released || !useVSS;
      Settle(batch, released, parallel);
    }
  }

  /** The outcome says how the folders went and whether anything was left undone. */
  predicate Judged(o: Outcome, parts: seq<Summary>, whole: bool) {
    if whole then WorstOf(o, parts) else o == if parts == [] || Any(parts, Failed) then Failed else Partial
  }

  lemma TellsParts(told: Summary, results: seq<FolderResult>, started: nat, released: bool)
    requires started <= |results| && told.outcome == Grade(results, started, released)
    requires Counts(told) == Counts(InTurn(results, started))
    ensures var parts := Parts(Upto(started), results);
            Sums(told, parts) && Lumps(told, parts) && Judged(told.outcome, parts, started == |results| && released)
  {
    MergedSums(Parts(Upto(started), results));
    MergedLists(Parts(Upto(started), results));
    MergedOutcome(Parts(Upto(started), results));
  }

  /**
   RunBackup for several folders, as many at a time as wanted: the flag given to OnComplete says the same as the
   returned error, and the result adds up what the folders started came to.
   */
  method RunBackup(results: seq<FolderResult>, useVSS: bool, wanted: int, stop: StopButton)
    returns (completed: bool, result: Summary, failed: bool, ghost started: nat, ghost released: bool,
             ghost slots: nat, ghost peak: nat)
    requires |results| > 1 && stop.Valid() && forall i :: 0 <= i < |results| ==> Honest(results[i])
    modifies stop
    ensures completed == !failed == Success(result.outcome) == (AllWell(results, started) && released)
    ensures started <= |results| && (started < |results| ==> stop.pressed) && (!released ==> useVSS)
    ensures var parts := Parts(Upto(started), results);
            && Sums(result, parts) && Lumps(result, parts)
            && Judged(result.outcome, parts, started == |results| && released)
    ensures started > 0 ==>
              && peak <= slots
              && (slots == (if wanted < 1 then 1 else if wanted < |results| then wanted else |results|)
                  || (useVSS && slots == 1))
  {
    var agg := new BackupStatus(CLEAN);
    var batch := new Batch(results, agg);
    var limit := if wanted < |results| then wanted else |results|;
    released := RunFolders(batch, useVSS, if limit > 1 then limit else 1, stop);
    completed, result, failed := Success(agg.outcome), agg.Told(), |batch.errors| > 0;
    started, slots, peak := batch.progress.started, batch.capacity, batch.peak;
    TellsParts(result, results, started, released);
  }
}
