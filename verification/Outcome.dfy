/** The result of a backup run and how results add up (gui/backup_status.go). */
module Outcomes {
  import opened Lists

  datatype Outcome = Failed | Partial | SuccessWithExclusions | VerifiedSuccess

  datatype FileIssue = FileIssue(path: string, reason: string)

  datatype DirResult = DirResult(path: string, ok: bool)

  /** Worst to best. */
  function Rank(o: Outcome): nat {
    match o
    case Failed => 0
    case Partial => 1
    case SuccessWithExclusions => 2
    case VerifiedSuccess => 3
  }

  function Worst(a: Outcome, b: Outcome): Outcome {
    if Rank(a) <= Rank(b) then a else b
  }

  predicate Success(o: Outcome) {
    o == VerifiedSuccess || o == SuccessWithExclusions
  }

  /** What a run reports, order of the lists included. */
  datatype Summary = Summary(outcome: Outcome, created: nat, reused: nat, failed: nat, bytes: nat,
                             directories: seq<DirResult>, excluded: seq<FileIssue>, skipped: seq<FileIssue>,
                             corrupted: seq<FileIssue>)

  function Combine(a: Summary, b: Summary): Summary {
    Summary(Worst(a.outcome, b.outcome), a.created + b.created, a.reused + b.reused, a.failed + b.failed,
            a.bytes + b.bytes, a.directories + b.directories, a.excluded + b.excluded, a.skipped + b.skipped,
            a.corrupted + b.corrupted)
  }

  /** What a run reports when the order of its lists does not matter. */
  datatype Tally = Tally(outcome: Outcome, created: nat, reused: nat, failed: nat, bytes: nat,
                         directories: multiset<DirResult>, excluded: multiset<FileIssue>,
                         skipped: multiset<FileIssue>, corrupted: multiset<FileIssue>)

  function TallyOf(s: Summary): Tally {
    Tally(s.outcome, s.created, s.reused, s.failed, s.bytes, multiset(s.directories), multiset(s.excluded),
          multiset(s.skipped), multiset(s.corrupted))
  }

  function NothingYet(outcome: Outcome): Summary {
    Summary(outcome, 0, 0, 0, 0, [], [], [], [])
  }

  /** Merging many results one after the other. */
  function MergeAll(start: Summary, parts: seq<Summary>): Summary
    decreases |parts|
  {
    if parts == [] then start else MergeAll(Combine(start, parts[0]), parts[1..])
  }

  lemma CombineTallies(a: Summary, b: Summary)
    ensures TallyOf(Combine(a, b)).directories == TallyOf(a).directories + TallyOf(b).directories
    ensures TallyOf(Combine(a, b)).excluded == TallyOf(a).excluded + TallyOf(b).excluded
    ensures TallyOf(Combine(a, b)).skipped == TallyOf(a).skipped + TallyOf(b).skipped
    ensures TallyOf(Combine(a, b)).corrupted == TallyOf(a).corrupted + TallyOf(b).corrupted
  {
    MultisetOfSum(a.directories, b.directories);
    MultisetOfSum(a.excluded, b.excluded);
    MultisetOfSum(a.skipped, b.skipped);
    MultisetOfSum(a.corrupted, b.corrupted);
  }

  /** Two results merged in either order tell the same, up to the order of the lists. */
  lemma MergeSwap(start: Summary, a: Summary, b: Summary)
    ensures TallyOf(Combine(Combine(start, a), b)) == TallyOf(Combine(Combine(start, b), a))
  {
    SwapLists(start.directories, a.directories, b.directories);
    SwapLists(start.excluded, a.excluded, b.excluded);
    SwapLists(start.skipped, a.skipped, b.skipped);
    SwapLists(start.corrupted, a.corrupted, b.corrupted);
  }

  lemma SwapLists<T>(start: seq<T>, a: seq<T>, b: seq<T>)
    ensures multiset(start + a + b) == multiset(start + b + a)
  {
    MultisetOfSum(start + a, b);
    MultisetOfSum(start, a);
    MultisetOfSum(start + b, a);
    MultisetOfSum(start, b);
  }

  lemma {:induction false} SameTallyMergeAll(s: Summary, t: Summary, parts: seq<Summary>)
    requires TallyOf(s) == TallyOf(t)
    ensures TallyOf(MergeAll(s, parts)) == TallyOf(MergeAll(t, parts))
    decreases |parts|
  {
    if parts != [] {
      CombineTallies(s, parts[0]);
      CombineTallies(t, parts[0]);
      SameTallyMergeAll(Combine(s, parts[0]), Combine(t, parts[0]), parts[1..]);
    }
  }

  /** Any one of the results may as well be merged first. */
  lemma {:induction false} MergeFirst(start: Summary, parts: seq<Summary>, i: nat)
    requires i < |parts|
    ensures TallyOf(MergeAll(start, parts)) == TallyOf(MergeAll(Combine(start, parts[i]), parts[..i] + parts[i + 1..]))
    decreases |parts|
  {
    if i == 0 {
      assert parts[..0] + parts[1..] == parts[1..];
    } else {
      var rest, less := parts[1..], parts[..i] + parts[i + 1..];
      MergeFirst(Combine(start, parts[0]), rest, i - 1);
      assert less[1..] == rest[..i - 1] + rest[i..] && less[0] == parts[0];
      MergeSwap(start, parts[0], parts[i]);
      SameTallyMergeAll(Combine(Combine(start, parts[0]), parts[i]), Combine(Combine(start, parts[i]), parts[0]),
                        less[1..]);
    }
  }

  /** The aggregate does not depend on the order in which the results came in. */
  lemma {:induction false} MergeOrderIrrelevant(start: Summary, parts: seq<Summary>, other: seq<Summary>)
    requires multiset(parts) == multiset(other)
    ensures TallyOf(MergeAll(start, parts)) == TallyOf(MergeAll(start, other))
    decreases |parts|
  {
    SameLength(parts, other);
    if parts != [] {
      var i := HeadElsewhere(parts, other);
      MergeFirst(start, other, i);
      MergeOrderIrrelevant(Combine(start, parts[0]), parts[1..], other[..i] + other[i + 1..]);
    }
  }

  /** The aggregate succeeds only if every part does, and then it does: no failure is outvoted. */
  lemma {:induction false} MergedSuccess(start: Summary, parts: seq<Summary>)
    ensures Success(MergeAll(start, parts).outcome) <==>
            Success(start.outcome) && forall i :: 0 <= i < |parts| ==> Success(parts[i].outcome)
    decreases |parts|
  {
    if parts != [] {
      var next := Combine(start, parts[0]);
      MergedSuccess(next, parts[1..]);
      if Success(next.outcome) && forall i :: 0 <= i < |parts| - 1 ==> Success(parts[1..][i].outcome) {
        assert forall i :: 0 < i < |parts| ==> parts[i] == parts[1..][i - 1];
      }
      assert forall i :: 0 <= i < |parts| - 1 ==> parts[1..][i] == parts[i + 1];
    }
  }

  lemma {:induction false} MergeAllSnoc(start: Summary, parts: seq<Summary>, part: Summary)
    ensures MergeAll(start, parts + [part]) == Combine(MergeAll(start, parts), part)
    decreases |parts|
  {
    if parts == [] {
      assert [part][1..] == [];
    } else {
      assert (parts + [part])[1..] == parts[1..] + [part];
      MergeAllSnoc(Combine(start, parts[0]), parts[1..], part);
    }
  }

  /** The source's record: merge folds a child's result into its receiver. */
  class BackupStatus {
    var outcome: Outcome
    var newChunks: nat
    var reusedChunks: nat
    var failedChunks: nat
    var totalBytes: nat
    var directories: seq<DirResult>
    var excludedByPolicy: seq<FileIssue>
    var skippedReadError: seq<FileIssue>
    var corrupted: seq<FileIssue>

    function Told(): Summary
      reads this
    {
      Summary(outcome, newChunks, reusedChunks, failedChunks, totalBytes, directories, excludedByPolicy,
              skippedReadError, corrupted)
    }

    constructor (s: Summary)
      ensures Told() == s
    {
      outcome, newChunks, reusedChunks, failedChunks, totalBytes := s.outcome, s.created, s.reused, s.failed, s.bytes;
      directories, excludedByPolicy, skippedReadError, corrupted := s.directories, s.excluded, s.skipped, s.corrupted;
    }

    method Merge(child: BackupStatus?)
      modifies this
      ensures child == null ==> Told() == old(Told())
      ensures child != null ==> Told() == Combine(old(Told()), old(child.Told()))
    {
      if child == null {
        return;
      }
      outcome := Worst(outcome, child.outcome);
      newChunks := newChunks + child.newChunks;
      reusedChunks := reusedChunks + child.reusedChunks;
      failedChunks := failedChunks + child.failedChunks;
      totalBytes := totalBytes + child.totalBytes;
      directories := directories + child.directories;
      excludedByPolicy := excludedByPolicy + child.excludedByPolicy;
      skippedReadError := skippedReadError + child.skippedReadError;
      corrupted := corrupted + child.corrupted;
    }
  }
}
