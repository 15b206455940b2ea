/** What the aggregate of several results says, field by field (merge in gui/backup_status.go). */
module Aggregates {
  import opened Lists
  import opened Outcomes

  datatype Amount = New | Reused | Refused | Bytes

  function AmountOf(s: Summary, a: Amount): nat {
    match a
    case New => s.created
    case Reused => s.reused
    case Refused => s.failed
    case Bytes => s.bytes
  }

  /** One amount of all these results. */
  function Total(parts: seq<Summary>, a: Amount): nat {
    if parts == [] then 0 else Total(parts[..|parts| - 1], a) + AmountOf(parts[|parts| - 1], a)
  }

  datatype Bucket = Excluded | Skipped | Corrupted

  function BucketOf(s: Summary, b: Bucket): seq<FileIssue> {
    match b
    case Excluded => s.excluded
    case Skipped => s.skipped
    case Corrupted => s.corrupted
  }

  /** The files in one bucket of all these results, one result after the other. */
  function Issues(parts: seq<Summary>, b: Bucket): seq<FileIssue> {
    if parts == [] then [] else Issues(parts[..|parts| - 1], b) + BucketOf(parts[|parts| - 1], b)
  }

  function Directories(parts: seq<Summary>): seq<DirResult> {
    if parts == [] then [] else Directories(parts[..|parts| - 1]) + parts[|parts| - 1].directories
  }

  /** Its counters are the sums of those of its parts. */
  predicate Sums(told: Summary, parts: seq<Summary>) {
    && told.created == Total(parts, New) && told.reused == Total(parts, Reused)
    && told.failed == Total(parts, Refused) && told.bytes == Total(parts, Bytes)
  }

  /** Its lists are those of its parts, one after the other. */
  predicate Appends(told: Summary, parts: seq<Summary>) {
    && told.directories == Directories(parts) && told.excluded == Issues(parts, Excluded)
    && told.skipped == Issues(parts, Skipped) && told.corrupted == Issues(parts, Corrupted)
  }

  /** Its lists have the entries of its parts' lists, in any order. */
  predicate Lumps(told: Summary, parts: seq<Summary>) {
    && multiset(told.directories) == multiset(Directories(parts))
    && multiset(told.excluded) == multiset(Issues(parts, Excluded))
    && multiset(told.skipped) == multiset(Issues(parts, Skipped))
    && multiset(told.corrupted) == multiset(Issues(parts, Corrupted))
  }

  predicate Any(parts: seq<Summary>, o: Outcome) {
    exists p :: p in parts && p.outcome == o
  }

  /** It failed if one of its parts did, is partial if otherwise one of them is, and so on. */
  predicate WorstOf(o: Outcome, parts: seq<Summary>) {
    && (o == Failed <==> Any(parts, Failed))
    && (o == Partial <==> Any(parts, Partial) && !Any(parts, Failed))
    && (o == VerifiedSuccess <==> forall p :: p in parts ==> p.outcome == VerifiedSuccess)
  }

  lemma {:induction false} MergedSums(parts: seq<Summary>)
    ensures Sums(MergeAll(NothingYet(VerifiedSuccess), parts), parts)
  {
    if parts != [] {
      var n := |parts| - 1;
      FrontAndLast(parts);
      MergeAllSnoc(NothingYet(VerifiedSuccess), parts[..n], parts[n]);
      MergedSums(parts[..n]);
    }
  }

  lemma {:induction false} MergedLists(parts: seq<Summary>)
    ensures Appends(MergeAll(NothingYet(VerifiedSuccess), parts), parts)
  {
    if parts != [] {
      var n := |parts| - 1;
      FrontAndLast(parts);
      MergeAllSnoc(NothingYet(VerifiedSuccess), parts[..n], parts[n]);
      MergedLists(parts[..n]);
    }
  }

  lemma {:induction false} MergedOutcome(parts: seq<Summary>)
    ensures WorstOf(MergeAll(NothingYet(VerifiedSuccess), parts).outcome, parts)
  {
    if parts != [] {
      var n := |parts| - 1;
      FrontAndLast(parts);
      MergeAllSnoc(NothingYet(VerifiedSuccess), parts[..n], parts[n]);
      MergedOutcome(parts[..n]);
      assert forall p :: p in parts <==> p in parts[..n] || p == parts[n];
      assert parts[n] in parts;
    }
  }
}
