/**
 The progress of an archive as the user sees it (gui/backup_inline.go): reported every 10 MiB, against a total that a
 scan running beside the backup may set, raise or lower at any time.
 */
module Progress {
  import opened Options

  const MIB := 1024 * 1024
  const REPORT_EVERY := 10 * MIB

  /** Never backwards, and from a tenth to nine tenths. */
  ghost predicate Steady(reports: seq<real>) {
    && (forall i :: 0 <= i < |reports| ==> 0.1 <= reports[i] <= 0.9)
    && (forall i, j :: 0 <= i < j < |reports| ==> reports[i] <= reports[j])
  }

  lemma AtLeastWhole(pos: nat, total: nat)
    requires total > 0
    ensures pos as real / total as real >= 0.0 && (pos >= total ==> pos as real / total as real >= 1.0)
  {
    var t := total as real;
    var done := pos as real / t;
    assert done * t == pos as real;
    LessTimes(done, 0.0, t);
    LessTimes(done, 1.0, t);
  }

  lemma LessTimes(a: real, b: real, t: real)
    requires t > 0.0
    ensures a < b ==> a * t < b * t
  {
  }

  /** How far the archive is: against the total, or slowly moving while there is none yet. */
  method Estimate(pos: nat, totalSize: nat) returns (progress: real)
    ensures 0.1 <= progress <= 0.9 && (totalSize > 0 && pos >= totalSize ==> progress == 0.9)
    ensures 0 < totalSize && pos <= totalSize ==> (progress - 0.1) * totalSize as real == 0.8 * pos as real
    ensures totalSize == 0 ==> (progress - 0.1) * 1000.0 == (pos / (1024 * 1024) % 100) as real
  {
    if totalSize > 0 {
      AtLeastWhole(pos, totalSize);
      progress := 0.1 + pos as real / totalSize as real * 0.8;
      if progress > 0.9 {
        progress := 0.9;
      }
    } else {
      var sizeMB := pos / MIB;
      progress := 0.1 + (sizeMB % 100) as real / 1000.0;
      if progress > 0.5 {
        progress := 0.5;
      }
    }
  }

  /** The last report, or how far the archive is if that is more. */
  ghost predicate Highest(percent: real, last: real, pos: nat, totalSize: nat) {
    exists now :: Estimated(now, pos, totalSize) && percent == if now < last then last else now
  }

  /** In proportion to the total if there is one that was not exceeded; without one by the MiB, modulo 100. */
  ghost predicate Estimated(progress: real, pos: nat, totalSize: nat) {
    if totalSize == 0 then (progress - 0.1) * 1000.0 == (pos / (1024 * 1024) % 100) as real
    else if pos <= totalSize then (progress - 0.1) * totalSize as real == 0.8 * pos as real
    else progress == 0.9
  }

  class Reporter {
    var lastReport: nat
    var lastPercent: real
    ghost var reports: seq<real>
    ghost var positions: seq<nat>

    ghost predicate Valid()
      reads this
    {
      && Steady(reports) && |positions| == |reports|
      && lastPercent == (if reports == [] then 0.0 else reports[|reports| - 1])
      && lastReport == (if positions == [] then 0 else positions[|positions| - 1])
      && forall i :: 0 <= i < |positions| ==> positions[i] > REPORT_EVERY + if i == 0 then 0 else positions[i - 1]
    }

    constructor ()
      ensures Valid() && reports == []
    {
      lastReport, lastPercent, reports, positions := 0, 0.0, [], [];
    }

    /** After a chunk: a report, if enough was archived since the last one. */
    method AfterChunk(pos: nat, totalSize: nat) returns (reported: Option<real>)
      requires Valid() && pos >= lastReport
      modifies this
      ensures Valid() && (reported.Some? <==> pos - old(lastReport) > 10 * 1024 * 1024)
      ensures reported.None? ==> reports == old(reports) && lastReport == old(lastReport)
      ensures reported.Some? ==> reports == old(reports) + [reported.value] && lastReport == pos
      ensures reported.Some? && totalSize > 0 && pos >= totalSize ==> reported.value == 0.9
      ensures reported.Some? ==> Highest(reported.value, old(lastPercent), pos, totalSize)
    {
      if pos - lastReport <= REPORT_EVERY {
        return None;
      }
      var progress := Estimate(pos, totalSize);
      assert Estimated(progress, pos, totalSize);
      if progress < lastPercent {
        progress := lastPercent;
      }
      lastReport, lastPercent := pos, progress;
      reports, positions := reports + [progress], positions + [pos];
      return Some(progress);
    }
  }
}
