/** A folder of a batch is a run of its own: what a batch assumes of its folders is what every run guarantees. */
module FolderRuns {
  import Options
  import Sessions
  import ParallelFolders

  /** What the batch sees of a folder's run: OnResult's last status and whether an error came back. */
  function ResultOf(report: Sessions.Report): ParallelFolders.FolderResult {
    ParallelFolders.FolderResult(
      if report.results == [] then Options.None else Options.Some(report.results[|report.results| - 1]),
      report.err != Sessions.NoError)
  }

  /** The last result, if any, and a failure exactly if there was an error: that is honest. */
  lemma RunsAreHonest(report: Sessions.Report)
    requires Sessions.Consistent(report)
    ensures ParallelFolders.Honest(ResultOf(report))
    ensures ResultOf(report).failed <==> report.err != Sessions.NoError
    ensures ResultOf(report).status ==
            if report.err == Sessions.ErrCancelled then Options.None else Options.Some(report.results[0])
  {
  }
}
