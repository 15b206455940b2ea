/**
 A backup run over its directories (runBackupInlineInternal in gui/backup_inline.go), one after the other, and the
 result it reports.
 */
module Sessions {
  import opened Lists
  import opened Chunkers
  import opened Chunking
  import opened DynamicIndexes
  import opened PbsClients
  import opened StopButtons
  import opened Snapshots
  import opened Outcomes
  import opened Directories
  import opened RunTotals

  datatype RunError = NoError | Incomplete | ErrCancelled

  /** What the caller of a run gets: the OnComplete calls, the OnResult calls, and the returned error. */
  datatype Report = Report(completed: seq<bool>, results: seq<Summary>, err: RunError)

  /** The callbacks and the returned error tell the same; a cancelled run has no result. */
  ghost predicate Consistent(r: Report) {
    if r.err == ErrCancelled then r.completed == [false] && r.results == []
    else |r.results| == 1 && r.completed == [r.err == NoError] && (Success(r.results[0].outcome) <==> r.err == NoError)
  }

  function SkippedToIssues(skipped: seq<string>): (issues: seq<FileIssue>)
    ensures |issues| == |skipped|
    ensures forall i :: 0 <= i < |skipped| ==> issues[i].path == "" && issues[i].reason == skipped[i]
  {
    seq(|skipped|, i requires 0 <= i < |skipped| => FileIssue("", skipped[i]))
  }

  function ExcludedToIssues(excluded: seq<string>): (issues: seq<FileIssue>)
    ensures |issues| == |excluded|
    ensures forall i :: 0 <= i < |excluded| ==>
              issues[i].path == excluded[i] && issues[i].reason == "excluded by user policy"
  {
    seq(|excluded|, i requires 0 <= i < |excluded| => FileIssue(excluded[i], "excluded by user policy"))
  }

  /**
   The directories handled so far, in order. Each one reported good has a snapshot that holds what its last attempt
   read; whatever else was committed for a directory holds that too.
   */
  ghost predicate Accurate(s: Scheme, stored: set<Digest>, commits: seq<Commit>, before: nat, dirs: seq<string>,
                           results: seq<DirResult>, stories: seq<Story>)
    requires s.tuning.Valid()
  {
    && |stories| == |results| <= |dirs| && before <= |commits|
    && (forall i :: 0 <= i < |results| ==>
                      && results[i] == DirResult(dirs[i], stories[i].end.Committed?) && stories[i].Told(stored)
                      && (results[i].ok ==> KeptWhole(s, stored, commits, before, dirs[i], stories[i])))
    && AllOurs(s, stored, commits, before, dirs, stories)
  }

  /** The snapshot of a committed directory, and the chunks its last attempt counted. */
  ghost predicate KeptWhole(s: Scheme, stored: set<Digest>, commits: seq<Commit>, before: nat, dir: string,
                            story: Story)
    requires s.tuning.Valid()
  {
    && story.end.Committed? && TakenWhole(s, story.last.part, story.end.bytes)
    && Kept(s, stored, commits, before, dir, story.last.part.walk.pieces)
  }

  /** A snapshot that holds what the last attempt at one of the directories read. */
  ghost predicate Ours(s: Scheme, stored: set<Digest>, c: Commit, dirs: seq<string>, stories: seq<Story>)
    requires s.tuning.Valid()
  {
    exists i :: 0 <= i < |stories| <= |dirs| && c.source == dirs[i]
                && Captured(s, stored, c.files, stories[i].last.part.walk.pieces)
  }

  ghost predicate AllOurs(s: Scheme, stored: set<Digest>, commits: seq<Commit>, before: nat, dirs: seq<string>,
                          stories: seq<Story>)
    requires s.tuning.Valid()
  {
    forall k {:trigger Ours(s, stored, commits[k], dirs, stories)} ::
      before <= k < |commits| ==> Ours(s, stored, commits[k], dirs, stories)
  }

  predicate AllGood(results: seq<DirResult>) {
    forall i :: 0 <= i < |results| ==> results[i].ok
  }

  predicate NoneGood(results: seq<DirResult>) {
    forall i :: 0 <= i < |results| ==> !results[i].ok
  }

  /** The directories that failed, counted. */
  ghost predicate ErrorsCounted(results: seq<DirResult>, errors: int) {
    && 0 <= errors <= |results|
    && (errors == 0 <==> AllGood(results))
    && (errors == |results| <==> NoneGood(results))
  }

  lemma CountError(results: seq<DirResult>, errors: int, last: DirResult)
    requires ErrorsCounted(results, errors)
    ensures ErrorsCounted(results + [last], if last.ok then errors else errors + 1)
  {
    var more := results + [last];
    assert more[|results|] == last;
    assert forall i :: 0 <= i < |results| ==> more[i] == results[i];
  }

  lemma ToldLater(story: Story, stored: set<Digest>, later: set<Digest>)
    requires story.Told(stored) && stored <= later
    ensures story.Told(later)
  {
  }

  lemma OursLater(s: Scheme, stored: set<Digest>, later: set<Digest>, c: Commit, dirs: seq<string>,
                  stories: seq<Story>, next: Story)
    requires s.tuning.Valid() && Ours(s, stored, c, dirs, stories) && stored <= later && |stories| < |dirs|
    ensures Ours(s, later, c, dirs, stories + [next])
  {
    var i :| 0 <= i < |stories| <= |dirs| && c.source == dirs[i]
      && Captured(s, stored, c.files, stories[i].last.part.walk.pieces);
    StillCaptured(s, stored, later, c.files, stories[i].last.part.walk.pieces);
    assert (stories + [next])[i] == stories[i];
  }

  lemma OursNow(s: Scheme, stored: set<Digest>, c: Commit, dirs: seq<string>, stories: seq<Story>, next: Story)
    requires s.tuning.Valid() && |stories| < |dirs| && c.source == dirs[|stories|]
    requires Captured(s, stored, c.files, next.last.part.walk.pieces)
    ensures Ours(s, stored, c, dirs, stories + [next])
  {
    assert (stories + [next])[|stories|] == next;
  }

  lemma AllOursLater(s: Scheme, stored: set<Digest>, later: set<Digest>, commits: seq<Commit>, more: seq<Commit>,
                before: nat, dirs: seq<string>, stories: seq<Story>, next: Story)
    requires s.tuning.Valid() && stored <= later && before <= |commits| && |stories| < |dirs|
    requires AllOurs(s, stored, commits, before, dirs, stories)
    requires CommittedOnly(s, later, commits, more, dirs[|stories|], next.last.part.walk.pieces)
    ensures AllOurs(s, later, more, before, dirs, stories + [next])
  {
    forall k | before <= k < |more|
      ensures Ours(s, later, more[k], dirs, stories + [next])
    {
      if k < |commits| {
        OursLater(s, stored, later, commits[k], dirs, stories, next);
      } else {
        OursNow(s, later, more[k], dirs, stories, next);
      }
    }
  }

  lemma AccurateLater(s: Scheme, stored: set<Digest>, later: set<Digest>, commits: seq<Commit>, more: seq<Commit>,
                      before: nat, dirs: seq<string>, results: seq<DirResult>, stories: seq<Story>, next: Story)
    requires s.tuning.Valid() && Accurate(s, stored, commits, before, dirs, results, stories)
    requires |results| < |dirs| && stored <= later && next.Told(later)
    requires CommittedOnly(s, later, commits, more, dirs[|results|], next.last.part.walk.pieces)
    requires next.end.Committed? ==> |more| > |commits| && TakenWhole(s, next.last.part, next.end.bytes)
    ensures Accurate(s, later, more, before, dirs, results + [DirResult(dirs[|results|], next.end.Committed?)],
                     stories + [next])
  {
    var n := |results|;
    var results', stories' := results + [DirResult(dirs[n], next.end.Committed?)], stories + [next];
    AllOursLater(s, stored, later, commits, more, before, dirs, stories, next);
    assert forall i :: 0 <= i < n ==> results'[i] == results[i] && stories'[i] == stories[i];
    forall i | 0 <= i <= n
      ensures stories'[i].Told(later)
      ensures results'[i].ok ==> KeptWhole(s, later, more, before, dirs[i], stories'[i])
    {
      if i < n {
        ToldLater(stories[i], stored, later);
        if results[i].ok {
          KeptLater(s, stored, later, commits, more, before, dirs[i], stories[i].last.part.walk.pieces);
        }
      } else if next.end.Committed? {
        assert more[|commits|].source == dirs[n];
      }
    }
  }

  function OutcomeOf(failedChunks: nat, dirErrors: nat, readErrors: nat, excluded: nat): (o: Outcome)
    ensures Success(o) <==> failedChunks == 0 && dirErrors == 0 && readErrors == 0
  {
    if failedChunks > 0 then Failed
    else if dirErrors > 0 then Partial
    else if readErrors > 0 then Partial
    else if excluded > 0 then SuccessWithExclusions
    else VerifiedSuccess
  }

  /** The four grades of a result. */
  ghost predicate Graded(result: Summary) {
    && (result.outcome == Failed <==> result.failed > 0 || NoneGood(result.directories))
    && (Success(result.outcome) <==>
        result.directories != [] && AllGood(result.directories) && result.failed == 0 && result.skipped == [])
    && (Success(result.outcome) ==> (result.outcome == VerifiedSuccess <==> result.excluded == []))
  }

  /** What a run has to tell after some of its directories. */
  datatype Account = Account(results: seq<DirResult>, errors: nat, failed: nat, bytes: nat, created: nat, reused: nat,
                             readErrors: seq<string>, excluded: seq<string>) {
    /** One more directory: the chunk counters are those of the whole run, the lists are what its last session left. */
    function Then(dir: string, end: DirEnd, created: nat, reused: nat, failed: nat, readErrors: seq<string>,
                  excluded: seq<string>): Account
    {
      Account(results + [DirResult(dir, end.Committed?)], if end.Committed? then errors else errors + 1, failed,
              if end.Committed? then bytes + end.bytes else bytes, created, reused, this.readErrors + readErrors,
              this.excluded + excluded)
    }
  }

  const NothingTold := Account([], 0, 0, 0, 0, 0, [], [])

  /** Its figures are what the directories added, from the first of their sessions on. */
  ghost predicate Reckoned(acc: Account, stories: seq<Story>, first: int, sessions: int) {
    && ErrorsCounted(acc.results, acc.errors)
    && acc.bytes == AllAdded(stories, ArchivedBytes)
    && acc.created == AllAdded(stories, NewChunks)
    && acc.reused == AllAdded(stories, ReusedChunks)
    && sessions == first + AllAdded(stories, SessionsOpened)
    && acc.readErrors == AllListed(stories, false) && acc.excluded == AllListed(stories, true)
  }

  /** The counters after the next directory are the run's; everything else is added here. */
  lemma OneMoreReckoned(acc: Account, stories: seq<Story>, first: int, before: Counts, now: Counts, dir: string,
                        next: Story, after: Account)
    requires before.created == acc.created && before.reused == acc.reused
    requires Reckoned(acc, stories, first, before.sessions) && Spent(before, now, next.lost, next.last)
    requires after.created == now.created && after.reused == now.reused
    requires after == acc.Then(dir, next.end, after.created, after.reused, after.failed, next.last.files.readErrors,
                               next.last.files.excluded)
    ensures Reckoned(after, stories + [next], first, now.sessions)
  {
    CountError(acc.results, acc.errors, DirResult(dir, next.end.Committed?));
    BytesComeLater(next.lost);
    AddedOneMore(stories, next, ArchivedBytes);
    AddedOneMore(stories, next, NewChunks);
    AddedOneMore(stories, next, ReusedChunks);
    AddedOneMore(stories, next, SessionsOpened);
    ListedOneMore(stories, next, false);
    ListedOneMore(stories, next, true);
  }

  /** A result's figures: the bytes are those of the snapshots, the rest may be too much. */
  ghost predicate Figures(result: Summary, sessions: int, stories: seq<Story>) {
    && result.bytes == AllDue(stories, ArchivedBytes)
    && Overcounted(result.created, stories, NewChunks)
    && Overcounted(result.reused, stories, ReusedChunks)
    && Overcounted(sessions, stories, SessionsOpened)
  }

  /** A result's lists are exact exactly if no directory that opened no session repeats an entry. */
  ghost predicate Listing(result: Summary, stories: seq<Story>) {
    && result.skipped == SkippedToIssues(AllListed(stories, false))
    && result.excluded == ExcludedToIssues(AllListed(stories, true))
    && (result.skipped == SkippedToIssues(AllOwn(stories, false)) <==> NothingRepeated(stories, false))
    && (result.excluded == ExcludedToIssues(AllOwn(stories, true)) <==> NothingRepeated(stories, true))
  }

  lemma SameIssues(a: seq<string>, b: seq<string>, same: bool)
    requires (|a| == |b| ==> same) && (same <==> a == b)
    ensures SkippedToIssues(a) == SkippedToIssues(b) <==> same
    ensures ExcludedToIssues(a) == ExcludedToIssues(b) <==> same
  {
    if !same {
      assert |SkippedToIssues(a)| != |SkippedToIssues(b)| && |ExcludedToIssues(a)| != |ExcludedToIssues(b)|;
    }
  }

  /** A result tells what the account says. */
  ghost predicate Tells(result: Summary, acc: Account) {
    && Graded(result) && result.directories == acc.results
    && result.bytes == acc.bytes && result.created == acc.created && result.reused == acc.reused
    && result.failed == acc.failed && result.corrupted == []
    && result.skipped == SkippedToIssues(acc.readErrors) && result.excluded == ExcludedToIssues(acc.excluded)
  }

  /** Summing up a run after its last directory. */
  function Conclude(acc: Account): (result: Summary)
    requires ErrorsCounted(acc.results, acc.errors)
    ensures Tells(result, acc)
  {
    var outcome := if acc.errors == |acc.results| then Failed
                   else OutcomeOf(acc.failed, acc.errors, |acc.readErrors|, |acc.excluded|);
    Summary(outcome, acc.created, acc.reused, acc.failed, acc.bytes, acc.results,
            ExcludedToIssues(acc.excluded), SkippedToIssues(acc.readErrors), [])
  }

  lemma FiguresOf(acc: Account, result: Summary, stories: seq<Story>, first: int, sessions: int)
    requires Reckoned(acc, stories, first, sessions) && Tells(result, acc)
    requires forall i :: 0 <= i < |stories| ==> stories[i].Weighed()
    ensures Figures(result, sessions - first, stories)
  {
    AddsUp(stories, ArchivedBytes);
    BytesComeLater(AllVain(stories));
    OvercountedBy(stories, NewChunks);
    OvercountedBy(stories, ReusedChunks);
    OvercountedBy(stories, SessionsOpened);
  }

  lemma ListsOf(acc: Account, result: Summary, stories: seq<Story>, first: int, sessions: int)
    requires Reckoned(acc, stories, first, sessions) && Tells(result, acc)
    ensures Listing(result, stories)
  {
    ListsExactly(stories, false);
    ListsExactly(stories, true);
    SameIssues(AllListed(stories, false), AllOwn(stories, false), NothingRepeated(stories, false));
    SameIssues(AllListed(stories, true), AllOwn(stories, true), NothingRepeated(stories, true));
  }

  /** What the server has seen of this client: snapshots, sessions, uploads refused, other requests not confirmed. */
  datatype Standing = Standing(commits: seq<Commit>, sessions: nat, refused: nat, unconfirmed: nat) {
    function Troubles(): nat {
      refused + unconfirmed
    }
  }

  ghost function StandingOf(client: PbsClient): Standing
    reads client`commits, client`sessions, client`refused, client`unconfirmed
  {
    Standing(client.commits, client.sessions, client.refused, client.unconfirmed)
  }

  /** Unless a request was not confirmed, every directory that could be read is committed. */
  ghost predicate Excused(stories: seq<Story>, troubles: int) {
    troubles > 0 || forall t :: t in stories && t.Smooth() ==> t.end.Committed?
  }

  lemma ExcusedMore(stories: seq<Story>, next: Story, troubles: int, more: int)
    requires Excused(stories, troubles) && 0 <= troubles && 0 <= more
    requires next.end.NotConfirmed? ==> NotSmooth(next, more)
    requires !next.end.Stopped? && exists stored :: next.Told(stored)
    ensures Excused(stories + [next], troubles + more)
  {
    assert forall t :: t in stories + [next] <==> t in stories || t == next;
  }

  /** What a run's result says is what happened, from one standing to the other. */
  ghost predicate Truthful(s: Scheme, stored: set<Digest>, origin: Standing, now: Standing, dirs: seq<string>,
                           result: Summary, stories: seq<Story>)
    requires s.tuning.Valid()
  {
    && Graded(result) && result.failed == now.refused - origin.refused
    && Accurate(s, stored, now.commits, |origin.commits|, dirs, result.directories, stories) && Repeating(stories)
    && Figures(result, now.sessions - origin.sessions, stories) && Listing(result, stories)
    && Excused(stories, now.Troubles() - origin.Troubles())
  }

  /** What the run knows after some of its directories is true at this moment. */
  ghost predicate OnRecord(s: Scheme, now: Moment, origin: Standing, dirs: seq<string>, acc: Account,
                           stories: seq<Story>)
    requires s.tuning.Valid()
  {
    && Accurate(s, now.stored, now.commits, |origin.commits|, dirs, acc.results, stories)
    && Repeating(stories) && now.files == FilesAfter(stories)
    && now.counts.created == acc.created && now.counts.reused == acc.reused && now.uncounted == origin.refused
    && Reckoned(acc, stories, origin.sessions, now.counts.sessions)
    && now.Troubles() >= origin.Troubles() && Excused(stories, now.Troubles() - origin.Troubles())
  }

  lemma AllWeighed(stories: seq<Story>, stored: set<Digest>)
    requires forall i :: 0 <= i < |stories| ==> stories[i].Told(stored)
    ensures forall i :: 0 <= i < |stories| ==> stories[i].Weighed()
  {
  }

  lemma ConcludesTruthfully(s: Scheme, now: Moment, origin: Standing, end: Standing, dirs: seq<string>, acc: Account,
                            result: Summary, stories: seq<Story>)
    requires s.tuning.Valid() && OnRecord(s, now, origin, dirs, acc, stories) && Tells(result, acc)
    requires end.commits == now.commits && end.sessions == now.counts.sessions
    requires end.refused == origin.refused + acc.failed && end.Troubles() == now.Troubles()
    ensures Truthful(s, now.stored, origin, end, dirs, result, stories)
  {
    AllWeighed(stories, now.stored);
    FiguresOf(acc, result, stories, origin.sessions, end.sessions);
    ListsOf(acc, result, stories, origin.sessions, end.sessions);
  }

  /**
   Nothing stands in the way of a run over some directories: all its requests were confirmed, and the last attempt at
   each directory got its snapshot and read it all.
   */
  ghost predicate Unhindered(origin: Standing, now: Standing, stories: seq<Story>) {
    && stories != [] && now.refused == origin.refused && now.unconfirmed == origin.unconfirmed
    && forall t :: t in stories ==> t.Smooth()
  }

  lemma {:induction false} NothingToList(stories: seq<Story>, stored: set<Digest>)
    requires forall t :: t in stories ==> t.Told(stored) && t.Smooth() && t.end.Committed?
    ensures AllListed(stories, false) == []
    decreases |stories|
  {
    if stories != [] {
      FrontAndLast(stories);
      NothingToList(stories[..|stories| - 1], stored);
    }
  }

  /** Such a run succeeds. */
  lemma UnhinderedSucceeds(s: Scheme, stored: set<Digest>, origin: Standing, now: Standing, dirs: seq<string>,
                           result: Summary, stories: seq<Story>)
    requires s.tuning.Valid() && Truthful(s, stored, origin, now, dirs, result, stories)
    requires Unhindered(origin, now, stories)
    ensures AllGood(result.directories) && result.failed == 0 && result.skipped == [] && Success(result.outcome)
  {
    forall i | 0 <= i < |result.directories|
      ensures result.directories[i].ok
    {
      assert stories[i] in stories && stories[i].end.Committed?;
    }
    forall t | t in stories
      ensures t.Told(stored)
    {
      var i :| 0 <= i < |stories| && stories[i] == t;
    }
    NothingToList(stories, stored);
  }

  /** Whatever became of the run so far: nothing is lost, and no session is open. */
  ghost predicate Orderly(client: PbsClient, t: Tuning, origin: Standing, directories: nat)
    requires t.Valid()
    reads client
  {
    && InOrder(client, t) && !client.live && origin.commits <= client.commits
    && origin.sessions <= client.sessions <= origin.sessions + MAX_DIR_ATTEMPTS * directories
  }

  lemma TurnRecorded(s: Scheme, was: Moment, now: Moment, origin: Standing, dirs: seq<string>, acc: Account,
                     stories: seq<Story>, story: Story, after: Account, dir: string)
    requires s.tuning.Valid() && OnRecord(s, was, origin, dirs, acc, stories) && |acc.results| < |dirs|
    requires dir == dirs[|acc.results|] && Turned(s, was, now, dir, story)
    requires !story.end.Stopped?
    requires after.created == now.counts.created && after.reused == now.counts.reused
    requires after == acc.Then(dir, story.end, after.created, after.reused, after.failed, now.files.readErrors,
                               now.files.excluded)
    ensures OnRecord(s, now, origin, dirs, after, stories + [story])
  {
    AccurateLater(s, was.stored, now.stored, was.commits, now.commits, |origin.commits|, dirs, acc.results, stories,
                  story);
    RepeatingMore(stories, story);
    ExcusedMore(stories, story, was.Troubles() - origin.Troubles(), now.Troubles() - was.Troubles());
    OneMoreReckoned(acc, stories, origin.sessions, was.counts, now.counts, dir, story, after);
  }

  /** Between two directories. */
  ghost predicate Running(client: PbsClient, t: Tuning, origin: Standing, dirs: seq<string>, totals: Totals,
                          acc: Account, stories: seq<Story>)
    requires t.Valid()
    reads client, totals
  {
    && Orderly(client, t, origin, |acc.results|) && acc.failed == totals.failed
    && OnRecord(SchemeOf(client, t), MomentOf(client, totals), origin, dirs, acc, stories)
  }

  /** The next directory, unless the run is stopped before or during it. */
  method NextDirectory(client: PbsClient, table: seq<bv32>, totals: Totals, opts: BackupOptions, dirs: seq<string>,
                       stop: StopButton, was: Account, ghost before: seq<Story>, ghost origin: Standing)
    returns (stopped: bool, acc: Account, ghost stories: seq<Story>)
    requires |table| == 256 && Running(client, TuningFor(table, AVERAGE), origin, dirs, totals, was, before)
             && |was.results| < |dirs| && stop.Valid()
    modifies client, totals, stop
    ensures stop.Valid() && Orderly(client, TuningFor(table, AVERAGE), origin, |was.results| + 1)
            && (stopped ==> stop.seen)
    ensures old(stop.pressed) ==> stopped && client.commits == old(client.commits)
    ensures !stopped ==>
              |acc.results| == |was.results| + 1
              && Running(client, TuningFor(table, AVERAGE), origin, dirs, totals, acc, stories)
  {
    acc, stories := was, before;
    var dir := dirs[|was.results|];
    ghost var s, moment := SchemeOf(client, TuningFor(table, AVERAGE)), MomentOf(client, totals);
    stopped := stop.Poll();
    if stopped {
      return;
    }
    assert MomentOf(client, totals) == moment;
    var end;
    ghost var story;
    end, story := BackupDirectory(client, table, totals, opts, dir, stop);
    stopped := end == Stopped;
    if !stopped {
      acc := was.Then(dir, end, totals.created, totals.reused, totals.failed, client.readErrors, client.excludedFiles);
      TurnRecorded(s, moment, MomentOf(client, totals), origin, dirs, was, before, story, acc, dir);
      stories := before + [story];
    }
  }

  lemma NothingReckoned(n: int)
    ensures Reckoned(NothingTold, [], n, n)
  {
  }

  lemma NothingRecorded(s: Scheme, now: Moment, origin: Standing, dirs: seq<string>)
    requires s.tuning.Valid() && now.commits == origin.commits && now.files == NoFiles
    requires now.counts.created == now.counts.reused == 0 && now.counts.sessions == origin.sessions
    requires now.uncounted == origin.refused && now.Troubles() == origin.Troubles()
    ensures OnRecord(s, now, origin, dirs, NothingTold, [])
  {
    NothingReckoned(origin.sessions);
  }

  lemma NothingToTell()
    ensures Tells(NothingYet(Failed), NothingTold)
  {
  }

  lemma NothingHappened(s: Scheme, now: Moment, origin: Standing, dirs: seq<string>, result: Summary)
    requires s.tuning.Valid() && now.commits == origin.commits && now.files == NoFiles
    requires now.counts.created == now.counts.reused == 0 && now.counts.sessions == origin.sessions
    requires now.uncounted == origin.refused && now.Troubles() == origin.Troubles()
    requires result == NothingYet(Failed)
    ensures Truthful(s, now.stored, origin, origin, dirs, result, [])
  {
    NothingRecorded(s, now, origin, dirs);
    NothingToTell();
    ConcludesTruthfully(s, now, origin, origin, dirs, NothingTold, result, []);
  }

  /** Directory after directory, until all are done or the run is stopped. */
  method BackupAll(client: PbsClient, table: seq<bv32>, totals: Totals, opts: BackupOptions, dirs: seq<string>,
                   stop: StopButton, ghost origin: Standing)
    returns (stopped: bool, acc: Account, ghost stories: seq<Story>)
    requires |table| == 256 && Running(client, TuningFor(table, AVERAGE), origin, dirs, totals, NothingTold, [])
             && stop.Valid()
    modifies client, totals, stop
    ensures stop.Valid() && Orderly(client, TuningFor(table, AVERAGE), origin, |dirs|) && (stopped ==> stop.seen)
    ensures !stopped ==>
              |acc.results| == |dirs|
              && Running(client, TuningFor(table, AVERAGE), origin, dirs, totals, acc, stories)
  {
    acc, stories := NothingTold, [];
    var i := 0;
    while i < |dirs|
      invariant i == |acc.results| <= |dirs| && stop.Valid()
      invariant Running(client, TuningFor(table, AVERAGE), origin, dirs, totals, acc, stories)
    {
      stopped, acc, stories := NextDirectory(client, table, totals, opts, dirs, stop, acc, stories, origin);
      if stopped {
        return;
      }
      i := i + 1;
    }
    stopped := false;
  }

  /** Counters and lists of a run that is about to start, with a client of its own. */
  method Start(client: PbsClient, t: Tuning, dirs: seq<string>) returns (totals: Totals)
    requires t.Valid() && InOrder(client, t) && !client.live
    modifies client`readErrors, client`excludedFiles
    ensures fresh(totals) && Running(client, t, StandingOf(client), dirs, totals, NothingTold, [])
  {
    client.readErrors, client.excludedFiles := [], [];
    totals := new Totals();
    NothingRecorded(SchemeOf(client, t), MomentOf(client, totals), StandingOf(client), dirs);
  }

  /** The result of a run that was not stopped. */
  method Finished(client: PbsClient, t: Tuning, ghost origin: Standing, dirs: seq<string>, totals: Totals,
                  acc: Account, ghost stories: seq<Story>)
    returns (report: Report)
    requires t.Valid() && Running(client, t, origin, dirs, totals, acc, stories) && |acc.results| == |dirs|
    ensures Consistent(report) && report.err != ErrCancelled && |report.results[0].directories| == |dirs|
    ensures Truthful(SchemeOf(client, t), client.store.Keys, origin, StandingOf(client), dirs, report.results[0],
                     stories)
    ensures Unhindered(origin, StandingOf(client), stories) ==> report.err == NoError
  {
    var summary := Conclude(acc);
    ConcludesTruthfully(SchemeOf(client, t), MomentOf(client, totals), origin, StandingOf(client), dirs, acc, summary,
                        stories);
    if Unhindered(origin, StandingOf(client), stories) {
      UnhinderedSucceeds(SchemeOf(client, t), client.store.Keys, origin, StandingOf(client), dirs, summary, stories);
    }
    var ok := Success(summary.outcome);
    report := Report([ok], [summary], if ok then NoError else Incomplete);
  }

  /** A run that found its directories. */
  method RunFound(client: PbsClient, table: seq<bv32>, opts: BackupOptions, dirs: seq<string>, stop: StopButton)
    returns (report: Report, ghost stories: seq<Story>)
    requires |table| == 256 && InOrder(client, TuningFor(table, AVERAGE)) && !client.live && stop.Valid()
    modifies client, stop
    ensures InOrder(client, TuningFor(table, AVERAGE)) && !client.live && old(client.commits) <= client.commits
    ensures old(client.sessions) <= client.sessions <= old(client.sessions) + 2 * |dirs|
    ensures Consistent(report) && (report.err == ErrCancelled ==> stop.seen)
    ensures report.err != ErrCancelled ==>
              Truthful(SchemeOf(client, TuningFor(table, AVERAGE)), client.store.Keys, old(StandingOf(client)),
                       StandingOf(client), dirs, report.results[0], stories)
    ensures report.err != ErrCancelled ==> |report.results[0].directories| == |dirs|
    ensures report.err != ErrCancelled && Unhindered(old(StandingOf(client)), StandingOf(client), stories) ==>
              report.err == NoError
  {
    ghost var origin := StandingOf(client);
    var stopped, acc;
    var totals := Start(client, TuningFor(table, AVERAGE), dirs);
    stopped, acc, stories := BackupAll(client, table, totals, opts, dirs, stop, origin);
    if stopped {
      return Report([false], [], ErrCancelled), stories;
    }
    report := Finished(client, TuningFor(table, AVERAGE), origin, dirs, totals, acc, stories);
  }

  /**
   The whole run. `found` says whether the directories were there, `stories` what became of each of them. It succeeds
   unless something stood in its way.
   */
  method Run(client: PbsClient, table: seq<bv32>, opts: BackupOptions, dirs: seq<string>, stop: StopButton)
    returns (report: Report, ghost found: bool, ghost stories: seq<Story>)
    requires |table| == 256 && InOrder(client, TuningFor(table, AVERAGE)) && !client.live && stop.Valid()
    modifies client, stop
    ensures InOrder(client, TuningFor(table, AVERAGE)) && !client.live && old(client.commits) <= client.commits
    ensures old(client.sessions) <= client.sessions <= old(client.sessions) + 2 * |dirs|
    ensures Consistent(report) && (report.err == ErrCancelled ==> stop.seen)
    ensures report.err != ErrCancelled ==>
              Truthful(SchemeOf(client, TuningFor(table, AVERAGE)), client.store.Keys, old(StandingOf(client)),
                       StandingOf(client), dirs, report.results[0], stories)
    ensures report.err != ErrCancelled ==> |report.results[0].directories| == (if found then |dirs| else 0)
    ensures found && report.err != ErrCancelled && Unhindered(old(StandingOf(client)), StandingOf(client), stories) ==>
              report.err == NoError
    ensures report.err == NoError ==> found
  {
    var missing: bool := *;
    found := dirs == [] || !missing;
    if dirs != [] && missing {
      stories := [];
      report := Report([false], [NothingYet(Failed)], Incomplete);
      ghost var now := Moment(client.store.Keys, client.commits, NoFiles, Counts(0, 0, client.sessions),
                              client.refused, client.unconfirmed, client.refused);
      NothingHappened(SchemeOf(client, TuningFor(table, AVERAGE)), now, StandingOf(client), dirs, report.results[0]);
    } else {
      report, stories := RunFound(client, table, opts, dirs, stop);
    }
  }

  lemma AllCommitted(s: Scheme, stored: set<Digest>, commits: seq<Commit>, before: nat, dirs: seq<string>,
                     results: seq<DirResult>, stories: seq<Story>)
    requires s.tuning.Valid() && Accurate(s, stored, commits, before, dirs, results, stories) && AllGood(results)
    ensures forall t :: t in stories ==>
              && t.end.Committed? && t.last.connected && t.Told(stored)
              && t.last.files == Files(t.last.part.walk.readErrors, t.last.part.walk.excluded)
  {
    forall t | t in stories
      ensures t.end.Committed? && t.Told(stored)
    {
      var i :| 0 <= i < |stories| && stories[i] == t;
      assert results[i].ok;
    }
  }

  /** All directories good: the lists are those of their walks; and if no session was lost the counters are exact. */
  lemma AllGoodIsExact(s: Scheme, stored: set<Digest>, origin: Standing, now: Standing, dirs: seq<string>,
                       result: Summary, stories: seq<Story>)
    requires s.tuning.Valid() && Truthful(s, stored, origin, now, dirs, result, stories)
    requires AllGood(result.directories)
    ensures result.skipped == SkippedToIssues(AllOwn(stories, false))
    ensures result.excluded == ExcludedToIssues(AllOwn(stories, true))
    ensures forall t :: t in stories ==> t.last.files == Files(t.last.part.walk.readErrors, t.last.part.walk.excluded)
    ensures now.sessions - origin.sessions == |result.directories| ==>
              result.created == AllDue(stories, NewChunks) && result.reused == AllDue(stories, ReusedChunks)
  {
    AllCommitted(s, stored, now.commits, |origin.commits|, dirs, result.directories, stories);
    if now.sessions - origin.sessions == |result.directories| {
      OneSessionDue(stories);
      VainToo(stories, stored);
      NoSessionNothing(AllVain(stories), stored);
    }
  }

  /** A run over a single directory, as every directory backup is: its lists are exact, whatever becomes of it. */
  lemma OneDirectoryListsExact(s: Scheme, stored: set<Digest>, origin: Standing, now: Standing, dirs: seq<string>,
                               result: Summary, stories: seq<Story>)
    requires s.tuning.Valid() && Truthful(s, stored, origin, now, dirs, result, stories) && |dirs| == 1
    ensures result.skipped == SkippedToIssues(AllOwn(stories, false))
    ensures result.excluded == ExcludedToIssues(AllOwn(stories, true))
  {
    assert forall t :: t in stories ==> t == stories[0];
  }
}
