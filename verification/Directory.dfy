/**
 One directory of a backup run (the loop body of runBackupInlineInternal in gui/backup_inline.go): a server session
 of its own, tried again once when it is lost, then finished or closed; the user may stop at any moment.
 */
module Directories {
  import opened Lists
  import opened Options
  import opened Chunkers
  import opened Chunking
  import opened DynamicIndexes
  import opened PbsClients
  import opened ChunkWriters
  import opened StopButtons
  import opened Snapshots

  const MAX_DIR_ATTEMPTS := 2
  const MAX_FINISH_ATTEMPTS := 5
  const SESSION_LOST_RETRY_WAIT := 25 * 60
  const WAIT_SLICE := 30

  datatype BackupOptions = BackupOptions(useVSS: bool, batchVSS: bool, snapshotPath: string)

  /**
   A snapshot on the server is sound: manifest there, no cancel had been seen, both indexes hold what one walk wrote.
   */
  ghost predicate Sound(s: Scheme, stored: set<Digest>, c: Commit)
    requires s.tuning.Valid()
  {
    && c.manifest && !c.afterCancel
    && exists pieces {:trigger Captured(s, stored, c.files, pieces)} :: Captured(s, stored, c.files, pieces)
  }

  /**
   What holds at every step of every run: the store is honest, all snapshots are sound and no session was abandoned.
   */
  ghost predicate InOrder(client: PbsClient, t: Tuning)
    requires t.Valid()
    reads client`store, client`abandoned, client`commits
  {
    && Honest(client.chunkDigest, client.store)
    && client.abandoned == 0
    && forall i :: 0 <= i < |client.commits| ==> Sound(SchemeOf(client, t), client.store.Keys, client.commits[i])
  }

  lemma StillCaptured(s: Scheme, stored: set<Digest>, later: set<Digest>, files: map<nat, IndexFile>,
                      pieces: seq<Piece>)
    requires s.tuning.Valid() && Captured(s, stored, files, pieces) && stored <= later
    ensures Captured(s, later, files, pieces)
  {
    var archived, catalogued := Stream(pieces, false), Stream(pieces, true);
    forall a, k | BothHeld(s, stored, files, a, k, archived, catalogued)
      ensures BothHeld(s, later, files, a, k, archived, catalogued)
    {
      BothHeldNow(s, stored, later, files, files, a, k, archived, catalogued);
    }
  }

  lemma StillSound(s: Scheme, stored: set<Digest>, later: set<Digest>, c: Commit)
    requires s.tuning.Valid() && Sound(s, stored, c) && stored <= later
    ensures Sound(s, later, c)
  {
    var pieces :| Captured(s, stored, c.files, pieces);
    StillCaptured(s, stored, later, c.files, pieces);
  }

  /** Deduplication loses nothing: a sound snapshot reads back, from any later store, as exactly what was written. */
  lemma SoundReadsBack(s: Scheme, stored: set<Digest>, later: ChunkStore, c: Commit)
    requires s.tuning.Valid() && Sound(s, stored, c) && stored <= later.Keys
    requires CollisionFree(s.digest) && Honest(s.digest, later)
    ensures exists a, k, pieces {:trigger Captured(s, stored, c.files, pieces), c.files[a], c.files[k]} ::
              && c.files.Keys == {a, k} && c.files[a].name == ARCHIVE && c.files[k].name == CATALOG
              && (forall d :: d in c.files[a].digests + c.files[k].digests ==> d in later)
              && ReadBack(later, c.files[a].digests) == Stream(pieces, false)
              && ReadBack(later, c.files[k].digests) == Stream(pieces, true)
  {
    var pieces :| Captured(s, stored, c.files, pieces);
    var archived, catalogued := Stream(pieces, false), Stream(pieces, true);
    forall a, k | BothHeld(s, stored, c.files, a, k, archived, catalogued)
      ensures (forall d :: d in c.files[a].digests + c.files[k].digests ==> d in later)
      ensures ReadBack(later, c.files[a].digests) == archived && ReadBack(later, c.files[k].digests) == catalogued
    {
      RestorableReadsBack(s.digest, stored, later, c.files[a], s.tuning, archived);
      RestorableReadsBack(s.digest, stored, later, c.files[k], s.tuning, catalogued);
    }
  }

  lemma AllStillSound(s: Scheme, stored: set<Digest>, later: set<Digest>, commits: seq<Commit>)
    requires s.tuning.Valid() && stored <= later
    requires forall i :: 0 <= i < |commits| ==> Sound(s, stored, commits[i])
    ensures forall i :: 0 <= i < |commits| ==> Sound(s, later, commits[i])
  {
    forall i | 0 <= i < |commits|
      ensures Sound(s, later, commits[i])
    {
      StillSound(s, stored, later, commits[i]);
    }
  }

  /** The files a session could not read or left out. */
  datatype Files = Files(readErrors: seq<string>, excluded: seq<string>)

  const NoFiles := Files([], [])

  ghost function FilesOf(client: PbsClient): Files
    reads client`readErrors, client`excludedFiles
  {
    Files(client.readErrors, client.excludedFiles)
  }

  /** What one attempt read, the digests known before it, those it made known, and how many chunks it reused. */
  datatype Part = Part(walk: Walk, previous: set<Digest>, made: set<Digest>, reused: nat)

  /** What a run counts. */
  datatype Figure = ArchivedBytes | NewChunks | ReusedChunks | SessionsOpened

  /** What stood in the way: a snapshot refused or not released, a cancel seen, requests that were not confirmed. */
  datatype Hindrance = Hindrance(snapshot: bool, cancel: bool, troubles: nat)

  /**
   One attempt: how it ended, what stood in its way, what it took in, whether it opened a session, and the client's
   lists after it.
   */
  datatype Try = Try(end: Attempt, hindrance: Hindrance, part: Part, connected: bool, files: Files) {
    /**
     What holds of any attempt, `stored` being what the server has by now. It gets through unless there was a reason
     not to. The lists are those of its walk, or empty if it failed before the walk's end.
     */
    ghost predicate Told(stored: set<Digest>) {
      && (end.Done? <==> !hindrance.snapshot && Deserved(part.walk, hindrance.cancel, hindrance.troubles))
      && (!connected ==> hindrance.snapshot)
      && (forall d :: d in part.made ==> d in stored && d !in part.previous)
      && (end.Done? ==> connected)
      && (connected ==> files == Files(part.walk.readErrors, part.walk.excluded) || (end.GaveUp? && files == NoFiles))
      && (!connected ==> end == GaveUp(false) && part.made == {} && part.reused == 0)
    }

    /** Without a session of its own it leaves the lists that were there. */
    predicate Keeps(before: Files) {
      connected || files == before
    }

    /** What it adds to the run's counters; bytes are only added once a directory is committed. */
    function Cost(f: Figure): nat {
      match f
      case ArchivedBytes => 0
      case NewChunks => |part.made|
      case ReusedChunks => part.reused
      case SessionsOpened => if connected then 1 else 0
    }
  }

  function CostOf(tries: seq<Try>, f: Figure): nat
    decreases |tries|
  {
    if tries == [] then 0 else CostOf(tries[..|tries| - 1], f) + tries[|tries| - 1].Cost(f)
  }

  lemma CostOfOneMore(tries: seq<Try>, next: Try, f: Figure)
    ensures CostOf(tries + [next], f) == CostOf(tries, f) + next.Cost(f)
  {
    assert (tries + [next])[..|tries|] == tries;
  }

  lemma {:induction false} CostOfSum(a: seq<Try>, b: seq<Try>, f: Figure)
    ensures CostOf(a + b, f) == CostOf(a, f) + CostOf(b, f)
    decreases |b|
  {
    if b == [] {
      assert a + b == a;
    } else {
      var n := |b| - 1;
      FrontAndLast(b);
      assert a + b == (a + b[..n]) + [b[n]];
      CostOfOneMore(a + b[..n], b[n], f);
      CostOfSum(a, b[..n], f);
    }
  }

  /** None of these attempts made a digest known, or reused a chunk, or opened a session. */
  ghost predicate Nothing(tries: seq<Try>, f: Figure) {
    forall t :: t in tries ==> t.Cost(f) == 0
  }

  lemma NothingMore(tries: seq<Try>, last: Try, f: Figure)
    ensures Nothing(tries + [last], f) <==> Nothing(tries, f) && last.Cost(f) == 0
  {
    assert forall t :: t in tries + [last] <==> t in tries || t == last;
  }

  lemma {:induction false} CostsNothing(tries: seq<Try>, f: Figure)
    ensures CostOf(tries, f) == 0 <==> Nothing(tries, f)
    decreases |tries|
  {
    if tries != [] {
      var n := |tries| - 1;
      FrontAndLast(tries);
      CostsNothing(tries[..n], f);
      NothingMore(tries[..n], tries[n], f);
    }
  }

  lemma {:induction false} OneSessionEach(tries: seq<Try>)
    ensures CostOf(tries, SessionsOpened) <= |tries|
    decreases |tries|
  {
    if tries != [] {
      OneSessionEach(tries[..|tries| - 1]);
    }
  }

  /** Chunks counted as new and as reused, and the sessions opened for that. */
  datatype Counts = Counts(created: int, reused: int, sessions: int)

  /** The run's chunk counters, and the sessions opened so far. */
  ghost function Tallied(client: PbsClient, totals: Totals): Counts
    reads client`sessions, totals
  {
    Counts(totals.created, totals.reused, client.sessions)
  }

  /** From one count to the other by one attempt. */
  ghost predicate Grown(before: Counts, now: Counts, it: Try) {
    && now.created == before.created + it.Cost(NewChunks)
    && now.reused == before.reused + it.Cost(ReusedChunks)
    && now.sessions == before.sessions + it.Cost(SessionsOpened)
  }

  /** From one count to the other by these attempts. */
  ghost predicate Spent(before: Counts, now: Counts, lost: seq<Try>, last: Try) {
    && now.created == before.created + CostOf(lost, NewChunks) + last.Cost(NewChunks)
    && now.reused == before.reused + CostOf(lost, ReusedChunks) + last.Cost(ReusedChunks)
    && now.sessions == before.sessions + CostOf(lost, SessionsOpened) + last.Cost(SessionsOpened)
  }

  lemma SpentMore(before: Counts, now: Counts, lost: seq<Try>, last: Try, next: Try, later: Counts)
    requires Spent(before, now, lost, last) && Grown(now, later, next)
    ensures Spent(before, later, lost + [last], next)
  {
    CostOfOneMore(lost, last, NewChunks);
    CostOfOneMore(lost, last, ReusedChunks);
    CostOfOneMore(lost, last, SessionsOpened);
  }

  /** The previous index names chunks the server has; without a previous snapshot it is empty. */
  method DownloadPrevious(client: PbsClient) returns (previous: set<Digest>)
    ensures previous <= client.store.Keys
  {
    previous :| previous <= client.store.Keys;
  }

  /** Whatever is found on disk. */
  method ReadDisk() returns (walk: Walk)
  {
    walk := *;
  }

  /** An attempt that got through took in its walk whole. */
  ghost predicate TakenWhole(s: Scheme, part: Part, bytes: nat)
    requires s.tuning.Valid()
  {
    && Counted(s, part.previous, part.walk.pieces, part.made, part.reused)
    && bytes == |Stream(part.walk.pieces, false)|
  }

  lemma ReportedAlone(walk: Walk, files: Files, done: bool)
    requires Reported(walk, [], [], files.readErrors, files.excluded, done)
    ensures files == Files(walk.readErrors, walk.excluded) || (!done && files == NoFiles)
  {
    NothingBefore(walk.readErrors);
    NothingBefore(walk.excluded);
  }

  /** A snapshot is asked for, or to be released again. */
  method AskSnapshot(totals: Totals) returns (refused: bool)
    modifies totals`refusals
    ensures totals.refusals == old(totals.refusals) + (if refused then 1 else 0)
  {
    refused := *;
    totals.refusals := totals.refusals + if refused then 1 else 0;
  }

  /** An attempt that gets to open its session. Releasing its snapshot may fail at the very end. */
  method TrySession(client: PbsClient, table: seq<bv32>, totals: Totals, opts: BackupOptions, dir: string,
                    walk: Walk, stop: StopButton)
    returns (r: Attempt, ghost it: Try)
    requires |table| == 256 && InOrder(client, TuningFor(table, AVERAGE)) && !client.live && stop.Valid()
    modifies client, totals, stop
    ensures InOrder(client, TuningFor(table, AVERAGE)) && stop.Valid() && client.commits == old(client.commits)
    ensures old(client.store).Keys <= client.store.Keys
    ensures it.end == r && it.Told(client.store.Keys) && it.connected && FilesOf(client) == it.files
    ensures it.hindrance.cancel == stop.seen
    ensures totals.refusals == old(totals.refusals) + (if it.hindrance.snapshot then 1 else 0)
    ensures it.hindrance.snapshot ==> opts.useVSS && opts.snapshotPath == ""
    ensures client.Troubles() == old(client.Troubles()) + it.hindrance.troubles
    ensures Grown(old(Tallied(client, totals)), Tallied(client, totals), it)
    ensures r.Done? ==> Ready(client, TuningFor(table, AVERAGE), dir, it.part.walk, stop)
    ensures r.Done? ==> TakenWhole(SchemeOf(client, TuningFor(table, AVERAGE)), it.part, r.bytes)
    ensures client.refused - totals.failed == old(client.refused - totals.failed)
  {
    var previous := DownloadPrevious(client);
    ghost var stored, made, reused := client.store.Keys, {}, 0;
    r, made, reused := BackupReal(client, table, totals, dir, previous, walk, stop);
    AllStillSound(SchemeOf(client, TuningFor(table, AVERAGE)), stored, client.store.Keys, client.commits);
    var releaseFailed := false;
    if opts.snapshotPath == "" && opts.useVSS {
      releaseFailed := AskSnapshot(totals);
      if releaseFailed {
        r := RequestFailed();
      }
    }
    it := Try(r, Hindrance(releaseFailed, stop.seen, client.Troubles() - old(client.Troubles())),
              Part(walk, previous, made, reused), true, FilesOf(client));
    ReportedAlone(walk, it.files, r.Done?);
  }

  /**
   One attempt. A folder of a batch reads the batch's snapshot; otherwise a snapshot of its own may be taken. However
   it ends, the counters grew by what it took in.
   */
  method TryDirectory(client: PbsClient, table: seq<bv32>, totals: Totals, opts: BackupOptions, dir: string,
                      stop: StopButton)
    returns (r: Attempt, ghost it: Try)
    requires |table| == 256 && InOrder(client, TuningFor(table, AVERAGE)) && !client.live && stop.Valid()
    modifies client, totals, stop
    ensures InOrder(client, TuningFor(table, AVERAGE)) && stop.Valid() && client.commits == old(client.commits)
    ensures old(client.store).Keys <= client.store.Keys
    ensures it.end == r && it.Told(client.store.Keys) && it.Keeps(old(FilesOf(client)))
    ensures FilesOf(client) == it.files && (it.hindrance.cancel ==> stop.pressed)
    ensures it.hindrance.snapshot <==>
            (opts.batchVSS && opts.snapshotPath == "") || totals.refusals > old(totals.refusals)
    ensures !opts.useVSS || opts.snapshotPath != "" ==> totals.refusals == old(totals.refusals)
    ensures client.Troubles() == old(client.Troubles()) + it.hindrance.troubles
    ensures Grown(old(Tallied(client, totals)), Tallied(client, totals), it)
    ensures r.Done? ==> Ready(client, TuningFor(table, AVERAGE), dir, it.part.walk, stop)
    ensures r.Done? ==> TakenWhole(SchemeOf(client, TuningFor(table, AVERAGE)), it.part, r.bytes)
    ensures client.refused - totals.failed == old(client.refused - totals.failed)
  {
    var walk := ReadDisk();
    it := Try(GaveUp(false), Hindrance(true, false, 0), Part(walk, {}, {}, 0), false, FilesOf(client));
    if opts.batchVSS && opts.snapshotPath == "" {
      return GaveUp(false), it;
    }
    if opts.snapshotPath == "" && opts.useVSS {
      var snapshotRefused := AskSnapshot(totals);
      if snapshotRefused {
        return GaveUp(false), it;
      }
    }
    r, it := TrySession(client, table, totals, opts, dir, walk, stop);
  }

  /** Let the server release the group lock: 25 minutes, looking at the stop button every 30 seconds. */
  method WaitForLock(stop: StopButton) returns (cancelled: bool, ghost waited: nat)
    requires stop.Valid()
    modifies stop
    ensures stop.Valid() && stop.seen == cancelled && (old(stop.pressed) ==> cancelled)
    ensures !cancelled ==> waited >= 25 * 60
  {
    waited := 0;
    var remaining := SESSION_LOST_RETRY_WAIT;
    cancelled := stop.Poll();
    while !cancelled && remaining > 0
      invariant stop.Valid() && stop.seen == cancelled && (old(stop.pressed) ==> cancelled)
      invariant waited + remaining == 25 * 60
      decreases remaining
    {
      var sleepFor := if remaining < WAIT_SLICE then remaining else WAIT_SLICE;
      var slept: nat :| slept >= sleepFor;
      remaining, waited := remaining - slept, waited + slept;
      cancelled := stop.Poll();
    }
  }

  /** Attempts after which another one was made: each lost its session. */
  ghost predicate AllLost(lost: seq<Try>, stored: set<Digest>) {
    |lost| < MAX_DIR_ATTEMPTS && forall t :: t in lost ==> t.end == GaveUp(true) && t.Told(stored)
  }

  /**
   A directory's attempts, from the run's counts and lists before them to its counts now. Without a session of its own
   the last one leaves the lists of the attempt before.
   */
  ghost predicate Attempted(lost: seq<Try>, last: Try, stored: set<Digest>, before: Files, start: Counts, now: Counts) {
    && AllLost(lost, stored) && last.Told(stored)
    && last.Keeps(if lost == [] then before else lost[|lost| - 1].files)
    && Spent(start, now, lost, last)
  }

  lemma LostToo(lost: seq<Try>, last: Try, stored: set<Digest>, later: set<Digest>)
    requires AllLost(lost, stored) && last.Told(stored) && last.end == GaveUp(true) && stored <= later
    requires |lost| + 1 < MAX_DIR_ATTEMPTS
    ensures AllLost(lost + [last], later)
  {
  }

  lemma AttemptedMore(lost: seq<Try>, last: Try, stored: set<Digest>, before: Files, start: Counts, now: Counts,
                      next: Try, later: set<Digest>, counts: Counts)
    requires Attempted(lost, last, stored, before, start, now) && last.end == GaveUp(true)
    requires |lost| + 1 < MAX_DIR_ATTEMPTS && stored <= later && next.Told(later) && next.Keeps(last.files)
    requires Grown(now, counts, next)
    ensures Attempted(lost + [last], next, later, before, start, counts)
  {
    LostToo(lost, last, stored, later);
    SpentMore(start, now, lost, last, next, counts);
    LastOfMore(lost, last);
  }

  /**
   A run at one moment: what is stored and committed, its lists, its counts, the requests not confirmed, and the
   refusals it has not counted.
   */
  datatype Moment = Moment(stored: set<Digest>, commits: seq<Commit>, files: Files, counts: Counts, refused: nat,
                           unconfirmed: nat, uncounted: int)
  {
    function Troubles(): nat {
      refused + unconfirmed
    }
  }

  ghost function MomentOf(client: PbsClient, totals: Totals): Moment
    reads client, totals
  {
    Moment(client.store.Keys, client.commits, FilesOf(client), Tallied(client, totals), client.refused,
           client.unconfirmed, client.refused - totals.failed)
  }

  /**
   After these attempts nothing was committed and nothing lost, the lists are the last one's, and the counters grew by
   what all of them took in.
   */
  ghost predicate Tried(start: Moment, now: Moment, lost: seq<Try>, last: Try) {
    && now.commits == start.commits && start.stored <= now.stored && now.uncounted == start.uncounted
    && now.Troubles() >= start.Troubles() + last.hindrance.troubles
    && Attempted(lost, last, now.stored, start.files, start.counts, now.counts) && now.files == last.files
  }

  /** The attempt after one that lost its session. */
  method TryAgain(client: PbsClient, table: seq<bv32>, totals: Totals, opts: BackupOptions, dir: string,
                  stop: StopButton, ghost start: Moment, ghost lost: seq<Try>, ghost last: Try)
    returns (r: Attempt, ghost next: Try)
    requires |table| == 256 && InOrder(client, TuningFor(table, AVERAGE)) && !client.live && stop.Valid()
    requires Tried(start, MomentOf(client, totals), lost, last)
    requires last.end == GaveUp(true) && |lost| + 1 < MAX_DIR_ATTEMPTS
    modifies client, totals, stop
    ensures InOrder(client, TuningFor(table, AVERAGE)) && next.end == r && stop.Valid()
    ensures next.hindrance.cancel ==> stop.pressed
    ensures Tried(start, MomentOf(client, totals), lost + [last], next)
    ensures r.Done? ==> Ready(client, TuningFor(table, AVERAGE), dir, next.part.walk, stop)
    ensures r.Done? ==> TakenWhole(SchemeOf(client, TuningFor(table, AVERAGE)), next.part, r.bytes)
  {
    ghost var stored, now := client.store.Keys, Tallied(client, totals);
    r, next := TryDirectory(client, table, totals, opts, dir, stop);
    AttemptedMore(lost, last, stored, start.files, start.counts, now, next, client.store.Keys,
                  Tallied(client, totals));
  }

  /** The first attempt, seen as all the attempts so far. */
  method TryFirst(client: PbsClient, table: seq<bv32>, totals: Totals, opts: BackupOptions, dir: string,
                  stop: StopButton)
    returns (r: Attempt, ghost it: Try)
    requires |table| == 256 && InOrder(client, TuningFor(table, AVERAGE)) && !client.live && stop.Valid()
    modifies client, totals, stop
    ensures InOrder(client, TuningFor(table, AVERAGE)) && it.end == r && stop.Valid()
    ensures it.hindrance.cancel ==> stop.pressed
    ensures Tried(old(MomentOf(client, totals)), MomentOf(client, totals), [], it)
    ensures r.Done? ==> Ready(client, TuningFor(table, AVERAGE), dir, it.part.walk, stop)
    ensures r.Done? ==> TakenWhole(SchemeOf(client, TuningFor(table, AVERAGE)), it.part, r.bytes)
  {
    r, it := TryDirectory(client, table, totals, opts, dir, stop);
  }

  /** After a failed attempt its session is closed, and if that was lost and may be tried again, its lock waited for. */
  method LeaveSession(client: PbsClient, sessionLost: bool, attempt: nat, stop: StopButton)
    returns (again: bool, cancelled: bool, ghost waited: nat)
    requires stop.Valid()
    modifies client`live, stop
    ensures !client.live && stop.Valid() && (cancelled ==> stop.seen)
    ensures again == (sessionLost && attempt < MAX_DIR_ATTEMPTS && !cancelled) && (again ==> waited >= 25 * 60)
    ensures cancelled ==> sessionLost && attempt < MAX_DIR_ATTEMPTS
    ensures old(stop.pressed) ==> stop.pressed && !again
  {
    client.Close();
    again, cancelled, waited := sessionLost && attempt < MAX_DIR_ATTEMPTS, false, 0;
    if again {
      cancelled, waited := WaitForLock(stop);
      again := !cancelled;
    }
  }

  /**
   Up to two attempts; the second after a lost session, and only then, unless a cancel was seen. Every failed attempt's
   session is closed.
   */
  method AttemptDirectory(client: PbsClient, table: seq<bv32>, totals: Totals, opts: BackupOptions, dir: string,
                          stop: StopButton)
    returns (cancelled: bool, r: Attempt, ghost lost: seq<Try>, ghost last: Try)
    requires |table| == 256 && InOrder(client, TuningFor(table, AVERAGE)) && !client.live && stop.Valid()
    modifies client, totals, stop
    ensures InOrder(client, TuningFor(table, AVERAGE)) && last.end == r && stop.Valid()
    ensures Tried(old(MomentOf(client, totals)), MomentOf(client, totals), lost, last)
    ensures cancelled ==> stop.seen && r.GaveUp?
    ensures r == GaveUp(true) ==> cancelled || |lost| == 1
    ensures last.hindrance.cancel ==> stop.pressed
    ensures r.Done? ==> Ready(client, TuningFor(table, AVERAGE), dir, last.part.walk, stop)
    ensures r.Done? ==> TakenWhole(SchemeOf(client, TuningFor(table, AVERAGE)), last.part, r.bytes)
    ensures r.GaveUp? ==> !client.live
  {
    ghost var start := MomentOf(client, totals);
    var attempt := 1;
    cancelled := false;
    lost := [];
    r, last := TryFirst(client, table, totals, opts, dir, stop);
    while r.GaveUp?
      invariant 1 <= attempt <= MAX_DIR_ATTEMPTS && !cancelled && |lost| == attempt - 1
      invariant InOrder(client, TuningFor(table, AVERAGE)) && last.end == r && stop.Valid()
      invariant last.hindrance.cancel ==> stop.pressed
      invariant Tried(start, MomentOf(client, totals), lost, last)
      invariant r.Done? ==> Ready(client, TuningFor(table, AVERAGE), dir, last.part.walk, stop)
      invariant r.Done? ==> TakenWhole(SchemeOf(client, TuningFor(table, AVERAGE)), last.part, r.bytes)
      decreases MAX_DIR_ATTEMPTS - attempt
    {
      var again;
      ghost var waited;
      again, cancelled, waited := LeaveSession(client, r.sessionLost, attempt, stop);
      if !again {
        return;
      }
      attempt := attempt + 1;
      ghost var was := last;
      r, last := TryAgain(client, table, totals, opts, dir, stop, start, lost, was);
      lost := lost + [was];
    }
  }

  /** Finish, up to five times; given up early only when an error is hopeless, not worth retrying. */
  method FinishWithRetries(client: PbsClient, ghost cancelSeen: bool) returns (ok: bool, ghost hopeless: bool)
    modifies client`live, client`commits, client`unconfirmed
    ensures !ok && !hopeless ==> client.unconfirmed == old(client.unconfirmed) + 5
    ensures client.unconfirmed >= old(client.unconfirmed) && (!ok ==> client.unconfirmed > old(client.unconfirmed))
    ensures old(client.commits) <= client.commits && |client.commits| <= |old(client.commits)| + 5
    ensures forall i :: |old(client.commits)| <= i < |client.commits| ==>
                          client.commits[i] == Commit(client.source, client.writers, client.manifested, cancelSeen)
    ensures ok ==> |client.commits| > |old(client.commits)| && !client.live
  {
    var attempt := 0;
    ok, hopeless := false, false;
    while attempt < MAX_FINISH_ATTEMPTS && !ok
      invariant client.unconfirmed == old(client.unconfirmed) + attempt - (if ok then 1 else 0)
      invariant attempt == 0 ==> !ok
      invariant old(client.commits) <= client.commits && |client.commits| <= |old(client.commits)| + attempt
      invariant attempt <= MAX_FINISH_ATTEMPTS
      invariant forall i :: |old(client.commits)| <= i < |client.commits| ==>
                              client.commits[i] == Commit(client.source, client.writers, client.manifested, cancelSeen)
      invariant ok ==> |client.commits| > |old(client.commits)| && !client.live
      decreases MAX_FINISH_ATTEMPTS - attempt
    {
      ok := client.Finish(cancelSeen);
      var retryable: bool := *;
      if !ok && !retryable {
        hopeless := true;
        return;
      }
      attempt := attempt + 1;
    }
  }

  /** `later` has more snapshots than `earlier`, all of them of this source and holding what this walk wrote. */
  ghost predicate CommittedOnly(s: Scheme, stored: set<Digest>, earlier: seq<Commit>, later: seq<Commit>,
                                source: string, pieces: seq<Piece>)
    requires s.tuning.Valid()
  {
    && earlier <= later
    && forall i :: |earlier| <= i < |later| ==> later[i].source == source && Captured(s, stored, later[i].files, pieces)
  }

  /** Among the snapshots after the first `before` ones there is one of this source that holds what this walk wrote. */
  ghost predicate Kept(s: Scheme, stored: set<Digest>, commits: seq<Commit>, before: nat, source: string,
                       pieces: seq<Piece>)
    requires s.tuning.Valid()
  {
    exists i :: before <= i < |commits| && commits[i].source == source && Captured(s, stored, commits[i].files, pieces)
  }

  lemma KeptLater(s: Scheme, stored: set<Digest>, later: set<Digest>, commits: seq<Commit>, more: seq<Commit>,
                  before: nat, source: string, pieces: seq<Piece>)
    requires s.tuning.Valid() && stored <= later && commits <= more && Kept(s, stored, commits, before, source, pieces)
    ensures Kept(s, later, more, before, source, pieces)
  {
    var i :| before <= i < |commits| && commits[i].source == source && Captured(s, stored, commits[i].files, pieces);
    StillCaptured(s, stored, later, commits[i].files, pieces);
    assert more[i] == commits[i];
  }

  /**
   A session that is ready may be finished: what gets committed, confirmed or not, is sound and holds what this walk
   wrote.
   */
  method FinishDirectory(client: PbsClient, t: Tuning, ghost walk: Walk, dir: string, stop: StopButton)
    returns (ok: bool)
    requires t.Valid() && InOrder(client, t) && Ready(client, t, dir, walk, stop)
    modifies client`live, client`commits, client`unconfirmed
    ensures InOrder(client, t) && !client.live
    ensures client.unconfirmed >= old(client.unconfirmed) && (!ok ==> client.unconfirmed > old(client.unconfirmed))
    ensures CommittedOnly(SchemeOf(client, t), client.store.Keys, old(client.commits), client.commits, dir, walk.pieces)
    ensures ok ==> |client.commits| > |old(client.commits)|
  {
    assert Sound(SchemeOf(client, t), client.store.Keys,
                 Commit(client.source, client.writers, client.manifested, stop.seen));
    ghost var hopeless;
    ok, hopeless := FinishWithRetries(client, stop.seen);
    if !ok {
      client.Close();
    }
  }

  /** A directory whose finish was not confirmed may have been committed all the same. */
  datatype DirEnd = Stopped | NotConfirmed | Committed(bytes: nat)

  /** What became of a directory: its end, the attempts that lost their session, and the last one. */
  datatype Story = Story(end: DirEnd, lost: seq<Try>, last: Try) {
    ghost predicate Told(stored: set<Digest>) {
      && AllLost(lost, stored) && last.Told(stored)
      && (end.Committed? ==> last.end == Done(end.bytes)) && Weighed()
    }

    /** A committed directory's size is that of the archive it wrote. */
    ghost predicate Weighed() {
      end.Committed? ==> end.bytes == |Stream(last.part.walk.pieces, false)|
    }

    /** It had a session at some time: a second attempt is made only after one. */
    predicate Opened() {
      lost != [] || last.connected
    }

    /** Its last attempt got its snapshot, if it needed one, and read the directory without an error. */
    ghost predicate Smooth() {
      var walk := last.part.walk;
      !last.hindrance.snapshot && walk.complete && !ReadsNothing(walk.pieces) && walk.readErrors == []
    }

    /** The attempts no confirmed snapshot came of. */
    function Vain(): seq<Try> {
      if end.Committed? then lost else lost + [last]
    }
  }

  /** After the attempts: stop if asked to, give the directory up if they failed, finish its session otherwise. */
  method EndDirectory(client: PbsClient, t: Tuning, r: Attempt, ghost walk: Walk, dir: string, stop: StopButton)
    returns (end: DirEnd)
    requires t.Valid() && InOrder(client, t) && stop.Valid()
    requires if r.Done? then Ready(client, t, dir, walk, stop) else !client.live
    modifies client`live, client`commits, client`unconfirmed, stop
    ensures InOrder(client, t) && !client.live && stop.Valid()
    ensures client.unconfirmed >= old(client.unconfirmed)
    ensures end.NotConfirmed? ==> r.GaveUp? || client.unconfirmed > old(client.unconfirmed)
    ensures CommittedOnly(SchemeOf(client, t), client.store.Keys, old(client.commits), client.commits, dir, walk.pieces)
    ensures end.Stopped? ==> stop.seen && client.commits == old(client.commits)
    ensures old(stop.pressed) ==> end.Stopped?
    ensures end.Committed? ==> |client.commits| > |old(client.commits)| && r == Done(end.bytes)
  {
    var stopped := stop.Poll();
    if stopped {
      if r.Done? {
        client.Close();
      }
      return Stopped;
    }
    if r.GaveUp? {
      return NotConfirmed;
    }
    var ok := FinishDirectory(client, t, walk, dir, stop);
    return if ok then Committed(r.bytes) else NotConfirmed;
  }

  /** Why a directory is not confirmed: no cancel, but its last attempt failed, or a request was not confirmed. */
  ghost predicate NotSmooth(story: Story, troubles: int) {
    && !story.last.hindrance.cancel && (story.last.end.GaveUp? || troubles > 0)
    && (story.last.end == GaveUp(true) ==> |story.lost| == 1)
    && story.last.hindrance.troubles <= troubles
  }

  /**
   What one directory does to a run. Whatever was committed for it, confirmed or not, holds what its last attempt read;
   the counters grew by what all its attempts took in; the lists are the last attempt's.
   */
  ghost predicate Turned(s: Scheme, was: Moment, now: Moment, dir: string, story: Story)
    requires s.tuning.Valid()
  {
    && was.stored <= now.stored && now.uncounted == was.uncounted && now.files == story.last.files
    && story.Told(now.stored)
    && Attempted(story.lost, story.last, now.stored, was.files, was.counts, now.counts)
    && was.counts.sessions <= now.counts.sessions <= was.counts.sessions + 2
    && CommittedOnly(s, now.stored, was.commits, now.commits, dir, story.last.part.walk.pieces)
    && now.Troubles() >= was.Troubles()
    && (story.end.NotConfirmed? ==> NotSmooth(story, now.Troubles() - was.Troubles()))
    && (story.end.Stopped? ==> now.commits == was.commits)
    && (story.end.Committed? ==>
          |now.commits| > |was.commits| && TakenWhole(s, story.last.part, story.end.bytes))
  }

  /** Ending a directory changes no more than what is committed. */
  lemma TurnEnds(s: Scheme, was: Moment, tried: Moment, now: Moment, dir: string, story: Story)
    requires s.tuning.Valid() && Tried(was, tried, story.lost, story.last)
    requires now == tried.(commits := now.commits, unconfirmed := now.unconfirmed)
    requires now.unconfirmed >= tried.unconfirmed
    requires story.end.NotConfirmed? ==>
               && !story.last.hindrance.cancel && (story.last.end.GaveUp? || now.unconfirmed > tried.unconfirmed)
               && (story.last.end == GaveUp(true) ==> |story.lost| == 1)
    requires CommittedOnly(s, now.stored, was.commits, now.commits, dir, story.last.part.walk.pieces)
    requires story.end.Stopped? ==> now.commits == was.commits
    requires story.end.Committed? ==>
               && |now.commits| > |was.commits| && TakenWhole(s, story.last.part, story.end.bytes)
               && story.last.end == Done(story.end.bytes)
    ensures Turned(s, was, now, dir, story)
  {
    OneSessionEach(story.lost);
  }

  /** One directory from its first attempt to its commit, or to the session being dropped. */
  method BackupDirectory(client: PbsClient, table: seq<bv32>, totals: Totals, opts: BackupOptions, dir: string,
                         stop: StopButton)
    returns (end: DirEnd, ghost story: Story)
    requires |table| == 256 && InOrder(client, TuningFor(table, AVERAGE)) && !client.live && stop.Valid()
    modifies client, totals, stop
    ensures InOrder(client, TuningFor(table, AVERAGE)) && !client.live && stop.Valid()
    ensures Turned(SchemeOf(client, TuningFor(table, AVERAGE)), old(MomentOf(client, totals)),
                   MomentOf(client, totals), dir, story)
    ensures story.end == end && (end.Stopped? ==> stop.seen)
  {
    ghost var was := MomentOf(client, totals);
    var cancelled, r;
    ghost var lost, last;
    cancelled, r, lost, last := AttemptDirectory(client, table, totals, opts, dir, stop);
    ghost var tried := MomentOf(client, totals);
    end := Stopped;
    if !cancelled {
      end := EndDirectory(client, TuningFor(table, AVERAGE), r, last.part.walk, dir, stop);
    }
    story := Story(end, lost, last);
    TurnEnds(SchemeOf(client, TuningFor(table, AVERAGE)), was, tried, MomentOf(client, totals), dir, story);
  }
}
