/** Jobs declared in the configuration are merged into the stored ones (mergeProvisionedJobs in gui/scheduler.go). */
module Provisioning {
  import opened Schedules

  function WithID(text: Text, job: Job): Job {
    if job.id == "" then job.(id := text.slug(job.name)) else job
  }

  /** The last job with this ID, or -1. */
  function LastIndex(jobs: seq<Job>, id: string): (i: int)
    ensures -1 <= i < |jobs|
    ensures i >= 0 ==> jobs[i].id == id
    ensures forall k :: i < k < |jobs| ==> jobs[k].id != id
  {
    if jobs == [] then -1
    else if jobs[|jobs| - 1].id == id then |jobs| - 1
    else LastIndex(jobs[..|jobs| - 1], id)
  }

  /** A declared job takes the place of a stored one, but keeps its history and, if it may, its next run. */
  function Replace(text: Text, prev: Job, declared: Job, now: nat): Job {
    declared.(lastRun := prev.lastRun,
              nextRun := if declared.schedule == prev.schedule && prev.nextRun.At? then prev.nextRun
                         else if declared.enabled && declared.schedule != "" &&
                                 (declared.schedule != prev.schedule || !declared.nextRun.At?) then
                           CalculateNextRun(text, declared.schedule, now)
                         else declared.nextRun)
  }

  function Added(text: Text, declared: Job, now: nat): Job {
    if declared.enabled && declared.schedule != "" && !declared.nextRun.At? then
      declared.(nextRun := CalculateNextRun(text, declared.schedule, now))
    else declared
  }

  function Upsert(text: Text, jobs: seq<Job>, declared: Job, now: nat): (after: seq<Job>)
    ensures |jobs| <= |after| <= |jobs| + 1
  {
    var i := LastIndex(jobs, declared.id);
    if i >= 0 then jobs[i := Replace(text, jobs[i], declared, now)] else jobs + [Added(text, declared, now)]
  }

  function Merge(text: Text, existing: seq<Job>, declared: seq<Job>, now: nat): seq<Job> {
    if declared == [] then existing
    else
      var n := |declared| - 1;
      Upsert(text, Merge(text, existing, declared[..n], now), WithID(text, declared[n]), now)
  }

  ghost predicate Indexed(byID: map<string, nat>, jobs: seq<Job>) {
    && (forall i :: 0 <= i < |jobs| ==> jobs[i].id in byID)
    && (forall id :: id in byID ==> byID[id] < |jobs| && byID[id] == LastIndex(jobs, id))
  }

  lemma IndexOne(byID: map<string, nat>, jobs: seq<Job>, job: Job)
    requires Indexed(byID, jobs)
    ensures Indexed(byID[job.id := |jobs|], jobs + [job])
  {
    assert (jobs + [job])[..|jobs|] == jobs;
  }

  lemma {:induction false} SameIDsSameIndex(jobs: seq<Job>, other: seq<Job>, id: string)
    requires |jobs| == |other| && forall i :: 0 <= i < |jobs| ==> jobs[i].id == other[i].id
    ensures LastIndex(jobs, id) == LastIndex(other, id)
  {
    if jobs != [] {
      SameIDsSameIndex(jobs[..|jobs| - 1], other[..|other| - 1], id);
    }
  }

  lemma IndexKept(byID: map<string, nat>, jobs: seq<Job>, other: seq<Job>)
    requires Indexed(byID, jobs) && |jobs| == |other| && forall i :: 0 <= i < |jobs| ==> jobs[i].id == other[i].id
    ensures Indexed(byID, other)
  {
    forall id | id in byID
      ensures byID[id] == LastIndex(other, id)
    {
      SameIDsSameIndex(jobs, other, id);
    }
  }

  lemma NotIndexed(byID: map<string, nat>, jobs: seq<Job>, id: string)
    requires Indexed(byID, jobs) && id !in byID
    ensures LastIndex(jobs, id) == -1
  {
  }

  method IndexByID(jobs: seq<Job>) returns (byID: map<string, nat>)
    ensures Indexed(byID, jobs)
  {
    byID := map[];
    var i := 0;
    while i < |jobs|
      invariant i <= |jobs| && Indexed(byID, jobs[..i])
    {
      IndexOne(byID, jobs[..i], jobs[i]);
      assert jobs[..i + 1] == jobs[..i] + [jobs[i]];
      byID := byID[jobs[i].id := i];
      i := i + 1;
    }
    assert jobs[..i] == jobs;
  }

  /** A declared job whose ID is stored replaces the stored job. */
  method ReplaceJob(text: Text, declared: Job, prev: Job, now: nat) returns (job: Job)
    ensures job == Replace(text, prev, declared, now)
  {
    job := declared.(lastRun := prev.lastRun);
    if job.schedule == prev.schedule && prev.nextRun.At? {
      job := job.(nextRun := prev.nextRun);
    } else if job.enabled && job.schedule != "" && (job.schedule != prev.schedule || !job.nextRun.At?) {
      job := job.(nextRun := CalculateNextRun(text, job.schedule, now));
    }
  }

  method UpsertJob(text: Text, jobs: seq<Job>, index: map<string, nat>, declared: Job, now: nat)
    returns (out: seq<Job>, byID: map<string, nat>)
    requires Indexed(index, jobs)
    ensures out == Upsert(text, jobs, declared, now) && Indexed(byID, out)
  {
    byID := index;
    if declared.id in byID {
      var idx := byID[declared.id];
      var job := ReplaceJob(text, declared, jobs[idx], now);
      IndexKept(byID, jobs, jobs[idx := job]);
      out := jobs[idx := job];
    } else {
      NotIndexed(byID, jobs, declared.id);
      var job := declared;
      if job.enabled && job.schedule != "" && !job.nextRun.At? {
        job := job.(nextRun := CalculateNextRun(text, job.schedule, now));
      }
      IndexOne(byID, jobs, job);
      byID := byID[job.id := |jobs|];
      out := jobs + [job];
    }
  }

  method MergeProvisionedJobs(text: Text, existing: seq<Job>, declared: seq<Job>, now: nat) returns (out: seq<Job>)
    ensures out == Merge(text, existing, declared, now)
  {
    out := existing;
    var byID := IndexByID(out);
    var i := 0;
    while i < |declared|
      invariant i <= |declared| && out == Merge(text, existing, declared[..i], now) && Indexed(byID, out)
    {
      assert declared[..i + 1][..i] == declared[..i];
      var job := declared[i];
      if job.id == "" {
        job := job.(id := text.slug(job.name));
      }
      out, byID := UpsertJob(text, out, byID, job, now);
      i := i + 1;
    }
    assert declared[..i] == declared;
  }

  // What merging keeps.

  /** The stored jobs stay where they are, keep their IDs and last runs, and change only if they are declared. */
  ghost predicate KeepsStored(before: seq<Job>, after: seq<Job>, declaredIDs: set<string>) {
    && |before| <= |after|
    && forall i :: 0 <= i < |before| ==>
         && after[i].id == before[i].id && after[i].lastRun == before[i].lastRun
         && (before[i].id !in declaredIDs ==> after[i] == before[i])
  }

  function IDs(text: Text, declared: seq<Job>): set<string> {
    set i | 0 <= i < |declared| :: WithID(text, declared[i]).id
  }

  lemma {:induction false} MergeKeepsStored(text: Text, existing: seq<Job>, declared: seq<Job>, now: nat)
    ensures KeepsStored(existing, Merge(text, existing, declared, now), IDs(text, declared))
  {
    if declared != [] {
      var n := |declared| - 1;
      MergeKeepsStored(text, existing, declared[..n], now);
      assert WithID(text, declared[n]).id in IDs(text, declared);
      assert forall i :: 0 <= i < n ==> declared[..n][i] == declared[i];
      assert IDs(text, declared[..n]) <= IDs(text, declared);
    }
  }

  // Idempotence.

  /** Upserting a job again, at any later time, changes nothing... */
  ghost predicate Settled(text: Text, stored: Job, declared: Job) {
    && stored == declared.(lastRun := stored.lastRun, nextRun := stored.nextRun)
    && (stored.nextRun.At? || (stored.nextRun == declared.nextRun && !(declared.enabled && declared.schedule != "")))
  }

  lemma SettledIsFixed(text: Text, stored: Job, declared: Job, now: nat)
    requires Settled(text, stored, declared)
    ensures Replace(text, stored, declared, now) == stored
  {
  }

  /** ...once it was upserted, provided its schedule can be read. */
  lemma UpsertSettles(text: Text, prev: Job, declared: Job, now: nat)
    requires declared.schedule == "" || ParseScheduleTime(text, declared.schedule).Some?
    ensures Settled(text, Replace(text, prev, declared, now), declared)
    ensures Settled(text, Added(text, declared, now), declared)
  {
  }

  /**
   For any schedule: replacing twice is replacing once unless a changed, unreadable schedule comes with a next run of
   its own.
   */
  lemma ReplaceTwice(text: Text, prev: Job, declared: Job, now: nat, later: nat)
    ensures var once := Replace(text, prev, declared, now);
            Replace(text, once, declared, later) == once <==>
            !(declared.enabled && declared.schedule != "" && ParseScheduleTime(text, declared.schedule).None? &&
              declared.schedule != prev.schedule && declared.nextRun.At?)
  {
  }

  ghost predicate DistinctIDs(text: Text, declared: seq<Job>) {
    forall i, j :: 0 <= i < j < |declared| ==> WithID(text, declared[i]).id != WithID(text, declared[j]).id
  }

  ghost predicate Readable(text: Text, declared: seq<Job>) {
    forall i :: 0 <= i < |declared| ==>
          declared[i].schedule == "" || ParseScheduleTime(text, declared[i].schedule).Some?
  }

  ghost predicate Stored(text: Text, jobs: seq<Job>, declared: Job) {
    var d := WithID(text, declared);
    LastIndex(jobs, d.id) >= 0 && Settled(text, jobs[LastIndex(jobs, d.id)], d)
  }

  lemma UpsertStores(text: Text, jobs: seq<Job>, declared: Job, now: nat)
    requires declared.schedule == "" || ParseScheduleTime(text, declared.schedule).Some?
    ensures Stored(text, Upsert(text, jobs, WithID(text, declared), now), declared)
  {
    var d := WithID(text, declared);
    var i := LastIndex(jobs, d.id);
    if i >= 0 {
      UpsertSettles(text, jobs[i], d, now);
      SameIDsSameIndex(jobs, Upsert(text, jobs, d, now), d.id);
    } else {
      UpsertSettles(text, d, d, now);
    }
  }

  /** Upserting another job leaves a stored one alone. */
  lemma UpsertLeaves(text: Text, jobs: seq<Job>, other: Job, declared: Job, now: nat)
    requires Stored(text, jobs, declared) && other.id != WithID(text, declared).id
    ensures Stored(text, Upsert(text, jobs, other, now), declared)
  {
    var id := WithID(text, declared).id;
    var after := Upsert(text, jobs, other, now);
    if LastIndex(jobs, other.id) >= 0 {
      SameIDsSameIndex(jobs, after, id);
    } else {
      assert after[..|jobs|] == jobs;
    }
  }

  lemma {:induction false} MergeStores(text: Text, existing: seq<Job>, declared: seq<Job>, now: nat)
    requires DistinctIDs(text, declared) && Readable(text, declared)
    ensures forall i :: 0 <= i < |declared| ==> Stored(text, Merge(text, existing, declared, now), declared[i])
  {
    if declared != [] {
      var n := |declared| - 1;
      MergeStores(text, existing, declared[..n], now);
      UpsertStores(text, Merge(text, existing, declared[..n], now), declared[n], now);
      forall i | 0 <= i < n
        ensures Stored(text, Merge(text, existing, declared, now), declared[i])
      {
        assert declared[..n][i] == declared[i];
        UpsertLeaves(text, Merge(text, existing, declared[..n], now), WithID(text, declared[n]), declared[i], now);
      }
    }
  }

  lemma {:induction false} MergeOfStored(text: Text, jobs: seq<Job>, declared: seq<Job>, later: nat)
    requires forall i :: 0 <= i < |declared| ==> Stored(text, jobs, declared[i])
    ensures Merge(text, jobs, declared, later) == jobs
  {
    if declared != [] {
      var n := |declared| - 1;
      MergeOfStored(text, jobs, declared[..n], later);
      var d := WithID(text, declared[n]);
      SettledIsFixed(text, jobs[LastIndex(jobs, d.id)], d, later);
    }
  }

  /** Provisioning the same jobs again, whenever, changes nothing. */
  lemma MergeIsIdempotent(text: Text, existing: seq<Job>, declared: seq<Job>, now: nat, later: nat)
    requires DistinctIDs(text, declared) && Readable(text, declared)
    ensures var once := Merge(text, existing, declared, now); Merge(text, once, declared, later) == once
  {
    MergeStores(text, existing, declared, now);
    MergeOfStored(text, Merge(text, existing, declared, now), declared, later);
  }

  /** Reconcile skips declared jobs that do not validate. */
  function Accepted(text: Text, declared: seq<Job>): (accepted: seq<Job>)
    ensures forall j :: j in accepted ==> j in declared && Validates(text, j)
    ensures Readable(text, accepted)
  {
    if declared == [] then []
    else
      var n := |declared| - 1;
      Accepted(text, declared[..n]) + if Validates(text, declared[n]) then [declared[n]] else []
  }
}
