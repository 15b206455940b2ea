/** What each step of the scheduler does (gui/scheduler.go), said of its jobs, its runners and the instants. */
module StepEffects {
  import opened Options
  import opened Lists
  import opened Schedules
  import opened Provisioning
  import opened Schedulers

  /** An hour and a minute can be read from the schedule. */
  ghost predicate Readable(text: Text, schedule: string) {
    match text.scanTime(schedule)
    case None => false
    case Some((h, m)) => 0 <= h <= 23 && 0 <= m <= 59
  }

  /** The first instant from now on at the schedule's time of day, in nanoseconds; nothing if it cannot be read. */
  ghost predicate FirstTime(text: Text, schedule: string, now: nat, next: Stamp) {
    if !Readable(text, schedule) then next == Absent
    else
      var (h, m) := text.scanTime(schedule).value;
      && next.At? && now <= next.instant < now + 86_400_000_000_000
      && next.instant % 86_400_000_000_000 == (60 * h + m) * 60_000_000_000
  }

  lemma NextIsFirstTime(text: Text, schedule: string, now: nat)
    ensures FirstTime(text, schedule, now, CalculateNextRun(text, schedule, now))
  {
    NextRunIsFirst(text, schedule, now);
  }

  /** A job the user may save: it has a name and something to back up, and it can run at some time. */
  ghost predicate Acceptable(text: Text, job: Job) {
    && !text.blank(job.name) && job.hasTargets
    && if job.schedule == "" then job.runAtStartup else Readable(text, job.schedule)
  }

  lemma ValidatesExactly(text: Text, job: Job)
    ensures Validates(text, job) <==> Acceptable(text, job)
  {
  }

  // Steps that start runners.

  lemma {:induction false} SpawnExactly(jobs: seq<Job>, due: Job -> bool, r: Runner)
    ensures multiset(Spawn(jobs, due))[r] == if r.stage == Spawned && due(r.job) then multiset(jobs)[r.job] else 0
  {
    if jobs != [] {
      var n := |jobs| - 1;
      SpawnExactly(jobs[..n], due, r);
      FrontAndLast(jobs);
      MultisetOfSum(jobs[..n], [jobs[n]]);
      MultisetOfSum(Spawn(jobs[..n], due), if due(jobs[n]) then [Runner(jobs[n], Spawned)] else []);
    }
  }

  /** The runners already there stay; the new ones have just been started. */
  ghost predicate StartsOnly(w: World, next: World) {
    next == w.(runners := next.runners) && w.runners <= next.runners
  }

  /**
   The tick starts a runner for each job that is enabled and past its next run, as often as the job is stored, and no
   other.
   */
  lemma TickStarts(text: Text, w: World, r: Runner)
    ensures var next := Apply(text, w, Tick);
            && StartsOnly(w, next)
            && multiset(next.runners[|w.runners|..])[r] ==
               (if r.stage == Spawned && r.job.enabled && r.job.nextRun.At? && w.now > r.job.nextRun.instant
                then multiset(w.jobs)[r.job] else 0)
  {
    SpawnExactly(w.jobs, DueAt(w.now), r);
    assert Apply(text, w, Tick).runners[|w.runners|..] == Spawn(w.jobs, DueAt(w.now));
  }

  /** The startup run does so for each job that is enabled and to run at startup. */
  lemma StartupStarts(text: Text, w: World, r: Runner)
    ensures var next := Apply(text, w, Startup);
            && StartsOnly(w, next)
            && multiset(next.runners[|w.runners|..])[r] ==
               (if r.stage == Spawned && r.job.enabled && r.job.runAtStartup then multiset(w.jobs)[r.job] else 0)
  {
    SpawnExactly(w.jobs, AtStartup(), r);
    assert Apply(text, w, Startup).runners[|w.runners|..] == Spawn(w.jobs, AtStartup());
  }

  lemma {:induction false} SpawnInOrder(a: seq<Job>, b: seq<Job>, due: Job -> bool)
    ensures Spawn(a + b, due) == Spawn(a, due) + Spawn(b, due)
    decreases |b|
  {
    if b == [] {
      assert a + b == a;
    } else {
      var n := |b| - 1;
      FrontAndLast(b);
      assert (a + b)[..|a| + n] == a + b[..n];
      SpawnInOrder(a, b[..n], due);
      SumOfThree(Spawn(a, due), Spawn(b[..n], due), if due(b[n]) then [Runner(b[n], Spawned)] else []);
    }
  }

  /** Both start the jobs in the order in which they are stored. */
  lemma StartsInOrder(text: Text, w: World, a: seq<Job>, b: seq<Job>, e: Event)
    requires e.Tick? || e.Startup?
    ensures Apply(text, w.(jobs := a + b), e).runners ==
            Apply(text, w.(jobs := a), e).runners + Apply(text, w.(jobs := b, runners := []), e).runners
  {
    if e.Tick? {
      SpawnInOrder(a, b, DueAt(w.now));
    } else {
      SpawnInOrder(a, b, AtStartup());
    }
  }

  /** Item i is the first job with this ID. */
  ghost predicate First(jobs: seq<Job>, id: string, i: nat) {
    i < |jobs| && jobs[i].id == id && forall k :: 0 <= k < i ==> jobs[k].id != id
  }

  lemma FirstIndexIsFirst(jobs: seq<Job>, id: string, i: nat)
    requires First(jobs, id, i)
    ensures FirstIndex(jobs, id) == i
  {
  }

  /** "Run now" starts the first job with this ID under a claim, unless it is running. */
  lemma RunNowStarts(text: Text, w: World, id: string, i: nat)
    ensures id in w.running || (forall j :: j in w.jobs ==> j.id != id) ==> Apply(text, w, RunNow(id)) == w
    ensures id !in w.running && First(w.jobs, id, i) ==>
              Apply(text, w, RunNow(id)) ==
              w.(running := w.running + {id}, runners := w.runners + [Runner(w.jobs[i], Claimed)])
  {
  }

  // Steps of a runner.

  /** One item less. */
  ghost predicate LessOne(before: seq<Runner>, after: seq<Runner>, r: nat) {
    && |after| + 1 == |before|
    && forall k :: 0 <= k < |after| ==> after[k] == if k < r then before[k] else before[k + 1]
  }

  /** One item at another stage. */
  ghost predicate AtStage(before: seq<Runner>, after: seq<Runner>, r: nat, stage: Stage) {
    && |after| == |before| && r < |after|
    && forall k :: 0 <= k < |after| ==> after[k] == if k == r then Runner(before[k].job, stage) else before[k]
  }

  /** A runner just started takes the claim if it is free and is gone if it is not. */
  lemma ClaimDoes(text: Text, w: World, r: nat)
    requires r < |w.runners| && w.runners[r].stage == Spawned
    ensures var next, id := Apply(text, w, Claim(r)), w.runners[r].job.id;
            && next == w.(running := w.running + {id}, runners := next.runners)
            && if id in w.running then LessOne(w.runners, next.runners, r)
               else AtStage(w.runners, next.runners, r, Claimed)
  {
    var id := w.runners[r].job.id;
    assert id in w.running ==> w.running + {id} == w.running;
  }

  /** A finished runner gives its claim back and is gone. */
  lemma ReleaseDoes(text: Text, w: World, r: nat)
    requires r < |w.runners| && w.runners[r].stage == Recorded
    ensures var next, id := Apply(text, w, Release(r)), w.runners[r].job.id;
            && next == w.(running := w.running - {id}, runners := next.runners)
            && LessOne(w.runners, next.runners, r)
  {
  }

  /** Only the first job with the runner's ID is changed: it ran now, and its stored schedule says when it runs next. */
  ghost predicate RanNow(text: Text, before: seq<Job>, after: seq<Job>, id: string, now: nat) {
    && |after| == |before|
    && forall k :: 0 <= k < |before| ==>
         if First(before, id, k) then
           && after[k] == before[k].(lastRun := At(now), nextRun := after[k].nextRun)
           && FirstTime(text, before[k].schedule, now, after[k].nextRun)
         else after[k] == before[k]
  }

  lemma RecordDoes(text: Text, w: World, r: nat, saved: bool)
    requires r < |w.runners| && w.runners[r].stage == Claimed
    ensures var next := Apply(text, w, Record(r, saved));
            && next == w.(jobs := next.jobs, runners := next.runners)
            && AtStage(w.runners, next.runners, r, Recorded)
            && if saved then RanNow(text, w.jobs, next.jobs, w.runners[r].job.id, w.now) else next.jobs == w.jobs
  {
    var i := FirstIndex(w.jobs, w.runners[r].job.id);
    if i < |w.jobs| {
      NextIsFirstTime(text, w.jobs[i].schedule, w.now);
    }
  }

  /** Out of turn a runner does nothing. */
  lemma OutOfTurn(text: Text, w: World, r: nat, saved: bool)
    ensures r >= |w.runners| || w.runners[r].stage != Spawned ==> Apply(text, w, Claim(r)) == w
    ensures r >= |w.runners| || w.runners[r].stage != Claimed ==> Apply(text, w, Record(r, saved)) == w
    ensures r >= |w.runners| || w.runners[r].stage != Recorded ==> Apply(text, w, Release(r)) == w
  {
  }

  // What the user does to the jobs.

  /** An acceptable job is stored after the others as it was sent, with its first run to come. */
  lemma SaveStores(text: Text, w: World, job: Job)
    ensures var next := Apply(text, w, Save(job));
            && next == w.(jobs := next.jobs)
            && if !Acceptable(text, job) then next.jobs == w.jobs
               else
                 && |next.jobs| == |w.jobs| + 1 && next.jobs[..|w.jobs|] == w.jobs
                 && var stored := next.jobs[|w.jobs|];
                    stored == job.(nextRun := stored.nextRun) && FirstTime(text, job.schedule, w.now, stored.nextRun)
  {
    ValidatesExactly(text, job);
    NextIsFirstTime(text, job.schedule, w.now);
  }

  /** The first job with the ID becomes what was sent, but for its last run and a compression that was not sent. */
  ghost predicate Replaced(text: Text, before: seq<Job>, after: seq<Job>, job: Job, now: nat) {
    && |after| == |before|
    && forall k :: 0 <= k < |before| ==>
         if First(before, job.id, k) then
           && after[k] == job.(lastRun := before[k].lastRun, nextRun := after[k].nextRun,
                               compression := if job.compression != "" then job.compression else before[k].compression)
           && FirstTime(text, job.schedule, now, after[k].nextRun)
         else after[k] == before[k]
  }

  lemma UpdateReplaces(text: Text, w: World, job: Job)
    ensures var next := Apply(text, w, Update(job));
            && next == w.(jobs := next.jobs)
            && if Acceptable(text, job) then Replaced(text, w.jobs, next.jobs, job, w.now) else next.jobs == w.jobs
  {
    ValidatesExactly(text, job);
    NextIsFirstTime(text, job.schedule, w.now);
  }

  function Others(job: Job, id: string): seq<Job> {
    if job.id != id then [job] else []
  }

  lemma {:induction false} WithoutExactly(jobs: seq<Job>, id: string, j: Job)
    ensures multiset(Without(jobs, id))[j] == if j.id == id then 0 else multiset(jobs)[j]
  {
    if jobs != [] {
      var n := |jobs| - 1;
      WithoutExactly(jobs[..n], id, j);
      FrontAndLast(jobs);
      MultisetOfSum(jobs[..n], [jobs[n]]);
      MultisetOfSum(Without(jobs[..n], id), Others(jobs[n], id));
    }
  }

  lemma WithoutSnoc(jobs: seq<Job>, job: Job, id: string)
    ensures Without(jobs + [job], id) == Without(jobs, id) + Others(job, id)
  {
    assert (jobs + [job])[..|jobs|] == jobs;
  }

  /** A delete keeps the order of the other jobs. */
  lemma {:induction false} WithoutInOrder(a: seq<Job>, b: seq<Job>, id: string)
    ensures Without(a + b, id) == Without(a, id) + Without(b, id)
    decreases |b|
  {
    if b == [] {
      assert a + b == a;
    } else {
      var front, last := b[..|b| - 1], b[|b| - 1];
      FrontAndLast(b);
      SumOfThree(a, front, [last]);
      WithoutInOrder(a, front, id);
      WithoutSnoc(a + front, last, id);
      WithoutSnoc(front, last, id);
      SumOfThree(Without(a, id), Without(front, id), Others(last, id));
    }
  }

  /** Exactly the jobs with this ID are gone. */
  lemma DeleteRemoves(text: Text, w: World, id: string, j: Job)
    ensures var next := Apply(text, w, Delete(id));
            && next == w.(jobs := next.jobs)
            && multiset(next.jobs)[j] == (if j.id == id then 0 else multiset(w.jobs)[j])
  {
    WithoutExactly(w.jobs, id, j);
  }

  // Provisioning and repair.

  lemma {:induction false} AcceptedExactly(text: Text, declared: seq<Job>, j: Job)
    ensures multiset(Accepted(text, declared))[j] == if Acceptable(text, j) then multiset(declared)[j] else 0
  {
    if declared != [] {
      var n := |declared| - 1;
      AcceptedExactly(text, declared[..n], j);
      ValidatesExactly(text, declared[n]);
      FrontAndLast(declared);
      MultisetOfSum(declared[..n], [declared[n]]);
      MultisetOfSum(Accepted(text, declared[..n]), if Validates(text, declared[n]) then [declared[n]] else []);
    }
  }

  /** A declared job that is stored keeps its last run, and its next run if its schedule has not changed. */
  ghost predicate TakesPlace(text: Text, prev: Job, declared: Job, now: nat, stored: Job) {
    && stored == declared.(lastRun := prev.lastRun, nextRun := stored.nextRun)
    && if declared.schedule == prev.schedule && prev.nextRun.At? then stored.nextRun == prev.nextRun
       else if !declared.enabled || declared.schedule == "" then stored.nextRun == declared.nextRun
       else if declared.schedule == prev.schedule && declared.nextRun.At? then stored.nextRun == declared.nextRun
       else FirstTime(text, declared.schedule, now, stored.nextRun)
  }

  /** A new one is stored as declared, and if it is to run and has no next run it gets one. */
  ghost predicate Joins(text: Text, declared: Job, now: nat, stored: Job) {
    && stored == declared.(nextRun := stored.nextRun)
    && if !declared.enabled || declared.schedule == "" || declared.nextRun.At? then stored.nextRun == declared.nextRun
       else FirstTime(text, declared.schedule, now, stored.nextRun)
  }

  /** Item i is the last job with this ID. */
  ghost predicate Last(jobs: seq<Job>, id: string, i: nat) {
    i < |jobs| && jobs[i].id == id && forall k :: i < k < |jobs| ==> jobs[k].id != id
  }

  /** One more declared job, which without an ID of its own goes by its name. */
  lemma ProvisionOneMore(text: Text, jobs: seq<Job>, declared: seq<Job>, d: Job, now: nat)
    ensures var before, after := Merge(text, jobs, declared, now), Merge(text, jobs, declared + [d], now);
            var job := d.(id := if d.id == "" then text.slug(d.name) else d.id);
            if exists j :: j in before && j.id == job.id then
              && |after| == |before|
              && forall k :: 0 <= k < |before| ==>
                   if Last(before, job.id, k) then TakesPlace(text, before[k], job, now, after[k])
                   else after[k] == before[k]
            else |after| == |before| + 1 && after[..|before|] == before && Joins(text, job, now, after[|before|])
    ensures Merge(text, jobs, [], now) == jobs
  {
    assert (declared + [d])[..|declared|] == declared;
    NextIsFirstTime(text, d.schedule, now);
  }

  lemma ProvisionMerges(text: Text, w: World, declared: seq<Job>, d: Job)
    ensures var accepted, next := Accepted(text, declared), Apply(text, w, Provision(declared));
            && next == w.(jobs := Merge(text, w.jobs, accepted, w.now))
            && multiset(accepted)[d] == (if Acceptable(text, d) then multiset(declared)[d] else 0)
  {
    AcceptedExactly(text, declared, d);
  }

  /** A next run that is missing or cannot be read is set anew for a job that is to run; nothing else changes. */
  lemma RepairSets(text: Text, w: World)
    ensures var next := Apply(text, w, Repair);
            && next == w.(jobs := next.jobs) && |next.jobs| == |w.jobs|
            && forall k :: 0 <= k < |w.jobs| ==>
                 if w.jobs[k].enabled && w.jobs[k].schedule != "" && !w.jobs[k].nextRun.At? then
                   && next.jobs[k] == w.jobs[k].(nextRun := next.jobs[k].nextRun)
                   && FirstTime(text, w.jobs[k].schedule, w.now, next.jobs[k].nextRun)
                 else next.jobs[k] == w.jobs[k]
  {
    forall k | 0 <= k < |w.jobs|
      ensures FirstTime(text, w.jobs[k].schedule, w.now, CalculateNextRun(text, w.jobs[k].schedule, w.now))
    {
      NextIsFirstTime(text, w.jobs[k].schedule, w.now);
    }
  }

  /** Time goes on, and a restart forgets who was running; neither touches the jobs. */
  lemma PassAndRestart(text: Text, w: World, time: nat)
    ensures Apply(text, w, Pass(time)) == w.(now := w.now + time)
    ensures Apply(text, w, Restart) == World(w.jobs, w.now, {}, [])
  {
  }
}
