/**
 What the scheduler promises about runs (gui/scheduler.go): an overdue run stays due until it is done or the user
 changes the job, every tick tries to start it, and a finished run is no longer due.
 */
module MissedRuns {
  import opened Schedules
  import opened Provisioning
  import opened Schedulers

  /** This job has the ID and the schedule and its next run at t; with `on` it is enabled, too. */
  predicate Awaits(j: Job, id: string, schedule: string, t: nat, on: bool) {
    j.id == id && j.schedule == schedule && j.nextRun == At(t) && (on ==> j.enabled)
  }

  /** There is such a job. */
  ghost predicate Pending(jobs: seq<Job>, id: string, schedule: string, t: nat, on: bool) {
    exists j :: j in jobs && Awaits(j, id, schedule, t, on)
  }

  /**
   The steps that may change the next run of a job: its own finished run, an edit, a delete, a declared new schedule;
   with `on` also a declaration that disables it.
   */
  ghost predicate Touches(text: Text, w: World, e: Event, id: string, schedule: string, on: bool) {
    match e
    case Record(r, saved) => saved && r < |w.runners| && w.runners[r].stage == Claimed && w.runners[r].job.id == id
    case Update(job) => job.id == id && Validates(text, job)
    case Delete(deleted) => deleted == id
    case Provision(declared) =>
      exists d :: d in Accepted(text, declared) && WithID(text, d).id == id
                  && (d.schedule != schedule || (on && !d.enabled))
    case _ => false
  }

  lemma ReplacedPending(jobs: seq<Job>, i: nat, job: Job, id: string, schedule: string, t: nat, on: bool)
    requires i < |jobs| && Pending(jobs, id, schedule, t, on)
    requires Awaits(jobs[i], id, schedule, t, on) ==> Awaits(job, id, schedule, t, on)
    ensures Pending(jobs[i := job], id, schedule, t, on)
  {
    var j :| j in jobs && Awaits(j, id, schedule, t, on);
    var k :| 0 <= k < |jobs| && jobs[k] == j;
    assert jobs[i := job][k] == if k == i then job else j;
    assert jobs[i := job][k] in jobs[i := job];
  }

  lemma UpsertKeepsPending(text: Text, jobs: seq<Job>, d: Job, now: nat, id: string, schedule: string, t: nat,
                           on: bool)
    requires Pending(jobs, id, schedule, t, on) && (d.id == id ==> d.schedule == schedule && (on ==> d.enabled))
    ensures Pending(Upsert(text, jobs, d, now), id, schedule, t, on)
  {
    var i := LastIndex(jobs, d.id);
    if i >= 0 {
      ReplacedPending(jobs, i, Replace(text, jobs[i], d, now), id, schedule, t, on);
    }
  }

  lemma {:induction false} MergeKeepsPending(text: Text, jobs: seq<Job>, declared: seq<Job>, now: nat, id: string,
                                             schedule: string, t: nat, on: bool)
    requires Pending(jobs, id, schedule, t, on)
    requires forall d :: d in declared && WithID(text, d).id == id ==> d.schedule == schedule && (on ==> d.enabled)
    ensures Pending(Merge(text, jobs, declared, now), id, schedule, t, on)
  {
    if declared != [] {
      var n := |declared| - 1;
      MergeKeepsPending(text, jobs, declared[..n], now, id, schedule, t, on);
      assert declared[n] in declared;
      UpsertKeepsPending(text, Merge(text, jobs, declared[..n], now), WithID(text, declared[n]), now, id, schedule, t,
                         on);
    }
  }

  lemma RepairKeepsPending(text: Text, jobs: seq<Job>, now: nat, id: string, schedule: string, t: nat, on: bool)
    requires Pending(jobs, id, schedule, t, on)
    ensures Pending(RepairAll(text, jobs, now), id, schedule, t, on)
  {
    var j :| j in jobs && Awaits(j, id, schedule, t, on);
    var k :| 0 <= k < |jobs| && jobs[k] == j;
    assert RepairAll(text, jobs, now)[k] == j;
  }

  lemma StepKeepsPending(text: Text, w: World, e: Event, id: string, schedule: string, t: nat, on: bool)
    requires Pending(w.jobs, id, schedule, t, on) && !Touches(text, w, e, id, schedule, on)
    ensures Pending(Apply(text, w, e).jobs, id, schedule, t, on)
  {
    match e
    case Record(r, saved) =>
      if saved && r < |w.runners| && w.runners[r].stage == Claimed {
        var i := FirstIndex(w.jobs, w.runners[r].job.id);
        if i < |w.jobs| {
          ReplacedPending(w.jobs, i, Ran(text, w.jobs[i], w.now), id, schedule, t, on);
        }
      }
    case Save(job) =>
      var j :| j in w.jobs && Awaits(j, id, schedule, t, on);
      assert j in SaveStep(text, w, job);
    case Update(job) =>
      var i := FirstIndex(w.jobs, job.id);
      if i < |w.jobs| && Validates(text, job) {
        ReplacedPending(w.jobs, i, Edited(text, w.jobs[i], job, w.now), id, schedule, t, on);
      }
    case Delete(deleted) =>
      var j :| j in w.jobs && Awaits(j, id, schedule, t, on);
      assert j in Without(w.jobs, deleted);
    case Provision(declared) => MergeKeepsPending(text, w.jobs, Accepted(text, declared), w.now, id, schedule, t, on);
    case Repair => RepairKeepsPending(text, w.jobs, w.now, id, schedule, t, on);
    case _ =>
  }

  /** No step of the run touches the job. */
  ghost predicate Untouched(text: Text, w: World, events: seq<Event>, id: string, schedule: string, on: bool)
    decreases |events|
  {
    events == [] || (!Touches(text, w, events[0], id, schedule, on)
                     && Untouched(text, Apply(text, w, events[0]), events[1..], id, schedule, on))
  }

  /**
   No run is lost: over any sequence of steps, a restart included, a next run stays until one of the four kinds of
   steps, and its job enabled until one of them or a declaration that disables it.
   */
  lemma {:induction false} NextRunStays(text: Text, w: World, events: seq<Event>, id: string, schedule: string, t: nat,
                                        on: bool)
    requires Pending(w.jobs, id, schedule, t, on) && Untouched(text, w, events, id, schedule, on)
    ensures Pending(Run(text, w, events).jobs, id, schedule, t, on)
    decreases |events|
  {
    if events != [] {
      StepKeepsPending(text, w, events[0], id, schedule, t, on);
      NextRunStays(text, Apply(text, w, events[0]), events[1..], id, schedule, t, on);
    }
  }

  /** Every tick starts a runner for every overdue job... */
  lemma TickStartsOverdue(text: Text, w: World, job: Job)
    requires job in w.jobs && Overdue(job, w.now)
    ensures Runner(job, Spawned) in Apply(text, w, Tick).runners
  {
    assert Runner(job, Spawned) in Spawn(w.jobs, DueAt(w.now));
  }

  /** ...which gets the claim, or gives way to a run of the same job. */
  lemma ClaimedOrRunning(text: Text, w: World, r: nat)
    requires ClaimsExact(w.running, w.runners) && r < |w.runners| && w.runners[r].stage == Spawned
    ensures var job, next := w.runners[r].job, Apply(text, w, Claim(r));
            || (next.runners == w.runners[r := Runner(job, Claimed)] && job.id in next.running)
            || (next.runners == Dropped(w.runners, r) &&
                exists k :: 0 <= k < |w.runners| && w.runners[k].stage != Spawned && w.runners[k].job.id == job.id)
  {
    ActiveMember(w.runners, w.runners[r].job.id);
  }

  /**
   A finished run leaves its job not overdue: its next run is the first scheduled time from now on, or there is none.
   */
  lemma FinishedIsNotOverdue(text: Text, w: World, r: nat)
    requires r < |w.runners| && w.runners[r].stage == Claimed && FirstIndex(w.jobs, w.runners[r].job.id) < |w.jobs|
    ensures var i, next := FirstIndex(w.jobs, w.runners[r].job.id), Apply(text, w, Record(r, true));
            && next.jobs[i].id == w.runners[r].job.id && next.jobs[i].lastRun == At(w.now)
            && next.jobs[i].nextRun == CalculateNextRun(text, w.jobs[i].schedule, w.now)
            && !Overdue(next.jobs[i], w.now)
  {
    NextRunIsFirst(text, w.jobs[FirstIndex(w.jobs, w.runners[r].job.id)].schedule, w.now);
  }

  /** A job that was not touched since its tick, nor disabled, is still overdue when its runner gets its turn. */
  lemma UntouchedIsStillDue(text: Text, w: World, job: Job, events: seq<Event>)
    requires job in w.jobs && Overdue(job, w.now)
    requires Untouched(text, Apply(text, w, Tick), events, job.id, job.schedule, true)
    ensures var end := Run(text, Apply(text, w, Tick), events);
            exists j :: j in end.jobs && Awaits(j, job.id, job.schedule, job.nextRun.instant, true)
                        && Overdue(j, end.now)
  {
    NextRunStays(text, Apply(text, w, Tick), events, job.id, job.schedule, job.nextRun.instant, true);
    TimePasses(text, Apply(text, w, Tick), events);
  }
}
