/**
 What the scheduler does not promise (gui/scheduler.go): a runner that waited between its tick and its claim may run
 again what was done in between. Exactly when a job is still due after its tick, and when a claim repeats a run.
 */
module RepeatedRuns {
  import opened Options
  import opened Schedules
  import opened Provisioning
  import opened Schedulers

  // The job in the jobs file.

  /** One job has this ID, and it is as given. */
  ghost predicate Holds(jobs: seq<Job>, i: nat, id: string, schedule: string, next: Stamp) {
    && i < |jobs| && jobs[i].id == id && jobs[i].enabled && jobs[i].schedule == schedule && jobs[i].nextRun == next
    && forall k :: 0 <= k < |jobs| && k != i ==> jobs[k].id != id
  }

  ghost predicate Stands(jobs: seq<Job>, id: string, schedule: string, next: Stamp) {
    exists i :: Holds(jobs, i, id, schedule, next)
  }

  /** A step of the user or the configuration that is about other jobs, or any step of the scheduler itself. */
  ghost predicate LeavesBe(text: Text, e: Event, id: string) {
    match e
    case Save(job) => job.id != id
    case Update(job) => job.id != id
    case Delete(deleted) => deleted != id
    case Provision(declared) => forall d :: d in Accepted(text, declared) ==> WithID(text, d).id != id
    case _ => true
  }

  /** A finished run of this job that is recorded in the jobs file. */
  predicate Records(w: World, e: Event, id: string) {
    match e
    case Record(r, saved) => saved && r < |w.runners| && w.runners[r].stage == Claimed && w.runners[r].job.id == id
    case _ => false
  }

  lemma OnlyFirst(jobs: seq<Job>, i: nat, id: string, schedule: string, next: Stamp)
    requires Holds(jobs, i, id, schedule, next)
    ensures FirstIndex(jobs, id) == i
  {
  }

  /** Replacing another job, or this one by one of the same ID. */
  lemma ReplacedStands(jobs: seq<Job>, i: nat, job: Job, id: string, schedule: string, next: Stamp)
    requires Stands(jobs, id, schedule, next) && i < |jobs| && jobs[i].id != id && job.id != id
    ensures Stands(jobs[i := job], id, schedule, next)
  {
    var k :| Holds(jobs, k, id, schedule, next);
    assert Holds(jobs[i := job], k, id, schedule, next);
  }

  lemma AppendedStands(jobs: seq<Job>, job: Job, id: string, schedule: string, next: Stamp)
    requires Stands(jobs, id, schedule, next) && job.id != id
    ensures Stands(jobs + [job], id, schedule, next)
  {
    var k :| Holds(jobs, k, id, schedule, next);
    assert Holds(jobs + [job], k, id, schedule, next);
  }

  lemma {:induction false} WithoutStands(jobs: seq<Job>, deleted: string, id: string, schedule: string, next: Stamp)
    requires Stands(jobs, id, schedule, next) && deleted != id
    ensures Stands(Without(jobs, deleted), id, schedule, next)
  {
    var i :| Holds(jobs, i, id, schedule, next);
    var n := |jobs| - 1;
    var rest := Without(jobs[..n], deleted);
    if i == n {
      assert forall j :: j in rest ==> j in jobs[..n];
      assert forall k :: 0 <= k < |rest| ==> rest[k] in rest;
      assert Holds(rest + [jobs[n]], |rest|, id, schedule, next);
    } else {
      assert Holds(jobs[..n], i, id, schedule, next);
      WithoutStands(jobs[..n], deleted, id, schedule, next);
      if jobs[n].id != deleted {
        AppendedStands(rest, jobs[n], id, schedule, next);
      } else {
        assert rest + [] == rest;
      }
    }
  }

  lemma UpsertStands(text: Text, jobs: seq<Job>, d: Job, now: nat, id: string, schedule: string, next: Stamp)
    requires Stands(jobs, id, schedule, next) && d.id != id
    ensures Stands(Upsert(text, jobs, d, now), id, schedule, next)
  {
    var i := LastIndex(jobs, d.id);
    if i >= 0 {
      ReplacedStands(jobs, i, Replace(text, jobs[i], d, now), id, schedule, next);
    } else {
      AppendedStands(jobs, Added(text, d, now), id, schedule, next);
    }
  }

  lemma {:induction false} MergeStands(text: Text, jobs: seq<Job>, declared: seq<Job>, now: nat, id: string,
                                       schedule: string, next: Stamp)
    requires Stands(jobs, id, schedule, next) && forall d :: d in declared ==> WithID(text, d).id != id
    ensures Stands(Merge(text, jobs, declared, now), id, schedule, next)
  {
    if declared != [] {
      var n := |declared| - 1;
      MergeStands(text, jobs, declared[..n], now, id, schedule, next);
      assert declared[n] in declared;
      UpsertStands(text, Merge(text, jobs, declared[..n], now), WithID(text, declared[n]), now, id, schedule, next);
    }
  }

  /** A time that the schedule gave, or the one the job had. */
  ghost predicate Lasting(text: Text, schedule: string, next: Stamp) {
    next.At? || (next == Absent && (schedule == "" || ParseScheduleTime(text, schedule).None?))
  }

  lemma RepairStands(text: Text, jobs: seq<Job>, now: nat, id: string, schedule: string, next: Stamp)
    requires Stands(jobs, id, schedule, next) && Lasting(text, schedule, next)
    ensures Stands(RepairAll(text, jobs, now), id, schedule, next)
  {
    var i :| Holds(jobs, i, id, schedule, next);
    assert Holds(RepairAll(text, jobs, now), i, id, schedule, next);
  }

  lemma RecordStands(text: Text, jobs: seq<Job>, other: string, now: nat, id: string, schedule: string, next: Stamp)
    requires Stands(jobs, id, schedule, next)
    ensures var i := FirstIndex(jobs, other);
            i < |jobs| ==> Stands(jobs[i := Ran(text, jobs[i], now)], id, schedule,
                                  if other == id then CalculateNextRun(text, schedule, now) else next)
    ensures other == id ==> FirstIndex(jobs, other) < |jobs|
  {
    var i := FirstIndex(jobs, other);
    var k :| Holds(jobs, k, id, schedule, next);
    OnlyFirst(jobs, k, id, schedule, next);
    if i < |jobs| {
      assert Holds(jobs[i := Ran(text, jobs[i], now)], k, id, schedule,
                   if other == id then CalculateNextRun(text, schedule, now) else next);
    }
  }

  /** One step: only a recorded run of the job moves its next run. */
  lemma StepStands(text: Text, w: World, e: Event, id: string, schedule: string, next: Stamp)
    requires Stands(w.jobs, id, schedule, next) && LeavesBe(text, e, id) && Lasting(text, schedule, next)
    ensures Stands(Apply(text, w, e).jobs, id, schedule,
                   if Records(w, e, id) then CalculateNextRun(text, schedule, w.now) else next)
  {
    match e
    case Record(r, saved) =>
      if saved && r < |w.runners| && w.runners[r].stage == Claimed {
        RecordStands(text, w.jobs, w.runners[r].job.id, w.now, id, schedule, next);
      }
    case Save(job) =>
      if Validates(text, job) {
        AppendedStands(w.jobs, job.(nextRun := CalculateNextRun(text, job.schedule, w.now)), id, schedule, next);
      }
    case Update(job) =>
      var i := FirstIndex(w.jobs, job.id);
      if Validates(text, job) && i < |w.jobs| {
        ReplacedStands(w.jobs, i, Edited(text, w.jobs[i], job, w.now), id, schedule, next);
      }
    case Delete(deleted) => WithoutStands(w.jobs, deleted, id, schedule, next);
    case Provision(declared) => MergeStands(text, w.jobs, Accepted(text, declared), w.now, id, schedule, next);
    case Repair => RepairStands(text, w.jobs, w.now, id, schedule, next);
    case _ =>
  }

  // Over many steps.

  /** When the last run of this job was recorded, if one was. */
  function LastDone(text: Text, w: World, events: seq<Event>, id: string): Option<nat>
    decreases |events|
  {
    if events == [] then None
    else
      var later := LastDone(text, Apply(text, w, events[0]), events[1..], id);
      if later.Some? then later else if Records(w, events[0], id) then Some(w.now) else None
  }

  function NextAfter(text: Text, schedule: string, next: Stamp, done: Option<nat>): Stamp {
    if done.Some? then CalculateNextRun(text, schedule, done.value) else next
  }

  lemma NextLasts(text: Text, schedule: string, now: nat)
    ensures Lasting(text, schedule, CalculateNextRun(text, schedule, now))
  {
    NextRunIsFirst(text, schedule, now);
  }

  /** Whatever happens to other jobs, the next run is the one that the last recorded run computed. */
  lemma {:induction false} RunStands(text: Text, w: World, events: seq<Event>, id: string, schedule: string,
                                     next: Stamp)
    requires Stands(w.jobs, id, schedule, next) && Lasting(text, schedule, next)
    requires forall e :: e in events ==> LeavesBe(text, e, id)
    ensures Stands(Run(text, w, events).jobs, id, schedule,
                   NextAfter(text, schedule, next, LastDone(text, w, events, id)))
    decreases |events|
  {
    if events != [] {
      StepStands(text, w, events[0], id, schedule, next);
      NextLasts(text, schedule, w.now);
      var after := if Records(w, events[0], id) then CalculateNextRun(text, schedule, w.now) else next;
      RunStands(text, Apply(text, w, events[0]), events[1..], id, schedule, after);
    }
  }

  /** Its run was done, and the next one, computed then, has not come yet. */
  predicate DoneForNow(text: Text, schedule: string, done: Option<nat>, now: nat) {
    done.Some? && match CalculateNextRun(text, schedule, done.value) { case At(t) => now <= t case _ => true }
  }

  /**
   Exactly when a run is still due: an overdue job with an ID of its own, whatever is done to other jobs meanwhile, is
   overdue at the end if and only if no run of it was recorded, or the next run after that has passed as well.
   */
  lemma DueExactly(text: Text, w: World, events: seq<Event>, job: Job)
    requires Stands(w.jobs, job.id, job.schedule, job.nextRun) && Overdue(job, w.now)
    requires forall e :: e in events ==> LeavesBe(text, e, job.id)
    ensures var end := Run(text, w, events);
            && (exists j :: j in end.jobs && j.id == job.id)
            && forall j :: j in end.jobs && j.id == job.id ==>
                 (Overdue(j, end.now) <==> !DoneForNow(text, job.schedule, LastDone(text, w, events, job.id), end.now))
  {
    var end := Run(text, w, events);
    var next := NextAfter(text, job.schedule, job.nextRun, LastDone(text, w, events, job.id));
    RunStands(text, w, events, job.id, job.schedule, job.nextRun);
    TimePasses(text, w, events);
    var i: nat :| Holds(end.jobs, i, job.id, job.schedule, next);
    assert end.jobs[i] in end.jobs;
  }

  // Repeating a run.

  /** A claim that comes late: the job is due no more, for its run was done since the tick that started this runner. */
  ghost predicate RunsTwice(w: World, next: World, r: nat) {
    && r < |w.runners| && w.runners[r].stage == Spawned && Overdue(w.runners[r].job, w.now)
    && r < |next.runners| && next.runners[r] == Runner(w.runners[r].job, Claimed)
    && forall j :: j in w.jobs && j.id == w.runners[r].job.id ==> !Overdue(j, w.now)
  }

  /**
   Exactly when a claim repeats a run: the runner waited since a moment when its job was overdue, and between that
   moment and the claim a run of the job was recorded whose next run has not come yet.
   */
  lemma RepeatsExactly(text: Text, w: World, events: seq<Event>, job: Job, r: nat)
    requires Stands(w.jobs, job.id, job.schedule, job.nextRun) && Overdue(job, w.now)
    requires forall e :: e in events ==> LeavesBe(text, e, job.id)
    requires var end := Run(text, w, events);
             r < |end.runners| && end.runners[r] == Runner(job, Spawned) && job.id !in end.running
    ensures var end := Run(text, w, events);
            RunsTwice(end, Apply(text, end, Claim(r)), r) <==>
            DoneForNow(text, job.schedule, LastDone(text, w, events, job.id), end.now)
  {
    DueExactly(text, w, events, job);
    TimePasses(text, w, events);
    var end := Run(text, w, events);
    assert Apply(text, end, Claim(r)).runners[r] == Runner(job, Claimed);
  }

  ghost predicate Leads(text: Text, w: World, events: seq<Event>, end: World) {
    Run(text, w, events) == end
  }

  lemma LeadsOn(text: Text, w: World, e: Event, next: World, rest: seq<Event>, end: World)
    requires Apply(text, w, e) == next && Leads(text, next, rest, end)
    ensures Leads(text, w, [e] + rest, end)
  {
    assert ([e] + rest)[1..] == rest;
  }

  lemma TickSpawns(text: Text, job: Job, now: nat, runners: seq<Runner>)
    requires Overdue(job, now)
    ensures Apply(text, World([job], now, {}, runners), Tick) == World([job], now, {}, runners + [Runner(job, Spawned)])
  {
    assert [job][..0] == [];
    assert Spawn([job][..0], DueAt(now)) == [];
  }

  /** The first runner runs, records and releases the job while the second one waits. */
  function FirstRuns(): seq<Event> {
    [Claim(0)] + ([Record(0, true)] + ([Release(0)] + []))
  }

  lemma FirstRunsEnd(text: Text, job: Job, now: nat)
    ensures Leads(text, World([job], now, {}, [Runner(job, Spawned), Runner(job, Spawned)]), FirstRuns(),
                  World([Ran(text, job, now)], now, {}, [Runner(job, Spawned)]))
  {
    var spawned, claimed, recorded := Runner(job, Spawned), Runner(job, Claimed), Runner(job, Recorded);
    var w0, w1 := World([job], now, {}, [spawned, spawned]), World([job], now, {job.id}, [claimed, spawned]);
    var w2 := World([Ran(text, job, now)], now, {job.id}, [recorded, spawned]);
    var w3 := World([Ran(text, job, now)], now, {}, [spawned]);
    LeadsOn(text, w2, Release(0), w3, [], w3);
    LeadsOn(text, w1, Record(0, true), w2, [Release(0)] + [], w3);
    LeadsOn(text, w0, Claim(0), w1, [Record(0, true)] + ([Release(0)] + []), w3);
  }

  /** A tick, a minute, and another tick: two runners for the same job. */
  function TwoTicks(rest: seq<Event>): seq<Event> {
    [Tick] + ([Pass(MINUTE)] + ([Tick] + rest))
  }

  lemma TwoTicksLead(text: Text, job: Job, now: nat, rest: seq<Event>, end: World)
    requires Overdue(job, now)
    requires Leads(text, World([job], now + MINUTE, {}, [Runner(job, Spawned), Runner(job, Spawned)]), rest, end)
    ensures Leads(text, World([job], now, {}, []), TwoTicks(rest), end)
  {
    var w0, spawned := World([job], now, {}, []), Runner(job, Spawned);
    var w1, w2 := World([job], now, {}, [spawned]), World([job], now + MINUTE, {}, [spawned]);
    TickSpawns(text, job, now, []);
    TickSpawns(text, job, now + MINUTE, [spawned]);
    assert [] + [spawned] == [spawned] && [spawned] + [spawned] == [spawned, spawned];
    LeadsOn(text, w2, Tick, World([job], now + MINUTE, {}, [spawned, spawned]), rest, end);
    LeadsOn(text, w1, Pass(MINUTE), w2, [Tick] + rest, end);
    LeadsOn(text, w0, Tick, w1, [Pass(MINUTE)] + ([Tick] + rest), end);
  }

  /** It happens: two ticks, both runners waiting; the first runs, records and releases, then the second claims. */
  lemma StaleRunnerRunsTwice(text: Text, job: Job, now: nat)
    requires Overdue(job, now)
    ensures var end := Run(text, World([job], now, {}, []), TwoTicks(FirstRuns()));
            RunsTwice(end, Apply(text, end, Claim(0)), 0)
  {
    var end := World([Ran(text, job, now + MINUTE)], now + MINUTE, {}, [Runner(job, Spawned)]);
    FirstRunsEnd(text, job, now + MINUTE);
    TwoTicksLead(text, job, now, FirstRuns(), end);
    Repeats(text, job, end);
  }

  lemma Repeats(text: Text, job: Job, w: World)
    requires Overdue(job, w.now) && w.jobs == [Ran(text, job, w.now)] && w.running == {}
             && w.runners == [Runner(job, Spawned)]
    ensures RunsTwice(w, Apply(text, w, Claim(0)), 0)
  {
    NextRunIsFirst(text, job.schedule, w.now);
    assert Apply(text, w, Claim(0)).runners == [Runner(job, Claimed)];
  }
}
