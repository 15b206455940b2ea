/** The scheduler's operations as the program does them (gui/scheduler.go), each one step of the state machine. */
module SchedulerApps {
  import opened Schedules
  import opened Provisioning
  import opened Schedulers

  class App {
    const text: Text
    var jobs: seq<Job>
    var now: nat
    var runningJobs: set<string>
    var runners: seq<Runner>

    function State(): World
      reads this
    {
      World(jobs, now, runningJobs, runners)
    }

    /** The one guard against running a job twice at the same time. */
    method ClaimJob(jobID: string) returns (claimed: bool)
      modifies this`runningJobs
      ensures claimed <==> jobID !in old(runningJobs)
      ensures runningJobs == old(runningJobs) + {jobID}
    {
      if jobID in runningJobs {
        assert runningJobs == runningJobs + {jobID};
        return false;
      }
      runningJobs := runningJobs + {jobID};
      return true;
    }

    method ReleaseJob(jobID: string)
      modifies this`runningJobs
      ensures runningJobs == old(runningJobs) - {jobID}
    {
      runningJobs := runningJobs - {jobID};
    }

    /** The minute tick: every overdue job gets a goroutine, with no upper bound on how late it is. */
    method CheckAndRunScheduledJobs()
      modifies this`runners
      ensures State() == Apply(text, old(State()), Tick)
    {
      var i := 0;
      while i < |jobs|
        invariant i <= |jobs| && runners == old(runners) + Spawn(jobs[..i], DueAt(now))
      {
        var job := jobs[i];
        assert jobs[..i + 1][..i] == jobs[..i];
        if job.enabled && job.nextRun.At? && now > job.nextRun.instant {
          runners := runners + [Runner(job, Spawned)];
        }
        i := i + 1;
      }
      assert jobs[..i] == jobs;
    }

    method HandleStartupRun()
      modifies this`runners
      ensures State() == Apply(text, old(State()), Startup)
    {
      var i := 0;
      while i < |jobs|
        invariant i <= |jobs| && runners == old(runners) + Spawn(jobs[..i], AtStartup())
      {
        var job := jobs[i];
        assert jobs[..i + 1][..i] == jobs[..i];
        if job.enabled && job.runAtStartup {
          runners := runners + [Runner(job, Spawned)];
        }
        i := i + 1;
      }
      assert jobs[..i] == jobs;
    }

    method FindJob(jobID: string) returns (i: nat)
      ensures i == FirstIndex(jobs, jobID)
    {
      i := 0;
      while i < |jobs| && jobs[i].id != jobID
        invariant i <= |jobs| && FirstIndex(jobs, jobID) == i + FirstIndex(jobs[i..], jobID)
      {
        assert jobs[i..][1..] == jobs[i + 1..];
        i := i + 1;
      }
    }

    /** "Run now" claims before it starts the goroutine, so that a second start is an error the user sees. */
    method RunScheduledJobNow(jobID: string) returns (started: bool)
      modifies this`runningJobs, this`runners
      ensures State() == Apply(text, old(State()), RunNow(jobID))
      ensures started <==> jobID !in old(runningJobs) && exists j :: j in jobs && j.id == jobID
    {
      var i := FindJob(jobID);
      if i == |jobs| {
        return false;
      }
      started := ClaimJob(jobs[i].id);
      if started {
        runners := runners + [Runner(jobs[i], Claimed)];
      } else {
        assert runningJobs == old(runningJobs);
      }
    }

    /** The start of a spawned goroutine: claim the job, or give up because it is running. */
    method StartRunner(r: nat)
      requires r < |runners| && runners[r].stage == Spawned
      modifies this`runningJobs, this`runners
      ensures State() == Apply(text, old(State()), Claim(r))
    {
      var claimed := ClaimJob(runners[r].job.id);
      if claimed {
        runners := runners[r := runners[r].(stage := Claimed)];
      } else {
        assert runningJobs == old(runningJobs);
        runners := runners[..r] + runners[r + 1..];
      }
    }

    /** The end of a run: its record goes to the job as it is stored now, if the jobs file can be read and written. */
    method RecordRun(r: nat, saved: bool)
      requires r < |runners| && runners[r].stage == Claimed
      modifies this`jobs, this`runners
      ensures State() == Apply(text, old(State()), Record(r, saved))
    {
      var i := FindJob(runners[r].job.id);
      if saved && i < |jobs| {
        jobs := jobs[i := jobs[i].(lastRun := At(now), nextRun := CalculateNextRun(text, jobs[i].schedule, now))];
      }
      runners := runners[r := runners[r].(stage := Recorded)];
    }

    method FinishRunner(r: nat)
      requires r < |runners| && runners[r].stage == Recorded
      modifies this`runningJobs, this`runners
      ensures State() == Apply(text, old(State()), Release(r))
    {
      ReleaseJob(runners[r].job.id);
      runners := runners[..r] + runners[r + 1..];
    }

    method SaveScheduledJob(job: Job) returns (ok: bool)
      modifies this`jobs
      ensures ok <==> Validates(text, job)
      ensures State() == Apply(text, old(State()), Save(job))
    {
      ok := Validates(text, job);
      if ok {
        jobs := jobs + [job.(nextRun := CalculateNextRun(text, job.schedule, now))];
      }
    }

    method UpdateScheduledJob(job: Job) returns (ok: bool)
      modifies this`jobs
      ensures ok <==> Validates(text, job) && exists j :: j in old(jobs) && j.id == job.id
      ensures State() == Apply(text, old(State()), Update(job))
    {
      ok := Validates(text, job);
      if ok {
        var i := FindJob(job.id);
        ok := i < |jobs|;
        if ok {
          var edited := job.(lastRun := jobs[i].lastRun);
          if edited.compression == "" {
            edited := edited.(compression := jobs[i].compression);
          }
          jobs := jobs[i := edited.(nextRun := CalculateNextRun(text, job.schedule, now))];
        }
      }
    }

    method DeleteScheduledJob(jobID: string)
      modifies this`jobs
      ensures State() == Apply(text, old(State()), Delete(jobID))
    {
      var filtered: seq<Job> := [];
      var i := 0;
      while i < |jobs|
        invariant i <= |jobs| && filtered == Without(jobs[..i], jobID)
      {
        assert jobs[..i + 1][..i] == jobs[..i];
        if jobs[i].id != jobID {
          filtered := filtered + [jobs[i]];
        }
        i := i + 1;
      }
      assert jobs[..i] == jobs;
      jobs := filtered;
    }

    method ReconcileProvisionedJobs(declared: seq<Job>)
      modifies this`jobs
      ensures State() == Apply(text, old(State()), Provision(declared))
    {
      var provisioned: seq<Job> := [];
      var i := 0;
      while i < |declared|
        invariant i <= |declared| && provisioned == Accepted(text, declared[..i])
      {
        assert declared[..i + 1][..i] == declared[..i];
        if Validates(text, declared[i]) {
          provisioned := provisioned + [declared[i]];
        }
        i := i + 1;
      }
      assert declared[..i] == declared;
      jobs := MergeProvisionedJobs(text, jobs, provisioned, now);
    }

    method RepairNextRuns()
      modifies this`jobs
      ensures State() == Apply(text, old(State()), Repair)
    {
      jobs := RecalculateNextRuns(text, jobs, now);
    }
  }
}
