/** Scheduled jobs, their times and the run that comes next (gui/scheduler.go). Time is civil: one day is 24 hours. */
module Schedules {
  import opened Options

  /** Instants and durations in nanoseconds; instant 0 is a midnight. */
  const MINUTE := 60_000_000_000
  const DAY := 24 * 60 * MINUTE

  /** A time stamp in the jobs file: absent, unreadable, or an instant. */
  datatype Stamp = Absent | Garbled(text: string) | At(instant: nat)

  /** The text functions that the source takes from its libraries. */
  datatype Text = Text(scanTime: string -> Option<(int, int)>, blank: string -> bool, slug: string -> string)

  datatype Job = Job(id: string, name: string, schedule: string, runAtStartup: bool, hasTargets: bool,
                     compression: string, settings: string, lastRun: Stamp, nextRun: Stamp, enabled: bool)

  /** Hour and minute, if the scanned numbers are in range. */
  function ParseScheduleTime(text: Text, schedule: string): (r: Option<(nat, nat)>)
    ensures r.Some? ==> r.value.0 <= 23 && r.value.1 <= 59
  {
    match text.scanTime(schedule)
    case None => None
    case Some((h, m)) => if h < 0 || h > 23 || m < 0 || m > 59 then None else Some((h, m))
  }

  function MinuteOfDay(h: nat, m: nat): nat {
    (60 * h + m) * MINUTE
  }

  function CalculateNextRun(text: Text, schedule: string, now: nat): Stamp {
    match ParseScheduleTime(text, schedule)
    case None => Absent
    case Some((h, m)) =>
      var today := now / DAY * DAY + MinuteOfDay(h, m);
      At(if today < now then today + DAY else today)
  }

  /** An instant of the schedule. */
  ghost predicate Scheduled(text: Text, schedule: string, t: nat) {
    var time := ParseScheduleTime(text, schedule);
    time.Some? && t % DAY == MinuteOfDay(time.value.0, time.value.1)
  }

  lemma DayAndRest(day: nat, rest: nat)
    requires rest < DAY
    ensures (day * DAY + rest) / DAY == day && (day * DAY + rest) % DAY == rest
  {
  }

  /** Two instants at the same time of day are whole days apart. */
  lemma SameTimeOfDay(a: nat, b: nat)
    requires a < b && a % DAY == b % DAY
    ensures b >= a + DAY
  {
    assert a == a / DAY * DAY + a % DAY && b == b / DAY * DAY + b % DAY;
  }

  /** The next run is the first scheduled instant that is not before now; without a readable schedule there is none. */
  lemma NextRunIsFirst(text: Text, schedule: string, now: nat)
    ensures var next := CalculateNextRun(text, schedule, now);
            if ParseScheduleTime(text, schedule).None? then next == Absent
            else next.At? && Scheduled(text, schedule, next.instant) && now <= next.instant < now + DAY
    ensures var next := CalculateNextRun(text, schedule, now);
            forall t: nat :: now <= t && Scheduled(text, schedule, t) ==> next.At? && next.instant <= t
  {
    var time := ParseScheduleTime(text, schedule);
    if time.Some? {
      var rest := MinuteOfDay(time.value.0, time.value.1);
      var next := CalculateNextRun(text, schedule, now).instant;
      DayAndRest(now / DAY, rest);
      DayAndRest(now / DAY + 1, rest);
      forall t: nat | now <= t && Scheduled(text, schedule, t)
        ensures next <= t
      {
        if t < next {
          SameTimeOfDay(t, next);
        }
      }
    }
  }

  /** A job that could never run as configured is refused. */
  predicate Validates(text: Text, job: Job) {
    && !text.blank(job.name)
    && (job.schedule == "" || ParseScheduleTime(text, job.schedule).Some?)
    && (job.schedule != "" || job.runAtStartup)
    && job.hasTargets
  }

  predicate Overdue(job: Job, now: nat) {
    job.enabled && job.nextRun.At? && now > job.nextRun.instant
  }

  /** Missing or unreadable next runs get a time; a valid one stays, even if it is in the past. */
  function Repaired(text: Text, job: Job, now: nat): Job {
    if !job.enabled || job.schedule == "" || job.nextRun.At? then job
    else job.(nextRun := CalculateNextRun(text, job.schedule, now))
  }

  /** Once repaired nothing is left to repair, at any later time, and a job that can be scheduled has a next run. */
  lemma RepairSettles(text: Text, job: Job, now: nat, later: nat)
    ensures var once := Repaired(text, job, now);
            && Repaired(text, once, later) == once
            && once.(nextRun := job.nextRun) == job && (job.nextRun.At? ==> once == job)
            && (job.enabled && job.schedule != "" ==> (once.nextRun.At? <==>
                                                       job.nextRun.At? || ParseScheduleTime(text, job.schedule).Some?))
            && (Overdue(once, now) ==> once == job)
  {
    NextRunIsFirst(text, job.schedule, now);
    NextRunIsFirst(text, job.schedule, later);
  }

  function RepairAll(text: Text, jobs: seq<Job>, now: nat): (repaired: seq<Job>)
    ensures |repaired| == |jobs| && forall i :: 0 <= i < |jobs| ==> repaired[i] == Repaired(text, jobs[i], now)
  {
    seq(|jobs|, i requires 0 <= i < |jobs| => Repaired(text, jobs[i], now))
  }

  method RecalculateNextRuns(text: Text, jobs: seq<Job>, now: nat) returns (repaired: seq<Job>)
    ensures repaired == RepairAll(text, jobs, now)
  {
    repaired := jobs;
    var i := 0;
    while i < |jobs|
      invariant i <= |jobs| == |repaired|
      invariant forall k :: 0 <= k < |jobs| ==> repaired[k] == if k < i then Repaired(text, jobs[k], now) else jobs[k]
    {
      if jobs[i].enabled && jobs[i].schedule != "" && !jobs[i].nextRun.At? {
        repaired := repaired[i := jobs[i].(nextRun := CalculateNextRun(text, jobs[i].schedule, now))];
      }
      i := i + 1;
    }
  }
}
