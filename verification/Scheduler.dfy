/**
 The scheduler (gui/scheduler.go): the minute tick, the startup run, "run now", the user's edits and provisioning,
 interleaved with the runs they start. Reading, changing and writing the jobs file is one step; so is each access
 to the map of running jobs. The class does what the source does; `Apply` says what each step means.
 */
module Schedulers {
  import opened Lists
  import opened Schedules
  import opened Provisioning

  /** A goroutine for a job: started and not yet claimed, running under a claim, or recorded and about to release it. */
  datatype Stage = Spawned | Claimed | Recorded

  datatype Runner = Runner(job: Job, stage: Stage)

  datatype World = World(jobs: seq<Job>, now: nat, running: set<string>, runners: seq<Runner>)

  datatype Event =
    | Tick | Startup | RunNow(id: string)
    | Claim(r: nat) | Record(r: nat, saved: bool) | Release(r: nat)
    | Save(job: Job) | Update(job: Job) | Delete(id: string) | Provision(declared: seq<Job>) | Repair
    | Pass(time: nat) | Restart

  function FirstIndex(jobs: seq<Job>, id: string): (i: nat)
    ensures i <= |jobs|
    ensures forall k :: 0 <= k < i ==> jobs[k].id != id
    ensures i < |jobs| ==> jobs[i].id == id
  {
    if jobs == [] || jobs[0].id == id then 0 else 1 + FirstIndex(jobs[1..], id)
  }

  function Without(jobs: seq<Job>, id: string): (rest: seq<Job>)
    ensures forall j :: j in rest <==> j in jobs && j.id != id
  {
    if jobs == [] then []
    else Without(jobs[..|jobs| - 1], id) + if jobs[|jobs| - 1].id != id then [jobs[|jobs| - 1]] else []
  }

  /** A new goroutine for each job that is due. */
  function Spawn(jobs: seq<Job>, due: Job -> bool): (spawned: seq<Runner>)
    ensures forall r :: r in spawned <==> r.stage == Spawned && r.job in jobs && due(r.job)
  {
    if jobs == [] then []
    else Spawn(jobs[..|jobs| - 1], due) + if due(jobs[|jobs| - 1]) then [Runner(jobs[|jobs| - 1], Spawned)] else []
  }

  function DueAt(now: nat): Job -> bool {
    (job: Job) => Overdue(job, now)
  }

  function AtStartup(): Job -> bool {
    (job: Job) => job.enabled && job.runAtStartup
  }

  function Dropped(runners: seq<Runner>, r: nat): seq<Runner>
    requires r < |runners|
  {
    runners[..r] + runners[r + 1..]
  }

  function Edited(text: Text, stored: Job, job: Job, now: nat): Job {
    job.(lastRun := stored.lastRun,
         compression := if job.compression == "" then stored.compression else job.compression,
         nextRun := CalculateNextRun(text, job.schedule, now))
  }

  /** The record of a finished run: when it ran, and when the stored schedule runs next. */
  function Ran(text: Text, stored: Job, now: nat): Job {
    stored.(lastRun := At(now), nextRun := CalculateNextRun(text, stored.schedule, now))
  }

  // What each step does. A step whose condition does not hold does nothing.

  function SpawnStep(w: World, due: Job -> bool): World {
    w.(runners := w.runners + Spawn(w.jobs, due))
  }

  function RunNowStep(w: World, id: string): World {
    var i := FirstIndex(w.jobs, id);
    if i == |w.jobs| || id in w.running then w
    else w.(running := w.running + {id}, runners := w.runners + [Runner(w.jobs[i], Claimed)])
  }

  function ClaimStep(w: World, r: nat): World {
    if r >= |w.runners| || w.runners[r].stage != Spawned then w
    else if w.runners[r].job.id in w.running then w.(runners := Dropped(w.runners, r))
    else w.(running := w.running + {w.runners[r].job.id}, runners := w.runners[r := w.runners[r].(stage := Claimed)])
  }

  function RecordStep(text: Text, w: World, r: nat, saved: bool): World {
    if r >= |w.runners| || w.runners[r].stage != Claimed then w
    else
      var i := FirstIndex(w.jobs, w.runners[r].job.id);
      w.(runners := w.runners[r := w.runners[r].(stage := Recorded)],
         jobs := if saved && i < |w.jobs| then w.jobs[i := Ran(text, w.jobs[i], w.now)] else w.jobs)
  }

  function ReleaseStep(w: World, r: nat): World {
    if r >= |w.runners| || w.runners[r].stage != Recorded then w
    else w.(running := w.running - {w.runners[r].job.id}, runners := Dropped(w.runners, r))
  }

  function SaveStep(text: Text, w: World, job: Job): seq<Job> {
    if !Validates(text, job) then w.jobs else w.jobs + [job.(nextRun := CalculateNextRun(text, job.schedule, w.now))]
  }

  function UpdateStep(text: Text, w: World, job: Job): seq<Job> {
    var i := FirstIndex(w.jobs, job.id);
    if !Validates(text, job) || i == |w.jobs| then w.jobs else w.jobs[i := Edited(text, w.jobs[i], job, w.now)]
  }

  function Apply(text: Text, w: World, e: Event): World {
    match e
    case Tick => SpawnStep(w, DueAt(w.now))
    case Startup => SpawnStep(w, AtStartup())
    case RunNow(id) => RunNowStep(w, id)
    case Claim(r) => ClaimStep(w, r)
    case Record(r, saved) => RecordStep(text, w, r, saved)
    case Release(r) => ReleaseStep(w, r)
    case Save(job) => w.(jobs := SaveStep(text, w, job))
    case Update(job) => w.(jobs := UpdateStep(text, w, job))
    case Delete(id) => w.(jobs := Without(w.jobs, id))
    case Provision(declared) => w.(jobs := Merge(text, w.jobs, Accepted(text, declared), w.now))
    case Repair => w.(jobs := RepairAll(text, w.jobs, w.now))
    case Pass(time) => w.(now := w.now + time)
    case Restart => w.(running := {}, runners := [])
  }

  function Run(text: Text, w: World, events: seq<Event>): World
    decreases |events|
  {
    if events == [] then w else Run(text, Apply(text, w, events[0]), events[1..])
  }

  lemma {:induction false} TimePasses(text: Text, w: World, events: seq<Event>)
    ensures Run(text, w, events).now >= w.now
    decreases |events|
  {
    if events != [] {
      TimePasses(text, Apply(text, w, events[0]), events[1..]);
    }
  }

  // Claims.

  /** The jobs under a claim, as often as they are. */
  function Active(runners: seq<Runner>): multiset<string> {
    if runners == [] then multiset{}
    else (if runners[0].stage == Spawned then multiset{} else multiset{runners[0].job.id}) + Active(runners[1..])
  }

  /** The running jobs are exactly those with an unreleased claim, and no job has two. */
  ghost predicate ClaimsExact(running: set<string>, runners: seq<Runner>) {
    Active(runners) == multiset(running)
  }

  lemma {:induction false} ActiveAppend(a: seq<Runner>, b: seq<Runner>)
    ensures Active(a + b) == Active(a) + Active(b)
  {
    if a == [] {
      assert a + b == b;
    } else {
      assert (a + b)[1..] == a[1..] + b;
      ActiveAppend(a[1..], b);
    }
  }

  lemma ActiveOne(runner: Runner)
    ensures Active([runner]) == if runner.stage == Spawned then multiset{} else multiset{runner.job.id}
  {
    assert [runner][1..] == [];
  }

  lemma ActiveAround(runners: seq<Runner>, r: nat)
    requires r < |runners|
    ensures Active(runners) == Active(Dropped(runners, r)) + Active([runners[r]])
  {
    Around(runners, r);
    ActiveOfThree(runners[..r], runners[r], runners[r + 1..]);
  }

  lemma ActiveOfThree(before: seq<Runner>, runner: Runner, after: seq<Runner>)
    ensures Active(before + [runner] + after) == Active(before + after) + Active([runner])
  {
    ActiveAppend(before + [runner], after);
    ActiveAppend(before, [runner]);
    ActiveAppend(before, after);
  }

  lemma ActiveReplaced(runners: seq<Runner>, r: nat, runner: Runner)
    requires r < |runners|
    ensures Active(runners[r := runner]) == Active(Dropped(runners, r)) + Active([runner])
  {
    ActiveAround(runners[r := runner], r);
    assert Dropped(runners[r := runner], r) == Dropped(runners, r);
  }

  lemma {:induction false} NoneActive(spawned: seq<Runner>)
    requires forall r :: r in spawned ==> r.stage == Spawned
    ensures Active(spawned) == multiset{}
  {
    if spawned != [] {
      assert spawned[0] in spawned;
      NoneActive(spawned[1..]);
    }
  }

  /** Spelled out: two claimed runners are never for the same job, and a job counts as running just when it has one. */
  lemma ClaimsSpelledOut(running: set<string>, runners: seq<Runner>, r: nat, q: nat, id: string)
    requires ClaimsExact(running, runners) && r < q < |runners|
    ensures runners[r].stage != Spawned && runners[q].stage != Spawned ==> runners[r].job.id != runners[q].job.id
    ensures id in running <==> exists k :: 0 <= k < |runners| && runners[k].stage != Spawned && runners[k].job.id == id
  {
    ActiveAround(runners, r);
    ActiveAround(Dropped(runners, r), q - 1);
    ActiveOne(runners[r]);
    ActiveOne(runners[q]);
    ActiveMember(runners, id);
    assert multiset(running)[runners[r].job.id] <= 1;
  }

  lemma {:induction false} ActiveMember(runners: seq<Runner>, id: string)
    ensures id in Active(runners) <==>
            exists k :: 0 <= k < |runners| && runners[k].stage != Spawned && runners[k].job.id == id
  {
    if runners != [] {
      ActiveMember(runners[1..], id);
      var rest := runners[1..];
      assert forall k :: 0 < k < |runners| ==> runners[k] == rest[k - 1];
      assert forall k :: 0 <= k < |rest| ==> rest[k] == runners[k + 1];
    }
  }

  lemma SpawnKeepsClaims(w: World, due: Job -> bool)
    requires ClaimsExact(w.running, w.runners)
    ensures ClaimsExact(SpawnStep(w, due).running, SpawnStep(w, due).runners)
  {
    NoneActive(Spawn(w.jobs, due));
    ActiveAppend(w.runners, Spawn(w.jobs, due));
  }

  lemma RunNowKeepsClaims(w: World, id: string)
    requires ClaimsExact(w.running, w.runners)
    ensures ClaimsExact(RunNowStep(w, id).running, RunNowStep(w, id).runners)
  {
    var i := FirstIndex(w.jobs, id);
    if i < |w.jobs| {
      ActiveAppend(w.runners, [Runner(w.jobs[i], Claimed)]);
      ActiveOne(Runner(w.jobs[i], Claimed));
    }
  }

  lemma ClaimKeepsClaims(w: World, r: nat)
    requires ClaimsExact(w.running, w.runners)
    ensures ClaimsExact(ClaimStep(w, r).running, ClaimStep(w, r).runners)
  {
    if r < |w.runners| && w.runners[r].stage == Spawned {
      var id, claimed := w.runners[r].job.id, w.runners[r].(stage := Claimed);
      ActiveAround(w.runners, r);
      ActiveOne(w.runners[r]);
      assert Active(Dropped(w.runners, r)) == multiset(w.running);
      if id !in w.running {
        ActiveReplaced(w.runners, r, claimed);
        ActiveOne(claimed);
        assert multiset(w.running + {id}) == multiset(w.running) + multiset{id};
      }
    }
  }

  lemma RecordKeepsClaims(text: Text, w: World, r: nat, saved: bool)
    requires ClaimsExact(w.running, w.runners)
    ensures ClaimsExact(RecordStep(text, w, r, saved).running, RecordStep(text, w, r, saved).runners)
  {
    if r < |w.runners| {
      ActiveAround(w.runners, r);
      ActiveOne(w.runners[r]);
      ActiveReplaced(w.runners, r, w.runners[r].(stage := Recorded));
      ActiveOne(w.runners[r].(stage := Recorded));
    }
  }

  lemma ReleaseKeepsClaims(w: World, r: nat)
    requires ClaimsExact(w.running, w.runners)
    ensures ClaimsExact(ReleaseStep(w, r).running, ReleaseStep(w, r).runners)
  {
    if r < |w.runners| && w.runners[r].stage == Recorded {
      var id := w.runners[r].job.id;
      ActiveAround(w.runners, r);
      ActiveOne(w.runners[r]);
      assert multiset(w.running - {id}) == multiset(w.running) - multiset{id};
    }
  }

  lemma StepKeepsClaims(text: Text, w: World, e: Event)
    requires ClaimsExact(w.running, w.runners)
    ensures ClaimsExact(Apply(text, w, e).running, Apply(text, w, e).runners)
  {
    match e
    case Tick => SpawnKeepsClaims(w, DueAt(w.now));
    case Startup => SpawnKeepsClaims(w, AtStartup());
    case RunNow(id) => RunNowKeepsClaims(w, id);
    case Claim(r) => ClaimKeepsClaims(w, r);
    case Record(r, saved) => RecordKeepsClaims(text, w, r, saved);
    case Release(r) => ReleaseKeepsClaims(w, r);
    case Restart =>
    case _ =>
  }

  /**
   In every interleaving, from no claims at all: one active run per job, and the map of running jobs says exactly which.
   */
  lemma {:induction false} ClaimsAlwaysExact(text: Text, w: World, events: seq<Event>)
    requires ClaimsExact(w.running, w.runners)
    ensures ClaimsExact(Run(text, w, events).running, Run(text, w, events).runners)
    decreases |events|
  {
    if events != [] {
      StepKeepsClaims(text, w, events[0]);
      ClaimsAlwaysExact(text, Apply(text, w, events[0]), events[1..]);
    }
  }
}
