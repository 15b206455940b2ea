/**
 Taking over the data of an older release (gui/legacy_datadir.go). Any number of processes may migrate at once,
 each may stop at any step, and the user may save files meanwhile. `Disk` is what two folders hold; a process is
 where it is in migrateLegacyDataDir.
 */
module LegacyMigration {

  const DATA_FILES: seq<string> := ["config.json", "scheduled_jobs.json", "job_history.json", "api-token"]
  const MIGRATED := ".migrated-from-NimbusBackup"
  const COPIED := "COPIED-TO-ProxmoxBackupClient.txt"

  /** What the two folders hold, and which files of the new one were there before or were saved by the user. */
  datatype Disk = Disk(legacy: map<string, string>, current: map<string, string>, saved: set<string>)

  datatype Place =
    | Begin | NotMigrated | NotCopied | ToCopy(i: nat) | ToWrite(i: nat, data: string) | ToMark | ToNote | Over

  /** How one file-system call turns out: as it should, or with an error. */
  datatype Luck = Fine | Fails

  /** copyFileNoClobber: the file appears whole with this content, unless one is there already. */
  function CopyNoClobber(folder: map<string, string>, name: string, data: string): (after: map<string, string>)
    ensures name in after && forall n :: n in folder ==> n in after && after[n] == folder[n]
    ensures forall n :: n in after ==> n == name || n in folder
  {
    if name in folder then folder else folder[name := data]
  }

  /** The next file-system call of a process. An error ends the process, and the next start tries again. */
  function Step(disk: Disk, place: Place, luck: Luck): (Disk, Place) {
    match place
    case Begin => (disk, if MIGRATED in disk.current && luck == Fine then Over else NotMigrated)
    case NotMigrated => (disk, if COPIED in disk.legacy && luck == Fine then Over else NotCopied)
    case NotCopied => (disk, if "config.json" in disk.legacy && luck == Fine then ToCopy(0) else Over)
    case ToCopy(i) =>
      if i >= |DATA_FILES| then (disk, ToMark)
      else if DATA_FILES[i] !in disk.legacy then (disk, ToCopy(i + 1))
      else (disk, if luck == Fine then ToWrite(i, disk.legacy[DATA_FILES[i]]) else Over)
    case ToWrite(i, data) =>
      if i >= |DATA_FILES| || luck == Fails then (disk, Over)
      else (disk.(current := CopyNoClobber(disk.current, DATA_FILES[i], data)), ToCopy(i + 1))
    case ToMark =>
      if luck == Fails then (disk, Over)
      else (disk.(current := CopyNoClobber(disk.current, MIGRATED, "legacy folder")), ToNote)
    case ToNote => (if luck == Fails then disk else disk.(legacy := CopyNoClobber(disk.legacy, COPIED, "note")), Over)
    case Over => (disk, Over)
  }

  datatype World = World(disk: Disk, processes: seq<Place>)

  datatype Event = Start | Go(p: nat, luck: Luck) | Crash(p: nat) | Save(name: string, data: string)

  predicate IsMarker(name: string) {
    name == MIGRATED || name == COPIED
  }

  function Apply(w: World, e: Event): World {
    match e
    case Start => w.(processes := w.processes + [Begin])
    case Go(p, luck) =>
      if p >= |w.processes| then w
      else
        var (disk, place) := Step(w.disk, w.processes[p], luck);
        World(disk, w.processes[p := place])
    case Crash(p) => if p >= |w.processes| then w else w.(processes := w.processes[p := Over])
    case Save(name, data) =>
      if IsMarker(name) then w
      else w.(disk := w.disk.(current := w.disk.current[name := data], saved := w.disk.saved + {name}))
  }

  function Run(w: World, events: seq<Event>): World
    decreases |events|
  {
    if events == [] then w else Run(Apply(w, events[0]), events[1..])
  }

  /** The first n data files of the old folder have a copy in the new one, or a file the user put there. */
  predicate CopiedUpTo(disk: Disk, n: nat) {
    forall i :: 0 <= i < |DATA_FILES| && i < n && DATA_FILES[i] in disk.legacy ==> DATA_FILES[i] in disk.current
  }

  /** A marker is never there before what it stands for, and no data file is anything but a copy or the user's own. */
  predicate Sound(disk: Disk) {
    && (MIGRATED in disk.current ==> CopiedUpTo(disk, |DATA_FILES|))
    && (COPIED in disk.legacy ==> MIGRATED in disk.current)
    && forall i :: 0 <= i < |DATA_FILES| && DATA_FILES[i] in disk.current ==>
         DATA_FILES[i] in disk.saved ||
         (DATA_FILES[i] in disk.legacy && disk.current[DATA_FILES[i]] == disk.legacy[DATA_FILES[i]])
  }

  /** What a process relies on where it is. */
  predicate Knows(disk: Disk, place: Place) {
    match place
    case ToCopy(i) => CopiedUpTo(disk, i)
    case ToWrite(i, data) => CopiedUpTo(disk, i) && i < |DATA_FILES| && DATA_FILES[i] in disk.legacy
      && disk.legacy[DATA_FILES[i]] == data
    case ToMark => CopiedUpTo(disk, |DATA_FILES|)
    case ToNote => MIGRATED in disk.current
    case _ => true
  }

  /**
   From one disk to a later one: no file of the old folder changed, and files of the new one only if the user saved
   them.
   */
  ghost predicate Evolves(before: Disk, after: Disk) {
    && before.saved <= after.saved
    && (forall n :: n in before.legacy ==> n in after.legacy && after.legacy[n] == before.legacy[n])
    && (forall n :: n in after.legacy ==> n == COPIED || n in before.legacy)
    && (forall n :: n in before.current ==>
          n in after.current && (after.current[n] == before.current[n] || n in after.saved))
  }

  lemma EvolvesOn(a: Disk, b: Disk, c: Disk)
    requires Evolves(a, b) && Evolves(b, c)
    ensures Evolves(a, c)
  {
  }

  lemma NoMarkerIsData(i: nat)
    requires i < |DATA_FILES|
    ensures !IsMarker(DATA_FILES[i])
  {
  }

  lemma StepSound(disk: Disk, place: Place, luck: Luck)
    requires Sound(disk) && Knows(disk, place)
    ensures var (disk', place') := Step(disk, place, luck);
            Sound(disk') && Knows(disk', place') && Evolves(disk, disk')
    ensures var (disk', _) := Step(disk, place, luck);
            forall n :: n in disk.current ==> disk'.current[n] == disk.current[n]
  {
    forall i | 0 <= i < |DATA_FILES|
      ensures !IsMarker(DATA_FILES[i])
    {
      NoMarkerIsData(i);
    }
  }

  /** What one process relies on survives whatever the others and the user do. */
  lemma StillKnows(before: Disk, after: Disk, place: Place)
    requires Knows(before, place) && Evolves(before, after)
    ensures Knows(after, place)
  {
    forall i | 0 <= i < |DATA_FILES|
      ensures DATA_FILES[i] in after.legacy <==> DATA_FILES[i] in before.legacy
    {
      NoMarkerIsData(i);
    }
  }

  ghost predicate Valid(w: World) {
    Sound(w.disk) && forall p :: 0 <= p < |w.processes| ==> Knows(w.disk, w.processes[p])
  }

  lemma ApplyValid(w: World, e: Event)
    requires Valid(w)
    ensures Valid(Apply(w, e)) && Evolves(w.disk, Apply(w, e).disk)
  {
    var next := Apply(w, e);
    if e.Go? && e.p < |w.processes| {
      StepSound(w.disk, w.processes[e.p], e.luck);
    } else if e.Save? && !IsMarker(e.name) {
      SaveSound(w.disk, e.name, e.data);
    }
    forall p | 0 <= p < |next.processes|
      ensures Knows(next.disk, next.processes[p])
    {
      if p < |w.processes| && next.processes[p] == w.processes[p] {
        StillKnows(w.disk, next.disk, w.processes[p]);
      }
    }
  }

  lemma SaveSound(disk: Disk, name: string, data: string)
    requires Sound(disk) && !IsMarker(name)
    ensures var after := disk.(current := disk.current[name := data], saved := disk.saved + {name});
            Sound(after) && Evolves(disk, after)
  {
  }

  /**
   Whatever the interleaving, the crashes and the user's saves: markers tell the truth, nothing is replaced or lost.
   */
  lemma {:induction false} AlwaysSound(w: World, events: seq<Event>)
    requires Valid(w)
    ensures Valid(Run(w, events)) && Evolves(w.disk, Run(w, events).disk)
    decreases |events|
  {
    if events != [] {
      ApplyValid(w, events[0]);
      AlwaysSound(Apply(w, events[0]), events[1..]);
      EvolvesOn(w.disk, Apply(w, events[0]).disk, Run(w, events).disk);
    }
  }

  /** A migration step by itself never replaces a file of the new folder and never touches one of the old folder. */
  lemma MigrationReplacesNothing(w: World, p: nat, luck: Luck, name: string)
    requires Valid(w)
    ensures var next := Apply(w, Go(p, luck)).disk;
            && (name in w.disk.current ==> name in next.current && next.current[name] == w.disk.current[name])
            && (name in w.disk.legacy ==> name in next.legacy && next.legacy[name] == w.disk.legacy[name])
  {
    if p < |w.processes| {
      StepSound(w.disk, w.processes[p], luck);
    }
  }

  /** A migration nobody disturbs completes: after it both markers stand and every data file has its copy. */
  lemma UndisturbedCompletes(disk: Disk)
    requires Sound(disk) && MIGRATED !in disk.current && COPIED !in disk.legacy && "config.json" in disk.legacy
    ensures exists n :: var after := Advance(disk, Begin, n);
                        after.1 == Over && MIGRATED in after.0.current && COPIED in after.0.legacy &&
                        CopiedUpTo(after.0, |DATA_FILES|)
  {
    var n := CopiesAll(disk, 0);
    AdvanceKeeps(disk, ToCopy(0), n);
    var all := Advance(disk, ToCopy(0), n).0;
    assert Advance(disk, Begin, n + 5) == Advance(disk, NotMigrated, n + 4) == Advance(disk, NotCopied, n + 3) ==
        Advance(disk, ToCopy(0), n + 2);
    AdvanceSum(disk, ToCopy(0), n, 2);
    var marked := Step(all, ToMark, Fine).0;
    assert Advance(all, ToMark, 2) == Advance(marked, ToNote, 1) == Step(marked, ToNote, Fine);
    AdvanceKeeps(disk, Begin, n + 5);
  }

  /** n steps without an error. */
  function Advance(disk: Disk, place: Place, n: nat): (Disk, Place)
    decreases n
  {
    if n == 0 then (disk, place)
    else
      var (disk', place') := Step(disk, place, Fine);
      Advance(disk', place', n - 1)
  }

  /** The places at which a process ends without having done anything. */
  predicate Ends(disk: Disk, place: Place)
    decreases if place == Begin then 2 else if place == NotMigrated then 1 else 0
  {
    match place
    case Begin => MIGRATED in disk.current || Ends(disk, NotMigrated)
    case NotMigrated => COPIED in disk.legacy || Ends(disk, NotCopied)
    case NotCopied => "config.json" !in disk.legacy
    case _ => place == Over
  }

  lemma {:induction false} EndsSoon(disk: Disk, place: Place, n: nat)
    requires Ends(disk, place)
    ensures Advance(disk, place, n).0 == disk
    decreases n
  {
    if n > 0 {
      EndsSoon(disk, Step(disk, place, Fine).1, n - 1);
    }
  }

  /** Where either marker stands, or there is nothing to take over, a migration changes nothing. */
  lemma NothingToDo(disk: Disk, n: nat)
    requires MIGRATED in disk.current || COPIED in disk.legacy || "config.json" !in disk.legacy
    ensures Advance(disk, Begin, n).0 == disk
  {
    EndsSoon(disk, Begin, n);
  }

  lemma {:induction false} AdvanceSum(disk: Disk, place: Place, m: nat, n: nat)
    ensures Advance(disk, place, m + n) == Advance(Advance(disk, place, m).0, Advance(disk, place, m).1, n)
    decreases m
  {
    if m > 0 {
      var (disk', place') := Step(disk, place, Fine);
      AdvanceSum(disk', place', m - 1, n);
    }
  }

  lemma {:induction false} AdvanceKeeps(disk: Disk, place: Place, n: nat)
    requires Sound(disk) && Knows(disk, place)
    ensures Sound(Advance(disk, place, n).0) && Knows(Advance(disk, place, n).0, Advance(disk, place, n).1)
    decreases n
  {
    if n > 0 {
      var (disk', place') := Step(disk, place, Fine);
      StepSound(disk, place, Fine);
      AdvanceKeeps(disk', place', n - 1);
    }
  }

  lemma {:induction false} CopiesAll(disk: Disk, i: nat) returns (n: nat)
    requires Sound(disk) && i <= |DATA_FILES| && CopiedUpTo(disk, i)
    ensures Advance(disk, ToCopy(i), n).1 == ToMark
    decreases |DATA_FILES| - i
  {
    if i == |DATA_FILES| {
      n := 1;
    } else if DATA_FILES[i] !in disk.legacy {
      n := CopiesAll(disk, i + 1);
      n := n + 1;
    } else {
      StepSound(disk, ToCopy(i), Fine);
      StepSound(disk, ToWrite(i, disk.legacy[DATA_FILES[i]]), Fine);
      var copied := Step(disk, ToWrite(i, disk.legacy[DATA_FILES[i]]), Fine).0;
      n := CopiesAll(copied, i + 1);
      n := n + 2;
      assert Advance(disk, ToCopy(i), n) == Advance(disk, ToWrite(i, disk.legacy[DATA_FILES[i]]), n - 1) ==
          Advance(copied, ToCopy(i + 1), n - 2);
    }
  }

  /** One step of the machine from here to there, after the others and the user have done whatever they did. */
  ghost predicate ByStep(before: Disk, from: Place, after: Disk, to: Place, luck: Luck) {
    exists between :: Sound(between) && Evolves(before, between) && Step(between, from, luck) == (after, to)
  }

  lemma StepTaken(before: Disk, between: Disk, from: Place, luck: Luck)
    requires Sound(before) && Knows(before, from) && Sound(between) && Evolves(before, between)
    ensures var (after, to) := Step(between, from, luck);
            ByStep(before, from, after, to, luck) && Sound(after) && Knows(after, to) && Evolves(before, after)
  {
    StillKnows(before, between, from);
    StepSound(between, from, luck);
    EvolvesOn(before, between, Step(between, from, luck).0);
  }

  /**
   The two folders as one process sees them: before each of its calls the others and the user may have done anything.
   `place` is where in the machine it is; `failed` says whether one of its calls has failed.
   */
  class Folders {
    var disk: Disk
    ghost var place: Place
    ghost var failed: bool

    ghost predicate InStep()
      reads this
    {
      Sound(disk) && Knows(disk, place)
    }

    constructor (disk: Disk)
      ensures this.disk == disk && place == Begin && !failed
    {
      this.disk, place, failed := disk, Begin, false;
    }

    method Meanwhile()
      requires Sound(disk)
      modifies this`disk
      ensures Sound(disk) && Evolves(old(disk), disk)
    {
      var others: seq<Place> := *;
      var events: seq<Event> := *;
      if forall p :: 0 <= p < |others| ==> Knows(disk, others[p]) {
        AlwaysSound(World(disk, others), events);
        disk := Run(World(disk, others), events).disk;
      }
    }

    /** The new folder's marker; an error counts as "not there". */
    method StatMigrated() returns (there: bool, ghost luck: Luck)
      requires InStep() && place == Begin
      modifies this
      ensures InStep() && Evolves(old(disk), disk) && place == (if there then Over else NotMigrated)
      ensures ByStep(old(disk), Begin, disk, place, luck) && failed == (old(failed) || luck == Fails)
      ensures there ==> MIGRATED in disk.current
    {
      Meanwhile();
      var fails: bool := *;
      luck := if fails then Fails else Fine;
      StepTaken(old(disk), disk, Begin, luck);
      there := !fails && MIGRATED in disk.current;
      place, failed := if there then Over else NotMigrated, failed || fails;
    }

    /** The old folder's marker, likewise. */
    method StatCopied() returns (there: bool, ghost luck: Luck)
      requires InStep() && place == NotMigrated
      modifies this
      ensures InStep() && Evolves(old(disk), disk) && place == (if there then Over else NotCopied)
      ensures ByStep(old(disk), NotMigrated, disk, place, luck) && failed == (old(failed) || luck == Fails)
      ensures there ==> COPIED in disk.legacy
    {
      Meanwhile();
      var fails: bool := *;
      luck := if fails then Fails else Fine;
      StepTaken(old(disk), disk, NotMigrated, luck);
      there := !fails && COPIED in disk.legacy;
      place, failed := if there then Over else NotCopied, failed || fails;
    }

    /** Whether there is something to take over; then the new folder is created, which may fail, too. */
    method StatConfig() returns (there: bool, ghost luck: Luck)
      requires InStep() && place == NotCopied
      modifies this
      ensures InStep() && Evolves(old(disk), disk) && place == (if there then ToCopy(0) else Over)
      ensures ByStep(old(disk), NotCopied, disk, place, luck) && failed == (old(failed) || luck == Fails)
      ensures !there ==> failed || "config.json" !in disk.legacy
    {
      Meanwhile();
      var fails: bool := *;
      luck := if fails then Fails else Fine;
      StepTaken(old(disk), disk, NotCopied, luck);
      there := !fails && "config.json" in disk.legacy;
      place, failed := if there then ToCopy(0) else Over, failed || fails;
    }

    method ReadLegacy(i: nat) returns (missing: bool, ok: bool, data: string, ghost luck: Luck)
      requires InStep() && i < |DATA_FILES| && place == ToCopy(i)
      modifies this
      ensures InStep() && Evolves(old(disk), disk)
      ensures place == if missing then ToCopy(i + 1) else if ok then ToWrite(i, data) else Over
      ensures ByStep(old(disk), ToCopy(i), disk, place, luck)
      ensures failed == (old(failed) || (!missing && luck == Fails)) && (!missing && !ok ==> failed)
    {
      Meanwhile();
      var fails: bool := *;
      luck := if fails then Fails else Fine;
      StepTaken(old(disk), disk, ToCopy(i), luck);
      missing := DATA_FILES[i] !in disk.legacy;
      ok, data := !missing && !fails, "";
      if ok {
        data := disk.legacy[DATA_FILES[i]];
      }
      place := if missing then ToCopy(i + 1) else if ok then ToWrite(i, data) else Over;
      failed := failed || (!missing && fails);
    }

    method CopyDataFile(i: nat, data: string) returns (ok: bool, ghost luck: Luck)
      requires InStep() && place == ToWrite(i, data)
      modifies this
      ensures InStep() && Evolves(old(disk), disk) && place == (if ok then ToCopy(i + 1) else Over)
      ensures ByStep(old(disk), ToWrite(i, data), disk, place, luck) && failed == (old(failed) || luck == Fails)
      ensures !ok ==> failed
    {
      Meanwhile();
      ok := *;
      luck := if ok then Fine else Fails;
      StepTaken(old(disk), disk, ToWrite(i, data), luck);
      if ok {
        disk := disk.(current := CopyNoClobber(disk.current, DATA_FILES[i], data));
      }
      place, failed := if ok then ToCopy(i + 1) else Over, failed || !ok;
    }

    method MarkNew() returns (ok: bool, ghost luck: Luck)
      requires InStep() && place == ToMark
      modifies this
      ensures InStep() && Evolves(old(disk), disk) && place == (if ok then ToNote else Over)
      ensures ByStep(old(disk), ToMark, disk, place, luck) && failed == (old(failed) || luck == Fails)
      ensures !ok ==> failed
    {
      Meanwhile();
      ok := *;
      luck := if ok then Fine else Fails;
      StepTaken(old(disk), disk, ToMark, luck);
      if ok {
        disk := disk.(current := CopyNoClobber(disk.current, MIGRATED, "legacy folder"));
      }
      place, failed := if ok then ToNote else Over, failed || !ok;
    }

    method MarkLegacy() returns (ok: bool, ghost luck: Luck)
      requires InStep() && place == ToNote
      modifies this
      ensures InStep() && Evolves(old(disk), disk) && place == Over && (ok ==> COPIED in disk.legacy)
      ensures ByStep(old(disk), ToNote, disk, Over, luck) && failed == (old(failed) || luck == Fails)
      ensures !ok ==> failed
    {
      Meanwhile();
      ok := *;
      luck := if ok then Fine else Fails;
      StepTaken(old(disk), disk, ToNote, luck);
      if ok {
        disk := disk.(legacy := CopyNoClobber(disk.legacy, COPIED, "note"));
      }
      place, failed := Over, failed || !ok;
    }

    /** Copy what is not there yet; a file that cannot be read or written ends it. */
    method CopyDataFiles() returns (ok: bool)
      requires InStep() && place == ToCopy(0)
      modifies this
      ensures InStep() && Evolves(old(disk), disk) && place == (if ok then ToMark else Over)
      ensures (old(failed) ==> failed) && (!ok ==> failed)
    {
      var i := 0;
      while i < |DATA_FILES|
        invariant i <= |DATA_FILES| && InStep() && Evolves(old(disk), disk) && place == ToCopy(i)
        invariant old(failed) ==> failed
      {
        ghost var before := disk;
        ok := CopyNext(i);
        EvolvesOn(old(disk), before, disk);
        if !ok {
          return;
        }
        i := i + 1;
      }
      place, ok := ToMark, true;
    }

    method CopyNext(i: nat) returns (ok: bool)
      requires InStep() && i < |DATA_FILES| && place == ToCopy(i)
      modifies this
      ensures InStep() && Evolves(old(disk), disk) && place == (if ok then ToCopy(i + 1) else Over)
      ensures (old(failed) ==> failed) && (!ok ==> failed)
    {
      var missing, data;
      ghost var luck;
      missing, ok, data, luck := ReadLegacy(i);
      if missing {
        ok := true;
      } else if ok {
        ghost var between := disk;
        ok, luck := CopyDataFile(i, data);
        EvolvesOn(old(disk), between, disk);
      }
    }

    /**
     One process from start to end, in the middle of everybody else's steps. It ends without the new folder's marker
     only if a call failed or there is nothing to take over.
     */
    method MigrateLegacyDataDir() returns (done: bool)
      requires InStep() && place == Begin && !failed
      modifies this
      ensures Sound(disk) && Evolves(old(disk), disk) && place == Over
      ensures done ==> MIGRATED in disk.current && CopiedUpTo(disk, |DATA_FILES|)
      ensures done ==>
                forall name | name in disk.legacy &&
                              name in ["config.json", "scheduled_jobs.json", "job_history.json", "api-token"] ::
                  name in disk.current
      ensures !done ==> failed || "config.json" !in disk.legacy
    {
      ghost var luck;
      done, luck := StatMigrated();
      if done {
        return;
      }
      done, luck := StatCopied();
      if done {
        return;
      }
      done := TakeOver();
    }

    method TakeOver() returns (done: bool)
      requires InStep() && place == NotCopied
      modifies this
      ensures Sound(disk) && Evolves(old(disk), disk) && place == Over
      ensures done ==> MIGRATED in disk.current
      ensures !done ==> failed || "config.json" !in disk.legacy
    {
      var there, ok;
      ghost var luck;
      there, luck := StatConfig();
      if !there {
        return false;
      }
      ghost var found := disk;
      done := CopyDataFiles();
      EvolvesOn(old(disk), found, disk);
      if !done {
        return;
      }
      ghost var copied := disk;
      done, luck := MarkNew();
      EvolvesOn(old(disk), copied, disk);
      if done {
        ghost var marked := disk;
        ok, luck := MarkLegacy();
        EvolvesOn(old(disk), marked, disk);
      }
    }
  }
}
