/**
 Disk pins from one run to the next (gui/diskpin.go): a run moves the pins it resolved to where their disks are now,
 while the saved references stay as they are. When does a reference go on standing for its disk?
 */
module PinHistories {
  import opened Options
  import opened DiskPins

  /** The canonical form of a drive path is a drive path in canonical form. */
  ghost predicate Canonical(text: Text) {
    forall ref :: text.normalize(ref).Some? ==> text.normalize(text.normalize(ref).value) == text.normalize(ref)
  }

  /** The disks as they are listed: each at its own drive path, each reliable identity on one disk. */
  ghost predicate Tidy(text: Text, present: seq<Disk>) {
    && (forall k :: 0 <= k < |present| ==> text.normalize(present[k].devicePath) == Some(present[k].devicePath))
    && (forall j, k :: 0 <= j < k < |present| ==>
          && present[j].devicePath != present[k].devicePath
          && (IsStable(present[j].uniqueID) ==> present[j].uniqueID != present[k].uniqueID))
  }

  predicate DriveRef(text: Text, ref: string) {
    text.trim(ref) != "" && !LooksLikeID(text.trim(ref)) && text.normalize(text.trim(ref)).Some?
  }

  // What a reference stands for from now on.

  /**
   Whatever disks there will be, as long as some reliable identity is listed: the reference resolves to this disk,
   where it is then, or to an error.
   */
  ghost predicate Follows(text: Text, ref: string, pins: map<string, string>, id: string) {
    forall later, r :: SomeStable(later) && CanReturn(text, ref, later, pins, r) ==> r == AtPath(PathOf(later, id))
  }

  /** This disk, and no other one, is pinned to the path that is referred to. */
  ghost predicate SolePin(text: Text, ref: string, pins: map<string, string>, id: string) {
    PinnedRef(text, ref, pins, id) && forall other :: PinnedRef(text, ref, pins, other) ==> other == id
  }

  lemma StableLonger(id: string)
    requires IsStable(id)
    ensures IsStable(id + "x") && id + "x" != id
  {
    var i :| 0 <= i < |STABLE_PREFIXES| && STABLE_PREFIXES[i] <= id && |id| > |STABLE_PREFIXES[i]|;
    assert STABLE_PREFIXES[i] <= id + "x";
  }

  lemma PathOfOne(d: Disk, id: string)
    ensures PathOf([d], id) == if d.uniqueID == id then Some(d.devicePath) else None
  {
    assert [d][0] == d;
  }

  /** Another disk at the path is all it takes for a reference to go astray. */
  lemma Astray(text: Text, ref: string, pins: map<string, string>, id: string, other: string)
    requires DriveRef(text, ref) && IsStable(other) && other != id
    requires PinnedRef(text, ref, pins, other) || forall any :: !PinnedRef(text, ref, pins, any)
    ensures !Follows(text, ref, pins, id)
  {
    var path := text.normalize(text.trim(ref)).value;
    var later := [Disk(path, other)];
    PathOfOne(later[0], other);
    PathOfOne(later[0], id);
    assert IsStable(later[0].uniqueID);
    assert CanReturn(text, ref, later, pins, Ok(path));
  }

  /**
   A reference to a drive path stands for a disk, in every list that has a reliable identity, exactly if that disk
   alone is pinned there.
   */
  lemma FollowsExactly(text: Text, ref: string, pins: map<string, string>, id: string)
    requires DriveRef(text, ref) && IsStable(id)
    ensures Follows(text, ref, pins, id) <==> SolePin(text, ref, pins, id)
  {
    if SolePin(text, ref, pins, id) {
    } else if other :| PinnedRef(text, ref, pins, other) && other != id {
      Astray(text, ref, pins, id, other);
    } else {
      StableLonger(id);
      Astray(text, ref, pins, id, id + "x");
    }
  }

  /** The guard is exact: in a list without a reliable identity the reference is passed through and means no disk. */
  lemma FollowsWhereListed(text: Text, ref: string, pins: map<string, string>, id: string, later: seq<Disk>)
    requires DriveRef(text, ref) && SolePin(text, ref, pins, id)
    ensures (forall r :: CanReturn(text, ref, later, pins, r) ==> r == AtPath(PathOf(later, id))) <==> SomeStable(later)
  {
    if !SomeStable(later) {
      assert CanReturn(text, ref, later, pins, Ok(ref));
      assert PathOf(later, id).None?;
    }
  }

  // One run.

  /** Every new pin is at the path where its disk was found. */
  lemma {:induction false} CollectedAt(text: Text, resolved: seq<string>, present: seq<Disk>, id: string)
    requires id in CollectDiskPins(text, resolved, present)
    ensures var path := CollectDiskPins(text, resolved, present)[id];
            IsStable(id) && LastAt(text, present, path) >= 0 && present[LastAt(text, present, path)].uniqueID == id
  {
    var n := |resolved| - 1;
    if id !in CollectOne(text, resolved[n], present) {
      CollectedAt(text, resolved[..n], present, id);
    }
  }

  /** A disk with a reliable identity that was resolved to its path gets a new pin. */
  lemma {:induction false} CollectedIfResolved(text: Text, resolved: seq<string>, present: seq<Disk>, k: nat)
    requires Tidy(text, present) && k < |present| && IsStable(present[k].uniqueID) && present[k].devicePath in resolved
    ensures present[k].uniqueID in CollectDiskPins(text, resolved, present)
  {
    var n := |resolved| - 1;
    if resolved[n] == present[k].devicePath {
      assert LastAt(text, present, resolved[n]) == k;
    } else {
      assert present[k].devicePath in resolved[..n];
      CollectedIfResolved(text, resolved[..n], present, k);
    }
  }

  /** In a tidy listing a reliable identity is found where its disk is. */
  lemma FoundThere(text: Text, present: seq<Disk>, id: string, path: string)
    requires Tidy(text, present) && IsStable(id) && LastAt(text, present, path) >= 0
             && present[LastAt(text, present, path)].uniqueID == id
    ensures PathOf(present, id) == Some(path)
  {
    var k := LastAt(text, present, path);
    assert present[k] == Disk(path, id);
    var j :| 0 <= j < |present| && present[j] == Disk(PathOf(present, id).value, id);
    assert j == k;
  }

  /** Where a run that resolved a pinned disk leaves its pin. */
  lemma PinAfterRun(text: Text, pins: map<string, string>, resolved: seq<string>, present: seq<Disk>, id: string,
                    path: string)
    requires Tidy(text, present) && IsStable(id) && PathOf(present, id) == Some(path) && path in resolved
    ensures var found := CollectDiskPins(text, resolved, present);
            id in found && found[id] == path && forall other :: other in found && found[other] == path ==> other == id
  {
    var found := CollectDiskPins(text, resolved, present);
    var k :| 0 <= k < |present| && present[k] == Disk(path, id);
    CollectedIfResolved(text, resolved, present, k);
    forall other | other in found
      ensures PathOf(present, other) == Some(found[other])
      ensures found[other] == path ==> other == id
    {
      CollectedAt(text, resolved, present, other);
      FoundThere(text, present, other, found[other]);
      if found[other] == path {
        assert LastAt(text, present, path) == k;
      }
    }
  }

  /** After a run that resolved a pinned reference, the pin is at the saved path exactly if the disk was found there. */
  lemma PinnedAfterRun(text: Text, ref: string, pins: map<string, string>, resolved: seq<string>, present: seq<Disk>,
                       id: string, path: string)
    requires Tidy(text, present) && DistinctPaths(text, pins) && PinnedRef(text, ref, pins, id)
    requires PathOf(present, id) == Some(path) && path in resolved
    ensures var after := pins + CollectDiskPins(text, resolved, present);
            && (PinnedRef(text, ref, after, id) <==> text.normalize(text.trim(ref)) == Some(path))
            && (SolePin(text, ref, after, id) <==> text.normalize(text.trim(ref)) == Some(path))
  {
    var found := CollectDiskPins(text, resolved, present);
    PinAfterRun(text, pins, resolved, present, id, path);
    forall other | other in found
      ensures text.normalize(found[other]) == Some(found[other])
    {
      CollectedAt(text, resolved, present, other);
    }
  }

  /**
   Exactly when the guarantee survives a run: a run that resolved the whole selection leaves a pinned reference
   standing for its disk, in every later list that has a reliable identity, if and only if it found the disk at the
   saved path.
   */
  lemma GuaranteeSurvives(text: Text, requested: seq<string>, present: seq<Disk>, pins: map<string, string>,
                          resolved: seq<string>, out: seq<string>, i: nat, id: string)
    requires Tidy(text, present) && DistinctPaths(text, pins)
    requires Resolved(text, requested, present, pins, resolved) && |resolved| == |requested| && EachOnce(resolved, out)
    requires i < |requested| && PinnedRef(text, requested[i], pins, id)
    ensures Follows(text, requested[i], pins, id)
    ensures Follows(text, requested[i], pins + CollectDiskPins(text, out, present), id) <==>
            text.normalize(text.trim(requested[i])) == Some(resolved[i])
  {
    var ref, after := requested[i], pins + CollectDiskPins(text, out, present);
    FollowsExactly(text, ref, pins, id);
    PinnedToItsDisk(text, ref, present, pins, id, Ok(resolved[i]));
    assert Means(text, ref, present, pins, AtPath(PathOf(present, id)));
    PinnedToItsDisk(text, ref, present, pins, id, AtPath(PathOf(present, id)));
    assert resolved[i] in out;
    PinnedAfterRun(text, ref, pins, out, present, id, resolved[i]);
    FollowsExactly(text, ref, after, id);
  }

  // Distinct paths.

  /** A stored pin that the run does not renew, at a path where the run pins another disk. */
  ghost predicate Overtaken(text: Text, pins: map<string, string>, found: map<string, string>, a: string, b: string) {
    a in pins && a !in found && b in found && IsStable(a) && text.normalize(pins[a]) == Some(found[b])
  }

  /** The merge keeps pins on distinct paths exactly if it overtakes none. */
  lemma MergeKeepsDistinct(text: Text, pins: map<string, string>, resolved: seq<string>, present: seq<Disk>)
    requires Canonical(text) && DistinctPaths(text, pins)
    ensures var found := CollectDiskPins(text, resolved, present);
            DistinctPaths(text, pins + found) <==> forall a, b :: !Overtaken(text, pins, found, a, b)
  {
    var found := CollectDiskPins(text, resolved, present);
    forall id | id in found
      ensures IsStable(id) && text.normalize(found[id]) == Some(found[id])
      ensures LastAt(text, present, found[id]) >= 0 && present[LastAt(text, present, found[id])].uniqueID == id
    {
      CollectedAt(text, resolved, present, id);
    }
    var after := pins + found;
    if a, b :| Overtaken(text, pins, found, a, b) {
      assert after[a] == pins[a] && after[b] == found[b];
      assert text.normalize(after[a]) == text.normalize(after[b]);
    } else {
      forall a, b | a in after && b in after && a != b && IsStable(a) && IsStable(b) && text.normalize(after[a]).Some?
        ensures text.normalize(after[a]) != text.normalize(after[b])
      {
        assert !Overtaken(text, pins, found, a, b) && !Overtaken(text, pins, found, b, a);
      }
    }
  }

  // Any number of runs.

  /** What a run saw and which paths it resolved its selection to. */
  datatype Sighting = Sighting(present: seq<Disk>, resolved: seq<string>) {
    function Found(text: Text): map<string, string> {
      CollectDiskPins(text, resolved, present)
    }
  }

  function PinsAfter(text: Text, pins: map<string, string>, runs: seq<Sighting>): map<string, string> {
    if runs == [] then pins
    else PinsAfter(text, pins, runs[..|runs| - 1]) + runs[|runs| - 1].Found(text)
  }

  /** Where the last run that resolved this disk found it, if any did. */
  function LastFound(text: Text, runs: seq<Sighting>, id: string): Option<string> {
    if runs == [] then None
    else
      var last := runs[|runs| - 1].Found(text);
      if id in last then Some(last[id]) else LastFound(text, runs[..|runs| - 1], id)
  }

  /** Where this disk was seen last, or else where it was pinned at first, is the path that is referred to. */
  ghost predicate LastSeenThere(text: Text, ref: string, pins: map<string, string>, runs: seq<Sighting>, id: string) {
    match LastFound(text, runs, id)
    case None => PinnedRef(text, ref, pins, id)
    case Some(path) => text.normalize(text.trim(ref)) == Some(path)
  }

  /** Over any number of runs a pin is where the last run that resolved its disk found it. */
  lemma {:induction false} PinnedAfterRuns(text: Text, ref: string, pins: map<string, string>, runs: seq<Sighting>,
                                           id: string)
    requires Canonical(text) && DriveRef(text, ref) && IsStable(id)
    ensures PinnedRef(text, ref, PinsAfter(text, pins, runs), id) <==> LastSeenThere(text, ref, pins, runs, id)
  {
    if runs != [] {
      var n := |runs| - 1;
      PinnedAfterRuns(text, ref, pins, runs[..n], id);
      if id in runs[n].Found(text) {
        CollectedAt(text, runs[n].resolved, runs[n].present, id);
      }
    }
  }

  /**
   After any number of runs a reference stands for a disk exactly if this disk, and no other one, was last seen at the
   saved path.
   */
  lemma FollowsAfterRuns(text: Text, ref: string, pins: map<string, string>, runs: seq<Sighting>, id: string)
    requires Canonical(text) && DriveRef(text, ref) && IsStable(id)
    ensures Follows(text, ref, PinsAfter(text, pins, runs), id) <==>
            && LastSeenThere(text, ref, pins, runs, id)
            && forall other :: IsStable(other) && LastSeenThere(text, ref, pins, runs, other) ==> other == id
  {
    var after := PinsAfter(text, pins, runs);
    FollowsExactly(text, ref, after, id);
    forall any | IsStable(any)
      ensures PinnedRef(text, ref, after, any) <==> LastSeenThere(text, ref, pins, runs, any)
    {
      PinnedAfterRuns(text, ref, pins, runs, any);
    }
  }

  // Two ways to lose it.

  /**
   A disk that moved: its pin follows it, the reference does not, and the disk that is at the old path now is taken.
   */
  lemma PinMovesReferenceStays(text: Text, p: string, q: string, a: string, b: string)
    requires p != q && text.trim(p) == p && DriveRef(text, p)
    requires text.normalize(p) == Some(p) && text.normalize(q) == Some(q)
    requires IsStable(a) && IsStable(b) && a != b
    ensures var present, pins := [Disk(p, b), Disk(q, a)], map[a := p];
            var after := pins + CollectDiskPins(text, [q], present);
            && Resolved(text, [p], present, pins, [q])
            && after == map[a := q] && !Follows(text, p, after, a)
            && Resolved(text, [p], present, after, [p]) && IsAt(present, b, p) && !IsAt(present, a, p)
  {
    var present, pins := [Disk(p, b), Disk(q, a)], map[a := p];
    var after := pins + CollectDiskPins(text, [q], present);
    assert present[0] == Disk(p, b) && present[1] == Disk(q, a);
    var k :| 0 <= k < |present| && present[k] == Disk(PathOf(present, a).value, a);
    assert PathOf(present, a) == Some(q);
    assert PinnedRef(text, p, pins, a);
    PinnedAfterRun(text, p, pins, [q], present, a, q);
    PinAfterRun(text, pins, [q], present, a, q);
    assert [q][..0] == [];
    assert after.Keys == {a};
    FollowsExactly(text, p, after, a);
    assert Means(text, p, present, after, Ok(p));
  }

  /**
   A disk that took another one's path while that one was away: both are pinned to it afterwards. When the other one is
   back, the reference to that path stands for either of them, whichever the table yields last.
   */
  lemma PinsCollide(text: Text, p: string, q: string, r: string, a: string, b: string)
    requires p != q && q != r && text.trim(q) == q && DriveRef(text, q)
    requires text.normalize(p) == Some(p) && text.normalize(q) == Some(q)
    requires IsStable(a) && IsStable(b) && a != b
    ensures var pins, found := map[a := p, b := q], CollectDiskPins(text, [q], [Disk(q, a)]);
            var later := [Disk(q, a), Disk(r, b)];
            && DistinctPaths(text, pins) && Overtaken(text, pins, found, b, a)
            && pins + found == map[a := q, b := q] && !DistinctPaths(text, pins + found)
            && Means(text, q, later, pins + found, Ok(q)) && Means(text, q, later, pins + found, Ok(r))
  {
    var pins, present := map[a := p, b := q], [Disk(q, a)];
    var found := CollectDiskPins(text, [q], present);
    assert [q][..0] == [] && present[0] == Disk(q, a);
    assert LastAt(text, present, q) == 0;
    assert CollectOne(text, [q][0], present) == map[a := q];
    assert CollectDiskPins(text, [q][..0], present) == map[];
    assert found == map[] + map[a := q];
    var later, after := [Disk(q, a), Disk(r, b)], map[a := q, b := q];
    assert pins + found == after;
    assert PinnedRef(text, q, after, a) && PinnedRef(text, q, after, b);
    assert later[..1] == [Disk(q, a)];
    PathOfOne(Disk(q, a), a);
    PathOfOne(Disk(q, a), b);
    assert PathOf(later, a) == Some(q) && PathOf(later, b) == Some(r);
  }
}
