/**
 Pinning a saved disk selection to physical disks (gui/diskpin.go): device paths are renumbered when disks come and
 go, identities on the disk are not.
 */
module DiskPins {
  import opened Options

  datatype Result = Ok(path: string) | Err

  datatype Disk = Disk(devicePath: string, uniqueID: string)

  /** Trimming blanks, and the canonical form of a physical-drive path, if it is one. */
  datatype Text = Text(trim: string -> string, normalize: string -> Option<string>)

  const STABLE_PREFIXES: seq<string> := ["serial:", "wwn:", "guid:", "sig:"]
  const WEAK_PREFIXES: seq<string> := ["size:", "mdl:"]

  /** An identity that the disk itself carries. */
  predicate IsStable(id: string) {
    exists i :: 0 <= i < |STABLE_PREFIXES| && STABLE_PREFIXES[i] <= id && |id| > |STABLE_PREFIXES[i]|
  }

  predicate LooksLikeID(ref: string) {
    exists i :: 0 <= i < |STABLE_PREFIXES + WEAK_PREFIXES| && (STABLE_PREFIXES + WEAK_PREFIXES)[i] <= ref
  }

  /** The kinds of identities: those the disk itself carries, and two that are mere hints. */
  lemma KindsOfIDs(id: string)
    ensures IsStable(id) <==> "serial:" < id || "wwn:" < id || "guid:" < id || "sig:" < id
    ensures LooksLikeID(id) <==>
            || "serial:" <= id || "wwn:" <= id || "guid:" <= id || "sig:" <= id
            || "size:" <= id || "mdl:" <= id
  {
    var all := STABLE_PREFIXES + WEAK_PREFIXES;
    assert all[0] == "serial:" && all[1] == "wwn:" && all[2] == "guid:" && all[3] == "sig:";
    assert all[4] == "size:" && all[5] == "mdl:";
    assert forall i :: 0 <= i < 4 ==> STABLE_PREFIXES[i] == all[i];
  }

  /** One saved reference. */
  function ResolveOne(text: Text, ref: string, byID: map<string, string>, byPath: map<string, string>,
                      pinByPath: map<string, string>): Result
  {
    var r := text.trim(ref);
    if r == "" then Err
    else if LooksLikeID(r) then (if r in byID then Ok(byID[r]) else Err)
    else
      match text.normalize(r)
      case None => Ok(r)
      case Some(path) =>
        if path !in pinByPath then Ok(path)
        else if pinByPath[path] in byID then Ok(byID[pinByPath[path]])
        else if path in byPath && byPath[path] != pinByPath[path] then Err
        else Err
  }

  /** The path of the first disk that carries an identity. */
  function PathOf(present: seq<Disk>, id: string): (path: Option<string>)
    ensures path.Some? ==> IsAt(present, id, path.value)
    ensures path.None? ==> forall k :: 0 <= k < |present| ==> present[k].uniqueID != id
  {
    if present == [] then None
    else
      var n := |present| - 1;
      var before := PathOf(present[..n], id);
      if before.Some? then
        assert forall k :: 0 <= k < n ==> present[..n][k] == present[k];
        before
      else if present[n].uniqueID == id then
        assert present[n] == Disk(present[n].devicePath, id);
        Some(present[n].devicePath)
      else
        assert forall k :: 0 <= k < n ==> present[..n][k] == present[k];
        None
  }

  /** Of several disks with the same identity the one listed first counts. */
  lemma {:induction false} PathOfFirst(present: seq<Disk>, id: string, k: nat)
    requires k < |present| && present[k].uniqueID == id && forall j :: 0 <= j < k ==> present[j].uniqueID != id
    ensures PathOf(present, id) == Some(present[k].devicePath)
    decreases |present|
  {
    var n := |present| - 1;
    if k < n {
      assert forall j :: 0 <= j < n ==> present[..n][j] == present[j];
      PathOfFirst(present[..n], id, k);
    }
  }

  /** The disk that carries this identity, where it is now. */
  predicate IsAt(present: seq<Disk>, id: string, path: string) {
    exists k :: 0 <= k < |present| && present[k] == Disk(path, id)
  }

  /** Reliable identities map to the path of the first disk that carries them. */
  ghost predicate Identifies(byID: map<string, string>, present: seq<Disk>) {
    && (forall id :: id in byID <==> IsStable(id) && PathOf(present, id).Some?)
    && (forall id :: id in byID ==> PathOf(present, id) == Some(byID[id]))
  }

  /** Saved paths map to an identity that is pinned to them. */
  ghost predicate Pinned(text: Text, pinByPath: map<string, string>, pins: map<string, string>, ids: set<string>) {
    && (forall p :: p in pinByPath ==>
          pinByPath[p] in pins && pinByPath[p] in ids && IsStable(pinByPath[p])
            && text.normalize(pins[pinByPath[p]]) == Some(p))
    && (forall id :: id in ids && id in pins && IsStable(id) && text.normalize(pins[id]).Some? ==>
        text.normalize(pins[id]).value in pinByPath)
  }

  lemma IdentifyMore(byID: map<string, string>, present: seq<Disk>, d: Disk)
    requires Identifies(byID, present)
    ensures Identifies(if IsStable(d.uniqueID) && d.uniqueID !in byID then byID[d.uniqueID := d.devicePath]
                       else byID, present + [d])
  {
    assert (present + [d])[..|present|] == present;
  }

  method Identify(text: Text, present: seq<Disk>) returns (byID: map<string, string>, byPath: map<string, string>,
                                                           stable: nat)
    ensures Identifies(byID, present)
    ensures stable == 0 <==> byID == map[]
  {
    byID, byPath, stable := map[], map[], 0;
    var i := 0;
    while i < |present|
      invariant i <= |present| && Identifies(byID, present[..i]) && (stable == 0 <==> byID.Keys == {})
    {
      var d := present[i];
      IdentifyMore(byID, present[..i], d);
      assert present[..i + 1] == present[..i] + [d];
      if IsStable(d.uniqueID) {
        stable := stable + 1;
        if d.uniqueID !in byID {
          byID := byID[d.uniqueID := d.devicePath];
        }
        var p := text.normalize(d.devicePath);
        if p.Some? {
          byPath := byPath[p.value := d.uniqueID];
        }
      }
      i := i + 1;
    }
    assert present[..i] == present;
  }

  /** The pins in whatever order the map yields them; of two on the same path one wins. */
  method IndexPins(text: Text, pins: map<string, string>) returns (pinByPath: map<string, string>)
    ensures Pinned(text, pinByPath, pins, pins.Keys)
  {
    pinByPath := map[];
    var left := pins.Keys;
    while left != {}
      invariant left <= pins.Keys && Pinned(text, pinByPath, pins, pins.Keys - left)
      decreases |left|
    {
      var id :| id in left;
      if IsStable(id) {
        var p := text.normalize(pins[id]);
        if p.Some? {
          pinByPath := pinByPath[p.value := id];
        }
      }
      assert pins.Keys - (left - {id}) == pins.Keys - left + {id};
      left := left - {id};
    }
    assert pins.Keys - left == pins.Keys;
  }

  ghost predicate DistinctPaths(text: Text, pins: map<string, string>) {
    forall a, b | a in pins && b in pins && a != b && IsStable(a) && IsStable(b) && text.normalize(pins[a]).Some? ::
      text.normalize(pins[a]) != text.normalize(pins[b])
  }

  /** A reference to a drive path that was pinned to this disk. */
  ghost predicate PinnedRef(text: Text, ref: string, pins: map<string, string>, id: string) {
    && text.trim(ref) != "" && !LooksLikeID(text.trim(ref))
    && id in pins && IsStable(id)
    && text.normalize(text.trim(ref)).Some? && text.normalize(pins[id]) == text.normalize(text.trim(ref))
  }

  ghost predicate SomeStable(present: seq<Disk>) {
    exists k :: 0 <= k < |present| && IsStable(present[k].uniqueID)
  }

  function AtPath(path: Option<string>): Result {
    if path.Some? then Ok(path.value) else Err
  }

  /**
   What a saved reference stands for: the disk with that identity, wherever it is now; for a drive path the disk that
   was pinned there, or the path as it is if there was none; anything else is left alone.
   */
  ghost predicate Means(text: Text, ref: string, present: seq<Disk>, pins: map<string, string>, r: Result) {
    var t := text.trim(ref);
    if t == "" then r == Err
    else if LooksLikeID(t) then r == AtPath(if IsStable(t) then PathOf(present, t) else None)
    else if text.normalize(t).None? then r == Ok(t)
    else
      || (exists id :: PinnedRef(text, ref, pins, id) && r == AtPath(PathOf(present, id)))
      || ((forall id :: !PinnedRef(text, ref, pins, id)) && r == Ok(text.normalize(t).value))
  }

  /** Looking the reference up in the tables gives what it stands for. */
  lemma ResolvesAsMeant(text: Text, ref: string, present: seq<Disk>, pins: map<string, string>,
                        byID: map<string, string>, byPath: map<string, string>, pinByPath: map<string, string>)
    requires Identifies(byID, present) && Pinned(text, pinByPath, pins, pins.Keys)
    ensures Means(text, ref, present, pins, ResolveOne(text, ref, byID, byPath, pinByPath))
  {
    var t := text.trim(ref);
    if t != "" && !LooksLikeID(t) && text.normalize(t).Some? {
      var path := text.normalize(t).value;
      if path in pinByPath {
        var id := pinByPath[path];
        assert PinnedRef(text, ref, pins, id);
        assert id in byID <==> PathOf(present, id).Some?;
      } else {
        assert forall id :: id in pins && IsStable(id) && text.normalize(pins[id]).Some? ==>
            text.normalize(pins[id]).value in pinByPath;
      }
    }
  }

  /** What a call may return for one reference: without any reliable identity listed, the reference as it is. */
  ghost predicate CanReturn(text: Text, ref: string, present: seq<Disk>, pins: map<string, string>, r: Result) {
    if SomeStable(present) then Means(text, ref, present, pins, r) else r == Ok(ref)
  }

  /**
   A pinned reference resolves to its own disk, or to an error if that is absent, and never to the disk that took its
   place: exactly if some reliable identity is listed. Otherwise it is passed through, whatever disk is there.
   */
  lemma PinnedToItsDisk(text: Text, ref: string, present: seq<Disk>, pins: map<string, string>, id: string, r: Result)
    requires DistinctPaths(text, pins) && PinnedRef(text, ref, pins, id) && CanReturn(text, ref, present, pins, r)
    ensures r == AtPath(PathOf(present, id)) <==> SomeStable(present)
    ensures SomeStable(present) ==> if PathOf(present, id).Some? then r.Ok? && IsAt(present, id, r.path) else r.Err?
    ensures !SomeStable(present) ==> r == Ok(ref) && forall path :: !IsAt(present, id, path)
  {
    if SomeStable(present) {
      var other :| PinnedRef(text, ref, pins, other) && r == AtPath(PathOf(present, other));
      assert other == id;
    } else {
      assert forall k :: 0 <= k < |present| ==> present[k].uniqueID != id;
    }
  }

  /** Each path once, where it comes first. */
  function FirstOnly(paths: seq<string>): (once: seq<string>)
    ensures forall p :: p in once <==> p in paths
    ensures forall i, j :: 0 <= i < j < |once| ==> once[i] != once[j]
  {
    if paths == [] then []
    else
      var n := |paths| - 1;
      assert paths == paths[..n] + [paths[n]];
      var before := FirstOnly(paths[..n]);
      if paths[n] in before then before else before + [paths[n]]
  }

  /** In the order in which they come first. */
  lemma {:induction false} FirstOnlyGrows(paths: seq<string>, k: nat)
    requires k <= |paths|
    ensures FirstOnly(paths[..k]) <= FirstOnly(paths)
    decreases |paths|
  {
    if k == |paths| {
      assert paths[..k] == paths;
    } else {
      var n := |paths| - 1;
      FirstOnlyGrows(paths[..n], k);
      assert paths[..n][..k] == paths[..k];
    }
  }

  ghost predicate EachOnce(paths: seq<string>, once: seq<string>) {
    once == FirstOnly(paths)
  }

  lemma OneMorePath(paths: seq<string>, once: seq<string>, path: string)
    requires EachOnce(paths, once)
    ensures EachOnce(paths + [path], if path in once then once else once + [path])
  {
    assert (paths + [path])[..|paths|] == paths;
  }

  /** The references up to the first error. */
  ghost predicate Resolved(text: Text, requested: seq<string>, present: seq<Disk>, pins: map<string, string>,
                           resolved: seq<string>)
  {
    |resolved| <= |requested| && forall i :: 0 <= i < |resolved| ==>
      Means(text, requested[i], present, pins, Ok(resolved[i]))
  }

  lemma OneMoreResolved(text: Text, requested: seq<string>, present: seq<Disk>, pins: map<string, string>,
                        resolved: seq<string>, r: Result)
    requires Resolved(text, requested, present, pins, resolved) && |resolved| < |requested|
    requires Means(text, requested[|resolved|], present, pins, r)
    ensures r.Ok? ==> Resolved(text, requested, present, pins, resolved + [r.path])
  {
  }

  method ResolvePinnedDevice(text: Text, ref: string, byID: map<string, string>, byPath: map<string, string>,
                             pinByPath: map<string, string>, ghost present: seq<Disk>,
                             ghost pins: map<string, string>)
    returns (r: Result)
    requires Identifies(byID, present) && Pinned(text, pinByPath, pins, pins.Keys)
    ensures Means(text, ref, present, pins, r)
  {
    ResolvesAsMeant(text, ref, present, pins, byID, byPath, pinByPath);
    r := ResolveOne(text, ref, byID, byPath, pinByPath);
  }

  method ResolveAll(text: Text, requested: seq<string>, byID: map<string, string>, byPath: map<string, string>,
                    pinByPath: map<string, string>, ghost present: seq<Disk>, ghost pins: map<string, string>)
    returns (ok: bool, out: seq<string>, ghost resolved: seq<string>)
    requires Identifies(byID, present) && Pinned(text, pinByPath, pins, pins.Keys)
    ensures Resolved(text, requested, present, pins, resolved)
    ensures if ok then |resolved| == |requested| && EachOnce(resolved, out)
            else |resolved| < |requested| && Means(text, requested[|resolved|], present, pins, Err)
  {
    out, resolved := [], [];
    var i := 0;
    while i < |requested|
      invariant i == |resolved| <= |requested| && EachOnce(resolved, out)
      invariant Resolved(text, requested, present, pins, resolved)
    {
      var r := ResolvePinnedDevice(text, requested[i], byID, byPath, pinByPath, present, pins);
      OneMoreResolved(text, requested, present, pins, resolved, r);
      if r.Err? {
        return false, [], resolved;
      }
      OneMorePath(resolved, out, r.path);
      resolved := resolved + [r.path];
      if r.path !in out {
        out := out + [r.path];
      }
      i := i + 1;
    }
    ok := true;
  }

  /** The whole selection, or the first error. Without any reliable identity it is left as it is. */
  method ResolvePinnedDevices(text: Text, requested: seq<string>, present: seq<Disk>, pins: map<string, string>)
    returns (ok: bool, out: seq<string>, ghost resolved: seq<string>)
    ensures !SomeStable(present) ==> ok && out == requested
    ensures SomeStable(present) ==>
              && Resolved(text, requested, present, pins, resolved)
              && if ok then |resolved| == |requested| && EachOnce(resolved, out)
                 else |resolved| < |requested| && Means(text, requested[|resolved|], present, pins, Err)
  {
    resolved := [];
    if requested == [] {
      return true, requested, resolved;
    }
    var byID, byPath, stable := Identify(text, present);
    if stable == 0 {
      NoneStable(byID, present);
      return true, requested, resolved;
    }
    SomeIdentified(byID, present);
    var pinByPath := IndexPins(text, pins);
    ok, out, resolved := ResolveAll(text, requested, byID, byPath, pinByPath, present, pins);
  }

  lemma NoneStable(byID: map<string, string>, present: seq<Disk>)
    requires Identifies(byID, present) && byID == map[]
    ensures !SomeStable(present)
  {
    forall k | 0 <= k < |present|
      ensures !IsStable(present[k].uniqueID)
    {
      assert present[k].uniqueID !in byID;
      assert PathOf(present, present[k].uniqueID).None? ==> false;
    }
  }

  lemma SomeIdentified(byID: map<string, string>, present: seq<Disk>)
    requires Identifies(byID, present) && byID != map[]
    ensures SomeStable(present)
  {
    var id :| id in byID;
    var k :| 0 <= k < |present| && present[k] == Disk(PathOf(present, id).value, id);
    assert IsStable(present[k].uniqueID);
  }

  // From one run to the next.

  /** The pins this run implies: every resolved drive whose disk has a reliable identity. */
  function CollectOne(text: Text, ref: string, present: seq<Disk>): map<string, string> {
    match text.normalize(ref)
    case None => map[]
    case Some(p) =>
      var k := LastAt(text, present, p);
      if k >= 0 && IsStable(present[k].uniqueID) then map[present[k].uniqueID := p] else map[]
  }

  /** The last disk found at a path, or -1. */
  function LastAt(text: Text, present: seq<Disk>, path: string): (k: int)
    ensures -1 <= k < |present| && (k >= 0 ==> text.normalize(present[k].devicePath) == Some(path))
    ensures k < 0 ==> forall j :: 0 <= j < |present| ==> text.normalize(present[j].devicePath) != Some(path)
  {
    if present == [] then -1
    else if text.normalize(present[|present| - 1].devicePath) == Some(path) then |present| - 1
    else
      var before := LastAt(text, present[..|present| - 1], path);
      assert forall j :: 0 <= j < |present| - 1 ==> present[..|present| - 1][j] == present[j];
      before
  }

  /** Of several disks at the same path the one listed last counts. */
  lemma {:induction false} LastAtIsLast(text: Text, present: seq<Disk>, path: string, j: nat)
    requires j < |present| && text.normalize(present[j].devicePath) == Some(path)
    ensures LastAt(text, present, path) >= j
    decreases |present|
  {
    var n := |present| - 1;
    if text.normalize(present[n].devicePath) != Some(path) {
      assert present[..n][j] == present[j];
      LastAtIsLast(text, present[..n], path, j);
    }
  }

  function CollectDiskPins(text: Text, resolved: seq<string>, present: seq<Disk>): map<string, string> {
    if resolved == [] then map[]
    else
      var n := |resolved| - 1;
      CollectDiskPins(text, resolved[..n], present) + CollectOne(text, resolved[n], present)
  }

  /** The last disk found at each path. */
  ghost predicate FoundAt(text: Text, byPath: map<string, Disk>, present: seq<Disk>) {
    forall p :: if LastAt(text, present, p) < 0 then p !in byPath
                else p in byPath && byPath[p] == present[LastAt(text, present, p)]
  }

  lemma FoundMore(text: Text, byPath: map<string, Disk>, present: seq<Disk>, d: Disk)
    requires FoundAt(text, byPath, present)
    ensures var path := text.normalize(d.devicePath);
            FoundAt(text, if path.Some? then byPath[path.value := d] else byPath, present + [d])
  {
    assert (present + [d])[..|present|] == present;
  }

  method IndexByPath(text: Text, present: seq<Disk>) returns (byPath: map<string, Disk>)
    ensures FoundAt(text, byPath, present)
  {
    byPath := map[];
    var i := 0;
    while i < |present|
      invariant i <= |present| && FoundAt(text, byPath, present[..i])
    {
      FoundMore(text, byPath, present[..i], present[i]);
      assert present[..i + 1] == present[..i] + [present[i]];
      var path := text.normalize(present[i].devicePath);
      if path.Some? {
        byPath := byPath[path.value := present[i]];
      }
      i := i + 1;
    }
    assert present[..i] == present;
  }

  ghost predicate Collected(text: Text, resolved: seq<string>, present: seq<Disk>, out: map<string, string>) {
    out == CollectDiskPins(text, resolved, present)
  }

  lemma CollectMore(text: Text, resolved: seq<string>, ref: string, present: seq<Disk>, byPath: map<string, Disk>,
                    out: map<string, string>)
    requires FoundAt(text, byPath, present) && Collected(text, resolved, present, out)
    ensures var path := text.normalize(ref);
            Collected(text, resolved + [ref], present,
                      if path.Some? && path.value in byPath && IsStable(byPath[path.value].uniqueID)
                      then out[byPath[path.value].uniqueID := path.value] else out)
  {
    assert (resolved + [ref])[..|resolved|] == resolved;
  }

  method CollectPins(text: Text, resolved: seq<string>, present: seq<Disk>) returns (out: map<string, string>)
    ensures out == CollectDiskPins(text, resolved, present)
  {
    var byPath := IndexByPath(text, present);
    out := map[];
    var i := 0;
    while i < |resolved|
      invariant i <= |resolved| && Collected(text, resolved[..i], present, out)
    {
      CollectMore(text, resolved[..i], resolved[i], present, byPath, out);
      assert resolved[..i + 1] == resolved[..i] + [resolved[i]];
      var path := text.normalize(resolved[i]);
      if path.Some? && path.value in byPath && IsStable(byPath[path.value].uniqueID) {
        out := out[byPath[path.value].uniqueID := path.value];
      }
      i := i + 1;
    }
    assert resolved[..i] == resolved;
  }

  /** New pins replace old ones of the same disk. */
  method MergeDiskPins(pins: map<string, string>, newPins: map<string, string>)
    returns (merged: map<string, string>, changed: bool)
    ensures merged == pins + newPins && (changed <==> merged != pins)
  {
    merged, changed := pins, false;
    var left := newPins.Keys;
    while left != {}
      invariant left <= newPins.Keys && merged.Keys == pins.Keys + (newPins.Keys - left)
      invariant forall id :: id in merged ==>
                               merged[id] == if id in newPins && id !in left then newPins[id] else pins[id]
      invariant if changed then merged != pins else merged == pins
      decreases |left|
    {
      var id :| id in left;
      if id !in merged || merged[id] != newPins[id] {
        assert id !in pins || pins[id] != newPins[id];
        merged := merged[id := newPins[id]];
        changed := true;
        assert id in merged && merged[id] == newPins[id];
      }
      left := left - {id};
    }
  }
}
