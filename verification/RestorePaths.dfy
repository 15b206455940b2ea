/**
 Where a selective restore puts what it extracts (buildPathRewriter, commonAncestorDir and the check for matches
 in gui/restore_inline.go; NormalizeIncludes and pathSelected in pbscommon/pxar_reader.go).
 */
module RestorePaths {
  import opened Options
  import opened ArchivePaths

  /** An include is itself selected, and everything below it. */
  predicate SelectedBy(path: string, inc: string) {
    path == inc || Below(path, inc)
  }

  predicate Selected(path: string, includes: seq<string>) {
    includes == [] || exists i :: 0 <= i < |includes| && SelectedBy(path, includes[i])
  }

  /** The walker also visits the ancestors of an include, to create them. */
  predicate Matches(path: string, includes: seq<string>) {
    includes == [] || exists i :: 0 <= i < |includes| && (SelectedBy(path, includes[i]) || Below(includes[i], path))
  }

  /** One of them lies at or below the other. */
  ghost predicate OnTheWay(path: string, inc: string) {
    Split(inc) <= Split(path) || Split(path) <= Split(inc)
  }

  /** Said of the components: what is at or below an include is selected, and what is on the way there is visited. */
  lemma MatchesExactly(path: string, includes: seq<string>)
    ensures Matches(path, includes) <==>
            includes == [] || exists i :: 0 <= i < |includes| && OnTheWay(path, includes[i])
    ensures Selected(path, includes) <==>
            includes == [] || exists i :: 0 <= i < |includes| && Split(includes[i]) <= Split(path)
  {
    forall i | 0 <= i < |includes|
      ensures SelectedBy(path, includes[i]) <==> Split(includes[i]) <= Split(path)
      ensures SelectedBy(path, includes[i]) || Below(includes[i], path) <==> OnTheWay(path, includes[i])
    {
      AtOrBelow(path, includes[i]);
      AtOrBelow(includes[i], path);
    }
  }

  lemma AtOrBelow(path: string, inc: string)
    ensures SelectedBy(path, inc) <==> Split(inc) <= Split(path)
  {
    BelowIsProperPrefix(path, inc);
    if Split(inc) == Split(path) {
      SplitInjective(inc, path);
    }
  }

  // Normalizing.

  function Slashed(s: string): (t: string)
    ensures |t| == |s| && forall i :: 0 <= i < |s| ==> t[i] == if s[i] == '\\' then '/' else s[i]
  {
    seq(|s|, i requires 0 <= i < |s| => if s[i] == '\\' then '/' else s[i])
  }

  function TrimLeft(s: string): (t: string)
    ensures t != "" ==> t[0] != '/' && |s| > 0 && t[|t| - 1] == s[|s| - 1]
  {
    if s != "" && s[0] == '/' then TrimLeft(s[1..]) else s
  }

  function TrimRight(s: string): (t: string)
    ensures t <= s && (t != "" ==> t[|t| - 1] != '/')
  {
    if s != "" && s[|s| - 1] == '/' then TrimRight(s[..|s| - 1]) else s
  }

  predicate Normal(path: string) {
    path != "" && path[0] != '/' && path[|path| - 1] != '/'
  }

  function Trimmed(path: string): string {
    TrimRight(TrimLeft(Slashed(path)))
  }

  /** What one path comes to. */
  function Piece(path: string): (piece: seq<string>)
    ensures forall i :: 0 <= i < |piece| ==> Normal(piece[i])
  {
    if Trimmed(path) == "" then [] else [Trimmed(path)]
  }

  /** What a list of paths comes to, whatever one path does. */
  function Pieces(f: string -> seq<string>, paths: seq<string>): seq<string> {
    if paths == [] then [] else Pieces(f, paths[..|paths| - 1]) + f(paths[|paths| - 1])
  }

  function NormalizeIncludes(paths: seq<string>): (out: seq<string>)
    ensures forall i :: 0 <= i < |out| ==> Normal(out[i])
  {
    PiecesNormal(paths);
    Pieces(Piece, paths)
  }

  lemma {:induction false} PiecesNormal(paths: seq<string>)
    ensures forall i :: 0 <= i < |Pieces(Piece, paths)| ==> Normal(Pieces(Piece, paths)[i])
  {
    if paths != [] {
      PiecesNormal(paths[..|paths| - 1]);
    }
  }

  /** Paths come to something one by one, and stay in order. */
  ghost predicate InOrder(f: string -> seq<string>, a: seq<string>, b: seq<string>) {
    Pieces(f, a + b) == Pieces(f, a) + Pieces(f, b)
  }

  lemma PiecesSnoc(f: string -> seq<string>, paths: seq<string>, path: string)
    ensures Pieces(f, paths + [path]) == Pieces(f, paths) + f(path)
  {
    assert (paths + [path])[..|paths|] == paths;
  }

  lemma OneMoreInOrder(f: string -> seq<string>, a: seq<string>, b: seq<string>, path: string)
    requires InOrder(f, a, b)
    ensures InOrder(f, a, b + [path])
  {
    PiecesSnoc(f, a + b, path);
    PiecesSnoc(f, b, path);
    assert a + (b + [path]) == a + b + [path];
    assert Pieces(f, a) + Pieces(f, b) + f(path) == Pieces(f, a) + (Pieces(f, b) + f(path));
  }

  lemma {:induction false} AllInOrder(f: string -> seq<string>, a: seq<string>, b: seq<string>)
    ensures InOrder(f, a, b)
    decreases |b|
  {
    if b == [] {
      assert a + b == a;
    } else {
      var n := |b| - 1;
      AllInOrder(f, a, b[..n]);
      OneMoreInOrder(f, a, b[..n], b[n]);
      assert b == b[..n] + [b[n]];
    }
  }

  /** Every path is normalized for itself, those that are not blank are kept, and they stay in order. */
  lemma NormalizedInOrder(a: seq<string>, path: string, b: seq<string>)
    ensures NormalizeIncludes(a + [path] + b) == NormalizeIncludes(a) + Piece(path) + NormalizeIncludes(b)
  {
    AllInOrder(Piece, a + [path], b);
    PiecesSnoc(Piece, a, path);
  }

  predicate AllSlashes(s: string) {
    forall i :: 0 <= i < |s| ==> s[i] == '/'
  }

  /** Nothing but slashes around it. */
  ghost predicate Between(s: string, before: string, t: string, after: string) {
    s == before + t + after && AllSlashes(before) && AllSlashes(after)
  }

  lemma {:induction false} TrimLeftOnly(s: string) returns (before: string)
    ensures Between(s, before, TrimLeft(s), "")
    decreases |s|
  {
    before := "";
    if s != "" && s[0] == '/' {
      var rest := TrimLeftOnly(s[1..]);
      before := [s[0]] + rest;
    }
  }

  lemma OneSlashMore(s: string, most: string, t: string, after: string)
    requires Between(most, "", t, after) && s == most + "/"
    ensures Between(s, "", t, after + "/")
  {
    assert "" + t + after + "/" == "" + t + (after + "/");
  }

  lemma {:induction false} TrimRightOnly(s: string) returns (after: string)
    ensures Between(s, "", TrimRight(s), after)
    decreases |s|
  {
    after := "";
    if s != "" && s[|s| - 1] == '/' {
      var n := |s| - 1;
      var rest := TrimRightOnly(s[..n]);
      after := rest + [s[n]];
      OneSlashMore(s, s[..n], TrimRight(s[..n]), rest);
    }
  }

  lemma BetweenBoth(s: string, before: string, t: string, u: string, after: string)
    requires Between(s, before, t, "") && Between(t, "", u, after)
    ensures Between(s, before, u, after)
  {
  }

  /** Nothing but slashes is cut off, at both ends. */
  lemma TrimmedOnly(path: string) returns (before: string, after: string)
    ensures Between(Slashed(path), before, Trimmed(path), after)
  {
    before := TrimLeftOnly(Slashed(path));
    after := TrimRightOnly(TrimLeft(Slashed(path)));
    BetweenBoth(Slashed(path), before, TrimLeft(Slashed(path)), Trimmed(path), after);
  }

  /** A path of nothing but slashes and backslashes is dropped; of any other only such are cut off, at both ends. */
  lemma PieceExactly(path: string) returns (before: string, after: string)
    ensures Piece(path) == [] <==> forall i :: 0 <= i < |path| ==> path[i] == '/' || path[i] == '\\'
    ensures Piece(path) != [] ==> |Piece(path)| == 1 && Between(Slashed(path), before, Piece(path)[0], after)
  {
    before, after := TrimmedOnly(path);
    if Trimmed(path) != "" {
      assert Slashed(path)[|before|] == Trimmed(path)[0];
    } else {
      assert Slashed(path) == before + after;
    }
  }

  // The common directory of the includes.

  /** These components are a prefix of the first n includes'. */
  ghost predicate CommonTo(parts: seq<string>, includes: seq<string>, n: nat)
    requires n <= |includes|
  {
    forall i :: 0 <= i < n ==> parts <= Split(includes[i])
  }

  ghost predicate Longest(parts: seq<string>, includes: seq<string>, n: nat)
    requires n <= |includes|
  {
    CommonTo(parts, includes, n) && forall other :: CommonTo(other, includes, n) ==> other <= parts
  }

  function ParentDir(path: string): string {
    Join(Split(path)[..|Split(path)| - 1])
  }

  /** The text up to the last slash. */
  method CutAtLastSlash(path: string) returns (dir: string)
    ensures dir == ParentDir(path)
  {
    var i: nat := |path|;
    while i > 0 && path[i - 1] != '/'
      invariant i <= |path| && '/' !in path[i..]
    {
      i := i - 1;
      assert path[i..] == [path[i]] + path[i + 1..];
    }
    JoinSplit(path[..if i == 0 then 0 else i - 1]);
    if i == 0 {
      assert path[0..] == path;
      SplitPlain(path);
      dir := "";
    } else {
      dir := path[..i - 1];
      assert path == dir + "/" + path[i..];
      SplitAt(dir, path[i..]);
      SplitPlain(path[i..]);
      assert Split(path)[..|Split(path)| - 1] == Split(dir);
    }
  }

  /** Cut `parts` down to what it has in common with one more include. */
  method CutToCommon(parts: seq<string>, ghost includes: seq<string>, ghost n: nat, inc: string)
    returns (common: seq<string>)
    requires n < |includes| && inc == includes[n] && Longest(parts, includes, n)
    ensures Longest(common, includes, n + 1)
  {
    var ps := Split(inc);
    var max := if |ps| < |parts| then |ps| else |parts|;
    var i := 0;
    while i < max && parts[i] == ps[i]
      invariant i <= max && parts[..i] == ps[..i]
    {
      i := i + 1;
    }
    common := parts[..i];
    CutIsLongest(parts, ps, i, includes, n, n + 1);
  }

  lemma CutIsLongest(parts: seq<string>, ps: seq<string>, i: nat, includes: seq<string>, n: nat, m: nat)
    requires m == n + 1 <= |includes| && ps == Split(includes[n]) && Longest(parts, includes, n)
    requires i <= |parts| && i <= |ps| && parts[..i] == ps[..i] && (i < |parts| && i < |ps| ==> parts[i] != ps[i])
    ensures Longest(parts[..i], includes, m)
  {
    forall other | CommonTo(other, includes, m)
      ensures other <= parts[..i]
    {
      assert CommonTo(other, includes, n);
      assert other <= parts && other <= ps;
      PrefixAt(other, parts, i);
      PrefixAt(other, ps, i);
    }
  }

  lemma PrefixAt(a: seq<string>, b: seq<string>, i: nat)
    requires a <= b
    ensures i < |a| ==> i < |b| && a[i] == b[i]
  {
  }

  /** The longest run of components that all the includes start with; for a single include, its parent. */
  method CommonAncestorDir(includes: seq<string>) returns (prefix: string)
    ensures |includes| == 0 ==> prefix == ""
    ensures |includes| == 1 ==> prefix == ParentDir(includes[0])
    ensures |includes| >= 2 ==> exists parts :: prefix == Join(parts) && Longest(parts, includes, |includes|)
  {
    if |includes| == 0 {
      return "";
    }
    if |includes| == 1 {
      prefix := CutAtLastSlash(includes[0]);
      return;
    }
    var parts := Split(includes[0]);
    var n := 1;
    while n < |includes| && parts != []
      invariant 1 <= n <= |includes| && Longest(parts, includes, n)
    {
      parts := CutToCommon(parts, includes, n, includes[n]);
      n := n + 1;
    }
    if parts == [] {
      assert forall other :: CommonTo(other, includes, |includes|) ==> CommonTo(other, includes, n);
    }
    assert Longest(parts, includes, |includes|);
    prefix := Join(parts);
  }

  // The rewriter.

  /** filepath.Join(base, ...) on components: empty ones and dots vanish, two dots go up. */
  function Onto(base: seq<string>, parts: seq<string>): seq<string>
    decreases |parts|
  {
    if parts == [] then base
    else if parts[0] == "" || parts[0] == "." then Onto(base, parts[1..])
    else if parts[0] == ".." then Onto(if base == [] then base else base[..|base| - 1], parts[1..])
    else Onto(base + [parts[0]], parts[1..])
  }

  lemma {:induction false} OntoInTurn(base: seq<string>, a: seq<string>, b: seq<string>)
    ensures Onto(base, a + b) == Onto(Onto(base, a), b)
    decreases |a|
  {
    if a == [] {
      assert a + b == b;
    } else {
      assert (a + b)[1..] == a[1..] + b;
      OntoInTurn(Onto(base, [a[0]]), a[1..], b);
      OntoOne(base, a[0]);
    }
  }

  /** One component more: nothing or a dot stays, two dots go up if there is anything above, any other goes down. */
  lemma OntoOne(base: seq<string>, part: string)
    ensures part == "" || part == "." ==> Onto(base, [part]) == base
    ensures part == ".." ==> Onto(base, [part]) == if base == [] then [] else base[..|base| - 1]
    ensures part !in ["", ".", ".."] ==> Onto(base, [part]) == base + [part]
  {
    assert [part][1..] == [];
  }

  predicate PlainParts(parts: seq<string>) {
    forall i :: 0 <= i < |parts| ==> parts[i] != "" && parts[i] != "." && parts[i] != ".."
  }

  predicate Plain(path: string) {
    PlainParts(Split(path))
  }

  lemma {:induction false} OntoPlain(base: seq<string>, parts: seq<string>)
    requires PlainParts(parts)
    ensures Onto(base, parts) == base + parts
    decreases |parts|
  {
    if parts != [] {
      OntoPlain(base + [parts[0]], parts[1..]);
      assert base + [parts[0]] + parts[1..] == base + parts;
    }
  }

  /** Where a flat restore puts a path, or nowhere. With an empty prefix this is what a restore elsewhere does too. */
  function Target(dest: seq<string>, prefix: string, path: string): Option<seq<string>> {
    if path == "" then None
    else if prefix == "" then Some(Onto(dest, Split(path)))
    else if path == prefix then None
    else if !Below(path, prefix) then None
    else Some(Onto(dest, Split(path[|prefix| + 1..])))
  }

  /** Dropped is exactly what is not strictly below the prefix. */
  lemma KeptIsBelow(dest: seq<string>, prefix: string, path: string)
    requires path != "" && prefix != ""
    ensures Target(dest, prefix, path).Some? <==> Split(prefix) < Split(path)
  {
    BelowIsProperPrefix(path, prefix);
  }

  function Depth(prefix: string): nat {
    if prefix == "" then 0 else |Split(prefix)|
  }

  /** A kept path keeps its components behind the prefix. */
  lemma TargetParts(dest: seq<string>, prefix: string, path: string)
    requires Target(dest, prefix, path).Some? && Plain(path)
    ensures Depth(prefix) <= |Split(path)| && Target(dest, prefix, path).value == dest + Split(path)[Depth(prefix)..]
    ensures prefix != "" ==> Split(prefix) < Split(path)
  {
    if prefix == "" {
      OntoPlain(dest, Split(path));
    } else {
      BelowIsProperPrefix(path, prefix);
      RestOfPath(path, prefix);
      assert Split(path)[Depth(prefix)..] == Split(path[|prefix| + 1..]);
      OntoPlain(dest, Split(path[|prefix| + 1..]));
    }
  }

  /** One target lies at or below another just when the paths do. */
  lemma TargetsFollowPaths(dest: seq<string>, prefix: string, path: string, inc: string)
    requires Target(dest, prefix, path).Some? && Plain(path) && Target(dest, prefix, inc).Some? && Plain(inc)
    ensures Target(dest, prefix, inc).value <= Target(dest, prefix, path).value <==> SelectedBy(path, inc)
  {
    TargetParts(dest, prefix, path);
    TargetParts(dest, prefix, inc);
    BelowIsProperPrefix(path, inc);
    var n := Depth(prefix);
    assert Split(path)[..n] == Split(inc)[..n];
    SamePrefix(dest, Split(path), Split(inc), n);
    if Split(inc) == Split(path) {
      SplitInjective(inc, path);
    }
  }

  lemma SamePrefix(dest: seq<string>, a: seq<string>, b: seq<string>, n: nat)
    requires n <= |a| && n <= |b| && a[..n] == b[..n]
    ensures dest + b[n..] <= dest + a[n..] <==> b <= a
  {
    if dest + b[n..] <= dest + a[n..] {
      forall i | 0 <= i < |b|
        ensures i < |a| && b[i] == a[i]
      {
        if i >= n {
          assert b[i] == (dest + b[n..])[|dest| + i - n];
        } else {
          assert b[..n][i] == a[..n][i];
        }
      }
    }
  }

  /** Two kept paths never end up in the same place. */
  lemma RewriterInjective(dest: seq<string>, prefix: string, a: string, b: string)
    requires Target(dest, prefix, a).Some? && Plain(a) && Plain(b)
    requires Target(dest, prefix, a) == Target(dest, prefix, b)
    ensures a == b
  {
    TargetsFollowPaths(dest, prefix, a, b);
    TargetsFollowPaths(dest, prefix, b, a);
    BelowIsProperPrefix(a, b);
    BelowIsProperPrefix(b, a);
  }

  // The selection under its own prefix.

  /** What CommonAncestorDir returns. */
  ghost predicate IsPrefixOf(prefix: string, includes: seq<string>) {
    && includes != []
    && (forall i :: 0 <= i < |includes| ==> Normal(includes[i]))
    && if |includes| == 1 then prefix == ParentDir(includes[0])
       else exists parts :: prefix == Join(parts) && Longest(parts, includes, |includes|)
  }

  lemma FirstPartOfNormal(path: string)
    requires Normal(path)
    ensures Split(path)[0] != ""
  {
  }

  /** Unless empty, the prefix is at or above every include. */
  lemma PrefixAboveIncludes(prefix: string, includes: seq<string>, i: nat)
    requires IsPrefixOf(prefix, includes) && i < |includes| && prefix != ""
    ensures Split(prefix) <= Split(includes[i])
  {
    var parts := Split(includes[0])[..|Split(includes[0])| - 1];
    if |includes| > 1 {
      parts :| prefix == Join(parts) && Longest(parts, includes, |includes|);
    }
    assert parts != [];
    assert parts <= Split(includes[0]);
    SplitJoin(parts);
  }

  /** Everything selected is restored, but for a selected path that is the prefix itself. */
  lemma SelectionKept(dest: seq<string>, prefix: string, includes: seq<string>, path: string)
    requires IsPrefixOf(prefix, includes) && path != "" && Selected(path, includes)
    ensures Target(dest, prefix, path).Some? <==> path != prefix
  {
    var i :| 0 <= i < |includes| && SelectedBy(path, includes[i]);
    if prefix != "" {
      PrefixAboveIncludes(prefix, includes, i);
      BelowIsProperPrefix(path, includes[i]);
      BelowIsProperPrefix(path, prefix);
      if Split(path) == Split(prefix) {
        SplitInjective(path, prefix);
      }
    }
  }

  // The check for matches.

  /** Whether any include, or anything below one, was among the extracted files. */
  method MatchedAny(dest: seq<string>, prefix: string, includes: seq<string>, extracted: seq<seq<string>>)
    returns (matched: bool)
    ensures matched <==> Matched(dest, prefix, includes, extracted)
  {
    matched := false;
    var i := 0;
    while i < |includes| && !matched
      invariant i <= |includes|
      invariant matched <==> exists k :: 0 <= k < i && HitBy(dest, prefix, includes[k], extracted)
    {
      var want := Target(dest, prefix, includes[i]);
      if want.Some? {
        var f := 0;
        while f < |extracted| && !matched
          invariant f <= |extracted|
          invariant matched <==> exists k :: 0 <= k < f && want.value <= extracted[k]
        {
          matched := want.value <= extracted[f];
          f := f + 1;
        }
      }
      i := i + 1;
    }
  }

  predicate HitBy(dest: seq<string>, prefix: string, inc: string, extracted: seq<seq<string>>) {
    var want := Target(dest, prefix, inc);
    want.Some? && exists f :: 0 <= f < |extracted| && want.value <= extracted[f]
  }

  predicate Matched(dest: seq<string>, prefix: string, includes: seq<string>, extracted: seq<seq<string>>) {
    exists i :: 0 <= i < |includes| && HitBy(dest, prefix, includes[i], extracted)
  }

  /** The files extracted from a snapshot: the targets of what is in it and matches. */
  ghost predicate ExtractedFrom(extracted: seq<seq<string>>, present: set<string>, dest: seq<string>, prefix: string,
                                includes: seq<string>)
  {
    && (forall f :: 0 <= f < |extracted| ==>
          exists p :: p in present && Matches(p, includes) && Target(dest, prefix, p) == Some(extracted[f]))
    && (forall p :: p in present && Matches(p, includes) && Target(dest, prefix, p).Some? ==>
        Target(dest, prefix, p).value in extracted)
  }

  /** Something in the snapshot was selected by this include. */
  ghost predicate Found(present: set<string>, inc: string) {
    exists p :: p in present && SelectedBy(p, inc)
  }

  ghost predicate AllPlain(present: set<string>, includes: seq<string>) {
    && (forall p :: p in present ==> p != "" && Plain(p))
    && (forall i :: 0 <= i < |includes| ==> Plain(includes[i]))
  }

  lemma HitHasSource(dest: seq<string>, prefix: string, includes: seq<string>, extracted: seq<seq<string>>,
                     present: set<string>, inc: string)
    requires AllPlain(present, includes) && ExtractedFrom(extracted, present, dest, prefix, includes) && Plain(inc)
    requires HitBy(dest, prefix, inc, extracted)
    ensures Found(present, inc)
  {
    var f :| 0 <= f < |extracted| && Target(dest, prefix, inc).value <= extracted[f];
    var p :| p in present && Matches(p, includes) && Target(dest, prefix, p) == Some(extracted[f]);
    TargetsFollowPaths(dest, prefix, p, inc);
  }

  lemma SourceIsHit(dest: seq<string>, prefix: string, includes: seq<string>, extracted: seq<seq<string>>,
                    present: set<string>, inc: string, path: string)
    requires ExtractedFrom(extracted, present, dest, prefix, includes) && Plain(path) && Plain(inc)
    requires path in present && Matches(path, includes) && SelectedBy(path, inc)
    requires Target(dest, prefix, path).Some? && Target(dest, prefix, inc).Some?
    ensures HitBy(dest, prefix, inc, extracted)
  {
    TargetsFollowPaths(dest, prefix, path, inc);
    var f :| 0 <= f < |extracted| && extracted[f] == Target(dest, prefix, path).value;
  }

  lemma HitIsFound(dest: seq<string>, prefix: string, includes: seq<string>, extracted: seq<seq<string>>,
                   present: set<string>, i: nat)
    requires IsPrefixOf(prefix, includes) && AllPlain(present, includes) && i < |includes|
    requires ExtractedFrom(extracted, present, dest, prefix, includes)
    ensures HitBy(dest, prefix, includes[i], extracted) <==> includes[i] != prefix && Found(present, includes[i])
  {
    var inc := includes[i];
    SelectionKept(dest, prefix, includes, inc);
    if HitBy(dest, prefix, inc, extracted) {
      HitHasSource(dest, prefix, includes, extracted, present, inc);
    } else if inc != prefix && Found(present, inc) {
      var path :| path in present && SelectedBy(path, inc);
      PrefixNotBelow(prefix, includes, i, path);
      SelectionKept(dest, prefix, includes, path);
      SourceIsHit(dest, prefix, includes, extracted, present, inc, path);
    }
  }

  /** The prefix itself is selected by no include but the prefix. */
  lemma PrefixNotBelow(prefix: string, includes: seq<string>, i: nat, path: string)
    requires IsPrefixOf(prefix, includes) && i < |includes| && SelectedBy(path, includes[i]) && includes[i] != prefix
    ensures path != prefix
  {
    if path == prefix {
      FirstPartOfNormal(includes[i]);
      BelowIsProperPrefix(path, includes[i]);
      if prefix != "" {
        PrefixAboveIncludes(prefix, includes, i);
      }
    }
  }

  /** What the check really says. */
  lemma MatchedExactly(dest: seq<string>, prefix: string, includes: seq<string>, extracted: seq<seq<string>>,
                       present: set<string>)
    requires IsPrefixOf(prefix, includes) && AllPlain(present, includes)
             && ExtractedFrom(extracted, present, dest, prefix, includes)
    ensures Matched(dest, prefix, includes, extracted) <==>
            exists i :: 0 <= i < |includes| && includes[i] != prefix && Found(present, includes[i])
  {
    forall i | 0 <= i < |includes|
      ensures HitBy(dest, prefix, includes[i], extracted) <==> includes[i] != prefix && Found(present, includes[i])
    {
      HitIsFound(dest, prefix, includes, extracted, present, i);
    }
  }

  /** What it is for: at least one requested path was in the snapshot. */
  ghost predicate Promise(present: set<string>, includes: seq<string>) {
    exists i :: 0 <= i < |includes| && Found(present, includes[i])
  }

  ghost predicate Kept(present: set<string>, prefix: string, includes: seq<string>) {
    exists i :: 0 <= i < |includes| && includes[i] != prefix && Found(present, includes[i])
  }

  /** The check keeps its promise for every snapshot exactly if no include is the common directory of all of them. */
  lemma CheckKeepsPromise(prefix: string, includes: seq<string>)
    requires IsPrefixOf(prefix, includes) && AllPlain({}, includes)
    ensures (forall present :: AllPlain(present, includes) ==>
             (Kept(present, prefix, includes) <==> Promise(present, includes))) <==>
            prefix !in includes
  {
    if prefix in includes {
      var i :| 0 <= i < |includes| && includes[i] == prefix;
      var present := {prefix};
      assert AllPlain(present, includes);
      assert SelectedBy(prefix, prefix) && Found(present, includes[i]);
      if Kept(present, prefix, includes) {
        var k :| 0 <= k < |includes| && includes[k] != prefix && Found(present, includes[k]);
        PrefixNotBelow(prefix, includes, k, prefix);
      }
    }
  }
}
