/**
 Paths inside an archive: components separated by slashes, taken apart and put together as the standard library does.
 */
module ArchivePaths {

  /** strings.Split(s, "/"): never empty, and a component may be. */
  function Split(s: string): (parts: seq<string>)
    ensures parts != [] && forall i :: 0 <= i < |parts| ==> '/' !in parts[i]
  {
    if s == "" then [""]
    else
      var rest := Split(s[1..]);
      if s[0] == '/' then [""] + rest else [[s[0]] + rest[0]] + rest[1..]
  }

  /** strings.Join(parts, "/"). */
  function Join(parts: seq<string>): string {
    if parts == [] then "" else if |parts| == 1 then parts[0] else parts[0] + "/" + Join(parts[1..])
  }

  lemma {:induction false} JoinSplit(s: string)
    ensures Join(Split(s)) == s
  {
    if s != "" {
      JoinSplit(s[1..]);
      var rest := Split(s[1..]);
      if s[0] == '/' {
        assert ([""] + rest)[1..] == rest;
      } else {
        var parts := [[s[0]] + rest[0]] + rest[1..];
        assert parts[1..] == rest[1..];
        if |rest| > 1 {
          assert [s[0]] + rest[0] + "/" + Join(rest[1..]) == [s[0]] + (rest[0] + "/" + Join(rest[1..]));
        }
      }
      assert s == [s[0]] + s[1..];
    }
  }

  lemma {:induction false} SplitPlain(s: string)
    requires '/' !in s
    ensures Split(s) == [s]
  {
    if s != "" {
      assert s == [s[0]] + s[1..];
      SplitPlain(s[1..]);
    }
  }

  /** A slash between two strings separates their components. */
  lemma {:induction false} SplitAt(a: string, b: string)
    ensures Split(a + "/" + b) == Split(a) + Split(b)
  {
    if a == "" {
      assert a + "/" + b == "/" + b && ("/" + b)[1..] == b;
    } else {
      assert (a + "/" + b)[1..] == a[1..] + "/" + b;
      SplitAt(a[1..], b);
    }
  }

  lemma {:induction false} SplitJoin(parts: seq<string>)
    requires parts != [] && forall i :: 0 <= i < |parts| ==> '/' !in parts[i]
    ensures Split(Join(parts)) == parts
  {
    SplitPlain(parts[0]);
    if |parts| > 1 {
      SplitJoin(parts[1..]);
      SplitAt(parts[0], Join(parts[1..]));
      assert parts == [parts[0]] + parts[1..];
    }
  }

  predicate HasPrefix(s: string, prefix: string) {
    prefix <= s
  }

  /** `path` lies below `dir`: the source's test on the strings. */
  predicate Below(path: string, dir: string) {
    HasPrefix(path, dir + "/")
  }

  /** The test on strings is the one on components. */
  lemma BelowIsProperPrefix(path: string, dir: string)
    ensures Below(path, dir) <==> Split(dir) < Split(path)
  {
    if Below(path, dir) {
      var rest := path[|dir| + 1..];
      assert path == dir + "/" + rest;
      SplitAt(dir, rest);
    }
    if Split(dir) < Split(path) {
      var n := |Split(dir)|;
      var rest := Split(path)[n..];
      assert Split(path) == Split(dir) + rest;
      SplitJoin(rest);
      SplitAt(dir, Join(rest));
      JoinSplit(path);
      JoinSplit(dir + "/" + Join(rest));
    }
  }

  lemma SplitInjective(a: string, b: string)
    requires Split(a) == Split(b)
    ensures a == b
  {
    JoinSplit(a);
    JoinSplit(b);
  }

  /** What is left of a path below a directory. */
  lemma RestOfPath(path: string, dir: string)
    requires Below(path, dir)
    ensures Split(path) == Split(dir) + Split(path[|dir| + 1..])
  {
    assert path == dir + "/" + path[|dir| + 1..];
    SplitAt(dir, path[|dir| + 1..]);
  }
}
