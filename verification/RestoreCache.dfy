/**
 The cache of snapshot listings (gui/restore_cache.go): a listing is stored under a digest of its key, with the key
 inside, so that neither a collision nor a file copied from elsewhere can pass for another snapshot's listing.
 */
module RestoreCache {
  import opened Options
  import opened Bytes

  type Text = seq<byte>

  datatype Key = Key(pbsID: Text, datastore: Text, namespace: Text, backupType: Text, backupID: Text, snapshotAt: int)

  /** A number in decimal. */
  function Digits(n: nat): (text: Text)
    ensures text != [] && forall i :: 0 <= i < |text| ==> 48 <= text[i] <= 57
  {
    if n < 10 then [(48 + n) as byte] else Digits(n / 10) + [(48 + n % 10) as byte]
  }

  function Decimal(n: int): (text: Text)
    ensures 0 !in text
  {
    if n < 0 then [45] + Digits(-n) else Digits(n)
  }

  lemma {:induction false} DigitsInjective(m: nat, n: nat)
    requires Digits(m) == Digits(n)
    ensures m == n
  {
    if m < 10 || n < 10 {
      assert |Digits(m)| == |Digits(n)|;
    } else {
      var a, b := Digits(m), Digits(n);
      assert a[..|a| - 1] == Digits(m / 10) && b[..|b| - 1] == Digits(n / 10);
      assert a[|a| - 1] == b[|b| - 1];
      DigitsInjective(m / 10, n / 10);
    }
  }

  lemma DecimalInjective(m: int, n: int)
    requires Decimal(m) == Decimal(n)
    ensures m == n
  {
    FirstOfDecimal(m);
    FirstOfDecimal(n);
    if m < 0 && n < 0 {
      assert Decimal(m)[1..] == Digits(-m) && Decimal(n)[1..] == Digits(-n);
      DigitsInjective(-m, -n);
    } else if m >= 0 && n >= 0 {
      DigitsInjective(m, n);
    }
  }

  lemma FirstOfDecimal(n: int)
    ensures Decimal(n) != [] && (Decimal(n)[0] == 45 <==> n < 0)
  {
  }

  function Parts(key: Key): (parts: seq<Text>)
    ensures |parts| == 6
  {
    [key.pbsID, key.datastore, key.namespace, key.backupType, key.backupID, Decimal(key.snapshotAt)]
  }

  /** What is digested: every part, each followed by a zero byte. */
  function Encode(parts: seq<Text>): Text {
    if parts == [] then [] else parts[0] + [0] + Encode(parts[1..])
  }

  predicate NulFree(parts: seq<Text>) {
    forall i :: 0 <= i < |parts| ==> 0 !in parts[i]
  }

  function ZerosIn(text: Text): nat {
    if text == [] then 0 else (if text[0] == 0 then 1 else 0) + ZerosIn(text[1..])
  }

  lemma {:induction false} ZerosAppend(a: Text, b: Text)
    ensures ZerosIn(a + b) == ZerosIn(a) + ZerosIn(b)
  {
    if a == [] {
      assert a + b == b;
    } else {
      assert (a + b)[1..] == a[1..] + b;
      ZerosAppend(a[1..], b);
    }
  }

  lemma {:induction false} NoZeros(text: Text)
    ensures ZerosIn(text) == 0 <==> 0 !in text
  {
    if text != [] {
      NoZeros(text[1..]);
      assert text == [text[0]] + text[1..];
    }
  }

  /** There are as many zero bytes as parts, or more if a part has some of its own. */
  lemma {:induction false} ZerosEncoded(parts: seq<Text>)
    ensures ZerosIn(Encode(parts)) >= |parts|
    ensures ZerosIn(Encode(parts)) == |parts| <==> NulFree(parts)
  {
    if parts != [] {
      ZerosEncoded(parts[1..]);
      ZerosAppend(parts[0] + [0], Encode(parts[1..]));
      ZerosAppend(parts[0], [0]);
      NoZeros(parts[0]);
      assert ZerosIn([0]) == 1;
      assert NulFree(parts) <==> 0 !in parts[0] && NulFree(parts[1..]) by {
        assert forall i :: 0 < i < |parts| ==> parts[i] == parts[1..][i - 1];
        assert forall i :: 0 <= i < |parts| - 1 ==> parts[1..][i] == parts[i + 1];
      }
    }
  }

  /** The first zero byte ends the first part. */
  lemma FirstZero(a: Text, b: Text, x: Text, y: Text)
    requires 0 !in a && 0 !in b && a + [0] + x == b + [0] + y
    ensures a == b && x == y
  {
    var s := a + [0] + x;
    NotShorter(a, b, x, y);
    NotShorter(b, a, y, x);
    assert a == s[..|a|] && b == s[..|b|];
    assert x == s[|a| + 1..] && y == s[|b| + 1..];
  }

  lemma NotShorter(a: Text, b: Text, x: Text, y: Text)
    requires 0 !in b && a + [0] + x == b + [0] + y
    ensures |a| >= |b|
  {
    var s := b + [0] + y;
    assert (a + [0] + x)[|a|] == 0;
    assert s[|a|] == 0;
    assert forall k :: 0 <= k < |b| ==> s[k] == b[k] && b[k] in b;
  }

  lemma {:induction false} EncodeInjective(a: seq<Text>, b: seq<Text>)
    requires NulFree(a) && NulFree(b) && |a| == |b| && Encode(a) == Encode(b)
    ensures a == b
  {
    if a != [] {
      FirstZero(a[0], b[0], Encode(a[1..]), Encode(b[1..]));
      EncodeInjective(a[1..], b[1..]);
      assert a == [a[0]] + a[1..] && b == [b[0]] + b[1..];
    }
  }

  lemma PartsInjective(a: Key, b: Key)
    requires Parts(a) == Parts(b)
    ensures a == b
  {
    assert Parts(a)[0] == Parts(b)[0] && Parts(a)[1] == Parts(b)[1] && Parts(a)[2] == Parts(b)[2];
    assert Parts(a)[3] == Parts(b)[3] && Parts(a)[4] == Parts(b)[4] && Parts(a)[5] == Parts(b)[5];
    DecimalInjective(a.snapshotAt, b.snapshotAt);
  }

  function TextOf(key: Key): Text {
    Encode(Parts(key))
  }

  ghost predicate Unmistakable(key: Key) {
    forall other :: TextOf(other) == TextOf(key) ==> other == key
  }

  /** A zero byte inside a part may as well be the end of that part. */
  lemma Shifted(before: Text, after: Text, next: Text, rest: Text)
    ensures (before + [0] + after) + [0] + (next + [0] + rest) == before + [0] + ((after + [0] + next) + [0] + rest)
  {
  }

  lemma SplitZero(text: Text) returns (before: Text, after: Text)
    requires 0 in text
    ensures text == before + [0] + after
  {
    var i :| 0 <= i < |text| && text[i] == 0;
    before, after := text[..i], text[i + 1..];
  }

  lemma EncodeSix(a: Text, b: Text, c: Text, d: Text, e: Text, f: Text)
    ensures Encode([a, b, c, d, e, f]) ==
            a + [0] + (b + [0] + (c + [0] + (d + [0] + (e + [0] + (f + [0])))))
  {
    EncodeCons(f, []);
    EncodeCons(e, [f]);
    EncodeCons(d, [e, f]);
    EncodeCons(c, [d, e, f]);
    EncodeCons(b, [c, d, e, f]);
    EncodeCons(a, [b, c, d, e, f]);
    assert [f] + [] == [f] && [e] + [f] == [e, f] && [d] + [e, f] == [d, e, f] && [c] + [d, e, f] == [c, d, e, f];
    assert [b] + [c, d, e, f] == [b, c, d, e, f] && [a] + [b, c, d, e, f] == [a, b, c, d, e, f];
    assert f + [0] + [] == f + [0];
  }

  lemma EncodeCons(part: Text, parts: seq<Text>)
    ensures Encode([part] + parts) == part + [0] + Encode(parts)
  {
    assert ([part] + parts)[1..] == parts;
  }

  /** The number a decimal text stands for. */
  function NumberIn(text: Text): int {
    if text == [] then 0 else 10 * NumberIn(text[..|text| - 1]) + (text[|text| - 1] as int - 48)
  }

  /** Decimals are written as usual: the digits stand for the number, and only zero starts with a zero. */
  lemma {:induction false} DigitsStandFor(n: nat)
    ensures NumberIn(Digits(n)) == n && (Digits(n)[0] == 48 ==> n == 0)
  {
    if n >= 10 {
      DigitsStandFor(n / 10);
      var text := Digits(n);
      assert text[..|text| - 1] == Digits(n / 10);
      assert text[0] == Digits(n / 10)[0];
    } else {
      assert Digits(n)[..0] == [];
    }
  }

  /** The digested text: the six parts in this order, the time in decimal, each followed by a zero byte. */
  lemma KeyTextIs(key: Key)
    ensures exists number ::
              && (key.snapshotAt < 0 ==> number != [] && number[0] == 45 && NumberIn(number[1..]) == -key.snapshotAt)
              && (key.snapshotAt >= 0 ==> NumberIn(number) == key.snapshotAt)
              && TextOf(key) ==
                 key.pbsID + [0] + (key.datastore + [0] + (key.namespace + [0] +
                   (key.backupType + [0] + (key.backupID + [0] + (number + [0])))))
  {
    var number := Decimal(key.snapshotAt);
    EncodeSix(key.pbsID, key.datastore, key.namespace, key.backupType, key.backupID, number);
    DigitsStandFor(if key.snapshotAt < 0 then -key.snapshotAt else key.snapshotAt);
    if key.snapshotAt < 0 {
      assert number[1..] == Digits(-key.snapshotAt);
    }
  }

  /** A key with a zero byte in one of its texts has a twin. */
  lemma HasTwin(key: Key) returns (twin: Key)
    requires !NulFree(Parts(key))
    ensures twin != key && TextOf(twin) == TextOf(key)
  {
    var a, b, c, d, e, f := key.pbsID, key.datastore, key.namespace, key.backupType, key.backupID,
      Decimal(key.snapshotAt);
    EncodeSix(a, b, c, d, e, f);
    if 0 in a {
      var x, y := SplitZero(a);
      twin := key.(pbsID := x, datastore := y + [0] + b);
      EncodeSix(x, y + [0] + b, c, d, e, f);
      Shifted(x, y, b, c + [0] + (d + [0] + (e + [0] + (f + [0]))));
    } else if 0 in b {
      var x, y := SplitZero(b);
      twin := key.(datastore := x, namespace := y + [0] + c);
      EncodeSix(a, x, y + [0] + c, d, e, f);
      Shifted(x, y, c, d + [0] + (e + [0] + (f + [0])));
    } else if 0 in c {
      var x, y := SplitZero(c);
      twin := key.(namespace := x, backupType := y + [0] + d);
      EncodeSix(a, b, x, y + [0] + d, e, f);
      Shifted(x, y, d, e + [0] + (f + [0]));
    } else if 0 in d {
      var x, y := SplitZero(d);
      twin := key.(backupType := x, backupID := y + [0] + e);
      EncodeSix(a, b, c, x, y + [0] + e, f);
      Shifted(x, y, e, f + [0]);
    } else {
      var x, y := SplitZero(e);
      twin := key.(backupType := d + [0] + x, backupID := y);
      EncodeSix(a, b, c, d + [0] + x, y, f);
      Shifted(d, x, y, f + [0]);
    }
  }

  /** The text that is digested stands for one key only, exactly if none of the key's texts contains a zero byte. */
  lemma KeyTextExact(key: Key)
    ensures Unmistakable(key) <==> NulFree(Parts(key))
  {
    if NulFree(Parts(key)) {
      forall other | TextOf(other) == TextOf(key)
        ensures other == key
      {
        ZerosEncoded(Parts(key));
        ZerosEncoded(Parts(other));
        EncodeInjective(Parts(other), Parts(key));
        PartsInjective(other, key);
      }
    } else {
      var twin := HasTwin(key);
    }
  }

  // The cache.

  const SCHEMA := 2

  type Entries = seq<string>

  datatype Envelope = Envelope(schema: nat, key: Key, entries: Entries)

  class Cache {
    const digest: Text -> Text
    var files: map<Text, Envelope>
    ghost var saved: set<(Key, Entries)>

    /**
     Every file of this format was once saved, here or elsewhere, under the key inside it; its name may be anything.
     */
    ghost predicate Valid()
      reads this
    {
      forall name :: name in files && files[name].schema == SCHEMA ==> (files[name].key, files[name].entries) in saved
    }

    constructor (digest: Text -> Text)
      ensures Valid() && files == map[] && saved == {}
    {
      this.digest := digest;
      files, saved := map[], {};
    }

    function Fingerprint(key: Key): Text {
      digest(TextOf(key))
    }

    method SaveSnapshotTreeCache(key: Key, entries: Entries) returns (ok: bool)
      requires Valid()
      modifies this
      ensures Valid() && saved == old(saved) + {(key, entries)}
      ensures files == if ok then old(files)[Fingerprint(key) := Envelope(SCHEMA, key, entries)] else old(files)
    {
      saved := saved + {(key, entries)};
      ok := *;
      if ok {
        files := files[Fingerprint(key) := Envelope(SCHEMA, key, entries)];
      }
    }

    /** A hit needs the right format and the very key; with colliding digests it is a miss at worst. */
    method LoadSnapshotTreeCache(key: Key) returns (found: Option<Entries>)
      requires Valid()
      ensures found.Some? ==> (key, found.value) in saved
      ensures found.Some? <==>
                Fingerprint(key) in files && files[Fingerprint(key)].schema == 2
                && files[Fingerprint(key)].key == key
      ensures found.Some? ==> found.value == files[Fingerprint(key)].entries
    {
      var name := Fingerprint(key);
      if name !in files {
        return None;
      }
      var c := files[name];
      if c.schema != SCHEMA {
        return None;
      }
      if c.key != key {
        return None;
      }
      return Some(c.entries);
    }

    /** Files come and go: older formats, files copied from another profile under any name, files trimmed by age. */
    method FilesChange(copied: map<Text, Envelope>, removed: set<Text>, ghost elsewhere: set<(Key, Entries)>)
      requires Valid()
      requires forall name :: name in copied && copied[name].schema == SCHEMA ==>
                 (copied[name].key, copied[name].entries) in elsewhere
      modifies this
      ensures Valid() && saved == old(saved) + elsewhere && files == old(files) + copied - removed
    {
      saved := saved + elsewhere;
      files := files + copied - removed;
    }
  }
}
