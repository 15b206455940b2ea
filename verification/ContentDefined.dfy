/**
 Where chunks end, said without the scanner (pbscommon/buzhash.go): a chunk ends at its first point that asks for a
 cut, and whether a point does is read off the chunk's own bytes. This determines the chunks of a stream.
 */
module ContentDefined {
  import opened Bytes
  import opened Chunkers
  import opened RollingHash
  import opened Chunking

  /** After these bytes of a chunk it ends: at the largest size, or where the last 64 bytes ask for it. */
  predicate AsksEnd(t: Tuning, chunk: seq<byte>)
    requires t.Valid()
  {
    |chunk| > 64
    && (|chunk| >= t.maxSize || (|chunk| >= t.minSize && t.asksCut(PlainHash(t, chunk[|chunk| - 64..]))))
  }

  /** One byte of the scanner. */
  lemma StepAsksEnd(t: Tuning, s: Scanner, chunk: seq<byte>, b: byte)
    requires Lawful(t) && InSync(t, s, chunk)
    ensures Step(t, s, b).1 <==> AsksEnd(t, chunk + [b])
  {
    if |s.window| == WINDOW {
      RolledHash(t, s, chunk, b);
    } else {
      assert |s.window| == |chunk|;
    }
  }

  /** No point of `all` after the first `from` bytes and up to the first `to` asks for an end. */
  ghost predicate NoneAsks(t: Tuning, all: seq<byte>, from: nat, to: nat)
    requires t.Valid() && to <= |all|
  {
    forall j :: from < j <= to ==> !AsksEnd(t, all[..j])
  }

  /** A scan that starts within a chunk stops at the first point that asks for an end, or finds none. */
  ghost predicate StopsAtFirst(t: Tuning, chunk: seq<byte>, data: seq<byte>, k: nat)
    requires t.Valid() && k <= |data|
  {
    var all := chunk + data;
    if k == 0 then NoneAsks(t, all, |chunk|, |all|)
    else AsksEnd(t, all[..|chunk| + k]) && NoneAsks(t, all, |chunk|, |chunk| + k - 1)
  }

  lemma StopsLater(t: Tuning, chunk: seq<byte>, b: byte, rest: seq<byte>, k: nat)
    requires t.Valid() && k <= |rest| && StopsAtFirst(t, chunk + [b], rest, k) && !AsksEnd(t, chunk + [b])
    ensures StopsAtFirst(t, chunk, [b] + rest, if k == 0 then 0 else k + 1)
  {
    assert chunk + [b] + rest == chunk + ([b] + rest);
    assert (chunk + ([b] + rest))[..|chunk| + 1] == chunk + [b];
  }

  lemma StopsAtOnce(t: Tuning, chunk: seq<byte>, b: byte, rest: seq<byte>)
    requires t.Valid() && AsksEnd(t, chunk + [b])
    ensures StopsAtFirst(t, chunk, [b] + rest, 1)
  {
    assert (chunk + ([b] + rest))[..|chunk| + 1] == chunk + [b];
  }

  /** Scan finds the first point that asks for an end, whatever part of the chunk was scanned before. */
  lemma {:induction false} ScanStopsAtFirst(t: Tuning, s: Scanner, chunk: seq<byte>, data: seq<byte>)
    requires Lawful(t) && InSync(t, s, chunk)
    ensures StopsAtFirst(t, chunk, data, ScanFrom(t, s, data).0)
    decreases data
  {
    if data == [] {
      assert chunk + data == chunk;
    } else {
      var b, rest := data[0], data[1..];
      assert data == [b] + rest;
      StepAsksEnd(t, s, chunk, b);
      if Step(t, s, b).1 {
        StopsAtOnce(t, chunk, b, rest);
      } else {
        StepInSync(t, s, chunk, b);
        ScanStopsAtFirst(t, Step(t, s, b).0, chunk + [b], rest);
        StopsLater(t, chunk, b, rest, ScanFrom(t, Step(t, s, b).0, rest).0);
      }
    }
  }

  // The chunks of a stream.

  /** Every chunk but the last asks for its end, none asks earlier, and together they are the stream. */
  ghost predicate CutWhereAsked(t: Tuning, chunks: seq<seq<byte>>, stream: seq<byte>)
    requires t.Valid()
  {
    && Flatten(chunks) == stream
    && (forall i :: 0 <= i < |chunks| ==> chunks[i] != [] && NoneAsks(t, chunks[i], 0, |chunks[i]| - 1))
    && forall i :: 0 <= i < |chunks| - 1 ==> AsksEnd(t, chunks[i])
  }

  lemma FirstStop(t: Tuning, stream: seq<byte>)
    requires Lawful(t)
    ensures StopsAtFirst(t, [], stream, ScanFrom(t, Fresh, stream).0)
  {
    assert InSync(t, Fresh, []);
    ScanStopsAtFirst(t, Fresh, [], stream);
  }

  lemma NoneAsksIn(t: Tuning, stream: seq<byte>, k: nat, to: nat)
    requires t.Valid() && to <= k <= |stream|
    ensures NoneAsks(t, stream[..k], 0, to) <==> NoneAsks(t, stream, 0, to)
  {
    forall j | 0 < j <= to
      ensures stream[..k][..j] == stream[..j]
    {
    }
  }

  lemma OneMoreChunk(t: Tuning, stream: seq<byte>, k: nat, chunks: seq<seq<byte>>)
    requires t.Valid() && 0 < k <= |stream| && CutWhereAsked(t, chunks, stream[k..])
    requires NoneAsks(t, stream, 0, k - 1) && (chunks != [] ==> AsksEnd(t, stream[..k]))
    ensures CutWhereAsked(t, [stream[..k]] + chunks, stream)
  {
    NoneAsksIn(t, stream, k, k - 1);
    var all := [stream[..k]] + chunks;
    assert all[1..] == chunks && stream == stream[..k] + stream[k..];
    forall i | 0 <= i < |all|
      ensures all[i] != [] && NoneAsks(t, all[i], 0, |all[i]| - 1)
      ensures i < |all| - 1 ==> AsksEnd(t, all[i])
    {
      if i > 0 {
        assert all[i] == chunks[i - 1];
      }
    }
  }

  lemma {:induction false} ChunksAreCutWhereAsked(t: Tuning, stream: seq<byte>)
    requires Lawful(t)
    ensures CutWhereAsked(t, Chunks(t, stream), stream)
    decreases stream
  {
    var k := ScanFrom(t, Fresh, stream).0;
    if stream != [] {
      FirstStop(t, stream);
      assert [] + stream == stream;
      if k == 0 {
        assert stream[..|stream|] == stream && stream[|stream|..] == [];
        OneMoreChunk(t, stream, |stream|, []);
      } else {
        ChunksAreCutWhereAsked(t, stream[k..]);
        OneMoreChunk(t, stream, k, Chunks(t, stream[k..]));
      }
    }
  }

  /** The first chunk ends where the scan of the stream stops, or at the end of the stream. */
  lemma FirstChunkEnds(t: Tuning, chunks: seq<seq<byte>>, stream: seq<byte>)
    requires Lawful(t) && CutWhereAsked(t, chunks, stream) && stream != []
    ensures chunks != [] && |chunks[0]| <= |stream| && chunks[0] == stream[..|chunks[0]|]
    ensures var k := ScanFrom(t, Fresh, stream).0;
            if k == 0 then chunks[0] == stream else |chunks[0]| == k
  {
    FirstStop(t, stream);
    assert [] + stream == stream;
    var k, n := ScanFrom(t, Fresh, stream).0, |chunks[0]|;
    assert stream == chunks[0] + Flatten(chunks[1..]);
    NoneAsksIn(t, stream, n, n - 1);
    assert stream[..|stream|] == stream;
    if |chunks| == 1 {
      assert Flatten(chunks[1..]) == [] && chunks[0] == stream;
    } else {
      assert AsksEnd(t, stream[..n]);
    }
  }

  lemma RestCutWhereAsked(t: Tuning, chunks: seq<seq<byte>>, stream: seq<byte>)
    requires t.Valid() && CutWhereAsked(t, chunks, stream) && chunks != []
    ensures |chunks[0]| <= |stream| && CutWhereAsked(t, chunks[1..], stream[|chunks[0]|..])
  {
    var rest := chunks[1..];
    assert stream == chunks[0] + Flatten(rest);
    assert forall i :: 0 <= i < |rest| ==> rest[i] == chunks[i + 1];
  }

  lemma {:induction false} CutWhereAskedAreChunks(t: Tuning, chunks: seq<seq<byte>>, stream: seq<byte>)
    requires Lawful(t) && CutWhereAsked(t, chunks, stream)
    ensures chunks == Chunks(t, stream)
    decreases stream
  {
    if stream == [] {
      assert chunks != [] ==> Flatten(chunks) != [];
    } else {
      FirstChunkEnds(t, chunks, stream);
      RestCutWhereAsked(t, chunks, stream);
      var n := |chunks[0]|;
      CutWhereAskedAreChunks(t, chunks[1..], stream[n..]);
      assert chunks == [chunks[0]] + chunks[1..];
      if ScanFrom(t, Fresh, stream).0 == 0 {
        assert stream[n..] == [];
      }
    }
  }

  /**
   The chunks of a stream are the only way to cut it so that every chunk but the last asks for its end and none asks
   earlier.
   */
  lemma ChunksExactly(t: Tuning, chunks: seq<seq<byte>>, stream: seq<byte>)
    requires Lawful(t)
    ensures chunks == Chunks(t, stream) <==> CutWhereAsked(t, chunks, stream)
  {
    ChunksAreCutWhereAsked(t, stream);
    if CutWhereAsked(t, chunks, stream) {
      CutWhereAskedAreChunks(t, chunks, stream);
    }
  }

  // The client's own figures.

  lemma Wraps32(n: nat)
    requires n < 0x1_0000_0000
    ensures Low32(n) == n as bv32
  {
  }

  lemma WordOf(n: nat, m: nat)
    requires n == m < 0x1_0000_0000
    ensures Low32(n) == m as bv32
  {
    Wraps32(m);
  }

  lemma MaskValue(x: bv32)
    requires x == 0x7FFFFF
    ensures x as nat == 8388607
  {
  }

  lemma BackAndForth(x: bv32)
    ensures (x as nat) as bv32 == x
  {
  }

  lemma ClientMask(n: nat)
    requires n == 8388607
    ensures Low32(n) == 0x7FFFFF
  {
    MaskValue(0x7FFFFF);
    WordOf(n, (0x7FFFFF as bv32) as nat);
    BackAndForth(0x7FFFFF);
  }

  /**
   With the client's average: at 16 MiB, or from 1 MiB on when the low 23 bits of the hash are at least 0x7FFFFD. The
   hash turns by one bit and takes in the table's word for each byte.
   */
  lemma ClientAsksEnd(table: seq<bv32>, chunk: seq<byte>)
    requires |table| == 256
    ensures var t := TuningFor(table, AVERAGE);
            && Lawful(t) && t.table == table
            && (AsksEnd(t, chunk) <==>
                && |chunk| > 64
                && (|chunk| >= 16 * 1024 * 1024 ||
                    (|chunk| >= 1024 * 1024 && (PlainHash(t, chunk[|chunk| - 64..]) & 0x7FFFFF) >= 0x7FFFFD)))
  {
    BuzhashIsLawful(table, AVERAGE);
    ClientMask(2 * AVERAGE - 1);
  }

  lemma TurnRotates(x: bv32)
    ensures Turn(x) == x.RotateLeft(1)
  {
  }

  /** The hash of one byte more, with the client's operations. */
  lemma ClientHash(table: seq<bv32>, bytes: seq<byte>, b: byte)
    requires |table| == 256
    ensures var t := TuningFor(table, AVERAGE);
            && PlainHash(t, []) == 0
            && PlainHash(t, bytes + [b]) == PlainHash(t, bytes).RotateLeft(1) ^ table[b as int]
  {
    PlainHashSnoc(TuningFor(table, AVERAGE), bytes, b);
    TurnRotates(PlainHash(TuningFor(table, AVERAGE), bytes));
  }
}
