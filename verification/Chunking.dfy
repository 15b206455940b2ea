/**
 What chunking a stream means. `Cut` is the byte-by-byte state a writer keeps; `Chunks` is the
 whole-stream definition, one call of Scan per chunk. The two agree however the stream arrives.
 */
module Chunking {
  import opened Bytes
  import opened Chunkers
  import opened RollingHash

  /** Finished chunks, the unfinished one, and the scanner's state. */
  datatype Cutter = Cutter(done: seq<seq<byte>>, cur: seq<byte>, scanner: Scanner)

  const Untouched := Cutter([], [], Fresh)

  function CutByte(t: Tuning, c: Cutter, b: byte): (c': Cutter)
    requires t.Valid() && ScannerOk(c.scanner)
    ensures ScannerOk(c'.scanner)
  {
    var (s, broke) := Step(t, c.scanner, b);
    if broke then Cutter(c.done + [c.cur + [b]], [], s) else Cutter(c.done, c.cur + [b], s)
  }

  function Cut(t: Tuning, c: Cutter, data: seq<byte>): (c': Cutter)
    requires t.Valid() && ScannerOk(c.scanner)
    ensures ScannerOk(c'.scanner)
    decreases data
  {
    if data == [] then c else Cut(t, CutByte(t, c, data[0]), data[1..])
  }

  /** The chunks once the stream has ended: the unfinished one, if any, is the last. */
  function Finished(c: Cutter): seq<seq<byte>> {
    if c.cur == [] then c.done else c.done + [c.cur]
  }

  /** Chunking a stream that is all there. */
  function Chunks(t: Tuning, stream: seq<byte>): (chunks: seq<seq<byte>>)
    requires t.Valid()
    decreases stream
  {
    var (k, _) := ScanFrom(t, Fresh, stream);
    if stream == [] then []
    else if k == 0 then [stream]
    else [stream[..k]] + Chunks(t, stream[k..])
  }

  /** However the stream is cut into buffers, feeding them in turn is feeding the whole. */
  lemma {:induction false} CutConcat(t: Tuning, c: Cutter, a: seq<byte>, b: seq<byte>)
    requires t.Valid() && ScannerOk(c.scanner)
    ensures Cut(t, c, a + b) == Cut(t, Cut(t, c, a), b)
    decreases a
  {
    if a == [] {
      assert a + b == b;
    } else {
      assert (a + b)[1..] == a[1..] + b;
      CutConcat(t, CutByte(t, c, a[0]), a[1..], b);
    }
  }

  /** What Cut makes of a stretch that Scan found to contain a first break at `k` (or none, k = 0). */
  function AfterScan(t: Tuning, c: Cutter, data: seq<byte>, k: nat, s: Scanner): Cutter
    requires t.Valid() && ScannerOk(s) && k <= |data|
  {
    if k == 0 then Cutter(c.done, c.cur + data, s)
    else Cut(t, Cutter(c.done + [c.cur + data[..k]], [], s), data[k..])
  }

  lemma AfterScanStep(t: Tuning, c: Cutter, data: seq<byte>, k: nat, s: Scanner)
    requires t.Valid() && ScannerOk(s) && k < |data|
    ensures AfterScan(t, Cutter(c.done, c.cur + [data[0]], c.scanner), data[1..], k, s) ==
            AfterScan(t, c, data, if k == 0 then 0 else k + 1, s)
  {
    if k == 0 {
      assert c.cur + [data[0]] + data[1..] == c.cur + data;
    } else {
      assert data[1..][k..] == data[k + 1..];
      assert c.cur + [data[0]] + data[1..][..k] == c.cur + data[..k + 1];
    }
  }

  /** One call of Scan, seen from the cutter: no break extends the current chunk, a break ends it. */
  lemma {:induction false} CutByScan(t: Tuning, c: Cutter, data: seq<byte>)
    requires t.Valid() && ScannerOk(c.scanner)
    ensures var (k, s) := ScanFrom(t, c.scanner, data);
            Cut(t, c, data) == AfterScan(t, c, data, k, s)
    decreases data
  {
    if data == [] {
      assert c.cur + data == c.cur;
    } else {
      var (next, broke) := Step(t, c.scanner, data[0]);
      if broke {
        assert data[..1] == [data[0]];
      } else {
        var (k, s) := ScanFrom(t, next, data[1..]);
        CutByScan(t, Cutter(c.done, c.cur + [data[0]], next), data[1..]);
        AfterScanStep(t, c.(scanner := next), data, k, s);
      }
    }
  }

  lemma LastPiece(t: Tuning, c: Cutter, rest: seq<byte>, s: Scanner)
    requires t.Valid() && ScannerOk(c.scanner) && ScanFrom(t, c.scanner, rest) == (0, s)
    ensures Cut(t, c, rest) == Cutter(c.done, c.cur + rest, s)
  {
    CutByScan(t, c, rest);
  }

  lemma {:induction false} CutKeepsDone(t: Tuning, c: Cutter, prefix: seq<seq<byte>>, data: seq<byte>)
    requires t.Valid() && ScannerOk(c.scanner)
    ensures var c' := Cut(t, c, data);
            Cut(t, c.(done := prefix + c.done), data) == c'.(done := prefix + c'.done)
    decreases data
  {
    if data != [] {
      var next := CutByte(t, c, data[0]);
      assert prefix + c.done + [c.cur + [data[0]]] == prefix + (c.done + [c.cur + [data[0]]]);
      CutKeepsDone(t, next, prefix, data[1..]);
    }
  }

  /** Incremental equals one-shot. */
  lemma {:induction false} IncrementalIsOneShot(t: Tuning, stream: seq<byte>)
    requires t.Valid()
    ensures Finished(Cut(t, Untouched, stream)) == Chunks(t, stream)
    decreases stream
  {
    CutByScan(t, Untouched, stream);
    var (k, s) := ScanFrom(t, Fresh, stream);
    if stream == [] {
    } else if k == 0 {
      assert [] + stream == stream;
    } else {
      var first := [stream[..k]];
      assert Untouched.cur + stream[..k] == stream[..k];
      assert [] + first == first && first + [] == first;
      CutKeepsDone(t, Untouched, first, stream[k..]);
      IncrementalIsOneShot(t, stream[k..]);
      var rest := Cut(t, Untouched, stream[k..]);
      assert first + rest.done + [rest.cur] == first + (rest.done + [rest.cur]);
    }
  }

  /** No byte is lost, added or moved. */
  lemma {:induction false} ChunksReassemble(t: Tuning, stream: seq<byte>)
    requires t.Valid()
    ensures Flatten(Chunks(t, stream)) == stream
    ensures forall i :: 0 <= i < |Chunks(t, stream)| ==> Chunks(t, stream)[i] != []
    decreases stream
  {
    var (k, _) := ScanFrom(t, Fresh, stream);
    if stream == [] {
    } else if k == 0 {
      FlattenOne(stream);
    } else {
      ChunksReassemble(t, stream[k..]);
      assert stream[..k] + stream[k..] == stream;
    }
  }

  /** The scanner always hashes the last bytes of the current chunk. */
  lemma {:induction false} CutInSync(t: Tuning, c: Cutter, data: seq<byte>)
    requires Lawful(t) && InSync(t, c.scanner, c.cur)
    ensures var c' := Cut(t, c, data); InSync(t, c'.scanner, c'.cur)
    decreases data
  {
    if data != [] {
      if !Step(t, c.scanner, data[0]).1 {
        StepInSync(t, c.scanner, c.cur, data[0]);
      }
      CutInSync(t, CutByte(t, c, data[0]), data[1..]);
    }
  }

  ghost predicate SizesWithin(t: Tuning, done: seq<seq<byte>>) {
    forall i :: 0 <= i < |done| ==> t.minSize <= |done[i]| <= t.maxSize
  }

  /** Finished chunks respect both limits; the unfinished one is still short of the maximum. */
  lemma {:induction false} CutSizes(t: Tuning, c: Cutter, data: seq<byte>)
    requires t.Valid() && t.minSize <= t.maxSize && t.maxSize > WINDOW
    requires ScannerOk(c.scanner) && c.scanner.size == |c.cur| && |c.cur| < t.maxSize && SizesWithin(t, c.done)
    ensures var c' := Cut(t, c, data);
            |c'.cur| < t.maxSize && SizesWithin(t, c'.done)
    decreases data
  {
    if data != [] {
      CutSizes(t, CutByte(t, c, data[0]), data[1..]);
    }
  }

  const AVERAGE := 4 * 1024 * 1024

  /**
   With the client's 4 MiB average no chunk exceeds the 16 MiB the server accepts, and only the last is below 1 MiB.
   */
  lemma ChunkSizesAccepted(table: seq<bv32>, stream: seq<byte>)
    requires |table| == 256
    ensures var chunks := Chunks(TuningFor(table, AVERAGE), stream);
            && (forall i :: 0 <= i < |chunks| ==> 0 < |chunks[i]| <= 16 * 1024 * 1024)
            && (forall i :: 0 <= i < |chunks| - 1 ==> |chunks[i]| >= 1024 * 1024)
  {
    var t := TuningFor(table, AVERAGE);
    CutSizes(t, Untouched, stream);
    IncrementalIsOneShot(t, stream);
    ChunksReassemble(t, stream);
  }
}
