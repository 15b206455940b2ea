/**
 The content-defined chunker (pbscommon/buzhash.go): a rolling hash over the last 64 bytes that
 decides where one chunk ends. `Step` is the automaton one byte at a time, `ScanFrom` says what a
 whole call of Scan does, and the class updates its fields in place like the source.
 */
module Chunkers {
  import opened Bytes

  const WINDOW := 64

  /**
   What Chunker.New fixes once: a table of 256 words, the word operations, the test on the hash
   and the size limits. Nothing below depends on what the operations are; TuningFor says it.
   */
  datatype Tuning = Tuning(table: seq<bv32>, turn: bv32 -> bv32, xor: (bv32, bv32) -> bv32,
                           asksCut: bv32 -> bool, minSize: nat, maxSize: nat) {
    predicate Valid() {
      |table| == 256
    }
  }

  function Low32(n: nat): bv32 {
    (n % 0x1_0000_0000) as bv32
  }

  /** bits.RotateLeft32(x, 1). */
  function Turn(x: bv32): bv32 {
    (x << 1) | (x >> 31)
  }

  function Xor(x: bv32, y: bv32): bv32 {
    x ^ y
  }

  /** The test on the hash: under the mask for this average size it is one of the three highest values. */
  predicate EndsAt(hash: bv32, average: nat)
    requires average > 0
  {
    var mask := Low32(2 * average - 1);
    (hash & mask) >= mask - 2
  }

  /** The tuning for an average chunk size; the table is the source's constant, any table will do. */
  function TuningFor(table: seq<bv32>, average: nat): (t: Tuning)
    requires average > 0
  {
    Tuning(table, Turn, Xor, hash => EndsAt(hash, average), average / 4, average * 4)
  }

  /** The part of a chunker's state that influences later breaks. Stale window bytes do not. */
  datatype Scanner = Scanner(hash: bv32, size: nat, window: seq<byte>)

  const Fresh := Scanner(0, 0, [])

  ghost predicate ScannerOk(s: Scanner) {
    && |s.window| <= WINDOW
    && (|s.window| < WINDOW ==> s.size == |s.window|)
  }

  /** Fill the window: one more byte comes in. */
  function Mix(t: Tuning, hash: bv32, b: byte): bv32
    requires t.Valid()
  {
    t.xor(t.turn(hash), t.table[b as int])
  }

  /** Roll the window one byte on: `leave` drops out, `enter` comes in. */
  function Roll(t: Tuning, hash: bv32, leave: byte, enter: byte): bv32
    requires t.Valid()
  {
    t.xor(t.xor(t.turn(hash), t.table[leave as int]), t.table[enter as int])
  }

  predicate ShallBreak(t: Tuning, hash: bv32, size: nat) {
    if size >= t.maxSize then true
    else if size < t.minSize then false
    else t.asksCut(hash)
  }

  /** One byte: the next state, and whether a chunk ends right after this byte. */
  function Step(t: Tuning, s: Scanner, b: byte): (r: (Scanner, bool))
    requires t.Valid() && ScannerOk(s)
    ensures ScannerOk(r.0)
    ensures r.1 ==> r.0 == Fresh
    ensures !r.1 ==> r.0.size == s.size + 1
  {
    if |s.window| < WINDOW then
      (Scanner(Mix(t, s.hash, b), s.size + 1, s.window + [b]), false)
    else
      var slot := s.size % WINDOW;
      var hash := Roll(t, s.hash, s.window[slot], b);
      if ShallBreak(t, hash, s.size + 1) then (Fresh, true)
      else (Scanner(hash, s.size + 1, s.window[slot := b]), false)
  }

  /** What Scan returns on `data`: 0, or the 1-based position of the first break, and the state after it. */
  function ScanFrom(t: Tuning, s: Scanner, data: seq<byte>): (r: (nat, Scanner))
    requires t.Valid() && ScannerOk(s)
    ensures r.0 <= |data| && ScannerOk(r.1)
    ensures r.0 > 0 ==> r.1 == Fresh
    decreases data
  {
    if data == [] then (0, s)
    else
      var (s', broke) := Step(t, s, data[0]);
      if broke then (1, s')
      else Later(ScanFrom(t, s', data[1..]), 1)
  }

  function Later(r: (nat, Scanner), skip: nat): (nat, Scanner) {
    (if r.0 == 0 then 0 else r.0 + skip, r.1)
  }

  /** States passed through, one per byte of `data`, none of them ending a chunk. */
  ghost predicate Quiet(t: Tuning, data: seq<byte>, trace: seq<Scanner>) {
    && t.Valid()
    && 0 < |trace| <= |data| + 1
    && (forall i :: 0 <= i < |trace| ==> ScannerOk(trace[i]))
    && (forall i :: 0 <= i < |trace| - 1 ==> (trace[i + 1], false) == Step(t, trace[i], data[i]))
  }

  lemma {:induction false} QuietScan(t: Tuning, data: seq<byte>, trace: seq<Scanner>)
    requires Quiet(t, data, trace)
    ensures var n := |trace| - 1;
            ScanFrom(t, trace[0], data) == Later(ScanFrom(t, trace[n], data[n..]), n)
    decreases data
  {
    if |trace| == 1 {
      assert data[0..] == data;
    } else {
      QuietScan(t, data[1..], trace[1..]);
      assert data[1..][|trace| - 2..] == data[|trace| - 1..];
    }
  }

  /** Scan returns `pos` and leaves the chunker in the state `after`. */
  ghost predicate Scanned(t: Tuning, before: Scanner, data: seq<byte>, pos: nat, after: Scanner)
    requires t.Valid() && ScannerOk(before)
  {
    (pos, after) == ScanFrom(t, before, data)
  }

  lemma ScannedAll(t: Tuning, data: seq<byte>, trace: seq<Scanner>)
    requires Quiet(t, data, trace) && |trace| == |data| + 1
    ensures Scanned(t, trace[0], data, 0, trace[|data|])
  {
    QuietScan(t, data, trace);
    assert data[|data|..] == [];
  }

  lemma ScannedBreak(t: Tuning, data: seq<byte>, trace: seq<Scanner>)
    requires Quiet(t, data, trace) && |trace| <= |data| && Step(t, trace[|trace| - 1], data[|trace| - 1]).1
    ensures Scanned(t, trace[0], data, |trace|, Fresh)
  {
    var n := |trace| - 1;
    QuietScan(t, data, trace);
    assert data[n..][0] == data[n];
  }

  class Chunker {
    var hash: bv32
    var windowSize: nat
    var chunkSize: nat
    const window: array<byte>
    const tuning: Tuning

    ghost predicate Valid()
      reads this
    {
      && tuning.Valid()
      && window.Length == WINDOW
      && windowSize <= WINDOW
      && (windowSize < WINDOW ==> chunkSize == windowSize)
    }

    ghost function State(): (s: Scanner)
      reads this, window
      requires Valid()
      ensures ScannerOk(s)
    {
      Scanner(hash, chunkSize, window[..windowSize])
    }

    constructor (table: seq<bv32>, average: nat)
      requires |table| == 256 && average > 0
      ensures Valid() && fresh(window)
      ensures tuning == TuningFor(table, average)
      ensures State() == Fresh
    {
      hash, windowSize, chunkSize := 0, 0, 0;
      window := new byte[WINDOW](_ => 0);
      tuning := TuningFor(table, average);
    }

    method Scan(data: seq<byte>) returns (pos: nat)
      requires Valid()
      modifies this, window
      ensures Valid()
      ensures Scanned(tuning, old(State()), data, pos, State())
    {
      ghost var trace := [State()];
      pos := 0;
      if windowSize < WINDOW {
        pos, trace := Fill(data);
        if windowSize < WINDOW {
          ScannedAll(tuning, data, trace);
          return 0;
        }
      }
      pos, trace := Slide(data, pos, trace);
      if pos == 0 {
        ScannedAll(tuning, data, trace);
      } else {
        ScannedBreak(tuning, data, trace);
      }
    }

    /** The first loop of Scan: refill the window after a break, without testing for a break. */
    method Fill(data: seq<byte>) returns (pos: nat, ghost trace: seq<Scanner>)
      requires Valid() && windowSize < WINDOW
      modifies this, window
      ensures Valid() && pos <= |data|
      ensures windowSize < WINDOW ==> pos == |data|
      ensures Quiet(tuning, data, trace) && |trace| == pos + 1
      ensures trace[0] == old(State()) && trace[pos] == State()
    {
      var copyLen := if WINDOW - windowSize < |data| then WINDOW - windowSize else |data|;
      pos, trace := 0, [State()];
      while pos < copyLen
        invariant pos <= copyLen && tuning.Valid() && window.Length == WINDOW
        invariant windowSize == chunkSize + pos && windowSize + (copyLen - pos) <= WINDOW
        invariant chunkSize == old(chunkSize)
        invariant Quiet(tuning, data, trace) && |trace| == pos + 1 && trace[0] == old(State())
        invariant trace[pos] == Scanner(hash, windowSize, window[..windowSize])
      {
        ghost var before := trace[pos];
        var b := data[pos];
        window[windowSize] := b;
        hash := Mix(tuning, hash, b);
        pos := pos + 1;
        windowSize := windowSize + 1;
        assert window[..windowSize] == before.window + [b];
        trace := trace + [Scanner(hash, windowSize, window[..windowSize])];
      }
      chunkSize := chunkSize + copyLen;
    }

    /** One byte through the full window; a break starts everything over. */
    method SlideOne(b: byte) returns (broke: bool)
      requires Valid() && windowSize == WINDOW
      modifies this, window
      ensures Valid() && (State(), broke) == Step(tuning, old(State()), b)
      ensures !broke ==> windowSize == WINDOW
    {
      ghost var before := State();
      var slot := chunkSize % WINDOW;
      assert window[slot] == before.window[slot];
      hash := Roll(tuning, hash, window[slot], b);
      window[slot] := b;
      chunkSize := chunkSize + 1;
      assert window[..WINDOW] == before.window[slot := b];
      broke := ShallBreak(tuning, hash, chunkSize);
      if broke {
        hash, chunkSize, windowSize := 0, 0, 0;
      }
    }

    /** The second loop of Scan: roll the full window over the rest of the data until a break. */
    method Slide(data: seq<byte>, from: nat, ghost seen: seq<Scanner>) returns (pos: nat, ghost trace: seq<Scanner>)
      requires Valid() && windowSize == WINDOW
      requires Quiet(tuning, data, seen) && |seen| == from + 1 && seen[from] == State()
      modifies this, window
      ensures Valid() && Quiet(tuning, data, trace) && trace[0] == seen[0]
      ensures pos == 0 ==> |trace| == |data| + 1 && trace[|data|] == State()
      ensures pos > 0 ==> pos == |trace| <= |data| && State() == Fresh && Step(tuning, trace[pos - 1], data[pos - 1]).1
    {
      pos, trace := from, seen;
      while pos < |data|
        invariant pos <= |data| && Valid() && windowSize == WINDOW
        invariant Quiet(tuning, data, trace) && |trace| == pos + 1 && trace[0] == seen[0]
        invariant trace[pos] == State()
      {
        var broke := SlideOne(data[pos]);
        pos := pos + 1;
        if broke {
          return pos, trace;
        }
        trace := trace + [State()];
      }
      return 0, trace;
    }
  }
}
