/**
 Why the chunker is content defined: its rolling hash always equals a plain hash of the last 64
 bytes, so where a chunk may end depends on those bytes only, not on where the chunk began.
 */
module RollingHash {
  import opened Bytes
  import opened Chunkers

  /** A turn goes through an exclusive or, past whatever is added afterwards. */
  ghost predicate TurnsThrough(t: Tuning) {
    forall a, b, c {:trigger t.xor(t.turn(t.xor(a, b)), c)} ::
      t.xor(t.turn(t.xor(a, b)), c) == t.xor(t.xor(t.turn(a), c), t.turn(b))
  }

  /** What was added can be taken out again, one turn later. */
  ghost predicate TakesOut(t: Tuning) {
    forall a, b {:trigger t.xor(t.turn(t.xor(a, b)), t.turn(b))} ::
      t.xor(t.turn(t.xor(a, b)), t.turn(b)) == t.turn(a)
  }

  /** A word is back where it was once the window has moved past it. */
  ghost predicate ComesRound(t: Tuning) {
    forall a {:trigger Turned(t, a, WINDOW)} :: Turned(t, a, WINDOW) == a
  }

  ghost predicate ZeroIsNeutral(t: Tuning) {
    forall a {:trigger t.xor(0, a)} :: t.xor(t.turn(0), a) == t.xor(0, a)
  }

  /** The laws of rotation and exclusive or that rolling relies on. */
  ghost predicate Lawful(t: Tuning) {
    t.Valid() && TurnsThrough(t) && TakesOut(t) && ComesRound(t) && ZeroIsNeutral(t)
  }

  /** Turn a word n times. */
  function Turned(t: Tuning, x: bv32, n: nat): bv32 {
    if n == 0 then x else t.turn(Turned(t, x, n - 1))
  }

  /** The hash of a byte string with no rolling at all. */
  function PlainHash(t: Tuning, bytes: seq<byte>): bv32
    requires t.Valid()
  {
    if bytes == [] then 0 else Mix(t, PlainHash(t, bytes[..|bytes| - 1]), bytes[|bytes| - 1])
  }

  /** The window's bytes, oldest first: once full it is a circular buffer indexed by the chunk size. */
  function Recent(s: Scanner): seq<byte>
    requires ScannerOk(s)
  {
    if |s.window| < WINDOW then s.window
    else s.window[s.size % WINDOW..] + s.window[..s.size % WINDOW]
  }

  /** The last (at most 64) bytes of a chunk. */
  function LastWindow(chunk: seq<byte>): seq<byte> {
    if |chunk| <= WINDOW then chunk else chunk[|chunk| - WINDOW..]
  }

  ghost predicate InSync(t: Tuning, s: Scanner, chunk: seq<byte>) {
    && t.Valid() && ScannerOk(s)
    && s.size == |chunk|
    && Recent(s) == LastWindow(chunk)
    && s.hash == PlainHash(t, LastWindow(chunk))
  }

  lemma PlainHashSnoc(t: Tuning, bytes: seq<byte>, b: byte)
    requires t.Valid()
    ensures PlainHash(t, bytes + [b]) == Mix(t, PlainHash(t, bytes), b)
  {
    assert (bytes + [b])[..|bytes|] == bytes;
  }

  /** The oldest byte contributes its table word, turned once for every byte after it. */
  lemma {:induction false} OldestContribution(t: Tuning, oldest: byte, rest: seq<byte>)
    requires Lawful(t)
    ensures PlainHash(t, [oldest] + rest) == t.xor(PlainHash(t, rest), Turned(t, t.table[oldest as int], |rest|))
  {
    if rest == [] {
      assert [oldest] + rest == [] + [oldest];
      PlainHashSnoc(t, [], oldest);
    } else {
      var n := |rest| - 1;
      var fewer, last := rest[..n], rest[n];
      OldestContribution(t, oldest, fewer);
      PlainHashSnoc(t, [oldest] + fewer, last);
      PlainHashSnoc(t, fewer, last);
      assert rest == fewer + [last] && [oldest] + rest == [oldest] + fewer + [last];
      var a, word, c := PlainHash(t, fewer), Turned(t, t.table[oldest as int], n), t.table[last as int];
      assert t.xor(t.turn(t.xor(a, word)), c) == t.xor(t.xor(t.turn(a), c), t.turn(word));
    }
  }

  /** Rolling a full window one byte on gives the plain hash of the new window. */
  lemma RollIsPlain(t: Tuning, window: seq<byte>, b: byte)
    requires Lawful(t) && |window| == WINDOW
    ensures Roll(t, PlainHash(t, window), window[0], b) == PlainHash(t, window[1..] + [b])
  {
    var rest := window[1..];
    var word := t.table[window[0] as int];
    assert window == [window[0]] + rest;
    OldestContribution(t, window[0], rest);
    assert Turned(t, word, WINDOW) == word;
    PlainHashSnoc(t, rest, b);
  }

  lemma NextSlot(size: nat)
    ensures (size + 1) % WINDOW == if size % WINDOW == WINDOW - 1 then 0 else size % WINDOW + 1
  {
  }

  lemma RotationSlides(window: seq<byte>, slot: nat, b: byte)
    requires slot < |window| == WINDOW
    ensures var next := if slot == WINDOW - 1 then 0 else slot + 1;
            var after := window[slot := b];
            after[next..] + after[..next] == (window[slot..] + window[..slot])[1..] + [b]
  {
    var after := window[slot := b];
    if slot < WINDOW - 1 {
      assert after[slot + 1..] == window[slot + 1..];
      assert after[..slot + 1] == window[..slot] + [b];
    }
  }

  lemma RecentSlides(s: Scanner, b: byte)
    requires ScannerOk(s) && |s.window| == WINDOW
    ensures var slot := s.size % WINDOW;
            var after := Scanner(s.hash, s.size + 1, s.window[slot := b]);
            Recent(after) == Recent(s)[1..] + [b] && Recent(s)[0] == s.window[slot]
  {
    NextSlot(s.size);
    RotationSlides(s.window, s.size % WINDOW, b);
  }

  lemma LastWindowSlides(chunk: seq<byte>, b: byte)
    ensures LastWindow(chunk + [b]) ==
            if |chunk| < WINDOW then chunk + [b] else LastWindow(chunk)[1..] + [b]
  {
  }

  lemma FillInSync(t: Tuning, s: Scanner, chunk: seq<byte>, b: byte)
    requires InSync(t, s, chunk) && |s.window| < WINDOW
    ensures InSync(t, Step(t, s, b).0, chunk + [b])
  {
    FilledHash(t, chunk, b);
    RecentFills(Scanner(Mix(t, s.hash, b), s.size, s.window), b);
  }

  lemma FilledHash(t: Tuning, chunk: seq<byte>, b: byte)
    requires t.Valid() && |chunk| < WINDOW
    ensures LastWindow(chunk) == chunk && LastWindow(chunk + [b]) == chunk + [b]
    ensures PlainHash(t, LastWindow(chunk + [b])) == Mix(t, PlainHash(t, LastWindow(chunk)), b)
  {
    PlainHashSnoc(t, chunk, b);
  }

  lemma RecentFills(s: Scanner, b: byte)
    requires ScannerOk(s) && |s.window| < WINDOW
    ensures Recent(Scanner(s.hash, s.size + 1, s.window + [b])) == s.window + [b]
  {
    if |s.window| + 1 == WINDOW {
      assert (s.size + 1) % WINDOW == 0;
    }
  }

  lemma RolledHash(t: Tuning, s: Scanner, chunk: seq<byte>, b: byte)
    requires Lawful(t) && InSync(t, s, chunk) && |s.window| == WINDOW
    ensures Roll(t, s.hash, s.window[s.size % WINDOW], b) == PlainHash(t, LastWindow(chunk + [b]))
  {
    RecentSlides(s, b);
    LastWindowSlides(chunk, b);
    RollIsPlain(t, LastWindow(chunk), b);
  }

  lemma RollInSync(t: Tuning, s: Scanner, chunk: seq<byte>, b: byte)
    requires Lawful(t) && InSync(t, s, chunk) && |s.window| == WINDOW
    ensures var after := Scanner(Roll(t, s.hash, s.window[s.size % WINDOW], b), s.size + 1,
                                 s.window[s.size % WINDOW := b]);
            InSync(t, after, chunk + [b])
  {
    RecentSlides(s, b);
    RolledHash(t, s, chunk, b);
    LastWindowSlides(chunk, b);
  }

  /** Every step keeps the rolling hash equal to the plain hash of the chunk's last bytes. */
  lemma StepInSync(t: Tuning, s: Scanner, chunk: seq<byte>, b: byte)
    requires Lawful(t) && InSync(t, s, chunk)
    ensures var (s', broke) := Step(t, s, b); !broke ==> InSync(t, s', chunk + [b])
  {
    if |s.window| < WINDOW {
      FillInSync(t, s, chunk, b);
    } else {
      RollInSync(t, s, chunk, b);
    }
  }

  /**
   Content-defined cuts: the decision is the size limits plus a test on the plain hash of the
   last 64 bytes, whatever came before them.
   */
  lemma CutDependsOnLastBytes(t: Tuning, s: Scanner, chunk: seq<byte>, b: byte)
    requires Lawful(t) && InSync(t, s, chunk) && |chunk| >= WINDOW
    ensures Step(t, s, b).1 == ShallBreak(t, PlainHash(t, LastWindow(chunk + [b])), |chunk| + 1)
  {
    RolledHash(t, s, chunk, b);
  }

  lemma TurnXor(a: bv32, b: bv32)
    ensures Turn(a ^ b) == Turn(a) ^ Turn(b)
  {
  }

  lemma XorSwap(a: bv32, b: bv32, c: bv32)
    ensures (a ^ b) ^ c == (a ^ c) ^ b
  {
  }

  lemma XorCancel(a: bv32, b: bv32)
    ensures (a ^ b) ^ b == a
  {
  }

  lemma TurnOverXor(a: bv32, b: bv32, c: bv32)
    ensures Xor(Turn(Xor(a, b)), c) == Xor(Xor(Turn(a), c), Turn(b))
  {
    TurnXor(a, b);
    XorSwap(Turn(a), Turn(b), c);
  }

  lemma TurnDropsOut(a: bv32, b: bv32)
    ensures Xor(Turn(Xor(a, b)), Turn(b)) == Turn(a)
  {
    TurnXor(a, b);
    XorCancel(Turn(a), Turn(b));
  }

  lemma TurnZero()
    ensures Turn(0) == 0
  {
  }

  function TurnEight(x: bv32): bv32 {
    Turn(Turn(Turn(Turn(Turn(Turn(Turn(Turn(x))))))))
  }

  lemma ThirtyTwoTurns(x: bv32)
    ensures TurnEight(TurnEight(TurnEight(TurnEight(x)))) == x
  {
  }

  lemma TurnedByFour(t: Tuning, x: bv32, n: nat)
    ensures Turned(t, x, n + 4) == t.turn(t.turn(t.turn(t.turn(Turned(t, x, n)))))
  {
    assert Turned(t, x, n + 2) == t.turn(t.turn(Turned(t, x, n)));
  }

  lemma TurnedByEight(t: Tuning, x: bv32, n: nat)
    requires t.turn == Turn
    ensures Turned(t, x, n + 8) == TurnEight(Turned(t, x, n))
  {
    TurnedByFour(t, x, n);
    TurnedByFour(t, x, n + 4);
  }

  lemma TurnedByThirtyTwo(t: Tuning, x: bv32, n: nat)
    requires t.turn == Turn
    ensures Turned(t, x, n + 32) == Turned(t, x, n)
  {
    TurnedByEight(t, x, n);
    TurnedByEight(t, x, n + 8);
    TurnedByEight(t, x, n + 16);
    TurnedByEight(t, x, n + 24);
    ThirtyTwoTurns(Turned(t, x, n));
  }

  lemma BuzhashTurnsThrough(table: seq<bv32>, average: nat)
    requires average > 0
    ensures TurnsThrough(TuningFor(table, average)) && TakesOut(TuningFor(table, average))
  {
    var t := TuningFor(table, average);
    forall a, b, c
      ensures t.xor(t.turn(t.xor(a, b)), c) == t.xor(t.xor(t.turn(a), c), t.turn(b))
    {
      TurnOverXor(a, b, c);
    }
    forall a, b
      ensures t.xor(t.turn(t.xor(a, b)), t.turn(b)) == t.turn(a)
    {
      TurnDropsOut(a, b);
    }
  }

  /** The client's own hash obeys the laws: 64 turns of a 32-bit word are two full rounds. */
  lemma BuzhashIsLawful(table: seq<bv32>, average: nat)
    requires |table| == 256 && average > 0
    ensures Lawful(TuningFor(table, average))
  {
    var t := TuningFor(table, average);
    BuzhashTurnsThrough(table, average);
    TurnZero();
    forall a
      ensures Turned(t, a, WINDOW) == a
    {
      TurnedByThirtyTwo(t, a, 0);
      TurnedByThirtyTwo(t, a, 32);
    }
  }
}
