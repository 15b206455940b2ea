/**
 The list of streams as the file system lays it out, one FILE_STREAM_INFO record after the other, and what the parser
 makes of it (streamNames in gui/backup_streams_windows.go).
 */
module StreamRecords {
  import opened Bytes
  import opened ExtendedAttributes
  import opened AlternateStreams

  /**
   A stream: the UTF-16 units of its name, its size, the eight bytes of its allocation size, what fills up the record.
   */
  datatype Stream = Stream(units: seq<nat>, size: int, allocation: seq<byte>, filler: seq<byte>)

  predicate Fitting(s: Stream) {
    && (forall i :: 0 <= i < |s.units| ==> s.units[i] < 0x1_0000)
    && -HALF_U64 <= s.size < HALF_U64
    && |s.allocation| == 8
    && Length(s) + |s.filler| < 0x1_0000_0000
  }

  function Length(s: Stream): nat {
    24 + 2 * |s.units|
  }

  type StreamRecord = s: Stream | Fitting(s) witness Stream([], 0, LittleEndian(0, 8), [])

  function Utf16(units: seq<nat>): (bytes: seq<byte>)
    requires forall i :: 0 <= i < |units| ==> units[i] < 0x1_0000
    ensures |bytes| == 2 * |units|
  {
    seq(2 * |units|, j requires 0 <= j < 2 * |units| =>
      if j % 2 == 0 then (units[j / 2] % 0x100) as byte else (units[j / 2] / 0x100) as byte)
  }

  function Unsigned64(n: int): (m: nat)
    requires -HALF_U64 <= n < HALF_U64
    ensures m < 2 * HALF_U64
  {
    if n < 0 then n + 2 * HALF_U64 else n
  }

  /** One record, whose next record starts `next` bytes ahead. */
  function Encoded(s: StreamRecord, next: nat): (bytes: seq<byte>)
    ensures |bytes| == Length(s)
  {
    LittleEndian(next, 4) + (LittleEndian(2 * |s.units|, 4) +
                             (LittleEndian(Unsigned64(s.size), 8) + (s.allocation + Utf16(s.units))))
  }

  function Chained(s: StreamRecord): seq<byte> {
    Encoded(s, Length(s) + |s.filler|) + s.filler
  }

  /** All records: each points to the next one, past whatever fills it up, and the last points nowhere. */
  function LaidOut(records: seq<StreamRecord>): seq<byte> {
    if records == [] then []
    else if |records| == 1 then Encoded(records[0], 0) + records[0].filler
    else Chained(records[0]) + LaidOut(records[1..])
  }

  /** What they name. */
  function NamesOf(records: seq<StreamRecord>, namer: Namer): seq<StreamName> {
    if records == [] then [] else Named(namer(records[0].units), records[0].size) + NamesOf(records[1..], namer)
  }

  // Numbers of eight bytes.

  lemma Halves(n: nat)
    ensures n / 256 / 256 == n / 0x1_0000
    ensures n % 0x1_0000 % 256 == n % 256 && n % 0x1_0000 / 256 % 256 == n / 256 % 256
    ensures n / 0x1_0000 / 0x1_0000 == n / 0x1_0000_0000
    ensures n % 0x1_0000_0000 % 0x1_0000 == n % 0x1_0000 && n % 0x1_0000_0000 / 0x1_0000 == n / 0x1_0000 % 0x1_0000
  {
  }

  lemma OneByteFirst(n: nat, width: nat)
    ensures LittleEndian(n, width + 1) == [(n % 256) as byte] + LittleEndian(n / 256, width)
  {
  }

  lemma Three(a: byte, b: byte, rest: seq<byte>)
    ensures [a] + ([b] + rest) == [a] + ([b] + []) + rest
  {
  }

  lemma TwoBytesFirst(n: nat, width: nat)
    ensures LittleEndian(n, width + 2) == LittleEndian(n % 0x1_0000, 2) + LittleEndian(n / 0x1_0000, width)
  {
    var m := n % 0x1_0000;
    Halves(n);
    OneByteFirst(n, width + 1);
    OneByteFirst(n / 256, width);
    OneByteFirst(m, 1);
    OneByteFirst(m / 256, 0);
    Three((n % 256) as byte, (n / 256 % 256) as byte, LittleEndian(n / 0x1_0000, width));
  }

  lemma FourBytesFirst(n: nat)
    ensures LittleEndian(n, 8) == LittleEndian(n % 0x1_0000_0000, 4) + LittleEndian(n / 0x1_0000_0000, 4)
  {
    var m := n % 0x1_0000_0000;
    Halves(n);
    TwoBytesFirst(n, 6);
    TwoBytesFirst(n / 0x1_0000, 4);
    TwoBytesFirst(m, 2);
    Reassociated(LittleEndian(m % 0x1_0000, 2), LittleEndian(m / 0x1_0000, 2), LittleEndian(n / 0x1_0000_0000, 4));
  }

  lemma Reassociated(a: seq<byte>, b: seq<byte>, c: seq<byte>)
    ensures a + (b + c) == a + b + c
  {
  }

  lemma SizeReads(buf: seq<byte>, off: nat, size: int)
    requires -HALF_U64 <= size < HALF_U64 && Holds(buf, off, LittleEndian(Unsigned64(size), 8))
    ensures Size64(buf, off) == size
  {
    var n := Unsigned64(size);
    var low, high := n % 0x1_0000_0000, n / 0x1_0000_0000;
    FourBytesFirst(n);
    HoldsBoth(buf, off, LittleEndian(low, 4), LittleEndian(high, 4));
    FourBytes(low);
    FourBytes(high);
  }

  // Reading back.

  lemma UnitsRead(buf: seq<byte>, off: nat, units: seq<nat>)
    requires forall i :: 0 <= i < |units| ==> units[i] < 0x1_0000
    requires Holds(buf, off, Utf16(units))
    ensures Units(buf, off, |units|) == units
  {
    forall i | 0 <= i < |units|
      ensures U16(buf, off + 2 * i) == units[i]
    {
      assert buf[off + (2 * i)] == Utf16(units)[2 * i] && buf[off + (2 * i + 1)] == Utf16(units)[2 * i + 1];
    }
  }

  /** A record reads back wherever it stands. */
  lemma RecordReads(buf: seq<byte>, off: nat, s: StreamRecord, next: nat, namer: Namer)
    requires Holds(buf, off, Encoded(s, next)) && next < 0x1_0000_0000
    ensures RecordStep(buf, off, namer) == (Named(namer(s.units), s.size), next)
  {
    var length, size, name := LittleEndian(2 * |s.units|, 4), LittleEndian(Unsigned64(s.size), 8), Utf16(s.units);
    HoldsBoth(buf, off, LittleEndian(next, 4), length + (size + (s.allocation + name)));
    HoldsBoth(buf, off + 4, length, size + (s.allocation + name));
    HoldsBoth(buf, off + 8, size, s.allocation + name);
    HoldsBoth(buf, off + 16, s.allocation, name);
    FourBytes(next);
    FourBytes(2 * |s.units|);
    SizeReads(buf, off + 8, s.size);
    UnitsRead(buf, off + 24, s.units);
  }

  /** These records stand in the buffer at this place. */
  ghost predicate Stand(buf: seq<byte>, off: nat, records: seq<StreamRecord>) {
    Holds(buf, off, LaidOut(records))
  }

  lemma FirstStandsAlone(buf: seq<byte>, off: nat, first: StreamRecord, rest: seq<StreamRecord>)
    requires rest != [] && Stand(buf, off, [first] + rest)
    ensures Holds(buf, off, Encoded(first, Length(first) + |first.filler|))
    ensures Stand(buf, off + Length(first) + |first.filler|, rest)
  {
    assert ([first] + rest)[1..] == rest;
    HoldsBoth(buf, off, Chained(first), LaidOut(rest));
    HoldsBoth(buf, off, Encoded(first, Length(first) + |first.filler|), first.filler);
  }

  lemma NamesUnfoldOnce(buf: seq<byte>, off: nat, namer: Namer, named: seq<StreamName>, next: nat,
                        rest: seq<StreamName>)
    requires off + 24 <= |buf| && RecordStep(buf, off, namer) == (named, next)
    requires if next == 0 then rest == [] else Names(buf, off + next, namer, rest)
    ensures Names(buf, off, namer, named + rest)
  {
    var same := NamesUnfold(buf, off, namer, named, next);
    assert same == rest;
  }

  lemma {:induction false} RecordsRead(buf: seq<byte>, off: nat, records: seq<StreamRecord>, namer: Namer)
    requires records != [] && Stand(buf, off, records)
    ensures Names(buf, off, namer, NamesOf(records, namer))
    decreases |records|
  {
    var first, rest := records[0], records[1..];
    var named, step := Named(namer(first.units), first.size), Length(first) + |first.filler|;
    if rest == [] {
      HoldsBoth(buf, off, Encoded(first, 0), first.filler);
      RecordReads(buf, off, first, 0, namer);
      NamesUnfoldOnce(buf, off, namer, named, 0, []);
    } else {
      assert records == [first] + rest;
      FirstStandsAlone(buf, off, first, rest);
      RecordReads(buf, off, first, step, namer);
      RecordsRead(buf, off + step, rest, namer);
      NamesUnfoldOnce(buf, off, namer, named, step, NamesOf(rest, namer));
    }
  }

  /** The layout of any list of streams reads back as exactly their names and sizes, whatever follows in the buffer. */
  lemma RecordsRoundTrip(records: seq<StreamRecord>, after: seq<byte>, namer: Namer)
    requires records != []
    ensures ParseNames(LaidOut(records) + after, 0, namer) == NamesOf(records, namer)
  {
    var buf := LaidOut(records) + after;
    assert Stand(buf, 0, records);
    RecordsRead(buf, 0, records, namer);
    assert Names(buf, 0, namer, NamesOf(records, namer));
  }

  lemma FiveParts(a: seq<byte>, b: seq<byte>, c: seq<byte>, d: seq<byte>, e: seq<byte>)
    requires |a| == 4 && |b| == 4 && |c| == 8 && |d| == 8
    ensures var all := a + (b + (c + (d + e)));
            all[..4] == a && all[4..8] == b && all[8..16] == c && all[16..24] == d && all[24..] == e
  {
  }

  lemma UnitBytes(units: seq<nat>, i: nat)
    requires i < |units| && forall k :: 0 <= k < |units| ==> units[k] < 0x1_0000
    ensures Utf16(units)[2 * i] as nat == units[i] % 256 && Utf16(units)[2 * i + 1] as nat == units[i] / 256
  {
    assert (2 * i + 1) / 2 == i && (2 * i + 1) % 2 == 1;
  }

  /** The bytes of a record, one field after the other. */
  lemma RecordBytes(s: StreamRecord, next: nat)
    ensures var record := Encoded(s, next);
            && record[..4] == LittleEndian(next, 4) && record[4..8] == LittleEndian(2 * |s.units|, 4)
            && record[8..16] == LittleEndian(if s.size < 0 then s.size + 0x1_0000_0000_0000_0000 else s.size, 8)
            && record[16..24] == s.allocation && |record| == 24 + 2 * |s.units|
            && forall i :: 0 <= i < |s.units| ==>
                 && record[24 + 2 * i] as nat == s.units[i] % 256
                 && record[24 + 2 * i + 1] as nat == s.units[i] / 256
  {
    var record := Encoded(s, next);
    FiveParts(LittleEndian(next, 4), LittleEndian(2 * |s.units|, 4), LittleEndian(Unsigned64(s.size), 8), s.allocation,
              Utf16(s.units));
    forall i | 0 <= i < |s.units|
      ensures record[24 + 2 * i] as nat == s.units[i] % 256 && record[24 + 2 * i + 1] as nat == s.units[i] / 256
    {
      UnitBytes(s.units, i);
      assert record[24 + 2 * i] == record[24..][2 * i] && record[24 + 2 * i + 1] == record[24..][2 * i + 1];
    }
  }
}
