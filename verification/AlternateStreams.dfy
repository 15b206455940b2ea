/**
 Alternate data streams: the list of stream names the file system returns, and the limit on how much stream
 content one archive records (streamNames and streamsAndEAsOf in gui/backup_streams_windows.go).
 */
module AlternateStreams {
  import opened Options
  import opened Bytes
  import opened ExtendedAttributes

  const MAX_STREAM_BYTES := 0x10_0000

  datatype StreamName = StreamName(name: string, size: int)

  /** The text of a stream name from its UTF-16 units; nothing for the unnamed main stream or another kind of stream. */
  type Namer = seq<nat> -> seq<string>

  const HALF_U64 := 0x8000_0000_0000_0000

  /** A 64-bit size, signed as the source reads it. */
  function Size64(buf: seq<byte>, off: nat): int
    requires off + 8 <= |buf|
  {
    var n := U32(buf, off) + 0x1_0000_0000 * U32(buf, off + 4);
    if n < HALF_U64 then n else n - 2 * HALF_U64
  }

  function Units(buf: seq<byte>, off: nat, n: nat): (units: seq<nat>)
    requires off + 2 * n <= |buf|
    ensures |units| == n && forall i :: 0 <= i < n ==> units[i] == U16(buf, off + 2 * i)
  {
    seq(n, i requires 0 <= i < n => U16(buf, off + 2 * i))
  }

  function Named(names: seq<string>, size: int): (named: seq<StreamName>)
    ensures |named| == |names| && forall i :: 0 <= i < |names| ==> named[i] == StreamName(names[i], size)
  {
    seq(|names|, i requires 0 <= i < |names| => StreamName(names[i], size))
  }

  /** What the record at `off` names, and how far the next one is, 0 for none or for a record that does not fit. */
  function RecordStep(buf: seq<byte>, off: nat, namer: Namer): (seq<StreamName>, nat)
    requires off + 24 <= |buf|
  {
    var length := U32(buf, off + 4);
    if off + 24 + length > |buf| then ([], 0)
    else (Named(namer(Units(buf, off + 24, length / 2)), Size64(buf, off + 8)), U32(buf, off))
  }

  function ParseNames(buf: seq<byte>, off: nat, namer: Namer): seq<StreamName>
    decreases |buf| - off
  {
    if off + 24 > |buf| then []
    else
      var (named, next) := RecordStep(buf, off, namer);
      named + if next == 0 then [] else ParseNames(buf, off + next, namer)
  }

  method ReadUnits(buf: array<byte>, off: nat, n: nat) returns (units: seq<nat>)
    requires off + 2 * n <= buf.Length
    ensures units == Units(buf[..], off, n)
  {
    units := [];
    var i := 0;
    while i < n
      invariant i <= n && units == Units(buf[..], off, n)[..i]
    {
      units := units + [buf[off + 2 * i] as nat + 0x100 * buf[off + 2 * i + 1] as nat];
      i := i + 1;
    }
  }

  method ReadRecord(buf: array<byte>, off: nat, namer: Namer) returns (named: seq<StreamName>, next: nat)
    requires off + 24 <= buf.Length
    ensures (named, next) == RecordStep(buf[..], off, namer)
  {
    var length := U32(buf[..], off + 4);
    if off + 24 + length > buf.Length {
      return [], 0;
    }
    var units := ReadUnits(buf, off + 24, length / 2);
    named, next := Named(namer(units), Size64(buf[..], off + 8)), U32(buf[..], off);
  }

  /** From this place on, the buffer names these streams. */
  ghost predicate Names(buf: seq<byte>, off: nat, namer: Namer, named: seq<StreamName>) {
    ParseNames(buf, off, namer) == named
  }

  lemma NamesUnfold(buf: seq<byte>, off: nat, namer: Namer, named: seq<StreamName>, next: nat)
    returns (rest: seq<StreamName>)
    requires off + 24 <= |buf| && RecordStep(buf, off, namer) == (named, next)
    ensures Names(buf, off, namer, named + rest)
    ensures if next == 0 then rest == [] else Names(buf, off + next, namer, rest)
  {
    rest := if next == 0 then [] else ParseNames(buf, off + next, namer);
  }

  lemma Reassociate(a: seq<StreamName>, b: seq<StreamName>, c: seq<StreamName>)
    ensures a + (b + c) == a + b + c
  {
  }

  /** On any buffer at all the parser ends, having read inside it only. */
  method StreamNames(buf: array<byte>, namer: Namer) returns (out: seq<StreamName>)
    ensures out == ParseNames(buf[..], 0, namer)
  {
    out := [];
    ghost var rest := ParseNames(buf[..], 0, namer);
    ghost var whole := rest;
    var off, more := 0, true;
    while more && off + 24 <= buf.Length
      invariant if more then Names(buf[..], off, namer, rest) else rest == []
      invariant out + rest == whole
      decreases more, buf.Length - off
    {
      var named, next := ReadRecord(buf, off, namer);
      rest := NamesUnfold(buf[..], off, namer, named, next);
      Reassociate(out, named, rest);
      out := out + named;
      off, more := off + next, next != 0;
    }
  }

  // The budget.

  /**
   What opening and reading one stream brings: at most one byte more than the largest stream, for it may have grown.
   */
  datatype Reading = Unreadable | Read(length: nat)

  /** A stream recorded with its content, or by name only. */
  datatype StreamEntry = StreamEntry(name: string, size: int, recorded: Option<nat>)

  function Recorded(entries: seq<StreamEntry>): nat {
    if entries == [] then 0
    else Recorded(entries[..|entries| - 1]) +
         match entries[|entries| - 1].recorded { case Some(n) => n case None => 0 }
  }

  /**
   What becomes of one stream when `left` bytes may still be recorded: content if it is small, fits and can be read.
   */
  predicate Takes(stream: StreamName, entry: StreamEntry, left: int, read: string -> Reading) {
    && entry.name == stream.name && entry.size == stream.size
    && entry.recorded == if stream.size <= 1024 * 1024 && stream.size <= left && read(stream.name).Read?
                         then Some(read(stream.name).length) else None
  }

  /**
   The budget is overdrawn by one stream exactly if it looked small enough for both limits and then brought more than
   was left.
   */
  lemma OverdrawnExactly(stream: StreamName, entry: StreamEntry, left: nat, read: string -> Reading)
    requires Takes(stream, entry, left, read)
    ensures left - Recorded([entry]) < 0 <==>
            && stream.size <= 1024 * 1024 && stream.size <= left
            && read(stream.name).Read? && read(stream.name).length > left
  {
    assert [entry][..0] == [];
  }

  /** It happens: a stream listed with one byte, the last one left, that has two when it is read. */
  lemma OverdrawnByOne(name: string)
    ensures var entry := StreamEntry(name, 1, Some(2));
            Takes(StreamName(name, 1), entry, 1, _ => Read(2)) && 1 - Recorded([entry]) == -1
  {
    OverdrawnExactly(StreamName(name, 1), StreamEntry(name, 1, Some(2)), 1, _ => Read(2));
    assert [StreamEntry(name, 1, Some(2))][..0] == [];
  }

  /** Entry number i, given what the ones before it took. */
  ghost predicate TakenAt(streams: seq<StreamName>, entries: seq<StreamEntry>, left: int, read: string -> Reading,
                          i: nat)
  {
    i < |entries| <= |streams| && Takes(streams[i], entries[i], left - Recorded(entries[..i]), read)
  }

  /** The entries of the first streams, taken one after the other. */
  ghost predicate TakenInTurn(streams: seq<StreamName>, entries: seq<StreamEntry>, left: int, read: string -> Reading) {
    |entries| <= |streams| && forall i: nat :: i < |entries| ==> TakenAt(streams, entries, left, read, i)
  }

  lemma TakenBefore(streams: seq<StreamName>, entries: seq<StreamEntry>, left: int, read: string -> Reading,
                    entry: StreamEntry, i: nat)
    requires TakenAt(streams, entries, left, read, i) && |entries| < |streams|
    ensures TakenAt(streams, entries + [entry], left, read, i)
  {
    assert (entries + [entry])[..i] == entries[..i];
  }

  lemma TakenLast(streams: seq<StreamName>, entries: seq<StreamEntry>, left: int, read: string -> Reading,
                  entry: StreamEntry)
    requires |entries| < |streams| && Takes(streams[|entries|], entry, left - Recorded(entries), read)
    ensures TakenAt(streams, entries + [entry], left, read, |entries|)
    ensures Recorded(entries + [entry]) == Recorded(entries) + if entry.recorded.Some? then entry.recorded.value else 0
  {
    assert (entries + [entry])[..|entries|] == entries;
  }

  lemma TakeOneMore(streams: seq<StreamName>, entries: seq<StreamEntry>, left: int, read: string -> Reading,
                    entry: StreamEntry)
    requires TakenInTurn(streams, entries, left, read) && |entries| < |streams|
    requires Takes(streams[|entries|], entry, left - Recorded(entries), read)
    ensures TakenInTurn(streams, entries + [entry], left, read)
    ensures Recorded(entries + [entry]) == Recorded(entries) + if entry.recorded.Some? then entry.recorded.value else 0
  {
    TakenLast(streams, entries, left, read, entry);
    forall i: nat | i < |entries|
      ensures TakenAt(streams, entries + [entry], left, read, i)
    {
      TakenBefore(streams, entries, left, read, entry, i);
    }
  }

  /** The bytes of streams that one archive may still record. */
  class Budget {
    var left: int

    constructor (left: int)
      ensures this.left == left
    {
      this.left := left;
    }

    /** Streams are recorded while they look small enough; a stream cut off by the budget is recorded by name. */
    method TakeStreams(streams: seq<StreamName>, read: (string -> Reading)) returns (entries: seq<StreamEntry>)
      requires forall s :: s in streams ==> s.size >= 0
      requires forall name :: read(name).Read? ==> read(name).length <= MAX_STREAM_BYTES + 1
      modifies this
      ensures left == old(left) - Recorded(entries)
      ensures |entries| == |streams| && TakenInTurn(streams, entries, old(left), read)
      ensures old(left) < 0 ==> Recorded(entries) == 0
      ensures left >= (if old(left) < 0 then old(left) else -(MAX_STREAM_BYTES + 1))
      ensures (forall s :: s in streams && read(s.name).Read? ==> read(s.name).length <= s.size) ==>
                Recorded(entries) <= if old(left) < 0 then 0 else old(left)
    {
      entries := [];
      var i := 0;
      ghost var honest := forall s :: s in streams && read(s.name).Read? ==> read(s.name).length <= s.size;
      while i < |streams|
        invariant i == |entries| <= |streams| && left == old(left) - Recorded(entries)
        invariant TakenInTurn(streams, entries, old(left), read)
        invariant old(left) < 0 ==> Recorded(entries) == 0
        invariant left >= (if old(left) < 0 then old(left) else -(MAX_STREAM_BYTES + 1))
        invariant honest ==> left >= (if old(left) < 0 then old(left) else 0)
      {
        var s := streams[i];
        var recorded: Option<nat> := None;
        if s.size <= MAX_STREAM_BYTES && s.size <= left {
          var reading := read(s.name);
          if reading.Read? {
            recorded := Some(reading.length);
            left := left - reading.length;
          }
        }
        TakeOneMore(streams, entries, old(left), read, StreamEntry(s.name, s.size, recorded));
        entries := entries + [StreamEntry(s.name, s.size, recorded)];
        i := i + 1;
      }
    }
  }
}
