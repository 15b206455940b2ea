/**
 NTFS extended attributes as FILE_FULL_EA_INFORMATION entries (section 2.4 of [MS-FSCC]): the buffer that is
 written and the parser that reads one back (buildEABuffer and queryEAs in gui/backup_streams_windows.go).
 */
module ExtendedAttributes {
  import opened Bytes
  import opened Lists

  datatype EA = EA(name: seq<byte>, flags: byte, value: seq<byte>)

  const MAX_NAME := 255
  const MAX_VALUE := 0xFFFF

  predicate Expressible(ea: EA) {
    0 < |ea.name| <= MAX_NAME && |ea.value| <= MAX_VALUE
  }

  type Writable = ea: EA | Expressible(ea) witness EA([65], 0, [])

  function Expressibles(eas: seq<EA>): seq<Writable> {
    if eas == [] then []
    else Expressibles(eas[..|eas| - 1]) + if Expressible(eas[|eas| - 1]) then [eas[|eas| - 1]] else []
  }

  function Upper(b: byte): byte {
    if 97 <= b <= 122 then b - 32 else b
  }

  /** "$KERNEL." */
  const KERNEL: seq<byte> := [36, 75, 69, 82, 78, 69, 76, 46]

  /** Only Windows itself may set these. */
  predicate ForKernel(name: seq<byte>) {
    |name| >= |KERNEL| && forall i :: 0 <= i < |KERNEL| ==> Upper(name[i]) == KERNEL[i]
  }

  function Kept(ea: EA): seq<EA> {
    if ForKernel(ea.name) then [] else [ea]
  }

  function Settable(eas: seq<EA>): seq<EA> {
    if eas == [] then [] else Kept(eas[0]) + Settable(eas[1..])
  }

  function Size(ea: Writable): nat {
    8 + |ea.name| + 1 + |ea.value|
  }

  function Padding(n: nat): (p: nat)
    ensures p < 4 && (n + p) % 4 == 0
  {
    (4 - n % 4) % 4
  }

  function Zeros(n: nat): (z: seq<byte>)
    ensures |z| == n && forall i :: 0 <= i < n ==> z[i] == 0
  {
    seq(n, i => 0)
  }

  /** All of an entry but its pointer to the next one. */
  function Rest(ea: Writable): (bytes: seq<byte>)
    ensures |bytes| == Size(ea) - 4
  {
    [ea.flags, |ea.name| as byte] + LittleEndian(|ea.value|, 2) + ea.name + [0] + ea.value
  }

  /** One entry, whose header points `next` bytes ahead. */
  function Entry(ea: Writable, next: nat): (bytes: seq<byte>)
    ensures |bytes| == Size(ea)
  {
    LittleEndian(next, 4) + Rest(ea)
  }

  function Padded(ea: Writable): nat {
    Size(ea) + Padding(Size(ea))
  }

  /** An entry that another one follows: padded to the next multiple of four, and pointing there. */
  function Lead(ea: Writable): (bytes: seq<byte>)
    ensures |bytes| == Padded(ea)
  {
    Entry(ea, Padded(ea)) + Zeros(Padding(Size(ea)))
  }

  /**
   The buffer for some entries: each padded to the next multiple of four and pointing there, the last pointing nowhere.
   */
  function Layout(eas: seq<Writable>): seq<byte>
  {
    if eas == [] then []
    else if |eas| == 1 then Entry(eas[0], 0)
    else Lead(eas[0]) + Layout(eas[1..])
  }

  /** Where entry number i starts. */
  function Offset(eas: seq<Writable>, i: nat): nat
    requires i <= |eas|
  {
    if i == 0 then 0 else Padded(eas[0]) + Offset(eas[1..], i - 1)
  }

  lemma AlignedSum(a: nat, b: nat)
    requires a % 4 == 0 && b % 4 == 0
    ensures (a + b) % 4 == 0
  {
  }

  /** Overwrite four bytes in place. */
  function Patch(bytes: seq<byte>, at: nat, value: nat): (patched: seq<byte>)
    requires at + 4 <= |bytes|
    ensures |patched| == |bytes|
  {
    bytes[..at] + LittleEndian(value, 4) + bytes[at + 4..]
  }

  /** Pad the buffer, and let its last entry, at `last`, point to its end. */
  function Linked(layout: seq<byte>, last: nat): (linked: seq<byte>)
    requires last + 4 <= |layout|
    ensures |linked| == |layout| + Padding(|layout|)
  {
    Patch(layout + Zeros(Padding(|layout|)), last, |layout| + Padding(|layout|) - last)
  }

  lemma LinkedLater(lead: seq<byte>, later: seq<byte>, last: nat)
    requires |lead| % 4 == 0 && last + 4 <= |later|
    ensures Linked(lead + later, |lead| + last) == lead + Linked(later, last)
  {
    SamePadding(|lead|, |later|);
    var zeros := Zeros(Padding(|later|));
    assert lead + later + zeros == lead + (later + zeros);
    PatchLater(lead, later + zeros, last, |later + zeros| - last);
  }

  lemma LayoutCons(first: Writable, rest: seq<Writable>)
    requires rest != []
    ensures Layout([first] + rest) == Lead(first) + Layout(rest)
  {
    assert ([first] + rest)[1..] == rest;
  }

  /** Where the last entry starts. */
  function LastAt(eas: seq<Writable>): nat
    requires eas != []
  {
    if |eas| == 1 then 0 else Padded(eas[0]) + LastAt(eas[1..])
  }

  lemma {:induction false} LastEnds(eas: seq<Writable>)
    requires eas != []
    ensures LastAt(eas) + Size(eas[|eas| - 1]) == |Layout(eas)|
  {
    if |eas| > 1 {
      LastEnds(eas[1..]);
    }
  }

  /** Adding an entry: pad, let the entry that was last point here, append. */
  ghost predicate Grows(eas: seq<Writable>, ea: Writable)
    requires eas != []
  {
    && LastAt(eas) + 8 <= |Layout(eas)|
    && Layout(eas + [ea]) == Linked(Layout(eas), LastAt(eas)) + Entry(ea, 0)
  }

  lemma OneGrows(first: Writable, ea: Writable)
    ensures Grows([first], ea)
  {
    LayoutCons(first, [ea]);
    PatchEntry(first, Zeros(Padding(Size(first))), Padded(first));
    assert Layout([first]) == Entry(first, 0);
  }

  lemma SnocBehind(lead: seq<byte>, later: seq<byte>, last: nat, entry: seq<byte>)
    requires |lead| % 4 == 0 && last + 4 <= |later|
    ensures lead + (Linked(later, last) + entry) == Linked(lead + later, |lead| + last) + entry
  {
    LinkedLater(lead, later, last);
  }

  lemma OneInFront(first: Writable, rest: seq<Writable>, ea: Writable)
    ensures [first] + rest + [ea] == [first] + (rest + [ea]) && ([first] + rest)[1..] == rest
  {
  }

  lemma MoreGrow(first: Writable, rest: seq<Writable>, ea: Writable)
    requires rest != [] && Grows(rest, ea)
    ensures Grows([first] + rest, ea)
  {
    LastEnds([first] + rest);
    LayoutCons(first, rest);
    LayoutCons(first, rest + [ea]);
    OneInFront(first, rest, ea);
    SnocBehind(Lead(first), Layout(rest), LastAt(rest), Entry(ea, 0));
  }

  lemma {:induction false} LayoutSnoc(eas: seq<Writable>, ea: Writable)
    requires eas != []
    ensures Grows(eas, ea)
  {
    assert eas == [eas[0]] + eas[1..];
    if |eas| == 1 {
      OneGrows(eas[0], ea);
    } else {
      LayoutSnoc(eas[1..], ea);
      MoreGrow(eas[0], eas[1..], ea);
    }
  }

  lemma SamePadding(a: nat, b: nat)
    requires a % 4 == 0
    ensures Padding(a + b) == Padding(b)
  {
  }

  lemma PatchLater(first: seq<byte>, bytes: seq<byte>, at: nat, value: nat)
    requires at + 4 <= |bytes|
    ensures Patch(first + bytes, |first| + at, value) == first + Patch(bytes, at, value)
  {
  }

  lemma PatchEntry(ea: Writable, padding: seq<byte>, next: nat)
    ensures Patch(Entry(ea, 0) + padding, 0, next) == Entry(ea, next) + padding
  {
    PatchFront(LittleEndian(0, 4), Rest(ea), padding, next);
  }

  lemma PatchFront(four: seq<byte>, rest: seq<byte>, padding: seq<byte>, next: nat)
    requires |four| == 4
    ensures Patch(four + rest + padding, 0, next) == LittleEndian(next, 4) + rest + padding
  {
    assert (four + rest + padding)[4..] == rest + padding;
  }

  method Align(bytes: seq<byte>) returns (aligned: seq<byte>)
    ensures aligned == bytes + Zeros(Padding(|bytes|))
  {
    aligned := bytes;
    while |aligned| % 4 != 0
      invariant |bytes| <= |aligned| <= |bytes| + Padding(|bytes|)
      invariant aligned == bytes + Zeros(|aligned| - |bytes|)
      decreases |bytes| + Padding(|bytes|) - |aligned|
    {
      aligned := aligned + [0];
    }
  }

  /** Append an entry, after padding and letting the previous one, which starts at `last`, point to it. */
  method AddEntry(out: seq<byte>, last: int, ea: Writable, ghost kept: seq<Writable>) returns (more: seq<byte>)
    requires out == Layout(kept) && last == if kept == [] then -1 else LastAt(kept)
    ensures more == Layout(kept + [ea])
  {
    more := out;
    if last >= 0 {
      LayoutSnoc(kept, ea);
      more := Align(more);
      more := more[..last] + LittleEndian(|more| - last, 4) + more[last + 4..];
    } else {
      assert kept + [ea] == [ea];
    }
    more := more + Entry(ea, 0);
  }

  /** The buffer as it is built: appended to, with the previous entry's pointer written afterwards. */
  method BuildEABuffer(eas: seq<EA>) returns (out: seq<byte>)
    ensures out == Layout(Expressibles(eas))
  {
    out := [];
    var last := -1;
    var i := 0;
    ghost var kept: seq<Writable> := [];
    while i < |eas|
      invariant i <= |eas| && kept == Expressibles(eas[..i]) && out == Layout(kept)
      invariant last == if kept == [] then -1 else LastAt(kept)
    {
      assert eas[..i + 1][..i] == eas[..i];
      if Expressible(eas[i]) {
        out := AddEntry(out, last, eas[i], kept);
        kept := kept + [eas[i]];
        LastEnds(kept);
        last := |out| - Size(eas[i]);
      }
      i := i + 1;
    }
    assert eas[..i] == eas;
  }

  // Parsing.

  function U16(buf: seq<byte>, off: nat): (n: nat)
    requires off + 2 <= |buf|
  {
    buf[off] as nat + 0x100 * buf[off + 1] as nat
  }

  function U32(buf: seq<byte>, off: nat): (n: nat)
    requires off + 4 <= |buf|
  {
    U16(buf, off) + 0x1_0000 * U16(buf, off + 2)
  }

  /** Where the value of the entry at `off` starts and ends. */
  function ValueAt(buf: seq<byte>, off: nat): nat
    requires off + 8 <= |buf|
  {
    off + 8 + buf[off + 5] as nat + 1
  }

  function EndAt(buf: seq<byte>, off: nat): nat
    requires off + 8 <= |buf|
  {
    ValueAt(buf, off) + U16(buf, off + 6)
  }

  function EntryAt(buf: seq<byte>, off: nat): EA
    requires off + 8 <= |buf| && EndAt(buf, off) <= |buf|
  {
    EA(buf[off + 8..ValueAt(buf, off) - 1], buf[off + 4], buf[ValueAt(buf, off)..EndAt(buf, off)])
  }

  /** What the entry at `off` adds, and how far the next one is, 0 for none. */
  function EntryStep(buf: seq<byte>, off: nat): (seq<EA>, nat)
    requires off + 8 <= |buf|
  {
    if EndAt(buf, off) > |buf| then ([], 0) else (Kept(EntryAt(buf, off)), U32(buf, off))
  }

  /** What a buffer says, from `off` on. */
  function Parse(buf: seq<byte>, off: nat): seq<EA>
    decreases |buf| - off
  {
    if off + 8 > |buf| then []
    else
      var (added, next) := EntryStep(buf, off);
      added + if next == 0 then [] else Parse(buf, off + next)
  }

  lemma Reassociate(a: seq<EA>, b: seq<EA>, c: seq<EA>)
    ensures a + (b + c) == a + b + c
  {
  }

  method ParseEntry(buf: array<byte>, off: nat) returns (added: seq<EA>, next: nat)
    requires off + 8 <= buf.Length
    ensures (added, next) == EntryStep(buf[..], off)
  {
    next := U32(buf[..], off);
    var nameLen, valLen := buf[off + 5] as nat, U16(buf[..], off + 6);
    if off + 8 + nameLen + 1 + valLen > buf.Length {
      return [], 0;
    }
    var name, value := buf[off + 8..off + 8 + nameLen], buf[off + 8 + nameLen + 1..off + 8 + nameLen + 1 + valLen];
    assert EntryAt(buf[..], off) == EA(name, buf[off + 4], value);
    added := if ForKernel(name) then [] else [EA(name, buf[off + 4], value)];
  }

  /** On any buffer at all the parser ends, having read inside it only. */
  method QueryEAs(buf: array<byte>) returns (out: seq<EA>)
    ensures out == Parse(buf[..], 0)
  {
    out := [];
    ghost var rest := Parse(buf[..], 0);
    ghost var whole := rest;
    var off, more := 0, true;
    while more && off + 8 <= buf.Length
      invariant more ==> rest == Parse(buf[..], off)
      invariant !more ==> rest == []
      invariant out + rest == whole
      decreases more, buf.Length - off
    {
      var added, next := ParseEntry(buf, off);
      rest := if next == 0 then [] else Parse(buf[..], off + next);
      Reassociate(out, added, rest);
      out := out + added;
      off, more := off + next, next != 0;
    }
  }

  // The round trip.

  lemma TwoBytes(n: nat)
    requires n < 0x1_0000
    ensures U16(LittleEndian(n, 2), 0) == n
  {
    assert LittleEndian(n, 2) == [(n % 256) as byte] + ([(n / 256 % 256) as byte] + LittleEndian(n / 256 / 256, 0));
  }

  lemma FourBytes(n: nat)
    requires n < 0x1_0000_0000
    ensures U32(LittleEndian(n, 4), 0) == n
  {
    TwoBytes(n % 0x1_0000);
    TwoBytes(n / 0x1_0000);
    var m := n / 256;
    assert LittleEndian(n, 4) == [(n % 256) as byte, (m % 256) as byte] + LittleEndian(m / 256, 2);
    assert m / 256 == n / 0x1_0000;
    assert n % 256 + 256 * (m % 256) == n % 0x1_0000;
  }

  /** These bytes stand in the buffer at this place. */
  ghost predicate Holds(buf: seq<byte>, off: nat, bytes: seq<byte>) {
    off + |bytes| <= |buf| && forall k :: 0 <= k < |bytes| ==> buf[off + k] == bytes[k]
  }

  lemma HoldsBoth(buf: seq<byte>, off: nat, a: seq<byte>, b: seq<byte>)
    requires Holds(buf, off, a + b)
    ensures Holds(buf, off, a) && Holds(buf, off + |a|, b)
  {
    forall k | 0 <= k < |a|
      ensures buf[off + k] == a[k]
    {
      assert (a + b)[k] == a[k];
    }
    forall k | 0 <= k < |b|
      ensures buf[off + |a| + k] == b[k]
    {
      assert (a + b)[|a| + k] == b[k];
      assert buf[off + (|a| + k)] == b[k];
    }
  }

  lemma HeldSlice(buf: seq<byte>, off: nat, bytes: seq<byte>)
    requires Holds(buf, off, bytes)
    ensures buf[off..off + |bytes|] == bytes
  {
  }

  lemma HeldBehind(lead: seq<byte>, later: seq<byte>, off: nat, bytes: seq<byte>)
    requires Holds(later, off, bytes)
    ensures Holds(lead + later, |lead| + off, bytes)
  {
    forall k | 0 <= k < |bytes|
      ensures (lead + later)[|lead| + off + k] == bytes[k]
    {
      assert (lead + later)[|lead| + (off + k)] == later[off + k];
    }
  }

  function Pointer(eas: seq<Writable>, i: nat): nat
    requires i < |eas|
  {
    if i == |eas| - 1 then 0 else Padded(eas[i])
  }

  lemma FirstStands(eas: seq<Writable>)
    requires eas != []
    ensures Holds(Layout(eas), 0, Entry(eas[0], Pointer(eas, 0)))
  {
    if |eas| > 1 {
      assert Holds(Layout(eas), 0, Lead(eas[0]) + Layout(eas[1..]));
      HoldsBoth(Layout(eas), 0, Lead(eas[0]), Layout(eas[1..]));
      HoldsBoth(Layout(eas), 0, Entry(eas[0], Padded(eas[0])), Zeros(Padding(Size(eas[0]))));
    }
  }

  /** Every entry starts at a multiple of four, and points to the next one; the last points nowhere. */
  lemma {:induction false} EntriesAligned(eas: seq<Writable>, i: nat)
    requires i < |eas|
    ensures Offset(eas, i) % 4 == 0
    ensures Holds(Layout(eas), Offset(eas, i), Entry(eas[i], Pointer(eas, i)))
  {
    if i == 0 {
      FirstStands(eas);
    } else {
      var rest := eas[1..];
      EntriesAligned(rest, i - 1);
      AlignedSum(Padded(eas[0]), Offset(rest, i - 1));
      HeldBehind(Lead(eas[0]), Layout(rest), Offset(rest, i - 1), Entry(rest[i - 1], Pointer(rest, i - 1)));
    }
  }

  /** An entry reads back wherever it stands. */
  lemma EntryReads(buf: seq<byte>, off: nat, ea: Writable, next: nat)
    requires Holds(buf, off, Entry(ea, next)) && next < 0x1_0000_0000
    ensures EntryStep(buf, off) == (Kept(ea), next)
  {
    var head, length, two := LittleEndian(next, 4), LittleEndian(|ea.value|, 2), [ea.flags, |ea.name| as byte];
    HoldsBoth(buf, off, head, Rest(ea));
    HoldsBoth(buf, off + 4, two + length + ea.name + [0], ea.value);
    HoldsBoth(buf, off + 4, two + length + ea.name, [0]);
    HoldsBoth(buf, off + 4, two + length, ea.name);
    HoldsBoth(buf, off + 4, two, length);
    FourBytes(next);
    TwoBytes(|ea.value|);
    assert buf[off + 4] == two[0] && buf[off + 4 + 1] == two[1];
    HeldSlice(buf, off + 8, ea.name);
    HeldSlice(buf, off + 8 + |ea.name| + 1, ea.value);
  }

  /** These entries stand in the buffer at this place... */
  ghost predicate Stand(buf: seq<byte>, off: nat, eas: seq<Writable>) {
    Holds(buf, off, Layout(eas))
  }

  /** ...and reading from there gives all of them that are not for Windows itself. */
  ghost predicate Read(buf: seq<byte>, off: nat, eas: seq<Writable>) {
    Parse(buf, off) == Settable(eas)
  }

  lemma ParseUnfolds(buf: seq<byte>, off: nat, added: seq<EA>, next: nat)
    requires off + 8 <= |buf| && EntryStep(buf, off) == (added, next)
    ensures Parse(buf, off) == added + if next == 0 then [] else Parse(buf, off + next)
  {
  }

  lemma OneReads(buf: seq<byte>, off: nat, ea: Writable)
    requires Stand(buf, off, [ea])
    ensures Read(buf, off, [ea])
  {
    EntryReads(buf, off, ea, 0);
    ParseUnfolds(buf, off, Kept(ea), 0);
    SettableCons(ea, []);
    assert [ea] + [] == [ea];
  }

  lemma FirstStandsAlone(buf: seq<byte>, off: nat, first: Writable, rest: seq<Writable>)
    requires rest != [] && Stand(buf, off, [first] + rest)
    ensures off + 8 <= |buf| && EntryStep(buf, off) == (Kept(first), Padded(first)) && Padded(first) > 0
    ensures Stand(buf, off + Padded(first), rest)
  {
    LayoutCons(first, rest);
    HoldsBoth(buf, off, Lead(first), Layout(rest));
    HoldsBoth(buf, off, Entry(first, Padded(first)), Zeros(Padding(Size(first))));
    EntryReads(buf, off, first, Padded(first));
  }

  lemma MoreRead(buf: seq<byte>, off: nat, next: nat, first: Writable, rest: seq<Writable>)
    requires off + 8 <= |buf| && EntryStep(buf, off) == (Kept(first), next) && next > 0 && Read(buf, off + next, rest)
    ensures Read(buf, off, [first] + rest)
  {
    ParseUnfolds(buf, off, Kept(first), next);
    SettableCons(first, rest);
  }

  lemma SettableCons(first: Writable, rest: seq<Writable>)
    ensures Settable([first] + rest) == Kept(first) + Settable(rest)
  {
    assert ([first] + rest)[1..] == rest;
  }

  lemma {:induction false} LayoutReads(buf: seq<byte>, off: nat, eas: seq<Writable>)
    requires eas != [] && Stand(buf, off, eas)
    ensures Read(buf, off, eas)
    decreases |eas|
  {
    var first, rest := eas[0], eas[1..];
    HeadAndTail(eas);
    if rest == [] {
      assert eas == [first];
      OneReads(buf, off, first);
    } else {
      FirstStandsAlone(buf, off, first, rest);
      LayoutReads(buf, off + Padded(first), rest);
      MoreRead(buf, off, Padded(first), first, rest);
    }
  }

  /**
   Written and read back, whatever follows in the buffer: all that can be written, without what only Windows may set.
   */
  lemma RoundTrip(eas: seq<EA>, after: seq<byte>)
    requires Expressibles(eas) != []
    ensures Parse(Layout(Expressibles(eas)) + after, 0) == Settable(Expressibles(eas))
  {
    var kept := Expressibles(eas);
    assert Stand(Layout(kept) + after, 0, kept);
    LayoutReads(Layout(kept) + after, 0, kept);
    assert Read(Layout(kept) + after, 0, kept);
  }

  /**
   A buffer of zeros, as one for no entries at all would be, reads as one empty entry: the caller must not parse it.
   */
  lemma ZerosRead(n: nat)
    ensures Parse(Zeros(n), 0) == if n < 9 then [] else [EA([], 0, [])]
  {
    if n >= 8 {
      assert U16(Zeros(n), 6) == 0 && U32(Zeros(n), 0) == 0;
      assert EndAt(Zeros(n), 0) == 9;
      if n >= 9 {
        assert Zeros(n)[8..8] == [] && Zeros(n)[9..9] == [];
        assert EntryAt(Zeros(n), 0) == EA([], 0, []);
        assert !ForKernel([]);
        ParseUnfolds(Zeros(n), 0, [EA([], 0, [])], 0);
      }
    }
  }

  // The same, said of the bytes and the names themselves.

  /** The name has 1 to 255 bytes and the value at most 65535. */
  ghost predicate Expressed(ea: EA) {
    1 <= |ea.name| <= 255 && |ea.value| <= 65535
  }

  /** The name starts with "$kernel.", in capitals or not. */
  ghost predicate KernelName(name: seq<byte>) {
    && |name| >= 8 && name[0] == 36 && name[7] == 46
    && name[1] in {75, 107} && name[2] in {69, 101} && name[3] in {82, 114} && name[4] in {78, 110}
    && name[5] in {69, 101} && name[6] in {76, 108}
  }

  lemma KernelExactly(name: seq<byte>)
    ensures ForKernel(name) <==> KernelName(name)
  {
    if |name| >= 8 {
      assert ForKernel(name) <==> forall i :: 0 <= i < 8 ==> Upper(name[i]) == KERNEL[i];
    }
  }

  lemma {:induction false} ExpressedExactly(eas: seq<EA>, ea: EA)
    ensures multiset(Expressibles(eas))[ea] == if Expressed(ea) then multiset(eas)[ea] else 0
  {
    if eas != [] {
      var n := |eas| - 1;
      ExpressedExactly(eas[..n], ea);
      FrontAndLast(eas);
      MultisetOfSum(eas[..n], [eas[n]]);
      MultisetOfSum(Expressibles(eas[..n]), if Expressible(eas[n]) then [eas[n]] else []);
    }
  }

  lemma {:induction false} SettableExactly(eas: seq<EA>, ea: EA)
    ensures multiset(Settable(eas))[ea] == if KernelName(ea.name) then 0 else multiset(eas)[ea]
  {
    if eas != [] {
      SettableExactly(eas[1..], ea);
      KernelExactly(eas[0].name);
      HeadAndTail(eas);
      MultisetOfSum([eas[0]], eas[1..]);
      MultisetOfSum(Kept(eas[0]), Settable(eas[1..]));
    }
  }

  lemma {:induction false} ExpressiblesInOrder(a: seq<EA>, b: seq<EA>)
    ensures Expressibles(a + b) == Expressibles(a) + Expressibles(b)
    decreases |b|
  {
    if b == [] {
      assert a + b == a;
    } else {
      var n := |b| - 1;
      assert (a + b)[..|a| + n] == a + b[..n];
      ExpressiblesInOrder(a, b[..n]);
      SumOfThree(Expressibles(a), Expressibles(b[..n]), if Expressible(b[n]) then [b[n]] else []);
    }
  }

  lemma {:induction false} SettableInOrder(a: seq<EA>, b: seq<EA>)
    ensures Settable(a + b) == Settable(a) + Settable(b)
  {
    if a == [] {
      assert a + b == b;
    } else {
      assert (a + b)[1..] == a[1..] + b;
      SettableInOrder(a[1..], b);
      SumOfThree(Kept(a[0]), Settable(a[1..]), Settable(b));
    }
  }

  /** What comes back of a written list: each entry as often as it was there, if it can be written and may be set. */
  lemma RoundTripExactly(eas: seq<EA>, after: seq<byte>, ea: EA)
    requires exists e :: e in eas && Expressed(e)
    ensures multiset(Parse(Layout(Expressibles(eas)) + after, 0))[ea] ==
            if Expressed(ea) && !KernelName(ea.name) then multiset(eas)[ea] else 0
  {
    var e :| e in eas && Expressed(e);
    ExpressedExactly(eas, e);
    assert e in multiset(eas) && e in multiset(Expressibles(eas));
    RoundTrip(eas, after);
    SettableExactly(Expressibles(eas), ea);
    ExpressedExactly(eas, ea);
  }

  /** The bytes of an entry, one field after the other. */
  lemma EntryBytes(ea: Writable, next: nat)
    ensures var entry, n := Entry(ea, next), |ea.name|;
            && |entry| == 9 + n + |ea.value|
            && entry[0] as nat == next % 256 && entry[1] as nat == next / 256 % 256
            && entry[2] as nat == next / 256 / 256 % 256 && entry[3] as nat == next / 256 / 256 / 256 % 256
            && entry[4] == ea.flags && entry[5] as nat == n
            && entry[6] as nat == |ea.value| % 256 && entry[7] as nat == |ea.value| / 256
            && entry[8..8 + n] == ea.name && entry[8 + n] == 0 && entry[9 + n..] == ea.value
  {
    var m := next / 256;
    assert LittleEndian(next, 4) == [(next % 256) as byte, (m % 256) as byte] + LittleEndian(m / 256, 2);
    TwoDigits(m / 256);
    TwoDigits(|ea.value|);
  }

  lemma TwoDigits(n: nat)
    ensures LittleEndian(n, 2) == [(n % 256) as byte, (n / 256 % 256) as byte]
  {
    assert LittleEndian(n / 256, 1) == [(n / 256 % 256) as byte] + LittleEndian(n / 256 / 256, 0);
  }
}
