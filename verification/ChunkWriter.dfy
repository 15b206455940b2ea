/**
 The writer of one dynamic index (ChunkState in gui/backup_inline.go and in directorybackup/main.go). Bytes
 arrive in arbitrary buffers; complete chunks are uploaded unless known and noted for the index; EOF assigns
 and closes. An upload that fails ends the writer before the chunk is indexed. The two programs' writers differ
 in one place, Publish: the command-line client marks a digest known before it uploads the chunk.
 */
module ChunkWriters {
  import opened Bytes
  import opened Chunkers
  import opened Chunking
  import opened DynamicIndexes
  import opened PbsClients

  /**
   The known-chunk set of one directory, and the run's counters, shared by the archive and the catalog
   writer. The counters go on from where the directories before left them.
   */
  class Ledger {
    var known: set<Digest>
    var created: nat
    var reused: nat
    var failed: nat
    ghost const initial: set<Digest>
    ghost const before: nat
    ghost const reusedBefore: nat
    ghost const refusedBefore: int
    ghost const uploadedBefore: nat

    /** Every chunk counted as new made exactly one digest known. */
    ghost predicate Valid()
      reads this
    {
      initial <= known && created - before == |known| - |initial| && reused >= reusedBefore
    }

    constructor (known: set<Digest>, created: nat, reused: nat, failed: nat, ghost refused: nat,
                 ghost uploaded: nat)
      ensures refusedBefore == refused - failed && uploadedBefore == uploaded
      ensures this.known == initial == known && Valid() && before == created && reusedBefore == reused
      ensures this.created == created && this.reused == reused && this.failed == failed
    {
      this.known, this.created, this.reused, this.failed := known, created, reused, failed;
      initial, before, reusedBefore, refusedBefore, uploadedBefore :=
        known, created, reused, refused - failed, uploaded;
    }
  }

  /**
   What makes skipping a known chunk safe: whatever is known is stored, under its own digest. Refused chunks are
   counted, and for every digest made known one chunk was uploaded, and no other.
   */
  ghost predicate Backed(ledger: Ledger, client: PbsClient)
    reads ledger, client`store, client`refused, client`uploaded
  {
    && ledger.Valid()
    && Honest(client.chunkDigest, client.store)
    && ledger.known <= client.store.Keys
    && ledger.failed + ledger.refusedBefore == client.refused
    && client.uploaded - ledger.uploadedBefore == |ledger.known| - |ledger.initial|
  }

  /** A closed index is complete: it lists exactly the chunks of `stream`, at their offsets, and they are all stored. */
  ghost predicate Restorable(digest: Digester, stored: set<Digest>, file: IndexFile, t: Tuning, stream: seq<byte>)
    requires t.Valid()
  {
    var books := BooksOf(digest, Chunks(t, stream));
    file.digests == books.assignments && file.offsets == books.offsets && books.listed <= stored
  }

  /** The totals and the checksum of a whole stream's books. */
  lemma BooksOfStream(digest: Digester, t: Tuning, stream: seq<byte>)
    requires t.Valid()
    ensures var chunks := Chunks(t, stream);
            var books := BooksOf(digest, chunks);
            && |books.assignments| == |books.offsets| && books.pos == |stream| && books.count == |chunks|
            && books.checksumInput == ChecksumInput(digest, chunks, 0)
  {
    BooksAreTheIndex(digest, Chunks(t, stream));
    BooksChecksum(digest, Chunks(t, stream));
    ChunksReassemble(t, stream);
  }

  /** What the writers share with each other and the server: known digests, stored digests, chunks counted. */
  datatype Stock = Stock(known: set<Digest>, stored: set<Digest>, counted: nat)

  ghost function StockOf(ledger: Ledger, client: PbsClient): Stock
    reads ledger, client`store
  {
    Stock(ledger.known, client.store.Keys, ledger.created + ledger.reused)
  }

  /** From `a` to `b` the digests `added` were taken in, as `chunks` chunks. */
  ghost predicate TookIn(a: Stock, b: Stock, added: set<Digest>, chunks: int) {
    && b.known == a.known + added
    && b.stored == a.stored + b.known
    && b.counted == a.counted + chunks
  }

  lemma TookInThen(a: Stock, b: Stock, c: Stock, first: set<Digest>, n: int, second: set<Digest>, m: int)
    requires TookIn(a, b, first, n) && TookIn(b, c, second, m) && first <= second
    ensures TookIn(a, c, second, n + m)
  {
  }

  lemma TookInNothing(a: Stock, listed: set<Digest>)
    requires listed <= a.known <= a.stored
    ensures TookIn(a, a, listed, 0)
  {
  }

  lemma TookInMore(a: Stock, b: Stock, digest: Digest, listed: set<Digest>, n: int)
    requires TookIn(a, b, {digest}, n) && listed <= a.known
    ensures TookIn(a, b, listed + {digest}, n)
  {
  }

  /** One unknown digest, marked and stored. */
  lemma TookInOne(a: Stock, b: Stock, digest: Digest)
    requires a.known <= a.stored && digest !in a.known
    requires b.known == a.known + {digest} && b.stored == a.stored + {digest} && b.counted == a.counted + 1
    ensures TookIn(a, b, {digest}, 1) && b.known <= b.stored && |b.known| == |a.known| + 1
  {
  }

  class ChunkState {
    var assignments: seq<Digest>
    var assignmentsOffset: seq<nat>
    var pos: nat
    var chunkCount: nat
    var chunkDigests: seq<byte>
    var currentChunk: seq<byte>
    var wrid: nat
    const chunker: Chunker
    const ledger: Ledger
    const marksFirst: bool
    ghost var listed: set<Digest>
    ghost var cutter: Cutter
    ghost var written: seq<byte>

    ghost function Repr(): set<object> {
      {this, chunker, chunker.window}
    }

    ghost function Noted(): Books
      reads this
    {
      Books(assignments, assignmentsOffset, pos, chunkCount, chunkDigests, listed)
    }

    /** The fields agree with the chunks cut so far, and those are all known. */
    ghost predicate Consistent(digest: Digester)
      reads this, ledger
    {
      && Noted() == BooksOf(digest, cutter.done)
      && currentChunk == cutter.cur
      && listed <= ledger.known
    }

    ghost predicate Valid(digest: Digester)
      reads Repr(), ledger
    {
      && chunker.Valid()
      && chunker.State() == cutter.scanner
      && cutter == Cut(chunker.tuning, Untouched, written)
      && Consistent(digest)
    }

    constructor (table: seq<bv32>, ledger: Ledger, wrid: nat, marksFirst: bool, ghost digest: Digester)
      requires |table| == 256
      ensures Valid(digest) && fresh(Repr()) && this.marksFirst == marksFirst
      ensures this.ledger == ledger && this.wrid == wrid && written == []
      ensures listed == {} && chunkCount == 0
      ensures chunker.tuning == TuningFor(table, AVERAGE)
    {
      assignments, assignmentsOffset, pos, chunkCount, chunkDigests := [], [], 0, 0, [];
      currentChunk := [];
      this.wrid, this.ledger, this.marksFirst := wrid, ledger, marksFirst;
      chunker := new Chunker(table, AVERAGE);
      cutter, written, listed := Untouched, [], {};
    }

    /** The GUI: an unknown chunk is marked and counted once it is stored. */
    method StoreThenMark(client: PbsClient, digest: Digest, data: seq<byte>) returns (ok: bool)
      requires Backed(ledger, client) && digest == client.chunkDigest(data) && digest !in ledger.known
      modifies client`store, client`refused, client`uploaded, ledger
      ensures Backed(ledger, client)
      ensures old(client.store).Keys <= client.store.Keys && old(ledger.known) <= ledger.known
      ensures ok ==> TookIn(old(StockOf(ledger, client)), StockOf(ledger, client), {digest}, 1)
      ensures ledger.failed == old(ledger.failed) + (if ok then 0 else 1)
      ensures client.refused == old(client.refused) + (if ok then 0 else 1)
    {
      ok := client.UploadDynamicCompressedChunk(wrid, digest, data);
      if !ok {
        ledger.failed := ledger.failed + 1;
        return;
      }
      ledger.known := ledger.known + {digest};
      ledger.created := ledger.created + 1;
      TookInOne(old(StockOf(ledger, client)), StockOf(ledger, client), digest);
    }

    /**
     The command-line client: an unknown chunk is marked first. One that fails to upload still counts as new, unless it
     is the last.
     */
    method MarkThenStore(client: PbsClient, digest: Digest, data: seq<byte>, last: bool) returns (ok: bool)
      requires Backed(ledger, client) && digest == client.chunkDigest(data) && digest !in ledger.known
      modifies client`store, client`refused, client`uploaded, ledger
      ensures ok ==> Backed(ledger, client)
      ensures old(client.store).Keys <= client.store.Keys && old(ledger.known) <= ledger.known
      ensures ok ==> TookIn(old(StockOf(ledger, client)), StockOf(ledger, client), {digest}, 1)
      ensures ledger.failed == old(ledger.failed)
      ensures client.refused == old(client.refused) + (if ok then 0 else 1)
    {
      ledger.known := ledger.known + {digest};
      ok := client.UploadDynamicCompressedChunk(wrid, digest, data);
      if ok || !last {
        ledger.created := ledger.created + 1;
      }
      if ok {
        TookInOne(old(StockOf(ledger, client)), StockOf(ledger, client), digest);
      }
    }

    /** Upload the chunk unless it is known. */
    method Publish(client: PbsClient, digest: Digest, data: seq<byte>, last: bool) returns (ok: bool)
      requires Backed(ledger, client) && digest == client.chunkDigest(data)
      modifies client`store, client`refused, client`uploaded, ledger
      ensures ok || !marksFirst ==> Backed(ledger, client)
      ensures old(client.store).Keys <= client.store.Keys && old(ledger.known) <= ledger.known
      ensures ok ==> TookIn(old(StockOf(ledger, client)), StockOf(ledger, client), {digest}, 1)
      ensures ledger.failed == old(ledger.failed) + (if ok || marksFirst then 0 else 1)
      ensures client.refused == old(client.refused) + (if ok then 0 else 1)
    {
      if digest in ledger.known {
        assert ledger.known == ledger.known + {digest};
        ledger.reused := ledger.reused + 1;
        ok := true;
      } else if marksFirst {
        ok := MarkThenStore(client, digest, data, last);
      } else {
        ok := StoreThenMark(client, digest, data);
      }
    }

    /** Write a finished chunk into the books. */
    method Note(digest: Digest)
      modifies this
      ensures Noted() == old(Noted()).Enter(digest, |old(currentChunk)|) && currentChunk == []
      ensures cutter == old(cutter) && wrid == old(wrid) && written == old(written)
    {
      chunkDigests := chunkDigests + LittleEndian(pos + |currentChunk|, 8);
      chunkDigests := chunkDigests + digest;
      assignmentsOffset := assignmentsOffset + [pos];
      assignments := assignments + [digest];
      pos := pos + |currentChunk|;
      chunkCount := chunkCount + 1;
      listed := listed + {digest};
      currentChunk := [];
    }

    /** The chunk that `piece` completes: published, then noted. */
    method EndChunk(piece: seq<byte>, last: bool, client: PbsClient) returns (ok: bool)
      requires Consistent(client.chunkDigest) && Backed(ledger, client)
      modifies this, client`store, client`refused, client`uploaded, ledger
      ensures (ok || !marksFirst ==> Backed(ledger, client)) && old(client.store).Keys <= client.store.Keys
      ensures written == old(written) && wrid == old(wrid) && old(ledger.known) <= ledger.known
      ensures ok ==> cutter == Cutter(old(cutter).done + [old(cutter).cur + piece], [], Fresh)
      ensures ok ==> Consistent(client.chunkDigest)
      ensures ok ==> old(listed) <= listed && chunkCount == old(chunkCount) + 1
      ensures ok ==> TookIn(old(StockOf(ledger, client)), StockOf(ledger, client), listed, 1)
      ensures ledger.failed == old(ledger.failed) + (if ok || marksFirst then 0 else 1)
      ensures client.refused == old(client.refused) + (if ok then 0 else 1)
    {
      currentChunk := currentChunk + piece;
      BooksAppend(client.chunkDigest, cutter.done, currentChunk);
      cutter := Cutter(cutter.done + [currentChunk], [], Fresh);
      var digest := client.chunkDigest(currentChunk);
      ok := Publish(client, digest, currentChunk, last);
      if ok {
        TookInMore(old(StockOf(ledger, client)), StockOf(ledger, client), digest, listed, 1);
        Note(digest);
      }
    }

    /** In the middle of a buffer: `rest` is still to be cut, and Scan has found its first break at `chunkpos`. */
    ghost predicate Midway(digest: Digester, rest: seq<byte>, chunkpos: nat, total: Cutter)
      reads Repr(), ledger
    {
      && chunker.Valid() && ScannerOk(cutter.scanner) && Consistent(digest)
      && (chunkpos, chunker.State()) == ScanFrom(chunker.tuning, cutter.scanner, rest)
      && Cut(chunker.tuning, cutter, rest) == total
    }

    /** Scan the rest of the buffer for the next break. */
    method FindBreak(rest: seq<byte>, ghost digest: Digester) returns (chunkpos: nat)
      requires chunker.Valid() && chunker.State() == cutter.scanner && Consistent(digest)
      modifies chunker, chunker.window
      ensures Midway(digest, rest, chunkpos, Cut(chunker.tuning, cutter, rest)) && chunkpos <= |rest|
    {
      chunkpos := chunker.Scan(rest);
    }

    /** End the chunk at the break, then look for the next one. */
    method Advance(b: seq<byte>, chunkpos: nat, client: PbsClient, ghost total: Cutter, ghost start: Stock,
                   ghost count: nat)
      returns (ok: bool, rest: seq<byte>, next: nat)
      requires TookIn(start, StockOf(ledger, client), listed, chunkCount - count)
      requires 0 < chunkpos <= |b| && Midway(client.chunkDigest, b, chunkpos, total) && Backed(ledger, client)
      modifies Repr(), client`store, client`refused, client`uploaded, ledger
      ensures (ok || !marksFirst ==> Backed(ledger, client)) && old(client.store).Keys <= client.store.Keys
      ensures written == old(written) && wrid == old(wrid) && old(ledger.known) <= ledger.known
      ensures ok ==> rest == b[chunkpos..] && next <= |rest| && Midway(client.chunkDigest, rest, next, total)
      ensures ok ==> old(listed) <= listed && chunkCount == old(chunkCount) + 1
      ensures ok ==> TookIn(start, StockOf(ledger, client), listed, chunkCount - count)
      ensures ledger.failed == old(ledger.failed) + (if ok || marksFirst then 0 else 1)
      ensures client.refused == old(client.refused) + (if ok then 0 else 1)
    {
      CutByScan(chunker.tuning, cutter, b);
      ok := EndChunk(b[..chunkpos], false, client);
      rest, next := b[chunkpos..], 0;
      if ok {
        TookInThen(start, old(StockOf(ledger, client)), StockOf(ledger, client), old(listed), old(chunkCount) - count,
                   listed, 1);
        next := FindBreak(rest, client.chunkDigest);
      }
    }

    /** The loop of HandleData: end chunks until Scan finds no further break. */
    method EndChunks(data: seq<byte>, client: PbsClient, ghost total: Cutter) returns (ok: bool, b: seq<byte>)
      requires chunker.Valid() && chunker.State() == cutter.scanner && Consistent(client.chunkDigest)
      requires Backed(ledger, client) && total == Cut(chunker.tuning, cutter, data)
      modifies Repr(), client`store, client`refused, client`uploaded, ledger
      ensures (ok || !marksFirst ==> Backed(ledger, client)) && old(client.store).Keys <= client.store.Keys
      ensures written == old(written) && wrid == old(wrid) && old(ledger.known) <= ledger.known
      ensures ok ==> Midway(client.chunkDigest, b, 0, total)
      ensures ok ==> old(listed) <= listed && chunkCount >= old(chunkCount)
      ensures ok ==> TookIn(old(StockOf(ledger, client)), StockOf(ledger, client), listed, chunkCount - old(chunkCount))
      ensures ledger.failed == old(ledger.failed) + (if ok || marksFirst then 0 else 1)
      ensures client.refused == old(client.refused) + (if ok then 0 else 1)
    {
      ghost var start, count := StockOf(ledger, client), chunkCount;
      TookInNothing(start, listed);
      b := data;
      var chunkpos: nat := FindBreak(b, client.chunkDigest);
      while chunkpos > 0
        invariant chunkpos <= |b| && Midway(client.chunkDigest, b, chunkpos, total) && Backed(ledger, client)
        invariant old(listed) <= listed && chunkCount >= count
        invariant TookIn(start, StockOf(ledger, client), listed, chunkCount - count)
        invariant ledger.failed == old(ledger.failed) && client.refused == old(client.refused)
        invariant written == old(written) && wrid == old(wrid)
        decreases |b|
      {
        ok, b, chunkpos := Advance(b, chunkpos, client, total, start, count);
        if !ok {
          return;
        }
      }
      ok := true;
    }

    /** No further break: the rest of the buffer belongs to the current chunk. */
    method Keep(rest: seq<byte>, ghost data: seq<byte>, ghost digest: Digester, ghost total: Cutter)
      requires Midway(digest, rest, 0, total) && total == Cut(chunker.tuning, Untouched, written + data)
      modifies this`currentChunk, this`cutter, this`written
      ensures Valid(digest) && written == old(written) + data
    {
      LastPiece(chunker.tuning, cutter, rest, chunker.State());
      currentChunk := currentChunk + rest;
      cutter := total;
      written := written + data;
    }

    /** Feed one buffer. The outcome does not depend on how the stream was cut into buffers. */
    method HandleData(data: seq<byte>, client: PbsClient) returns (ok: bool)
      requires Valid(client.chunkDigest) && Backed(ledger, client)
      modifies Repr(), client`store, client`refused, client`uploaded, ledger
      ensures (ok || !marksFirst ==> Backed(ledger, client)) && old(client.store).Keys <= client.store.Keys
      ensures old(ledger.known) <= ledger.known && wrid == old(wrid)
      ensures ok ==> Valid(client.chunkDigest) && written == old(written) + data
      ensures ok ==> old(listed) <= listed && chunkCount >= old(chunkCount)
      ensures ok ==> TookIn(old(StockOf(ledger, client)), StockOf(ledger, client), listed, chunkCount - old(chunkCount))
      ensures ledger.failed == old(ledger.failed) + (if ok || marksFirst then 0 else 1)
      ensures client.refused == old(client.refused) + (if ok then 0 else 1)
    {
      ghost var total := Cut(chunker.tuning, cutter, data);
      CutConcat(chunker.tuning, Untouched, written, data);
      var b;
      ok, b := EndChunks(data, client, total);
      if ok {
        Keep(b, data, client.chunkDigest, total);
      }
    }

    /** The books cover the whole stream: nothing is left in the current chunk. */
    ghost predicate Complete(digest: Digester)
      reads this, chunker, ledger
    {
      && chunker.tuning.Valid()
      && Noted() == BooksOf(digest, Chunks(chunker.tuning, written))
      && listed <= ledger.known
    }

    /**
     The first part of EOF: what is left is the last chunk. (The source feeds its checksum before
     the upload here; nobody reads the checksum of a writer whose upload failed.)
     */
    method EndStream(client: PbsClient) returns (ok: bool)
      requires Valid(client.chunkDigest) && Backed(ledger, client)
      modifies this, client`store, client`refused, client`uploaded, ledger
      ensures (ok || !marksFirst ==> Backed(ledger, client)) && old(client.store).Keys <= client.store.Keys
      ensures old(ledger.known) <= ledger.known && wrid == old(wrid) && written == old(written)
      ensures ok ==> Complete(client.chunkDigest) && chunkCount >= old(chunkCount) && old(listed) <= listed
      ensures ok ==> TookIn(old(StockOf(ledger, client)), StockOf(ledger, client), listed, chunkCount - old(chunkCount))
      ensures ledger.failed == old(ledger.failed) + (if ok || marksFirst then 0 else 1)
      ensures client.refused == old(client.refused) + (if ok then 0 else 1)
    {
      IncrementalIsOneShot(chunker.tuning, written);
      if |currentChunk| > 0 {
        assert cutter.cur + [] == cutter.cur;
        ok := EndChunk([], true, client);
      } else {
        TookInNothing(StockOf(ledger, client), listed);
        ok := true;
      }
    }

    /** The second part: assign the chunks, at most 128 in one request. */
    method AssignAll(client: PbsClient) returns (ok: bool)
      requires |assignments| == |assignmentsOffset|
      requires wrid in client.writers && client.writers[wrid] == IndexFile(client.writers[wrid].name, [], [], Open)
      modifies client`writers, client`unconfirmed
      ensures client.unconfirmed == old(client.unconfirmed) + (if ok then 0 else 1)
      ensures Elsewhere(old(client.writers), client.writers, wrid) && client.writers[wrid].closing == Open
      ensures client.writers[wrid].name == old(client.writers)[wrid].name
      ensures ok ==> client.writers[wrid] == IndexFile(old(client.writers)[wrid].name, assignments, assignmentsOffset,
                                                       Open)
    {
      var k := 0;
      while k < |assignments|
        invariant client.unconfirmed == old(client.unconfirmed)
        invariant k <= |assignments| && Elsewhere(old(client.writers), client.writers, wrid)
        invariant client.writers[wrid] ==
                  IndexFile(old(client.writers)[wrid].name, assignments[..k], assignmentsOffset[..k], Open)
      {
        var k2 := if k + MAX_BATCH > |assignments| then |assignments| else k + MAX_BATCH;
        ok := client.AssignDynamicChunks(wrid, assignments[k..k2], assignmentsOffset[k..k2]);
        if !ok {
          return false;
        }
        assert assignments[..k] + assignments[k..k2] == assignments[..k2];
        assert assignmentsOffset[..k] + assignmentsOffset[k..k2] == assignmentsOffset[..k2];
        k := k2;
      }
      return true;
    }

    /** The third part: with all chunks assigned the index is closed; one that is closed lists them all. */
    method CloseIndex(client: PbsClient) returns (ok: bool)
      requires |assignments| == |assignmentsOffset|
      requires wrid in client.writers && client.writers[wrid] == IndexFile(client.writers[wrid].name, [], [], Open)
      modifies client`writers, client`unconfirmed
      ensures client.unconfirmed == old(client.unconfirmed) + (if ok then 0 else 1)
      ensures Elsewhere(old(client.writers), client.writers, wrid)
      ensures client.writers[wrid].name == old(client.writers)[wrid].name
      ensures client.writers[wrid].closing != Open ==>
                client.writers[wrid].digests == assignments && client.writers[wrid].offsets == assignmentsOffset
      ensures ok ==> client.writers[wrid].closing == Closed(client.checksum(chunkDigests), pos, chunkCount)
    {
      ok := AssignAll(client);
      if ok {
        ok := client.CloseDynamicIndex(wrid, client.checksum(chunkDigests), pos, chunkCount);
      }
    }

    /**
     End of stream. Whatever fails, an index that the server holds closed is restorable; on success
     it is closed, with the checksum, size and count of the whole stream.
     */
    method EOF(client: PbsClient) returns (ok: bool)
      requires Valid(client.chunkDigest) && Backed(ledger, client)
      requires wrid in client.writers && client.writers[wrid] == IndexFile(client.writers[wrid].name, [], [], Open)
      modifies this, client`store, client`refused, client`uploaded, client`writers, client`unconfirmed, ledger
      ensures client.Troubles() == old(client.Troubles()) + (if ok then 0 else 1)
      ensures (ok || !marksFirst ==> Backed(ledger, client)) && old(client.store).Keys <= client.store.Keys
      ensures old(ledger.known) <= ledger.known && wrid == old(wrid) && written == old(written)
      ensures Elsewhere(old(client.writers), client.writers, wrid)
      ensures client.writers[wrid].name == old(client.writers)[wrid].name
      ensures client.writers[wrid].closing != Open ==>
                Restorable(client.chunkDigest, client.store.Keys, client.writers[wrid], chunker.tuning, written)
      ensures ok ==> var chunks := Chunks(chunker.tuning, written);
                     client.writers[wrid].closing ==
                     Closed(client.checksum(ChecksumInput(client.chunkDigest, chunks, 0)), |written|, |chunks|)
      ensures ok ==> Complete(client.chunkDigest) && old(listed) <= listed && pos == |written|
      ensures ok ==> chunkCount == |Chunks(chunker.tuning, written)| >= old(chunkCount)
      ensures ok ==> TookIn(old(StockOf(ledger, client)), StockOf(ledger, client), listed, chunkCount - old(chunkCount))
      ensures old(ledger.failed) <= ledger.failed <= old(ledger.failed) + 1
              && (ok ==> ledger.failed == old(ledger.failed))
    {
      ok := EndStream(client);
      if !ok {
        return false;
      }
      BooksOfStream(client.chunkDigest, chunker.tuning, written);
      ok := CloseIndex(client);
    }
  }

  /** All indexes but `wrid` are as they were. */
  ghost predicate Elsewhere(before: map<nat, IndexFile>, after: map<nat, IndexFile>, wrid: nat) {
    && before.Keys == after.Keys && wrid in after
    && forall w :: w in after && w != wrid ==> after[w] == before[w]
  }

  /** Dedup is lossless: reading a restorable index from any later store gives back the stream, byte for byte. */
  lemma RestorableReadsBack(digest: Digester, store: set<Digest>, later: ChunkStore, file: IndexFile, t: Tuning,
                            stream: seq<byte>)
    requires t.Valid() && Restorable(digest, store, file, t, stream)
    requires CollisionFree(digest) && Honest(digest, later) && store <= later.Keys
    ensures (forall d :: d in file.digests ==> d in later) && ReadBack(later, file.digests) == stream
  {
    var chunks := Chunks(t, stream);
    BooksAreTheIndex(digest, chunks);
    ChunksReassemble(t, stream);
    ReadBackIsStream(digest, later, chunks, file.digests);
  }
}
