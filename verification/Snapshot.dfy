/**
 Backing up one directory into one server session (backupReal in gui/backup_inline.go): the archive and
 the catalog writer share the known-chunk set, and the walk over the directory feeds them in any order.
 */
module Snapshots {
  import opened Bytes
  import opened Lists
  import opened Chunkers
  import opened Chunking
  import opened DynamicIndexes
  import opened PbsClients
  import opened ChunkWriters
  import opened StopButtons

  /** One call of a write callback. */
  datatype Piece = Piece(toCatalog: bool, data: seq<byte>)

  /** What a walk does: the writes in their order, whether it got to its end, and the files it reports. */
  datatype Walk = Walk(pieces: seq<Piece>, complete: bool, readErrors: seq<string>, excluded: seq<string>)

  function Stream(pieces: seq<Piece>, toCatalog: bool): seq<byte> {
    if pieces == [] then []
    else
      var last := pieces[|pieces| - 1];
      Stream(pieces[..|pieces| - 1], toCatalog) + if last.toCatalog == toCatalog then last.data else []
  }

  lemma StreamSnoc(pieces: seq<Piece>, piece: Piece, toCatalog: bool)
    ensures Stream(pieces + [piece], toCatalog) ==
            if piece.toCatalog == toCatalog then Stream(pieces, toCatalog) + piece.data else Stream(pieces, toCatalog)
  {
    assert (pieces + [piece])[..|pieces|] == pieces;
  }

  /** How this client digests, sums and cuts. */
  datatype Scheme = Scheme(digest: Digester, checksum: seq<byte> -> seq<byte>, tuning: Tuning)

  /** A closed index that holds exactly this stream, every chunk of it stored. */
  ghost predicate Holds(s: Scheme, stored: set<Digest>, file: IndexFile, stream: seq<byte>)
    requires s.tuning.Valid()
  {
    && Restorable(s.digest, stored, file, s.tuning, stream)
    && var chunks := Chunks(s.tuning, stream);
       file.closing == Closed(s.checksum(ChecksumInput(s.digest, chunks, 0)), |stream|, |chunks|)
  }

  const ARCHIVE := "backup.pxar.didx"
  const CATALOG := "catalog.pcat1.didx"

  /** A session's indexes are exactly an archive and a catalog, each closed and holding its stream. */
  ghost predicate BothHeld(s: Scheme, stored: set<Digest>, files: map<nat, IndexFile>, a: nat, k: nat,
                           archived: seq<byte>, catalogued: seq<byte>)
    requires s.tuning.Valid()
  {
    && a != k && files.Keys == {a, k}
    && files[a].name == ARCHIVE && files[k].name == CATALOG
    && Holds(s, stored, files[a], archived) && Holds(s, stored, files[k], catalogued)
  }

  lemma TookInBoth(a: Stock, b: Stock, listed: set<Digest>, other: set<Digest>, n: int)
    requires TookIn(a, b, listed, n) && other <= a.known
    ensures TookIn(a, b, listed + other, n)
  {
  }

  /** Two writers of one session: each in order, together accounting for what was taken in since `start`. */
  ghost predicate Sharing(client: PbsClient, one: ChunkState, other: ChunkState, start: Stock)
    reads client`store, client`refused, client`uploaded, one.Repr(), other.Repr(), one.ledger
  {
    && one.ledger == other.ledger && one.Repr() !! other.Repr() && !one.marksFirst && !other.marksFirst
    && one.chunker.tuning == other.chunker.tuning
    && Backed(one.ledger, client)
    && one.Valid(client.chunkDigest) && other.Valid(client.chunkDigest)
    && TookIn(start, StockOf(one.ledger, client), one.listed + other.listed, one.chunkCount + other.chunkCount)
  }

  /** Feeding one writer leaves the other in order: the shared set only grows. */
  method FeedOne(client: PbsClient, one: ChunkState, other: ChunkState, data: seq<byte>, ghost start: Stock)
    returns (ok: bool)
    requires Sharing(client, one, other, start)
    modifies client`store, client`refused, client`uploaded, one.Repr(), one.ledger
    ensures Backed(one.ledger, client) && old(client.store).Keys <= client.store.Keys && one.wrid == old(one.wrid)
    ensures ok ==> Sharing(client, one, other, start) && one.written == old(one.written) + data
    ensures one.ledger.failed == old(one.ledger.failed) + (if ok then 0 else 1)
    ensures client.refused == old(client.refused) + (if ok then 0 else 1)
  {
    ghost var before, listed, count := StockOf(one.ledger, client), one.listed + other.listed,
      one.chunkCount + other.chunkCount;
    ok := one.HandleData(data, client);
    if ok {
      var more := one.chunkCount + other.chunkCount - count;
      TookInBoth(before, StockOf(one.ledger, client), one.listed, other.listed, more);
      TookInThen(start, before, StockOf(one.ledger, client), listed, count, one.listed + other.listed, more);
    }
  }

  lemma SharingIsMutual(client: PbsClient, one: ChunkState, other: ChunkState, start: Stock)
    requires Sharing(client, one, other, start)
    ensures Sharing(client, other, one, start)
  {
    assert one.listed + other.listed == other.listed + one.listed;
  }

  /** Both writers between two writes: everything fed so far is with the right writer. */
  ghost predicate Writing(client: PbsClient, archive: ChunkState, catalog: ChunkState, fed: seq<Piece>, start: Stock)
    reads client`store, client`refused, client`uploaded, archive.Repr(), catalog.Repr(), archive.ledger
  {
    && Sharing(client, archive, catalog, start)
    && archive.written == Stream(fed, false) && catalog.written == Stream(fed, true)
  }

  method Feed(client: PbsClient, archive: ChunkState, catalog: ChunkState, piece: Piece, ghost fed: seq<Piece>,
              ghost start: Stock)
    returns (ok: bool)
    requires Writing(client, archive, catalog, fed, start)
    modifies client`store, client`refused, client`uploaded, archive.Repr(), catalog.Repr(), archive.ledger
    ensures Backed(archive.ledger, client) && old(client.store).Keys <= client.store.Keys
    ensures archive.wrid == old(archive.wrid) && catalog.wrid == old(catalog.wrid)
    ensures ok ==> Writing(client, archive, catalog, fed + [piece], start)
    ensures archive.ledger.failed == old(archive.ledger.failed) + (if ok then 0 else 1)
    ensures client.refused == old(client.refused) + (if ok then 0 else 1)
  {
    StreamSnoc(fed, piece, true);
    StreamSnoc(fed, piece, false);
    if piece.toCatalog {
      SharingIsMutual(client, archive, catalog, start);
      ok := FeedOne(client, catalog, archive, piece.data, start);
      if ok {
        SharingIsMutual(client, catalog, archive, start);
      }
    } else {
      ok := FeedOne(client, archive, catalog, piece.data, start);
    }
  }

  /** The stop button is looked at before every write to the archive; that leaves the writers alone. */
  method StopsWrite(client: PbsClient, archive: ChunkState, catalog: ChunkState, piece: Piece, stop: StopButton,
                    ghost fed: seq<Piece>, ghost start: Stock)
    returns (stopped: bool)
    requires Writing(client, archive, catalog, fed, start) && stop.Valid()
    modifies stop
    ensures Writing(client, archive, catalog, fed, start) && Backed(archive.ledger, client) && stop.Valid()
    ensures archive.wrid == old(archive.wrid) && catalog.wrid == old(catalog.wrid)
    ensures client.store == old(client.store) && archive.ledger.failed == old(archive.ledger.failed)
    ensures (piece.toCatalog ==> !stopped) && (old(stop.pressed) && !piece.toCatalog ==> stopped)
    ensures (stopped ==> stop.seen) && client.refused == old(client.refused)
  {
    stopped := false;
    if !piece.toCatalog {
      stopped := stop.Poll();
    }
  }

  /** One write of the walk. */
  method Write(client: PbsClient, archive: ChunkState, catalog: ChunkState, piece: Piece, stop: StopButton,
               ghost fed: seq<Piece>, ghost start: Stock)
    returns (ok: bool)
    requires Writing(client, archive, catalog, fed, start) && stop.Valid()
    modifies client`store, client`refused, client`uploaded, archive.Repr(), catalog.Repr(), archive.ledger, stop
    ensures Backed(archive.ledger, client) && old(client.store).Keys <= client.store.Keys && stop.Valid()
    ensures archive.wrid == old(archive.wrid) && catalog.wrid == old(catalog.wrid)
    ensures ok ==> Writing(client, archive, catalog, fed + [piece], start)
    ensures old(stop.pressed) && !piece.toCatalog ==> !ok
    ensures client.refused >= old(client.refused) && (!ok ==> client.refused > old(client.refused) || stop.seen)
    ensures ok ==> client.refused == old(client.refused)
    ensures archive.ledger.failed >= old(archive.ledger.failed)
            && (ok ==> archive.ledger.failed == old(archive.ledger.failed))
  {
    var stopped := StopsWrite(client, archive, catalog, piece, stop, fed, start);
    if stopped {
      return false;
    }
    ok := Feed(client, archive, catalog, piece, fed, start);
  }

  /** The rest of the walk over the directory, `done` writes into it. */
  method WriteDir(client: PbsClient, archive: ChunkState, catalog: ChunkState, walk: Walk, done: nat, stop: StopButton,
                  ghost start: Stock)
    returns (ok: bool)
    requires done <= |walk.pieces| && Writing(client, archive, catalog, walk.pieces[..done], start) && stop.Valid()
    modifies client`store, client`refused, client`uploaded, archive.Repr(), catalog.Repr(), archive.ledger, stop
    ensures Backed(archive.ledger, client) && old(client.store).Keys <= client.store.Keys && stop.Valid()
    ensures archive.wrid == old(archive.wrid) && catalog.wrid == old(catalog.wrid)
    ensures ok ==> walk.complete && Writing(client, archive, catalog, walk.pieces, start)
    ensures client.refused >= old(client.refused) && (ok ==> client.refused == old(client.refused))
    ensures !ok ==> client.refused > old(client.refused) || stop.seen || !walk.complete
    ensures archive.ledger.failed >= old(archive.ledger.failed)
            && (ok ==> archive.ledger.failed == old(archive.ledger.failed))
    decreases |walk.pieces| - done
  {
    if done == |walk.pieces| {
      AllTaken(walk.pieces);
      return walk.complete;
    }
    OneMoreTaken(walk.pieces, done);
    ok := Write(client, archive, catalog, walk.pieces[done], stop, walk.pieces[..done], start);
    if ok {
      ok := WriteDir(client, archive, catalog, walk, done + 1, stop, start);
    }
  }

  ghost predicate Blank(files: map<nat, IndexFile>, w: nat, name: string) {
    w in files && files[w] == IndexFile(name, [], [], Open)
  }

  ghost function SchemeOf(client: PbsClient, t: Tuning): Scheme {
    Scheme(client.chunkDigest, client.checksum, t)
  }

  /** The digests of a stream's chunks. */
  ghost function DigestsOf(s: Scheme, stream: seq<byte>): set<Digest>
    requires s.tuning.Valid()
  {
    BooksOf(s.digest, Chunks(s.tuning, stream)).listed
  }

  lemma BothHeldNow(s: Scheme, stored: set<Digest>, later: set<Digest>, before: map<nat, IndexFile>,
                    after: map<nat, IndexFile>, a: nat, k: nat, archived: seq<byte>, catalogued: seq<byte>)
    requires s.tuning.Valid() && stored <= later && a != k && before.Keys == {a, k} && Elsewhere(before, after, k)
    requires before[a].name == ARCHIVE && Holds(s, stored, before[a], archived)
    requires after[k].name == CATALOG && Holds(s, later, after[k], catalogued)
    ensures BothHeld(s, later, after, a, k, archived, catalogued)
  {
  }

  lemma TookInMutual(a: Stock, b: Stock, one: set<Digest>, other: set<Digest>, n: int, m: int)
    requires TookIn(a, b, one + other, n + m)
    ensures TookIn(a, b, other + one, m + n)
  {
    assert one + other == other + one;
  }

  /** End one writer's stream, given what its session's other writer lists and counts. */
  method CloseOne(client: PbsClient, one: ChunkState, name: string, ghost others: set<Digest>, ghost count: nat,
                  ghost start: Stock)
    returns (ok: bool)
    requires one.Valid(client.chunkDigest) && Backed(one.ledger, client) && !one.marksFirst
    requires Blank(client.writers, one.wrid, name)
    requires TookIn(start, StockOf(one.ledger, client), one.listed + others, one.chunkCount + count)
             && others <= one.ledger.known
    modifies client`store, client`refused, client`uploaded, client`writers, client`unconfirmed, one, one.ledger
    ensures Backed(one.ledger, client) && old(client.store).Keys <= client.store.Keys
            && old(one.ledger.known) <= one.ledger.known
    ensures one.written == old(one.written) && one.wrid == old(one.wrid)
    ensures Elsewhere(old(client.writers), client.writers, one.wrid) && client.writers[one.wrid].name == name
    ensures ok ==> Holds(SchemeOf(client, one.chunker.tuning), client.store.Keys, client.writers[one.wrid], one.written)
    ensures ok ==> TookIn(start, StockOf(one.ledger, client),
                          DigestsOf(SchemeOf(client, one.chunker.tuning), one.written) + others,
                          |Chunks(one.chunker.tuning, one.written)| + count)
    ensures one.ledger.failed >= old(one.ledger.failed) && (ok ==> one.ledger.failed == old(one.ledger.failed))
    ensures ok ==> one.pos == |one.written|
    ensures client.Troubles() == old(client.Troubles()) + (if ok then 0 else 1)
  {
    ghost var before, listed, n := StockOf(one.ledger, client), one.listed, one.chunkCount;
    ok := one.EOF(client);
    if ok {
      TookInBoth(before, StockOf(one.ledger, client), one.listed, others, one.chunkCount - n);
      TookInThen(start, before, StockOf(one.ledger, client), listed + others, n + count, one.listed + others,
                 one.chunkCount - n);
    }
  }

  /** The archive's index is closed: close the catalog's. */
  method CloseCatalog(client: PbsClient, catalog: ChunkState, ghost a: nat, ghost archived: seq<byte>,
                      ghost start: Stock)
    returns (ok: bool)
    requires catalog.Valid(client.chunkDigest) && Backed(catalog.ledger, client) && !catalog.marksFirst
             && a != catalog.wrid
    requires client.writers.Keys == {a, catalog.wrid} && Blank(client.writers, catalog.wrid, CATALOG)
    requires client.writers[a].name == ARCHIVE
    requires Holds(SchemeOf(client, catalog.chunker.tuning), client.store.Keys, client.writers[a], archived)
    requires TookIn(start, StockOf(catalog.ledger, client),
                    DigestsOf(SchemeOf(client, catalog.chunker.tuning), archived) + catalog.listed,
                    |Chunks(catalog.chunker.tuning, archived)| + catalog.chunkCount)
    modifies client`store, client`refused, client`uploaded, client`writers, client`unconfirmed, catalog, catalog.ledger
    ensures Backed(catalog.ledger, client) && old(client.store).Keys <= client.store.Keys
    ensures catalog.written == old(catalog.written)
    ensures ok ==> BothHeld(SchemeOf(client, catalog.chunker.tuning), client.store.Keys, client.writers, a,
                            old(catalog.wrid), archived, catalog.written)
    ensures ok ==> var s := SchemeOf(client, catalog.chunker.tuning);
                   TookIn(start, StockOf(catalog.ledger, client),
                          DigestsOf(s, archived) + DigestsOf(s, catalog.written),
                          |Chunks(s.tuning, archived)| + |Chunks(s.tuning, catalog.written)|)
    ensures catalog.ledger.failed >= old(catalog.ledger.failed)
            && (ok ==> catalog.ledger.failed == old(catalog.ledger.failed))
    ensures client.Troubles() == old(client.Troubles()) + (if ok then 0 else 1)
  {
    ghost var s, stored, before, k := SchemeOf(client, catalog.chunker.tuning), client.store.Keys, client.writers,
      catalog.wrid;
    ghost var first, count := DigestsOf(s, archived), |Chunks(s.tuning, archived)|;
    TookInMutual(start, StockOf(catalog.ledger, client), first, catalog.listed, count, catalog.chunkCount);
    ok := CloseOne(client, catalog, CATALOG, first, count, start);
    if ok {
      BothHeldNow(s, stored, client.store.Keys, before, client.writers, a, k, archived, catalog.written);
      TookInMutual(start, StockOf(catalog.ledger, client), DigestsOf(s, catalog.written), first,
                   |Chunks(s.tuning, catalog.written)|, count);
    }
  }

  /** The archive's index first: what closing the catalog's index needs. */
  method CloseArchive(client: PbsClient, archive: ChunkState, catalog: ChunkState, ghost start: Stock)
    returns (ok: bool, bytes: nat)
    requires Sharing(client, archive, catalog, start) && archive.wrid != catalog.wrid
    requires client.writers.Keys == {archive.wrid, catalog.wrid}
    requires Blank(client.writers, archive.wrid, ARCHIVE) && Blank(client.writers, catalog.wrid, CATALOG)
    modifies client`store, client`refused, client`uploaded, client`writers, client`unconfirmed, archive, archive.ledger
    ensures Backed(archive.ledger, client) && old(client.store).Keys <= client.store.Keys
    ensures archive.written == old(archive.written) && archive.wrid == old(archive.wrid)
    ensures ok ==> catalog.Valid(client.chunkDigest) && bytes == |archive.written|
    ensures ok ==> client.writers.Keys == {archive.wrid, catalog.wrid} && Blank(client.writers, catalog.wrid, CATALOG)
    ensures ok ==> client.writers[archive.wrid].name == ARCHIVE
    ensures ok ==> Holds(SchemeOf(client, archive.chunker.tuning), client.store.Keys, client.writers[archive.wrid],
                         archive.written)
    ensures ok ==> var s := SchemeOf(client, archive.chunker.tuning);
                   TookIn(start, StockOf(archive.ledger, client), DigestsOf(s, archive.written) + catalog.listed,
                          |Chunks(s.tuning, archive.written)| + catalog.chunkCount)
    ensures archive.ledger.failed >= old(archive.ledger.failed)
            && (ok ==> archive.ledger.failed == old(archive.ledger.failed))
    ensures client.Troubles() == old(client.Troubles()) + (if ok then 0 else 1)
  {
    ok := CloseOne(client, archive, ARCHIVE, catalog.listed, catalog.chunkCount, start);
    bytes := archive.pos;
  }

  /** Close the archive's index, then the catalog's; both succeed or the session is given up. */
  method CloseBoth(client: PbsClient, archive: ChunkState, catalog: ChunkState, ghost start: Stock)
    returns (ok: bool, bytes: nat)
    requires Sharing(client, archive, catalog, start) && archive.wrid != catalog.wrid
    requires client.writers.Keys == {archive.wrid, catalog.wrid}
    requires Blank(client.writers, archive.wrid, ARCHIVE) && Blank(client.writers, catalog.wrid, CATALOG)
    modifies client`store, client`refused, client`uploaded, client`writers, client`unconfirmed, archive, catalog,
             archive.ledger
    ensures Backed(archive.ledger, client) && old(client.store).Keys <= client.store.Keys
    ensures ok ==> BothHeld(SchemeOf(client, archive.chunker.tuning), client.store.Keys, client.writers,
                            old(archive.wrid), old(catalog.wrid), old(archive.written), old(catalog.written))
    ensures ok ==> var s := SchemeOf(client, archive.chunker.tuning);
                   TookIn(start, StockOf(archive.ledger, client),
                          DigestsOf(s, old(archive.written)) + DigestsOf(s, old(catalog.written)),
                          |Chunks(s.tuning, old(archive.written))| + |Chunks(s.tuning, old(catalog.written))|)
    ensures archive.ledger.failed >= old(archive.ledger.failed)
            && (ok ==> archive.ledger.failed == old(archive.ledger.failed))
    ensures client.Troubles() == old(client.Troubles()) + (if ok then 0 else 1)
    ensures ok ==> bytes == |old(archive.written)|
  {
    ghost var a, archived, catalogued := archive.wrid, archive.written, catalog.written;
    ok, bytes := CloseArchive(client, archive, catalog, start);
    assert archive.wrid == a && archive.written == archived && catalog.written == catalogued;
    if ok {
      ok := CloseCatalog(client, catalog, a, archived, start);
    }
  }

  /** How one attempt at a directory ends. A lost session can be retried, other failures are final. */
  datatype Attempt = Done(bytes: nat) | GaveUp(sessionLost: bool)

  /** A request failed: the message may or may not be one that means the session is gone. */
  method RequestFailed() returns (r: Attempt)
    ensures r.GaveUp?
  {
    var lost: bool := *;
    r := GaveUp(lost);
  }

  /** The session as it stands holds what the walk wrote, and nothing but that was taken in. */
  ghost predicate Captured(s: Scheme, stored: set<Digest>, files: map<nat, IndexFile>, pieces: seq<Piece>)
    requires s.tuning.Valid()
  {
    exists a, k {:trigger files[a], files[k]} :: BothHeld(s, stored, files, a, k, Stream(pieces, false),
                                                          Stream(pieces, true))
  }

  /** Taken in: the digests and the chunks of both streams of the walk. */
  ghost predicate Accounted(s: Scheme, start: Stock, end: Stock, pieces: seq<Piece>)
    requires s.tuning.Valid()
  {
    var archived, catalogued := Stream(pieces, false), Stream(pieces, true);
    TookIn(start, end, DigestsOf(s, archived) + DigestsOf(s, catalogued),
           |Chunks(s.tuning, archived)| + |Chunks(s.tuning, catalogued)|)
  }

  method NewWriters(client: PbsClient, table: seq<bv32>, ledger: Ledger, w: nat, v: nat)
    returns (archive: ChunkState, catalog: ChunkState)
    requires Backed(ledger, client) && |table| == 256
    ensures fresh(archive.Repr()) && fresh(catalog.Repr()) && archive.ledger == ledger
    ensures archive.wrid == w && catalog.wrid == v && archive.chunker.tuning == TuningFor(table, AVERAGE)
    ensures Writing(client, archive, catalog, [], StockOf(archive.ledger, client))
  {
    archive := new ChunkState(table, ledger, w, false, client.chunkDigest);
    catalog := new ChunkState(table, ledger, v, false, client.chunkDigest);
    TookInNothing(StockOf(archive.ledger, client), archive.listed + catalog.listed);
  }

  /** Create the two indexes of the session. */
  method CreateIndexes(client: PbsClient) returns (ok: bool, w: nat, v: nat)
    requires client.Valid() && client.writers == map[]
    modifies client`writers, client`nextWriter, client`unconfirmed
    ensures client.Troubles() == old(client.Troubles()) + (if ok then 0 else 1)
    ensures ok ==> w != v && client.writers.Keys == {w, v}
    ensures ok ==> Blank(client.writers, w, ARCHIVE) && Blank(client.writers, v, CATALOG)
  {
    v := 0;
    ok, w := client.CreateDynamicIndex(ARCHIVE);
    if ok {
      ok, v := client.CreateDynamicIndex(CATALOG);
    }
  }

  /** The writer has taken in nothing exactly if it has ended no chunk and holds no byte of the next one. */
  lemma NothingTakenIn(writer: ChunkState, digest: Digester)
    requires writer.Valid(digest)
    ensures writer.written == [] <==> writer.pos == 0 && writer.currentChunk == []
  {
    var t, cutter := writer.chunker.tuning, writer.cutter;
    IncrementalIsOneShot(t, writer.written);
    BooksOfStream(digest, t, writer.written);
    BooksAreTheIndex(digest, cutter.done);
    ChunksReassemble(t, writer.written);
    if writer.currentChunk != [] {
      FlattenAppend(cutter.done, [cutter.cur]);
    }
  }

  /** An empty archive is refused, a cancel is obeyed; then both indexes are closed. */
  method CloseUnlessStopped(client: PbsClient, archive: ChunkState, catalog: ChunkState, stop: StopButton,
                            ghost pieces: seq<Piece>, ghost start: Stock)
    returns (r: Attempt)
    requires Writing(client, archive, catalog, pieces, start) && archive.wrid != catalog.wrid && stop.Valid()
    requires client.writers.Keys == {archive.wrid, catalog.wrid}
    requires Blank(client.writers, archive.wrid, ARCHIVE) && Blank(client.writers, catalog.wrid, CATALOG)
    modifies client`store, client`refused, client`uploaded, client`writers, client`unconfirmed, archive, catalog,
             archive.ledger, stop
    ensures Backed(archive.ledger, client) && old(client.store).Keys <= client.store.Keys && stop.Valid()
    ensures r.Done? ==> r.bytes == |Stream(pieces, false)|
    ensures old(stop.pressed) ==> r.GaveUp? && client.writers == old(client.writers)
    ensures r.Done? <==> client.Troubles() == old(client.Troubles()) && !stop.seen && Stream(pieces, false) != []
    ensures client.Troubles() >= old(client.Troubles())
    ensures r.Done? ==> Captured(SchemeOf(client, archive.chunker.tuning), client.store.Keys, client.writers, pieces)
    ensures r.Done? ==> Accounted(SchemeOf(client, archive.chunker.tuning), start, StockOf(archive.ledger, client),
                                  pieces)
    ensures archive.ledger.failed >= old(archive.ledger.failed)
            && (r.Done? ==> archive.ledger.failed == old(archive.ledger.failed))
  {
    NothingTakenIn(archive, client.chunkDigest);
    if archive.pos == 0 && |archive.currentChunk| == 0 {
      return GaveUp(false);
    }
    var stopped := stop.Poll();
    if stopped {
      return GaveUp(false);
    }
    var ok, bytes := CloseBoth(client, archive, catalog, start);
    if !ok {
      r := RequestFailed();
      return;
    }
    return Done(bytes);
  }

  /** The files the walk reports join those of the session; that leaves the writers alone. */
  method TakeLists(client: PbsClient, archive: ChunkState, catalog: ChunkState, walk: Walk, ghost start: Stock)
    requires Writing(client, archive, catalog, walk.pieces, start)
    modifies client`readErrors, client`excludedFiles
    ensures Writing(client, archive, catalog, walk.pieces, start)
    ensures client.readErrors == old(client.readErrors) + walk.readErrors
    ensures client.excludedFiles == old(client.excludedFiles) + walk.excluded
  {
    client.readErrors := client.readErrors + walk.readErrors;
    client.excludedFiles := client.excludedFiles + walk.excluded;
  }

  /** After the walk its lists of files are taken over, whatever becomes of the session. */
  method Seal(client: PbsClient, archive: ChunkState, catalog: ChunkState, walk: Walk, stop: StopButton,
              ghost start: Stock)
    returns (r: Attempt)
    requires Writing(client, archive, catalog, walk.pieces, start) && archive.wrid != catalog.wrid && stop.Valid()
    requires client.writers.Keys == {archive.wrid, catalog.wrid}
    requires Blank(client.writers, archive.wrid, ARCHIVE) && Blank(client.writers, catalog.wrid, CATALOG)
    modifies client`store, client`refused, client`uploaded, client`writers, client`unconfirmed, client`readErrors,
             client`excludedFiles, archive, catalog, archive.ledger, stop
    ensures Backed(archive.ledger, client) && old(client.store).Keys <= client.store.Keys && stop.Valid()
    ensures r.Done? ==> r.bytes == |Stream(walk.pieces, false)|
    ensures r.Done? <==> client.Troubles() == old(client.Troubles()) && !stop.seen && Stream(walk.pieces, false) != []
    ensures client.Troubles() >= old(client.Troubles())
    ensures client.readErrors == old(client.readErrors) + walk.readErrors
    ensures client.excludedFiles == old(client.excludedFiles) + walk.excluded
    ensures r.Done? ==> Captured(SchemeOf(client, archive.chunker.tuning), client.store.Keys, client.writers,
                                 walk.pieces)
    ensures r.Done? ==> Accounted(SchemeOf(client, archive.chunker.tuning), start, StockOf(archive.ledger, client),
                                  walk.pieces)
    ensures archive.ledger.failed >= old(archive.ledger.failed)
            && (r.Done? ==> archive.ledger.failed == old(archive.ledger.failed))
  {
    TakeLists(client, archive, catalog, walk, start);
    r := CloseUnlessStopped(client, archive, catalog, stop, walk.pieces, start);
  }

  /** A walk's lists of files join those before, or are lost with a walk that fails, which is never a `done` one. */
  ghost predicate Reported(walk: Walk, errors: seq<string>, excluded: seq<string>, newErrors: seq<string>,
                           newExcluded: seq<string>, done: bool)
  {
    || (newErrors == errors + walk.readErrors && newExcluded == excluded + walk.excluded)
    || (!done && newErrors == errors && newExcluded == excluded)
  }

  /** Nothing is written to the archive. */
  ghost predicate ReadsNothing(pieces: seq<Piece>) {
    forall p :: p in pieces && !p.toCatalog ==> p.data == []
  }

  lemma {:induction false} StreamEmpty(pieces: seq<Piece>)
    ensures Stream(pieces, false) == [] <==> ReadsNothing(pieces)
  {
    if pieces != [] {
      var n := |pieces| - 1;
      FrontAndLast(pieces);
      StreamEmpty(pieces[..n]);
      assert forall p :: p in pieces <==> p in pieces[..n] || p == pieces[n];
    }
  }

  /** An attempt with a session gets through: all requests were confirmed, no cancel seen, and the walk read it all. */
  ghost predicate Deserved(walk: Walk, stopped: bool, troubles: int) {
    troubles == 0 && !stopped && walk.complete && !ReadsNothing(walk.pieces)
  }

  /** Walk, then close. */
  method Capture(client: PbsClient, archive: ChunkState, catalog: ChunkState, walk: Walk, stop: StopButton,
                 ghost start: Stock)
    returns (r: Attempt)
    requires Writing(client, archive, catalog, [], start) && archive.wrid != catalog.wrid && stop.Valid()
    requires client.writers.Keys == {archive.wrid, catalog.wrid}
    requires Blank(client.writers, archive.wrid, ARCHIVE) && Blank(client.writers, catalog.wrid, CATALOG)
    modifies client`store, client`refused, client`uploaded, client`writers, client`unconfirmed, client`readErrors,
             client`excludedFiles
    modifies archive.Repr(), catalog.Repr(), archive.ledger, stop
    ensures Backed(archive.ledger, client) && old(client.store).Keys <= client.store.Keys && stop.Valid()
    ensures r.Done? ==> r.bytes == |Stream(walk.pieces, false)|
    ensures r.Done? <==> Deserved(walk, stop.seen, client.Troubles() - old(client.Troubles()))
    ensures client.Troubles() >= old(client.Troubles())
    ensures Reported(walk, old(client.readErrors), old(client.excludedFiles), client.readErrors, client.excludedFiles,
                     r.Done?)
    ensures r.Done? ==> Captured(SchemeOf(client, archive.chunker.tuning), client.store.Keys, client.writers,
                                 walk.pieces)
    ensures r.Done? ==> Accounted(SchemeOf(client, archive.chunker.tuning), start, StockOf(archive.ledger, client),
                                  walk.pieces)
    ensures archive.ledger.failed >= old(archive.ledger.failed)
            && (r.Done? ==> archive.ledger.failed == old(archive.ledger.failed))
  {
    ghost var errors, excluded := client.readErrors, client.excludedFiles;
    StreamEmpty(walk.pieces);
    var ok := WriteDir(client, archive, catalog, walk, 0, stop, start);
    assert client.readErrors == errors && client.excludedFiles == excluded;
    if !ok {
      r := RequestFailed();
      return;
    }
    r := Seal(client, archive, catalog, walk, stop, start);
  }

  /** From the freshly opened session to both indexes closed. */
  method Upload(client: PbsClient, table: seq<bv32>, ledger: Ledger, walk: Walk, stop: StopButton) returns (r: Attempt)
    requires client.Valid() && client.writers == map[] && Backed(ledger, client) && stop.Valid() && |table| == 256
    modifies client`store, client`refused, client`uploaded, client`writers, client`nextWriter, client`unconfirmed,
             client`readErrors, client`excludedFiles, ledger, stop
    ensures Backed(ledger, client) && old(client.store).Keys <= client.store.Keys && stop.Valid()
    ensures r.Done? ==> r.bytes == |Stream(walk.pieces, false)|
    ensures r.Done? <==> Deserved(walk, stop.seen, client.Troubles() - old(client.Troubles()))
    ensures client.Troubles() >= old(client.Troubles())
    ensures Reported(walk, old(client.readErrors), old(client.excludedFiles), client.readErrors, client.excludedFiles,
                     r.Done?)
    ensures r.Done? ==> Captured(SchemeOf(client, TuningFor(table, AVERAGE)), client.store.Keys, client.writers,
                                 walk.pieces)
    ensures r.Done? ==> Accounted(SchemeOf(client, TuningFor(table, AVERAGE)), old(StockOf(ledger, client)),
                                  StockOf(ledger, client), walk.pieces)
    ensures ledger.failed >= old(ledger.failed) && (r.Done? ==> ledger.failed == old(ledger.failed))
  {
    var ok, w, v := CreateIndexes(client);
    if !ok {
      r := RequestFailed();
      return;
    }
    var archive, catalog := NewWriters(client, table, ledger, w, v);
    r := Capture(client, archive, catalog, walk, stop, StockOf(ledger, client));
  }

  /**
   The run's counters, handed from one attempt to the next; and how many snapshots of directories were refused or not
   released.
   */
  class Totals {
    var created: nat
    var reused: nat
    var failed: nat
    ghost var refusals: nat

    constructor ()
      ensures created == reused == failed == refusals == 0
    {
      created, reused, failed, refusals := 0, 0, 0, 0;
    }

    method TakeOver(ledger: Ledger)
      modifies this`created, this`reused, this`failed
      ensures created == ledger.created && reused == ledger.reused && failed == ledger.failed
    {
      created, reused, failed := ledger.created, ledger.reused, ledger.failed;
    }
  }

  /** The session can be finished: manifest uploaded, nothing cancelled, and both indexes hold what was read. */
  ghost predicate Ready(client: PbsClient, t: Tuning, source: string, walk: Walk, stop: StopButton)
    requires t.Valid()
    reads client, stop
  {
    && client.live && client.manifested && client.source == source && !stop.seen
    && client.readErrors == walk.readErrors && client.excludedFiles == walk.excluded
    && Captured(SchemeOf(client, t), client.store.Keys, client.writers, walk.pieces)
  }

  /**
   One directory taken whole: the digests made known are those of both streams that were not known before, and each of
   the chunks either made its digest known or was reused.
   */
  ghost predicate Counted(s: Scheme, previous: set<Digest>, pieces: seq<Piece>, made: set<Digest>, reused: int)
    requires s.tuning.Valid()
  {
    var archived, catalogued := Stream(pieces, false), Stream(pieces, true);
    && made == DigestsOf(s, archived) + DigestsOf(s, catalogued) - previous
    && |made| + reused == |Chunks(s.tuning, archived)| + |Chunks(s.tuning, catalogued)|
  }

  lemma AccountedIsCounted(s: Scheme, start: Stock, end: Stock, pieces: seq<Piece>, reused: int)
    requires s.tuning.Valid() && Accounted(s, start, end, pieces)
    requires |end.known| - |start.known| + reused == end.counted - start.counted
    ensures Counted(s, start.known, pieces, end.known - start.known, reused)
  {
    GrownBy(start.known, end.known);
  }

  lemma GrownBy(before: set<Digest>, after: set<Digest>)
    requires before <= after
    ensures |after - before| == |after| - |before|
  {
    assert after == before + (after - before);
  }

  /**
   The counters grew by one new chunk for each digest in `made`, none of them known before, and by `reused`; as many
   chunks were uploaded.
   */
  twostate predicate Grew(totals: Totals, client: PbsClient, previous: set<Digest>, made: set<Digest>, reused: nat)
    reads totals, client`store, client`uploaded
  {
    && client.uploaded == old(client.uploaded) + |made|
    && previous !! made && previous + made <= client.store.Keys
    && totals.created == old(totals.created) + |made| && totals.reused == old(totals.reused) + reused
  }

  /**
   Upload with the run's counters: what the directory before left them at is where this one starts. `made` are the
   digests it makes known, `reused` the chunks it does not upload.
   */
  method UploadCounted(client: PbsClient, table: seq<bv32>, totals: Totals, previous: set<Digest>, walk: Walk,
                       stop: StopButton)
    returns (r: Attempt, ghost made: set<Digest>, ghost reused: nat)
    requires |table| == 256 && client.Valid() && client.writers == map[] && stop.Valid()
    requires Honest(client.chunkDigest, client.store) && previous <= client.store.Keys
    modifies client`store, client`refused, client`uploaded, client`writers, client`nextWriter, client`unconfirmed,
             client`readErrors, client`excludedFiles, totals`created, totals`reused, totals`failed, stop
    ensures Honest(client.chunkDigest, client.store) && old(client.store).Keys <= client.store.Keys && stop.Valid()
    ensures r.Done? ==> r.bytes == |Stream(walk.pieces, false)|
    ensures r.Done? <==> Deserved(walk, stop.seen, client.Troubles() - old(client.Troubles()))
    ensures client.Troubles() >= old(client.Troubles())
    ensures Reported(walk, old(client.readErrors), old(client.excludedFiles), client.readErrors, client.excludedFiles,
                     r.Done?)
    ensures r.Done? ==> Captured(SchemeOf(client, TuningFor(table, AVERAGE)), client.store.Keys, client.writers,
                                 walk.pieces)
    ensures Grew(totals, client, previous, made, reused)
    ensures r.Done? ==> Counted(SchemeOf(client, TuningFor(table, AVERAGE)), previous, walk.pieces, made,
                                reused)
    ensures client.refused - totals.failed == old(client.refused - totals.failed)
            && (r.Done? ==> totals.failed == old(totals.failed))
  {
    var ledger := new Ledger(previous, totals.created, totals.reused, totals.failed, client.refused, client.uploaded);
    assert Backed(ledger, client);
    ghost var s, start := SchemeOf(client, TuningFor(table, AVERAGE)), StockOf(ledger, client);
    r := Upload(client, table, ledger, walk, stop);
    made, reused := ledger.known - previous, ledger.reused - totals.reused;
    GrownBy(previous, ledger.known);
    if r.Done? {
      AccountedIsCounted(s, start, StockOf(ledger, client), walk.pieces, reused);
    }
    totals.TakeOver(ledger);
  }

  /** The last request of an attempt that went well so far. */
  method SendManifest(client: PbsClient, t: Tuning, walk: Walk, stop: StopButton, done: Attempt) returns (r: Attempt)
    requires t.Valid() && client.live && !stop.seen && done.Done?
    requires client.readErrors == walk.readErrors && client.excludedFiles == walk.excluded
    requires Captured(SchemeOf(client, t), client.store.Keys, client.writers, walk.pieces)
    modifies client`manifested, client`unconfirmed
    ensures r.Done? ==> r == done && Ready(client, t, client.source, walk, stop)
    ensures client.unconfirmed == old(client.unconfirmed) + (if r.Done? then 0 else 1)
  {
    var ok := client.UploadManifest();
    if ok {
      r := done;
    } else {
      r := RequestFailed();
    }
  }

  /** Everything an attempt uploads, the manifest last. */
  method UploadAll(client: PbsClient, table: seq<bv32>, totals: Totals, previous: set<Digest>, walk: Walk,
                   stop: StopButton)
    returns (r: Attempt, ghost made: set<Digest>, ghost reused: nat)
    requires |table| == 256 && client.Valid() && client.writers == map[] && stop.Valid()
    requires Honest(client.chunkDigest, client.store) && previous <= client.store.Keys
    requires client.live && client.readErrors == [] && client.excludedFiles == []
    modifies client`store, client`refused, client`uploaded, client`writers, client`nextWriter, client`unconfirmed,
             client`readErrors, client`excludedFiles, client`manifested, totals`created, totals`reused,
             totals`failed, stop
    ensures Honest(client.chunkDigest, client.store) && old(client.store).Keys <= client.store.Keys && stop.Valid()
    ensures r.Done? ==> Ready(client, TuningFor(table, AVERAGE), client.source, walk, stop)
    ensures r.Done? ==> r.bytes == |Stream(walk.pieces, false)|
    ensures r.Done? <==> Deserved(walk, stop.seen, client.Troubles() - old(client.Troubles()))
    ensures client.Troubles() >= old(client.Troubles())
    ensures Reported(walk, [], [], client.readErrors, client.excludedFiles, r.Done?)
    ensures Grew(totals, client, previous, made, reused)
    ensures r.Done? ==> Counted(SchemeOf(client, TuningFor(table, AVERAGE)), previous, walk.pieces, made,
                                reused)
    ensures client.refused - totals.failed == old(client.refused - totals.failed)
            && (r.Done? ==> totals.failed == old(totals.failed))
  {
    r, made, reused := UploadCounted(client, table, totals, previous, walk, stop);
    if r.Done? {
      NothingBefore(walk.readErrors);
      NothingBefore(walk.excluded);
      r := SendManifest(client, TuningFor(table, AVERAGE), walk, stop, r);
    }
  }

  /**
   One attempt at one directory: a session of its own, left open for the caller to finish or to close. However it
   ends, each digest it made known was counted once as a new chunk.
   */
  method BackupReal(client: PbsClient, table: seq<bv32>, totals: Totals, source: string, previous: set<Digest>,
                    walk: Walk, stop: StopButton)
    returns (r: Attempt, ghost made: set<Digest>, ghost reused: nat)
    requires |table| == 256 && stop.Valid() && Honest(client.chunkDigest, client.store) && previous <= client.store.Keys
    modifies client, totals`created, totals`reused, totals`failed, stop
    ensures Honest(client.chunkDigest, client.store) && old(client.store).Keys <= client.store.Keys && stop.Valid()
    ensures client.live && client.abandoned == old(client.abandoned) + (if old(client.live) then 1 else 0)
    ensures client.commits == old(client.commits) && client.sessions == old(client.sessions) + 1
    ensures r.Done? ==>
              Ready(client, TuningFor(table, AVERAGE), source, walk, stop)
              && r.bytes == |Stream(walk.pieces, false)|
    ensures r.Done? <==> Deserved(walk, stop.seen, client.Troubles() - old(client.Troubles()))
    ensures client.Troubles() >= old(client.Troubles())
    ensures Reported(walk, [], [], client.readErrors, client.excludedFiles, r.Done?)
    ensures Grew(totals, client, previous, made, reused)
    ensures r.Done? ==> Counted(SchemeOf(client, TuningFor(table, AVERAGE)), previous, walk.pieces, made,
                                reused)
    ensures client.refused - totals.failed == old(client.refused - totals.failed)
            && (r.Done? ==> totals.failed == old(totals.failed))
  {
    client.Connect(source);
    r, made, reused := UploadAll(client, table, totals, previous, walk, stop);
  }
}
