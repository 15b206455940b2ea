/**
 One stream through one writer: the command-line client's backup of standard input (backup_stream in
 directorybackup/main.go), and why its writer and the GUI's produce the same snapshot.
 */
module StreamBackups {
  import opened Bytes
  import opened Chunkers
  import opened Chunking
  import opened DynamicIndexes
  import opened PbsClients
  import opened ChunkWriters
  import opened Snapshots

  /** The writer is between two buffers, having been fed `fed`; everything it counted is accounted for. */
  ghost predicate Fed(client: PbsClient, writer: ChunkState, fed: seq<byte>, start: Stock)
    reads client`store, client`refused, client`uploaded, writer.Repr(), writer.ledger
  {
    && writer.Valid(client.chunkDigest) && writer.written == fed && Backed(writer.ledger, client)
    && TookIn(start, StockOf(writer.ledger, client), writer.listed, writer.chunkCount)
  }

  method FeedBuffer(client: PbsClient, writer: ChunkState, buffer: seq<byte>, ghost fed: seq<byte>, ghost start: Stock)
    returns (ok: bool)
    requires Fed(client, writer, fed, start)
    modifies client`store, client`refused, client`uploaded, writer.Repr(), writer.ledger
    ensures ok ==> Fed(client, writer, fed + buffer, start)
    ensures writer.wrid == old(writer.wrid)
    ensures client.refused == old(client.refused) + (if ok then 0 else 1)
  {
    ghost var before, listed, n := StockOf(writer.ledger, client), writer.listed, writer.chunkCount;
    ok := writer.HandleData(buffer, client);
    if ok {
      TookInThen(start, before, StockOf(writer.ledger, client), listed, n, writer.listed, writer.chunkCount - n);
    }
  }

  /** The read loop: a read may bring data together with the end of the stream, or with an error. */
  method ReadLoop(client: PbsClient, writer: ChunkState, buffers: seq<seq<byte>>, readFailed: bool, ghost start: Stock)
    returns (ok: bool)
    requires Fed(client, writer, [], start)
    modifies client`store, client`refused, client`uploaded, writer.Repr(), writer.ledger
    ensures ok ==> !readFailed && Fed(client, writer, Flatten(buffers), start)
    ensures writer.wrid == old(writer.wrid)
    ensures ok <==> client.refused == old(client.refused) && !readFailed
    ensures client.refused >= old(client.refused)
  {
    var i := 0;
    ghost var fed := [];
    while i < |buffers|
      invariant i <= |buffers| && fed == Flatten(buffers[..i])
      invariant Fed(client, writer, fed, start) && writer.wrid == old(writer.wrid)
      invariant client.refused == old(client.refused)
    {
      ok := FeedBuffer(client, writer, buffers[i], fed, start);
      if !ok {
        return;
      }
      FlattenNext(buffers, i);
      fed := fed + buffers[i];
      i := i + 1;
    }
    assert buffers[..i] == buffers;
    ok := !readFailed;
  }

  /** A stream from its first buffer to the closed index. */
  method WriteStream(client: PbsClient, writer: ChunkState, name: string, buffers: seq<seq<byte>>, readFailed: bool,
                     ghost start: Stock)
    returns (ok: bool)
    requires Fed(client, writer, [], start) && Blank(client.writers, writer.wrid, name)
    modifies client`store, client`refused, client`uploaded, client`writers, client`unconfirmed, writer.Repr(),
             writer.ledger
    ensures ok ==> !readFailed && Backed(writer.ledger, client)
    ensures ok ==>
              Elsewhere(old(client.writers), client.writers, old(writer.wrid))
              && client.writers[old(writer.wrid)].name == name
    ensures ok ==> Holds(SchemeOf(client, writer.chunker.tuning), client.store.Keys, client.writers[old(writer.wrid)],
                         Flatten(buffers))
    ensures ok ==> TookIn(start, StockOf(writer.ledger, client),
                          DigestsOf(SchemeOf(client, writer.chunker.tuning), Flatten(buffers)),
                          |Chunks(writer.chunker.tuning, Flatten(buffers))|)
    ensures ok <==> client.Troubles() == old(client.Troubles()) && !readFailed
    ensures client.Troubles() >= old(client.Troubles())
  {
    ok := ReadLoop(client, writer, buffers, readFailed, start);
    if ok {
      ok := CloseStream(client, writer, name, start);
    }
  }

  method CloseStream(client: PbsClient, writer: ChunkState, name: string, ghost start: Stock) returns (ok: bool)
    requires Fed(client, writer, writer.written, start) && Blank(client.writers, writer.wrid, name)
    modifies client`store, client`refused, client`uploaded, client`writers, client`unconfirmed, writer, writer.ledger
    ensures ok ==> Backed(writer.ledger, client)
    ensures Elsewhere(old(client.writers), client.writers, old(writer.wrid))
            && client.writers[old(writer.wrid)].name == name
    ensures ok ==> Holds(SchemeOf(client, writer.chunker.tuning), client.store.Keys, client.writers[old(writer.wrid)],
                         old(writer.written))
    ensures ok ==> TookIn(start, StockOf(writer.ledger, client),
                          DigestsOf(SchemeOf(client, writer.chunker.tuning), old(writer.written)),
                          |Chunks(writer.chunker.tuning, old(writer.written))|)
    ensures client.Troubles() == old(client.Troubles()) + (if ok then 0 else 1)
  {
    ghost var before, listed, n := StockOf(writer.ledger, client), writer.listed, writer.chunkCount;
    ok := writer.EOF(client);
    if ok {
      TookInThen(start, before, StockOf(writer.ledger, client), listed, n, writer.listed, writer.chunkCount - n);
    }
  }

  /** The single index of a session holds this stream. */
  ghost predicate StreamHeld(s: Scheme, stored: set<Digest>, files: map<nat, IndexFile>, name: string,
                             stream: seq<byte>)
    requires s.tuning.Valid()
  {
    exists w :: w in files && files.Keys == {w} && files[w].name == name && Holds(s, stored, files[w], stream)
  }

  /** What a session sent of a stream: its single index holds it, and `made` are the chunks that were missing. */
  ghost predicate Sent(s: Scheme, stored: set<Digest>, files: map<nat, IndexFile>, name: string, stream: seq<byte>,
                       previous: set<Digest>, made: set<Digest>)
    requires s.tuning.Valid()
  {
    && StreamHeld(s, stored, files, name, stream)
    && forall d :: d in made <==> d in DigestsOf(s, stream) && d !in previous
  }

  lemma SentNow(s: Scheme, stored: set<Digest>, files: map<nat, IndexFile>, w: nat, name: string, stream: seq<byte>,
                previous: set<Digest>, known: set<Digest>)
    requires s.tuning.Valid() && files.Keys == {w} && files[w].name == name && Holds(s, stored, files[w], stream)
    requires known == previous + DigestsOf(s, stream)
    ensures Sent(s, stored, files, name, stream, previous, known - previous)
    ensures |known - previous| == |known| - |previous|
  {
    GrownBy(previous, known);
  }

  /** The writer of a stream, which knows the chunks of the previous index. */
  method NewWriter(client: PbsClient, table: seq<bv32>, w: nat, previous: set<Digest>) returns (writer: ChunkState)
    requires |table| == 256 && Honest(client.chunkDigest, client.store) && previous <= client.store.Keys
    ensures fresh(writer.Repr()) && fresh(writer.ledger) && writer.wrid == w && writer.ledger.known == previous
    ensures writer.ledger.initial == previous && writer.ledger.uploadedBefore == client.uploaded
    ensures writer.chunker.tuning == TuningFor(table, AVERAGE)
    ensures Fed(client, writer, [], StockOf(writer.ledger, client))
  {
    var ledger := new Ledger(previous, 0, 0, 0, client.refused, client.uploaded);
    writer := new ChunkState(table, ledger, w, true, client.chunkDigest);
    TookInNothing(StockOf(ledger, client), writer.listed);
  }

  /** From the new session to the closed index, deduplicating against the previous one. */
  method SendStream(client: PbsClient, table: seq<bv32>, name: string, previous: set<Digest>, buffers: seq<seq<byte>>,
                    readFailed: bool)
    returns (ok: bool, ghost made: set<Digest>)
    requires |table| == 256 && client.Valid() && client.writers == map[]
    requires Honest(client.chunkDigest, client.store) && previous <= client.store.Keys
    modifies client`store, client`refused, client`uploaded, client`writers, client`nextWriter, client`unconfirmed
    ensures ok <==> client.Troubles() == old(client.Troubles()) && !readFailed
    ensures ok ==> Sent(SchemeOf(client, TuningFor(table, AVERAGE)), client.store.Keys, client.writers, name,
                        Flatten(buffers), previous, made)
    ensures ok ==> client.uploaded == old(client.uploaded) + |made|
  {
    made := {};
    var w;
    ok, w := client.CreateDynamicIndex(name);
    if !ok {
      return;
    }
    var writer := NewWriter(client, table, w, previous);
    ok := WriteStream(client, writer, name, buffers, readFailed, StockOf(writer.ledger, client));
    if ok {
      made := writer.ledger.known - previous;
      SentNow(SchemeOf(client, TuningFor(table, AVERAGE)), client.store.Keys, client.writers, w, name,
              Flatten(buffers), previous, writer.ledger.known);
    }
  }

  /** Manifest, then finish: whatever gets committed has the manifest and is the session as it stands. */
  method EndSession(client: PbsClient) returns (ok: bool, ghost done: seq<Commit>)
    modifies client`manifested, client`unconfirmed, client`live, client`commits
    ensures client.commits == old(client.commits) + done && (ok ==> done != [] && !client.live)
    ensures done == [] || done == [Commit(client.source, client.writers, true, false)]
    ensures client.unconfirmed == old(client.unconfirmed) + (if ok then 0 else 1)
  {
    ghost var before := client.commits;
    done := [];
    ok := client.UploadManifest();
    if ok {
      ok := client.Finish(false);
      done := client.commits[|before|..];
    }
  }

  /** What a backup of a stream commits: a snapshot with its manifest that holds the stream. */
  ghost predicate Committed(s: Scheme, stored: set<Digest>, c: Commit, name: string, stream: seq<byte>,
                            previous: set<Digest>, made: set<Digest>)
    requires s.tuning.Valid()
  {
    c.manifest && c.source == name && Sent(s, stored, c.files, name, stream, previous, made)
  }

  /**
   Backing up standard input: whatever gets committed, in a failed run too, has its manifest and holds exactly the
   stream. It fails only for a read error or a request that was not confirmed, and uploads exactly `made`, the chunks
   missing.
   */
  method BackupStream(client: PbsClient, table: seq<bv32>, name: string, previous: set<Digest>,
                      buffers: seq<seq<byte>>, readFailed: bool)
    returns (ok: bool, ghost done: seq<Commit>, ghost made: set<Digest>)
    requires |table| == 256 && Honest(client.chunkDigest, client.store) && previous <= client.store.Keys
    modifies client
    ensures client.commits == old(client.commits) + done && |done| <= 1
    ensures ok <==> client.Troubles() == old(client.Troubles()) && !readFailed
    ensures ok ==> done != [] && !client.live
    ensures done != [] ==>
              && !readFailed
              && Committed(SchemeOf(client, TuningFor(table, AVERAGE)), client.store.Keys, done[0], name,
                           Flatten(buffers), previous, made)
              && client.uploaded == old(client.uploaded) + |made|
  {
    client.Connect(name);
    done := [];
    ok, made := SendStream(client, table, name, previous, buffers, readFailed);
    if ok {
      ok, done := EndSession(client);
    }
  }

  /** Taking in the same digests from the same known ones uploads the same chunks. */
  lemma SameUploads(a: Stock, b: Stock, c: Stock, d: Stock, listed: set<Digest>, n: int)
    requires TookIn(a, b, listed, n) && TookIn(c, d, listed, n)
    requires a.known == c.known && a.known <= a.stored && c.known <= c.stored
    ensures b.known == d.known
    ensures b.stored == a.stored + (b.known - a.known) && d.stored == c.stored + (b.known - a.known)
  {
  }

  /**
   The two clients agree. Give the GUI's writer and the command-line client's writer the same stream, cut into
   buffers however they like, and the same known chunks: if neither fails, their indexes, their known chunks, the
   chunks they upload and their counts of new and reused chunks are the same, and every chunk was counted once.
   */
  method WritersAgree(gui: ChunkState, cli: ChunkState, client: PbsClient, other: PbsClient, name: string,
                      buffers: seq<seq<byte>>, otherBuffers: seq<seq<byte>>)
    returns (ok: bool)
    requires !gui.marksFirst && cli.marksFirst && client != other && gui.Repr() !! cli.Repr()
             && gui.ledger != cli.ledger
    requires client.chunkDigest == other.chunkDigest && client.checksum == other.checksum
    requires gui.chunker.tuning == cli.chunker.tuning && Flatten(buffers) == Flatten(otherBuffers)
    requires Fed(client, gui, [], StockOf(gui.ledger, client)) && Blank(client.writers, gui.wrid, name)
    requires Fed(other, cli, [], StockOf(cli.ledger, other)) && Blank(other.writers, cli.wrid, name)
    requires gui.ledger.known == gui.ledger.initial == cli.ledger.known == cli.ledger.initial
    modifies client`store, client`refused, client`uploaded, client`writers, client`unconfirmed, gui.Repr(), gui.ledger
    modifies other`store, other`refused, other`uploaded, other`writers, other`unconfirmed, cli.Repr(), cli.ledger
    ensures ok ==> old(gui.wrid) in client.writers && old(cli.wrid) in other.writers
    ensures ok ==> client.writers[old(gui.wrid)] == other.writers[old(cli.wrid)]
    ensures ok ==> gui.ledger.known == cli.ledger.known
    ensures ok ==> client.store.Keys == old(client.store).Keys + (gui.ledger.known - gui.ledger.initial)
    ensures ok ==> other.store.Keys == old(other.store).Keys + (gui.ledger.known - gui.ledger.initial)
    ensures ok ==> gui.ledger.created - old(gui.ledger.created) == cli.ledger.created - old(cli.ledger.created)
    ensures ok ==> gui.ledger.reused - old(gui.ledger.reused) == cli.ledger.reused - old(cli.ledger.reused)
    ensures ok ==> client.uploaded - old(client.uploaded) == other.uploaded - old(other.uploaded)
    ensures ok ==> gui.ledger.created + gui.ledger.reused ==
                   old(gui.ledger.created + gui.ledger.reused) + |Chunks(gui.chunker.tuning, Flatten(buffers))|
  {
    ghost var s, stream := SchemeOf(client, gui.chunker.tuning), Flatten(buffers);
    ghost var a, c := StockOf(gui.ledger, client), StockOf(cli.ledger, other);
    ok := WriteStream(client, gui, name, buffers, false, a);
    if ok {
      ghost var b := StockOf(gui.ledger, client);
      ok := WriteStream(other, cli, name, otherBuffers, false, c);
      if ok {
        ghost var d := StockOf(cli.ledger, other);
        SameUploads(a, b, c, d, DigestsOf(s, stream), |Chunks(s.tuning, stream)|);
        assert b == StockOf(gui.ledger, client);
      }
    }
  }
}
