/**
 What a dynamic index says about a list of chunks, and what it takes to read the stream back:
 digests, start offsets, the checksum's input and the accounting of new and reused chunks.
 */
module DynamicIndexes {
  import opened Bytes
  import opened Lists

  type Digest = seq<byte>
  type Digester = seq<byte> -> Digest

  /** No two contents share a digest: what deduplicating by SHA-256 relies on. */
  ghost predicate CollisionFree(digest: Digester) {
    forall x, y :: digest(x) == digest(y) ==> x == y
  }

  /** What a writer keeps for its index. */
  datatype Books = Books(assignments: seq<Digest>, offsets: seq<nat>, pos: nat, count: nat, checksumInput: seq<byte>,
                         listed: set<Digest>) {

    /** The books after one more chunk. */
    function Enter(digest: Digest, length: nat): Books {
      Books(assignments + [digest], offsets + [pos], pos + length, count + 1,
            checksumInput + LittleEndian(pos + length, 8) + digest, listed + {digest})
    }
  }

  const BlankBooks := Books([], [], 0, 0, [], {})

  /** The books after these chunks, entered one by one. */
  function BooksOf(digest: Digester, chunks: seq<seq<byte>>): Books {
    if chunks == [] then BlankBooks
    else
      var last := chunks[|chunks| - 1];
      BooksOf(digest, chunks[..|chunks| - 1]).Enter(digest(last), |last|)
  }

  lemma BooksAppend(digest: Digester, chunks: seq<seq<byte>>, chunk: seq<byte>)
    ensures BooksOf(digest, chunks + [chunk]) == BooksOf(digest, chunks).Enter(digest(chunk), |chunk|)
  {
    assert (chunks + [chunk])[..|chunks|] == chunks;
  }

  /** The index of a chunk list, said outright: every digest, every start offset, the total and the count. */
  ghost predicate Indexes(books: Books, digest: Digester, chunks: seq<seq<byte>>) {
    && |books.assignments| == |books.offsets| == |chunks| == books.count
    && books.pos == |Flatten(chunks)|
    && (forall i :: 0 <= i < |chunks| ==> books.assignments[i] == digest(chunks[i]))
    && (forall i :: 0 <= i < |chunks| ==> books.offsets[i] == |Flatten(chunks[..i])|)
    && books.listed == set d | d in books.assignments
  }

  lemma {:induction false} BooksAreTheIndex(digest: Digester, chunks: seq<seq<byte>>)
    ensures Indexes(BooksOf(digest, chunks), digest, chunks)
  {
    if chunks != [] {
      var n := |chunks| - 1;
      var less := chunks[..n];
      BooksAreTheIndex(digest, less);
      assert chunks == less + [chunks[n]];
      FlattenAppend(less, [chunks[n]]);
      FlattenOne(chunks[n]);
      assert forall i :: 0 <= i < n ==> chunks[..i] == less[..i];
    }
  }

  /** Per chunk, from stream position `from` on: its end offset on eight little-endian bytes, then its digest. */
  function ChecksumInput(digest: Digester, chunks: seq<seq<byte>>, from: nat): seq<byte> {
    if chunks == [] then []
    else
      var end := from + |chunks[0]|;
      LittleEndian(end, 8) + digest(chunks[0]) + ChecksumInput(digest, chunks[1..], end)
  }

  lemma {:induction false} ChecksumInputAppend(digest: Digester, chunks: seq<seq<byte>>, chunk: seq<byte>, from: nat)
    ensures ChecksumInput(digest, chunks + [chunk], from) ==
            ChecksumInput(digest, chunks, from) + LittleEndian(from + |Flatten(chunks)| + |chunk|, 8) + digest(chunk)
  {
    if chunks == [] {
      assert [chunk][1..] == [] && chunks + [chunk] == [chunk];
    } else {
      assert (chunks + [chunk])[1..] == chunks[1..] + [chunk];
      ChecksumInputAppend(digest, chunks[1..], chunk, from + |chunks[0]|);
    }
  }

  ghost predicate Sums(digest: Digester, chunks: seq<seq<byte>>) {
    BooksOf(digest, chunks).checksumInput == ChecksumInput(digest, chunks, 0)
  }

  lemma SumsMore(digest: Digester, chunks: seq<seq<byte>>, chunk: seq<byte>)
    requires Sums(digest, chunks)
    ensures Sums(digest, chunks + [chunk])
  {
    TotalIsLength(digest, chunks);
    BooksAppend(digest, chunks, chunk);
    ChecksumInputAppend(digest, chunks, chunk, 0);
  }

  lemma TotalIsLength(digest: Digester, chunks: seq<seq<byte>>)
    ensures BooksOf(digest, chunks).pos == |Flatten(chunks)|
  {
    BooksAreTheIndex(digest, chunks);
  }

  lemma {:induction false} AllSums(digest: Digester, chunks: seq<seq<byte>>)
    ensures Sums(digest, chunks)
  {
    if chunks != [] {
      var n := |chunks| - 1;
      AllSums(digest, chunks[..n]);
      SumsMore(digest, chunks[..n], chunks[n]);
      FrontAndLast(chunks);
    }
  }

  lemma BooksChecksum(digest: Digester, chunks: seq<seq<byte>>)
    ensures BooksOf(digest, chunks).checksumInput == ChecksumInput(digest, chunks, 0)
  {
    AllSums(digest, chunks);
  }

  type ChunkStore = map<Digest, seq<byte>>

  /** Every stored chunk lies under its own digest. */
  ghost predicate Honest(digest: Digester, store: ChunkStore) {
    forall d :: d in store ==> digest(store[d]) == d
  }

  /** Reading an index: fetch each listed chunk and put them end to end. */
  function ReadBack(store: ChunkStore, ds: seq<Digest>): seq<byte>
    requires forall d :: d in ds ==> d in store
  {
    if ds == [] then [] else store[ds[0]] + ReadBack(store, ds[1..])
  }

  /** An index whose digests are all stored gives back the stream it was written from. */
  lemma {:induction false} ReadBackIsStream(digest: Digester, store: ChunkStore, chunks: seq<seq<byte>>,
                                            ds: seq<Digest>)
    requires CollisionFree(digest) && Honest(digest, store)
    requires |ds| == |chunks| && forall i :: 0 <= i < |ds| ==> ds[i] == digest(chunks[i])
    requires forall d :: d in ds ==> d in store
    ensures ReadBack(store, ds) == Flatten(chunks)
  {
    if chunks != [] {
      assert ds[0] in ds && store[ds[0]] == chunks[0];
      ReadBackIsStream(digest, store, chunks[1..], ds[1..]);
    }
  }
}
