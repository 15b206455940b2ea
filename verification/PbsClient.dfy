/**
 The backup server as one client sees it: a chunk store shared by everybody and the client's writing
 session with its dynamic indexes. Every request may fail; `ok` says how it went, and an answer that
 got lost may hide a request that was carried out.
 */
module PbsClients {
  import opened Bytes
  import opened DynamicIndexes

  datatype Closing = Open | Closed(checksum: seq<byte>, size: nat, count: nat)

  datatype IndexFile = IndexFile(name: string, digests: seq<Digest>, offsets: seq<nat>, closing: Closing)

  /** More assignments in one request would exceed the size the server accepts. */
  const MAX_BATCH := 128

  /** A finished session as the server keeps it: what it backs up, its indexes, and how it got there. */
  datatype Commit = Commit(source: string, files: map<nat, IndexFile>, manifest: bool, afterCancel: bool)

  class PbsClient {
    const chunkDigest: Digester
    const checksum: seq<byte> -> seq<byte>
    var store: ChunkStore
    var writers: map<nat, IndexFile>
    var nextWriter: nat
    var live: bool
    var manifested: bool
    var readErrors: seq<string>
    var excludedFiles: seq<string>
    ghost var source: string
    ghost var commits: seq<Commit>
    ghost var abandoned: nat
    ghost var sessions: nat
    ghost var refused: nat
    ghost var uploaded: nat
    ghost var unconfirmed: nat

    /** The requests so far that the server did not confirm: refused chunks, and requests of any other kind. */
    ghost function Troubles(): nat
      reads this`refused, this`unconfirmed
    {
      refused + unconfirmed
    }

    ghost predicate Valid()
      reads this
    {
      forall w :: w in writers ==> w < nextWriter
    }

    constructor (chunkDigest: Digester, checksum: seq<byte> -> seq<byte>, store: ChunkStore)
      ensures this.chunkDigest == chunkDigest && this.checksum == checksum
      ensures Valid() && this.store == store && writers == map[]
      ensures !live && commits == [] && abandoned == sessions == refused == uploaded == unconfirmed == 0
    {
      this.chunkDigest, this.checksum := chunkDigest, checksum;
      this.store := store;
      writers, nextWriter := map[], 0;
      live, manifested, readErrors, excludedFiles := false, false, [], [];
      source, commits, abandoned, sessions, refused, uploaded, unconfirmed := "", [], 0, 0, 0, 0, 0;
    }

    /** Open a session. One that was still open keeps its group locked on the server: it is abandoned. */
    method Connect(ghost source: string)
      modifies this`writers, this`nextWriter, this`live, this`manifested
      modifies this`readErrors, this`excludedFiles, this`source, this`abandoned, this`sessions
      ensures Valid() && live && !manifested && writers == map[] && this.source == source
      ensures readErrors == [] && excludedFiles == []
      ensures abandoned == old(abandoned) + (if old(live) then 1 else 0) && sessions == old(sessions) + 1
    {
      if live {
        abandoned := abandoned + 1;
      }
      writers, nextWriter, live, manifested := map[], 0, true, false;
      readErrors, excludedFiles := [], [];
      this.source, sessions := source, sessions + 1;
    }

    /** Drop the session; harmless when there is none. */
    method Close()
      modifies this`live
      ensures !live
    {
      live := false;
    }

    method UploadManifest() returns (ok: bool)
      modifies this`manifested, this`unconfirmed
      ensures ok ==> manifested
      ensures unconfirmed == old(unconfirmed) + (if ok then 0 else 1)
    {
      var arrived: bool := *;
      ok := *;
      unconfirmed := unconfirmed + if ok then 0 else 1;
      manifested := manifested || ok || arrived;
    }

    /** Commit the session; once the server confirms, the connection is dropped at once. */
    method Finish(ghost cancelSeen: bool) returns (ok: bool)
      modifies this`live, this`commits, this`unconfirmed
      ensures unconfirmed == old(unconfirmed) + (if ok then 0 else 1)
      ensures commits == old(commits) || commits == old(commits) + [Commit(source, writers, manifested, cancelSeen)]
      ensures ok ==> commits == old(commits) + [Commit(source, writers, manifested, cancelSeen)] && !live
      ensures !ok ==> live == old(live)
    {
      var arrived: bool := *;
      ok := *;
      unconfirmed := unconfirmed + if ok then 0 else 1;
      if ok || arrived {
        commits := commits + [Commit(source, writers, manifested, cancelSeen)];
      }
      if ok {
        Close();
      }
    }

    /** A refused or lost upload may still have reached the store. */
    method UploadDynamicCompressedChunk(wrid: nat, digest: Digest, data: seq<byte>) returns (ok: bool)
      modifies this`store, this`refused, this`uploaded
      ensures refused == old(refused) + (if ok then 0 else 1) && uploaded == old(uploaded) + (if ok then 1 else 0)
      ensures store == old(store) || store == old(store)[digest := data]
      ensures ok ==> store == old(store)[digest := data]
      ensures old(store).Keys <= store.Keys && (ok ==> store.Keys == old(store).Keys + {digest})
      ensures Honest(chunkDigest, old(store)) && digest == chunkDigest(data) ==> Honest(chunkDigest, store)
    {
      var arrived: bool := *;
      ok := *;
      if ok || arrived {
        store := store[digest := data];
      }
      refused, uploaded := refused + (if ok then 0 else 1), uploaded + (if ok then 1 else 0);
    }

    method CreateDynamicIndex(name: string) returns (created: bool, wrid: nat)
      requires Valid()
      modifies this`writers, this`nextWriter, this`unconfirmed
      ensures Valid()
      ensures unconfirmed == old(unconfirmed) + (if created then 0 else 1)
      ensures created ==> wrid !in old(writers) && writers == old(writers)[wrid := IndexFile(name, [], [], Open)]
      ensures !created ==> writers == old(writers)
    {
      created, wrid := *, nextWriter;
      unconfirmed := unconfirmed + if created then 0 else 1;
      if created {
        writers := writers[wrid := IndexFile(name, [], [], Open)];
        nextWriter := nextWriter + 1;
      }
    }

    /** A refused assignment leaves the index in any open state; success appends exactly once. */
    method AssignDynamicChunks(wrid: nat, digests: seq<Digest>, offsets: seq<nat>) returns (ok: bool)
      requires |digests| == |offsets| <= 128
      modifies this`writers, this`unconfirmed
      ensures unconfirmed == old(unconfirmed) + (if ok then 0 else 1)
      ensures writers.Keys == old(writers).Keys
      ensures forall w :: w in writers && w != wrid ==> writers[w] == old(writers)[w]
      ensures wrid in writers ==>
                writers[wrid].closing == old(writers)[wrid].closing && writers[wrid].name == old(writers)[wrid].name
      ensures ok ==> wrid in old(writers) && old(writers)[wrid].closing == Open
      ensures ok ==> var f := old(writers)[wrid];
                     writers[wrid] == f.(digests := f.digests + digests, offsets := f.offsets + offsets)
    {
      var arrived: bool := *;
      ok := *;
      ok := ok && wrid in writers && writers[wrid].closing == Open;
      unconfirmed := unconfirmed + if ok then 0 else 1;
      if wrid in writers && (ok || arrived) {
        var f := writers[wrid];
        writers := writers[wrid := f.(digests := f.digests + digests, offsets := f.offsets + offsets)];
      }
    }

    /** The answer to a close may be lost too: a failed close may have closed the index. */
    method CloseDynamicIndex(wrid: nat, checksum: seq<byte>, size: nat, count: nat) returns (ok: bool)
      modifies this`writers, this`unconfirmed
      ensures unconfirmed == old(unconfirmed) + (if ok then 0 else 1)
      ensures writers == old(writers) ||
              (wrid in old(writers) &&
               writers == old(writers)[wrid := old(writers)[wrid].(closing := Closed(checksum, size, count))])
      ensures ok ==> wrid in writers && writers[wrid].closing == Closed(checksum, size, count)
    {
      var arrived: bool := *;
      ok := *;
      ok := ok && wrid in writers;
      unconfirmed := unconfirmed + if ok then 0 else 1;
      if wrid in writers && (ok || arrived) {
        writers := writers[wrid := writers[wrid].(closing := Closed(checksum, size, count))];
      }
    }
  }
}
