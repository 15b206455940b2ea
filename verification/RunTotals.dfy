/**
 What the figures of a backup run add up to (the counters and lists of runBackupInlineInternal in
 gui/backup_inline.go), compared with what the run's snapshots hold.
 */
module RunTotals {
  import opened Bytes
  import opened Lists
  import opened Chunkers
  import opened Chunking
  import opened DynamicIndexes
  import opened Snapshots
  import opened Directories

  /** What a directory adds to the figures: every attempt counts. */
  function Added(story: Story, f: Figure): nat {
    CostOf(story.lost, f) + story.last.Cost(f)
    + if story.end.Committed? && f == ArchivedBytes then story.end.bytes else 0
  }

  /** What it should add: what is in its snapshot, in the one session that made it. */
  function Due(story: Story, f: Figure): nat {
    if !story.end.Committed? then 0
    else if f == ArchivedBytes then |Stream(story.last.part.walk.pieces, false)|
    else story.last.Cost(f)
  }

  function AllAdded(stories: seq<Story>, f: Figure): nat
    decreases |stories|
  {
    if stories == [] then 0 else AllAdded(stories[..|stories| - 1], f) + Added(stories[|stories| - 1], f)
  }

  function AllDue(stories: seq<Story>, f: Figure): nat
    decreases |stories|
  {
    if stories == [] then 0 else AllDue(stories[..|stories| - 1], f) + Due(stories[|stories| - 1], f)
  }

  /** The attempts of a whole run that no confirmed snapshot came of. */
  function AllVain(stories: seq<Story>): seq<Try> {
    if stories == [] then [] else AllVain(stories[..|stories| - 1]) + stories[|stories| - 1].Vain()
  }

  lemma AddedOneMore(stories: seq<Story>, next: Story, f: Figure)
    ensures AllAdded(stories + [next], f) == AllAdded(stories, f) + Added(next, f)
  {
    assert (stories + [next])[..|stories|] == stories;
  }

  lemma AddedIsDueAndVain(story: Story, f: Figure)
    requires story.Weighed()
    ensures Added(story, f) == Due(story, f) + CostOf(story.Vain(), f)
  {
    CostOfOneMore(story.lost, story.last, f);
    if f == ArchivedBytes {
      BytesComeLater(story.lost);
    }
  }

  lemma {:induction false} BytesComeLater(tries: seq<Try>)
    ensures CostOf(tries, ArchivedBytes) == 0
    decreases |tries|
  {
    if tries != [] {
      BytesComeLater(tries[..|tries| - 1]);
    }
  }

  /** What the run adds up is what it should, and on top of it what the attempts in vain had counted. */
  lemma {:induction false} AddsUp(stories: seq<Story>, f: Figure)
    requires forall i :: 0 <= i < |stories| ==> stories[i].Weighed()
    ensures AllAdded(stories, f) == AllDue(stories, f) + CostOf(AllVain(stories), f)
    decreases |stories|
  {
    if stories != [] {
      var n := |stories| - 1;
      AddsUp(stories[..n], f);
      AddedIsDueAndVain(stories[n], f);
      CostOfSum(AllVain(stories[..n]), stories[n].Vain(), f);
    }
  }

  function Listed(files: Files, excluded: bool): seq<string> {
    if excluded then files.excluded else files.readErrors
  }

  /** A run's lists: what each directory's last attempt left, its own entries or not. */
  function AllListed(stories: seq<Story>, excluded: bool): seq<string>
    decreases |stories|
  {
    if stories == [] then []
    else AllListed(stories[..|stories| - 1], excluded) + Listed(stories[|stories| - 1].last.files, excluded)
  }

  /** What they should be: the entries of the directories' own sessions. */
  function AllOwn(stories: seq<Story>, excluded: bool): seq<string>
    decreases |stories|
  {
    if stories == [] then []
    else AllOwn(stories[..|stories| - 1], excluded) + Own(stories[|stories| - 1], excluded)
  }

  function Own(story: Story, excluded: bool): seq<string> {
    if story.Opened() then Listed(story.last.files, excluded) else []
  }

  lemma ListedOneMore(stories: seq<Story>, next: Story, excluded: bool)
    ensures AllListed(stories + [next], excluded) == AllListed(stories, excluded) + Listed(next.last.files, excluded)
  {
    assert (stories + [next])[..|stories|] == stories;
  }

  /** Directories that opened no session repeat no entry of this kind. */
  ghost predicate NothingRepeated(stories: seq<Story>, excluded: bool) {
    forall t :: t in stories && !t.Opened() ==> Listed(t.last.files, excluded) == []
  }

  lemma RepeatedOneMore(stories: seq<Story>, last: Story, excluded: bool)
    ensures NothingRepeated(stories + [last], excluded) <==>
            NothingRepeated(stories, excluded) && (last.Opened() || Listed(last.last.files, excluded) == [])
  {
    assert forall t :: t in stories + [last] <==> t in stories || t == last;
  }

  /** The lists are exact exactly if no directory without a session of its own repeats an entry. */
  lemma {:induction false} ListsExactly(stories: seq<Story>, excluded: bool)
    ensures |AllListed(stories, excluded)| >= |AllOwn(stories, excluded)|
    ensures AllListed(stories, excluded) == AllOwn(stories, excluded) <==> NothingRepeated(stories, excluded)
    ensures |AllListed(stories, excluded)| == |AllOwn(stories, excluded)| ==> NothingRepeated(stories, excluded)
    decreases |stories|
  {
    if stories != [] {
      var n := |stories| - 1;
      FrontAndLast(stories);
      ListsExactly(stories[..n], excluded);
      RepeatedOneMore(stories[..n], stories[n], excluded);
    }
  }

  /**
   A figure is too large by what the attempts in vain had counted, a digest each of them made known being one new
   chunk; so it is exact exactly if those counted nothing.
   */
  ghost predicate Overcounted(told: int, stories: seq<Story>, f: Figure) {
    && told == AllDue(stories, f) + CostOf(AllVain(stories), f)
    && (told == AllDue(stories, f) <==> Nothing(AllVain(stories), f))
  }

  lemma OvercountedBy(stories: seq<Story>, f: Figure)
    requires forall i :: 0 <= i < |stories| ==> stories[i].Weighed()
    ensures Overcounted(AllAdded(stories, f), stories, f)
  {
    AddsUp(stories, f);
    CostsNothing(AllVain(stories), f);
  }

  /** The lists as the last directory left them. */
  ghost function FilesAfter(stories: seq<Story>): Files {
    if stories == [] then NoFiles else stories[|stories| - 1].last.files
  }

  /** Without a session of its own a directory repeats the lists of the one before it. */
  ghost predicate Repeating(stories: seq<Story>) {
    && (stories != [] ==> Repeats(stories[0], NoFiles))
    && forall i, j :: 0 <= i < j < |stories| && j == i + 1 ==> Repeats(stories[j], stories[i].last.files)
  }

  ghost predicate Repeats(story: Story, before: Files) {
    story.Opened() || story.last.files == before
  }

  lemma RepeatingMore(stories: seq<Story>, next: Story)
    requires Repeating(stories) && Repeats(next, FilesAfter(stories))
    ensures Repeating(stories + [next]) && FilesAfter(stories + [next]) == next.last.files
  {
    LastOfMore(stories, next);
    var more := stories + [next];
    assert forall i :: 0 <= i < |stories| ==> more[i] == stories[i];
  }

  lemma {:induction false} VainToo(stories: seq<Story>, stored: set<Digest>)
    requires forall t :: t in stories ==> t.Told(stored)
    ensures forall t :: t in AllVain(stories) ==> t.Told(stored)
    decreases |stories|
  {
    if stories != [] {
      VainToo(stories[..|stories| - 1], stored);
      assert stories[|stories| - 1].Told(stored);
    }
  }

  lemma {:induction false} OneSessionDue(stories: seq<Story>)
    requires forall t :: t in stories ==> t.end.Committed? && t.last.connected
    ensures AllDue(stories, SessionsOpened) == |stories|
    decreases |stories|
  {
    if stories != [] {
      OneSessionDue(stories[..|stories| - 1]);
    }
  }

  /** Attempts that opened no session counted nothing. */
  lemma NoSessionNothing(tries: seq<Try>, stored: set<Digest>)
    requires forall t :: t in tries ==> t.Told(stored)
    requires Nothing(tries, SessionsOpened)
    ensures Nothing(tries, NewChunks) && Nothing(tries, ReusedChunks)
  {
    forall t | t in tries
      ensures t.Cost(NewChunks) == t.Cost(ReusedChunks) == 0
    {
      assert t.Cost(SessionsOpened) == 0;
    }
  }

  /** The same attempt, had its last request not been confirmed and the session been lost. */
  function LostAtTheEnd(t: Try): Try {
    t.(end := GaveUp(true), hindrance := t.hindrance.(troubles := 1))
  }

  /**
   A directory that needed one session, and the same after its first session was lost only when the manifest was to be
   confirmed: every new chunk of the snapshot is counted twice.
   */
  lemma LostSessionCountsTwice(story: Story, stored: set<Digest>) returns (again: Story)
    requires story.Told(stored) && story.end.Committed? && story.lost == []
    ensures again.Told(stored) && again == story.(lost := [LostAtTheEnd(story.last)])
    ensures AllDue([again], NewChunks) == AllDue([story], NewChunks) == |story.last.part.made|
    ensures AllAdded([story], NewChunks) == |story.last.part.made|
    ensures AllAdded([again], NewChunks) == 2 * |story.last.part.made|
  {
    var first := LostAtTheEnd(story.last);
    again := story.(lost := [first]);
    assert [again][..0] == [] && [story][..0] == [] && [first][..0] == [];
  }

  /** One byte, one chunk, two sessions. */
  ghost const RETRIED: Story :=
    var part := Part(Walk([Piece(false, [7])], true, [], []), {}, {[1]}, 0);
    var done := Try(Done(1), Hindrance(false, false, 0), part, true, NoFiles);
    Story(Committed(1), [LostAtTheEnd(done)], done)

  lemma OneByteOneChunk(s: Scheme, b: byte)
    requires s.tuning.Valid()
    ensures Chunks(s.tuning, [b]) == [[b]] && DigestsOf(s, [b]) == {s.digest([b])}
    ensures Chunks(s.tuning, []) == [] && DigestsOf(s, []) == {}
  {
    ChunksReassemble(s.tuning, [b]);
    ChunksReassemble(s.tuning, []);
    var chunks := Chunks(s.tuning, [b]);
    assert chunks != [] && |chunks[0]| > 0;
    assert Flatten(chunks) == [b];
    assert [] + [[b]] == [[b]];
    BooksAppend(s.digest, [], [b]);
  }

  lemma StreamsOfOne(piece: Piece)
    requires !piece.toCatalog
    ensures Stream([piece], false) == piece.data && Stream([piece], true) == []
  {
    StreamSnoc([], piece, false);
    StreamSnoc([], piece, true);
    assert [] + [piece] == [piece] && [] + piece.data == piece.data;
  }

  lemma CountedOne(s: Scheme, pieces: seq<Piece>, b: byte)
    requires s.tuning.Valid() && Stream(pieces, false) == [b] && Stream(pieces, true) == []
    ensures Counted(s, {}, pieces, {s.digest([b])}, 0)
  {
    OneByteOneChunk(s, b);
  }

  /** Backed up whole as it was, its one new chunk is counted twice. */
  lemma OneChunkCountedTwice(s: Scheme)
    requires s.tuning.Valid() && s.digest([7]) == [1]
    ensures RETRIED.Told({[1]}) && TakenWhole(s, RETRIED.last.part, 1)
    ensures AllDue([RETRIED], NewChunks) == 1 && AllAdded([RETRIED], NewChunks) == 2
  {
    StreamsOfOne(Piece(false, [7]));
    CountedOne(s, [Piece(false, [7])], 7);
    var again := LostSessionCountsTwice(RETRIED.(lost := []), {[1]});
  }

  /** A first directory with one unreadable file, a second one whose snapshot is refused before its session opens. */
  ghost const REFUSED: seq<Story> :=
    var walk := Walk([Piece(false, [7])], true, ["f"], []);
    var files := Files(["f"], []);
    [Story(Committed(1), [], Try(Done(1), Hindrance(false, false, 0), Part(walk, {}, {[1]}, 0), true, files)),
     Story(NotConfirmed, [], Try(GaveUp(false), Hindrance(true, false, 0), Part(walk, {}, {}, 0), false, files))]

  lemma ErrorListedTwice()
    ensures REFUSED[0].Told({[1]}) && REFUSED[1].Told({[1]}) && Repeating(REFUSED)
    ensures AllListed(REFUSED, false) == ["f", "f"] && AllOwn(REFUSED, false) == ["f"]
  {
    StreamSnoc([], Piece(false, [7]), false);
    assert REFUSED[..1] == [REFUSED[0]] && [REFUSED[0]][..0] == [];
  }
}
