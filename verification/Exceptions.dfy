/** Where the code falls short of its promises: each case with the exact condition for it to be
harmless, and, where a run is needed to reach it, a concrete run. */
module Exceptions {
  import opened Storage
  import opened Text
  import opened Replacement
  import opened Library
  import opened Refinement
  import opened Views

  // ----- An unreadable registry row counts as generation 0, so the purge treats the live generation as stale

  /** A purge whose registry read failed keeps the current generation exactly when the source is a
  legacy one or has no current records. */
  lemma UnreadableRowKeepsCurrentIff(sh: Shelf, s: Source)
    ensures var c := Row(sh.rows, s);
      Generation(Purged(sh.col, s, 0), s, c) == Generation(sh.col, s, c) <==> c == 0 || NothingAt(sh.col, s, c)
  {
    var c := Row(sh.rows, s);
    var purged := Purged(sh.col, s, 0);
    GenerationNothing(sh.col, s, c);
    if c > 0 {
      GenerationNothing(purged, s, c);
      assert NothingAt(purged, s, c);
      if Generation(purged, s, c) == Generation(sh.col, s, c) {
        SameGenerationNothing(sh.col, purged, s, c);
      }
    } else {
      assert Generation(purged, s, 0) == Generation(sh.col, s, 0);
    }
  }

  // ----- An empty registry means no generation filter, so a first write that fails can be listed

  /** The ids of all records of s in a collection. */
  function IdsOf(col: Collection, s: Source): set<Id> {
    set id | id in col && col[id].source == s
  }

  /** The writer reaches its clean-up of the new generation: after an add that raised only the frame
  writer does, otherwise exactly when verification does not accept. */
  predicate CleansUp(job: Job, f: Faults, accepted: bool) {
    if f.add.Failed? then job.writer.Frames? else !accepted
  }

  /** What the clean-up leaves of the landed batch. */
  function LeftOver(job: Job, f: Faults, accepted: bool): set<Id>
    requires Aligned(job)
  {
    var ids := Batch(job, 1, f.add.landed).Keys;
    if !CleansUp(job, f, accepted) then ids else if f.drop.Completed? then {} else ids - f.drop.removed
  }

  lemma OnlyTheBatch(col: Collection, job: Job, landed: set<nat>)
    requires WellFormed(col) && Aligned(job) && NoRecords(col, job.source)
    ensures IdsOf(AfterAdd(col, job, 0, 1, landed), job.source) == Batch(job, 1, landed).Keys
    ensures Generation(AfterAdd(col, job, 0, 1, landed), job.source, 1).Keys == Batch(job, 1, landed).Keys
  {
    AfterAddSound(col, job, 0, landed);
    BatchRecords(job, 1, landed);
  }

  lemma DroppedIds(col: Collection, s: Source, ids: set<Id>, d: Deletion)
    requires IdsOf(col, s) == ids && Generation(col, s, 1).Keys == ids
    ensures IdsOf(Dropped(col, s, 1, d), s) == if d.Completed? then {} else ids - d.removed
  {
    assert forall id :: id in ids <==> id in col && col[id].source == s;
  }

  lemma FailedFirstWriteLeaves(sh: Shelf, job: Job, f: Faults, accepted: bool)
    requires WellFormed(sh.col) && NoRecords(sh.col, job.source) && !Empty(job) && Aligned(job)
    requires !Replaced(sh, job, f, 0, 1, accepted).ok
    ensures IdsOf(Replaced(sh, job, f, 0, 1, accepted).shelf.col, job.source) == LeftOver(job, f, accepted)
  {
    assert NothingStale(sh.col, job.source, 0);
    var added := AfterAdd(sh.col, job, 0, 1, f.add.landed);
    OnlyTheBatch(sh.col, job, f.add.landed);
    DroppedIds(added, job.source, Batch(job, 1, f.add.landed).Keys, f.drop);
  }

  lemma FailedFirstWriteListedFor(sh: Shelf, job: Job, f: Faults, accepted: bool)
    requires WellFormed(sh.col) && sh.rows.Keys == {} && NoRecords(sh.col, job.source) && !Empty(job) && Aligned(job)
    requires !Replaced(sh, job, f, 0, 1, accepted).ok
    ensures Listed(Replaced(sh, job, f, 0, 1, accepted).shelf.col, sh.rows, job.source).Keys == LeftOver(job, f, accepted)
  {
    FailedFirstWriteLeaves(sh, job, f, accepted);
    UnfilteredIds(Replaced(sh, job, f, 0, 1, accepted).shelf.col, sh.rows, job.source);
  }

  /** A failed write to a source of which nothing is stored, while the registry is entirely empty, is
  listed exactly as far as the clean-up leaves it: it is invisible if and only if nothing is left over. */
  lemma {:induction false} FailedFirstWriteListed(sh: Shelf, job: Job, f: Faults)
    requires WellFormed(sh.col) && sh.rows.Keys == {} && NoRecords(sh.col, job.source)
    requires !Empty(job) && Aligned(job) && !Commits(sh, job, f)
    ensures Listed(Replace(sh, job, f).shelf.col, sh.rows, job.source).Keys == LeftOver(job, f, Accepts(sh.col, job, f, 0, 1))
  {
    assert Row(sh.rows, job.source) == 0;
    ReplaceCommitsIff(sh, job, f, 0);
    FailedFirstWriteListedFor(sh, job, f, Accepts(sh.col, job, f, 0, 1));
  }

  lemma UnfilteredIds(col: Collection, rows: map<Source, nat>, s: Source)
    requires rows.Keys == {}
    ensures Listed(col, rows, s).Keys == IdsOf(col, s)
  {
  }

  // ----- Deleting a source restarts its numbering at 1 while the base may still hold generation 1

  /** A committed live write of an untombstoned source is listed as written if and only if the base
  holds no record of the source at the new generation. */
  lemma {:induction false} CommittedWriteShownIff(l: Library, job: Job, f: Faults)
    requires job.source !in l.tombstones
    requires var sh := SideOf(l, KindOf(job.writer)).delta; WellFormed(sh.col) && Commits(sh, job, f)
    ensures var k, s := KindOf(job.writer), job.source;
      var side := SideOf(l, k); var g := Row(side.delta.rows, s) + 1;
      Aligned(job) &&
      (Shows(WithSide(l, k, side.(delta := Replace(side.delta, job, f).shelf)), k, s, Whole(job, g)) <==>
       NothingAt(side.base, s, g))
  {
    var k, s := KindOf(job.writer), job.source;
    var side := SideOf(l, k);
    var g := Row(side.delta.rows, s) + 1;
    ReplaceIsAtomic(side.delta, job, f);
    SwitchedShownIff(l, k, job, Replace(side.delta, job, f).shelf, g);
  }

  lemma SwitchedShownIff(l: Library, k: Kind, job: Job, after: Shelf, g: nat)
    requires job.source !in l.tombstones && Aligned(job) && job.source in after.rows && after.rows[job.source] == g
    requires Generation(after.col, job.source, g) == Whole(job, g)
    ensures var side := SideOf(l, k);
      Shows(WithSide(l, k, side.(delta := after)), k, job.source, Whole(job, g)) <==> NothingAt(side.base, job.source, g)
  {
    ShownIff(WithSide(l, k, SideOf(l, k).(delta := after)), k, job.source, Whole(job, g), g);
  }

  /** With a current generation g whose delta part is `want`, exactly `want` is listed iff the base part is empty. */
  lemma ShownIff(l: Library, k: Kind, s: Source, want: Collection, g: nat)
    requires s !in l.tombstones && s in SideOf(l, k).delta.rows && SideOf(l, k).delta.rows[s] == g
    requires Generation(SideOf(l, k).delta.col, s, g) == want
    ensures Shows(l, k, s, want) <==> NothingAt(SideOf(l, k).base, s, g)
  {
    var side := SideOf(l, k);
    assert s in side.delta.rows.Keys;
    ListedIs(side.delta.col, side.delta.rows, s);
    ListedIs(side.base, side.delta.rows, s);
    var b := Generation(side.base, s, g);
    GenerationNothing(side.base, s, g);
    if b.Keys == {} {
      assert want + b == want;
    } else {
      var id :| id in b.Keys;
      assert id in want + b;
    }
  }

  const VIDEO: Source := "v"
  const FRAME: Vector := [1.0]

  function FrameJob(n: nat): Job {
    Job(Frames, VIDEO, seq(n, _ => "f"), seq(n, _ => FRAME), "h")
  }

  const NO_FAULTS := Faults(Completed, Returned({0}), true, Completed, true, [])

  /** A video with two frames in the base, in generation 1. */
  function IndexedVideo(): State {
    var frames := Batch(FrameJob(2), 1, {0, 1});
    State(Library(Side(EMPTY_SHELF, map[]), Side(Shelf(map[], map[VIDEO := 1]), frames), {}), Idle)
  }

  lemma OneFrameCommits(sh: Shelf)
    ensures Commits(sh, FrameJob(1), NO_FAULTS)
  {
    assert StoredDocument(FrameJob(1), 0)[0] == 'f' && !IsSpace('f');
  }

  /** Deleting a video whose frames are in the base and adding it again with one frame, with no
  failure anywhere, lists a mixture of the old and the new frames. */
  lemma {:induction false} ReAddedVideoIsMixed()
    ensures var deleted := Apply(IndexedVideo(), Delete(VIDEO, DeleteFaults(true, true, true, true, true)));
      var added := Apply(deleted, Write(FrameJob(1), NO_FAULTS, true));
      && Commits(deleted.lib.image.delta, FrameJob(1), NO_FAULTS)
      && !Shows(added.lib, Image, VIDEO, Whole(FrameJob(1), 1))
  {
    var deleted := Apply(IndexedVideo(), Delete(VIDEO, DeleteFaults(true, true, true, true, true)));
    var job := FrameJob(1);
    OneFrameCommits(deleted.lib.image.delta);
    var l := Untombed(deleted.lib, job, true);
    CommittedWriteShownIff(l, job, NO_FAULTS);
    RecordAt(FrameJob(2), 1, {0, 1}, 0);
    assert !NothingAt(l.image.base, VIDEO, 1);
  }

  // ----- Tombstones that are cleared or not stored while the base still holds the source

  /** A live image write that clears the tombstone of a deleted source but does not commit: with other
  image rows present, still nothing of the source's images is listed if and only if neither delta nor
  base holds the source at its row. */
  lemma {:induction false} UntombedImagesHiddenIff(l: Library, job: Job, f: Faults)
    requires KindOf(job.writer).Image? && !Empty(job) && job.source in l.tombstones
    requires WellFormed(l.image.delta.col) && !Commits(l.image.delta, job, f) && l.image.delta.rows.Keys != {}
    ensures var s, g := job.source, Row(l.image.delta.rows, job.source);
      Shows(WriteStep(State(l, Idle), job, f, true).lib, Image, s, map[]) <==>
      NothingAt(l.image.delta.col, s, g) && NothingAt(l.image.base, s, g)
  {
    var s, g := job.source, Row(l.image.delta.rows, job.source);
    var after := WriteStep(State(l, Idle), job, f, true).lib;
    ReplaceIsAtomic(l.image.delta, job, f);
    assert after.image == l.image.(delta := Replace(l.image.delta, job, f).shelf) && after.tombstones == l.tombstones - {s};
    ShowsNothingIff(after, Image, s);
    SameGenerationNothing(l.image.delta.col, after.image.delta.col, s, g);
  }

  /** The same write also uncovers the source's texts, which it does not write, whether or not it
  commits: with other text rows present they stay hidden if and only if neither side holds them. */
  lemma {:induction false} UntombedTextsHiddenIff(l: Library, job: Job, f: Faults)
    requires KindOf(job.writer).Image? && !Empty(job) && job.source in l.tombstones && l.text.delta.rows.Keys != {}
    ensures var s, g := job.source, Row(l.text.delta.rows, job.source);
      Shows(WriteStep(State(l, Idle), job, f, true).lib, Text, s, map[]) <==>
      NothingAt(l.text.delta.col, s, g) && NothingAt(l.text.base, s, g)
  {
    var after := WriteStep(State(l, Idle), job, f, true).lib;
    assert after.text == l.text && after.tombstones == l.tombstones - {job.source};
    ShowsNothingIff(after, Text, job.source);
  }

  /** During a rebuild, writes go past the live collections, but not past the tombstone: over any writes and
  deletes, a deleted source still shows nothing if and only if its tombstone is there at the end or
  neither live collection has anything of it to list. */
  lemma HiddenInRebuildIff(st: State, steps: seq<Step>, k: Kind, s: Source)
    requires st.rebuild.Active? && forall i :: 0 <= i < |steps| ==> IsWriteOrDelete(steps[i])
    requires s in st.lib.tombstones
    ensures Shows(Run(st, steps).lib, k, s, map[]) <==> TombedAfter(steps, s, true) || ListsNothing(SideOf(st.lib, k), s)
  {
    RebuildIsolated(st, steps);
    var l := Run(st, steps).lib;
    if s !in l.tombstones {
      ShowsNothing(l, k, s);
    }
  }

  /** One image write is enough, and committing it is no help, as that does not reach the live row: with other
  rows present the source stays hidden, in either kind, if and only if neither side holds it at its row. */
  lemma UntombedInRebuildHiddenIff(st: State, job: Job, f: Faults, k: Kind)
    requires st.rebuild.Active? && KindOf(job.writer).Image? && !Empty(job) && job.source in st.lib.tombstones
    requires SideOf(st.lib, k).delta.rows.Keys != {}
    ensures var side, s := SideOf(st.lib, k), job.source; var g := Row(side.delta.rows, s);
      Shows(WriteStep(st, job, f, true).lib, k, s, map[]) <==> NothingAt(side.delta.col, s, g) && NothingAt(side.base, s, g)
  {
    ShowsNothing(WriteStep(st, job, f, true).lib, k, job.source);
  }

  /** A deleted video whose two frames, from before generations, are still in the base, beside another video's row. */
  function DeletedVideo(): State {
    var frames := map[LegacyId("v0") := LegacyFrame(0), LegacyId("v1") := LegacyFrame(1)];
    State(Library(Side(EMPTY_SHELF, map[]), Side(Shelf(map[], map["w" := 1]), frames), {VIDEO}), Idle)
  }

  function LegacyFrame(i: nat): Record {
    Record(Frames, VIDEO, 0, i, 2, "h", "f", FRAME)
  }

  /** The video is back on disk and is indexed in a rebuild that is then aborted, with no failure in its
  write: before, nothing of it is listed, afterwards the old frames are. */
  lemma {:induction false} AbortedRebuildListsDeleted()
    ensures var st := DeletedVideo(); var write := Write(FrameJob(1), NO_FAULTS, true);
      var after := Run(st, [BEGIN] + [write] + [Abort]);
      && Commits(Target(Apply(st, BEGIN), Image), FrameJob(1), NO_FAULTS)
      && Shows(st.lib, Image, VIDEO, map[]) && Shows(after.lib, Image, VIDEO, st.lib.image.base)
      && st.lib.image.base != map[]
  {
    var st, write := DeletedVideo(), Write(FrameJob(1), NO_FAULTS, true);
    OneFrameCommits(Target(Apply(st, BEGIN), Image));
    AbortRestores(st, BEGIN, [write], Image, VIDEO);
    var after := Run(st, [BEGIN] + [write] + [Abort]);
    assert [write][1..] == [];
    assert !TombedAfter([write], VIDEO, true);
    var base := st.lib.image.base;
    assert LegacyId("v0") in base;
    assert "w" in st.lib.image.delta.rows.Keys && VIDEO !in st.lib.image.delta.rows;
    assert Listed(base, st.lib.image.delta.rows, VIDEO) == base;
    assert map[] + base == base;
  }

  /** A live delete whose tombstone is not stored: what it deleted from the delta is gone from the
  listing if and only if the base holds nothing of the source at the row the delete leaves or, when it
  leaves no row of any source, holds nothing of it at all. */
  lemma {:induction false} UnstoredTombstoneHiddenIff(l: Library, k: Kind, s: Source, d: DeleteFaults)
    requires s !in l.tombstones && !d.tombstoned && if k.Text? then d.textDeleted else d.imageDeleted
    ensures var after := DeleteStep(State(l, Idle), s, d).lib;
      var row := RowLeft(SideOf(l, k), s, if k.Text? then d.textCleared else d.imageCleared);
      Shows(after, k, s, map[]) <==>
        if SideOf(after, k).delta.rows.Keys != {} then NothingAt(SideOf(l, k).base, s, row) else NoRecords(SideOf(l, k).base, s)
  {
    var after := DeleteStep(State(l, Idle), s, d).lib;
    assert SideOf(after, k).base == SideOf(l, k).base;
    if SideOf(after, k).delta.rows.Keys != {} {
      ShowsNothingIff(after, k, s);
    } else {
      ShowsNothingUnfiltered(after, k, s);
    }
  }

  // ----- A switch whose registry token is not renamed

  /** After it, with live rows present, a rebuilt source is listed as rebuilt if and only if its live row
  happens to be its row in the rebuild. */
  lemma {:induction false} UnrenamedShownIff(st: State, k: Kind, s: Source, job: Job, textRenamed: bool, imageRenamed: bool)
    requires st.rebuild.Active? && s !in st.lib.tombstones && !(if k.Text? then textRenamed else imageRenamed)
    requires SideOf(st.lib, k).delta.rows.Keys != {}
    requires var r := ShelfOf(st.rebuild, k); Row(r.rows, s) > 0 && Holds(r.col, s, Row(r.rows, s), job)
    ensures var g, r := Row(SideOf(st.lib, k).delta.rows, s), Row(ShelfOf(st.rebuild, k).rows, s);
      Shows(Apply(st, Commit(Switched(textRenamed, imageRenamed))).lib, k, s, Whole(job, r)) <==> g == r
  {
    var g, r := Row(SideOf(st.lib, k).delta.rows, s), Row(ShelfOf(st.rebuild, k).rows, s);
    var side := SwitchedSide(SideOf(st.lib, k), ShelfOf(st.rebuild, k), false);
    assert SideOf(Apply(st, Commit(Switched(textRenamed, imageRenamed))).lib, k) == side;
    ListedIs(side.delta.col, side.delta.rows, s);
    ListedIs(side.base, side.delta.rows, s);
    EitherSide(Generation(side.delta.col, s, g), Generation(side.base, s, g));
    HoldsSome(side.base, s, r, job);
    if g != r {
      GenerationNothing(side.base, s, r);
      var id :| id in Generation(side.base, s, r);
      assert id !in Generation(side.base, s, g);
    }
  }

  // ----- A commit that finds rebuild records above a row

  lemma SwitchedLibrary(st: State, k: Kind)
    requires st.rebuild.Active?
    ensures var l := Apply(st, Commit(Switched(true, true))).lib;
      SideOf(l, k) == SwitchedSide(SideOf(st.lib, k), ShelfOf(st.rebuild, k), true) && l.tombstones == st.lib.tombstones
  {
  }

  lemma LiveWrite(l: Library, job: Job, f: Faults)
    ensures var k := KindOf(job.writer);
      WriteStep(State(l, Idle), job, f, false).lib == WithSide(l, k, SideOf(l, k).(delta := Replace(SideOf(l, k).delta, job, f).shelf))
  {
  }

  lemma {:induction false} NextWriteShownIff(l: Library, k: Kind, job: Job, f: Faults, g: nat)
    requires k == KindOf(job.writer) && job.source !in l.tombstones
    requires WellFormed(SideOf(l, k).delta.col) && Commits(SideOf(l, k).delta, job, f)
    requires g == Row(SideOf(l, k).delta.rows, job.source) + 1
    ensures Aligned(job)
    ensures Shows(WriteStep(State(l, Idle), job, f, false).lib, k, job.source, Whole(job, g)) <==> NothingAt(SideOf(l, k).base, job.source, g)
  {
    var side := SideOf(l, k);
    LiveWrite(l, job, f);
    ReplaceIsAtomic(side.delta, job, f);
    SwitchedShownIff(l, k, job, Replace(side.delta, job, f).shelf, g);
  }

  /** Such residue is in the new base, and the source's next committed live write, of generation g, is
  listed as written if and only if none of it is of that generation. */
  lemma {:induction false} ResidueMixesIff(st: State, k: Kind, job: Job, f: Faults, g: nat)
    requires st.rebuild.Active? && k == KindOf(job.writer) && job.source !in st.lib.tombstones
    requires var delta := SwitchedSide(SideOf(st.lib, k), ShelfOf(st.rebuild, k), true).delta;
      Commits(delta, job, f) && g == Row(delta.rows, job.source) + 1
    ensures Aligned(job)
    ensures Shows(WriteStep(State(Apply(st, Commit(Switched(true, true))).lib, Idle), job, f, false).lib, k, job.source, Whole(job, g))
       <==> NothingAt(ShelfOf(st.rebuild, k).col, job.source, g)
  {
    SwitchedLibrary(st, k);
    NextWriteShownIff(Apply(st, Commit(Switched(true, true))).lib, k, job, f, g);
  }

  // ----- A commit that fails after creating the new delta has already moved the delta pointer

  /** After such a commit a source is still listed as before if and only if its current generation is
  not in the delta. */
  lemma MovedDeltaShownIff(st: State, p: Plain, k: Kind, s: Source)
    requires Refines(st, p) && st.rebuild.Active? && s !in st.lib.tombstones && Key(k, s) in p.live.jobs
    ensures var side := SideOf(st.lib, k); var g := Row(side.delta.rows, s);
      Aligned(p.live.jobs[Key(k, s)]) &&
      (Shows(Apply(st, Commit(DeltaMovedOnly)).lib, k, s, Whole(p.live.jobs[Key(k, s)], g)) <==> NothingAt(side.delta.col, s, g))
  {
    var side, job := SideOf(st.lib, k), p.live.jobs[Key(k, s)];
    var g := Row(side.delta.rows, s);
    RefinedSource(st, p, k, s);
    assert s in side.delta.rows.Keys;
    MovedShownIff(Apply(st, Commit(DeltaMovedOnly)).lib, k, s, Whole(job, g), g);
    GenerationNothing(side.base, s, g);
    GenerationNothing(side.delta.col, s, g);
  }

  /** With an empty delta, exactly `want` is listed iff it is the base part. */
  lemma MovedShownIff(l: Library, k: Kind, s: Source, want: Collection, g: nat)
    requires s !in l.tombstones && s in SideOf(l, k).delta.rows && SideOf(l, k).delta.rows[s] == g
    requires SideOf(l, k).delta.col.Keys == {}
    ensures Shows(l, k, s, want) <==> Generation(SideOf(l, k).base, s, g) == want
  {
    var side := SideOf(l, k);
    assert s in side.delta.rows.Keys;
    ListedIs(side.delta.col, side.delta.rows, s);
    ListedIs(side.base, side.delta.rows, s);
    EitherSide(Generation(side.delta.col, s, g), Generation(side.base, s, g));
  }

  // ----- A reader whose registry read fails sees no rows, or no tombstones

  function AsRead(l: Library, k: Kind, rowsRead: bool, tombstonesRead: bool): Library {
    var side := SideOf(l, k);
    WithSide(l, k, if rowsRead then side else side.(delta := side.delta.(rows := map[])))
      .(tombstones := if tombstonesRead then l.tombstones else {})
  }

  /** Every record of s is of its current generation. */
  predicate OnlyCurrent(col: Collection, rows: map<Source, nat>, s: Source) {
    forall id :: id in col && col[id].source == s ==> Current(rows, s, col[id].gen)
  }

  /** An id of s is current in delta and base at once, so that its listing is not just either's. */
  predicate Clashes(side: Side, s: Source) {
    exists id :: id in Listed(side.delta.col, side.delta.rows, s) && id in Listed(side.base, side.delta.rows, s)
  }

  lemma UnfilteredIs(col: Collection, rows: map<Source, nat>, s: Source)
    ensures forall id :: id in Listed(col, rows, s) ==> id in Listed(col, map[], s)
    ensures Listed(col, map[], s) == Listed(col, rows, s) <==> OnlyCurrent(col, rows, s)
  {
    var all, current := Listed(col, map[], s), Listed(col, rows, s);
    if all == current {
      forall id | id in col && col[id].source == s
        ensures Current(rows, s, col[id].gen)
      {
        assert id in all;
      }
    }
  }

  lemma DisjointUnion(d: Collection, b: Collection, all: Collection, rest: Collection)
    requires d.Keys <= all.Keys && b.Keys <= rest.Keys && all.Keys !! rest.Keys && d + b == all + rest
    ensures d.Keys == all.Keys && b.Keys == rest.Keys
  {
    forall id | id in all || id in rest
      ensures id in d <==> id in all
      ensures id in b <==> id in rest
    {
      assert id in all + rest && id in d + b;
    }
  }

  /** Without the rows an untombstoned source is listed as with them if and only if there are none, or every
  record of it is current, or the listing had one id twice already. */
  lemma {:induction false} UnreadRowsSameIff(l: Library, k: Kind, s: Source)
    requires s !in l.tombstones
    ensures var side := SideOf(l, k); var rows := side.delta.rows;
      SameListing(l, AsRead(l, k, false, true), k, s) <==>
      rows == map[] || Clashes(side, s) || (OnlyCurrent(side.delta.col, rows, s) && OnlyCurrent(side.base, rows, s))
  {
    var side := SideOf(l, k);
    var m := AsRead(l, k, false, true);
    var d, b := Listed(side.delta.col, side.delta.rows, s), Listed(side.base, side.delta.rows, s);
    var all, rest := Listed(side.delta.col, map[], s), Listed(side.base, map[], s);
    UnfilteredIs(side.delta.col, side.delta.rows, s);
    UnfilteredIs(side.base, side.delta.rows, s);
    assert SideOf(m, k) == side.(delta := side.delta.(rows := map[]));
    assert Clashes(side, s) <==> !(d.Keys !! b.Keys);
    if SameListing(l, m, k, s) && !Clashes(side, s) {
      assert Shows(l, k, s, d + b);
      DisjointUnion(d, b, all, rest);
      SameKeysSame(side.delta.col, side.delta.rows, s);
      SameKeysSame(side.base, side.delta.rows, s);
    }
    if Clashes(side, s) {
      var id :| id in d && id in b;
      assert id in all && id in rest;
    }
  }

  lemma SameKeysSame(col: Collection, rows: map<Source, nat>, s: Source)
    requires Listed(col, rows, s).Keys == Listed(col, map[], s).Keys
    ensures Listed(col, rows, s) == Listed(col, map[], s)
  {
  }

  /** A reader with failed reads lists of a source what it should if and only if: of a tombstoned one, the
  tombstones were read or there is nothing to list without them; of any other, the rows were read or, as
  above, make no difference. */
  lemma {:induction false} FailedReadsSameIff(l: Library, k: Kind, s: Source, rowsRead: bool, tombstonesRead: bool)
    ensures var side := SideOf(l, k); var rows := side.delta.rows;
      SameListing(l, AsRead(l, k, rowsRead, tombstonesRead), k, s) <==>
      if s in l.tombstones then tombstonesRead || ListsNothing(SideOf(AsRead(l, k, rowsRead, tombstonesRead), k), s)
      else rowsRead || rows == map[] || Clashes(side, s) || (OnlyCurrent(side.delta.col, rows, s) && OnlyCurrent(side.base, rows, s))
  {
    var m := AsRead(l, k, rowsRead, tombstonesRead);
    if s in l.tombstones {
      if !tombstonesRead {
        ShowsNothing(m, k, s);
        TombstoneHides(m, m.(tombstones := {s}), k, s);
        assert forall want :: Shows(l, k, s, want) <==> want.Keys == {};
        assert forall want :: Shows(m.(tombstones := {s}), k, s, want) <==> want.Keys == {};
      }
    } else {
      assert forall want :: Shows(m, k, s, want) <==> Shows(AsRead(l, k, rowsRead, true), k, s, want);
      if !rowsRead {
        UnreadRowsSameIff(l, k, s);
      }
    }
  }
}
