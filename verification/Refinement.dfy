/** The generation-filtered union of delta and base refines a plain map from source to the last
committed write, over every run of writes, deletes and rebuilds with failures. */
module Refinement {
  import opened Storage
  import opened Replacement
  import opened Library

  datatype Key = Key(kind: Kind, source: Source)

  /** What one kind of reader should see: the last committed job of each source, and the legacy
  records, of generation 0, of sources never written since nor deleted. */
  datatype Index = Index(jobs: map<Key, Job>, legacy: map<Key, Collection>)

  /** The plain index, live and in the running rebuild. */
  datatype Plain = Plain(live: Index, building: map<Key, Job>)

  function Put(m: map<Key, Job>, job: Job, commits: bool): map<Key, Job> {
    if commits then m[Key(KindOf(job.writer), job.source) := job] else m
  }

  /** The keys of s that a delete removes. */
  function DroppedKeys(s: Source, d: DeleteFaults): set<Key> {
    (if d.textDeleted then {Key(Text, s)} else {}) + (if d.imageDeleted then {Key(Image, s)} else {})
  }

  function PutLive(x: Index, job: Job, commits: bool): Index {
    Index(Put(x.jobs, job, commits), if commits then x.legacy - {Key(KindOf(job.writer), job.source)} else x.legacy)
  }

  function DropLive(x: Index, s: Source, d: DeleteFaults): Index {
    Index(x.jobs - DroppedKeys(s, d), x.legacy - DroppedKeys(s, d))
  }

  ghost function PlainStep(p: Plain, st: State, step: Step): Plain {
    match step
    case Write(job, f, _) =>
      var commits := Commits(Target(st, KindOf(job.writer)), job, f);
      if st.rebuild.Active? then p.(building := Put(p.building, job, commits)) else p.(live := PutLive(p.live, job, commits))
    case Delete(s, d) =>
      if st.rebuild.Active? then p.(building := p.building - DroppedKeys(s, d)) else p.(live := DropLive(p.live, s, d))
    case Begin(_, _) => if st.rebuild.Active? then p else p.(building := map[])
    case Commit(outcome) => if st.rebuild.Active? && outcome.Switched? then Plain(Index(p.building, map[]), map[]) else p
    case Abort => p.(building := map[])
  }

  ghost function PlainRun(p: Plain, st: State, steps: seq<Step>): Plain
    decreases |steps|
  {
    if steps == [] then p else PlainRun(PlainStep(p, st, steps[0]), Apply(st, steps[0]), steps[1..])
  }

  predicate NoRecords(col: Collection, s: Source) {
    forall id :: id in col ==> col[id].source != s
  }

  predicate NothingAt(col: Collection, s: Source, g: nat) {
    forall id :: id in col && col[id].source == s ==> col[id].gen != g
  }

  /** All records of s are of a generation before g. */
  predicate Under(col: Collection, s: Source, g: nat) {
    forall id :: id in col && col[id].source == s ==> col[id].gen < g
  }

  /** No base record of s is newer than the registry row. */
  predicate BaseBelow(side: Side, s: Source) {
    Under(side.base, s, Row(side.delta.rows, s) + 1)
  }

  /** Generation g of s is exactly the whole committed job, which passed verification. */
  predicate Holds(col: Collection, s: Source, g: nat, job: Job) {
    !Empty(job) && Aligned(job) && Acceptable(job) && Generation(col, s, g) == Whole(job, g)
  }

  /** The current generation of s is whole, in exactly one of delta and base. */
  predicate Held(side: Side, s: Source, job: Job) {
    var g := Row(side.delta.rows, s);
    || (Holds(side.delta.col, s, g, job) && NothingAt(side.base, s, g))
    || (NothingAt(side.delta.col, s, g) && Holds(side.base, s, g, job))
  }

  function LegacyOf(x: Index, k: Kind, s: Source): Collection {
    if Key(k, s) in x.legacy then x.legacy[Key(k, s)] else map[]
  }

  /** What refinement asks of one source of one kind that no tombstone hides. */
  predicate Tracks(side: Side, x: Index, k: Kind, s: Source) {
    var g := Row(side.delta.rows, s);
    && BaseBelow(side, s)
    && (Key(k, s) in x.jobs ==> g > 0 && Held(side, s, x.jobs[Key(k, s)]))
    && (Key(k, s) !in x.jobs ==> NothingAt(side.delta.col, s, g) && Generation(side.base, s, g) == LegacyOf(x, k, s))
  }

  /** What it asks of every source, hidden or not: the base may hold records at or above its row. */
  predicate Follows(side: Side, x: Index, k: Kind, s: Source) {
    var g := Row(side.delta.rows, s);
    && (Key(k, s) in x.jobs ==> g > 0 && (Holds(side.delta.col, s, g, x.jobs[Key(k, s)]) || Holds(side.base, s, g, x.jobs[Key(k, s)])))
    && (Key(k, s) !in x.jobs ==> NothingAt(side.delta.col, s, g))
    && (Key(k, s) in x.legacy ==> Key(k, s) !in x.jobs && g == 0 && Generation(side.base, s, 0) == x.legacy[Key(k, s)])
  }

  /** A source is settled when no tombstone is needed to hide base records of it. */
  predicate Settled(l: Library, k: Kind, s: Source) {
    s !in l.tombstones || NoRecords(SideOf(l, k).base, s)
  }

  ghost predicate LiveRefines(l: Library, x: Index) {
    SideRefines(l, x, Text) && SideRefines(l, x, Image)
  }

  ghost predicate SideRefines(l: Library, x: Index, k: Kind) {
    && WellFormed(SideOf(l, k).delta.col) && WellFormed(SideOf(l, k).base)
    && (forall s :: Follows(SideOf(l, k), x, k, s))
    && (forall s :: Settled(l, k, s) ==> Tracks(SideOf(l, k), x, k, s))
  }

  predicate Builds(sh: Shelf, building: map<Key, Job>, k: Kind, s: Source) {
    var g := Row(sh.rows, s);
    && (Key(k, s) in building ==> g > 0 && Holds(sh.col, s, g, building[Key(k, s)]))
    && (Key(k, s) !in building ==> NothingAt(sh.col, s, g))
  }

  ghost predicate BuildRefines(r: Rebuild, building: map<Key, Job>) {
    r.Active? ==> BuildsAll(r.text, building, Text) && BuildsAll(r.image, building, Image)
  }

  ghost predicate BuildsAll(sh: Shelf, building: map<Key, Job>, k: Kind) {
    WellFormed(sh.col) && forall s :: Builds(sh, building, k, s)
  }

  ghost predicate Refines(st: State, p: Plain) {
    LiveRefines(st.lib, p.live) && BuildRefines(st.rebuild, p.building)
  }

  /** The write clears the tombstone of its source. */
  predicate Untombs(l: Library, job: Job, untombed: bool) {
    job.source in l.tombstones && KindOf(job.writer).Image? && !Empty(job) && untombed
  }

  /** The row of s after a delete. */
  function RowLeft(side: Side, s: Source, cleared: bool): nat {
    if cleared then 0 else Row(side.delta.rows, s)
  }

  /** The numbering hypothesis, as a condition on one step that can be checked before it.
  - An image write may clear the tombstone of a source only if all its base records are overtaken: by
    its text row, and by its image row or the one a live commit would set.
  - A live delete must record its tombstone, or the base records must be before the row it leaves.
  - A commit that fails must leave the delta pointer alone; one that switches must rename both
    registry tokens and find no rebuild record above its source's registry row. */
  ghost predicate Fair(st: State, step: Step) {
    match step
    case Write(job, f, untombed) =>
      var s := job.source;
      var next := if st.rebuild.Idle? && Commits(st.lib.image.delta, job, f) then 1 else 0;
      Untombs(st.lib, job, untombed) ==>
        Under(st.lib.text.base, s, Row(st.lib.text.delta.rows, s)) &&
        Under(st.lib.image.base, s, Row(st.lib.image.delta.rows, s) + next)
    case Delete(s, d) =>
      || st.rebuild.Active? || d.tombstoned
      || ((d.textDeleted ==> Under(st.lib.text.base, s, RowLeft(st.lib.text, s, d.textCleared))) &&
          (d.imageDeleted ==> Under(st.lib.image.base, s, RowLeft(st.lib.image, s, d.imageCleared))))
    case Commit(outcome) =>
      st.rebuild.Active? ==>
        match outcome {
          case Refused => true
          case DeltaMovedOnly => false
          case Switched(t, i) => t && i && forall s :: NoneAbove(st.rebuild.text, s) && NoneAbove(st.rebuild.image, s)
        }
    case _ => true
  }

  ghost predicate FairRun(st: State, steps: seq<Step>)
    decreases |steps|
  {
    steps == [] || (Fair(st, steps[0]) && FairRun(Apply(st, steps[0]), steps[1..]))
  }

  // ----- One step at a time

  lemma OthersAgree(before: Collection, after: Collection, s: Source, t: Source, g: nat)
    requires Others(after, s) == Others(before, s) && t != s
    ensures Generation(after, t, g) == Generation(before, t, g)
    ensures NothingAt(after, t, g) <==> NothingAt(before, t, g)
  {
    var a, b := Others(after, s), Others(before, s);
    assert Generation(after, t, g) == Generation(a, t, g) && Generation(before, t, g) == Generation(b, t, g);
    assert forall id :: id in after && after[id].source == t ==> id in a && a[id] == after[id];
    assert forall id :: id in before && before[id].source == t ==> id in b && b[id] == before[id];
  }

  lemma GenerationNothing(col: Collection, s: Source, g: nat)
    ensures NothingAt(col, s, g) <==> forall id :: id !in Generation(col, s, g)
  {
    if forall id :: id !in Generation(col, s, g) {
      forall id | id in col && col[id].source == s
        ensures col[id].gen != g
      {
        assert id !in Generation(col, s, g);
      }
    }
  }

  lemma SameGenerationNothing(before: Collection, after: Collection, s: Source, g: nat)
    requires Generation(after, s, g) == Generation(before, s, g)
    ensures NothingAt(after, s, g) <==> NothingAt(before, s, g)
  {
    GenerationNothing(before, s, g);
    GenerationNothing(after, s, g);
  }

  /** What one replacement does to the write target, in the terms of this module. */
  ghost predicate Replaces(before: Shelf, after: Shelf, job: Job, commits: bool) {
    var s, g := job.source, Row(before.rows, job.source);
    && WellFormed(after.col)
    && (forall t :: t != s ==> Row(after.rows, t) == Row(before.rows, t))
    && (forall t, h :: t != s ==> Generation(after.col, t, h) == Generation(before.col, t, h))
    && (commits ==> Row(after.rows, s) == g + 1 && Holds(after.col, s, g + 1, job))
    && (!commits ==> Row(after.rows, s) == g && Generation(after.col, s, g) == Generation(before.col, s, g))
  }

  lemma ReplaceReplaces(sh: Shelf, job: Job, f: Faults)
    requires WellFormed(sh.col)
    ensures Replaces(sh, Replace(sh, job, f).shelf, job, Commits(sh, job, f))
  {
    ReplaceIsAtomic(sh, job, f);
    ReplaceKeeps(sh, job, f);
    var o := Replace(sh, job, f);
    forall t, h | t != job.source
      ensures Generation(o.shelf.col, t, h) == Generation(sh.col, t, h)
    {
      OthersAgree(sh.col, o.shelf.col, job.source, t, h);
    }
  }

  /** A live write keeps what refinement asks of the written source. */
  lemma WriteTracksSource(side: Side, x: Index, k: Kind, job: Job, after: Shelf, commits: bool)
    requires k == KindOf(job.writer) && Replaces(side.delta, after, job, commits)
    requires Tracks(side, x, k, job.source)
    ensures Tracks(side.(delta := after), PutLive(x, job, commits), k, job.source)
  {
    var s, g := job.source, Row(side.delta.rows, job.source);
    if commits {
      assert NothingAt(side.base, s, g + 1);
    } else {
      SameGenerationNothing(side.delta.col, after.col, s, g);
    }
  }

  lemma WriteFollowsSource(side: Side, x: Index, k: Kind, job: Job, after: Shelf, commits: bool)
    requires k == KindOf(job.writer) && Replaces(side.delta, after, job, commits)
    requires Follows(side, x, k, job.source)
    ensures Follows(side.(delta := after), PutLive(x, job, commits), k, job.source)
  {
    if !commits {
      SameGenerationNothing(side.delta.col, after.col, job.source, Row(side.delta.rows, job.source));
    }
  }

  lemma OtherSourceUnaffected(x: Index, job: Job, commits: bool, k: Kind, s: Source)
    requires k != KindOf(job.writer) || s != job.source
    ensures var key, y := Key(k, s), PutLive(x, job, commits);
      && (key in y.jobs <==> key in x.jobs) && (key in x.jobs ==> y.jobs[key] == x.jobs[key])
      && (key in y.legacy <==> key in x.legacy) && (key in x.legacy ==> y.legacy[key] == x.legacy[key])
  {
  }

  /** ... and of every other source. */
  lemma WriteKeepsOther(side: Side, x: Index, k: Kind, job: Job, after: Shelf, commits: bool, t: Source)
    requires Replaces(side.delta, after, job, commits) && t != job.source
    ensures Tracks(side, x, k, t) ==> Tracks(side.(delta := after), PutLive(x, job, commits), k, t)
    ensures Follows(side, x, k, t) ==> Follows(side.(delta := after), PutLive(x, job, commits), k, t)
  {
    SameGenerationNothing(side.delta.col, after.col, t, Row(side.delta.rows, t));
    OtherSourceUnaffected(x, job, commits, k, t);
  }

  lemma WriteKeepsBuild(sh: Shelf, building: map<Key, Job>, k: Kind, job: Job, after: Shelf, commits: bool, s: Source)
    requires k == KindOf(job.writer) && Replaces(sh, after, job, commits) && Builds(sh, building, k, s)
    ensures Builds(after, Put(building, job, commits), k, s)
  {
    var g := Row(sh.rows, s);
    if s != job.source || !commits {
      SameGenerationNothing(sh.col, after.col, s, g);
    }
  }

  lemma HoldsSome(col: Collection, s: Source, g: nat, job: Job)
    requires Holds(col, s, g, job)
    ensures !NothingAt(col, s, g)
  {
    RecordAt(job, g, AllIndexes(|job.vectors|), 0);
    GenerationNothing(col, s, g);
  }

  /** A source whose base records are all overtaken by its row needs no tombstone. */
  lemma OvertakenTracks(side: Side, x: Index, k: Kind, s: Source)
    requires Follows(side, x, k, s) && Under(side.base, s, Row(side.delta.rows, s))
    ensures Tracks(side, x, k, s)
  {
    var g := Row(side.delta.rows, s);
    assert NothingAt(side.base, s, g);
    GenerationNothing(side.base, s, g);
    if Key(k, s) in x.jobs {
      if Holds(side.base, s, g, x.jobs[Key(k, s)]) {
        HoldsSome(side.base, s, g, x.jobs[Key(k, s)]);
      }
    }
  }

  /** A committed write overtakes the base records of its source. */
  lemma CommittedTracks(side: Side, x: Index, k: Kind, job: Job, after: Shelf)
    requires k == KindOf(job.writer) && Replaces(side.delta, after, job, true)
    requires Under(side.base, job.source, Row(side.delta.rows, job.source) + 1)
    ensures Tracks(side.(delta := after), PutLive(x, job, true), k, job.source)
  {
    assert NothingAt(side.base, job.source, Row(side.delta.rows, job.source) + 1);
  }

  /** A live write and the sources of the other kind. */
  lemma WriteKeepsOtherKind(st: State, x: Index, job: Job, f: Faults, untombed: bool, k: Kind, s: Source)
    requires st.rebuild.Idle? && k != KindOf(job.writer)
    requires SideRefines(st.lib, x, k) && Fair(st, Write(job, f, untombed))
    ensures var l := WriteStep(st, job, f, untombed).lib;
      var y := PutLive(x, job, Commits(SideOf(st.lib, KindOf(job.writer)).delta, job, f));
      SideOf(l, k) == SideOf(st.lib, k) && Follows(SideOf(l, k), y, k, s) && (Settled(l, k, s) ==> Tracks(SideOf(l, k), y, k, s))
  {
    var side := SideOf(st.lib, k);
    assert Follows(side, x, k, s);
    OtherSourceUnaffected(x, job, Commits(SideOf(st.lib, KindOf(job.writer)).delta, job, f), k, s);
    if !Settled(st.lib, k, s) && s == job.source && Untombs(st.lib, job, untombed) {
      OvertakenTracks(side, x, k, s);
    }
  }

  /** The written source on its own side: `settled` before, or its tombstone cleared fairly. */
  lemma WriteKeepsWritten(side: Side, x: Index, k: Kind, job: Job, after: Shelf, commits: bool)
    requires k == KindOf(job.writer) && Replaces(side.delta, after, job, commits) && Follows(side, x, k, job.source)
    requires Tracks(side, x, k, job.source) ||
      Under(side.base, job.source, Row(side.delta.rows, job.source) + if commits then 1 else 0)
    ensures Tracks(side.(delta := after), PutLive(x, job, commits), k, job.source)
  {
    if Tracks(side, x, k, job.source) {
      WriteTracksSource(side, x, k, job, after, commits);
    } else if commits {
      CommittedTracks(side, x, k, job, after);
    } else {
      OvertakenTracks(side, x, k, job.source);
      WriteTracksSource(side, x, k, job, after, commits);
    }
  }

  /** A live write and the sources of its own kind. */
  lemma WriteKeepsOwnKind(st: State, x: Index, job: Job, f: Faults, untombed: bool, s: Source)
    requires st.rebuild.Idle? && SideRefines(st.lib, x, KindOf(job.writer)) && Fair(st, Write(job, f, untombed))
    ensures var k, l := KindOf(job.writer), WriteStep(st, job, f, untombed).lib;
      var y := PutLive(x, job, Commits(SideOf(st.lib, k).delta, job, f));
      Follows(SideOf(l, k), y, k, s) && (Settled(l, k, s) ==> Tracks(SideOf(l, k), y, k, s))
  {
    var k := KindOf(job.writer);
    var side := SideOf(st.lib, k);
    var after, commits := Replace(side.delta, job, f).shelf, Commits(side.delta, job, f);
    var l := WriteStep(st, job, f, untombed).lib;
    ReplaceReplaces(side.delta, job, f);
    assert Follows(side, x, k, s) && SideOf(l, k) == side.(delta := after);
    if s != job.source {
      WriteKeepsOther(side, x, k, job, after, commits, s);
    } else {
      WriteFollowsSource(side, x, k, job, after, commits);
      if Settled(l, k, s) {
        WriteKeepsWritten(side, x, k, job, after, commits);
      }
    }
  }

  /** During a rebuild a write can only clear a tombstone of the live library. */
  lemma UntombKeepsSource(st: State, x: Index, job: Job, f: Faults, untombed: bool, k: Kind, s: Source)
    requires st.rebuild.Active? && SideRefines(st.lib, x, k) && Fair(st, Write(job, f, untombed))
    ensures var l := Untombed(st.lib, job, untombed);
      Follows(SideOf(l, k), x, k, s) && (Settled(l, k, s) ==> Tracks(SideOf(l, k), x, k, s))
  {
    var side := SideOf(st.lib, k);
    assert Follows(side, x, k, s);
    if !Settled(st.lib, k, s) && s == job.source && Untombs(st.lib, job, untombed) {
      OvertakenTracks(side, x, k, s);
    }
  }

  lemma WriteKeepsSide(st: State, p: Plain, job: Job, f: Faults, untombed: bool, k: Kind)
    requires Refines(st, p) && Fair(st, Write(job, f, untombed))
    ensures SideRefines(WriteStep(st, job, f, untombed).lib, PlainStep(p, st, Write(job, f, untombed)).live, k)
  {
    ReplaceReplaces(SideOf(st.lib, k).delta, job, f);
    var l', x' := WriteStep(st, job, f, untombed).lib, PlainStep(p, st, Write(job, f, untombed)).live;
    forall s
      ensures Follows(SideOf(l', k), x', k, s) && (Settled(l', k, s) ==> Tracks(SideOf(l', k), x', k, s))
    {
      if st.rebuild.Active? {
        UntombKeepsSource(st, p.live, job, f, untombed, k, s);
      } else if k == KindOf(job.writer) {
        WriteKeepsOwnKind(st, p.live, job, f, untombed, s);
      } else {
        WriteKeepsOtherKind(st, p.live, job, f, untombed, k, s);
      }
    }
  }

  lemma WriteKeepsBuilds(sh: Shelf, building: map<Key, Job>, job: Job, f: Faults)
    requires BuildsAll(sh, building, KindOf(job.writer))
    ensures BuildsAll(Replace(sh, job, f).shelf, Put(building, job, Commits(sh, job, f)), KindOf(job.writer))
  {
    ReplaceReplaces(sh, job, f);
    forall s
      ensures Builds(Replace(sh, job, f).shelf, Put(building, job, Commits(sh, job, f)), KindOf(job.writer), s)
    {
      WriteKeepsBuild(sh, building, KindOf(job.writer), job, Replace(sh, job, f).shelf, Commits(sh, job, f), s);
    }
  }

  lemma OtherBuildsKept(sh: Shelf, building: map<Key, Job>, job: Job, commits: bool, k: Kind)
    requires BuildsAll(sh, building, k) && k != KindOf(job.writer)
    ensures BuildsAll(sh, Put(building, job, commits), k)
  {
    forall s
      ensures Builds(sh, Put(building, job, commits), k, s)
    {
      assert Builds(sh, building, k, s);
    }
  }

  lemma WriteBuildRefines(r: Rebuild, building: map<Key, Job>, job: Job, f: Faults)
    requires r.Active? && BuildRefines(r, building)
    ensures var k := KindOf(job.writer);
      BuildRefines(WithShelf(r, k, Replace(ShelfOf(r, k), job, f).shelf), Put(building, job, Commits(ShelfOf(r, k), job, f)))
  {
    var k, commits := KindOf(job.writer), Commits(ShelfOf(r, KindOf(job.writer)), job, f);
    WriteKeepsBuilds(ShelfOf(r, k), building, job, f);
    if k.Text? {
      OtherBuildsKept(r.image, building, job, commits, Image);
    } else {
      OtherBuildsKept(r.text, building, job, commits, Text);
    }
  }

  lemma WriteStepRefines(st: State, p: Plain, job: Job, f: Faults, untombed: bool)
    requires Refines(st, p) && Fair(st, Write(job, f, untombed))
    ensures Refines(WriteStep(st, job, f, untombed), PlainStep(p, st, Write(job, f, untombed)))
  {
    WriteKeepsSide(st, p, job, f, untombed, Text);
    WriteKeepsSide(st, p, job, f, untombed, Image);
    if st.rebuild.Active? {
      WriteBuildRefines(st.rebuild, p.building, job, f);
    }
  }

  /** What a delete keeps of one source of one kind. */
  lemma ErasedKeeps(side: Side, x: Index, y: Index, k: Kind, s: Source, t: Source, deleted: bool, cleared: bool)
    requires Key(k, t) in y.jobs <==> Key(k, t) in x.jobs && !(t == s && deleted)
    requires Key(k, t) in y.jobs ==> y.jobs[Key(k, t)] == x.jobs[Key(k, t)]
    requires Key(k, t) in y.legacy <==> Key(k, t) in x.legacy && !(t == s && deleted)
    requires Key(k, t) in y.legacy ==> y.legacy[Key(k, t)] == x.legacy[Key(k, t)]
    ensures var after := side.(delta := Erased(side.delta, s, deleted, cleared));
      && (Follows(side, x, k, t) ==> Follows(after, y, k, t))
      && (Tracks(side, x, k, t) && (t == s && deleted ==> Under(side.base, s, RowLeft(side, s, cleared)) || NoRecords(side.base, s))
          ==> Tracks(after, y, k, t))
  {
    if deleted && t != s {
      OthersErased(side.delta.col, s, t, Row(side.delta.rows, t));
    }
    if deleted && t == s {
      GenerationNothing(side.base, s, RowLeft(side, s, cleared));
    }
  }

  lemma OthersErased(col: Collection, s: Source, t: Source, g: nat)
    requires t != s
    ensures Generation(Others(col, s), t, g) == Generation(col, t, g)
    ensures NothingAt(Others(col, s), t, g) <==> NothingAt(col, t, g)
  {
    assert Generation(Others(col, s), t, g) == Generation(col, t, g);
    SameGenerationNothing(Others(col, s), col, t, g);
  }

  lemma ErasedBuilds(sh: Shelf, b: map<Key, Job>, b': map<Key, Job>, k: Kind, s: Source, t: Source, deleted: bool, cleared: bool)
    requires Key(k, t) in b' <==> Key(k, t) in b && !(t == s && deleted)
    requires Key(k, t) in b' ==> b'[Key(k, t)] == b[Key(k, t)]
    requires Builds(sh, b, k, t)
    ensures Builds(Erased(sh, s, deleted, cleared), b', k, t)
  {
    if deleted && t != s {
      OthersErased(sh.col, s, t, Row(sh.rows, t));
    }
  }

  lemma DeleteKeepsSide(st: State, p: Plain, s: Source, d: DeleteFaults, k: Kind)
    requires Refines(st, p) && Fair(st, Delete(s, d))
    ensures SideRefines(DeleteStep(st, s, d).lib, PlainStep(p, st, Delete(s, d)).live, k)
  {
    var l', x' := DeleteStep(st, s, d).lib, PlainStep(p, st, Delete(s, d)).live;
    forall t
      ensures Follows(SideOf(l', k), x', k, t) && (Settled(l', k, t) ==> Tracks(SideOf(l', k), x', k, t))
    {
      assert Follows(SideOf(st.lib, k), p.live, k, t);
      assert Settled(l', k, t) ==> Settled(st.lib, k, t);
      if st.rebuild.Idle? {
        ErasedKeeps(SideOf(st.lib, k), p.live, x', k, s, t, if k.Text? then d.textDeleted else d.imageDeleted,
                    if k.Text? then d.textCleared else d.imageCleared);
      }
    }
  }

  lemma DeleteKeepsBuilds(sh: Shelf, building: map<Key, Job>, s: Source, d: DeleteFaults, k: Kind)
    requires BuildsAll(sh, building, k)
    ensures var deleted := if k.Text? then d.textDeleted else d.imageDeleted;
      var cleared := if k.Text? then d.textCleared else d.imageCleared;
      BuildsAll(Erased(sh, s, deleted, cleared), building - DroppedKeys(s, d), k)
  {
    var deleted := if k.Text? then d.textDeleted else d.imageDeleted;
    var cleared := if k.Text? then d.textCleared else d.imageCleared;
    forall t
      ensures Builds(Erased(sh, s, deleted, cleared), building - DroppedKeys(s, d), k, t)
    {
      ErasedBuilds(sh, building, building - DroppedKeys(s, d), k, s, t, deleted, cleared);
    }
  }

  lemma DeleteStepRefines(st: State, p: Plain, s: Source, d: DeleteFaults)
    requires Refines(st, p) && Fair(st, Delete(s, d))
    ensures Refines(DeleteStep(st, s, d), PlainStep(p, st, Delete(s, d)))
  {
    DeleteKeepsSide(st, p, s, d, Text);
    DeleteKeepsSide(st, p, s, d, Image);
    if st.rebuild.Active? {
      DeleteKeepsBuilds(st.rebuild.text, p.building, s, d, Text);
      DeleteKeepsBuilds(st.rebuild.image, p.building, s, d, Image);
    }
  }

  /** After a switch the rebuilt index is the live one. */
  lemma SwitchedTracks(side: Side, rebuilt: Shelf, building: map<Key, Job>, k: Kind, s: Source)
    requires Builds(rebuilt, building, k, s) && NoneAbove(rebuilt, s)
    ensures Tracks(SwitchedSide(side, rebuilt, true), Index(building, map[]), k, s)
    ensures Follows(SwitchedSide(side, rebuilt, true), Index(building, map[]), k, s)
  {
    var after := SwitchedSide(side, rebuilt, true);
    GenerationNothing(after.base, s, Row(after.delta.rows, s));
  }

  lemma SwitchedRefines(l: Library, r: Rebuild, building: map<Key, Job>)
    requires r.Active? && BuildRefines(r, building)
    requires forall s :: NoneAbove(r.text, s) && NoneAbove(r.image, s)
    ensures LiveRefines(CommitStep(State(l, r), Switched(true, true)).lib, Index(building, map[]))
  {
    forall s
      ensures Tracks(SwitchedSide(l.text, r.text, true), Index(building, map[]), Text, s)
      ensures Follows(SwitchedSide(l.text, r.text, true), Index(building, map[]), Text, s)
      ensures Tracks(SwitchedSide(l.image, r.image, true), Index(building, map[]), Image, s)
      ensures Follows(SwitchedSide(l.image, r.image, true), Index(building, map[]), Image, s)
    {
      SwitchedTracks(l.text, r.text, building, Text, s);
      SwitchedTracks(l.image, r.image, building, Image, s);
    }
  }

  lemma CommitStepRefines(st: State, p: Plain, outcome: CommitOutcome)
    requires Refines(st, p) && Fair(st, Commit(outcome))
    ensures Refines(CommitStep(st, outcome), PlainStep(p, st, Commit(outcome)))
  {
    if st.rebuild.Active? && outcome.Switched? {
      SwitchedRefines(st.lib, st.rebuild, p.building);
    }
  }

  lemma StepRefines(st: State, p: Plain, step: Step)
    requires Refines(st, p) && Fair(st, step)
    ensures Refines(Apply(st, step), PlainStep(p, st, step))
  {
    match step
    case Write(job, f, untombed) => WriteStepRefines(st, p, job, f, untombed);
    case Delete(s, d) => DeleteStepRefines(st, p, s, d);
    case Commit(outcome) => CommitStepRefines(st, p, outcome);
    case Begin(_, _) =>
    case Abort =>
  }

  /** Over every fair run of writes, deletes, rebuilds, commits and aborts, with any failures, the
  index refines the plain map. */
  lemma {:induction false} RunRefines(st: State, p: Plain, steps: seq<Step>)
    requires Refines(st, p) && FairRun(st, steps)
    ensures Refines(Run(st, steps), PlainRun(p, st, steps))
    decreases |steps|
  {
    if steps != [] {
      StepRefines(st, p, steps[0]);
      RunRefines(Apply(st, steps[0]), PlainStep(p, st, steps[0]), steps[1..]);
    }
  }
}
