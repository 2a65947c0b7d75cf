/** What readers see: consequences of refinement, where runs may start, and what a rebuild keeps. */
module Views {
  import opened Storage
  import opened Replacement
  import opened Library
  import opened Refinement

  /** The records of s that the plain map says readers see: its last committed job, numbered by its
  row, or its legacy records, or nothing. */
  function Content(x: Index, k: Kind, s: Source, g: nat): Collection
    requires Key(k, s) in x.jobs ==> Aligned(x.jobs[Key(k, s)])
  {
    if Key(k, s) in x.jobs then Whole(x.jobs[Key(k, s)], g) else LegacyOf(x, k, s)
  }

  /** Only while the registry is entirely empty can a failed first write show. */
  predicate Filtered(l: Library, k: Kind, s: Source) {
    SideOf(l, k).delta.rows.Keys != {} || NoRecords(SideOf(l, k).delta.col, s)
  }

  lemma RefinedSource(st: State, p: Plain, k: Kind, s: Source)
    requires Refines(st, p)
    ensures Key(k, s) in p.live.jobs ==> Aligned(p.live.jobs[Key(k, s)])
    ensures s !in st.lib.tombstones ==> Tracks(SideOf(st.lib, k), p.live, k, s)
  {
    assert SideRefines(st.lib, p.live, k);
    assert Follows(SideOf(st.lib, k), p.live, k, s);
    assert s !in st.lib.tombstones ==> Settled(st.lib, k, s);
  }

  lemma ListedIs(col: Collection, rows: map<Source, nat>, s: Source)
    ensures rows.Keys != {} ==> Listed(col, rows, s) == Generation(col, s, Row(rows, s))
    ensures Under(col, s, Row(rows, s) + 1) && Row(rows, s) == 0 ==> Listed(col, rows, s) == Generation(col, s, 0)
    ensures NoRecords(col, s) ==> Listed(col, rows, s) == map[]
  {
  }

  /** Both sides of a source, when its base is no newer than its row. */
  lemma ListedSides(side: Side, s: Source)
    requires BaseBelow(side, s) && (side.delta.rows.Keys != {} || NoRecords(side.delta.col, s))
    ensures var g := Row(side.delta.rows, s);
      && Listed(side.delta.col, side.delta.rows, s) == Generation(side.delta.col, s, g)
      && Listed(side.base, side.delta.rows, s) == Generation(side.base, s, g)
  {
    ListedIs(side.delta.col, side.delta.rows, s);
    ListedIs(side.base, side.delta.rows, s);
    if side.delta.rows.Keys == {} {
      assert Generation(side.delta.col, s, 0) == map[];
    }
  }

  /** Whenever the index refines the plain map, search and listing return exactly the last committed
  write of an untombstoned source, exactly the legacy records of one that was neither written nor
  deleted since, and nothing of a tombstoned one or of any other. */
  lemma ReadsAgree(st: State, p: Plain, k: Kind, s: Source)
    requires Refines(st, p)
    ensures Key(k, s) in p.live.jobs ==> Aligned(p.live.jobs[Key(k, s)]) && Filtered(st.lib, k, s)
    ensures s in st.lib.tombstones ==> Shows(st.lib, k, s, map[])
    ensures s !in st.lib.tombstones && Filtered(st.lib, k, s) ==>
      Shows(st.lib, k, s, Content(p.live, k, s, Row(SideOf(st.lib, k).delta.rows, s)))
  {
    RefinedSource(st, p, k, s);
    var side := SideOf(st.lib, k);
    var g := Row(side.delta.rows, s);
    assert SideRefines(st.lib, p.live, k) && Follows(side, p.live, k, s);
    if s !in st.lib.tombstones && Filtered(st.lib, k, s) {
      ListedSides(side, s);
      GenerationNothing(side.base, s, g);
      GenerationNothing(side.delta.col, s, g);
      EitherSide(Generation(side.delta.col, s, g), Generation(side.base, s, g));
    }
  }

  lemma EitherSide(d: Collection, b: Collection)
    ensures b.Keys == {} ==> d.Keys !! b.Keys && d + b == d
    ensures d.Keys == {} ==> d.Keys !! b.Keys && d + b == b
  {
  }

  /** Over every fair run, reads return what the plain map holds. */
  lemma {:induction false} RunShowsLastCommit(st: State, p: Plain, steps: seq<Step>, k: Kind, s: Source)
    requires Refines(st, p) && FairRun(st, steps) && s !in Run(st, steps).lib.tombstones
    ensures var x, l := PlainRun(p, st, steps).live, Run(st, steps).lib; var g := Row(SideOf(l, k).delta.rows, s);
      && (Key(k, s) in x.jobs ==> Aligned(x.jobs[Key(k, s)]) && Shows(l, k, s, Whole(x.jobs[Key(k, s)], g)))
      && (Key(k, s) !in x.jobs && Filtered(l, k, s) ==> Shows(l, k, s, LegacyOf(x, k, s)))
  {
    RunRefines(st, p, steps);
    ReadsAgree(Run(st, steps), PlainRun(p, st, steps), k, s);
  }

  // ----- Where runs may start

  function SourcesOf(col: Collection): set<Source> {
    set id | id in col :: col[id].source
  }

  /** All records of a collection, by source. */
  function LegacyIndex(col: Collection, k: Kind): map<Key, Collection> {
    map key | key in (set s | s in SourcesOf(col) :: Key(k, s)) :: Generation(col, key.source, 0)
  }

  /** An index from before generations: legacy records in the base, no registry row, an empty delta. */
  function LegacyStore(text: Collection, image: Collection): State {
    State(Library(Side(EMPTY_SHELF, text), Side(EMPTY_SHELF, image), {}), Idle)
  }

  function LegacyPlain(text: Collection, image: Collection): Plain {
    Plain(Index(map[], LegacyIndex(text, Text) + LegacyIndex(image, Image)), map[])
  }

  lemma LegacySource(col: Collection, k: Kind, x: Index, s: Source)
    requires forall id :: id in col ==> col[id].gen == 0
    requires x.jobs == map[] && LegacyOf(x, k, s) == LegacyOf(Index(map[], LegacyIndex(col, k)), k, s)
    requires Key(k, s) in x.legacy <==> s in SourcesOf(col)
    ensures Tracks(Side(EMPTY_SHELF, col), x, k, s) && Follows(Side(EMPTY_SHELF, col), x, k, s)
  {
    if s !in SourcesOf(col) {
      assert Generation(col, s, 0) == map[] by {
        forall id | id in col
          ensures col[id].source in SourcesOf(col)
        {
        }
      }
    }
  }

  /** A store of legacy records, in particular an empty one, is where every run may start. */
  lemma LegacyStoreRefines(text: Collection, image: Collection)
    requires forall id :: id in text ==> id.LegacyId? && text[id].gen == 0
    requires forall id :: id in image ==> id.LegacyId? && image[id].gen == 0
    ensures Refines(LegacyStore(text, image), LegacyPlain(text, image))
  {
    var x := LegacyPlain(text, image).live;
    forall s
      ensures Tracks(Side(EMPTY_SHELF, text), x, Text, s) && Follows(Side(EMPTY_SHELF, text), x, Text, s)
      ensures Tracks(Side(EMPTY_SHELF, image), x, Image, s) && Follows(Side(EMPTY_SHELF, image), x, Image, s)
    {
      LegacySource(text, Text, x, s);
      LegacySource(image, Image, x, s);
    }
  }

  // ----- Rebuild isolation

  predicate IsWriteOrDelete(step: Step) {
    step.Write? || step.Delete?
  }

  /** Whether a source has a tombstone after a step: image writes clear it, whether or not they commit
  and wherever they go, and deletes record it. */
  predicate TombStep(step: Step, s: Source, tombed: bool) {
    match step
    case Write(job, _, untombed) => tombed && !(job.source == s && KindOf(job.writer).Image? && !Empty(job) && untombed)
    case Delete(t, d) => tombed || (t == s && d.tombstoned)
    case _ => tombed
  }

  predicate TombedAfter(steps: seq<Step>, s: Source, tombed: bool)
    decreases |steps|
  {
    if steps == [] then tombed else TombedAfter(steps[1..], s, TombStep(steps[0], s, tombed))
  }

  /** While a rebuild is active, no run of writes and deletes, with any failures, touches the live
  collections or their registry rows. The tombstones are live ones, and do change. */
  lemma {:induction false} RebuildIsolated(st: State, steps: seq<Step>)
    requires st.rebuild.Active? && forall i :: 0 <= i < |steps| ==> IsWriteOrDelete(steps[i])
    ensures Run(st, steps).rebuild.Active?
    ensures Run(st, steps).lib.text == st.lib.text && Run(st, steps).lib.image == st.lib.image
    ensures forall s :: s in Run(st, steps).lib.tombstones <==> TombedAfter(steps, s, s in st.lib.tombstones)
    decreases |steps|
  {
    if steps != [] {
      assert IsWriteOrDelete(steps[0]);
      RebuildIsolated(Apply(st, steps[0]), steps[1..]);
      forall s
        ensures s in Run(st, steps).lib.tombstones <==> TombedAfter(steps, s, s in st.lib.tombstones)
      {
        assert s in Apply(st, steps[0]).lib.tombstones <==> TombStep(steps[0], s, s in st.lib.tombstones);
      }
    }
  }

  /** With other rows present, a source without a tombstone shows nothing iff neither side has it at its row. */
  lemma ShowsNothingIff(l: Library, k: Kind, s: Source)
    requires s !in l.tombstones && SideOf(l, k).delta.rows.Keys != {}
    ensures var side := SideOf(l, k); var g := Row(side.delta.rows, s);
      Shows(l, k, s, map[]) <==> NothingAt(side.delta.col, s, g) && NothingAt(side.base, s, g)
  {
    var side := SideOf(l, k);
    var g := Row(side.delta.rows, s);
    ListedIs(side.delta.col, side.delta.rows, s);
    ListedIs(side.base, side.delta.rows, s);
    GenerationNothing(side.delta.col, s, g);
    GenerationNothing(side.base, s, g);
    var d, b := Generation(side.delta.col, s, g), Generation(side.base, s, g);
    if d + b == map[] {
      assert forall id :: id in d || id in b ==> id in d + b;
    }
  }

  /** Without any row, iff neither side has any record of it. */
  lemma ShowsNothingUnfiltered(l: Library, k: Kind, s: Source)
    requires s !in l.tombstones && SideOf(l, k).delta.rows.Keys == {}
    ensures Shows(l, k, s, map[]) <==> NoRecords(SideOf(l, k).delta.col, s) && NoRecords(SideOf(l, k).base, s)
  {
    var side := SideOf(l, k);
    var d, b := Listed(side.delta.col, side.delta.rows, s), Listed(side.base, side.delta.rows, s);
    if d + b == map[] {
      forall id | id in side.delta.col || id in side.base
        ensures (id in side.delta.col ==> side.delta.col[id].source != s) && (id in side.base ==> side.base[id].source != s)
      {
        assert id !in d + b;
      }
    }
  }

  /** Neither side has anything of s to list: at its row or, without any row, at all. */
  predicate ListsNothing(side: Side, s: Source) {
    if side.delta.rows.Keys != {}
    then NothingAt(side.delta.col, s, Row(side.delta.rows, s)) && NothingAt(side.base, s, Row(side.delta.rows, s))
    else NoRecords(side.delta.col, s) && NoRecords(side.base, s)
  }

  lemma ShowsNothing(l: Library, k: Kind, s: Source)
    requires s !in l.tombstones
    ensures Shows(l, k, s, map[]) <==> ListsNothing(SideOf(l, k), s)
  {
    if SideOf(l, k).delta.rows.Keys != {} {
      ShowsNothingIff(l, k, s);
    } else {
      ShowsNothingUnfiltered(l, k, s);
    }
  }

  /** What is listed of s is the same before and after. */
  ghost predicate SameListing(a: Library, b: Library, k: Kind, s: Source) {
    forall want :: Shows(b, k, s, want) <==> Shows(a, k, s, want)
  }

  /** With collections and rows the same, the listing is the same if and only if the tombstone is, or there is nothing to list. */
  lemma SameListingIff(a: Library, b: Library, k: Kind, s: Source)
    requires SideOf(a, k) == SideOf(b, k)
    ensures SameListing(a, b, k, s) <==> (s in a.tombstones <==> s in b.tombstones) || ListsNothing(SideOf(a, k), s)
  {
    if s in a.tombstones && s !in b.tombstones {
      TombstoneHides(b, a, k, s);
    } else if s !in a.tombstones && s in b.tombstones {
      TombstoneHides(a, b, k, s);
    }
  }

  lemma TombstoneHides(open: Library, hidden: Library, k: Kind, s: Source)
    requires SideOf(open, k) == SideOf(hidden, k) && s !in open.tombstones && s in hidden.tombstones
    ensures (forall want :: Shows(open, k, s, want) <==> Shows(hidden, k, s, want)) <==> ListsNothing(SideOf(open, k), s)
  {
    ShowsNothing(open, k, s);
    assert Shows(hidden, k, s, map[]);
    if ListsNothing(SideOf(open, k), s) {
      forall want
        ensures Shows(open, k, s, want) <==> Shows(hidden, k, s, want)
      {
        assert Shows(open, k, s, map[]);
        assert want.Keys == {} ==> want == map[];
      }
    }
  }

  /** So writes and deletes during a rebuild leave the listing of a source as it was if and only if its
  tombstone is as it was, or there is nothing of it to list in the live collections. */
  lemma RebuildKeepsListingIff(st: State, steps: seq<Step>, k: Kind, s: Source)
    requires st.rebuild.Active? && forall i :: 0 <= i < |steps| ==> IsWriteOrDelete(steps[i])
    ensures SameListing(st.lib, Run(st, steps).lib, k, s) <==>
      (TombedAfter(steps, s, s in st.lib.tombstones) <==> s in st.lib.tombstones) || ListsNothing(SideOf(st.lib, k), s)
  {
    RebuildIsolated(st, steps);
    SameListingIff(st.lib, Run(st, steps).lib, k, s);
  }

  lemma {:induction false} RunAppend(st: State, a: seq<Step>, b: seq<Step>)
    ensures Run(st, a + b) == Run(Run(st, a), b)
    decreases |a|
  {
    if a == [] {
      assert a + b == b;
    } else {
      assert (a + b)[1..] == a[1..] + b;
      RunAppend(Apply(st, a[0]), a[1..], b);
    }
  }

  /** Begin, any writes and deletes, then abort: live collections and registry rows are exactly as
  before and no rebuild is left, yet the tombstones are what the writes and deletes made of them; a
  source is listed as before if and only if its own is as before or there is nothing of it to list. */
  lemma AbortRestores(st: State, begin: Step, steps: seq<Step>, k: Kind, s: Source)
    requires st.rebuild.Idle? && begin.Begin? && forall i :: 0 <= i < |steps| ==> IsWriteOrDelete(steps[i])
    ensures var after := Run(st, [begin] + steps + [Abort]);
      && after.rebuild.Idle? && after.lib.text == st.lib.text && after.lib.image == st.lib.image
      && (s in after.lib.tombstones <==> TombedAfter(steps, s, s in st.lib.tombstones))
      && (SameListing(st.lib, after.lib, k, s) <==>
            (TombedAfter(steps, s, s in st.lib.tombstones) <==> s in st.lib.tombstones) || ListsNothing(SideOf(st.lib, k), s))
  {
    RunAppend(st, [begin] + steps, [Abort]);
    RunAppend(st, [begin], steps);
    assert Run(st, [begin]) == Apply(st, begin);
    RebuildKeepsListingIff(Apply(st, begin), steps, k, s);
    RebuildIsolated(Apply(st, begin), steps);
    var mid := Run(Apply(st, begin), steps);
    assert Run(mid, [Abort]) == Apply(mid, Abort);
  }

  // ----- When a rebuild may be committed

  /** Whether the last write of (k, s) in the rebuild committed, or a delete removed its records since. */
  ghost function LastWriteOk(st: State, steps: seq<Step>, k: Kind, s: Source, ok: bool): bool
    decreases |steps|
  {
    if steps == [] then ok
    else LastWriteOk(Apply(st, steps[0]), steps[1..], k, s, OkAfter(st, steps[0], k, s, ok))
  }

  ghost function OkAfter(st: State, step: Step, k: Kind, s: Source, ok: bool): bool {
    match step
    case Write(job, f, _) => if KindOf(job.writer) == k && job.source == s then Commits(Target(st, k), job, f) else ok
    case Delete(t, d) => ok || (t == s && if k.Text? then d.textDeleted else d.imageDeleted)
    case _ => ok
  }

  lemma OkStep(st: State, step: Step, k: Kind, s: Source, ok: bool)
    requires st.rebuild.Active? && IsWriteOrDelete(step) && WellFormed(ShelfOf(st.rebuild, k).col)
    requires ok ==> NoneAbove(ShelfOf(st.rebuild, k), s)
    ensures Apply(st, step).rebuild.Active? && WellFormed(ShelfOf(Apply(st, step).rebuild, k).col)
    ensures OkAfter(st, step, k, s, ok) ==> NoneAbove(ShelfOf(Apply(st, step).rebuild, k), s)
  {
    var sh := ShelfOf(st.rebuild, k);
    match step
    case Write(job, f, _) =>
      if KindOf(job.writer) == k {
        ReplaceIsAtomic(sh, job, f);
        ReplaceKeeps(sh, job, f);
        if job.source != s && ok {
          NoneAboveOther(sh, Replace(sh, job, f).shelf, job.source, s);
        }
      }
    case Delete(t, d) =>
  }

  lemma NoneAboveOther(before: Shelf, after: Shelf, s: Source, t: Source)
    requires t != s && Others(after.col, s) == Others(before.col, s) && Row(after.rows, t) == Row(before.rows, t)
    requires NoneAbove(before, t)
    ensures NoneAbove(after, t)
  {
    forall id | id in after.col && after.col[id].source == t
      ensures after.col[id].gen <= Row(after.rows, t)
    {
      assert Others(after.col, s)[id] == after.col[id];
      assert id in Others(before.col, s);
    }
  }

  /** From an empty rebuild, through any run of writes and deletes: a source whose last write
  committed has no record above its registry row, so a later generation never mixes with it. */
  lemma {:induction false} LastWriteOkMeansNoneAbove(st: State, steps: seq<Step>, k: Kind, s: Source, ok: bool)
    requires st.rebuild.Active? && forall i :: 0 <= i < |steps| ==> IsWriteOrDelete(steps[i])
    requires WellFormed(ShelfOf(st.rebuild, k).col) && (ok ==> NoneAbove(ShelfOf(st.rebuild, k), s))
    ensures Run(st, steps).rebuild.Active?
    ensures LastWriteOk(st, steps, k, s, ok) ==> NoneAbove(ShelfOf(Run(st, steps).rebuild, k), s)
    decreases |steps|
  {
    if steps != [] {
      assert IsWriteOrDelete(steps[0]);
      OkStep(st, steps[0], k, s, ok);
      LastWriteOkMeansNoneAbove(Apply(st, steps[0]), steps[1..], k, s, OkAfter(st, steps[0], k, s, ok));
    }
  }

  /** Only the rebuild's own shelves decide what it holds: through any run of writes and deletes, fair
  for the live index or not, they refine the jobs committed to it. */
  lemma {:induction false} RunBuilds(st: State, p: Plain, steps: seq<Step>)
    requires st.rebuild.Active? && BuildRefines(st.rebuild, p.building)
    requires forall i :: 0 <= i < |steps| ==> IsWriteOrDelete(steps[i])
    ensures Run(st, steps).rebuild.Active? && BuildRefines(Run(st, steps).rebuild, PlainRun(p, st, steps).building)
    decreases |steps|
  {
    if steps != [] {
      assert IsWriteOrDelete(steps[0]);
      match steps[0] {
        case Write(job, f, untombed) => WriteBuildRefines(st.rebuild, p.building, job, f);
        case Delete(s, d) =>
          DeleteKeepsBuilds(st.rebuild.text, p.building, s, d, Text);
          DeleteKeepsBuilds(st.rebuild.image, p.building, s, d, Image);
        case _ =>
      }
      RunBuilds(Apply(st, steps[0]), PlainStep(p, st, steps[0]), steps[1..]);
    }
  }

  const NOTHING := Plain(Index(map[], map[]), map[])

  /** The jobs committed to a rebuild by a run of writes and deletes from its begin. */
  ghost function Rebuilt(st: State, begin: Step, steps: seq<Step>): map<Key, Job> {
    PlainRun(NOTHING, Apply(st, begin), steps).building
  }

  lemma EmptyBuilds(rows: map<Source, nat>, k: Kind, s: Source)
    ensures Builds(Shelf(map[], rows), map[], k, s)
  {
  }

  /** Begin, with any rows left over, any writes and deletes, and a commit that renames both tokens and finds no record above a
  row: search and listing return, of every untombstoned source and whatever was live before, exactly
  its last job committed to the rebuild, and nothing of a source without one. */
  lemma {:induction false} CommitShowsRebuilt(st: State, begin: Step, steps: seq<Step>, k: Kind, s: Source)
    requires st.rebuild.Idle? && begin.Begin? && forall i :: 0 <= i < |steps| ==> IsWriteOrDelete(steps[i])
    requires Fair(Run(Apply(st, begin), steps), Commit(Switched(true, true)))
    requires s !in Run(Apply(st, begin), steps).lib.tombstones
    ensures var l := Apply(Run(Apply(st, begin), steps), Commit(Switched(true, true))).lib;
      var x, g := Index(Rebuilt(st, begin, steps), map[]), Row(SideOf(l, k).delta.rows, s);
      && LiveRefines(l, x)
      && (Key(k, s) in x.jobs ==> Aligned(x.jobs[Key(k, s)])) && Shows(l, k, s, Content(x, k, s, g))
  {
    var begun := Apply(st, begin);
    forall t
      ensures Builds(begun.rebuild.text, map[], Text, t) && Builds(begun.rebuild.image, map[], Image, t)
    {
      EmptyBuilds(begin.textLeft, Text, t);
      EmptyBuilds(begin.imageLeft, Image, t);
    }
    RunBuilds(begun, NOTHING, steps);
    var end := Run(begun, steps);
    SwitchedRefines(end.lib, end.rebuild, Rebuilt(st, begin, steps));
    var after := Apply(end, Commit(Switched(true, true)));
    assert SideOf(after.lib, k).delta.col == map[];
    ReadsAgree(after, Plain(Index(Rebuilt(st, begin, steps), map[]), map[]), k, s);
  }

  // ----- At most two adjacent generations

  ghost predicate AllAdjacent(st: State) {
    && (forall s :: Adjacent(st.lib.text.delta, s) && Adjacent(st.lib.image.delta, s))
    && (st.rebuild.Active? ==> forall s :: Adjacent(st.rebuild.text, s) && Adjacent(st.rebuild.image, s))
    && WellFormed(st.lib.text.delta.col) && WellFormed(st.lib.image.delta.col)
    && (st.rebuild.Active? ==> WellFormed(st.rebuild.text.col) && WellFormed(st.rebuild.image.col))
  }

  lemma ReplaceKeepsAdjacent(sh: Shelf, job: Job, f: Faults)
    requires WellFormed(sh.col) && forall s :: Adjacent(sh, s)
    ensures WellFormed(Replace(sh, job, f).shelf.col) && forall s :: Adjacent(Replace(sh, job, f).shelf, s)
  {
    ReplaceKeeps(sh, job, f);
    var after := Replace(sh, job, f).shelf;
    forall s
      ensures Adjacent(after, s)
    {
      if s != job.source {
        assert Adjacent(sh, s);
        forall id | id in after.col && after.col[id].source == s
          ensures id in sh.col && sh.col[id] == after.col[id]
        {
          assert Others(after.col, job.source)[id] == after.col[id];
          assert id in Others(sh.col, job.source);
        }
      }
    }
  }

  lemma ErasedKeepsAdjacent(sh: Shelf, s: Source, deleted: bool, cleared: bool)
    requires WellFormed(sh.col) && forall t :: Adjacent(sh, t)
    ensures WellFormed(Erased(sh, s, deleted, cleared).col) && forall t :: Adjacent(Erased(sh, s, deleted, cleared), t)
  {
    forall t
      ensures Adjacent(Erased(sh, s, deleted, cleared), t)
    {
      assert Adjacent(sh, t);
    }
  }

  lemma StepKeepsAdjacent(st: State, step: Step)
    requires AllAdjacent(st)
    ensures AllAdjacent(Apply(st, step))
  {
    match step
    case Write(job, f, _) => ReplaceKeepsAdjacent(Target(st, KindOf(job.writer)), job, f);
    case Delete(s, d) =>
      ErasedKeepsAdjacent(if st.rebuild.Active? then st.rebuild.text else st.lib.text.delta, s, d.textDeleted, d.textCleared);
      ErasedKeepsAdjacent(if st.rebuild.Active? then st.rebuild.image else st.lib.image.delta, s, d.imageDeleted, d.imageCleared);
    case _ =>
  }

  /** Over every run, fair or not, a write collection never holds more than two adjacent generations of a source. */
  lemma {:induction false} RunKeepsAdjacent(st: State, steps: seq<Step>)
    requires AllAdjacent(st)
    ensures AllAdjacent(Run(st, steps))
    decreases |steps|
  {
    if steps != [] {
      StepKeepsAdjacent(st, steps[0]);
      RunKeepsAdjacent(Apply(st, steps[0]), steps[1..]);
    }
  }
}
