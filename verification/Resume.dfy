/** Resuming a rebuild after a restart: the scan skips the files it takes for unchanged, by a check that looks
up the rebuild's registry rows but reads the live collections. */
module Resume {
  import opened Options
  import opened Storage
  import opened Replacement
  import opened Library
  import opened Refinement
  import opened Views
  import V = Verification
  import K = Workers

  /** What the check may read of a source in one kind, while a rebuild is active. */
  ghost predicate Reads(st: State, k: Kind, s: Source, rows: seq<Record>)
    requires st.rebuild.Active?
  {
    V.Union(rows, [Some(SideOf(st.lib, k).delta.col), Some(SideOf(st.lib, k).base)], s, Row(ShelfOf(st.rebuild, k).rows, s))
  }

  /** The scan skips a file whose stored hash, read so, is its fingerprint. */
  ghost predicate Skips(text: seq<Record>, image: seq<Record>, fingerprint: string) {
    fingerprint != "" && V.Trusted(Some(V.ReadingOf(text)), Some(V.ReadingOf(image)), fingerprint)
  }

  /** No stale record of s is in the live collections. */
  predicate Fresh(side: Side, s: Source) {
    NothingStale(side.delta.col, s, Row(side.delta.rows, s)) && NothingStale(side.base, s, Row(side.delta.rows, s))
  }

  lemma FreshEffective(side: Side, s: Source, c: nat)
    requires Fresh(side, s)
    ensures var g := Row(side.delta.rows, s);
      if c == 0 || c == g
      then V.Effective(side.delta.col, s, c) == Generation(side.delta.col, s, g) && V.Effective(side.base, s, c) == Generation(side.base, s, g)
      else V.Effective(side.delta.col, s, c) == map[] && V.Effective(side.base, s, c) == map[]
  {
  }

  lemma NothingRead(side: Side, s: Source, c: nat, rows: seq<Record>)
    requires V.Union(rows, [Some(side.delta.col), Some(side.base)], s, c)
    requires V.Effective(side.delta.col, s, c) == map[] && V.Effective(side.base, s, c) == map[]
    ensures rows == []
  {
    var x, y := V.UnionOfTwo(rows, side.delta.col, side.base, s, c);
    V.ListsNothing(x, map[]);
    V.ListsNothing(y, map[]);
  }

  /** A file with a committed live text and no stale records of it: the scan skips it if and only if the
  rebuild has no row of it or, by chance, the live one, and the fingerprint is that of the live text. With
  another row its live text is not seen, and only its images are asked. */
  lemma {:induction false} SkipsIff(st: State, p: Plain, s: Source, text: seq<Record>, image: seq<Record>, fingerprint: string)
    requires Refines(st, p) && st.rebuild.Active? && s !in st.lib.tombstones && Fresh(st.lib.text, s)
    requires Key(Text, s) in p.live.jobs && p.live.jobs[Key(Text, s)].writer.Chunks? && p.live.jobs[Key(Text, s)].hash != ""
    requires Reads(st, Text, s, text) && Reads(st, Image, s, image) && fingerprint != ""
    ensures var r, g := Row(st.rebuild.text.rows, s), Row(st.lib.text.delta.rows, s);
      Skips(text, image, fingerprint) <==>
      if r == 0 || r == g then fingerprint == p.live.jobs[Key(Text, s)].hash else V.ImageWhole(V.ReadingOf(image), fingerprint)
  {
    var side, job := st.lib.text, p.live.jobs[Key(Text, s)];
    var r, g := Row(st.rebuild.text.rows, s), Row(side.delta.rows, s);
    RefinedSource(st, p, Text, s);
    FreshEffective(side, s, r);
    if r == 0 || r == g {
      V.HeldReadsBack(side, job, s, r, text);
      V.TextWholeIffOnce(text, job, g);
    } else {
      NothingRead(side, s, r, text);
    }
  }

  lemma {:induction false} UnconcernedBuilding(st: State, p: Plain, steps: seq<Step>, k: Kind, s: Source)
    requires st.rebuild.Active?
    requires forall i :: 0 <= i < |steps| ==> IsWriteOrDelete(steps[i]) && !K.Concerns(steps[i], s)
    ensures var b := PlainRun(p, st, steps).building;
      (Key(k, s) in b <==> Key(k, s) in p.building) && (Key(k, s) in b ==> b[Key(k, s)] == p.building[Key(k, s)])
    decreases |steps|
  {
    if steps != [] {
      assert IsWriteOrDelete(steps[0]) && !K.Concerns(steps[0], s);
      UnconcernedBuilding(Apply(st, steps[0]), PlainStep(p, st, steps[0]), steps[1..], k, s);
    }
  }

  lemma WholeIsSome(job: Job, g: nat)
    requires Aligned(job) && !Empty(job)
    ensures Whole(job, g) != map[]
  {
    RecordAt(job, g, AllIndexes(|job.vectors|), 0);
  }

  lemma ShowsOne(l: Library, k: Kind, s: Source, want: Collection)
    requires s !in l.tombstones && Shows(l, k, s, want)
    ensures Shows(l, k, s, map[]) <==> want == map[]
  {
  }

  /** Whatever else the resumed rebuild does, a file it does no more work on is listed after the commit as
  the rebuild had it, so that nothing of it is listed if and only if no job of it was committed there. */
  lemma {:induction false} UntouchedShownIff(st: State, p: Plain, steps: seq<Step>, k: Kind, s: Source)
    requires Refines(st, p) && st.rebuild.Active?
    requires forall i :: 0 <= i < |steps| ==> IsWriteOrDelete(steps[i]) && !K.Concerns(steps[i], s)
    requires Fair(Run(st, steps), Commit(Switched(true, true))) && s !in Run(st, steps).lib.tombstones
    ensures Shows(Apply(Run(st, steps), Commit(Switched(true, true))).lib, k, s, map[]) <==> Key(k, s) !in p.building
  {
    RunBuilds(st, p, steps);
    UnconcernedBuilding(st, p, steps, k, s);
    var end, x := Run(st, steps), Index(PlainRun(p, st, steps).building, map[]);
    SwitchedRefines(end.lib, end.rebuild, x.jobs);
    var after := Apply(end, Commit(Switched(true, true)));
    var side := SideOf(after.lib, k);
    assert side.delta.col == map[];
    ReadsAgree(after, Plain(x, map[]), k, s);
    var g := Row(side.delta.rows, s);
    ShowsOne(after.lib, k, s, Content(x, k, s, g));
    if Key(k, s) in x.jobs {
      assert Follows(side, x, k, s);
      WholeIsSome(x.jobs[Key(k, s)], g);
    }
  }

  /** So a file that is whole in the live index but had no row in the rebuild when it was resumed, and has not
  changed since, is skipped as done; it is listed before the commit, and not after it. */
  lemma {:induction false} SkippedFileIsLost(st: State, p: Plain, steps: seq<Step>, s: Source, text: seq<Record>, image: seq<Record>)
    requires Refines(st, p) && st.rebuild.Active? && s !in st.lib.tombstones && Fresh(st.lib.text, s)
    requires Key(Text, s) in p.live.jobs && p.live.jobs[Key(Text, s)].writer.Chunks? && p.live.jobs[Key(Text, s)].hash != ""
    requires Reads(st, Text, s, text) && Reads(st, Image, s, image) && Row(st.rebuild.text.rows, s) == 0
    requires forall i :: 0 <= i < |steps| ==> IsWriteOrDelete(steps[i]) && !K.Concerns(steps[i], s)
    requires Fair(Run(st, steps), Commit(Switched(true, true))) && s !in Run(st, steps).lib.tombstones
    ensures Skips(text, image, p.live.jobs[Key(Text, s)].hash)
    ensures Aligned(p.live.jobs[Key(Text, s)]) &&
      Shows(st.lib, Text, s, Whole(p.live.jobs[Key(Text, s)], Row(st.lib.text.delta.rows, s)))
    ensures Shows(Apply(Run(st, steps), Commit(Switched(true, true))).lib, Text, s, map[])
  {
    SkipsIff(st, p, s, text, image, p.live.jobs[Key(Text, s)].hash);
    ReadsAgree(st, p, Text, s);
    assert Builds(st.rebuild.text, p.building, Text, s);
    UntouchedShownIff(st, p, steps, Text, s);
  }
}
