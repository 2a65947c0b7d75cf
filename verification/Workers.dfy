/** What a worker's report of success is worth: the writes by which the index job of one file is done,
which of their results the report ignores, and when a rebuild whose every job is done may be committed. */
module Workers {
  import opened Options
  import opened Storage
  import opened Text
  import opened Replacement
  import opened Library
  import opened Refinement
  import opened Views
  import Exceptions

  /** One call of a writer. */
  datatype Put = Put(job: Job, f: Faults, untombed: bool)

  /** What becomes of a file's text: none is found, or found but not cut or not embedded, or chunks are
  written. Without chunks the old ones are deleted. */
  datatype TextPart = Blank(deleted: bool, cleared: bool) | Uncut(deleted: bool, cleared: bool) | Unembedded | Chunked(put: Put)

  /** The indexing of one file. A video without frame vectors or chunk vectors has no such call. One that
  was abandoned, by an exception or for want of content, may have written frames or a vector before. */
  datatype Work =
    | Video(source: Source, frames: Option<Put>, anyText: bool, chunks: Option<Put>)
    | Audio(source: Source, chunks: Option<Put>)
    | Picture(source: Source, vector: Option<Put>, text: TextPart)
    | Document(source: Source, text: TextPart)
    | Abandoned(source: Source, first: Option<Put>)

  datatype Event = Indexed(work: Work) | Deleted(source: Source, d: DeleteFaults)

  // ----- What a worker does and reports

  function PutStep(put: Put): Step {
    Write(put.job, put.f, put.untombed)
  }

  function PutSteps(put: Option<Put>): seq<Step> {
    if put.Some? then [PutStep(put.value)] else []
  }

  /** Deleting the text chunks alone leaves images and tombstones as they are. */
  function TextDeletion(s: Source, deleted: bool, cleared: bool): Step {
    Delete(s, DeleteFaults(deleted, cleared, false, false, false))
  }

  function TextSteps(s: Source, text: TextPart): seq<Step> {
    match text
    case Blank(deleted, cleared) => [TextDeletion(s, deleted, cleared)]
    case Uncut(deleted, cleared) => [TextDeletion(s, deleted, cleared)]
    case Unembedded => []
    case Chunked(put) => [PutStep(put)]
  }

  /** The image write of a job, which comes first. */
  function ImagePut(w: Work): Option<Put> {
    match w
    case Video(_, frames, _, _) => frames
    case Picture(_, vector, _) => vector
    case Abandoned(_, first) => first
    case _ => None
  }

  /** What it then does to the texts. */
  function TextStepsOf(w: Work): seq<Step> {
    match w
    case Video(_, _, _, chunks) => PutSteps(chunks)
    case Audio(_, chunks) => PutSteps(chunks)
    case Picture(s, _, text) => TextSteps(s, text)
    case Document(s, text) => TextSteps(s, text)
    case Abandoned(_, _) => []
  }

  function WorkSteps(w: Work): seq<Step> {
    PutSteps(ImagePut(w)) + TextStepsOf(w)
  }

  function EventSteps(e: Event): seq<Step> {
    match e
    case Indexed(w) => WorkSteps(w)
    case Deleted(s, d) => [Delete(s, d)]
  }

  /** The writer's own result. */
  predicate Stores(st: State, put: Put) {
    Replace(Target(st, KindOf(put.job.writer)), put.job, put.f).ok
  }

  /** The job is reported done. Of a video only the frames count, once anything was found; of a picture
  the vector is never asked for, and without text its being there is enough. */
  predicate ReportsDone(st: State, w: Work) {
    match w
    case Video(_, frames, anyText, _) => (frames.Some? || anyText) && (frames.Some? ==> Stores(st, frames.value))
    case Audio(_, chunks) => chunks.Some? && Stores(st, chunks.value)
    case Picture(_, vector, text) =>
      (match text
       case Blank(_, _) => vector.Some?
       case Uncut(_, _) => true
       case Unembedded => false
       case Chunked(put) => Stores(Run(st, PutSteps(vector)), put))
    case Document(_, text) => text.Chunked? && Stores(st, text.put)
    case Abandoned(_, _) => false
  }

  function RunEvents(st: State, events: seq<Event>): State {
    if events == [] then st else Run(RunEvents(st, events[..|events| - 1]), EventSteps(events[|events| - 1]))
  }

  predicate Works(e: Event, s: Source) {
    e.Indexed? && e.work.source == s
  }

  /** The last job of s was reported done; `before` says so of the jobs before these events. */
  predicate LastDone(st: State, events: seq<Event>, s: Source, before: bool) {
    if events == [] then before
    else
      var n := |events| - 1;
      if Works(events[n], s) then ReportsDone(RunEvents(st, events[..n]), events[n].work) else LastDone(st, events[..n], s, before)
  }

  lemma StepsAreWrites(w: Work)
    ensures forall i :: 0 <= i < |WorkSteps(w)| ==> IsWriteOrDelete(WorkSteps(w)[i])
  {
  }

  /** What happens in a rebuild does not depend on the live side. */
  predicate SameRebuild(a: State, b: State) {
    a.rebuild.Active? && a.rebuild == b.rebuild && a.lib.tombstones == b.lib.tombstones
  }

  lemma {:induction false} SameRun(a: State, b: State, steps: seq<Step>)
    requires SameRebuild(a, b) && forall i :: 0 <= i < |steps| ==> IsWriteOrDelete(steps[i])
    ensures SameRebuild(Run(a, steps), Run(b, steps))
    decreases |steps|
  {
    if steps != [] {
      SameRun(Apply(a, steps[0]), Apply(b, steps[0]), steps[1..]);
    }
  }

  lemma EventIsSteps(e: Event)
    ensures forall i :: 0 <= i < |EventSteps(e)| ==> IsWriteOrDelete(EventSteps(e)[i])
  {
    if e.Indexed? {
      StepsAreWrites(e.work);
    }
  }

  lemma {:induction false} SameEvents(a: State, b: State, events: seq<Event>)
    requires SameRebuild(a, b)
    ensures SameRebuild(RunEvents(a, events), RunEvents(b, events))
  {
    if events != [] {
      var n := |events| - 1;
      SameEvents(a, b, events[..n]);
      EventIsSteps(events[n]);
      SameRun(RunEvents(a, events[..n]), RunEvents(b, events[..n]), EventSteps(events[n]));
    }
  }

  lemma SameReport(a: State, b: State, w: Work)
    requires SameRebuild(a, b)
    ensures ReportsDone(a, w) == ReportsDone(b, w)
  {
    if w.Picture? {
      SameRun(a, b, PutSteps(w.vector));
    }
  }

  lemma {:induction false} SameLastDone(a: State, b: State, events: seq<Event>, s: Source, before: bool)
    requires SameRebuild(a, b)
    ensures LastDone(a, events, s, before) == LastDone(b, events, s, before)
  {
    if events != [] {
      var n := |events| - 1;
      SameLastDone(a, b, events[..n], s, before);
      SameEvents(a, b, events[..n]);
      if Works(events[n], s) {
        SameReport(RunEvents(a, events[..n]), RunEvents(b, events[..n]), events[n].work);
      }
    }
  }

  lemma EventsNext(st: State, events: seq<Event>, e: Event)
    ensures RunEvents(st, events + [e]) == Run(RunEvents(st, events), EventSteps(e))
  {
    assert (events + [e])[..|events + [e]| - 1] == events;
  }

  lemma {:induction false} EventsAppend(st: State, one: seq<Event>, two: seq<Event>)
    ensures RunEvents(st, one + two) == RunEvents(RunEvents(st, one), two)
  {
    if two == [] {
      assert one + two == one;
    } else {
      var init, last := two[..|two| - 1], two[|two| - 1];
      assert one + two == (one + init) + [last] && two == init + [last];
      EventsAppend(st, one, init);
      EventsNext(st, one + init, last);
      EventsNext(RunEvents(st, one), init, last);
    }
  }

  lemma LastDoneNext(st: State, events: seq<Event>, e: Event, s: Source, before: bool)
    ensures LastDone(st, events + [e], s, before) ==
      if Works(e, s) then ReportsDone(RunEvents(st, events), e.work) else LastDone(st, events, s, before)
  {
    assert (events + [e])[..|events + [e]| - 1] == events;
  }

  lemma {:induction false} LastDoneAppend(st: State, one: seq<Event>, two: seq<Event>, s: Source, before: bool)
    ensures LastDone(st, one + two, s, before) == LastDone(RunEvents(st, one), two, s, LastDone(st, one, s, before))
  {
    if two == [] {
      assert one + two == one;
    } else {
      var init, last := two[..|two| - 1], two[|two| - 1];
      assert one + two == (one + init) + [last] && two == init + [last];
      LastDoneAppend(st, one, init, s, before);
      EventsAppend(st, one, init);
      LastDoneNext(st, one + init, last, s, before);
      LastDoneNext(RunEvents(st, one), init, last, s, LastDone(st, one, s, before));
    }
  }

  lemma {:induction false} LastDoneMonotone(st: State, events: seq<Event>, s: Source, before: bool, more: bool)
    requires LastDone(st, events, s, before) && (before ==> more)
    ensures LastDone(st, events, s, more)
  {
    if events != [] && !Works(events[|events| - 1], s) {
      LastDoneMonotone(st, events[..|events| - 1], s, before, more);
    }
  }

  // ----- What one write leaves above the row, exactly

  predicate NoneLanded(landed: set<nat>, n: nat) {
    forall i: nat :: i < n ==> i !in landed
  }

  /** Whatever landed of the batch is deleted again. */
  ghost predicate CleanedUp(job: Job, f: Faults, g: nat) {
    f.drop.Completed? || forall i: nat :: i < |job.vectors| && i in f.add.landed ==> RecordId(job.writer, job.source, g, i) in f.drop.removed
  }

  /** Nothing of a batch that was begun is left above the row: after an addition that raised only the
  frame writer cleans up, and nothing does when the row cannot be stored. */
  ghost predicate BatchLeavesNone(job: Job, f: Faults, g: nat)
    requires Aligned(job)
  {
    if f.add.Failed? then NoneLanded(f.add.landed, |job.vectors|) || (job.writer.Frames? && CleanedUp(job, f, g))
    else if f.readBack && AllLanded(f.add.landed, |job.vectors|) && Acceptable(job) then f.switch
    else NoneLanded(f.add.landed, |job.vectors|) || CleanedUp(job, f, g)
  }

  ghost predicate LeavesNoneAbove(sh: Shelf, job: Job, f: Faults) {
    var s, c := job.source, Row(sh.rows, job.source);
    if Empty(job) then NoneAbove(sh, s)
    else if !NothingStale(sh.col, s, c) && f.purge.Raised? then
      forall id :: id in sh.col && sh.col[id].source == s && sh.col[id].gen > c ==> id in f.purge.removed
    else Aligned(job) ==> BatchLeavesNone(job, f, c + 1)
  }

  /** The records of s above row c. */
  predicate NoneOver(col: Collection, s: Source, c: nat) {
    forall id :: id in col && col[id].source == s ==> col[id].gen <= c
  }

  lemma LandedIds(job: Job, g: nat, landed: set<nat>)
    requires Aligned(job)
    ensures forall i: nat :: i < |job.vectors| && i in landed ==> RecordId(job.writer, job.source, g, i) in Batch(job, g, landed)
    ensures NoneLanded(landed, |job.vectors|) <==> Batch(job, g, landed).Keys == {}
  {
    BatchRecords(job, g, landed);
    forall i: nat | i < |job.vectors| && i in landed
      ensures RecordId(job.writer, job.source, g, i) in Batch(job, g, landed)
    {
      RecordAt(job, g, landed, i);
    }
    if !NoneLanded(landed, |job.vectors|) {
      var i: nat :| i < |job.vectors| && i in landed;
      assert RecordId(job.writer, job.source, g, i) in Batch(job, g, landed);
    }
  }

  /** After the purge and the addition, only the batch is above the row. */
  lemma AddedOver(col: Collection, job: Job, c: nat, landed: set<nat>)
    requires WellFormed(col) && Aligned(job)
    ensures var added := AfterAdd(col, job, c, c + 1, landed);
      && (NoneOver(added, job.source, c) <==> NoneLanded(landed, |job.vectors|))
      && Generation(added, job.source, c + 1).Keys == Batch(job, c + 1, landed).Keys
      && forall id :: id in added && added[id].source == job.source && added[id].gen > c <==> id in Batch(job, c + 1, landed)
  {
    var added := AfterAdd(col, job, c, c + 1, landed);
    AfterAddSound(col, job, c, landed);
    BatchRecords(job, c + 1, landed);
    LandedIds(job, c + 1, landed);
    forall id | id in Batch(job, c + 1, landed)
      ensures id in added && added[id].source == job.source && added[id].gen == c + 1
    {
      assert Generation(added, job.source, c + 1)[id] == Batch(job, c + 1, landed)[id];
    }
  }

  lemma PartDropped(added: Collection, batch: set<Id>, s: Source, c: nat, d: Deletion)
    requires forall id :: id in added && added[id].source == s && added[id].gen > c <==> id in batch
    requires Generation(added, s, c + 1).Keys == batch
    ensures NoneOver(Dropped(added, s, c + 1, d), s, c) <==> d.Completed? || batch <= d.removed
  {
    if d.Raised? {
      var after := Dropped(added, s, c + 1, d);
      forall id | id in batch
        ensures id in after <==> id !in d.removed
      {
        assert id in Generation(added, s, c + 1);
      }
    }
  }

  lemma CleanedUpIff(job: Job, f: Faults, g: nat)
    requires Aligned(job)
    ensures NoneLanded(f.add.landed, |job.vectors|) || CleanedUp(job, f, g) <==>
      f.drop.Completed? || Batch(job, g, f.add.landed).Keys <= f.drop.removed
  {
    var b := Batch(job, g, f.add.landed);
    LandedIds(job, g, f.add.landed);
    BatchRecords(job, g, f.add.landed);
    if f.drop.Raised? && CleanedUp(job, f, g) {
      forall id | id in b
        ensures id in f.drop.removed
      {
        assert id == RecordId(job.writer, job.source, g, b[id].index);
      }
    }
  }

  lemma DroppedOver(col: Collection, job: Job, f: Faults, c: nat)
    requires WellFormed(col) && Aligned(job)
    ensures NoneOver(Dropped(AfterAdd(col, job, c, c + 1, f.add.landed), job.source, c + 1, f.drop), job.source, c) <==>
      NoneLanded(f.add.landed, |job.vectors|) || CleanedUp(job, f, c + 1)
  {
    AddedOver(col, job, c, f.add.landed);
    PartDropped(AfterAdd(col, job, c, c + 1, f.add.landed), Batch(job, c + 1, f.add.landed).Keys, job.source, c, f.drop);
    CleanedUpIff(job, f, c + 1);
  }

  /** A purge that raised. */
  lemma PurgedOver(sh: Shelf, s: Source, c: nat, removed: set<Id>)
    ensures NoneOver(AfterDeletion(sh.col, StaleIds(sh.col, s, c), Raised(removed)), s, c) <==>
      forall id :: id in sh.col && sh.col[id].source == s && sh.col[id].gen > c ==> id in removed
  {
    var after := AfterDeletion(sh.col, StaleIds(sh.col, s, c), Raised(removed));
    forall id | id in sh.col && sh.col[id].source == s && sh.col[id].gen > c
      ensures id in after <==> id !in removed
    {
    }
  }

  lemma ReplacedOver(sh: Shelf, job: Job, f: Faults, c: nat, accepted: bool)
    requires WellFormed(sh.col) && c == Row(sh.rows, job.source) && !Empty(job)
    requires accepted == (f.readBack && Aligned(job) && AllLanded(f.add.landed, |job.vectors|) && Acceptable(job))
    requires !Replaced(sh, job, f, c, c + 1, accepted).ok
    ensures NoneOver(Replaced(sh, job, f, c, c + 1, accepted).shelf.col, job.source, c) <==> LeavesNoneAbove(sh, job, f)
  {
    if !NothingStale(sh.col, job.source, c) && f.purge.Raised? {
      PurgedOver(sh, job.source, c, f.purge.removed);
    } else if Aligned(job) {
      BatchOver(sh, job, f, c, accepted);
    }
  }

  lemma BatchOver(sh: Shelf, job: Job, f: Faults, c: nat, accepted: bool)
    requires WellFormed(sh.col) && c == Row(sh.rows, job.source) && !Empty(job) && Aligned(job)
    requires NothingStale(sh.col, job.source, c) || f.purge.Completed?
    requires accepted == (f.readBack && AllLanded(f.add.landed, |job.vectors|) && Acceptable(job))
    requires !Replaced(sh, job, f, c, c + 1, accepted).ok
    ensures NoneOver(Replaced(sh, job, f, c, c + 1, accepted).shelf.col, job.source, c) <==> BatchLeavesNone(job, f, c + 1)
  {
    AddedOver(sh.col, job, c, f.add.landed);
    DroppedOver(sh.col, job, f, c);
  }

  /** A write leaves no record of its source above the row if and only if that can be seen from how its calls turned out. */
  lemma {:induction false} LeavesNoneAboveIff(sh: Shelf, job: Job, f: Faults)
    requires WellFormed(sh.col)
    ensures NoneAbove(Replace(sh, job, f).shelf, job.source) <==> LeavesNoneAbove(sh, job, f)
  {
    var c := Row(sh.rows, job.source);
    var accepted := Accepts(sh.col, job, f, c, c + 1);
    ReplaceIs(sh, job, f, c, accepted);
    ReplaceIsAtomic(sh, job, f);
    ReplaceKeeps(sh, job, f);
    if !Empty(job) {
      AcceptsIff(sh.col, job, f, c);
      if !Replace(sh, job, f).ok {
        ReplacedOver(sh, job, f, c, accepted);
      }
    }
  }

  // ----- When a commit is fair, exactly

  /** Whether the rebuild is free of records of (k, s) above the row, as seen from the calls. */
  ghost function LeftClean(st: State, steps: seq<Step>, k: Kind, s: Source, clean: bool): bool
    decreases |steps|
  {
    if steps == [] then clean
    else LeftClean(Apply(st, steps[0]), steps[1..], k, s, CleanAfter(st, steps[0], k, s, clean))
  }

  ghost function CleanAfter(st: State, step: Step, k: Kind, s: Source, clean: bool): bool {
    match step
    case Write(job, f, _) => if KindOf(job.writer) == k && job.source == s then LeavesNoneAbove(Target(st, k), job, f) else clean
    case Delete(t, d) => clean || (t == s && if k.Text? then d.textDeleted else d.imageDeleted)
    case _ => clean
  }

  /** The records and the row of s are the same. */
  ghost predicate SameFor(a: Shelf, b: Shelf, s: Source) {
    && Row(a.rows, s) == Row(b.rows, s)
    && (forall id :: id in a.col && a.col[id].source == s ==> id in b.col && b.col[id] == a.col[id])
    && (forall id :: id in b.col && b.col[id].source == s ==> id in a.col && a.col[id] == b.col[id])
  }

  lemma OtherReplaced(sh: Shelf, job: Job, f: Faults, s: Source)
    requires WellFormed(sh.col) && s != job.source
    ensures SameFor(sh, Replace(sh, job, f).shelf, s)
  {
    ReplaceKeeps(sh, job, f);
    var after := Replace(sh, job, f).shelf;
    forall id | id in sh.col && sh.col[id].source == s
      ensures id in after.col && after.col[id] == sh.col[id]
    {
      assert id in Others(sh.col, job.source);
      assert id in Others(after.col, job.source) && Others(after.col, job.source)[id] == Others(sh.col, job.source)[id];
    }
    forall id | id in after.col && after.col[id].source == s
      ensures id in sh.col && sh.col[id] == after.col[id]
    {
      assert id in Others(after.col, job.source);
      assert id in Others(sh.col, job.source) && Others(after.col, job.source)[id] == Others(sh.col, job.source)[id];
    }
  }

  predicate Concerns(step: Step, s: Source) {
    (step.Write? && step.job.source == s) || (step.Delete? && step.source == s)
  }

  /** One step in a rebuild: it stays well formed, and sources it does not concern are as they were. */
  lemma StepInRebuild(st: State, step: Step, k: Kind)
    requires st.rebuild.Active? && IsWriteOrDelete(step) && WellFormed(ShelfOf(st.rebuild, k).col)
    ensures Apply(st, step).rebuild.Active? && WellFormed(ShelfOf(Apply(st, step).rebuild, k).col)
    ensures forall s :: !Concerns(step, s) ==> SameFor(ShelfOf(st.rebuild, k), ShelfOf(Apply(st, step).rebuild, k), s)
  {
    var sh := ShelfOf(st.rebuild, k);
    if step.Write? && KindOf(step.job.writer) == k {
      ReplaceKeeps(sh, step.job, step.f);
      forall s | s != step.job.source
        ensures SameFor(sh, Replace(sh, step.job, step.f).shelf, s)
      {
        OtherReplaced(sh, step.job, step.f, s);
      }
    }
  }

  lemma CleanStep(st: State, step: Step, k: Kind, s: Source)
    requires st.rebuild.Active? && IsWriteOrDelete(step) && WellFormed(ShelfOf(st.rebuild, k).col)
    ensures CleanAfter(st, step, k, s, NoneAbove(ShelfOf(st.rebuild, k), s)) <==>
      Apply(st, step).rebuild.Active? && NoneAbove(ShelfOf(Apply(st, step).rebuild, k), s)
  {
    StepInRebuild(st, step, k);
    if Concerns(step, s) && step.Write? && KindOf(step.job.writer) == k {
      LeavesNoneAboveIff(ShelfOf(st.rebuild, k), step.job, step.f);
    }
  }

  lemma {:induction false} LeftCleanIff(st: State, steps: seq<Step>, k: Kind, s: Source)
    requires st.rebuild.Active? && WellFormed(ShelfOf(st.rebuild, k).col)
    requires forall i :: 0 <= i < |steps| ==> IsWriteOrDelete(steps[i])
    ensures Run(st, steps).rebuild.Active?
    ensures LeftClean(st, steps, k, s, NoneAbove(ShelfOf(st.rebuild, k), s)) <==> NoneAbove(ShelfOf(Run(st, steps).rebuild, k), s)
    decreases |steps|
  {
    if steps != [] {
      StepInRebuild(st, steps[0], k);
      CleanStep(st, steps[0], k, s);
      LeftCleanIff(Apply(st, steps[0]), steps[1..], k, s);
    }
  }

  lemma FairSwitch(st: State)
    requires st.rebuild.Active?
    ensures Fair(st, Commit(Switched(true, true))) <==> forall k, s :: NoneAbove(ShelfOf(st.rebuild, k), s)
  {
    assert st.rebuild.text == ShelfOf(st.rebuild, Text) && st.rebuild.image == ShelfOf(st.rebuild, Image);
  }

  lemma BegunClean(st: State, steps: seq<Step>, k: Kind, s: Source)
    requires st.rebuild.Active? && ShelfOf(st.rebuild, k).col == map[] && forall i :: 0 <= i < |steps| ==> IsWriteOrDelete(steps[i])
    ensures Run(st, steps).rebuild.Active?
    ensures LeftClean(st, steps, k, s, true) <==> NoneAbove(ShelfOf(Run(st, steps).rebuild, k), s)
  {
    assert NoneAbove(ShelfOf(st.rebuild, k), s);
    LeftCleanIff(st, steps, k, s);
  }

  /** After any run of writes and deletes in a rebuild, whatever rows it began with, a commit that renames both tokens is fair if and
  only if no write left a record above its row that was not removed since. */
  lemma {:induction false} CommitFairIff(st: State, begin: Step, steps: seq<Step>)
    requires st.rebuild.Idle? && begin.Begin? && forall i :: 0 <= i < |steps| ==> IsWriteOrDelete(steps[i])
    ensures Fair(Run(Apply(st, begin), steps), Commit(Switched(true, true))) <==>
      forall k, s :: LeftClean(Apply(st, begin), steps, k, s, true)
  {
    var begun := Apply(st, begin);
    var end := Run(begun, steps);
    BegunClean(begun, steps, Text, "");
    FairSwitch(end);
    if Fair(end, Commit(Switched(true, true))) {
      forall k, s
        ensures LeftClean(begun, steps, k, s, true)
      {
        assert NoneAbove(ShelfOf(end.rebuild, k), s);
        BegunClean(begun, steps, k, s);
      }
    } else {
      var k, s :| !NoneAbove(ShelfOf(end.rebuild, k), s);
      BegunClean(begun, steps, k, s);
    }
  }

  // ----- Every file indexed once and reported done

  predicate PutFits(put: Put, s: Source, w: Writer) {
    put.job.source == s && put.job.writer == w
  }

  predicate TextFits(text: TextPart, s: Source) {
    text.Chunked? ==> PutFits(text.put, s, Chunks)
  }

  predicate WorkFits(w: Work) {
    match w
    case Video(s, frames, anyText, chunks) =>
      (frames.Some? ==> PutFits(frames.value, s, Frames)) && (chunks.Some? ==> anyText && PutFits(chunks.value, s, Chunks))
    case Audio(s, chunks) => chunks.Some? ==> PutFits(chunks.value, s, Chunks)
    case Picture(s, vector, text) => (vector.Some? ==> PutFits(vector.value, s, Writer.Picture)) && TextFits(text, s)
    case Document(s, text) => TextFits(text, s)
    case Abandoned(s, first) => first.Some? ==> first.value.job.source == s && KindOf(first.value.job.writer).Image?
  }

  /** The write of a kind that a job makes, if it makes one. */
  function KindPut(w: Work, k: Kind): Option<Put> {
    if k.Image? then ImagePut(w) else TextPut(w)
  }

  function TextPut(w: Work): Option<Put> {
    match w
    case Video(_, _, _, chunks) => chunks
    case Audio(_, chunks) => chunks
    case Picture(_, _, text) => if text.Chunked? then Some(text.put) else None
    case Document(_, text) => if text.Chunked? then Some(text.put) else None
    case Abandoned(_, _) => None
  }

  /** The write whose result the report ignores. */
  function Ignored(w: Work): Option<Put> {
    match w
    case Video(_, _, _, chunks) => chunks
    case Picture(_, vector, _) => vector
    case _ => None
  }

  /** The first write of a source leaves nothing above the row. */
  ghost predicate Harmless(put: Put) {
    !Empty(put.job) && Aligned(put.job) ==> BatchLeavesNone(put.job, put.f, 1)
  }

  predicate Absent(sh: Shelf, s: Source) {
    NoRecords(sh.col, s) && Row(sh.rows, s) == 0
  }

  lemma FirstLeaves(sh: Shelf, job: Job, f: Faults)
    requires Absent(sh, job.source)
    ensures LeavesNoneAbove(sh, job, f) <==> (!Empty(job) && Aligned(job) ==> BatchLeavesNone(job, f, 1))
  {
    assert NothingStale(sh.col, job.source, 0);
  }

  lemma FirstWrite(sh: Shelf, put: Put)
    requires WellFormed(sh.col) && Absent(sh, put.job.source)
    ensures var o := Replace(sh, put.job, put.f);
      && (NoneAbove(o.shelf, put.job.source) <==> Harmless(put)) && (o.ok ==> Harmless(put))
  {
    FirstLeaves(sh, put.job, put.f);
    LeavesNoneAboveIff(sh, put.job, put.f);
    ReplaceKeeps(sh, put.job, put.f);
  }

  /** The text part of a job, on a source without texts. */
  lemma TextShelf(st: State, w: Work)
    requires st.rebuild.Active? && WorkFits(w) && Absent(st.rebuild.text, w.source)
    ensures var after := Run(st, TextStepsOf(w));
      && after.rebuild.Active? && after.rebuild.image == st.rebuild.image
      && (TextPut(w).None? ==> Absent(after.rebuild.text, w.source))
      && (TextPut(w).Some? ==> after.rebuild.text == Replace(st.rebuild.text, TextPut(w).value.job, TextPut(w).value.f).shelf)
  {
    RunOne(st, TextStepsOf(w));
  }

  /** What the job of a source that is absent from the rebuild makes of one of its shelves. */
  lemma WorkShelf(st: State, w: Work, k: Kind)
    requires st.rebuild.Active? && WorkFits(w) && Absent(st.rebuild.text, w.source) && Absent(st.rebuild.image, w.source)
    ensures var after := Run(st, WorkSteps(w));
      && after.rebuild.Active?
      && (KindPut(w, k).None? ==> Absent(ShelfOf(after.rebuild, k), w.source))
      && (KindPut(w, k).Some? ==>
            ShelfOf(after.rebuild, k) == Replace(ShelfOf(st.rebuild, k), KindPut(w, k).value.job, KindPut(w, k).value.f).shelf)
  {
    RunTwo(st, ImagePut(w), TextStepsOf(w));
    var mid := if ImagePut(w).Some? then Apply(st, PutStep(ImagePut(w).value)) else st;
    TextShelf(mid, w);
  }

  lemma RunOne(st: State, steps: seq<Step>)
    requires |steps| <= 1
    ensures Run(st, steps) == if steps == [] then st else Apply(st, steps[0])
  {
    if steps != [] {
      assert steps[1..] == [];
    }
  }

  lemma RunTwo(st: State, first: Option<Put>, rest: seq<Step>)
    ensures Run(st, PutSteps(first) + rest) == Run(if first.Some? then Apply(st, PutStep(first.value)) else st, rest)
  {
    RunAppend(st, PutSteps(first), rest);
    RunOne(st, PutSteps(first));
  }

  /** Steps of other sources leave a source as it is. */
  lemma {:induction false} OthersLeave(st: State, steps: seq<Step>, k: Kind, s: Source)
    requires st.rebuild.Active? && WellFormed(ShelfOf(st.rebuild, k).col)
    requires forall i :: 0 <= i < |steps| ==> IsWriteOrDelete(steps[i])
    ensures Run(st, steps).rebuild.Active? && WellFormed(ShelfOf(Run(st, steps).rebuild, k).col)
    ensures (forall i :: 0 <= i < |steps| ==> !Concerns(steps[i], s)) ==>
      SameFor(ShelfOf(st.rebuild, k), ShelfOf(Run(st, steps).rebuild, k), s)
    decreases |steps|
  {
    if steps != [] {
      StepInRebuild(st, steps[0], k);
      OthersLeave(Apply(st, steps[0]), steps[1..], k, s);
    }
  }

  lemma WorkConcerns(w: Work, s: Source)
    requires WorkFits(w) && w.source != s
    ensures forall i :: 0 <= i < |WorkSteps(w)| ==> !Concerns(WorkSteps(w)[i], s)
  {
  }

  function RunWorks(st: State, works: seq<Work>): State {
    if works == [] then st else Run(RunWorks(st, works[..|works| - 1]), WorkSteps(works[|works| - 1]))
  }

  predicate OnceEach(works: seq<Work>) {
    && (forall i :: 0 <= i < |works| ==> WorkFits(works[i]))
    && (forall i, j :: 0 <= i < j < |works| ==> works[i].source != works[j].source)
  }

  lemma {:induction false} WorksAbsent(st: State, works: seq<Work>, k: Kind, s: Source)
    requires st.rebuild.Active? && WellFormed(ShelfOf(st.rebuild, k).col)
    requires forall i :: 0 <= i < |works| ==> WorkFits(works[i])
    ensures RunWorks(st, works).rebuild.Active? && WellFormed(ShelfOf(RunWorks(st, works).rebuild, k).col)
    ensures (forall i :: 0 <= i < |works| ==> works[i].source != s) && Absent(ShelfOf(st.rebuild, k), s) ==>
      Absent(ShelfOf(RunWorks(st, works).rebuild, k), s)
  {
    if works != [] {
      var n := |works| - 1;
      WorksAbsent(st, works[..n], k, s);
      StepsAreWrites(works[n]);
      OthersLeave(RunWorks(st, works[..n]), WorkSteps(works[n]), k, s);
      if works[n].source != s {
        WorkConcerns(works[n], s);
      }
    }
  }

  ghost predicate KindHarmless(w: Work, k: Kind) {
    KindPut(w, k).Some? ==> Harmless(KindPut(w, k).value)
  }

  /** The job of a source that is absent from the rebuild. */
  lemma WorkClean(st: State, w: Work, k: Kind)
    requires st.rebuild.Active? && WorkFits(w) && Absent(st.rebuild.text, w.source) && Absent(st.rebuild.image, w.source)
    requires WellFormed(ShelfOf(st.rebuild, k).col)
    ensures Run(st, WorkSteps(w)).rebuild.Active?
    ensures NoneAbove(ShelfOf(Run(st, WorkSteps(w)).rebuild, k), w.source) <==> KindHarmless(w, k)
  {
    WorkShelf(st, w, k);
    if KindPut(w, k).Some? {
      FirstWrite(ShelfOf(st.rebuild, k), KindPut(w, k).value);
    }
  }

  /** A write whose result counts has committed if the job is reported done. */
  lemma DoneMeansCommitted(st: State, w: Work, k: Kind)
    requires st.rebuild.Active? && WorkFits(w) && Absent(st.rebuild.text, w.source) && Absent(st.rebuild.image, w.source)
    requires WellFormed(st.rebuild.text.col) && WellFormed(st.rebuild.image.col) && ReportsDone(st, w)
    ensures KindHarmless(w, k) || (Ignored(w).Some? && KindPut(w, k) == Ignored(w))
    ensures Ignored(w).Some? ==> exists k0 :: KindPut(w, k0) == Ignored(w)
  {
    if w.Picture? {
      RunOne(st, PutSteps(w.vector));
      assert KindPut(w, Image) == w.vector;
    }
    if w.Video? {
      assert KindPut(w, Text) == w.chunks;
    }
    if KindPut(w, k).Some? && KindPut(w, k) != Ignored(w) {
      FirstWrite(ShelfOf(st.rebuild, k), KindPut(w, k).value);
    }
  }

  ghost predicate IgnoredHarmless(w: Work) {
    Ignored(w).Some? ==> Harmless(Ignored(w).value)
  }

  lemma SameForTwice(a: Shelf, b: Shelf, c: Shelf, s: Source)
    requires SameFor(a, b, s) && SameFor(b, c, s)
    ensures SameFor(a, c, s)
  {
  }

  lemma WorkLeaves(st: State, w: Work, k: Kind, s: Source)
    requires st.rebuild.Active? && WellFormed(ShelfOf(st.rebuild, k).col) && WorkFits(w) && w.source != s
    ensures Run(st, WorkSteps(w)).rebuild.Active?
    ensures SameFor(ShelfOf(st.rebuild, k), ShelfOf(Run(st, WorkSteps(w)).rebuild, k), s)
  {
    StepsAreWrites(w);
    WorkConcerns(w, s);
    OthersLeave(st, WorkSteps(w), k, s);
  }

  lemma NextWork(st: State, works: seq<Work>, n: nat)
    requires n < |works|
    ensures RunWorks(st, works[..n + 1]) == Run(RunWorks(st, works[..n]), WorkSteps(works[n]))
  {
    assert works[..n + 1][..n] == works[..n];
  }

  /** The work after the first n leaves another source as it is. */
  lemma NextWorkLeaves(st: State, works: seq<Work>, n: nat, k: Kind, s: Source)
    requires st.rebuild == Active(EMPTY_SHELF, EMPTY_SHELF) && OnceEach(works) && n < |works| && works[n].source != s
    ensures RunWorks(st, works[..n]).rebuild.Active? && RunWorks(st, works[..n + 1]).rebuild.Active?
    ensures SameFor(ShelfOf(RunWorks(st, works[..n]).rebuild, k), ShelfOf(RunWorks(st, works[..n + 1]).rebuild, k), s)
  {
    NextWork(st, works, n);
    WorksAbsent(st, works[..n], k, "");
    WorkLeaves(RunWorks(st, works[..n]), works[n], k, s);
  }

  lemma {:induction false} LaterWorksLeave(st: State, works: seq<Work>, i: nat, n: nat, k: Kind)
    requires st.rebuild == Active(EMPTY_SHELF, EMPTY_SHELF) && OnceEach(works) && i < n <= |works|
    ensures RunWorks(st, works[..n]).rebuild.Active? && RunWorks(st, works[..i + 1]).rebuild.Active?
    ensures SameFor(ShelfOf(RunWorks(st, works[..i + 1]).rebuild, k), ShelfOf(RunWorks(st, works[..n]).rebuild, k), works[i].source)
    decreases n
  {
    if i == n - 1 {
      WorksAbsent(st, works[..n], k, "");
    } else {
      LaterWorksLeave(st, works, i, n - 1, k);
      NextWorkLeaves(st, works, n - 1, k, works[i].source);
      SameForTwice(ShelfOf(RunWorks(st, works[..i + 1]).rebuild, k), ShelfOf(RunWorks(st, works[..n - 1]).rebuild, k),
                   ShelfOf(RunWorks(st, works[..n]).rebuild, k), works[i].source);
    }
  }

  /** Before a file's job, the rebuild has nothing of the file. */
  lemma BeforeWork(st: State, works: seq<Work>, i: nat)
    requires st.rebuild == Active(EMPTY_SHELF, EMPTY_SHELF) && OnceEach(works) && i < |works|
    ensures var r := RunWorks(st, works[..i]).rebuild;
      && r.Active? && WellFormed(r.text.col) && WellFormed(r.image.col)
      && Absent(r.text, works[i].source) && Absent(r.image, works[i].source)
  {
    WorksAbsent(st, works[..i], Text, works[i].source);
    WorksAbsent(st, works[..i], Image, works[i].source);
  }

  lemma SameNoneAbove(a: Shelf, b: Shelf, s: Source)
    requires SameFor(a, b, s)
    ensures NoneAbove(a, s) <==> NoneAbove(b, s)
  {
  }

  /** In a rebuild in which every file is indexed once, what stays above a row was left by the file's own job. */
  lemma {:induction false} WorksClean(st: State, works: seq<Work>, i: nat, k: Kind)
    requires st.rebuild == Active(EMPTY_SHELF, EMPTY_SHELF) && OnceEach(works) && i < |works|
    ensures RunWorks(st, works).rebuild.Active?
    ensures NoneAbove(ShelfOf(RunWorks(st, works).rebuild, k), works[i].source) <==> KindHarmless(works[i], k)
  {
    BeforeWork(st, works, i);
    WorkClean(RunWorks(st, works[..i]), works[i], k);
    NextWork(st, works, i);
    LaterWorksLeave(st, works, i, |works|, k);
    assert works[..|works|] == works;
    SameNoneAbove(ShelfOf(RunWorks(st, works[..i + 1]).rebuild, k), ShelfOf(RunWorks(st, works).rebuild, k), works[i].source);
  }

  /** The events of a rebuild in which nothing happens but these jobs. */
  function Indexings(works: seq<Work>): seq<Event> {
    if works == [] then [] else Indexings(works[..|works| - 1]) + [Indexed(works[|works| - 1])]
  }

  lemma {:induction false} IndexingsRun(st: State, works: seq<Work>)
    ensures RunEvents(st, Indexings(works)) == RunWorks(st, works)
  {
    if works != [] {
      var init := works[..|works| - 1];
      IndexingsRun(st, init);
      assert Indexings(works)[..|Indexings(works)| - 1] == Indexings(init);
    }
  }

  lemma LastIndexing(st: State, works: seq<Work>, s: Source)
    requires works != []
    ensures var init, last := works[..|works| - 1], works[|works| - 1];
      LastDone(st, Indexings(works), s, false) <==>
        if last.source == s then ReportsDone(RunWorks(st, init), last) else LastDone(st, Indexings(init), s, false)
  {
    var init := works[..|works| - 1];
    assert Indexings(works)[..|Indexings(works)| - 1] == Indexings(init);
    IndexingsRun(st, init);
  }

  lemma {:induction false} OnlyReport(st: State, works: seq<Work>, i: nat)
    requires OnceEach(works) && i < |works| && LastDone(st, Indexings(works), works[i].source, false)
    ensures ReportsDone(RunWorks(st, works[..i]), works[i])
  {
    LastIndexing(st, works, works[i].source);
    if i < |works| - 1 {
      assert works[..|works| - 1][..i] == works[..i];
      OnlyReport(st, works[..|works| - 1], i);
    }
  }

  /** Every job was reported done. */
  predicate AllReportDone(st: State, works: seq<Work>) {
    forall i :: 0 <= i < |works| ==> ReportsDone(RunWorks(st, works[..i]), works[i])
  }

  /** That is what the drivers establish: the last report of each file is that of its only job. */
  lemma {:induction false} LastReportsAreAll(st: State, works: seq<Work>)
    requires OnceEach(works) && forall i :: 0 <= i < |works| ==> LastDone(st, Indexings(works), works[i].source, false)
    ensures AllReportDone(st, works) && RunEvents(st, Indexings(works)) == RunWorks(st, works)
  {
    IndexingsRun(st, works);
    forall i | 0 <= i < |works|
      ensures ReportsDone(RunWorks(st, works[..i]), works[i])
    {
      OnlyReport(st, works, i);
    }
  }

  /** A job reported done leaves a record above a row exactly if the write it ignored does. */
  lemma DoneHarmless(st: State, w: Work)
    requires st.rebuild.Active? && WorkFits(w) && Absent(st.rebuild.text, w.source) && Absent(st.rebuild.image, w.source)
    requires WellFormed(st.rebuild.text.col) && WellFormed(st.rebuild.image.col) && ReportsDone(st, w)
    ensures KindHarmless(w, Text) && KindHarmless(w, Image) <==> IgnoredHarmless(w)
  {
    DoneMeansCommitted(st, w, Text);
    DoneMeansCommitted(st, w, Image);
  }

  lemma {:induction false} DoneClean(st: State, works: seq<Work>, i: nat)
    requires st.rebuild == Active(EMPTY_SHELF, EMPTY_SHELF) && OnceEach(works) && i < |works|
    requires ReportsDone(RunWorks(st, works[..i]), works[i])
    ensures RunWorks(st, works).rebuild.Active?
    ensures NoneAbove(RunWorks(st, works).rebuild.text, works[i].source) && NoneAbove(RunWorks(st, works).rebuild.image, works[i].source)
       <==> IgnoredHarmless(works[i])
  {
    BeforeWork(st, works, i);
    DoneHarmless(RunWorks(st, works[..i]), works[i]);
    WorksClean(st, works, i, Text);
    WorksClean(st, works, i, Image);
  }

  lemma DoneCleanEverywhere(st: State, works: seq<Work>, s: Source)
    requires st.rebuild == Active(EMPTY_SHELF, EMPTY_SHELF) && OnceEach(works) && AllReportDone(st, works)
    requires forall i :: 0 <= i < |works| ==> IgnoredHarmless(works[i])
    ensures RunWorks(st, works).rebuild.Active?
    ensures NoneAbove(RunWorks(st, works).rebuild.text, s) && NoneAbove(RunWorks(st, works).rebuild.image, s)
  {
    WorksAbsent(st, works, Text, s);
    WorksAbsent(st, works, Image, s);
    if i :| 0 <= i < |works| && works[i].source == s {
      assert IgnoredHarmless(works[i]);
      DoneClean(st, works, i);
    }
  }

  lemma HarmlessIsFair(st: State, works: seq<Work>)
    requires st.rebuild == Active(EMPTY_SHELF, EMPTY_SHELF) && OnceEach(works) && AllReportDone(st, works)
    requires forall i :: 0 <= i < |works| ==> IgnoredHarmless(works[i])
    ensures Fair(RunWorks(st, works), Commit(Switched(true, true)))
  {
    DoneCleanEverywhere(st, works, "");
    forall s
      ensures NoneAbove(RunWorks(st, works).rebuild.text, s) && NoneAbove(RunWorks(st, works).rebuild.image, s)
    {
      DoneCleanEverywhere(st, works, s);
    }
  }

  lemma HarmIsUnfair(st: State, works: seq<Work>, i: nat)
    requires st.rebuild == Active(EMPTY_SHELF, EMPTY_SHELF) && OnceEach(works) && i < |works|
    requires ReportsDone(RunWorks(st, works[..i]), works[i]) && !IgnoredHarmless(works[i])
    ensures !Fair(RunWorks(st, works), Commit(Switched(true, true)))
  {
    DoneClean(st, works, i);
  }

  /** A rebuild in which every file is indexed once and every job is reported done: the commit the drivers
  then make is fair if and only if each write whose result was ignored left nothing above its row. */
  lemma {:induction false} AllDoneFairIff(st: State, works: seq<Work>)
    requires st.rebuild.Idle? && OnceEach(works) && AllReportDone(Apply(st, BEGIN), works)
    ensures Fair(RunWorks(Apply(st, BEGIN), works), Commit(Switched(true, true))) <==>
      forall i :: 0 <= i < |works| ==> IgnoredHarmless(works[i])
  {
    if i :| 0 <= i < |works| && !IgnoredHarmless(works[i]) {
      HarmIsUnfair(Apply(st, BEGIN), works, i);
    } else {
      HarmlessIsFair(Apply(st, BEGIN), works);
    }
  }

  // ----- What the commit then shows

  /** What is left of a source's first write in the rebuild, if it is harmless. */
  lemma FirstWriteLeaves(sh: Shelf, put: Put)
    requires WellFormed(sh.col) && Absent(sh, put.job.source) && Harmless(put)
    ensures var after, s := Replace(sh, put.job, put.f).shelf, put.job.source;
      if Commits(EMPTY_SHELF, put.job, put.f) then Row(after.rows, s) == 1 && Holds(after.col, s, 1, put.job)
      else Absent(after, s)
  {
    var s := put.job.source;
    assert NothingStale(sh.col, s, 0);
    assert Commits(sh, put.job, put.f) == Commits(EMPTY_SHELF, put.job, put.f);
    FirstWrite(sh, put);
    ReplaceIsAtomic(sh, put.job, put.f);
    ReplaceReplaces(sh, put.job, put.f);
    if !Commits(sh, put.job, put.f) {
      var after := Replace(sh, put.job, put.f).shelf;
      SameGenerationNothing(sh.col, after.col, s, 0);
      assert NothingAt(sh.col, s, 0) && NoneAbove(after, s);
    }
  }

  /** A source whose rebuilt part is `want`, as the switch shows it. */
  lemma SwitchShows(st: State, k: Kind, s: Source, job: Job)
    requires st.rebuild.Active? && s !in st.lib.tombstones
    ensures var l := Apply(st, Commit(Switched(true, true))).lib; var sh := ShelfOf(st.rebuild, k);
      && (Absent(sh, s) ==> Shows(l, k, s, map[]))
      && (Row(sh.rows, s) == 1 && Holds(sh.col, s, 1, job) ==> Shows(l, k, s, Whole(job, 1)))
  {
    var l := Apply(st, Commit(Switched(true, true))).lib;
    var side, sh := SideOf(l, k), ShelfOf(st.rebuild, k);
    assert side == SwitchedSide(SideOf(st.lib, k), sh, true);
    ListedIs(side.delta.col, side.delta.rows, s);
    ListedIs(side.base, side.delta.rows, s);
    EitherSide(Listed(side.delta.col, side.delta.rows, s), Listed(side.base, side.delta.rows, s));
    if Row(sh.rows, s) == 1 {
      assert s in side.delta.rows.Keys;
    }
  }

  lemma SameHolds(a: Shelf, b: Shelf, s: Source)
    requires SameFor(a, b, s)
    ensures Generation(a.col, s, 1) == Generation(b.col, s, 1) && (Absent(a, s) ==> Absent(b, s))
  {
  }

  /** What is left at the end of a file's write of one kind. */
  lemma EndShelf(st: State, works: seq<Work>, i: nat, k: Kind)
    requires st.rebuild == Active(EMPTY_SHELF, EMPTY_SHELF) && OnceEach(works) && i < |works| && KindHarmless(works[i], k)
    ensures RunWorks(st, works).rebuild.Active?
    ensures var sh, put, s := ShelfOf(RunWorks(st, works).rebuild, k), KindPut(works[i], k), works[i].source;
      if put.Some? && Commits(EMPTY_SHELF, put.value.job, put.value.f) then Row(sh.rows, s) == 1 && Holds(sh.col, s, 1, put.value.job)
      else Absent(sh, s)
  {
    BeforeWork(st, works, i);
    var before, after := RunWorks(st, works[..i]), RunWorks(st, works[..i + 1]);
    WorkShelf(before, works[i], k);
    NextWork(st, works, i);
    if KindPut(works[i], k).Some? {
      FirstWriteLeaves(ShelfOf(before.rebuild, k), KindPut(works[i], k).value);
    }
    LaterWorksLeave(st, works, i, |works|, k);
    assert works[..|works|] == works;
    SameHolds(ShelfOf(after.rebuild, k), ShelfOf(RunWorks(st, works).rebuild, k), works[i].source);
  }

  /** Of such a rebuild, with the ignored writes harmless, the commit shows of each kind of each untombstoned
  file exactly what its job wrote, if that committed, and nothing otherwise, whatever was live before. */
  lemma {:induction false} AllDoneShows(st: State, works: seq<Work>, i: nat, k: Kind)
    requires st.rebuild.Idle? && OnceEach(works) && AllReportDone(Apply(st, BEGIN), works) && i < |works|
    requires forall j :: 0 <= j < |works| ==> IgnoredHarmless(works[j])
    requires works[i].source !in RunWorks(Apply(st, BEGIN), works).lib.tombstones
    ensures var l, put := Apply(RunWorks(Apply(st, BEGIN), works), Commit(Switched(true, true))).lib, KindPut(works[i], k);
      if put.Some? && Commits(EMPTY_SHELF, put.value.job, put.value.f)
      then Shows(l, k, works[i].source, Whole(put.value.job, 1)) else Shows(l, k, works[i].source, map[])
  {
    var begun, put := Apply(st, BEGIN), KindPut(works[i], k);
    BeforeWork(begun, works, i);
    DoneHarmless(RunWorks(begun, works[..i]), works[i]);
    EndShelf(begun, works, i, k);
    SwitchShows(RunWorks(begun, works), k, works[i].source, if put.Some? then put.value.job else Job(Chunks, "", [], [], ""));
  }

  /** ... and nothing of any other file. */
  lemma {:induction false} AllDoneShowsNoOther(st: State, works: seq<Work>, k: Kind, s: Source)
    requires st.rebuild.Idle? && OnceEach(works) && forall i :: 0 <= i < |works| ==> works[i].source != s
    requires s !in RunWorks(Apply(st, BEGIN), works).lib.tombstones
    ensures Shows(Apply(RunWorks(Apply(st, BEGIN), works), Commit(Switched(true, true))).lib, k, s, map[])
  {
    WorksAbsent(Apply(st, BEGIN), works, k, s);
    SwitchShows(RunWorks(Apply(st, BEGIN), works), k, s, Job(Chunks, s, [], [], ""));
  }

  // ----- The ignored write that is not harmless

  const CLIP: Source := "v"

  function ChunkJob(n: nat): Job {
    Job(Chunks, CLIP, seq(n, _ => "t"), seq(n, _ => [1.0]), "h")
  }

  const FRAME_JOB := Job(Frames, CLIP, ["f"], [[1.0]], "h")
  const GOOD := Faults(Completed, Returned({0}), true, Completed, true, [])
  const HALF := Faults(Completed, Failed({0}), true, Completed, true, [])

  /** A video whose frame is written and whose text write raises after half of its two chunks. */
  const HALF_VIDEO := Video(CLIP, Some(Put(FRAME_JOB, GOOD, true)), true, Some(Put(ChunkJob(2), HALF, false)))

  lemma HalfVideoSteps(st: State)
    requires st.rebuild == Active(EMPTY_SHELF, EMPTY_SHELF)
    ensures var end := RunWorks(st, [HALF_VIDEO]);
      end.rebuild.Active? && end.lib == Untombed(st.lib, FRAME_JOB, true) &&
      end.rebuild.text == Replace(EMPTY_SHELF, ChunkJob(2), HALF).shelf
  {
    var works := [HALF_VIDEO];
    assert works[..0] == [] && RunWorks(st, []) == st;
    var frames, chunks := Put(FRAME_JOB, GOOD, true), Put(ChunkJob(2), HALF, false);
    RunTwo(st, Some(frames), PutSteps(Some(chunks)));
    RunOne(Apply(st, PutStep(frames)), PutSteps(Some(chunks)));
  }

  lemma HalfBatchLeft()
    ensures !NothingAt(Replace(EMPTY_SHELF, ChunkJob(2), HALF).shelf.col, CLIP, 1)
    ensures !NoneAbove(Replace(EMPTY_SHELF, ChunkJob(2), HALF).shelf, CLIP)
    ensures CLIP !in Replace(EMPTY_SHELF, ChunkJob(2), HALF).shelf.rows
  {
    var job, after := ChunkJob(2), Replace(EMPTY_SHELF, ChunkJob(2), HALF).shelf;
    assert !Harmless(Put(job, HALF, false)) by {
      assert 0 in HALF.add.landed && !NoneLanded(HALF.add.landed, 2);
    }
    FirstWrite(EMPTY_SHELF, Put(job, HALF, false));
    ReplaceKeeps(EMPTY_SHELF, job, HALF);
    assert Adjacent(EMPTY_SHELF, CLIP) && Adjacent(after, CLIP);
    assert Replace(EMPTY_SHELF, job, HALF).shelf.rows == map[];
  }

  lemma GoodCommits(sh: Shelf, job: Job)
    requires job == FRAME_JOB || job == ChunkJob(1)
    ensures Commits(sh, job, GOOD)
  {
    assert StoredDocument(job, 0)[0] == (if job == FRAME_JOB then 'f' else 't');
  }

  lemma FrameStored(st: State)
    requires st.rebuild == Active(EMPTY_SHELF, EMPTY_SHELF)
    ensures Stores(st, Put(FRAME_JOB, GOOD, true))
  {
    GoodCommits(EMPTY_SHELF, FRAME_JOB);
    ReplaceIsAtomic(EMPTY_SHELF, FRAME_JOB, GOOD);
  }

  lemma HalfVideoDone(st: State)
    requires st.rebuild == Active(EMPTY_SHELF, EMPTY_SHELF)
    ensures OnceEach([HALF_VIDEO]) && AllReportDone(st, [HALF_VIDEO])
  {
    FrameStored(st);
    assert [HALF_VIDEO][..0] == [];
    assert RunWorks(st, []) == st && ReportsDone(st, HALF_VIDEO);
  }

  lemma HalfTextUnfair(st: State)
    requires st.rebuild.Active? && st.rebuild.text == Replace(EMPTY_SHELF, ChunkJob(2), HALF).shelf
    ensures !Fair(st, Commit(Switched(true, true)))
  {
    HalfBatchLeft();
    assert !NoneAbove(ShelfOf(st.rebuild, Text), CLIP);
    FairSwitch(st);
  }

  /** Residue of generation 1 of a source without rows mixes with its first live text. */
  lemma {:induction false} ResidueMixes(st: State, job: Job, f: Faults)
    requires st.rebuild.Active? && job.writer.Chunks? && job.source !in st.lib.tombstones
    requires job.source !in st.lib.text.delta.rows && job.source !in st.rebuild.text.rows
    requires !NothingAt(st.rebuild.text.col, job.source, 1)
    requires Commits(SwitchedSide(st.lib.text, st.rebuild.text, true).delta, job, f)
    ensures Aligned(job)
    ensures !Shows(WriteStep(State(Apply(st, Commit(Switched(true, true))).lib, Idle), job, f, false).lib, Text, job.source, Whole(job, 1))
  {
    Exceptions.ResidueMixesIff(st, Text, job, f, 1);
  }

  /** Its job is reported done, so the rebuild of it alone is committed, which is not fair ... */
  lemma {:induction false} HalfVideoIsCommitted(st: State)
    requires st.rebuild.Idle?
    ensures OnceEach([HALF_VIDEO]) && AllReportDone(Apply(st, BEGIN), [HALF_VIDEO])
    ensures !Fair(RunWorks(Apply(st, BEGIN), [HALF_VIDEO]), Commit(Switched(true, true)))
  {
    HalfVideoDone(Apply(st, BEGIN));
    HalfVideoSteps(Apply(st, BEGIN));
    HalfTextUnfair(RunWorks(Apply(st, BEGIN), [HALF_VIDEO]));
  }

  lemma {:induction false} HalfVideoMixesIn(end: State)
    requires end.rebuild.Active? && end.rebuild.text == Replace(EMPTY_SHELF, ChunkJob(2), HALF).shelf
    requires CLIP !in end.lib.tombstones && CLIP !in end.lib.text.delta.rows
    ensures Commits(SwitchedSide(end.lib.text, end.rebuild.text, true).delta, ChunkJob(1), GOOD)
    ensures !Shows(WriteStep(State(Apply(end, Commit(Switched(true, true))).lib, Idle), ChunkJob(1), GOOD, false).lib, Text, CLIP, Whole(ChunkJob(1), 1))
  {
    HalfBatchLeft();
    GoodCommits(SwitchedSide(end.lib.text, end.rebuild.text, true).delta, ChunkJob(1));
    ResidueMixes(end, ChunkJob(1), GOOD);
  }

  /** ... and the next text written to it, without any failure, is mixed with the half batch. */
  lemma {:induction false} HalfVideoIsMixed(st: State)
    requires st.rebuild.Idle? && CLIP !in st.lib.tombstones && CLIP !in st.lib.text.delta.rows
    ensures var l := Apply(RunWorks(Apply(st, BEGIN), [HALF_VIDEO]), Commit(Switched(true, true))).lib;
      && Commits(l.text.delta, ChunkJob(1), GOOD)
      && !Shows(WriteStep(State(l, Idle), ChunkJob(1), GOOD, false).lib, Text, CLIP, Whole(ChunkJob(1), 1))
  {
    HalfVideoSteps(Apply(st, BEGIN));
    HalfVideoMixesIn(RunWorks(Apply(st, BEGIN), [HALF_VIDEO]));
  }
}
