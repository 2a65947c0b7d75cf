/** Atomic replacement of one source's records: write generation c+1, verify it, switch the
registry row, delete generation c. Every storage call may fail, and a call that raises may
have done any part of its work. */
module Replacement {
  import opened Storage
  import opened Text

  /** A write target: the collection written to and its registry rows. */
  datatype Shelf = Shelf(col: Collection, rows: map<Source, nat>)

  /** One request to replace the records of a source. */
  datatype Job = Job(writer: Writer, source: Source, documents: seq<string>, vectors: seq<Vector>, hash: string)

  datatype Deletion = Completed | Raised(removed: set<Id>)
  datatype Addition = Returned(landed: set<nat>) | Failed(landed: set<nat>)

  /** How the storage calls of one replacement turn out. A crash after some call is the same as
  that call, or the ones after it, raising. */
  datatype Faults = Faults(
    purge: Deletion,
    add: Addition,
    readBack: bool,       // the read of the verification step succeeds
    drop: Deletion,       // deletion of a new generation that failed verification
    switch: bool,         // the registry switch succeeds
    retire: seq<Deletion> // attempts to delete the old generation; missing attempts succeed
  )

  datatype Outcome = Outcome(shelf: Shelf, ok: bool)

  const MAX_DOCUMENT := 2000
  const DELETE_ATTEMPTS := 3

  function Row(rows: map<Source, nat>, s: Source): nat {
    if s in rows then rows[s] else 0
  }

  /** The records of one generation of one source. */
  function Generation(col: Collection, s: Source, g: nat): Collection {
    map id | id in col && col[id].source == s && col[id].gen == g :: col[id]
  }

  function Others(col: Collection, s: Source): Collection {
    map id | id in col && col[id].source != s :: col[id]
  }

  /** Ids of the source's records that are not of generation c. */
  function StaleIds(col: Collection, s: Source, c: nat): set<Id> {
    set id | id in col && col[id].source == s && col[id].gen != c
  }

  predicate NothingStale(col: Collection, s: Source, c: nat) {
    forall id :: id in col && col[id].source == s ==> col[id].gen == c
  }

  function AfterDeletion(col: Collection, ids: set<Id>, d: Deletion): Collection {
    match d
    case Completed => col - ids
    case Raised(part) => col - (ids * part)
  }

  /** What up to three attempts to delete `ids` remove, starting at attempt k. */
  function RetiredIds(ids: set<Id>, attempts: seq<Deletion>, k: nat): (r: set<Id>)
    ensures r <= ids
    decreases DELETE_ATTEMPTS - k
  {
    if k >= DELETE_ATTEMPTS then {}
    else if k >= |attempts| || attempts[k].Completed? then ids
    else ids * attempts[k].removed + RetiredIds(ids, attempts, k + 1)
  }

  predicate Empty(job: Job) {
    job.vectors == [] || (job.writer.Chunks? && job.documents == []) || (job.writer.Picture? && job.vectors[0] == [])
  }

  /** Every record of the batch can be built: otherwise the writer raises before storing anything. */
  predicate Aligned(job: Job) {
    match job.writer
    case Chunks => |job.documents| == |job.vectors|
    case Frames => |job.documents| >= |job.vectors|
    case Picture => |job.documents| >= 1 && |job.vectors| == 1
  }

  /** Chunk texts are cut to their first 2000 characters. */
  function StoredDocument(job: Job, i: nat): string
    requires Aligned(job) && i < |job.vectors|
  {
    var d := job.documents[i];
    if job.writer.Chunks? && |d| > MAX_DOCUMENT then d[..MAX_DOCUMENT] else d
  }

  function NewRecord(job: Job, g: nat, i: nat): Record
    requires Aligned(job) && i < |job.vectors|
  {
    Record(job.writer, job.source, g, i, |job.vectors|, job.hash, StoredDocument(job, i), job.vectors[i])
  }

  ghost predicate AllLanded(landed: set<nat>, k: nat) {
    forall i: nat :: i < k ==> i in landed
  }

  /** Ids of those among the first k records of the batch that landed. */
  function BatchIds(job: Job, g: nat, landed: set<nat>, k: nat): set<Id> {
    if k == 0 then {}
    else if k - 1 in landed then BatchIds(job, g, landed, k - 1) + {RecordId(job.writer, job.source, g, k - 1)}
    else BatchIds(job, g, landed, k - 1)
  }

  function IndexOf(id: Id): nat {
    if id.ChunkId? || id.FrameId? then id.index else 0
  }

  /** The part of the new generation that an addition landed. */
  function Batch(job: Job, g: nat, landed: set<nat>): Collection
    requires Aligned(job)
  {
    var ids := BatchIds(job, g, landed, |job.vectors|);
    map id | id in ids && IndexOf(id) < |job.vectors| :: NewRecord(job, g, IndexOf(id))
  }

  function AllIndexes(n: nat): (all: set<nat>)
    ensures forall i: nat :: i in all <==> i < n
  {
    if n == 0 then {} else AllIndexes(n - 1) + {n - 1}
  }

  /** The whole new generation. */
  function Whole(job: Job, g: nat): Collection
    requires Aligned(job)
  {
    Batch(job, g, AllIndexes(|job.vectors|))
  }

  predicate HasIndex(gen: Collection, k: nat) {
    exists id :: id in gen && gen[id].index == k
  }

  /** Every record has its document, where required, and a vector; all vectors have one dimension. */
  predicate SoundContent(b: Collection, requireDocument: bool) {
    && (forall id :: id in b ==> b[id].vector != [] && (requireDocument ==> !Blank(b[id].document)))
    && (forall id, other :: id in b && other in b ==> |b[id].vector| == |b[other].vector|)
  }

  /** The records carry the indexes 0..n-1, each exactly once. */
  predicate Numbered(gen: Collection, n: nat) {
    && (forall id :: id in gen ==> gen[id].index < n)
    && (forall id, other :: id in gen && other in gen && gen[id].index == gen[other].index ==> id == other)
    && (forall k :: 0 <= k < n ==> HasIndex(gen, k))
  }

  predicate OneRecord(gen: Collection) {
    exists id :: id in gen && gen.Keys == {id}
  }

  /** What the verification step accepts of a generation that should have `expected` records: a
  generation of one record is not asked for its index. */
  predicate Verified(gen: Collection, expected: nat, requireDocument: bool) {
    (if expected == 1 then OneRecord(gen) else Numbered(gen, expected)) && SoundContent(gen, requireDocument)
  }

  /** The collection once the source's records outside generation c are purged. */
  function Purged(col: Collection, s: Source, c: nat): Collection {
    col - StaleIds(col, s, c)
  }

  function Dropped(col: Collection, s: Source, g: nat, d: Deletion): Collection {
    AfterDeletion(col, Generation(col, s, g).Keys, d)
  }

  /** The verification step accepts generation g of the job's source. */
  predicate Passes(col: Collection, job: Job, g: nat) {
    Verified(Generation(col, job.source, g), |job.vectors|, !job.writer.Picture?)
  }

  /** The declarative account of one replacement whose registry reads succeed. */
  function Replace(sh: Shelf, job: Job, f: Faults): Outcome {
    Rewrite(sh, job, f, Row(sh.rows, job.source), Row(sh.rows, job.source) + 1)
  }

  /** One replacement that purges to generation c and writes generation g. */
  function Rewrite(sh: Shelf, job: Job, f: Faults, c: nat, g: nat): Outcome {
    Replaced(sh, job, f, c, g, Accepts(sh.col, job, f, c, g))
  }

  predicate Accepts(col: Collection, job: Job, f: Faults, c: nat, g: nat) {
    f.readBack && Aligned(job) && Passes(AfterAdd(col, job, c, g, f.add.landed), job, g)
  }

  /** The collection after the purge to generation c and the addition of generation g. */
  function AfterAdd(col: Collection, job: Job, c: nat, g: nat, landed: set<nat>): Collection
    requires Aligned(job)
  {
    Batch(job, g, landed) + Purged(col, job.source, c)
  }

  /** One replacement of generation c by generation g, given whether verification accepts it. */
  function Replaced(sh: Shelf, job: Job, f: Faults, c: nat, g: nat, accepted: bool): Outcome {
    var s := job.source;
    if Empty(job) then Outcome(sh, false)
    else if !NothingStale(sh.col, s, c) && f.purge.Raised? then
      Outcome(sh.(col := AfterDeletion(sh.col, StaleIds(sh.col, s, c), f.purge)), false)
    else if !Aligned(job) then Outcome(sh.(col := Purged(sh.col, s, c)), false)
    else
      var added := AfterAdd(sh.col, job, c, g, f.add.landed);
      if f.add.Failed? then Outcome(sh.(col := if job.writer.Frames? then Dropped(added, s, g, f.drop) else added), false)
      else if !accepted then Outcome(sh.(col := Dropped(added, s, g, f.drop)), false)
      else if !f.switch then Outcome(sh.(col := added), false)
      else Outcome(Shelf(added - RetiredIds(Generation(sh.col, s, c).Keys, f.retire, 0), sh.rows[s := g]), true)
  }

  // ----- What a replacement keeps and does

  /** Every stamped record carries the id its metadata determines; legacy ids look different. */
  predicate WellFormed(col: Collection) {
    forall id :: id in col ==> if col[id].gen > 0 then id == IdOf(col[id]) else id.LegacyId?
  }

  predicate TwoGenerations(col: Collection, s: Source, g: nat) {
    forall id :: id in col && col[id].source == s ==> col[id].gen == g || col[id].gen == g + 1
  }

  /** The source's records span at most two adjacent generations, one of them the current one. */
  predicate Adjacent(sh: Shelf, s: Source) {
    var c := Row(sh.rows, s);
    TwoGenerations(sh.col, s, c) || (c > 0 && TwoGenerations(sh.col, s, c - 1))
  }

  /** No record of the source is above its current generation. */
  predicate NoneAbove(sh: Shelf, s: Source) {
    forall id :: id in sh.col && sh.col[id].source == s ==> sh.col[id].gen <= Row(sh.rows, s)
  }

  /** The documents and vectors pass the writer's own verification. */
  predicate Acceptable(job: Job)
    requires Aligned(job)
  {
    && (forall i :: 0 <= i < |job.vectors| ==> job.vectors[i] != [] && |job.vectors[i]| == |job.vectors[0]|)
    && (!job.writer.Picture? ==>
          forall i :: 0 <= i < |job.vectors| ==> !Blank(StoredDocument(job, i)))
  }

  /** Exactly when a replacement commits. */
  ghost predicate Commits(sh: Shelf, job: Job, f: Faults) {
    && !Empty(job) && Aligned(job) && Acceptable(job)
    && (f.purge.Completed? || NothingStale(sh.col, job.source, Row(sh.rows, job.source)))
    && f.add.Returned? && AllLanded(f.add.landed, |job.vectors|)
    && f.readBack && f.switch
  }

  /** Every record of the batch is the one built for its index, under the id of that index. */
  lemma BatchRecords(job: Job, g: nat, landed: set<nat>)
    requires Aligned(job)
    ensures var b := Batch(job, g, landed); forall id :: id in b ==>
      b[id].index < |job.vectors| && b[id].index in landed &&
      b[id] == NewRecord(job, g, b[id].index) && id == IdOf(b[id])
  {
    forall id | id in Batch(job, g, landed)
      ensures IndexOf(id) in landed && id == RecordId(job.writer, job.source, g, IndexOf(id))
    {
      BatchIdsMember(job, g, landed, |job.vectors|, id);
    }
  }

  lemma {:induction false} BatchIdsMember(job: Job, g: nat, landed: set<nat>, k: nat, id: Id)
    requires Aligned(job) && k <= |job.vectors|
    ensures id in BatchIds(job, g, landed, k) <==>
            IndexOf(id) < k && IndexOf(id) in landed && id == RecordId(job.writer, job.source, g, IndexOf(id))
  {
    if k > 0 {
      BatchIdsMember(job, g, landed, k - 1, id);
    }
  }

  /** Ids of a generation the collection has no record of are free: an add never collides. */
  lemma NewIdsAreFree(col: Collection, job: Job, g: nat, landed: set<nat>)
    requires WellFormed(col) && Aligned(job) && g > 0
    requires Generation(col, job.source, g) == map[]
    ensures Batch(job, g, landed).Keys !! col.Keys
  {
    var b := Batch(job, g, landed);
    BatchRecords(job, g, landed);
    forall id | id in col
      ensures id !in b
    {
      var r := col[id];
      assert id in Generation(col, job.source, g) <==> r.source == job.source && r.gen == g;
    }
  }

  /** Verification passes exactly when the whole batch landed and its content is acceptable. */
  lemma VerifiedIffWhole(job: Job, g: nat, landed: set<nat>)
    requires Aligned(job) && !Empty(job)
    ensures Verified(Batch(job, g, landed), |job.vectors|, !job.writer.Picture?)
       <==> AllLanded(landed, |job.vectors|) && Acceptable(job)
  {
    var n, b := |job.vectors|, Batch(job, g, landed);
    BatchRecords(job, g, landed);
    forall i: nat | i < n
      ensures HasIndex(b, i) <==> i in landed
    {
      if i in landed {
        RecordAt(job, g, landed, i);
      }
    }
    if AllLanded(landed, n) {
      AllLandedIsWhole(job, g, landed);
      AcceptableMeans(job, g);
    }
    if n == 1 {
      OneOrNone(job, g, landed);
    }
  }

  lemma OneOrNone(job: Job, g: nat, landed: set<nat>)
    requires Aligned(job) && |job.vectors| == 1
    ensures OneRecord(Batch(job, g, landed)) <==> AllLanded(landed, 1)
  {
    var b := Batch(job, g, landed);
    BatchRecords(job, g, landed);
    if 0 in landed {
      RecordAt(job, g, landed, 0);
      assert b.Keys == {RecordId(job.writer, job.source, g, 0)};
    }
  }

  lemma AllLandedIsWhole(job: Job, g: nat, landed: set<nat>)
    requires Aligned(job) && AllLanded(landed, |job.vectors|)
    ensures Batch(job, g, landed) == Whole(job, g)
  {
    var n := |job.vectors|;
    forall id: Id
      ensures id in BatchIds(job, g, landed, n) <==> id in BatchIds(job, g, AllIndexes(n), n)
    {
      BatchIdsMember(job, g, landed, n, id);
      BatchIdsMember(job, g, AllIndexes(n), n, id);
    }
  }

  lemma RecordAt(job: Job, g: nat, landed: set<nat>, i: nat)
    requires Aligned(job) && i < |job.vectors| && i in landed
    ensures var id := RecordId(job.writer, job.source, g, i); var b := Batch(job, g, landed);
            id in b && b[id] == NewRecord(job, g, i) && HasIndex(b, i)
  {
    var id := RecordId(job.writer, job.source, g, i);
    BatchIdsMember(job, g, landed, |job.vectors|, id);
    assert Batch(job, g, landed)[id].index == i;
  }

  lemma AcceptableMeans(job: Job, g: nat)
    requires Aligned(job) && !Empty(job)
    ensures Acceptable(job) <==> SoundContent(Whole(job, g), !job.writer.Picture?)
  {
    var b, n := Whole(job, g), |job.vectors|;
    BatchRecords(job, g, AllIndexes(n));
    forall id | id in b
      ensures b[id].vector == job.vectors[b[id].index] && b[id].document == StoredDocument(job, b[id].index)
    {
    }
    if SoundContent(b, !job.writer.Picture?) {
      RecordAt(job, g, AllIndexes(n), 0);
      forall i: nat | i < n
        ensures job.vectors[i] != [] && |job.vectors[i]| == |job.vectors[0]|
        ensures !job.writer.Picture? ==> !Blank(StoredDocument(job, i))
      {
        RecordAt(job, g, AllIndexes(n), i);
      }
    }
  }

  /** The records of all other sources and of generation g of source s. */
  function Scope(col: Collection, s: Source, g: nat): Collection {
    map id | id in col && (col[id].source == s ==> col[id].gen == g) :: col[id]
  }

  lemma ScopeDetermines(before: Collection, after: Collection, s: Source, g: nat)
    requires Scope(after, s, g) == Scope(before, s, g)
    ensures Generation(after, s, g) == Generation(before, s, g)
    ensures Others(after, s) == Others(before, s)
  {
    var a, b := Scope(after, s, g), Scope(before, s, g);
    assert Generation(after, s, g) == Generation(a, s, g) && Generation(before, s, g) == Generation(b, s, g);
    assert Others(after, s) == Others(a, s) && Others(before, s) == Others(b, s);
  }

  /** Removing records of s outside generation g changes nothing else. */
  lemma Removing(col: Collection, ids: set<Id>, s: Source, g: nat)
    requires forall id :: id in ids && id in col ==> col[id].source == s && col[id].gen != g
    ensures Scope(col - ids, s, g) == Scope(col, s, g)
    ensures WellFormed(col) ==> WellFormed(col - ids)
  {
  }

  lemma RemovingPart(col: Collection, ids: set<Id>, d: Deletion, s: Source, g: nat)
    requires forall id :: id in ids && id in col ==> col[id].source == s && col[id].gen != g
    ensures Scope(AfterDeletion(col, ids, d), s, g) == Scope(col, s, g)
    ensures WellFormed(col) ==> WellFormed(AfterDeletion(col, ids, d))
    ensures forall id :: id in AfterDeletion(col, ids, d) ==> id in col && AfterDeletion(col, ids, d)[id] == col[id]
  {
    Removing(col, if d.Completed? then ids else ids * d.removed, s, g);
  }

  /** Merging well-formed records b of generation c+1 into a collection with only generation c of s. */
  lemma Merging(col: Collection, b: Collection, s: Source, c: nat)
    requires WellFormed(col) && NothingStale(col, s, c) && b.Keys !! col.Keys
    requires forall id :: id in b ==> b[id].source == s && b[id].gen == c + 1 && id == IdOf(b[id])
    ensures WellFormed(b + col) && TwoGenerations(b + col, s, c)
    ensures Generation(b + col, s, c + 1) == b
    ensures Scope(b + col, s, c) == Scope(col, s, c)
  {
  }

  /** Over generation c, exactly the landed part of generation c+1 was added, and stale records are gone. */
  predicate AddedSoundly(col: Collection, added: Collection, job: Job, c: nat, landed: set<nat>)
    requires Aligned(job)
  {
    && WellFormed(added)
    && Scope(added, job.source, c) == Scope(col, job.source, c)
    && Generation(added, job.source, c + 1) == Batch(job, c + 1, landed)
    && TwoGenerations(added, job.source, c)
  }

  /** Adding generation c+1 of a source that has only generation-c records. */
  lemma Adding(col: Collection, job: Job, c: nat, landed: set<nat>)
    requires WellFormed(col) && Aligned(job) && NothingStale(col, job.source, c)
    ensures AddedSoundly(col, Batch(job, c + 1, landed) + col, job, c, landed)
  {
    NothingAbove(col, job.source, c);
    NewIdsAreFree(col, job, c + 1, landed);
    BatchRecords(job, c + 1, landed);
    Merging(col, Batch(job, c + 1, landed), job.source, c);
  }

  lemma NothingAbove(col: Collection, s: Source, c: nat)
    requires NothingStale(col, s, c)
    ensures Generation(col, s, c + 1) == map[]
  {
  }

  lemma PurgedIsClean(col: Collection, s: Source, c: nat)
    requires WellFormed(col)
    ensures var purged := Purged(col, s, c);
      WellFormed(purged) && Scope(purged, s, c) == Scope(col, s, c) && NothingStale(purged, s, c)
  {
    Removing(col, StaleIds(col, s, c), s, c);
  }

  /** After the purge and the add, whatever part of the batch landed. */
  lemma AfterAddSound(col: Collection, job: Job, c: nat, landed: set<nat>)
    requires WellFormed(col) && Aligned(job)
    ensures AddedSoundly(col, AfterAdd(col, job, c, c + 1, landed), job, c, landed)
  {
    PurgedIsClean(col, job.source, c);
    Adding(Purged(col, job.source, c), job, c, landed);
  }

  /** Nothing a reader or the registry sees of s has changed, and the spread of generations holds. */
  predicate Milder(before: Shelf, after: Shelf, s: Source, c: nat) {
    && after.rows == before.rows && WellFormed(after.col)
    && Scope(after.col, s, c) == Scope(before.col, s, c)
    && (Adjacent(before, s) ==> Adjacent(after, s))
  }

  lemma AfterDrop(sh: Shelf, job: Job, c: nat, landed: set<nat>, d: Deletion)
    requires WellFormed(sh.col) && Aligned(job) && c == Row(sh.rows, job.source)
    ensures var added := AfterAdd(sh.col, job, c, c + 1, landed);
      && Milder(sh, sh.(col := added), job.source, c)
      && Milder(sh, sh.(col := Dropped(added, job.source, c + 1, d)), job.source, c)
  {
    AfterAddSound(sh.col, job, c, landed);
    var added := AfterAdd(sh.col, job, c, c + 1, landed);
    RemovingPart(added, Generation(added, job.source, c + 1).Keys, d, job.source, c);
  }

  /** A replacement that does not commit. */
  lemma Failed(sh: Shelf, job: Job, f: Faults, c: nat, accepted: bool)
    requires WellFormed(sh.col) && c == Row(sh.rows, job.source)
    requires !Replaced(sh, job, f, c, c + 1, accepted).ok
    ensures Milder(sh, Replaced(sh, job, f, c, c + 1, accepted).shelf, job.source, c)
  {
    var s := job.source;
    if Empty(job) {
    } else if !Aligned(job) || !(NothingStale(sh.col, s, c) || f.purge.Completed?) {
      RemovingPart(sh.col, StaleIds(sh.col, s, c), f.purge, s, c);
      RemovingPart(sh.col, StaleIds(sh.col, s, c), Completed, s, c);
    } else {
      AfterDrop(sh, job, c, f.add.landed, f.drop);
    }
  }

  /** The old generation's deletion, however much of it succeeds. */
  lemma AfterRetire(col: Collection, job: Job, c: nat, landed: set<nat>, retired: set<Id>)
    requires WellFormed(col) && Aligned(job) && retired <= Generation(col, job.source, c).Keys
    ensures var s := job.source; var o := AfterAdd(col, job, c, c + 1, landed) - retired;
      && WellFormed(o) && Generation(o, s, c + 1) == Batch(job, c + 1, landed)
      && Others(o, s) == Others(col, s) && TwoGenerations(o, s, c)
  {
    AfterAddSound(col, job, c, landed);
    var s, added := job.source, AfterAdd(col, job, c, c + 1, landed);
    ScopeDetermines(col, added, s, c);
    forall id | id in retired && id in added
      ensures added[id].source == s && added[id].gen == c
    {
      assert Generation(added, s, c)[id] == added[id];
    }
    Removing(added, retired, s, c + 1);
    ScopeDetermines(added, added - retired, s, c + 1);
  }

  /** What a committed replacement leaves. */
  predicate Done(before: Shelf, after: Shelf, job: Job, c: nat, landed: set<nat>) {
    && Aligned(job) && after.rows == before.rows[job.source := c + 1] && WellFormed(after.col)
    && Generation(after.col, job.source, c + 1) == Batch(job, c + 1, landed)
    && Others(after.col, job.source) == Others(before.col, job.source)
    && TwoGenerations(after.col, job.source, c)
  }

  /** A replacement that commits. */
  lemma Committed(sh: Shelf, job: Job, f: Faults, c: nat, accepted: bool)
    requires WellFormed(sh.col) && Replaced(sh, job, f, c, c + 1, accepted).ok
    ensures Done(sh, Replaced(sh, job, f, c, c + 1, accepted).shelf, job, c, f.add.landed)
  {
    AfterRetire(sh.col, job, c, f.add.landed, RetiredIds(Generation(sh.col, job.source, c).Keys, f.retire, 0));
  }

  /** Verification accepts exactly whole and acceptable generations. */
  lemma PassesIff(col: Collection, job: Job, c: nat, landed: set<nat>)
    requires WellFormed(col) && Aligned(job) && !Empty(job)
    ensures Passes(AfterAdd(col, job, c, c + 1, landed), job, c + 1)
       <==> AllLanded(landed, |job.vectors|) && Acceptable(job)
  {
    AfterAddSound(col, job, c, landed);
    VerifiedIffWhole(job, c + 1, landed);
  }

  lemma CommitsIff(sh: Shelf, job: Job, f: Faults, c: nat, accepted: bool)
    ensures Replaced(sh, job, f, c, c + 1, accepted).ok <==>
      && !Empty(job) && Aligned(job) && f.add.Returned? && accepted && f.switch
      && (f.purge.Completed? || NothingStale(sh.col, job.source, c))
  {
  }

  lemma AcceptsIff(col: Collection, job: Job, f: Faults, c: nat)
    requires WellFormed(col) && !Empty(job)
    ensures Accepts(col, job, f, c, c + 1)
       <==> f.readBack && Aligned(job) && AllLanded(f.add.landed, |job.vectors|) && Acceptable(job)
  {
    if Aligned(job) {
      PassesIff(col, job, c, f.add.landed);
    }
  }

  lemma ReplaceCommitsIff(sh: Shelf, job: Job, f: Faults, c: nat)
    requires WellFormed(sh.col) && c == Row(sh.rows, job.source)
    ensures Replaced(sh, job, f, c, c + 1, Accepts(sh.col, job, f, c, c + 1)).ok <==> Commits(sh, job, f)
  {
    CommitsIff(sh, job, f, c, Accepts(sh.col, job, f, c, c + 1));
    if !Empty(job) {
      AcceptsIff(sh.col, job, f, c);
    }
  }

  /** All or nothing: with `commits`, the registry names generation c+1 and that generation is
  exactly the whole batch; without, the registry and every record of the current generation are
  as they were. */
  predicate AllOrNothing(before: Shelf, o: Outcome, job: Job, commits: bool) {
    var s, c := job.source, Row(before.rows, job.source);
    && o.ok == commits
    && (o.ok ==> Aligned(job) && o.shelf.rows == before.rows[s := c + 1] &&
                 Generation(o.shelf.col, s, c + 1) == Whole(job, c + 1))
    && (!o.ok ==> o.shelf.rows == before.rows && Generation(o.shelf.col, s, c) == Generation(before.col, s, c))
  }

  lemma CurrentGenerationKept(sh: Shelf, job: Job, f: Faults, c: nat, accepted: bool)
    requires WellFormed(sh.col) && c == Row(sh.rows, job.source)
    ensures var s := job.source; var o := Replaced(sh, job, f, c, c + 1, accepted);
      && (o.ok ==> Done(sh, o.shelf, job, c, f.add.landed))
      && (!o.ok ==> o.shelf.rows == sh.rows && Generation(o.shelf.col, s, c) == Generation(sh.col, s, c))
  {
    if Replaced(sh, job, f, c, c + 1, accepted).ok {
      Committed(sh, job, f, c, accepted);
    } else {
      Failed(sh, job, f, c, accepted);
      ScopeDetermines(sh.col, Replaced(sh, job, f, c, c + 1, accepted).shelf.col, job.source, c);
    }
  }

  lemma ReplacedIsAtomic(sh: Shelf, job: Job, f: Faults, c: nat, accepted: bool)
    requires WellFormed(sh.col) && c == Row(sh.rows, job.source)
    requires var ok := Replaced(sh, job, f, c, c + 1, accepted).ok;
      ok ==> Aligned(job) && AllLanded(f.add.landed, |job.vectors|)
    ensures var o := Replaced(sh, job, f, c, c + 1, accepted); AllOrNothing(sh, o, job, o.ok)
  {
    CurrentGenerationKept(sh, job, f, c, accepted);
    AtomicFrom(sh, Replaced(sh, job, f, c, c + 1, accepted), job, c, f.add.landed);
  }

  lemma AtomicFrom(sh: Shelf, o: Outcome, job: Job, c: nat, landed: set<nat>)
    requires c == Row(sh.rows, job.source)
    requires o.ok ==> Aligned(job) && AllLanded(landed, |job.vectors|) && Done(sh, o.shelf, job, c, landed)
    requires !o.ok ==> o.shelf.rows == sh.rows && Generation(o.shelf.col, job.source, c) == Generation(sh.col, job.source, c)
    ensures AllOrNothing(sh, o, job, o.ok)
  {
    if o.ok {
      AllLandedIsWhole(job, c + 1, landed);
    }
  }

  lemma ReplaceIs(sh: Shelf, job: Job, f: Faults, c: nat, accepted: bool)
    requires c == Row(sh.rows, job.source) && accepted == Accepts(sh.col, job, f, c, c + 1)
    ensures Replace(sh, job, f) == Replaced(sh, job, f, c, c + 1, accepted)
  {
  }

  /** One replacement is atomic whatever fails in it, and commits exactly when `Commits` says. */
  lemma {:induction false} ReplaceIsAtomic(sh: Shelf, job: Job, f: Faults)
    requires WellFormed(sh.col)
    ensures AllOrNothing(sh, Replace(sh, job, f), job, Commits(sh, job, f))
  {
    var c := Row(sh.rows, job.source);
    ReplaceCommitsIff(sh, job, f, c);
    ReplaceIs(sh, job, f, c, Accepts(sh.col, job, f, c, c + 1));
    ReplacedIsAtomic(sh, job, f, c, Accepts(sh.col, job, f, c, c + 1));
  }

  /** What every replacement keeps. */
  ghost predicate Kept(before: Shelf, o: Outcome, s: Source) {
    && WellFormed(o.shelf.col)
    && Others(o.shelf.col, s) == Others(before.col, s)
    && (forall t :: t != s ==> Row(o.shelf.rows, t) == Row(before.rows, t))
    && (Adjacent(before, s) ==> Adjacent(o.shelf, s))
    && (o.ok ==> NoneAbove(o.shelf, s))
  }

  /** One replacement never touches another source, keeps ids in order and keeps the source's
  records within two adjacent generations; a committed one leaves nothing above the new one. */
  lemma {:induction false} ReplaceKeeps(sh: Shelf, job: Job, f: Faults)
    requires WellFormed(sh.col)
    ensures Kept(sh, Replace(sh, job, f), job.source)
  {
    var c := Row(sh.rows, job.source);
    var accepted := Accepts(sh.col, job, f, c, c + 1);
    ReplaceIs(sh, job, f, c, accepted);
    ReplacedKeeps(sh, job, f, c, accepted);
  }

  lemma ReplacedKeeps(sh: Shelf, job: Job, f: Faults, c: nat, accepted: bool)
    requires WellFormed(sh.col) && c == Row(sh.rows, job.source)
    ensures Kept(sh, Replaced(sh, job, f, c, c + 1, accepted), job.source)
  {
    var o := Replaced(sh, job, f, c, c + 1, accepted);
    if o.ok {
      Committed(sh, job, f, c, accepted);
    } else {
      Failed(sh, job, f, c, accepted);
      ScopeDetermines(sh.col, o.shelf.col, job.source, c);
    }
  }
}
