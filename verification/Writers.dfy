/** The steps of one replacement as the vector store performs them on a collection. */
module Writers {
  import opened Storage
  import opened Text
  import opened Replacement
  import Indexes

  function IdSet(list: seq<Id>): set<Id> {
    set id | id in list
  }

  predicate Distinct(list: seq<Id>) {
    forall i, j :: 0 <= i < j < |list| ==> list[i] != list[j]
  }

  lemma IdSetAppend(list: seq<Id>, id: Id)
    ensures IdSet(list + [id]) == IdSet(list) + {id}
  {
  }

  /** The ids a collection read returns, in some order. */
  method Get(ids: set<Id>) returns (list: seq<Id>)
    ensures IdSet(list) == ids && Distinct(list)
  {
    list := [];
    var rest := ids;
    while rest != {}
      invariant rest <= ids && IdSet(list) == ids - rest && Distinct(list)
      decreases rest
    {
      var id :| id in rest;
      assert forall i :: 0 <= i < |list| ==> list[i] in IdSet(list);
      IdSetAppend(list, id);
      list := list + [id];
      rest := rest - {id};
    }
  }

  function SourceIds(col: Collection, s: Source): set<Id> {
    set id | id in col && col[id].source == s
  }

  /** Splits the source's records into current and stale, and deletes the stale ones, if any. */
  method AtomicPrepare(col: Collection, s: Source, c: nat, d: Deletion)
    returns (purged: Collection, former: seq<Id>, raised: bool)
    ensures raised <==> !NothingStale(col, s, c) && d.Raised?
    ensures raised ==> purged == AfterDeletion(col, StaleIds(col, s, c), d)
    ensures !raised ==> purged == Purged(col, s, c) && IdSet(former) == Generation(col, s, c).Keys
  {
    var ids := Get(SourceIds(col, s));
    former := [];
    var stale := [];
    for i := 0 to |ids|
      invariant IdSet(former) == set id | id in IdSet(ids[..i]) && id in col && col[id].gen == c
      invariant IdSet(stale) == set id | id in IdSet(ids[..i]) && id in col && col[id].gen != c
    {
      assert ids[i] in IdSet(ids);
      assert ids[..i + 1] == ids[..i] + [ids[i]];
      IdSetAppend(ids[..i], ids[i]);
      IdSetAppend(former, ids[i]);
      IdSetAppend(stale, ids[i]);
      if col[ids[i]].gen == c {
        former := former + [ids[i]];
      } else {
        stale := stale + [ids[i]];
      }
    }
    assert ids[..|ids|] == ids;
    SplitIds(col, s, c, IdSet(former), IdSet(stale));
    if stale == [] {
      return col, former, false;
    }
    assert stale[0] in IdSet(stale);
    raised := d.Raised?;
    purged := AfterDeletion(col, IdSet(stale), d);
  }

  lemma SplitIds(col: Collection, s: Source, c: nat, former: set<Id>, stale: set<Id>)
    requires former == set id | id in SourceIds(col, s) && id in col && col[id].gen == c
    requires stale == set id | id in SourceIds(col, s) && id in col && col[id].gen != c
    ensures former == Generation(col, s, c).Keys && stale == StaleIds(col, s, c)
    ensures stale == {} <==> NothingStale(col, s, c)
    ensures stale == {} ==> Purged(col, s, c) == col
  {
    assert forall id :: id in stale <==> id in StaleIds(col, s, c);
    assert forall id :: id in former <==> id in Generation(col, s, c).Keys;
    if NothingStale(col, s, c) {
      assert Purged(col, s, c) == col;
    } else {
      var id :| id in col && col[id].source == s && col[id].gen != c;
      assert id in stale;
    }
  }

  /** Deletes the old generation; up to three attempts, the last failure is tolerated. */
  method DeleteOldGenerationWithRetry(col: Collection, former: seq<Id>, attempts: seq<Deletion>) returns (rest: Collection)
    ensures rest == col - RetiredIds(IdSet(former), attempts, 0)
  {
    rest := col;
    var k := 0;
    ghost var gone: set<Id> := {};
    while k < DELETE_ATTEMPTS
      invariant 0 <= k <= DELETE_ATTEMPTS
      invariant rest == col - gone
      invariant gone + RetiredIds(IdSet(former), attempts, k) == RetiredIds(IdSet(former), attempts, 0)
    {
      if k >= |attempts| || attempts[k].Completed? {
        rest := rest - IdSet(former);
        gone := gone + IdSet(former);
        return;
      }
      rest := rest - (IdSet(former) * attempts[k].removed);
      gone := gone + IdSet(former) * attempts[k].removed;
      k := k + 1;
    }
  }

  /** Reads a generation back and checks count, documents, vectors and, for more than one record, indexes. */
  method VerifyNewGeneration(col: Collection, s: Source, g: nat, expected: nat, requireDocument: bool, readBack: bool)
    returns (ok: bool)
    requires expected > 0
    ensures ok <==> readBack && Verified(Generation(col, s, g), expected, requireDocument)
  {
    if !readBack {
      return false;
    }
    var gen := Generation(col, s, g);
    var ids := Get(gen.Keys);
    KeysInList(gen, ids);
    if |ids| != expected {
      WrongCount(gen, ids, expected);
      return false;
    }
    var sound := CheckContent(gen, ids, requireDocument);
    if !sound {
      return false;
    }
    if expected == 1 {
      assert gen.Keys == {ids[0]};
      return true;
    }
    var indexes: seq<nat> := [];
    for i := 0 to |ids|
      invariant |indexes| == i && forall j :: 0 <= j < i ==> indexes[j] == gen[ids[j]].index
    {
      indexes := indexes + [gen[ids[i]].index];
    }
    ok := Indexes.IsRange(indexes);
    NumberedIffCovers(gen, ids, indexes);
  }

  lemma KeysInList(gen: Collection, ids: seq<Id>)
    requires IdSet(ids) == gen.Keys
    ensures forall i :: 0 <= i < |ids| ==> ids[i] in gen
    ensures forall id :: id in gen ==> id in ids
  {
    forall i | 0 <= i < |ids|
      ensures ids[i] in gen
    {
      assert ids[i] in IdSet(ids);
    }
  }

  method CheckContent(gen: Collection, ids: seq<Id>, requireDocument: bool) returns (ok: bool)
    requires forall i :: 0 <= i < |ids| ==> ids[i] in gen
    requires forall id :: id in gen ==> id in ids
    ensures ok <==> SoundContent(gen, requireDocument)
  {
    for i := 0 to |ids|
      invariant forall j :: 0 <= j < i ==> requireDocument ==> !Blank(gen[ids[j]].document)
    {
      if requireDocument && Blank(gen[ids[i]].document) {
        return false;
      }
    }
    var dims: set<nat> := {};
    for i := 0 to |ids|
      invariant forall j :: 0 <= j < i ==> gen[ids[j]].vector != [] && |gen[ids[j]].vector| in dims
      invariant forall d :: d in dims ==> exists j :: 0 <= j < i && |gen[ids[j]].vector| == d
    {
      if gen[ids[i]].vector == [] {
        return false;
      }
      dims := dims + {|gen[ids[i]].vector|};
      assert |gen[ids[i]].vector| in dims;
    }
    ok := |dims| <= 1;
    if ok {
      OneElement(dims);
    } else {
      TwoElements(dims);
    }
  }

  lemma OneElement(dims: set<nat>)
    requires |dims| <= 1
    ensures forall a, b :: a in dims && b in dims ==> a == b
  {
    forall a, b | a in dims && b in dims
      ensures a == b
    {
      assert |dims - {a}| == |dims| - 1;
      assert b !in dims - {a};
    }
  }

  lemma TwoElements(dims: set<nat>)
    requires |dims| > 1
    ensures exists a, b :: a in dims && b in dims && a != b
  {
    var a :| a in dims;
    assert |dims - {a}| == |dims| - 1;
    var b :| b in dims - {a};
  }

  lemma {:induction false} ListedSize(ids: seq<Id>, within: set<nat>, f: map<Id, nat>)
    requires Distinct(ids) && forall i :: 0 <= i < |ids| ==> ids[i] in f && f[ids[i]] in within
    requires forall i, j :: 0 <= i < j < |ids| ==> f[ids[i]] != f[ids[j]]
    ensures |ids| <= |within|
  {
    if ids != [] {
      var n := |ids| - 1;
      forall i | 0 <= i < n
        ensures f[ids[..n][i]] in within - {f[ids[n]]}
      {
      }
      ListedSize(ids[..n], within - {f[ids[n]]}, f);
    }
  }

  /** A generation listed with another number of ids than expected is not the expected one. */
  lemma WrongCount(gen: Collection, ids: seq<Id>, expected: nat)
    requires IdSet(ids) == gen.Keys && Distinct(ids) && |ids| != expected && expected > 0
    ensures !(if expected == 1 then OneRecord(gen) else Numbered(gen, expected))
  {
    KeysInList(gen, ids);
    if expected > 1 && Numbered(gen, expected) {
      var f := map id | id in gen :: gen[id].index;
      ListedSize(ids, AllIndexes(expected), f);
      AllIndexesSize(expected);
      IndexListSize(gen, ids, expected);
    } else if expected == 1 && OneRecord(gen) {
      var id :| id in gen && gen.Keys == {id};
      OnlyElement(ids, id);
    }
  }

  lemma SameEnds(ids: seq<Id>)
    requires Distinct(ids) && ids != [] && ids[|ids| - 1] == ids[0]
    ensures |ids| == 1
  {
  }

  lemma OnlyElement(ids: seq<Id>, id: Id)
    requires IdSet(ids) == {id} && Distinct(ids)
    ensures |ids| == 1
  {
    assert id in IdSet(ids);
    assert id in ids;
    forall i | 0 <= i < |ids|
      ensures ids[i] == id
    {
      assert ids[i] in IdSet(ids);
    }
    SameEnds(ids);
  }

  lemma {:induction false} AllIndexesSize(n: nat)
    ensures |AllIndexes(n)| == n
  {
    if n > 0 {
      AllIndexesSize(n - 1);
    }
  }

  lemma {:induction false} IndexListSize(gen: Collection, ids: seq<Id>, n: nat)
    requires forall id :: id in gen ==> id in ids
    requires forall k :: 0 <= k < n ==> HasIndex(gen, k)
    ensures n <= |ids|
  {
    var found: set<nat> := {};
    var positions: seq<nat> := [];
    for k := 0 to n
      invariant |positions| == k
      invariant forall j :: 0 <= j < k ==> positions[j] < |ids| && ids[positions[j]] in gen && gen[ids[positions[j]]].index == j
    {
      assert HasIndex(gen, k);
      var id :| id in gen && gen[id].index == k;
      var p :| 0 <= p < |ids| && ids[p] == id;
      positions := positions + [p];
    }
    assert forall i, j :: 0 <= i < j < n ==> positions[i] != positions[j];
    InjectiveInto(positions, |ids|);
  }

  function NatSet(s: seq<nat>): set<nat> {
    set x | x in s
  }

  lemma {:induction false} InjectiveInto(s: seq<nat>, n: nat)
    requires forall i :: 0 <= i < |s| ==> s[i] < n
    requires forall i, j :: 0 <= i < j < |s| ==> s[i] != s[j]
    ensures |s| <= n
  {
    DistinctSize(s);
    AllIndexesSize(n);
    assert NatSet(s) <= AllIndexes(n);
    Indexes.SubsetSize(NatSet(s), AllIndexes(n));
  }

  lemma {:induction false} DistinctSize(s: seq<nat>)
    requires forall i, j :: 0 <= i < j < |s| ==> s[i] != s[j]
    ensures |NatSet(s)| == |s|
  {
    if s != [] {
      var n := |s| - 1;
      DistinctSize(s[..n]);
      assert NatSet(s) == NatSet(s[..n]) + {s[n]};
    }
  }

  /** For as many records as listed, the index check is exactly that they are numbered. */
  lemma NumberedIffCovers(gen: Collection, ids: seq<Id>, indexes: seq<nat>)
    requires IdSet(ids) == gen.Keys && Distinct(ids) && |indexes| == |ids|
    requires forall i :: 0 <= i < |ids| ==> ids[i] in gen && indexes[i] == gen[ids[i]].index
    ensures Numbered(gen, |ids|) <==> Indexes.Covers(indexes)
  {
    KeysInList(gen, ids);
    if Indexes.Covers(indexes) {
      Indexes.CoversMeansDistinct(indexes);
      forall k | 0 <= k < |ids|
        ensures HasIndex(gen, k)
      {
        assert k in indexes;
        var i :| 0 <= i < |indexes| && indexes[i] == k;
        assert ids[i] in gen;
      }
    } else if Numbered(gen, |ids|) {
      forall k | 0 <= k < |ids|
        ensures k in indexes
      {
        assert HasIndex(gen, k);
        var id :| id in gen && gen[id].index == k;
        var i :| 0 <= i < |ids| && ids[i] == id;
        assert indexes[i] == k;
      }
    }
  }

  /** Builds the landed part of the batch record by record. */
  method BuildBatch(job: Job, g: nat, landed: set<nat>) returns (batch: Collection)
    requires Aligned(job)
    ensures batch == Batch(job, g, landed)
  {
    batch := map[];
    for i := 0 to |job.vectors|
      invariant forall id :: id in batch <==>
        IndexOf(id) < i && IndexOf(id) in landed && id == RecordId(job.writer, job.source, g, IndexOf(id))
      invariant forall id :: id in batch ==> batch[id] == NewRecord(job, g, IndexOf(id))
    {
      if i in landed {
        batch := batch[RecordId(job.writer, job.source, g, i) := NewRecord(job, g, i)];
      }
    }
    forall id: Id
      ensures id in BatchIds(job, g, landed, |job.vectors|) <==> id in batch
    {
      BatchIdsMember(job, g, landed, |job.vectors|, id);
    }
  }

  /** One replacement, step by step: purge, add, verify, switch, delete the old generation. */
  method ReplaceRecords(sh: Shelf, job: Job, f: Faults, c: nat, g: nat) returns (o: Outcome)
    requires !Empty(job)
    ensures o == Rewrite(sh, job, f, c, g)
    ensures o.shelf.rows == if o.ok then sh.rows[job.source := g] else sh.rows
  {
    var s := job.source;
    var col, former, raised := AtomicPrepare(sh.col, s, c, f.purge);
    if raised || !Aligned(job) {
      return Outcome(sh.(col := col), false);
    }
    var batch := BuildBatch(job, g, f.add.landed);
    col := batch + col;
    ghost var added := col;
    if f.add.Failed? {
      if job.writer.Frames? {
        col := Dropped(col, s, g, f.drop);
      }
      return Outcome(sh.(col := col), false);
    }
    var verified := VerifyNewGeneration(col, s, g, |job.vectors|, !job.writer.Picture?, f.readBack);
    assert verified == Accepts(sh.col, job, f, c, g);
    if !verified {
      return Outcome(sh.(col := Dropped(col, s, g, f.drop)), false);
    }
    if !f.switch {
      return Outcome(sh.(col := col), false);
    }
    col := DeleteOldGenerationWithRetry(col, former, f.retire);
    return Outcome(Shelf(col, sh.rows[s := g]), true);
  }
}
