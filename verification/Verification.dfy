/** The integrity check by which an unchanged file is recognised: it reads a source's effective
records back from all collections and answers with their content hash only if they are complete. */
module Verification {
  import opened Options
  import opened Storage
  import opened Text
  import opened Replacement
  import opened Library
  import opened Refinement
  import Indexes
  import Writers

  datatype Status = Complete | NotIndexed | IntegrityFailed | ReadError

  datatype Verdict = Verdict(status: Status, hash: Option<string>)

  /** A number in a record's metadata: absent, not a number, or read. */
  datatype Number = Missing | Unreadable | Value(n: int)

  /** `index` and `count` are the chunk's or the frame's; an absent hash is empty. */
  datatype Meta = Meta(index: Number, count: Number, hash: string)

  /** What the collections returned, as parallel lists. */
  datatype Reading = Reading(metas: seq<Meta>, documents: seq<Option<string>>, vectors: seq<Option<Vector>>)

  // ----- Reading over all collections

  /** Generation 0 means no generation filter. */
  function Effective(col: Collection, s: Source, c: nat): Collection {
    if c == 0 then map id | id in col && col[id].source == s :: col[id] else Generation(col, s, c)
  }

  /** The rows are the records of a collection, in some order. */
  ghost predicate Lists(rows: seq<Record>, col: Collection) {
    exists ids :: ListedBy(rows, col, ids)
  }

  ghost predicate ListedBy(rows: seq<Record>, col: Collection, ids: seq<Id>) {
    && Writers.IdSet(ids) == col.Keys && Writers.Distinct(ids) && |rows| == |ids|
    && forall i :: 0 <= i < |ids| ==> ids[i] in col && rows[i] == col[ids[i]]
  }

  /** The rows of all collections one after the other; nothing is dropped. */
  ghost predicate Union(rows: seq<Record>, cols: seq<Option<Collection>>, s: Source, c: nat)
    decreases |cols|, 1
  {
    if cols == [] then rows == []
    else exists k :: 0 <= k <= |rows| && UnionAt(rows, cols, s, c, k)
  }

  ghost predicate UnionAt(rows: seq<Record>, cols: seq<Option<Collection>>, s: Source, c: nat, k: nat)
    requires cols != [] && k <= |rows|
    decreases |cols|, 0
  {
    && cols[|cols| - 1].Some? && Lists(rows[k..], Effective(cols[|cols| - 1].value, s, c))
    && Union(rows[..k], cols[..|cols| - 1], s, c)
  }

  /** Reads every collection; a collection that raises (here None) fails the whole read. */
  method ReadEffective(cols: seq<Option<Collection>>, s: Source, c: nat) returns (rows: Option<seq<Record>>)
    ensures rows.None? <==> exists i :: 0 <= i < |cols| && cols[i].None?
    ensures rows.Some? ==> Union(rows.value, cols, s, c)
  {
    var out: seq<Record> := [];
    for i := 0 to |cols|
      invariant forall j :: 0 <= j < i ==> cols[j].Some?
      invariant Union(out, cols[..i], s, c)
    {
      if cols[i].None? {
        return None;
      }
      var more := Rows(Effective(cols[i].value, s, c));
      var all := out + more;
      assert cols[..i + 1][..i] == cols[..i];
      assert all[..|out|] == out && all[|out|..] == more;
      assert UnionAt(all, cols[..i + 1], s, c, |out|);
      out := all;
    }
    assert cols[..|cols|] == cols;
    rows := Some(out);
  }

  method Rows(col: Collection) returns (rows: seq<Record>)
    ensures Lists(rows, col)
  {
    var ids := Writers.Get(col.Keys);
    Writers.KeysInList(col, ids);
    rows := [];
    for i := 0 to |ids|
      invariant |rows| == i && forall j :: 0 <= j < i ==> rows[j] == col[ids[j]]
    {
      rows := rows + [col[ids[i]]];
    }
    assert ListedBy(rows, col, ids);
  }

  function MetaOf(r: Record): Meta {
    if r.writer.Picture? then Meta(Missing, Missing, r.hash) else Meta(Value(r.index), Value(r.count), r.hash)
  }

  function ReadingOf(rows: seq<Record>): Reading {
    Reading(seq(|rows|, i requires 0 <= i < |rows| => MetaOf(rows[i])),
            seq(|rows|, i requires 0 <= i < |rows| => Some(rows[i].document)),
            seq(|rows|, i requires 0 <= i < |rows| => Some(rows[i].vector)))
  }

  // ----- What counts as complete

  predicate DocumentsSound(documents: seq<Option<string>>) {
    forall i :: 0 <= i < |documents| ==> documents[i].Some? && !Blank(documents[i].value)
  }

  predicate Present(v: Option<Vector>) {
    v.Some? && v.value != []
  }

  predicate VectorsSound(vectors: seq<Option<Vector>>) {
    && (forall i :: 0 <= i < |vectors| ==> Present(vectors[i]))
    && (forall i, j :: 0 <= i < |vectors| && 0 <= j < |vectors| ==> |vectors[i].value| == |vectors[j].value|)
  }

  predicate HasNumber(metas: seq<Meta>, k: int) {
    exists i :: 0 <= i < |metas| && metas[i].index == Value(k)
  }

  /** Every record has a readable index, and every index below the number of records occurs. */
  predicate Indexed(metas: seq<Meta>) {
    && (forall i :: 0 <= i < |metas| ==> metas[i].index.Value?)
    && (forall k :: 0 <= k < |metas| ==> HasNumber(metas, k))
  }

  predicate HasHash(metas: seq<Meta>, h: string) {
    exists i :: 0 <= i < |metas| && metas[i].hash == h
  }

  /** h is the one hash the records carry; records without a hash do not count. */
  ghost predicate OneHash(metas: seq<Meta>, h: string) {
    h != "" && HasHash(metas, h) && forall g :: g != "" && HasHash(metas, g) ==> g == h
  }

  predicate Parallel(rd: Reading) {
    |rd.documents| == |rd.metas| == |rd.vectors|
  }

  ghost predicate TextWhole(rd: Reading, h: string) {
    && rd.metas != [] && Parallel(rd) && DocumentsSound(rd.documents) && VectorsSound(rd.vectors)
    && (forall i :: 0 <= i < |rd.metas| ==> rd.metas[i].count == Value(|rd.metas|))
    && Indexed(rd.metas) && OneHash(rd.metas, h)
  }

  /** Images: every record has the hash; several records are frames, whose declared count is asked
  only of the first one. */
  ghost predicate ImageWhole(rd: Reading, h: string) {
    && rd.metas != [] && Parallel(rd) && VectorsSound(rd.vectors)
    && OneHash(rd.metas, h) && !HasHash(rd.metas, "")
    && (|rd.metas| > 1 ==> Indexed(rd.metas) && rd.metas[0].count in {Missing, Value(|rd.metas|)})
  }

  // ----- The checks

  method CheckDocuments(documents: seq<Option<string>>) returns (ok: bool)
    ensures ok <==> DocumentsSound(documents)
  {
    for i := 0 to |documents|
      invariant forall j :: 0 <= j < i ==> documents[j].Some? && !Blank(documents[j].value)
    {
      if documents[i].None? || Blank(documents[i].value) {
        return false;
      }
    }
    ok := true;
  }

  method CheckVectors(vectors: seq<Option<Vector>>) returns (ok: bool)
    ensures ok <==> VectorsSound(vectors)
  {
    var dims: set<nat> := {};
    for i := 0 to |vectors|
      invariant forall j :: 0 <= j < i ==> Present(vectors[j]) && |vectors[j].value| in dims
      invariant forall d :: d in dims ==> exists j :: 0 <= j < i && Present(vectors[j]) && |vectors[j].value| == d
    {
      if !Present(vectors[i]) {
        return false;
      }
      dims := dims + {|vectors[i].value|};
      assert Present(vectors[i]) && |vectors[i].value| in dims;
    }
    ok := |dims| <= 1;
    if ok {
      Writers.OneElement(dims);
    } else {
      Writers.TwoElements(dims);
    }
  }

  /** The readable indexes are exactly 0, 1, and so on. */
  method CheckIndexes(metas: seq<Meta>) returns (ok: bool)
    ensures ok <==> Indexed(metas)
  {
    var indexes: seq<int> := [];
    for i := 0 to |metas|
      invariant |indexes| == i && forall j :: 0 <= j < i ==> metas[j].index == Value(indexes[j])
    {
      if !metas[i].index.Value? {
        return false;
      }
      indexes := indexes + [metas[i].index.n];
    }
    ok := Indexes.IsRange(indexes);
    assert forall k :: 0 <= k < |metas| ==> (HasNumber(metas, k) <==> k in indexes);
  }

  /** The set of non-empty hashes, from which the only one is taken. */
  method OnlyHash(metas: seq<Meta>) returns (h: Option<string>)
    ensures h.Some? ==> OneHash(metas, h.value)
    ensures h.None? ==> forall g :: !OneHash(metas, g)
  {
    var hashes: set<string> := {};
    for i := 0 to |metas|
      invariant forall g :: g in hashes <==> g != "" && HasHash(metas[..i], g)
    {
      assert forall g :: HasHash(metas[..i + 1], g) <==> HasHash(metas[..i], g) || metas[i].hash == g by {
        HashAppend(metas[..i], metas[i]);
        assert metas[..i + 1] == metas[..i] + [metas[i]];
      }
      if metas[i].hash != "" {
        hashes := hashes + {metas[i].hash};
      }
    }
    assert metas[..|metas|] == metas;
    forall g | OneHash(metas, g)
      ensures hashes == {g}
    {
    }
    if |hashes| == 1 {
      var only :| only in hashes;
      Only(hashes, only);
      h := Some(only);
    } else {
      h := None;
    }
  }

  lemma Only(hashes: set<string>, only: string)
    requires |hashes| == 1 && only in hashes
    ensures forall g :: g in hashes ==> g == only
  {
    forall g | g in hashes
      ensures g == only
    {
      assert |hashes - {only}| == 0;
      assert g !in hashes - {only};
    }
  }

  lemma HashAppend(metas: seq<Meta>, m: Meta)
    ensures forall g :: HasHash(metas + [m], g) <==> HasHash(metas, g) || m.hash == g
  {
    forall g
      ensures HasHash(metas + [m], g) <==> HasHash(metas, g) || m.hash == g
    {
      var all := metas + [m];
      if HasHash(metas, g) {
        var i :| 0 <= i < |metas| && metas[i].hash == g;
        assert all[i].hash == g;
      } else if m.hash == g {
        assert all[|metas|].hash == g;
      }
    }
  }

  method CountsAre(metas: seq<Meta>, n: nat) returns (ok: bool)
    ensures ok <==> forall i :: 0 <= i < |metas| ==> metas[i].count == Value(n)
  {
    for i := 0 to |metas|
      invariant forall j :: 0 <= j < i ==> metas[j].count == Value(n)
    {
      if metas[i].count != Value(n) {
        return false;
      }
    }
    ok := true;
  }

  /** What the text check answers about a reading that is whole with hash h. */
  function Expecting(h: string, expected: Option<string>): Verdict {
    if expected.Some? && expected.value != h then Verdict(IntegrityFailed, Some(h)) else Verdict(Complete, Some(h))
  }

  method VerifyTextChunks(rd: Option<Reading>, expected: Option<string>) returns (v: Verdict)
    ensures rd.None? ==> v == Verdict(ReadError, None)
    ensures rd.Some? && rd.value.metas == [] ==> v == Verdict(NotIndexed, None)
    ensures rd.Some? ==> forall h :: TextWhole(rd.value, h) ==> v == Expecting(h, expected)
    ensures rd.Some? && rd.value.metas != [] && (forall h :: !TextWhole(rd.value, h)) ==> v == Verdict(IntegrityFailed, None)
  {
    if rd.None? {
      return Verdict(ReadError, None);
    }
    var metas := rd.value.metas;
    if metas == [] {
      return Verdict(NotIndexed, None);
    }
    var documents := CheckDocuments(rd.value.documents);
    var vectors := CheckVectors(rd.value.vectors);
    var counts := CountsAre(metas, |metas|);
    var indexes := CheckIndexes(metas);
    var hash := OnlyHash(metas);
    if Parallel(rd.value) && documents && vectors && counts && indexes && hash.Some? {
      assert TextWhole(rd.value, hash.value);
      return Expecting(hash.value, expected);
    }
    return Verdict(IntegrityFailed, None);
  }

  method VerifyImageRecord(rd: Option<Reading>) returns (v: Verdict)
    ensures rd.None? ==> v == Verdict(ReadError, None)
    ensures rd.Some? && rd.value.metas == [] ==> v == Verdict(NotIndexed, None)
    ensures rd.Some? ==> forall h :: ImageWhole(rd.value, h) ==> v == Verdict(Complete, Some(h))
    ensures rd.Some? && rd.value.metas != [] && (forall h :: !ImageWhole(rd.value, h)) ==> v == Verdict(IntegrityFailed, None)
  {
    if rd.None? {
      return Verdict(ReadError, None);
    }
    var metas := rd.value.metas;
    if metas == [] {
      return Verdict(NotIndexed, None);
    }
    var vectors := CheckVectors(rd.value.vectors);
    if !Parallel(rd.value) || !vectors {
      return Verdict(IntegrityFailed, None);
    }
    for i := 0 to |metas|
      invariant forall j :: 0 <= j < i ==> metas[j].hash != ""
    {
      if metas[i].hash == "" {
        assert HasHash(metas, "");
        return Verdict(IntegrityFailed, None);
      }
    }
    var hash := OnlyHash(metas);
    if hash.None? {
      return Verdict(IntegrityFailed, None);
    }
    if |metas| > 1 {
      var indexes := CheckIndexes(metas);
      if !indexes || metas[0].count !in {Missing, Value(|metas|)} {
        return Verdict(IntegrityFailed, None);
      }
    }
    assert ImageWhole(rd.value, hash.value);
    return Verdict(Complete, hash);
  }

  /** The stored hash of a source, or nothing: then the source is indexed again. The image collection
  is asked only when the text collection has nothing. */
  method GetSourceHash(text: Option<Reading>, image: Option<Reading>) returns (h: Option<string>)
    ensures h.Some? <==> exists g :: Trusted(text, image, g)
    ensures h.Some? ==> Trusted(text, image, h.value)
  {
    var v := VerifyTextChunks(text, None);
    if v.status == NotIndexed {
      v := VerifyImageRecord(image);
    }
    h := if v.status == Complete then v.hash else None;
    if h.Some? {
      assert Trusted(text, image, h.value);
    }
  }

  /** The hash a source may be trusted with. */
  ghost predicate Trusted(text: Option<Reading>, image: Option<Reading>, h: string) {
    text.Some? && (TextWhole(text.value, h) || (text.value.metas == [] && image.Some? && ImageWhole(image.value, h)))
  }

  // ----- What the checks accept of a write

  /** Every row is a record that the job's writer stamped for generation g. */
  predicate Drawn(rows: seq<Record>, job: Job, g: nat)
    requires Aligned(job)
  {
    forall k :: 0 <= k < |rows| ==> rows[k].index < |job.vectors| && rows[k] == NewRecord(job, g, rows[k].index)
  }

  predicate HasRow(rows: seq<Record>, i: nat) {
    exists k :: 0 <= k < |rows| && rows[k].index == i
  }

  /** The rows are the job's records, each exactly once. */
  predicate Once(rows: seq<Record>, job: Job) {
    |rows| == |job.vectors| && forall i: nat :: i < |job.vectors| ==> HasRow(rows, i)
  }

  lemma ReadingShape(rows: seq<Record>)
    ensures Parallel(ReadingOf(rows)) && |ReadingOf(rows).metas| == |rows|
    ensures forall k :: 0 <= k < |rows| ==> ReadingOf(rows).metas[k] == MetaOf(rows[k])
  {
  }

  lemma DrawnContent(rows: seq<Record>, job: Job, g: nat)
    requires Aligned(job) && Acceptable(job) && Drawn(rows, job, g)
    ensures VectorsSound(ReadingOf(rows).vectors)
    ensures !job.writer.Picture? ==> DocumentsSound(ReadingOf(rows).documents)
  {
    forall k | 0 <= k < |rows|
      ensures rows[k].vector != [] && |rows[k].vector| == |job.vectors[0]|
      ensures !job.writer.Picture? ==> !Blank(rows[k].document)
    {
    }
  }

  lemma DrawnHash(rows: seq<Record>, job: Job, g: nat)
    requires Aligned(job) && Drawn(rows, job, g) && rows != []
    ensures HasHash(ReadingOf(rows).metas, job.hash)
    ensures forall h :: HasHash(ReadingOf(rows).metas, h) ==> h == job.hash
  {
    assert ReadingOf(rows).metas[0].hash == job.hash;
  }

  lemma DrawnIndexed(rows: seq<Record>, job: Job, g: nat)
    requires Aligned(job) && Drawn(rows, job, g) && !job.writer.Picture?
    ensures Indexed(ReadingOf(rows).metas) <==> forall i: nat :: i < |rows| ==> HasRow(rows, i)
  {
    var metas := ReadingOf(rows).metas;
    forall i: nat
      ensures HasNumber(metas, i) <==> HasRow(rows, i)
    {
      if HasRow(rows, i) {
        var k :| 0 <= k < |rows| && rows[k].index == i;
        assert metas[k].index == Value(i);
      }
    }
  }

  /** Among all non-empty lists of records of one acceptable write with a hash (parts, repetitions,
  any order), the text check accepts exactly those holding every chunk once. */
  lemma TextWholeIffOnce(rows: seq<Record>, job: Job, g: nat)
    requires Aligned(job) && Acceptable(job) && job.writer.Chunks? && job.hash != "" && Drawn(rows, job, g) && rows != []
    ensures TextWhole(ReadingOf(rows), job.hash) <==> Once(rows, job)
    ensures forall h :: TextWhole(ReadingOf(rows), h) ==> h == job.hash
  {
    ReadingShape(rows);
    DrawnContent(rows, job, g);
    DrawnHash(rows, job, g);
    DrawnIndexed(rows, job, g);
    var metas := ReadingOf(rows).metas;
    assert metas[0].count == Value(|job.vectors|);
  }

  /** Of video frames the image check also accepts any single surviving frame: with one record
  neither its index nor its declared count is looked at. */
  lemma FramesWholeIff(rows: seq<Record>, job: Job, g: nat)
    requires Aligned(job) && Acceptable(job) && job.writer.Frames? && job.hash != "" && Drawn(rows, job, g) && rows != []
    ensures ImageWhole(ReadingOf(rows), job.hash) <==> Once(rows, job) || |rows| == 1
    ensures forall h :: ImageWhole(ReadingOf(rows), h) ==> h == job.hash
  {
    ReadingShape(rows);
    DrawnContent(rows, job, g);
    DrawnHash(rows, job, g);
    DrawnIndexed(rows, job, g);
    assert ReadingOf(rows).metas[0].count == Value(|job.vectors|);
  }

  /** A whole write together with any records of another one, of the same source and generation, is
  never accepted as text: no declared count can equal the sum. */
  lemma MixtureNeverWhole(a: seq<Record>, b: seq<Record>, job: Job, other: Job, g: nat, h: string)
    requires Aligned(job) && Aligned(other) && job.writer.Chunks? && !Empty(job)
    requires Drawn(a, job, g) && Once(a, job) && Drawn(b, other, g) && b != []
    ensures !TextWhole(ReadingOf(a + b), h) && !TextWhole(ReadingOf(b + a), h)
  {
    ReadingShape(a + b);
    ReadingShape(b + a);
    assert (a + b)[0] == a[0] && (b + a)[|b|] == a[0];
  }

  // ----- Reading back what was committed

  lemma ListedDrawn(rows: seq<Record>, job: Job, g: nat, ids: seq<Id>)
    requires Aligned(job) && ListedBy(rows, Whole(job, g), ids)
    ensures Drawn(rows, job, g)
    ensures forall k :: 0 <= k < |rows| ==> ids[k] == RecordId(job.writer, job.source, g, rows[k].index)
  {
    BatchRecords(job, g, AllIndexes(|job.vectors|));
  }

  lemma ListedRow(rows: seq<Record>, job: Job, g: nat, ids: seq<Id>, i: nat)
    requires Aligned(job) && ListedBy(rows, Whole(job, g), ids) && i < |job.vectors|
    ensures HasRow(rows, i)
  {
    RecordAt(job, g, AllIndexes(|job.vectors|), i);
    var id := RecordId(job.writer, job.source, g, i);
    assert id in Writers.IdSet(ids);
    var k :| 0 <= k < |ids| && ids[k] == id;
    assert rows[k].index == i;
  }

  /** Distinct indexes below n that cover n are n. */
  lemma {:induction false} IndexCount(rows: seq<Record>, n: nat)
    requires forall k :: 0 <= k < |rows| ==> rows[k].index < n
    requires forall j, k :: 0 <= j < k < |rows| ==> rows[j].index != rows[k].index
    requires forall i: nat :: i < n ==> HasRow(rows, i)
    ensures |rows| == n
  {
    var indexes := seq(|rows|, k requires 0 <= k < |rows| => rows[k].index);
    Writers.InjectiveInto(indexes, n);
    Writers.DistinctSize(indexes);
    Writers.AllIndexesSize(n);
    forall i | i in AllIndexes(n)
      ensures i in Writers.NatSet(indexes)
    {
      assert HasRow(rows, i);
      var k :| 0 <= k < |rows| && rows[k].index == i;
      assert indexes[k] == i;
    }
    Indexes.SubsetSize(AllIndexes(n), Writers.NatSet(indexes));
  }

  /** A collection's listing of a whole write holds every record once. */
  lemma ListedOnce(rows: seq<Record>, job: Job, g: nat)
    requires Aligned(job) && Lists(rows, Whole(job, g))
    ensures Drawn(rows, job, g) && Once(rows, job)
  {
    var ids :| ListedBy(rows, Whole(job, g), ids);
    ListedDrawn(rows, job, g, ids);
    forall i: nat | i < |job.vectors|
      ensures HasRow(rows, i)
    {
      ListedRow(rows, job, g, ids, i);
    }
    forall j, k | 0 <= j < k < |rows|
      ensures rows[j].index != rows[k].index
    {
      assert ids[j] != ids[k];
    }
    IndexCount(rows, |job.vectors|);
  }

  /** Splits off what the last collection contributed. */
  lemma UnionLast(rows: seq<Record>, cols: seq<Option<Collection>>, s: Source, c: nat) returns (k: nat)
    requires cols != [] && Union(rows, cols, s, c)
    ensures k <= |rows| && UnionAt(rows, cols, s, c, k)
  {
    k :| 0 <= k <= |rows| && UnionAt(rows, cols, s, c, k);
  }

  lemma UnionOfOne(rows: seq<Record>, a: Collection, s: Source, c: nat)
    requires Union(rows, [Some(a)], s, c)
    ensures Lists(rows, Effective(a, s, c))
  {
    var one := [Some(a)];
    var k := UnionLast(rows, one, s, c);
    assert |one[..|one| - 1]| == 0;
    assert rows[k..] == rows;
  }

  lemma UnionOfTwo(rows: seq<Record>, a: Collection, b: Collection, s: Source, c: nat) returns (x: seq<Record>, y: seq<Record>)
    requires Union(rows, [Some(a), Some(b)], s, c)
    ensures rows == x + y && Lists(x, Effective(a, s, c)) && Lists(y, Effective(b, s, c))
  {
    var two := [Some(a), Some(b)];
    var k := UnionLast(rows, two, s, c);
    assert two[..|two| - 1] == [Some(a)];
    x, y := rows[..k], rows[k..];
    UnionOfOne(x, a, s, c);
  }

  lemma SomethingListed(ids: seq<Id>)
    ensures ids != [] ==> Writers.IdSet(ids) != {}
  {
    if ids != [] {
      assert ids[0] in Writers.IdSet(ids);
    }
  }

  lemma ListsNothing(rows: seq<Record>, col: Collection)
    requires Lists(rows, col) && col.Keys == {}
    ensures rows == []
  {
    var ids :| ListedBy(rows, col, ids);
    SomethingListed(ids);
  }

  /** Reading the union of delta and base, under any row that selects the current generation in both, where
  one holds the whole write and the other nothing. */
  lemma HeldReadsBack(side: Side, job: Job, s: Source, c: nat, rows: seq<Record>)
    requires Held(side, s, job) && Union(rows, [Some(side.delta.col), Some(side.base)], s, c)
    requires Effective(side.delta.col, s, c) == Generation(side.delta.col, s, Row(side.delta.rows, s))
    requires Effective(side.base, s, c) == Generation(side.base, s, Row(side.delta.rows, s))
    ensures Drawn(rows, job, Row(side.delta.rows, s)) && Once(rows, job)
  {
    var g := Row(side.delta.rows, s);
    var x, y := UnionOfTwo(rows, side.delta.col, side.base, s, c);
    if NothingAt(side.base, s, g) && Holds(side.delta.col, s, g, job) {
      GenerationNothing(side.base, s, g);
      ListsNothing(y, Generation(side.base, s, g));
      assert rows == x;
    } else {
      GenerationNothing(side.delta.col, s, g);
      ListsNothing(x, Generation(side.delta.col, s, g));
      assert rows == y;
    }
    ListedOnce(rows, job, g);
  }

  /** Keys agree with the kind their writer writes to. */
  ghost predicate Kinds(m: map<Key, Job>) {
    forall key :: key in m ==> KindOf(m[key].writer) == key.kind
  }

  lemma {:induction false} RunKeepsKinds(p: Plain, st: State, steps: seq<Step>)
    requires Kinds(p.live.jobs) && Kinds(p.building)
    ensures Kinds(PlainRun(p, st, steps).live.jobs) && Kinds(PlainRun(p, st, steps).building)
    decreases |steps|
  {
    if steps != [] {
      RunKeepsKinds(PlainStep(p, st, steps[0]), Apply(st, steps[0]), steps[1..]);
    }
  }

  /** Over every fair run of writes, deletes and rebuilds with failures, the stored hash read for a
  text source, when no tombstone of base records is in play, is that of its last committed write. */
  lemma RunReadsBackHash(st: State, p: Plain, steps: seq<Step>, s: Source, rows: seq<Record>)
    requires Refines(st, p) && FairRun(st, steps) && Kinds(p.live.jobs) && Kinds(p.building)
    requires var l := Run(st, steps).lib;
      Settled(l, Text, s) && Union(rows, [Some(l.text.delta.col), Some(l.text.base)], s, Row(l.text.delta.rows, s))
    requires var live := PlainRun(p, st, steps).live.jobs; Key(Text, s) in live && live[Key(Text, s)].hash != ""
    ensures forall h :: TextWhole(ReadingOf(rows), h) <==> h == PlainRun(p, st, steps).live.jobs[Key(Text, s)].hash
  {
    RunRefines(st, p, steps);
    RunKeepsKinds(p, st, steps);
    var l, x := Run(st, steps).lib, PlainRun(p, st, steps).live;
    var live := x.jobs;
    var job := live[Key(Text, s)];
    assert SideRefines(l, x, Text);
    assert Tracks(l.text, x, Text, s);
    HeldReadsBack(l.text, job, s, Row(l.text.delta.rows, s), rows);
    assert !Empty(job) && Acceptable(job);
    TextWholeIffOnce(rows, job, Row(l.text.delta.rows, s));
  }
}
