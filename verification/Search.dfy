/** Search over several collections with the current-generation and tombstone filters: the fetch is
doubled until enough filtered results are found or every collection is exhausted. */
module Search {
  import opened Storage
  import opened Library
  import Indexes

  datatype Hit = Hit(id: Id, source: Source, gen: nat, document: string, distance: real)

  /** A collection as one query sees it: its record count and the matching records, nearest first.
  `up` is false when its queries raise: such a side is skipped. */
  datatype Ranked = Ranked(count: nat, hits: seq<Hit>, up: bool)

  datatype Filter = Filter(gens: map<Source, nat>, tombstones: set<Source>)

  predicate Nearest(hits: seq<Hit>) {
    forall i, j :: 0 <= i < j < |hits| ==> hits[i].distance <= hits[j].distance
  }

  predicate DistinctIds(hits: seq<Hit>) {
    forall i, j :: 0 <= i < j < |hits| ==> hits[i].id != hits[j].id
  }

  /** What a collection promises of a query. */
  predicate Proper(c: Ranked) {
    |c.hits| <= c.count && Nearest(c.hits) && DistinctIds(c.hits)
  }

  predicate Visible(h: Hit, f: Filter) {
    h.source !in f.tombstones && Current(f.gens, h.source, h.gen)
  }

  function Ids(hits: seq<Hit>): set<Id> {
    set h | h in hits :: h.id
  }

  function Window(c: Ranked, fetch: nat): seq<Hit> {
    if c.up && |c.hits| > fetch then c.hits[..fetch] else if c.up then c.hits else []
  }

  /** A visible hit is kept unless its id was kept before. */
  function Keep(acc: seq<Hit>, h: Hit, f: Filter): seq<Hit> {
    if Visible(h, f) && h.id !in Ids(acc) then acc + [h] else acc
  }

  function KeepAll(acc: seq<Hit>, hits: seq<Hit>, f: Filter): seq<Hit> {
    if hits == [] then acc else Keep(KeepAll(acc, hits[..|hits| - 1], f), hits[|hits| - 1], f)
  }

  /** What one round gathers from the windows of all collections, in their order. */
  function Gathered(cols: seq<Ranked>, fetch: nat, f: Filter): seq<Hit> {
    if cols == [] then []
    else KeepAll(Gathered(cols[..|cols| - 1], fetch, f), Window(cols[|cols| - 1], fetch), f)
  }

  function Total(cols: seq<Ranked>): nat {
    if cols == [] then 0 else Total(cols[..|cols| - 1]) + cols[|cols| - 1].count
  }

  // ----- Stable sort by distance

  function Placed(hits: seq<Hit>, h: Hit): seq<Hit> {
    if hits == [] || hits[|hits| - 1].distance <= h.distance then hits + [h]
    else Placed(hits[..|hits| - 1], h) + [hits[|hits| - 1]]
  }

  function Sorted(hits: seq<Hit>): seq<Hit> {
    if hits == [] then [] else Placed(Sorted(hits[..|hits| - 1]), hits[|hits| - 1])
  }

  lemma {:induction false} PlacedSound(hits: seq<Hit>, h: Hit)
    requires Nearest(hits)
    ensures Nearest(Placed(hits, h)) && |Placed(hits, h)| == |hits| + 1
    ensures forall g :: g in Placed(hits, h) <==> g in hits || g == h
  {
    if hits != [] && hits[|hits| - 1].distance > h.distance {
      var n := |hits| - 1;
      var init, last := hits[..n], hits[n];
      PlacedSound(init, h);
      assert hits == init + [last];
      forall g | g in init
        ensures g.distance <= last.distance
      {
        var i :| 0 <= i < n && init[i] == g;
      }
      NearestAppend(Placed(init, h), last);
    } else {
      NearestAppend(hits, h);
    }
  }

  lemma NearestAppend(hits: seq<Hit>, h: Hit)
    requires Nearest(hits) && forall g :: g in hits ==> g.distance <= h.distance
    ensures Nearest(hits + [h])
  {
  }

  lemma {:induction false} SortedSound(hits: seq<Hit>)
    ensures Nearest(Sorted(hits)) && |Sorted(hits)| == |hits|
    ensures forall g :: g in Sorted(hits) <==> g in hits
  {
    if hits != [] {
      var n := |hits| - 1;
      SortedSound(hits[..n]);
      PlacedSound(Sorted(hits[..n]), hits[n]);
      assert hits == hits[..n] + [hits[n]];
    }
  }

  lemma PlacedLast(hits: seq<Hit>, h: Hit)
    requires hits != [] ==> hits[|hits| - 1].distance <= h.distance
    ensures Placed(hits, h) == hits + [h]
  {
  }

  lemma {:induction false} SortedFixed(hits: seq<Hit>)
    requires Nearest(hits)
    ensures Sorted(hits) == hits
  {
    if hits != [] {
      var init, last := hits[..|hits| - 1], hits[|hits| - 1];
      SortedFixed(init);
      PlacedLast(init, last);
      assert hits == init + [last];
    }
  }

  /** The hits at distance d, in order. */
  function At(hits: seq<Hit>, d: real): seq<Hit> {
    if hits == [] then []
    else At(hits[..|hits| - 1], d) + if hits[|hits| - 1].distance == d then [hits[|hits| - 1]] else []
  }

  lemma AtAppend(hits: seq<Hit>, h: Hit, d: real)
    ensures At(hits + [h], d) == At(hits, d) + if h.distance == d then [h] else []
  {
    assert (hits + [h])[..|hits + [h]| - 1] == hits;
  }

  lemma {:induction false} PlacedAt(hits: seq<Hit>, h: Hit, d: real)
    requires Nearest(hits)
    ensures At(Placed(hits, h), d) == At(hits, d) + if h.distance == d then [h] else []
  {
    if hits == [] || hits[|hits| - 1].distance <= h.distance {
      AtAppend(hits, h, d);
    } else {
      var init, last := hits[..|hits| - 1], hits[|hits| - 1];
      assert hits == init + [last];
      PlacedAt(init, h, d);
      AtAppend(Placed(init, h), last, d);
      AtAppend(init, last, d);
      AtBetween(hits, init, last, h, d);
    }
  }

  /** The hit placed and the last one are at different distances. */
  lemma AtBetween(hits: seq<Hit>, init: seq<Hit>, last: Hit, h: Hit, d: real)
    requires h.distance < last.distance && At(hits, d) == At(init, d) + if last.distance == d then [last] else []
    ensures (At(init, d) + if h.distance == d then [h] else []) + (if last.distance == d then [last] else []) ==
            At(hits, d) + if h.distance == d then [h] else []
  {
  }

  lemma {:induction false} PlacedKeepsAll(hits: seq<Hit>, h: Hit)
    ensures multiset(Placed(hits, h)) == multiset(hits) + multiset{h}
  {
    if hits != [] && hits[|hits| - 1].distance > h.distance {
      assert hits == hits[..|hits| - 1] + [hits[|hits| - 1]];
      PlacedKeepsAll(hits[..|hits| - 1], h);
    }
  }

  /** The sort keeps every hit, orders by distance, and is stable: hits at the same distance keep their order. */
  lemma {:induction false} SortedIsStable(hits: seq<Hit>, d: real)
    ensures Nearest(Sorted(hits)) && multiset(Sorted(hits)) == multiset(hits) && At(Sorted(hits), d) == At(hits, d)
  {
    if hits == [] {
    } else {
      var init, last := hits[..|hits| - 1], hits[|hits| - 1];
      assert hits == init + [last];
      SortedIsStable(init, d);
      PlacedSound(Sorted(init), last);
      PlacedAt(Sorted(init), last, d);
      PlacedKeepsAll(Sorted(init), last);
    }
  }

  /** `kept.sort(key=distance)` */
  method SortByDistance(hits: seq<Hit>) returns (r: seq<Hit>)
    ensures r == Sorted(hits)
    ensures Nearest(r) && multiset(r) == multiset(hits) && forall d :: At(r, d) == At(hits, d)
  {
    r := [];
    for i := 0 to |hits|
      invariant r == Sorted(hits[..i])
    {
      assert hits[..i + 1][..i] == hits[..i] && hits[..i + 1][i] == hits[i];
      r := Placed(r, hits[i]);
    }
    assert hits[..|hits|] == hits;
    forall d
      ensures Nearest(r) && multiset(r) == multiset(hits) && At(r, d) == At(hits, d)
    {
      SortedIsStable(hits, d);
    }
    SortedIsStable(hits, 0.0);
  }

  // ----- The search

  /** One round: query every collection with the given fetch, filter, and drop repeated ids. */
  method Gather(cols: seq<Ranked>, fetch: nat, f: Filter) returns (kept: seq<Hit>)
    ensures kept == Gathered(cols, fetch, f)
  {
    kept := [];
    var seen: set<Id> := {};
    for i := 0 to |cols|
      invariant kept == Gathered(cols[..i], fetch, f) && seen == Ids(kept)
    {
      assert cols[..i + 1][..i] == cols[..i] && cols[..i + 1][i] == cols[i];
      ghost var before := kept;
      var hits := Window(cols[i], fetch);
      for j := 0 to |hits|
        invariant kept == KeepAll(before, hits[..j], f) && seen == Ids(kept)
      {
        assert hits[..j + 1][..j] == hits[..j] && hits[..j + 1][j] == hits[j];
        var h := hits[j];
        if Visible(h, f) && h.id !in seen {
          IdsAppend(kept, h);
          seen := seen + {h.id};
          kept := kept + [h];
        }
      }
      assert hits[..|hits|] == hits;
    }
    assert cols[..|cols|] == cols;
  }

  lemma IdsAppend(hits: seq<Hit>, h: Hit)
    ensures Ids(hits + [h]) == Ids(hits) + {h.id}
  {
  }

  function Min(a: nat, b: nat): nat {
    if a < b then a else b
  }

  /** The fetch at which the search stopped: either enough was gathered, or nothing was left to fetch. */
  predicate StopsAt(cols: seq<Ranked>, n: nat, f: Filter, fetch: nat) {
    Min(if 2 * n > 1 then 2 * n else 1, Total(cols)) <= fetch <= Total(cols) &&
    (|Gathered(cols, fetch, f)| >= n || fetch == Total(cols))
  }

  method QueryCurrentGeneration(cols: seq<Ranked>, n: nat, f: Filter) returns (r: seq<Hit>)
    ensures exists fetch :: StopsAt(cols, n, f, fetch) && r == if Total(cols) > 0 then Result(cols, n, f, fetch) else []
  {
    var total := Total(cols);
    if total == 0 {
      assert StopsAt(cols, n, f, 0);
      return [];
    }
    var fetch := Min(if 2 * n > 1 then 2 * n else 1, total);
    while true
      invariant Min(if 2 * n > 1 then 2 * n else 1, total) <= fetch <= total && fetch > 0
      decreases total - fetch
    {
      var kept := Gather(cols, fetch, f);
      SortedSound(kept);
      if |kept| >= n || fetch >= total {
        r := SortByDistance(kept);
        assert StopsAt(cols, n, f, fetch);
        return r[..Min(n, |r|)];
      }
      fetch := Min(fetch * 2, total);
    }
  }

  // ----- What the result is

  lemma {:induction false} KeepAllSound(acc: seq<Hit>, hits: seq<Hit>, f: Filter)
    requires DistinctIds(acc)
    ensures DistinctIds(KeepAll(acc, hits, f)) && acc <= KeepAll(acc, hits, f)
    ensures forall h :: h in KeepAll(acc, hits, f) ==> h in acc || (h in hits && Visible(h, f))
    ensures forall h :: h in hits && Visible(h, f) ==> h.id in Ids(KeepAll(acc, hits, f))
  {
    if hits != [] {
      var n := |hits| - 1;
      KeepAllSound(acc, hits[..n], f);
      assert hits == hits[..n] + [hits[n]];
      var k := KeepAll(acc, hits[..n], f);
      IdsAppend(k, hits[n]);
      forall i | 0 <= i < |k|
        ensures k[i].id in Ids(k)
      {
      }
    }
  }

  lemma {:induction false} GatheredSound(cols: seq<Ranked>, fetch: nat, f: Filter)
    ensures DistinctIds(Gathered(cols, fetch, f))
    ensures forall h :: h in Gathered(cols, fetch, f) ==> Visible(h, f) && exists c :: c in cols && h in Window(c, fetch)
    ensures forall c, h :: c in cols && h in Window(c, fetch) && Visible(h, f) ==> h.id in Ids(Gathered(cols, fetch, f))
  {
    if cols != [] {
      var n := |cols| - 1;
      GatheredSound(cols[..n], fetch, f);
      assert cols == cols[..n] + [cols[n]];
      var acc := Gathered(cols[..n], fetch, f);
      KeepAllSound(acc, Window(cols[n], fetch), f);
      var all := Gathered(cols, fetch, f);
      assert Ids(acc) <= Ids(all);
    }
  }

  lemma {:induction false} DistinctCount(hits: seq<Hit>)
    requires DistinctIds(hits)
    ensures |Ids(hits)| == |hits|
  {
    if hits != [] {
      var n := |hits| - 1;
      DistinctCount(hits[..n]);
      assert hits == hits[..n] + [hits[n]];
      IdsAppend(hits[..n], hits[n]);
    }
  }

  /** A wider fetch gathers at least the ids of a narrower one, so never fewer hits. */
  lemma WiderGathersMore(cols: seq<Ranked>, a: nat, b: nat, f: Filter)
    requires a <= b
    ensures Ids(Gathered(cols, a, f)) <= Ids(Gathered(cols, b, f))
    ensures |Gathered(cols, a, f)| <= |Gathered(cols, b, f)|
  {
    GatheredSound(cols, a, f);
    GatheredSound(cols, b, f);
    forall h | h in Gathered(cols, a, f)
      ensures h.id in Ids(Gathered(cols, b, f))
    {
      var c :| c in cols && h in Window(c, a);
      assert h in Window(c, b);
    }
    var x, y := Ids(Gathered(cols, a, f)), Ids(Gathered(cols, b, f));
    assert y == x + (y - x);
    DistinctCount(Gathered(cols, a, f));
    DistinctCount(Gathered(cols, b, f));
  }

  function Result(cols: seq<Ranked>, n: nat, f: Filter, stop: nat): seq<Hit> {
    Sorted(Gathered(cols, stop, f))[..Min(n, |Sorted(Gathered(cols, stop, f))|)]
  }

  /** The ids of all visible records of the readable collections. */
  function VisibleIds(cols: seq<Ranked>, f: Filter): set<Id> {
    set c, h | c in cols && c.up && h in c.hits && Visible(h, f) :: h.id
  }

  lemma AllGathered(cols: seq<Ranked>, f: Filter)
    requires forall c :: c in cols ==> Proper(c)
    ensures |Gathered(cols, Total(cols), f)| == |VisibleIds(cols, f)|
  {
    var all := Gathered(cols, Total(cols), f);
    GatheredSound(cols, Total(cols), f);
    DistinctCount(all);
    forall c | c in cols
      ensures Window(c, Total(cols)) == if c.up then c.hits else []
    {
      TotalBounds(cols, c);
    }
    assert Ids(all) == VisibleIds(cols, f);
  }

  /** Whenever the search stops, its result is distinct by id, visible, nearest first, and counts
  exactly the smaller of n and the number of visible ids anywhere in the readable collections. */
  lemma ResultSound(cols: seq<Ranked>, n: nat, f: Filter, stop: nat)
    requires StopsAt(cols, n, f, stop) && forall c :: c in cols ==> Proper(c)
    ensures var r := Result(cols, n, f, stop);
      && DistinctIds(r) && Nearest(r) && (forall h :: h in r ==> Visible(h, f))
      && |r| == Min(n, |VisibleIds(cols, f)|)
  {
    var all := Gathered(cols, stop, f);
    GatheredSound(cols, stop, f);
    WiderGathersMore(cols, stop, Total(cols), f);
    AllGathered(cols, f);
    SortedSound(all);
    SortedDistinct(all);
  }

  lemma SortedDistinct(hits: seq<Hit>)
    requires DistinctIds(hits)
    ensures DistinctIds(Sorted(hits))
  {
    SortedSound(hits);
    DistinctCount(hits);
    assert Ids(Sorted(hits)) == Ids(hits);
    CountDistinct(Sorted(hits));
  }

  lemma {:induction false} IdsAtMost(hits: seq<Hit>)
    ensures |Ids(hits)| <= |hits|
  {
    if hits != [] {
      var n := |hits| - 1;
      IdsAtMost(hits[..n]);
      assert hits == hits[..n] + [hits[n]];
      IdsAppend(hits[..n], hits[n]);
    }
  }

  lemma {:induction false} CountDistinct(hits: seq<Hit>)
    requires |Ids(hits)| == |hits|
    ensures DistinctIds(hits)
  {
    if hits != [] {
      var n := |hits| - 1;
      assert hits == hits[..n] + [hits[n]];
      IdsAppend(hits[..n], hits[n]);
      IdsAtMost(hits[..n]);
      CountDistinct(hits[..n]);
      forall i | 0 <= i < n
        ensures hits[i].id != hits[n].id
      {
        assert hits[..n][i] in hits[..n];
      }
    }
  }

  /** A visible hit inside the window of its own collection is never crowded out by farther results:
  a kept hit g with its id is returned, or the result is full of hits at least as near as g. A record
  missed by the union therefore lies beyond the fetch window of its own collection. */
  lemma MissedIsBeyondWindow(cols: seq<Ranked>, n: nat, f: Filter, stop: nat, c: Ranked, h: Hit) returns (g: Hit)
    requires StopsAt(cols, n, f, stop) && c in cols && h in Window(c, stop) && Visible(h, f)
    ensures g in Gathered(cols, stop, f) && g.id == h.id
    ensures Served(Result(cols, n, f, stop), n, g)
  {
    var all := Gathered(cols, stop, f);
    GatheredSound(cols, stop, f);
    SortedSound(all);
    var s, r := Sorted(all), Result(cols, n, f, stop);
    g :| g in all && g.id == h.id;
    PrefixServes(s, Min(n, |s|), g);
  }

  /** Of an ascending sequence, what a prefix leaves out is no nearer than the prefix. */
  lemma PrefixServes(s: seq<Hit>, k: nat, g: Hit)
    requires Nearest(s) && k <= |s| && g in s
    ensures g.id in Ids(s[..k]) || (k < |s| && forall i :: 0 <= i < k ==> s[..k][i].distance <= g.distance)
  {
    var i :| 0 <= i < |s| && s[i] == g;
    if i < k {
      assert s[..k][i] == g;
    }
  }

  /** A hit is returned, or the result is full of hits at least as near. */
  predicate Served(r: seq<Hit>, n: nat, h: Hit) {
    h.id in Ids(r) || (|r| == n && forall i :: 0 <= i < |r| ==> r[i].distance <= h.distance)
  }

  // ----- Exactness

  lemma {:induction false} FilteredPrefix(hits: seq<Hit>, k: nat, f: Filter)
    requires k <= |hits| && DistinctIds(hits)
    ensures KeepAll([], hits[..k], f) <= KeepAll([], hits, f)
    decreases |hits|
  {
    if k < |hits| {
      var n := |hits| - 1;
      FilteredPrefix(hits[..n], k, f);
      assert hits[..n][..k] == hits[..k];
    } else {
      assert hits[..k] == hits;
    }
  }

  lemma {:induction false} FilteredNearest(hits: seq<Hit>, f: Filter)
    requires Nearest(hits)
    ensures Nearest(KeepAll([], hits, f))
    ensures forall h :: h in KeepAll([], hits, f) ==> h in hits
  {
    if hits != [] {
      var n := |hits| - 1;
      FilteredNearest(hits[..n], f);
      assert hits == hits[..n] + [hits[n]];
      forall h | h in KeepAll([], hits[..n], f)
        ensures h.distance <= hits[n].distance
      {
        var i :| 0 <= i < n && hits[i] == h;
      }
    }
  }

  /** Over one collection the result is exact: the first n of all its visible records, nearest first. */
  lemma ExactForOneCollection(c: Ranked, n: nat, f: Filter, stop: nat)
    requires Proper(c) && c.up && StopsAt([c], n, f, stop)
    ensures var all := KeepAll([], c.hits, f); Result([c], n, f, stop) == all[..Min(n, |all|)]
  {
    var w, all := Window(c, stop), KeepAll([], c.hits, f);
    var k := if |c.hits| > stop then stop else |c.hits|;
    assert w == c.hits[..k];
    assert [c][..0] == [];
    assert Gathered([c], stop, f) == KeepAll([], w, f);
    FilteredNearest(w, f);
    SortedFixed(KeepAll([], w, f));
    FilteredPrefix(c.hits, k, f);
    assert Total([c]) == c.count;
  }

  /** The same id stands for the same record in every collection. */
  ghost predicate OneRecordPerId(cols: seq<Ranked>) {
    forall h, g :: Known(cols, h) && Known(cols, g) && h.id == g.id ==> h == g
  }

  ghost predicate Known(cols: seq<Ranked>, h: Hit) {
    exists c :: c in cols && h in c.hits
  }

  /** No visible record of a readable collection is left out in favour of a farther one. */
  ghost predicate IsTop(r: seq<Hit>, cols: seq<Ranked>, n: nat, f: Filter) {
    forall c, h :: c in cols && c.up && h in c.hits && Visible(h, f) ==> Served(r, n, h)
  }

  /** The records of a collection that the last round did not look at. */
  function Beyond(c: Ranked, fetch: nat): seq<Hit> {
    if |c.hits| > fetch then c.hits[fetch..] else []
  }

  lemma WindowServed(cols: seq<Ranked>, n: nat, f: Filter, stop: nat, c: Ranked, h: Hit)
    requires StopsAt(cols, n, f, stop) && OneRecordPerId(cols)
    requires c in cols && h in Window(c, stop) && Visible(h, f)
    ensures Served(Result(cols, n, f, stop), n, h)
  {
    var g := MissedIsBeyondWindow(cols, n, f, stop, c, h);
    GatheredSound(cols, stop, f);
    var d :| d in cols && g in Window(d, stop);
    WindowWithin(d, stop, g);
    WindowWithin(c, stop, h);
    assert Known(cols, g) && Known(cols, h);
  }

  lemma WindowWithin(c: Ranked, fetch: nat, h: Hit)
    requires h in Window(c, fetch)
    ensures h in c.hits
  {
  }

  /** The visible records that the last round looked at. */
  function InWindows(cols: seq<Ranked>, fetch: nat, f: Filter): set<Hit> {
    set c, h | c in cols && h in Window(c, fetch) && Visible(h, f) :: h
  }

  /** The ids of those no farther than d. */
  function Within(cols: seq<Ranked>, fetch: nat, f: Filter, d: real): set<Id> {
    set h | h in InWindows(cols, fetch, f) && h.distance <= d :: h.id
  }

  /** Exactly the visible records in the windows are gathered. */
  lemma GatheredAreInWindows(cols: seq<Ranked>, fetch: nat, f: Filter)
    requires OneRecordPerId(cols)
    ensures forall h :: h in Gathered(cols, fetch, f) <==> h in InWindows(cols, fetch, f)
  {
    GatheredSound(cols, fetch, f);
    forall h | h in InWindows(cols, fetch, f)
      ensures h in Gathered(cols, fetch, f)
    {
      var c :| c in cols && h in Window(c, fetch) && Visible(h, f);
      var g :| g in Gathered(cols, fetch, f) && g.id == h.id;
      var d :| d in cols && g in Window(d, fetch);
      WindowWithin(c, fetch, h);
      WindowWithin(d, fetch, g);
      assert Known(cols, g) && Known(cols, h);
    }
  }

  /** Of an ascending sequence the first k are no farther than d if at least k ids are. */
  lemma FirstAreNear(s: seq<Hit>, near: set<Id>, k: nat, d: real)
    requires Nearest(s) && k <= |s| && k <= |near|
    requires forall id :: id in near ==> exists h :: h in s && h.id == id && h.distance <= d
    ensures forall i :: 0 <= i < k ==> s[i].distance <= d
  {
    forall i | 0 <= i < k
      ensures s[i].distance <= d
    {
      if s[i].distance > d {
        forall id | id in near
          ensures id in Ids(s[..i])
        {
          var h :| h in s && h.id == id && h.distance <= d;
          var j :| 0 <= j < |s| && s[j] == h;
          assert j < i && s[..i][j] == h;
        }
        Indexes.SubsetSize(near, Ids(s[..i]));
        IdsAtMost(s[..i]);
      }
    }
  }

  lemma NearAreGathered(cols: seq<Ranked>, fetch: nat, f: Filter, d: real)
    requires OneRecordPerId(cols)
    ensures forall id :: id in Within(cols, fetch, f, d) ==>
      exists h :: h in Gathered(cols, fetch, f) && h.id == id && h.distance <= d
  {
    GatheredAreInWindows(cols, fetch, f);
    forall id | id in Within(cols, fetch, f, d)
      ensures exists h :: h in Gathered(cols, fetch, f) && h.id == id && h.distance <= d
    {
      var h :| h in InWindows(cols, fetch, f) && h.distance <= d && h.id == id;
    }
  }

  lemma EnoughServes(cols: seq<Ranked>, n: nat, f: Filter, stop: nat, h: Hit)
    requires OneRecordPerId(cols) && |Within(cols, stop, f, h.distance)| >= n
    ensures Served(Result(cols, n, f, stop), n, h)
  {
    var all, near := Gathered(cols, stop, f), Within(cols, stop, f, h.distance);
    NearAreGathered(cols, stop, f, h.distance);
    SortedSound(all);
    IdsAtMost(all);
    assert near <= Ids(all);
    Indexes.SubsetSize(near, Ids(all));
    FirstAreNear(Sorted(all), near, n, h.distance);
  }

  lemma ServedIsEnough(cols: seq<Ranked>, n: nat, f: Filter, stop: nat, h: Hit)
    requires OneRecordPerId(cols) && h.id !in Ids(Result(cols, n, f, stop)) && Served(Result(cols, n, f, stop), n, h)
    ensures |Within(cols, stop, f, h.distance)| >= n
  {
    var all, r, near := Gathered(cols, stop, f), Result(cols, n, f, stop), Within(cols, stop, f, h.distance);
    GatheredAreInWindows(cols, stop, f);
    GatheredSound(cols, stop, f);
    SortedSound(all);
    SortedDistinct(all);
    forall id | id in Ids(r)
      ensures id in near
    {
      var g :| g in r && g.id == id;
      assert g in Sorted(all) && g in all;
    }
    Indexes.SubsetSize(Ids(r), near);
    DistinctCount(r);
  }

  /** A hit outside all windows is served exactly if n records inside are no farther. */
  lemma OutsideServedIff(cols: seq<Ranked>, n: nat, f: Filter, stop: nat, h: Hit)
    requires OneRecordPerId(cols) && Known(cols, h) && h !in InWindows(cols, stop, f)
    ensures Served(Result(cols, n, f, stop), n, h) <==> |Within(cols, stop, f, h.distance)| >= n
  {
    OutsideNotReturned(cols, n, f, stop, h);
    if |Within(cols, stop, f, h.distance)| >= n {
      EnoughServes(cols, n, f, stop, h);
    } else if Served(Result(cols, n, f, stop), n, h) {
      ServedIsEnough(cols, n, f, stop, h);
    }
  }

  lemma ReturnedAreKnown(cols: seq<Ranked>, n: nat, f: Filter, stop: nat)
    requires OneRecordPerId(cols)
    ensures forall g :: g in Result(cols, n, f, stop) ==> g in InWindows(cols, stop, f) && Known(cols, g)
  {
    SortedSound(Gathered(cols, stop, f));
    GatheredAreInWindows(cols, stop, f);
    forall g | g in InWindows(cols, stop, f)
      ensures Known(cols, g)
    {
      var c :| c in cols && g in Window(c, stop) && Visible(g, f);
      WindowWithin(c, stop, g);
    }
  }

  lemma OutsideNotReturned(cols: seq<Ranked>, n: nat, f: Filter, stop: nat, h: Hit)
    requires OneRecordPerId(cols) && Known(cols, h) && h !in InWindows(cols, stop, f)
    ensures h.id !in Ids(Result(cols, n, f, stop))
  {
    ReturnedAreKnown(cols, n, f, stop);
  }

  /** What the last round did not look at is outnumbered by what it did. */
  ghost predicate BeyondOutnumbered(cols: seq<Ranked>, n: nat, f: Filter, stop: nat) {
    forall c, h :: c in cols && c.up && h in Beyond(c, stop) && Visible(h, f) && h !in InWindows(cols, stop, f) ==>
      |Within(cols, stop, f, h.distance)| >= n
  }

  lemma HitInOrBeyond(c: Ranked, stop: nat, h: Hit)
    requires c.up && h in c.hits
    ensures h in Window(c, stop) || h in Beyond(c, stop)
  {
    var i :| 0 <= i < |c.hits| && c.hits[i] == h;
    if |c.hits| > stop {
      if i < stop {
        assert c.hits[..stop][i] == h;
      } else {
        assert c.hits[stop..][i - stop] == h;
      }
    }
  }

  /** Over several collections the result is a true top n if and only if every visible record beyond its
  collection's window, unless another window has it, is no nearer than n visible records in the windows. */
  lemma {:induction false} TopIff(cols: seq<Ranked>, n: nat, f: Filter, stop: nat)
    requires StopsAt(cols, n, f, stop) && OneRecordPerId(cols)
    ensures IsTop(Result(cols, n, f, stop), cols, n, f) <==> BeyondOutnumbered(cols, n, f, stop)
  {
    var r := Result(cols, n, f, stop);
    if IsTop(r, cols, n, f) {
      forall c, h | c in cols && c.up && h in Beyond(c, stop) && Visible(h, f) && h !in InWindows(cols, stop, f)
        ensures |Within(cols, stop, f, h.distance)| >= n
      {
        assert h in c.hits && Known(cols, h);
        OutsideServedIff(cols, n, f, stop, h);
      }
    }
    if BeyondOutnumbered(cols, n, f, stop) {
      forall c, h | c in cols && c.up && h in c.hits && Visible(h, f)
        ensures Served(r, n, h)
      {
        TopServes(cols, n, f, stop, c, h);
      }
    }
  }

  lemma TopServes(cols: seq<Ranked>, n: nat, f: Filter, stop: nat, c: Ranked, h: Hit)
    requires StopsAt(cols, n, f, stop) && OneRecordPerId(cols) && BeyondOutnumbered(cols, n, f, stop)
    requires c in cols && c.up && h in c.hits && Visible(h, f)
    ensures Served(Result(cols, n, f, stop), n, h)
  {
    HitInOrBeyond(c, stop, h);
    assert Known(cols, h);
    if h in InWindows(cols, stop, f) {
      var d :| d in cols && h in Window(d, stop) && Visible(h, f);
      WindowServed(cols, n, f, stop, d, h);
    } else {
      assert h in Beyond(c, stop);
      OutsideServedIff(cols, n, f, stop, h);
    }
  }

  /** The window of a collection leaves nothing out, or holds n visible records itself. */
  predicate Suffices(c: Ranked, n: nat, f: Filter, stop: nat) {
    c.up ==> |c.hits| <= stop || |set h | h in Window(c, stop) && Visible(h, f) :: h.id| >= n
  }

  /** A caller can see that from the windows alone: it is enough that each of them is exhausted or full. */
  lemma {:induction false} TopWhenWindowsSuffice(cols: seq<Ranked>, n: nat, f: Filter, stop: nat)
    requires StopsAt(cols, n, f, stop) && OneRecordPerId(cols)
    requires forall c :: c in cols ==> Proper(c) && Suffices(c, n, f, stop)
    ensures IsTop(Result(cols, n, f, stop), cols, n, f)
  {
    forall c, h | c in cols && c.up && h in Beyond(c, stop)
      ensures |Within(cols, stop, f, h.distance)| >= n
    {
      var own := set g | g in Window(c, stop) && Visible(g, f) :: g.id;
      assert Suffices(c, n, f, stop) && |own| >= n;
      forall g | g in Window(c, stop)
        ensures g.distance <= h.distance
      {
        BeyondFarther(c, stop, g, h);
      }
      forall id | id in own
        ensures id in Within(cols, stop, f, h.distance)
      {
        var g :| g in Window(c, stop) && Visible(g, f) && g.id == id;
        assert g in InWindows(cols, stop, f);
      }
      Indexes.SubsetSize(own, Within(cols, stop, f, h.distance));
    }
    TopIff(cols, n, f, stop);
  }

  lemma BeyondFarther(c: Ranked, stop: nat, g: Hit, h: Hit)
    requires Proper(c) && c.up && g in Window(c, stop) && h in Beyond(c, stop)
    ensures g.distance <= h.distance
  {
    var i :| 0 <= i < |Window(c, stop)| && Window(c, stop)[i] == g;
    var j :| 0 <= j < |Beyond(c, stop)| && Beyond(c, stop)[j] == h;
    assert c.hits[i] == g && c.hits[stop + j] == h;
  }

  lemma {:induction false} TotalBounds(cols: seq<Ranked>, c: Ranked)
    requires c in cols
    ensures c.count <= Total(cols)
  {
    var n := |cols| - 1;
    assert cols == cols[..n] + [cols[n]];
    if c in cols[..n] {
      TotalBounds(cols[..n], c);
    }
  }

  /** With everything fetched the search returns a true top n. */
  lemma TopWhenExhausted(cols: seq<Ranked>, n: nat, f: Filter)
    requires OneRecordPerId(cols) && forall c :: c in cols ==> Proper(c)
    ensures StopsAt(cols, n, f, Total(cols)) && IsTop(Result(cols, n, f, Total(cols)), cols, n, f)
  {
    forall c | c in cols
      ensures Suffices(c, n, f, Total(cols))
    {
      TotalBounds(cols, c);
    }
    TopWhenWindowsSuffice(cols, n, f, Total(cols));
  }

  // ----- Two collections: the search may stop before it has the true top n

  function HitOf(source: Source, gen: nat, index: nat, distance: real): Hit {
    Hit(ChunkId(source, gen, index), source, gen, "", distance)
  }

  /** The delta side: two current records of source a. */
  function DeltaSide(a: Source): Ranked {
    Ranked(2, [HitOf(a, 1, 0, 1.0), HitOf(a, 1, 1, 1.0)], true)
  }

  /** The base side: two orphans of source b are nearer than its current record. */
  function BaseSide(b: Source): Ranked {
    Ranked(3, [HitOf(b, 1, 0, 0.0), HitOf(b, 1, 1, 0.0), HitOf(b, 2, 0, 0.5)], true)
  }

  function CurrentRows(a: Source, b: Source): Filter {
    Filter(map[a := 1, b := 2], {})
  }

  lemma SidesProper(a: Source, b: Source)
    ensures Proper(DeltaSide(a)) && Proper(BaseSide(b))
  {
  }

  lemma SidesAgree(a: Source, b: Source)
    requires a != b
    ensures OneRecordPerId([DeltaSide(a), BaseSide(b)])
  {
    var cols, all := [DeltaSide(a), BaseSide(b)], DeltaSide(a).hits + BaseSide(b).hits;
    assert DistinctIds(all) by {
      SidesProper(a, b);
    }
    forall h, g | Known(cols, h) && Known(cols, g) && h.id == g.id
      ensures h == g
    {
      KnownInSides(a, b, h);
      KnownInSides(a, b, g);
      var i :| 0 <= i < |all| && all[i] == h;
      var j :| 0 <= j < |all| && all[j] == g;
    }
  }

  lemma KnownInSides(a: Source, b: Source, h: Hit)
    requires Known([DeltaSide(a), BaseSide(b)], h)
    ensures h in DeltaSide(a).hits + BaseSide(b).hits
  {
    var c :| c in [DeltaSide(a), BaseSide(b)] && h in c.hits;
  }

  lemma SidesGathered(a: Source, b: Source)
    requires a != b
    ensures Gathered([DeltaSide(a), BaseSide(b)], 2, CurrentRows(a, b)) == DeltaSide(a).hits
  {
    var f := CurrentRows(a, b);
    var x, y := HitOf(a, 1, 0, 1.0), HitOf(a, 1, 1, 1.0);
    var u, v := HitOf(b, 1, 0, 0.0), HitOf(b, 1, 1, 0.0);
    GatheredOfTwo(DeltaSide(a), BaseSide(b), 2, f);
    assert Window(DeltaSide(a), 2) == [x, y] && Window(BaseSide(b), 2) == [u, v];
    KeepTwo([], x, y, f);
    KeepTwo([x, y], u, v, f);
    assert a in f.gens && f.gens[a] == 1 && f.gens[b] == 2;
    assert Visible(x, f) && Visible(y, f) && !Visible(u, f) && !Visible(v, f);
    assert Keep([], x, f) == [x];
    assert Keep([x], y, f) == [x, y];
  }

  /** Asked for one result, the first round already finds one in the delta, so the nearer current
  record of the base, behind two orphans of an older generation, is missed. */
  lemma {:induction false} TwoCollectionsInexact(a: Source, b: Source)
    requires a != b
    ensures var cols, f := [DeltaSide(a), BaseSide(b)], CurrentRows(a, b);
      && (forall c :: c in cols ==> Proper(c)) && OneRecordPerId(cols) && StopsAt(cols, 1, f, 2)
      && !IsTop(Result(cols, 1, f, 2), cols, 1, f)
  {
    var delta, base := DeltaSide(a), BaseSide(b);
    var cols, f := [delta, base], CurrentRows(a, b);
    SidesProper(a, b);
    SidesAgree(a, b);
    SidesGathered(a, b);
    TotalOfTwo(delta, base);
    SortedFixed(delta.hits);
    var near, r := HitOf(b, 2, 0, 0.5), Result(cols, 1, f, 2);
    assert r == [HitOf(a, 1, 0, 1.0)];
    assert !Served(r, 1, near) by {
      assert near.id !in Ids(r) && r[0].distance > near.distance;
    }
    assert base in cols && base.hits[2] == near && Visible(near, f);
  }

  lemma TotalOfTwo(a: Ranked, b: Ranked)
    ensures Total([a, b]) == a.count + b.count
  {
    var one, two := [a], [a, b];
    assert one[..|one| - 1] == [] && two[..|two| - 1] == one;
    assert Total(two) == Total(one) + b.count;
  }

  lemma GatheredOfTwo(a: Ranked, b: Ranked, fetch: nat, f: Filter)
    ensures Gathered([a, b], fetch, f) == KeepAll(KeepAll([], Window(a, fetch), f), Window(b, fetch), f)
  {
    var one, two := [a], [a, b];
    assert one[..|one| - 1] == [] && two[..|two| - 1] == one;
    assert Gathered(two, fetch, f) == KeepAll(Gathered(one, fetch, f), Window(b, fetch), f);
  }

  lemma KeepTwo(acc: seq<Hit>, g: Hit, h: Hit, f: Filter)
    ensures KeepAll(acc, [g, h], f) == Keep(Keep(acc, g, f), h, f)
  {
    var one, two := [g], [g, h];
    assert one[..|one| - 1] == [] && two[..|two| - 1] == one;
    assert KeepAll(acc, two, f) == Keep(KeepAll(acc, one, f), h, f);
  }
}
