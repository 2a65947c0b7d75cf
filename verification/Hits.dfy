/** What the search returns, in terms of the plain index: the query's filter is the listing's. */
module Hits {
  import opened Storage
  import opened Replacement
  import opened Library
  import opened Refinement
  import opened Views
  import opened Search

  /** The hit is the record under its id. */
  predicate IsOf(h: Hit, col: Collection) {
    h.id in col && h.source == col[h.id].source && h.gen == col[h.id].gen && h.document == col[h.id].document
  }

  /** What a query of a collection, asked for everything, ranks: its records, each once, nearest first. */
  ghost predicate Ranks(c: Ranked, col: Collection) {
    && Proper(c)
    && (forall h :: h in c.hits ==> IsOf(h, col))
    && (forall id :: id in col ==> exists h :: h in c.hits && h.id == id)
  }

  function FilterOf(l: Library, k: Kind): Filter {
    Filter(SideOf(l, k).delta.rows, l.tombstones)
  }

  /** The search keeps a hit exactly if listing takes its record. */
  lemma VisibleIffListed(l: Library, k: Kind, col: Collection, h: Hit)
    requires IsOf(h, col)
    ensures Visible(h, FilterOf(l, k)) <==> h.source !in l.tombstones && h.id in Listed(col, SideOf(l, k).delta.rows, h.source)
  {
  }

  /** A visible hit of either side is a record of what the plain index holds of its source. */
  lemma VisibleIsContent(st: State, p: Plain, k: Kind, col: Collection, h: Hit)
    requires Refines(st, p) && Filtered(st.lib, k, h.source) && IsOf(h, col) && Visible(h, FilterOf(st.lib, k))
    requires col == SideOf(st.lib, k).delta.col || col == SideOf(st.lib, k).base
    ensures h.source !in st.lib.tombstones
    ensures Key(k, h.source) in p.live.jobs ==> Aligned(p.live.jobs[Key(k, h.source)])
    ensures IsOf(h, Content(p.live, k, h.source, Row(SideOf(st.lib, k).delta.rows, h.source)))
  {
    VisibleIffListed(st.lib, k, col, h);
    ReadsAgree(st, p, k, h.source);
    var side := SideOf(st.lib, k);
    var d, b := Listed(side.delta.col, side.delta.rows, h.source), Listed(side.base, side.delta.rows, h.source);
    assert h.id in d + b;
    assert h.id in Listed(col, side.delta.rows, h.source) && (d + b)[h.id] == col[h.id];
  }

  lemma ResultFrom(cols: seq<Ranked>, n: nat, f: Filter, stop: nat, h: Hit) returns (c: Ranked)
    requires h in Result(cols, n, f, stop)
    ensures c in cols && h in c.hits && Visible(h, f)
  {
    SortedSound(Gathered(cols, stop, f));
    GatheredSound(cols, stop, f);
    assert h in Sorted(Gathered(cols, stop, f)) && h in Gathered(cols, stop, f);
    c :| c in cols && h in Window(c, stop);
    WindowWithin(c, stop, h);
  }

  /** Whenever the index refines the plain one, every hit that a search over delta and base returns is a
  record of the last committed write, or a legacy record, of its source, which no tombstone hides. */
  lemma {:induction false} HitsAreCommitted(st: State, p: Plain, k: Kind, delta: Ranked, base: Ranked, n: nat, stop: nat, h: Hit)
    requires Refines(st, p) && Filtered(st.lib, k, h.source)
    requires Ranks(delta, SideOf(st.lib, k).delta.col) && Ranks(base, SideOf(st.lib, k).base)
    requires h in Result([delta, base], n, FilterOf(st.lib, k), stop)
    ensures h.source !in st.lib.tombstones
    ensures Key(k, h.source) in p.live.jobs ==> Aligned(p.live.jobs[Key(k, h.source)])
    ensures IsOf(h, Content(p.live, k, h.source, Row(SideOf(st.lib, k).delta.rows, h.source)))
  {
    var c := ResultFrom([delta, base], n, FilterOf(st.lib, k), stop, h);
    if c == delta {
      VisibleIsContent(st, p, k, SideOf(st.lib, k).delta.col, h);
    } else {
      VisibleIsContent(st, p, k, SideOf(st.lib, k).base, h);
    }
  }

  /** So over every fair run. */
  lemma {:induction false} RunHitsAreCommitted(st: State, p: Plain, steps: seq<Step>, k: Kind, delta: Ranked, base: Ranked, n: nat, stop: nat, h: Hit)
    requires Refines(st, p) && FairRun(st, steps)
    requires var l := Run(st, steps).lib;
      && Filtered(l, k, h.source) && Ranks(delta, SideOf(l, k).delta.col) && Ranks(base, SideOf(l, k).base)
      && h in Result([delta, base], n, FilterOf(l, k), stop)
    ensures var l, x := Run(st, steps).lib, PlainRun(p, st, steps).live;
      && h.source !in l.tombstones && (Key(k, h.source) in x.jobs ==> Aligned(x.jobs[Key(k, h.source)]))
      && IsOf(h, Content(x, k, h.source, Row(SideOf(l, k).delta.rows, h.source)))
  {
    RunRefines(st, p, steps);
    HitsAreCommitted(Run(st, steps), PlainRun(p, st, steps), k, delta, base, n, stop, h);
  }

  /** And every record that the plain index holds of an untombstoned source is visible to the search. */
  lemma {:induction false} ContentIsVisible(st: State, p: Plain, k: Kind, delta: Ranked, base: Ranked, s: Source, id: Id)
    requires Refines(st, p) && Filtered(st.lib, k, s) && s !in st.lib.tombstones && delta.up && base.up
    requires Ranks(delta, SideOf(st.lib, k).delta.col) && Ranks(base, SideOf(st.lib, k).base)
    requires Key(k, s) in p.live.jobs ==> Aligned(p.live.jobs[Key(k, s)])
    requires id in Content(p.live, k, s, Row(SideOf(st.lib, k).delta.rows, s))
    ensures id in VisibleIds([delta, base], FilterOf(st.lib, k))
  {
    ReadsAgree(st, p, k, s);
    var side := SideOf(st.lib, k);
    var d, b := Listed(side.delta.col, side.delta.rows, s), Listed(side.base, side.delta.rows, s);
    assert id in d + b;
    var c, col := if id in d then delta else base, if id in d then side.delta.col else side.base;
    var h :| h in c.hits && h.id == id;
    VisibleIffListed(st.lib, k, col, h);
    assert c in [delta, base];
  }
}
