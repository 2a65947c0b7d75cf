/** The index as readers see it: for each kind a writable delta over a read-only base, filtered by
current generation and by tombstones; an isolated rebuild beside it; and the steps that change it. */
module Library {
  import opened Storage
  import opened Replacement

  /** One kind's collections. `delta.rows` are the registry rows of the kind's live token. */
  datatype Side = Side(delta: Shelf, base: Collection)

  datatype Library = Library(text: Side, image: Side, tombstones: set<Source>)

  /** While a rebuild runs, writes go to its own shelves. */
  datatype Rebuild = Idle | Active(text: Shelf, image: Shelf)

  datatype State = State(lib: Library, rebuild: Rebuild)

  function KindOf(w: Writer): Kind {
    if w.Chunks? then Text else Image
  }

  function SideOf(l: Library, k: Kind): Side {
    if k.Text? then l.text else l.image
  }

  function WithSide(l: Library, k: Kind, side: Side): Library {
    if k.Text? then l.(text := side) else l.(image := side)
  }

  function ShelfOf(r: Rebuild, k: Kind): Shelf
    requires r.Active?
  {
    if k.Text? then r.text else r.image
  }

  function WithShelf(r: Rebuild, k: Kind, sh: Shelf): Rebuild
    requires r.Active?
  {
    if k.Text? then r.(text := sh) else r.(image := sh)
  }

  // ----- Reads

  /** The generation filter of search and listing; an entirely empty registry means no filter. */
  predicate Current(rows: map<Source, nat>, s: Source, g: nat) {
    rows.Keys == {} || g == Row(rows, s)
  }

  /** The records of s that search and listing take from a collection. */
  function Listed(col: Collection, rows: map<Source, nat>, s: Source): Collection {
    map id | id in col && col[id].source == s && Current(rows, s, col[id].gen) :: col[id]
  }

  /** Search and listing return exactly the records `want` for s, each from one collection only. */
  predicate Shows(l: Library, k: Kind, s: Source, want: Collection) {
    var side := SideOf(l, k);
    var d, b := Listed(side.delta.col, side.delta.rows, s), Listed(side.base, side.delta.rows, s);
    if s in l.tombstones then want.Keys == {}
    else d.Keys !! b.Keys && d + b == want
  }

  // ----- Steps

  datatype DeleteFaults = DeleteFaults(textDeleted: bool, textCleared: bool, imageDeleted: bool, imageCleared: bool,
                                       tombstoned: bool)

  /** How far a commit gets: nothing changed; only the delta pointer moved to a new, empty delta; switched. */
  datatype CommitOutcome = Refused | DeltaMovedOnly | Switched(textRenamed: bool, imageRenamed: bool)

  /** A rebuild begins with empty collections and with the rows that clearing its namespace left. */
  datatype Step =
    | Write(job: Job, f: Faults, untombed: bool)
    | Delete(source: Source, d: DeleteFaults)
    | Begin(textLeft: map<Source, nat>, imageLeft: map<Source, nat>)
    | Commit(outcome: CommitOutcome)
    | Abort

  const EMPTY_SHELF := Shelf(map[], map[])
  const BEGIN := Begin(map[], map[])

  /** Deleting all records of s and then its registry row; the row is kept when the delete raises. */
  function Erased(sh: Shelf, s: Source, deleted: bool, cleared: bool): Shelf {
    if !deleted then sh else Shelf(Others(sh.col, s), if cleared then sh.rows - {s} else sh.rows)
  }

  /** The image writers clear the tombstone before anything else; the text writer never does. */
  function Untombed(l: Library, job: Job, untombed: bool): Library {
    if KindOf(job.writer).Image? && !Empty(job) && untombed then l.(tombstones := l.tombstones - {job.source}) else l
  }

  function Tombed(l: Library, s: Source, tombstoned: bool): Library {
    if tombstoned then l.(tombstones := l.tombstones + {s}) else l
  }

  /** The shelf a write goes to. */
  function Target(st: State, k: Kind): Shelf {
    if st.rebuild.Active? then ShelfOf(st.rebuild, k) else SideOf(st.lib, k).delta
  }

  function WithTarget(st: State, k: Kind, sh: Shelf): State {
    if st.rebuild.Active? then st.(rebuild := WithShelf(st.rebuild, k, sh))
    else st.(lib := WithSide(st.lib, k, SideOf(st.lib, k).(delta := sh)))
  }

  /** A write whose registry reads succeed. */
  function WriteStep(st: State, job: Job, f: Faults, untombed: bool): State {
    var k, l := KindOf(job.writer), Untombed(st.lib, job, untombed);
    if st.rebuild.Active? then
      State(l, WithShelf(st.rebuild, k, Replace(ShelfOf(st.rebuild, k), job, f).shelf))
    else
      State(WithSide(l, k, SideOf(l, k).(delta := Replace(SideOf(l, k).delta, job, f).shelf)), Idle)
  }

  function DeleteStep(st: State, s: Source, d: DeleteFaults): State {
    var l := Tombed(st.lib, s, d.tombstoned);
    if st.rebuild.Active? then
      State(l, Active(Erased(st.rebuild.text, s, d.textDeleted, d.textCleared),
                      Erased(st.rebuild.image, s, d.imageDeleted, d.imageCleared)))
    else
      State(l.(text := l.text.(delta := Erased(l.text.delta, s, d.textDeleted, d.textCleared)),
               image := l.image.(delta := Erased(l.image.delta, s, d.imageDeleted, d.imageCleared))), Idle)
  }

  /** After a switch: the rebuilt collection is the base, the delta is new and empty, and the
  rebuild's registry rows, when renamed, override the live ones. */
  function SwitchedSide(side: Side, rebuilt: Shelf, renamed: bool): Side {
    Side(Shelf(map[], if renamed then side.delta.rows + rebuilt.rows else side.delta.rows), rebuilt.col)
  }

  function DeltaMoved(side: Side): Side {
    side.(delta := side.delta.(col := map[]))
  }

  function CommitStep(st: State, outcome: CommitOutcome): State {
    if st.rebuild.Idle? then st else
    match outcome
    case Refused => st
    case DeltaMovedOnly => st.(lib := st.lib.(text := DeltaMoved(st.lib.text), image := DeltaMoved(st.lib.image)))
    case Switched(t, i) =>
      State(st.lib.(text := SwitchedSide(st.lib.text, st.rebuild.text, t),
                    image := SwitchedSide(st.lib.image, st.rebuild.image, i)), Idle)
  }

  function Apply(st: State, step: Step): State {
    match step
    case Write(job, f, untombed) => WriteStep(st, job, f, untombed)
    case Delete(s, d) => DeleteStep(st, s, d)
    case Begin(t, i) => if st.rebuild.Active? then st else st.(rebuild := Active(Shelf(map[], t), Shelf(map[], i)))
    case Commit(outcome) => CommitStep(st, outcome)
    case Abort => st.(rebuild := Idle)
  }

  function Run(st: State, steps: seq<Step>): State
    decreases |steps|
  {
    if steps == [] then st else Run(Apply(st, steps[0]), steps[1..])
  }
}
