/** Carrying the memory and knowledge-card vectors of the routed delta and base over to the new delta. */
module CarryOver {
  import opened Options

  /** Card metadata: either without both version keys, or naming a card and a version, which may not be a number. */
  datatype Meta = Opaque | Versioned(card: string, version: Option<int>)

  datatype Note = Note(vector: seq<real>, document: string, meta: Meta)

  type Notes = map<string, Note>

  datatype Name = Memory | Cards

  datatype Side = DeltaSide | BaseSide

  /** The two collections of one directory; either may be missing. */
  datatype Client = Client(memory: Option<Notes>, cards: Option<Notes>)

  type Ledger = (string, int) -> bool

  datatype Faults = Faults(
    unreadable: set<(Name, Side)>,  // reads that raise
    misaligned: set<(Name, Side)>,  // reads whose vectors do not match their ids
    ledgerUp: bool,
    raises: set<Name>,              // writes that raise
    lost: set<string>               // ids a write silently does not store
  )

  datatype Result = Carried(carried: seq<Name>, target: Client) | Failed(target: Client)

  function CollectionOf(c: Client, name: Name): Option<Notes> {
    if name.Memory? then c.memory else c.cards
  }

  function With(c: Client, name: Name, notes: Notes): Client {
    if name.Memory? then c.(memory := Some(notes)) else c.(cards := Some(notes))
  }

  function NotesOf(c: Option<Client>, name: Name): Notes {
    if c.Some? && CollectionOf(c.value, name).Some? then CollectionOf(c.value, name).value else map[]
  }

  predicate Present(c: Option<Client>, name: Name) {
    c.Some? && CollectionOf(c.value, name).Some?
  }

  /** Base overridden by delta, by id. */
  function Merged(delta: Option<Client>, base: Option<Client>, name: Name): Notes {
    NotesOf(base, name) + NotesOf(delta, name)
  }

  /** Cards without version keys are kept; a versioned card only if the ledger still preserves it. */
  predicate Preserved(n: Note, ledger: Ledger) {
    match n.meta
    case Opaque => true
    case Versioned(card, version) => version.Some? && ledger(card, version.value)
  }

  function Kept(name: Name, notes: Notes, ledger: Ledger): Notes {
    if name.Memory? then notes else map id | id in notes && Preserved(notes[id], ledger) :: notes[id]
  }

  /** The collection can be read on every side that has it. */
  predicate Readable(delta: Option<Client>, base: Option<Client>, name: Name, f: Faults) {
    && (Present(delta, name) ==> (name, DeltaSide) !in f.unreadable + f.misaligned)
    && (Present(base, name) ==> (name, BaseSide) !in f.unreadable + f.misaligned)
  }

  /** Exactly when carrying one collection succeeds. */
  predicate Succeeds(delta: Option<Client>, base: Option<Client>, name: Name, ledger: Ledger, f: Faults) {
    var merged := Merged(delta, base, name);
    && Readable(delta, base, name, f)
    && (name.Cards? && merged.Keys != {} ==> f.ledgerUp)
    && (Kept(name, merged, ledger).Keys != {} ==> name !in f.raises && Kept(name, merged, ledger).Keys !! f.lost)
  }

  /** The target after one collection was carried: untouched when there is nothing to carry. */
  function After(delta: Option<Client>, base: Option<Client>, name: Name, ledger: Ledger, target: Client): Client {
    var kept := Kept(name, Merged(delta, base, name), ledger);
    if kept.Keys == {} then target else With(target, name, NotesOf(Some(target), name) + kept)
  }

  /** The target after one collection was tried: a failure leaves what a silently incomplete write stored,
  and every other failure nothing. */
  function Tried(delta: Option<Client>, base: Option<Client>, name: Name, ledger: Ledger, f: Faults, target: Client): Client {
    var kept := Kept(name, Merged(delta, base, name), ledger);
    if !Readable(delta, base, name, f) || (name.Cards? && !f.ledgerUp) || kept.Keys == {} || name in f.raises then target
    else With(target, name, NotesOf(Some(target), name) + (kept - f.lost))
  }

  /** The target after both were tried, memory first; the first failure ends it. */
  function TriedBoth(delta: Option<Client>, base: Option<Client>, ledger: Ledger, f: Faults, target: Client): Client {
    var one := Tried(delta, base, Memory, ledger, f, target);
    if Succeeds(delta, base, Memory, ledger, f) then Tried(delta, base, Cards, ledger, f, one) else one
  }

  function IdsIn(list: seq<string>): set<string> {
    set id | id in list
  }

  method Listing(notes: Notes) returns (ids: seq<string>)
    ensures IdsIn(ids) == notes.Keys
  {
    ids := [];
    var rest := notes.Keys;
    while rest != {}
      invariant rest <= notes.Keys && IdsIn(ids) == notes.Keys - rest
      decreases rest
    {
      var id :| id in rest;
      AppendId(ids, id);
      ids := ids + [id];
      rest := rest - {id};
    }
  }

  lemma AppendId(ids: seq<string>, id: string)
    ensures IdsIn(ids + [id]) == IdsIn(ids) + {id}
  {
  }

  /** Adds one side's records, keeping those already merged. */
  method MergeSide(merged: Notes, notes: Notes) returns (all: Notes)
    ensures all == notes + merged
  {
    all := merged;
    var ids := Listing(notes);
    for i := 0 to |ids|
      invariant forall id :: id in all <==> id in merged || id in IdsIn(ids[..i])
      invariant forall id :: id in all ==> if id in merged then all[id] == merged[id] else id in notes && all[id] == notes[id]
    {
      assert ids[i] in IdsIn(ids);
      assert ids[..i + 1] == ids[..i] + [ids[i]];
      AppendId(ids[..i], ids[i]);
      if ids[i] !in all {
        all := all[ids[i] := notes[ids[i]]];
      }
    }
    assert ids[..|ids|] == ids;
  }

  /** Merges the sides in order, delta first; fails on an unreadable or misaligned side. */
  method MergeSides(delta: Option<Client>, base: Option<Client>, name: Name, f: Faults) returns (ok: bool, merged: Notes)
    ensures ok <==> Readable(delta, base, name, f)
    ensures ok ==> merged == Merged(delta, base, name)
  {
    merged := map[];
    var sides := [(delta, DeltaSide), (base, BaseSide)];
    var i := 0;
    while i < 2
      invariant 0 <= i <= 2
      invariant i >= 1 && Present(delta, name) ==> (name, DeltaSide) !in f.unreadable + f.misaligned
      invariant i >= 2 && Present(base, name) ==> (name, BaseSide) !in f.unreadable + f.misaligned
      invariant merged == if i == 0 then map[] else if i == 1 then NotesOf(delta, name) else Merged(delta, base, name)
    {
      var client, side := sides[i].0, sides[i].1;
      if Present(client, name) {
        if (name, side) in f.unreadable || (name, side) in f.misaligned {
          return false, merged;
        }
        merged := MergeSide(merged, NotesOf(client, name));
      }
      i := i + 1;
    }
    return true, merged;
  }

  /** Drops versioned cards the ledger no longer preserves. */
  method FilterCards(notes: Notes, ledger: Ledger) returns (kept: Notes)
    ensures kept == Kept(Cards, notes, ledger)
  {
    kept := map[];
    var ids := Listing(notes);
    for i := 0 to |ids|
      invariant forall id :: id in kept <==> id in IdsIn(ids[..i]) && id in notes && Preserved(notes[id], ledger)
      invariant forall id :: id in kept ==> id in notes && kept[id] == notes[id]
    {
      assert ids[i] in IdsIn(ids);
      assert ids[..i + 1] == ids[..i] + [ids[i]];
      AppendId(ids[..i], ids[i]);
      var active := false;
      match notes[ids[i]].meta {
        case Opaque => active := true;
        case Versioned(card, version) =>
          if version.Some? {
            active := ledger(card, version.value);
          }
      }
      if active {
        kept := kept[ids[i] := notes[ids[i]]];
      }
    }
    assert ids[..|ids|] == ids;
  }

  /** Carries one collection: merge, filter, write, read back. */
  method CarryOne(delta: Option<Client>, base: Option<Client>, name: Name, ledger: Ledger, f: Faults, target: Client)
    returns (ok: bool, written: bool, after: Client)
    ensures ok <==> Succeeds(delta, base, name, ledger, f)
    ensures ok ==> after == After(delta, base, name, ledger, target)
    ensures after == Tried(delta, base, name, ledger, f, target)
    ensures ok ==> (written <==> Kept(name, Merged(delta, base, name), ledger).Keys != {})
    ensures CollectionOf(after, if name.Memory? then Cards else Memory) == CollectionOf(target, if name.Memory? then Cards else Memory)
  {
    after := target;
    var readable, merged := MergeSides(delta, base, name, f);
    if !readable {
      return false, false, target;
    }
    if merged.Keys == {} {
      assert Kept(name, merged, ledger).Keys == {};
      return true, false, target;
    }
    var kept := merged;
    if name.Cards? {
      if !f.ledgerUp {
        return false, false, target;
      }
      kept := FilterCards(merged, ledger);
    }
    if kept.Keys == {} {
      return true, false, target;
    }
    if name in f.raises {
      return false, false, target;
    }
    var stored := kept - f.lost;
    after := With(target, name, NotesOf(Some(target), name) + stored);
    if stored.Keys != kept.Keys {
      return false, false, after;
    }
    assert stored == kept;
    return true, true, after;
  }

  /** Carries memory records, then knowledge cards; the first failure ends it with an error. */
  method CarryOverDeltaCollections(delta: Option<Client>, base: Option<Client>, ledger: Ledger, f: Faults, target: Client)
    returns (r: Result)
    ensures r.Carried? <==> Succeeds(delta, base, Memory, ledger, f) && Succeeds(delta, base, Cards, ledger, f)
    ensures r.Carried? ==>
      r.target == After(delta, base, Cards, ledger, After(delta, base, Memory, ledger, target))
    ensures r.target == TriedBoth(delta, base, ledger, f, target)
  {
    var carried := [];
    var ok, written, after := CarryOne(delta, base, Memory, ledger, f, target);
    if !ok {
      return Failed(after);
    }
    if written {
      carried := carried + [Memory];
    }
    ok, written, after := CarryOne(delta, base, Cards, ledger, f, after);
    if !ok {
      return Failed(after);
    }
    if written {
      carried := carried + [Cards];
    }
    return Carried(carried, after);
  }

  const EMPTY_CLIENT := Client(None, None)

  /** A successful carry into an empty delta loses no memory record, keeps the delta's copy of a
  shared id, and revives no card version the ledger rejects; opaque cards survive. */
  lemma CarriedExactly(delta: Option<Client>, base: Option<Client>, ledger: Ledger)
    ensures var out := Some(After(delta, base, Cards, ledger, After(delta, base, Memory, ledger, EMPTY_CLIENT)));
      && (forall id :: id in NotesOf(out, Memory) <==> id in NotesOf(delta, Memory) || id in NotesOf(base, Memory))
      && (forall id :: id in NotesOf(delta, Memory) ==> NotesOf(out, Memory)[id] == NotesOf(delta, Memory)[id])
      && (forall id :: id in NotesOf(base, Memory) && id !in NotesOf(delta, Memory) ==>
            NotesOf(out, Memory)[id] == NotesOf(base, Memory)[id])
      && (forall id :: id in NotesOf(out, Cards) <==>
            (id in NotesOf(delta, Cards) && Preserved(NotesOf(delta, Cards)[id], ledger)) ||
            (id !in NotesOf(delta, Cards) && id in NotesOf(base, Cards) && Preserved(NotesOf(base, Cards)[id], ledger)))
  {
    var memory := Merged(delta, base, Memory);
    var kept := Kept(Cards, Merged(delta, base, Cards), ledger);
    var one := After(delta, base, Memory, ledger, EMPTY_CLIENT);
    assert NotesOf(Some(one), Memory) == memory;
    assert NotesOf(Some(one), Cards) == map[];
    var two := After(delta, base, Cards, ledger, one);
    assert NotesOf(Some(two), Cards) == kept;
    assert NotesOf(Some(two), Memory) == memory;
  }

  /** What is then stored: the new delta holds of each collection exactly what was kept of the old
  union, so with the new base the union is the rebuild's records overridden by those. */
  lemma SwitchStores(delta: Option<Client>, base: Option<Client>, ledger: Ledger, newBase: Option<Client>, name: Name)
    ensures var out := Some(After(delta, base, Cards, ledger, After(delta, base, Memory, ledger, EMPTY_CLIENT)));
      && NotesOf(out, name) == Kept(name, Merged(delta, base, name), ledger)
      && Merged(out, newBase, name) == NotesOf(newBase, name) + Kept(name, Merged(delta, base, name), ledger)
  {
    var one := After(delta, base, Memory, ledger, EMPTY_CLIENT);
    assert NotesOf(Some(one), Memory) == Merged(delta, base, Memory);
    assert NotesOf(Some(one), Cards) == map[];
    var two := After(delta, base, Cards, ledger, one);
    assert NotesOf(Some(two), Memory) == Merged(delta, base, Memory);
    assert NotesOf(Some(two), Cards) == Kept(Cards, Merged(delta, base, Cards), ledger);
  }

  // ----- What is stored, over every run of writes and rebuilds

  /** The routed directories and, during a rebuild, the one being built, which then takes all writes. A commit
  that fails behind its new delta has routed to what was carried by then; an unusable delta is replaced by an empty one. */
  datatype Vault = Vault(delta: Option<Client>, base: Option<Client>, building: Option<Client>)

  datatype VaultStep =
    | Upsert(name: Name, id: string, note: Note)
    | StartRebuild
    | SwitchOver(ledger: Ledger)
    | FailSwitch(ledger: Ledger, f: Faults)
    | ReplaceDelta
    | DropRebuild

  function Upserted(c: Option<Client>, name: Name, id: string, note: Note): Option<Client> {
    Some(With(if c.Some? then c.value else EMPTY_CLIENT, name, NotesOf(c, name)[id := note]))
  }

  function ApplyVault(v: Vault, step: VaultStep): Vault {
    match step
    case Upsert(name, id, note) =>
      if v.building.Some? then v.(building := Upserted(v.building, name, id, note)) else v.(delta := Upserted(v.delta, name, id, note))
    case StartRebuild => if v.building.Some? then v else v.(building := Some(EMPTY_CLIENT))
    case SwitchOver(ledger) =>
      if v.building.None? then v
      else Vault(Some(After(v.delta, v.base, Cards, ledger, After(v.delta, v.base, Memory, ledger, EMPTY_CLIENT))), v.building, None)
    case FailSwitch(ledger, f) =>
      if v.building.None? then v else v.(delta := Some(TriedBoth(v.delta, v.base, ledger, f, EMPTY_CLIENT)))
    case ReplaceDelta => v.(delta := Some(EMPTY_CLIENT))
    case DropRebuild => v.(building := None)
  }

  function RunVault(v: Vault, steps: seq<VaultStep>): Vault {
    if steps == [] then v else ApplyVault(RunVault(v, steps[..|steps| - 1]), steps[|steps| - 1])
  }

  /** The plain account of one collection: what is stored, and what the running rebuild was given. */
  datatype Book = Book(stored: Notes, pending: Option<Notes>)

  function ApplyBook(b: Book, step: VaultStep, name: Name): Book {
    match step
    case Upsert(n, id, note) =>
      if n != name then b
      else if b.pending.Some? then b.(pending := Some(b.pending.value[id := note])) else b.(stored := b.stored[id := note])
    case StartRebuild => if b.pending.Some? then b else b.(pending := Some(map[]))
    case SwitchOver(ledger) => if b.pending.None? then b else Book(b.pending.value + Kept(name, b.stored, ledger), None)
    case FailSwitch(_, _) => b
    case ReplaceDelta => b
    case DropRebuild => b.(pending := None)
  }

  function RunBook(b: Book, steps: seq<VaultStep>, name: Name): Book {
    if steps == [] then b else ApplyBook(RunBook(b, steps[..|steps| - 1], name), steps[|steps| - 1], name)
  }

  /** The directories hold what the account says, delta over base. */
  predicate Keeps(v: Vault, b: Book, name: Name) {
    && Merged(v.delta, v.base, name) == b.stored
    && (v.building.Some? <==> b.pending.Some?)
    && (b.pending.Some? ==> NotesOf(v.building, name) == b.pending.value)
  }

  /** The carry gets to this record: memory is tried first, and every call on the way succeeds. */
  predicate Reaches(v: Vault, ledger: Ledger, f: Faults, name: Name, id: string)
    requires id in Merged(v.delta, v.base, name)
  {
    && Readable(v.delta, v.base, name, f) && name !in f.raises && id !in f.lost
    && (name.Cards? ==> Succeeds(v.delta, v.base, Memory, ledger, f) && f.ledgerUp && Preserved(Merged(v.delta, v.base, name)[id], ledger))
  }

  /** What the carry of a failing commit leaves in the new delta, record by record. */
  lemma TriedIs(v: Vault, ledger: Ledger, f: Faults, name: Name, id: string)
    ensures var carried, all := NotesOf(Some(TriedBoth(v.delta, v.base, ledger, f, EMPTY_CLIENT)), name), Merged(v.delta, v.base, name);
      && (id in carried <==> id in all && Reaches(v, ledger, f, name, id)) && (id in carried ==> carried[id] == all[id])
  {
    var one := Tried(v.delta, v.base, Memory, ledger, f, EMPTY_CLIENT);
    assert CollectionOf(one, Cards) == None;
    assert NotesOf(Some(Tried(v.delta, v.base, Cards, ledger, f, one)), Memory) == NotesOf(Some(one), Memory);
  }

  /** The step keeps sight of a record that the delta holds: it leaves the delta, or carries the record, or the base holds it too. */
  predicate Spares(v: Vault, step: VaultStep, name: Name, id: string)
    requires id in Merged(v.delta, v.base, name)
  {
    match step
    case FailSwitch(ledger, f) => v.building.None? || Reaches(v, ledger, f, name, id) || id in NotesOf(v.base, name)
    case ReplaceDelta => id in NotesOf(v.base, name)
    case _ => true
  }

  /** ... and holds it alike. */
  predicate SparesAlike(v: Vault, step: VaultStep, name: Name, id: string)
    requires id in Merged(v.delta, v.base, name)
  {
    var alike := id in NotesOf(v.base, name) && NotesOf(v.base, name)[id] == Merged(v.delta, v.base, name)[id];
    match step
    case FailSwitch(ledger, f) => v.building.None? || Reaches(v, ledger, f, name, id) || alike
    case ReplaceDelta => alike
    case _ => true
  }

  predicate SparesAll(v: Vault, step: VaultStep, name: Name) {
    forall id :: id in Merged(v.delta, v.base, name) ==> SparesAlike(v, step, name, id)
  }

  /** The new delta, where it replaces the old one without a switch. */
  lemma ReplacedIs(v: Vault, step: VaultStep, name: Name, id: string)
    requires (step.FailSwitch? && v.building.Some?) || step.ReplaceDelta?
    ensures var e, all := ApplyVault(v, step), Merged(v.delta, v.base, name);
      && (id in Merged(e.delta, e.base, name) <==> id in all && Spares(v, step, name, id))
      && (id in all ==>
            (id in Merged(e.delta, e.base, name) && Merged(e.delta, e.base, name)[id] == all[id] <==> SparesAlike(v, step, name, id)))
  {
    if step.FailSwitch? {
      TriedIs(v, step.ledger, step.f, name, id);
    }
  }

  lemma StepKeepsBookIff(v: Vault, b: Book, step: VaultStep, name: Name)
    requires Keeps(v, b, name)
    ensures Keeps(ApplyVault(v, step), ApplyBook(b, step, name), name) <==> SparesAll(v, step, name)
  {
    match step {
      case Upsert(n, id, note) =>
        if v.building.None? && n == name {
          assert Merged(ApplyVault(v, step).delta, v.base, name) == b.stored[id := note];
        }
      case SwitchOver(ledger) =>
        if v.building.Some? {
          SwitchStores(v.delta, v.base, ledger, v.building, name);
        }
      case FailSwitch(_, _) =>
        if v.building.Some? {
          ReplacedKeepsIff(v, b, step, name);
        }
      case ReplaceDelta => ReplacedKeepsIff(v, b, step, name);
      case _ =>
    }
  }

  lemma ReplacedKeepsIff(v: Vault, b: Book, step: VaultStep, name: Name)
    requires Keeps(v, b, name) && ((step.FailSwitch? && v.building.Some?) || step.ReplaceDelta?)
    ensures Keeps(ApplyVault(v, step), b, name) <==> SparesAll(v, step, name)
  {
    var e, all := ApplyVault(v, step), Merged(v.delta, v.base, name);
    var now := Merged(e.delta, e.base, name);
    forall id
      ensures (id in now ==> id in all) && (id in all ==> (id in now && now[id] == all[id] <==> SparesAlike(v, step, name, id)))
    {
      ReplacedIs(v, step, name, id);
    }
    assert now == all <==> SparesAll(v, step, name);
  }

  ghost predicate KeepsThroughout(v: Vault, b: Book, steps: seq<VaultStep>, name: Name) {
    Keeps(RunVault(v, steps), RunBook(b, steps, name), name) && (steps == [] || KeepsThroughout(v, b, steps[..|steps| - 1], name))
  }

  predicate SparesThroughout(v: Vault, steps: seq<VaultStep>, name: Name) {
    steps == [] ||
    (SparesThroughout(v, steps[..|steps| - 1], name) && SparesAll(RunVault(v, steps[..|steps| - 1]), steps[|steps| - 1], name))
  }

  /** Over every run of writes, rebuilds, aborts, commits that succeed or fail anywhere, and replacements of
  an unusable delta, what is stored of memories and cards is the plain account at every moment, in which
  a switch overrides what was written during the rebuild by what was stored before, if and only if no
  failed commit or replacement meets a record that its carry does not get to and the base does not hold alike. */
  lemma {:induction false} RunKeepsBookIff(v: Vault, b: Book, steps: seq<VaultStep>, name: Name)
    requires Keeps(v, b, name)
    ensures KeepsThroughout(v, b, steps, name) <==> SparesThroughout(v, steps, name)
  {
    if steps != [] {
      var n := |steps| - 1;
      RunKeepsBookIff(v, b, steps[..n], name);
      if KeepsThroughout(v, b, steps[..n], name) {
        KeptNow(v, b, steps[..n], name);
        StepKeepsBookIff(RunVault(v, steps[..n]), RunBook(b, steps[..n], name), steps[n], name);
      }
    }
  }

  lemma KeptNow(v: Vault, b: Book, steps: seq<VaultStep>, name: Name)
    requires KeepsThroughout(v, b, steps, name)
    ensures Keeps(RunVault(v, steps), RunBook(b, steps, name), name)
  {
  }

  predicate Stored(v: Vault, id: string) {
    id in Merged(v.delta, v.base, Memory)
  }

  predicate StoredThroughout(v: Vault, steps: seq<VaultStep>, id: string) {
    Stored(RunVault(v, steps), id) && (steps == [] || StoredThroughout(v, steps[..|steps| - 1], id))
  }

  /** No failed commit and no replacement of the delta loses sight of the record. */
  predicate SparedThroughout(v: Vault, steps: seq<VaultStep>, id: string) {
    steps == [] ||
    (var before := RunVault(v, steps[..|steps| - 1]);
     SparedThroughout(v, steps[..|steps| - 1], id) && (Stored(before, id) ==> Spares(before, steps[|steps| - 1], Memory, id)))
  }

  lemma StepKeepsStoredIff(v: Vault, step: VaultStep, id: string)
    requires Stored(v, id)
    ensures Stored(ApplyVault(v, step), id) <==> Spares(v, step, Memory, id)
  {
    match step {
      case SwitchOver(ledger) =>
        if v.building.Some? {
          SwitchStores(v.delta, v.base, ledger, v.building, Memory);
        }
      case FailSwitch(_, _) =>
        if v.building.Some? {
          ReplacedIs(v, step, Memory, id);
        }
      case ReplaceDelta => ReplacedIs(v, step, Memory, id);
      case _ =>
    }
  }

  /** Over every such run a memory record stays stored if and only if whenever a commit fails behind its new
  delta, or the delta is replaced, the carry gets to it or the base holds a record of its id. Switches
  never lose one. Whatever is stored of memories, reading it by the union raises. */
  lemma {:induction false} MemoryNeverLostIff(v: Vault, steps: seq<VaultStep>, id: string)
    requires Stored(v, id)
    ensures StoredThroughout(v, steps, id) <==> SparedThroughout(v, steps, id)
    ensures var e := RunVault(v, steps); UnionRead(MEMORY_COLLECTION, NotesOf(e.delta, Memory), Some(NotesOf(e.base, Memory))) == None
  {
    assert MEMORY_COLLECTION[0] == 'a' && TEXT_COLLECTION[0] == 'd' && IMAGE_COLLECTION[0] == 'i';
    if steps != [] {
      var n := |steps| - 1;
      MemoryNeverLostIff(v, steps[..n], id);
      if Stored(RunVault(v, steps[..n]), id) {
        StepKeepsStoredIff(RunVault(v, steps[..n]), steps[n], id);
      }
    }
  }

  /** A memory record written while the rebuild ran is stored in the new base; the new delta holds another
  record of its id, by which it is overridden, if and only if the old routing held the id. */
  lemma RebuildWriteOverriddenIff(v: Vault, ledger: Ledger, id: string)
    requires v.building.Some? && id in NotesOf(v.building, Memory)
    ensures var e := ApplyVault(v, SwitchOver(ledger));
      && id in NotesOf(e.base, Memory) && NotesOf(e.base, Memory)[id] == NotesOf(v.building, Memory)[id]
      && (id in NotesOf(e.delta, Memory) <==> id in Merged(v.delta, v.base, Memory))
  {
    SwitchStores(v.delta, v.base, ledger, v.building, Memory);
  }

  /** A commit that fails behind the new delta has routed to it what was carried by then: what is stored of
  memories is as before if and only if the carry got to every record that the old delta held and the
  base does not hold alike. */
  lemma FailedSwitchKeepsMemoryIff(v: Vault, ledger: Ledger, f: Faults)
    ensures var carried := NotesOf(Some(TriedBoth(v.delta, v.base, ledger, f, EMPTY_CLIENT)), Memory);
      var old_, base := NotesOf(v.delta, Memory), NotesOf(v.base, Memory);
      && (carried == map[] || carried == Merged(v.delta, v.base, Memory) - f.lost)
      && (base + carried == Merged(v.delta, v.base, Memory) <==>
          forall id :: id in old_ ==> id in carried || (id in base && base[id] == old_[id]))
  {
    var carried := NotesOf(Some(TriedBoth(v.delta, v.base, ledger, f, EMPTY_CLIENT)), Memory);
    var old_, base := NotesOf(v.delta, Memory), NotesOf(v.base, Memory);
    CarriedMemory(v.delta, v.base, ledger, f);
    if base + carried == base + old_ {
      forall id | id in old_ && id !in carried
        ensures id in base && base[id] == old_[id]
      {
        assert id in base + old_ && (base + old_)[id] == old_[id];
        assert id in base + carried;
      }
    }
  }

  lemma CarriedMemory(delta: Option<Client>, base: Option<Client>, ledger: Ledger, f: Faults)
    ensures var carried := NotesOf(Some(TriedBoth(delta, base, ledger, f, EMPTY_CLIENT)), Memory);
      carried == map[] || carried == Merged(delta, base, Memory) - f.lost
  {
    var one := Tried(delta, base, Memory, ledger, f, EMPTY_CLIENT);
    assert NotesOf(Some(one), Memory) == map[] || NotesOf(Some(one), Memory) == Merged(delta, base, Memory) - f.lost;
    assert NotesOf(Some(Tried(delta, base, Cards, ledger, f, one)), Memory) == NotesOf(Some(one), Memory);
  }

  // ----- Reading them

  const TEXT_COLLECTION := "documents"
  const IMAGE_COLLECTION := "images_clip"
  const MEMORY_COLLECTION := "agent_memory"

  /** The collections that the union of a name reads. For every name but two the code looks up a variable
  that does not exist, so the read raises before any collection is opened. */
  function UnionCollections(name: string, basePresent: bool): Option<seq<Side>> {
    if name == TEXT_COLLECTION || name == IMAGE_COLLECTION then Some([DeltaSide] + if basePresent then [BaseSide] else []) else None
  }

  /** The union read of a name, given what its sides hold, delta first. */
  function UnionRead(name: string, delta: Notes, base: Option<Notes>): Option<Notes> {
    if UnionCollections(name, base.Some?).None? then None else Some((if base.Some? then base.value else map[]) + delta)
  }
}
