/** The vector store over its registries and directories: the writers, deletion, and the rebuild's
begin, resume, commit and abort, each proved to be a step of the library. */
module VectorStore {
  import opened Options
  import opened Storage
  import opened Replacement
  import opened Library
  import opened IndexRegistry
  import opened GenerationStore
  import opened Writers
  import Carry = CarryOver

  /** What a physical directory holds. */
  datatype Directory = Directory(text: Collection, image: Collection, notes: Carry.Client)

  const EMPTY_DIRECTORY := Directory(map[], map[], Carry.EMPTY_CLIENT)

  function ContentOf(contents: map<GenId, Directory>, g: GenId): Directory {
    if g in contents then contents[g] else EMPTY_DIRECTORY
  }

  function CollectionIn(d: Directory, k: Kind): Collection {
    if k.Text? then d.text else d.image
  }

  function WithCollection(d: Directory, k: Kind, col: Collection): Directory {
    if k.Text? then d.(text := col) else d.(image := col)
  }

  function DeltaContent(contents: map<GenId, Directory>, routing: Routing): Directory {
    if routing.delta.Some? then ContentOf(contents, routing.delta.value) else EMPTY_DIRECTORY
  }

  function LiveShelf(contents: map<GenId, Directory>, routing: Routing, table: Table, k: Kind): Shelf {
    Shelf(CollectionIn(DeltaContent(contents, routing), k), RowsOf(table, Token(k, false)))
  }

  function LiveSide(contents: map<GenId, Directory>, routing: Routing, table: Table, k: Kind): Side {
    Side(LiveShelf(contents, routing, table, k), CollectionIn(ContentOf(contents, routing.base), k))
  }

  function RebuildShelf(contents: map<GenId, Directory>, g: GenId, table: Table, k: Kind): Shelf {
    Shelf(CollectionIn(ContentOf(contents, g), k), RowsOf(table, Token(k, true)))
  }

  /** The library the routing and the rebuild target select from the directories. */
  function ViewOf(contents: map<GenId, Directory>, routing: Routing, table: Table, tombstones: set<Source>,
                  targets: bool, rebuildGen: Option<GenId>): State
  {
    State(Library(LiveSide(contents, routing, table, Text), LiveSide(contents, routing, table, Image), tombstones),
          if targets && rebuildGen.Some?
          then Active(RebuildShelf(contents, rebuildGen.value, table, Text), RebuildShelf(contents, rebuildGen.value, table, Image))
          else Idle)
  }

  /** Replacing an unusable delta loses sight of what it held; the live library is otherwise unchanged. */
  function DeltaReplaced(st: State): State {
    st.(lib := st.lib.(text := DeltaMoved(st.lib.text), image := DeltaMoved(st.lib.image)))
  }

  class VectorStore {
    const registry: Registry
    const generations: Generations
    var contents: map<GenId, Directory>
    var targets: bool
    var rebuildGen: Option<GenId>

    ghost predicate Valid()
      reads this, registry
    {
      && Sound(registry.State())
      && Past(contents, registry.clock)
      && (targets ==> rebuildGen.Some?)
      && (rebuildGen.Some? ==> IsBuilding(registry.State(), rebuildGen.value))
    }

    function View(): State
      reads this, registry, generations
    {
      ViewOf(contents, registry.routing, generations.table, registry.tombstones, targets, rebuildGen)
    }

    constructor ()
      ensures Valid() && fresh(registry) && fresh(generations)
      ensures View() == State(Library(Side(EMPTY_SHELF, map[]), Side(EMPTY_SHELF, map[]), {}), Idle)
    {
      registry := new Registry();
      generations := new Generations();
      contents := map[];
      targets := false;
      rebuildGen := None;
    }

    /** Where a write goes: the rebuild's directory, or the routed delta. */
    function WriteHome(): Option<GenId>
      reads this, registry
    {
      if targets then rebuildGen else registry.routing.delta
    }

    /** The write collection: outside a rebuild the delta is created, or replaced, unless it is usable. */
    method WriteCollection(made: bool, stored: bool) returns (ok: bool)
      requires Valid()
      modifies registry
      ensures Valid() && registry.tombstones == old(registry.tombstones)
      ensures targets ==> registry.State() == old(registry.State())
      ensures ok ==> WriteHome().Some? && WriteHome().value in registry.dirs
      ensures ok <==> Reachable(old(registry.State()), targets, made, stored)
      ensures !targets ==> DeltaUsable(registry.State()) == ok
      ensures View() == if targets || DeltaUsable(old(registry.State())) || !ok then old(View()) else DeltaReplaced(old(View()))
    {
      if targets {
        return true;
      }
      ok := ResolveTarget(made, stored);
    }

    /** The routing snapshot that submissions and claims take: also during a rebuild, the delta is created,
    or replaced, unless it is usable. */
    method ResolveTarget(made: bool, stored: bool) returns (ok: bool)
      requires Valid()
      modifies registry
      ensures Valid() && registry.tombstones == old(registry.tombstones) && registry.routing.base == old(registry.routing.base)
      ensures ok <==> DeltaUsable(old(registry.State())) || (made && stored)
      ensures DeltaUsable(registry.State()) == ok
      ensures ok ==> registry.routing.delta.Some? && registry.routing.delta.value in registry.dirs
      ensures View() == if DeltaUsable(old(registry.State())) || !ok then old(View()) else DeltaReplaced(old(View()))
    {
      ghost var r := registry.State();
      StepKeepsSound(r, StepEnsureDelta(made, stored));
      EnsuredUsable(r, made, stored);
      EnsuredDeltaView(r, contents, generations.table, registry.tombstones, targets, rebuildGen, made, stored);
      var delta := registry.EnsureDelta(made, stored);
      ok := delta.Some?;
    }

    /** Replaces the write collection's content. */
    method PutCollection(k: Kind, col: Collection)
      requires Valid() && WriteHome().Some? && WriteHome().value in registry.dirs
      modifies `contents
      ensures Valid()
      ensures View() == WithTarget(old(View()), k, Shelf(col, Target(old(View()), k).rows))
    {
      var home := WriteHome().value;
      if targets {
        BuildingNotRouted(registry.State(), home);
      }
      contents := contents[home := WithCollection(ContentOf(contents, home), k, col)];
    }

    /** The generation the registry holds for the write target; a failed read counts as 0. */
    function TargetGeneration(k: Kind, s: Source, readable: bool): (g: nat)
      requires Valid()
      reads this, registry, generations
      ensures g == ReadRow(Target(View(), k).rows, s, readable)
    {
      generations.CurrentGeneration(Token(k, targets), s, readable)
    }

    /** Stores the write target's collection and, for the written source, its registry row. */
    method PutTarget(k: Kind, s: Source, sh: Shelf, g: nat, switched: bool)
      requires Valid() && WriteHome().Some? && WriteHome().value in registry.dirs
      requires sh.rows == if switched then Target(View(), k).rows[s := g] else Target(View(), k).rows
      modifies this`contents, generations
      ensures Valid() && View() == WithTarget(old(View()), k, sh)
    {
      PutCollection(k, sh.col);
      var _ := generations.SetGeneration(Token(k, targets), s, g, switched);
    }

    /** Replaces the source's records in the write collection. */
    method ReplaceInTarget(job: Job, f: Faults, rowRead: bool, nextRead: bool) returns (ok: bool)
      requires Valid() && !Empty(job) && WriteHome().Some? && WriteHome().value in registry.dirs
      modifies this`contents, generations
      ensures Valid()
      ensures var o := Rewritten(old(View()), job, f, rowRead, nextRead);
        ok == o.ok && View() == WithTarget(old(View()), KindOf(job.writer), o.shelf)
    {
      var k := KindOf(job.writer);
      var sh := Target(View(), k);
      var c, g := TargetGeneration(k, job.source, rowRead), TargetGeneration(k, job.source, nextRead) + 1;
      var o := ReplaceRecords(sh, job, f, c, g);
      RewrittenIs(sh, job, f, rowRead, nextRead, c, g);
      PutTarget(k, job.source, o.shelf, g, o.ok);
      ok := o.ok;
    }

    method ClearTombstoneFor(job: Job, untombed: bool)
      requires Valid() && !Empty(job)
      modifies registry`tombstones
      ensures Valid() && registry.State() == old(registry.State())
      ensures View() == old(View()).(lib := Untombed(old(View()).lib, job, untombed))
    {
      if KindOf(job.writer).Image? {
        registry.ClearTombstone(job.source, untombed);
      }
    }

    /** Replaces the records of one source: text chunks, video frames or a picture, by the job's
    writer. Outside a rebuild an unusable delta is first replaced, which may fail. */
    method AddRecords(job: Job, f: Faults, rowRead: bool, nextRead: bool, untombed: bool, made: bool, stored: bool)
      returns (ok: bool)
      requires Valid()
      modifies this`contents, registry, generations
      ensures Valid()
      ensures targets ==> registry.State() == old(registry.State())
      ensures var usable := targets || DeltaUsable(old(registry.State()));
        var v := old(View()).(lib := Untombed(old(View()).lib, job, untombed));
        var w := if usable then v else DeltaReplaced(v);
        var o := Rewritten(w, job, f, rowRead, nextRead);
        if Empty(job) then !ok && View() == old(View())
        else if !usable && !(made && stored) then !ok && View() == v
        else ok == o.ok && View() == WithTarget(w, KindOf(job.writer), o.shelf)
    {
      if Empty(job) {
        return false;
      }
      ClearTombstoneFor(job, untombed);
      var reached := WriteCollection(made, stored);
      if !reached {
        return false;
      }
      ok := ReplaceInTarget(job, f, rowRead, nextRead);
    }

    /** Deletes all records of s in the write collection, then its registry row; the row is kept when
    the delete raises, and a row that cannot be deleted is kept silently. */
    method EraseIn(k: Kind, s: Source, deleted: bool, cleared: bool)
      requires Valid() && WriteHome().Some? && WriteHome().value in registry.dirs
      modifies this`contents, generations
      ensures Valid()
      ensures View() == WithTarget(old(View()), k, Erased(Target(old(View()), k), s, deleted, cleared))
    {
      if deleted {
        PutCollection(k, Others(Target(View(), k).col, s));
        generations.ClearGeneration(Token(k, targets), s, cleared);
      }
    }

    /** Records the tombstone, if that succeeds; a failure is only logged. */
    method RecordTombstone(s: Source, tombstoned: bool)
      requires Valid()
      modifies registry`tombstones
      ensures Valid() && View() == old(View()).(lib := Tombed(old(View()).lib, s, tombstoned))
    {
      registry.SetTombstone(s, tombstoned);
    }

    /** Reaches the write collection of one kind, which may replace an unusable delta, and erases s there. */
    method EraseIfReached(k: Kind, s: Source, deleted: bool, cleared: bool, made: bool, stored: bool) returns (reached: bool)
      requires Valid()
      modifies this`contents, registry, generations
      ensures Valid() && registry.tombstones == old(registry.tombstones)
      ensures targets ==> registry.State() == old(registry.State())
      ensures reached <==> Reachable(old(registry.State()), targets, made, stored)
      ensures !targets ==> DeltaUsable(registry.State()) == reached
      ensures View() == ErasedAt(old(View()), reached, targets || DeltaUsable(old(registry.State())), k, s, deleted, cleared)
    {
      reached := WriteCollection(made, stored);
      if reached {
        EraseIn(k, s, deleted, cleared);
      }
    }

    /** Erases a source from both write collections, each reached on its own. */
    method EraseBoth(s: Source, d: DeleteFaults, text: (bool, bool), image: (bool, bool)) returns (textReached: bool, imageReached: bool)
      requires Valid()
      modifies this`contents, registry, generations
      ensures Valid() && registry.tombstones == old(registry.tombstones)
      ensures targets ==> registry.State() == old(registry.State())
      ensures textReached == Reachable(old(registry.State()), targets, text.0, text.1)
      ensures imageReached == (textReached || (image.0 && image.1))
      ensures View() == ErasedBoth(old(View()), targets || DeltaUsable(old(registry.State())), textReached, imageReached, s, d)
    {
      textReached := EraseIfReached(Text, s, d.textDeleted, d.textCleared, text.0, text.1);
      imageReached := EraseIfReached(Image, s, d.imageDeleted, d.imageCleared, image.0, image.1);
    }

    /** Deletes a source from the write collections, each reached on its own, and records its tombstone in
    every case. A collection that cannot be reached keeps what it holds. */
    method DeleteFile(s: Source, d: DeleteFaults, text: (bool, bool), image: (bool, bool)) returns (ok: bool)
      requires Valid()
      modifies this`contents, registry, generations
      ensures Valid()
      ensures targets ==> registry.State() == old(registry.State())
      ensures var usable := targets || DeltaUsable(old(registry.State()));
        var textReached := usable || (text.0 && text.1); var imageReached := textReached || (image.0 && image.1);
        && ok == (textReached && d.textDeleted)
        && View() == DeleteStep(Reaching(old(View()), usable || !imageReached), s,
             d.(textDeleted := d.textDeleted && textReached, imageDeleted := d.imageDeleted && imageReached))
    {
      ghost var v0, usable := View(), targets || DeltaUsable(registry.State());
      var textReached, imageReached := EraseBoth(s, d, text, image);
      ErasedBothIs(v0, usable, textReached, imageReached, s, d);
      RecordTombstone(s, d.tombstoned);
      ok := textReached && d.textDeleted;
    }

    /** Deletes the text records of s only; no tombstone is recorded. */
    method DeleteTextChunks(s: Source, deleted: bool, cleared: bool, made: bool, stored: bool) returns (ok: bool)
      requires Valid()
      modifies this`contents, registry, generations
      ensures Valid()
      ensures targets ==> registry.State() == old(registry.State())
      ensures var usable := targets || DeltaUsable(old(registry.State())); var reached := usable || (made && stored);
        && ok == (reached && deleted)
        && View() == DeleteStep(Reaching(old(View()), usable || !reached), s, DeleteFaults(deleted && reached, cleared, false, false, false))
    {
      ghost var v0, usable := View(), targets || DeltaUsable(registry.State());
      var reached := EraseIfReached(Text, s, deleted, cleared, made, stored);
      DeleteStepIsErasing(Reaching(v0, usable || !reached), s, DeleteFaults(deleted && reached, cleared, false, false, false));
      ok := reached && deleted;
    }

    /** Registers a new, empty building base. */
    method OpenBuilding(session: Option<string>, made: bool, stored: bool) returns (ok: bool)
      requires Valid() && !targets
      modifies this`rebuildGen, registry`rows, registry`dirs, registry`clock
      ensures Valid() && View() == old(View())
      ensures ok <==> made && stored
      ensures ok ==> rebuildGen.Some? && rebuildGen.value !in contents
    {
      ghost var r := registry.State();
      StepKeepsSound(r, StepCreateBuilding(session, made, stored));
      var created := registry.CreateBuildingBase(session, made, stored);
      ok := created.Some?;
      if ok {
        rebuildGen := created;
      }
    }

    /** Creates the building base, empties the isolated registry namespace, then moves the write target. */
    method BeginRebuild(session: Option<string>, made: bool, stored: bool, prepared: bool, textCleared: bool, imageCleared: bool, marked: bool)
      returns (ok: bool)
      requires Valid()
      modifies this`targets, this`rebuildGen, registry`rows, registry`dirs, registry`clock, generations
      ensures Valid() && View().lib == old(View()).lib
      ensures ok <==> !old(targets) && made && stored && prepared
      ensures targets == (ok || old(targets))
      ensures ok ==> View() == Apply(old(View()), BeginOver(old(generations.table), textCleared, imageCleared))
    {
      if targets {
        return false;
      }
      ok := OpenBuilding(session, made, stored);
      if !ok {
        return false;
      }
      ClearNamespace(textCleared, imageCleared);
      if !prepared {
        return false;
      }
      targets := true;
      MarkBase(Rebuilding, marked);
      return true;
    }

    /** Sets the index health state, which is recorded on the routed base. */
    method MarkBase(status: Status, stored: bool)
      requires Valid() && status != Retired && status != Building
      modifies registry`rows
      ensures Valid() && View() == old(View())
      ensures registry.State() == if stored then WithStatus(old(registry.State()), registry.routing.base, status) else old(registry.State())
    {
      StepKeepsSound(registry.State(), StepStatus(registry.routing.base, status));
      if rebuildGen.Some? {
        BuildingNotRouted(registry.State(), rebuildGen.value);
      }
      registry.SetGenerationStatus(registry.routing.base, status, stored);
    }

    /** After a restart: continue with the newest building base and the rows left in its namespace.
    Opening its client creates the directory if it is gone, but then the collections are not `present`. */
    method ResumeRebuild(present: bool) returns (ok: bool)
      requires Valid()
      modifies this`targets, this`rebuildGen, registry`dirs
      ensures Valid() && View().lib == old(View()).lib
      ensures ok <==> !old(targets) && BuildingBases(registry.State()) != {} && present
      ensures !ok ==> targets == old(targets)
      ensures ok ==> targets && rebuildGen.Some? && rebuildGen.value in BuildingBases(registry.State())
      ensures ok ==> forall g :: g in BuildingBases(registry.State()) ==>
        registry.rows[g].created <= registry.rows[rebuildGen.value].created
      ensures ok ==> View().rebuild == Active(RebuildShelf(contents, rebuildGen.value, generations.table, Text),
                                              RebuildShelf(contents, rebuildGen.value, generations.table, Image))
    {
      if targets || BuildingBases(registry.State()) == {} {
        return false;
      }
      var g := registry.Newest(BuildingBases(registry.State()));
      rebuildGen := Some(g);
      registry.dirs := registry.dirs + {g};
      if !present {
        return false;
      }
      targets := true;
      return true;
    }

    /** Routes to a new, empty delta. The epoch moves at once, before anything is carried over. */
    method MoveDelta(made: bool, stored: bool) returns (created: Option<GenId>)
      requires Valid()
      modifies registry`rows, registry`routing, registry`dirs, registry`clock
      ensures Valid() && (created.Some? <==> made && stored)
      ensures created.None? ==> View() == old(View()) && registry.routing == old(registry.routing)
      ensures created.Some? ==> View() == DeltaReplaced(old(View())) && created.value !in contents
      ensures created.Some? ==> registry.routing == Routing(old(registry.routing).base, created, old(registry.routing).epoch + 1)
    {
      ghost var r := registry.State();
      StepKeepsSound(r, StepCreateDelta(true, made, stored));
      created := registry.CreateDelta(true, made, stored);
      MovedDeltaView(r, contents, generations.table, registry.tombstones, targets, rebuildGen, made, stored);
    }

    method StoreNotes(d: GenId, notes: Carry.Client)
      requires Valid() && registry.routing.delta == Some(d)
      modifies this`contents
      ensures Valid() && View() == old(View())
      ensures contents == old(contents)[d := ContentOf(old(contents), d).(notes := notes)]
    {
      contents := contents[d := ContentOf(contents, d).(notes := notes)];
    }

    /** Carries memory and card records of the old routing over to the new delta; what was written
    before a failure stays there. */
    method CarryInto(d: GenId, formerDelta: Option<Carry.Client>, formerBase: Option<Carry.Client>,
                     ledger: Carry.Ledger, f: Carry.Faults) returns (ok: bool)
      requires Valid() && registry.routing.delta == Some(d) && d !in contents
      modifies this`contents
      ensures Valid() && View() == old(View()) && contents.Keys == old(contents).Keys + {d}
      ensures forall g :: g in old(contents) ==> contents[g] == old(contents)[g]
      ensures ok <==> Carry.Succeeds(formerDelta, formerBase, Carry.Memory, ledger, f) &&
                      Carry.Succeeds(formerDelta, formerBase, Carry.Cards, ledger, f)
      ensures ok ==> contents[d].notes == CarriedNotes(formerDelta, formerBase, ledger)
      ensures contents[d].notes == Carry.TriedBoth(formerDelta, formerBase, ledger, f, Carry.EMPTY_CLIENT)
    {
      var r := Carry.CarryOverDeltaCollections(formerDelta, formerBase, ledger, f, Carry.EMPTY_CLIENT);
      StoreNotes(d, r.target);
      ok := r.Carried?;
    }

    /** Switches the routing to the building base in one transaction, which ends the rebuild. */
    method MoveBase(d: GenId, activated: bool) returns (ok: bool)
      requires Valid() && targets && registry.routing.delta == Some(d)
      modifies this`targets, this`rebuildGen, registry`rows, registry`routing, registry`clock
      ensures Valid() && ok == activated
      ensures registry.routing == if ok then Routing(old(rebuildGen).value, Some(d), old(registry.routing).epoch + 1)
                                  else old(registry.routing)
      ensures targets == !ok && rebuildGen == if ok then None else old(rebuildGen)
    {
      var g := rebuildGen.value;
      BuildingNotRouted(registry.State(), g);
      WithLegacySound(registry.State());
      StepKeepsSound(registry.State(), StepActivate(g, d));
      ok := registry.ActivateBase(g, d, activated);
      if ok {
        targets, rebuildGen := false, None;
      }
    }

    /** Switches to the building base, then renames the registry tokens. */
    method ActivateRebuilt(d: GenId, activated: bool, textRenamed: bool, imageRenamed: bool) returns (ok: bool)
      requires Valid() && targets && registry.routing.delta == Some(d)
      requires LiveDeltaEmpty(View())
      modifies this`targets, this`rebuildGen, registry`rows, registry`routing, registry`clock, generations
      ensures Valid() && ok == activated
      ensures registry.routing == if ok then Routing(old(rebuildGen).value, Some(d), old(registry.routing).epoch + 1)
                                  else old(registry.routing)
      ensures targets == !ok && rebuildGen == if ok then None else old(rebuildGen)
      ensures View() == if ok then CommitStep(old(View()), Switched(textRenamed, imageRenamed)) else old(View())
    {
      ok := MoveBase(d, activated);
      if ok {
        generations.RenameCollection(Token(Text, true), Token(Text, false), textRenamed);
        generations.RenameCollection(Token(Image, true), Token(Image, false), imageRenamed);
      }
    }

    /** Commits the rebuild: check, new delta, carry-over, switch. A failure after the new delta was
    created leaves the delta pointer moved; the base pointer only moves with the switch. */
    method CommitRebuild(f: CommitFaults, ledger: Carry.Ledger) returns (ok: bool)
      requires Valid()
      modifies this, registry`rows, registry`routing, registry`dirs, registry`clock, generations
      ensures Valid()
      ensures var formerDelta, formerBase := NotesAt(old(contents), old(registry.routing).delta),
                                             NotesAt(old(contents), Some(old(registry.routing).base));
        var outcome := OutcomeOf(f, ledger, formerDelta, formerBase);
        && ok == (old(targets) && outcome.Switched?)
        && View() == Apply(old(View()), Commit(outcome))
        && (ok ==> registry.routing.base == old(rebuildGen).value && registry.routing.epoch == old(registry.routing).epoch + 2 &&
                   registry.routing.delta.Some? && registry.routing.delta.value in contents &&
                   contents[registry.routing.delta.value].notes == CarriedNotes(formerDelta, formerBase, ledger))
      ensures ok ==> !targets && rebuildGen.None?
      ensures !ok ==> registry.routing.base == old(registry.routing).base && targets == old(targets) && rebuildGen == old(rebuildGen)
    {
      if !targets || !f.smoke {
        return false;
      }
      var formerDelta, formerBase := NotesAt(contents, registry.routing.delta), NotesAt(contents, Some(registry.routing.base));
      var created := MoveDelta(f.made, f.stored);
      if created.None? {
        return false;
      }
      var carried := CarryInto(created.value, formerDelta, formerBase, ledger, f.carry);
      if !carried {
        return false;
      }
      ok := ActivateRebuilt(created.value, f.activated, f.textRenamed, f.imageRenamed);
    }

    /** Removes the directory of a generation nothing routes to, if that succeeds. */
    method RemoveDirectory(g: GenId, removed: bool)
      requires Valid() && !targets && rebuildGen.None? && !IsRouted(registry.State(), g)
      modifies this`contents, registry`dirs
      ensures Valid() && View() == old(View())
    {
      if removed {
        contents := contents - {g};
        registry.dirs := registry.dirs - {g};
      }
    }

    /** Removes a building base's directory and retires its row; a row that cannot be written stays building. */
    method RetireBuilding(g: GenId, removed: bool, retired: bool)
      requires Valid() && !targets && rebuildGen.None? && IsBuilding(registry.State(), g)
      modifies this`contents, registry`dirs, registry`rows
      ensures Valid() && View() == old(View())
      ensures registry.rows == RetiredIf(old(registry.State()), Some(g), retired).rows
    {
      BuildingNotRouted(registry.State(), g);
      RemoveDirectory(g, removed);
      StepKeepsSound(registry.State(), StepStatus(g, Retired));
      registry.SetGenerationStatus(g, Retired, retired);
    }

    method ClearNamespace(textCleared: bool, imageCleared: bool)
      requires Valid() && !targets
      modifies generations
      ensures Valid() && View() == old(View())
      ensures RowsOf(generations.table, Token(Text, true)) == RowsLeft(old(generations.table), Text, textCleared)
      ensures RowsOf(generations.table, Token(Image, true)) == RowsLeft(old(generations.table), Image, imageCleared)
    {
      generations.ClearCollectionToken(Token(Text, true), textCleared);
      generations.ClearCollectionToken(Token(Image, true), imageCleared);
    }

    /** Forgets the write target and discards the building base, if there is one. */
    method DropBuilding(removed: bool, retired: bool)
      requires Valid()
      modifies this, registry`rows, registry`dirs
      ensures Valid() && !targets && rebuildGen.None?
      ensures View() == Apply(old(View()), Abort)
      ensures registry.rows == RetiredIf(old(registry.State()), old(rebuildGen), retired).rows
    {
      var gen := rebuildGen;
      targets, rebuildGen := false, None;
      if gen.Some? {
        RetireBuilding(gen.value, removed, retired);
      }
    }

    /** Discards the building base and the isolated namespace. Without one, as after a commit, it
    changes no registry row except the routed base's health. Status writes that fail leave the rows. */
    method AbortRebuild(removed: bool, retired: bool, textCleared: bool, imageCleared: bool, marked: bool)
      requires Valid()
      modifies this, registry`rows, registry`dirs, generations
      ensures Valid() && !targets && rebuildGen.None?
      ensures View() == Apply(old(View()), Abort)
      ensures registry.rows ==
        (var r := RetiredIf(old(registry.State()), old(rebuildGen), retired); if marked then WithStatus(r, r.routing.base, Unknown).rows else r.rows)
    {
      DropBuilding(removed, retired);
      ClearNamespace(textCleared, imageCleared);
      MarkBase(Unknown, marked);
    }
  }

  /** How the calls of a commit turn out. */
  datatype CommitFaults = CommitFaults(smoke: bool, made: bool, stored: bool, carry: Carry.Faults, activated: bool,
                                       textRenamed: bool, imageRenamed: bool)

  function NotesAt(contents: map<GenId, Directory>, g: Option<GenId>): Option<Carry.Client> {
    if g.Some? then Some(ContentOf(contents, g.value).notes) else None
  }

  function CarriedNotes(delta: Option<Carry.Client>, base: Option<Carry.Client>, ledger: Carry.Ledger): Carry.Client {
    Carry.After(delta, base, Carry.Cards, ledger, Carry.After(delta, base, Carry.Memory, ledger, Carry.EMPTY_CLIENT))
  }

  function OutcomeOf(f: CommitFaults, ledger: Carry.Ledger, delta: Option<Carry.Client>, base: Option<Carry.Client>): CommitOutcome {
    if !f.smoke || !f.made || !f.stored then Refused
    else if !Carry.Succeeds(delta, base, Carry.Memory, ledger, f.carry) ||
            !Carry.Succeeds(delta, base, Carry.Cards, ledger, f.carry) || !f.activated then DeltaMovedOnly
    else Switched(f.textRenamed, f.imageRenamed)
  }

  /** The registry with a building base retired, if there is one and the write succeeds. */
  function RetiredIf(r: RegistryState, g: Option<GenId>, stored: bool): RegistryState {
    if g.Some? && stored then WithStatus(r, g.value, Retired) else r
  }

  /** The rows left in the rebuild's namespace. */
  function RowsLeft(table: Table, k: Kind, cleared: bool): map<Source, nat> {
    if cleared then map[] else RowsOf(table, Token(k, true))
  }

  /** Beginning a rebuild over what clearing its namespaces left. */
  function BeginOver(table: Table, textCleared: bool, imageCleared: bool): Step {
    Begin(RowsLeft(table, Text, textCleared), RowsLeft(table, Image, imageCleared))
  }

  /** A write collection can be reached: always in a rebuild, otherwise when the delta is usable or can be replaced. */
  predicate Reachable(r: RegistryState, targets: bool, made: bool, stored: bool) {
    targets || DeltaUsable(r) || (made && stored)
  }

  /** The library once a write collection is reached. */
  function Reaching(st: State, kept: bool): State {
    if kept then st else DeltaReplaced(st)
  }

  predicate LiveDeltaEmpty(st: State) {
    st.lib.text.delta.col == map[] && st.lib.image.delta.col == map[]
  }

  lemma MovedDeltaView(r: RegistryState, contents: map<GenId, Directory>, table: Table, tombstones: set<Source>,
                       targets: bool, rebuildGen: Option<GenId>, made: bool, stored: bool)
    requires Sound(r) && Past(contents, r.clock)
    ensures var e := CreateDeltaSpec(r, true, made, stored);
      var before := ViewOf(contents, r.routing, table, tombstones, targets, rebuildGen);
      && Past(contents, e.clock)
      && (forall g :: IsBuilding(r, g) ==> IsBuilding(e, g))
      && (made && stored ==> e.routing.delta.Some? && e.routing.delta.value !in contents)
      && ViewOf(contents, e.routing, table, tombstones, targets, rebuildGen) ==
         (if made && stored then DeltaReplaced(before) else before)
  {
    var l := WithLegacy(r);
    if made && stored {
      assert CreateDeltaSpec(r, true, made, stored) == MakeDelta(l);
      assert Made(DeltaRole, l.clock) !in contents;
    }
  }

  function BuildingBases(r: RegistryState): set<GenId> {
    set g | g in r.rows && r.rows[g].role == BaseRole && r.rows[g].status == Building
  }

  /** Both erasures of a deletion. */
  function Erasing(st: State, s: Source, d: DeleteFaults): State {
    var one := WithTarget(st, Text, Erased(Target(st, Text), s, d.textDeleted, d.textCleared));
    WithTarget(one, Image, Erased(Target(one, Image), s, d.imageDeleted, d.imageCleared))
  }

  lemma DeleteStepIsErasing(st: State, s: Source, d: DeleteFaults)
    ensures var e := Erasing(st, s, d); DeleteStep(st, s, d) == e.(lib := Tombed(e.lib, s, d.tombstoned))
    ensures !d.textDeleted ==> Erasing(st, s, d) == WithTarget(st, Image, Erased(Target(st, Image), s, d.imageDeleted, d.imageCleared))
    ensures !d.imageDeleted ==> Erasing(st, s, d) == WithTarget(st, Text, Erased(Target(st, Text), s, d.textDeleted, d.textCleared))
    ensures !d.textDeleted && !d.imageDeleted ==> Erasing(st, s, d) == st
  {
  }

  /** One erasure, if its collection is reached; reaching it replaces an unusable delta. */
  function ErasedAt(st: State, reached: bool, usable: bool, k: Kind, s: Source, deleted: bool, cleared: bool): State {
    if !reached then st
    else
      var v := Reaching(st, usable);
      WithTarget(v, k, Erased(Target(v, k), s, deleted, cleared))
  }

  function ErasedBoth(st: State, usable: bool, textReached: bool, imageReached: bool, s: Source, d: DeleteFaults): State {
    ErasedAt(ErasedAt(st, textReached, usable, Text, s, d.textDeleted, d.textCleared),
             imageReached, usable || textReached, Image, s, d.imageDeleted, d.imageCleared)
  }

  lemma ErasedBothIs(st: State, usable: bool, textReached: bool, imageReached: bool, s: Source, d: DeleteFaults)
    requires (usable ==> textReached) && (textReached ==> imageReached)
    ensures var e := ErasedBoth(st, usable, textReached, imageReached, s, d);
      DeleteStep(Reaching(st, usable || !imageReached), s,
                 d.(textDeleted := d.textDeleted && textReached, imageDeleted := d.imageDeleted && imageReached)) ==
      e.(lib := Tombed(e.lib, s, d.tombstoned))
  {
    DeleteStepIsErasing(Reaching(st, usable || !imageReached), s,
                        d.(textDeleted := d.textDeleted && textReached, imageDeleted := d.imageDeleted && imageReached));
  }

  /** The outcome of a replacement in the write target of a library; failed registry reads count as 0. */
  function Rewritten(v: State, job: Job, f: Faults, rowRead: bool, nextRead: bool): Outcome {
    RewrittenShelf(Target(v, KindOf(job.writer)), job, f, rowRead, nextRead)
  }

  function RewrittenShelf(sh: Shelf, job: Job, f: Faults, rowRead: bool, nextRead: bool): Outcome {
    Rewrite(sh, job, f, ReadRow(sh.rows, job.source, rowRead), ReadRow(sh.rows, job.source, nextRead) + 1)
  }

  lemma RewrittenIs(sh: Shelf, job: Job, f: Faults, rowRead: bool, nextRead: bool, c: nat, g: nat)
    requires c == ReadRow(sh.rows, job.source, rowRead) && g == ReadRow(sh.rows, job.source, nextRead) + 1
    ensures RewrittenShelf(sh, job, f, rowRead, nextRead) == Rewrite(sh, job, f, c, g)
  {
  }

  lemma RewrittenIsReplace(sh: Shelf, job: Job, f: Faults)
    ensures RewrittenShelf(sh, job, f, true, true) == Replace(sh, job, f)
  {
    RewrittenIs(sh, job, f, true, true, Row(sh.rows, job.source), Row(sh.rows, job.source) + 1);
  }

  lemma WriteStepInTarget(v: State, job: Job, f: Faults, untombed: bool)
    ensures var w, k := v.(lib := Untombed(v.lib, job, untombed)), KindOf(job.writer);
      WriteStep(v, job, f, untombed) == WithTarget(w, k, Replace(Target(w, k), job, f).shelf)
  {
  }

  /** With readable rows, a write that reaches its collection is the library's write step, and all or
  nothing: the row names the whole new generation, or row and current generation are as they were. */
  lemma {:induction false} StoreWriteIsAtomic(v: State, job: Job, f: Faults, untombed: bool)
    requires WellFormed(Target(v, KindOf(job.writer)).col)
    ensures var w, k := v.(lib := Untombed(v.lib, job, untombed)), KindOf(job.writer);
      var o := Rewritten(w, job, f, true, true);
      && WriteStep(v, job, f, untombed) == WithTarget(w, k, o.shelf)
      && AllOrNothing(Target(v, k), o, job, Commits(Target(v, k), job, f))
  {
    var w, k := v.(lib := Untombed(v.lib, job, untombed)), KindOf(job.writer);
    assert Target(w, k) == Target(v, k);
    RewrittenIsReplace(Target(v, k), job, f);
    WriteStepInTarget(v, job, f, untombed);
    ReplaceIsAtomic(Target(v, k), job, f);
  }

  function ReadRow(rows: map<Source, nat>, s: Source, readable: bool): nat {
    if readable then Row(rows, s) else 0
  }

  ghost predicate Past(contents: map<GenId, Directory>, clock: nat) {
    forall g :: g in contents && g.Made? ==> g.serial < clock
  }

  lemma EnsuredUsable(r: RegistryState, made: bool, stored: bool)
    requires Sound(r)
    ensures DeltaUsable(EnsureDeltaSpec(r, made, stored)) <==> DeltaUsable(r) || (made && stored)
  {
  }

  /** Ensuring a delta keeps what is not its business, and shows an empty delta when it made one. */
  lemma EnsuredDeltaView(r: RegistryState, contents: map<GenId, Directory>, table: Table, tombstones: set<Source>,
                         targets: bool, rebuildGen: Option<GenId>, made: bool, stored: bool)
    requires Sound(r) && Past(contents, r.clock)
    ensures var e := EnsureDeltaSpec(r, made, stored);
      var before := ViewOf(contents, r.routing, table, tombstones, targets, rebuildGen);
      && Past(contents, e.clock)
      && (forall g :: IsBuilding(r, g) ==> IsBuilding(e, g))
      && ViewOf(contents, e.routing, table, tombstones, targets, rebuildGen) ==
         (if !DeltaUsable(r) && made && stored then DeltaReplaced(before) else before)
  {
    var e := EnsureDeltaSpec(r, made, stored);
    if !DeltaUsable(r) && made && stored {
      var l := WithLegacy(r);
      assert e == MakeDelta(l);
      assert Made(DeltaRole, l.clock) !in contents;
    }
  }

  /** A registered building base with a directory that nothing routes to. */
  predicate IsBuilding(r: RegistryState, g: GenId) {
    g in r.rows && g in r.dirs && r.rows[g].status == Building && g.Made?
  }

  lemma BuildingNotRouted(r: RegistryState, g: GenId)
    requires Sound(r) && IsBuilding(r, g)
    ensures !IsRouted(r, g)
  {
  }
}
