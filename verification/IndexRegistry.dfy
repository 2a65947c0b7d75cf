/** The registry of physical index generations: rows with a status, one routing row, tombstones. */
module IndexRegistry {
  import opened Options
  import opened Storage

  datatype Role = BaseRole | DeltaRole

  datatype Status = Unknown | Healthy | Corrupted | Rebuilding | Building | Retired

  /** The legacy directory, or a directory made under the generations root with a fresh name. */
  datatype GenId = LegacyGen | Made(role: Role, serial: nat)

  /** `created` is the time of insertion, by which rows are ordered. */
  datatype GenRow = GenRow(role: Role, status: Status, session: Option<string>, created: nat)

  datatype Routing = Routing(base: GenId, delta: Option<GenId>, epoch: nat)

  /** `dirs` are the existing directories; `clock` is later than every row and every made name. */
  datatype RegistryState = RegistryState(rows: map<GenId, GenRow>, routing: Routing, dirs: set<GenId>, clock: nat)

  // ----- Operations on values

  function WithLegacy(r: RegistryState): RegistryState {
    if LegacyGen in r.rows then r
    else r.(rows := r.rows[LegacyGen := GenRow(BaseRole, Unknown, None, r.clock)], clock := r.clock + 1)
  }

  function WithStatus(r: RegistryState, g: GenId, status: Status): RegistryState {
    if g in r.rows then r.(rows := r.rows[g := r.rows[g].(status := status)]) else r
  }

  predicate IsRouted(r: RegistryState, g: GenId) {
    g == r.routing.base || r.routing.delta == Some(g)
  }

  /** The routed delta can be written to: it is registered healthy and its directory exists. */
  predicate DeltaUsable(r: RegistryState) {
    r.routing.delta.Some? && r.routing.delta.value in r.rows &&
    r.rows[r.routing.delta.value].status == Healthy && r.routing.delta.value in r.dirs
  }

  function MakeDelta(r: RegistryState): RegistryState {
    var g := Made(DeltaRole, r.clock);
    r.(rows := r.rows[g := GenRow(DeltaRole, Healthy, None, r.clock)], dirs := r.dirs + {g}, clock := r.clock + 1,
       routing := Routing(r.routing.base, Some(g), r.routing.epoch + 1))
  }

  /** `stored` is false when the transaction fails after the directory was made. */
  function CreateDeltaSpec(r: RegistryState, forceNew: bool, made: bool, stored: bool): RegistryState {
    var l := WithLegacy(r);
    if DeltaUsable(l) && !forceNew then l
    else if !made then r
    else if !stored then r.(dirs := r.dirs + {Made(DeltaRole, l.clock)}, clock := l.clock + 1)
    else MakeDelta(l)
  }

  function EnsureDeltaSpec(r: RegistryState, made: bool, stored: bool): RegistryState {
    if DeltaUsable(r) then r else CreateDeltaSpec(r, true, made, stored)
  }

  function CreateBuildingSpec(r: RegistryState, session: Option<string>, made: bool, stored: bool): RegistryState {
    var l := WithLegacy(r);
    var g := Made(BaseRole, l.clock);
    if !made then r
    else if !stored then r.(dirs := r.dirs + {g}, clock := l.clock + 1)
    else l.(rows := l.rows[g := GenRow(BaseRole, Building, session, l.clock)], dirs := l.dirs + {g}, clock := l.clock + 1)
  }

  /** The old routed generations retire, unless they are routed again. */
  function ActivateSpec(r: RegistryState, base: GenId, delta: GenId): RegistryState {
    var l := WithLegacy(r);
    var a := WithStatus(l, base, Healthy);
    var b := if l.routing.base !in {base, delta} then WithStatus(a, l.routing.base, Retired) else a;
    var c := if l.routing.delta.Some? && l.routing.delta.value !in {base, delta}
             then WithStatus(b, l.routing.delta.value, Retired) else b;
    c.(routing := Routing(base, Some(delta), l.routing.epoch + 1))
  }

  predicate IsRetired(r: RegistryState, g: GenId) {
    g in r.rows && r.rows[g].status == Retired
  }

  function RetiredGens(r: RegistryState): set<GenId> {
    set g | g in r.rows && r.rows[g].status == Retired
  }

  /** Retired generations newer than g. */
  function NewerRetired(r: RegistryState, g: GenId): set<GenId>
    requires g in r.rows
  {
    set h | h in r.rows && r.rows[h].status == Retired && r.rows[h].created > r.rows[g].created
  }

  /** Retired generations that at least `keep` newer retired ones precede. */
  function Surplus(r: RegistryState, keep: nat): set<GenId> {
    set g | g in r.rows && r.rows[g].status == Retired && |NewerRetired(r, g)| >= keep
  }

  function MadeAmong(gens: set<GenId>): set<GenId> {
    set g | g in gens && g.Made?
  }

  /** `stuck` are the generations whose directory cannot be removed. */
  function CleanupSpec(r: RegistryState, keep: int, stuck: set<GenId>): RegistryState {
    var gone := Surplus(r, if keep < 1 then 1 else keep) - stuck;
    r.(rows := r.rows - gone, dirs := r.dirs - MadeAmong(gone))
  }

  datatype RegStep =
    | StepCreateDelta(forceNew: bool, made: bool, stored: bool)
    | StepEnsureDelta(made: bool, stored: bool)
    | StepCreateBuilding(session: Option<string>, made: bool, stored: bool)
    | StepActivate(base: GenId, delta: GenId)
    | StepStatus(gen: GenId, status: Status)
    | StepMarkCorrupted(role: Role)
    | StepCleanup(keep: int, stuck: set<GenId>)

  function MarkCorruptedSpec(r: RegistryState, role: Role): RegistryState {
    match role
    case BaseRole => WithStatus(r, r.routing.base, Corrupted)
    case DeltaRole => if r.routing.delta.Some? then WithStatus(r, r.routing.delta.value, Corrupted) else r
  }

  function ApplyReg(r: RegistryState, step: RegStep): RegistryState {
    match step
    case StepCreateDelta(forceNew, made, stored) => CreateDeltaSpec(r, forceNew, made, stored)
    case StepEnsureDelta(made, stored) => EnsureDeltaSpec(r, made, stored)
    case StepCreateBuilding(session, made, stored) => CreateBuildingSpec(r, session, made, stored)
    case StepActivate(base, delta) => ActivateSpec(r, base, delta)
    case StepStatus(g, status) => WithStatus(r, g, status)
    case StepMarkCorrupted(role) => MarkCorruptedSpec(r, role)
    case StepCleanup(keep, stuck) => CleanupSpec(r, keep, stuck)
  }

  function RunReg(r: RegistryState, steps: seq<RegStep>): RegistryState
    decreases |steps|
  {
    if steps == [] then r else RunReg(ApplyReg(r, steps[0]), steps[1..])
  }

  // ----- The epoch fence

  lemma StepFence(r: RegistryState, step: RegStep)
    ensures ApplyReg(r, step).routing == r.routing || ApplyReg(r, step).routing.epoch > r.routing.epoch
  {
  }

  /** Over every run of registry operations the epoch never decreases, and if it is unchanged so are
  the routed base and delta: equal epochs at enqueue and at claim mean equal targets. */
  lemma {:induction false} EpochFence(r: RegistryState, steps: seq<RegStep>)
    ensures RunReg(r, steps).routing.epoch >= r.routing.epoch
    ensures RunReg(r, steps).routing.epoch == r.routing.epoch ==> RunReg(r, steps).routing == r.routing
    decreases |steps|
  {
    if steps != [] {
      StepFence(r, steps[0]);
      EpochFence(ApplyReg(r, steps[0]), steps[1..]);
    }
  }

  // ----- Routed generations are never retired

  /** Routed generations are registered and distinct, with a directory, and neither retired nor still building;
  made names and row times are in the past, and no two rows share a time. */
  ghost predicate Sound(r: RegistryState) {
    && InService(r, r.routing.base)
    && (r.routing.delta.Some? ==> InService(r, r.routing.delta.value) && r.routing.delta.value != r.routing.base)
    && (forall g :: g in r.rows && r.rows[g].status == Building ==> g.Made?)
    && Timely(r)
  }

  predicate InService(r: RegistryState, g: GenId) {
    g in r.rows && g in r.dirs && r.rows[g].status != Retired && r.rows[g].status != Building
  }

  /** How the vector store uses the registry: it activates a building base with the delta it has just
  routed to, retires only generations that are not routed, and marks nothing as building again. */
  predicate Proper(r: RegistryState, step: RegStep) {
    match step
    case StepActivate(base, delta) =>
      base in r.rows && base in r.dirs && r.rows[base].status == Building && r.routing.delta == Some(delta) && base != delta
    case StepStatus(g, status) => status != Building && (status == Retired ==> !IsRouted(r, g))
    case _ => true
  }

  ghost predicate ProperRun(r: RegistryState, steps: seq<RegStep>)
    decreases |steps|
  {
    steps == [] || (Proper(r, steps[0]) && ProperRun(ApplyReg(r, steps[0]), steps[1..]))
  }

  /** Rows and names are in the past, and no two rows share a time. */
  ghost predicate Timely(r: RegistryState) {
    && (forall g :: g in r.rows ==> r.rows[g].created < r.clock)
    && (forall g :: (g in r.rows || g in r.dirs) && g.Made? ==> g.serial < r.clock)
    && (forall g, h :: g in r.rows && h in r.rows && r.rows[g].created == r.rows[h].created ==> g == h)
  }

  lemma WithLegacySound(r: RegistryState)
    requires Sound(r)
    ensures Sound(WithLegacy(r))
  {
  }

  lemma WithStatusTimely(r: RegistryState, g: GenId, status: Status)
    requires Timely(r)
    ensures Timely(WithStatus(r, g, status))
  {
  }

  lemma ActivateKeepsSound(r: RegistryState, base: GenId, delta: GenId)
    requires Sound(r) && Proper(r, StepActivate(base, delta))
    ensures Sound(ActivateSpec(r, base, delta))
  {
    var l := WithLegacy(r);
    WithLegacySound(r);
    var a := WithStatus(l, base, Healthy);
    WithStatusTimely(l, base, Healthy);
    WithStatusTimely(a, l.routing.base, Retired);
    assert l.routing.delta == Some(delta) && InService(l, delta);
    assert Timely(ActivateSpec(r, base, delta));
    assert InService(a, base) && InService(a, delta);
  }

  lemma CreateDeltaSound(r: RegistryState, forceNew: bool, made: bool, stored: bool)
    requires Sound(r)
    ensures Sound(CreateDeltaSpec(r, forceNew, made, stored))
  {
    WithLegacySound(r);
  }

  lemma CreateBuildingSound(r: RegistryState, made: bool, stored: bool, session: Option<string>)
    requires Sound(r)
    ensures Sound(CreateBuildingSpec(r, session, made, stored))
  {
    WithLegacySound(r);
  }

  lemma {:induction false} StepKeepsSound(r: RegistryState, step: RegStep)
    requires Sound(r) && Proper(r, step)
    ensures Sound(ApplyReg(r, step))
  {
    match step
    case StepCreateDelta(forceNew, made, stored) => CreateDeltaSound(r, forceNew, made, stored);
    case StepEnsureDelta(made, stored) => CreateDeltaSound(r, true, made, stored);
    case StepCreateBuilding(session, made, stored) => CreateBuildingSound(r, made, stored, session);
    case StepActivate(base, delta) => ActivateKeepsSound(r, base, delta);
    case StepStatus(g, status) => WithStatusTimely(r, g, status);
    case StepMarkCorrupted(role) => MarkCorruptedSound(r, role);
    case StepCleanup(keep, stuck) => CleanupSound(r, keep, stuck);
  }

  lemma MarkCorruptedSound(r: RegistryState, role: Role)
    requires Sound(r)
    ensures Sound(MarkCorruptedSpec(r, role))
  {
    WithStatusTimely(r, r.routing.base, Corrupted);
    if r.routing.delta.Some? {
      WithStatusTimely(r, r.routing.delta.value, Corrupted);
    }
  }

  lemma CleanupSound(r: RegistryState, keep: int, stuck: set<GenId>)
    requires Sound(r)
    ensures Sound(CleanupSpec(r, keep, stuck))
  {
  }

  /** Over every proper run a routed generation is registered, present and never retired, so a
  clean-up at any point of the run removes no routed and no building directory. */
  lemma {:induction false} RoutedNeverRetired(r: RegistryState, steps: seq<RegStep>, keep: int, stuck: set<GenId>)
    requires Sound(r) && ProperRun(r, steps)
    ensures var e := RunReg(r, steps);
      && Sound(e)
      && (forall g :: IsRouted(e, g) || (g in e.dirs && g in e.rows && e.rows[g].status == Building) ==>
            g in CleanupSpec(e, keep, stuck).dirs && g in CleanupSpec(e, keep, stuck).rows)
    decreases |steps|
  {
    if steps != [] {
      StepKeepsSound(r, steps[0]);
      RoutedNeverRetired(ApplyReg(r, steps[0]), steps[1..], keep, stuck);
    }
  }

  // ----- The registry itself

  class Registry {
    var rows: map<GenId, GenRow>
    var routing: Routing
    var dirs: set<GenId>
    var clock: nat
    var tombstones: set<Source>

    function State(): RegistryState
      reads this
    {
      RegistryState(rows, routing, dirs, clock)
    }

    /** First use: the existing index directory is registered as the legacy base. */
    constructor ()
      ensures Sound(State()) && tombstones == {}
      ensures routing == Routing(LegacyGen, None, 0)
    {
      rows := map[LegacyGen := GenRow(BaseRole, Unknown, None, 0)];
      routing := Routing(LegacyGen, None, 0);
      dirs := {LegacyGen};
      clock := 1;
      tombstones := {};
    }

    method EnsureLegacyGeneration()
      modifies `rows, `clock
      ensures State() == WithLegacy(old(State()))
    {
      if LegacyGen !in rows {
        rows := rows[LegacyGen := GenRow(BaseRole, Unknown, None, clock)];
        clock := clock + 1;
      }
    }

    /** A write that fails is only logged. */
    method SetGenerationStatus(g: GenId, status: Status, stored: bool)
      modifies `rows
      ensures State() == if stored then WithStatus(old(State()), g, status) else old(State())
    {
      if stored && g in rows {
        rows := rows[g := rows[g].(status := status)];
      }
    }

    method CreateDelta(forceNew: bool, made: bool, stored: bool) returns (created: Option<GenId>)
      modifies `rows, `routing, `dirs, `clock
      ensures State() == CreateDeltaSpec(old(State()), forceNew, made, stored)
      ensures created.Some? ==> created == routing.delta && created.value in dirs
      ensures created.Some? <==> (DeltaUsable(WithLegacy(old(State()))) && !forceNew) || (made && stored)
    {
      var before := rows;
      EnsureLegacyGeneration();
      if DeltaUsable(State()) && !forceNew {
        return routing.delta;
      }
      if !made {
        rows, clock := before, if LegacyGen in before then clock else clock - 1;
        return None;
      }
      var g := Made(DeltaRole, clock);
      dirs := dirs + {g};
      clock := clock + 1;
      if !stored {
        rows := before;
        return None;
      }
      rows := rows[g := GenRow(DeltaRole, Healthy, None, clock - 1)];
      routing := Routing(routing.base, Some(g), routing.epoch + 1);
      return Some(g);
    }

    method EnsureDelta(made: bool, stored: bool) returns (delta: Option<GenId>)
      modifies `rows, `routing, `dirs, `clock
      ensures State() == EnsureDeltaSpec(old(State()), made, stored)
      ensures delta.Some? ==> delta == routing.delta
      ensures delta.Some? <==> DeltaUsable(old(State())) || (made && stored)
    {
      if DeltaUsable(State()) {
        return routing.delta;
      }
      delta := CreateDelta(true, made, stored);
    }

    method CreateBuildingBase(session: Option<string>, made: bool, stored: bool) returns (created: Option<GenId>)
      modifies `rows, `dirs, `clock
      ensures State() == CreateBuildingSpec(old(State()), session, made, stored)
      ensures created.Some? ==> created.value in rows && rows[created.value].status == Building && created.value in dirs
      ensures created.Some? <==> made && stored
      ensures created.Some? ==> created == Some(Made(BaseRole, WithLegacy(old(State())).clock))
    {
      var before := rows;
      EnsureLegacyGeneration();
      if !made {
        rows, clock := before, if LegacyGen in before then clock else clock - 1;
        return None;
      }
      var g := Made(BaseRole, clock);
      dirs := dirs + {g};
      clock := clock + 1;
      if !stored {
        rows := before;
        return None;
      }
      rows := rows[g := GenRow(BaseRole, Building, session, clock - 1)];
      return Some(g);
    }

    /** One transaction: all of it, or, when it fails, only the legacy row's registration. */
    method ActivateBase(base: GenId, delta: GenId, stored: bool) returns (ok: bool)
      modifies `rows, `routing, `clock
      ensures ok == stored
      ensures State() == if stored then ActivateSpec(old(State()), base, delta) else WithLegacy(old(State()))
    {
      EnsureLegacyGeneration();
      if !stored {
        return false;
      }
      var former := [Some(routing.base), routing.delta];
      SetGenerationStatus(base, Healthy, true);
      ghost var a := State();
      if former[0].value !in {base, delta} {
        SetGenerationStatus(former[0].value, Retired, true);
      }
      if former[1].Some? && former[1].value !in {base, delta} {
        SetGenerationStatus(former[1].value, Retired, true);
      }
      routing := Routing(base, Some(delta), routing.epoch + 1);
      return true;
    }

    method MarkActiveCorrupted(role: Role, stored: bool)
      modifies `rows
      ensures State() == if stored then MarkCorruptedSpec(old(State()), role) else old(State())
    {
      var target := if role.BaseRole? then Some(routing.base) else routing.delta;
      if target.Some? {
        SetGenerationStatus(target.value, Corrupted, stored);
      }
    }

    /** The newest of a set of registered generations. */
    method Newest(some: set<GenId>) returns (g: GenId)
      requires some != {} && some <= rows.Keys
      ensures g in some && forall h :: h in some ==> rows[h].created <= rows[g].created
    {
      g :| g in some;
      var rest := some - {g};
      while rest != {}
        invariant g in some && rest <= some
        invariant forall h :: h in some - rest ==> rows[h].created <= rows[g].created
        decreases rest
      {
        var h :| h in rest;
        if rows[h].created > rows[g].created {
          g := h;
        }
        rest := rest - {h};
      }
    }

    /** All retired generations, newest first. */
    method RetiredNewestFirst() returns (list: seq<GenId>)
      requires Timely(State())
      ensures Elements(list) == RetiredGens(State()) && NewestFirst(rows, list)
    {
      var rest := RetiredGens(State());
      list := [];
      while rest != {}
        invariant rest <= RetiredGens(State())
        invariant Elements(list) == RetiredGens(State()) - rest && NewestFirst(rows, list)
        invariant forall g, h :: g in list && h in rest ==> rows[h].created < rows[g].created
        decreases rest
      {
        var g := Newest(rest);
        forall h | h in rest - {g}
          ensures rows[h].created < rows[g].created
        {
          assert State().rows[h].created != State().rows[g].created;
        }
        assert g in State().rows;
        ElementsAppend(list, g);
        list := list + [g];
        rest := rest - {g};
      }
    }

    /** Removes retired generations one by one, directory first, then row. */
    method RemoveRetired(list: seq<GenId>, stuck: set<GenId>) returns (removed: seq<GenId>)
      requires Elements(list) <= RetiredGens(State())
      modifies `rows, `dirs
      ensures Elements(removed) == Elements(list) - stuck
      ensures rows == old(rows) - (Elements(list) - stuck)
      ensures dirs == old(dirs) - MadeAmong(Elements(list) - stuck)
    {
      removed := [];
      for i := 0 to |list|
        invariant Elements(removed) == Elements(list[..i]) - stuck
        invariant rows == old(rows) - (Elements(list[..i]) - stuck)
        invariant dirs == old(dirs) - MadeAmong(Elements(list[..i]) - stuck)
      {
        var g := list[i];
        assert list[..i + 1] == list[..i] + [g];
        ElementsAppend(list[..i], g);
        ElementsAppend(removed, g);
        var done := Elements(list[..i]) - stuck;
        assert g !in stuck ==> Elements(list[..i + 1]) - stuck == done + {g};
        assert g in stuck ==> Elements(list[..i + 1]) - stuck == done;
        assert MadeAmong(done + {g}) == MadeAmong(done) + (if g.Made? then {g} else {});
        assert g in Elements(list);
        if g !in stuck {
          if g.Made? {
            dirs := dirs - {g};
          }
          if IsRetired(State(), g) {
            rows := rows - {g};
          }
          removed := removed + [g];
        }
      }
      assert list[..|list|] == list;
    }

    /** Removes the retired generations beyond the `keep` newest. */
    method CleanupRetired(keep: int, stuck: set<GenId>) returns (removed: seq<GenId>)
      requires Timely(State())
      modifies `rows, `dirs
      ensures State() == CleanupSpec(old(State()), keep, stuck)
      ensures Elements(removed) == Surplus(old(State()), if keep < 1 then 1 else keep) - stuck
    {
      var least := if keep < 1 then 1 else keep;
      var list := RetiredNewestFirst();
      SurplusIsTail(State(), list, least);
      removed := RemoveRetired(if least <= |list| then list[least..] else [], stuck);
    }

    method SetTombstone(s: Source, ok: bool)
      modifies `tombstones
      ensures tombstones == if ok then old(tombstones) + {s} else old(tombstones)
    {
      if ok {
        tombstones := tombstones + {s};
      }
    }

    method ClearTombstone(s: Source, ok: bool)
      modifies `tombstones
      ensures tombstones == if ok then old(tombstones) - {s} else old(tombstones)
    {
      if ok {
        tombstones := tombstones - {s};
      }
    }
  }

  function Elements(list: seq<GenId>): set<GenId> {
    set g | g in list
  }

  predicate NewestFirst(rows: map<GenId, GenRow>, list: seq<GenId>) {
    && (forall g :: g in list ==> g in rows)
    && (forall i, j :: 0 <= i < j < |list| ==> rows[list[j]].created < rows[list[i]].created)
  }

  lemma ElementsAppend(list: seq<GenId>, g: GenId)
    ensures Elements(list + [g]) == Elements(list) + {g}
  {
  }

  lemma {:induction false} ElementsSize(rows: map<GenId, GenRow>, list: seq<GenId>)
    requires NewestFirst(rows, list)
    ensures |Elements(list)| == |list|
  {
    if list != [] {
      var init, last := list[..|list| - 1], list[|list| - 1];
      ElementsSize(rows, init);
      assert last !in init;
      assert Elements(list) == Elements(init) + {last};
    }
  }

  /** Of a newest-first list of the retired generations, the surplus is what follows the first `keep`. */
  lemma SurplusIsTail(r: RegistryState, list: seq<GenId>, keep: nat)
    requires Elements(list) == RetiredGens(r) && NewestFirst(r.rows, list)
    ensures Surplus(r, keep) == Elements(if keep <= |list| then list[keep..] else [])
  {
    forall i | 0 <= i < |list|
      ensures list[i] in r.rows && |NewerRetired(r, list[i])| == i
    {
      assert list[i] in Elements(list);
      assert NewerRetired(r, list[i]) == Elements(list[..i]) by {
        forall h
          ensures h in NewerRetired(r, list[i]) <==> h in Elements(list[..i])
        {
          if h in RetiredGens(r) {
            assert h in Elements(list);
          }
        }
      }
      ElementsSize(r.rows, list[..i]);
    }
    forall g
      ensures g in Surplus(r, keep) <==> g in Elements(if keep <= |list| then list[keep..] else [])
    {
      if g in RetiredGens(r) {
        assert g in Elements(list);
        var i :| 0 <= i < |list| && list[i] == g;
        if keep <= i {
          assert list[keep..][i - keep] == g;
        }
      }
    }
  }
}
