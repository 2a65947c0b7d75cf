/** Submission of index jobs around a rebuild: while its barrier is up ordinary requests are put
aside and replayed afterwards, and a job whose routing epoch has passed is not run on the old target. */
module Watcher {
  import opened Options
  import opened Storage
  import opened IndexRegistry

  datatype JobState = Queued | Retryable | Processing | Validating | Done | Failed

  /** What kind of failure an error code stands for. */
  datatype FailureClass = Unclassified | Business | Infrastructure | Transient

  /** A persisted job; there is one per source. `attempts` counts claims and is never reset; `retries`
  is the automatic-retry count since the job was last queued on request or done. */
  datatype JobRow = JobRow(state: JobState, force: bool, strategy: string, wiki: bool, session: Option<string>,
                           epoch: nat, target: Option<GenId>, attempts: nat, failure: FailureClass, retries: nat)

  /** Why finished jobs are queued again without a request: the sweeper's periodic retry, a health
  recheck that succeeds, or the loss of the delta they were written to. */
  datatype Cause = RetryDue | HealthBack | DeltaLost(generation: GenId)

  /** What is kept of the requests put aside for a source. */
  datatype Pending = Pending(force: bool, strategy: string, wiki: bool)

  /** An empty strategy means none was given. */
  datatype Request = Request(source: Source, force: bool, strategy: string, wiki: Option<bool>, session: Option<string>)

  /** `order` lists the keys of `deferred` as first put aside. `store` is the persisted job table,
  `cache` the states that the process itself remembers. */
  datatype WState = WState(session: Option<string>, deferred: map<Source, Pending>, order: seq<Source>,
                           store: map<Source, JobRow>, cache: map<Source, JobState>,
                           overrides: map<Source, string>, registry: RegistryState)

  /** Where the calls of a submission raise: when it records a strategy, or when it looks the routing up or queues the job. */
  datatype Hitch = Smooth | StrategyFails | QueueFails

  /** What a replay meets: the files that still exist, the sources whose gates are open, and where submissions raise. */
  datatype Outlook = Outlook(files: set<Source>, open: set<Source>, hitches: map<Source, Hitch>)

  datatype Decision = NoJob | Proceed | Requeued | TooOften

  const MAX_ROUTING_RETRIES: nat := 3
  const MAX_AUTO_RETRIES: nat := 4

  // ----- Requests

  predicate Running(state: JobState) {
    state.Queued? || state.Processing? || state.Validating?
  }

  predicate Busy(store: map<Source, JobRow>, s: Source) {
    s in store && Running(store[s].state)
  }

  function Attempts(store: map<Source, JobRow>, s: Source): nat {
    if s in store then store[s].attempts else 0
  }

  function Override(st: WState, s: Source): string {
    if s in st.overrides then st.overrides[s] else ""
  }

  function OrElse(strategy: string, other: string): string {
    if strategy != "" then strategy else other
  }

  /** The table after a job that is not busy is queued under the current routing. */
  function Enqueued(st: WState, s: Source, force: bool, strategy: string, wiki: bool, session: Option<string>): map<Source, JobRow> {
    st.store[s := JobRow(Queued, force, strategy, wiki, session, st.registry.routing.epoch, st.registry.routing.delta,
                         Attempts(st.store, s), Unclassified, 0)]
  }

  /** An omitted wiki flag is false before anything is put aside, so the last request always decides it. */
  function Merged(prior: Option<Pending>, r: Request): Pending {
    Pending((prior.Some? && prior.value.force) || r.force,
            OrElse(r.strategy, if prior.Some? then prior.value.strategy else ""), r.wiki == Some(true))
  }

  function Kept(st: WState, s: Source): Option<Pending> {
    if s in st.deferred then Some(st.deferred[s]) else None
  }

  function Deferred(st: WState, r: Request): WState {
    st.(deferred := st.deferred[r.source := Merged(Kept(st, r.source), r)],
        order := if r.source in st.deferred then st.order else st.order + [r.source])
  }

  predicate Fenced(st: WState, session: Option<string>) {
    st.session.Some? && session != st.session
  }

  /** `open` is false when the path belongs to another pipeline, the pool is stopping or the index is unhealthy. */
  function Submitted(st: WState, r: Request, open: bool): WState {
    if !open then st
    else
      var o := if r.strategy != "" then st.(overrides := st.overrides[r.source := r.strategy]) else st;
      if Fenced(o, r.session) then Deferred(o, r)
      else if Busy(o.store, r.source) then o
      else o.(store := Enqueued(o, r.source, r.force, OrElse(r.strategy, Override(o, r.source)), r.wiki == Some(true), r.session),
              cache := o.cache[r.source := Queued])
  }

  predicate Accepted(st: WState, r: Request, open: bool) {
    open && (Fenced(st, r.session) || !Busy(st.store, r.source))
  }

  /** A submission that is put aside neither looks the routing up nor queues anything. */
  predicate Raises(st: WState, r: Request, open: bool, h: Hitch) {
    open && ((h.StrategyFails? && r.strategy != "") || (h.QueueFails? && !Fenced(st, r.session)))
  }

  /** A submission that raises leaves at most the strategy behind. */
  function Tried(st: WState, r: Request, open: bool, h: Hitch): WState {
    if !Raises(st, r, open, h) then Submitted(st, r, open)
    else if h.StrategyFails? || r.strategy == "" then st
    else st.(overrides := st.overrides[r.source := r.strategy])
  }

  // ----- The barrier

  function Active(st: WState): set<Source> {
    set s | s in st.cache && Running(st.cache[s])
  }

  function Begun(st: WState, session: string): WState {
    if st.session.Some? then st else st.(session := Some(session))
  }

  function ReplayOf(s: Source, p: Pending): Request {
    Request(s, p.force, p.strategy, Some(p.wiki), None)
  }

  function HitchOf(o: Outlook, s: Source): Hitch {
    if s in o.hitches then o.hitches[s] else Smooth
  }

  predicate ReplayRaises(deferred: map<Source, Pending>, o: Outlook, s: Source) {
    s in deferred && s in o.files && s in o.open &&
    (HitchOf(o, s).QueueFails? || (HitchOf(o, s).StrategyFails? && deferred[s].strategy != ""))
  }

  /** The replay of one of the listed sources raises, which ends the whole replay. */
  predicate Stopped(deferred: map<Source, Pending>, order: seq<Source>, o: Outlook) {
    exists i :: 0 <= i < |order| && ReplayRaises(deferred, o, order[i])
  }

  /** No source up to and including s raises. */
  predicate Reached(deferred: map<Source, Pending>, order: seq<Source>, o: Outlook, s: Source) {
    forall i, j :: 0 <= i <= j < |order| && order[j] == s ==> !ReplayRaises(deferred, o, order[i])
  }

  /** Replays, in order, those of the listed sources whose file still exists, until one raises. */
  function Replayed(st: WState, deferred: map<Source, Pending>, order: seq<Source>, o: Outlook): WState {
    if order == [] then st
    else
      var before, s := Replayed(st, deferred, order[..|order| - 1], o), order[|order| - 1];
      if !Stopped(deferred, order[..|order| - 1], o) && s in deferred && s in o.files
      then Tried(before, ReplayOf(s, deferred[s]), s in o.open, HitchOf(o, s)) else before
  }

  function Lowered(st: WState): WState {
    st.(session := None, deferred := map[], order := [])
  }

  function Finished(st: WState, session: string, o: Outlook): WState {
    if st.session != Some(session) then st
    else Replayed(Lowered(st), st.deferred, st.order, o)
  }

  // ----- The worker

  predicate Claimable(store: map<Source, JobRow>, s: Source) {
    s in store && (store[s].state.Queued? || store[s].state.Retryable?)
  }

  /** A worker without a claimable job queues one itself, unless the source is busy. */
  function SelfQueued(st: WState, s: Source, strategy: string, wiki: bool): WState {
    if Claimable(st.store, s) || Busy(st.store, s) then st
    else st.(store := Enqueued(st, s, true, strategy, wiki, None))
  }

  function DecisionOn(st: WState, s: Source): Decision {
    if !Claimable(st.store, s) then NoJob
    else if st.store[s].epoch == st.registry.routing.epoch then Proceed
    else if st.store[s].attempts + 1 >= MAX_ROUTING_RETRIES then TooOften
    else Requeued
  }

  function TakenRow(row: JobRow): JobRow {
    row.(state := Processing, attempts := row.attempts + 1)
  }

  /** Given up because the routing kept changing, which counts as a write failure. */
  function RoutingFailed(row: JobRow): JobRow {
    row.(state := Failed, failure := Infrastructure)
  }

  /** Claiming the job of s: a passed epoch means it is queued again for the new target or, once it
  has been claimed too often, fails. The process's own cache is not told of either. */
  function Claimed(st: WState, s: Source, strategy: string): WState {
    if !Claimable(st.store, s) then st
    else
      var row := TakenRow(st.store[s]);
      var taken := st.(store := st.store[s := row]);
      match DecisionOn(st, s)
      case Proceed => taken
      case TooOften => st.(store := st.store[s := RoutingFailed(row)])
      case _ => taken.(store := Enqueued(taken, s, row.force, OrElse(row.strategy, strategy), row.wiki, row.session))
  }

  function ClaimStep(st: WState, s: Source, strategy: string, wiki: bool): WState {
    Claimed(SelfQueued(st, s, strategy, wiki), s, strategy)
  }

  function Counted(retries: nat): nat {
    if retries < MAX_AUTO_RETRIES then retries + 1 else retries
  }

  function Finishing(row: JobRow, state: JobState, failure: FailureClass): JobRow {
    row.(state := state, failure := if state.Failed? then failure else Unclassified,
         retries := if state.Done? then 0 else if state.Failed? && failure.Transient? then Counted(row.retries) else row.retries)
  }

  /** The row after a progress report. A transient failure is recorded, and counted, twice. */
  function ReportedRow(row: JobRow, state: JobState, failure: FailureClass): JobRow {
    if state.Failed? && failure.Transient? then Finishing(Finishing(row, state, failure), state, failure)
    else Finishing(row, state, failure)
  }

  /** A running job records its progress; `Processing` is remembered in the cache only. */
  function Worked(st: WState, s: Source, state: JobState, failure: FailureClass): WState {
    st.(cache := st.cache[s := state],
        store := if s in st.store && !state.Processing? then st.store[s := ReportedRow(st.store[s], state, failure)] else st.store)
  }

  // ----- Finished jobs queued again without a request

  predicate Revivable(row: JobRow, cause: Cause) {
    match cause
    case RetryDue => row.state.Failed? && row.failure.Transient? && row.retries < MAX_AUTO_RETRIES
    case HealthBack => row.state.Failed? && row.failure.Infrastructure?
    case DeltaLost(g) => row.state.Done? && row.target == Some(g)
  }

  /** None of them looks at the barrier, each keeps the session of the job, and only the recheck tells the cache. */
  function Revived(st: WState, s: Source, cause: Cause): WState {
    if s !in st.store || !Revivable(st.store[s], cause) then st
    else st.(store := st.store[s := st.store[s].(state := Queued)],
             cache := if cause.HealthBack? then st.cache[s := Queued] else st.cache)
  }

  /** The limit of four automatic retries allows one: after a job's second transient failure in a row the
  sweeper leaves it alone, whatever other progress it reported in between. */
  lemma TransientRetriedOnce(row: JobRow, between: JobState)
    requires row.retries == 0 && !between.Done?
    ensures var once := ReportedRow(row, Failed, Transient);
      var twice := ReportedRow(Finishing(once.(state := Queued), between, Unclassified), Failed, Transient);
      Revivable(once, RetryDue) && !Revivable(twice, RetryDue)
  {
  }

  function RevivedAll(st: WState, due: seq<Source>, cause: Cause): WState {
    if due == [] then st else Revived(RevivedAll(st, due[..|due| - 1], cause), due[|due| - 1], cause)
  }

  /** A job already revived is not revived again, any other one is as it was. */
  lemma {:induction false} RevivedRow(st: WState, due: seq<Source>, cause: Cause, s: Source)
    ensures var e := RevivedAll(st, due, cause);
      && (s in e.store <==> s in st.store)
      && (s in st.store && Revivable(st.store[s], cause) && s !in due ==> e.store[s] == st.store[s])
      && (s in st.store && Revivable(st.store[s], cause) && s in due ==> e.store[s] == st.store[s].(state := Queued))
      && (s in st.store && !Revivable(st.store[s], cause) ==> e.store[s] == st.store[s])
  {
    if due != [] {
      var n := |due| - 1;
      assert due == due[..n] + [due[n]];
      RevivedRow(st, due[..n], cause, s);
    }
  }

  /** The state of a source's job as anyone who asks is told. */
  function JobOf(st: WState, s: Source): Option<JobState> {
    if s in st.store then Some(st.store[s].state) else if s in st.cache then Some(st.cache[s]) else None
  }

  /** Only a worker's own report makes a job done. */
  lemma SubmitMakesNoneDone(st: WState, r: Request, open: bool, h: Hitch, s: Source)
    requires JobOf(Tried(st, r, open, h), s) == Some(Done)
    ensures JobOf(st, s) == Some(Done)
  {
  }

  /** A request of the session that is accepted is queued for it, and touches no other job. */
  lemma AcceptedIsQueued(st: WState, r: Request, open: bool)
    ensures Accepted(st, r, open) && r.session == st.session && r.session.Some? ==>
      r.source in Submitted(st, r, open).store && Submitted(st, r, open).store[r.source].session == r.session &&
      Submitted(st, r, open).store[r.source].state.Queued?
    ensures forall s :: s != r.source && s in st.store ==> s in Submitted(st, r, open).store && Submitted(st, r, open).store[s] == st.store[s]
    ensures Submitted(st, r, open).session == st.session
  {
  }

  lemma ClaimMakesNoneDone(st: WState, src: Source, strategy: string, wiki: bool, s: Source)
    requires JobOf(ClaimStep(st, src, strategy, wiki), s) == Some(Done)
    ensures JobOf(st, s) == Some(Done)
  {
    var q := SelfQueued(st, src, strategy, wiki);
    if Claimable(q.store, src) {
      ClaimedRow(q, src, strategy);
    }
  }

  lemma {:induction false} RevivalMakesNoneDone(st: WState, due: seq<Source>, cause: Cause, s: Source)
    requires JobOf(RevivedAll(st, due, cause), s) == Some(Done)
    ensures JobOf(st, s) == Some(Done)
  {
    if due != [] {
      RevivalMakesNoneDone(st, due[..|due| - 1], cause, s);
    }
  }

  // ----- Runs

  datatype Step =
    | Submit(r: Request, open: bool, hitch: Hitch)
    | Begin(session: string)
    | Finish(session: string, outlook: Outlook)
    | Claim(source: Source, strategy: string, wiki: bool)
    | Work(worked: Source, state: JobState, failure: FailureClass)
    | Revive(revived: Source, cause: Cause)
    | Reroute(step: RegStep)

  function Apply(st: WState, step: Step): WState {
    match step
    case Submit(r, open, h) => Tried(st, r, open, h)
    case Begin(session) => Begun(st, session)
    case Finish(session, o) => Finished(st, session, o)
    case Claim(s, strategy, wiki) => ClaimStep(st, s, strategy, wiki)
    case Work(s, state, failure) => Worked(st, s, state, failure)
    case Revive(s, cause) => Revived(st, s, cause)
    case Reroute(r) => st.(registry := ApplyReg(st.registry, r))
  }

  function Run(st: WState, steps: seq<Step>): WState {
    if steps == [] then st else Apply(Run(st, steps[..|steps| - 1]), steps[|steps| - 1])
  }

  // ----- Requests put aside

  predicate Finishes(step: Step, s: string) {
    step.Finish? && step.session == s
  }

  predicate Deferring(step: Step, s: string, src: Source) {
    step.Submit? && step.open && step.r.source == src && step.r.session != Some(s) &&
    !(step.hitch.StrategyFails? && step.r.strategy != "")
  }

  /** The accepted requests for a source that a run makes outside of session s, in order. */
  function Requests(steps: seq<Step>, s: string, src: Source): seq<Request> {
    if steps == [] then []
    else
      var before, last := Requests(steps[..|steps| - 1], s, src), steps[|steps| - 1];
      if Deferring(last, s, src) then before + [last.r] else before
  }

  predicate AnyForce(reqs: seq<Request>) {
    exists i :: 0 <= i < |reqs| && reqs[i].force
  }

  predicate NoStrategyFrom(reqs: seq<Request>, k: nat) {
    forall i :: k <= i < |reqs| ==> reqs[i].strategy == ""
  }

  /** The strategy is the last one given, or none if none was given. */
  predicate IsLastStrategy(strategy: string, reqs: seq<Request>) {
    if strategy == "" then NoStrategyFrom(reqs, 0)
    else exists i :: 0 <= i < |reqs| && reqs[i].strategy == strategy && NoStrategyFrom(reqs, i + 1)
  }

  predicate Summarises(p: Pending, reqs: seq<Request>)
    requires reqs != []
  {
    && p.force == AnyForce(reqs) && IsLastStrategy(p.strategy, reqs)
    && p.wiki == (reqs[|reqs| - 1].wiki == Some(true))
  }

  lemma FirstSummary(r: Request)
    ensures Summarises(Merged(None, r), [r])
  {
    assert [r][0].force == r.force && [r][0].strategy == r.strategy;
    assert NoStrategyFrom([r], 1);
  }

  lemma NextSummary(p: Pending, reqs: seq<Request>, r: Request)
    requires reqs != [] && Summarises(p, reqs)
    ensures Summarises(Merged(Some(p), r), reqs + [r])
  {
    var all := reqs + [r];
    var n := |reqs|;
    assert all[n] == r;
    assert AnyForce(all) <==> AnyForce(reqs) || r.force by {
      if AnyForce(reqs) {
        var i :| 0 <= i < n && reqs[i].force;
        assert all[i].force;
      }
    }
    if r.strategy != "" {
      assert NoStrategyFrom(all, n + 1);
    } else if p.strategy != "" {
      var i :| 0 <= i < n && reqs[i].strategy == p.strategy && NoStrategyFrom(reqs, i + 1);
      assert all[i].strategy == p.strategy && NoStrategyFrom(all, i + 1);
    }
  }

  lemma StepDefers(st: WState, step: Step, s: string, src: Source)
    requires st.session == Some(s) && !Finishes(step, s)
    ensures Apply(st, step).session == Some(s)
    ensures Kept(Apply(st, step), src) == if Deferring(step, s, src) then Some(Merged(Kept(st, src), step.r)) else Kept(st, src)
  {
    match step {
      case Submit(r, open, h) => SubmitDefers(st, r, open, s, src);
      case Claim(t, strategy, wiki) =>
        assert SelfQueued(st, t, strategy, wiki).deferred == st.deferred;
        assert Apply(st, step).deferred == st.deferred && Apply(st, step).session == st.session;
      case _ =>
    }
  }

  lemma SubmitDefers(st: WState, r: Request, open: bool, s: string, src: Source)
    requires st.session == Some(s)
    ensures Submitted(st, r, open).session == Some(s)
    ensures Kept(Submitted(st, r, open), src) ==
      if open && r.source == src && r.session != Some(s) then Some(Merged(Kept(st, src), r)) else Kept(st, src)
  {
  }

  /** For any sequence of requests and other steps while session s is up: every accepted request from
  outside the session is kept; the force flag is the OR of all of them, the strategy the last one
  given, and the wiki flag that of the last request, an omitted one counting as false. */
  lemma {:induction false} DeferredIsSummary(st: WState, steps: seq<Step>, s: string, src: Source)
    requires st.session == Some(s) && src !in st.deferred
    requires forall i :: 0 <= i < |steps| ==> !Finishes(steps[i], s)
    ensures var e, reqs := Run(st, steps), Requests(steps, s, src);
      && e.session == Some(s) && (src in e.deferred <==> reqs != [])
      && (reqs != [] ==> Summarises(e.deferred[src], reqs))
  {
    if steps != [] {
      var n := |steps| - 1;
      DeferredIsSummary(st, steps[..n], s, src);
      var before, reqs, last := Run(st, steps[..n]), Requests(steps[..n], s, src), steps[n];
      StepDefers(before, last, s, src);
      if Deferring(last, s, src) {
        if reqs == [] {
          FirstSummary(last.r);
          assert [] + [last.r] == [last.r];
        } else {
          NextSummary(before.deferred[src], reqs, last.r);
        }
      }
    }
  }

  // ----- The replay

  /** Exactly the sources put aside are listed, each once. */
  ghost predicate Ordered(st: WState) {
    && (forall s :: s in st.deferred <==> s in st.order)
    && (forall i, j :: 0 <= i < j < |st.order| ==> st.order[i] != st.order[j])
  }

  lemma ReplayedSame(st: WState, deferred: map<Source, Pending>, order: seq<Source>, o: Outlook, src: Source)
    requires st.session.None? && src !in order
    ensures var e := Replayed(st, deferred, order, o);
      && e.session.None? && e.deferred == st.deferred && e.order == st.order && e.registry == st.registry
      && (src in e.store <==> src in st.store) && (src in st.store ==> e.store[src] == st.store[src])
      && Override(e, src) == Override(st, src)
  {
    if order != [] {
      ReplayedSame(st, deferred, order[..|order| - 1], o, src);
    }
  }

  lemma StoppedNext(deferred: map<Source, Pending>, order: seq<Source>, n: nat, o: Outlook)
    requires n < |order|
    ensures order[..n + 1][..n] == order[..n] && order[..n + 1][n] == order[n]
    ensures Stopped(deferred, order[..n + 1], o) <==> Stopped(deferred, order[..n], o) || ReplayRaises(deferred, o, order[n])
  {
    if Stopped(deferred, order[..n], o) {
      var i :| 0 <= i < n && ReplayRaises(deferred, o, order[..n][i]);
      assert order[..n + 1][i] == order[i];
    }
    assert order[..n + 1][n] == order[n];
  }

  /** Nothing behind a submission that raises is replayed. */
  lemma {:induction false} StoppedForGood(st: WState, deferred: map<Source, Pending>, order: seq<Source>, n: nat, o: Outlook)
    requires n <= |order| && Stopped(deferred, order[..n], o)
    ensures Stopped(deferred, order, o) && Replayed(st, deferred, order, o) == Replayed(st, deferred, order[..n], o)
    decreases |order|
  {
    var i :| 0 <= i < n && ReplayRaises(deferred, o, order[..n][i]);
    assert order[i] == order[..n][i];
    if n < |order| {
      var m := |order| - 1;
      assert order[..m][..n] == order[..n];
      StoppedForGood(st, deferred, order[..m], n, o);
    } else {
      assert order[..n] == order;
    }
  }

  /** The row that a replayed source gets. */
  function ReplayRow(st: WState, s: Source, p: Pending): JobRow {
    JobRow(Queued, p.force, OrElse(p.strategy, Override(st, s)), p.wiki, None, st.registry.routing.epoch,
           st.registry.routing.delta, Attempts(st.store, s), Unclassified, 0)
  }

  /** From st to e the source got the row of its replay, or kept its own. */
  predicate ReplayedAs(st: WState, e: WState, src: Source, p: Pending, queued: bool) {
    if queued then src in e.store && e.store[src] == ReplayRow(st, src, p)
    else (src in e.store <==> src in st.store) && (src in st.store ==> e.store[src] == st.store[src])
  }

  /** Submissions without a barrier leave these alone. */
  predicate SameRequests(st: WState, e: WState) {
    e.session.None? && e.deferred == st.deferred && e.order == st.order && e.registry == st.registry
  }

  lemma TriedOther(st: WState, r: Request, open: bool, h: Hitch, src: Source)
    requires st.session.None? && src != r.source
    ensures var e := Tried(st, r, open, h);
      && SameRequests(st, e) && (src in e.store <==> src in st.store) && (src in st.store ==> e.store[src] == st.store[src])
  {
  }

  lemma TriedOwn(st: WState, src: Source, p: Pending, open: bool, h: Hitch)
    requires st.session.None?
    ensures var e := Tried(st, ReplayOf(src, p), open, h);
      SameRequests(st, e) && ReplayedAs(st, e, src, p, open && !Busy(st.store, src) && !Raises(st, ReplayOf(src, p), open, h))
  {
  }

  lemma ReachedLast(deferred: map<Source, Pending>, order: seq<Source>, o: Outlook)
    requires order != [] && forall i, j :: 0 <= i < j < |order| ==> order[i] != order[j]
    ensures Reached(deferred, order, o, order[|order| - 1]) <==>
      !Stopped(deferred, order[..|order| - 1], o) && !ReplayRaises(deferred, o, order[|order| - 1])
  {
    var n := |order| - 1;
    assert forall i :: 0 <= i < n ==> order[..n][i] == order[i];
    if Reached(deferred, order, o, order[n]) {
      assert forall i :: 0 <= i < n ==> !ReplayRaises(deferred, o, order[i]);
    }
  }

  lemma ReachedBefore(deferred: map<Source, Pending>, order: seq<Source>, o: Outlook, src: Source)
    requires order != [] && order[|order| - 1] != src
    ensures src in order <==> src in order[..|order| - 1]
    ensures Reached(deferred, order, o, src) <==> Reached(deferred, order[..|order| - 1], o, src)
  {
    var n := |order| - 1;
    assert order == order[..n] + [order[n]];
    assert forall i :: 0 <= i < n ==> order[..n][i] == order[i];
  }

  lemma {:induction false} ReplayedOne(st: WState, deferred: map<Source, Pending>, order: seq<Source>, o: Outlook, src: Source)
    requires st.session.None? && src in order && src in deferred
    requires forall i, j :: 0 <= i < j < |order| ==> order[i] != order[j]
    ensures var e := Replayed(st, deferred, order, o);
      && SameRequests(st, e)
      && ReplayedAs(st, e, src, deferred[src], src in o.files && src in o.open && !Busy(st.store, src) && Reached(deferred, order, o, src))
  {
    var n := |order| - 1;
    var before := Replayed(st, deferred, order[..n], o);
    if order[n] == src {
      ReplayedSame(st, deferred, order[..n], o, src);
      ReachedLast(deferred, order, o);
      TriedOwn(before, src, deferred[src], src in o.open, HitchOf(o, src));
    } else {
      ReachedBefore(deferred, order, o, src);
      ReplayedOne(st, deferred, order[..n], o, src);
      if order[n] in deferred {
        TriedOther(before, ReplayOf(order[n], deferred[order[n]]), order[n] in o.open, HitchOf(o, order[n]), src);
      }
    }
  }

  /** Finishing session s lowers the barrier, forgets what was put aside and queues it: a source that
  was put aside is queued, with exactly what was kept of its requests, if and only if its file still
  exists, the gates are open, no job of it is running, and no submission up to and including its own
  raises; otherwise its row stays as it was, and as nothing is put aside any more the request is lost. */
  lemma FinishReplays(st: WState, s: string, o: Outlook, src: Source)
    requires st.session == Some(s) && Ordered(st) && src in st.deferred
    ensures var e := Finished(st, s, o);
      && e.session.None? && e.deferred == map[] && e.order == []
      && ReplayedAs(st, e, src, st.deferred[src],
                    src in o.files && src in o.open && !Busy(st.store, src) && Reached(st.deferred, st.order, o, src))
  {
    ReplayedOne(Lowered(st), st.deferred, st.order, o, src);
  }

  lemma {:induction false} RunKeepsOrdered(st: WState, steps: seq<Step>)
    requires Ordered(st)
    ensures Ordered(Run(st, steps))
  {
    if steps != [] {
      var n := |steps| - 1;
      RunKeepsOrdered(st, steps[..n]);
      StepKeepsOrdered(Run(st, steps[..n]), steps[n]);
    }
  }

  lemma StepKeepsOrdered(st: WState, step: Step)
    requires Ordered(st)
    ensures Ordered(Apply(st, step))
  {
    match step {
      case Finish(session, o) =>
        if st.session == Some(session) {
          ReplayedKeepsDeferred(Lowered(st), st.deferred, st.order, o);
        }
      case Submit(r, open, h) => SubmitKeepsOrdered(st, r, open);
      case Claim(s, strategy, wiki) => assert Apply(st, step).deferred == st.deferred && Apply(st, step).order == st.order;
      case _ =>
    }
  }

  lemma SubmitKeepsOrdered(st: WState, r: Request, open: bool)
    requires Ordered(st)
    ensures Ordered(Submitted(st, r, open))
  {
    if open && Fenced(st, r.session) {
      DeferredOrdered(st, r);
    }
  }

  lemma DeferredOrdered(st: WState, r: Request)
    requires Ordered(st)
    ensures Ordered(Deferred(st, r))
  {
    assert forall s :: s in st.order + [r.source] <==> s in st.order || s == r.source;
  }

  lemma {:induction false} ReplayedKeepsDeferred(st: WState, deferred: map<Source, Pending>, order: seq<Source>, o: Outlook)
    requires st.session.None?
    ensures var e := Replayed(st, deferred, order, o); e.session.None? && e.deferred == st.deferred && e.order == st.order
  {
    if order != [] {
      ReplayedKeepsDeferred(st, deferred, order[..|order| - 1], o);
    }
  }

  /** A whole rebuild: barrier up, any steps, barrier down. A source requested from outside the session
  ends with one queued job that sums up all those requests if and only if its file exists, the gates
  are open, no job of it is still running and no submission up to its own raises. */
  lemma RebuildReplays(st: WState, s: string, steps: seq<Step>, o: Outlook, src: Source)
    requires st.session.None? && st.deferred == map[] && st.order == []
    requires forall i :: 0 <= i < |steps| ==> !Finishes(steps[i], s)
    requires Requests(steps, s, src) != []
    ensures var mid := Run(Begun(st, s), steps); var e := Finished(mid, s, o);
      && src in mid.deferred && Summarises(mid.deferred[src], Requests(steps, s, src))
      && e.session.None? && e.deferred == map[]
      && ReplayedAs(mid, e, src, mid.deferred[src],
                    src in o.files && src in o.open && !Busy(mid.store, src) && Reached(mid.deferred, mid.order, o, src))
  {
    var up := Begun(st, s);
    DeferredIsSummary(up, steps, s, src);
    RunKeepsOrdered(up, steps);
    FinishReplays(Run(up, steps), s, o, src);
  }

  // ----- The fence

  predicate Unfinished(state: JobState) {
    Running(state) || state.Retryable?
  }

  /** Every job that is not finished belongs to session s. */
  ghost predicate AllOf(st: WState, s: string) {
    forall src :: src in st.store && Unfinished(st.store[src].state) ==> st.store[src].session == Some(s)
  }

  /** Workers run for queued jobs only, and report progress of running jobs only. */
  predicate SoundStep(st: WState, step: Step) {
    match step
    case Claim(src, _, _) => Claimable(st.store, src)
    case Work(src, state, _) =>
      src in st.store && (st.store[src].state.Processing? || st.store[src].state.Validating?) && !state.Queued? && !state.Retryable?
    case _ => true
  }

  ghost predicate SoundRun(st: WState, steps: seq<Step>) {
    steps == [] || (SoundRun(st, steps[..|steps| - 1]) && SoundStep(Run(st, steps[..|steps| - 1]), steps[|steps| - 1]))
  }

  /** A revival in this state would queue a job from outside session s. */
  predicate Pierces(st: WState, step: Step, s: string) {
    step.Revive? && step.revived in st.store && Revivable(st.store[step.revived], step.cause) &&
    st.store[step.revived].session != Some(s)
  }

  ghost predicate NonePierces(st: WState, steps: seq<Step>, s: string) {
    steps == [] || (NonePierces(st, steps[..|steps| - 1], s) && !Pierces(Run(st, steps[..|steps| - 1]), steps[|steps| - 1], s))
  }

  predicate NeverFinishes(steps: seq<Step>, s: string) {
    forall i :: 0 <= i < |steps| ==> !Finishes(steps[i], s)
  }

  /** Only jobs of session s are unfinished, at every moment of the run. */
  ghost predicate AllOfThroughout(st: WState, steps: seq<Step>, s: string) {
    AllOf(Run(st, steps), s) && (steps == [] || AllOfThroughout(st, steps[..|steps| - 1], s))
  }

  /** While session s is up, over a run of submissions, workers, revivals and routing changes, only jobs
  of the session are queued or running, if that held when the barrier went up and, exactly, if no
  revival of another session's job happens. */
  lemma {:induction false} FenceHoldsIff(st: WState, steps: seq<Step>, s: string)
    requires st.session == Some(s) && AllOf(st, s) && SoundRun(st, steps) && NeverFinishes(steps, s)
    ensures Run(st, steps).session == Some(s)
    ensures AllOfThroughout(st, steps, s) <==> NonePierces(st, steps, s)
  {
    if steps != [] {
      var n := |steps| - 1;
      FenceHoldsIff(st, steps[..n], s);
      SessionStays(Run(st, steps[..n]), steps[n], s);
      if AllOf(Run(st, steps[..n]), s) {
        StepKeepsFenceIff(Run(st, steps[..n]), steps[n], s);
      }
      if NonePierces(st, steps[..n], s) {
        ThroughoutAtEnd(st, steps[..n], s);
      }
    }
  }

  lemma ThroughoutAtEnd(st: WState, steps: seq<Step>, s: string)
    requires AllOfThroughout(st, steps, s)
    ensures AllOf(Run(st, steps), s)
  {
  }

  lemma SessionStays(st: WState, step: Step, s: string)
    requires st.session == Some(s) && !Finishes(step, s)
    ensures Apply(st, step).session == Some(s)
  {
    match step {
      case Submit(r, open, h) => SubmitDefers(st, r, open, s, r.source);
      case Claim(t, strategy, wiki) =>
        assert SelfQueued(st, t, strategy, wiki).session == st.session;
      case _ =>
    }
  }

  /** One step keeps the fence if and only if it is not a revival of another session's job. */
  lemma StepKeepsFenceIff(st: WState, step: Step, s: string)
    requires st.session == Some(s) && AllOf(st, s) && SoundStep(st, step) && !Finishes(step, s)
    ensures AllOf(Apply(st, step), s) <==> !Pierces(st, step, s)
  {
    match step {
      case Claim(src, strategy, wiki) => ClaimedRow(st, src, strategy);
      case Submit(r, open, h) => SubmitKeepsFence(st, r, open, s);
      case Revive(src, cause) => ReviveKeepsFenceIff(st, s, src, cause);
      case _ =>
    }
  }

  /** A revival keeps the fence if and only if the job revived, if any, belongs to the session. */
  lemma ReviveKeepsFenceIff(st: WState, s: string, src: Source, cause: Cause)
    requires AllOf(st, s)
    ensures AllOf(Revived(st, src, cause), s) <==>
      src !in st.store || !Revivable(st.store[src], cause) || st.store[src].session == Some(s)
  {
    if src in st.store && Revivable(st.store[src], cause) {
      assert Unfinished(Revived(st, src, cause).store[src].state);
    }
  }

  /** Some cause could queue this row again. */
  predicate CanRevive(row: JobRow) {
    Revivable(row, RetryDue) || Revivable(row, HealthBack) || (row.state.Done? && row.target.Some?)
  }

  /** Every job that is unfinished, or can become so by a revival, belongs to session s. */
  ghost predicate Sealed(st: WState, s: string) {
    forall src :: src in st.store && (Unfinished(st.store[src].state) || CanRevive(st.store[src])) ==> st.store[src].session == Some(s)
  }

  lemma {:induction false} SealedHolds(st: WState, steps: seq<Step>, s: string)
    requires st.session == Some(s) && Sealed(st, s) && SoundRun(st, steps) && NeverFinishes(steps, s)
    ensures Run(st, steps).session == Some(s) && Sealed(Run(st, steps), s)
  {
    if steps != [] {
      var n := |steps| - 1;
      SealedHolds(st, steps[..n], s);
      SessionStays(Run(st, steps[..n]), steps[n], s);
      StepKeepsSealed(Run(st, steps[..n]), steps[n], s);
    }
  }

  lemma StepKeepsSealed(st: WState, step: Step, s: string)
    requires st.session == Some(s) && Sealed(st, s) && SoundStep(st, step) && !Finishes(step, s)
    ensures Sealed(Apply(st, step), s)
  {
    match step {
      case Claim(src, strategy, wiki) => ClaimedRow(st, src, strategy);
      case Submit(r, open, h) => SubmitKeepsSealed(st, r, open, s);
      case _ =>
    }
  }

  lemma SubmitKeepsSealed(st: WState, r: Request, open: bool, s: string)
    requires st.session == Some(s) && Sealed(st, s)
    ensures Sealed(Submitted(st, r, open), s)
  {
  }

  /** Nothing from outside session s is ever queued or running, however long the session stays up. */
  ghost predicate Fences(st: WState, s: string) {
    forall steps :: SoundRun(st, steps) && NeverFinishes(steps, s) ==> AllOf(Run(st, steps), s)
  }

  /** The fence holds over every run if and only if, when the barrier goes up, every job that is
  unfinished or could be revived belongs to the session. */
  lemma {:induction false} FencesIffSealed(st: WState, s: string)
    requires st.session == Some(s)
    ensures Fences(st, s) <==> Sealed(st, s)
  {
    if Sealed(st, s) {
      forall steps | SoundRun(st, steps) && NeverFinishes(steps, s)
        ensures AllOf(Run(st, steps), s)
      {
        SealedHolds(st, steps, s);
      }
    } else {
      var src :| src in st.store && (Unfinished(st.store[src].state) || CanRevive(st.store[src])) && st.store[src].session != Some(s);
      if Unfinished(st.store[src].state) {
        assert SoundRun(st, []) && NeverFinishes([], s) && !AllOf(Run(st, []), s);
      } else {
        PiercedBy(st, s, src);
      }
    }
  }

  /** One revival suffices. */
  lemma {:induction false} PiercedBy(st: WState, s: string, src: Source)
    requires src in st.store && CanRevive(st.store[src]) && st.store[src].session != Some(s)
    ensures !Fences(st, s)
  {
    var row := st.store[src];
    var cause := if Revivable(row, RetryDue) then RetryDue else if Revivable(row, HealthBack) then HealthBack else DeltaLost(row.target.value);
    var steps := [Revive(src, cause)];
    assert steps[..0] == [] && Run(st, []) == st && SoundRun(st, []);
    assert Run(st, steps) == Revived(st, src, cause);
    assert SoundRun(st, steps) && NeverFinishes(steps, s);
    assert Run(st, steps).store[src].state.Queued? && Run(st, steps).store[src].session != Some(s);
    assert !AllOf(Run(st, steps), s);
  }

  lemma SubmitKeepsFence(st: WState, r: Request, open: bool, s: string)
    requires st.session == Some(s) && AllOf(st, s)
    ensures Submitted(st, r, open).session == Some(s) && AllOf(Submitted(st, r, open), s)
  {
  }

  /** A worker that finds no job to claim queues one past the barrier: a claim keeps the fence if and
  only if there is a job to claim or the source is running already. */
  lemma ClaimKeepsFenceIff(st: WState, s: string, src: Source, strategy: string, wiki: bool)
    requires st.session == Some(s) && AllOf(st, s)
    ensures AllOf(ClaimStep(st, src, strategy, wiki), s) <==> Claimable(st.store, src) || Busy(st.store, src)
  {
    var q := SelfQueued(st, src, strategy, wiki);
    if Claimable(q.store, src) {
      ClaimedRow(q, src, strategy);
    }
  }

  /** The job of src is unfinished but not remembered as running, so a barrier does not report it. */
  predicate Hidden(st: WState, src: Source) {
    src in st.store && Unfinished(st.store[src].state) && !(src in st.cache && Running(st.cache[src]))
  }

  /** A revival that the cache is not told of. */
  predicate Silent(step: Step, src: Source) {
    step.Revive? && step.revived == src && !step.cause.HealthBack?
  }

  predicate EverSilent(steps: seq<Step>, src: Source) {
    exists i :: 0 <= i < |steps| && Silent(steps[i], src)
  }

  /** Only silent revivals hide jobs. */
  lemma {:induction false} HiddenWasRevived(st: WState, steps: seq<Step>, src: Source)
    requires !Hidden(st, src) && SoundRun(st, steps) && Hidden(Run(st, steps), src)
    ensures EverSilent(steps, src)
  {
    var n := |steps| - 1;
    if Hidden(Run(st, steps[..n]), src) {
      HiddenWasRevived(st, steps[..n], src);
      var i :| 0 <= i < n && Silent(steps[..n][i], src);
      assert Silent(steps[i], src);
    } else if !Silent(steps[n], src) {
      StepHidesNothing(Run(st, steps[..n]), steps[n], src);
    }
  }

  lemma StepHidesNothing(st: WState, step: Step, src: Source)
    requires !Hidden(st, src) && SoundStep(st, step) && !Silent(step, src)
    ensures !Hidden(Apply(st, step), src)
  {
    match step {
      case Finish(session, o) =>
        if st.session == Some(session) {
          ReplayedHidesNothing(Lowered(st), st.deferred, st.order, o, src);
        }
      case Submit(r, open, h) => SubmitHidesNothing(st, r, open, src);
      case Claim(s, strategy, wiki) => ClaimedRow(st, s, strategy);
      case _ =>
    }
  }

  lemma SubmitHidesNothing(st: WState, r: Request, open: bool, src: Source)
    requires !Hidden(st, src)
    ensures !Hidden(Submitted(st, r, open), src)
  {
  }

  /** A claim changes one row, and neither the cache nor the requests put aside. */
  lemma ClaimedRow(st: WState, s: Source, strategy: string)
    requires Claimable(st.store, s)
    ensures var e := Claimed(st, s, strategy);
      s in e.store && e.store == st.store[s := e.store[s]] && e == st.(store := e.store) &&
      e.store[s].attempts == st.store[s].attempts + 1 && e.store[s].session == st.store[s].session &&
      e.store[s].state == ClaimedState(DecisionOn(st, s))
  {
  }

  function ClaimedState(d: Decision): JobState {
    match d
    case TooOften => Failed
    case Requeued => Queued
    case _ => Processing
  }

  lemma {:induction false} ReplayedHidesNothing(st: WState, deferred: map<Source, Pending>, order: seq<Source>, o: Outlook, src: Source)
    requires !Hidden(st, src)
    ensures !Hidden(Replayed(st, deferred, order, o), src)
  {
    if order != [] {
      ReplayedHidesNothing(st, deferred, order[..|order| - 1], o, src);
    }
  }

  /** No job from outside session s is hidden or could be revived. */
  ghost predicate NoneLurks(st: WState, s: string) {
    forall src :: src in st.store && st.store[src].session != Some(s) ==> !Hidden(st, src) && !CanRevive(st.store[src])
  }

  /** The barrier's own report is not enough: a barrier that reports no running job keeps everything but
  its own session out, however long it is up, if and only if no other job is hidden from the report or
  can be revived. */
  lemma {:induction false} QuietBarrierFencesIff(st: WState, s: string)
    requires st.session.None? && Active(st) == {}
    ensures Fences(Begun(st, s), s) <==> NoneLurks(st, s)
  {
    FencesIffSealed(Begun(st, s), s);
    forall src | src in st.store && Unfinished(st.store[src].state)
      ensures Hidden(st, src)
    {
      assert src !in Active(st);
    }
    if NoneLurks(st, s) {
      assert Sealed(Begun(st, s), s);
    } else {
      var src :| src in st.store && st.store[src].session != Some(s) && (Hidden(st, src) || CanRevive(st.store[src]));
      assert src in Begun(st, s).store;
    }
  }

  /** After a sound run without silent revivals, that leaves the jobs that could be revived. */
  lemma {:induction false} QuietBarrierFences(st: WState, steps: seq<Step>, s: string, more: seq<Step>)
    requires SoundRun(st, steps) && forall src :: !Hidden(st, src) && !EverSilent(steps, src)
    requires var mid := Run(st, steps);
      && mid.session.None? && Active(mid) == {} && SoundRun(Begun(mid, s), more) && NeverFinishes(more, s)
      && forall src :: src in mid.store && mid.store[src].session != Some(s) ==> !CanRevive(mid.store[src])
    ensures AllOf(Run(Begun(Run(st, steps), s), more), s)
  {
    var mid := Run(st, steps);
    forall src
      ensures !Hidden(mid, src)
    {
      if Hidden(mid, src) {
        HiddenWasRevived(st, steps, src);
      }
    }
    QuietBarrierFencesIff(mid, s);
  }

  /** A job that fails transiently and is retried by the sweeper, from an empty table. */
  function RetriedRun(src: Source): seq<Step> {
    [Submit(Request(src, false, "", None, None), true, Smooth), Claim(src, "", false), Work(src, Failed, Transient), Revive(src, RetryDue)]
  }

  lemma {:induction false} RunPrefix(st: WState, steps: seq<Step>, last: Step)
    ensures Run(st, steps + [last]) == Apply(Run(st, steps), last)
    ensures SoundRun(st, steps + [last]) <==> SoundRun(st, steps) && SoundStep(Run(st, steps), last)
  {
    assert (steps + [last])[..|steps|] == steps;
  }

  lemma {:induction false} RunOfFour(st: WState, all: seq<Step>)
    requires |all| == 4
    ensures var one := Apply(st, all[0]); var two := Apply(one, all[1]); var three := Apply(two, all[2]);
      && Run(st, all) == Apply(three, all[3])
      && (SoundRun(st, all) <==> SoundStep(st, all[0]) && SoundStep(one, all[1]) && SoundStep(two, all[2]) && SoundStep(three, all[3]))
  {
    var s1, s2, s3 := [all[0]], [all[0], all[1]], [all[0], all[1], all[2]];
    RunPrefix(st, [], all[0]);
    RunPrefix(st, s1, all[1]);
    RunPrefix(st, s2, all[2]);
    RunPrefix(st, s3, all[3]);
    assert [] + [all[0]] == s1 && s1 + [all[1]] == s2 && s2 + [all[2]] == s3 && s3 + [all[3]] == all;
  }

  /** After it, a barrier reports no running job, yet a job from outside the session is queued. */
  lemma {:induction false} QuietYetQueued(st: WState, src: Source, s: string)
    requires st.session.None? && st.store == map[] && st.cache == map[]
    ensures var e := Run(st, RetriedRun(src));
      && SoundRun(st, RetriedRun(src)) && e.session.None? && Active(e) == {} && Claimable(e.store, src)
      && !AllOf(Begun(e, s), s)
  {
    var all := RetriedRun(src);
    RunOfFour(st, all);
    var one := Apply(st, all[0]);
    assert src in one.store && one.store[src].state.Queued? && one.store[src].session.None?;
    ClaimedRow(one, src, "");
    var e := Run(st, all);
    assert src in e.store && e.store[src].state.Queued? && e.store[src].session.None?;
    assert src in Begun(e, s).store;
  }

  // ----- Routing

  /** A job names the delta that was routed at its epoch. */
  ghost predicate Targeted(st: WState) {
    forall s :: s in st.store ==>
      st.store[s].epoch <= st.registry.routing.epoch &&
      (st.store[s].epoch == st.registry.routing.epoch ==> st.store[s].target == st.registry.routing.delta)
  }

  lemma {:induction false} RunKeepsTargeted(st: WState, steps: seq<Step>)
    requires Targeted(st)
    ensures Targeted(Run(st, steps))
  {
    if steps != [] {
      var n := |steps| - 1;
      RunKeepsTargeted(st, steps[..n]);
      StepKeepsTargeted(Run(st, steps[..n]), steps[n]);
    }
  }

  lemma StepKeepsTargeted(st: WState, step: Step)
    requires Targeted(st)
    ensures Targeted(Apply(st, step))
  {
    match step {
      case Reroute(r) => StepFence(st.registry, r);
      case Finish(session, o) =>
        if st.session == Some(session) {
          ReplayedTargeted(Lowered(st), st.deferred, st.order, o);
        }
      case Submit(r, open, h) => SubmitKeepsTargeted(st, r, open);
      case Claim(s, strategy, wiki) => ClaimKeepsTargeted(st, s, strategy, wiki);
      case _ =>
    }
  }

  lemma SubmitKeepsTargeted(st: WState, r: Request, open: bool)
    requires Targeted(st)
    ensures Targeted(Submitted(st, r, open))
  {
  }

  lemma ClaimKeepsTargeted(st: WState, s: Source, strategy: string, wiki: bool)
    requires Targeted(st)
    ensures Targeted(ClaimStep(st, s, strategy, wiki))
  {
    var q := SelfQueued(st, s, strategy, wiki);
    assert Targeted(q);
    if Claimable(q.store, s) {
      ClaimedRow(q, s, strategy);
    }
  }

  lemma {:induction false} ReplayedTargeted(st: WState, deferred: map<Source, Pending>, order: seq<Source>, o: Outlook)
    requires Targeted(st)
    ensures Targeted(Replayed(st, deferred, order, o))
  {
    if order != [] {
      ReplayedTargeted(st, deferred, order[..|order| - 1], o);
    }
  }

  /** Over every run of submissions, claims and routing changes: a claimed job goes on only if the
  delta it was queued for is the routed one, and a job queued again names the routed one. */
  lemma JobsRunOnRoutedDelta(st: WState, steps: seq<Step>, s: Source, strategy: string)
    requires Targeted(st)
    ensures var e := Run(st, steps);
      && (DecisionOn(e, s).Proceed? ==> e.store[s].target == e.registry.routing.delta)
      && (DecisionOn(e, s).Requeued? ==> Claimable(Claimed(e, s, strategy).store, s))
      && (DecisionOn(e, s).Requeued? ==> DecisionOn(Claimed(e, s, strategy), s).Proceed?)
      && (DecisionOn(e, s).Requeued? ==> Claimed(e, s, strategy).store[s].target == e.registry.routing.delta)
  {
    RunKeepsTargeted(st, steps);
    var e := Run(st, steps);
    if Claimable(e.store, s) {
      ClaimedRow(e, s, strategy);
    }
  }

  // ----- Attempts are never reset

  /** How often a run claims a job of s. */
  function Claims(st: WState, steps: seq<Step>, s: Source): nat {
    if steps == [] then 0
    else
      var n := |steps| - 1;
      Claims(st, steps[..n], s) + if ClaimsNow(Run(st, steps[..n]), steps[n], s) then 1 else 0
  }

  predicate ClaimsNow(st: WState, step: Step, s: Source) {
    step.Claim? && step.source == s && Claimable(SelfQueued(st, s, step.strategy, step.wiki).store, s)
  }

  lemma {:induction false} AttemptsCountClaims(st: WState, steps: seq<Step>, s: Source)
    ensures Attempts(Run(st, steps).store, s) == Attempts(st.store, s) + Claims(st, steps, s)
  {
    if steps != [] {
      var n := |steps| - 1;
      AttemptsCountClaims(st, steps[..n], s);
      StepCountsClaims(Run(st, steps[..n]), steps[n], s);
    }
  }

  lemma StepCountsClaims(st: WState, step: Step, s: Source)
    ensures Attempts(Apply(st, step).store, s) == Attempts(st.store, s) + if ClaimsNow(st, step, s) then 1 else 0
  {
    match step {
      case Finish(session, o) =>
        if st.session == Some(session) {
          ReplayedAttempts(Lowered(st), st.deferred, st.order, o, s);
        }
      case Claim(src, strategy, wiki) => ClaimCounts(st, src, strategy, wiki, s);
      case _ =>
    }
  }

  lemma ClaimCounts(st: WState, src: Source, strategy: string, wiki: bool, s: Source)
    ensures Attempts(ClaimStep(st, src, strategy, wiki).store, s) ==
      Attempts(st.store, s) + if ClaimsNow(st, Claim(src, strategy, wiki), s) then 1 else 0
  {
    var q := SelfQueued(st, src, strategy, wiki);
    if Claimable(q.store, src) {
      ClaimedRow(q, src, strategy);
    }
  }

  lemma {:induction false} ReplayedAttempts(st: WState, deferred: map<Source, Pending>, order: seq<Source>, o: Outlook, s: Source)
    ensures Attempts(Replayed(st, deferred, order, o).store, s) == Attempts(st.store, s)
  {
    if order != [] {
      ReplayedAttempts(st, deferred, order[..|order| - 1], o, s);
    }
  }

  /** A job whose epoch has passed is queued again if and only if its source was claimed fewer than
  twice before, counting every claim of every earlier job of that source. */
  lemma StaleJobRequeuedIff(st: WState, steps: seq<Step>, s: Source)
    requires st.store == map[]
    requires var e := Run(st, steps); Claimable(e.store, s) && e.store[s].epoch != e.registry.routing.epoch
    ensures DecisionOn(Run(st, steps), s) == if Claims(st, steps, s) < 2 then Requeued else TooOften
  {
    AttemptsCountClaims(st, steps, s);
  }

  predicate Touches(step: Step, s: Source) {
    || (step.Submit? && step.r.source == s) || (step.Claim? && step.source == s) || (step.Work? && step.worked == s)
    || (step.Revive? && step.revived == s)
  }

  /** A job that failed by changed routing is finished in the table but still running in the cache:
  until its source is submitted or worked on again, every barrier reports it (`Active`) as running. */
  lemma {:induction false} StaleFailureStaysActive(st: WState, s: Source, strategy: string, steps: seq<Step>)
    requires DecisionOn(st, s).TooOften? && s in st.cache && Running(st.cache[s]) && s !in st.deferred
    requires Ordered(st)
    requires forall i :: 0 <= i < |steps| ==> !Touches(steps[i], s)
    ensures var e := Run(Claimed(st, s, strategy), steps);
      Ordered(e) && FailedButActive(e, s)
  {
    if steps == [] {
      ClaimedRow(st, s, strategy);
    } else {
      var n := |steps| - 1;
      StaleFailureStaysActive(st, s, strategy, steps[..n]);
      var before, last := Run(Claimed(st, s, strategy), steps[..n]), steps[n];
      StepKeepsOrdered(before, last);
      StepLeaves(before, last, s);
    }
  }

  /** The job of s has failed, nothing of it is put aside, and a barrier would still report it. */
  predicate FailedButActive(st: WState, s: Source) {
    s in st.store && st.store[s].state.Failed? && s in st.cache && Running(st.cache[s]) && s !in st.deferred
  }

  lemma StepLeaves(st: WState, step: Step, s: Source)
    requires FailedButActive(st, s) && Ordered(st) && !Touches(step, s)
    ensures FailedButActive(Apply(st, step), s)
  {
    match step {
      case Finish(session, o) =>
        if st.session == Some(session) {
          ReplayedUntouched(Lowered(st), st.deferred, st.order, o, s);
        }
      case Claim(src, strategy, wiki) =>
        var q := SelfQueued(st, src, strategy, wiki);
        if Claimable(q.store, src) {
          ClaimedRow(q, src, strategy);
        }
      case _ =>
    }
  }

  lemma {:induction false} ReplayedUntouched(st: WState, deferred: map<Source, Pending>, order: seq<Source>, o: Outlook, s: Source)
    requires s !in order && st.session.None? && s in st.store && s in st.cache && st.deferred == map[]
    ensures var e := Replayed(st, deferred, order, o);
      e.session.None? && s in e.store && e.store[s] == st.store[s] && s in e.cache && e.cache[s] == st.cache[s] && e.deferred == map[]
  {
    if order != [] {
      ReplayedUntouched(st, deferred, order[..|order| - 1], o, s);
    }
  }

  // ----- The watcher itself

  class Watcher {
    var session: Option<string>
    var deferred: map<Source, Pending>
    var order: seq<Source>
    var store: map<Source, JobRow>
    var cache: map<Source, JobState>
    var overrides: map<Source, string>
    const registry: Registry

    constructor (registry: Registry)
      ensures this.registry == registry && session.None? && deferred == map[] && order == [] && store == map[]
    {
      this.registry := registry;
      session, deferred, order := None, map[], [];
      store, cache, overrides := map[], map[], map[];
    }

    function State(): WState
      reads this, registry
    {
      WState(session, deferred, order, store, cache, overrides, registry.State())
    }

    /** Keeps a request for the replay, merged with what is kept of its source already. */
    method PutAside(r: Request, wiki: bool)
      requires wiki == (r.wiki == Some(true))
      modifies `deferred, `order
      ensures State() == Deferred(old(State()), r)
    {
      var force, strategy := r.force, r.strategy;
      if r.source in deferred {
        force := deferred[r.source].force || force;
        strategy := if strategy != "" then strategy else deferred[r.source].strategy;
      } else {
        order := order + [r.source];
      }
      deferred := deferred[r.source := Pending(force, strategy, wiki)];
    }

    method SubmitIndex(r: Request, open: bool, h: Hitch) returns (accepted: bool, raised: bool)
      modifies `deferred, `order, `store, `cache, `overrides
      ensures State() == Tried(old(State()), r, open, h)
      ensures raised == Raises(old(State()), r, open, h)
      ensures accepted == (!raised && Accepted(old(State()), r, open))
    {
      raised := false;
      if !open {
        return false, false;
      }
      var wiki := if r.wiki.None? then false else r.wiki.value;
      if r.strategy != "" {
        if h.StrategyFails? {
          return false, true;
        }
        overrides := overrides[r.source := r.strategy];
      }
      if session.Some? && r.session != session {
        PutAside(r, wiki);
        return true, false;
      }
      if h.QueueFails? {
        return false, true;
      }
      var strategy := OrElse(r.strategy, if r.source in overrides then overrides[r.source] else "");
      accepted := EnqueueIndexJob(r.source, r.force, strategy, wiki, r.session);
      if accepted {
        cache := cache[r.source := Queued];
      }
    }

    /** The persisted state of a source's job, else the remembered one, else none. */
    function GetJob(s: Source): (state: Option<JobState>)
      reads this
    {
      if s in store then Some(store[s].state) else if s in cache then Some(cache[s]) else None
    }

    /** A worker's progress report. */
    method SetJobState(s: Source, state: JobState, failure: FailureClass)
      modifies `store, `cache
      ensures State() == Worked(old(State()), s, state, failure)
    {
      cache := cache[s := state];
      if s in store && !state.Processing? {
        FinishIndexJob(s, state, failure);
        if state.Failed? && failure.Transient? {
          FinishIndexJob(s, state, failure);
        }
      }
    }

    /** Records a state; a transient failure is counted up to the retry limit, a success starts anew. */
    method FinishIndexJob(s: Source, state: JobState, failure: FailureClass)
      requires s in store
      modifies `store
      ensures store == old(store)[s := Finishing(old(store)[s], state, failure)]
    {
      var retries := store[s].retries;
      if state.Failed? && failure.Transient? && retries < MAX_AUTO_RETRIES {
        retries := retries + 1;
      } else if state.Done? {
        retries := 0;
      }
      store := store[s := store[s].(state := state, failure := if state.Failed? then failure else Unclassified, retries := retries)];
    }

    /** Queues those of the given jobs that may be revived, and returns them. */
    method RequeueRecoverableFailures(due: seq<Source>, cause: Cause) returns (revived: set<Source>)
      modifies `store, `cache
      ensures State() == RevivedAll(old(State()), due, cause)
      ensures revived == set i | 0 <= i < |due| && due[i] in old(store) && Revivable(old(store)[due[i]], cause) :: due[i]
    {
      revived := {};
      for i := 0 to |due|
        invariant State() == RevivedAll(old(State()), due[..i], cause)
        invariant revived == set k | 0 <= k < i && due[k] in old(store) && Revivable(old(store)[due[k]], cause) :: due[k]
      {
        RevivedRow(old(State()), due[..i], cause, due[i]);
        assert due[..i + 1][..i] == due[..i] && due[..i + 1][i] == due[i];
        if due[i] in store && Revivable(store[due[i]], cause) {
          store := store[due[i] := store[due[i]].(state := Queued)];
          if cause.HealthBack? {
            cache := cache[due[i] := Queued];
          }
          revived := revived + {due[i]};
        }
      }
      assert due[..|due|] == due;
    }

    /** Running jobs are not queued twice. */
    method EnqueueIndexJob(s: Source, force: bool, strategy: string, wiki: bool, session: Option<string>) returns (accepted: bool)
      modifies `store
      ensures accepted == !Busy(old(store), s)
      ensures store == if accepted then Enqueued(old(State()), s, force, strategy, wiki, session) else old(store)
    {
      if s in store && Running(store[s].state) {
        return false;
      }
      var attempts := if s in store then store[s].attempts else 0;
      store := store[s := JobRow(Queued, force, strategy, wiki, session, registry.routing.epoch, registry.routing.delta, attempts,
                                 Unclassified, 0)];
      return true;
    }

    method BeginRebuildBarrier(s: string) returns (ok: bool, active: set<Source>)
      modifies `session
      ensures State() == Begun(old(State()), s)
      ensures ok == old(session).None? && active == if ok then Active(State()) else {}
    {
      if session.Some? {
        return false, {};
      }
      session := Some(s);
      return true, set src | src in cache && Running(cache[src]);
    }

    /** What was put aside is forgotten before any of it is submitted, so a submission that raises loses
    its own request and all behind it. */
    method FinishRebuildBarrier(s: string, o: Outlook) returns (ok: bool, raised: bool)
      modifies this
      ensures State() == Finished(old(State()), s, o)
      ensures ok == (old(session) == Some(s))
      ensures raised == (ok && Stopped(old(deferred), old(order), o))
      ensures ok ==> session.None? && deferred == map[] && order == []
    {
      if session != Some(s) {
        return false, false;
      }
      var kept, listed := deferred, order;
      session, deferred, order := None, map[], [];
      ghost var lowered := State();
      ReplayedKeepsDeferred(lowered, kept, listed, o);
      for i := 0 to |listed|
        invariant State() == Replayed(lowered, kept, listed[..i], o) && !Stopped(kept, listed[..i], o)
        invariant session.None?
      {
        StoppedNext(kept, listed, i, o);
        var src := listed[i];
        if src in kept && src in o.files {
          var _, failed := SubmitIndex(ReplayOf(src, kept[src]), src in o.open, HitchOf(o, src));
          if failed {
            StoppedForGood(lowered, kept, listed, i + 1, o);
            return true, true;
          }
        }
      }
      assert listed[..|listed|] == listed;
      return true, false;
    }

    method ClaimIndexJob(s: Source) returns (claimed: Option<JobRow>)
      modifies `store
      ensures claimed == if Claimable(old(store), s) then Some(TakenRow(old(store)[s])) else None
      ensures store == if claimed.Some? then old(store)[s := claimed.value] else old(store)
    {
      if !Claimable(store, s) {
        return None;
      }
      store := store[s := store[s].(state := Processing, attempts := store[s].attempts + 1)];
      return Some(store[s]);
    }

    /** The head of a worker: what is to be done with the job of s. */
    method RunIndexJob(s: Source, strategy: string, wiki: bool) returns (d: Decision)
      modifies `store
      ensures State() == ClaimStep(old(State()), s, strategy, wiki)
      ensures d == DecisionOn(SelfQueued(old(State()), s, strategy, wiki), s)
    {
      ghost var before := State();
      var claimed := ClaimIndexJob(s);
      if claimed.None? {
        var queued := EnqueueIndexJob(s, true, strategy, wiki, None);
        before := State();
        assert before == SelfQueued(old(State()), s, strategy, wiki);
        claimed := ClaimIndexJob(s);
        if claimed.None? {
          return NoJob;
        }
      }
      d := CheckEpoch(s, claimed.value, strategy, before);
    }

    /** Runs a claimed job on, queues it again for the routed target, or gives it up. */
    method CheckEpoch(s: Source, claimed: JobRow, strategy: string, ghost before: WState) returns (d: Decision)
      requires Claimable(before.store, s) && claimed == TakenRow(before.store[s])
      requires State() == before.(store := before.store[s := claimed])
      modifies `store
      ensures State() == Claimed(before, s, strategy) && d == DecisionOn(before, s)
    {
      if claimed.epoch == registry.routing.epoch {
        return Proceed;
      }
      if claimed.attempts >= MAX_ROUTING_RETRIES {
        store := store[s := RoutingFailed(claimed)];
        assert store == before.store[s := RoutingFailed(claimed)];
        return TooOften;
      }
      store := store[s := claimed.(state := Retryable)];
      var queued := EnqueueIndexJob(s, claimed.force, OrElse(claimed.strategy, strategy), claimed.wiki, claimed.session);
      assert store == before.store[s := store[s]];
      assert Claimed(before, s, strategy).store == before.store[s := store[s]];
      return Requeued;
    }
  }
}
