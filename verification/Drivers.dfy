/** The two drivers of a full rebuild, re-indexing on request and the schema migration at start-up:
when a rebuild may be committed, and what every exit leaves behind. */
module Drivers {
  import opened Options
  import opened Storage
  import opened Replacement
  import opened Library
  import opened IndexRegistry
  import opened Views
  import opened VectorStore
  import W = Watcher
  import K = Workers
  import Carry = CarryOver

  datatype Progress = SessionRunning | SessionCompleted | SessionAborted

  /** What other threads do while a driver waits. `made` and `stored` tell whether an unusable delta can
  be replaced when the routing is looked up. Only the report at the end of a job makes it done. */
  datatype Activity =
    | Requests(r: W.Request, accepting: bool, hitch: W.Hitch, made: bool, stored: bool)
    | Claims(s: Source, strategy: string, wiki: bool, made: bool, stored: bool)
    | Revives(due: seq<Source>, cause: W.Cause)
    | Progress(s: Source, validating: bool)
    | Indexes(work: K.Work, failure: W.FailureClass)
    | Deletes(s: Source, d: DeleteFaults)

  /** How the calls of a driver turn out. `resolved` and `again` are the look-ups of the routing by the scan
  and by the replay, which meets `outlook`. `polls` is what happens between two looks at the jobs, `late`
  between the last look and the check for failed jobs. A `...Fails` flag means that the call raises. */
  datatype Events = Events(made: bool, stored: bool, prepared: bool, clears: (bool, bool), marked: bool,
                           scanFails: bool, files: seq<Source>, accepting: set<Source>, hitches: map<Source, W.Hitch>,
                           resolved: (bool, bool), startFails: bool,
                           polls: seq<seq<Activity>>, late: seq<Activity>, readFails: bool,
                           statesFail: bool, finishFails: bool, statsFail: bool, handlerFinishFails: bool,
                           commit: CommitFaults, commitFails: bool, ledger: Carry.Ledger,
                           removed: bool, retired: bool, discards: (bool, bool), outlook: W.Outlook, again: (bool, bool))

  datatype Exit = BarrierBusy | Conflict | NotStarted | AlreadyPending | TimedOut | JobsFailed | CommitRefused | SwitchedOver | Threw

  predicate IsDone(state: Option<W.JobState>) {
    state == Some(W.Done)
  }

  predicate IsPending(state: Option<W.JobState>) {
    state.Some? && W.Running(state.value)
  }

  /** Live collections and registry rows are the same. */
  predicate LiveKept(before: State, after: State) {
    after.lib.text == before.lib.text && after.lib.image == before.lib.image
  }

  /** Live collections are the same, except that an unusable delta, or by a failed commit the delta, was
  replaced by a new, empty one. */
  predicate LiveKeptOrMoved(before: State, after: State) {
    LiveKept(before, after) || LiveKept(DeltaReplaced(before), after)
  }

  /** What a driver can see: the library, the jobs, and the base routed to. */
  datatype Snapshot = Snapshot(view: State, jobs: W.WState, base: GenId)

  predicate JobDone(jobs: W.WState, s: Source) {
    W.JobOf(jobs, s) == Some(W.Done)
  }

  /** From a to b, during a rebuild, just what `log` says happened to the rebuild and to the reports; the
  live side, the base pointer and the barrier stayed as they were. */
  ghost predicate Explains(a: Snapshot, b: Snapshot, log: seq<K.Event>) {
    && LiveKeptOrMoved(a.view, b.view) && b.base == a.base && b.jobs.session == a.jobs.session
    && K.SameRebuild(K.RunEvents(a.view, log), b.view)
    && forall s :: JobDone(b.jobs, s) ==> K.LastDone(a.view, log, s, JobDone(a.jobs, s))
  }

  lemma ExplainsTwice(a: Snapshot, b: Snapshot, c: Snapshot, one: seq<K.Event>, two: seq<K.Event>)
    requires Explains(a, b, one) && Explains(b, c, two)
    ensures Explains(a, c, one + two)
  {
    K.EventsAppend(a.view, one, two);
    K.SameEvents(K.RunEvents(a.view, one), b.view, two);
    forall s | JobDone(c.jobs, s)
      ensures K.LastDone(a.view, one + two, s, JobDone(a.jobs, s))
    {
      K.LastDoneAppend(a.view, one, two, s, JobDone(a.jobs, s));
      K.SameLastDone(K.RunEvents(a.view, one), b.view, two, s, JobDone(b.jobs, s));
      K.LastDoneMonotone(K.RunEvents(a.view, one), two, s, JobDone(b.jobs, s), K.LastDone(a.view, one, s, JobDone(a.jobs, s)));
    }
  }

  /** The rebuild is what the logged jobs and deletions made of it, and the last job of every file was
  reported done; `done` are those that were done before. */
  ghost predicate Built(begun: State, done: set<Source>, files: seq<Source>, rebuilt: Rebuild, log: seq<K.Event>) {
    && rebuilt == K.RunEvents(begun, log).rebuild
    && forall i :: 0 <= i < |files| ==> K.LastDone(begun, log, files[i], files[i] in done)
  }

  /** The live collections are the rebuilt ones. */
  predicate NowRebuilt(before: State, after: State, rebuilt: Rebuild, f: CommitFaults) {
    && rebuilt.Active?
    && after.lib.text == SwitchedSide(before.lib.text, rebuilt.text, f.textRenamed)
    && after.lib.image == SwitchedSide(before.lib.image, rebuilt.image, f.imageRenamed)
  }

  /** The replay comes to a submission that looks the routing up. */
  predicate LooksUp(deferred: map<Source, W.Pending>, order: seq<Source>, o: W.Outlook) {
    order != [] &&
    if order[0] in deferred && order[0] in o.files && order[0] in o.open then !FailsEarly(deferred, o, order[0])
    else LooksUp(deferred, order[1..], o)
  }

  predicate FailsEarly(deferred: map<Source, W.Pending>, o: W.Outlook, s: Source) {
    s in deferred && deferred[s].strategy != "" && W.HitchOf(o, s).StrategyFails?
  }

  /** When the routing cannot be looked up, every submission raises that did not do so before. */
  function Met(o: W.Outlook, deferred: map<Source, W.Pending>, found: bool): W.Outlook {
    if found then o else o.(hitches := map s | s in o.open :: if FailsEarly(deferred, o, s) then W.StrategyFails else W.QueueFails)
  }

  class Maintenance {
    const store: VectorStore
    const watcher: W.Watcher
    var progress: map<string, Progress>

    /** Store and watcher share the registry. */
    constructor (store: VectorStore, watcher: W.Watcher)
      ensures this.store == store && this.watcher == watcher && progress == map[]
    {
      this.store, this.watcher, progress := store, watcher, map[];
    }

    ghost predicate Valid()
      reads this, store, store.registry
    {
      store.Valid() && watcher.registry == store.registry
    }

    function Snap(): Snapshot
      reads this, store, store.registry, store.generations, watcher, watcher.registry
    {
      Snapshot(store.View(), watcher.State(), store.registry.routing.base)
    }

    predicate AllDone(paths: seq<Source>)
      reads this, watcher
    {
      forall i :: 0 <= i < |paths| ==> IsDone(watcher.GetJob(paths[i]))
    }

    predicate NonePending(paths: seq<Source>)
      reads this, watcher
    {
      forall i :: 0 <= i < |paths| ==> !IsPending(watcher.GetJob(paths[i]))
    }

    // ----- What other threads do

    /** Looks the routing up, which may replace an unusable delta. */
    method LookUp(made: bool, stored: bool) returns (found: bool)
      requires Valid() && store.targets
      modifies store.registry
      ensures Valid() && store.registry.routing.base == old(store.registry.routing.base)
      ensures LiveKeptOrMoved(old(store.View()), store.View()) && K.SameRebuild(old(store.View()), store.View())
    {
      found := store.ResolveTarget(made, stored);
    }

    /** A submission records its strategy and looks the routing up, unless it is put aside. */
    method Submit(r: W.Request, accepting: bool, h: W.Hitch, made: bool, stored: bool) returns (accepted: bool, raised: bool)
      requires Valid() && store.targets
      modifies watcher, store.registry
      ensures Valid() && Explains(old(Snap()), Snap(), [])
      ensures accepted ==> !raised && (r.session == old(watcher.session) && r.session.Some? ==> OfSession(r.source, r.session.value))
      ensures forall s, session :: s != r.source && old(OfSession(s, session)) ==> OfSession(s, session)
    {
      ghost var a := Snap();
      var hitch := h;
      if accepting && !(h.StrategyFails? && r.strategy != "") && !(watcher.session.Some? && r.session != watcher.session) {
        var found := LookUp(made, stored);
        hitch := if found then h else W.QueueFails;
      }
      accepted, raised := Enqueue(r, accepting, hitch);
      NothingHappened(a, Snap());
    }

    method Enqueue(r: W.Request, accepting: bool, h: W.Hitch) returns (accepted: bool, raised: bool)
      modifies watcher
      ensures watcher.State() == W.Tried(old(watcher.State()), r, accepting, h)
      ensures forall s :: JobDone(watcher.State(), s) ==> JobDone(old(watcher.State()), s)
      ensures watcher.session == old(watcher.session)
      ensures accepted ==> !raised && (r.session == old(watcher.session) && r.session.Some? ==> OfSession(r.source, r.session.value))
      ensures forall s, session :: s != r.source && old(OfSession(s, session)) ==> OfSession(s, session)
    {
      ghost var before := watcher.State();
      W.AcceptedIsQueued(before, r, accepting);
      accepted, raised := watcher.SubmitIndex(r, accepting, h);
      forall s | JobDone(watcher.State(), s)
        ensures JobDone(before, s)
      {
        W.SubmitMakesNoneDone(before, r, accepting, h, s);
      }
    }

    /** Lowers the barrier. The first replayed submission that comes so far looks the routing up for all of
    them; when one raises, it and every request behind it is lost. */
    method Lower(session: string, e: Events) returns (found: bool, raised: bool)
      requires Valid() && watcher.session == Some(session)
      modifies watcher, store.registry
      ensures Valid() && store.registry.routing.base == old(store.registry.routing.base)
      ensures store.registry.tombstones == old(store.registry.tombstones)
      ensures LiveKeptOrMoved(old(store.View()), store.View())
      ensures watcher.State() == W.Finished(old(watcher.State()).(registry := store.registry.State()), session,
                                            Met(e.outlook, old(watcher.deferred), found))
      ensures raised == W.Stopped(old(watcher.deferred), old(watcher.order), Met(e.outlook, old(watcher.deferred), found))
      ensures watcher.session.None? && watcher.deferred == map[] && watcher.order == []
    {
      found := true;
      if LooksUp(watcher.deferred, watcher.order, e.outlook) {
        found := store.ResolveTarget(e.again.0, e.again.1);
      }
      var ok;
      ok, raised := watcher.FinishRebuildBarrier(session, Met(e.outlook, watcher.deferred, found));
    }

    /** A worker takes the job of s; when the routing cannot be looked up it stops there. */
    method Claim(s: Source, strategy: string, wiki: bool, made: bool, stored: bool)
      requires Valid() && store.targets
      modifies watcher, store.registry
      ensures Valid() && Explains(old(Snap()), Snap(), [])
    {
      ghost var a := Snap();
      var found := LookUp(made, stored);
      Take(s, strategy, wiki, found);
      NothingHappened(a, Snap());
    }

    method Take(s: Source, strategy: string, wiki: bool, found: bool)
      modifies watcher
      ensures forall t :: JobDone(watcher.State(), t) ==> JobDone(old(watcher.State()), t)
      ensures watcher.session == old(watcher.session)
    {
      if !found {
        var _ := watcher.ClaimIndexJob(s);
        return;
      }
      ghost var before := watcher.State();
      var _ := watcher.RunIndexJob(s, strategy, wiki);
      forall t | JobDone(watcher.State(), t)
        ensures JobDone(before, t)
      {
        W.ClaimMakesNoneDone(before, s, strategy, wiki, t);
      }
    }

    method Revive(due: seq<Source>, cause: W.Cause)
      requires Valid() && store.targets
      modifies watcher
      ensures Valid() && Explains(old(Snap()), Snap(), [])
    {
      ghost var a, before := Snap(), watcher.State();
      var _ := watcher.RequeueRecoverableFailures(due, cause);
      forall t | JobDone(watcher.State(), t)
        ensures JobDone(before, t)
      {
        W.RevivalMakesNoneDone(before, due, cause, t);
      }
      NothingHappened(a, Snap());
    }

    method TellProgress(s: Source, validating: bool)
      requires Valid() && store.targets
      modifies watcher
      ensures Valid() && Explains(old(Snap()), Snap(), [])
    {
      ghost var a := Snap();
      watcher.SetJobState(s, if validating then W.Validating else W.Processing, W.Unclassified);
      NothingHappened(a, Snap());
    }

    /** One call of a writer in the rebuild. */
    method PutRecords(put: K.Put) returns (ok: bool)
      requires Valid() && store.targets
      modifies store`contents, store.registry, store.generations
      ensures Valid() && store.registry.State() == old(store.registry.State())
      ensures store.View() == Apply(old(store.View()), K.PutStep(put)) && ok == K.Stores(old(store.View()), put)
    {
      ghost var v := store.View();
      RewrittenIsReplace(Target(v, KindOf(put.job.writer)), put.job, put.f);
      WriteStepInTarget(v, put.job, put.f, put.untombed);
      ok := store.AddRecords(put.job, put.f, true, true, put.untombed, false, false);
    }

    method PutIfAny(put: Option<K.Put>) returns (ok: bool)
      requires Valid() && store.targets
      modifies store`contents, store.registry, store.generations
      ensures Valid() && store.registry.State() == old(store.registry.State())
      ensures store.View() == Run(old(store.View()), K.PutSteps(put))
      ensures ok == (put.Some? ==> K.Stores(old(store.View()), put.value))
    {
      ok := true;
      K.RunOne(store.View(), K.PutSteps(put));
      if put.Some? {
        ok := PutRecords(put.value);
      }
    }

    /** The text part of a job; the answer is whether the job is done, as far as the texts decide it. */
    method IndexText(s: Source, text: K.TextPart) returns (ok: bool)
      requires Valid() && store.targets
      modifies store`contents, store.registry, store.generations
      ensures Valid() && store.registry.State() == old(store.registry.State())
      ensures store.View() == Run(old(store.View()), K.TextSteps(s, text))
      ensures ok == (text.Chunked? && K.Stores(old(store.View()), text.put))
    {
      K.RunOne(store.View(), K.TextSteps(s, text));
      match text
      case Blank(deleted, cleared) =>
        var _ := store.DeleteTextChunks(s, deleted, cleared, false, false);
        ok := false;
      case Uncut(deleted, cleared) =>
        var _ := store.DeleteTextChunks(s, deleted, cleared, false, false);
        ok := false;
      case Unembedded => ok := false;
      case Chunked(put) => ok := PutRecords(put);
    }

    /** The body of a job, and what it answers. */
    method IndexFile(w: K.Work) returns (done: bool)
      requires Valid() && store.targets
      modifies store`contents, store.registry, store.generations
      ensures Valid() && store.registry.State() == old(store.registry.State())
      ensures store.View() == Run(old(store.View()), K.WorkSteps(w))
      ensures done == K.ReportsDone(old(store.View()), w)
    {
      RunAppend(store.View(), K.PutSteps(K.ImagePut(w)), K.TextStepsOf(w));
      var pictured := PutIfAny(K.ImagePut(w));
      match w
      case Video(_, frames, anyText, chunks) =>
        var _ := PutIfAny(chunks);
        done := (frames.Some? || anyText) && pictured;
      case Audio(_, chunks) =>
        var stored := PutIfAny(chunks);
        done := chunks.Some? && stored;
      case Picture(s, vector, text) =>
        var stored := IndexText(s, text);
        done := if text.Blank? then vector.Some? else text.Uncut? || stored;
      case Document(s, text) => done := IndexText(s, text);
      case Abandoned(_, _) => done := false;
    }

    /** A worker indexes a file and reports. */
    method IndexAndReport(w: K.Work, failure: W.FailureClass)
      requires Valid() && store.targets
      modifies watcher, store`contents, store.registry, store.generations
      ensures Valid() && Explains(old(Snap()), Snap(), [K.Indexed(w)])
    {
      ghost var a := Snap();
      var done := IndexFile(w);
      watcher.SetJobState(w.source, if done then W.Done else W.Failed, failure);
      IndexExplains(a, Snap(), w, done, failure);
    }

    /** One thing another thread does. */
    method Act(a: Activity) returns (ghost log: seq<K.Event>)
      requires Valid() && store.targets
      modifies watcher, store`contents, store.registry, store.generations
      ensures Valid() && Explains(old(Snap()), Snap(), log)
    {
      log := [];
      match a
      case Requests(r, accepting, h, made, stored) => var _, _ := Submit(r, accepting, h, made, stored);
      case Claims(s, strategy, wiki, made, stored) => Claim(s, strategy, wiki, made, stored);
      case Revives(due, cause) => Revive(due, cause);
      case Progress(s, validating) => TellProgress(s, validating);
      case Indexes(w, failure) =>
        IndexAndReport(w, failure);
        log := [K.Indexed(w)];
      case Deletes(s, d) =>
        Delete(s, d);
        log := [K.Deleted(s, d)];
    }

    method Delete(s: Source, d: DeleteFaults)
      requires Valid() && store.targets
      modifies store`contents, store.registry, store.generations
      ensures Valid() && Explains(old(Snap()), Snap(), [K.Deleted(s, d)])
    {
      ghost var a := Snap();
      var _ := store.DeleteFile(s, d, (false, false), (false, false));
      DeleteExplains(a, Snap(), s, d);
    }

    method Background(acts: seq<Activity>) returns (ghost log: seq<K.Event>)
      requires Valid() && store.targets
      modifies watcher, store`contents, store.registry, store.generations
      ensures Valid() && Explains(old(Snap()), Snap(), log)
    {
      log := [];
      for i := 0 to |acts|
        invariant Valid() && Explains(old(Snap()), Snap(), log)
      {
        ghost var mid := Snap();
        ghost var next := Act(acts[i]);
        ExplainsTwice(old(Snap()), mid, Snap(), log, next);
        log := log + next;
      }
    }

    /** Submits every file of the watched folder for the session. */
    method ScanExisting(session: string, files: seq<Source>, accepting: set<Source>, hitches: map<Source, W.Hitch>, made: bool, stored: bool)
      returns (alreadyPending: seq<Source>, raised: bool)
      requires Valid() && store.targets && watcher.session == Some(session)
      modifies watcher, store.registry
      ensures Valid() && Explains(old(Snap()), Snap(), [])
      ensures !raised && alreadyPending == [] ==> forall i :: 0 <= i < |files| ==> OfSession(files[i], session)
    {
      alreadyPending := [];
      for i := 0 to |files|
        invariant Valid() && Explains(old(Snap()), Snap(), [])
        invariant alreadyPending == [] ==> forall j :: 0 <= j < i ==> OfSession(files[j], session)
      {
        ghost var mid := Snap();
        var submitted;
        submitted, raised := Submit(W.Request(files[i], true, "", None, Some(session)), files[i] in accepting,
                                    if files[i] in hitches then hitches[files[i]] else W.Smooth, made, stored);
        ghost var none: seq<K.Event> := [];
        ExplainsTwice(old(Snap()), mid, Snap(), none, none);
        assert none + none == none;
        if raised {
          return alreadyPending, true;
        }
        if !submitted {
          alreadyPending := alreadyPending + [files[i]];
        }
      }
      return alreadyPending, false;
    }

    /** The job of s belongs to the session and is queued. */
    predicate OfSession(s: Source, session: string)
      reads this, watcher
    {
      s in watcher.store && watcher.store[s].session == Some(session) && watcher.store[s].state.Queued?
    }

    method NoneIsPending(paths: seq<Source>) returns (ok: bool)
      ensures ok == NonePending(paths)
    {
      for i := 0 to |paths|
        invariant forall j :: 0 <= j < i ==> !IsPending(watcher.GetJob(paths[j]))
      {
        if IsPending(watcher.GetJob(paths[i])) {
          return false;
        }
      }
      return true;
    }

    method AllAreDone(paths: seq<Source>) returns (ok: bool)
      ensures ok == AllDone(paths)
    {
      for i := 0 to |paths|
        invariant forall j :: 0 <= j < i ==> IsDone(watcher.GetJob(paths[j]))
      {
        if !IsDone(watcher.GetJob(paths[i])) {
          return false;
        }
      }
      return true;
    }

    /** Looks at the jobs until none is pending, or until the deadline. */
    method Wait(paths: seq<Source>, polls: seq<seq<Activity>>) returns (settled: bool, ghost log: seq<K.Event>)
      requires Valid() && store.targets
      modifies watcher, store`contents, store.registry, store.generations
      ensures Valid() && Explains(old(Snap()), Snap(), log)
      ensures settled == NonePending(paths)
    {
      log := [];
      settled := NoneIsPending(paths);
      var i := 0;
      while i < |polls| && !settled
        invariant 0 <= i <= |polls| && settled == NonePending(paths)
        invariant Valid() && Explains(old(Snap()), Snap(), log)
      {
        ghost var mid := Snap();
        ghost var next := Background(polls[i]);
        ExplainsTwice(old(Snap()), mid, Snap(), log, next);
        log := log + next;
        settled := NoneIsPending(paths);
        i := i + 1;
      }
    }

    /** Waits for the jobs, then checks that each of them succeeded: if so, what was rebuilt is what the
    logged jobs made of it. */
    method Await(paths: seq<Source>, e: Events) returns (settled: bool, done: bool, ghost log: seq<K.Event>)
      requires Valid() && store.targets
      modifies watcher, store`contents, store.registry, store.generations
      ensures Valid() && watcher.session == old(watcher.session) && store.registry.routing.base == old(store.registry.routing.base)
      ensures LiveKeptOrMoved(old(store.View()), store.View())
      ensures store.registry.tombstones == K.RunEvents(old(store.View()), log).lib.tombstones
      ensures done ==> settled && AllDone(paths)
      ensures done ==> Built(old(store.View()), DoneAmong(old(watcher.State()), paths), paths, store.View().rebuild, log)
    {
      ghost var a := Snap();
      settled, log := Wait(paths, e.polls);
      if settled {
        ghost var mid := Snap();
        ghost var next := Background(e.late);
        ExplainsTwice(a, mid, Snap(), log, next);
        log := log + next;
        done := AllAreDone(paths);
        if done {
          AllDoneBuilt(a, Snap(), paths, log);
        }
      } else {
        done := false;
      }
    }

    method FinishProgress(session: string, status: Progress, fails: bool)
      modifies `progress
      ensures progress == if !fails && session in old(progress) then old(progress)[session := status] else old(progress)
    {
      if !fails && session in progress {
        progress := progress[session := status];
      }
    }

    method Abort(e: Events)
      requires Valid()
      modifies store, store.registry`rows, store.registry`dirs, store.generations
      ensures Valid() && !store.targets && store.rebuildGen.None?
      ensures store.View().lib == old(store.View()).lib
    {
      store.AbortRebuild(e.removed, e.retired, e.discards.0, e.discards.1, e.marked);
    }

    /** The commit, which neither driver reaches unless every candidate is done. */
    method Commit(paths: seq<Source>, e: Events) returns (ok: bool, ghost rebuilt: Rebuild)
      requires Valid() && store.targets && AllDone(paths)
      modifies store, store.registry`rows, store.registry`routing, store.registry`dirs, store.registry`clock, store.generations
      ensures Valid()
      ensures ok ==> !store.targets && store.rebuildGen.None? && NowRebuilt(old(store.View()), store.View(), rebuilt, e.commit)
      ensures ok ==> rebuilt == old(store.View()).rebuild && Some(store.registry.routing.base) == old(store.rebuildGen)
      ensures !ok ==> store.targets && LiveKeptOrMoved(old(store.View()), store.View())
      ensures !ok ==> store.registry.routing.base == old(store.registry.routing.base)
    {
      rebuilt := store.View().rebuild;
      ok := store.CommitRebuild(e.commit, e.ledger);
    }

    /** Scan, wait, check and commit: the part of re-indexing whose exceptions its caller handles. */
    method Attempt(session: string, e: Events) returns (exit: Exit, ghost rebuilt: Option<Rebuild>, ghost log: seq<K.Event>)
      requires Valid() && store.targets && watcher.session == Some(session)
      modifies `progress, watcher, store, store.registry, store.generations
      ensures Valid() && watcher.session == old(watcher.session)
      ensures store.registry.tombstones == K.RunEvents(old(store.View()), log).lib.tombstones
      ensures rebuilt.Some? ==> NowRebuilt(old(store.View()), store.View(), rebuilt.value, e.commit)
      ensures rebuilt.Some? ==> Built(old(store.View()), {}, e.files, rebuilt.value, log)
      ensures rebuilt.Some? ==> Some(store.registry.routing.base) == old(store.rebuildGen)
      ensures rebuilt.None? ==> LiveKeptOrMoved(old(store.View()), store.View())
      ensures rebuilt.None? ==> store.registry.routing.base == old(store.registry.routing.base)
      ensures !exit.Threw? || rebuilt.Some? ==> !store.targets && store.rebuildGen.None?
      ensures exit.SwitchedOver? ==> rebuilt.Some?
      ensures !exit.Threw? ==> session in progress && Ends(progress[session], exit)
      ensures Attempted(exit)
    {
      rebuilt, log := None, [];
      ghost var a := Snap();
      var alreadyPending, raised := ScanExisting(session, e.files, e.accepting, e.hitches, e.resolved.0, e.resolved.1);
      if raised || e.scanFails || e.startFails {
        return Threw, rebuilt, log;
      }
      progress := progress[session := SessionRunning];
      if alreadyPending != [] {
        Abort(e);
        return if e.statsFail then Threw else AlreadyPending, rebuilt, log;
      }
      ghost var mid := Snap();
      exit, rebuilt, log := AwaitAndCommit(session, e);
      K.SameEvents(a.view, mid.view, log);
      if rebuilt.Some? {
        FreshlyBuilt(a, mid, e.files, rebuilt.value, log);
      }
    }

    /** Waits for the jobs, checks them and commits. */
    method AwaitAndCommit(session: string, e: Events) returns (exit: Exit, ghost rebuilt: Option<Rebuild>, ghost log: seq<K.Event>)
      requires Valid() && store.targets && session in progress
      modifies `progress, watcher, store, store.registry, store.generations
      ensures Valid() && watcher.session == old(watcher.session)
      ensures store.registry.tombstones == K.RunEvents(old(store.View()), log).lib.tombstones
      ensures rebuilt.Some? ==> NowRebuilt(old(store.View()), store.View(), rebuilt.value, e.commit)
      ensures rebuilt.Some? ==> Built(old(store.View()), DoneAmong(old(watcher.State()), e.files), e.files, rebuilt.value, log)
      ensures rebuilt.Some? ==> Some(store.registry.routing.base) == old(store.rebuildGen)
      ensures rebuilt.None? ==> LiveKeptOrMoved(old(store.View()), store.View())
      ensures rebuilt.None? ==> store.registry.routing.base == old(store.registry.routing.base)
      ensures !exit.Threw? || rebuilt.Some? ==> !store.targets && store.rebuildGen.None?
      ensures exit.SwitchedOver? ==> rebuilt.Some?
      ensures !exit.Threw? ==> session in progress && Ends(progress[session], exit)
      ensures Attempted(exit) && !exit.AlreadyPending?
    {
      rebuilt := None;
      var settled, done;
      settled, done, log := Await(e.files, e);
      if e.readFails {
        return Threw, rebuilt, log;
      }
      if !done {
        Abort(e);
        var reported := Report(session, SessionAborted, e.statesFail, e.finishFails, e.statsFail);
        return if !reported then Threw else if settled then JobsFailed else TimedOut, rebuilt, log;
      }
      exit, rebuilt := CommitAndReport(session, e);
    }

    /** Commits once every candidate is done, and aborts when the commit is refused. */
    method CommitAndReport(session: string, e: Events) returns (exit: Exit, ghost rebuilt: Option<Rebuild>)
      requires Valid() && store.targets && session in progress && AllDone(e.files)
      modifies `progress, store, store.registry, store.generations
      ensures Valid()
      ensures store.registry.tombstones == old(store.registry.tombstones)
      ensures rebuilt.Some? ==> NowRebuilt(old(store.View()), store.View(), rebuilt.value, e.commit)
      ensures rebuilt.Some? ==> rebuilt.value == old(store.View()).rebuild
      ensures rebuilt.Some? ==> Some(store.registry.routing.base) == old(store.rebuildGen)
      ensures rebuilt.None? ==> LiveKeptOrMoved(old(store.View()), store.View())
      ensures rebuilt.None? ==> store.registry.routing.base == old(store.registry.routing.base)
      ensures !exit.Threw? || rebuilt.Some? ==> !store.targets && store.rebuildGen.None?
      ensures exit.SwitchedOver? ==> rebuilt.Some?
      ensures !exit.Threw? ==> session in progress && Ends(progress[session], exit)
      ensures exit in {Threw, CommitRefused, SwitchedOver}
    {
      rebuilt := None;
      ghost var content;
      var ok;
      ok, content := Commit(e.files, e);
      if !ok {
        if e.commitFails {
          return Threw, rebuilt;
        }
        Abort(e);
        var reported := Report(session, SessionAborted, false, e.finishFails, e.statsFail);
        return if reported then CommitRefused else Threw, rebuilt;
      }
      rebuilt := Some(content);
      var reported := Report(session, SessionCompleted, e.statesFail, e.finishFails, e.statsFail);
      return if reported then SwitchedOver else Threw, rebuilt;
    }

    /** Records the states and the end of the session and gathers the statistics for the reply. */
    method Report(session: string, status: Progress, statesFail: bool, finishFails: bool, statsFail: bool) returns (ok: bool)
      modifies `progress
      ensures ok == (!statesFail && !finishFails && !statsFail)
      ensures progress == if !statesFail && !finishFails && session in old(progress) then old(progress)[session := status] else old(progress)
    {
      if statesFail {
        return false;
      }
      FinishProgress(session, status, finishFails);
      return !finishFails && !statsFail;
    }

    /** The attempt with its handler, which aborts and records the end of the session. */
    method Guarded(session: string, e: Events) returns (exit: Exit, ghost rebuilt: Option<Rebuild>, ghost log: seq<K.Event>)
      requires Valid() && store.targets && watcher.session == Some(session)
      requires session !in progress
      modifies `progress, watcher, store, store.registry, store.generations
      ensures Valid() && watcher.session == old(watcher.session)
      ensures store.registry.tombstones == K.RunEvents(old(store.View()), log).lib.tombstones
      ensures Attempted(exit) && !store.targets && store.rebuildGen.None?
      ensures rebuilt.Some? ==> NowRebuilt(old(store.View()), store.View(), rebuilt.value, e.commit)
      ensures rebuilt.Some? ==> Built(old(store.View()), {}, e.files, rebuilt.value, log)
      ensures rebuilt.None? ==> LiveKeptOrMoved(old(store.View()), store.View())
      ensures rebuilt.None? ==> store.registry.routing.base == old(store.registry.routing.base)
      ensures exit.SwitchedOver? ==> rebuilt.Some?
      ensures exit.AlreadyPending? ==> session in progress && progress[session].SessionRunning?
      ensures session in progress && progress[session].SessionRunning? ==> exit.AlreadyPending? || (exit.Threw? && e.handlerFinishFails)
    {
      exit, rebuilt, log := Attempt(session, e);
      if exit.Threw? {
        Abort(e);
        FinishProgress(session, SessionAborted, e.handlerFinishFails);
      }
    }

    /** Begins the rebuild and, if that succeeds, makes the attempt. */
    method BeginAndAttempt(session: string, e: Events)
      returns (exit: Exit, ghost rebuilt: Option<Rebuild>, ghost begun: State, ghost log: seq<K.Event>)
      requires Valid() && watcher.session == Some(session) && session !in progress
      modifies `progress, watcher, store, store.registry, store.generations
      ensures Valid() && watcher.session == old(watcher.session) && (Attempted(exit) || exit.NotStarted?)
      ensures store.registry.tombstones == K.RunEvents(begun, log).lib.tombstones
      ensures begun.lib.tombstones == old(store.registry.tombstones)
      ensures exit.NotStarted? ==> store.targets == old(store.targets) && rebuilt.None?
      ensures Attempted(exit) ==> !old(store.targets) && !store.targets && store.rebuildGen.None?
      ensures rebuilt.Some? ==> NowRebuilt(old(store.View()), store.View(), rebuilt.value, e.commit)
      ensures rebuilt.Some? ==> Built(begun, {}, e.files, rebuilt.value, log) && begun.lib == old(store.View()).lib
      ensures rebuilt.Some? ==> begun == Apply(old(store.View()), BeginOver(old(store.generations.table), e.clears.0, e.clears.1))
      ensures rebuilt.None? ==> LiveKeptOrMoved(old(store.View()), store.View())
      ensures rebuilt.None? ==> store.registry.routing.base == old(store.registry.routing.base)
      ensures exit.SwitchedOver? ==> rebuilt.Some?
      ensures exit.AlreadyPending? ==> session in progress && progress[session].SessionRunning?
      ensures session in progress && progress[session].SessionRunning? ==> exit.AlreadyPending? || (exit.Threw? && e.handlerFinishFails)
    {
      var started := store.BeginRebuild(Some(session), e.made, e.stored, e.prepared, e.clears.0, e.clears.1, e.marked);
      begun, log := store.View(), [];
      if !started {
        return NotStarted, None, begun, log;
      }
      exit, rebuilt, log := Guarded(session, e);
    }

    /** Re-indexing. Whatever fails, the barrier is released, even when the replay raises, which then leaves
    the driver instead of its answer, and, once the rebuild has begun, no rebuild
    is left; the live index is the rebuilt one if the commit was reached and went through, even when
    an exception after it is answered with an abort and an error, and is kept otherwise. What was then
    rebuilt is what the logged jobs made of it, the last of which, for every file, was reported done. */
    method Reindex(session: string, e: Events)
      returns (exit: Exit, escaped: bool, ghost rebuilt: Option<Rebuild>, ghost begun: State, ghost log: seq<K.Event>)
      requires Valid() && session !in progress
      modifies `progress, watcher, store, store.registry, store.generations
      ensures Valid()
      ensures old(watcher.session).None? <==> !exit.BarrierBusy?
      ensures watcher.session == old(watcher.session)
      ensures store.registry.tombstones == K.RunEvents(begun, log).lib.tombstones
      ensures begun.lib.tombstones == old(store.registry.tombstones)
      ensures if exit.BarrierBusy? then !escaped else watcher.deferred == map[] && watcher.order == []
      ensures !Attempted(exit) ==> store.targets == old(store.targets) && rebuilt.None?
      ensures Attempted(exit) ==> !old(store.targets) && !store.targets && store.rebuildGen.None?
      ensures rebuilt.Some? ==> NowRebuilt(old(store.View()), store.View(), rebuilt.value, e.commit)
      ensures rebuilt.Some? ==> Built(begun, {}, e.files, rebuilt.value, log)
      ensures rebuilt.Some? ==> begun == Apply(old(store.View()), BeginOver(old(store.generations.table), e.clears.0, e.clears.1))
      ensures rebuilt.None? ==> LiveKeptOrMoved(old(store.View()), store.View())
      ensures rebuilt.None? ==> store.registry.routing.base == old(store.registry.routing.base)
      ensures exit.SwitchedOver? ==> rebuilt.Some?
      ensures exit.AlreadyPending? ==> session in progress && progress[session].SessionRunning?
      ensures session in progress && progress[session].SessionRunning? ==> exit.AlreadyPending? || (exit.Threw? && e.handlerFinishFails)
    {
      rebuilt, begun, log := None, store.View(), [];
      var up, active := watcher.BeginRebuildBarrier(session);
      if !up {
        return BarrierBusy, false, rebuilt, begun, log;
      }
      if active != {} {
        var _, raised := Lower(session, e);
        return Conflict, raised, rebuilt, begun, log;
      }
      exit, rebuilt, begun, log := BeginAndAttempt(session, e);
      ghost var mid := store.View();
      var found;
      found, escaped := Lower(session, e);
      if rebuilt.Some? {
        RebuiltStays(old(store.View()), mid, store.View(), rebuilt.value, e.commit);
      } else {
        MovedTwice(old(store.View()), mid, store.View());
      }
    }

    // ----- The schema migration

    /** Ends the session and lowers the barrier; without a handler, an exception leaves the barrier up, but for
    one of the replay, which comes after it. */
    method Conclude(session: string, status: Progress, statesFail: bool, e: Events) returns (raised: bool, lost: bool)
      requires Valid() && watcher.session == Some(session)
      modifies `progress, watcher, store.registry
      ensures Valid() && store.registry.routing.base == old(store.registry.routing.base)
      ensures store.registry.tombstones == old(store.registry.tombstones)
      ensures LiveKeptOrMoved(old(store.View()), store.View())
      ensures raised == (statesFail || e.finishFails) && (lost ==> !raised)
      ensures watcher.session == if raised then Some(session) else None
      ensures !raised ==> watcher.deferred == map[] && watcher.order == []
    {
      if statesFail {
        return true, false;
      }
      FinishProgress(session, status, e.finishFails);
      if e.finishFails {
        return true, false;
      }
      raised := false;
      var found;
      found, lost := Lower(session, e);
    }

    method AbortMigration(session: string, statesFail: bool, e: Events) returns (raised: bool, lost: bool)
      requires Valid() && watcher.session == Some(session)
      modifies `progress, watcher, store, store.registry, store.generations
      ensures Valid() && !store.targets && raised == (statesFail || e.finishFails) && (lost ==> !raised)
      ensures watcher.session == if raised then Some(session) else None
      ensures !raised ==> watcher.deferred == map[] && watcher.order == []
      ensures LiveKeptOrMoved(old(store.View()), store.View()) && store.registry.routing.base == old(store.registry.routing.base)
      ensures store.registry.tombstones == old(store.registry.tombstones)
    {
      Abort(e);
      raised, lost := Conclude(session, SessionAborted, statesFail, e);
    }

    /** The delayed commit of the schema migration. It has no handler of its own, so the barrier stays up
    if and only if recording the outcome raises, or reading the jobs does, when the rebuild stays too; an
    exception of the replay, with the barrier down, is `lost`. */
    method MigrationCommit(session: string, candidates: seq<Source>, alreadyPending: seq<Source>, e: Events)
      returns (exit: Exit, raised: bool, lost: bool, ghost rebuilt: Option<Rebuild>, ghost log: seq<K.Event>)
      requires Valid() && store.targets && watcher.session == Some(session)
      modifies `progress, watcher, store, store.registry, store.generations
      ensures Valid()
      ensures store.registry.tombstones == K.RunEvents(old(store.View()), log).lib.tombstones
      ensures raised == Escapes(exit, e) && (lost ==> !raised)
      ensures watcher.session == if raised then Some(session) else None
      ensures !raised ==> watcher.deferred == map[] && watcher.order == []
      ensures store.targets == exit.Threw? && (exit.Threw? <==> alreadyPending == [] && e.readFails)
      ensures rebuilt.Some? <==> exit.SwitchedOver?
      ensures rebuilt.Some? ==> NowRebuilt(old(store.View()), store.View(), rebuilt.value, e.commit)
      ensures rebuilt.Some? ==> Built(old(store.View()), DoneAmong(old(watcher.State()), candidates), candidates, rebuilt.value, log)
      ensures rebuilt.Some? ==> Some(store.registry.routing.base) == old(store.rebuildGen)
      ensures rebuilt.None? ==> LiveKeptOrMoved(old(store.View()), store.View())
      ensures rebuilt.None? ==> store.registry.routing.base == old(store.registry.routing.base)
    {
      rebuilt, log, lost := None, [], false;
      if alreadyPending != [] {
        raised, lost := AbortMigration(session, false, e);
        return AlreadyPending, raised, lost, rebuilt, log;
      }
      var settled, done;
      settled, done, log := Await(candidates, e);
      if e.readFails {
        return Threw, true, false, rebuilt, log;
      }
      ghost var mid := store.View();
      if !done {
        raised, lost := AbortMigration(session, e.statesFail, e);
        MovedTwice(old(store.View()), mid, store.View());
        return if settled then JobsFailed else TimedOut, raised, lost, rebuilt, log;
      }
      exit, raised, lost, rebuilt := CommitMigration(session, candidates, e);
      MovedTwice(old(store.View()), mid, store.View());
    }

    method CommitOrAbort(paths: seq<Source>, e: Events) returns (ok: bool, ghost rebuilt: Option<Rebuild>)
      requires Valid() && store.targets && AllDone(paths)
      modifies store, store.registry`rows, store.registry`routing, store.registry`dirs, store.registry`clock, store.generations
      ensures Valid() && !store.targets && (rebuilt.Some? <==> ok)
      ensures ok ==> NowRebuilt(old(store.View()), store.View(), rebuilt.value, e.commit)
      ensures ok ==> Some(store.registry.routing.base) == old(store.rebuildGen)
      ensures ok ==> rebuilt.value == old(store.View()).rebuild
      ensures !ok ==> LiveKeptOrMoved(old(store.View()), store.View())
      ensures !ok ==> store.registry.routing.base == old(store.registry.routing.base)
    {
      ghost var content;
      ok, content := Commit(paths, e);
      if ok {
        rebuilt := Some(content);
      } else {
        Abort(e);
        rebuilt := None;
      }
    }

    /** Commits once every candidate is done, and aborts when that fails. */
    method CommitMigration(session: string, candidates: seq<Source>, e: Events)
      returns (exit: Exit, raised: bool, lost: bool, ghost rebuilt: Option<Rebuild>)
      requires Valid() && store.targets && watcher.session == Some(session) && AllDone(candidates)
      modifies `progress, watcher, store, store.registry, store.generations
      ensures Valid() && !store.targets && exit in {CommitRefused, SwitchedOver}
      ensures store.registry.tombstones == old(store.registry.tombstones)
      ensures raised == Escapes(exit, e) && (lost ==> !raised)
      ensures watcher.session == if raised then Some(session) else None
      ensures !raised ==> watcher.deferred == map[] && watcher.order == []
      ensures rebuilt.Some? <==> exit.SwitchedOver?
      ensures rebuilt.Some? ==> NowRebuilt(old(store.View()), store.View(), rebuilt.value, e.commit)
      ensures rebuilt.Some? ==> rebuilt.value == old(store.View()).rebuild
      ensures rebuilt.Some? ==> Some(store.registry.routing.base) == old(store.rebuildGen)
      ensures rebuilt.None? ==> LiveKeptOrMoved(old(store.View()), store.View())
      ensures rebuilt.None? ==> store.registry.routing.base == old(store.registry.routing.base)
    {
      var ok;
      ok, rebuilt := CommitOrAbort(candidates, e);
      ghost var mid := store.View();
      if !ok {
        raised, lost := Conclude(session, SessionAborted, false, e);
        MovedTwice(old(store.View()), mid, store.View());
        return CommitRefused, raised, lost, rebuilt;
      }
      raised, lost := Conclude(session, SessionCompleted, e.statesFail, e);
      RebuiltStays(old(store.View()), mid, store.View(), rebuilt.value, e.commit);
      return SwitchedOver, raised, lost, rebuilt;
    }
  }

  lemma MovedTwice(a: State, b: State, c: State)
    requires LiveKeptOrMoved(a, b)
    ensures LiveKeptOrMoved(b, c) ==> LiveKeptOrMoved(a, c)
  {
  }

  /** Replacing the new, still empty delta changes nothing. */
  lemma RebuiltStays(a: State, b: State, c: State, rebuilt: Rebuild, f: CommitFaults)
    requires NowRebuilt(a, b, rebuilt, f) && LiveKeptOrMoved(b, c)
    ensures NowRebuilt(a, c, rebuilt, f)
  {
  }

  function DoneAmong(jobs: W.WState, files: seq<Source>): set<Source> {
    set s | s in files && JobDone(jobs, s)
  }

  /** A job in a rebuild leaves the live collections alone. */
  lemma WorkKeepsLive(st: State, w: K.Work)
    requires st.rebuild.Active?
    ensures LiveKept(st, Run(st, K.WorkSteps(w))) && Run(st, K.WorkSteps(w)).rebuild.Active?
  {
    K.StepsAreWrites(w);
    RebuildIsolated(st, K.WorkSteps(w));
  }

  /** Nothing was done to the rebuild, and no job became done. */
  lemma NothingHappened(a: Snapshot, b: Snapshot)
    requires LiveKeptOrMoved(a.view, b.view) && b.base == a.base && b.jobs.session == a.jobs.session
    requires K.SameRebuild(a.view, b.view) && forall s :: JobDone(b.jobs, s) ==> JobDone(a.jobs, s)
    ensures Explains(a, b, [])
  {
  }

  lemma IndexExplains(a: Snapshot, b: Snapshot, w: K.Work, done: bool, failure: W.FailureClass)
    requires a.view.rebuild.Active? && b.view == Run(a.view, K.WorkSteps(w)) && b.base == a.base
    requires done == K.ReportsDone(a.view, w)
    requires b.jobs == W.Worked(a.jobs, w.source, if done then W.Done else W.Failed, failure)
    ensures Explains(a, b, [K.Indexed(w)])
  {
    WorkKeepsLive(a.view, w);
    K.EventsNext(a.view, [], K.Indexed(w));
    assert [] + [K.Indexed(w)] == [K.Indexed(w)];
    forall s | JobDone(b.jobs, s)
      ensures K.LastDone(a.view, [K.Indexed(w)], s, JobDone(a.jobs, s))
    {
      K.LastDoneNext(a.view, [], K.Indexed(w), s, JobDone(a.jobs, s));
    }
  }

  lemma DeleteExplains(a: Snapshot, b: Snapshot, s: Source, d: DeleteFaults)
    requires a.view.rebuild.Active? && b.view == DeleteStep(a.view, s, d) && b.base == a.base && b.jobs == a.jobs
    ensures Explains(a, b, [K.Deleted(s, d)])
  {
    K.EventsNext(a.view, [], K.Deleted(s, d));
    K.RunOne(a.view, K.EventSteps(K.Deleted(s, d)));
    assert [] + [K.Deleted(s, d)] == [K.Deleted(s, d)];
    forall t | JobDone(b.jobs, t)
      ensures K.LastDone(a.view, [K.Deleted(s, d)], t, JobDone(a.jobs, t))
    {
      K.LastDoneNext(a.view, [], K.Deleted(s, d), t, JobDone(a.jobs, t));
    }
  }

  /** Jobs found done at the end were reported done, or were done before. */
  lemma AllDoneBuilt(a: Snapshot, b: Snapshot, files: seq<Source>, log: seq<K.Event>)
    requires Explains(a, b, log) && forall i :: 0 <= i < |files| ==> JobDone(b.jobs, files[i])
    ensures Built(a.view, DoneAmong(a.jobs, files), files, b.view.rebuild, log)
  {
  }

  /** What a driver committed after indexing every file once: no record stands above its row, so that the
  commit was fair, if and only if each write whose result the reports ignored left none. */
  lemma {:induction false} CommittedFairIff(before: State, files: seq<Source>, works: seq<K.Work>, rebuilt: Rebuild)
    requires before.rebuild.Idle? && K.OnceEach(works)
    requires Built(Apply(before, BEGIN), {}, files, rebuilt, K.Indexings(works))
    requires forall i :: 0 <= i < |works| ==> works[i].source in files
    ensures rebuilt.Active?
    ensures (forall k, s :: NoneAbove(ShelfOf(rebuilt, k), s)) <==> forall i :: 0 <= i < |works| ==> K.IgnoredHarmless(works[i])
  {
    var begun := Apply(before, BEGIN);
    forall i | 0 <= i < |works|
      ensures K.LastDone(begun, K.Indexings(works), works[i].source, false)
    {
      var j :| 0 <= j < |files| && files[j] == works[i].source;
    }
    K.LastReportsAreAll(begun, works);
    K.AllDoneFairIff(before, works);
    K.WorksAbsent(begun, works, Text, "");
    K.FairSwitch(K.RunWorks(begun, works));
  }

  /** Files whose jobs were queued by the scan were not done before. */
  lemma FreshlyBuilt(a: Snapshot, b: Snapshot, files: seq<Source>, rebuilt: Rebuild, log: seq<K.Event>)
    requires Explains(a, b, []) && Built(b.view, DoneAmong(b.jobs, files), files, rebuilt, log)
    requires forall i :: 0 <= i < |files| ==> !JobDone(b.jobs, files[i])
    ensures Built(a.view, {}, files, rebuilt, log)
  {
    K.SameEvents(a.view, b.view, log);
    forall i | 0 <= i < |files|
      ensures K.LastDone(a.view, log, files[i], false)
    {
      K.SameLastDone(a.view, b.view, log, files[i], false);
    }
  }

  /** The rebuild was begun. */
  predicate Attempted(exit: Exit) {
    !exit.BarrierBusy? && !exit.Conflict? && !exit.NotStarted?
  }

  /** An exception leaves the migration driver. */
  predicate Escapes(exit: Exit, e: Events) {
    match exit
    case AlreadyPending => e.finishFails
    case CommitRefused => e.finishFails
    case Threw => true
    case _ => e.statesFail || e.finishFails
  }

  predicate Ends(status: Progress, exit: Exit) {
    match exit
    case AlreadyPending => status.SessionRunning?
    case SwitchedOver => status.SessionCompleted?
    case Threw => true
    case _ => status.SessionAborted?
  }
}
