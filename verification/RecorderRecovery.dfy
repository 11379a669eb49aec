/** Supervision, recovery, and at most one recorder per stream: what needs forks or writes to succeed,
    and exactly which failures break it. */
module RecorderRecovery {
  import opened Options
  import opened Recorder
  import opened RecorderSafety
  import opened RecorderRuns

  ghost predicate Running(w: World, p: Pid) {
    p in w.procs && w.procs[p].live
  }

  // ---------------------------------------------------------------------------------------------
  // No row is ever unsupervised

  /** The orphan query matches the row, or the reap loop will hear of its pid, or has just heard. */
  ghost predicate RowSupervised(w: World, r: Row) {
    || r.ppid != w.supervisor
    || (r.pid in w.procs && w.procs[r.pid].parent == w.supervisor)
    || r.pid in w.notices
  }

  ghost predicate Supervised(w: World) {
    forall d :: d in w.table ==> RowSupervised(w, w.table[d])
  }

  /** A reload that found one of this supervisor's own rows for a reaped pid and did not finish. */
  predicate Abandons(w: World, e: Event)
    requires Possible(w, e)
  {
    e.Notify? && !CleanReload(e.reload) && w.table[e.reload.found].ppid == w.supervisor
  }

  lemma NotifySupervision(w: World, pid: Pid, r: Reload)
    requires Possible(w, Notify(pid, r)) && TableOk(w) && PidsOk(w) && Supervised(w)
    ensures Supervised(Step(w, Notify(pid, r))) <==> !Abandons(w, Notify(pid, r))
  {
  }

  lemma InspectSupervision(w: World, r: Reload)
    requires Possible(w, Inspect(r)) && TableOk(w) && PidsOk(w) && Supervised(w)
    ensures Supervised(Step(w, Inspect(r)))
  {
  }

  /** One step takes a row out of supervision exactly when it is an unfinished reload of this
      supervisor's own row. */
  lemma StepSupervision(w: World, e: Event)
    requires Possible(w, e) && TableOk(w) && PidsOk(w) && Supervised(w)
    ensures Supervised(Step(w, e)) <==> !Abandons(w, e)
  {
    match e
    case Notify(pid, r) => NotifySupervision(w, pid, r);
    case Inspect(r) => InspectSupervision(w, r);
    case Restart(pid) =>
    case _ =>
      var w' := Step(w, e);
      forall d | d in w'.table ensures RowSupervised(w', w'.table[d]) {
        assert d in w.table ==> RowSupervised(w, w.table[d]);
      }
  }

  ghost predicate NeverAbandons(w: World, es: seq<Event>)
    requires Feasible(w, es)
    decreases |es|
  {
    es == [] || (!Abandons(w, es[0]) && NeverAbandons(Step(w, es[0]), es[1..]))
  }

  /** Every row is supervised in every state of the run. */
  ghost predicate SupervisedThroughout(w: World, es: seq<Event>)
    requires Feasible(w, es)
    decreases |es|
  {
    Supervised(w) && (es == [] || SupervisedThroughout(Step(w, es[0]), es[1..]))
  }

  lemma {:induction false} RunSupervision(w: World, es: seq<Event>)
    requires Feasible(w, es) && Safe(w) && Supervised(w)
    ensures SupervisedThroughout(w, es) <==> NeverAbandons(w, es)
    ensures NeverAbandons(w, es) ==> Supervised(Run(w, es))
    decreases |es|
  {
    if es != [] {
      StepKeepsSafe(w, es[0]);
      StepSupervision(w, es[0]);
      if !Abandons(w, es[0]) {
        RunSupervision(Step(w, es[0]), es[1..]);
      }
    }
  }

  /** Across any number of restarts, although a repair rewrites only the pid, and whatever else fails: no
      row is ever unsupervised exactly when no reload of an own row is left unfinished. */
  lemma NoRowUnsupervised(supervisor: Pid, es: seq<Event>)
    requires supervisor != INIT && Feasible(Boot(supervisor), es)
    ensures SupervisedThroughout(Boot(supervisor), es) <==> NeverAbandons(Boot(supervisor), es)
    ensures NeverAbandons(Boot(supervisor), es) ==> Supervised(Run(Boot(supervisor), es))
  {
    RunSupervision(Boot(supervisor), es);
  }

  // ---------------------------------------------------------------------------------------------
  // A row once abandoned stays abandoned

  /** A pid the kernel knows is this supervisor's child, and the orphan pass will not look at it. */
  ghost predicate OwnRowOk(w: World, p: Pid) {
    && (p in w.procs ==> w.procs[p].parent == w.supervisor)
    && (forall r :: r in w.snapshot ==> r.pid != p)
  }

  ghost predicate OwnRowsOk(w: World) {
    forall d :: d in w.table && w.table[d].ppid == w.supervisor ==> OwnRowOk(w, w.table[d].pid)
  }

  lemma ReloadKeepsOwnRows(w: World, pid: Pid, r: Reload)
    requires ReloadPossible(w, pid, r) && PidsOk(w) && OwnRowsOk(w)
    ensures OwnRowsOk(ReloadStep(w, pid, r))
  {
    var w' := ReloadStep(w, pid, r);
    forall d | d in w'.table && w'.table[d].ppid == w'.supervisor ensures OwnRowOk(w', w'.table[d].pid) {
      assert d in w.table && w.table[d].ppid == w.supervisor;
    }
  }

  lemma SnapshotKeepsOwnRows(w: World, order: seq<DocId>)
    requires Possible(w, Snapshot(order)) && UniquePids(w.table) && OwnRowsOk(w)
    ensures OwnRowsOk(Step(w, Snapshot(order)))
  {
    var w' := Step(w, Snapshot(order));
    forall d | d in w.table && w.table[d].ppid == w.supervisor ensures OwnRowOk(w', w.table[d].pid) {
      assert OwnRowOk(w, w.table[d].pid);
      forall r | r in w'.snapshot ensures r.pid != w.table[d].pid {
        var i :| 0 <= i < |w'.snapshot| && w'.snapshot[i] == r;
        assert r == w.table[order[i]] && order[i] != d;
      }
    }
  }

  lemma SpawnKeepsOwnRows(w: World, child: Pid, inserted: Option<DocId>)
    requires Possible(w, Spawn(Some(child), inserted)) && PidsOk(w) && OwnRowsOk(w)
    ensures OwnRowsOk(SpawnStep(w, child, inserted))
  {
    var w' := SpawnStep(w, child, inserted);
    assert forall p :: p in w.used && OwnRowOk(w, p) ==> OwnRowOk(w', p);
    assert OwnRowOk(w', child);
  }

  lemma QuietKeepsOwnRows(w: World, e: Event)
    requires Possible(w, e) && OwnRowsOk(w)
    requires !e.Notify? && !e.Inspect? && !e.Snapshot? && !e.Restart? && !(e.Spawn? && e.child.Some?)
    ensures OwnRowsOk(Step(w, e))
  {
    assert forall p :: OwnRowOk(w, p) ==> OwnRowOk(Step(w, e), p);
  }

  lemma StepKeepsOwnRows(w: World, e: Event)
    requires Possible(w, e) && TableOk(w) && PidsOk(w) && OwnRowsOk(w)
    ensures OwnRowsOk(Step(w, e))
  {
    var w' := Step(w, e);
    match e
    case Notify(pid, r) =>
      ReloadKeepsOwnRows(w, pid, r);
      assert forall p :: OwnRowOk(ReloadStep(w, pid, r), p) ==> OwnRowOk(w', p);
    case Inspect(r) =>
      if w.snapshot[0].pid in w.procs {
        assert forall p :: OwnRowOk(w, p) ==> OwnRowOk(w', p);
      } else {
        ReloadKeepsOwnRows(w, w.snapshot[0].pid, r);
        assert forall p :: OwnRowOk(ReloadStep(w, w.snapshot[0].pid, r), p) ==> OwnRowOk(w', p);
      }
    case Snapshot(order) => SnapshotKeepsOwnRows(w, order);
    case Spawn(Some(child), inserted) => SpawnKeepsOwnRows(w, child, inserted);
    case Restart(_) =>
    case _ => QuietKeepsOwnRows(w, e);
  }

  lemma {:induction false} RunKeepsOwnRows(w: World, es: seq<Event>)
    requires Feasible(w, es) && Safe(w) && OwnRowsOk(w)
    ensures OwnRowsOk(Run(w, es))
    decreases |es|
  {
    if es != [] {
      StepKeepsSafe(w, es[0]);
      StepKeepsOwnRows(w, es[0]);
      RunKeepsOwnRows(Step(w, es[0]), es[1..]);
    }
  }

  lemma ReachableOwnRows(w: World)
    requires Reachable(w)
    ensures OwnRowsOk(w)
  {
    var supervisor, es :| Reaches(w, supervisor, es);
    RunKeepsOwnRows(Boot(supervisor), es);
  }

  /** The row is there, with this value, and unsupervised. */
  ghost predicate Abandoned(w: World, d: DocId, r: Row) {
    d in w.table && w.table[d] == r && !RowSupervised(w, r)
  }

  lemma ReloadKeepsAbandoned(w: World, pid: Pid, r: Reload, d: DocId, row: Row)
    requires ReloadPossible(w, pid, r) && TableOk(w) && PidsOk(w) && Abandoned(w, d, row) && pid != row.pid
    ensures Abandoned(ReloadStep(w, pid, r), d, row)
  {
  }

  lemma StepKeepsAbandoned(w: World, e: Event, d: DocId, row: Row)
    requires Possible(w, e) && TableOk(w) && PidsOk(w) && OwnRowsOk(w) && Abandoned(w, d, row)
    requires !e.Restart? && d in Step(w, e).table
    ensures Abandoned(Step(w, e), d, row)
  {
    assert OwnRowOk(w, row.pid);
    match e
    case Notify(pid, r) => ReloadKeepsAbandoned(w, pid, r, d, row);
    case Inspect(r) =>
      assert w.snapshot[0] in w.snapshot;
      if w.snapshot[0].pid !in w.procs { ReloadKeepsAbandoned(w, w.snapshot[0].pid, r, d, row); }
    case _ =>
  }

  lemma {:induction false} RunKeepsAbandoned(w: World, es: seq<Event>, d: DocId, row: Row)
    requires Feasible(w, es) && Safe(w) && OwnRowsOk(w) && Abandoned(w, d, row)
    requires (forall e :: e in es ==> !e.Restart?) && Survives(w, es, d)
    ensures Abandoned(Run(w, es), d, row)
    decreases |es|
  {
    if es != [] {
      assert es[0] in es;
      StepKeepsSafe(w, es[0]);
      StepKeepsOwnRows(w, es[0]);
      StepKeepsAbandoned(w, es[0], d, row);
      RunKeepsAbandoned(Step(w, es[0]), es[1..], d, row);
    }
  }

  /** An unsupervised row is looked at by nobody: until the supervisor restarts or the row is removed, it
      keeps its value and stays unsupervised, and the process it names is gone. */
  lemma AbandonedUntilRestart(w: World, es: seq<Event>, d: DocId)
    requires Reachable(w) && Feasible(w, es) && Survives(w, es, d) && !RowSupervised(w, w.table[d])
    requires forall e :: e in es ==> !e.Restart?
    ensures var w' := Run(w, es);
            && d in w'.table && w'.table[d] == w.table[d] && !RowSupervised(w', w'.table[d])
            && w'.table[d].pid !in w'.procs
  {
    ReachableIsSafe(w);
    ReachableOwnRows(w);
    RunKeepsAbandoned(w, es, d, w.table[d]);
    RunKeepsSafe(w, es);
    RunKeepsOwnRows(w, es);
    assert OwnRowOk(Run(w, es), w.table[d].pid);
  }

  // ---------------------------------------------------------------------------------------------
  // At most one recorder per stream

  /** Every running recorder is named by a row, unless a stop has taken its row away. */
  ghost predicate Tracked(w: World) {
    forall p :: Running(w, p) && p !in w.hist.stopped ==> NamesPid(w.table, p)
  }

  predicate UnrecordedReload(r: Reload) {
    r.Reloaded? && r.updated.None?
  }

  /** A fork happened and the write that should record it did not. */
  predicate Unrecorded(e: Event) {
    match e
    case Spawn(Some(_), inserted) => inserted.None?
    case Notify(_, r) => UnrecordedReload(r)
    case Inspect(r) => UnrecordedReload(r)
    case _ => false
  }

  /** A reload forked and failed to write the new pid. */
  predicate Unupdated(e: Event) {
    (e.Notify? || e.Inspect?) && UnrecordedReload(e.reload)
  }

  lemma ReloadTracking(w: World, pid: Pid, r: Reload)
    requires ReloadPossible(w, pid, r) && TableOk(w) && PidsOk(w) && Tracked(w) && pid !in w.procs
    ensures Tracked(ReloadStep(w, pid, r)) <==> !UnrecordedReload(r)
  {
    var w' := ReloadStep(w, pid, r);
    if UnrecordedReload(r) {
      assert Running(w', r.child) && !NamesPid(w'.table, r.child);
    } else {
      forall p | Running(w', p) && p !in w'.hist.stopped ensures NamesPid(w'.table, p) {
        if r.Reloaded? && p == r.child {
          assert w'.table[r.updated.value].pid == p;
        } else {
          assert Running(w, p);
          var d :| d in w.table && w.table[d].pid == p;
          assert w'.table[d].pid == p;
        }
      }
    }
  }

  lemma SpawnTracking(w: World, child: Pid, inserted: Option<DocId>)
    requires Possible(w, Spawn(Some(child), inserted)) && PidsOk(w) && Tracked(w)
    ensures Tracked(SpawnStep(w, child, inserted)) <==> inserted.Some?
  {
    var w' := SpawnStep(w, child, inserted);
    if inserted.None? {
      assert Running(w', child) && !NamesPid(w'.table, child);
    } else {
      forall p | Running(w', p) && p !in w'.hist.stopped ensures NamesPid(w'.table, p) {
        if p == child {
          assert w'.table[inserted.value].pid == p;
        } else {
          assert Running(w, p);
          var d :| d in w.table && w.table[d].pid == p;
          assert w'.table[d].pid == p;
        }
      }
    }
  }

  lemma StopTracking(w: World, sid: string, found: DocId, removed: Option<DocId>)
    requires Possible(w, Stop(sid, Some(found), removed)) && TableOk(w) && Tracked(w)
    ensures Tracked(StopStep(w, sid, found, removed))
  {
    var w' := StopStep(w, sid, found, removed);
    forall p | Running(w', p) && p !in w'.hist.stopped ensures NamesPid(w'.table, p) {
      assert Running(w, p);
      var d :| d in w.table && w.table[d].pid == p;
      assert w'.table[d].pid == p;
    }
  }

  /** The processes that can run after these steps ran before, and the table is as it was. */
  lemma QuietTracking(w: World, e: Event)
    requires Possible(w, e) && Tracked(w)
    requires !e.Stop? && !e.Spawn? && !e.Notify? && !e.Inspect?
    ensures Tracked(Step(w, e))
  {
  }

  /** One step leaves a running recorder without a row exactly when it forks and fails to record it. */
  lemma StepTracking(w: World, e: Event)
    requires Possible(w, e) && TableOk(w) && PidsOk(w) && Tracked(w)
    ensures Tracked(Step(w, e)) <==> !Unrecorded(e)
  {
    match e
    case Stop(sid, Some(found), removed) => StopTracking(w, sid, found, removed);
    case Stop(_, None, _) =>
    case Spawn(Some(child), inserted) => SpawnTracking(w, child, inserted);
    case Spawn(None, _) => assert forall p :: Running(Step(w, e), p) ==> Running(w, p);
    case Notify(pid, r) =>
      ReloadTracking(w, pid, r);
      assert forall p :: Running(Step(w, e), p) <==> Running(ReloadStep(w, pid, r), p);
    case Inspect(r) =>
      if w.snapshot[0].pid in w.procs {
        assert forall p :: Running(Step(w, e), p) <==> Running(w, p);
      } else {
        ReloadTracking(w, w.snapshot[0].pid, r);
        assert forall p :: Running(Step(w, e), p) <==> Running(ReloadStep(w, w.snapshot[0].pid, r), p);
      }
    case _ => QuietTracking(w, e);
  }

  /** A run in which every fork gets recorded; forks and removals may fail. */
  predicate RecordedRun(es: seq<Event>) {
    forall e :: e in es ==> !Unrecorded(e)
  }

  ghost predicate RecordedReachable(w: World) {
    exists supervisor, es :: Reaches(w, supervisor, es) && RecordedRun(es)
  }

  ghost predicate Retired(w: World, p: Pid) {
    p in w.used && p !in w.procs && !NamesPid(w.table, p)
  }

  /** A replaced pid has left the process table and the collection, so it was replaced only once. */
  ghost predicate ReplacedOk(w: World) {
    && (forall q :: q in w.hist.launches && w.hist.launches[q].cause.Replaces? ==>
          Retired(w, w.hist.launches[q].cause.dead))
    && (forall p, q ::
          (&& p in w.hist.launches && q in w.hist.launches && w.hist.launches[p].cause.Replaces?
           && w.hist.launches[p].cause == w.hist.launches[q].cause) ==> p == q)
  }

  lemma ReloadKeepsReplaced(w: World, pid: Pid, r: Reload)
    requires ReloadPossible(w, pid, r) && TableOk(w) && PidsOk(w) && ReplacedOk(w)
    requires pid in w.used && pid !in w.procs && !UnrecordedReload(r)
    ensures ReplacedOk(ReloadStep(w, pid, r))
  {
    var w' := ReloadStep(w, pid, r);
    if r.Reloaded? {
      assert r.updated.value == r.found;
      forall q | q in w'.hist.launches && w'.hist.launches[q].cause.Replaces?
        ensures Retired(w', w'.hist.launches[q].cause.dead)
      {
        assert q != r.child ==> Retired(w, w.hist.launches[q].cause.dead);
      }
      assert NamesPid(w.table, pid);
    }
  }

  lemma SpawnKeepsReplaced(w: World, child: Pid, inserted: Option<DocId>)
    requires Possible(w, Spawn(Some(child), inserted)) && PidsOk(w) && ReplacedOk(w)
    ensures ReplacedOk(SpawnStep(w, child, inserted))
  {
  }

  lemma QuietKeepsReplaced(w: World, e: Event)
    requires Possible(w, e) && ReplacedOk(w)
    requires !e.Notify? && !e.Inspect? && !(e.Spawn? && e.child.Some?)
    ensures ReplacedOk(Step(w, e))
  {
    forall p | Retired(w, p) ensures Retired(Step(w, e), p) {
    }
  }

  lemma StepKeepsReplaced(w: World, e: Event)
    requires Possible(w, e) && TableOk(w) && PidsOk(w) && ReplacedOk(w) && !Unupdated(e)
    ensures ReplacedOk(Step(w, e))
  {
    match e
    case Notify(pid, r) =>
      ReloadKeepsReplaced(w, pid, r);
      assert forall p :: Retired(ReloadStep(w, pid, r), p) ==> Retired(Step(w, e), p);
    case Inspect(r) =>
      if w.snapshot[0].pid in w.procs {
        assert forall p :: Retired(w, p) ==> Retired(Step(w, e), p);
      } else {
        assert w.snapshot[0] in w.snapshot;
        ReloadKeepsReplaced(w, w.snapshot[0].pid, r);
        assert forall p :: Retired(ReloadStep(w, w.snapshot[0].pid, r), p) ==> Retired(Step(w, e), p);
      }
    case Spawn(Some(child), inserted) => SpawnKeepsReplaced(w, child, inserted);
    case _ => QuietKeepsReplaced(w, e);
  }

  lemma {:induction false} RunKeepsReplaced(w: World, es: seq<Event>)
    requires Feasible(w, es) && Safe(w) && ReplacedOk(w) && (forall e :: e in es ==> !Unupdated(e))
    ensures ReplacedOk(Run(w, es))
    decreases |es|
  {
    if es != [] {
      StepKeepsSafe(w, es[0]);
      assert es[0] in es;
      StepKeepsReplaced(w, es[0]);
      RunKeepsReplaced(Step(w, es[0]), es[1..]);
    }
  }

  /** A stale orphan snapshot is harmless: as long as the new pids get written, the second lookup by pid
      keeps a dead recorder from being replaced twice, by the handler and the monitor or by two passes. */
  lemma ReplacedAtMostOnce(w: World, supervisor: Pid, es: seq<Event>, p: Pid, q: Pid)
    requires Reaches(w, supervisor, es) && (forall e :: e in es ==> !Unupdated(e))
    requires p in w.hist.launches && q in w.hist.launches
    requires w.hist.launches[p].cause.Replaces? && w.hist.launches[p].cause == w.hist.launches[q].cause
    ensures p == q
  {
    RunKeepsReplaced(Boot(supervisor), es);
  }

  lemma {:induction false} RunTracking(w: World, es: seq<Event>)
    requires Feasible(w, es) && Safe(w) && Tracked(w) && RecordedRun(es)
    ensures Tracked(Run(w, es))
    decreases |es|
  {
    if es != [] {
      StepKeepsSafe(w, es[0]);
      assert es[0] in es;
      StepTracking(w, es[0]);
      RunTracking(Step(w, es[0]), es[1..]);
    }
  }

  lemma RecordedIsSafe(w: World)
    requires RecordedReachable(w)
    ensures Safe(w) && Tracked(w)
  {
    var supervisor, es :| Reaches(w, supervisor, es) && RecordedRun(es);
    RunKeepsSafe(Boot(supervisor), es);
    RunTracking(Boot(supervisor), es);
  }

  /** Two running recorders of one stream: a stop has claimed one of them, and its SIGINT is sent,
      about to be sent, or died with a supervisor. */
  lemma AtMostOneRecorder(w: World, p: Pid, q: Pid)
    requires RecordedReachable(w) && Running(w, p) && Running(w, q) && p != q
    ensures p in w.hist.launches && q in w.hist.launches
    ensures w.hist.launches[p].job.sid == w.hist.launches[q].job.sid ==>
              || p in w.hist.stopped * (w.signalled + w.signals + w.hist.lost)
              || q in w.hist.stopped * (w.signalled + w.signals + w.hist.lost)
  {
    RecordedIsSafe(w);
    if p !in w.hist.stopped && q !in w.hist.stopped {
      var c :| c in w.table && w.table[c].pid == p;
      var d :| d in w.table && w.table[d].pid == q;
      assert c != d;
    }
  }

  /** A stop that took a running recorder's row away has signalled it or is about to. */
  ghost predicate Claimed(w: World) {
    forall p :: Running(w, p) && p in w.hist.stopped ==> p in w.signals + w.signalled
  }

  /** The supervisor dies between a stop's removal and its kill, while the recorder is still running. */
  ghost predicate Forgets(w: World, e: Event) {
    e.Restart? && exists p :: p in w.signals && p in w.hist.stopped && p !in w.signalled && Running(w, p)
  }

  /** One step leaves a stopped recorder running without a SIGINT exactly when it is such a death. */
  lemma StepClaims(w: World, e: Event)
    requires Possible(w, e) && PidsOk(w) && Claimed(w)
    ensures Claimed(Step(w, e)) <==> !Forgets(w, e)
  {
    var w' := Step(w, e);
    assert forall p :: Running(w', p) && p in w.used ==> Running(w, p);
    if Forgets(w, e) {
      var p :| p in w.signals && p in w.hist.stopped && p !in w.signalled && Running(w, p);
      assert Running(w', p) && p in w'.hist.stopped;
    }
  }

  /** No supervisor on the run forgets a stop. */
  ghost predicate Heeded(w: World, es: seq<Event>)
    requires Feasible(w, es)
    decreases |es|
  {
    es == [] || (!Forgets(w, es[0]) && Heeded(Step(w, es[0]), es[1..]))
  }

  lemma {:induction false} RunClaims(w: World, es: seq<Event>)
    requires Feasible(w, es) && Safe(w) && Claimed(w) && Heeded(w, es)
    ensures Claimed(Run(w, es))
    decreases |es|
  {
    if es != [] {
      StepKeepsSafe(w, es[0]);
      StepClaims(w, es[0]);
      RunClaims(Step(w, es[0]), es[1..]);
    }
  }

  /** Every running recorder has a row, or a SIGINT sent or pending. */
  ghost predicate Accounted(w: World) {
    forall p :: Running(w, p) && p !in w.signals + w.signalled ==> NamesPid(w.table, p)
  }

  /** As long as forks get recorded, the forgotten stops are the only way to lose track of a recorder. */
  lemma AccountedExactly(w: World)
    requires RecordedReachable(w)
    ensures Accounted(w) <==> Claimed(w)
  {
    RecordedIsSafe(w);
  }

  /** When forks get recorded and no stop has been forgotten, a stream has at most one running recorder
      without a SIGINT sent or pending. */
  lemma AtMostOneUnsignalled(w: World, p: Pid, q: Pid)
    requires RecordedReachable(w) && Claimed(w)
    requires Running(w, p) && p !in w.signalled + w.signals && p in w.hist.launches
    requires Running(w, q) && q !in w.signalled + w.signals && q in w.hist.launches
    requires w.hist.launches[p].job.sid == w.hist.launches[q].job.sid
    ensures p == q
  {
    if p != q {
      AtMostOneRecorder(w, p, q);
    }
  }

  /** No stop is forgotten along a run whose supervisors all heed theirs. */
  lemma HeededIsClaimed(supervisor: Pid, es: seq<Event>)
    requires supervisor != INIT && Feasible(Boot(supervisor), es) && Heeded(Boot(supervisor), es)
    ensures Claimed(Run(Boot(supervisor), es))
  {
    RunClaims(Boot(supervisor), es);
  }

  // ---------------------------------------------------------------------------------------------
  // Recovery

  ghost predicate AllRowsLive(w: World) {
    forall d :: d in w.table ==> Running(w, w.table[d].pid)
  }

  /** Exited, unreaped, and not the supervisor's to reap: `kill(pid, 0)` still finds it. */
  ghost predicate Stray(w: World, p: Pid) {
    p in w.procs && !w.procs[p].live && w.procs[p].parent != w.supervisor
  }

  /** A recorder is the supervisor's child, or init has inherited it. */
  ghost predicate ParentsOk(w: World) {
    forall p :: p in w.procs ==> w.procs[p].parent == w.supervisor || w.procs[p].parent == INIT
  }

  lemma {:induction false} RunKeepsParents(w: World, es: seq<Event>)
    requires Feasible(w, es) && ParentsOk(w)
    ensures ParentsOk(Run(w, es))
    decreases |es|
  {
    if es != [] {
      assert ParentsOk(Step(w, es[0]));
      RunKeepsParents(Step(w, es[0]), es[1..]);
    }
  }

  /** What stands in the way of recovery is init's to reap, at any time. */
  lemma StrayIsInits(w: World, p: Pid)
    requires Reachable(w) && Stray(w, p)
    ensures Possible(w, InitReap(p)) && !Stray(Step(w, InitReap(p)), p)
  {
    var supervisor, es :| Reaches(w, supervisor, es);
    RunKeepsParents(Boot(supervisor), es);
  }

  ghost predicate NamesStray(w: World) {
    exists d :: d in w.table && Stray(w, w.table[d].pid)
  }

  /** The reap loop has run dry and the monitor is between passes. */
  ghost predicate Drained(w: World) {
    && w.notices == {} && w.snapshot == []
    && (forall p :: p in w.procs && !w.procs[p].live ==> w.procs[p].parent != w.supervisor)
  }

  /** Any step of any actor that does not fail; no recorder exits and the supervisor lives on. */
  predicate Steady(e: Event) {
    Clean(e) && !e.Exit? && !e.Restart?
  }

  predicate SteadyRun(es: seq<Event>) {
    forall e :: e in es ==> Steady(e)
  }

  /** And no stream is stopped and init reaps nothing. */
  predicate CalmRun(es: seq<Event>) {
    forall e :: e in es ==> Steady(e) && !e.Stop? && !e.InitReap?
  }

  /** What the monitor does after its snapshot, and whatever the others do meanwhile. */
  predicate OnePass(es: seq<Event>) {
    forall e :: e in es ==> !e.Snapshot?
  }

  // No step but an exit makes a stray; none but a stop or init takes one away

  lemma ReloadKeepsStray(w: World, pid: Pid, r: Reload)
    requires ReloadPossible(w, pid, r) && TableOk(w) && PidsOk(w) && pid !in w.procs
    ensures NamesStray(ReloadStep(w, pid, r)) <==> NamesStray(w)
  {
    var w' := ReloadStep(w, pid, r);
    assert forall p :: Stray(w', p) <==> Stray(w, p);
    if d :| d in w.table && Stray(w, w.table[d].pid) {
      assert w'.table[d].pid == w.table[d].pid;
    }
    if d :| d in w'.table && Stray(w', w'.table[d].pid) {
      assert w'.table[d].pid == w.table[d].pid;
    }
  }

  lemma SpawnKeepsStray(w: World, child: Pid, inserted: Option<DocId>)
    requires Possible(w, Spawn(Some(child), inserted)) && PidsOk(w)
    ensures NamesStray(SpawnStep(w, child, inserted)) <==> NamesStray(w)
  {
    var w' := SpawnStep(w, child, inserted);
    assert forall p :: Stray(w', p) <==> Stray(w, p);
    if d :| d in w.table && Stray(w, w.table[d].pid) {
      assert d in w'.table && w'.table[d] == w.table[d];
    }
  }

  lemma StepStray(w: World, e: Event)
    requires Possible(w, e) && TableOk(w) && PidsOk(w) && Steady(e)
    ensures NamesStray(Step(w, e)) ==> NamesStray(w)
    ensures NamesStray(w) && !e.Stop? && !e.InitReap? ==> NamesStray(Step(w, e))
  {
    var w' := Step(w, e);
    match e
    case Notify(pid, r) =>
      ReloadKeepsStray(w, pid, r);
      assert forall p :: Stray(w', p) <==> Stray(ReloadStep(w, pid, r), p);
    case Inspect(r) =>
      if w.snapshot[0].pid in w.procs {
        assert forall p :: Stray(w', p) <==> Stray(w, p);
      } else {
        ReloadKeepsStray(w, w.snapshot[0].pid, r);
        assert forall p :: Stray(w', p) <==> Stray(ReloadStep(w, w.snapshot[0].pid, r), p);
      }
    case Spawn(Some(child), inserted) => SpawnKeepsStray(w, child, inserted);
    case Exit(_) =>
    case Restart(_) =>
    case _ =>
      assert forall p :: Stray(w', p) ==> Stray(w, p);
      assert !e.InitReap? ==> forall p :: Stray(w, p) ==> Stray(w', p);
  }

  lemma {:induction false} RunStray(w: World, es: seq<Event>)
    requires Feasible(w, es) && Safe(w) && SteadyRun(es)
    ensures NamesStray(Run(w, es)) ==> NamesStray(w)
    ensures NamesStray(w) && CalmRun(es) ==> NamesStray(Run(w, es))
    decreases |es|
  {
    if es != [] {
      assert es[0] in es;
      StepStray(w, es[0]);
      StepKeepsSafe(w, es[0]);
      RunStray(Step(w, es[0]), es[1..]);
    }
  }

  // No step takes a row out of supervision, and none but a stop and a restart brings one back

  lemma StepKeepsSupervision(w: World, e: Event)
    requires Possible(w, e) && TableOk(w) && PidsOk(w) && OwnRowsOk(w) && Steady(e)
    ensures Supervised(w) ==> Supervised(Step(w, e))
    ensures Supervised(Step(w, e)) && !e.Stop? ==> Supervised(w)
  {
    if Supervised(w) {
      StepSupervision(w, e);
    } else {
      var d :| d in w.table && !RowSupervised(w, w.table[d]);
      if !e.Stop? {
        assert d in Step(w, e).table;
        StepKeepsAbandoned(w, e, d, w.table[d]);
      }
    }
  }

  lemma {:induction false} RunKeepsSupervision(w: World, es: seq<Event>)
    requires Feasible(w, es) && Safe(w) && OwnRowsOk(w) && SteadyRun(es)
    ensures Supervised(w) ==> Supervised(Run(w, es))
    ensures Supervised(Run(w, es)) && CalmRun(es) ==> Supervised(w)
    decreases |es|
  {
    if es != [] {
      assert es[0] in es;
      StepKeepsSafe(w, es[0]);
      StepKeepsOwnRows(w, es[0]);
      StepKeepsSupervision(w, es[0]);
      RunKeepsSupervision(Step(w, es[0]), es[1..]);
    }
  }

  lemma AbandonedNotLive(w: World)
    requires OwnRowsOk(w) && !Supervised(w)
    ensures !AllRowsLive(w)
  {
    var d :| d in w.table && !RowSupervised(w, w.table[d]);
    assert OwnRowOk(w, w.table[d].pid);
  }

  // What becomes of one row in a pass

  /** The pass has still to inspect the pid. */
  ghost predicate Pending(w: World, p: Pid) {
    exists i :: 0 <= i < |w.snapshot| && w.snapshot[i].pid == p
  }

  ghost predicate DistinctSnapshot(w: World) {
    forall i, j :: 0 <= i < j < |w.snapshot| ==> w.snapshot[i].pid != w.snapshot[j].pid
  }

  ghost predicate InspectsPid(w: World, e: Event, p: Pid) {
    e.Inspect? && w.snapshot != [] && w.snapshot[0].pid == p
  }

  /** The pass comes to `p` while it has exited and init has yet to reap it. */
  ghost predicate Skipped(w: World, es: seq<Event>, p: Pid)
    requires Feasible(w, es)
    decreases |es|
  {
    es != [] && ((InspectsPid(w, es[0], p) && Stray(w, p)) || Skipped(Step(w, es[0]), es[1..], p))
  }

  lemma StepPending(w: World, e: Event, p: Pid)
    requires Possible(w, e) && DistinctSnapshot(w) && Steady(e) && !e.Snapshot?
    ensures DistinctSnapshot(Step(w, e))
    ensures Pending(Step(w, e), p) <==> Pending(w, p) && !InspectsPid(w, e, p)
  {
    var w' := Step(w, e);
    if e.Inspect? {
      assert w'.snapshot == w.snapshot[1..];
      if i :| 0 <= i < |w.snapshot| && w.snapshot[i].pid == p && i > 0 {
        assert w'.snapshot[i - 1].pid == p;
      }
    } else {
      assert w'.snapshot == w.snapshot;
    }
  }

  lemma StepStrayPid(w: World, e: Event, p: Pid)
    requires Possible(w, e) && PidsOk(w) && p in w.used && Steady(e)
    ensures p in Step(w, e).used
    ensures Stray(Step(w, e), p) ==> Stray(w, p)
    ensures Stray(w, p) && !e.InitReap? ==> Stray(Step(w, e), p)
  {
  }

  lemma {:induction false} NeverSkipped(w: World, es: seq<Event>, p: Pid)
    requires Feasible(w, es) && PidsOk(w) && DistinctSnapshot(w) && SteadyRun(es) && OnePass(es)
    requires p in w.used && (Stray(w, p) ==> !Pending(w, p))
    ensures !Skipped(w, es, p)
    decreases |es|
  {
    if es != [] {
      assert es[0] in es;
      StepKeepsPids(w, es[0]);
      StepPending(w, es[0], p);
      StepStrayPid(w, es[0], p);
      NeverSkipped(Step(w, es[0]), es[1..], p);
    }
  }

  /** The row `d` names `p`, which is not running and is not the reap loop's business. */
  ghost predicate Down(w: World, d: DocId, p: Pid) {
    d in w.table && w.table[d].pid == p && p in w.used && p !in w.notices && (p in w.procs ==> Stray(w, p))
  }

  lemma StepDown(w: World, e: Event, d: DocId, p: Pid)
    requires Possible(w, e) && TableOk(w) && PidsOk(w) && Down(w, d, p) && Steady(e) && d in Step(w, e).table
    ensures InspectsPid(w, e, p) && !Stray(w, p) ==> Running(Step(w, e), Step(w, e).table[d].pid)
    ensures !InspectsPid(w, e, p) || Stray(w, p) ==> Down(Step(w, e), d, p)
  {
    StepStrayPid(w, e, p);
  }

  lemma StepKeepsLive(w: World, e: Event, d: DocId)
    requires Possible(w, e) && PidsOk(w) && Steady(e)
    requires d in Step(w, e).table && (d in w.table ==> Running(w, w.table[d].pid))
    ensures Running(Step(w, e), Step(w, e).table[d].pid)
  {
  }

  lemma {:induction false} RunKeepsLive(w: World, es: seq<Event>, d: DocId)
    requires Feasible(w, es) && Safe(w) && SteadyRun(es) && Survives(w, es, d) && Running(w, w.table[d].pid)
    ensures d in Run(w, es).table && Running(Run(w, es), Run(w, es).table[d].pid)
    decreases |es|
  {
    if es != [] {
      assert es[0] in es;
      StepKeepsSafe(w, es[0]);
      StepKeepsLive(w, es[0], d);
      RunKeepsLive(Step(w, es[0]), es[1..], d);
    }
  }

  lemma {:induction false} FateOfDown(w: World, es: seq<Event>, d: DocId, p: Pid)
    requires Feasible(w, es) && Safe(w) && DistinctSnapshot(w) && SteadyRun(es) && OnePass(es)
    requires Survives(w, es, d) && Down(w, d, p) && Run(w, es).snapshot == []
    ensures d in Run(w, es).table
    ensures Running(Run(w, es), Run(w, es).table[d].pid) <==> Pending(w, p) && !Skipped(w, es, p)
    decreases |es|
  {
    if es != [] {
      var w1 := Step(w, es[0]);
      assert es[0] in es;
      StepKeepsSafe(w, es[0]);
      StepPending(w, es[0], p);
      StepDown(w, es[0], d, p);
      if InspectsPid(w, es[0], p) && !Stray(w, p) {
        StepStrayPid(w, es[0], p);
        RunKeepsLive(w1, es[1..], d);
        NeverSkipped(w1, es[1..], p);
      } else {
        FateOfDown(w1, es[1..], d, p);
      }
    }
  }

  /** A row that has not been there all along was inserted meanwhile and names a running recorder. */
  lemma {:induction false} NewRowsLive(w: World, es: seq<Event>, d: DocId)
    requires Feasible(w, es) && Safe(w) && SteadyRun(es) && d in Run(w, es).table && !Survives(w, es, d)
    ensures Running(Run(w, es), Run(w, es).table[d].pid)
    decreases |es|
  {
    var w1 := Step(w, es[0]);
    assert es[0] in es;
    StepKeepsSafe(w, es[0]);
    if Survives(w1, es[1..], d) {
      StepKeepsLive(w, es[0], d);
      RunKeepsLive(w1, es[1..], d);
    } else {
      NewRowsLive(w1, es[1..], d);
    }
  }

  lemma SnapshotDistinct(w: World, order: seq<DocId>)
    requires Possible(w, Snapshot(order)) && UniquePids(w.table)
    ensures DistinctSnapshot(Step(w, Snapshot(order)))
    ensures forall d :: d in w.table ==>
              (Pending(Step(w, Snapshot(order)), w.table[d].pid) <==> w.table[d].ppid != w.supervisor)
  {
    var w' := Step(w, Snapshot(order));
    forall d | d in w.table && w.table[d].ppid != w.supervisor ensures Pending(w', w.table[d].pid) {
      var i :| 0 <= i < |order| && order[i] == d;
      assert w'.snapshot[i].pid == w.table[d].pid;
    }
  }

  /** What one orphan pass from a drained state does for each row there is at its end, while the other
      threads go on and init reaps: the row names a running recorder unless it has been there all along and
      had been abandoned, or the pass came to its pid before init reaped it. */
  lemma PassFate(w: World, order: seq<DocId>, es: seq<Event>, d: DocId)
    requires Reachable(w) && Drained(w) && SteadyRun(es) && OnePass(es)
    requires Possible(w, Snapshot(order)) && Feasible(Step(w, Snapshot(order)), es)
    requires var w' := Run(Step(w, Snapshot(order)), es); w'.snapshot == [] && d in w'.table
    ensures var w1, w' := Step(w, Snapshot(order)), Run(Step(w, Snapshot(order)), es);
            Running(w', w'.table[d].pid) <==>
              (Survives(w1, es, d) ==> RowSupervised(w, w.table[d]) && !Skipped(w1, es, w.table[d].pid))
  {
    ReachableIsSafe(w);
    ReachableOwnRows(w);
    StepKeepsSafe(w, Snapshot(order));
    SnapshotDistinct(w, order);
    var w1 := Step(w, Snapshot(order));
    if !Survives(w1, es, d) {
      NewRowsLive(w1, es, d);
    } else if Running(w, w.table[d].pid) {
      RunKeepsLive(w1, es, d);
      NeverSkipped(w1, es, w.table[d].pid);
      assert OwnRowsOk(w) && w.table[d].ppid == w.supervisor ==> OwnRowOk(w, w.table[d].pid);
    } else {
      assert w.table[d].ppid == w.supervisor ==> OwnRowOk(w, w.table[d].pid);
      FateOfDown(w1, es, d, w.table[d].pid);
    }
  }

  /** A pass recovers all rows when none was abandoned and none named an exited process init had yet to
      reap; and only then, unless a stop or init comes in between. */
  lemma PassRecovers(w: World, order: seq<DocId>, es: seq<Event>)
    requires Reachable(w) && Drained(w) && SteadyRun(es) && OnePass(es)
    requires Possible(w, Snapshot(order)) && Feasible(Step(w, Snapshot(order)), es)
    requires Run(Step(w, Snapshot(order)), es).snapshot == []
    ensures Supervised(w) && !NamesStray(w) ==> AllRowsLive(Run(Step(w, Snapshot(order)), es))
    ensures CalmRun(es) ==>
              (AllRowsLive(Run(Step(w, Snapshot(order)), es)) <==> Supervised(w) && !NamesStray(w))
  {
    ReachableIsSafe(w);
    ReachableOwnRows(w);
    var w1 := Step(w, Snapshot(order));
    StepKeepsSafe(w, Snapshot(order));
    StepKeepsOwnRows(w, Snapshot(order));
    if Supervised(w) && !NamesStray(w) {
      SnapshotDistinct(w, order);
      forall d | d in Run(w1, es).table ensures Running(Run(w1, es), Run(w1, es).table[d].pid) {
        PassFate(w, order, es, d);
        if Survives(w1, es, d) {
          NeverSkipped(w1, es, w.table[d].pid);
        }
      }
    } else if CalmRun(es) {
      StepStray(w, Snapshot(order));
      RunStray(w1, es);
      StepKeepsSupervision(w, Snapshot(order));
      RunKeepsSupervision(w1, es);
      RunKeepsOwnRows(w1, es);
      if !Supervised(w) { AbandonedNotLive(Run(w1, es)); }
    }
  }

  /** Recovery is complete: from every reachable state, whatever failed and restarted before, a drain of
      the reap loop and one orphan pass, with all threads going on, no failures and no exits meanwhile,
      leave every row naming a running recorder when no row had been abandoned and none named an exited
      process that init had yet to reap; and only then, unless a stop or init comes in between. */
  lemma RecoveryIsComplete(w: World, drain: seq<Event>, order: seq<DocId>, es: seq<Event>)
    requires Reachable(w)
    requires Feasible(w, drain) && SteadyRun(drain) && Drained(Run(w, drain))
    requires Possible(Run(w, drain), Snapshot(order))
    requires Feasible(Step(Run(w, drain), Snapshot(order)), es) && SteadyRun(es) && OnePass(es)
    requires Run(Step(Run(w, drain), Snapshot(order)), es).snapshot == []
    ensures var w' := Run(Step(Run(w, drain), Snapshot(order)), es);
            && (Supervised(w) && !NamesStray(w) ==> AllRowsLive(w'))
            && (CalmRun(drain + es) ==> (AllRowsLive(w') <==> Supervised(w) && !NamesStray(w)))
  {
    hide Supervised, NamesStray, AllRowsLive, Reachable, Drained, OwnRowsOk, Safe;
    ReachableIsSafe(w);
    ReachableOwnRows(w);
    RunStray(w, drain);
    RunKeepsSupervision(w, drain);
    ReachableRun(w, drain);
    PassRecovers(Run(w, drain), order, es);
    if CalmRun(drain + es) {
      assert forall e :: e in drain || e in es ==> e in drain + es;
    }
  }
}
