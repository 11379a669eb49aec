/** What the guarantees rest on: concrete runs that break them when a fork fails or a supervisor dies at
    the wrong moment, and what happens when the units the model takes as atomic are pulled apart. */
module RecorderRaces {
  import opened Options
  import opened Recorder
  import opened RecorderSafety
  import opened RecorderRuns
  import opened RecorderRecovery

  // ---------------------------------------------------------------------------------------------
  // Building runs

  lemma BootIsClean(supervisor: Pid)
    requires supervisor != INIT
    ensures CleanReachable(Boot(supervisor))
  {
    assert Reaches(Boot(supervisor), supervisor, []) && CleanRun([]);
  }

  lemma CleanStep(w: World, e: Event)
    requires CleanReachable(w) && Possible(w, e) && Clean(e)
    ensures CleanReachable(Step(w, e))
  {
    RunOne(w, e);
    CleanReachableRun(w, [e]);
  }

  lemma CleanIsRecorded(w: World)
    requires CleanReachable(w)
    ensures RecordedReachable(w) && Reachable(w)
  {
    var supervisor, es :| Reaches(w, supervisor, es) && CleanRun(es);
    assert RecordedRun(es);
  }

  /** From a state without the stream, a start request leads up to the fork. */
  lemma PrepareStream(w: World, req: Request, file: string) returns (w': World)
    requires CleanReachable(w) && w.queue == [] && w.consumer.Idle? && !NamesStream(w.table, req.sid)
    ensures CleanReachable(w')
    ensures w' == w.(queue := [req], consumer := Prepared(req, file), hist := w.hist.(put := w.hist.put + [req]))
  {
    hide CleanReachable;
    CleanStep(w, Put(req));
    var w1 := Step(w, Put(req));
    CleanStep(w1, Front);
    var w2 := Step(w1, Front);
    CleanStep(w2, Check);
    var w3 := Step(w2, Check);
    CleanStep(w3, Create(Some(file)));
    w' := Step(w3, Create(Some(file)));
  }

  /** And on to a row and a running recorder. */
  lemma StartStream(w: World, req: Request, file: string, child: Pid, doc: DocId) returns (w': World)
    requires CleanReachable(w) && w.queue == [] && w.consumer.Idle?
    requires !NamesStream(w.table, req.sid) && Fresh(w, child) && doc !in w.table
    ensures CleanReachable(w') && w'.queue == [] && w'.consumer.Idle?
    ensures var job := Job(req.sid, req.url, file);
            && w'.table == w.table[doc := Row(child, w.supervisor, job, req.kind, req.host)]
            && w'.procs == w.procs[child := Proc(true, w.supervisor)]
            && w'.used == w.used + {child}
            && w'.supervisor == w.supervisor && w'.notices == w.notices && w'.snapshot == w.snapshot
            && w'.signals == w.signals && w'.signalled == w.signalled
            && w'.hist.launches == w.hist.launches[child := Launch(job, Spawned, |w.hist.launches|)]
            && w'.hist.stopped == w.hist.stopped
  {
    hide CleanReachable;
    var w1 := PrepareStream(w, req, file);
    CleanStep(w1, Spawn(Some(child), Some(doc)));
    var w2 := Step(w1, Spawn(Some(child), Some(doc)));
    CleanStep(w2, Pop);
    w' := Step(w2, Pop);
  }

  /** The first supervisor records one stream. */
  lemma OneRecorder(req: Request) returns (w: World)
    ensures CleanReachable(w) && w.queue == [] && w.consumer.Idle? && w.supervisor == 2
    ensures w.table == map[0 := Row(10, 2, Job(req.sid, req.url, "f"), req.kind, req.host)]
    ensures w.procs == map[10 := Proc(true, 2)] && w.used == {INIT, 2, 10}
    ensures w.notices == {} && w.snapshot == [] && w.signals == {} && w.signalled == {}
    ensures w.hist.stopped == {} && 10 in w.hist.launches && w.hist.launches[10].job.sid == req.sid
  {
    hide CleanReachable;
    BootIsClean(2);
    w := StartStream(Boot(2), req, "f", 10, 0);
  }

  lemma ExitAndReap(w: World, p: Pid) returns (w': World)
    requires CleanReachable(w) && Running(w, p) && w.procs[p].parent == w.supervisor
    ensures CleanReachable(w')
    ensures w' == w.(procs := w.procs - {p}, notices := w.notices + {p})
  {
    hide CleanReachable;
    CleanStep(w, Exit(p));
    var w1 := Step(w, Exit(p));
    CleanStep(w1, Reap(p));
    w' := Step(w1, Reap(p));
    assert w'.procs == w.procs - {p};
  }

  lemma RemoveRow(w: World, doc: DocId) returns (w': World)
    requires CleanReachable(w) && doc in w.table
    ensures CleanReachable(w') && w'.table == w.table - {doc}
    ensures w'.queue == w.queue && w'.consumer == w.consumer && w'.used == w.used
    ensures w'.supervisor == w.supervisor && w'.procs == w.procs && w'.signalled == w.signalled
    ensures w'.hist.launches == w.hist.launches
    ensures w'.hist.stopped == w.hist.stopped + {w.table[doc].pid}
  {
    hide CleanReachable;
    var stop := Stop(w.table[doc].job.sid, Some(doc), Some(doc));
    CleanStep(w, stop);
    w' := Step(w, stop);
  }

  lemma RestartSupervisor(w: World, successor: Pid) returns (w': World)
    requires CleanReachable(w) && Fresh(w, successor)
    ensures CleanReachable(w') && w' == RestartStep(w, successor)
    ensures forall p :: Running(w, p) ==> Running(w', p)
  {
    CleanStep(w, Restart(successor));
    w' := Step(w, Restart(successor));
  }

  /** One orphan pass over the only row, whose process is gone. */
  lemma ReplaceOrphan(w: World, child: Pid) returns (w': World)
    requires CleanReachable(w) && w.table.Keys == {0} && w.table[0].ppid != w.supervisor && w.snapshot == []
    requires w.table[0].pid !in w.procs && Fresh(w, child)
    ensures CleanReachable(w')
    ensures w' == ReloadStep(w, w.table[0].pid, Reloaded(0, child, Some(0)))
  {
    hide CleanReachable;
    var w1 := Step(w, Snapshot([0]));
    assert w1.snapshot == [w.table[0]];
    CleanStep(w, Snapshot([0]));
    CleanStep(w1, Inspect(Reloaded(0, child, Some(0))));
    w' := Step(w1, Inspect(Reloaded(0, child, Some(0))));
    assert w1.snapshot[1..] == w.snapshot;
  }

  // ---------------------------------------------------------------------------------------------
  // Runs that break what the conditions exclude

  /** Whatever the request: a supervisor dies between a stop's removal and its kill, the recorder runs
      on with no row and no SIGINT, and a later start gives the stream a second one. */
  lemma LostSignalLeavesTwo(req: Request) returns (w: World, p: Pid, q: Pid)
    ensures CleanReachable(w) && p != q && Running(w, p) && Running(w, q)
    ensures p !in w.signalled && q !in w.signalled && w.signals == {}
    ensures p in w.hist.launches && q in w.hist.launches
    ensures w.hist.launches[p].job.sid == w.hist.launches[q].job.sid == req.sid
  {
    hide CleanReachable;
    p, q := 10, 11;
    var w1 := OneRecorder(req);
    var w2 := RemoveRow(w1, 0);
    assert w2.table == map[];
    var w3 := RestartSupervisor(w2, 3);
    assert Running(w3, p);
    w := StartStream(w3, req, "g", q, 0);
  }

  /** A fork fails while a reaped recorder is being reloaded: its row keeps this supervisor's ppid and a
      pid the kernel no longer knows. */
  lemma FailedForkAbandonsRow(req: Request) returns (w: World, d: DocId)
    ensures RecordedReachable(w) && d in w.table && !RowSupervised(w, w.table[d])
  {
    d := 0;
    var w1 := OneRecorder(req);
    var w2 := ExitAndReap(w1, 10);
    var supervisor, es :| Reaches(w2, supervisor, es) && CleanRun(es);
    var e := Notify(10, ForkFailed(d));
    RunOne(w2, e);
    RunConcat(Boot(supervisor), es, [e]);
    w := Step(w2, e);
    assert Reaches(w, supervisor, es + [e]) && RecordedRun(es + [e]);
  }

  /** A recorder outlives its supervisor and exits before init reaps it: from here, recovery as the code
      has it leaves its row naming an exited process. */
  lemma StrayBlocksRecovery(req: Request) returns (w: World)
    ensures CleanReachable(w) && Drained(w) && NamesStray(w)
  {
    hide CleanReachable;
    var w1 := OneRecorder(req);
    var w2 := RestartSupervisor(w1, 3);
    CleanStep(w2, Exit(10));
    w := Step(w2, Exit(10));
    assert Stray(w, w.table[0].pid);
  }

  /** A stop whose removal fails: the recorder gets its SIGINT, exits, and is replaced. */
  lemma FailedRemovalRestarts(req: Request) returns (w: World)
    ensures CleanReachable(w) && 10 in w.signalled && 0 in w.table && w.table[0].job.sid == req.sid
    ensures Running(w, w.table[0].pid) && w.table[0].pid !in w.signalled + w.signals
    ensures w.table[0].pid in w.hist.launches && w.hist.launches[w.table[0].pid].cause == Replaces(10)
  {
    hide CleanReachable;
    var w1 := OneRecorder(req);
    CleanStep(w1, Stop(req.sid, Some(0), None));
    var w2 := Step(w1, Stop(req.sid, Some(0), None));
    CleanStep(w2, Signal(10));
    var w3 := Step(w2, Signal(10));
    var w4 := ExitAndReap(w3, 10);
    var reload := Notify(10, Reloaded(0, 11, Some(0)));
    CleanStep(w4, reload);
    w := Step(w4, reload);
  }

  // ---------------------------------------------------------------------------------------------
  // An inspection pulled apart

  /** A process `kill(pid, 0)` did not find will not be found later, so it does not matter when the reload
      that follows happens. */
  lemma {:induction false} GoneStaysGone(w: World, es: seq<Event>, p: Pid)
    requires Feasible(w, es) && PidsOk(w) && p in w.used && p !in w.procs
    ensures p in Run(w, es).used && p !in Run(w, es).procs
    decreases |es|
  {
    if es != [] {
      StepKeepsPids(w, es[0]);
      assert p in Step(w, es[0]).used && p !in Step(w, es[0]).procs;
      GoneStaysGone(Step(w, es[0]), es[1..], p);
    }
  }

  // ---------------------------------------------------------------------------------------------
  // A reload pulled apart

  predicate UpdatePossible(w: World, sid: string, updated: Option<DocId>) {
    match updated
    case None => !NamesStream(w.table, sid)
    case Some(d) => d in w.table && w.table[d].job.sid == sid
  }

  /** The rest of a reload, run some time after its lookup returned `info`: fork, then update a row of
      the stream if there is one. */
  function LateReload(w: World, info: Row, child: Pid, updated: Option<DocId>): World
    requires UpdatePossible(w, info.job.sid, updated)
  {
    var w1 := Fork(w, child, info.job, Replaces(info.pid));
    if updated.Some? then SetPid(w1, updated.value, child) else w1
  }

  /** Done late, a reload still tracks every recorder exactly when the stream has kept a row and the
      recorder that row names by then is not running. */
  lemma LateReloadTracks(w: World, info: Row, child: Pid, updated: Option<DocId>)
    requires TableOk(w) && PidsOk(w) && StopsOk(w) && Tracked(w)
    requires Fresh(w, child) && UpdatePossible(w, info.job.sid, updated)
    ensures Tracked(LateReload(w, info, child, updated)) <==>
              exists d :: d in w.table && w.table[d].job.sid == info.job.sid && !Running(w, w.table[d].pid)
  {
    var w' := LateReload(w, info, child, updated);
    if updated.None? {
      assert Running(w', child) && !NamesPid(w'.table, child);
    } else {
      var d := updated.value;
      var p := w.table[d].pid;
      assert NamesPid(w.table, p);
      if Running(w, p) {
        assert Running(w', p) && p !in w'.hist.stopped && !NamesPid(w'.table, p);
      } else {
        forall q | Running(w', q) && q !in w'.hist.stopped ensures NamesPid(w'.table, q) {
          if q == child {
            assert w'.table[d].pid == q;
          } else {
            assert Running(w, q);
            var c :| c in w.table && w.table[c].pid == q;
            assert w'.table[c].pid == q;
          }
        }
      }
    }
  }

  /** What a reload knows after its lookup: `info` names a recorder launched with its job and gone since. */
  ghost predicate Remembered(w: World, info: Row) {
    && info.pid in w.used && info.pid !in w.procs
    && info.pid in w.hist.launches && w.hist.launches[info.pid].job == info.job
  }

  lemma {:induction false} RunKeepsLaunch(w: World, es: seq<Event>, p: Pid)
    requires Feasible(w, es) && PidsOk(w) && p in w.hist.launches
    ensures p in Run(w, es).hist.launches && Run(w, es).hist.launches[p] == w.hist.launches[p]
    decreases |es|
  {
    if es != [] {
      StepKeepsPids(w, es[0]);
      StepExtends(w, es[0]);
      RunKeepsLaunch(Step(w, es[0]), es[1..], p);
    }
  }

  /** Whatever happens between the lookup and the fork, the lookup's result stays good for that much. */
  lemma RunRemembers(looked: World, found: DocId, es: seq<Event>)
    requires Reachable(looked) && found in looked.table && looked.table[found].pid !in looked.procs
    requires Feasible(looked, es)
    ensures Safe(Run(looked, es)) && Remembered(Run(looked, es), looked.table[found])
  {
    ReachableIsSafe(looked);
    RunKeepsSafe(looked, es);
    GoneStaysGone(looked, es, looked.table[found].pid);
    RunKeepsLaunch(looked, es, looked.table[found].pid);
  }

  lemma LateReloadKeepsTable(w: World, info: Row, child: Pid, updated: Option<DocId>)
    requires TableOk(w) && PidsOk(w) && OpsOk(w) && Fresh(w, child)
    requires UpdatePossible(w, info.job.sid, updated)
    ensures TableOk(LateReload(w, info, child, updated)) && OpsOk(LateReload(w, info, child, updated))
  {
    var w' := LateReload(w, info, child, updated);
    forall sid ensures NamesStream(w'.table, sid) <==> NamesStream(w.table, sid) {
      if d :| d in w.table && w.table[d].job.sid == sid {
        assert w'.table[d].job.sid == sid;
      }
    }
  }

  lemma LateReloadKeepsStops(w: World, info: Row, child: Pid, updated: Option<DocId>)
    requires PidsOk(w) && StopsOk(w) && Fresh(w, child) && UpdatePossible(w, info.job.sid, updated)
    ensures PidsOk(LateReload(w, info, child, updated)) && StopsOk(LateReload(w, info, child, updated))
  {
  }

  lemma LateReloadKeepsSupervision(w: World, info: Row, child: Pid, updated: Option<DocId>)
    requires PidsOk(w) && Supervised(w) && Fresh(w, child) && UpdatePossible(w, info.job.sid, updated)
    ensures Supervised(LateReload(w, info, child, updated))
  {
    var w' := LateReload(w, info, child, updated);
    forall d | d in w'.table ensures RowSupervised(w', w'.table[d]) {
      assert RowSupervised(w, w.table[d]);
    }
  }

  /** Done late, a reload keeps the table, the stops, the queue and the record of operations in order, and
      every row supervised. */
  lemma LateReloadKeeps(w: World, info: Row, child: Pid, updated: Option<DocId>)
    requires Safe(w) && Fresh(w, child) && UpdatePossible(w, info.job.sid, updated)
    ensures var w' := LateReload(w, info, child, updated);
            && TableOk(w') && PidsOk(w') && StopsOk(w') && QueueOk(w') && OpsOk(w')
            && (Supervised(w) ==> Supervised(w'))
  {
    hide TableOk, PidsOk, StopsOk, OpsOk, Supervised, LaunchesOk;
    LateReloadKeepsTable(w, info, child, updated);
    LateReloadKeepsStops(w, info, child, updated);
    if Supervised(w) { LateReloadKeepsSupervision(w, info, child, updated); }
  }

  /** It leaves every row naming a recorder of the row's own job exactly when the row it updates, if there
      is one, still has the job looked up. */
  lemma LateReloadKeepsJobs(w: World, info: Row, child: Pid, updated: Option<DocId>)
    requires Safe(w) && Remembered(w, info) && Fresh(w, child) && UpdatePossible(w, info.job.sid, updated)
    ensures LaunchesOk(LateReload(w, info, child, updated)) <==>
              (updated.Some? ==> w.table[updated.value].job == info.job)
  {
    ForkKeepsLaunches(w, child, info.job, Replaces(info.pid));
    var w1, w' := Fork(w, child, info.job, Replaces(info.pid)), LateReload(w, info, child, updated);
    if updated.Some? {
      var d := updated.value;
      assert w'.table[d].pid == child && w'.hist.launches[child].job == info.job;
    }
  }

  lemma LateReloadRetires(w: World, info: Row, child: Pid, updated: Option<DocId>)
    requires TableOk(w) && PidsOk(w) && LaunchesOk(w) && Remembered(w, info)
    requires Fresh(w, child) && UpdatePossible(w, info.job.sid, updated)
    ensures var w' := LateReload(w, info, child, updated);
            Retired(w', info.pid) && child !in w.hist.launches && forall p :: Retired(w, p) ==> Retired(w', p)
  {
    var w' := LateReload(w, info, child, updated);
    forall d | d in w'.table ensures w'.table[d].pid != info.pid {
      assert w.table[d].pid == info.pid ==> w.table[d].job == info.job;
    }
  }

  /** It replaces a recorder a second time exactly when one has been launched in its place by then. */
  lemma LateReloadReplacesOnce(w: World, info: Row, child: Pid, updated: Option<DocId>)
    requires Safe(w) && ReplacedOk(w) && Remembered(w, info)
    requires Fresh(w, child) && UpdatePossible(w, info.job.sid, updated)
    ensures ReplacedOk(LateReload(w, info, child, updated)) <==>
              forall q :: q in w.hist.launches ==> w.hist.launches[q].cause != Replaces(info.pid)
  {
    hide TableOk, PidsOk, LaunchesOk, Retired;
    var w' := LateReload(w, info, child, updated);
    LateReloadRetires(w, info, child, updated);
    assert w'.hist.launches[child].cause == Replaces(info.pid);
    assert forall q :: q in w.hist.launches ==>
        q in w'.hist.launches && w'.hist.launches[q] == w.hist.launches[q] && q != child;
  }

  /** No stopped recorder is replaced from `w` to `w'`. */
  ghost predicate RevivesNone(w: World, w': World) {
    forall p :: p in w.hist.stopped ==> NoNewReplacement(w, w', p)
  }

  /** No recorder is launched in place of another for a stream without a row. */
  ghost predicate RelaunchesNone(w: World, w': World) {
    forall sid :: !NamesStream(w.table, sid) ==> OnlySpawned(w, w', sid)
  }

  lemma LateReloadRevives(w: World, info: Row, child: Pid, updated: Option<DocId>)
    requires PidsOk(w) && Fresh(w, child) && UpdatePossible(w, info.job.sid, updated)
    ensures RevivesNone(w, LateReload(w, info, child, updated)) <==> info.pid !in w.hist.stopped
    ensures RelaunchesNone(w, LateReload(w, info, child, updated)) <==> NamesStream(w.table, info.job.sid)
  {
    var w' := LateReload(w, info, child, updated);
    assert child !in w.hist.launches;
    assert w'.hist.launches[child] == Launch(info.job, Replaces(info.pid), |w.hist.launches|);
    assert forall q :: q in w'.hist.launches && q != child ==>
        q in w.hist.launches && w.hist.launches[q] == w'.hist.launches[q];
  }

  /** A stop takes away the row that names `p`. */
  predicate StopsPid(w: World, e: Event, p: Pid) {
    e.Stop? && e.found.Some? && e.removed.Some? && e.found.value in w.table && w.table[e.found.value].pid == p
  }

  ghost predicate StoppedAlong(w: World, es: seq<Event>, p: Pid)
    requires Feasible(w, es)
    decreases |es|
  {
    es != [] && (StopsPid(w, es[0], p) || StoppedAlong(Step(w, es[0]), es[1..], p))
  }

  lemma {:induction false} RunStops(w: World, es: seq<Event>, p: Pid)
    requires Feasible(w, es)
    ensures p in Run(w, es).hist.stopped <==> p in w.hist.stopped || StoppedAlong(w, es, p)
    decreases |es|
  {
    if es != [] {
      assert p in Step(w, es[0]).hist.stopped <==> p in w.hist.stopped || StopsPid(w, es[0], p);
      RunStops(Step(w, es[0]), es[1..], p);
    }
  }

  /** Whatever happens between a reload's lookup and its fork: the fork replaces a stopped recorder exactly
      when a stop has taken the row away meanwhile, and brings a stopped stream back exactly when the last
      operation on the stream by then is a removal. */
  lemma LateReloadHeedsStops(looked: World, found: DocId, es: seq<Event>, child: Pid, updated: Option<DocId>)
    requires Reachable(looked) && found in looked.table && Feasible(looked, es)
    requires Fresh(Run(looked, es), child)
    requires UpdatePossible(Run(looked, es), looked.table[found].job.sid, updated)
    ensures var info, w := looked.table[found], Run(looked, es);
            && (RevivesNone(w, LateReload(w, info, child, updated)) <==> !StoppedAlong(looked, es, info.pid))
            && (RelaunchesNone(w, LateReload(w, info, child, updated)) <==> LastIsInsert(w.hist.ops, info.job.sid))
  {
    ReachableIsSafe(looked);
    RunKeepsSafe(looked, es);
    assert NamesPid(looked.table, looked.table[found].pid);
    RunStops(looked, es, looked.table[found].pid);
    LateReloadRevives(Run(looked, es), looked.table[found], child, updated);
  }

  /** Nothing has happened to the row since the lookup: doing it late is doing it at once. */
  lemma LateReloadIsReload(w: World, pid: Pid, found: DocId, child: Pid, updated: DocId)
    requires ReloadPossible(w, pid, Reloaded(found, child, Some(updated)))
    ensures UpdatePossible(w, w.table[found].job.sid, Some(updated))
    ensures LateReload(w, w.table[found], child, Some(updated)) == ReloadStep(w, pid, Reloaded(found, child, Some(updated)))
  {
  }

  /** A recorder is reaped and its row looked up; the stream is stopped before the reload goes on, and
      records again although it has no row. */
  lemma LateReloadRevivesStream(req: Request) returns (looked: World, w: World, child: Pid)
    ensures CleanReachable(looked) && CleanReachable(w) && Fresh(w, child)
    ensures 0 in looked.table && looked.table[0].pid in looked.notices && looked.table[0].job.sid == req.sid
    ensures UpdatePossible(w, req.sid, None)
    ensures var w' := LateReload(w, looked.table[0], child, None);
            && looked.table[0].pid in w.hist.stopped && !NamesStream(w'.table, req.sid)
            && Running(w', child) && w'.hist.launches[child].cause == Replaces(looked.table[0].pid)
            && !RevivesNone(w, w') && !RelaunchesNone(w, w') && !Tracked(w')
  {
    hide CleanReachable;
    var w1 := OneRecorder(req);
    looked := ExitAndReap(w1, 10);
    w := RemoveRow(looked, 0);
    child := 12;
    CleanIsRecorded(w);
    RecordedIsSafe(w);
    LateReloadRevives(w, looked.table[0], child, None);
    LateReloadTracks(w, looked.table[0], child, None);
  }

  /** The first supervisor's recorder has died under its successor, been replaced by an orphan pass, and
      died again: both the handler and the next pass are about to look at its row. */
  lemma DiesUnderSuccessor(req: Request) returns (w: World)
    ensures CleanReachable(w) && w.supervisor == 3 && w.snapshot == [] && w.used == {INIT, 2, 3, 10, 11}
    ensures w.table.Keys == {0} && w.table[0].pid == 11 && w.table[0].ppid == 2
    ensures 11 in w.notices && 11 !in w.procs
  {
    hide CleanReachable;
    var w1 := OneRecorder(req);
    var w2 := RestartSupervisor(w1, 3);
    CleanStep(w2, Exit(10));
    var w3 := Step(w2, Exit(10));
    CleanStep(w3, InitReap(10));
    var w4 := Step(w3, InitReap(10));
    var w5 := ReplaceOrphan(w4, 11);
    w := ExitAndReap(w5, 11);
  }

  /** A recorder is reaped and its row looked up; before the reload goes on, the stream is stopped and
      started again. */
  lemma StopAndStartAgain(req: Request) returns (looked: World, w: World)
    ensures CleanReachable(looked) && CleanReachable(w)
    ensures 0 in looked.table && looked.table[0].pid in looked.notices && looked.table[0].job.sid == req.sid
    ensures w.table.Keys == {0} && w.table[0].job.sid == req.sid && w.table[0].job != looked.table[0].job
    ensures Running(w, w.table[0].pid) && w.table[0].pid !in w.hist.stopped && Fresh(w, 12)
  {
    hide CleanReachable;
    var w1 := OneRecorder(req);
    looked := ExitAndReap(w1, 10);
    var stopped := RemoveRow(looked, 0);
    assert stopped.table == map[];
    w := StartStream(stopped, req, "g", 11, 0);
  }

  /** Finishing that reload overwrites the new recorder's pid: it runs on with no row, and the row names a
      recorder of the old playlist. */
  lemma LateReloadLosesRecorder(req: Request) returns (looked: World, w: World, child: Pid)
    ensures CleanReachable(looked) && CleanReachable(w) && Fresh(w, child)
    ensures 0 in looked.table && looked.table[0].pid in looked.notices
    ensures UpdatePossible(w, looked.table[0].job.sid, Some(0))
    ensures !Tracked(LateReload(w, looked.table[0], child, Some(0)))
    ensures !LaunchesOk(LateReload(w, looked.table[0], child, Some(0)))
  {
    hide CleanReachable;
    looked, w := StopAndStartAgain(req);
    child := 12;
    CleanIsRecorded(w);
    RecordedIsSafe(w);
    LateReloadTracks(w, looked.table[0], child, Some(0));
    var w' := LateReload(w, looked.table[0], child, Some(0));
    assert w'.table[0].pid == child && w'.table[0].job != w'.hist.launches[child].job;
  }

  /** The handler has looked the row up; before it forks, the monitor replaces the same recorder. */
  lemma LateReloadReplacesTwice(req: Request) returns (looked: World, w: World, child: Pid)
    ensures CleanReachable(looked) && CleanReachable(w) && Fresh(w, child)
    ensures 0 in looked.table && looked.table[0].pid in looked.notices
    ensures UpdatePossible(w, looked.table[0].job.sid, Some(0))
    ensures !ReplacedOk(LateReload(w, looked.table[0], child, Some(0)))
  {
    hide CleanReachable;
    looked := DiesUnderSuccessor(req);
    w := ReplaceOrphan(looked, 12);
    child := 13;
    var w' := LateReload(w, looked.table[0], child, Some(0));
    assert w'.hist.launches[12].cause == Replaces(11) == w'.hist.launches[13].cause;
  }

  // ---------------------------------------------------------------------------------------------
  // A spawn pulled apart

  /** The reap loop has still to hear of the process, or has it in hand. */
  ghost predicate Outstanding(w: World, p: Pid) {
    p in w.used && ((p in w.procs && w.procs[p].parent == w.supervisor) || p in w.notices)
  }

  lemma StepOutstanding(w: World, e: Event, p: Pid)
    requires Possible(w, e) && PidsOk(w) && p in w.used && !e.Restart?
    requires p in w.procs ==> w.procs[p].parent == w.supervisor
    ensures Outstanding(Step(w, e), p) <==> Outstanding(w, p) && !(e.Notify? && e.pid == p)
    ensures p in Step(w, e).used
    ensures p in Step(w, e).procs ==> Step(w, e).procs[p].parent == Step(w, e).supervisor
  {
  }

  /** Until a restart, a process stays outstanding exactly as long as its notification is not handled. */
  lemma {:induction false} RunOutstanding(w: World, es: seq<Event>, p: Pid)
    requires Feasible(w, es) && PidsOk(w) && p in w.used && (forall e :: e in es ==> !e.Restart?)
    requires p in w.procs ==> w.procs[p].parent == w.supervisor
    ensures Outstanding(Run(w, es), p) <==> Outstanding(w, p) && forall e :: e in es ==> !(e.Notify? && e.pid == p)
    ensures p in Run(w, es).procs ==> Run(w, es).procs[p].parent == Run(w, es).supervisor
    decreases |es|
  {
    if es != [] {
      StepOutstanding(w, es[0], p);
      StepKeepsPids(w, es[0]);
      assert es == [es[0]] + es[1..];
      RunOutstanding(Step(w, es[0]), es[1..], p);
    }
  }

  /** The insert of a spawn, run some time after its fork returned `row.pid`. */
  function LateInsert(w: World, doc: DocId, row: Row): World {
    w.(table := w.table[doc := row], hist := w.hist.(ops := w.hist.ops + [Inserted(row.job.sid)]))
  }

  /** Right after the fork, it completes the spawn. */
  lemma LateInsertIsSpawn(w: World, child: Pid, doc: DocId)
    requires w.consumer.Prepared?
    ensures var req := w.consumer.req;
            var job := Job(req.sid, req.url, w.consumer.file);
            var row := Row(child, w.supervisor, job, req.kind, req.host);
            Finish(LateInsert(Fork(w, child, job, Spawned), doc, row), req) == SpawnStep(w, child, Some(doc))
  {
  }

  lemma InsertSupervision(w: World, doc: DocId, row: Row)
    requires doc !in w.table && row.ppid == w.supervisor && row.pid in w.used
    requires row.pid in w.procs ==> w.procs[row.pid].parent == w.supervisor
    ensures Supervised(LateInsert(w, doc, row)) <==> Supervised(w) && Outstanding(w, row.pid)
  {
    var w' := LateInsert(w, doc, row);
    assert forall r :: RowSupervised(w', r) <==> RowSupervised(w, r);
    assert w'.table[doc] == row;
    assert forall d :: d in w.table ==> w'.table[d] == w.table[d];
  }

  lemma {:induction false} RunKeepsUsed(w: World, es: seq<Event>, p: Pid)
    requires Feasible(w, es) && p in w.used
    ensures p in Run(w, es).used
    decreases |es|
  {
    if es != [] {
      assert p in Step(w, es[0]).used;
      RunKeepsUsed(Step(w, es[0]), es[1..], p);
    }
  }

  /** A recorder that has no row and never had one. */
  ghost predicate Unlisted(w: World, p: Pid) {
    p in w.used && !NamesPid(w.table, p) && p !in w.hist.stopped
  }

  lemma StepKeepsUnlisted(w: World, e: Event, p: Pid)
    requires Possible(w, e) && PidsOk(w) && Unlisted(w, p) && !e.Restart? && !ConsumerEvent(e)
    ensures Unlisted(Step(w, e), p)
    ensures Step(w, e).consumer == w.consumer && Step(w, e).supervisor == w.supervisor
  {
    assert forall d :: d in w.table ==> w.table[d].pid != p;
  }

  lemma {:induction false} RunKeepsUnlisted(w: World, es: seq<Event>, p: Pid)
    requires Feasible(w, es) && PidsOk(w) && Unlisted(w, p)
    requires forall e :: e in es ==> !e.Restart? && !ConsumerEvent(e)
    ensures Unlisted(Run(w, es), p)
    ensures Run(w, es).consumer == w.consumer && Run(w, es).supervisor == w.supervisor
    decreases |es|
  {
    if es != [] {
      assert es[0] in es;
      StepKeepsPids(w, es[0]);
      StepKeepsUnlisted(w, es[0], p);
      RunKeepsUnlisted(Step(w, es[0]), es[1..], p);
    }
  }

  lemma ForkKeepsSafe(w: World, child: Pid, job: Job)
    requires Safe(w) && Fresh(w, child)
    ensures Safe(Fork(w, child, job, Spawned)) && Unlisted(Fork(w, child, job, Spawned), child)
  {
    ForkKeepsLaunches(w, child, job, Spawned);
  }

  lemma InsertKeepsOps(w: World, doc: DocId, row: Row)
    requires OpsOk(w) && doc !in w.table
    ensures OpsOk(LateInsert(w, doc, row))
  {
    var w' := LateInsert(w, doc, row);
    assert w'.hist.ops[..|w.hist.ops|] == w.hist.ops;
    forall sid ensures NamesStream(w'.table, sid) <==> LastIsInsert(w'.hist.ops, sid) {
      assert w'.table[doc].job.sid == row.job.sid;
      if d :| d in w.table && w.table[d].job.sid == sid { assert w'.table[d].job.sid == sid; }
    }
  }

  lemma InsertKeepsStops(w: World, doc: DocId, row: Row)
    requires StopsOk(w) && Unlisted(w, row.pid)
    ensures StopsOk(LateInsert(w, doc, row))
  {
    forall p | p in w.hist.stopped ensures !NamesPid(LateInsert(w, doc, row).table, p) {
      assert forall d :: d in w.table ==> w.table[d].pid != p;
    }
  }

  lemma InsertKeepsSafe(w: World, doc: DocId, row: Row)
    requires Safe(w) && w.consumer.Prepared? && doc !in w.table && Unlisted(w, row.pid) && row.ppid in w.used
    requires row.pid in w.hist.launches && w.hist.launches[row.pid].job == row.job
    requires row.job.sid == w.consumer.req.sid
    ensures Safe(Finish(LateInsert(w, doc, row), w.consumer.req))
  {
    InsertKeepsOps(w, doc, row);
    InsertKeepsStops(w, doc, row);
    assert forall d :: d in w.table ==> w.table[d].job.sid != row.job.sid && w.table[d].pid != row.pid;
  }

  /** Whatever the other threads do between a spawn's fork and its insert, short of a restart: the insert
      keeps all the invariants. */
  lemma LateInsertKeeps(w: World, child: Pid, es: seq<Event>, doc: DocId)
    requires Reachable(w) && w.consumer.Prepared? && Fresh(w, child)
    requires forall e :: e in es ==> !e.Restart? && !ConsumerEvent(e)
    requires var job := Job(w.consumer.req.sid, w.consumer.req.url, w.consumer.file);
             Feasible(Fork(w, child, job, Spawned), es) && doc !in Run(Fork(w, child, job, Spawned), es).table
    ensures var req := w.consumer.req;
            var job := Job(req.sid, req.url, w.consumer.file);
            var row := Row(child, w.supervisor, job, req.kind, req.host);
            Safe(Finish(LateInsert(Run(Fork(w, child, job, Spawned), es), doc, row), req))
  {
    hide TableOk, StopsOk, QueueOk, OpsOk, LaunchesOk;
    ReachableIsSafe(w);
    var req := w.consumer.req;
    var job := Job(req.sid, req.url, w.consumer.file);
    var w1 := Fork(w, child, job, Spawned);
    ForkKeepsSafe(w, child, job);
    RunKeepsSafe(w1, es);
    RunKeepsUnlisted(w1, es, child);
    RunKeepsLaunch(w1, es, child);
    InsertKeepsSafe(Run(w1, es), doc, Row(child, w.supervisor, job, req.kind, req.host));
  }

  /** Whatever the other threads do between a spawn's fork and its insert, short of a restart: the insert
      leaves a row unsupervised exactly when one was already, or when the child has exited, been reaped
      and had its notification handled before there was a row to find. */
  lemma LateInsertSupervised(w: World, child: Pid, job: Job, es: seq<Event>, doc: DocId, row: Row)
    requires Reachable(w) && Fresh(w, child) && Feasible(Fork(w, child, job, Spawned), es)
    requires (forall e :: e in es ==> !e.Restart?) && doc !in Run(Fork(w, child, job, Spawned), es).table
    requires row.pid == child && row.ppid == Run(Fork(w, child, job, Spawned), es).supervisor
    ensures var w' := Run(Fork(w, child, job, Spawned), es);
            Supervised(LateInsert(w', doc, row)) <==>
              Supervised(w') && forall e :: e in es ==> !(e.Notify? && e.pid == child)
  {
    ReachableIsSafe(w);
    var w1 := Fork(w, child, job, Spawned);
    RunOutstanding(w1, es, child);
    RunKeepsUsed(w1, es, child);
    InsertSupervision(Run(w1, es), doc, row);
  }

  /** A process no row names dies, is reaped and is looked up in vain. */
  lemma DieUnnoticed(w: World, p: Pid) returns (es: seq<Event>)
    requires Running(w, p) && w.procs[p].parent == w.supervisor && p !in w.notices && !NamesPid(w.table, p)
    ensures Feasible(w, es) && Run(w, es) == w.(procs := w.procs - {p}) && forall e :: e in es ==> !e.Restart?
  {
    var w1 := Step(w, Exit(p));
    var w2 := Step(w1, Reap(p));
    var w3 := Step(w2, Notify(p, NoRow));
    assert w3 == w.(procs := w.procs - {p});
    RunOne(w, Exit(p));
    RunOne(w1, Reap(p));
    RunOne(w2, Notify(p, NoRow));
    RunConcat(w1, [Reap(p)], [Notify(p, NoRow)]);
    RunConcat(w, [Exit(p)], [Reap(p)] + [Notify(p, NoRow)]);
    es := [Exit(p)] + ([Reap(p)] + [Notify(p, NoRow)]);
  }

  /** The run that breaks it: the child dies at once and the handler finds no row. */
  lemma LateInsertAbandons(req: Request) returns (w: World, es: seq<Event>)
    ensures CleanReachable(w) && w.consumer == Prepared(req, "f") && Fresh(w, 10)
    ensures var job := Job(req.sid, req.url, "f");
            var w1 := Fork(w, 10, job, Spawned);
            && Feasible(w1, es) && 0 !in Run(w1, es).table && (forall e :: e in es ==> !e.Restart?)
            && !Supervised(LateInsert(Run(w1, es), 0, Row(10, w.supervisor, job, req.kind, req.host)))
  {
    hide CleanReachable, Feasible, Run;
    BootIsClean(2);
    w := PrepareStream(Boot(2), req, "f");
    var job := Job(req.sid, req.url, "f");
    es := DieUnnoticed(Fork(w, 10, job, Spawned), 10);
    var w4 := LateInsert(Run(Fork(w, 10, job, Spawned), es), 0, Row(10, w.supervisor, job, req.kind, req.host));
    assert 0 in w4.table && !RowSupervised(w4, w4.table[0]);
  }

  // ---------------------------------------------------------------------------------------------
  // A stop pulled apart

  /** The rest of a stop, run some time after its lookup returned `info`: remove a row of the stream if
      there is one, and signal the pid looked up. */
  function LateStop(w: World, info: Row, removed: Option<DocId>): World
    requires UpdatePossible(w, info.job.sid, removed)
  {
    var w1 := w.(signals := w.signals + {info.pid});
    if removed.None? then w1
    else w1.(table := w.table - {removed.value},
             hist := w.hist.(ops := w.hist.ops + [Removed(info.job.sid)],
                             stopped := w.hist.stopped + {w.table[removed.value].pid}))
  }

  /** Nothing has happened to the row since the lookup: doing it late is doing it at once. */
  lemma LateStopIsStop(w: World, sid: string, found: DocId, removed: DocId)
    requires Possible(w, Stop(sid, Some(found), Some(removed))) && TableOk(w)
    ensures LateStop(w, w.table[found], Some(removed)) == StopStep(w, sid, found, Some(removed))
  {
  }

  lemma LateStopKeepsOps(w: World, info: Row, removed: DocId)
    requires TableOk(w) && OpsOk(w) && UpdatePossible(w, info.job.sid, Some(removed))
    ensures OpsOk(LateStop(w, info, Some(removed)))
  {
    var w' := LateStop(w, info, Some(removed));
    assert w'.hist.ops[..|w.hist.ops|] == w.hist.ops;
    forall sid ensures NamesStream(w'.table, sid) <==> LastIsInsert(w'.hist.ops, sid) {
      if d :| d in w.table && w.table[d].job.sid == sid && sid != info.job.sid {
        assert w'.table[d].job.sid == sid;
      }
    }
  }

  lemma LateStopKeepsTable(w: World, info: Row, removed: Option<DocId>)
    requires TableOk(w) && PidsOk(w) && UpdatePossible(w, info.job.sid, removed)
    ensures TableOk(LateStop(w, info, removed)) && PidsOk(LateStop(w, info, removed))
  {
  }

  lemma LateStopStops(w: World, info: Row, removed: DocId)
    requires TableOk(w) && StopsOk(w) && UpdatePossible(w, info.job.sid, Some(removed))
    ensures StopsOk(LateStop(w, info, Some(removed))) <==>
              w.table[removed].pid in w.signals + w.signalled + w.hist.lost + {info.pid}
  {
    var w' := LateStop(w, info, Some(removed));
    forall p | p in w'.hist.stopped ensures !NamesPid(w'.table, p) {
      assert p in w.hist.stopped ==> forall d :: d in w.table ==> w.table[d].pid != p;
    }
  }

  /** Done late, a stop keeps the invariants, except that a pid whose row it removes may be left without a
      SIGINT: exactly when that is not the pid looked up and has none of its own. */
  lemma LateStopKeeps(w: World, info: Row, removed: Option<DocId>)
    requires Safe(w) && UpdatePossible(w, info.job.sid, removed)
    ensures var w' := LateStop(w, info, removed);
            TableOk(w') && PidsOk(w') && QueueOk(w') && OpsOk(w') && LaunchesOk(w')
    ensures StopsOk(LateStop(w, info, removed)) <==>
              (removed.Some? ==>
                 w.table[removed.value].pid in w.signals + w.signalled + w.hist.lost + {info.pid})
  {
    hide LaunchesOk, TableOk, PidsOk;
    LateStopKeepsTable(w, info, removed);
    ShrinkKeepsLaunches(w, LateStop(w, info, removed));
    if removed.Some? {
      hide OpsOk, StopsOk;
      LateStopKeepsOps(w, info, removed.value);
      LateStopStops(w, info, removed.value);
    }
  }

  /** Done late, a stop still accounts for every recorder exactly when the recorder whose row it removes
      is the one it looked up, or is not running, or has its own SIGINT. */
  lemma LateStopAccounts(w: World, info: Row, removed: Option<DocId>)
    requires TableOk(w) && Accounted(w) && UpdatePossible(w, info.job.sid, removed)
    ensures Accounted(LateStop(w, info, removed)) <==>
              (removed.Some? ==> var p := w.table[removed.value].pid;
                                 p in w.signals + w.signalled + {info.pid} || !Running(w, p))
  {
    var w' := LateStop(w, info, removed);
    assert forall p :: Running(w', p) <==> Running(w, p);
    if removed.Some? {
      var q := w.table[removed.value].pid;
      assert !NamesPid(w'.table, q);
      forall p | NamesPid(w.table, p) && p != q ensures NamesPid(w'.table, p) {
        var d :| d in w.table && w.table[d].pid == p;
        assert d in w'.table && w'.table[d].pid == p;
      }
    }
  }

  /** The run that breaks it: the recorder is replaced between lookup and removal, and its successor
      runs on with no row and no SIGINT. */
  lemma LateStopLosesRecorder(req: Request) returns (looked: World, w: World)
    ensures CleanReachable(looked) && CleanReachable(w)
    ensures 0 in looked.table && UpdatePossible(w, looked.table[0].job.sid, Some(0))
    ensures !Accounted(LateStop(w, looked.table[0], Some(0)))
  {
    hide CleanReachable;
    looked := OneRecorder(req);
    var w1 := ExitAndReap(looked, 10);
    var reload := Notify(10, Reloaded(0, 11, Some(0)));
    CleanStep(w1, reload);
    w := Step(w1, reload);
    var w' := LateStop(w, looked.table[0], Some(0));
    assert Running(w', 11) && 11 !in w'.signals + w'.signalled && w'.table.Keys == {};
  }
}
