/** What every step keeps, whether or not forks and writes succeed. */
module RecorderSafety {
  import opened Options
  import opened Recorder

  // ---------------------------------------------------------------------------------------------
  // The table

  ghost predicate UniqueStreams(table: map<DocId, Row>) {
    forall c, d :: c in table && d in table && table[c].job.sid == table[d].job.sid ==> c == d
  }

  ghost predicate UniquePids(table: map<DocId, Row>) {
    forall c, d :: c in table && d in table && table[c].pid == table[d].pid ==> c == d
  }

  /** The stream the consumer has found free is still free. */
  ghost predicate Reserved(w: World) {
    w.consumer.Vacant? || w.consumer.Prepared? ==> !NamesStream(w.table, w.consumer.req.sid)
  }

  ghost predicate TableOk(w: World) {
    UniqueStreams(w.table) && UniquePids(w.table) && Reserved(w)
  }

  /** Every pid anyone remembers was handed out by the kernel; a reaped pid is gone. */
  ghost predicate PidsOk(w: World) {
    && INIT in w.used && w.supervisor in w.used && w.supervisor != INIT
    && w.procs.Keys <= w.used && w.notices <= w.used && w.hist.stopped <= w.used
    && w.hist.launches.Keys <= w.used
    && w.notices !! w.procs.Keys
    && (forall d :: d in w.table ==> w.table[d].pid in w.used && w.table[d].ppid in w.used)
    && (forall r :: r in w.snapshot ==> r.pid in w.used)
  }

  /** Stopped pids have left the table and each has its SIGINT sent, pending or lost. */
  ghost predicate StopsOk(w: World) {
    && (forall p :: p in w.hist.stopped ==> !NamesPid(w.table, p))
    && w.hist.stopped <= w.signals + w.signalled + w.hist.lost
  }

  lemma ReloadKeepsTable(w: World, pid: Pid, r: Reload)
    requires ReloadPossible(w, pid, r) && TableOk(w) && PidsOk(w)
    ensures TableOk(ReloadStep(w, pid, r))
    ensures r.Reloaded? && r.updated.Some? ==> r.updated.value == r.found
    ensures forall sid :: NamesStream(ReloadStep(w, pid, r).table, sid) <==> NamesStream(w.table, sid)
    ensures forall d :: d in w.table <==> d in ReloadStep(w, pid, r).table
  {
    var w' := ReloadStep(w, pid, r);
    forall sid ensures NamesStream(w'.table, sid) <==> NamesStream(w.table, sid) {
      if NamesStream(w.table, sid) {
        var d :| d in w.table && w.table[d].job.sid == sid;
        assert w'.table[d].job.sid == sid;
      }
    }
  }

  lemma StepKeepsTable(w: World, e: Event)
    requires Possible(w, e) && TableOk(w) && PidsOk(w)
    ensures TableOk(Step(w, e))
  {
    match e
    case Notify(pid, r) => ReloadKeepsTable(w, pid, r);
    case Inspect(r) =>
      if w.snapshot[0].pid !in w.procs { ReloadKeepsTable(w, w.snapshot[0].pid, r); }
    case Spawn(Some(child), Some(doc)) =>
      assert forall d :: d in w.table ==> w.table[d].job.sid != w.consumer.req.sid;
    case _ =>
  }

  lemma ReloadKeepsPids(w: World, pid: Pid, r: Reload)
    requires ReloadPossible(w, pid, r) && PidsOk(w)
    ensures PidsOk(ReloadStep(w, pid, r))
  {
  }

  lemma SpawnKeepsPids(w: World, child: Pid, inserted: Option<DocId>)
    requires Possible(w, Spawn(Some(child), inserted)) && PidsOk(w)
    ensures PidsOk(SpawnStep(w, child, inserted))
  {
  }

  lemma RestartKeepsPids(w: World, pid: Pid)
    requires Possible(w, Restart(pid)) && PidsOk(w)
    ensures PidsOk(RestartStep(w, pid))
  {
  }

  lemma StepKeepsPids(w: World, e: Event)
    requires Possible(w, e) && PidsOk(w)
    ensures PidsOk(Step(w, e))
  {
    match e
    case Notify(pid, r) => ReloadKeepsPids(w, pid, r);
    case Inspect(r) =>
      if w.snapshot[0].pid !in w.procs { ReloadKeepsPids(w, w.snapshot[0].pid, r); }
    case Spawn(Some(child), inserted) => SpawnKeepsPids(w, child, inserted);
    case Restart(pid) => RestartKeepsPids(w, pid);
    case _ =>
  }

  lemma ReloadKeepsStops(w: World, pid: Pid, r: Reload)
    requires ReloadPossible(w, pid, r) && StopsOk(w) && PidsOk(w)
    ensures StopsOk(ReloadStep(w, pid, r))
  {
  }

  lemma StepKeepsStops(w: World, e: Event)
    requires Possible(w, e) && StopsOk(w) && PidsOk(w) && TableOk(w)
    ensures StopsOk(Step(w, e))
  {
    match e
    case Notify(pid, r) => ReloadKeepsStops(w, pid, r);
    case Inspect(r) =>
      if w.snapshot[0].pid !in w.procs { ReloadKeepsStops(w, w.snapshot[0].pid, r); }
    case Spawn(Some(child), Some(doc)) =>
      var w' := Step(w, e);
      forall p | p in w.hist.stopped ensures !NamesPid(w'.table, p) {
        assert forall d :: d in w.table ==> w.table[d].pid != p;
      }
    case Stop(sid, Some(found), Some(removed)) =>
      assert found == removed;
      var w' := Step(w, e);
      forall p | p in w'.hist.stopped ensures !NamesPid(w'.table, p) {
        assert p in w.hist.stopped ==> forall d :: d in w.table ==> w.table[d].pid != p;
      }
    case _ =>
  }

  // ---------------------------------------------------------------------------------------------
  // The queue

  ghost predicate QueueOk(w: World) {
    && w.hist.put == w.hist.popped + w.queue
    && (!w.consumer.Idle? ==> w.queue != [] && w.queue[0] == w.consumer.req)
    && w.hist.handled == w.hist.popped + (if w.consumer.Handled? then [w.consumer.req] else [])
  }

  lemma TrafficKeepsQueue(w: World, e: Event)
    requires Possible(w, e) && QueueOk(w) && (e.Put? || e.Front? || e.Pop?)
    ensures QueueOk(Step(w, e))
  {
  }

  lemma StepKeepsQueue(w: World, e: Event)
    requires Possible(w, e) && QueueOk(w)
    ensures QueueOk(Step(w, e))
  {
    match e
    case Put(_) => TrafficKeepsQueue(w, e);
    case Front => TrafficKeepsQueue(w, e);
    case Pop => TrafficKeepsQueue(w, e);
    case _ =>
  }

  // ---------------------------------------------------------------------------------------------
  // The record of inserts and removals

  predicate LastIsInsert(ops: seq<TableOp>, sid: string) {
    if ops == [] then false
    else if ops[|ops| - 1].sid == sid then ops[|ops| - 1].Inserted?
    else LastIsInsert(ops[..|ops| - 1], sid)
  }

  ghost predicate OpsOk(w: World) {
    forall sid :: NamesStream(w.table, sid) <==> LastIsInsert(w.hist.ops, sid)
  }

  lemma SpawnKeepsOps(w: World, child: Pid, doc: DocId)
    requires Possible(w, Spawn(Some(child), Some(doc))) && OpsOk(w)
    ensures OpsOk(SpawnStep(w, child, Some(doc)))
  {
    var w' := SpawnStep(w, child, Some(doc));
    assert w'.hist.ops[..|w.hist.ops|] == w.hist.ops;
    forall sid ensures NamesStream(w'.table, sid) <==> LastIsInsert(w'.hist.ops, sid) {
      assert w'.table[doc].job.sid == w.consumer.req.sid;
      if d :| d in w.table && w.table[d].job.sid == sid { assert w'.table[d].job.sid == sid; }
    }
  }

  lemma StopKeepsOps(w: World, gone: string, found: DocId, removed: DocId)
    requires Possible(w, Stop(gone, Some(found), Some(removed))) && OpsOk(w) && UniqueStreams(w.table)
    ensures OpsOk(StopStep(w, gone, found, Some(removed)))
  {
    var w' := StopStep(w, gone, found, Some(removed));
    assert w'.hist.ops[..|w.hist.ops|] == w.hist.ops;
    forall sid ensures NamesStream(w'.table, sid) <==> LastIsInsert(w'.hist.ops, sid) {
      if d :| d in w.table && w.table[d].job.sid == sid && sid != gone {
        assert w'.table[d].job.sid == sid;
      }
    }
  }

  lemma StepKeepsOps(w: World, e: Event)
    requires Possible(w, e) && OpsOk(w) && TableOk(w) && PidsOk(w)
    ensures OpsOk(Step(w, e))
  {
    match e
    case Notify(pid, r) => ReloadKeepsTable(w, pid, r);
    case Inspect(r) =>
      if w.snapshot[0].pid !in w.procs { ReloadKeepsTable(w, w.snapshot[0].pid, r); }
    case Spawn(Some(child), Some(doc)) => SpawnKeepsOps(w, child, doc);
    case Stop(gone, Some(found), Some(removed)) => StopKeepsOps(w, gone, found, removed);
    case _ =>
  }

  // ---------------------------------------------------------------------------------------------
  // The record of launches

  ghost predicate Succeeds(launches: map<Pid, Launch>, dead: Pid, child: Pid) {
    && dead in launches && child in launches
    && launches[dead].order < launches[child].order
    && launches[dead].job == launches[child].job
  }

  /** Every process and every row goes back to a launch with the row's job, and a replacement was
      launched later than what it replaces, with the same job. */
  ghost predicate LaunchesOk(w: World) {
    && w.procs.Keys <= w.hist.launches.Keys
    && (forall d :: d in w.table ==>
          w.table[d].pid in w.hist.launches && w.hist.launches[w.table[d].pid].job == w.table[d].job)
    && (forall p :: p in w.hist.launches ==> w.hist.launches[p].order < |w.hist.launches|)
    && (forall p :: p in w.hist.launches && w.hist.launches[p].cause.Replaces? ==>
          Succeeds(w.hist.launches, w.hist.launches[p].cause.dead, p))
  }

  lemma ForkKeepsLaunches(w: World, child: Pid, job: Job, cause: Cause)
    requires LaunchesOk(w) && PidsOk(w) && Fresh(w, child)
    requires cause.Replaces? ==> cause.dead in w.hist.launches && w.hist.launches[cause.dead].job == job
    ensures LaunchesOk(Fork(w, child, job, cause))
  {
  }

  lemma ReloadKeepsLaunches(w: World, pid: Pid, r: Reload)
    requires ReloadPossible(w, pid, r) && LaunchesOk(w) && PidsOk(w) && TableOk(w)
    ensures LaunchesOk(ReloadStep(w, pid, r))
  {
    if r.Reloaded? {
      ForkKeepsLaunches(w, r.child, w.table[r.found].job, Replaces(pid));
    }
  }

  lemma SpawnKeepsLaunches(w: World, child: Pid, inserted: Option<DocId>)
    requires Possible(w, Spawn(Some(child), inserted)) && LaunchesOk(w) && PidsOk(w)
    ensures LaunchesOk(SpawnStep(w, child, inserted))
  {
    ForkKeepsLaunches(w, child, Job(w.consumer.req.sid, w.consumer.req.url, w.consumer.file), Spawned);
  }

  /** From `w` to `w'` nothing is launched, and rows and processes are at most taken away. */
  ghost predicate Shrinks(w: World, w': World) {
    && w'.hist.launches == w.hist.launches && w'.procs.Keys <= w.procs.Keys
    && (forall d :: d in w'.table ==> d in w.table && w'.table[d] == w.table[d])
  }

  lemma QuietShrinks(w: World, e: Event)
    requires Possible(w, e) && !e.Notify? && !e.Inspect? && !(e.Spawn? && e.child.Some?)
    ensures Shrinks(w, Step(w, e))
  {
  }

  lemma ShrinkKeepsLaunches(w: World, w': World)
    requires LaunchesOk(w) && Shrinks(w, w')
    ensures LaunchesOk(w')
  {
  }

  lemma StepKeepsLaunches(w: World, e: Event)
    requires Possible(w, e) && LaunchesOk(w) && PidsOk(w) && TableOk(w)
    ensures LaunchesOk(Step(w, e))
  {
    hide LaunchesOk, TableOk, PidsOk;
    match e
    case Notify(pid, r) =>
      ReloadKeepsLaunches(w, pid, r);
      ShrinkKeepsLaunches(ReloadStep(w, pid, r), Step(w, e));
    case Inspect(r) =>
      if w.snapshot[0].pid in w.procs {
        ShrinkKeepsLaunches(w, Step(w, e));
      } else {
        ReloadKeepsLaunches(w, w.snapshot[0].pid, r);
        ShrinkKeepsLaunches(ReloadStep(w, w.snapshot[0].pid, r), Step(w, e));
      }
    case Spawn(Some(child), inserted) => SpawnKeepsLaunches(w, child, inserted);
    case _ =>
      QuietShrinks(w, e);
      ShrinkKeepsLaunches(w, Step(w, e));
  }

  // ---------------------------------------------------------------------------------------------
  // All of it, over whole runs

  ghost predicate Safe(w: World) {
    TableOk(w) && PidsOk(w) && StopsOk(w) && QueueOk(w) && OpsOk(w) && LaunchesOk(w)
  }

  lemma StepKeepsSafe(w: World, e: Event)
    requires Possible(w, e) && Safe(w)
    ensures Safe(Step(w, e))
  {
    StepKeepsTable(w, e);
    StepKeepsPids(w, e);
    StepKeepsStops(w, e);
    StepKeepsQueue(w, e);
    StepKeepsOps(w, e);
    StepKeepsLaunches(w, e);
  }

  lemma {:induction false} RunKeepsSafe(w: World, es: seq<Event>)
    requires Feasible(w, es) && Safe(w)
    ensures Safe(Run(w, es))
    decreases |es|
  {
    if es != [] {
      StepKeepsSafe(w, es[0]);
      RunKeepsSafe(Step(w, es[0]), es[1..]);
    }
  }

  lemma ReachableIsSafe(w: World)
    requires Reachable(w)
    ensures Safe(w)
  {
    var supervisor, es :| Reaches(w, supervisor, es);
    RunKeepsSafe(Boot(supervisor), es);
  }
}
