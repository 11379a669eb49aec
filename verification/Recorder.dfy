/** The recorder supervisor as a step machine.

One `World` holds everything the four actors of `ProcessManager` share (the HTTP thread, the queue
consumer, the SIGCHLD handler, the monitor thread): the request queue, the `process_info` collection,
the operating system's processes, and how far each actor has got. One `Event` is one atomic action of one actor, or of the environment, together with every choice the
environment makes in it (which matching document a query returns, whether a fork or a write
succeeds, which pid a fork yields). A run is a sequence of events, in any interleaving.
*/
module Recorder {
  import opened Options

  type Pid = nat
  type DocId = nat

  /** The process that inherits the children of a dead supervisor. */
  const INIT: Pid := 1

  /** A start request, as `start_record` queues it; `dir` is the directory the playlist goes to. */
  datatype Request = Request(sid: string, url: string, dir: string, kind: string, host: string)

  /** What a recorder is launched with: stream, source URL, playlist file. */
  datatype Job = Job(sid: string, url: string, file: string)

  /** A document of the `process_info` collection. */
  datatype Row = Row(pid: Pid, ppid: Pid, job: Job, kind: string, host: string)

  /** A process the kernel knows: running, or exited and not yet reaped. */
  datatype Proc = Proc(live: bool, parent: Pid)

  /** How far the queue consumer has got with the request at the front of the queue. */
  datatype Consumer =
    | Idle
    | Fetched(req: Request)
    | Vacant(req: Request)                  // no row carries the stream id
    | Prepared(req: Request, file: string)  // playlist file created
    | Handled(req: Request)                 // spawn_process has returned

  datatype Cause = Spawned | Replaces(dead: Pid)

  datatype Launch = Launch(job: Job, cause: Cause, order: nat)

  datatype TableOp = Inserted(sid: string) | Removed(sid: string)

  /** What has happened so far. No step ever reads it. */
  datatype History = History(
    launches: map<Pid, Launch>,  // every recorder ever forked
    ops: seq<TableOp>,           // every successful insert and removal
    stopped: set<Pid>,           // pids whose row a stop removed
    lost: set<Pid>,              // pids whose SIGINT died with a supervisor
    put: seq<Request>,           // the queue's traffic in this supervisor's lifetime
    handled: seq<Request>,
    popped: seq<Request>)

  datatype World = World(
    queue: seq<Request>,
    consumer: Consumer,
    table: map<DocId, Row>,
    procs: map<Pid, Proc>,
    used: set<Pid>,         // every pid the kernel has ever handed out
    supervisor: Pid,
    notices: set<Pid>,      // returned by waitpid, send_message still to come
    snapshot: seq<Row>,     // what the orphan pass has still to inspect
    signals: set<Pid>,      // looked up by a stop, SIGINT still to come
    signalled: set<Pid>,
    hist: History)

  /** How one reload (look up by pid, fork, update by stream id) turns out. */
  datatype Reload =
    | NoRow
    | ForkFailed(found: DocId)
    | Reloaded(found: DocId, child: Pid, updated: Option<DocId>)  // None: the write failed

  datatype Event =
    // the HTTP thread
    | Put(req: Request)
    | Stop(sid: string, found: Option<DocId>, removed: Option<DocId>)
    | Signal(pid: Pid)
    // the queue consumer
    | Front
    | Check
    | Create(file: Option<string>)
    | Spawn(child: Option<Pid>, inserted: Option<DocId>)
    | Pop
    // the SIGCHLD handler
    | Reap(pid: Pid)
    | Notify(pid: Pid, reload: Reload)
    // the monitor thread
    | Snapshot(order: seq<DocId>)
    | Inspect(reload: Reload)
    // the environment
    | Exit(pid: Pid)
    | InitReap(pid: Pid)
    | Restart(pid: Pid)

  predicate ConsumerEvent(e: Event) {
    e.Front? || e.Check? || e.Create? || e.Spawn? || e.Pop?
  }

  predicate NamesPid(table: map<DocId, Row>, pid: Pid) {
    exists d :: d in table && table[d].pid == pid
  }

  predicate NamesStream(table: map<DocId, Row>, sid: string) {
    exists d :: d in table && table[d].job.sid == sid
  }

  predicate Fresh(w: World, pid: Pid) {
    pid !in w.used
  }

  /** `order` lists the documents the orphan query matches, each once. */
  predicate OrphanListing(w: World, order: seq<DocId>) {
    && (forall i, j :: 0 <= i < j < |order| ==> order[i] != order[j])
    && (forall i :: 0 <= i < |order| ==> order[i] in w.table && w.table[order[i]].ppid != w.supervisor)
    && (forall d :: d in w.table && w.table[d].ppid != w.supervisor ==> d in order)
  }

  predicate ReloadPossible(w: World, pid: Pid, r: Reload) {
    match r
    case NoRow => !NamesPid(w.table, pid)
    case ForkFailed(found) => found in w.table && w.table[found].pid == pid
    case Reloaded(found, child, updated) =>
      && found in w.table && w.table[found].pid == pid
      && Fresh(w, child)
      && (updated.Some? ==>
            updated.value in w.table && w.table[updated.value].job.sid == w.table[found].job.sid)
  }

  predicate Possible(w: World, e: Event) {
    match e
    case Put(_) => true
    case Stop(sid, None, removed) => !NamesStream(w.table, sid) && removed == None
    case Stop(sid, Some(found), removed) =>
      && found in w.table && w.table[found].job.sid == sid
      && (removed.Some? ==> removed.value in w.table && w.table[removed.value].job.sid == sid)
    case Signal(pid) => pid in w.signals
    case Front => w.consumer.Idle? && w.queue != []
    case Check => w.consumer.Fetched?
    case Create(_) => w.consumer.Vacant?
    case Spawn(None, inserted) => w.consumer.Prepared? && inserted == None
    case Spawn(Some(child), inserted) =>
      && w.consumer.Prepared? && Fresh(w, child)
      && (inserted.Some? ==> inserted.value !in w.table)
    case Pop => w.consumer.Handled? && w.queue != []
    case Reap(pid) => pid in w.procs && !w.procs[pid].live && w.procs[pid].parent == w.supervisor
    case Notify(pid, r) => pid in w.notices && ReloadPossible(w, pid, r)
    case Snapshot(order) => w.snapshot == [] && OrphanListing(w, order)
    case Inspect(r) =>
      && w.snapshot != []
      && if w.snapshot[0].pid in w.procs then r == NoRow else ReloadPossible(w, w.snapshot[0].pid, r)
    case Exit(pid) => pid in w.procs && w.procs[pid].live
    case InitReap(pid) => pid in w.procs && !w.procs[pid].live && w.procs[pid].parent == INIT
    case Restart(pid) => Fresh(w, pid)
  }

  /** A recorder starts as a child of the supervisor, with `job` on its command line. */
  function Fork(w: World, child: Pid, job: Job, cause: Cause): World {
    w.(procs := w.procs[child := Proc(true, w.supervisor)],
       used := w.used + {child},
       hist := w.hist.(launches := w.hist.launches[child := Launch(job, cause, |w.hist.launches|)]))
  }

  /** `update_process_info`: one row gets the new pid and keeps everything else. */
  function SetPid(w: World, doc: DocId, pid: Pid): World
    requires doc in w.table
  {
    w.(table := w.table[doc := w.table[doc].(pid := pid)])
  }

  function ReloadStep(w: World, pid: Pid, r: Reload): World
    requires ReloadPossible(w, pid, r)
  {
    match r
    case NoRow => w
    case ForkFailed(_) => w
    case Reloaded(found, child, updated) =>
      var w1 := Fork(w, child, w.table[found].job, Replaces(pid));
      if updated.Some? then SetPid(w1, updated.value, child) else w1
  }

  function Finish(w: World, req: Request): World {
    w.(consumer := Handled(req), hist := w.hist.(handled := w.hist.handled + [req]))
  }

  function SpawnStep(w: World, child: Pid, inserted: Option<DocId>): World
    requires w.consumer.Prepared?
  {
    var req := w.consumer.req;
    var job := Job(req.sid, req.url, w.consumer.file);
    var w1 := Finish(Fork(w, child, job, Spawned), req);
    if inserted.None? then w1
    else w1.(table := w.table[inserted.value := Row(child, w.supervisor, job, req.kind, req.host)],
             hist := w1.hist.(ops := w.hist.ops + [Inserted(req.sid)]))
  }

  function StopStep(w: World, sid: string, found: DocId, removed: Option<DocId>): World
    requires found in w.table
  {
    var w1 := w.(signals := w.signals + {w.table[found].pid});
    if removed.None? then w1
    else w1.(table := w.table - {removed.value},
             hist := w.hist.(ops := w.hist.ops + [Removed(sid)],
                             stopped := w.hist.stopped + {w.table[found].pid}))
  }

  function RestartStep(w: World, pid: Pid): World {
    w.(queue := [], consumer := Idle, supervisor := pid, used := w.used + {pid},
       notices := {}, snapshot := [], signals := {},
       procs := map p | p in w.procs ::
         if w.procs[p].parent == w.supervisor then w.procs[p].(parent := INIT) else w.procs[p],
       hist := w.hist.(lost := w.hist.lost + w.signals, put := [], handled := [], popped := []))
  }

  function Step(w: World, e: Event): World
    requires Possible(w, e)
  {
    match e
    case Put(req) => w.(queue := w.queue + [req], hist := w.hist.(put := w.hist.put + [req]))
    case Stop(_, None, _) => w
    case Stop(sid, Some(found), removed) => StopStep(w, sid, found, removed)
    case Signal(pid) => w.(signals := w.signals - {pid}, signalled := w.signalled + {pid})
    case Front => w.(consumer := Fetched(w.queue[0]))
    case Check =>
      var req := w.consumer.req;
      if NamesStream(w.table, req.sid) then Finish(w, req) else w.(consumer := Vacant(req))
    case Create(None) => Finish(w, w.consumer.req)
    case Create(Some(file)) => w.(consumer := Prepared(w.consumer.req, file))
    case Spawn(None, _) => Finish(w, w.consumer.req)
    case Spawn(Some(child), inserted) => SpawnStep(w, child, inserted)
    case Pop =>
      w.(consumer := Idle, queue := w.queue[1..], hist := w.hist.(popped := w.hist.popped + [w.queue[0]]))
    case Reap(pid) => w.(procs := w.procs - {pid}, notices := w.notices + {pid})
    case Notify(pid, r) => ReloadStep(w, pid, r).(notices := w.notices - {pid})
    case Snapshot(order) =>
      w.(snapshot := seq(|order|, i requires 0 <= i < |order| => w.table[order[i]]))
    case Inspect(r) =>
      if w.snapshot[0].pid in w.procs then w.(snapshot := w.snapshot[1..])
      else ReloadStep(w, w.snapshot[0].pid, r).(snapshot := w.snapshot[1..])
    case Exit(pid) => w.(procs := w.procs[pid := w.procs[pid].(live := false)])
    case InitReap(pid) => w.(procs := w.procs - {pid})
    case Restart(pid) => RestartStep(w, pid)
  }

  /** The first supervisor ever, with nothing recorded. */
  function Boot(supervisor: Pid): World {
    World([], Idle, map[], map[], {INIT, supervisor}, supervisor, {}, [], {}, {},
          History(map[], [], {}, {}, [], [], []))
  }

  ghost predicate Feasible(w: World, es: seq<Event>)
    decreases |es|
  {
    es == [] || (Possible(w, es[0]) && Feasible(Step(w, es[0]), es[1..]))
  }

  ghost function Run(w: World, es: seq<Event>): World
    requires Feasible(w, es)
    decreases |es|
  {
    if es == [] then w else Run(Step(w, es[0]), es[1..])
  }

  predicate CleanReload(r: Reload) {
    r.NoRow? || (r.Reloaded? && r.updated.Some?)
  }

  /** The forks and writes this event performs on the table's behalf succeed. A spawn whose fork
      fails is fine: nothing has been written yet. */
  predicate Clean(e: Event) {
    match e
    case Spawn(Some(_), inserted) => inserted.Some?
    case Notify(_, r) => CleanReload(r)
    case Inspect(r) => CleanReload(r)
    case _ => true
  }

  predicate CleanRun(es: seq<Event>) {
    forall e :: e in es ==> Clean(e)
  }

  ghost predicate Reaches(w: World, supervisor: Pid, es: seq<Event>) {
    supervisor != INIT && Feasible(Boot(supervisor), es) && Run(Boot(supervisor), es) == w
  }

  ghost predicate Reachable(w: World) {
    exists supervisor, es :: Reaches(w, supervisor, es)
  }

  /** Reachable by a run in which every fork and write on the table's behalf succeeds. */
  ghost predicate CleanReachable(w: World) {
    exists supervisor, es :: Reaches(w, supervisor, es) && CleanRun(es)
  }

  // ---------------------------------------------------------------------------------------------
  // Runs compose

  lemma {:induction false} RunConcat(w: World, es: seq<Event>, fs: seq<Event>)
    requires Feasible(w, es) && Feasible(Run(w, es), fs)
    ensures Feasible(w, es + fs) && Run(w, es + fs) == Run(Run(w, es), fs)
    decreases |es|
  {
    if es == [] {
      assert es + fs == fs;
    } else {
      RunConcat(Step(w, es[0]), es[1..], fs);
      assert (es + fs)[0] == es[0] && (es + fs)[1..] == es[1..] + fs;
    }
  }

  lemma RunOne(w: World, e: Event)
    requires Possible(w, e)
    ensures Feasible(w, [e]) && Run(w, [e]) == Step(w, e)
  {
    var rest := [e][1..];
    assert Feasible(Step(w, e), rest) && Run(Step(w, e), rest) == Step(w, e);
  }

  lemma ReachableRun(w: World, es: seq<Event>)
    requires Reachable(w) && Feasible(w, es)
    ensures Reachable(Run(w, es))
  {
    var supervisor, fs :| Reaches(w, supervisor, fs);
    RunConcat(Boot(supervisor), fs, es);
    assert Reaches(Run(w, es), supervisor, fs + es);
  }

  lemma CleanReachableRun(w: World, es: seq<Event>)
    requires CleanReachable(w) && Feasible(w, es) && CleanRun(es)
    ensures CleanReachable(Run(w, es))
  {
    var supervisor, fs :| Reaches(w, supervisor, fs) && CleanRun(fs);
    RunConcat(Boot(supervisor), fs, es);
    assert Reaches(Run(w, es), supervisor, fs + es) && CleanRun(fs + es);
  }
}
