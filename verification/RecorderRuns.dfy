/** Guarantees over every run, including runs in which forks and table writes fail. */
module RecorderRuns {
  import opened Options
  import opened Recorder
  import opened RecorderSafety

  // ---------------------------------------------------------------------------------------------
  // Streams and the queue

  /** A stream has at most one row, although the existence check and the insert are separate steps;
      and it has one exactly when its last successful insert or removal was an insert. */
  lemma StreamRows(w: World, sid: string)
    requires Reachable(w)
    ensures forall c, d :: c in w.table && d in w.table && w.table[c].job.sid == sid == w.table[d].job.sid ==> c == d
    ensures NamesStream(w.table, sid) <==> LastIsInsert(w.hist.ops, sid)
  {
    ReachableIsSafe(w);
  }

  /** Requests leave the queue in arrival order, each exactly once and only after being handled. */
  lemma QueueConservation(w: World)
    requires Reachable(w)
    ensures w.hist.put == w.hist.popped + w.queue
    ensures w.hist.popped <= w.hist.handled <= w.hist.put
    ensures |w.hist.handled| <= |w.hist.popped| + 1
    ensures Possible(w, Pop) ==> w.hist.handled == Step(w, Pop).hist.popped == w.hist.popped + [w.consumer.req]
  {
    ReachableIsSafe(w);
    if w.consumer.Handled? {
      assert w.queue == [w.queue[0]] + w.queue[1..];
      assert w.hist.put == w.hist.handled + w.queue[1..];
    }
  }

  /** The requests put along a run, in order. */
  function Puts(es: seq<Event>): seq<Request> {
    if es == [] then []
    else if es[0].Put? then [es[0].req] + Puts(es[1..])
    else Puts(es[1..])
  }

  function Pops(es: seq<Event>): nat {
    if es == [] then 0 else if es[0].Pop? then Pops(es[1..]) + 1 else Pops(es[1..])
  }

  lemma StepQueue(w: World, e: Event)
    requires Possible(w, e) && !e.Restart?
    ensures e.Put? ==> Step(w, e).hist.put == w.hist.put + [e.req] && Step(w, e).queue == w.queue + [e.req]
    ensures e.Pop? ==> w.queue != [] && Step(w, e).queue == w.queue[1..]
    ensures !e.Put? ==> Step(w, e).hist.put == w.hist.put
    ensures !e.Put? && !e.Pop? ==> Step(w, e).queue == w.queue
  {
  }

  lemma PutOn<X>(q: seq<X>, x: X, rest: seq<X>)
    ensures q + [x] + rest == q + ([x] + rest)
  {
  }

  lemma PopOn<X>(q: seq<X>, rest: seq<X>, n: nat)
    requires q != [] && n <= |q[1..] + rest|
    ensures n + 1 <= |q + rest| && (q[1..] + rest)[n..] == (q + rest)[n + 1..]
  {
  }

  /** The queue is first in, first out: along any run of one supervisor it holds what it held and what was
      put since, without as many from its front as were popped. */
  lemma {:induction false} QueueOverRun(w: World, es: seq<Event>)
    requires Feasible(w, es) && forall e :: e in es ==> !e.Restart?
    ensures Pops(es) <= |w.queue + Puts(es)|
    ensures Run(w, es).queue == (w.queue + Puts(es))[Pops(es)..]
    ensures Run(w, es).hist.put == w.hist.put + Puts(es)
    decreases |es|
  {
    hide Step, Possible;
    if es != [] {
      assert es[0] in es;
      StepQueue(w, es[0]);
      QueueOverRun(Step(w, es[0]), es[1..]);
      if es[0].Put? {
        PutOn(w.queue, es[0].req, Puts(es[1..]));
        PutOn(w.hist.put, es[0].req, Puts(es[1..]));
      } else if es[0].Pop? {
        PopOn(w.queue, Puts(es[1..]), Pops(es[1..]));
      }
    }
  }

  /** A supervisor starts with nothing queued, nothing in hand and nothing pending, and with the table and
      the processes its predecessor left; its predecessor's children are init's. */
  lemma RestartStartsAfresh(w: World, pid: Pid)
    requires Possible(w, Restart(pid))
    ensures var w' := Step(w, Restart(pid));
            && w'.queue == [] && w'.consumer.Idle? && w'.notices == {} && w'.snapshot == [] && w'.signals == {}
            && w'.supervisor == pid && w'.table == w.table && w'.signalled == w.signalled
            && w'.procs.Keys == w.procs.Keys
            && (forall p :: p in w.procs ==> w'.procs[p].live == w.procs[p].live)
            && (forall p :: p in w.procs && w.procs[p].parent != w.supervisor ==> w'.procs[p] == w.procs[p])
            && (forall p :: p in w.procs && w.procs[p].parent == w.supervisor ==> w'.procs[p].parent == INIT)
  {
  }

  /** The processes that got a SIGINT are those the run signalled. */
  lemma {:induction false} SignalsOverRun(w: World, es: seq<Event>, p: Pid)
    requires Feasible(w, es)
    ensures p in Run(w, es).signalled <==> p in w.signalled || Signal(p) in es
    decreases |es|
  {
    if es != [] {
      assert es == [es[0]] + es[1..];
      assert p in Step(w, es[0]).signalled <==> p in w.signalled || es[0] == Signal(p);
      SignalsOverRun(Step(w, es[0]), es[1..], p);
    }
  }

  // ---------------------------------------------------------------------------------------------
  // Stops

  /** From `w` to `w'` nothing launched or stopped is forgotten, and a replacement needed a row of
      `w` with the dead pid. */
  ghost predicate Extends(w: World, w': World) {
    && (forall q :: q in w.hist.launches ==>
          q in w'.hist.launches && w'.hist.launches[q] == w.hist.launches[q])
    && (forall q :: q in w'.hist.launches && q !in w.hist.launches && w'.hist.launches[q].cause.Replaces? ==>
          NamesPid(w.table, w'.hist.launches[q].cause.dead))
    && w.hist.stopped <= w'.hist.stopped
  }

  lemma ReloadExtends(w: World, pid: Pid, r: Reload)
    requires ReloadPossible(w, pid, r) && PidsOk(w)
    ensures Extends(w, ReloadStep(w, pid, r))
  {
  }

  lemma StepExtends(w: World, e: Event)
    requires Possible(w, e) && PidsOk(w)
    ensures Extends(w, Step(w, e))
  {
    match e
    case Notify(pid, r) => ReloadExtends(w, pid, r);
    case Inspect(r) =>
      if w.snapshot[0].pid !in w.procs { ReloadExtends(w, w.snapshot[0].pid, r); }
    case _ =>
  }

  ghost predicate NoNewReplacement(w: World, w': World, p: Pid) {
    forall q :: q in w'.hist.launches && w'.hist.launches[q].cause == Replaces(p) ==>
      q in w.hist.launches && w.hist.launches[q] == w'.hist.launches[q]
  }

  lemma StepKeepsStopped(w: World, e: Event, p: Pid)
    requires Possible(w, e) && PidsOk(w) && StopsOk(w) && p in w.hist.stopped
    ensures p in Step(w, e).hist.stopped && NoNewReplacement(w, Step(w, e), p)
  {
    StepExtends(w, e);
  }

  lemma {:induction false} RunKeepsStopped(w: World, es: seq<Event>, p: Pid)
    requires Safe(w) && Feasible(w, es) && p in w.hist.stopped
    ensures !NamesPid(Run(w, es).table, p)
    ensures NoNewReplacement(w, Run(w, es), p)
    decreases |es|
  {
    if es != [] {
      StepKeepsSafe(w, es[0]);
      StepKeepsStopped(w, es[0], p);
      RunKeepsStopped(Step(w, es[0]), es[1..], p);
    }
  }

  /** Once a stop has removed the row of `p`, no run names `p` in a row or forks a replacement for it. */
  lemma StoppedStaysStopped(w: World, es: seq<Event>, p: Pid)
    requires Reachable(w) && Feasible(w, es) && p in w.hist.stopped
    ensures !NamesPid(Run(w, es).table, p)
    ensures forall q :: q in Run(w, es).hist.launches && Run(w, es).hist.launches[q].cause == Replaces(p) ==>
              q in w.hist.launches
  {
    ReachableIsSafe(w);
    RunKeepsStopped(w, es, p);
  }

  /** The event is a successful insert for the stream. */
  predicate InsertsStream(w: World, e: Event, sid: string) {
    e.Spawn? && e.inserted.Some? && w.consumer.Prepared? && w.consumer.req.sid == sid
  }

  ghost predicate NeverInserted(w: World, es: seq<Event>, sid: string)
    requires Feasible(w, es)
    decreases |es|
  {
    es == [] || (!InsertsStream(w, es[0], sid) && NeverInserted(Step(w, es[0]), es[1..], sid))
  }

  /** From `w` to `w'`, every new recorder of the stream is a spawn. */
  ghost predicate OnlySpawned(w: World, w': World, sid: string) {
    forall q :: q in w'.hist.launches && w'.hist.launches[q].job.sid == sid ==>
      || w'.hist.launches[q].cause.Spawned?
      || (q in w.hist.launches && w.hist.launches[q] == w'.hist.launches[q])
  }

  lemma ReloadKeepsAbsence(w: World, pid: Pid, r: Reload, sid: string)
    requires ReloadPossible(w, pid, r) && TableOk(w) && PidsOk(w) && !NamesStream(w.table, sid)
    ensures !NamesStream(ReloadStep(w, pid, r).table, sid) && OnlySpawned(w, ReloadStep(w, pid, r), sid)
  {
    ReloadKeepsTable(w, pid, r);
    if r.Reloaded? {
      assert w.table[r.found].job.sid != sid;
    }
  }

  lemma StepKeepsAbsence(w: World, e: Event, sid: string)
    requires Possible(w, e) && TableOk(w) && PidsOk(w)
    requires !NamesStream(w.table, sid) && !InsertsStream(w, e, sid)
    ensures !NamesStream(Step(w, e).table, sid) && OnlySpawned(w, Step(w, e), sid)
  {
    match e
    case Notify(pid, r) => ReloadKeepsAbsence(w, pid, r, sid);
    case Inspect(r) =>
      if w.snapshot[0].pid !in w.procs { ReloadKeepsAbsence(w, w.snapshot[0].pid, r, sid); }
    case _ => assert forall d :: d in w.table ==> w.table[d].job.sid != sid;
  }

  lemma {:induction false} RunKeepsAbsence(w: World, es: seq<Event>, sid: string)
    requires Safe(w) && Feasible(w, es) && !NamesStream(w.table, sid) && NeverInserted(w, es, sid)
    ensures !NamesStream(Run(w, es).table, sid) && OnlySpawned(w, Run(w, es), sid)
    decreases |es|
  {
    if es != [] {
      StepKeepsSafe(w, es[0]);
      StepKeepsAbsence(w, es[0], sid);
      RunKeepsAbsence(Step(w, es[0]), es[1..], sid);
    }
  }

  /** No stopped stream is restarted: without a new insert for it, no row of the stream appears again and
      no recorder is launched for it in place of another, whatever forks and writes fail. */
  lemma StoppedStreamStaysStopped(w: World, es: seq<Event>, sid: string)
    requires Reachable(w) && Feasible(w, es) && !NamesStream(w.table, sid) && NeverInserted(w, es, sid)
    ensures !NamesStream(Run(w, es).table, sid)
    ensures var more := Run(w, es).hist.launches;
            forall q :: q in more && q !in w.hist.launches && more[q].job.sid == sid ==> more[q].cause.Spawned?
  {
    ReachableIsSafe(w);
    RunKeepsAbsence(w, es, sid);
  }

  /** A stop takes the pid it is about to signal out of the table exactly when the removal succeeds,
      which the code does not look at. */
  lemma StopRetiresPid(w: World, sid: string, found: DocId, removed: Option<DocId>)
    requires Reachable(w) && Possible(w, Stop(sid, Some(found), removed))
    ensures var w' := Step(w, Stop(sid, Some(found), removed));
            && w.table[found].pid in w'.signals
            && (removed.Some? <==> !NamesPid(w'.table, w.table[found].pid))
            && (removed.Some? <==> w.table[found].pid in w'.hist.stopped)
            && (removed.Some? <==> !NamesStream(w'.table, sid))
  {
    ReachableIsSafe(w);
    assert NamesPid(w.table, w.table[found].pid);
  }

  // ---------------------------------------------------------------------------------------------
  // Relaunches

  ghost predicate Lineage(launches: map<Pid, Launch>) {
    forall p :: p in launches && launches[p].cause.Replaces? ==> Succeeds(launches, launches[p].cause.dead, p)
  }

  /** The spawn a recorder goes back to, through all the recorders it replaced. */
  ghost function Origin(launches: map<Pid, Launch>, p: Pid): Pid
    requires Lineage(launches) && p in launches
    decreases launches[p].order
  {
    if launches[p].cause.Spawned? then p else Origin(launches, launches[p].cause.dead)
  }

  lemma {:induction false} OriginJob(launches: map<Pid, Launch>, p: Pid)
    requires Lineage(launches) && p in launches
    ensures Origin(launches, p) in launches
    ensures launches[Origin(launches, p)].cause.Spawned?
    ensures launches[Origin(launches, p)].job == launches[p].job
    decreases launches[p].order
  {
    if launches[p].cause.Replaces? {
      OriginJob(launches, launches[p].cause.dead);
    }
  }

  lemma {:induction false} OriginExtends(launches: map<Pid, Launch>, more: map<Pid, Launch>, p: Pid)
    requires Lineage(launches) && Lineage(more) && p in launches
    requires forall q :: q in launches ==> q in more && more[q] == launches[q]
    ensures Origin(more, p) == Origin(launches, p)
    decreases launches[p].order
  {
    if launches[p].cause.Replaces? {
      OriginExtends(launches, more, launches[p].cause.dead);
    }
  }

  /** Every recorder ever launched got the stream, URL and playlist of the spawn it goes back to, and
      every row still holds the job of the spawn that created it. */
  lemma RelaunchKeepsJob(w: World, p: Pid)
    requires Reachable(w) && p in w.hist.launches
    ensures Lineage(w.hist.launches)
    ensures var origin := Origin(w.hist.launches, p);
            && origin in w.hist.launches && w.hist.launches[origin].cause.Spawned?
            && w.hist.launches[origin].job == w.hist.launches[p].job
            && (forall d :: d in w.table && w.table[d].pid == p ==> w.table[d].job == w.hist.launches[origin].job)
  {
    ReachableIsSafe(w);
    OriginJob(w.hist.launches, p);
  }

  /** Document `d` is in the table all along the run. */
  ghost predicate Survives(w: World, es: seq<Event>, d: DocId)
    requires Feasible(w, es)
    decreases |es|
  {
    d in w.table && (es == [] || Survives(Step(w, es[0]), es[1..], d))
  }

  /** Row `r'` differs from `r` at most in its pid, which goes back to the same spawn. */
  ghost predicate SameSpawn(r: Row, launches: map<Pid, Launch>, r': Row, launches': map<Pid, Launch>) {
    && r' == r.(pid := r'.pid)
    && Lineage(launches) && Lineage(launches')
    && r.pid in launches && r'.pid in launches'
    && Origin(launches', r'.pid) == Origin(launches, r.pid)
  }

  lemma ReloadKeepsRow(w: World, pid: Pid, r: Reload, d: DocId)
    requires ReloadPossible(w, pid, r) && TableOk(w) && PidsOk(w) && LaunchesOk(w) && d in w.table
    ensures var w' := ReloadStep(w, pid, r);
            d in w'.table && SameSpawn(w.table[d], w.hist.launches, w'.table[d], w'.hist.launches)
  {
    if r.Reloaded? {
      ReloadKeepsLaunches(w, pid, r);
      OriginExtends(w.hist.launches, ReloadStep(w, pid, r).hist.launches, w.table[d].pid);
      if r.updated == Some(d) {
        assert d == r.found;
      }
    }
  }

  lemma SpawnKeepsRow(w: World, child: Pid, inserted: Option<DocId>, d: DocId)
    requires Possible(w, Spawn(Some(child), inserted)) && PidsOk(w) && LaunchesOk(w) && d in w.table
    ensures var w' := SpawnStep(w, child, inserted);
            d in w'.table && SameSpawn(w.table[d], w.hist.launches, w'.table[d], w'.hist.launches)
  {
    SpawnKeepsLaunches(w, child, inserted);
    OriginExtends(w.hist.launches, SpawnStep(w, child, inserted).hist.launches, w.table[d].pid);
  }

  lemma SameRow(w: World, d: DocId)
    requires LaunchesOk(w) && d in w.table
    ensures SameSpawn(w.table[d], w.hist.launches, w.table[d], w.hist.launches)
  {
  }

  lemma StepKeepsRow(w: World, e: Event, d: DocId)
    requires Possible(w, e) && TableOk(w) && PidsOk(w) && LaunchesOk(w)
    requires d in w.table && d in Step(w, e).table
    ensures SameSpawn(w.table[d], w.hist.launches, Step(w, e).table[d], Step(w, e).hist.launches)
  {
    hide TableOk, PidsOk, LaunchesOk, SameSpawn;
    match e
    case Notify(pid, r) => ReloadKeepsRow(w, pid, r, d);
    case Inspect(r) =>
      if w.snapshot[0].pid in w.procs {
        SameRow(w, d);
      } else {
        ReloadKeepsRow(w, w.snapshot[0].pid, r, d);
      }
    case Spawn(Some(child), inserted) => SpawnKeepsRow(w, child, inserted, d);
    case _ => SameRow(w, d);
  }

  lemma {:induction false} RunKeepsRow(w: World, es: seq<Event>, d: DocId)
    requires Safe(w) && Feasible(w, es) && Survives(w, es, d)
    ensures var w' := Run(w, es);
            d in w'.table && SameSpawn(w.table[d], w.hist.launches, w'.table[d], w'.hist.launches)
    decreases |es|
  {
    if es != [] {
      StepKeepsSafe(w, es[0]);
      StepKeepsRow(w, es[0], d);
      RunKeepsRow(Step(w, es[0]), es[1..], d);
    }
  }

  /** Through any number of reloads, orphan repairs and supervisor restarts, a row changes in nothing
      but its pid, and the recorder it names goes back to the same spawn. */
  lemma RowKeepsOrigin(w: World, es: seq<Event>, d: DocId)
    requires Reachable(w) && Feasible(w, es) && Survives(w, es, d)
    ensures var w' := Run(w, es);
            d in w'.table && SameSpawn(w.table[d], w.hist.launches, w'.table[d], w'.hist.launches)
  {
    ReachableIsSafe(w);
    RunKeepsRow(w, es, d);
  }
}
