/** `ProcessManager` as the code has it: methods that change the queue, the collection and the process
    table in place. Each is proved to perform a run of the step machine, so that everything proved there
    about all interleavings holds of it; `es` is that run. */
module ProcessManagers {
  import opened Options
  import opened Recorder
  import opened RecorderSafety
  import opened RecorderRecovery

  datatype ErrorCode = Ok | StreamExist | ForkFailure | StreamNotExist | CreateM3u8Failure

  /** What the environment does to one launch: the playlist file created, the fork, the table write. */
  datatype Outcome = Outcome(file: Option<string>, forked: bool, written: bool)

  lemma {:induction false} PidBound(used: set<Pid>) returns (bound: Pid)
    ensures forall p :: p in used ==> p < bound
    decreases used
  {
    if used == {} {
      bound := 0;
    } else {
      var p :| p in used;
      var b := PidBound(used - {p});
      bound := if p < b then b else p + 1;
      assert forall q :: q in used ==> q == p || q in used - {p};
    }
  }

  lemma DocBound(docs: set<DocId>) returns (bound: DocId)
    ensures forall d :: d in docs ==> d < bound
  {
    bound := PidBound(docs);
  }

  ghost function ExitedChildren(w: World): set<Pid> {
    set p | p in w.procs && !w.procs[p].live && w.procs[p].parent == w.supervisor
  }

  lemma ReachableProcs(w: World)
    requires Reachable(w)
    ensures w.procs.Keys <= w.used
  {
    ReachableIsSafe(w);
  }

  /** `es` leads from `w` to `w'`. */
  ghost predicate Leads(w: World, es: seq<Event>, w': World) {
    Feasible(w, es) && Run(w, es) == w'
  }

  ghost predicate Takes(w: World, e: Event, w': World) {
    Possible(w, e) && Step(w, e) == w'
  }

  lemma LeadsNowhere(w: World)
    ensures Leads(w, [], w)
  {
  }

  lemma LeadsOn(w: World, es: seq<Event>, w1: World, e: Event, w2: World)
    requires Leads(w, es, w1) && Takes(w1, e, w2)
    ensures Leads(w, es + [e], w2)
  {
    RunOne(w1, e);
    RunConcat(w, es, [e]);
  }

  lemma LeadsConcat(w: World, es: seq<Event>, w1: World, fs: seq<Event>, w2: World)
    requires Leads(w, es, w1) && Leads(w1, fs, w2)
    ensures Leads(w, es + fs, w2)
  {
    RunConcat(w, es, fs);
  }

  /** What handling the request at `i` does to the queue and to a record of requests. */
  lemma HandleOne(q: seq<Request>, i: nat, record: seq<Request>)
    requires i < |q|
    ensures q[i..][0] == q[i] && q[i..][1..] == q[i + 1..]
    ensures record + q[..i] + [q[i]] == record + q[..i + 1]
  {
  }

  predicate ConsumerRun(es: seq<Event>) {
    forall e :: e in es ==> ConsumerEvent(e)
  }

  lemma NoConsumerEvent()
    ensures ConsumerRun([])
  {
  }

  lemma ConsumerRunOn(es: seq<Event>, fs: seq<Event>)
    requires ConsumerRun(es) && forall e :: e in fs ==> e.Check? || e.Create? || e.Spawn?
    ensures ConsumerRun(es + [Front] + fs + [Pop])
  {
  }

  /** The removal a stop of the row `d` performs. */
  function Removal(sid: string, d: DocId, removable: bool): Event {
    Stop(sid, Some(d), if removable then Some(d) else None)
  }

  /** One more recorder runs, started with this job as a child of the supervisor. */
  ghost predicate Started(w: World, w': World, job: Job) {
    exists p: Pid ::
      && Fresh(w, p) && w'.procs == w.procs[p := Proc(true, w.supervisor)]
      && p in w'.hist.launches && w'.hist.launches[p].job == job && w'.hist.launches[p].cause.Spawned?
  }

  /** The reload that happened is one the fork and the write allow. */
  predicate FitsOutcome(out: Outcome, r: Reload) {
    r.NoRow? || (if out.forked then r.Reloaded? && (r.updated.Some? <==> out.written) else r.ForkFailed?)
  }

  /** What becomes of a reload of `pid` when the fork and the write turn out this way. */
  ghost predicate ReloadsAs(w: World, pid: Pid, out: Outcome, r: Reload) {
    if !NamesPid(w.table, pid) then r.NoRow?
    else if !out.forked then r.ForkFailed?
    else r.Reloaded? && (r.updated.Some? <==> out.written)
  }

  /** A new row for the request, naming a new running recorder; all other rows as they were. */
  ghost predicate Recorded(w: World, w': World, req: Request, file: string) {
    exists d: DocId, p: Pid ::
      && d !in w.table && Fresh(w, p) && Running(w', p)
      && w'.table == w.table[d := Row(p, w.supervisor, Job(req.sid, req.url, file), req.kind, req.host)]
  }

  /** Up to the fork, nothing happens to the table and the processes. */
  lemma SinceStart(w: World, w1: World, w': World, req: Request, file: string)
    requires w1.table == w.table && w1.procs == w.procs && w1.used == w.used && w1.supervisor == w.supervisor
    ensures Started(w1, w', Job(req.sid, req.url, file)) ==> Started(w, w', Job(req.sid, req.url, file))
    ensures Recorded(w1, w', req, file) ==> Recorded(w, w', req, file)
  {
  }

  /** Everything a launch needs turns out well. */
  predicate AllWell(out: Outcome) {
    out.file.Some? && out.forked && out.written
  }

  /** All rows stay as they were; the stream is the only one that may have come to have a row, and has one if
      `added`. */
  ghost predicate Adds(table: map<DocId, Row>, table': map<DocId, Row>, sid: string, added: bool) {
    && (forall s :: NamesStream(table', s) <==> NamesStream(table, s) || (added && s == sid))
    && (forall d :: d in table ==> d in table' && table'[d] == table[d])
  }

  lemma AddsNothing(table: map<DocId, Row>, sid: string)
    ensures Adds(table, table, sid, false) && (NamesStream(table, sid) ==> Adds(table, table, sid, true))
  {
  }

  lemma RecordedAdds(w: World, w': World, req: Request, file: string)
    requires Recorded(w, w', req, file)
    ensures Adds(w.table, w'.table, req.sid, true)
  {
    var d: DocId, p: Pid :|
      && d !in w.table && Fresh(w, p) && Running(w', p)
      && w'.table == w.table[d := Row(p, w.supervisor, Job(req.sid, req.url, file), req.kind, req.host)];
    assert w'.table[d].job.sid == req.sid;
    forall s ensures NamesStream(w'.table, s) <==> NamesStream(w.table, s) || s == req.sid {
      if c :| c in w.table && w.table[c].job.sid == s { assert w'.table[c].job.sid == s; }
    }
  }

  /** One of the first `n` requests is for the stream and went well. */
  ghost predicate Served(q: seq<Request>, env: nat -> Outcome, n: nat, sid: string)
    requires n <= |q|
  {
    exists i: nat :: i < n && q[i].sid == sid && AllWell(env(i))
  }

  /** From `table` to `table'`, the streams served by the first `n` requests have come to have rows. */
  ghost predicate ServedAll(q: seq<Request>, env: nat -> Outcome, n: nat, table: map<DocId, Row>, table': map<DocId, Row>)
    requires n <= |q|
  {
    && (forall s :: NamesStream(table', s) <==> NamesStream(table, s) || Served(q, env, n, s))
    && (forall d :: d in table ==> d in table' && table'[d] == table[d])
  }

  lemma ServedNone(q: seq<Request>, env: nat -> Outcome, table: map<DocId, Row>)
    ensures ServedAll(q, env, 0, table, table)
  {
  }

  lemma ServedOn(q: seq<Request>, env: nat -> Outcome, n: nat, t0: map<DocId, Row>, t1: map<DocId, Row>, t2: map<DocId, Row>)
    requires n < |q| && ServedAll(q, env, n, t0, t1) && Adds(t1, t2, q[n].sid, AllWell(env(n)))
    ensures ServedAll(q, env, n + 1, t0, t2)
  {
    hide NamesStream;
    assert forall s :: Served(q, env, n, s) ==> Served(q, env, n + 1, s);
    assert AllWell(env(n)) ==> Served(q, env, n + 1, q[n].sid);
  }

  /** An even event is a reap, an odd one the notification for the pid just reaped. */
  ghost predicate ReapOrNotify(es: seq<Event>, env: nat -> Outcome, j: nat)
    requires j < |es|
  {
    if j % 2 == 0 then es[j].Reap?
    else es[j].Notify? && es[j - 1] == Reap(es[j].pid) && FitsOutcome(env(j / 2), es[j].reload)
  }

  ghost predicate ReapsAndNotifies(es: seq<Event>, env: nat -> Outcome) {
    forall j: nat :: j < |es| ==> ReapOrNotify(es, env, j)
  }

  lemma ReapsNothing(env: nat -> Outcome)
    ensures ReapsAndNotifies([], env)
  {
  }

  lemma ReapsOn(es: seq<Event>, env: nat -> Outcome, e: Event)
    requires ReapsAndNotifies(es, env) && ReapOrNotify(es + [e], env, |es|)
    ensures ReapsAndNotifies(es + [e], env)
  {
    forall j: nat | j < |es + [e]| ensures ReapOrNotify(es + [e], env, j) {
      assert j < |es| ==> ReapOrNotify(es, env, j);
    }
  }

  lemma ReapOn(es: seq<Event>, env: nat -> Outcome, i: nat, pid: Pid)
    requires ReapsAndNotifies(es, env) && |es| == 2 * i
    ensures ReapsAndNotifies(es + [Reap(pid)], env)
  {
    ReapsOn(es, env, Reap(pid));
  }

  lemma NotifyOn(es: seq<Event>, env: nat -> Outcome, i: nat, e: Event)
    requires ReapsAndNotifies(es, env) && |es| == 2 * i + 1 && e.Notify? && es[2 * i] == Reap(e.pid)
    requires FitsOutcome(env(i), e.reload)
    ensures ReapsAndNotifies(es + [e], env)
  {
    assert (es + [e])[2 * i] == es[2 * i];
    ReapsOn(es, env, e);
  }

  lemma AllWellIsClean(es: seq<Event>, env: nat -> Outcome)
    requires ReapsAndNotifies(es, env) && forall k :: env(k).forked && env(k).written
    ensures CleanRun(es) && forall e :: e in es ==> e.Reap? || e.Notify?
  {
    forall e | e in es ensures Clean(e) && (e.Reap? || e.Notify?) {
      var j :| 0 <= j < |es| && es[j] == e;
      assert ReapOrNotify(es, env, j);
    }
  }

  lemma DrainedAfter(w: World)
    requires w.notices == {} && w.snapshot == [] && ExitedChildren(w) == {}
    ensures Drained(w)
  {
    assert forall p :: p in w.procs && !w.procs[p].live ==>
        w.procs[p].parent != w.supervisor || p in ExitedChildren(w);
  }

  /** The handler and the pass together recover. */
  lemma HandlerThenPass(w: World, drain: seq<Event>, w1: World, order: seq<DocId>, es: seq<Event>, w2: World)
    requires Reachable(w) && Leads(w, drain, w1) && Drained(w1) && CleanRun(drain + es)
    requires Leads(w1, [Snapshot(order)] + es, w2) && w2.snapshot == []
    requires forall e :: e in drain ==> e.Reap? || e.Notify?
    requires forall e :: e in es ==> e.Inspect?
    ensures Reachable(w2) && (AllRowsLive(w2) <==> Supervised(w) && !NamesStray(w))
  {
    hide AllRowsLive, Supervised, NamesStray, Reachable, Drained;
    assert forall e :: e in drain || e in es ==> e in drain + es;
    assert CalmRun(drain + es) && SteadyRun(drain) && SteadyRun(es) && OnePass(es);
    ReachableRun(w, drain);
    ReachableRun(w1, [Snapshot(order)] + es);
    assert ([Snapshot(order)] + es)[1..] == es;
    RecoveryIsComplete(w, drain, order, es);
  }

  lemma WellInspected(es: seq<Event>, env: nat -> Outcome)
    requires forall i :: 0 <= i < |es| ==> es[i].Inspect? && FitsOutcome(env(i), es[i].reload)
    requires forall k :: env(k).forked && env(k).written
    ensures CleanRun(es) && forall e :: e in es ==> e.Inspect?
  {
    forall e | e in es ensures Clean(e) && e.Inspect? {
      var i :| 0 <= i < |es| && es[i] == e;
    }
  }

  class ProcessManager {
    var queue: seq<Request>
    var table: map<DocId, Row>
    var procs: map<Pid, Proc>
    var used: set<Pid>
    var supervisor: Pid
    ghost var consumer: Consumer
    ghost var notices: set<Pid>
    ghost var snapshot: seq<Row>
    ghost var signals: set<Pid>
    ghost var signalled: set<Pid>
    ghost var hist: History

    ghost function View(): World
      reads this
    {
      World(queue, consumer, table, procs, used, supervisor, notices, snapshot, signals, signalled, hist)
    }

    constructor (pid: Pid)
      requires pid != INIT
      ensures View() == Boot(pid) && CleanReachable(View())
    {
      queue, table, procs, used, supervisor := [], map[], map[], {INIT, pid}, pid;
      consumer, notices, snapshot, signals, signalled := Idle, {}, [], {}, {};
      hist := History(map[], [], {}, {}, [], [], []);
      new;
      assert Reaches(View(), pid, []) && CleanRun([]);
    }

    // -------------------------------------------------------------------------------------------
    // Requests

    method PutData(req: Request)
      modifies this`queue, this`hist
      ensures queue == old(queue) + [req]
      ensures Takes(old(View()), Put(req), View())
    {
      queue := queue + [req];
      hist := hist.(put := hist.put + [req]);
    }

    /** The kernel picks a pid nobody has had. */
    method ForkChild(job: Job, ghost cause: Cause) returns (child: Pid)
      modifies this`procs, this`used, this`hist
      ensures Fresh(old(View()), child) && View() == Fork(old(View()), child, job, cause)
    {
      ghost var bound := PidBound(used);
      assert bound !in used;
      child :| child !in used;
      procs := procs[child := Proc(true, supervisor)];
      used := used + {child};
      hist := hist.(launches := hist.launches[child := Launch(job, cause, |hist.launches|)]);
    }

    /** The queue's front element is copied out; it stays queued. */
    method TakeFront() returns (req: Request)
      requires queue != [] && consumer.Idle?
      modifies this`consumer
      ensures req == queue[0] && consumer == Fetched(req)
      ensures Takes(old(View()), Front, View())
    {
      req := queue[0];
      consumer := Fetched(req);
    }

    method PopFront()
      requires queue != [] && consumer.Handled?
      modifies this`queue, this`consumer, this`hist
      ensures queue == old(queue)[1..] && consumer.Idle?
      ensures hist == old(hist).(popped := old(hist.popped) + [old(queue)[0]])
      ensures Takes(old(View()), Pop, View())
    {
      hist := hist.(popped := hist.popped + [queue[0]]);
      queue := queue[1..];
      consumer := Idle;
    }

    /** `spawn_process` returns without having launched anything. */
    ghost method Finish(req: Request)
      modifies this`consumer, this`hist
      ensures View() == Recorder.Finish(old(View()), req)
    {
      consumer, hist := Handled(req), hist.(handled := hist.handled + [req]);
    }

    method IsStreamRecorded(req: Request) returns (taken: bool)
      requires consumer == Fetched(req)
      modifies this`consumer, this`hist
      ensures taken <==> NamesStream(table, req.sid)
      ensures taken ==> consumer == Handled(req) && hist == old(hist).(handled := old(hist.handled) + [req])
      ensures !taken ==> consumer == Vacant(req) && hist == old(hist)
      ensures Takes(old(View()), Check, View())
    {
      if d :| d in table && table[d].job.sid == req.sid {
        Finish(req);
        taken := true;
      } else {
        consumer := Vacant(req);
        taken := false;
      }
    }

    method CreateM3u8(req: Request, file: Option<string>)
      requires consumer == Vacant(req)
      modifies this`consumer, this`hist
      ensures file.None? ==> consumer == Handled(req) && hist == old(hist).(handled := old(hist.handled) + [req])
      ensures file.Some? ==> consumer == Prepared(req, file.value) && hist == old(hist)
      ensures Takes(old(View()), Create(file), View())
    {
      if file.None? {
        Finish(req);
      } else {
        consumer := Prepared(req, file.value);
      }
    }

    method AddProcessToCache(doc: DocId, row: Row)
      requires doc !in table
      modifies this`table, this`hist
      ensures View() == old(View()).(table := old(table)[doc := row],
                                     hist := old(hist).(ops := old(hist.ops) + [Inserted(row.job.sid)]))
    {
      table := table[doc := row];
      hist := hist.(ops := hist.ops + [Inserted(row.job.sid)]);
    }

    method ForkAndCache(req: Request, file: string, out: Outcome) returns (code: ErrorCode, ghost e: Event)
      requires consumer == Prepared(req, file)
      modifies this`table, this`procs, this`used, this`consumer, this`hist
      ensures code == if out.forked then Ok else ForkFailure
      ensures consumer == Handled(req)
      ensures hist.handled == old(hist.handled) + [req] && hist.popped == old(hist.popped)
      ensures Takes(old(View()), e, View())
      ensures !out.forked ==> e == Spawn(None, None) && procs == old(procs)
      ensures out.forked ==> e.Spawn? && e.child.Some? && (e.inserted.Some? <==> out.written)
      ensures out.forked ==> Started(old(View()), View(), Job(req.sid, req.url, file))
      ensures !out.forked || !out.written ==> table == old(table)
      ensures out.forked && out.written ==> Recorded(old(View()), View(), req, file)
    {
      if !out.forked {
        Finish(req);
        return ForkFailure, Spawn(None, None);
      }
      var job := Job(req.sid, req.url, file);
      var child := ForkChild(job, Spawned);
      Finish(req);
      if out.written {
        ghost var bound := DocBound(table.Keys);
        assert bound !in table;
        var doc: DocId :| doc !in table;
        AddProcessToCache(doc, Row(child, supervisor, job, req.kind, req.host));
        e := Spawn(Some(child), Some(doc));
        assert Running(View(), child);
      } else {
        e := Spawn(Some(child), None);
      }
      code := Ok;
    }

    method SpawnProcess(req: Request, out: Outcome) returns (code: ErrorCode, ghost es: seq<Event>)
      requires consumer == Fetched(req)
      modifies this`table, this`procs, this`used, this`consumer, this`hist
      ensures Leads(old(View()), es, View()) && consumer == Handled(req)
      ensures forall e :: e in es ==> e.Check? || e.Create? || e.Spawn?
      ensures hist.handled == old(hist.handled) + [req] && hist.popped == old(hist.popped)
      ensures code == if NamesStream(old(table), req.sid) then StreamExist
                      else if out.file.None? then CreateM3u8Failure
                      else if !out.forked then ForkFailure
                      else Ok
      ensures code != Ok || !out.written ==> table == old(table)
      ensures code != Ok ==> procs == old(procs)
      ensures code == Ok ==> Started(old(View()), View(), Job(req.sid, req.url, out.file.value))
      ensures code == Ok && out.written ==> Recorded(old(View()), View(), req, out.file.value)
      ensures Adds(old(table), table, req.sid, AllWell(out))
      ensures out.written ==> CleanRun(es)
    {
      hide Leads, Takes, NamesStream, Adds, Recorded, Started;
      ghost var w0 := View();
      AddsNothing(table, req.sid);
      LeadsNowhere(w0);
      var recorded := IsStreamRecorded(req);
      LeadsOn(w0, [], w0, Check, View());
      es := [] + [Check];
      if recorded {
        return StreamExist, es;
      }
      ghost var w1 := View();
      CreateM3u8(req, out.file);
      LeadsOn(w0, es, w1, Create(out.file), View());
      es := es + [Create(out.file)];
      if out.file.None? {
        return CreateM3u8Failure, es;
      }
      ghost var w2 := View();
      ghost var e;
      code, e := ForkAndCache(req, out.file.value, out);
      LeadsOn(w0, es, w2, e, View());
      es := es + [e];
      SinceStart(w0, w2, View(), req, out.file.value);
      if AllWell(out) { RecordedAdds(w2, View(), req, out.file.value); }
    }

    /** The consumer loop, until the queue is empty: every request is handled, in order, and popped. */
    method ProcessQueue(env: nat -> Outcome) returns (ghost es: seq<Event>)
      requires consumer.Idle?
      modifies this`queue, this`table, this`procs, this`used, this`consumer, this`hist
      ensures Leads(old(View()), es, View())
      ensures ConsumerRun(es)
      ensures queue == [] && consumer.Idle?
      ensures hist.handled == old(hist.handled + queue) && hist.popped == old(hist.popped + queue)
      ensures ServedAll(old(queue), env, |old(queue)|, old(table), table)
    {
      hide Leads, Takes, ConsumerRun, ServedAll, Adds, Recorded, Started, NamesStream;
      ServedNone(queue, env, table);
      ghost var w0 := View();
      LeadsNowhere(w0);
      es := [];
      NoConsumerEvent();
      var i := 0;
      while queue != []
        invariant i <= |old(queue)| && queue == old(queue)[i..] && consumer.Idle?
        invariant hist.handled == old(hist.handled) + old(queue)[..i]
        invariant hist.popped == old(hist.popped) + old(queue)[..i]
        invariant Leads(w0, es, View()) && ConsumerRun(es)
        invariant ServedAll(old(queue), env, i, old(table), table)
        decreases |queue|
      {
        ghost var w1 := View();
        HandleOne(old(queue), i, old(hist.handled));
        HandleOne(old(queue), i, old(hist.popped));
        var req := TakeFront();
        LeadsOn(w0, es, w1, Front, View());
        ghost var w2 := View();
        var code, fs := SpawnProcess(req, env(i));
        ServedOn(old(queue), env, i, old(table), w2.table, table);
        LeadsConcat(w0, es + [Front], w2, fs, View());
        ghost var w3 := View();
        PopFront();
        LeadsOn(w0, es + [Front] + fs, w3, Pop, View());
        ConsumerRunOn(es, fs);
        es := es + [Front] + fs + [Pop];
        i := i + 1;
      }
    }

    // -------------------------------------------------------------------------------------------
    // Stops

    /** `get_process_info` and `remove_process_by_stream`. */
    method LookUpAndRemove(sid: string, removable: bool) returns (info: Option<Row>, ghost e: Event)
      requires UniqueStreams(table)
      modifies this`table, this`signals, this`hist
      ensures Takes(old(View()), e, View())
      ensures info.None? <==> !NamesStream(old(table), sid)
      ensures info.None? ==> View() == old(View())
      ensures info.Some? ==> signals == old(signals) + {info.value.pid}
      ensures info.None? ==> e == Stop(sid, None, None)
      ensures info.Some? ==>
                exists d :: d in old(table) && old(table)[d] == info.value && info.value.job.sid == sid &&
                  e == Removal(sid, d, removable) &&
                  table == if removable then old(table) - {d} else old(table)
    {
      if found :| found in table && table[found].job.sid == sid {
        info := Some(table[found]);
        signals := signals + {info.value.pid};
        if removable {
          var doc :| doc in table && table[doc].job.sid == sid;
          e := Stop(sid, Some(found), Some(doc));
          table := table - {doc};
          hist := hist.(ops := hist.ops + [Removed(sid)], stopped := hist.stopped + {info.value.pid});
        } else {
          e := Stop(sid, Some(found), None);
        }
      } else {
        info, e := None, Stop(sid, None, None);
      }
    }

    method Interrupt(pid: Pid)
      requires pid in signals
      modifies this`signals, this`signalled
      ensures signalled == old(signalled) + {pid} && signals == old(signals) - {pid}
      ensures Takes(old(View()), Signal(pid), View())
    {
      signals := signals - {pid};
      signalled := signalled + {pid};
    }

    /** `kill_process`: the row goes first, the signal follows. */
    method KillProcess(sid: string, removable: bool) returns (code: ErrorCode, ghost es: seq<Event>)
      requires Reachable(View())
      modifies this`table, this`signals, this`signalled, this`hist
      ensures Leads(old(View()), es, View())
      ensures code == if NamesStream(old(table), sid) then Ok else StreamNotExist
      ensures code == StreamNotExist ==> View() == old(View()) && es == [Stop(sid, None, None)]
      ensures code == Ok ==>
                exists d :: d in old(table) && old(table)[d].job.sid == sid &&
                  es == [Removal(sid, d, removable), Signal(old(table)[d].pid)] &&
                  signalled == old(signalled) + {old(table)[d].pid} &&
                  signals == old(signals) - {old(table)[d].pid} &&
                  table == if removable then old(table) - {d} else old(table)
    {
      hide Leads, Takes;
      ghost var w0 := View();
      ReachableIsSafe(w0);
      LeadsNowhere(w0);
      var info, e := LookUpAndRemove(sid, removable);
      LeadsOn(w0, [], w0, e, View());
      es := [] + [e];
      if info.None? {
        return StreamNotExist, es;
      }
      ghost var w1 := View();
      Interrupt(info.value.pid);
      LeadsOn(w0, es, w1, Signal(info.value.pid), View());
      es := es + [Signal(info.value.pid)];
      code := Ok;
    }

    // -------------------------------------------------------------------------------------------
    // Reloads

    /** Look up by pid, fork, write the new pid: `is_process_exist`, `re_create_process` and
        `update_process_info` together. */
    method ProcessReload(pid: Pid, out: Outcome) returns (ghost r: Reload)
      modifies this`table, this`procs, this`used, this`hist
      ensures ReloadPossible(old(View()), pid, r) && View() == ReloadStep(old(View()), pid, r)
      ensures ReloadsAs(old(View()), pid, out, r)
    {
      if found :| found in table && table[found].pid == pid {
        var info := table[found];
        if !out.forked {
          return ForkFailed(found);
        }
        var child := ForkChild(info.job, Replaces(pid));
        if out.written {
          var doc :| doc in table && table[doc].job.sid == info.job.sid;
          table := table[doc := table[doc].(pid := child)];
          r := Reloaded(found, child, Some(doc));
        } else {
          r := Reloaded(found, child, None);
        }
      } else {
        r := NoRow;
      }
    }

    /** `waitpid(-1, WNOHANG)`: some exited child, or none. */
    method WaitPid() returns (reaped: Option<Pid>)
      modifies this`procs, this`notices
      ensures reaped.None? ==> ExitedChildren(View()) == {} && View() == old(View())
      ensures reaped.Some? ==> Takes(old(View()), Reap(reaped.value), View())
      ensures reaped.Some? ==> notices == old(notices) + {reaped.value} && procs.Keys <= old(procs.Keys)
      ensures reaped.Some? ==> ExitedChildren(View()) < ExitedChildren(old(View()))
    {
      if p :| p in procs && !procs[p].live && procs[p].parent == supervisor {
        assert p in ExitedChildren(View());
        procs := procs - {p};
        notices := notices + {p};
        reaped := Some(p);
      } else {
        reaped := None;
      }
    }

    method SendMessage(pid: Pid, out: Outcome) returns (ghost e: Event)
      requires pid in notices && procs.Keys <= used
      modifies this`table, this`procs, this`used, this`notices, this`hist
      ensures e.Notify? && e.pid == pid && Takes(old(View()), e, View())
      ensures ReloadsAs(old(View()), pid, out, e.reload) && FitsOutcome(out, e.reload)
      ensures notices == old(notices) - {pid} && procs.Keys <= used
      ensures ExitedChildren(View()) == ExitedChildren(old(View()))
    {
      var r := ProcessReload(pid, out);
      notices := notices - {pid};
      e := Notify(pid, r);
      assert forall p :: p in ExitedChildren(View()) <==> p in ExitedChildren(old(View()));
    }

    /** The SIGCHLD handler: it returns with every exited child reaped and every notification handled. */
    method SigReapChld(env: nat -> Outcome) returns (ghost es: seq<Event>)
      requires Reachable(View()) && notices == {}
      modifies this`table, this`procs, this`used, this`notices, this`hist
      ensures Leads(old(View()), es, View())
      ensures ReapsAndNotifies(es, env) && |es| % 2 == 0
      ensures notices == {} && ExitedChildren(View()) == {}
    {
      hide Leads, Takes, ExitedChildren, Reachable, ReapsAndNotifies, ReloadsAs, FitsOutcome;
      ghost var w0 := View();
      ReachableProcs(w0);
      LeadsNowhere(w0);
      ReapsNothing(env);
      es := [];
      var i := 0;
      var reaped := WaitPid();
      if reaped.Some? {
        LeadsOn(w0, es, w0, Reap(reaped.value), View());
        ReapOn(es, env, 0, reaped.value);
        es := es + [Reap(reaped.value)];
      }
      while reaped.Some?
        invariant notices == if reaped.Some? then {reaped.value} else {}
        invariant reaped.None? ==> ExitedChildren(View()) == {}
        invariant procs.Keys <= used
        invariant Leads(w0, es, View()) && ReapsAndNotifies(es, env)
        invariant |es| == 2 * i + if reaped.Some? then 1 else 0
        invariant reaped.Some? ==> es[2 * i] == Reap(reaped.value)
        decreases reaped.Some?, ExitedChildren(View())
      {
        ghost var w1 := View();
        ghost var e := SendMessage(reaped.value, env(i));
        LeadsOn(w0, es, w1, e, View());
        NotifyOn(es, env, i, e);
        es := es + [e];
        ghost var w2 := View();
        reaped := WaitPid();
        if reaped.Some? {
          LeadsOn(w0, es, w2, Reap(reaped.value), View());
          ReapOn(es, env, i + 1, reaped.value);
          es := es + [Reap(reaped.value)];
        }
        i := i + 1;
      }
    }

    // -------------------------------------------------------------------------------------------
    // The orphan pass

    /** The documents the orphan query matches, in whatever order the cursor yields them. */
    method FindOrphanProcess() returns (vec: seq<Row>, ghost order: seq<DocId>)
      ensures OrphanListing(View(), order)
      ensures |vec| == |order| && forall i :: 0 <= i < |vec| ==> vec[i] == table[order[i]]
      ensures forall r :: r in vec ==> r.ppid != supervisor && exists d :: d in table && table[d] == r
      ensures forall d :: d in table && table[d].ppid != supervisor ==> table[d] in vec
    {
      vec, order := [], [];
      var left := set d | d in table && table[d].ppid != supervisor;
      while left != {}
        invariant forall d :: d in left ==> d in table && table[d].ppid != supervisor && d !in order
        invariant forall d :: d in table && table[d].ppid != supervisor ==> d in left || d in order
        invariant forall i, j :: 0 <= i < j < |order| ==> order[i] != order[j]
        invariant forall i :: 0 <= i < |order| ==> order[i] in table && table[order[i]].ppid != supervisor
        invariant |vec| == |order| && forall i :: 0 <= i < |vec| ==> vec[i] == table[order[i]]
        decreases left
      {
        var d :| d in left;
        vec, order := vec + [table[d]], order + [d];
        left := left - {d};
      }
      forall d | d in table && table[d].ppid != supervisor ensures table[d] in vec {
        var i :| 0 <= i < |order| && order[i] == d;
        assert vec[i] == table[d];
      }
    }

    method TakeSnapshot() returns (orphan: seq<Row>, ghost order: seq<DocId>)
      requires snapshot == []
      modifies this`snapshot
      ensures snapshot == orphan && |orphan| == |order|
      ensures Takes(old(View()), Snapshot(order), View())
    {
      orphan, order := FindOrphanProcess();
      snapshot := orphan;
      assert orphan == Step(old(View()), Snapshot(order)).snapshot;
    }

    /** One item of the pass: `kill(pid, 0)`, and a reload by pid when the process is gone. */
    method InspectOrphan(pid: Pid, out: Outcome) returns (ghost e: Event)
      requires snapshot != [] && snapshot[0].pid == pid
      modifies this`table, this`procs, this`used, this`snapshot, this`hist
      ensures e.Inspect? && Takes(old(View()), e, View())
      ensures snapshot == old(snapshot)[1..]
      ensures if pid in old(procs) then e == Inspect(NoRow) else ReloadsAs(old(View()), pid, out, e.reload)
    {
      ghost var r := NoRow;
      if pid !in procs {
        r := ProcessReload(pid, out);
      }
      snapshot := snapshot[1..];
      e := Inspect(r);
    }

    /** One orphan pass: `es` is the snapshot and one inspection for each row in it. */
    method OrphanProcessSync(env: nat -> Outcome) returns (ghost order: seq<DocId>, ghost es: seq<Event>)
      requires snapshot == []
      modifies this`table, this`procs, this`used, this`snapshot, this`hist
      ensures Leads(old(View()), [Snapshot(order)] + es, View())
      ensures |es| == |order| && forall i :: 0 <= i < |es| ==> es[i].Inspect? && FitsOutcome(env(i), es[i].reload)
      ensures snapshot == []
    {
      hide Leads, Takes;
      ghost var w0 := View();
      LeadsNowhere(w0);
      var orphan;
      orphan, order := TakeSnapshot();
      LeadsOn(w0, [], w0, Snapshot(order), View());
      es := [];
      assert [] + [Snapshot(order)] == [Snapshot(order)] + es;
      for i := 0 to |orphan|
        invariant snapshot == orphan[i..]
        invariant Leads(w0, [Snapshot(order)] + es, View())
        invariant |es| == i && forall j :: 0 <= j < i ==> es[j].Inspect? && FitsOutcome(env(j), es[j].reload)
      {
        ghost var w1 := View();
        ghost var e := InspectOrphan(orphan[i].pid, env(i));
        LeadsOn(w0, [Snapshot(order)] + es, w1, e, View());
        assert [Snapshot(order)] + es + [e] == [Snapshot(order)] + (es + [e]);
        es := es + [e];
      }
    }

    /** A drained reap loop and one orphan pass, when forks and writes succeed. */
    method Recover(env: nat -> Outcome)
      requires Reachable(View()) && notices == {} && snapshot == []
      requires forall k :: env(k).forked && env(k).written
      modifies this`table, this`procs, this`used, this`notices, this`snapshot, this`hist
      ensures Reachable(View())
      ensures AllRowsLive(View()) <==> Supervised(old(View())) && !NamesStray(old(View()))
    {
      hide Leads, Reachable, AllRowsLive, Supervised, NamesStray, Drained, ExitedChildren, ReapsAndNotifies, FitsOutcome;
      ghost var drain := SigReapChld(env);
      AllWellIsClean(drain, env);
      ghost var w1 := View();
      DrainedAfter(w1);
      ghost var order, es := OrphanProcessSync(env);
      WellInspected(es, env);
      HandlerThenPass(old(View()), drain, w1, order, es, View());
    }
  }
}
