/** A sub-reactor's event loop with all its connections: poll, the I/O pass, the timer pass and the
    task pass, interleaved with accepted sockets and finished workers. A run is any sequence of
    enabled steps; every step ends at a handler boundary. */
module Reactor {
  import opened Socket
  import opened HttpSpec
  import opened Timers
  import opened ConnSpec

  /** What poll reports of one socket. */
  datatype Ready = Ready(id: nat, canRead: bool, canWrite: bool)

  datatype Pass = Polling | IoPass | TimerDone | TaskPass

  datatype Reactor = Reactor(
    pool: bool,
    conns: map<nat, Conn>,      // every connection ever created on this loop
    table: set<nat>,            // the keys of `Connections`
    timers: TimerTable,
    tasks: seq<Task>,           // the queue that other threads and handlers push to
    batch: seq<Task>,           // the tasks taken out for this round and not yet run
    jobs: seq<Job>,             // handed to the thread pool, not yet finished
    pending: seq<Ready>,        // polled and not yet handled
    phase: Pass,
    clock: Time,                // the last time read
    accepted: set<nat>)

  datatype Step =
    | Accept(id: nat)
    | Finish(job: nat)
    | Poll(ready: seq<Ready>)
    | HandleNext(readScript: seq<ReadOutcome>, writeScript: seq<WriteOutcome>, t1: Time, t2: Time)
    | TimerPass(t: Time)
    | TakeTasks
    | RunTask(answers: seq<WriteOutcome>, t: Time)
    | EndRound

  ghost function Init(pool: bool): Reactor {
    Reactor(pool, map[], {}, NO_TIMERS, [], [], [], [], Polling, Time(0, 0), {})
  }

  function NewConn(id: nat, pool: bool): Conn {
    Conn(id, pool, Link(Connected, 0, -1, false, false, false, Time(0, 0), NoCause, false),
         Pipe([], []), Intake(FRESH, [], [], [], Open), Book([], multiset{}, multiset{}))
  }

  function Queue(r: Reactor): seq<Task> { r.batch + r.tasks }

  // ---- steps ----

  function WorldOf(r: Reactor, id: nat, readScript: seq<ReadOutcome>, writeScript: seq<WriteOutcome>): World
    requires id in r.conns
  {
    World(r.conns[id], r.timers, r.tasks, r.jobs, readScript, writeScript)
  }

  function Put(r: Reactor, v: World): Reactor {
    r.(conns := r.conns[v.conn.id := v.conn], timers := v.timers, tasks := v.tasks, jobs := v.jobs)
  }

  predicate Reportable(r: Reactor, e: Ready) {
    && e.id in r.conns && r.conns[e.id].link.inEpoll
    && (e.canRead ==> r.conns[e.id].link.readOn) && (e.canWrite ==> r.conns[e.id].link.writeOn)
  }

  predicate Distinct(es: seq<Ready>) {
    forall a, b :: 0 <= a < b < |es| ==> es[a].id != es[b].id
  }

  ghost predicate Enabled(r: Reactor, s: Step) {
    match s
    case Accept(id) => id !in r.accepted
    case Finish(k) => k < |r.jobs|
    case Poll(ready) =>
      r.phase == Polling && Distinct(ready) && forall k :: 0 <= k < |ready| ==> Reportable(r, ready[k])
    case HandleNext(_, _, t1, t2) =>
      r.phase == IoPass && r.pending != [] && !t1.Before(r.clock) && !t2.Before(t1)
    case TimerPass(t) => r.phase == IoPass && r.pending == [] && !t.Before(r.clock)
    case TakeTasks => r.phase == TimerDone || (r.phase == IoPass && r.pending == [])
    case RunTask(_, t) =>
      r.phase == TaskPass && r.batch != [] && !t.Before(r.clock)
    case EndRound => r.phase == TaskPass && r.batch == []
  }

  ghost function Next(r: Reactor, s: Step): Reactor
    requires Enabled(r, s)
  {
    match s
    case Accept(id) => r.(tasks := r.tasks + [Adopt(id)], accepted := r.accepted + {id})
    case Finish(k) =>
      r.(jobs := r.jobs[..k] + r.jobs[k + 1..], tasks := r.tasks + [Answer(r.jobs[k].id, r.jobs[k].req)])
    case Poll(ready) => r.(phase := IoPass, pending := ready)
    case HandleNext(rs, ws, t1, t2) =>
      HandleOne(r, r.pending[0], rs, ws, t1, t2).(pending := r.pending[1..], clock := t2)
    case TimerPass(t) =>
      var u := FireAll(r, Scan(r.timers.entries, r.timers.entries.Keys, t));
      u.(timers := Refresh(u.timers), phase := TimerDone, clock := t)
    case TakeTasks => r.(batch := r.tasks, tasks := [], phase := TaskPass)
    case RunTask(ws, t) => RunOne(r.(batch := r.batch[1..], clock := t), r.batch[0], ws)
    case EndRound => r.(phase := Polling)
  }

  // The guards on `conns` and `timers` below never fail in a reachable state: see PendingOk, QueueOk
  // and OwnersOk.

  ghost function HandleOne(r: Reactor, e: Ready, rs: seq<ReadOutcome>, ws: seq<WriteOutcome>, t1: Time, t2: Time): Reactor {
    if e.id !in r.conns then r
    else Put(r, Handle(WorldOf(r, e.id, rs, ws), e.canRead, e.canWrite, t1, t2))
  }

  ghost function RunOne(r: Reactor, task: Task, ws: seq<WriteOutcome>): Reactor {
    match task
    case Adopt(id) =>
      var w := World(NewConn(id, r.pool), r.timers, r.tasks, r.jobs, [], []);
      Put(r, StartConnect(w, r.clock)).(table := r.table + {id})
    case Answer(id, req) =>
      if id !in r.conns then r else Put(r, RunAnswer(WorldOf(r, id, [], ws), req))
    case Remove(id) => r.(table := r.table - {id})
  }

  /** The firing loop: the callback of each expired timer kills its owner, then the id is erased. */
  ghost function FireAll(r: Reactor, ids: seq<int>): Reactor
    decreases |ids|
  {
    if ids == [] then r
    else FireAll(FireTimer(r, ids[0]), ids[1..])
  }

  ghost function FireTimer(r: Reactor, id: int): Reactor {
    if id !in r.timers.entries || r.timers.entries[id].owner !in r.conns then r
    else
      var v := HandleDead(WorldOf(r, r.timers.entries[id].owner, [], []), Idle);
      Put(r, v).(timers := Erase(v.timers, id))
  }

  // ---- runs ----

  ghost predicate Run(r: Reactor, steps: seq<Step>, r': Reactor)
    decreases |steps|
  {
    if steps == [] then r' == r
    else Enabled(r, steps[0]) && Run(Next(r, steps[0]), steps[1..], r')
  }

  ghost predicate Reachable(r: Reactor) {
    exists pool, steps :: Run(Init(pool), steps, r)
  }
}
