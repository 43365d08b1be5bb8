/** The invariant over the remaining steps, and over every run. */
module ReactorSteps {
  import opened Algebra
  import opened Bytes
  import opened Socket
  import opened HttpSpec
  import opened Timers
  import opened ConnSpec
  import opened ConnOutput
  import opened ConnLife
  import opened ConnJobs
  import opened Reactor
  import opened ReactorInv

  // ---- the timer pass ----

  /** A registered timer is the current timer of exactly one connection, and that one is live. */
  lemma TimerHasOneOwner(conns: map<nat, Conn>, q: TimerTable, clock: Time, i: int)
    requires OwnersHold(conns, q, clock) && i in q.entries
    requires forall id :: id in conns ==> conns[id].id == id
    ensures q.entries[i].owner in conns && Live(conns[q.entries[i].owner])
    ensures forall o :: o in conns ==> (conns[o].link.timerId == i <==> o == q.entries[i].owner)
  {
    var o := q.entries[i].owner;
    assert LifeInv(conns[o], q);
  }

  ghost function DeadConn(c: Conn): Conn { c.(link := DeadLink(c.link, Idle)) }

  /** One turn of the firing loop in a good state: the entry is there, its owner is a live connection,
      and exactly this entry goes. */
  lemma FireTimerIsHandleDead(r: Reactor, id: int)
    requires ConnsOk(r) && OwnersOk(r) && id in r.timers.entries
    ensures var o := r.timers.entries[id].owner;
            && o in r.conns && Live(r.conns[o])
            && FireTimer(r, id) == Put(r, HandleDead(WorldOf(r, o, [], []), Idle))
  {
    TimerHasOneOwner(r.conns, r.timers, r.clock, id);
    EraseAfterDelete(r.timers, id);
    HandleDeadDeletes(WorldOf(r, r.timers.entries[id].owner, [], []));
  }

  lemma EraseAfterDelete(q: TimerTable, id: int)
    ensures Erase(Delete(q, id), id) == Delete(q, id)
  {
    assert q.entries - {id} - {id} == q.entries - {id};
    if id !in q.entries {
      assert q.entries - {id} == q.entries;
    }
  }

  lemma HandleDeadDeletes(w: World)
    ensures Live(w.conn) ==> HandleDead(w, Idle).timers == Delete(w.timers, w.conn.link.timerId)
    ensures HandleDead(w, Idle).conn.id == w.conn.id
  {
  }

  lemma FireTimerEffect(r: Reactor, id: int)
    requires ConnsOk(r) && OwnersOk(r) && id in r.timers.entries
    ensures var o := r.timers.entries[id].owner; var u := FireTimer(r, id);
            && o in r.conns
            && u.timers.entries == r.timers.entries - {id}
            && u.conns == r.conns[o := DeadConn(r.conns[o])]
            && u == r.(conns := u.conns, timers := u.timers, tasks := u.tasks)
  {
    FireTimerIsHandleDead(r, id);
    TimerHasOneOwner(r.conns, r.timers, r.clock, id);
  }

  ghost predicate FourParts(r: Reactor) { ConnsOk(r) && OwnersOk(r) && TableOk(r) && QueueOk(r) }

  lemma FireTimerInv(r: Reactor, id: int)
    requires FourParts(r) && id in r.timers.entries
    ensures FourParts(FireTimer(r, id))
  {
    FireTimerIsHandleDead(r, id);
    var o := r.timers.entries[id].owner;
    var w := WorldOf(r, o, [], []);
    var v := HandleDead(w, Idle);
    assert AtRest(w.conn) && LifeInv(w.conn, w.timers);
    DyingAtRest(w, Idle);
    HandleDeadStep(w, Idle, r.clock);
    HandlerApplied(r, o, w, v, r.clock);
    assert Put(r, v).(clock := r.clock) == Put(r, v);
  }

  function OwnersOf(entries: map<int, Timer>, ids: seq<int>): set<nat> {
    set k | 0 <= k < |ids| && ids[k] in entries :: entries[ids[k]].owner
  }

  ghost function Kill(conns: map<nat, Conn>, owners: set<nat>): map<nat, Conn> {
    map o | o in conns :: if o in owners then DeadConn(conns[o]) else conns[o]
  }

  lemma OwnersOfStep(entries: map<int, Timer>, ids: seq<int>)
    requires ids != [] && Ascending(ids) && forall k :: 0 <= k < |ids| ==> ids[k] in entries
    ensures OwnersOf(entries, ids) == {entries[ids[0]].owner} + OwnersOf(entries - {ids[0]}, ids[1..])
    ensures IdSet(ids) == {ids[0]} + IdSet(ids[1..]) && Ascending(ids[1..])
    ensures forall k :: 0 <= k < |ids[1..]| ==> ids[1..][k] in entries - {ids[0]}
  {
    forall k | 0 <= k < |ids[1..]| ensures ids[1..][k] in entries - {ids[0]} {
      assert ids[0] < ids[k + 1];
    }
    var rest := OwnersOf(entries - {ids[0]}, ids[1..]);
    forall o ensures o in OwnersOf(entries, ids) <==> o == entries[ids[0]].owner || o in rest {
      if k :| 0 < k < |ids| && entries[ids[k]].owner == o {
        assert ids[1..][k - 1] == ids[k];
      }
    }
  }

  /** What the loop leaves: the timers `ids` are gone, their owners dead, and nothing else but remove
      requests has changed. */
  ghost predicate AllFired(r: Reactor, ids: seq<int>, u: Reactor) {
    && u.timers.entries == r.timers.entries - IdSet(ids)
    && u.conns == Kill(r.conns, OwnersOf(r.timers.entries, ids))
    && u == r.(conns := u.conns, timers := u.timers, tasks := u.tasks)
  }

  lemma FiredStep(r: Reactor, ids: seq<int>, m: Reactor, u: Reactor)
    requires ids != [] && Ascending(ids) && forall k :: 0 <= k < |ids| ==> ids[k] in r.timers.entries
    requires r.timers.entries[ids[0]].owner in r.conns
    requires m.timers.entries == r.timers.entries - {ids[0]}
    requires m.conns == r.conns[r.timers.entries[ids[0]].owner := DeadConn(r.conns[r.timers.entries[ids[0]].owner])]
    requires m == r.(conns := m.conns, timers := m.timers, tasks := m.tasks)
    requires AllFired(m, ids[1..], u)
    ensures AllFired(r, ids, u)
  {
    OwnersOfStep(r.timers.entries, ids);
    var o := r.timers.entries[ids[0]].owner;
    KillTwice(r.conns, o, OwnersOf(m.timers.entries, ids[1..]));
  }

  lemma KillTwice(conns: map<nat, Conn>, o: nat, rest: set<nat>)
    requires o in conns
    ensures Kill(conns[o := DeadConn(conns[o])], rest) == Kill(conns, {o} + rest)
  {
  }

  /** The firing loop removes exactly the given timers and kills exactly their owners. */
  lemma {:induction false} FireAllEffect(r: Reactor, ids: seq<int>)
    requires FourParts(r) && Ascending(ids) && forall k :: 0 <= k < |ids| ==> ids[k] in r.timers.entries
    ensures var u := FireAll(r, ids);
            && FourParts(u)
            && AllFired(r, ids, u)
    decreases |ids|
  {
    if ids != [] {
      FireTimerEffect(r, ids[0]);
      FireTimerInv(r, ids[0]);
      OwnersOfStep(r.timers.entries, ids);
      FireAllEffect(FireTimer(r, ids[0]), ids[1..]);
      FiredStep(r, ids, FireTimer(r, ids[0]), FireAll(r, ids));
    } else {
      FiredNone(r);
    }
  }

  lemma FiredNone(r: Reactor)
    ensures AllFired(r, [], r)
  {
    assert r.timers.entries - IdSet([]) == r.timers.entries;
    assert OwnersOf(r.timers.entries, []) == {};
    assert Kill(r.conns, {}) == r.conns;
  }

  lemma TimerPassEffect(r: Reactor, t: Time)
    requires Inv(r) && Enabled(r, TimerPass(t))
    ensures var ids := Scan(r.timers.entries, r.timers.entries.Keys, t);
            && FourParts(FireAll(r, ids)) && AllFired(r, ids, FireAll(r, ids))
  {
    ScanAscends(r.timers.entries, r.timers.entries.Keys, t);
    FireAllEffect(r, Scan(r.timers.entries, r.timers.entries.Keys, t));
  }

  lemma SettleClock(u: Reactor, t: Time, phase: Pass)
    requires FourParts(u) && !t.Before(u.clock)
    ensures FourParts(u.(timers := Refresh(u.timers), phase := phase, clock := t))
  {
    LaterClock(u.timers, u.clock, t);
    assert Refresh(u.timers) == u.timers;
  }

  lemma TimerPassInv(r: Reactor, t: Time)
    requires Inv(r) && Enabled(r, TimerPass(t))
    ensures Inv(Next(r, TimerPass(t)))
  {
    var ids := Scan(r.timers.entries, r.timers.entries.Keys, t);
    TimerPassEffect(r, t);
    SettleClock(FireAll(r, ids), t, TimerDone);
  }

  // ---- the task pass ----

  lemma RemoveInv(r: Reactor, ws: seq<WriteOutcome>, now: Time)
    requires Inv(r) && Enabled(r, RunTask(ws, now)) && r.batch[0].Remove?
    ensures Inv(Next(r, RunTask(ws, now)))
  {
    LaterClock(r.timers, r.clock, now);
    RemoveKeepsInv(r, r.batch[0].id, now);
  }

  lemma RemoveKeepsInv(r: Reactor, id: nat, now: Time)
    requires r.phase == TaskPass && r.batch != [] && r.batch[0] == Remove(id)
    requires ConnsOk(r) && TableOk(r) && QueueOk(r) && PendingOk(r) && OwnersHold(r.conns, r.timers, now)
    ensures Inv(Popped(r, now).(table := r.table - {id}))
  {
    var rest := r.batch[1..] + r.tasks;
    HeadAndRest(r.batch, r.tasks);
    QueueRemove(r.conns, r.accepted, id, rest, r.jobs);
    RemoveTable(r.conns, r.table, id, rest);
    TaskDone(r, r.conns, r.table - {id}, r.timers, r.batch[1..], r.tasks, r.jobs, now);
  }

  /** A good state after a task, put together from its parts. */
  lemma TaskDone(r: Reactor, conns: map<nat, Conn>, table: set<nat>, q: TimerTable, batch: seq<Task>, tasks: seq<Task>,
                 jobs: seq<Job>, now: Time)
    requires r.phase == TaskPass && PendingOk(r)
    requires ConnsOk(r.(conns := conns)) && OwnersHold(conns, q, now) && TableHolds(conns, table, batch + tasks)
    requires QueueHolds(conns, r.accepted, batch + tasks, jobs)
    ensures Inv(r.(conns := conns, table := table, timers := q, batch := batch, tasks := tasks, jobs := jobs, clock := now))
  {
  }

  lemma QueueRemove(conns: map<nat, Conn>, accepted: set<nat>, id: nat, rest: seq<Task>, jobs: seq<Job>)
    requires QueueHolds(conns, accepted, [Remove(id)] + rest, jobs)
    ensures QueueHolds(conns, accepted, rest, jobs)
  {
    AdoptsHead(conns, accepted, Remove(id), rest);
    forall o ensures InFlight(conns, o) == JobsOf(jobs, o) + AnswersOf(rest, o) {
      FlightsHead(conns, Remove(id), rest, jobs, o);
      AddNothing(JobsOf(jobs, o) + AnswersOf(rest, o));
    }
  }

  lemma RemoveTable(conns: map<nat, Conn>, table: set<nat>, id: nat, rest: seq<Task>)
    requires TableHolds(conns, table, [Remove(id)] + rest)
    ensures TableHolds(conns, table - {id}, rest)
  {
    assert forall x :: x in [Remove(id)] + rest <==> x == Remove(id) || x in rest;
  }

  lemma NewConnFacts(id: nat, pool: bool, q: TimerTable, tasks: seq<Task>, jobs: seq<Job>, now: Time)
    requires Ordered(q, now) && forall i :: i in q.entries ==> q.entries[i].owner != id
    ensures var v := StartConnect(World(NewConn(id, pool), q, tasks, jobs, [], []), now);
            && AtRest(v.conn) && LifeInv(v.conn, v.timers) && v.conn.id == id && v.conn.pool == pool
            && v.conn.book.inflight == multiset{}
            && v.timers == Add(q, now, id) && v.conn.link.timerId == q.lastId + 1
            && Ordered(v.timers, now) && Programmed(v.timers) && Others(v.timers, id) == Others(q, id)
            && Healthy(v.conn) && v.tasks == tasks && v.jobs == jobs
  {
    BlankAtRest(StartConnect(World(NewConn(id, pool), q, tasks, jobs, [], []), now).conn);
    AddKeepsOrder(q, now, now, id);
    assert Others(Add(q, now, id), id) == Others(q, id);
  }

  lemma BlankAtRest(c: Conn)
    requires c.pipe == Pipe([], []) && c.intake == Intake(FRESH, [], [], [], Open)
    requires c.book == Book([], multiset{}, multiset{}) && c.link.state == Connected && c.link.working == 0
    ensures AtRest(c)
  {
    assert Drain(FRESH, []) == Outcome([], Open, FRESH, []);
    assert CrlfFree([]);
    assert Tracked(c.intake) && Render([]) == [] && Answered([]) == [];
    assert Booked(c, [], Open);
  }

  lemma LifeAdopt(b: Conn, q: TimerTable, now: Time, id: nat)
    requires LifeInv(b, q) && b.id != id
    ensures LifeInv(b, Add(q, now, id)) && b.link.timerId < q.lastId + 1
  {
  }

  /** A new connection takes an id that no connection has had. */
  lemma OwnersAdopt(conns: map<nat, Conn>, q: TimerTable, clock: Time, id: nat, c: Conn, q': TimerTable)
    requires OwnersHold(conns, q, clock) && id !in conns && forall o :: o in conns ==> conns[o].id == o
    requires Ordered(q', clock) && Programmed(q') && LifeInv(c, q') && c.id == id
    requires q' == Add(q, clock, id) && c.link.timerId == q.lastId + 1
    ensures OwnersHold(conns[id := c], q', clock)
  {
    OldConnsKept(conns, q, clock, id);
    forall i | i in q'.entries ensures q'.entries[i].owner in conns[id := c] {
      assert i in q.entries || q'.entries[i].owner == id;
    }
  }

  lemma OldConnsKept(conns: map<nat, Conn>, q: TimerTable, clock: Time, id: nat)
    requires OwnersHold(conns, q, clock) && id !in conns && forall o :: o in conns ==> conns[o].id == o
    ensures forall b :: b in conns ==> LifeInv(conns[b], Add(q, clock, id)) && conns[b].link.timerId < q.lastId + 1
  {
    forall b | b in conns ensures LifeInv(conns[b], Add(q, clock, id)) && conns[b].link.timerId < q.lastId + 1 {
      LifeAdopt(conns[b], q, clock, id);
    }
  }

  lemma TableAdopt(conns: map<nat, Conn>, table: set<nat>, id: nat, c: Conn, rest: seq<Task>)
    requires TableHolds(conns, table, [Adopt(id)] + rest) && id !in conns && Healthy(c)
    ensures TableHolds(conns[id := c], table + {id}, rest)
  {
    assert forall x :: x in [Adopt(id)] + rest <==> x == Adopt(id) || x in rest;
  }

  lemma QueueAdopt(conns: map<nat, Conn>, accepted: set<nat>, id: nat, c: Conn, rest: seq<Task>, jobs: seq<Job>)
    requires QueueHolds(conns, accepted, [Adopt(id)] + rest, jobs) && c.book.inflight == multiset{}
    ensures QueueHolds(conns[id := c], accepted, rest, jobs) && id !in conns
  {
    AdoptsHead(conns, accepted, Adopt(id), rest);
    forall o ensures InFlight(conns[id := c], o) == JobsOf(jobs, o) + AnswersOf(rest, o) {
      FlightsHead(conns, Adopt(id), rest, jobs, o);
      AddNothing(JobsOf(jobs, o) + AnswersOf(rest, o));
    }
  }

  lemma AdoptInv(r: Reactor, ws: seq<WriteOutcome>, now: Time)
    requires Inv(r) && Enabled(r, RunTask(ws, now)) && r.batch[0].Adopt?
    ensures Inv(Next(r, RunTask(ws, now)))
  {
    LaterClock(r.timers, r.clock, now);
    AdoptKeepsInv(r, r.batch[0].id, now);
  }

  lemma AdoptKeepsInv(r: Reactor, id: nat, now: Time)
    requires r.phase == TaskPass && r.batch != [] && r.batch[0] == Adopt(id)
    requires ConnsOk(r) && TableOk(r) && QueueOk(r) && PendingOk(r) && OwnersHold(r.conns, r.timers, now)
    ensures var v := StartConnect(World(NewConn(id, r.pool), r.timers, r.tasks, r.jobs, [], []), now);
            Inv(Put(Popped(r, now), v).(table := r.table + {id}))
  {
    var v := StartConnect(World(NewConn(id, r.pool), r.timers, r.tasks, r.jobs, [], []), now);
    var rest := r.batch[1..] + r.tasks;
    HeadAndRest(r.batch, r.tasks);
    assert [r.batch[0]][0] in Queue(r);
    assert forall i :: i in r.timers.entries ==> r.timers.entries[i].owner in r.conns;
    NewConnFacts(id, r.pool, r.timers, r.tasks, r.jobs, now);
    QueueAdopt(r.conns, r.accepted, id, v.conn, rest, r.jobs);
    OwnersAdopt(r.conns, r.timers, now, id, v.conn, v.timers);
    TableAdopt(r.conns, r.table, id, v.conn, rest);
    AdoptedConns(r.conns, r.pool, id, v.conn);
  }

  lemma AdoptedConns(conns: map<nat, Conn>, pool: bool, id: nat, c: Conn)
    requires ConnsHold(conns, pool) && c.id == id && c.pool == pool && AtRest(c)
    ensures ConnsHold(conns[id := c], pool)
  {
    var after := conns[id := c];
    forall o | o in after ensures after[o].id == o && after[o].pool == pool && AtRest(after[o]) {
      SameAtRest(if o == id then c else conns[o], after[o]);
    }
  }

  lemma SameAtRest(c: Conn, d: Conn)
    requires AtRest(c) && c == d
    ensures AtRest(d)
  {
  }

  // ---- the other threads, and the bookkeeping of a round ----

  lemma AcceptInv(r: Reactor, id: nat)
    requires Inv(r) && Enabled(r, Accept(id))
    ensures Inv(Next(r, Accept(id)))
  {
    AcceptQueue(r.conns, r.accepted, Queue(r), r.jobs, id);
    assert r.batch + (r.tasks + [Adopt(id)]) == Queue(r) + [Adopt(id)];
    TableMore(r.conns, r.table, Queue(r), Adopt(id));
    Requeued(r, r.tasks + [Adopt(id)], r.jobs, r.accepted + {id});
  }

  lemma AcceptQueue(conns: map<nat, Conn>, accepted: set<nat>, queue: seq<Task>, jobs: seq<Job>, id: nat)
    requires QueueHolds(conns, accepted, queue, jobs) && id !in accepted
    ensures QueueHolds(conns, accepted + {id}, queue + [Adopt(id)], jobs)
  {
    AdoptsMore(conns, accepted, queue, Adopt(id));
    forall o ensures InFlight(conns, o) == JobsOf(jobs, o) + AnswersOf(queue + [Adopt(id)], o) {
      AnswersLast(queue, Adopt(id), o);
      AddNothing(AnswersOf(queue, o));
    }
  }

  lemma JobTaken(jobs: seq<Job>, k: nat, o: nat)
    requires k < |jobs|
    ensures JobsOf(jobs, o) == JobsOf(jobs[..k] + jobs[k + 1..], o) + JobOf(jobs[k], o)
  {
    var a, j, b := jobs[..k], jobs[k], jobs[k + 1..];
    assert jobs == (a + [j]) + b;
    JobsConcat(a + [j], b, o);
    JobsLast(a, j, o);
    JobsConcat(a, b, o);
    SwapLast(JobsOf(a, o), JobOf(j, o), JobsOf(b, o));
  }

  lemma FinishInv(r: Reactor, k: nat)
    requires Inv(r) && Enabled(r, Finish(k))
    ensures Inv(Next(r, Finish(k)))
  {
    var t := Answer(r.jobs[k].id, r.jobs[k].req);
    FinishQueue(r.conns, r.accepted, Queue(r), r.jobs, k);
    assert r.batch + (r.tasks + [t]) == Queue(r) + [t];
    TableMore(r.conns, r.table, Queue(r), t);
    Requeued(r, r.tasks + [t], r.jobs[..k] + r.jobs[k + 1..], r.accepted);
  }

  /** A good state with another queue, put together from its parts. */
  lemma Requeued(r: Reactor, tasks: seq<Task>, jobs: seq<Job>, accepted: set<nat>)
    requires ConnsOk(r) && OwnersOk(r) && PendingOk(r) && TableHolds(r.conns, r.table, r.batch + tasks)
    requires QueueHolds(r.conns, accepted, r.batch + tasks, jobs)
    ensures Inv(r.(tasks := tasks, jobs := jobs, accepted := accepted))
  {
    RequeuedParts(r, tasks, jobs, accepted);
  }

  lemma RequeuedParts(r: Reactor, tasks: seq<Task>, jobs: seq<Job>, accepted: set<nat>)
    ensures var r' := r.(tasks := tasks, jobs := jobs, accepted := accepted);
            && (ConnsOk(r) ==> ConnsOk(r')) && (OwnersOk(r) ==> OwnersOk(r')) && (PendingOk(r) ==> PendingOk(r'))
            && (TableHolds(r.conns, r.table, r.batch + tasks) ==> TableOk(r'))
            && (QueueHolds(r.conns, accepted, r.batch + tasks, jobs) ==> QueueOk(r'))
  {
  }

  lemma TableMore(conns: map<nat, Conn>, table: set<nat>, queue: seq<Task>, t: Task)
    requires TableHolds(conns, table, queue) && !t.Remove?
    ensures TableHolds(conns, table, queue + [t])
  {
  }

  lemma AdoptsMore(conns: map<nat, Conn>, accepted: set<nat>, queue: seq<Task>, t: Task)
    requires AdoptsHold(conns, accepted, queue)
    requires !t.Adopt? || t.id !in accepted
    ensures AdoptsHold(conns, if t.Adopt? then accepted + {t.id} else accepted, queue + [t])
  {
    var queue' := queue + [t];
    forall a, b | 0 <= a < b < |queue'| && queue'[a].Adopt? ensures queue'[a] != queue'[b] {
      assert queue'[a] == queue[a] && Adopt(queue[a].id) in queue;
    }
  }

  lemma FinishQueue(conns: map<nat, Conn>, accepted: set<nat>, queue: seq<Task>, jobs: seq<Job>, k: nat)
    requires QueueHolds(conns, accepted, queue, jobs) && k < |jobs|
    ensures QueueHolds(conns, accepted, queue + [Answer(jobs[k].id, jobs[k].req)], jobs[..k] + jobs[k + 1..])
  {
    var t, less := Answer(jobs[k].id, jobs[k].req), jobs[..k] + jobs[k + 1..];
    AdoptsMore(conns, accepted, queue, t);
    forall o ensures InFlight(conns, o) == JobsOf(less, o) + AnswersOf(queue + [t], o) {
      JobTaken(jobs, k, o);
      AnswersLast(queue, t, o);
      assert JobOf(jobs[k], o) == AnswerOf(t, o);
      SwapLast(JobsOf(less, o), JobOf(jobs[k], o), AnswersOf(queue, o));
      BagAssoc(JobsOf(less, o), AnswersOf(queue, o), JobOf(jobs[k], o));
    }
  }

  lemma TakeTasksInv(r: Reactor)
    requires Inv(r) && Enabled(r, TakeTasks)
    ensures Inv(Next(r, TakeTasks))
  {
    assert r.tasks + [] == r.tasks && r.batch + r.tasks == r.tasks;
  }

  lemma PollInv(r: Reactor, ready: seq<Ready>)
    requires Inv(r) && Enabled(r, Poll(ready))
    ensures Inv(Next(r, Poll(ready)))
  {
  }

  lemma EndRoundInv(r: Reactor)
    requires Inv(r) && Enabled(r, EndRound)
    ensures Inv(Next(r, EndRound))
  {
  }

  // ---- every run ----

  lemma InitInv(pool: bool)
    ensures Inv(Init(pool))
  {
  }

  lemma StepInv(r: Reactor, s: Step)
    requires Inv(r) && Enabled(r, s)
    ensures Inv(Next(r, s))
  {
    match s
    case Accept(id) => AcceptInv(r, id);
    case Finish(k) => FinishInv(r, k);
    case Poll(ready) => PollInv(r, ready);
    case HandleNext(rs, ws, t1, t2) => HandleNextInv(r, rs, ws, t1, t2);
    case TimerPass(t) => TimerPassInv(r, t);
    case TakeTasks => TakeTasksInv(r);
    case RunTask(ws, t) =>
      if r.batch[0].Adopt? {
        AdoptInv(r, ws, t);
      } else if r.batch[0].Answer? {
        AnswerInv(r, ws, t);
      } else {
        RemoveInv(r, ws, t);
      }
    case EndRound => EndRoundInv(r);
  }

  lemma {:induction false} RunInv(r: Reactor, steps: seq<Step>, r': Reactor)
    requires Inv(r) && Run(r, steps, r')
    ensures Inv(r')
    decreases |steps|
  {
    if steps != [] {
      StepInv(r, steps[0]);
      RunInv(Next(r, steps[0]), steps[1..], r');
    }
  }

  lemma ReachableInv(r: Reactor)
    requires Reachable(r)
    ensures Inv(r)
  {
    var pool, steps :| Run(Init(pool), steps, r);
    InitInv(pool);
    RunInv(Init(pool), steps, r);
  }
}
