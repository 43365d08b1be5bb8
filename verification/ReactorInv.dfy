/** What holds in every reachable state of the loop: the invariant, in five parts, and its proof step
    by step. */
module ReactorInv {
  import opened Algebra
  import opened Socket
  import opened HttpSpec
  import opened Timers
  import opened ConnSpec
  import opened ConnFacts
  import opened ConnOutput
  import opened ConnLife
  import opened ConnJobs
  import opened Reactor

  /** Every connection is at a handler boundary. */
  ghost predicate ConnsHold(conns: map<nat, Conn>, pool: bool) {
    forall id :: id in conns ==> conns[id].id == id && conns[id].pool == pool && AtRest(conns[id])
  }

  ghost predicate ConnsOk(r: Reactor) { ConnsHold(r.conns, r.pool) }

  /** Every timer belongs to a connection, whose current timer it is; ids are in deadline order and the
      timerfd is programmed. */
  ghost predicate OwnersHold(conns: map<nat, Conn>, q: TimerTable, clock: Time) {
    && Ordered(q, clock) && Programmed(q)
    && (forall i :: i in q.entries ==> q.entries[i].owner in conns)
    && (forall id :: id in conns ==> LifeInv(conns[id], q))
    && (forall a, b :: a in conns && b in conns && a != b ==> conns[a].link.timerId != conns[b].link.timerId)
  }

  ghost predicate OwnersOk(r: Reactor) { OwnersHold(r.conns, r.timers, r.clock) }

  /** The connection table: the healthy are in it, the dead in it are about to leave, and only the
      unhealthy are asked to leave. */
  ghost predicate TableHolds(conns: map<nat, Conn>, table: set<nat>, queue: seq<Task>) {
    && table <= conns.Keys
    && (forall id :: id in conns && Healthy(conns[id]) ==> id in table)
    && (forall id :: id in table && !Live(conns[id]) ==> Remove(id) in queue)
    && (forall id :: Remove(id) in queue ==> id in conns && !Healthy(conns[id]))
  }

  ghost predicate TableOk(r: Reactor) { TableHolds(r.conns, r.table, Queue(r)) }

  ghost function InFlight(conns: map<nat, Conn>, o: nat): multiset<Request> {
    if o in conns then conns[o].book.inflight else multiset{}
  }

  /** Sockets on their way in are new and different. */
  ghost predicate AdoptsHold(conns: map<nat, Conn>, accepted: set<nat>, queue: seq<Task>) {
    && conns.Keys <= accepted
    && (forall id :: Adopt(id) in queue ==> id in accepted && id !in conns)
    && AdoptsDiffer(queue)
  }

  ghost predicate AdoptsDiffer(queue: seq<Task>) {
    forall a, b :: 0 <= a < b < |queue| && queue[a].Adopt? ==> queue[a] != queue[b]
  }

  /** What a connection has in flight is with a worker or in an answer queued on the loop, and nothing
      else is. */
  ghost predicate FlightsHold(conns: map<nat, Conn>, queue: seq<Task>, jobs: seq<Job>) {
    forall o :: InFlight(conns, o) == JobsOf(jobs, o) + AnswersOf(queue, o)
  }

  ghost predicate QueueHolds(conns: map<nat, Conn>, accepted: set<nat>, queue: seq<Task>, jobs: seq<Job>) {
    AdoptsHold(conns, accepted, queue) && FlightsHold(conns, queue, jobs)
  }

  ghost predicate QueueOk(r: Reactor) { QueueHolds(r.conns, r.accepted, Queue(r), r.jobs) }

  /** What poll reported is still true when its turn comes. */
  ghost predicate PendingOk(r: Reactor) {
    && (r.pending != [] ==> r.phase == IoPass)
    && (r.phase != TaskPass ==> r.batch == [])
    && Distinct(r.pending)
    && (forall k :: 0 <= k < |r.pending| ==> Reportable(r, r.pending[k]))
  }

  ghost predicate Inv(r: Reactor) {
    ConnsOk(r) && OwnersOk(r) && TableOk(r) && QueueOk(r) && PendingOk(r)
  }

  // ---- a handler of one connection ----

  /** What every handler guarantees to the loop. */
  ghost predicate Handled(r: Reactor, id: nat, w: World, v: World, now: Time) {
    && id in r.conns && w == WorldOf(r, id, w.readScript, w.writeScript)
    && HandlerStep(w, v, r.clock, now) && v.conn.pool == w.conn.pool && AtRest(v.conn)
  }

  lemma HandledConns(r: Reactor, id: nat, w: World, v: World, now: Time)
    requires ConnsOk(r) && Handled(r, id, w, v, now)
    ensures ConnsOk(Put(r, v).(clock := now))
  {
  }

  /** The timers of others are left alone, so the other connections keep their part. */
  lemma OtherTimerKept(c: Conn, q: TimerTable, q': TimerTable, w: World, v: World)
    requires LifeInv(c, q) && c.id != w.conn.id && w.timers == q && v.timers == q'
    requires v.conn.id == w.conn.id && Others(q', w.conn.id) == Others(q, w.conn.id) && q.lastId <= q'.lastId
    requires TimerInv(v.conn, q') && v.conn.link.timerId != c.link.timerId
    ensures LifeInv(c, q')
  {
    forall i | i in q'.entries ensures q'.entries[i].owner == c.id <==> i == c.link.timerId {
      if q'.entries[i].owner != w.conn.id {
        assert i in Others(q', w.conn.id);
        assert i in Others(q, w.conn.id);
      }
    }
    if Armed(c, q) {
      assert c.link.timerId in Others(q, w.conn.id);
      assert c.link.timerId in Others(q', w.conn.id);
    }
    if Armed(c, q') {
      assert c.link.timerId in Others(q', w.conn.id);
      assert c.link.timerId in Others(q, w.conn.id);
    }
  }

  lemma OwnersAfter(conns: map<nat, Conn>, q: TimerTable, clock: Time, id: nat, c: Conn, q': TimerTable, now: Time)
    requires OwnersHold(conns, q, clock) && Ordered(q', now) && Programmed(q') && LifeInv(c, q')
    requires id in conns && Others(q', id) == Others(q, id)
    requires forall b :: b in conns && b != id ==> c.link.timerId != conns[b].link.timerId && LifeInv(conns[b], q')
    ensures OwnersHold(conns[id := c], q', now)
  {
    forall i | i in q'.entries ensures q'.entries[i].owner in conns {
      if q'.entries[i].owner != id {
        assert i in Others(q', id);
        assert i in Others(q, id);
      }
    }
  }

  lemma HandledOwners(r: Reactor, id: nat, w: World, v: World, now: Time)
    requires ConnsOk(r) && OwnersOk(r) && Handled(r, id, w, v, now)
    ensures OwnersOk(Put(r, v).(clock := now))
  {
    HandledOthers(r, id, w, v, now);
    OwnersAfter(r.conns, r.timers, r.clock, id, v.conn, v.timers, now);
  }

  lemma HandledOthers(r: Reactor, id: nat, w: World, v: World, now: Time)
    requires ConnsOk(r) && OwnersOk(r) && Handled(r, id, w, v, now)
    ensures forall b :: b in r.conns && b != id ==>
      v.conn.link.timerId != r.conns[b].link.timerId && LifeInv(r.conns[b], v.timers)
  {
    forall b | b in r.conns && b != id
      ensures v.conn.link.timerId != r.conns[b].link.timerId && LifeInv(r.conns[b], v.timers)
    {
      assert LifeInv(r.conns[b], r.timers);
      OtherTimerKept(r.conns[b], r.timers, v.timers, w, v);
    }
  }

  lemma TableAfter(conns: map<nat, Conn>, table: set<nat>, queue: seq<Task>, id: nat, c: Conn, queue': seq<Task>)
    requires TableHolds(conns, table, queue) && id in conns
    requires forall t :: t in queue ==> t in queue'
    requires forall t :: t in queue' ==> t in queue || (t == Remove(id) && !Healthy(c))
    requires Healthy(c) ==> Healthy(conns[id])
    requires Live(conns[id]) && !Live(c) ==> Remove(id) in queue'
    ensures TableHolds(conns[id := c], table, queue')
  {
  }

  lemma EnqueuedTasks(w: World, v: World, batch: seq<Task>)
    requires Enqueues(w, v)
    ensures forall t :: t in batch + w.tasks ==> t in batch + v.tasks
    ensures forall t :: t in batch + v.tasks ==> t in batch + w.tasks || (t == Remove(w.conn.id) && v.tasks != w.tasks)
    ensures Live(w.conn) && !Live(v.conn) ==> Remove(w.conn.id) in batch + v.tasks
  {
    var more := v.tasks[|w.tasks|..];
    assert v.tasks == w.tasks + more;
    forall t | t in more ensures t == Remove(w.conn.id) {
      var k :| 0 <= k < |more| && more[k] == t;
      assert v.tasks[|w.tasks| + k] == t;
    }
    if Live(w.conn) && !Live(v.conn) {
      assert more[0] in more;
    }
  }

  lemma HandledTable(r: Reactor, id: nat, w: World, v: World, now: Time)
    requires ConnsOk(r) && TableOk(r) && Handled(r, id, w, v, now)
    ensures TableOk(Put(r, v).(clock := now))
  {
    EnqueuedTasks(w, v, r.batch);
    TableAfter(r.conns, r.table, Queue(r), id, v.conn, r.batch + v.tasks);
  }

  /** Remove requests change nothing for the accounting of answers. */
  lemma RemovesCarryNoAnswer(tasks: seq<Task>, more: seq<Task>, id: nat, o: nat)
    requires forall k :: 0 <= k < |more| ==> more[k] == Remove(id)
    ensures AnswersOf(tasks + more, o) == AnswersOf(tasks, o)
  {
    NoAnswers(more, o);
    AnswersConcat(tasks, more, o);
    AddNothing(AnswersOf(tasks, o));
  }

  lemma {:induction false} NoAnswers(tasks: seq<Task>, o: nat)
    requires forall k :: 0 <= k < |tasks| ==> !tasks[k].Answer?
    ensures AnswersOf(tasks, o) == multiset{}
  {
    if tasks != [] {
      NoAnswers(tasks[..|tasks| - 1], o);
    }
  }

  lemma AdoptsBehind(queue: seq<Task>, more: seq<Task>, id: nat)
    requires forall k :: 0 <= k < |more| ==> more[k] == Remove(id)
    ensures forall t: Task :: t in queue + more ==> t in queue || t == Remove(id)
    ensures AdoptsDiffer(queue) ==> AdoptsDiffer(queue + more)
  {
  }

  lemma AdoptsAfter(conns: map<nat, Conn>, accepted: set<nat>, queue: seq<Task>, id: nat, c: Conn, more: seq<Task>)
    requires AdoptsHold(conns, accepted, queue) && id in conns
    requires forall k :: 0 <= k < |more| ==> more[k] == Remove(id)
    ensures AdoptsHold(conns[id := c], accepted, queue + more)
  {
    AdoptsBehind(queue, more, id);
  }

  lemma QueueAfter(conns: map<nat, Conn>, accepted: set<nat>, queue: seq<Task>, jobs: seq<Job>,
                   id: nat, w: World, v: World, more: seq<Task>)
    requires QueueHolds(conns, accepted, queue, jobs) && id in conns && w.conn == conns[id] && w.conn.id == id
    requires JobsStep(w, v) && w.jobs == jobs
    requires forall k :: 0 <= k < |more| ==> more[k] == Remove(id)
    ensures QueueHolds(conns[id := v.conn], accepted, queue + more, v.jobs)
  {
    AdoptsAfter(conns, accepted, queue, id, v.conn, more);
    forall o ensures InFlight(conns[id := v.conn], o) == JobsOf(v.jobs, o) + AnswersOf(queue + more, o) {
      RemovesCarryNoAnswer(queue, more, id, o);
      assert InFlight(conns, o) == JobsOf(jobs, o) + AnswersOf(queue, o);
      if o == id {
        ShiftSum(JobsOf(jobs, id), JobsOf(v.jobs, id), AnswersOf(queue, id), v.conn.book.inflight);
      }
    }
  }

  /** What a handler leaves behind the queue. */
  ghost function Behind(w: World, v: World): seq<Task>
    requires Enqueues(w, v)
  {
    v.tasks[|w.tasks|..]
  }

  lemma RemovesBehind(w: World, v: World, batch: seq<Task>)
    requires Enqueues(w, v)
    ensures batch + v.tasks == batch + w.tasks + Behind(w, v)
    ensures forall k :: 0 <= k < |Behind(w, v)| ==> Behind(w, v)[k] == Remove(w.conn.id)
  {
    assert v.tasks == w.tasks + Behind(w, v);
    assert batch + (w.tasks + Behind(w, v)) == batch + w.tasks + Behind(w, v);
    forall k | 0 <= k < |Behind(w, v)| ensures Behind(w, v)[k] == Remove(w.conn.id) {
      assert v.tasks[|w.tasks| + k] == Remove(w.conn.id);
    }
  }

  lemma HandledQueue(r: Reactor, id: nat, w: World, v: World, now: Time)
    requires ConnsOk(r) && QueueOk(r) && Handled(r, id, w, v, now) && JobsStep(w, v)
    ensures QueueOk(Put(r, v).(clock := now))
  {
    RemovesBehind(w, v, r.batch);
    QueueAfter(r.conns, r.accepted, Queue(r), r.jobs, id, w, v, Behind(w, v));
  }

  /** The four parts that speak of connections survive a handler. */
  lemma HandlerApplied(r: Reactor, id: nat, w: World, v: World, now: Time)
    requires ConnsOk(r) && OwnersOk(r) && TableOk(r) && QueueOk(r)
    requires Handled(r, id, w, v, now) && JobsStep(w, v)
    ensures var r' := Put(r, v).(clock := now); ConnsOk(r') && OwnersOk(r') && TableOk(r') && QueueOk(r')
  {
    HandledConns(r, id, w, v, now);
    HandledOwners(r, id, w, v, now);
    HandledTable(r, id, w, v, now);
    HandledQueue(r, id, w, v, now);
  }

  // ---- the I/O pass ----

  lemma IoHandled(r: Reactor, e: Ready, w: World, t1: Time, t2: Time)
    requires Inv(r) && e.id in r.conns && Reportable(r, e) && !t1.Before(r.clock) && !t2.Before(t1)
    requires w == WorldOf(r, e.id, w.readScript, w.writeScript)
    ensures Handled(r, e.id, w, Handle(w, e.canRead, e.canWrite, t1, t2), t2)
    ensures JobsStep(w, Handle(w, e.canRead, e.canWrite, t1, t2))
  {
    assert AtRest(w.conn) && LifeInv(w.conn, w.timers);
    HandleAtRest(w, e.canRead, e.canWrite, t1, t2);
    HandleStep(w, e.canRead, e.canWrite, r.clock, t1, t2);
    HandleJobs(w, e.canRead, e.canWrite, t1, t2);
  }

  lemma PendingAfter(r: Reactor, v: World, now: Time)
    requires PendingOk(r) && r.pending != [] && v.conn.id == r.pending[0].id
    ensures PendingOk(Put(r, v).(pending := r.pending[1..], clock := now))
  {
    assert forall k :: 0 <= k < |r.pending[1..]| ==> r.pending[1..][k] == r.pending[k + 1];
  }

  lemma HandleNextInv(r: Reactor, rs: seq<ReadOutcome>, ws: seq<WriteOutcome>, t1: Time, t2: Time)
    requires Inv(r) && Enabled(r, HandleNext(rs, ws, t1, t2))
    ensures Inv(Next(r, HandleNext(rs, ws, t1, t2)))
  {
    var e := r.pending[0];
    assert Reportable(r, e);
    var w := WorldOf(r, e.id, rs, ws);
    var v := Handle(w, e.canRead, e.canWrite, t1, t2);
    IoHandled(r, e, w, t1, t2);
    HandlerApplied(r, e.id, w, v, t2);
    PendingAfter(r, v, t2);
    SameButPending(Put(r, v).(clock := t2), r.pending[1..]);
  }

  lemma SameButPending(r: Reactor, pending: seq<Ready>)
    ensures var r' := r.(pending := pending);
            && (ConnsOk(r) ==> ConnsOk(r')) && (OwnersOk(r) ==> OwnersOk(r'))
            && (TableOk(r) ==> TableOk(r')) && (QueueOk(r) ==> QueueOk(r'))
  {
  }

  // ---- the task pass ----

  lemma AnswersHead(t: Task, rest: seq<Task>, o: nat)
    ensures AnswersOf([t] + rest, o) == AnswerOf(t, o) + AnswersOf(rest, o)
  {
    AnswersConcat([t], rest, o);
    AnswersLast([], t, o);
    assert [] + [t] == [t];
    AddNothing(AnswerOf(t, o));
  }

  lemma AdoptsHead(conns: map<nat, Conn>, accepted: set<nat>, t: Task, rest: seq<Task>)
    requires AdoptsHold(conns, accepted, [t] + rest)
    ensures AdoptsHold(conns, accepted, rest)
    ensures t.Adopt? ==> t.id in accepted && t.id !in conns && t !in rest
  {
    var queue := [t] + rest;
    assert queue[0] == t && forall k :: 0 <= k < |rest| ==> queue[k + 1] == rest[k];
    if t.Adopt? {
      assert Adopt(t.id) in queue;
    }
    forall id | Adopt(id) in rest ensures Adopt(id) in queue {
    }
  }

  lemma FlightsHead(conns: map<nat, Conn>, t: Task, rest: seq<Task>, jobs: seq<Job>, o: nat)
    requires FlightsHold(conns, [t] + rest, jobs)
    ensures InFlight(conns, o) == AnswerOf(t, o) + (JobsOf(jobs, o) + AnswersOf(rest, o))
  {
    AnswersHead(t, rest, o);
    SwapFirst(JobsOf(jobs, o), AnswerOf(t, o), AnswersOf(rest, o));
  }

  lemma AnswerQueue(conns: map<nat, Conn>, accepted: set<nat>, id: nat, req: Request, rest: seq<Task>,
                    jobs: seq<Job>, c: Conn, more: seq<Task>)
    requires QueueHolds(conns, accepted, [Answer(id, req)] + rest, jobs) && id in conns
    requires c.book.inflight == conns[id].book.inflight - multiset{req}
    requires forall k :: 0 <= k < |more| ==> more[k] == Remove(id)
    ensures QueueHolds(conns[id := c], accepted, rest + more, jobs)
  {
    AdoptsHead(conns, accepted, Answer(id, req), rest);
    AdoptsAfter(conns, accepted, rest, id, c, more);
    forall o ensures InFlight(conns[id := c], o) == JobsOf(jobs, o) + AnswersOf(rest + more, o) {
      RemovesCarryNoAnswer(rest, more, id, o);
      FlightsHead(conns, Answer(id, req), rest, jobs, o);
      if o == id {
        CancelFront(multiset{req}, JobsOf(jobs, o) + AnswersOf(rest, o));
      } else {
        AddNothing(JobsOf(jobs, o) + AnswersOf(rest, o));
      }
    }
  }

  lemma AnswerKept(w: World, req: Request)
    ensures var v := RunAnswer(w, req);
            && v.jobs == w.jobs && v.conn.id == w.conn.id && v.conn.pool == w.conn.pool
            && v.conn.book.inflight == w.conn.book.inflight - multiset{req}
  {
    if Live(w.conn) {
      SendAndCheckSendsReply(TakeAnswer(w, req), Ok(req));
    }
  }

  lemma NothingOutWithoutPool(c: Conn)
    requires AtRest(c)
    ensures !c.pool ==> c.book.inflight == multiset{}
  {
  }

  /** The request of a queued answer is in flight, so its connection exists and uses the pool. */
  lemma AnswerIsInFlight(r: Reactor, id: nat, req: Request)
    requires Inv(r) && r.batch != [] && r.batch[0] == Answer(id, req)
    ensures id in r.conns && r.pool && req in r.conns[id].book.inflight
  {
    HeadAndRest(r.batch, r.tasks);
    FlightsHead(r.conns, r.batch[0], r.batch[1..] + r.tasks, r.jobs, id);
    assert req in AnswerOf(r.batch[0], id);
    assert req in InFlight(r.conns, id);
    NothingOutWithoutPool(r.conns[id]);
  }

  ghost function Popped(r: Reactor, now: Time): Reactor
    requires r.batch != []
  {
    r.(batch := r.batch[1..], clock := now)
  }

  lemma LaterClock(q: TimerTable, clock: Time, now: Time)
    requires Ordered(q, clock) && !now.Before(clock)
    ensures Ordered(q, now)
  {
  }

  lemma TableUnaffected(conns: map<nat, Conn>, table: set<nat>, t: Task, rest: seq<Task>)
    requires TableHolds(conns, table, [t] + rest) && !t.Remove?
    ensures TableHolds(conns, table, rest)
  {
    assert forall x :: x in [t] + rest <==> x == t || x in rest;
  }

  lemma PoppedInv(r: Reactor, now: Time)
    requires Inv(r) && r.phase == TaskPass && r.batch != [] && !now.Before(r.clock) && !r.batch[0].Remove?
    ensures var r0 := Popped(r, now); ConnsOk(r0) && OwnersOk(r0) && TableOk(r0) && PendingOk(r0)
  {
    HeadAndRest(r.batch, r.tasks);
    LaterClock(r.timers, r.clock, now);
    TableUnaffected(r.conns, r.table, r.batch[0], r.batch[1..] + r.tasks);
  }

  lemma AnswerHandled(r: Reactor, id: nat, req: Request, w: World)
    requires ConnsOk(r) && OwnersOk(r) && id in r.conns && w == WorldOf(r, id, w.readScript, w.writeScript)
    requires r.pool && req in r.conns[id].book.inflight
    ensures Handled(r, id, w, RunAnswer(w, req), r.clock)
  {
    assert AtRest(w.conn) && LifeInv(w.conn, w.timers);
    RunAnswerAtRest(w, req);
    RunAnswerStep(w, req, r.clock);
    AnswerKept(w, req);
  }

  lemma AnswerParts(r: Reactor, id: nat, req: Request, w: World)
    requires ConnsOk(r) && OwnersOk(r) && TableOk(r)
    requires id in r.conns && w == WorldOf(r, id, w.readScript, w.writeScript)
    requires r.pool && req in r.conns[id].book.inflight
    ensures var r' := Put(r, RunAnswer(w, req)); ConnsOk(r') && OwnersOk(r') && TableOk(r')
    ensures Enqueues(w, RunAnswer(w, req))
  {
    var v := RunAnswer(w, req);
    AnswerHandled(r, id, req, w);
    HandledConns(r, id, w, v, r.clock);
    HandledOwners(r, id, w, v, r.clock);
    HandledTable(r, id, w, v, r.clock);
    assert Put(r, v).(clock := r.clock) == Put(r, v);
  }

  lemma AnswerInv(r: Reactor, ws: seq<WriteOutcome>, now: Time)
    requires Inv(r) && Enabled(r, RunTask(ws, now)) && r.batch[0].Answer?
    ensures Inv(Next(r, RunTask(ws, now)))
  {
    AnswerIsInFlight(r, r.batch[0].id, r.batch[0].req);
    PoppedInv(r, now);
    AnswerKeepsInv(r, r.batch[0].id, r.batch[0].req, WorldOf(Popped(r, now), r.batch[0].id, [], ws), now);
  }

  lemma AnswerKeepsInv(r: Reactor, id: nat, req: Request, w: World, now: Time)
    requires r.phase == TaskPass && r.batch != [] && r.batch[0] == Answer(id, req) && QueueOk(r)
    requires ConnsOk(Popped(r, now)) && OwnersOk(Popped(r, now)) && TableOk(Popped(r, now)) && PendingOk(Popped(r, now))
    requires id in r.conns && w == WorldOf(Popped(r, now), id, w.readScript, w.writeScript)
    requires r.pool && req in r.conns[id].book.inflight
    ensures Inv(Put(Popped(r, now), RunAnswer(w, req)))
  {
    AnswerParts(Popped(r, now), id, req, w);
    AnswerKept(w, req);
    AnswerQueueStep(r, id, req, w, RunAnswer(w, req), now);
  }

  lemma AnswerQueueStep(r: Reactor, id: nat, req: Request, w: World, v: World, now: Time)
    requires QueueOk(r) && r.batch != [] && r.batch[0] == Answer(id, req) && id in r.conns
    requires w.tasks == r.tasks && w.conn.id == id && Enqueues(w, v)
    requires v.conn.id == id && v.jobs == r.jobs && v.conn.book.inflight == r.conns[id].book.inflight - multiset{req}
    ensures QueueOk(Put(Popped(r, now), v))
  {
    var rest := r.batch[1..] + r.tasks;
    HeadAndRest(r.batch, r.tasks);
    RemovesBehind(w, v, r.batch[1..]);
    AnswerQueue(r.conns, r.accepted, id, req, rest, r.jobs, v.conn, Behind(w, v));
  }
}
