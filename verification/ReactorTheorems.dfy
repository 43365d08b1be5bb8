/** What is true of every run of the loop. */
module ReactorTheorems {
  import opened Bytes
  import opened Socket
  import opened HttpSpec
  import opened Timers
  import opened ConnSpec
  import opened ConnFacts
  import opened ConnOutput
  import opened ConnLife
  import opened ConnJobs
  import opened Reactor
  import opened ReactorInv
  import opened ReactorSteps

  // ---- output ----

  /** With the pool off: a connection that is alive has been sent, or has in its write buffer, exactly
      the response stream of all it has read; any connection, that of a prefix of the outcomes. */
  lemma OutputWithoutPool(r: Reactor, id: nat)
    requires Reachable(r) && id in r.conns && !r.pool
    ensures var c := r.conns[id];
            Live(c) ==> c.pipe.sent + c.pipe.output == ResponseStream(c.intake.received)
    ensures var c := r.conns[id]; var v := Interpret(FRESH, Lines(c.intake.received));
            exists n: nat, e: End :: n <= |v.reqs| && (e.Open? || (n == |v.reqs| && e == v.end))
                                     && c.pipe.sent + c.pipe.output == Render(Replies(v.reqs[..n], e))
  {
    ReachableInv(r);
    assert AtRest(r.conns[id]);
    PoolOffOutput(r.conns[id]);
  }

  /** With the pool on, whatever the order in which workers finish and tasks are drained: a connected
      connection with no worker out has been sent what the server without a pool would have sent. */
  lemma OutputWithPool(r: Reactor, id: nat)
    requires Reachable(r) && id in r.conns
    requires r.conns[id].link.state == Connected && r.conns[id].link.working == 0
    ensures var c := r.conns[id]; c.pipe.sent + c.pipe.output == ResponseStream(c.intake.received)
  {
    ReachableInv(r);
    assert AtRest(r.conns[id]);
    PoolOnOutput(r.conns[id]);
  }

  /** With the pool on, a connection ended by a half-close guard has handed one response per complete
      request in the bytes it read to the kernel, and nothing of it is left with a worker or queued;
      before that, requests are responses plus requests on the pool plus answers on the loop. */
  lemma HalfCloseWithPool(r: Reactor, id: nat)
    requires Reachable(r) && id in r.conns && r.pool
    ensures var c := r.conns[id];
            HalfClosed(c) ==>
              && c.pipe.sent == Render(c.book.replies)
              && multiset(Answered(c.book.replies)) == multiset(Interpret(FRESH, Lines(c.intake.received)).reqs)
              && JobsOf(r.jobs, id) == multiset{} && AnswersOf(Queue(r), id) == multiset{}
    ensures var c := r.conns[id];
            Live(c) ==> |c.intake.done| == |Answered(c.book.replies)| + |JobsOf(r.jobs, id)| + |AnswersOf(Queue(r), id)|
  {
    ReachableInv(r);
    var c := r.conns[id];
    assert AtRest(c);
    assert InFlight(r.conns, id) == JobsOf(r.jobs, id) + AnswersOf(Queue(r), id);
    if HalfClosed(c) {
      HalfCloseOwesNothing(c);
      assert |c.book.inflight| == 0;
    }
    if Live(c) {
      RequestsAccounted(c);
    }
  }

  /** A half-closed connection with nothing to send and nothing with a worker is dead, unless the input
      stopped in the middle of a request: that one is left to the idle timer. */
  lemma OnlyPartialRequestsLinger(r: Reactor, id: nat)
    requires Reachable(r) && id in r.conns && Lingers(r.conns[id])
    ensures MidRequest(r.conns[id].intake) && CrlfFree(r.conns[id].intake.input)
  {
    ReachableInv(r);
    assert AtRest(r.conns[id]);
  }

  /** In every reachable state, with or without the pool: what was sent and what is buffered are the
      texts of the replies; every request completed so far is answered, with a worker, queued on the
      loop, or dropped by a dead connection, and is the next one of the whole-stream parse. A live
      connection has completed all of them, has dropped none, and rejected exactly a bad stream. */
  lemma OutputInEveryState(r: Reactor, id: nat)
    requires Reachable(r) && id in r.conns
    ensures var c := r.conns[id]; var v := Interpret(FRESH, Lines(c.intake.received));
            && c.pipe.sent + c.pipe.output == Render(c.book.replies)
            && multiset(Answered(c.book.replies)) + (JobsOf(r.jobs, id) + AnswersOf(Queue(r), id)) + c.book.dropped
               == multiset(c.intake.done)
            && c.intake.done <= v.reqs
            && (Live(c) ==> c.intake.done == v.reqs && c.book.dropped == multiset{}
                            && Rejections(c.book.replies) == if v.end.Bad? then 1 else 0)
  {
    ReachableInv(r);
    var c := r.conns[id];
    assert AtRest(c);
    assert InFlight(r.conns, id) == JobsOf(r.jobs, id) + AnswersOf(Queue(r), id);
    TrackedIsInterpret(c.intake);
  }

  // ---- life cycle ----

  /** State, epoll and timer agree; a live connection is in the table; a dead one still in it has a
      remove request queued; EPOLLOUT is watched exactly while there is something to write. */
  lemma LifeCycleAgreement(r: Reactor, id: nat)
    requires Reachable(r) && id in r.conns
    ensures var c := r.conns[id];
            && (Live(c) <==> c.link.inEpoll)
            && (!c.link.closeFailed ==> (Live(c) <==> Armed(c, r.timers)))
            && (forall i :: i in r.timers.entries && r.timers.entries[i].owner == id ==> i == c.link.timerId)
            && (Healthy(c) ==> id in r.table && (c.link.writeOn <==> c.pipe.output != []))
            && (c.link.state == Connected ==> c.link.readOn)
            && (!Live(c) && id in r.table ==> Remove(id) in Queue(r))
            && (Remove(id) in Queue(r) ==> !Healthy(c))
  {
    ReachableInv(r);
    assert LifeInv(r.conns[id], r.timers);
  }

  /** Each registered id is the current timer of exactly one connection. */
  lemma TimerOwnership(r: Reactor, i: int)
    requires Reachable(r) && i in r.timers.entries
    ensures exists o :: o in r.conns && r.conns[o].link.timerId == i && Live(r.conns[o])
                        && forall p :: p in r.conns && r.conns[p].link.timerId == i ==> p == o
  {
    ReachableInv(r);
    TimerHasOneOwner(r.conns, r.timers, r.clock, i);
  }

  /** The timerfd holds the earliest deadline, or is disarmed when there is no timer. */
  lemma AlarmInEveryState(r: Reactor)
    requires Reachable(r)
    ensures r.timers.alarm == DISARMED <==> r.timers.entries == map[]
    ensures forall i :: i in r.timers.entries ==> !r.timers.entries[i].deadline.Before(r.timers.alarm)
    ensures r.timers.entries != map[] ==>
      exists i :: i in r.timers.entries && r.timers.entries[i].deadline == r.timers.alarm
  {
    ReachableInv(r);
    AlarmIsEarliest(r.timers, r.clock);
  }

  // ---- a dead connection stays dead ----

  lemma PutKeepsDead(r: Reactor, id: nat, v: World, o: nat)
    requires id in r.conns && v.conn.id == id && (!Live(r.conns[id]) ==> !Live(v.conn))
    requires o in r.conns && !Live(r.conns[o])
    ensures !Live(Put(r, v).conns[o])
  {
  }

  ghost predicate DeadIn(conns: map<nat, Conn>, o: nat) { o in conns && !Live(conns[o]) }

  lemma DeadAfterHandle(r: Reactor, rs: seq<ReadOutcome>, ws: seq<WriteOutcome>, t1: Time, t2: Time, o: nat)
    requires Inv(r) && Enabled(r, HandleNext(rs, ws, t1, t2)) && DeadIn(r.conns, o)
    ensures DeadIn(Next(r, HandleNext(rs, ws, t1, t2)).conns, o)
  {
    var e := r.pending[0];
    assert Reportable(r, e);
    var w := WorldOf(r, e.id, rs, ws);
    IoHandled(r, e, w, t1, t2);
    PutKeepsDead(r, e.id, Handle(w, e.canRead, e.canWrite, t1, t2), o);
  }

  lemma DeadAfterAnswer(r: Reactor, ws: seq<WriteOutcome>, t: Time, o: nat)
    requires Inv(r) && Enabled(r, RunTask(ws, t)) && r.batch[0].Answer? && DeadIn(r.conns, o)
    ensures DeadIn(Next(r, RunTask(ws, t)).conns, o)
  {
    AnswerIsInFlight(r, r.batch[0].id, r.batch[0].req);
    PoppedInv(r, t);
    DeadAfterAnswerPut(Popped(r, t), r.batch[0].id, r.batch[0].req, WorldOf(Popped(r, t), r.batch[0].id, [], ws), o);
  }

  lemma DeadAfterAnswerPut(r: Reactor, id: nat, req: Request, w: World, o: nat)
    requires ConnsOk(r) && OwnersOk(r) && id in r.conns && w == WorldOf(r, id, w.readScript, w.writeScript)
    requires r.pool && req in r.conns[id].book.inflight && DeadIn(r.conns, o)
    ensures DeadIn(Put(r, RunAnswer(w, req)).conns, o)
  {
    AnswerHandled(r, id, req, w);
    PutKeepsDead(r, id, RunAnswer(w, req), o);
  }

  lemma AdoptIsNew(r: Reactor)
    requires QueueOk(r) && r.batch != [] && r.batch[0].Adopt?
    ensures r.batch[0].id !in r.conns
  {
    assert Queue(r)[0] == Adopt(r.batch[0].id);
    assert Adopt(r.batch[0].id) in Queue(r);
  }

  lemma DeadAfterAdopt(r: Reactor, ws: seq<WriteOutcome>, t: Time, o: nat)
    requires QueueOk(r) && Enabled(r, RunTask(ws, t)) && r.batch[0].Adopt? && DeadIn(r.conns, o)
    ensures DeadIn(Next(r, RunTask(ws, t)).conns, o)
  {
    AdoptIsNew(r);
  }

  lemma DeadAfterTimers(r: Reactor, t: Time, o: nat)
    requires Inv(r) && Enabled(r, TimerPass(t)) && DeadIn(r.conns, o)
    ensures DeadIn(Next(r, TimerPass(t)).conns, o)
  {
    var ids := Scan(r.timers.entries, r.timers.entries.Keys, t);
    TimerPassEffect(r, t);
    KilledStaysDead(r.conns, OwnersOf(r.timers.entries, ids), o);
  }

  lemma KilledStaysDead(conns: map<nat, Conn>, owners: set<nat>, o: nat)
    requires DeadIn(conns, o)
    ensures DeadIn(Kill(conns, owners), o)
  {
  }

  lemma StepKeepsDead(r: Reactor, s: Step, o: nat)
    requires Inv(r) && Enabled(r, s) && DeadIn(r.conns, o)
    ensures DeadIn(Next(r, s).conns, o)
  {
    match s
    case HandleNext(rs, ws, t1, t2) => DeadAfterHandle(r, rs, ws, t1, t2, o);
    case TimerPass(t) => DeadAfterTimers(r, t, o);
    case RunTask(ws, t) =>
      if r.batch[0].Adopt? {
        DeadAfterAdopt(r, ws, t, o);
      } else if r.batch[0].Answer? {
        DeadAfterAnswer(r, ws, t, o);
      }
    case _ =>
  }

  lemma {:induction false} RunKeepsDead(r: Reactor, steps: seq<Step>, r': Reactor, o: nat)
    requires Inv(r) && Run(r, steps, r') && DeadIn(r.conns, o)
    ensures DeadIn(r'.conns, o)
    decreases |steps|
  {
    if steps != [] {
      StepKeepsDead(r, steps[0], o);
      StepInv(r, steps[0]);
      RunKeepsDead(Next(r, steps[0]), steps[1..], r', o);
    }
  }

  /** From no reachable state does any run bring a dead connection back. */
  lemma DeadIsForever(r: Reactor, steps: seq<Step>, r': Reactor, o: nat)
    requires Reachable(r) && Run(r, steps, r')
    ensures o in r.conns && !Live(r.conns[o]) ==> o in r'.conns && !Live(r'.conns[o])
  {
    ReachableInv(r);
    if DeadIn(r.conns, o) {
      RunKeepsDead(r, steps, r', o);
    }
  }
}
