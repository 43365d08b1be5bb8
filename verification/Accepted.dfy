/** No accepted socket gets lost on its way to a connection. */
module Accepted {
  import opened Socket
  import opened Timers
  import opened ConnSpec
  import opened Reactor
  import opened ReactorInv
  import opened ReactorSteps
  import opened IdleTimeout

  /** Every accepted socket has become a connection, or is queued to become one. */
  ghost predicate Underway(conns: map<nat, Conn>, accepted: set<nat>, queue: seq<Task>) {
    forall id :: id in accepted ==> id in conns || Adopt(id) in queue
  }

  ghost predicate Kept(r: Reactor) { Underway(r.conns, r.accepted, Queue(r)) }

  lemma KeptAlong(r: Reactor, r': Reactor)
    requires Kept(r) && r'.accepted == r.accepted && r.conns.Keys <= r'.conns.Keys
    requires forall t :: t in Queue(r) && t.Adopt? ==> t in Queue(r')
    ensures Kept(r')
  {
  }

  lemma QueueGrows(batch: seq<Task>, tasks: seq<Task>, tasks': seq<Task>)
    requires tasks <= tasks'
    ensures forall t :: t in batch + tasks ==> t in batch + tasks'
  {
    assert tasks' == tasks + tasks'[|tasks|..];
  }

  lemma {:induction false} FireAllQueues(r: Reactor, ids: seq<int>)
    ensures r.tasks <= FireAll(r, ids).tasks
    decreases |ids|
  {
    if ids != [] {
      FireAllQueues(FireTimer(r, ids[0]), ids[1..]);
    }
  }

  lemma HandleNextKept(r: Reactor, rs: seq<ReadOutcome>, ws: seq<WriteOutcome>, t1: Time, t2: Time)
    requires Inv(r) && Enabled(r, HandleNext(rs, ws, t1, t2)) && Kept(r)
    ensures Kept(Next(r, HandleNext(rs, ws, t1, t2)))
  {
    var e := r.pending[0];
    assert Reportable(r, e);
    var w := WorldOf(r, e.id, rs, ws);
    ActivationIsRecorded(r, rs, ws, t1, t2);
    IoHandled(r, e, w, t1, t2);
    QueueGrows(r.batch, r.tasks, Handle(w, e.canRead, e.canWrite, t1, t2).tasks);
    KeptAlong(r, Next(r, HandleNext(rs, ws, t1, t2)));
  }

  lemma TimerPassKept(r: Reactor, t: Time)
    requires Inv(r) && Enabled(r, TimerPass(t)) && Kept(r)
    ensures Kept(Next(r, TimerPass(t)))
  {
    var ids := Scan(r.timers.entries, r.timers.entries.Keys, t);
    TimerPassEffect(r, t);
    FireAllQueues(r, ids);
    QueueGrows(r.batch, r.tasks, FireAll(r, ids).tasks);
    KeptAlong(r, Next(r, TimerPass(t)));
  }

  lemma HeadOrRest(r: Reactor)
    requires r.batch != []
    ensures forall t :: t in Queue(r) ==> t == r.batch[0] || t in r.batch[1..] + r.tasks
  {
    assert r.batch == [r.batch[0]] + r.batch[1..];
  }

  lemma TaskKept(r: Reactor, ws: seq<WriteOutcome>, t: Time)
    requires Inv(r) && Enabled(r, RunTask(ws, t)) && Kept(r)
    ensures Kept(Next(r, RunTask(ws, t)))
  {
    HeadOrRest(r);
    if r.batch[0].Answer? {
      AnswerTaskKept(r, ws, t);
    }
  }

  lemma AnswerTaskKept(r: Reactor, ws: seq<WriteOutcome>, t: Time)
    requires Inv(r) && Enabled(r, RunTask(ws, t)) && r.batch[0].Answer? && Kept(r)
    ensures Kept(Next(r, RunTask(ws, t)))
  {
    var id, req := r.batch[0].id, r.batch[0].req;
    HeadOrRest(r);
    AnswerIsInFlight(r, id, req);
    PoppedInv(r, t);
    var p := Popped(r, t);
    var w := WorldOf(p, id, [], ws);
    AnswerParts(p, id, req, w);
    QueueGrows(p.batch, p.tasks, RunAnswer(w, req).tasks);
    KeptAlong(r, Put(p, RunAnswer(w, req)));
  }

  lemma StepKept(r: Reactor, s: Step)
    requires Inv(r) && Enabled(r, s) && Kept(r)
    ensures Kept(Next(r, s))
  {
    match s
    case HandleNext(rs, ws, t1, t2) => HandleNextKept(r, rs, ws, t1, t2);
    case TimerPass(t) => TimerPassKept(r, t);
    case RunTask(ws, t) => TaskKept(r, ws, t);
    case _ =>
  }

  lemma {:induction false} RunKept(r: Reactor, steps: seq<Step>, r': Reactor)
    requires Inv(r) && Run(r, steps, r') && Kept(r)
    ensures Kept(r')
    decreases |steps|
  {
    if steps != [] {
      StepKept(r, steps[0]);
      StepInv(r, steps[0]);
      RunKept(Next(r, steps[0]), steps[1..], r');
    }
  }

  /** In every reachable state each accepted socket is a connection or queued to become one, never both:
      when the queue is empty, the connections are exactly the accepted sockets. */
  lemma AcceptedBecomesConnection(r: Reactor)
    requires Reachable(r)
    ensures forall id :: id in r.accepted <==> id in r.conns || Adopt(id) in Queue(r)
    ensures forall id :: id in r.conns ==> Adopt(id) !in Queue(r)
    ensures Queue(r) == [] ==> r.conns.Keys == r.accepted
  {
    var pool, steps :| Run(Init(pool), steps, r);
    InitInv(pool);
    RunKept(Init(pool), steps, r);
    ReachableInv(r);
  }
}
