/** The idle timeout: what a timer pass kills, and what counts as activity, over every run. */
module IdleTimeout {
  import opened Socket
  import opened HttpSpec
  import opened Timers
  import opened ConnSpec
  import opened ConnLife
  import opened Reactor
  import opened ReactorInv
  import opened ReactorSteps
  import opened ReactorTheorems

  // ---- one timer pass ----

  /** The timer pass at `t` runs when every reported activation has been handled; it kills a healthy
      connection exactly if `t` is later than its last activation plus 60 s, and leaves no timer with
      a deadline before `t`. */
  lemma IdleTimeoutExact(r: Reactor, t: Time, id: nat)
    requires Reachable(r) && Enabled(r, TimerPass(t)) && id in r.conns && Healthy(r.conns[id])
    ensures r.pending == []
    ensures id in Next(r, TimerPass(t)).conns
    ensures !Live(Next(r, TimerPass(t)).conns[id]) <==> r.conns[id].link.activeAt.Deadline().Before(t)
    ensures forall i :: i in Next(r, TimerPass(t)).timers.entries ==>
              !Next(r, TimerPass(t)).timers.entries[i].deadline.Before(t)
  {
    ReachableInv(r);
    var q := r.timers;
    var ids := Scan(q.entries, q.entries.Keys, t);
    TimerPassEffect(r, t);
    ScanFindsExpired(q, r.clock, q.entries.Keys, t);
    var c := r.conns[id];
    assert LifeInv(c, q) && c.id == id;
    KilledIff(r.conns, q, ids, id, t);
  }

  lemma KilledIff(conns: map<nat, Conn>, q: TimerTable, ids: seq<int>, id: nat, t: Time)
    requires id in conns && conns[id].id == id && LifeInv(conns[id], q) && Healthy(conns[id])
    requires forall i :: i in ids <==> i in q.entries && q.entries[i].deadline.Before(t)
    ensures !Live(Kill(conns, OwnersOf(q.entries, ids))[id]) <==> conns[id].link.activeAt.Deadline().Before(t)
  {
    var i := conns[id].link.timerId;
    if i in ids {
      var k :| 0 <= k < |ids| && ids[k] == i;
      assert q.entries[ids[k]].owner == id;
    }
    if k :| 0 <= k < |ids| && ids[k] in q.entries && q.entries[ids[k]].owner == id {
      assert ids[k] == i && ids[k] in ids;
    }
  }

  // ---- the pass as the timer queue runs it ----

  function LifeOf(c: Conn): Life { Life(!Live(c), c.link.timerId) }

  ghost function Lives(conns: map<nat, Conn>): map<nat, Life> { map o | o in conns :: LifeOf(conns[o]) }

  lemma OwnedByConns(conns: map<nat, Conn>, q: TimerTable, clock: Time)
    requires OwnersHold(conns, q, clock) && forall id :: id in conns ==> conns[id].id == id
    ensures Owned(Timers.Fired(q, Lives(conns)))
  {
    forall i | i in q.entries ensures q.entries[i].owner in conns && conns[q.entries[i].owner].link.timerId == i {
      TimerHasOneOwner(conns, q, clock, i);
    }
  }

  lemma KilledLives(conns: map<nat, Conn>, entries: map<int, Timer>, ids: seq<int>)
    requires forall k :: 0 <= k < |ids| ==> ids[k] in entries && entries[ids[k]].owner in conns
    ensures Lives(Kill(conns, OwnersOf(entries, ids))) == KillOwners(Lives(conns), entries, ids)
  {
    var after := Kill(conns, OwnersOf(entries, ids));
    KillOwnersExact(Lives(conns), entries, ids);
    forall o | o in conns ensures Lives(after)[o] == KillOwners(Lives(conns), entries, ids)[o] {
      OwnerListed(entries, ids, o);
    }
  }

  lemma OwnerListed(entries: map<int, Timer>, ids: seq<int>, o: nat)
    requires forall k :: 0 <= k < |ids| ==> ids[k] in entries
    ensures o in OwnersOf(entries, ids) <==> exists i :: i in ids && entries[i].owner == o
  {
    forall i | i in ids && entries[i].owner == o ensures o in OwnersOf(entries, ids) {
      var k :| 0 <= k < |ids| && ids[k] == i;
      assert entries[ids[k]].owner == o;
    }
    if o in OwnersOf(entries, ids) {
      var k :| 0 <= k < |ids| && ids[k] in entries && entries[ids[k]].owner == o;
      var i := ids[k];
      assert i in ids && entries[i].owner == o;
    }
  }

  /** In every reachable state TimerQueue.HandleRead may be called, and what it does to the timers, to
      their ids and to the lives of the connections is what the timer pass of the loop does. */
  lemma TimerPassIsHandleRead(r: Reactor, t: Time)
    requires Reachable(r) && Enabled(r, TimerPass(t))
    ensures Ordered(r.timers, r.clock) && Owned(Timers.Fired(r.timers, Lives(r.conns)))
    ensures var ids := Scan(r.timers.entries, r.timers.entries.Keys, t); var r' := Next(r, TimerPass(t));
            && r'.timers.entries == r.timers.entries - IdSet(ids) && Programmed(r'.timers)
            && (forall k :: 0 <= k < |ids| ==> ids[k] in r.timers.entries && r.timers.entries[ids[k]].owner in Lives(r.conns))
            && Lives(r'.conns) == KillOwners(Lives(r.conns), r.timers.entries, ids)
  {
    ReachableInv(r);
    var q, ids := r.timers, Scan(r.timers.entries, r.timers.entries.Keys, t);
    OwnedByConns(r.conns, q, r.clock);
    TimerPassEffect(r, t);
    ScanAscends(q.entries, q.entries.Keys, t);
    KilledLives(r.conns, q.entries, ids);
  }

  // ---- what counts as activity ----

  ghost predicate ActiveAt(conns: map<nat, Conn>, id: nat, at: Time) {
    id in conns && (Live(conns[id]) ==> conns[id].link.activeAt == at)
  }

  ghost predicate OthersSame(before: map<nat, Conn>, after: map<nat, Conn>, id: nat) {
    forall o :: o in before && o != id ==> o in after && after[o] == before[o]
  }

  /** A handled event on a connection that survives it sets its last activation to the time of its
      last callback; the other connections are left as they are. */
  lemma ActivationIsRecorded(r: Reactor, rs: seq<ReadOutcome>, ws: seq<WriteOutcome>, t1: Time, t2: Time)
    requires Inv(r) && Enabled(r, HandleNext(rs, ws, t1, t2))
    ensures var e := r.pending[0]; var after := Next(r, HandleNext(rs, ws, t1, t2)).conns;
            && (if e.canRead || e.canWrite then ActiveAt(after, e.id, if e.canWrite then t2 else t1) else after == r.conns)
            && OthersSame(r.conns, after, e.id) && after.Keys == r.conns.Keys
  {
    var e := r.pending[0];
    assert Reportable(r, e);
    EventActivates(r, e, WorldOf(r, e.id, rs, ws), t1, t2);
  }

  lemma EventActivates(r: Reactor, e: Ready, w: World, t1: Time, t2: Time)
    requires ConnsOk(r) && OwnersOk(r) && Reportable(r, e) && w == WorldOf(r, e.id, w.readScript, w.writeScript)
    requires !t1.Before(r.clock) && !t2.Before(t1)
    ensures var after := Put(r, Handle(w, e.canRead, e.canWrite, t1, t2)).conns;
            && (if e.canRead || e.canWrite then ActiveAt(after, e.id, if e.canWrite then t2 else t1) else after == r.conns)
            && OthersSame(r.conns, after, e.id) && after.Keys == r.conns.Keys
  {
    assert LifeInv(w.conn, w.timers);
    HandleStep(w, e.canRead, e.canWrite, r.clock, t1, t2);
    PutConns(r, Handle(w, e.canRead, e.canWrite, t1, t2));
    UpdatedConns(r.conns, e.id, Handle(w, e.canRead, e.canWrite, t1, t2).conn);
  }

  lemma PutConns(r: Reactor, v: World)
    ensures Put(r, v).conns == r.conns[v.conn.id := v.conn]
  {
  }

  lemma UpdatedConns(conns: map<nat, Conn>, id: nat, c: Conn)
    requires id in conns
    ensures var after := conns[id := c];
            OthersSame(conns, after, id) && after.Keys == conns.Keys && (c == conns[id] ==> after == conns)
  {
  }

  ghost predicate SameActivations(before: map<nat, Conn>, after: map<nat, Conn>) {
    forall o :: o in before ==> o in after && after[o].link.activeAt == before[o].link.activeAt
  }

  /** Nothing else moves the last activation of a connection: not a worker's answer, and not the
      timers of others. */
  lemma OnlyEventsActivate(r: Reactor, s: Step)
    requires Inv(r) && Enabled(r, s) && !s.HandleNext?
    ensures SameActivations(r.conns, Next(r, s).conns)
  {
    match s
    case TimerPass(t) =>
      TimerPassEffect(r, t);
      KillLeavesActivations(r.conns, OwnersOf(r.timers.entries, Scan(r.timers.entries, r.timers.entries.Keys, t)));
    case RunTask(ws, t) => TaskLeavesActivations(r, ws, t);
    case _ =>
  }

  lemma KillLeavesActivations(conns: map<nat, Conn>, owners: set<nat>)
    ensures SameActivations(conns, Kill(conns, owners))
  {
  }

  lemma TaskLeavesActivations(r: Reactor, ws: seq<WriteOutcome>, t: Time)
    requires Inv(r) && Enabled(r, RunTask(ws, t))
    ensures SameActivations(r.conns, Next(r, RunTask(ws, t)).conns)
  {
    if r.batch[0].Adopt? {
      AdoptIsNew(r);
      AdoptLeavesActivations(r, ws, t);
    } else if r.batch[0].Answer? {
      AnswerTaskLeavesActivations(r, ws, t);
    }
  }

  lemma AdoptLeavesActivations(r: Reactor, ws: seq<WriteOutcome>, t: Time)
    requires Enabled(r, RunTask(ws, t)) && r.batch[0].Adopt? && r.batch[0].id !in r.conns
    ensures SameActivations(r.conns, Next(r, RunTask(ws, t)).conns)
  {
  }

  lemma AnswerTaskLeavesActivations(r: Reactor, ws: seq<WriteOutcome>, t: Time)
    requires Inv(r) && Enabled(r, RunTask(ws, t)) && r.batch[0].Answer?
    ensures SameActivations(r.conns, Next(r, RunTask(ws, t)).conns)
  {
    AnswerIsInFlight(r, r.batch[0].id, r.batch[0].req);
    PoppedInv(r, t);
    AnswerLeavesActivations(Popped(r, t), r.batch[0].req, WorldOf(Popped(r, t), r.batch[0].id, [], ws));
  }

  lemma AnswerLeavesActivations(r: Reactor, req: Request, w: World)
    requires ConnsOk(r) && OwnersOk(r) && w.conn.id in r.conns && w == WorldOf(r, w.conn.id, w.readScript, w.writeScript)
    ensures SameActivations(r.conns, Put(r, RunAnswer(w, req)).conns)
  {
    assert LifeInv(w.conn, w.timers);
    RunAnswerStep(w, req, r.clock);
    PutConns(r, RunAnswer(w, req));
    SameButOne(r.conns, w.conn.id, RunAnswer(w, req).conn);
  }

  lemma SameButOne(conns: map<nat, Conn>, id: nat, c: Conn)
    requires id in conns && c.link.activeAt == conns[id].link.activeAt
    ensures SameActivations(conns, conns[id := c])
  {
  }

  // ---- whole runs ----

  /** The last activation of a connection after one step: its adoption, or the callback that handled an
      event of it. */
  ghost function Activation(r: Reactor, s: Step, o: nat, was: Time): Time
    requires Enabled(r, s)
  {
    match s
    case HandleNext(_, _, t1, t2) =>
      var e := r.pending[0];
      if e.id != o || !(e.canRead || e.canWrite) then was else if e.canWrite then t2 else t1
    case RunTask(_, t) => if r.batch[0] == Adopt(o) then t else was
    case _ => was
  }

  ghost function LastActivation(r: Reactor, steps: seq<Step>, r': Reactor, o: nat, was: Time): Time
    requires Run(r, steps, r')
    decreases |steps|
  {
    if steps == [] then was
    else LastActivation(Next(r, steps[0]), steps[1..], r', o, Activation(r, steps[0], o, was))
  }

  ghost predicate ActiveIfAny(conns: map<nat, Conn>, o: nat, at: Time) {
    o in conns && Live(conns[o]) ==> conns[o].link.activeAt == at
  }

  lemma AdoptionActivates(r: Reactor, ws: seq<WriteOutcome>, t: Time)
    requires Enabled(r, RunTask(ws, t)) && r.batch[0].Adopt?
    ensures var id := r.batch[0].id; var after := Next(r, RunTask(ws, t)).conns;
            ActiveAt(after, id, t) && OthersSame(after, r.conns, id)
  {
  }

  lemma TaskOfAnother(r: Reactor, ws: seq<WriteOutcome>, t: Time, o: nat)
    requires Inv(r) && Enabled(r, RunTask(ws, t)) && r.batch[0] != Adopt(o) && o !in r.conns
    ensures o !in Next(r, RunTask(ws, t)).conns
  {
    if r.batch[0].Answer? {
      AnswerIsInFlight(r, r.batch[0].id, r.batch[0].req);
      AnswerKept(WorldOf(Popped(r, t), r.batch[0].id, [], ws), r.batch[0].req);
    }
  }

  lemma TaskActivation(r: Reactor, ws: seq<WriteOutcome>, t: Time, o: nat, was: Time)
    requires Inv(r) && Enabled(r, RunTask(ws, t)) && ActiveIfAny(r.conns, o, was)
    requires DeadIn(r.conns, o) ==> DeadIn(Next(r, RunTask(ws, t)).conns, o)
    ensures ActiveIfAny(Next(r, RunTask(ws, t)).conns, o, Activation(r, RunTask(ws, t), o, was))
  {
    if r.batch[0] == Adopt(o) {
      AdoptionActivates(r, ws, t);
    } else if o in r.conns {
      TaskLeavesActivations(r, ws, t);
    } else {
      TaskOfAnother(r, ws, t, o);
    }
  }

  lemma EventActivation(r: Reactor, s: Step, o: nat, was: Time)
    requires Inv(r) && Enabled(r, s) && s.HandleNext? && ActiveIfAny(r.conns, o, was)
    requires DeadIn(r.conns, o) ==> DeadIn(Next(r, s).conns, o)
    ensures ActiveIfAny(Next(r, s).conns, o, Activation(r, s, o, was))
  {
    ActivationIsRecorded(r, s.readScript, s.writeScript, s.t1, s.t2);
  }

  lemma StepActivation(r: Reactor, s: Step, o: nat, was: Time)
    requires Inv(r) && Enabled(r, s) && ActiveIfAny(r.conns, o, was)
    ensures ActiveIfAny(Next(r, s).conns, o, Activation(r, s, o, was))
  {
    if DeadIn(r.conns, o) {
      StepKeepsDead(r, s, o);
    }
    match s
    case HandleNext(_, _, _, _) => EventActivation(r, s, o, was);
    case RunTask(ws, t) => TaskActivation(r, ws, t, o, was);
    case TimerPass(t) =>
      OnlyEventsActivate(r, s);
      TimerPassEffect(r, t);
    case _ =>
  }

  lemma {:induction false} RunActivation(r: Reactor, steps: seq<Step>, r': Reactor, o: nat, was: Time)
    requires Inv(r) && Run(r, steps, r') && ActiveIfAny(r.conns, o, was)
    ensures ActiveIfAny(r'.conns, o, LastActivation(r, steps, r', o, was))
    decreases |steps|
  {
    if steps != [] {
      StepActivation(r, steps[0], o, was);
      StepInv(r, steps[0]);
      RunActivation(Next(r, steps[0]), steps[1..], r', o, Activation(r, steps[0], o, was));
    }
  }

  /** Over whole runs: the timer pass at `t` kills a healthy connection exactly if `t` is later than its
      last adoption, read or write activation plus 60 s, those of the same poll included. */
  lemma IdleTimeoutOverRuns(pool: bool, steps: seq<Step>, r: Reactor, t: Time, id: nat)
    requires Run(Init(pool), steps, r) && Enabled(r, TimerPass(t)) && id in r.conns && Healthy(r.conns[id])
    ensures id in Next(r, TimerPass(t)).conns
    ensures !Live(Next(r, TimerPass(t)).conns[id])
            <==> LastActivation(Init(pool), steps, r, id, Time(0, 0)).Deadline().Before(t)
  {
    InitInv(pool);
    RunActivation(Init(pool), steps, r, id, Time(0, 0));
    IdleTimeoutExact(r, t, id);
  }
}
