/** The life cycle of one connection: its state, the epoll mask, its idle timer and the deferred
    remove task, through every handler. */
module ConnLife {
  import opened HttpSpec
  import opened Timers
  import opened ConnSpec
  import opened ConnFacts

  predicate Live(c: Conn) { c.link.state != Dead }

  /** Live, and no closing response has met a fatal write. */
  predicate Healthy(c: Conn) { Live(c) && !c.link.closeFailed }

  /** In epoll exactly while live; EPOLLIN as long as the peer may send; EPOLLOUT exactly while there is
      something to write. The last needs that no closing response met a fatal write. */
  ghost predicate LinkInv(c: Conn) {
    && (c.link.inEpoll <==> Live(c))
    && (c.link.state == Connected ==> !c.link.closeFailed && c.link.readOn)
    && (Healthy(c) ==> (c.link.writeOn <==> c.pipe.output != []))
  }

  /** The connection's current timer is registered. */
  ghost predicate Armed(c: Conn, q: TimerTable) {
    c.link.timerId in q.entries && q.entries[c.link.timerId].owner == c.id
  }

  /** A connection owns at most one timer, its current one, due 60 s after its last activation; a
      healthy connection owns one, a dead one none. */
  ghost predicate TimerInv(c: Conn, q: TimerTable) {
    && (forall i :: i in q.entries ==> (q.entries[i].owner == c.id <==> i == c.link.timerId))
    && c.link.timerId <= q.lastId
    && (Armed(c, q) ==> Live(c) && q.entries[c.link.timerId].deadline == c.link.activeAt.Deadline())
    && (Healthy(c) ==> Armed(c, q))
  }

  ghost predicate LifeInv(c: Conn, q: TimerTable) { LinkInv(c) && TimerInv(c, q) }

  /** Tasks only get remove requests for this connection, at least one if it died. */
  ghost predicate Enqueues(w: World, v: World) {
    && w.tasks <= v.tasks
    && (forall k :: |w.tasks| <= k < |v.tasks| ==> v.tasks[k] == Remove(w.conn.id))
    && (Live(w.conn) && !Live(v.conn) ==> |w.tasks| < |v.tasks|)
  }

  /** A part of a handler that adds no timer: the current one is deleted if the connection dies, and
      otherwise only under a failed closing response. */
  ghost predicate Proceeds(w: World, v: World) {
    && v.conn.id == w.conn.id
    && v.conn.link.timerId == w.conn.link.timerId && v.conn.link.activeAt == w.conn.link.activeAt
    && (v.timers == w.timers || v.timers == Delete(w.timers, w.conn.link.timerId))
    && (Live(w.conn) && !Live(v.conn) ==> v.timers == Delete(w.timers, w.conn.link.timerId))
    && (!Live(w.conn) ==> !Live(v.conn))
    && (Healthy(v.conn) ==> Healthy(w.conn) && v.timers == w.timers && v.tasks == w.tasks)
    && Enqueues(w, v)
  }

  lemma ProceedsTrans(w: World, u: World, v: World)
    requires Proceeds(w, u) && Proceeds(u, v)
    ensures Proceeds(w, v)
  {
  }

  lemma ProceedsKeepsTimer(w: World, v: World)
    requires TimerInv(w.conn, w.timers) && Proceeds(w, v)
    ensures TimerInv(v.conn, v.timers)
  {
  }

  // ---- one response ----

  lemma SettleLife(w: World, k: Flush)
    requires Live(w.conn) && w.conn.link.inEpoll && (k.AllSent? <==> w.conn.pipe.output == [])
    requires k.Waiting? ==> w.conn.link.writeOn || w.conn.link.closeFailed
    requires w.conn.link.state == Connected ==> !w.conn.link.closeFailed && w.conn.link.readOn
    ensures var v := Settle(w, k);
            && Proceeds(w, v) && LinkInv(v.conn) && v.conn.pipe == w.conn.pipe
            && v.conn.link.closeFailed == w.conn.link.closeFailed
  {
  }

  lemma AppendLife(w: World, r: Reply)
    requires LinkInv(w.conn) && Live(w.conn)
    ensures var a := Append(w, r);
            Proceeds(w, a) && a.conn.link == w.conn.link && a.conn.pipe.output != []
  {
    TextNonEmpty(r);
  }

  /** From a live connection, a response and the check after it lead to a live connection with its
      timer and a true mask, to a dead one without timer, or to a failed closing response. */
  lemma SendAndCheckLife(w: World, r: Reply)
    requires LinkInv(w.conn) && Live(w.conn)
    ensures Proceeds(w, SendAndCheck(w, r)) && LinkInv(SendAndCheck(w, r).conn)
  {
    var a := Append(w, r);
    AppendLife(w, r);
    var p, script, k := TrySendShape(a);
    var x := SetPipe(a, p).(writeScript := script);
    SettleLife(x, k);
    var u := Settle(x, k);
    ProceedsTrans(w, a, u);
    if r.KeepAlive() {
      CheckLife(u);
      ProceedsTrans(w, u, CheckEmpty(u));
    } else {
      ClosingLife(x, k, r);
    }
  }

  lemma CheckLife(w: World)
    requires LinkInv(w.conn)
    ensures Proceeds(w, CheckEmpty(w)) && LinkInv(CheckEmpty(w).conn)
  {
  }

  lemma ClosingLife(w: World, k: Flush, r: Reply)
    requires Live(w.conn) && w.conn.link.inEpoll && (k.AllSent? <==> w.conn.pipe.output == []) && !k.Waiting?
    requires w.conn.link.state == Connected ==> !w.conn.link.closeFailed
    requires !r.KeepAlive()
    ensures var v := CheckEmpty(FinishSend(Settle(w, k), r)); Proceeds(w, v) && LinkInv(v.conn)
  {
    match k
    case AllSent => ClosingDrained(w, r);
    case SomeLeft => ClosingBlocked(w, r);
    case Broken => ClosingBroken(w, r);
  }

  /** The closing response went out: the connection ends as soon as no worker is out. The handler may
      pass through Dead twice, and then queues two remove requests. */
  lemma ClosingDrained(w: World, r: Reply)
    requires Live(w.conn) && w.conn.pipe.output == [] && !r.KeepAlive()
    ensures var v := CheckEmpty(FinishSend(Drained(w), r));
            && Proceeds(w, v) && LinkInv(v.conn)
            && (Live(v.conn) <==> w.conn.link.working != 0)
            && v.conn.link.closeFailed == w.conn.link.closeFailed
  {
  }

  lemma ClosingBlocked(w: World, r: Reply)
    requires Live(w.conn) && w.conn.pipe.output != [] && !r.KeepAlive()
    ensures var v := CheckEmpty(FinishSend(EnableWriting(w), r));
            && Proceeds(w, v) && LinkInv(v.conn) && Live(v.conn)
            && v.conn.link.closeFailed == w.conn.link.closeFailed
  {
  }

  /** The write failed: the connection has been torn down and is then revived, in epoll, without a
      timer, with its remove request queued. */
  lemma ClosingBroken(w: World, r: Reply)
    requires Live(w.conn) && w.conn.pipe.output != [] && !r.KeepAlive()
    ensures var v := CheckEmpty(FinishSend(HandleDead(w, Fatal), r));
            && Proceeds(w, v) && LinkInv(v.conn) && v.conn.link.closeFailed
            && v.conn.link.state == PeerClose && v.timers == Delete(w.timers, w.conn.link.timerId)
            && v.tasks == w.tasks + [Remove(w.conn.id)]
  {
  }

  /** State and timer agree. */
  ghost predicate Agree(w: World) { Live(w.conn) <==> Armed(w.conn, w.timers) }

  /** A closing response breaks the agreement of state and timer exactly when the kernel's first
      answer to it, interruptions aside, is a fatal error. */
  lemma ClosingBreaksExactlyOnFatalWrite(w: World, r: Reply)
    requires LifeInv(w.conn, w.timers) && Healthy(w.conn) && !r.KeepAlive()
    ensures Agree(SendAndCheck(w, r)) <==> !FatalWrite(w.writeScript)
    ensures FatalWrite(w.writeScript) ==>
      var v := SendAndCheck(w, r);
      && v.conn.link.state == PeerClose && v.conn.link.inEpoll && !Armed(v.conn, v.timers)
      && v.tasks == w.tasks + [Remove(w.conn.id)]
  {
    var a := Append(w, r);
    AppendLife(w, r);
    var p, script, k := TrySendShape(a);
    var x := SetPipe(a, p).(writeScript := script);
    match k
    case AllSent => ClosingDrained(x, r);
    case SomeLeft => ClosingBlocked(x, r);
    case Broken => ClosingBroken(x, r);
  }

  // ---- the handlers ----

  lemma RefuseLife(w: World)
    requires LinkInv(w.conn) && Live(w.conn)
    ensures Proceeds(w, RefuseInput(w)) && LinkInv(RefuseInput(w).conn)
  {
  }

  lemma RejectLife(w: World)
    requires LinkInv(w.conn) && Live(w.conn)
    ensures Proceeds(w, RejectInput(w)) && LinkInv(RejectInput(w).conn)
  {
    SendAndCheckLife(w, BadRequest);
    RejectIsSendAndCheck(w);
  }

  lemma ServeLife(w: World, req: Request)
    requires LinkInv(w.conn) && Live(w.conn)
    ensures Proceeds(w, Serve(w, req)) && LinkInv(Serve(w, req).conn)
  {
    if !w.conn.pool {
      SendAndCheckLife(w, Ok(req));
    }
  }

  lemma {:induction false} HttpLoopLife(w: World)
    requires LinkInv(w.conn)
    ensures Proceeds(w, HttpLoop(w)) && LinkInv(HttpLoop(w).conn)
    decreases |w.conn.intake.input|
  {
    if Live(w.conn) {
      var i := w.conn.intake;
      var r := ParseStep(i.parser, i.input);
      var u := SetIntake(w, Parsed(i));
      match r.result
      case NeedMore =>
      case LineTooLong => RefuseLife(u);
      case Error => RejectLife(u);
      case Complete =>
        var v := Serve(u, r.parser.current);
        ServeLife(u, r.parser.current);
        HttpLoopLife(v);
        ProceedsTrans(w, v, HttpLoop(v));
    }
  }

  lemma {:induction false} ReadLoopLife(w: World)
    requires LinkInv(w.conn) && Live(w.conn)
    ensures Proceeds(w, ReadLoop(w)) && LinkInv(ReadLoop(w).conn)
    decreases |w.readScript|
  {
    if w.readScript != [] {
      var u := w.(readScript := w.readScript[1..]);
      match w.readScript[0]
      case Got(data) =>
        if data != [] {
          var i := u.conn.intake;
          var x := SetIntake(u, i.(input := i.input + data, received := i.received + data));
          ReadLoopLife(x);
          ProceedsTrans(w, x, ReadLoop(x));
        }
      case ReadInterrupted =>
        ReadLoopLife(u);
        ProceedsTrans(w, u, ReadLoop(u));
      case _ =>
    }
  }

  lemma OnHttpLife(w: World)
    requires LinkInv(w.conn) && Live(w.conn)
    ensures Proceeds(w, OnHttp(w)) && LinkInv(OnHttp(w).conn)
  {
    var v := ReadLoop(w);
    ReadLoopLife(w);
    if v.conn.intake.input == [] {
      CheckLife(v);
      ProceedsTrans(w, v, CheckEmpty(v));
    } else {
      HttpLoopLife(v);
      ProceedsTrans(w, v, HttpLoop(v));
    }
  }

  lemma WriteLoopLife(w: World)
    requires LinkInv(w.conn) && Live(w.conn) && w.conn.pipe.output != []
    ensures Proceeds(w, WriteLoop(w)) && LinkInv(WriteLoop(w).conn)
  {
    var p, script, k := WriteLoopShape(w);
    var x := SetPipe(w, p).(writeScript := script);
    SettleLife(x, k);
    ProceedsTrans(w, x, Settle(x, k));
  }

  // ---- whole handlers, as the other connections of the loop see them ----

  /** The timers of all the other connections. */
  ghost function Others(q: TimerTable, id: nat): map<int, Timer> {
    map i | i in q.entries && q.entries[i].owner != id :: q.entries[i]
  }

  /** What a handler may do to the timer table: leave the timers of others alone, keep ids in the
      order of deadlines and the timerfd programmed, and use only new ids. */
  ghost predicate TimersStep(w: World, v: World, clock: Time, now: Time) {
    && v.conn.id == w.conn.id
    && Others(v.timers, w.conn.id) == Others(w.timers, w.conn.id)
    && w.timers.lastId <= v.timers.lastId
    && (v.conn.link.timerId == w.conn.link.timerId || w.timers.lastId < v.conn.link.timerId)
    && (Ordered(w.timers, clock) ==> Ordered(v.timers, now))
    && (Programmed(w.timers) ==> Programmed(v.timers))
  }

  ghost predicate HandlerStep(w: World, v: World, clock: Time, now: Time) {
    && TimersStep(w, v, clock, now) && Enqueues(w, v) && LifeInv(v.conn, v.timers)
    && (!Live(w.conn) ==> !Live(v.conn))
    && (Healthy(v.conn) ==> Healthy(w.conn) && v.tasks == w.tasks)
  }

  lemma ProceedsIsHandlerStep(w: World, v: World, clock: Time, now: Time)
    requires TimerInv(w.conn, w.timers) && Proceeds(w, v) && LinkInv(v.conn) && !now.Before(clock)
    ensures HandlerStep(w, v, clock, now)
  {
    ProceedsKeepsTimer(w, v);
    if Ordered(w.timers, clock) {
      RemovalKeepsOrder(w.timers, clock, w.conn.link.timerId, now);
    }
  }

  lemma RefreshTable(q: TimerTable, clock: Time, now: Time, id: int, owner: nat)
    requires !now.Before(clock) && forall i :: i in q.entries ==> i <= q.lastId
    ensures var q' := Add(Delete(q, id), now, owner);
            && (Ordered(q, clock) ==> Ordered(q', now)) && Programmed(q') && q'.lastId == q.lastId + 1
            && (forall i :: i in q'.entries ==> i <= q'.lastId)
  {
    if Ordered(q, clock) {
      RemovalKeepsOrder(q, clock, id, clock);
      AddKeepsOrder(Delete(q, id), clock, now, owner);
    }
  }

  lemma RefreshOthers(q: TimerTable, now: Time, id: int, owner: nat)
    requires forall i :: i in q.entries ==> i <= q.lastId && (q.entries[i].owner == owner <==> i == id)
    ensures Others(Add(Delete(q, id), now, owner), owner) == Others(q, owner)
  {
    var d := Delete(q, id);
    assert Others(d, owner) == Others(q, owner);
    assert Others(Add(d, now, owner), owner) == Others(d, owner);
  }

  lemma RefreshStep(w: World, clock: Time, now: Time)
    requires LifeInv(w.conn, w.timers) && Live(w.conn) && !now.Before(clock)
    requires forall i :: i in w.timers.entries ==> i <= w.timers.lastId
    ensures HandlerStep(w, RefreshTimer(w, now), clock, now) && RefreshTimer(w, now).tasks == w.tasks
    ensures forall i :: i in RefreshTimer(w, now).timers.entries ==> i <= RefreshTimer(w, now).timers.lastId
  {
    RefreshTable(w.timers, clock, now, w.conn.link.timerId, w.conn.id);
    RefreshOthers(w.timers, now, w.conn.link.timerId, w.conn.id);
  }

  lemma HandlerStepTrans(w: World, u: World, v: World, c0: Time, c1: Time, c2: Time)
    requires HandlerStep(w, u, c0, c1) && HandlerStep(u, v, c1, c2)
    ensures HandlerStep(w, v, c0, c2)
  {
  }

  lemma ReadCallbackStep(w: World, clock: Time, now: Time)
    requires LifeInv(w.conn, w.timers) && Live(w.conn) && Ordered(w.timers, clock) && !now.Before(clock)
    ensures HandlerStep(w, ReadCallback(w, now), clock, now)
    ensures Live(ReadCallback(w, now).conn) ==> ReadCallback(w, now).conn.link.activeAt == now
  {
    var u := RefreshTimer(w, now);
    RefreshStep(w, clock, now);
    OnHttpLife(u);
    ProceedsIsHandlerStep(u, OnHttp(u), now, now);
    HandlerStepTrans(w, u, OnHttp(u), clock, now, now);
  }

  lemma WriteCallbackStep(w: World, clock: Time, now: Time)
    requires LifeInv(w.conn, w.timers) && Ordered(w.timers, clock) && !now.Before(clock)
    ensures HandlerStep(w, WriteCallback(w, now), clock, now)
    ensures Live(WriteCallback(w, now).conn) ==> WriteCallback(w, now).conn.link.activeAt == now
  {
    if Live(w.conn) {
      var u := RefreshTimer(w, now);
      var v := WriteCallback(w, now);
      RefreshStep(w, clock, now);
      if u.conn.pipe.output != [] {
        WriteLoopLife(u);
      }
      ProceedsIsHandlerStep(u, v, now, now);
      HandlerStepTrans(w, u, v, clock, now, now);
    } else {
      ProceedsIsHandlerStep(w, w, clock, now);
    }
  }

  /** One `Channel::handle`. */
  lemma HandleStep(w: World, canRead: bool, canWrite: bool, clock: Time, t1: Time, t2: Time)
    requires LifeInv(w.conn, w.timers) && Live(w.conn) && Ordered(w.timers, clock) && !t1.Before(clock) && !t2.Before(t1)
    ensures HandlerStep(w, Handle(w, canRead, canWrite, t1, t2), clock, t2)
    ensures (canRead || canWrite) && Live(Handle(w, canRead, canWrite, t1, t2).conn) ==>
      Handle(w, canRead, canWrite, t1, t2).conn.link.activeAt == if canWrite then t2 else t1
  {
    var u := if canRead then ReadCallback(w, t1) else w;
    if canRead {
      ReadCallbackStep(w, clock, t1);
    } else {
      ProceedsIsHandlerStep(w, w, clock, t1);
    }
    if canWrite {
      WriteCallbackStep(u, t1, t2);
      HandlerStepTrans(w, u, WriteCallback(u, t2), clock, t1, t2);
    } else {
      ProceedsIsHandlerStep(u, u, t1, t2);
      HandlerStepTrans(w, u, u, clock, t1, t2);
    }
  }

  lemma RunAnswerStep(w: World, req: Request, clock: Time)
    requires LifeInv(w.conn, w.timers)
    ensures HandlerStep(w, RunAnswer(w, req), clock, clock)
    ensures RunAnswer(w, req).conn.link.activeAt == w.conn.link.activeAt
    ensures RunAnswer(w, req).conn.id == w.conn.id
  {
    var u := TakeAnswer(w, req);
    if Live(w.conn) {
      SendAndCheckLife(u, Ok(req));
      ProceedsTrans(w, u, SendAndCheck(u, Ok(req)));
    }
    ProceedsIsHandlerStep(w, RunAnswer(w, req), clock, clock);
  }

  lemma HandleDeadStep(w: World, cause: Cause, clock: Time)
    requires LifeInv(w.conn, w.timers)
    ensures HandlerStep(w, HandleDead(w, cause), clock, clock)
  {
    ProceedsIsHandlerStep(w, HandleDead(w, cause), clock, clock);
  }
}
