/** How far the life-cycle theorems depend on write errors: without fatal write results no connection
    is ever revived, and one fatal result on a closing response is enough to revive one. */
module FatalWrites {
  import opened Bytes
  import opened Socket
  import opened HttpSpec
  import opened Timers
  import opened ConnSpec
  import opened ConnFacts
  import opened ConnLife
  import opened CleanWrites
  import opened Reactor
  import opened ReactorInv
  import opened ReactorSteps
  import opened Opening

  // ---- no fatal write, no revival ----

  predicate CleanStep(s: Step) {
    match s
    case HandleNext(_, ws, _, _) => Clean(ws)
    case RunTask(ws, _) => Clean(ws)
    case _ => true
  }

  ghost predicate NoneFailed(conns: map<nat, Conn>) {
    forall id :: id in conns ==> !conns[id].link.closeFailed
  }

  lemma PutSpared(r: Reactor, w: World, v: World)
    requires NoneFailed(r.conns) && w.conn.id in r.conns && w.conn == r.conns[w.conn.id]
    requires Clean(w.writeScript) && Spared(w, v)
    ensures NoneFailed(Put(r, v).conns)
  {
  }

  lemma TimersSpare(r: Reactor, t: Time)
    requires Inv(r) && Enabled(r, TimerPass(t)) && NoneFailed(r.conns)
    ensures NoneFailed(Next(r, TimerPass(t)).conns)
  {
    TimerPassEffect(r, t);
    KillSpares(r.conns, OwnersOf(r.timers.entries, Scan(r.timers.entries, r.timers.entries.Keys, t)));
  }

  lemma KillSpares(conns: map<nat, Conn>, owners: set<nat>)
    requires NoneFailed(conns)
    ensures NoneFailed(Kill(conns, owners))
  {
  }

  lemma TaskSpares(r: Reactor, task: Task, ws: seq<WriteOutcome>)
    requires ConnsOk(r) && NoneFailed(r.conns) && Clean(ws)
    ensures NoneFailed(RunOne(r, task, ws).conns)
  {
    if task.Answer? && task.id in r.conns {
      var w := WorldOf(r, task.id, [], ws);
      RunAnswerSpared(w, task.req);
      PutSpared(r, w, RunAnswer(w, task.req));
    }
  }

  lemma StepSpares(r: Reactor, s: Step)
    requires Inv(r) && Enabled(r, s) && NoneFailed(r.conns) && CleanStep(s)
    ensures NoneFailed(Next(r, s).conns)
  {
    match s
    case HandleNext(rs, ws, t1, t2) =>
      var e := r.pending[0];
      assert Reportable(r, e);
      var w := WorldOf(r, e.id, rs, ws);
      HandleSpared(w, e.canRead, e.canWrite, t1, t2);
      PutSpared(r, w, Handle(w, e.canRead, e.canWrite, t1, t2));
    case TimerPass(t) => TimersSpare(r, t);
    case RunTask(ws, t) => TaskSpares(r.(batch := r.batch[1..], clock := t), r.batch[0], ws);
    case _ =>
  }

  lemma {:induction false} CleanRunSpares(r: Reactor, steps: seq<Step>, r': Reactor)
    requires Inv(r) && Run(r, steps, r') && NoneFailed(r.conns)
    requires forall k :: 0 <= k < |steps| ==> CleanStep(steps[k])
    ensures Inv(r') && NoneFailed(r'.conns)
    decreases |steps|
  {
    if steps != [] {
      StepSpares(r, steps[0]);
      StepInv(r, steps[0]);
      CleanRunSpares(Next(r, steps[0]), steps[1..], r');
    }
  }

  /** On every run without a fatal write result: live, in epoll and armed are one, and EPOLLOUT is
      watched exactly by the live connections with something to write. */
  lemma LifeCycleWithoutFatalWrites(pool: bool, steps: seq<Step>, r: Reactor, id: nat)
    requires Run(Init(pool), steps, r) && id in r.conns
    requires forall k :: 0 <= k < |steps| ==> CleanStep(steps[k])
    ensures var c := r.conns[id];
            && (Live(c) <==> c.link.inEpoll) && (Live(c) <==> Armed(c, r.timers))
            && (Live(c) ==> id in r.table && (c.link.writeOn <==> c.pipe.output != []))
  {
    InitInv(pool);
    CleanRunSpares(Init(pool), steps, r);
    assert LifeInv(r.conns[id], r.timers);
  }

  // ---- one fatal write on a closing response ----

  const BAD_INPUT: bytes := CRLF

  /** An empty request line is rejected. */
  lemma EmptyLineIsRejected()
    ensures ParseStep(FRESH, BAD_INPUT) == ParseOut(Error, FRESH, [])
  {
    ParseLine(FRESH, BAD_INPUT);
    assert CrlfAt(BAD_INPUT, 0);
  }

  lemma RevivedByRejection(w: World)
    requires w.conn.intake == Intake(FRESH, [], [], [], Open) && w.readScript == [Got(BAD_INPUT)]
    requires w.writeScript == [WriteFailed] && LifeInv(w.conn, w.timers) && w.conn.link.state == Connected
    ensures var v := OnHttp(w);
            && Live(v.conn) && v.conn.link.inEpoll && !Armed(v.conn, v.timers)
            && v.tasks == w.tasks + [Remove(w.conn.id)] && v.conn.id == w.conn.id
  {
    EmptyLineIsRejected();
    var x := w.(readScript := [], conn := w.conn.(intake := Intake(FRESH, BAD_INPUT, BAD_INPUT, [], Open)));
    ReadOneChunk(w, x);
    assert HttpLoop(x) == RejectInput(SetIntake(x, Parsed(x.conn.intake)));
    RevivedBy400(SetIntake(x, Parsed(x.conn.intake)));
  }

  lemma RevivedBy400(u: World)
    requires u.writeScript == [WriteFailed] && LifeInv(u.conn, u.timers) && u.conn.link.state == Connected
    ensures var v := RejectInput(u);
            && Live(v.conn) && v.conn.link.inEpoll && !Armed(v.conn, v.timers)
            && v.tasks == u.tasks + [Remove(u.conn.id)] && v.conn.id == u.conn.id
  {
    ClosingBreaksExactlyOnFatalWrite(u, BadRequest);
    SendAndCheckLife(u, BadRequest);
    RejectIsSendAndCheck(u);
  }

  lemma ReadOneChunk(w: World, x: World)
    requires w.conn.intake == Intake(FRESH, [], [], [], Open) && w.readScript == [Got(BAD_INPUT)]
    requires x == w.(readScript := [], conn := w.conn.(intake := Intake(FRESH, BAD_INPUT, BAD_INPUT, [], Open)))
    ensures ReadLoop(w) == x
  {
    assert BAD_INPUT != [] && [] + BAD_INPUT == BAD_INPUT;
    assert w.readScript[1..] == [];
    assert ReadLoop(x) == x;
  }

  /** One connection comes in, sends an empty line, and the 400 meets a broken pipe. */
  const STORY: seq<Step> := OPENING + [HandleNext([Got(BAD_INPUT)], [WriteFailed], T0, T0)]

  /** After this run a connection is out of Dead and in epoll, has no timer, and its remove request is
      queued: the life cycle agrees only as long as no closing response meets a fatal write. */
  lemma RevivedInARun() returns (r: Reactor)
    ensures Run(Init(false), STORY, r) && 0 in r.conns
    ensures Live(r.conns[0]) && r.conns[0].link.inEpoll && !Armed(r.conns[0], r.timers) && Remove(0) in Queue(r)
  {
    var o := Opened();
    var last := HandleNext([Got(BAD_INPUT)], [WriteFailed], T0, T0);
    OpeningRuns();
    RunOn(Init(false), OPENING, o, last);
    r := Next(o, last);
    InitInv(false);
    RunInv(Init(false), OPENING, o);
    RevivedByEvent(WorldOf(o, 0, [Got(BAD_INPUT)], [WriteFailed]));
  }

  lemma RevivedByEvent(w: World)
    requires w.conn.intake == Intake(FRESH, [], [], [], Open) && w.readScript == [Got(BAD_INPUT)]
    requires w.writeScript == [WriteFailed] && LifeInv(w.conn, w.timers) && w.conn.link.state == Connected
    requires Ordered(w.timers, T0)
    ensures var v := Handle(w, true, false, T0, T0);
            && Live(v.conn) && v.conn.link.inEpoll && !Armed(v.conn, v.timers)
            && v.tasks == w.tasks + [Remove(w.conn.id)] && v.conn.id == w.conn.id
  {
    RefreshStep(w, T0, T0);
    RevivedByRejection(RefreshTimer(w, T0));
  }
}
