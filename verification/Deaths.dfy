/** Why connections end, over every run: if no system call on it fails and it is never left idle, a
    connection stops being connected exactly when it has a reason to, and dies owing nothing. */
module Deaths {
  import opened Socket
  import opened HttpSpec
  import opened Timers
  import opened ConnSpec
  import opened ConnFacts
  import opened ConnOutput
  import opened ConnLife
  import opened ConnJobs
  import opened CleanWrites
  import opened ConnLaws
  import opened ReadLaws
  import opened Reasons
  import opened Announce
  import opened Reactor
  import opened ReactorInv
  import opened ReactorSteps
  import opened ReactorTheorems
  import opened IdleTimeout

  /** Step `s` brings connection `o` no failed system call, and no timer of `o` has expired in it. */
  ghost predicate Undisturbed(r: Reactor, s: Step, o: nat)
    requires Enabled(r, s)
  {
    match s
    case HandleNext(rs, ws, _, _) => r.pending[0].id == o ==> CleanReads(rs) && Clean(ws)
    case RunTask(ws, _) => r.batch[0].Answer? && r.batch[0].id == o ==> Clean(ws)
    case TimerPass(t) =>
      forall i :: i in r.timers.entries && r.timers.entries[i].owner == o ==> !r.timers.entries[i].deadline.Before(t)
    case _ => true
  }

  ghost predicate UndisturbedRun(r: Reactor, steps: seq<Step>, r': Reactor, o: nat)
    requires Run(r, steps, r')
    decreases |steps|
  {
    steps == []
    || (Undisturbed(r, steps[0], o) && UndisturbedRun(Next(r, steps[0]), steps[1..], r', o))
  }

  /** Whether step `s` delivers the end of file to connection `o`. */
  predicate BringsEof(r: Reactor, s: Step, o: nat) {
    s.HandleNext? && r.pending != [] && r.pending[0].id == o && r.pending[0].canRead && LastAnswer(s.readScript).Got?
  }

  ghost predicate SawEof(r: Reactor, steps: seq<Step>, r': Reactor, o: nat)
    requires Run(r, steps, r')
    decreases |steps|
  {
    steps != [] && (BringsEof(r, steps[0], o) || SawEof(Next(r, steps[0]), steps[1..], r', o))
  }

  ghost predicate ReasonedIn(conns: map<nat, Conn>, o: nat, eof: bool) {
    if o in conns then Reasoned(conns[o], eof) else !eof
  }

  // ---- one step ----

  lemma PutReasoned(r: Reactor, v: World, o: nat, eof: bool)
    requires v.conn.id == o && Reasoned(v.conn, eof)
    ensures ReasonedIn(Put(r, v).conns, o, eof)
  {
  }

  lemma EventReasoned(r: Reactor, e: Ready, w: World, t1: Time, t2: Time, eof: bool)
    requires ConnsOk(r) && OwnersOk(r) && Reportable(r, e) && w == WorldOf(r, e.id, w.readScript, w.writeScript)
    requires CleanReads(w.readScript) && Clean(w.writeScript) && Reasoned(r.conns[e.id], eof)
    ensures Reasoned(Handle(w, e.canRead, e.canWrite, t1, t2).conn, eof || (e.canRead && LastAnswer(w.readScript).Got?))
  {
    assert AtRest(w.conn) && LifeInv(w.conn, w.timers);
    HandleReasoned(w, e.canRead, e.canWrite, t1, t2, eof);
  }

  lemma HandleNextReasoned(r: Reactor, rs: seq<ReadOutcome>, ws: seq<WriteOutcome>, t1: Time, t2: Time, o: nat, eof: bool)
    requires Inv(r) && Enabled(r, HandleNext(rs, ws, t1, t2)) && ReasonedIn(r.conns, o, eof)
    requires Undisturbed(r, HandleNext(rs, ws, t1, t2), o)
    ensures ReasonedIn(Next(r, HandleNext(rs, ws, t1, t2)).conns, o, eof || BringsEof(r, HandleNext(rs, ws, t1, t2), o))
  {
    var e := r.pending[0];
    assert Reportable(r, e);
    var w := WorldOf(r, e.id, rs, ws);
    if e.id == o {
      IoHandled(r, e, w, t1, t2);
      EventReasoned(r, e, w, t1, t2, eof);
      PutReasoned(r, Handle(w, e.canRead, e.canWrite, t1, t2), o, eof || (e.canRead && LastAnswer(rs).Got?));
    } else {
      ActivationIsRecorded(r, rs, ws, t1, t2);
    }
  }

  lemma KillSparesOthers(conns: map<nat, Conn>, entries: map<int, Timer>, ids: seq<int>, o: nat, eof: bool)
    requires ReasonedIn(conns, o, eof) && forall k :: 0 <= k < |ids| ==> ids[k] in entries && entries[ids[k]].owner != o
    ensures ReasonedIn(Kill(conns, OwnersOf(entries, ids)), o, eof)
  {
    assert o !in OwnersOf(entries, ids);
  }

  lemma TimerPassReasoned(r: Reactor, t: Time, o: nat, eof: bool)
    requires Inv(r) && Enabled(r, TimerPass(t)) && ReasonedIn(r.conns, o, eof) && Undisturbed(r, TimerPass(t), o)
    ensures ReasonedIn(Next(r, TimerPass(t)).conns, o, eof)
  {
    var q := r.timers;
    var ids := Scan(q.entries, q.entries.Keys, t);
    TimerPassEffect(r, t);
    ScanFindsExpired(q, r.clock, q.entries.Keys, t);
    forall k | 0 <= k < |ids| ensures ids[k] in q.entries && q.entries[ids[k]].owner != o {
      assert ids[k] in ids;
    }
    KillSparesOthers(r.conns, q.entries, ids, o, eof);
  }

  lemma NewReasoned(w: World, now: Time)
    requires w.conn == NewConn(w.conn.id, w.conn.pool)
    ensures Reasoned(StartConnect(w, now).conn, false)
  {
    assert Drain(FRESH, []) == Outcome([], Open, FRESH, []);
  }

  lemma AdoptReasoned(r: Reactor, ws: seq<WriteOutcome>, t: Time, o: nat, eof: bool)
    requires QueueOk(r) && Enabled(r, RunTask(ws, t)) && r.batch[0].Adopt? && ReasonedIn(r.conns, o, eof)
    ensures ReasonedIn(Next(r, RunTask(ws, t)).conns, o, eof)
  {
    var id := r.batch[0].id;
    AdoptIsNew(r);
    NewReasoned(World(NewConn(id, r.pool), r.timers, r.tasks, r.jobs, [], []), t);
  }

  lemma PutOfAnother(r: Reactor, v: World, o: nat, eof: bool)
    requires v.conn.id != o && ReasonedIn(r.conns, o, eof)
    ensures ReasonedIn(Put(r, v).conns, o, eof)
  {
  }

  lemma AnswerReasonedIn(r: Reactor, id: nat, req: Request, w: World, o: nat, eof: bool)
    requires ConnsOk(r) && id in r.conns && w == WorldOf(r, id, w.readScript, w.writeScript)
    requires req in r.conns[id].book.inflight && ReasonedIn(r.conns, o, eof) && (id == o ==> Clean(w.writeScript))
    ensures ReasonedIn(Put(r, RunAnswer(w, req)).conns, o, eof)
  {
    AnswerKept(w, req);
    if id == o {
      OwnAnswerReasoned(w, req, eof);
      PutReasoned(r, RunAnswer(w, req), o, eof);
    } else {
      PutOfAnother(r, RunAnswer(w, req), o, eof);
    }
  }

  lemma OwnAnswerReasoned(w: World, req: Request, eof: bool)
    requires AtRest(w.conn) && req in w.conn.book.inflight && Reasoned(w.conn, eof) && Clean(w.writeScript)
    ensures Reasoned(RunAnswer(w, req).conn, eof)
  {
    SomeoneIsOut(w.conn, req);
    RunAnswerReasoned(w, req, eof);
  }

  lemma SomeoneIsOut(c: Conn, req: Request)
    requires AtRest(c) && req in c.book.inflight
    ensures c.link.working > 0
  {
  }

  lemma TaskReasoned(r: Reactor, ws: seq<WriteOutcome>, t: Time, o: nat, eof: bool)
    requires Inv(r) && Enabled(r, RunTask(ws, t)) && ReasonedIn(r.conns, o, eof) && Undisturbed(r, RunTask(ws, t), o)
    ensures ReasonedIn(Next(r, RunTask(ws, t)).conns, o, eof)
  {
    if r.batch[0].Adopt? {
      AdoptReasoned(r, ws, t, o, eof);
    } else if r.batch[0].Answer? {
      var id, req := r.batch[0].id, r.batch[0].req;
      AnswerIsInFlight(r, id, req);
      PoppedInv(r, t);
      AnswerReasonedIn(Popped(r, t), id, req, WorldOf(Popped(r, t), id, [], ws), o, eof);
    }
  }

  lemma StepReasoned(r: Reactor, s: Step, o: nat, eof: bool)
    requires Inv(r) && Enabled(r, s) && ReasonedIn(r.conns, o, eof) && Undisturbed(r, s, o)
    ensures ReasonedIn(Next(r, s).conns, o, eof || BringsEof(r, s, o))
  {
    match s
    case HandleNext(rs, ws, t1, t2) => HandleNextReasoned(r, rs, ws, t1, t2, o, eof);
    case TimerPass(t) => TimerPassReasoned(r, t, o, eof);
    case RunTask(ws, t) => TaskReasoned(r, ws, t, o, eof);
    case _ =>
  }

  lemma {:induction false} RunReasoned(r: Reactor, steps: seq<Step>, r': Reactor, o: nat, eof: bool)
    requires Inv(r) && Run(r, steps, r') && ReasonedIn(r.conns, o, eof) && UndisturbedRun(r, steps, r', o)
    ensures ReasonedIn(r'.conns, o, eof || SawEof(r, steps, r', o)) && Inv(r')
    decreases |steps|
  {
    if steps != [] {
      StepReasoned(r, steps[0], o, eof);
      StepInv(r, steps[0]);
      RunReasoned(Next(r, steps[0]), steps[1..], r', o, eof || BringsEof(r, steps[0], o));
    }
  }

  // ---- what follows ----

  /** Over every run that is undisturbed for a connection: it is connected exactly as long as the end of
      file has not come, its input is neither rejected nor refused, and it gave no closing response; it
      is listened to exactly as long as the latter two hold; and if it is dead, every response is with
      the kernel, one for each request it completed, nothing of it is with a worker or queued, and with
      the pool on every request in the bytes it read has been completed. */
  lemma EndsForAReason(pool: bool, steps: seq<Step>, r: Reactor, o: nat)
    requires Run(Init(pool), steps, r) && o in r.conns && UndisturbedRun(Init(pool), steps, r, o)
    ensures var c := r.conns[o];
            && (c.link.state == Connected <==>
                  !SawEof(Init(pool), steps, r, o) && c.intake.end.Open? && AllKeep(c.book.replies))
            && (c.link.readOn <==> c.intake.end.Open? && AllKeep(c.book.replies))
            && c.book.dropped == multiset{}
    ensures var c := r.conns[o]; var v := Interpret(FRESH, Lines(c.intake.received));
            !Live(c) ==>
              && c.pipe.output == [] && c.pipe.sent == Render(c.book.replies)
              && multiset(Answered(c.book.replies)) == multiset(c.intake.done)
              && JobsOf(r.jobs, o) == multiset{} && AnswersOf(Queue(r), o) == multiset{}
              && (c.pool ==> c.intake.done == v.reqs && c.intake.end == v.end)
              && (!c.pool ==> c.book.replies == Replies(c.intake.done, c.intake.end))
  {
    InitInv(pool);
    RunReasoned(Init(pool), steps, r, o, false);
    var c := r.conns[o];
    assert AtRest(c);
    assert InFlight(r.conns, o) == JobsOf(r.jobs, o) + AnswersOf(Queue(r), o);
    if !Live(c) {
      NothingOwed(c);
      DrainIsInterpret(FRESH, c.intake.received);
    }
  }

  lemma NothingOwed(c: Conn)
    requires AtRest(c) && c.pipe.output == [] && c.link.working == 0 && c.book.dropped == multiset{}
    ensures c.pipe.sent == Render(c.book.replies) && c.book.inflight == multiset{}
    ensures multiset(Answered(c.book.replies)) == multiset(c.intake.done)
    ensures !c.pool ==> c.book.replies == Replies(c.intake.done, c.intake.end)
  {
    assert c.pipe.sent + [] == c.pipe.sent;
  }

  /** The same told by the texts the peer has been sent: in an undisturbed run a connection whose peer has
      not ended its stream, and whose input is not refused, is connected exactly as long as every
      response announced that it would be. */
  lemma EndsAsAnnounced(pool: bool, steps: seq<Step>, r: Reactor, o: nat)
    requires Run(Init(pool), steps, r) && o in r.conns && UndisturbedRun(Init(pool), steps, r, o)
    ensures var c := r.conns[o];
            c.link.state == Connected <==>
              && !SawEof(Init(pool), steps, r, o) && c.intake.end.Open?
              && forall k :: 0 <= k < |c.book.replies| ==> AnnouncesKeepAlive(c.book.replies[k].Text())
  {
    EndsForAReason(pool, steps, r, o);
    forall k | 0 <= k < |r.conns[o].book.replies|
      ensures AnnouncesKeepAlive(r.conns[o].book.replies[k].Text()) <==> r.conns[o].book.replies[k].KeepAlive() {
      ReplyAnnounces(r.conns[o].book.replies[k]);
    }
  }

  /** In every reachable state, failures or not: a connection that has announced `close` is not connected. */
  lemma AnnouncedCloseIsKept(r: Reactor, o: nat, k: nat)
    requires Reachable(r) && o in r.conns && k < |r.conns[o].book.replies|
    ensures AnnouncesClose(r.conns[o].book.replies[k].Text()) ==> r.conns[o].link.state != Connected
  {
    ReachableInv(r);
    ReplyAnnounces(r.conns[o].book.replies[k]);
    ConnectedKeepsAlive(r.conns[o], k);
  }

  lemma ConnectedKeepsAlive(c: Conn, k: nat)
    requires AtRest(c) && k < |c.book.replies|
    ensures c.link.state == Connected ==> c.book.replies[k].KeepAlive()
  {
    assert c.book.replies[k] in c.book.replies;
  }

  /** A failed read that the read loop reaches ends the connection, whatever else happens; so does the end
      of its being connected when the end of file comes. */
  lemma FailedReadKills(r: Reactor, rs: seq<ReadOutcome>, ws: seq<WriteOutcome>, t1: Time, t2: Time)
    requires Inv(r) && Enabled(r, HandleNext(rs, ws, t1, t2)) && r.pending[0].canRead
    ensures var id := r.pending[0].id; var after := Next(r, HandleNext(rs, ws, t1, t2)).conns;
            && id in after && (LastAnswer(rs).ReadFailed? ==> !Live(after[id]))
            && (LastAnswer(rs) == Got([]) ==> after[id].link.state != Connected)
  {
    var e := r.pending[0];
    assert Reportable(r, e);
    var w := WorldOf(r, e.id, rs, ws);
    IoHandled(r, e, w, t1, t2);
    ReadEndsIt(r, e, w, t1, t2);
  }

  lemma {:induction false} SayKeepsClosed(t: Talk, working: int, rs: seq<Reply>)
    requires t.state != Connected
    ensures SayAll(t, working, rs).state != Connected
    decreases |rs|
  {
    if rs != [] && t.state != Dead {
      SayKeepsClosed(Say(t, working, rs[0]), working, rs[1..]);
    }
  }

  lemma ReadEndsIt(r: Reactor, e: Ready, w: World, t1: Time, t2: Time)
    requires ConnsOk(r) && OwnersOk(r) && Reportable(r, e) && e.canRead && w == WorldOf(r, e.id, w.readScript, w.writeScript)
    ensures var v := Handle(w, true, e.canWrite, t1, t2);
            && (LastAnswer(w.readScript).ReadFailed? ==> !Alive(v.conn))
            && (LastAnswer(w.readScript).Got? ==> v.conn.link.state != Connected)
  {
    assert LifeInv(w.conn, w.timers);
    var u := ReadCallback(w, t1);
    ReadCallbackLaw(w, t1);
    if Alive(u.conn) {
      WriteCallbackLaw(u, t2);
    }
    var input := w.conn.intake.input + Arriving(w.readScript);
    var d := Drain(w.conn.intake.parser, input);
    if LastAnswer(w.readScript).Got? && input != [] {
      var x := SetLink(w, w.conn.link.(state := PeerClose));
      SayKeepsClosed(TalkOf(x), WorkersOut(x.conn.pool, x.conn.link.working, d), OnTheSpot(x.conn.pool, d));
    }
  }
}
