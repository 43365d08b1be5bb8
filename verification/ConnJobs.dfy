/** Requests handed to the thread pool: what a connection counts as in flight is what it put on the
    pool's queue. */
module ConnJobs {
  import opened Algebra
  import opened HttpSpec
  import opened Timers
  import opened ConnSpec
  import opened ConnFacts
  import opened ConnOutput

  function JobOf(j: Job, id: nat): multiset<Request> { if j.id == id then multiset{j.req} else multiset{} }

  function AnswerOf(t: Task, id: nat): multiset<Request> {
    if t.Answer? && t.id == id then multiset{t.req} else multiset{}
  }

  /** The requests of connection `id` on the pool's queue. */
  ghost function JobsOf(jobs: seq<Job>, id: nat): multiset<Request> {
    if jobs == [] then multiset{} else JobsOf(jobs[..|jobs| - 1], id) + JobOf(jobs[|jobs| - 1], id)
  }

  /** The requests of connection `id` whose worker is done and whose answer is queued on the loop. */
  ghost function AnswersOf(tasks: seq<Task>, id: nat): multiset<Request> {
    if tasks == [] then multiset{} else AnswersOf(tasks[..|tasks| - 1], id) + AnswerOf(tasks[|tasks| - 1], id)
  }

  lemma JobsLast(jobs: seq<Job>, j: Job, o: nat)
    ensures JobsOf(jobs + [j], o) == JobsOf(jobs, o) + JobOf(j, o)
  {
    assert (jobs + [j])[..|jobs|] == jobs;
  }

  lemma {:induction false} JobsConcat(a: seq<Job>, b: seq<Job>, o: nat)
    ensures JobsOf(a + b, o) == JobsOf(a, o) + JobsOf(b, o)
    decreases |b|
  {
    if b == [] {
      assert a + b == a;
      AddNothing(JobsOf(a, o));
    } else {
      var b0, j := b[..|b| - 1], b[|b| - 1];
      Unsnoc(b);
      JobsConcat(a, b0, o);
      JobsMore(a, b0, j, o);
      SnocAssoc(a, b0, j);
    }
  }

  lemma JobsMore(a: seq<Job>, b: seq<Job>, j: Job, o: nat)
    requires JobsOf(a + b, o) == JobsOf(a, o) + JobsOf(b, o)
    ensures JobsOf(a + b + [j], o) == JobsOf(a, o) + JobsOf(b + [j], o)
  {
    JobsLast(a + b, j, o);
    JobsLast(b, j, o);
    BagAssoc(JobsOf(a, o), JobsOf(b, o), JobOf(j, o));
  }

  lemma AnswersLast(tasks: seq<Task>, t: Task, o: nat)
    ensures AnswersOf(tasks + [t], o) == AnswersOf(tasks, o) + AnswerOf(t, o)
  {
    assert (tasks + [t])[..|tasks|] == tasks;
  }

  lemma {:induction false} AnswersConcat(a: seq<Task>, b: seq<Task>, o: nat)
    ensures AnswersOf(a + b, o) == AnswersOf(a, o) + AnswersOf(b, o)
    decreases |b|
  {
    if b == [] {
      assert a + b == a;
      AddNothing(AnswersOf(a, o));
    } else {
      var b0, t := b[..|b| - 1], b[|b| - 1];
      Unsnoc(b);
      AnswersConcat(a, b0, o);
      AnswersMore(a, b0, t, o);
      SnocAssoc(a, b0, t);
    }
  }

  lemma AnswersMore(a: seq<Task>, b: seq<Task>, t: Task, o: nat)
    requires AnswersOf(a + b, o) == AnswersOf(a, o) + AnswersOf(b, o)
    ensures AnswersOf(a + b + [t], o) == AnswersOf(a, o) + AnswersOf(b + [t], o)
  {
    AnswersLast(a + b, t, o);
    AnswersLast(b, t, o);
    BagAssoc(AnswersOf(a, o), AnswersOf(b, o), AnswerOf(t, o));
  }

  ghost predicate JobsStep(w: World, v: World) {
    && v.conn.id == w.conn.id && v.conn.pool == w.conn.pool
    && JobsOf(v.jobs, w.conn.id) + w.conn.book.inflight == JobsOf(w.jobs, w.conn.id) + v.conn.book.inflight
    && forall o :: o != w.conn.id ==> JobsOf(v.jobs, o) == JobsOf(w.jobs, o)
  }

  lemma JobsStepTrans(w: World, u: World, v: World)
    requires JobsStep(w, u) && JobsStep(u, v)
    ensures JobsStep(w, v)
  {
    ChainSums(JobsOf(w.jobs, w.conn.id), w.conn.book.inflight, JobsOf(u.jobs, w.conn.id),
                  u.conn.book.inflight, JobsOf(v.jobs, w.conn.id), v.conn.book.inflight);
  }

  lemma ServeJobs(w: World, req: Request)
    requires w.conn.link.state != Dead
    ensures JobsStep(w, Serve(w, req))
  {
    if w.conn.pool {
      forall o ensures JobsOf(w.jobs + [Job(w.conn.id, req)], o) == JobsOf(w.jobs, o) + JobOf(Job(w.conn.id, req), o) {
        JobsLast(w.jobs, Job(w.conn.id, req), o);
      }
    } else {
      SendAndCheckSendsReply(w, Ok(req));
    }
  }

  lemma {:induction false} HttpLoopJobs(w: World)
    ensures JobsStep(w, HttpLoop(w))
    decreases |w.conn.intake.input|
  {
    if w.conn.link.state != Dead {
      var i := w.conn.intake;
      var r := ParseStep(i.parser, i.input);
      var u := SetIntake(w, Parsed(i));
      match r.result
      case NeedMore =>
      case LineTooLong =>
      case Error =>
        SendAndCheckSendsReply(u, BadRequest);
        RejectIsSendAndCheck(u);
      case Complete =>
        var v := Serve(u, r.parser.current);
        ServeJobs(u, r.parser.current);
        HttpLoopJobs(v);
        JobsStepTrans(w, v, HttpLoop(v));
    }
  }

  lemma OnHttpJobs(w: World)
    requires w.conn.link.state != Dead
    ensures JobsStep(w, OnHttp(w))
  {
    var v := ReadLoop(w);
    ReadLoopReceives(w);
    if v.conn.intake.input != [] {
      HttpLoopJobs(v);
      JobsStepTrans(w, v, HttpLoop(v));
    }
  }

  lemma WriteCallbackJobs(w: World, now: Time)
    ensures JobsStep(w, WriteCallback(w, now))
  {
    var u := RefreshTimer(w, now);
    if w.conn.link.state != Dead && u.conn.pipe.output != [] {
      var p, script, k := WriteLoopShape(u);
      SettleFacts(SetPipe(u, p).(writeScript := script), k);
    }
  }

  lemma HandleJobs(w: World, canRead: bool, canWrite: bool, t1: Time, t2: Time)
    requires w.conn.link.state != Dead
    ensures JobsStep(w, Handle(w, canRead, canWrite, t1, t2))
  {
    var u := if canRead then ReadCallback(w, t1) else w;
    if canRead {
      OnHttpJobs(RefreshTimer(w, t1));
    }
    if canWrite {
      WriteCallbackJobs(u, t2);
      JobsStepTrans(w, u, WriteCallback(u, t2));
    }
  }
}
