/** The read callback told from the outside: a small machine that only knows the state, the number of
    buffered bytes and the answers of the kernel says what becomes of a connection that reads and parses
    a stream, with the pool and without. */
module ReadLaws {
  import opened Algebra
  import opened Bytes
  import opened Socket
  import opened HttpSpec
  import opened Timers
  import opened ConnSpec
  import opened ConnFacts
  import opened ConnOutput
  import opened ConnLaws

  // ---- the machine ----

  datatype Talk = Talk(state: ConnState, left: nat, script: seq<WriteOutcome>)

  function Say(t: Talk, working: int, r: Reply): Talk {
    var f := FlushReply(t.left, t.script, r);
    Talk(AfterAnswer(t.state, working, r.KeepAlive(), f.k), f.left, f.script)
  }

  /** Replies are given one by one, as long as the connection lives. */
  function SayAll(t: Talk, working: int, rs: seq<Reply>): Talk
    decreases |rs|
  {
    if rs == [] || t.state == Dead then t else SayAll(Say(t, working, rs[0]), working, rs[1..])
  }

  function Said(t: Talk, working: int, rs: seq<Reply>): (n: nat)
    ensures n <= |rs|
    decreases |rs|
  {
    if rs == [] || t.state == Dead then 0 else 1 + Said(Say(t, working, rs[0]), working, rs[1..])
  }

  lemma {:induction false} SaidAllOrDead(t: Talk, working: int, rs: seq<Reply>)
    ensures Said(t, working, rs) < |rs| ==> SayAll(t, working, rs).state == Dead
    decreases |rs|
  {
    if rs != [] && t.state != Dead {
      SaidAllOrDead(Say(t, working, rs[0]), working, rs[1..]);
    }
  }

  /** What is answered on the spot: everything without the pool, only a 400 with it. */
  function OnTheSpot(pool: bool, d: Outcome): seq<Reply> { Replies(if pool then [] else d.reqs, d.end) }

  function WorkersOut(pool: bool, working: int, d: Outcome): int { working + if pool then |d.reqs| else 0 }

  /** A line that is too long or too many closes the connection without an answer. */
  function FinalState(t: Talk, working: int, end: End): ConnState {
    if t.state == Dead then Dead
    else if end.Refused? then if working == 0 && t.left == 0 then Dead else PeerClose
    else t.state
  }

  function JobList(id: nat, reqs: seq<Request>): seq<Job> {
    seq(|reqs|, k requires 0 <= k < |reqs| => Job(id, reqs[k]))
  }

  predicate AllKeep(rs: seq<Reply>) { forall k :: 0 <= k < |rs| ==> rs[k].KeepAlive() }

  function TalkOf(w: World): Talk { Talk(w.conn.link.state, |w.conn.pipe.output|, w.writeScript) }

  /** `w` becomes `v` by giving the replies `said`, which leaves the machine at `t`, and by handing the
      requests `jobs` to the pool; the parse has come to `end`. */
  ghost predicate DealtBy(w: World, said: seq<Reply>, t: Talk, jobs: seq<Request>, end: End, v: World) {
    var out := w.conn.link.working + |jobs|;
    && v.conn.link.state == FinalState(t, out, end)
    && |v.conn.pipe.output| == t.left && v.writeScript == t.script
    && v.conn.pipe.sent + v.conn.pipe.output == w.conn.pipe.sent + w.conn.pipe.output + Render(said)
    && v.conn.book.replies == w.conn.book.replies + said && v.conn.book.dropped == w.conn.book.dropped
    && v.conn.link.working == out
    && v.jobs == w.jobs + JobList(w.conn.id, jobs)
    && v.conn.link.readOn == (w.conn.link.readOn && AllKeep(said) && (end.Refused? ==> t.state == Dead))
    && v.conn.id == w.conn.id && v.conn.pool == w.conn.pool
  }

  /** `v` is what `w` becomes when the outcomes `d` of a parse are dealt with. */
  ghost predicate Dealt(w: World, d: Outcome, v: World) {
    var rs, out := OnTheSpot(w.conn.pool, d), WorkersOut(w.conn.pool, w.conn.link.working, d);
    DealtBy(w, rs[..Said(TalkOf(w), out, rs)], SayAll(TalkOf(w), out, rs), if w.conn.pool then d.reqs else [], d.end, v)
  }

  /** Only the intake of the first world may be different. */
  lemma SameButIntake(w: World, i: Intake, d: Outcome, v: World)
    requires Dealt(SetIntake(w, i), d, v)
    ensures Dealt(w, d, v)
  {
  }

  // ---- the parse loop ----

  lemma NothingDealt(w: World, d: Outcome, v: World)
    requires Alive(w.conn) && d.reqs == [] && d.end.Open? && v == SetIntake(w, v.conn.intake)
    ensures Dealt(w, d, v)
  {
    assert w.conn.book.replies + [] == w.conn.book.replies && w.jobs + [] == w.jobs;
    var s := w.conn.pipe.sent + w.conn.pipe.output;
    assert s + [] == s;
  }

  lemma RefusalDealt(w: World, d: Outcome)
    requires Alive(w.conn) && d.reqs == [] && d.end.Refused?
    ensures Dealt(w, d, RefuseInput(w))
  {
    assert w.conn.book.replies + [] == w.conn.book.replies && w.jobs + [] == w.jobs;
    var s := w.conn.pipe.sent + w.conn.pipe.output;
    assert s + [] == s;
  }

  lemma OneReply(r: Reply)
    ensures Render([r]) == r.Text() && [r][..1] == [r]
  {
    AppendReply([], r);
    assert [] + [r] == [r];
    assert Render([]) + r.Text() == r.Text();
  }

  lemma RejectionDealt(w: World, d: Outcome)
    requires Alive(w.conn) && d.reqs == [] && d.end.Bad?
    ensures Dealt(w, d, RejectInput(w))
  {
    AnswerObeysLaw(w, BadRequest);
    RejectIsSendAndCheck(w);
    OneReply(BadRequest);
    var rs := OnTheSpot(w.conn.pool, d);
    assert rs == [BadRequest] && rs[1..] == [];
    assert w.jobs + [] == w.jobs;
  }

  lemma JobsGrow(id: nat, req: Request, reqs: seq<Request>, jobs: seq<Job>)
    ensures jobs + [Job(id, req)] + JobList(id, reqs) == jobs + JobList(id, [req] + reqs)
  {
    assert JobList(id, [req] + reqs) == [Job(id, req)] + JobList(id, reqs);
  }

  /** A request for the pool, and then the rest. */
  lemma SubmittedThenDealt(w: World, req: Request, d: Outcome, v: World)
    requires w.conn.pool && Dealt(Serve(w, req), d, v)
    ensures Dealt(w, Prepend([req], d), v)
  {
    JobsGrow(w.conn.id, req, d.reqs, w.jobs);
  }

  lemma TextBefore(s: bytes, r: Reply, said: seq<Reply>)
    ensures s + r.Text() + Render(said) == s + Render([r] + said)
  {
    RenderHead(r, said);
    SeqAssoc(s, r.Text(), Render(said));
  }

  lemma SayFirst(t: Talk, working: int, r: Reply, rs: seq<Reply>)
    requires t.state != Dead
    ensures SayAll(t, working, [r] + rs) == SayAll(Say(t, working, r), working, rs)
    ensures Said(t, working, [r] + rs) == 1 + Said(Say(t, working, r), working, rs)
  {
    ConsPrefix(r, rs, 0);
  }

  lemma KeepBefore(r: Reply, said: seq<Reply>)
    ensures AllKeep([r] + said) <==> r.KeepAlive() && AllKeep(said)
  {
    var s := [r] + said;
    assert s[0] == r && forall k :: 0 <= k < |said| ==> s[k + 1] == said[k];
    if AllKeep(s) {
      forall k | 0 <= k < |said| ensures said[k].KeepAlive() { assert s[k + 1].KeepAlive(); }
    }
  }

  /** A request answered on the spot, and then the rest, if the connection lives. */
  lemma AnsweredThenDealt(w: World, u: World, req: Request, d: Outcome, v: World)
    requires Alive(w.conn) && !w.conn.pool && AnswerLaw(w, Ok(req), u)
    requires if Alive(u.conn) then Dealt(u, d, v) else v == u
    ensures Dealt(w, Prepend([req], d), v)
  {
    if !Alive(u.conn) {
      NothingMoreDealt(u, d);
    }
    FirstDealt(w, u, req, d, v);
  }

  lemma NothingMoreDealt(u: World, d: Outcome)
    requires !Alive(u.conn) && !u.conn.pool
    ensures Dealt(u, d, u)
  {
    var rs := OnTheSpot(false, d);
    assert rs[..0] == [];
    NothingSaid(u);
  }

  lemma SpotStep(t: Talk, u: Talk, working: int, req: Request, d: Outcome)
    requires t.state != Dead && Say(t, working, Ok(req)) == u
    ensures var rs, all := OnTheSpot(false, d), OnTheSpot(false, Prepend([req], d));
            && SayAll(t, working, all) == SayAll(u, working, rs)
            && all[..Said(t, working, all)] == [Ok(req)] + rs[..Said(u, working, rs)]
  {
    var rs := OnTheSpot(false, d);
    RepliesHead(req, d.reqs, d.end);
    SayFirst(t, working, Ok(req), rs);
    ConsPrefix(Ok(req), rs, Said(u, working, rs));
  }

  lemma DealtIs(w: World, d: Outcome, said: seq<Reply>, t: Talk, v: World)
    requires !w.conn.pool && DealtBy(w, said, t, [], d.end, v)
    requires var rs := OnTheSpot(false, d);
             said == rs[..Said(TalkOf(w), w.conn.link.working, rs)] && t == SayAll(TalkOf(w), w.conn.link.working, rs)
    ensures Dealt(w, d, v)
  {
  }

  lemma FirstDealt(w: World, u: World, req: Request, d: Outcome, v: World)
    requires Alive(w.conn) && !w.conn.pool && AnswerLaw(w, Ok(req), u) && Dealt(u, d, v)
    ensures Dealt(w, Prepend([req], d), v)
  {
    var rs, working := OnTheSpot(false, d), w.conn.link.working;
    var said, t := rs[..Said(TalkOf(u), working, rs)], SayAll(TalkOf(u), working, rs);
    assert Say(TalkOf(w), working, Ok(req)) == TalkOf(u);
    SpotStep(TalkOf(w), TalkOf(u), working, req, d);
    FirstSaid(w, u, Ok(req), said, t, d.end, v);
    DealtIs(w, Prepend([req], d), [Ok(req)] + said, t, v);
  }

  lemma FirstSaid(w: World, u: World, r: Reply, said: seq<Reply>, t: Talk, end: End, v: World)
    requires AnswerLaw(w, r, u) && DealtBy(u, said, t, [], end, v)
    ensures DealtBy(w, [r] + said, t, [], end, v)
  {
    TextBefore(w.conn.pipe.sent + w.conn.pipe.output, r, said);
    KeepBefore(r, said);
    SeqAssoc(w.conn.book.replies, [r], said);
  }

  lemma NothingSaid(u: World)
    ensures u.conn.book.replies + [] == u.conn.book.replies && u.jobs + JobList(u.conn.id, []) == u.jobs
    ensures u.conn.pipe.sent + u.conn.pipe.output + Render([]) == u.conn.pipe.sent + u.conn.pipe.output
  {
  }

  /** The parse loop deals with exactly the outcomes of the parse of what is buffered. */
  lemma {:induction false} HttpLoopDeals(w: World)
    requires Alive(w.conn)
    ensures Dealt(w, Drain(w.conn.intake.parser, w.conn.intake.input), HttpLoop(w))
    decreases |w.conn.intake.input|
  {
    var i := w.conn.intake;
    var r := ParseStep(i.parser, i.input);
    var u := SetIntake(w, Parsed(i));
    match r.result
    case NeedMore => NothingDealt(w, Drain(i.parser, i.input), u);
    case LineTooLong =>
      RefusalDealt(u, Drain(i.parser, i.input));
      SameButIntake(w, Parsed(i), Drain(i.parser, i.input), HttpLoop(w));
    case Error =>
      RejectionDealt(u, Drain(i.parser, i.input));
      SameButIntake(w, Parsed(i), Drain(i.parser, i.input), HttpLoop(w));
    case Complete =>
      var req, x := r.parser.current, Serve(u, r.parser.current);
      if Alive(x.conn) {
        HttpLoopDeals(x);
      }
      RequestDealt(w, u, req, Drain(FRESH, r.rest), HttpLoop(x));
  }

  lemma RequestDealt(w: World, u: World, req: Request, d: Outcome, v: World)
    requires Alive(w.conn) && u == SetIntake(w, u.conn.intake)
    requires if Alive(Serve(u, req).conn) then Dealt(Serve(u, req), d, v) else v == Serve(u, req)
    ensures Dealt(w, Prepend([req], d), v)
  {
    if w.conn.pool {
      SubmittedThenDealt(u, req, d, v);
    } else {
      AnswerObeysLaw(u, Ok(req));
      AnsweredThenDealt(u, SendAndCheck(u, Ok(req)), req, d, v);
    }
    SameButIntake(w, u.conn.intake, Prepend([req], d), v);
  }

  // ---- what is taken from the input ----

  /** The parse is followed to its end, unless an answer on the spot ended the connection before. */
  function EndReached(end: End, allSaid: bool, state: ConnState): End {
    match end
    case Open => Open
    case Bad => if allSaid then Bad else Open
    case Refused => if state != Dead then Refused else Open
  }

  ghost predicate TookIn(w: World, d: Outcome, v: World) {
    var rs, out := OnTheSpot(w.conn.pool, d), WorkersOut(w.conn.pool, w.conn.link.working, d);
    var t, n := SayAll(TalkOf(w), out, rs), Said(TalkOf(w), out, rs);
    && v.conn.intake.done == w.conn.intake.done + (if w.conn.pool then d.reqs else d.reqs[..Min(n, |d.reqs|)])
    && v.conn.intake.end == EndReached(d.end, n == |rs|, t.state)
  }

  lemma LastTakenIn(w: World)
    requires Alive(w.conn) && w.conn.intake.end.Open?
    requires !ParseStep(w.conn.intake.parser, w.conn.intake.input).result.Complete?
    ensures TookIn(w, Drain(w.conn.intake.parser, w.conn.intake.input), HttpLoop(w))
  {
    var done := w.conn.intake.done;
    assert done + [] == done;
    var d := Drain(w.conn.intake.parser, w.conn.intake.input);
    assert d.end.Bad? ==> OnTheSpot(w.conn.pool, d) == [BadRequest];
    if d.end.Bad? {
      RejectIsSendAndCheck(SetIntake(w, Parsed(w.conn.intake)));
      AnswerObeysLaw(SetIntake(w, Parsed(w.conn.intake)), BadRequest);
    }
  }

  lemma SubmittedThenTaken(w: World, u: World, req: Request, d: Outcome, v: World)
    requires w.conn.pool && u.conn.intake.done == w.conn.intake.done + [req] && u == SetIntake(w, u.conn.intake)
    requires TookIn(Serve(u, req), d, v)
    ensures TookIn(w, Prepend([req], d), v)
  {
    SeqAssoc(w.conn.intake.done, [req], d.reqs);
  }

  lemma AnsweredThenTaken(w: World, x: World, req: Request, d: Outcome, v: World)
    requires Alive(w.conn) && !w.conn.pool && AnswerLaw(w.(conn := w.conn.(intake := x.conn.intake)), Ok(req), x)
    requires x.conn.intake.done == w.conn.intake.done + [req] && x.conn.intake.end.Open?
    requires if Alive(x.conn) then TookIn(x, d, v) else v == x
    ensures TookIn(w, Prepend([req], d), v)
  {
    var r, rs := Ok(req), Replies(d.reqs, d.end);
    var working := w.conn.link.working;
    RepliesHead(req, d.reqs, d.end);
    SayFirst(TalkOf(w), working, r, rs);
    assert Say(TalkOf(w), working, r) == TalkOf(x);
    var n := Said(TalkOf(x), working, rs);
    var m := Min(n, |d.reqs|);
    ConsPrefix(req, d.reqs, m);
    assert |rs| >= |d.reqs|;
    SeqAssoc(w.conn.intake.done, [req], d.reqs[..m]);
    assert d.reqs[..0] == [] && x.conn.intake.done + [] == x.conn.intake.done;
  }

  lemma {:induction false} HttpLoopTakesIn(w: World)
    requires Alive(w.conn) && w.conn.intake.end.Open?
    ensures TookIn(w, Drain(w.conn.intake.parser, w.conn.intake.input), HttpLoop(w))
    decreases |w.conn.intake.input|
  {
    var i := w.conn.intake;
    var r := ParseStep(i.parser, i.input);
    var u := SetIntake(w, Parsed(i));
    if r.result.Complete? {
      var req, x := r.parser.current, Serve(u, r.parser.current);
      if Alive(x.conn) {
        HttpLoopTakesIn(x);
      }
      if w.conn.pool {
        SubmittedThenTaken(w, u, req, Drain(FRESH, r.rest), HttpLoop(x));
      } else {
        AnswerObeysLaw(u, Ok(req));
        AnsweredThenTaken(w, x, req, Drain(FRESH, r.rest), HttpLoop(x));
      }
    } else {
      LastTakenIn(w);
    }
  }

  // ---- the handler ----

  /** What one read event does to a live connection. A failed read ends it and does nothing else.
      Otherwise the end of file makes it half closed; with nothing buffered that ends it exactly if
      nothing is to be written and no worker is out; anything buffered is parsed and dealt with. */
  ghost predicate ReadLaw(w: World, v: World) {
    var last, more := LastAnswer(w.readScript), Arriving(w.readScript);
    var input, state := w.conn.intake.input + more, AfterReading(w.conn.link.state, last);
    && v.conn.intake.received == w.conn.intake.received + more
    && if last.ReadFailed? then !Alive(v.conn) && OnlyStateMoved(w, v)
       else if input == [] then
         OnlyStateMoved(w, v)
         && v.conn.link.state ==
            if state == PeerClose && w.conn.link.working == 0 && w.conn.pipe.output == [] then Dead else state
       else Dealt(SetLink(w, w.conn.link.(state := state)), Drain(w.conn.intake.parser, input), v)
            && (w.conn.intake.end.Open? ==>
                  TookIn(SetLink(w, w.conn.link.(state := state)), Drain(w.conn.intake.parser, input), v))
  }

  ghost predicate OnlyStateMoved(w: World, v: World) {
    && v.conn.intake.done == w.conn.intake.done && v.conn.intake.end == w.conn.intake.end
    && v.conn.pipe == w.conn.pipe && v.conn.book == w.conn.book && v.writeScript == w.writeScript && v.jobs == w.jobs
    && v.conn.link.working == w.conn.link.working && v.conn.link.readOn == w.conn.link.readOn
    && v.conn.id == w.conn.id && v.conn.pool == w.conn.pool
  }

  /** The world the parse loop finds. */
  lemma DealtAfterReading(w: World, u: World, d: Outcome, v: World)
    requires Dealt(u, d, v) && u.conn.intake.done == w.conn.intake.done && u.conn.link == w.conn.link.(state := u.conn.link.state)
    requires u.conn.pipe == w.conn.pipe && u.conn.book == w.conn.book && u.writeScript == w.writeScript
    requires u.jobs == w.jobs && u.conn.id == w.conn.id && u.conn.pool == w.conn.pool
    ensures Dealt(SetLink(w, w.conn.link.(state := u.conn.link.state)), d, v)
    ensures TookIn(u, d, v) ==> TookIn(SetLink(w, w.conn.link.(state := u.conn.link.state)), d, v)
  {
  }

  lemma OnHttpLaw(w: World)
    requires Alive(w.conn)
    ensures ReadLaw(w, OnHttp(w))
  {
    var u := ReadLoop(w);
    ReadLoopObeysLaw(w);
    LoopKeepsReceived(u);
    if Alive(u.conn) && u.conn.intake.input != [] {
      HttpLoopDeals(u);
      if u.conn.intake.end.Open? {
        HttpLoopTakesIn(u);
      }
      DealtAfterReading(w, u, Drain(u.conn.intake.parser, u.conn.intake.input), HttpLoop(u));
    }
  }

  lemma ReadCallbackLaw(w: World, now: Time)
    requires Alive(w.conn)
    ensures ReadLaw(w, ReadCallback(w, now))
  {
    var u := RefreshTimer(w, now);
    OnHttpLaw(u);
    RefreshedLaw(w, u, OnHttp(u));
  }

  lemma RefreshedLaw(w: World, u: World, v: World)
    requires ReadLaw(u, v) && u.conn == w.conn.(link := u.conn.link)
    requires u.conn.link == w.conn.link.(timerId := u.conn.link.timerId, activeAt := u.conn.link.activeAt)
    requires u.readScript == w.readScript && u.writeScript == w.writeScript && u.jobs == w.jobs
    ensures ReadLaw(w, v)
  {
  }

  // ---- both events ----

  /** `Channel::handle`: reading first, and then writing if the connection is still alive. */
  lemma HandleLaw(w: World, canRead: bool, canWrite: bool, t1: Time, t2: Time) returns (u: World)
    requires Alive(w.conn)
    ensures if canRead then ReadLaw(w, u) else u == w
    ensures var v := Handle(w, canRead, canWrite, t1, t2);
            if canWrite && Alive(u.conn) then WriteLaw(u, v) else v == u
  {
    u := if canRead then ReadCallback(w, t1) else w;
    if canRead {
      ReadCallbackLaw(w, t1);
    }
    if canWrite {
      if Alive(u.conn) {
        WriteCallbackLaw(u, t2);
      } else {
        DeadIsLeftAlone(u, t2, BLANK);
      }
    }
  }
}
