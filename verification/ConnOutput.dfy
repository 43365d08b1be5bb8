/** The bytes a connection sends are what a pure function of the bytes it has read says: invariants
    of its handlers, for every script of system-call results. */
module ConnOutput {
  import opened Algebra
  import opened Bytes
  import opened Socket
  import opened HttpSpec
  import opened Timers
  import opened ConnSpec
  import opened ConnFacts

  // ---- response streams ----

  function Render(rs: seq<Reply>): bytes {
    if rs == [] then [] else Render(rs[..|rs| - 1]) + rs[|rs| - 1].Text()
  }

  /** The requests answered with 200, in order. */
  function Answered(rs: seq<Reply>): seq<Request> {
    if rs == [] then []
    else Answered(rs[..|rs| - 1]) + if rs[|rs| - 1].Ok? then [rs[|rs| - 1].req] else []
  }

  function Rejections(rs: seq<Reply>): int { |rs| - |Answered(rs)| }

  /** The replies of a server that answers every outcome of the parse in order. */
  function Replies(reqs: seq<Request>, end: End): seq<Reply> {
    seq(|reqs|, i requires 0 <= i < |reqs| => Ok(reqs[i])) + if end.Bad? then [BadRequest] else []
  }

  lemma AppendReply(rs: seq<Reply>, r: Reply)
    ensures Render(rs + [r]) == Render(rs) + r.Text()
    ensures Answered(rs + [r]) == Answered(rs) + if r.Ok? then [r.req] else []
  {
    assert (rs + [r])[..|rs|] == rs;
  }

  lemma RenderLast(rs: seq<Reply>, r: Reply, text: bytes)
    requires text == r.Text()
    ensures Render(rs + [r]) == Render(rs) + text
  {
    AppendReply(rs, r);
  }

  lemma {:induction false} RenderConcat(a: seq<Reply>, b: seq<Reply>)
    ensures Render(a + b) == Render(a) + Render(b)
    decreases |b|
  {
    if b == [] {
      assert a + b == a;
    } else {
      var b0, r := b[..|b| - 1], b[|b| - 1];
      Unsnoc(b);
      RenderConcat(a, b0);
      RenderMore(a, b0, r, r.Text());
      SnocAssoc(a, b0, r);
    }
  }

  lemma RenderMore(a: seq<Reply>, b: seq<Reply>, r: Reply, text: bytes)
    requires Render(a + b) == Render(a) + Render(b) && text == r.Text()
    ensures Render((a + b) + [r]) == Render(a) + Render(b + [r])
  {
    RenderLast(a + b, r, text);
    RenderLast(b, r, text);
    SeqAssoc(Render(a), Render(b), text);
  }

  lemma RenderHead(r: Reply, rs: seq<Reply>)
    ensures Render([r] + rs) == r.Text() + Render(rs)
  {
    RenderConcat([r], rs);
    RenderLast([], r, r.Text());
    assert [] + [r] == [r] && Render([]) + r.Text() == r.Text();
  }

  lemma RepliesHead(req: Request, reqs: seq<Request>, end: End)
    ensures Replies([req] + reqs, end) == [Ok(req)] + Replies(reqs, end)
  {
    var whole, parts := Replies([req] + reqs, end), [Ok(req)] + Replies(reqs, end);
    forall k | 0 <= k < |whole| ensures whole[k] == parts[k] {
      if 0 < k <= |reqs| {
        assert ([req] + reqs)[k] == reqs[k - 1];
      }
    }
  }

  // ---- invariants ----

  /** The output is the text of the replies; every completed request is answered, in flight or
      dropped by a dead connection; without the pool the replies are exactly those of the completed
      requests in order, followed by the 400 of a rejected input. */
  ghost predicate Booked(c: Conn, done: seq<Request>, end: End) {
    && c.pipe.sent + c.pipe.output == Render(c.book.replies)
    && multiset(Answered(c.book.replies)) + c.book.inflight + c.book.dropped == multiset(done)
    && Rejections(c.book.replies) == (if end.Bad? then 1 else 0)
    && c.link.working == |c.book.inflight|
    && (!c.pool ==> |c.book.inflight| == 0 && c.book.dropped == multiset{} && c.book.replies == Replies(done, end))
    && (c.book.dropped != multiset{} ==> c.link.state == Dead)
    && (c.link.state == Connected ==> end.Open? && forall r :: r in c.book.replies ==> r.KeepAlive())
  }

  /** Equal outcomes; what is left matters only while the parse is open. */
  ghost predicate Alike(a: Outcome, b: Outcome) {
    a.reqs == b.reqs && a.end == b.end && a.parser == b.parser && (a.end.Open? ==> a.rest == b.rest)
  }

  /** The requests completed so far, continued with what is still buffered, are the parse of
      everything read. */
  ghost predicate Tracked(i: Intake) {
    var whole := Drain(FRESH, i.received);
    if i.end.Open? then Alike(whole, Prepend(i.done, Drain(i.parser, i.input)))
    else whole.reqs == i.done && whole.end == i.end
  }

  /** Nothing more can be taken from the input. */
  ghost predicate Quiet(i: Intake) { i.end.Open? ==> CrlfFree(i.input) }

  /** A connection ended by a half-close guard owes nothing. */
  ghost predicate PaidUp(c: Conn) {
    HalfClosed(c) ==>
      c.pipe.output == [] && c.link.working == 0 && c.book.dropped == multiset{} && (c.pool ==> Quiet(c.intake))
  }

  ghost predicate OutputInv(c: Conn) {
    && Booked(c, c.intake.done, c.intake.end)
    && Tracked(c.intake)
    && PaidUp(c)
    && (!c.intake.end.Open? ==> !c.link.readOn)
  }

  /** What holds at every handler boundary. */
  ghost predicate AtRest(c: Conn) {
    OutputInv(c) && (c.link.state != Dead ==> Quiet(c.intake)) && NoLinger(c)
  }

  // ---- receiving ----

  lemma {:induction false} TrackedAppend(i: Intake, data: bytes)
    requires Tracked(i) && i.end.Open?
    ensures Tracked(i.(input := i.input + data, received := i.received + data))
  {
    DrainAppend(FRESH, i.received, data);
    DrainAppend(i.parser, i.input, data);
    ResumeAlike(Drain(FRESH, i.received), i.done, Drain(i.parser, i.input), data,
                Drain(FRESH, i.received + data), Drain(i.parser, i.input + data));
  }

  lemma ResumeAlike(whole: Outcome, done: seq<Request>, o: Outcome, data: bytes, whole': Outcome, o': Outcome)
    requires Alike(whole, Prepend(done, o))
    requires Resumes(whole, data, whole') && Resumes(o, data, o')
    ensures Alike(whole', Prepend(done, o'))
  {
    if o.end.Open? {
      var t := Drain(o.parser, o.rest + data);
      SeqAssoc(done, o.reqs, t.reqs);
    }
  }

  lemma {:induction false} TrackedParsed(i: Intake)
    requires Tracked(i) && i.end.Open?
    ensures Tracked(Parsed(i))
    ensures ParseStep(i.parser, i.input).result.NeedMore? ==> Quiet(Parsed(i))
  {
    var r := ParseStep(i.parser, i.input);
    match r.result
    case Complete =>
      var t := Drain(FRESH, r.rest);
      SeqAssoc(i.done, [r.parser.current], t.reqs);
    case NeedMore => DrainQuiet(r.parser, r.rest);
    case _ =>
  }

  lemma DrainQuiet(p: Parser, s: bytes)
    requires CrlfFree(s)
    ensures Drain(p, s) == Outcome([], Open, p, s)
  {
  }

  /** The read loop only adds to the input, and ends a connection by nothing but a failure. */
  ghost predicate Receives(w: World, v: World) {
    && v.conn.id == w.conn.id && v.conn.pool == w.conn.pool
    && v.conn.pipe == w.conn.pipe && v.conn.book == w.conn.book
    && v.conn.intake.end == w.conn.intake.end && v.conn.intake.done == w.conn.intake.done
    && v.conn.link.working == w.conn.link.working && v.conn.link.readOn == w.conn.link.readOn
    && (v.conn.link.state == Connected ==> w.conn.link.state == Connected)
    && !HalfClosed(v.conn)
    && w.conn.intake.received <= v.conn.intake.received
    && v.jobs == w.jobs && v.writeScript == w.writeScript
  }

  lemma ReceivesTrans(w: World, u: World, v: World)
    requires Receives(w, u) && Receives(u, v)
    ensures Receives(w, v)
  {
  }

  lemma ArrivalReceives(w: World, data: bytes, script: seq<ReadOutcome>)
    requires w.conn.link.state != Dead
    ensures var i := w.conn.intake;
            Receives(w, SetIntake(w, i.(input := i.input + data, received := i.received + data)).(readScript := script))
  {
    assert w.conn.intake.received <= w.conn.intake.received + data;
  }

  lemma EndReceives(w: World, script: seq<ReadOutcome>)
    requires w.conn.link.state != Dead
    ensures var u := w.(readScript := script);
            Receives(w, u) && Receives(w, SetLink(u, u.conn.link.(state := PeerClose))) && Receives(w, HandleDead(u, Fatal))
  {
  }

  lemma ReadingEnds(w: World)
    requires w.conn.link.state != Dead && (w.readScript == [] || EndsReading(w.readScript[0]))
    ensures Receives(w, ReadLoop(w))
  {
    if w.readScript == [] {
      EndReceives(w, []);
    } else {
      EndReceives(w, w.readScript[1..]);
    }
  }

  lemma {:induction false} ReadLoopReceives(w: World)
    requires w.conn.link.state != Dead
    ensures Receives(w, ReadLoop(w))
    decreases |w.readScript|
  {
    if w.readScript == [] || EndsReading(w.readScript[0]) {
      ReadingEnds(w);
    } else {
      var i := w.conn.intake;
      var u := w.(readScript := w.readScript[1..]);
      var data := if w.readScript[0].Got? then w.readScript[0].data else [];
      var x := SetIntake(u, i.(input := i.input + data, received := i.received + data));
      assert i.input + [] == i.input && i.received + [] == i.received;
      ArrivalReceives(w, data, w.readScript[1..]);
      ReadLoopReceives(x);
      ReceivesTrans(w, x, ReadLoop(x));
    }
  }

  lemma {:induction false} ReadLoopTracks(w: World)
    requires Tracked(w.conn.intake) && w.conn.intake.end.Open?
    ensures Tracked(ReadLoop(w).conn.intake)
    decreases |w.readScript|
  {
    if w.readScript != [] {
      var u := w.(readScript := w.readScript[1..]);
      match w.readScript[0]
      case Got(data) =>
        if data != [] {
          var i := u.conn.intake;
          TrackedAppend(i, data);
          ReadLoopTracks(SetIntake(u, i.(input := i.input + data, received := i.received + data)));
        }
      case ReadInterrupted => ReadLoopTracks(u);
      case _ =>
    }
  }

  // ---- sending ----

  lemma RepliesGrow(done: seq<Request>, req: Request)
    ensures Replies(done + [req], Open) == Replies(done, Open) + [Ok(req)]
    ensures Replies(done, Bad) == Replies(done, Open) + [BadRequest]
  {
  }

  /** The books after one more reply, for a request just completed. */
  lemma AnswerJustBooked(w: World, v: World, req: Request, done: seq<Request>)
    requires w.conn.link.state != Dead && Booked(w.conn, done, Open) && SendsReply(w, v, Ok(req)) && !w.conn.pool
    ensures Booked(v.conn, done + [req], Open)
  {
    AppendReply(w.conn.book.replies, Ok(req));
    RepliesGrow(done, req);
    BagOfSnoc(done, req);
    BagOfSnoc(Answered(w.conn.book.replies), req);
    assert w.conn.book.inflight == multiset{};
  }

  /** The books after the answer to a rejected input. */
  lemma RejectionBooked(w: World, v: World, done: seq<Request>)
    requires w.conn.link.state != Dead && Booked(w.conn, done, Open) && SendsReply(w, v, BadRequest)
    ensures Booked(v.conn, done, Bad)
  {
    AppendReply(w.conn.book.replies, BadRequest);
    RepliesGrow(done, BLANK);
    assert Answered(w.conn.book.replies) + [] == Answered(w.conn.book.replies);
  }

  ghost predicate Serves(w: World, v: World) {
    && v.conn.id == w.conn.id && v.conn.pool == w.conn.pool
    && (v.conn.link.readOn ==> w.conn.link.readOn)
    && OutputInv(v.conn) && (v.conn.link.state != Dead ==> Quiet(v.conn.intake))
  }

  lemma ServeBooked(w: World, req: Request, done: seq<Request>)
    requires w.conn.link.state != Dead && Booked(w.conn, done, Open) && Tracked(w.conn.intake)
    requires w.conn.intake.end.Open? && w.conn.intake.done == done + [req]
    ensures OutputInv(Serve(w, req).conn) && Serve(w, req).conn.intake == w.conn.intake
    ensures Serve(w, req).conn.id == w.conn.id && Serve(w, req).conn.pool == w.conn.pool
    ensures Serve(w, req).conn.link.readOn ==> w.conn.link.readOn
  {
    if !w.conn.pool {
      SendAndCheckSendsReply(w, Ok(req));
      AnswerJustBooked(w, SendAndCheck(w, Ok(req)), req, done);
    }
  }

  lemma RejectBooked(w: World)
    requires w.conn.link.state != Dead && Booked(w.conn, w.conn.intake.done, Open) && Tracked(w.conn.intake)
    requires w.conn.intake.end.Bad?
    ensures Serves(w, RejectInput(w))
  {
    SendAndCheckSendsReply(w, BadRequest);
    RejectionBooked(w, SendAndCheck(w, BadRequest), w.conn.intake.done);
    RejectIsSendAndCheck(w);
  }

  lemma RefusedBooks(c: Conn, l: Link)
    requires Booked(c, c.intake.done, Open) && Tracked(c.intake) && c.intake.end.Refused? && c.book.dropped == multiset{}
    requires l.working == c.link.working && l.state != Connected && !l.readOn
    requires l.state == Dead && l.cause == HalfClose ==> c.pipe.output == [] && l.working == 0
    ensures OutputInv(c.(link := l))
  {
  }

  lemma RefuseBooked(w: World)
    requires w.conn.link.state != Dead && Booked(w.conn, w.conn.intake.done, Open) && Tracked(w.conn.intake)
    requires w.conn.intake.end.Refused?
    ensures Serves(w, RefuseInput(w))
  {
    RefusedBooks(w.conn, RefuseInput(w).conn.link);
  }

  lemma ParsedBooked(w: World)
    requires OutputInv(w.conn) && w.conn.intake.end.Open?
    ensures var u := SetIntake(w, Parsed(w.conn.intake));
            Booked(u.conn, w.conn.intake.done, Open) && Tracked(u.conn.intake)
    ensures ParseStep(w.conn.intake.parser, w.conn.intake.input).result.NeedMore? ==>
      Serves(w, SetIntake(w, Parsed(w.conn.intake)))
  {
    TrackedParsed(w.conn.intake);
  }

  lemma {:induction false} HttpLoopServes(w: World)
    requires OutputInv(w.conn) && w.conn.intake.end.Open?
    ensures Serves(w, HttpLoop(w))
    decreases |w.conn.intake.input|
  {
    if w.conn.link.state != Dead {
      var i := w.conn.intake;
      var r := ParseStep(i.parser, i.input);
      var u := SetIntake(w, Parsed(i));
      ParsedBooked(w);
      match r.result
      case NeedMore =>
      case LineTooLong => RefuseBooked(u);
      case Error => RejectBooked(u);
      case Complete =>
        ServeBooked(u, r.parser.current, i.done);
        HttpLoopServes(Serve(u, r.parser.current));
    }
  }

  lemma {:induction false} LoopKeepsReceived(w: World)
    ensures HttpLoop(w).conn.intake.received == w.conn.intake.received
    decreases |w.conn.intake.input|
  {
    if w.conn.link.state != Dead {
      var r := ParseStep(w.conn.intake.parser, w.conn.intake.input);
      if r.result.Complete? {
        LoopKeepsReceived(Serve(SetIntake(w, Parsed(w.conn.intake)), r.parser.current));
      }
    }
  }

  // ---- handlers keep the invariant ----

  lemma DyingAtRest(w: World, cause: Cause)
    requires OutputInv(w.conn) && cause != HalfClose
    ensures AtRest(HandleDead(w, cause).conn) && AtRest(StopConn(w).conn)
  {
    DeadAtRest(w.conn, cause);
    DeadAtRest(w.conn, Stopped);
    if w.conn.link.state == Dead {
      assert NoLinger(w.conn);
    }
  }

  lemma DeadAtRest(c: Conn, cause: Cause)
    requires OutputInv(c) && cause != HalfClose
    ensures AtRest(c.(link := DeadLink(c.link, cause)))
  {
  }

  lemma ReceivedInv(w: World, v: World)
    requires OutputInv(w.conn) && w.conn.intake.end.Open? && w.conn.link.state != Dead
    requires Receives(w, v) && Tracked(v.conn.intake)
    ensures OutputInv(v.conn) && v.conn.intake.end.Open?
  {
  }

  lemma CheckEmptyInv(w: World)
    requires OutputInv(w.conn) && Quiet(w.conn.intake)
    ensures AtRest(CheckEmpty(w).conn)
  {
    CheckEmptyNoLinger(w);
  }

  lemma OnHttpAtRest(w: World)
    requires OutputInv(w.conn) && w.conn.link.state != Dead && w.conn.link.readOn
    ensures AtRest(OnHttp(w).conn)
  {
    var v := ReadLoop(w);
    ReadLoopReceives(w);
    ReadLoopTracks(w);
    ReceivedInv(w, v);
    OnHttpNoLinger(w);
    if v.conn.intake.input == [] {
      CheckEmptyInv(v);
    } else {
      HttpLoopServes(v);
    }
  }

  lemma RefreshAtRest(w: World, now: Time)
    requires AtRest(w.conn)
    ensures AtRest(RefreshTimer(w, now).conn)
  {
  }

  lemma ReadCallbackAtRest(w: World, now: Time)
    requires AtRest(w.conn) && w.conn.link.state != Dead && w.conn.link.readOn
    ensures AtRest(ReadCallback(w, now).conn)
  {
    RefreshAtRest(w, now);
    OnHttpAtRest(RefreshTimer(w, now));
  }

  lemma WriteCallbackAtRest(w: World, now: Time)
    requires AtRest(w.conn)
    ensures AtRest(WriteCallback(w, now).conn)
  {
    var u := RefreshTimer(w, now);
    if w.conn.link.state != Dead && u.conn.pipe.output != [] {
      var p, script, k := WriteLoopShape(u);
      SettleFacts(SetPipe(u, p).(writeScript := script), k);
      WriteLoopNoLinger(u);
    }
  }

  /** One `Channel::handle`, for the events the kernel may report on this mask. */
  lemma HandleAtRest(w: World, canRead: bool, canWrite: bool, t1: Time, t2: Time)
    requires AtRest(w.conn) && w.conn.link.state != Dead && (canRead ==> w.conn.link.readOn)
    ensures AtRest(Handle(w, canRead, canWrite, t1, t2).conn)
  {
    if canRead {
      ReadCallbackAtRest(w, t1);
    }
    if canWrite {
      WriteCallbackAtRest(if canRead then ReadCallback(w, t1) else w, t2);
    }
  }

  /** A live connection sends a request that has just left the pool. */
  lemma AnswerBooked(w: World, req: Request, done: seq<Request>, v: World)
    requires w.conn.link.state != Dead && w.conn.pool && w.conn.book.dropped == multiset{}
    requires SendsReply(w, v, Ok(req))
    requires w.conn.pipe.sent + w.conn.pipe.output == Render(w.conn.book.replies)
    requires multiset(Answered(w.conn.book.replies)) + multiset{req} + w.conn.book.inflight == multiset(done)
    requires Rejections(w.conn.book.replies) == (if w.conn.intake.end.Bad? then 1 else 0)
    requires w.conn.link.working == |w.conn.book.inflight|
    requires w.conn.link.state == Connected ==>
      w.conn.intake.end.Open? && forall r :: r in w.conn.book.replies ==> r.KeepAlive()
    ensures Booked(v.conn, done, w.conn.intake.end)
  {
    AppendReply(w.conn.book.replies, Ok(req));
    BagOfSnoc(Answered(w.conn.book.replies), req);
  }

  /** A worker's answer is sent, or dropped by a dead connection. */
  lemma RunAnswerAtRest(w: World, req: Request)
    requires AtRest(w.conn) && w.conn.pool && req in w.conn.book.inflight
    ensures AtRest(RunAnswer(w, req).conn)
  {
    var u := TakeAnswer(w, req);
    TakeOut(w.conn.book.inflight, req);
    if w.conn.link.state != Dead {
      var v := SendAndCheck(u, Ok(req));
      assert RunAnswer(w, req) == v;
      SendAndCheckSendsReply(u, Ok(req));
      AnswerBooked(u, req, w.conn.intake.done, v);
      CheckEmptyNoLinger(Send(u, Ok(req)));
    } else {
      DropAtRest(w, req);
    }
  }

  lemma DropAtRest(w: World, req: Request)
    requires AtRest(w.conn) && w.conn.pool && req in w.conn.book.inflight && w.conn.link.state == Dead
    ensures AtRest(RunAnswer(w, req).conn)
  {
    TakeOut(w.conn.book.inflight, req);
  }

  // ---- the theorems ----

  /** What a server that answers everything in order has to say about a byte stream. */
  function ResponseStream(received: bytes): bytes {
    var v := Interpret(FRESH, Lines(received));
    Render(Replies(v.reqs, v.end))
  }

  lemma TrackedIsInterpret(i: Intake)
    requires Tracked(i)
    ensures var v := Interpret(FRESH, Lines(i.received));
            && i.done <= v.reqs
            && (!i.end.Open? ==> i.done == v.reqs && i.end == v.end)
            && (Quiet(i) ==> i.done == v.reqs && i.end == v.end)
  {
    DrainIsInterpret(FRESH, i.received);
    if i.end.Open? && Quiet(i) {
      DrainQuiet(i.parser, i.input);
    }
  }

  /** Without the pool: at every moment the output is the in-order response stream of a prefix of the
      outcomes of the whole stream; at a handler boundary of a live connection it is the response
      stream of everything read. */
  lemma PoolOffOutput(c: Conn)
    requires OutputInv(c) && !c.pool
    ensures var v := Interpret(FRESH, Lines(c.intake.received));
            exists n: nat, e: End :: n <= |v.reqs| && (e.Open? || (n == |v.reqs| && e == v.end))
                           && c.pipe.sent + c.pipe.output == Render(Replies(v.reqs[..n], e))
    ensures AtRest(c) && c.link.state != Dead ==>
              c.pipe.sent + c.pipe.output == ResponseStream(c.intake.received)
  {
    TrackedIsInterpret(c.intake);
    var v := Interpret(FRESH, Lines(c.intake.received));
    var n := |c.intake.done|;
    assert c.intake.done == v.reqs[..n];
  }

  lemma {:induction false} RenderUniform(rs: seq<Reply>, rs': seq<Reply>)
    requires |rs| == |rs'|
    requires forall i :: 0 <= i < |rs| ==> rs[i].KeepAlive() && rs'[i].KeepAlive()
    ensures Render(rs) == Render(rs')
  {
    if rs != [] {
      var k := |rs| - 1;
      RenderUniform(rs[..k], rs'[..k]);
    }
  }

  lemma {:induction false} AllAnswered(rs: seq<Reply>)
    requires forall r :: r in rs ==> r.KeepAlive()
    ensures |Answered(rs)| == |rs|
    ensures forall q :: q in Answered(rs) ==> q.keepAlive
  {
    if rs != [] {
      var k := |rs| - 1;
      AllAnswered(rs[..k]);
      assert rs[k] in rs;
    }
  }

  /** With the pool on: for every order in which the workers came back, a connected connection with
      none out has sent exactly what the server without a pool would have sent. */
  lemma PoolOnOutput(c: Conn)
    requires AtRest(c) && c.link.state == Connected && c.link.working == 0
    ensures c.pipe.sent + c.pipe.output == ResponseStream(c.intake.received)
  {
    TrackedIsInterpret(c.intake);
    assert c.book.inflight == multiset{};
    assert multiset(Answered(c.book.replies)) == multiset(c.intake.done);
    AnyOrderRenders(c.book.replies, c.intake.done);
  }

  /** Responses that keep the connection alive render the same in every order. */
  lemma AnyOrderRenders(rs: seq<Reply>, done: seq<Request>)
    requires (forall r :: r in rs ==> r.KeepAlive()) && multiset(Answered(rs)) == multiset(done)
    ensures Render(rs) == Render(Replies(done, Open))
  {
    AllAnswered(rs);
    assert |done| == |multiset(done)| == |multiset(Answered(rs))| == |rs|;
    forall i | 0 <= i < |done| ensures done[i].keepAlive {
      assert done[i] in multiset(done);
      assert done[i] in Answered(rs);
    }
    RenderUniform(rs, Replies(done, Open));
  }

  /** A connection ended by a half-close guard with the pool on has handed every response to the
      kernel: one 200 for each complete request in the bytes read, and the 400 if there was one. */
  lemma HalfCloseOwesNothing(c: Conn)
    requires OutputInv(c) && HalfClosed(c) && c.pool
    ensures var v := Interpret(FRESH, Lines(c.intake.received));
            && c.pipe.sent == Render(c.book.replies)
            && multiset(Answered(c.book.replies)) == multiset(v.reqs)
            && Rejections(c.book.replies) == if v.end.Bad? then 1 else 0
  {
    TrackedIsInterpret(c.intake);
    assert c.book.inflight == multiset{};
    assert c.pipe.sent + [] == c.pipe.sent;
  }

  /** Until then: completed requests are 200 responses plus requests out with a worker. */
  lemma RequestsAccounted(c: Conn)
    requires OutputInv(c) && c.link.state != Dead
    ensures |c.intake.done| == |Answered(c.book.replies)| + c.link.working
  {
    assert |multiset(c.intake.done)| == |multiset(Answered(c.book.replies)) + c.book.inflight|;
  }
}
