/** Requests followed by the end of file, without the pool. include/Connection.h promises that all
    that was read before the end of file is answered, that is, that the response is sent or at least
    buffered. The code keeps that promise exactly when no answer but the last one drains the write
    buffer or, on a connection to be kept alive, fails to be written. */
module Eof {
  import opened Algebra
  import opened Bytes
  import opened Socket
  import opened HttpSpec
  import opened ConnSpec
  import opened ConnFacts
  import opened ConnOutput
  import opened ConnLife
  import opened ConnLaws
  import opened HttpFacts
  import opened Client

  // ---- the condition ----

  /** Does the loop go on to the next request after `r` was flushed this way? A closing response
      survives even a failed write. */
  predicate GoesOn(f: Flushing, r: Reply) { f.k.SomeLeft? || (f.k.Broken? && !r.KeepAlive()) }

  /** After every answer but the last the loop goes on. */
  predicate AlwaysGoesOn(buffered: nat, script: seq<WriteOutcome>, rs: seq<Reply>)
    decreases |rs|
  {
    |rs| <= 1
    || (GoesOn(FlushReply(buffered, script, rs[0]), rs[0])
        && AlwaysGoesOn(FlushReply(buffered, script, rs[0]).left, FlushReply(buffered, script, rs[0]).script, rs[1..]))
  }

  // ---- one answer ----

  ghost predicate AfterEof(w: World) {
    w.conn.link.state == PeerClose && w.conn.link.working == 0 && !w.conn.pool
  }

  ghost function Stream(c: Conn): bytes { c.pipe.sent + c.pipe.output }

  lemma AnswerAfterEof(w: World, r: Reply)
    requires AfterEof(w)
    ensures var v := SendAndCheck(w, r); var f := FlushReply(|w.conn.pipe.output|, w.writeScript, r);
            && Stream(v.conn) == Stream(w.conn) + r.Text() && v.conn.intake == w.conn.intake
            && (Live(v.conn) <==> GoesOn(f, r))
            && (Live(v.conn) ==> AfterEof(v) && |v.conn.pipe.output| == f.left && v.writeScript == f.script)
  {
    AnswerObeysLaw(w, r);
  }

  // ---- the loop ----

  /** The answers due for what is buffered. */
  function Due(i: Intake): seq<Reply> {
    var d := Drain(i.parser, i.input);
    Replies(d.reqs, d.end)
  }

  lemma DueStep(i: Intake)
    requires ParseStep(i.parser, i.input).result.Complete?
    ensures Due(i) == [Ok(ParseStep(i.parser, i.input).parser.current)] + Due(Parsed(i))
  {
    var d := Drain(FRESH, Parsed(i).input);
    RepliesHead(ParseStep(i.parser, i.input).parser.current, d.reqs, d.end);
  }

  lemma NothingMissing(a: bytes, b: bytes, rs: seq<Reply>)
    ensures a == a + b + Render(rs) ==> b == []
    ensures a + b == a + (b + Render(rs)) <==> rs == []
  {
    if rs != [] {
      TextNonEmpty(rs[|rs| - 1]);
      assert |a + (b + Render(rs))| > |a + b|;
    }
  }

  /** After the end of file the loop answers all that is due exactly if it goes on to the last. */
  lemma {:induction false} LoopAfterEof(w: World)
    requires AfterEof(w)
    ensures Stream(HttpLoop(w).conn) == Stream(w.conn) + Render(Due(w.conn.intake))
            <==> AlwaysGoesOn(|w.conn.pipe.output|, w.writeScript, Due(w.conn.intake))
    decreases |w.conn.intake.input|
  {
    var i := w.conn.intake;
    var r := ParseStep(i.parser, i.input);
    var u := SetIntake(w, Parsed(i));
    match r.result
    case NeedMore => assert Due(i) == [];
    case LineTooLong => assert Due(i) == [];
    case Error => RejectedAfterEof(w, u);
    case Complete =>
      var reply := Ok(r.parser.current);
      var v := SendAndCheck(u, reply);
      AnswerAfterEof(u, reply);
      DueStep(i);
      RenderHead(reply, Due(Parsed(i)));
      if Live(v.conn) {
        LoopAfterEof(v);
        SeqAssoc(Stream(w.conn), reply.Text(), Render(Due(Parsed(i))));
        assert AlwaysGoesOn(|w.conn.pipe.output|, w.writeScript, Due(i))
          <==> AlwaysGoesOn(|v.conn.pipe.output|, v.writeScript, Due(Parsed(i))) by {
          assert Due(i)[1..] == Due(Parsed(i));
        }
      } else {
        NothingMissing(Stream(w.conn), reply.Text(), Due(Parsed(i)));
        assert HttpLoop(v) == v;
      }
  }

  lemma RejectedAfterEof(w: World, u: World)
    requires AfterEof(w) && u == SetIntake(w, Parsed(w.conn.intake))
    requires ParseStep(w.conn.intake.parser, w.conn.intake.input).result.Error?
    ensures Due(w.conn.intake) == [BadRequest]
    ensures Stream(RejectInput(u).conn) == Stream(w.conn) + Render([BadRequest])
  {
    RejectIsSendAndCheck(u);
    AnswerAfterEof(u, BadRequest);
    AppendReply([], BadRequest);
    assert [] + [BadRequest] == [BadRequest] && Render([]) + BUILD_400 == BUILD_400;
  }

  // ---- the handler ----

  lemma RepliesSplit(done: seq<Request>, more: seq<Request>, end: End)
    ensures Replies(done + more, end) == Replies(done, Open) + Replies(more, end)
  {
  }

  /** The answers given and the answers due make up the whole response stream. */
  lemma StreamIsSplit(c: Conn)
    requires OutputInv(c) && !c.pool && c.intake.end.Open?
    ensures ResponseStream(c.intake.received) == Stream(c) + Render(Due(c.intake))
  {
    var d := Drain(c.intake.parser, c.intake.input);
    DrainIsInterpret(FRESH, c.intake.received);
    RepliesSplit(c.intake.done, d.reqs, d.end);
    RenderConcat(Replies(c.intake.done, Open), Due(c.intake));
  }

  /** One read event that meets the end of file, in a server without pool: everything read is answered,
      by bytes sent or buffered, exactly if no answer but the last drains the write buffer or fails
      while keeping alive. */
  lemma AnsweredBeforeEof(w: World)
    requires AtRest(w.conn) && Live(w.conn) && w.conn.link.readOn && !w.conn.pool
    requires ReadLoop(w).conn.link.state == PeerClose
    ensures var c := OnHttp(w).conn; var i := ReadLoop(w).conn.intake;
            && c.intake.received == i.received
            && (Stream(c) == ResponseStream(c.intake.received)
                <==> AlwaysGoesOn(|w.conn.pipe.output|, w.writeScript, Due(i)))
  {
    var v := ReadLoop(w);
    ReadLoopReceives(w);
    ReadLoopTracks(w);
    ReceivedInv(w, v);
    StreamIsSplit(v.conn);
    if v.conn.intake.input == [] {
      assert Due(v.conn.intake) == [];
    } else {
      LoopAfterEof(v);
      LoopKeepsReceived(v);
    }
  }

  // ---- a client that loses an answer ----

  /** If the first answer drains, it is the last. */
  lemma FirstAnswerDrains(w: World)
    requires AfterEof(w) && ParseStep(w.conn.intake.parser, w.conn.intake.input).result.Complete?
    requires var r := Ok(ParseStep(w.conn.intake.parser, w.conn.intake.input).parser.current);
             FlushReply(|w.conn.pipe.output|, w.writeScript, r).k.AllSent?
    ensures var r := Ok(ParseStep(w.conn.intake.parser, w.conn.intake.input).parser.current); var v := HttpLoop(w);
            !Live(v.conn) && Stream(v.conn) == Stream(w.conn) + r.Text()
  {
    var u := SetIntake(w, Parsed(w.conn.intake));
    var r := Ok(ParseStep(w.conn.intake.parser, w.conn.intake.input).parser.current);
    AnswerAfterEof(u, r);
    assert HttpLoop(w) == HttpLoop(SendAndCheck(u, r));
  }

  lemma ReadThenEof(w: World, data: bytes, v: World)
    requires w.readScript == [Got(data), Got([])] && data != [] && w.conn.intake.input == []
    requires v == ReadLoop(w)
    ensures v.conn.link == w.conn.link.(state := PeerClose) && v.conn.pipe == w.conn.pipe && v.writeScript == w.writeScript
    ensures v.conn.intake == w.conn.intake.(input := data, received := w.conn.intake.received + data)
    ensures v.conn.pool == w.conn.pool
  {
    assert w.readScript[1..] == [Got([])] && [] + data == data;
  }

  lemma TwoPrinted(a: Get, b: Get)
    requires ValidPath(a.path) && ValidPath(b.path)
    ensures Drain(FRESH, PrintAll([a, b])) == Outcome([Expected(a), Expected(b)], Open, FRESH, [])
  {
    var gs := [a, b];
    assert forall g :: g in gs ==> g == a || g == b;
    PrintAllReadBack(gs);
    assert gs[1..] == [b] && [b][1..] == [];
    assert ExpectAll([b]) == [Expected(b)];
  }

  lemma TwoDue(a: Get, b: Get, i: Intake)
    requires ValidPath(a.path) && ValidPath(b.path) && i.parser == FRESH && i.input == PrintAll([a, b])
    ensures Due(i) == [Ok(Expected(a)), Ok(Expected(b))] && i.input != []
    ensures ParseStep(FRESH, i.input).result.Complete? && ParseStep(FRESH, i.input).parser.current == Expected(a)
  {
    var reqs := [Expected(a), Expected(b)];
    TwoPrinted(a, b);
    assert Drain(FRESH, i.input).reqs == reqs && reqs[0] == Expected(a);
    FirstOfDrain(FRESH, i.input);
    TwoReplies(Expected(a), Expected(b));
  }

  lemma TwoReplies(a: Request, b: Request)
    ensures Replies([a, b], Open) == [Ok(a), Ok(b)]
  {
    var rs := Replies([a, b], Open);
    assert |rs| == 2 && rs[0] == Ok(a) && rs[1] == Ok(b);
  }

  lemma FirstOfDrain(p: Parser, s: bytes)
    requires Drain(p, s).reqs != []
    ensures s != []
    ensures ParseStep(p, s).result.Complete? && ParseStep(p, s).parser.current == Drain(p, s).reqs[0]
  {
  }

  /** Two valid requests and the end of file arrive together, and the kernel takes the first answer
      whole: the second is never answered. */
  lemma SecondAnswerLost(w: World, a: Get, b: Get, n: Positive, rest: seq<WriteOutcome>)
    requires AtRest(w.conn) && w.conn.link.state == Connected && w.conn.link.readOn && !w.conn.pool
    requires w.conn.intake.parser == FRESH && w.conn.intake.input == [] && w.conn.pipe.output == []
    requires w.readScript == [Got(PrintAll([a, b])), Got([])] && w.writeScript == [Wrote(n)] + rest
    requires ValidPath(a.path) && ValidPath(b.path) && n >= |BuildResponse(Expected(a))|
    ensures var c := OnHttp(w).conn;
            && c.intake.received == w.conn.intake.received + PrintAll([a, b])
            && !Live(c) && Stream(c) == Stream(w.conn) + BuildResponse(Expected(a)) != ResponseStream(c.intake.received)
  {
    var v := ReadLoop(w);
    TwoDue(a, b, w.conn.intake.(input := PrintAll([a, b]), received := w.conn.intake.received + PrintAll([a, b])));
    ReadThenEof(w, PrintAll([a, b]), v);
    TextNonEmpty(Ok(Expected(a)));
    FirstAnswerDrains(v);
    AnsweredBeforeEof(w);
  }
}
