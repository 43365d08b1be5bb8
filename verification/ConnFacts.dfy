/** What one handler does to the output, the book and the link of a connection. */
module ConnFacts {
  import opened Algebra
  import opened Bytes
  import opened Socket
  import opened HttpSpec
  import opened ConnSpec

  // ---- the shape of the two write loops ----

  datatype Flush = AllSent | SomeLeft | Waiting | Broken

  ghost function Settle(w: World, k: Flush): World {
    match k
    case AllSent => Drained(w)
    case SomeLeft => EnableWriting(w)
    case Waiting => w
    case Broken => HandleDead(w, Fatal)
  }

  /** `p` is what is left of `w`'s pipe after some bytes went out, in order. */
  ghost predicate Flushed(w: World, p: Pipe, k: Flush) {
    p.sent + p.output == w.conn.pipe.sent + w.conn.pipe.output && (k.AllSent? <==> p.output == [])
  }

  lemma PushKeepsStream(p: Pipe, n: nat)
    requires n <= |p.output|
    ensures Push(p, n).sent + Push(p, n).output == p.sent + p.output
  {
    assert p.output == p.output[..n] + p.output[n..];
  }

  /** The first answer that is not EINTR is an error other than EAGAIN. */
  predicate FatalWrite(script: seq<WriteOutcome>)
    decreases |script|
  {
    script != [] && (script[0].WriteFailed? || (script[0].WriteInterrupted? && FatalWrite(script[1..])))
  }

  lemma {:induction false} TrySendShape(w: World) returns (p: Pipe, script: seq<WriteOutcome>, k: Flush)
    requires w.conn.pipe.output != []
    ensures TrySend(w) == Settle(SetPipe(w, p).(writeScript := script), k) && Flushed(w, p, k) && !k.Waiting?
    ensures k.Broken? <==> FatalWrite(w.writeScript)
    decreases |w.writeScript|
  {
    p := w.conn.pipe;
    var a := Accept(w.writeScript, |p.output|);
    script := a.writeScript;
    match a.outcome
    case Wrote(n) =>
      PushKeepsStream(p, n);
      p := Push(p, n);
      k := if p.output == [] then AllSent else SomeLeft;
    case WriteAgain => k := SomeLeft;
    case WriteInterrupted => p, script, k := TrySendShape(w.(writeScript := script));
    case WriteFailed => k := Broken;
  }

  lemma {:induction false} WriteLoopShape(w: World) returns (p: Pipe, script: seq<WriteOutcome>, k: Flush)
    requires w.conn.pipe.output != []
    ensures WriteLoop(w) == Settle(SetPipe(w, p).(writeScript := script), k) && Flushed(w, p, k) && !k.SomeLeft?
    decreases |w.writeScript|
  {
    p := w.conn.pipe;
    var a := Accept(w.writeScript, |p.output|);
    script := a.writeScript;
    match a.outcome
    case Wrote(n) =>
      PushKeepsStream(p, n);
      if n == |p.output| {
        p, k := Push(p, n), AllSent;
      } else {
        p, script, k := WriteLoopShape(SetPipe(w.(writeScript := script), Push(p, n)));
      }
    case WriteAgain => k := Waiting;
    case WriteInterrupted => p, script, k := WriteLoopShape(w.(writeScript := script));
    case WriteFailed => k := Broken;
  }

  // ---- sending one response ----

  /** `sendHttpOnLoop` followed by `checkEmptyReadAfterEof`, as at every call site. */
  ghost function SendAndCheck(w: World, r: Reply): World { CheckEmpty(Send(w, r)) }

  lemma RejectIsSendAndCheck(u: World)
    ensures RejectInput(u) == SetIntake(SendAndCheck(u, BadRequest), u.conn.intake.(parser := FRESH))
  {
    var v := Send(u, BadRequest);
    var x := SetIntake(v, v.conn.intake.(parser := FRESH));
    assert CheckEmpty(x) == SetIntake(CheckEmpty(v), x.conn.intake);
  }

  lemma TextNonEmpty(r: Reply)
    ensures r.Text() != []
  {
    if r.Ok? {
      assert r.Text()[|r.Text()| - 1] == BODY[|BODY| - 1];
    } else {
      assert |BUILD_400| >= |CRLF|;
    }
  }

  /** The output grows by exactly the response, whatever the kernel takes of it. */
  ghost predicate SendsReply(w: World, v: World, r: Reply) {
    && v.conn.id == w.conn.id && v.conn.pool == w.conn.pool
    && v.conn.intake == w.conn.intake
    && v.conn.book == w.conn.book.(replies := w.conn.book.replies + [r])
    && v.conn.pipe.sent + v.conn.pipe.output == w.conn.pipe.sent + w.conn.pipe.output + r.Text()
    && v.conn.link.working == w.conn.link.working
    && (v.conn.link.state == Connected ==> w.conn.link.state == Connected && r.KeepAlive())
    && (v.conn.link.readOn ==> w.conn.link.readOn && r.KeepAlive())
    && (HalfClosed(v.conn) ==> v.conn.pipe.output == [] && v.conn.link.working == 0)
    && v.jobs == w.jobs && v.readScript == w.readScript
  }

  ghost predicate HalfClosed(c: Conn) { c.link.state == Dead && c.link.cause == HalfClose }

  /** The fields of `w` and `v` that a flush does not touch. */
  ghost predicate SameButPipe(w: World, v: World) {
    && v.conn.id == w.conn.id && v.conn.pool == w.conn.pool
    && v.conn.intake == w.conn.intake && v.conn.book == w.conn.book
    && v.conn.link.working == w.conn.link.working
    && v.jobs == w.jobs && v.readScript == w.readScript
  }

  lemma SettleFacts(w: World, k: Flush)
    requires w.conn.link.state != Dead && (k.AllSent? <==> w.conn.pipe.output == [])
    ensures var v := Settle(w, k);
            && SameButPipe(w, v) && v.conn.pipe == w.conn.pipe
            && (v.conn.link.state == w.conn.link.state || v.conn.link.state == Dead)
            && v.conn.link.readOn == w.conn.link.readOn
            && (HalfClosed(v.conn) ==> v.conn.pipe.output == [] && v.conn.link.working == 0)
  {
  }

  lemma FinishFacts(w: World, r: Reply)
    requires HalfClosed(w.conn) ==> w.conn.pipe.output == [] && w.conn.link.working == 0
    ensures var v := CheckEmpty(FinishSend(w, r));
            && SameButPipe(w, v) && v.conn.pipe == w.conn.pipe
            && (v.conn.link.state == Connected ==> w.conn.link.state == Connected && r.KeepAlive())
            && (v.conn.link.readOn ==> w.conn.link.readOn && r.KeepAlive())
            && (HalfClosed(v.conn) ==> v.conn.pipe.output == [] && v.conn.link.working == 0)
  {
  }

  lemma AppendedStream(w: World, r: Reply)
    ensures var a := Append(w, r).conn.pipe;
            a.output != [] && a.sent + a.output == w.conn.pipe.sent + w.conn.pipe.output + r.Text()
  {
    TextNonEmpty(r);
    SeqAssoc(w.conn.pipe.sent, w.conn.pipe.output, r.Text());
  }

  lemma SendAndCheckSendsReply(w: World, r: Reply)
    requires w.conn.link.state != Dead
    ensures SendsReply(w, SendAndCheck(w, r), r)
  {
    var a := Append(w, r);
    AppendedStream(w, r);
    var p, script, k := TrySendShape(a);
    SettledReply(w, SetPipe(a, p).(writeScript := script), k, r);
  }

  lemma SettledReply(w: World, x: World, k: Flush, r: Reply)
    requires w.conn.link.state != Dead && (k.AllSent? <==> x.conn.pipe.output == [])
    requires x == Append(w, r).(conn := Append(w, r).conn.(pipe := x.conn.pipe), writeScript := x.writeScript)
    requires x.conn.pipe.sent + x.conn.pipe.output == w.conn.pipe.sent + w.conn.pipe.output + r.Text()
    ensures SendsReply(w, CheckEmpty(FinishSend(Settle(x, k), r)), r)
  {
    SettleFacts(x, k);
    FinishFacts(Settle(x, k), r);
  }

  // ---- half-closed connections do not linger ----

  /** Alive with nothing to send, nothing out with a worker, and no more to come. */
  ghost predicate Lingers(c: Conn) {
    c.link.state != Dead && Closing(c.link) && c.pipe.output == []
  }

  /** Part of a request has been read. */
  predicate MidRequest(i: Intake) { i.end.Open? && (i.parser.phase.ExpectHeaders? || i.input != []) }

  ghost predicate NoLinger(c: Conn) { Lingers(c) ==> MidRequest(c.intake) }

  lemma CheckEmptyNoLinger(w: World)
    ensures !Lingers(CheckEmpty(w).conn)
  {
  }

  lemma {:induction false} NeedMoreInHeaders(p: Parser, s: bytes)
    requires p.phase.ExpectHeaders? && ParseStep(p, s).result.NeedMore?
    ensures ParseStep(p, s).parser.phase.ExpectHeaders?
    decreases |s|
  {
    ParseLine(p, s);
    match FindCrlf(s)
    case None =>
    case Some(i) =>
      match FeedLine(p, s[..i])
      case Continue(q) => NeedMoreInHeaders(q, s[i + 2..]);
      case _ =>
  }

  lemma NeedMoreMidRequest(i: Intake)
    requires MidRequest(i) && ParseStep(i.parser, i.input).result.NeedMore?
    ensures MidRequest(Parsed(i))
  {
    ParseLine(i.parser, i.input);
    match FindCrlf(i.input)
    case None =>
    case Some(k) =>
      match FeedLine(i.parser, i.input[..k])
      case Continue(q) => NeedMoreInHeaders(q, i.input[k + 2..]);
      case _ =>
  }

  /** The parse loop leaves a half-closed connection with nothing to send only in the middle of a
      request: the early `break` for more data skips the half-close check. */
  lemma {:induction false} HttpLoopNoLinger(w: World)
    requires w.conn.link.working >= 0 && w.conn.intake.end.Open?
    requires Lingers(w.conn) ==> MidRequest(w.conn.intake)
    ensures NoLinger(HttpLoop(w).conn)
    decreases |w.conn.intake.input|
  {
    if w.conn.link.state != Dead {
      var i := w.conn.intake;
      var r := ParseStep(i.parser, i.input);
      var u := SetIntake(w, Parsed(i));
      match r.result
      case NeedMore =>
        if Lingers(w.conn) {
          NeedMoreMidRequest(i);
        }
      case LineTooLong => CheckEmptyNoLinger(SetLink(DisableReading(u), DisableReading(u).conn.link.(state := PeerClose)));
      case Error =>
        RejectIsSendAndCheck(u);
        CheckEmptyNoLinger(Send(u, BadRequest));
      case Complete =>
        ServeNoLinger(u, r.parser.current);
        HttpLoopNoLinger(Serve(u, r.parser.current));
    }
  }

  lemma ServeNoLinger(w: World, req: Request)
    requires w.conn.link.working >= 0 && w.conn.link.state != Dead
    ensures !Lingers(Serve(w, req).conn) && Serve(w, req).conn.link.working >= 0
  {
    if !w.conn.pool {
      CheckEmptyNoLinger(Send(w, Ok(req)));
      SendAndCheckSendsReply(w, Ok(req));
    }
  }

  lemma OnHttpNoLinger(w: World)
    requires ReadLoop(w).conn.link.working >= 0 && ReadLoop(w).conn.intake.end.Open?
    ensures NoLinger(OnHttp(w).conn)
  {
    var v := ReadLoop(w);
    if v.conn.intake.input == [] {
      CheckEmptyNoLinger(v);
    } else {
      HttpLoopNoLinger(v);
    }
  }

  lemma WriteLoopNoLinger(w: World)
    requires w.conn.pipe.output != []
    ensures !Lingers(WriteLoop(w).conn)
  {
    var p, script, k := WriteLoopShape(w);
  }

  /** At the end of file with all answers sent and no complete request left, the connection survives
      exactly if a part of a request is in the buffer. */
  lemma EofMidRequest(w: World)
    requires var v := ReadLoop(w);
             && v.conn.link.state == PeerClose && v.conn.link.working == 0 && v.conn.pipe.output == []
             && ParseStep(v.conn.intake.parser, v.conn.intake.input).result.NeedMore?
    ensures OnHttp(w).conn.link.state != Dead <==> ReadLoop(w).conn.intake.input != []
  {
  }

  // ---- edge-triggered events ----

  predicate EndsReading(r: ReadOutcome) { r.ReadAgain? || r.ReadFailed? || r == Got([]) }

  /** The bytes that arrive before the first answer that ends the reading. */
  function Arriving(script: seq<ReadOutcome>): bytes {
    if script == [] || EndsReading(script[0]) then []
    else (if script[0].Got? then script[0].data else []) + Arriving(script[1..])
  }

  function AnswersTaken(script: seq<ReadOutcome>): nat {
    if script == [] then 0 else if EndsReading(script[0]) then 1 else 1 + AnswersTaken(script[1..])
  }

  /** The read loop takes everything there is, up to EAGAIN, the end of file or an error, as
      edge-triggered polling requires. */
  lemma {:induction false} ReadsUntilBlocked(w: World)
    ensures var v := ReadLoop(w);
            && v.conn.intake.received == w.conn.intake.received + Arriving(w.readScript)
            && v.conn.intake.input == w.conn.intake.input + Arriving(w.readScript)
            && AnswersTaken(w.readScript) <= |w.readScript|
            && v.readScript == w.readScript[AnswersTaken(w.readScript)..]
    decreases |w.readScript|
  {
    if w.readScript != [] && !EndsReading(w.readScript[0]) {
      var u := w.(readScript := w.readScript[1..]);
      if w.readScript[0].Got? {
        var i := u.conn.intake;
        ReadsUntilBlocked(SetIntake(u, i.(input := i.input + w.readScript[0].data, received := i.received + w.readScript[0].data)));
      } else {
        ReadsUntilBlocked(u);
      }
    }
  }

  /** The write loop leaves bytes behind on a live connection only after EAGAIN. */
  lemma {:induction false} WritesUntilBlocked(w: World) returns (k: nat)
    ensures k <= |w.writeScript| && WriteLoop(w).writeScript == w.writeScript[k..]
    ensures var c := WriteLoop(w).conn;
            c.link.state != Dead && c.pipe.output != [] ==>
              k == |w.writeScript| || (k > 0 && w.writeScript[k - 1].WriteAgain?)
    decreases |w.writeScript|
  {
    k := 0;
    if w.conn.pipe.output != [] && w.writeScript != [] {
      var a := Accept(w.writeScript, |w.conn.pipe.output|);
      var u := w.(writeScript := a.writeScript);
      var j := 0;
      match a.outcome {
        case Wrote(n) =>
          if n < |w.conn.pipe.output| {
            j := WritesUntilBlocked(SetPipe(u, Push(w.conn.pipe, n)));
          }
        case WriteInterrupted => j := WritesUntilBlocked(u);
        case _ =>
      }
      k := 1 + j;
      assert w.writeScript[1..][j..] == w.writeScript[k..];
    }
  }
}
