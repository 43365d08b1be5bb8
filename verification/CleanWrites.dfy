/** A connection whose writes never fail fatally: its handlers never revive it. */
module CleanWrites {
  import opened Socket
  import opened HttpSpec
  import opened Timers
  import opened ConnSpec
  import opened ConnFacts
  import opened ConnLife

  predicate Clean(script: seq<WriteOutcome>) {
    forall k :: 0 <= k < |script| ==> !script[k].WriteFailed?
  }

  ghost predicate Spared(w: World, v: World) {
    Clean(w.writeScript) ==> Clean(v.writeScript) && v.conn.link.closeFailed == w.conn.link.closeFailed
  }

  /** Spared, and a connection that dies in `trySendToSck` has sent all it had. */
  ghost predicate SparedSending(w: World, v: World) {
    Spared(w, v) && (Clean(w.writeScript) && !Live(v.conn) ==> v.conn.link.cause == HalfClose)
  }

  lemma CleanAnswer(script: seq<WriteOutcome>, n: Positive)
    requires Clean(script)
    ensures Clean(Accept(script, n).writeScript) && !Accept(script, n).outcome.WriteFailed?
  {
  }

  lemma SettledSpared(w: World, k: Flush)
    requires Live(w.conn) && !k.Broken?
    ensures Settle(w, k).writeScript == w.writeScript
    ensures Settle(w, k).conn.link.closeFailed == w.conn.link.closeFailed
    ensures !Live(Settle(w, k).conn) ==> Settle(w, k).conn.link.cause == HalfClose
  {
  }

  lemma {:induction false} TrySendSpared(w: World)
    requires Live(w.conn)
    ensures SparedSending(w, TrySend(w))
    decreases |w.writeScript|
  {
    if w.conn.pipe.output != [] && Clean(w.writeScript) {
      var n := |w.conn.pipe.output|;
      var a := Accept(w.writeScript, n);
      var u := w.(writeScript := a.writeScript);
      CleanAnswer(w.writeScript, n);
      match a.outcome
      case Wrote(m) => SettledSpared(SetPipe(u, Push(w.conn.pipe, m)), if m == n then AllSent else SomeLeft);
      case WriteInterrupted => TrySendSpared(u);
      case _ => SettledSpared(u, SomeLeft);
    }
  }

  lemma {:induction false} WriteLoopSpared(w: World)
    ensures Spared(w, WriteLoop(w))
    decreases |w.writeScript|
  {
    if w.conn.pipe.output != [] {
      var a := Accept(w.writeScript, |w.conn.pipe.output|);
      var u := w.(writeScript := a.writeScript);
      match a.outcome
      case Wrote(n) => WriteLoopSpared(SetPipe(u, Push(w.conn.pipe, n)));
      case WriteInterrupted => WriteLoopSpared(u);
      case _ =>
    }
  }

  lemma SendSpared(w: World, r: Reply)
    requires Live(w.conn)
    ensures Spared(w, SendAndCheck(w, r)) && Spared(w, Send(w, r))
  {
    TrySendSpared(Append(w, r));
  }

  lemma ServeSpared(w: World, req: Request)
    requires Live(w.conn)
    ensures Spared(w, Serve(w, req)) && Spared(w, RejectInput(w)) && Spared(w, RefuseInput(w))
  {
    SendSpared(w, Ok(req));
    SendSpared(w, BadRequest);
    RejectIsSendAndCheck(w);
  }

  lemma {:induction false} HttpLoopSpared(w: World)
    ensures Spared(w, HttpLoop(w))
    decreases |w.conn.intake.input|
  {
    if Live(w.conn) {
      var i := w.conn.intake;
      var r := ParseStep(i.parser, i.input);
      var u := SetIntake(w, Parsed(i));
      ServeSpared(u, r.parser.current);
      if r.result.Complete? {
        HttpLoopSpared(Serve(u, r.parser.current));
      }
    }
  }

  lemma {:induction false} ReadLoopSpared(w: World)
    ensures Spared(w, ReadLoop(w))
    decreases |w.readScript|
  {
    if w.readScript != [] {
      var u := w.(readScript := w.readScript[1..]);
      match w.readScript[0]
      case Got(data) =>
        var i := u.conn.intake;
        ReadLoopSpared(SetIntake(u, i.(input := i.input + data, received := i.received + data)));
      case ReadInterrupted => ReadLoopSpared(u);
      case _ =>
    }
  }

  lemma HandleSpared(w: World, canRead: bool, canWrite: bool, t1: Time, t2: Time)
    ensures Spared(w, Handle(w, canRead, canWrite, t1, t2))
  {
    var v := RefreshTimer(w, t1);
    ReadLoopSpared(v);
    HttpLoopSpared(ReadLoop(v));
    var u := if canRead then ReadCallback(w, t1) else w;
    WriteLoopSpared(RefreshTimer(u, t2));
  }

  lemma RunAnswerSpared(w: World, req: Request)
    ensures Spared(w, RunAnswer(w, req))
  {
    if Live(w.conn) {
      SendSpared(TakeAnswer(w, req), Ok(req));
    }
  }
}
