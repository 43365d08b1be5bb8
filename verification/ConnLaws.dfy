/** What each handler leaves of a connection, told from the outside: its state, its mask and its bytes as
    functions of what they were before and of the answers of the system calls, for every script of
    answers. Nothing here looks at a cause or at any other history the handlers write. */
module ConnLaws {
  import opened Algebra
  import opened Bytes
  import opened Socket
  import opened HttpSpec
  import opened Timers
  import opened ConnSpec
  import opened ConnFacts

  predicate Alive(c: Conn) { c.link.state != Dead }

  // ---- one attempt to write ----

  datatype Flushing = Flushing(k: Flush, left: nat, script: seq<WriteOutcome>)

  /** What `trySendToSck` makes of `n` buffered bytes: one answer, interruptions aside. */
  function FlushOf(n: Positive, script: seq<WriteOutcome>): (f: Flushing)
    ensures f.left <= n && !f.k.Waiting? && (f.k.AllSent? <==> f.left == 0)
    decreases |script|
  {
    if script == [] then Flushing(SomeLeft, n, [])
    else
      match script[0]
      case Wrote(m) => if m >= n then Flushing(AllSent, 0, script[1..]) else Flushing(SomeLeft, n - m, script[1..])
      case WriteAgain => Flushing(SomeLeft, n, script[1..])
      case WriteInterrupted => FlushOf(n, script[1..])
      case WriteFailed => Flushing(Broken, n, script[1..])
  }

  /** The number of interruptions in front of a script. */
  function Interruptions(script: seq<WriteOutcome>): (k: nat)
    ensures k <= |script| && (forall j :: 0 <= j < k ==> script[j].WriteInterrupted?)
    ensures k < |script| ==> !script[k].WriteInterrupted?
  {
    if script == [] || !script[0].WriteInterrupted? then 0 else 1 + Interruptions(script[1..])
  }

  /** It is decided by the first answer that is no interruption. */
  lemma {:induction false} FlushIsFirstAnswer(n: Positive, script: seq<WriteOutcome>)
    ensures var k := Interruptions(script); var f := FlushOf(n, script);
            if k == |script| then f == Flushing(SomeLeft, n, [])
            else f.script == script[k + 1..]
                 && match script[k]
                    case Wrote(m) => f.left == (if m >= n then 0 else n - m) && f.k == if m >= n then AllSent else SomeLeft
                    case WriteAgain => f.left == n && f.k == SomeLeft
                    case WriteInterrupted => false
                    case WriteFailed => f.left == n && f.k == Broken
    decreases |script|
  {
    if script != [] && script[0].WriteInterrupted? {
      FlushIsFirstAnswer(n, script[1..]);
      assert script[1..][Interruptions(script[1..])..] == script[Interruptions(script)..];
    }
  }

  ghost predicate SentBy(w: World, v: World) {
    var n := |w.conn.pipe.output|;
    n > 0 && var f := FlushOf(n, w.writeScript);
    v == Settle(SetPipe(w, Push(w.conn.pipe, n - f.left)).(writeScript := f.script), f.k)
  }

  lemma NothingPushed(w: World, script: seq<WriteOutcome>)
    ensures SetPipe(w, Push(w.conn.pipe, 0)).(writeScript := script) == w.(writeScript := script)
  {
    assert Push(w.conn.pipe, 0) == w.conn.pipe;
  }

  lemma PushedByAnswer(w: World, m: Positive)
    requires w.conn.pipe.output != [] && w.writeScript != [] && w.writeScript[0] == Wrote(m)
    ensures SentBy(w, TrySend(w))
  {
    var n := |w.conn.pipe.output|;
    var k := if m >= n then n else m;
    assert Accept(w.writeScript, n) == Acceptance(Wrote(k), w.writeScript[1..]);
    assert SetPipe(w.(writeScript := w.writeScript[1..]), Push(w.conn.pipe, k))
           == SetPipe(w, Push(w.conn.pipe, k)).(writeScript := w.writeScript[1..]);
  }

  lemma SentAtOnce(w: World)
    requires w.conn.pipe.output != [] && (w.writeScript == [] || !w.writeScript[0].WriteInterrupted?)
    ensures SentBy(w, TrySend(w))
  {
    if w.writeScript == [] {
      NothingPushed(w, []);
    } else if w.writeScript[0].Wrote? {
      PushedByAnswer(w, w.writeScript[0].n);
    } else {
      NothingPushed(w, w.writeScript[1..]);
    }
  }

  lemma {:induction false} TrySendFlush(w: World)
    requires w.conn.pipe.output != []
    ensures SentBy(w, TrySend(w))
    decreases |w.writeScript|
  {
    if w.writeScript != [] && w.writeScript[0].WriteInterrupted? {
      TrySendFlush(w.(writeScript := w.writeScript[1..]));
    } else {
      SentAtOnce(w);
    }
  }

  function FlushReply(buffered: nat, script: seq<WriteOutcome>, r: Reply): Flushing {
    TextNonEmpty(r);
    FlushOf(buffered + |r.Text()|, script)
  }

  // ---- one answer ----

  /** The state after a response: a fatal write ends a connection that was to be kept and leaves one that
      was to be closed half closed; a response that goes out ends a half-closed connection, or one it
      closes, if no worker is out; otherwise only a closing response changes anything. */
  function AfterAnswer(state: ConnState, working: int, keep: bool, k: Flush): ConnState {
    match k
    case Broken => if keep then Dead else PeerClose
    case AllSent =>
      if working == 0 && (!keep || state == PeerClose) then Dead else if keep then state else PeerClose
    case _ => if keep then state else PeerClose
  }

  ghost predicate AnswerLaw(w: World, r: Reply, v: World) {
    var f := FlushReply(|w.conn.pipe.output|, w.writeScript, r);
    && v.conn.link.state == AfterAnswer(w.conn.link.state, w.conn.link.working, r.KeepAlive(), f.k)
    && (Alive(v.conn) ==> v.conn.link.writeOn == if f.k.Broken? then w.conn.link.writeOn else f.k.SomeLeft?)
    && v.conn.link.readOn == (w.conn.link.readOn && r.KeepAlive())
    && v.conn.link.working == w.conn.link.working
    && |v.conn.pipe.output| == f.left
    && v.conn.pipe.sent + v.conn.pipe.output == w.conn.pipe.sent + w.conn.pipe.output + r.Text()
    && v.conn.book == w.conn.book.(replies := w.conn.book.replies + [r])
    && v.conn.intake == w.conn.intake && v.conn.id == w.conn.id && v.conn.pool == w.conn.pool
    && v.writeScript == f.script && v.readScript == w.readScript && v.jobs == w.jobs
  }

  ghost predicate Settled(x: World, k: Flush, r: Reply, v: World) {
    && v.conn.link.state == AfterAnswer(x.conn.link.state, x.conn.link.working, r.KeepAlive(), k)
    && (Alive(v.conn) ==> v.conn.link.writeOn == if k.Broken? then x.conn.link.writeOn else k.SomeLeft?)
    && v.conn.link.readOn == (x.conn.link.readOn && r.KeepAlive())
    && v.conn.pipe == x.conn.pipe && v.writeScript == x.writeScript
  }

  lemma AllSentState(x: World, r: Reply)
    requires Alive(x.conn) && x.conn.pipe.output == []
    ensures Settled(x, AllSent, r, CheckEmpty(FinishSend(Drained(x), r)))
  {
  }

  lemma SomeLeftState(x: World, r: Reply)
    requires Alive(x.conn) && x.conn.pipe.output != []
    ensures Settled(x, SomeLeft, r, CheckEmpty(FinishSend(EnableWriting(x), r)))
  {
  }

  lemma BrokenState(x: World, r: Reply)
    requires Alive(x.conn) && x.conn.pipe.output != []
    ensures Settled(x, Broken, r, CheckEmpty(FinishSend(HandleDead(x, Fatal), r)))
  {
  }

  lemma SettledState(x: World, k: Flush, r: Reply)
    requires Alive(x.conn) && !k.Waiting? && (k.AllSent? <==> x.conn.pipe.output == [])
    ensures Settled(x, k, r, CheckEmpty(FinishSend(Settle(x, k), r)))
  {
    match k
    case AllSent => AllSentState(x, r);
    case SomeLeft => SomeLeftState(x, r);
    case Broken => BrokenState(x, r);
  }

  lemma AppendedState(w: World, a: World, r: Reply)
    requires Alive(w.conn) && a == Append(w, r)
    ensures var v := CheckEmpty(FinishSend(TrySend(a), r)); var f := FlushReply(|w.conn.pipe.output|, w.writeScript, r);
            && v.conn.link.state == AfterAnswer(w.conn.link.state, w.conn.link.working, r.KeepAlive(), f.k)
            && (Alive(v.conn) ==> v.conn.link.writeOn == if f.k.Broken? then w.conn.link.writeOn else f.k.SomeLeft?)
            && v.conn.link.readOn == (w.conn.link.readOn && r.KeepAlive())
            && |v.conn.pipe.output| == f.left && v.writeScript == f.script
  {
    AppendedLength(w, a, r);
    TrySendFlush(a);
    FlushedState(a, FlushReply(|w.conn.pipe.output|, w.writeScript, r), r);
  }

  lemma AppendedLength(w: World, a: World, r: Reply)
    requires a == Append(w, r)
    ensures a.conn.pipe.output != [] && a.conn.link == w.conn.link
    ensures FlushOf(|a.conn.pipe.output|, a.writeScript) == FlushReply(|w.conn.pipe.output|, w.writeScript, r)
  {
    TextNonEmpty(r);
    assert |a.conn.pipe.output| == |w.conn.pipe.output| + |r.Text()|;
  }

  lemma FlushedState(a: World, f: Flushing, r: Reply)
    requires Alive(a.conn) && a.conn.pipe.output != [] && f.left <= |a.conn.pipe.output|
    requires !f.k.Waiting? && (f.k.AllSent? <==> f.left == 0)
    requires TrySend(a) == Settle(SetPipe(a, Push(a.conn.pipe, |a.conn.pipe.output| - f.left)).(writeScript := f.script), f.k)
    ensures var v := CheckEmpty(FinishSend(TrySend(a), r));
            && v.conn.link.state == AfterAnswer(a.conn.link.state, a.conn.link.working, r.KeepAlive(), f.k)
            && (Alive(v.conn) ==> v.conn.link.writeOn == if f.k.Broken? then a.conn.link.writeOn else f.k.SomeLeft?)
            && v.conn.link.readOn == (a.conn.link.readOn && r.KeepAlive())
            && |v.conn.pipe.output| == f.left && v.writeScript == f.script
  {
    SettledState(SetPipe(a, Push(a.conn.pipe, |a.conn.pipe.output| - f.left)).(writeScript := f.script), f.k, r);
  }

  /** `sendHttpOnLoop` and the check behind it, on a live connection. */
  lemma AnswerObeysLaw(w: World, r: Reply)
    requires Alive(w.conn)
    ensures AnswerLaw(w, r, SendAndCheck(w, r))
  {
    SendAndCheckSendsReply(w, r);
    AppendedState(w, Append(w, r), r);
  }

  // ---- the write callback ----

  datatype Writing = Writing(left: nat, used: nat)

  /** The loop of the write callback: `n` bytes are written until they are out, or an answer stops it. */
  function WritingOf(n: nat, script: seq<WriteOutcome>): (g: Writing)
    ensures g.left <= n && g.used <= |script|
    decreases |script|
  {
    if n == 0 || script == [] then Writing(n, 0)
    else
      match script[0]
      case Wrote(m) =>
        if m >= n then Writing(0, 1)
        else
          var g := WritingOf(n - m, script[1..]);
          g.(used := g.used + 1)
      case WriteInterrupted =>
        var g := WritingOf(n, script[1..]);
        g.(used := g.used + 1)
      case _ => Writing(n, 1)
  }

  /** The bytes a list of answers takes. */
  function TotalTaken(script: seq<WriteOutcome>): nat {
    if script == [] then 0 else Taken(script[0]) + TotalTaken(script[1..])
  }

  predicate Stops(o: WriteOutcome) { o.WriteAgain? || o.WriteFailed? }

  predicate FailedIn(script: seq<WriteOutcome>, used: nat)
    requires used <= |script|
  {
    exists j :: 0 <= j < used && script[j].WriteFailed?
  }

  /** The answers used take all the bytes that leave, none of them but the last stops the loop, and
      bytes stay behind only after an answer that stops it, or at the end of the script. */
  lemma {:induction false} WritingIsScript(n: nat, script: seq<WriteOutcome>)
    ensures var g := WritingOf(n, script);
            && n - g.left == Min(n, TotalTaken(script[..g.used]))
            && (forall j :: 0 <= j < g.used - 1 ==> !Stops(script[j]))
            && (g.left > 0 ==> g.used == |script| || (g.used > 0 && Stops(script[g.used - 1])))
            && (g.left == 0 ==> !FailedIn(script, g.used))
    decreases |script|
  {
    var g := WritingOf(n, script);
    if n > 0 && script != [] {
      var rest := script[1..];
      if !Stops(script[0]) && !(script[0].Wrote? && script[0].n >= n) {
        WritingIsScript(n - Taken(script[0]), rest);
        assert script[..g.used][1..] == rest[..g.used - 1];
      } else {
        assert script[..1][1..] == [];
      }
    }
  }

  /** What the loop leaves, in terms of the answers it used. */
  ghost predicate WrittenLaw(w: World, v: World) {
    var g := WritingOf(|w.conn.pipe.output|, w.writeScript);
    && v.writeScript == w.writeScript[g.used..] && |v.conn.pipe.output| == g.left
    && v.conn.pipe.sent + v.conn.pipe.output == w.conn.pipe.sent + w.conn.pipe.output
    && (!Alive(v.conn) <==> FailedIn(w.writeScript, g.used)
                            || (g.left == 0 && w.conn.link.state == PeerClose && w.conn.link.working == 0))
    && (Alive(v.conn) ==> v.conn.link.state == w.conn.link.state)
    && (Alive(v.conn) ==> v.conn.link.writeOn == (w.conn.link.writeOn && g.left > 0))
    && v.conn.link.readOn == w.conn.link.readOn && v.conn.link.working == w.conn.link.working
    && v.conn.intake == w.conn.intake && v.conn.book == w.conn.book
    && v.conn.id == w.conn.id && v.conn.pool == w.conn.pool && v.jobs == w.jobs
  }

  lemma WriteStep(w: World)
    requires w.conn.pipe.output != [] && w.writeScript != []
    ensures var u := w.(writeScript := w.writeScript[1..]); var n := |w.conn.pipe.output|;
            WriteLoop(w) ==
              match w.writeScript[0]
              case Wrote(m) =>
                if m >= n then Drained(SetPipe(u, Push(w.conn.pipe, n))) else WriteLoop(SetPipe(u, Push(w.conn.pipe, m)))
              case WriteAgain => u
              case WriteInterrupted => WriteLoop(u)
              case WriteFailed => HandleDead(u, Fatal)
  {
  }

  lemma DrainedLaw(w: World, x: World)
    requires Alive(w.conn) && w.conn.pipe.output != [] && w.writeScript != [] && w.writeScript[0].Wrote?
    requires w.writeScript[0].n >= |w.conn.pipe.output|
    requires x == SetPipe(w.(writeScript := w.writeScript[1..]), Push(w.conn.pipe, |w.conn.pipe.output|))
    ensures WrittenLaw(w, Drained(x))
  {
    PushKeepsStream(w.conn.pipe, |w.conn.pipe.output|);
  }

  lemma StoppedLaw(w: World)
    requires Alive(w.conn) && w.conn.pipe.output != []
    ensures w.writeScript == [] ==> WrittenLaw(w, w)
    ensures w.writeScript != [] && w.writeScript[0].WriteAgain? ==> WrittenLaw(w, w.(writeScript := w.writeScript[1..]))
    ensures w.writeScript != [] && w.writeScript[0].WriteFailed? ==>
      WrittenLaw(w, HandleDead(w.(writeScript := w.writeScript[1..]), Fatal))
  {
    if w.writeScript != [] && w.writeScript[0].WriteFailed? {
      assert WritingOf(|w.conn.pipe.output|, w.writeScript).used == 1 && w.writeScript[0].WriteFailed?;
    }
  }

  lemma GoOnLaw(w: World, x: World, v: World, m: nat)
    requires w.conn.pipe.output != [] && w.writeScript != [] && m < |w.conn.pipe.output|
    requires (w.writeScript[0].Wrote? && w.writeScript[0].n == m) || (w.writeScript[0].WriteInterrupted? && m == 0)
    requires x == SetPipe(w.(writeScript := w.writeScript[1..]), Push(w.conn.pipe, m)) && WrittenLaw(x, v)
    ensures WrittenLaw(w, v)
  {
    var n := |w.conn.pipe.output|;
    var g, h := WritingOf(n, w.writeScript), WritingOf(n - m, x.writeScript);
    PushKeepsStream(w.conn.pipe, m);
    assert g.used == h.used + 1 && g.left == h.left;
    assert x.writeScript[h.used..] == w.writeScript[g.used..];
    if FailedIn(x.writeScript, h.used) {
      var j :| 0 <= j < h.used && x.writeScript[j].WriteFailed?;
      assert w.writeScript[j + 1].WriteFailed?;
    }
    if FailedIn(w.writeScript, g.used) {
      var j :| 0 <= j < g.used && w.writeScript[j].WriteFailed?;
      assert x.writeScript[j - 1].WriteFailed?;
    }
  }

  lemma {:induction false} WriteLoopObeysLaw(w: World)
    requires Alive(w.conn) && w.conn.pipe.output != []
    ensures WrittenLaw(w, WriteLoop(w))
    decreases |w.writeScript|
  {
    StoppedLaw(w);
    if w.writeScript != [] {
      WriteStep(w);
      var u, n := w.(writeScript := w.writeScript[1..]), |w.conn.pipe.output|;
      match w.writeScript[0]
      case Wrote(m) =>
        if m >= n {
          DrainedLaw(w, SetPipe(u, Push(w.conn.pipe, n)));
        } else {
          var x := SetPipe(u, Push(w.conn.pipe, m));
          WriteLoopObeysLaw(x);
          GoOnLaw(w, x, WriteLoop(x), m);
        }
      case WriteInterrupted =>
        var x := SetPipe(u, Push(w.conn.pipe, 0));
        assert Push(w.conn.pipe, 0) == w.conn.pipe;
        WriteLoopObeysLaw(x);
        GoOnLaw(w, x, WriteLoop(x), 0);
      case _ =>
    }
  }

  /** The write callback of a live connection, by the answers of the kernel alone: with nothing to write
      it changes nothing but the mask; otherwise it is dead afterwards exactly if a fatal answer was used,
      or all went out of a half-closed connection without workers, and else keeps its state, and its
      interest in writing exactly while bytes stay behind. */
  ghost predicate WriteLaw(w: World, v: World) {
    var g := WritingOf(|w.conn.pipe.output|, w.writeScript);
    && v.writeScript == w.writeScript[g.used..] && |v.conn.pipe.output| == g.left
    && v.conn.pipe.sent + v.conn.pipe.output == w.conn.pipe.sent + w.conn.pipe.output
    && (!Alive(v.conn) <==>
          w.conn.pipe.output != []
          && (FailedIn(w.writeScript, g.used)
              || (g.left == 0 && w.conn.link.state == PeerClose && w.conn.link.working == 0)))
    && (Alive(v.conn) ==>
          v.conn.link.state == w.conn.link.state && v.conn.link.writeOn == (w.conn.link.writeOn && g.left > 0))
    && v.conn.link.readOn == w.conn.link.readOn && v.conn.link.working == w.conn.link.working
    && v.conn.intake == w.conn.intake && v.conn.book == w.conn.book
    && v.conn.id == w.conn.id && v.conn.pool == w.conn.pool && v.jobs == w.jobs
  }

  lemma WrittenIsWriteLaw(w: World, u: World, v: World)
    requires w.conn.pipe.output != [] && WrittenLaw(u, v) && u.conn == w.conn.(link := u.conn.link)
    requires u.conn.link == w.conn.link.(timerId := u.conn.link.timerId, activeAt := u.conn.link.activeAt)
    requires u.writeScript == w.writeScript && u.jobs == w.jobs
    ensures WriteLaw(w, v)
  {
  }

  lemma NothingToWrite(w: World, v: World, now: Time)
    requires Alive(w.conn) && w.conn.pipe.output == [] && v == DisableWriting(RefreshTimer(w, now))
    ensures WriteLaw(w, v)
  {
    assert w.writeScript[0..] == w.writeScript;
    assert WritingOf(0, w.writeScript) == Writing(0, 0);
  }

  lemma WriteCallbackLaw(w: World, now: Time)
    requires Alive(w.conn)
    ensures WriteLaw(w, WriteCallback(w, now))
  {
    var u := RefreshTimer(w, now);
    if w.conn.pipe.output != [] {
      WriteLoopObeysLaw(u);
      WrittenIsWriteLaw(w, u, WriteLoop(u));
    } else {
      NothingToWrite(w, DisableWriting(u), now);
    }
  }

  /** A dead connection is left as it is. */
  lemma DeadIsLeftAlone(w: World, now: Time, req: Request)
    requires !Alive(w.conn)
    ensures WriteCallback(w, now) == w
    ensures var v := RunAnswer(w, req); v.conn.pipe == w.conn.pipe && v.tasks == w.tasks && v.timers == w.timers
                                        && v.conn.link == w.conn.link.(working := w.conn.link.working - 1)
                                        && v.writeScript == w.writeScript && v.conn.book.replies == w.conn.book.replies
  {
  }

  /** A worker's answer on a live connection is an answer with one worker less out. */
  lemma RunAnswerLaw(w: World, req: Request)
    requires Alive(w.conn)
    ensures AnswerLaw(w.(conn := w.conn.(link := w.conn.link.(working := w.conn.link.working - 1),
                                         book := w.conn.book.(inflight := w.conn.book.inflight - multiset{req}))),
                      Ok(req), RunAnswer(w, req))
  {
    AnswerObeysLaw(TakeAnswer(w, req), Ok(req));
  }

  // ---- reading ----

  /** The answer that ends the reading; an exhausted script would block. */
  function LastAnswer(script: seq<ReadOutcome>): ReadOutcome {
    if script == [] then ReadAgain else if EndsReading(script[0]) then script[0] else LastAnswer(script[1..])
  }

  lemma {:induction false} LastAnswerIsTaken(script: seq<ReadOutcome>)
    ensures var k := AnswersTaken(script);
            && k <= |script| && EndsReading(LastAnswer(script))
            && (forall j :: 0 <= j < k - 1 ==> !EndsReading(script[j]))
            && (LastAnswer(script) != ReadAgain ==> 0 < k && script[k - 1] == LastAnswer(script))
            && (k > 0 && EndsReading(script[k - 1]) ==> script[k - 1] == LastAnswer(script))
  {
    if script != [] && !EndsReading(script[0]) {
      LastAnswerIsTaken(script[1..]);
    }
  }

  function AfterReading(state: ConnState, last: ReadOutcome): ConnState {
    if last.ReadFailed? then Dead else if last.Got? then PeerClose else state
  }

  /** The read loop: the state follows from the answer that ended it, and only the input grows. */
  ghost predicate ReadLoopLaw(w: World, v: World) {
    && v.conn.link.state == AfterReading(w.conn.link.state, LastAnswer(w.readScript))
    && (Alive(v.conn) ==> v.conn.link == w.conn.link.(state := v.conn.link.state))
    && v.conn.link.working == w.conn.link.working && v.conn.link.readOn == w.conn.link.readOn
    && v.conn.pipe == w.conn.pipe && v.conn.book == w.conn.book && v.writeScript == w.writeScript
    && v.conn.intake == w.conn.intake.(input := w.conn.intake.input + Arriving(w.readScript),
                                       received := w.conn.intake.received + Arriving(w.readScript))
    && v.jobs == w.jobs && v.conn.pool == w.conn.pool && v.conn.id == w.conn.id
  }

  lemma NothingArrived(w: World, v: World, state: ConnState)
    requires v.conn.link.state == state == AfterReading(w.conn.link.state, LastAnswer(w.readScript))
    requires Alive(v.conn) ==> v.conn.link == w.conn.link.(state := state)
    requires v.conn.link.working == w.conn.link.working && v.conn.link.readOn == w.conn.link.readOn
    requires v.conn == w.conn.(link := v.conn.link) && v.writeScript == w.writeScript && v.jobs == w.jobs
    requires Arriving(w.readScript) == []
    ensures ReadLoopLaw(w, v)
  {
    var i := w.conn.intake;
    assert i.input + [] == i.input && i.received + [] == i.received;
  }

  lemma LastReadLaw(w: World)
    requires Alive(w.conn) && (w.readScript == [] || EndsReading(w.readScript[0]))
    ensures ReadLoopLaw(w, ReadLoop(w))
  {
    NothingArrived(w, ReadLoop(w), AfterReading(w.conn.link.state, LastAnswer(w.readScript)));
  }

  lemma ArrivedLaw(w: World, x: World, v: World, data: bytes)
    requires w.readScript != [] && !EndsReading(w.readScript[0])
    requires data == if w.readScript[0].Got? then w.readScript[0].data else []
    requires var i := w.conn.intake;
             x == SetIntake(w.(readScript := w.readScript[1..]), i.(input := i.input + data, received := i.received + data))
    requires ReadLoopLaw(x, v)
    ensures ReadLoopLaw(w, v)
  {
    var i, more := w.conn.intake, Arriving(w.readScript[1..]);
    SeqAssoc(i.input, data, more);
    SeqAssoc(i.received, data, more);
  }

  lemma {:induction false} ReadLoopObeysLaw(w: World)
    requires Alive(w.conn)
    ensures ReadLoopLaw(w, ReadLoop(w))
    decreases |w.readScript|
  {
    if w.readScript == [] || EndsReading(w.readScript[0]) {
      LastReadLaw(w);
    } else {
      var i := w.conn.intake;
      var data := if w.readScript[0].Got? then w.readScript[0].data else [];
      var x := SetIntake(w.(readScript := w.readScript[1..]), i.(input := i.input + data, received := i.received + data));
      assert i.input + [] == i.input && i.received + [] == i.received;
      ReadLoopObeysLaw(x);
      ArrivedLaw(w, x, ReadLoop(x), data);
    }
  }
}
