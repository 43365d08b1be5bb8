/** One connection as a value, and its methods as functions. A handler runs against scripts of what
    `readv` and `write` will answer, so "for every outcome of the system calls" is "for every
    script". The fields past the dashes are history: nothing computed from them. */
module ConnSpec {
  import opened Bytes
  import opened Socket
  import opened HttpSpec
  import opened Timers

  datatype ConnState = Connected | PeerClose | Dead

  /** What ended a connection: a half-close guard, a failed system call, the idle timer or a stop. */
  datatype Cause = NoCause | HalfClose | Fatal | Idle | Stopped

  datatype Reply = Ok(req: Request) | BadRequest {
    function Text(): bytes { if Ok? then BuildResponse(req) else BUILD_400 }
    predicate KeepAlive() { Ok? && req.keepAlive }
  }

  datatype Link = Link(
    state: ConnState, working: int, timerId: int,
    readOn: bool, writeOn: bool, inEpoll: bool,
    // ----
    activeAt: Time, cause: Cause,
    closeFailed: bool)   // a fatal write happened while sending a closing response

  datatype Pipe = Pipe(output: bytes, /* ---- */ sent: bytes)

  datatype Intake = Intake(
    parser: Parser, input: bytes,
    // ----
    received: bytes, done: seq<Request>, end: End)

  /** Responses appended so far; requests with the pool; requests whose worker came back too late. */
  datatype Book = Book(replies: seq<Reply>, inflight: multiset<Request>, dropped: multiset<Request>)

  datatype Conn = Conn(id: nat, pool: bool, link: Link, pipe: Pipe, intake: Intake, book: Book)

  /** A task of the event loop: create a connection, send a worker's answer, erase from the table. */
  datatype Task = Adopt(id: nat) | Answer(id: nat, req: Request) | Remove(id: nat)

  datatype Job = Job(id: nat, req: Request)

  /** A connection together with what its methods can reach. */
  datatype World = World(
    conn: Conn, timers: TimerTable, tasks: seq<Task>, jobs: seq<Job>,
    readScript: seq<ReadOutcome>, writeScript: seq<WriteOutcome>)

  ghost function SetLink(w: World, l: Link): World { w.(conn := w.conn.(link := l)) }
  ghost function SetPipe(w: World, p: Pipe): World { w.(conn := w.conn.(pipe := p)) }
  ghost function SetIntake(w: World, i: Intake): World { w.(conn := w.conn.(intake := i)) }
  ghost function SetBook(w: World, b: Book): World { w.(conn := w.conn.(book := b)) }

  // ---- channel and timer ----

  /** Every change of the mask goes through `updateChannel`, which adds the fd if it is not there. */
  ghost function SetMask(w: World, readOn: bool, writeOn: bool): World {
    SetLink(w, w.conn.link.(readOn := readOn, writeOn := writeOn, inEpoll := true))
  }

  ghost function EnableWriting(w: World): World { SetMask(w, w.conn.link.readOn, true) }
  ghost function DisableWriting(w: World): World { SetMask(w, w.conn.link.readOn, false) }
  ghost function DisableReading(w: World): World { SetMask(w, false, w.conn.link.writeOn) }

  ghost function RefreshTimer(w: World, now: Time): World {
    var q := Add(Delete(w.timers, w.conn.link.timerId), now, w.conn.id);
    SetLink(w, w.conn.link.(timerId := q.lastId, activeAt := now)).(timers := q)
  }

  ghost function StartConnect(w: World, now: Time): World {
    var u := SetMask(w, true, w.conn.link.writeOn);
    var q := Add(u.timers, now, u.conn.id);
    SetLink(u, u.conn.link.(timerId := q.lastId, activeAt := now)).(timers := q)
  }

  ghost function DeadLink(l: Link, cause: Cause): Link {
    l.(state := Dead, inEpoll := false, cause := cause)
  }

  ghost function HandleDead(w: World, cause: Cause): (v: World)
    ensures v.conn.intake == w.conn.intake
  {
    if w.conn.link.state == Dead then w
    else SetLink(w, DeadLink(w.conn.link, cause))
         .(timers := Delete(w.timers, w.conn.link.timerId), tasks := w.tasks + [Remove(w.conn.id)])
  }

  ghost function StopConn(w: World): World {
    if w.conn.link.state == Dead then w
    else SetLink(w, DeadLink(w.conn.link, Stopped)).(timers := Delete(w.timers, w.conn.link.timerId))
  }

  // ---- sending ----

  predicate Closing(l: Link) { l.state == PeerClose && l.working == 0 }

  /** The write buffer has just become empty. */
  ghost function Drained(w: World): World {
    var u := DisableWriting(w);
    if Closing(u.conn.link) then HandleDead(u, HalfClose) else u
  }

  /** `n` bytes of the write buffer went to the kernel. */
  ghost function Push(p: Pipe, n: nat): Pipe
    requires n <= |p.output|
  {
    Pipe(p.output[n..], p.sent + p.output[..n])
  }

  ghost function TrySend(w: World): (v: World)
    ensures v.conn.intake == w.conn.intake
    decreases |w.writeScript|
  {
    var p := w.conn.pipe;
    if p.output == [] then w
    else
      var a := Accept(w.writeScript, |p.output|);
      var u := w.(writeScript := a.writeScript);
      match a.outcome
      case Wrote(n) =>
        var x := SetPipe(u, Push(p, n));
        if n == |p.output| then Drained(x) else EnableWriting(x)
      case WriteAgain => EnableWriting(u)
      case WriteInterrupted => TrySend(u)
      case WriteFailed => HandleDead(u, Fatal)
  }

  /** The loop of the write callback: it keeps writing after a partial write. */
  ghost function WriteLoop(w: World): World
    decreases |w.writeScript|
  {
    var p := w.conn.pipe;
    if p.output == [] then w
    else
      var a := Accept(w.writeScript, |p.output|);
      var u := w.(writeScript := a.writeScript);
      match a.outcome
      case Wrote(n) =>
        var v := SetPipe(u, Push(p, n));
        if n == |p.output| then Drained(v) else WriteLoop(v)
      case WriteAgain => u
      case WriteInterrupted => WriteLoop(u)
      case WriteFailed => HandleDead(u, Fatal)
  }

  ghost function Append(w: World, r: Reply): World {
    var p := w.conn.pipe;
    SetBook(SetPipe(w, p.(output := p.output + r.Text())), w.conn.book.(replies := w.conn.book.replies + [r]))
  }

  /** `sendHttpOnLoop`. */
  ghost function Send(w: World, r: Reply): (v: World)
    ensures v.conn.intake == w.conn.intake
  {
    FinishSend(TrySend(Append(w, r)), r)
  }

  /** After the attempt to write, a closing response makes the state PeerClose, whatever the attempt
      did to it. */
  ghost function FinishSend(w: World, r: Reply): World {
    if r.KeepAlive() then w
    else
      var x := DisableReading(w);
      var failed := w.conn.link.state == Dead && w.conn.link.cause == Fatal;
      SetLink(x, x.conn.link.(state := PeerClose, closeFailed := x.conn.link.closeFailed || failed))
  }

  ghost function CheckEmpty(w: World): (v: World)
    ensures v.conn.intake == w.conn.intake
  {
    if Closing(w.conn.link) && w.conn.pipe.output == [] then HandleDead(w, HalfClose) else w
  }

  // ---- receiving ----

  ghost function ReadLoop(w: World): World
    decreases |w.readScript|
  {
    if w.readScript == [] then w
    else
      var u := w.(readScript := w.readScript[1..]);
      match w.readScript[0]
      case Got(data) =>
        if data == [] then SetLink(u, u.conn.link.(state := PeerClose))
        else
          var i := u.conn.intake;
          ReadLoop(SetIntake(u, i.(input := i.input + data, received := i.received + data)))
      case ReadAgain => u
      case ReadInterrupted => ReadLoop(u)
      case ReadFailed => HandleDead(u, Fatal)
  }

  /** One request taken off the input, and handed to the pool or answered at once. */
  ghost function Serve(w: World, req: Request): (v: World)
    ensures v.conn.intake == w.conn.intake
  {
    if w.conn.pool then
      var l := w.conn.link;
      var b := w.conn.book;
      SetBook(SetLink(w, l.(working := l.working + 1)), b.(inflight := b.inflight + multiset{req}))
      .(jobs := w.jobs + [Job(w.conn.id, req)])
    else CheckEmpty(Send(w, Ok(req)))
  }

  ghost function RefuseInput(w: World): World {
    var u := DisableReading(w);
    CheckEmpty(SetLink(u, u.conn.link.(state := PeerClose)))
  }

  ghost function RejectInput(w: World): World {
    var u := Send(w, BadRequest);
    CheckEmpty(SetIntake(u, u.conn.intake.(parser := FRESH)))
  }

  /** The intake after one `parse`, and after the release of a completed request. */
  ghost function Parsed(i: Intake): Intake {
    var r := ParseStep(i.parser, i.input);
    match r.result
    case NeedMore => i.(parser := r.parser, input := r.rest)
    case LineTooLong => i.(parser := r.parser, input := r.rest, end := Refused)
    case Error => i.(parser := r.parser, input := r.rest, end := Bad)
    case Complete => i.(parser := FRESH, input := r.rest, done := i.done + [r.parser.current])
  }

  /** The parse loop of `onHttp`. */
  ghost function HttpLoop(w: World): World
    decreases |w.conn.intake.input|
  {
    if w.conn.link.state == Dead then w
    else
      var i := w.conn.intake;
      var r := ParseStep(i.parser, i.input);
      var u := SetIntake(w, Parsed(i));
      match r.result
      case NeedMore => u
      case LineTooLong => RefuseInput(u)
      case Error => RejectInput(u)
      case Complete =>
        HttpLoop(Serve(u, r.parser.current))
  }

  ghost function OnHttp(w: World): World {
    var v := ReadLoop(w);
    if v.conn.intake.input == [] then CheckEmpty(v) else HttpLoop(v)
  }

  // ---- what the event loop calls ----

  ghost function ReadCallback(w: World, now: Time): World { OnHttp(RefreshTimer(w, now)) }

  ghost function WriteCallback(w: World, now: Time): World {
    if w.conn.link.state == Dead then w
    else
      var u := RefreshTimer(w, now);
      if u.conn.pipe.output == [] then DisableWriting(u) else WriteLoop(u)
  }

  /** `Channel::handle` for the reported events. */
  ghost function Handle(w: World, canRead: bool, canWrite: bool, t1: Time, t2: Time): World {
    var u := if canRead then ReadCallback(w, t1) else w;
    if canWrite then WriteCallback(u, t2) else u
  }

  /** A worker is back with the answer to `req`. */
  ghost function TakeAnswer(w: World, req: Request): World {
    SetBook(SetLink(w, w.conn.link.(working := w.conn.link.working - 1)),
            w.conn.book.(inflight := w.conn.book.inflight - multiset{req}))
  }

  /** The task that a worker queued. */
  ghost function RunAnswer(w: World, req: Request): World {
    var u := TakeAnswer(w, req);
    if w.conn.link.state == Dead then SetBook(u, u.conn.book.(dropped := u.conn.book.dropped + multiset{req}))
    else CheckEmpty(Send(u, Ok(req)))
  }
}
