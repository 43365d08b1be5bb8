/** A connection as the object it is: its state, its two buffers, its parser, its channel and its
    timer. Every method is proved to change the whole of it, as ConnSpec sees it, exactly as the
    function of the same name does. */
module Connection {
  import opened Bytes
  import opened Socket
  import opened Buffer
  import HttpSpec
  import opened HttpProcess
  import opened Timers
  import opened Channel
  import opened ConnSpec

  type Request = HttpSpec.Request

  /** The task queue of the loop and the queue of the thread pool, as a handler sees them. */
  class Queues {
    var tasks: seq<Task>
    var jobs: seq<Job>

    constructor ()
      ensures tasks == [] && jobs == []
    {
      tasks, jobs := [], [];
    }

    method EnqueueTask(t: Task)
      modifies this`tasks
      ensures tasks == old(tasks) + [t]
    {
      tasks := tasks + [t];
    }

    method Submit(j: Job)
      modifies this`jobs
      ensures jobs == old(jobs) + [j]
    {
      jobs := jobs + [j];
    }
  }

  class Connection {
    const id: nat
    const useThreadPool: bool
    const sck: Socket
    const readBuffer: Buffer
    const writeBuffer: Buffer
    const http: HttpProcess
    const channel: Channel
    const ep: Epoll
    const timers: TimerQueue
    const queues: Queues
    var state: ConnState
    var working: int
    var timerId: int
    // ---- history ----
    ghost var activeAt: Time
    ghost var cause: Cause
    ghost var closeFailed: bool
    ghost var received: bytes
    ghost var done: seq<Request>
    ghost var end: HttpSpec.End
    ghost var book: Book

    /** The objects a connection works on; all but the arrays of the buffers stay the same. */
    ghost function Parts(): set<object>
      reads this, readBuffer, writeBuffer
    {
      {this, sck, readBuffer, readBuffer.buf, writeBuffer, writeBuffer.buf, http, channel, ep, timers, queues}
    }

    ghost predicate Valid()
      reads this, Parts()
    {
      BuffersOk() && ChannelOk()
    }

    ghost predicate BuffersOk()
      reads readBuffer, writeBuffer
    {
      && readBuffer != writeBuffer && readBuffer.buf != writeBuffer.buf
      && readBuffer.Valid() && writeBuffer.Valid()
    }

    ghost predicate ChannelOk()
      reads channel, ep
    {
      channel.ep == ep && channel.fd == id && channel.Synced()
    }

    ghost function LinkView(): Link
      reads this, channel
    {
      Link(state, working, timerId, channel.events.read, channel.events.write, channel.inEpoll,
           activeAt, cause, closeFailed)
    }

    ghost function PipeView(): Pipe
      reads this, Parts()
      requires Valid()
    {
      Pipe(writeBuffer.Contents(), sck.sent)
    }

    ghost function IntakeView(): Intake
      reads this, Parts()
      requires Valid()
    {
      Intake(http.View(), readBuffer.Contents(), received, done, end)
    }

    ghost function View(): World
      reads this, Parts()
      requires Valid()
    {
      World(Conn(id, useThreadPool, LinkView(), PipeView(), IntakeView(), book),
            timers.View(), queues.tasks, queues.jobs, sck.readScript, sck.writeScript)
    }

    constructor (id: nat, useThreadPool: bool, sck: Socket, ep: Epoll, timers: TimerQueue, queues: Queues)
      requires id !in ep.interest
      ensures Valid() && this.ep == ep && this.timers == timers && this.queues == queues && this.sck == sck
      ensures this.id == id && this.useThreadPool == useThreadPool && fresh(channel)
      ensures LinkView() == Link(Connected, 0, -1, false, false, false, Time(0, 0), NoCause, false)
      ensures PipeView().output == [] && IntakeView() == Intake(HttpSpec.FRESH, [], [], [], HttpSpec.Open)
      ensures book == Book([], multiset{}, multiset{})
    {
      this.id, this.useThreadPool, this.sck, this.ep, this.timers, this.queues := id, useThreadPool, sck, ep, timers, queues;
      state, working, timerId := Connected, 0, -1;
      activeAt, cause, closeFailed := Time(0, 0), NoCause, false;
      received, done, end, book := [], [], HttpSpec.Open, Book([], multiset{}, multiset{});
      var c := new Channel(ep, id);
      var r := new Buffer();
      var w := new Buffer();
      var h := new HttpProcess();
      channel, readBuffer, writeBuffer, http := c, r, w, h;
    }

    // ---- channel and timer ----

    /** `deleteTimerCallBack(timerId)`. */
    method DropTimer()
      requires Valid()
      modifies timers
      ensures Valid() && View() == old(View()).(timers := Delete(old(timers.View()), timerId))
    {
      timers.DeleteTimer(timerId);
    }

    /** `timerId = addTimerCallBack()`. */
    method ArmTimer(now: Time)
      requires Valid()
      modifies this`timerId, this`activeAt, timers
      ensures Valid() && timers.View() == Add(old(timers.View()), now, id)
      ensures LinkView() == old(LinkView()).(timerId := timers.timerId, activeAt := now)
      ensures View() == SetLink(old(View()), LinkView()).(timers := timers.View())
    {
      timerId := timers.AddTimer(now, id);
      activeAt := now;
    }

    method RefreshTimer(now: Time)
      requires Valid()
      modifies this`timerId, this`activeAt, timers
      ensures Valid() && View() == ConnSpec.RefreshTimer(old(View()), now)
    {
      DropTimer();
      ArmTimer(now);
    }

    method StartConnect(now: Time)
      requires Valid()
      modifies this`timerId, this`activeAt, channel, ep, timers
      ensures Valid() && View() == ConnSpec.StartConnect(old(View()), now)
      ensures channel.Others() == old(channel.Others())
    {
      StartReading();
      ArmTimer(now);
    }

    method StartReading()
      requires Valid()
      modifies channel, ep
      ensures Valid() && View() == SetMask(old(View()), true, old(channel.events.write))
      ensures channel.Others() == old(channel.Others())
    {
      channel.EnableReading();
    }

    /** The state is dead and the channel unmounted. */
    method Unmount(ghost why: Cause)
      requires Valid()
      modifies this`state, this`cause, channel, ep
      ensures Valid() && View() == SetLink(old(View()), DeadLink(old(LinkView()), why))
      ensures channel.Others() == old(channel.Others())
    {
      state := Dead;
      cause := why;
      channel.Remove();
    }

    method RequestRemoval()
      requires Valid()
      modifies queues
      ensures Valid() && View() == old(View()).(tasks := old(queues.tasks) + [Remove(id)])
    {
      queues.EnqueueTask(Remove(id));
    }

    method HandleDead(ghost why: Cause)
      requires Valid()
      modifies this`state, this`cause, channel, ep, timers, queues
      ensures Valid() && View() == ConnSpec.HandleDead(old(View()), why)
      ensures channel.Others() == old(channel.Others())
    {
      if state == Dead {
        return;
      }
      Unmount(why);
      DropTimer();
      RequestRemoval();
    }

    /** `stop` looks at nothing but the state, the channel and the timer. */
    method Stop()
      requires ChannelOk()
      modifies this`state, this`cause, channel, ep, timers
      ensures ChannelOk() && channel.Others() == old(channel.Others())
      ensures state == Dead && (old(state) == Dead ==> channel.inEpoll == old(channel.inEpoll))
      ensures old(state) != Dead ==> !channel.inEpoll
      ensures timers.View() == if old(state) == Dead then old(timers.View()) else Delete(old(timers.View()), timerId)
      ensures old(Valid()) ==> Valid() && View() == StopConn(old(View()))
    {
      if state != Dead {
        state := Dead;
        cause := Stopped;
        Detach();
      }
    }

    /** The channel is unmounted and the timer deleted. */
    method Detach()
      requires ChannelOk()
      modifies channel, ep, timers
      ensures ChannelOk() && channel.Others() == old(channel.Others())
      ensures !channel.inEpoll && channel.events == old(channel.events)
      ensures timers.View() == Delete(old(timers.View()), timerId)
    {
      channel.Remove();
      timers.DeleteTimer(timerId);
    }

    method CheckEmptyReadAfterEof()
      requires Valid()
      modifies this`state, this`cause, channel, ep, timers, queues
      ensures Valid() && View() == CheckEmpty(old(View()))
      ensures channel.Others() == old(channel.Others())
    {
      if state == PeerClose && working == 0 && writeBuffer.Readable() == 0 {
        HandleDead(HalfClose);
      }
    }

    // ---- sending ----

    /** `bufferToSck` of everything readable. */
    method WriteOnce() returns (r: WriteOutcome)
      requires Valid() && writeBuffer.Readable() != 0
      modifies writeBuffer`readIdx, writeBuffer`writeIdx, sck`writeScript, sck`sent
      ensures Valid() && r == WriteAnswer(old(View())) && View() == Written(old(View()))
    {
      ghost var w, count := View(), writeBuffer.Readable();
      r := PushOutput();
      WrittenParts(w, r, sck.writeScript, writeBuffer.Contents(), sck.sent, count);
    }

    method PushOutput() returns (r: WriteOutcome)
      requires Valid() && writeBuffer.Readable() != 0
      modifies writeBuffer`readIdx, writeBuffer`writeIdx, sck`writeScript, sck`sent
      ensures Valid() && Acceptance(r, sck.writeScript) == Accept(old(sck.writeScript), old(writeBuffer.Readable()))
      ensures writeBuffer.Contents() == old(writeBuffer.Contents())[Taken(r)..]
      ensures sck.sent == old(sck.sent) + old(writeBuffer.Contents())[..Taken(r)]
      ensures View() == SetPipe(old(View()), PipeView()).(writeScript := sck.writeScript)
    {
      r := writeBuffer.BufferToSck(sck, writeBuffer.Readable());
    }

    /** The write buffer is empty: no more EPOLLOUT, and perhaps the end. */
    method OnDrained()
      requires Valid()
      modifies this`state, this`cause, channel, ep, timers, queues
      ensures Valid() && View() == Drained(old(View()))
      ensures channel.Others() == old(channel.Others())
    {
      channel.DisableWriting();
      assert View() == DisableWriting(old(View()));
      if state == PeerClose && working == 0 {
        HandleDead(HalfClose);
      }
    }

    method WantWriting()
      requires Valid()
      modifies channel, ep
      ensures Valid() && View() == EnableWriting(old(View()))
      ensures channel.Others() == old(channel.Others())
    {
      channel.EnableWriting();
    }

    method StopReading()
      requires Valid()
      modifies channel, ep
      ensures Valid() && View() == DisableReading(old(View()))
      ensures channel.Others() == old(channel.Others())
    {
      channel.DisableReading();
    }

    method TrySendToSck()
      requires Valid()
      modifies this`state, this`cause, writeBuffer, sck, channel, ep, timers, queues
      ensures Valid() && writeBuffer.buf == old(writeBuffer.buf)
      ensures View() == TrySend(old(View()))
      ensures channel.Others() == old(channel.Others())
    {
      ghost var goal := TrySend(View());
      while writeBuffer.Readable() != 0
        invariant Valid() && writeBuffer.buf == old(writeBuffer.buf) && TrySend(View()) == goal
        invariant channel.Others() == old(channel.Others())
        decreases |sck.writeScript|
      {
        var again := SendTurn();
        if !again {
          return;
        }
      }
    }

    /** One turn of its loop, which only an interruption repeats. */
    method SendTurn() returns (again: bool)
      requires Valid() && writeBuffer.Readable() != 0
      modifies this`state, this`cause, writeBuffer, sck, channel, ep, timers, queues
      ensures Valid() && writeBuffer.buf == old(writeBuffer.buf)
      ensures if again then TrySend(View()) == TrySend(old(View())) && |sck.writeScript| < |old(sck.writeScript)|
              else View() == TrySend(old(View()))
      ensures channel.Others() == old(channel.Others())
    {
      TrySendStep(View());
      var r := WriteOnce();
      again := r.WriteInterrupted?;
      match r
      case Wrote(_) =>
        if writeBuffer.Readable() == 0 {
          OnDrained();
        } else {
          WantWriting();
        }
      case WriteAgain => WantWriting();
      case WriteInterrupted =>
      case WriteFailed => HandleDead(Fatal);
    }

    method HandleWriteCallBack(now: Time)
      requires Valid()
      modifies this, writeBuffer, sck, channel, ep, timers, queues
      ensures Valid() && writeBuffer.buf == old(writeBuffer.buf)
      ensures View() == WriteCallback(old(View()), now)
      ensures channel.Others() == old(channel.Others())
    {
      if state == Dead {
        return;
      }
      RefreshTimer(now);
      if writeBuffer.Readable() == 0 {
        channel.DisableWriting();
        return;
      }
      WriteUntilBlocked();
    }

    /** The loop of the write callback. */
    method WriteUntilBlocked()
      requires Valid()
      modifies this`state, this`cause, writeBuffer, sck, channel, ep, timers, queues
      ensures Valid() && writeBuffer.buf == old(writeBuffer.buf)
      ensures View() == WriteLoop(old(View()))
      ensures channel.Others() == old(channel.Others())
    {
      ghost var goal := WriteLoop(View());
      while writeBuffer.Readable() > 0
        invariant Valid() && writeBuffer.buf == old(writeBuffer.buf) && WriteLoop(View()) == goal
        invariant channel.Others() == old(channel.Others())
        decreases |sck.writeScript|
      {
        var again := WriteTurn();
        if !again {
          return;
        }
      }
    }

    /** One turn of its loop, which a partial write repeats, too. */
    method WriteTurn() returns (again: bool)
      requires Valid() && writeBuffer.Readable() != 0
      modifies this`state, this`cause, writeBuffer, sck, channel, ep, timers, queues
      ensures Valid() && writeBuffer.buf == old(writeBuffer.buf)
      ensures if again then WriteLoop(View()) == WriteLoop(old(View())) && |sck.writeScript| < |old(sck.writeScript)|
              else View() == WriteLoop(old(View()))
      ensures channel.Others() == old(channel.Others())
    {
      WriteLoopStep(View());
      var r := WriteOnce();
      again := r.WriteInterrupted? || (r.Wrote? && writeBuffer.Readable() != 0);
      match r
      case Wrote(_) =>
        if writeBuffer.Readable() == 0 {
          OnDrained();
        }
      case WriteAgain =>
      case WriteInterrupted =>
      case WriteFailed => HandleDead(Fatal);
    }

    /** The response text is appended and written as far as the kernel takes it; after a response
        that closes, nothing more is read. */
    method SendHttpOnLoop(resp: bytes, keepAlive: bool, ghost r: Reply)
      requires Valid() && resp == r.Text() && keepAlive == r.KeepAlive()
      modifies this`state, this`cause, this`closeFailed, this`book, writeBuffer, writeBuffer.buf, sck, channel, ep, timers, queues
      ensures Valid() && (writeBuffer.buf == old(writeBuffer.buf) || fresh(writeBuffer.buf))
      ensures View() == Send(old(View()), r)
      ensures channel.Others() == old(channel.Others())
    {
      QueueResponse(resp, r);
      TrySendToSck();
      if !keepAlive {
        CloseAfter(r);
      }
    }

    method CloseAfter(ghost r: Reply)
      requires Valid() && !r.KeepAlive()
      modifies this`state, this`closeFailed, channel, ep
      ensures Valid() && View() == FinishSend(old(View()), r)
      ensures channel.Others() == old(channel.Others())
    {
      ghost var failed := state == Dead && cause == Fatal;
      StopReading();
      BecomePeerClose(failed);
    }

    method BecomePeerClose(ghost failed: bool)
      requires Valid()
      modifies this`state, this`closeFailed
      ensures Valid() && LinkView() == old(LinkView()).(state := PeerClose, closeFailed := closeFailed)
      ensures closeFailed == (old(closeFailed) || failed) && View() == SetLink(old(View()), LinkView())
    {
      state, closeFailed := PeerClose, closeFailed || failed;
    }

    method QueueResponse(resp: bytes, ghost r: Reply)
      requires Valid() && resp == r.Text()
      modifies this`book, writeBuffer, writeBuffer.buf
      ensures Valid() && (writeBuffer.buf == old(writeBuffer.buf) || fresh(writeBuffer.buf))
      ensures View() == Append(old(View()), r)
    {
      AppendOutput(resp);
      NoteReply(r);
    }

    method AppendOutput(text: bytes)
      requires Valid()
      modifies writeBuffer, writeBuffer.buf
      ensures Valid() && (writeBuffer.buf == old(writeBuffer.buf) || fresh(writeBuffer.buf))
      ensures View() == SetPipe(old(View()), Pipe(old(writeBuffer.Contents()) + text, sck.sent))
    {
      writeBuffer.DataIn(text);
    }

    ghost method NoteReply(r: Reply)
      requires Valid()
      modifies this`book
      ensures Valid() && View() == SetBook(old(View()), old(book).(replies := old(book).replies + [r]))
    {
      book := book.(replies := book.replies + [r]);
    }

    // ---- receiving ----

    method ReadFromSck()
      requires Valid()
      modifies this`state, this`cause, this`received, readBuffer, readBuffer.buf, sck, channel, ep, timers, queues
      ensures Valid() && (readBuffer.buf == old(readBuffer.buf) || fresh(readBuffer.buf))
      ensures View() == ReadLoop(old(View()))
      ensures channel.Others() == old(channel.Others())
    {
      ghost var goal := ReadLoop(View());
      while true
        invariant Valid() && (readBuffer.buf == old(readBuffer.buf) || fresh(readBuffer.buf))
        invariant ReadLoop(View()) == goal && channel.Others() == old(channel.Others())
        decreases Pending(sck.readScript)
      {
        var again := ReadTurn();
        if !again {
          return;
        }
      }
    }

    /** One turn of the read loop. */
    method ReadTurn() returns (again: bool)
      requires Valid()
      modifies this`state, this`cause, this`received, readBuffer, readBuffer.buf, sck, channel, ep, timers, queues
      ensures Valid() && (readBuffer.buf == old(readBuffer.buf) || fresh(readBuffer.buf))
      ensures if again then ReadLoop(View()) == ReadLoop(old(View())) && Pending(sck.readScript) < Pending(old(sck.readScript))
              else View() == ReadLoop(old(View()))
      ensures channel.Others() == old(channel.Others())
    {
      ReadLoopStep(View(), readBuffer.Writable() + EXTRA_SIZE);
      var r := ReadOnce();
      match r
      case Got(data) =>
        if data == [] {
          state := PeerClose;
        }
        again := data != [];
      case ReadInterrupted => again := true;
      case ReadAgain => again := false;
      case ReadFailed =>
        HandleDead(Fatal);
        again := false;
    }

    /** One `sckToBuffer`. */
    method ReadOnce() returns (r: ReadOutcome)
      requires Valid()
      modifies this`received, readBuffer, readBuffer.buf, sck`readScript
      ensures Valid() && (readBuffer.buf == old(readBuffer.buf) || fresh(readBuffer.buf))
      ensures var cap: Positive := old(readBuffer.Writable()) + EXTRA_SIZE;
              r == Deliver(old(sck.readScript), cap).outcome && View() == Received(old(View()), cap)
    {
      r := FillInput();
      NoteReceived(if r.Got? then r.data else []);
    }

    method FillInput() returns (r: ReadOutcome)
      requires Valid()
      modifies readBuffer, readBuffer.buf, sck`readScript
      ensures Valid() && (readBuffer.buf == old(readBuffer.buf) || fresh(readBuffer.buf))
      ensures Delivery(r, sck.readScript) == Deliver(old(sck.readScript), old(readBuffer.Writable()) + EXTRA_SIZE)
      ensures readBuffer.Contents() == old(readBuffer.Contents()) + if r.Got? then r.data else []
      ensures View() == SetIntake(old(View()), old(IntakeView()).(input := readBuffer.Contents())).(readScript := sck.readScript)
    {
      r := readBuffer.SckToBuffer(sck);
    }

    ghost method NoteReceived(data: bytes)
      requires Valid()
      modifies this`received
      ensures Valid() && View() == SetIntake(old(View()), old(IntakeView()).(received := old(received) + data))
    {
      received := received + data;
    }

    // ---- requests ----

    /** One `parse`, and the release of a completed request. */
    method ParseOnce() returns (r: HttpSpec.ParseResult, req: Request)
      requires Valid()
      modifies this`done, this`end, http, readBuffer`readIdx, readBuffer`writeIdx
      ensures Valid() && View() == SetIntake(old(View()), Parsed(old(IntakeView())))
      ensures var p := HttpSpec.ParseStep(old(http.View()), old(readBuffer.Contents()));
              r == p.result && (r.Complete? ==> req == p.parser.current)
    {
      r := http.Parse(readBuffer);
      req := HttpSpec.BLANK;
      match r
      case NeedMore =>
      case LineTooLong => end := HttpSpec.Refused;
      case Error => end := HttpSpec.Bad;
      case Complete =>
        req := http.ReleaseRequest();
        done := done + [req];
    }

    method ServeRequest(req: Request)
      requires Valid() && state != Dead
      modifies this, writeBuffer, writeBuffer.buf, sck, channel, ep, timers, queues
      ensures Valid() && (writeBuffer.buf == old(writeBuffer.buf) || fresh(writeBuffer.buf))
      ensures View() == Serve(old(View()), req)
      ensures channel.Others() == old(channel.Others())
    {
      if useThreadPool {
        SubmitRequest(req);
      } else {
        Respond(req, HttpSpec.BuildResponse(req));
      }
    }

    /** `sendHttpOnLoop` and the check behind it. */
    method Respond(req: Request, resp: bytes)
      requires Valid() && resp == HttpSpec.BuildResponse(req)
      modifies this`state, this`cause, this`closeFailed, this`book, writeBuffer, writeBuffer.buf, sck, channel, ep, timers, queues
      ensures Valid() && (writeBuffer.buf == old(writeBuffer.buf) || fresh(writeBuffer.buf))
      ensures View() == CheckEmpty(Send(old(View()), Ok(req)))
      ensures channel.Others() == old(channel.Others())
    {
      SendHttpOnLoop(resp, req.keepAlive, Ok(req));
      CheckEmptyReadAfterEof();
    }

    method SubmitRequest(req: Request)
      requires Valid() && useThreadPool
      modifies this`working, this`book, queues
      ensures Valid() && View() == Serve(old(View()), req)
    {
      working := working + 1;
      book := book.(inflight := book.inflight + multiset{req});
      queues.Submit(Job(id, req));
    }

    method RefuseLine()
      requires Valid()
      modifies this`state, this`cause, channel, ep, timers, queues
      ensures Valid() && View() == RefuseInput(old(View()))
      ensures channel.Others() == old(channel.Others())
    {
      StopReading();
      state := PeerClose;
      CheckEmptyReadAfterEof();
    }

    method RejectRequest()
      requires Valid()
      modifies this`state, this`cause, this`closeFailed, this`book, http, writeBuffer, writeBuffer.buf, sck, channel, ep, timers, queues
      ensures Valid() && (writeBuffer.buf == old(writeBuffer.buf) || fresh(writeBuffer.buf))
      ensures View() == RejectInput(old(View()))
      ensures channel.Others() == old(channel.Others())
    {
      SendHttpOnLoop(HttpSpec.BUILD_400, false, BadRequest);
      ResetParser();
      CheckEmptyReadAfterEof();
    }

    method ResetParser()
      requires Valid()
      modifies http
      ensures Valid() && View() == SetIntake(old(View()), old(IntakeView()).(parser := HttpSpec.FRESH))
    {
      http.Reset();
    }

    method ProcessInput()
      requires Valid()
      modifies this, http, readBuffer, writeBuffer, writeBuffer.buf, sck, channel, ep, timers, queues
      ensures Valid() && readBuffer.buf == old(readBuffer.buf)
      ensures writeBuffer.buf == old(writeBuffer.buf) || fresh(writeBuffer.buf)
      ensures View() == HttpLoop(old(View()))
      ensures channel.Others() == old(channel.Others())
    {
      ghost var goal := HttpLoop(View());
      while state != Dead
        invariant Valid() && readBuffer.buf == old(readBuffer.buf)
        invariant writeBuffer.buf == old(writeBuffer.buf) || fresh(writeBuffer.buf)
        invariant HttpLoop(View()) == goal && channel.Others() == old(channel.Others())
        decreases |readBuffer.Contents()|
      {
        var again := ParseTurn();
        if !again {
          return;
        }
      }
    }

    /** One turn of the parse loop. */
    method ParseTurn() returns (again: bool)
      requires Valid() && state != Dead
      modifies this, http, readBuffer, writeBuffer, writeBuffer.buf, sck, channel, ep, timers, queues
      ensures Valid() && readBuffer.buf == old(readBuffer.buf)
      ensures writeBuffer.buf == old(writeBuffer.buf) || fresh(writeBuffer.buf)
      ensures if again then HttpLoop(View()) == HttpLoop(old(View())) && |readBuffer.Contents()| < |old(readBuffer.Contents())|
              else View() == HttpLoop(old(View()))
      ensures channel.Others() == old(channel.Others())
    {
      HttpLoopStep(View());
      var r, req := ParseOnce();
      Dispatch(r, req);
      again := r == HttpSpec.Complete;
    }

    /** What follows a `parse`, up to the next turn. */
    method Dispatch(r: HttpSpec.ParseResult, req: Request)
      requires Valid() && state != Dead
      modifies this, http, writeBuffer, writeBuffer.buf, sck, channel, ep, timers, queues
      ensures Valid() && (writeBuffer.buf == old(writeBuffer.buf) || fresh(writeBuffer.buf))
      ensures View() == Dispatched(old(View()), r, req)
      ensures channel.Others() == old(channel.Others())
    {
      match r
      case NeedMore =>
      case LineTooLong => RefuseLine();
      case Error => RejectRequest();
      case Complete => ServeRequest(req);
    }

    method OnHttp()
      requires Valid()
      modifies this, http, readBuffer, readBuffer.buf, writeBuffer, writeBuffer.buf, sck, channel, ep, timers, queues
      ensures Valid() && View() == ConnSpec.OnHttp(old(View()))
      ensures readBuffer.buf == old(readBuffer.buf) || fresh(readBuffer.buf)
      ensures writeBuffer.buf == old(writeBuffer.buf) || fresh(writeBuffer.buf)
      ensures channel.Others() == old(channel.Others())
    {
      ReadFromSck();
      HandleInput();
    }

    /** What follows the reading. */
    method HandleInput()
      requires Valid()
      modifies this, http, readBuffer, writeBuffer, writeBuffer.buf, sck, channel, ep, timers, queues
      ensures Valid() && readBuffer.buf == old(readBuffer.buf)
      ensures writeBuffer.buf == old(writeBuffer.buf) || fresh(writeBuffer.buf)
      ensures View() == if old(readBuffer.Contents()) == [] then CheckEmpty(old(View())) else HttpLoop(old(View()))
      ensures channel.Others() == old(channel.Others())
    {
      if readBuffer.Readable() == 0 {
        CheckEmptyReadAfterEof();
        return;
      }
      ProcessInput();
    }

    // ---- what the event loop calls ----

    method HandleReadCallBack(now: Time)
      requires Valid()
      modifies Parts()
      ensures Valid() && fresh(Parts() - old(Parts()))
      ensures View() == ReadCallback(old(View()), now)
      ensures channel.Others() == old(channel.Others())
    {
      RefreshTimer(now);
      OnHttp();
    }

    /** `Channel::handle` with this connection's two callbacks: reading first. */
    method Handle(t1: Time, t2: Time)
      requires Valid()
      modifies Parts()
      ensures Valid() && fresh(Parts() - old(Parts()))
      ensures View() == ConnSpec.Handle(old(View()), old(channel.revents.canRead), old(channel.revents.canWrite), t1, t2)
      ensures channel.Others() == old(channel.Others())
    {
      var e := channel.revents;
      if e.canRead {
        HandleReadCallBack(t1);
      }
      if e.canWrite {
        HandleWriteCallBack(t2);
      }
    }

    /** The task that a worker queued, with the response it built. */
    method FinishRequest(req: Request, resp: bytes)
      requires Valid() && resp == HttpSpec.BuildResponse(req)
      modifies Parts()
      ensures Valid() && fresh(Parts() - old(Parts()))
      ensures View() == RunAnswer(old(View()), req)
      ensures channel.Others() == old(channel.Others())
    {
      TakeBack(req);
      if state == Dead {
        NoteDropped(req);
        return;
      }
      Respond(req, resp);
    }

    ghost method NoteDropped(req: Request)
      requires Valid()
      modifies this`book
      ensures Valid() && View() == SetBook(old(View()), old(book).(dropped := old(book).dropped + multiset{req}))
    {
      book := book.(dropped := book.dropped + multiset{req});
    }

    method TakeBack(ghost req: Request)
      requires Valid()
      modifies this`working, this`book
      ensures Valid() && View() == TakeAnswer(old(View()), req)
    {
      working := working - 1;
      book := book.(inflight := book.inflight - multiset{req});
    }
  }

  // ---- one write ----

  ghost function WriteAnswer(w: World): WriteOutcome
    requires w.conn.pipe.output != []
  {
    Accept(w.writeScript, |w.conn.pipe.output|).outcome
  }

  ghost function Written(w: World): World
    requires w.conn.pipe.output != []
  {
    var a := Accept(w.writeScript, |w.conn.pipe.output|);
    SetPipe(w, Push(w.conn.pipe, Taken(a.outcome))).(writeScript := a.writeScript)
  }

  lemma WrittenParts(w: World, r: WriteOutcome, script: seq<WriteOutcome>, output: bytes, sent: bytes, count: Positive)
    requires count == |w.conn.pipe.output| && Acceptance(r, script) == Accept(w.writeScript, count)
    requires output == w.conn.pipe.output[Taken(r)..] && sent == w.conn.pipe.sent + w.conn.pipe.output[..Taken(r)]
    ensures r == WriteAnswer(w) && w.(conn := w.conn.(pipe := Pipe(output, sent)), writeScript := script) == Written(w)
  {
  }

  lemma TrySendStep(w: World)
    requires w.conn.pipe.output != []
    ensures var u := Written(w);
            TrySend(w) == match WriteAnswer(w)
                          case Wrote(_) => if u.conn.pipe.output == [] then Drained(u) else EnableWriting(u)
                          case WriteAgain => EnableWriting(u)
                          case WriteInterrupted => TrySend(u)
                          case WriteFailed => HandleDead(u, Fatal)
    ensures WriteAnswer(w).WriteInterrupted? ==> |Written(w).writeScript| < |w.writeScript|
  {
    assert Push(w.conn.pipe, 0) == w.conn.pipe;
  }

  lemma WriteLoopStep(w: World)
    requires w.conn.pipe.output != []
    ensures var u := Written(w);
            WriteLoop(w) == match WriteAnswer(w)
                            case Wrote(_) => if u.conn.pipe.output == [] then Drained(u) else WriteLoop(u)
                            case WriteAgain => u
                            case WriteInterrupted => WriteLoop(u)
                            case WriteFailed => HandleDead(u, Fatal)
    ensures w.writeScript != [] ==> |Written(w).writeScript| < |w.writeScript|
  {
    assert Push(w.conn.pipe, 0) == w.conn.pipe;
  }

  // ---- one read ----

  /** What one `readv` with room for `cap` bytes does. */
  ghost function Received(w: World, cap: Positive): World {
    var d := Deliver(w.readScript, cap);
    Arrived(w, if d.outcome.Got? then d.outcome.data else [], d.readScript)
  }

  /** Where a delivery is cut makes no difference to the loop. */
  lemma ReadLoopStep(w: World, cap: Positive)
    ensures ReadLoop(w) == AfterRead(Deliver(w.readScript, cap).outcome, Received(w, cap))
    ensures w.readScript != [] ==> Pending(Received(w, cap).readScript) < Pending(w.readScript)
  {
    if w.readScript == [] {
      NothingReceived(w.conn.intake);
    } else {
      DeliverShrinks(w.readScript, cap);
      if w.readScript[0].Got? && cap < |w.readScript[0].data| {
        ReadCut(w, w.readScript[0].data, w.readScript[1..], cap);
      } else {
        NothingReceived(w.conn.intake);
      }
    }
  }

  ghost function AfterRead(r: ReadOutcome, u: World): World {
    match r
    case Got(data) => if data == [] then SetLink(u, u.conn.link.(state := PeerClose)) else ReadLoop(u)
    case ReadAgain => u
    case ReadInterrupted => ReadLoop(u)
    case ReadFailed => HandleDead(u, Fatal)
  }

  lemma NothingReceived(i: Intake)
    ensures i.(input := i.input + [], received := i.received + []) == i
  {
  }

  ghost function Arrived(w: World, data: bytes, script: seq<ReadOutcome>): World {
    var i := w.conn.intake;
    SetIntake(w, i.(input := i.input + data, received := i.received + data)).(readScript := script)
  }

  lemma ReadCut(w: World, data: bytes, rest: seq<ReadOutcome>, cap: Positive)
    requires w.readScript == [Got(data)] + rest && cap < |data|
    ensures ReadLoop(w) == ReadLoop(Arrived(w, data[..cap], [Got(data[cap..])] + rest))
  {
    var u := Arrived(w, data[..cap], [Got(data[cap..])] + rest);
    assert data == data[..cap] + data[cap..];
    ArrivedTwice(w, data[..cap], data[cap..], [Got(data[cap..])] + rest, rest);
    ReadGot(w, data, rest);
    ReadGot(u, data[cap..], rest);
  }

  lemma ReadGot(w: World, data: bytes, rest: seq<ReadOutcome>)
    requires w.readScript == [Got(data)] + rest && data != []
    ensures ReadLoop(w) == ReadLoop(Arrived(w, data, rest))
  {
    assert w.readScript[1..] == rest;
  }

  lemma ArrivedTwice(w: World, a: bytes, b: bytes, s: seq<ReadOutcome>, rest: seq<ReadOutcome>)
    ensures Arrived(Arrived(w, a, s), b, rest) == Arrived(w, a + b, rest)
  {
    var i := w.conn.intake;
    assert i.input + a + b == i.input + (a + b) && i.received + a + b == i.received + (a + b);
  }

  // ---- one turn of the parse loop ----

  ghost function Dispatched(u: World, r: HttpSpec.ParseResult, req: Request): World {
    match r
    case NeedMore => u
    case LineTooLong => RefuseInput(u)
    case Error => RejectInput(u)
    case Complete => Serve(u, req)
  }

  lemma HttpLoopStep(w: World)
    requires w.conn.link.state != Dead
    ensures var p := HttpSpec.ParseStep(w.conn.intake.parser, w.conn.intake.input);
            var v := Dispatched(SetIntake(w, Parsed(w.conn.intake)), p.result, p.parser.current);
            && HttpLoop(w) == (if p.result.Complete? then HttpLoop(v) else v)
            && (p.result.Complete? ==> |v.conn.intake.input| < |w.conn.intake.input|)
  {
  }
}
