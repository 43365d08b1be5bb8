/** Starting connections and stopping the server, across its threads: the main reactor that accepts
    sockets, the sub-reactors that own connections, and the thread that calls `Server::stop`. What a
    task queue is, and why its thread wakes up for it, is the matter of EventLoop. */
module Shutdown {
  import opened Algebra

  datatype ServerTask = Adopt(sock: nat) | Other(id: nat) | StopTask

  datatype ThreadPhase = Top | IoPass | TaskPass | Exited

  datatype Sub = Sub(
    tasks: seq<ServerTask>, batch: seq<ServerTask>, stop: bool, phase: ThreadPhase,
    live: set<nat>,            // the sockets whose connection is not dead
    adopted: seq<nat>)         // history: the sockets that got a connection

  /** The main thread in `handleNewConnection`: with an accepted socket, and past the look at the
      sub-reactor's stop flag. */
  datatype Hand = Empty | Holding(sock: nat) | Checked(sock: nat)

  datatype Main = Main(
    tasks: seq<ServerTask>, batch: seq<ServerTask>, stop: bool, phase: ThreadPhase, listening: bool, hand: Hand)

  /** The thread in `Server::stop`. Before each push comes a look at the stop flag of that loop. */
  datatype Control =
    | Serving | MainChecked | MainQueued
    | SubTurn(i: nat) | SubChecked(i: nat) | SubQueued(i: nat)
    | PoolTurn | Done

  datatype Server = Server(
    pool: bool, main: Main, subs: seq<Sub>, subIdx: nat, control: Control, poolStopped: bool,
    // ---- history ----
    accepted: seq<nat>,        // by the main thread
    dispatched: seq<nat>,      // pushed to a sub-reactor
    lost: seq<nat>,            // refused by the stop flag of a sub-reactor
    misused: bool)             // the pool was given a task after it was stopped

  datatype Step =
    | MainTop | Accept(sock: nat) | LookAtSub | PushToSub | MainDrain | MainRun | MainEnd
    | SubTop(i: nat) | Submit(i: nat) | Die(i: nat, sock: nat) | SubDrain(i: nat) | SubRun(i: nat) | SubEnd(i: nat)
    | Post(i: nat, id: nat)
    | Control

  ghost function Init(pool: bool, n: nat): Server
    requires n > 0
  {
    Server(pool, Main([Other(0)], [], false, Top, false, Empty),
           seq(n, _ => Sub([], [], false, Top, {}, [])), 0, Serving, false, [], [], [], false)
  }

  predicate At(s: Server, i: nat, phase: ThreadPhase) { i < |s.subs| && s.subs[i].phase == phase }

  predicate Enabled(s: Server, e: Step) {
    match e
    case MainTop => s.main.phase.Top?
    case Accept(sock) =>
      s.main.phase.IoPass? && s.main.listening && s.main.hand.Empty? && sock !in s.accepted
    case LookAtSub => s.main.hand.Holding? && s.subIdx < |s.subs|
    case PushToSub => s.main.hand.Checked? && s.subIdx < |s.subs|
    case MainDrain => s.main.phase.IoPass? && s.main.hand.Empty?
    case MainRun => s.main.phase.TaskPass? && s.main.batch != []
    case MainEnd => s.main.phase.TaskPass? && s.main.batch == []
    case SubTop(i) => At(s, i, Top)
    case Submit(i) => At(s, i, IoPass) && s.pool
    case Die(i, sock) => i < |s.subs| && !s.subs[i].phase.Exited? && sock in s.subs[i].live
    case SubDrain(i) => At(s, i, IoPass)
    case SubRun(i) => At(s, i, TaskPass) && s.subs[i].batch != []
    case SubEnd(i) => At(s, i, TaskPass) && s.subs[i].batch == []
    case Post(i, _) => i < |s.subs|
    case Control =>
      match s.control
      case MainQueued => s.main.phase.Exited?
      case SubTurn(i) => i < |s.subs|
      case SubChecked(i) => i < |s.subs|
      case SubQueued(i) => At(s, i, Exited)
      case Done => false
      case _ => true
  }

  function Following(s: Server): nat
    requires |s.subs| > 0
  {
    (s.subIdx + 1) % |s.subs|
  }

  /** The task at the head of a sub-reactor's batch. */
  function SubTask(b: Sub): Sub
    requires b.batch != []
  {
    var rest := b.(batch := b.batch[1..]);
    match b.batch[0]
    case Adopt(sock) => rest.(adopted := b.adopted + [sock], live := b.live + {sock})
    case Other(_) => rest
    case StopTask => rest.(live := {}, stop := true)
  }

  function MainTask(m: Main): Main
    requires m.batch != []
  {
    var rest := m.(batch := m.batch[1..]);
    match m.batch[0]
    case StopTask => rest.(listening := false, stop := true)
    case _ => rest.(listening := true)
  }

  function SubStep(b: Sub, e: Step): Sub
    requires e.SubRun? ==> b.batch != []
  {
    match e
    case SubTop(_) => b.(phase := if b.stop then Exited else IoPass)
    case Die(_, sock) => b.(live := b.live - {sock})
    case SubDrain(_) => b.(batch := b.tasks, tasks := [], phase := TaskPass)
    case SubRun(_) => SubTask(b)
    case SubEnd(_) => b.(phase := Top)
    case Post(_, id) => b.(tasks := b.tasks + [Other(id)])
    case _ => b
  }

  /** `Server::stop`: the main reactor is stopped and joined, then each sub-reactor in turn, then the
      pool. A stop task that finds the flag up is dropped. */
  function ControlStep(s: Server): Server
    requires Enabled(s, Control)
  {
    match s.control
    case Serving => s.(control := if s.main.stop then MainQueued else MainChecked)
    case MainChecked => s.(control := MainQueued, main := s.main.(tasks := s.main.tasks + [StopTask]))
    case MainQueued => s.(control := AfterJoin(s, 0))
    case SubTurn(i) => s.(control := if s.subs[i].stop then SubQueued(i) else SubChecked(i))
    case SubChecked(i) =>
      s.(control := SubQueued(i), subs := s.subs[i := s.subs[i].(tasks := s.subs[i].tasks + [StopTask])])
    case SubQueued(i) => s.(control := AfterJoin(s, i + 1))
    case _ => s.(control := Done, poolStopped := s.pool)
  }

  function AfterJoin(s: Server, i: nat): Control { if i < |s.subs| then SubTurn(i) else PoolTurn }

  function Next(s: Server, e: Step): Server
    requires Enabled(s, e)
  {
    match e
    case MainTop => s.(main := s.main.(phase := if s.main.stop then Exited else IoPass))
    case Accept(sock) => s.(main := s.main.(hand := Holding(sock)), accepted := s.accepted + [sock])
    case LookAtSub =>
      var sock := s.main.hand.sock;
      if s.subs[s.subIdx].stop then
        s.(main := s.main.(hand := Empty), lost := s.lost + [sock], subIdx := Following(s))
      else s.(main := s.main.(hand := Checked(sock)))
    case PushToSub =>
      var sock := s.main.hand.sock;
      var b := s.subs[s.subIdx];
      s.(main := s.main.(hand := Empty), dispatched := s.dispatched + [sock], subIdx := Following(s),
         subs := s.subs[s.subIdx := b.(tasks := b.tasks + [Adopt(sock)])])
    case MainDrain => s.(main := s.main.(batch := s.main.tasks, tasks := [], phase := TaskPass))
    case MainRun => s.(main := MainTask(s.main))
    case MainEnd => s.(main := s.main.(phase := Top))
    case Submit(i) => s.(misused := s.misused || s.poolStopped)
    case Control => ControlStep(s)
    case _ => s.(subs := s.subs[e.i := SubStep(s.subs[e.i], e)])
  }

  ghost predicate Run(s: Server, steps: seq<Step>, s': Server)
    decreases |steps|
  {
    if steps == [] then s' == s
    else Enabled(s, steps[0]) && Run(Next(s, steps[0]), steps[1..], s')
  }

  ghost predicate Reachable(s: Server, n: nat)
    requires n > 0
  {
    exists pool, steps :: Run(Init(pool, n), steps, s)
  }

  // ---- who gets which socket ----

  /** Every n-th socket, from the i-th. */
  function Share(socks: seq<nat>, i: nat, n: nat): seq<nat>
    requires n > 0
  {
    if socks == [] then []
    else
      var k := |socks| - 1;
      Share(socks[..k], i, n) + (if k % n == i then [socks[k]] else [])
  }

  lemma ShareMore(socks: seq<nat>, sock: nat, i: nat, n: nat)
    requires n > 0
    ensures Share(socks + [sock], i, n) == if |socks| % n == i then Share(socks, i, n) + [sock] else Share(socks, i, n)
  {
    assert (socks + [sock])[..|socks|] == socks;
  }

  /** Each socket is in exactly one share. */
  lemma {:induction false} InShare(socks: seq<nat>, k: nat, n: nat)
    requires n > 0 && k < |socks|
    ensures socks[k] in Share(socks, k % n, n)
    decreases |socks|
  {
    var last := |socks| - 1;
    if k < last {
      InShare(socks[..last], k, n);
    }
  }

  // ---- the invariant ----

  function Adopts(queue: seq<ServerTask>): seq<nat> {
    if queue == [] then []
    else Adopts(queue[..|queue| - 1]) + (if queue[|queue| - 1].Adopt? then [queue[|queue| - 1].sock] else [])
  }

  predicate NoAdopt(queue: seq<ServerTask>) { forall k :: 0 <= k < |queue| ==> !queue[k].Adopt? }

  /** Nothing is adopted behind a stop task. */
  predicate StopLast(queue: seq<ServerTask>) {
    forall a, b :: 0 <= a < b < |queue| && queue[a] == StopTask ==> !queue[b].Adopt?
  }

  predicate StopQueued(c: Control, i: nat) {
    match c
    case SubTurn(j) => i < j
    case SubChecked(j) => i < j
    case SubQueued(j) => i <= j
    case PoolTurn => true
    case Done => true
    case _ => false
  }

  predicate SubJoined(c: Control, i: nat) { StopQueued(c, i) && c != SubQueued(i) }

  predicate MainJoined(c: Control) { !c.Serving? && !c.MainChecked? && !c.MainQueued? }

  function Queue(b: Sub): seq<ServerTask> { b.batch + b.tasks }

  predicate SubOk(b: Sub, share: seq<nat>, queued: bool, joined: bool) {
    && b.adopted + Adopts(Queue(b)) == share
    && (b.stop || StopTask in Queue(b) <==> queued)
    && StopLast(Queue(b)) && (b.stop ==> NoAdopt(Queue(b)) && b.live == {})
    && (b.phase.Exited? ==> b.stop) && (joined ==> b.phase.Exited?)
    && (b.batch != [] ==> b.phase.TaskPass?)
  }

  predicate SubsOk(s: Server) {
    && |s.subs| > 0
    && forall i :: 0 <= i < |s.subs| ==>
         SubOk(s.subs[i], Share(s.dispatched, i, |s.subs|), StopQueued(s.control, i), SubJoined(s.control, i))
  }

  predicate MainOk(s: Server) {
    && (s.main.stop || StopTask in s.main.batch + s.main.tasks <==> !s.control.Serving? && !s.control.MainChecked?)
    && (MainJoined(s.control) ==> s.main.phase.Exited?)
    && (s.main.phase.Exited? ==> s.main.stop)
    && (!s.main.hand.Empty? ==> s.main.phase.IoPass?)
    && (s.main.batch != [] ==> s.main.phase.TaskPass?)
  }

  predicate Dispatching(s: Server) {
    && s.accepted == s.dispatched + (if s.main.hand.Empty? then [] else [s.main.hand.sock])
    && s.lost == [] && s.subIdx < |s.subs| && s.subIdx == |s.dispatched| % |s.subs|
  }

  predicate ControlOk(s: Server) {
    && (s.control.SubTurn? || s.control.SubChecked? || s.control.SubQueued? ==> s.control.i < |s.subs|)
    && (s.poolStopped <==> s.control.Done? && s.pool) && !s.misused
  }

  predicate Inv(s: Server) { SubsOk(s) && MainOk(s) && Dispatching(s) && ControlOk(s) }

  // ---- the queue of one sub-reactor ----

  lemma AdoptsMore(queue: seq<ServerTask>, t: ServerTask)
    ensures Adopts(queue + [t]) == Adopts(queue) + (if t.Adopt? then [t.sock] else [])
  {
    assert (queue + [t])[..|queue|] == queue;
  }

  lemma {:induction false} AdoptsHead(t: ServerTask, rest: seq<ServerTask>)
    ensures Adopts([t] + rest) == (if t.Adopt? then [t.sock] else []) + Adopts(rest)
    decreases |rest|
  {
    var head := if t.Adopt? then [t.sock] else [];
    if rest == [] {
      AdoptsMore([], t);
      assert [] + [t] == [t] == [t] + rest;
    } else {
      var init, last := rest[..|rest| - 1], rest[|rest| - 1];
      Unsnoc(rest);
      AdoptsHead(t, init);
      SnocAssoc([t], init, last);
      AdoptsMore([t] + init, last);
      AdoptsMore(init, last);
      SeqAssoc(head, Adopts(init), if last.Adopt? then [last.sock] else []);
    }
  }

  /** The queue behind its head. */
  lemma BehindHead(t: ServerTask, rest: seq<ServerTask>)
    ensures StopTask in [t] + rest <==> t == StopTask || StopTask in rest
    ensures StopLast([t] + rest) ==> StopLast(rest) && (t == StopTask ==> NoAdopt(rest))
    ensures NoAdopt([t] + rest) ==> NoAdopt(rest) && !t.Adopt?
  {
    var queue := [t] + rest;
    assert queue[0] == t && forall k :: 0 <= k < |rest| ==> queue[k + 1] == rest[k];
  }

  lemma SubTaskOk(b: Sub, share: seq<nat>, queued: bool)
    requires SubOk(b, share, queued, false) && b.batch != []
    ensures SubOk(SubTask(b), share, queued, false)
  {
    var t, rest := b.batch[0], b.batch[1..] + b.tasks;
    HeadAndRest(b.batch, b.tasks);
    AdoptsHead(t, rest);
    BehindHead(t, rest);
    if t.Adopt? {
      SeqAssoc(b.adopted, [t.sock], Adopts(rest));
    } else {
      assert [] + Adopts(rest) == Adopts(rest);
    }
  }

  lemma SubPush(b: Sub, t: ServerTask, share: seq<nat>, share': seq<nat>, queued: bool, queued': bool, joined: bool)
    requires SubOk(b, share, queued, joined)
    requires share' == share + (if t.Adopt? then [t.sock] else [])
    requires queued' == (queued || t == StopTask) && (t.Adopt? ==> !queued)
    ensures SubOk(b.(tasks := b.tasks + [t]), share', queued', joined)
  {
    assert b.batch + (b.tasks + [t]) == Queue(b) + [t];
    AdoptsMore(Queue(b), t);
    assert b.adopted + Adopts(Queue(b) + [t]) == share';
    OrderMore(Queue(b), t);
  }

  lemma OrderMore(queue: seq<ServerTask>, t: ServerTask)
    ensures StopTask in queue + [t] <==> StopTask in queue || t == StopTask
    ensures StopLast(queue) && (t.Adopt? ==> StopTask !in queue) ==> StopLast(queue + [t])
    ensures NoAdopt(queue) && !t.Adopt? ==> NoAdopt(queue + [t])
  {
  }

  lemma SubStepOk(b: Sub, e: Step, share: seq<nat>, queued: bool, joined: bool)
    requires SubOk(b, share, queued, joined)
    requires match e
             case SubTop(_) => b.phase.Top?
             case Die(_, _) => true
             case SubDrain(_) => b.phase.IoPass?
             case SubRun(_) => b.phase.TaskPass? && b.batch != []
             case SubEnd(_) => b.phase.TaskPass? && b.batch == []
             case Post(_, _) => true
             case _ => false
    ensures SubOk(SubStep(b, e), share, queued, joined)
  {
    match e
    case SubDrain(_) => assert b.tasks + [] == [] + b.tasks;
    case SubRun(_) => SubTaskOk(b, share, queued);
    case Post(_, id) => SubPush(b, Other(id), share, share + [], queued, queued, joined);
    case _ =>
  }

  // ---- the steps ----

  lemma SubInv(s: Server, e: Step)
    requires Inv(s) && Enabled(s, e)
    requires e.SubTop? || e.Die? || e.SubDrain? || e.SubRun? || e.SubEnd? || e.Post?
    ensures Inv(Next(s, e))
  {
    SubStepOk(s.subs[e.i], e, Share(s.dispatched, e.i, |s.subs|), StopQueued(s.control, e.i), SubJoined(s.control, e.i));
    SubsAfter(s, e.i, SubStep(s.subs[e.i], e));
  }

  lemma SubsAfter(s: Server, i: nat, b: Sub)
    requires SubsOk(s) && i < |s.subs|
    requires SubOk(b, Share(s.dispatched, i, |s.subs|), StopQueued(s.control, i), SubJoined(s.control, i))
    ensures SubsOk(s.(subs := s.subs[i := b]))
  {
  }

  lemma PushInv(s: Server)
    requires Inv(s) && Enabled(s, PushToSub)
    ensures Inv(Next(s, PushToSub))
  {
    PushSubs(s);
    FollowingIsNext(s);
  }

  lemma PushSubs(s: Server)
    requires Inv(s) && Enabled(s, PushToSub)
    ensures SubsOk(Next(s, PushToSub))
  {
    var sock, n := s.main.hand.sock, |s.subs|;
    forall i | 0 <= i < n ensures Share(s.dispatched + [sock], i, n)
        == Share(s.dispatched, i, n) + (if i == s.subIdx then [sock] else []) {
      ShareMore(s.dispatched, sock, i, n);
    }
    SubPush(s.subs[s.subIdx], Adopt(sock), Share(s.dispatched, s.subIdx, n), Share(s.dispatched + [sock], s.subIdx, n),
            StopQueued(s.control, s.subIdx), StopQueued(s.control, s.subIdx), SubJoined(s.control, s.subIdx));
  }

  lemma FollowingIsNext(s: Server)
    requires |s.subs| > 0 && s.subIdx == |s.dispatched| % |s.subs|
    ensures Following(s) == (|s.dispatched| + 1) % |s.subs|
  {
    var n, d := |s.subs|, |s.dispatched|;
    assert d == d / n * n + d % n;
    if d % n + 1 < n {
      ModUnique(d + 1, n, d / n, d % n + 1);
    } else {
      ModUnique(d + 1, n, d / n + 1, 0);
    }
  }

  lemma ModUnique(a: nat, n: nat, q: nat, r: nat)
    requires n > 0 && a == q * n + r && r < n
    ensures a % n == r
  {
    if a / n < q {
      Times(a / n + 1, q, n);
    } else if q < a / n {
      Times(q + 1, a / n, n);
    }
  }

  lemma Times(p: nat, q: nat, n: nat)
    requires p <= q
    ensures p * n <= q * n
  {
  }

  lemma MainInv(s: Server, e: Step)
    requires Inv(s) && Enabled(s, e)
    requires e.MainTop? || e.Accept? || e.LookAtSub? || e.MainDrain? || e.MainRun? || e.MainEnd? || e.Submit?
    ensures Inv(Next(s, e))
  {
    match e
    case LookAtSub => assert !s.subs[s.subIdx].stop;
    case MainDrain => assert s.main.tasks + [] == [] + s.main.tasks;
    case MainRun => assert s.main.batch + s.main.tasks == [s.main.batch[0]] + (s.main.batch[1..] + s.main.tasks);
    case Submit(i) => assert !SubJoined(s.control, i);
    case _ =>
  }

  lemma StopSub(s: Server, i: nat)
    requires Inv(s) && s.control == SubChecked(i) && i < |s.subs|
    ensures SubsOk(Next(s, Control))
  {
    var share := Share(s.dispatched, i, |s.subs|);
    SubPush(s.subs[i], StopTask, share, share + [], false, true, false);
    StopOneMore(s.subs, s.dispatched, i, s.subs[i].(tasks := s.subs[i].tasks + [StopTask]));
  }

  /** The stop task of sub-reactor `i` has just been queued. */
  lemma StopOneMore(subs: seq<Sub>, dispatched: seq<nat>, i: nat, b: Sub)
    requires i < |subs| && SubOk(b, Share(dispatched, i, |subs|), true, false)
    requires forall j :: 0 <= j < |subs| ==>
      SubOk(subs[j], Share(dispatched, j, |subs|), StopQueued(SubChecked(i), j), SubJoined(SubChecked(i), j))
    ensures forall j :: 0 <= j < |subs| ==>
      SubOk(subs[i := b][j], Share(dispatched, j, |subs|), StopQueued(SubQueued(i), j), SubJoined(SubQueued(i), j))
  {
    forall j | 0 <= j < |subs|
      ensures SubOk(subs[i := b][j], Share(dispatched, j, |subs|), StopQueued(SubQueued(i), j), SubJoined(SubQueued(i), j))
    {
      assert SubOk(subs[j], Share(dispatched, j, |subs|), StopQueued(SubChecked(i), j), SubJoined(SubChecked(i), j));
    }
  }

  /** The other steps queue no stop task, and join only a loop that has ended. */
  predicate NoStopQueued(s: Server, c: Control) {
    forall j :: 0 <= j < |s.subs| ==>
      StopQueued(c, j) == StopQueued(s.control, j)
      && (SubJoined(c, j) ==> SubJoined(s.control, j) || s.subs[j].phase.Exited?)
  }

  lemma SameSubs(s: Server, c: Control)
    requires SubsOk(s) && NoStopQueued(s, c)
    ensures SubsOk(s.(control := c))
  {
  }

  lemma ControlQueuesNothing(s: Server)
    requires Inv(s) && Enabled(s, Control) && !s.control.SubChecked?
    ensures Next(s, Control).subs == s.subs && NoStopQueued(s, Next(s, Control).control)
  {
    if s.control.SubTurn? {
      assert !s.subs[s.control.i].stop;
    }
  }

  lemma ControlSubs(s: Server)
    requires Inv(s) && Enabled(s, Control)
    ensures SubsOk(Next(s, Control))
  {
    if s.control.SubChecked? {
      StopSub(s, s.control.i);
    } else {
      ControlQueuesNothing(s);
      SameSubs(s, Next(s, Control).control);
    }
  }

  lemma ControlInv(s: Server)
    requires Inv(s) && Enabled(s, Control)
    ensures Inv(Next(s, Control))
  {
    ControlSubs(s);
    if s.control.MainChecked? {
      assert s.main.batch + (s.main.tasks + [StopTask]) == s.main.batch + s.main.tasks + [StopTask];
    }
  }

  lemma StepInv(s: Server, e: Step)
    requires Inv(s) && Enabled(s, e)
    ensures Inv(Next(s, e)) && |Next(s, e).subs| == |s.subs| && Next(s, e).pool == s.pool
  {
    match e
    case PushToSub => PushInv(s);
    case Control => ControlInv(s);
    case SubTop(_) => SubInv(s, e);
    case Die(_, _) => SubInv(s, e);
    case SubDrain(_) => SubInv(s, e);
    case SubRun(_) => SubInv(s, e);
    case SubEnd(_) => SubInv(s, e);
    case Post(_, _) => SubInv(s, e);
    case _ => MainInv(s, e);
  }

  lemma {:induction false} RunInv(s: Server, steps: seq<Step>, s': Server)
    requires Inv(s) && Run(s, steps, s')
    ensures Inv(s') && |s'.subs| == |s.subs| && s'.pool == s.pool
    decreases |steps|
  {
    if steps != [] {
      StepInv(s, steps[0]);
      RunInv(Next(s, steps[0]), steps[1..], s');
    }
  }

  lemma ReachableInv(s: Server, n: nat)
    requires n > 0 && Reachable(s, n)
    ensures Inv(s) && |s.subs| == n
  {
    var pool, steps :| Run(Init(pool, n), steps, s);
    assert Inv(Init(pool, n));
    RunInv(Init(pool, n), steps, s);
  }

  // ---- what follows ----

  lemma {:induction false} NoAdoptNoSocket(queue: seq<ServerTask>)
    requires NoAdopt(queue)
    ensures Adopts(queue) == []
    decreases |queue|
  {
    if queue != [] {
      NoAdoptNoSocket(queue[..|queue| - 1]);
    }
  }

  /** No accepted socket meets a raised stop flag, and no task meets a stopped pool. */
  lemma NothingIsRefused(s: Server, n: nat)
    requires n > 0 && Reachable(s, n)
    ensures s.lost == [] && !s.misused
    ensures s.accepted == s.dispatched + (if s.main.hand.Empty? then [] else [s.main.hand.sock])
  {
    ReachableInv(s, n);
  }

  /** When a sub-reactor's stop task has run, every socket dispatched to it had become a connection
      before, in the order of acceptance, and none of its connections is alive. */
  lemma StoppedSubHasAdoptedAll(s: Server, n: nat, i: nat)
    requires n > 0 && Reachable(s, n) && i < |s.subs| && s.subs[i].stop
    ensures s.subs[i].adopted == Share(s.accepted, i, n) && s.subs[i].live == {}
    ensures MainJoined(s.control) && s.dispatched == s.accepted
  {
    ReachableInv(s, n);
    NoAdoptNoSocket(Queue(s.subs[i]));
    assert StopQueued(s.control, i);
    assert s.subs[i].adopted + [] == s.subs[i].adopted && s.dispatched + [] == s.dispatched;
  }

  /** After `Server::stop` every accepted socket had become a connection of its sub-reactor, every loop
      has ended, and the pool has been stopped if there is one. */
  lemma ShutdownLosesNothing(s: Server, n: nat)
    requires n > 0 && Reachable(s, n) && s.control.Done?
    ensures |s.subs| == n && forall k :: 0 <= k < |s.accepted| ==> s.accepted[k] in s.subs[k % n].adopted
    ensures s.main.phase.Exited? && forall i :: 0 <= i < n ==> s.subs[i].phase.Exited? && s.subs[i].live == {}
    ensures s.poolStopped <==> s.pool
  {
    ReachableInv(s, n);
    assert forall i :: 0 <= i < n ==> SubJoined(s.control, i);
    forall i | 0 <= i < n ensures s.subs[i].live == {} && s.subs[i].adopted == Share(s.accepted, i, n) {
      StoppedSubHasAdoptedAll(s, n, i);
    }
    forall k | 0 <= k < |s.accepted| ensures s.accepted[k] in s.subs[k % n].adopted {
      InShare(s.accepted, k, n);
    }
  }

  /** The pool is stopped at the very end: by then every thread that could submit has ended. */
  lemma PoolOutlivesItsUsers(s: Server, n: nat)
    requires n > 0 && Reachable(s, n)
    ensures s.poolStopped <==> s.control.Done? && s.pool
    ensures s.poolStopped ==> |s.subs| == n && forall i :: 0 <= i < n ==> s.subs[i].phase.Exited? && !Enabled(s, Submit(i))
  {
    ReachableInv(s, n);
    if s.poolStopped {
      assert forall i :: 0 <= i < n ==> SubJoined(s.control, i);
    }
  }

  /** The stopping thread never waits for a loop that has not been told to stop. */
  lemma JoinsAreAnswered(s: Server, n: nat)
    requires n > 0 && Reachable(s, n)
    ensures s.control.MainQueued? ==> s.main.stop || StopTask in s.main.batch + s.main.tasks
    ensures s.control.SubQueued? ==>
      s.control.i < |s.subs| && (s.subs[s.control.i].stop || StopTask in Queue(s.subs[s.control.i]))
  {
    ReachableInv(s, n);
  }

  // ---- stopping comes to an end ----

  lemma {:induction false} RunConcat(s: Server, a: seq<Step>, m: Server, b: seq<Step>, r: Server)
    requires Run(s, a, m) && Run(m, b, r)
    ensures Run(s, a + b, r)
    decreases |a|
  {
    if a == [] {
      assert a + b == b;
    } else {
      RunConcat(Next(s, a[0]), a[1..], m, b, r);
      assert (a + b)[1..] == a[1..] + b;
    }
  }

  lemma RunCons(s: Server, e: Step, steps: seq<Step>, r: Server)
    requires Enabled(s, e) && Run(Next(s, e), steps, r)
    ensures Run(s, [e] + steps, r)
  {
    assert ([e] + steps)[1..] == steps;
  }

  /** The next step of a sub-reactor's thread that handles no more events. */
  function OwnStep(b: Sub, i: nat): Step {
    match b.phase
    case Top => SubTop(i)
    case IoPass => SubDrain(i)
    case _ => if b.batch != [] then SubRun(i) else SubEnd(i)
  }

  predicate Told(b: Sub) { b.stop || StopTask in Queue(b) }

  /** How many of them are left. */
  function SubLeft(b: Sub): nat {
    match b.phase
    case Exited => 0
    case Top => if b.stop then 1 else |b.tasks| + 5
    case IoPass => |b.tasks| + 4
    case TaskPass => if b.stop || StopTask in b.batch then |b.batch| + 3 else |b.batch| + |b.tasks| + 7
  }

  lemma OwnStepGoesOn(b: Sub, i: nat)
    requires Told(b) && !b.phase.Exited? && (b.batch != [] ==> b.phase.TaskPass?)
    ensures var c := SubStep(b, OwnStep(b, i));
            Told(c) && SubLeft(c) < SubLeft(b) && (c.batch != [] ==> c.phase.TaskPass?)
  {
    if b.batch != [] {
      assert b.batch == [b.batch[0]] + b.batch[1..];
    }
  }

  lemma OwnStepOf(s: Server, i: nat)
    requires i < |s.subs| && !s.subs[i].phase.Exited?
    ensures var e := OwnStep(s.subs[i], i);
            && Enabled(s, e) && Next(s, e) == s.(subs := s.subs[i := SubStep(s.subs[i], e)])
            && e in {SubTop(i), SubDrain(i), SubRun(i), SubEnd(i)}
  {
  }

  /** A sub-reactor that has been told to stop ends by steps of its own. */
  lemma {:induction false} SubExits(s: Server, i: nat) returns (steps: seq<Step>, s': Server)
    requires i < |s.subs| && Told(s.subs[i]) && (s.subs[i].batch != [] ==> s.subs[i].phase.TaskPass?)
    ensures Run(s, steps, s') && i < |s'.subs| && s'.subs[i].phase.Exited? && s'.control == s.control
    ensures forall k :: 0 <= k < |steps| ==> steps[k] in {SubTop(i), SubDrain(i), SubRun(i), SubEnd(i)}
    decreases SubLeft(s.subs[i])
  {
    steps, s' := [], s;
    if !s.subs[i].phase.Exited? {
      var e := OwnStep(s.subs[i], i);
      OwnStepOf(s, i);
      OwnStepGoesOn(s.subs[i], i);
      var rest;
      rest, s' := SubExits(Next(s, e), i);
      RunCons(s, e, rest, s');
      steps := [e] + rest;
    }
  }

  function OwnMain(m: Main): Step {
    match m.phase
    case Top => MainTop
    case IoPass => if m.hand.Empty? then MainDrain else if m.hand.Holding? then LookAtSub else PushToSub
    case _ => if m.batch != [] then MainRun else MainEnd
  }

  predicate MainTold(m: Main) { m.stop || StopTask in m.batch + m.tasks }

  function MainLeft(m: Main): nat {
    match m.phase
    case Exited => 0
    case Top => if m.stop then 1 else |m.tasks| + 8
    case IoPass => |m.tasks| + 5 + (if m.hand.Empty? then 0 else if m.hand.Checked? then 1 else 2)
    case TaskPass => if m.stop || StopTask in m.batch then |m.batch| + 3 else |m.batch| + |m.tasks| + 10
  }

  lemma MainTaskGoesOn(m: Main)
    requires MainTold(m) && m.phase.TaskPass? && m.batch != []
    ensures MainTold(MainTask(m)) && MainLeft(MainTask(m)) < MainLeft(m)
  {
    assert m.batch == [m.batch[0]] + m.batch[1..];
  }

  lemma OwnMainGoesOn(s: Server)
    requires Inv(s) && MainTold(s.main) && !s.main.phase.Exited?
    ensures var e := OwnMain(s.main);
            && Enabled(s, e) && MainTold(Next(s, e).main) && MainLeft(Next(s, e).main) < MainLeft(s.main)
            && Next(s, e).control == s.control
  {
    if s.main.phase.TaskPass? && s.main.batch != [] {
      MainTaskGoesOn(s.main);
    }
  }

  /** So does the main reactor; a socket in its hands is handed on first. */
  lemma {:induction false} MainExits(s: Server) returns (steps: seq<Step>, s': Server)
    requires Inv(s) && MainTold(s.main)
    ensures Run(s, steps, s') && s'.main.phase.Exited? && s'.control == s.control
    ensures forall k :: 0 <= k < |steps| ==> steps[k] in {MainTop, LookAtSub, PushToSub, MainDrain, MainRun, MainEnd}
    decreases MainLeft(s.main)
  {
    steps, s' := [], s;
    if !s.main.phase.Exited? {
      var e := OwnMain(s.main);
      OwnMainGoesOn(s);
      StepInv(s, e);
      var rest;
      rest, s' := MainExits(Next(s, e));
      RunCons(s, e, rest, s');
      steps := [e] + rest;
    }
  }

  /** The stopping thread waits in vain for no loop: the one it joins ends by steps of its own. */
  lemma JoinedLoopEnds(s: Server, n: nat) returns (steps: seq<Step>, s': Server)
    requires n > 0 && Reachable(s, n)
    ensures Run(s, steps, s')
    ensures s.control.MainQueued? || s.control.SubQueued? ==> Enabled(s', Control) && s'.control == s.control
  {
    ReachableInv(s, n);
    steps, s' := Joinable(s);
  }

  /** Whatever the control thread waits for can come about. */
  lemma Joinable(s: Server) returns (steps: seq<Step>, s': Server)
    requires Inv(s)
    ensures Run(s, steps, s') && s'.control == s.control && (!s.control.Done? ==> Enabled(s', Control))
  {
    steps, s' := [], s;
    if s.control.MainQueued? {
      steps, s' := MainExits(s);
    } else if s.control.SubQueued? {
      assert StopQueued(s.control, s.control.i);
      steps, s' := SubExits(s, s.control.i);
    }
  }

  function ControlLeft(s: Server): int {
    var n := |s.subs|;
    match s.control
    case Serving => 3 * n + 5
    case MainChecked => 3 * n + 4
    case MainQueued => 3 * n + 3
    case SubTurn(i) => 3 * (n - i) + 2
    case SubChecked(i) => 3 * (n - i) + 1
    case SubQueued(i) => 3 * (n - i)
    case PoolTurn => 1
    case Done => 0
  }

  lemma ControlGoesOn(s: Server)
    requires Inv(s) && Enabled(s, Control)
    ensures 0 <= ControlLeft(Next(s, Control)) < ControlLeft(s)
  {
    ControlInv(s);
  }

  lemma {:induction false} CanFinish(s: Server) returns (steps: seq<Step>, s': Server)
    requires Inv(s)
    ensures Run(s, steps, s') && s'.control.Done? && s'.pool == s.pool && (s'.poolStopped <==> s'.pool)
    decreases ControlLeft(s)
  {
    steps, s' := [], s;
    if !s.control.Done? {
      var wait, m := Joinable(s);
      RunInv(s, wait, m);
      ControlInv(m);
      ControlGoesOn(m);
      var rest;
      rest, s' := CanFinish(Next(m, Control));
      RunCons(m, Control, rest, s');
      RunConcat(s, wait, m, [Control] + rest, s');
      steps := wait + ([Control] + rest);
    }
  }

  /** From every reachable state, whatever is under way, `Server::stop` can run to its end, where the
      pool, if there is one, has been stopped. */
  lemma ShutdownCanComplete(s: Server, n: nat) returns (steps: seq<Step>, s': Server)
    requires n > 0 && Reachable(s, n)
    ensures Run(s, steps, s') && s'.control.Done? && (s'.poolStopped <==> s.pool)
  {
    ReachableInv(s, n);
    steps, s' := CanFinish(s);
  }
}
