/** The task queue of an event loop: producers on any number of threads, one consumer, and the
    edge-triggered eventfd between them. A step is what one thread does without the others seeing
    anything in between; a run is any interleaving of steps. */
module EventLoop {

  datatype Callback = Work(id: nat) | StopLoop

  /** Inside `enqueueTask`: past the look at the stop flag, or past the push and before the write. */
  datatype Stage = Checked(task: Callback) | Pushed

  datatype LoopPhase = Top | Polling | Handling(mustRead: bool) | Running | Exited

  datatype Loop = Loop(
    phase: LoopPhase,
    tasks: seq<Callback>,         // the shared queue
    batch: seq<Callback>,         // moved out of it and not yet run
    counter: nat,                 // of the eventfd
    edge: bool,                   // epoll has queued the eventfd as ready since the last report
    stop: bool,
    producers: map<nat, Stage>,   // the threads inside `enqueueTask`
    // ---- history ----
    accepted: seq<Callback>, executed: seq<Callback>, dropped: seq<Callback>)

  /** The loop's own thread, when a handler or a task calls `enqueueTask`. */
  const SELF: nat := 0

  datatype Step =
    | Check(p: nat, task: Callback)
    | Push(p: nat)
    | WriteFd(p: nat)
    | TopOfLoop
    | Skim
    | Wake(reported: bool)
    | ReadFd
    | Drain
    | RunOne
    | EndRound

  ghost function Init(): Loop { Loop(Top, [], [], 0, false, false, map[], [], [], []) }

  predicate FromLoop(s: Step) { !s.Check? && !s.Push? && !s.WriteFd? }

  ghost predicate Enabled(l: Loop, s: Step) {
    && (FromLoop(s) ==> SELF !in l.producers)
    && match s
       case Check(p, _) => p !in l.producers && (p == SELF ==> l.phase.Handling? || l.phase.Running?)
       case Push(p) => p in l.producers && l.producers[p].Checked?
       case WriteFd(p) => p in l.producers && l.producers[p].Pushed?
       case TopOfLoop => l.phase.Top?
       case Skim => l.phase.Polling? && l.edge && l.counter == 0
       case Wake(reported) => l.phase.Polling? && (reported ==> l.edge && l.counter > 0)
       case ReadFd => l.phase == Handling(true)
       case Drain => l.phase == Handling(false)
       case RunOne => l.phase.Running? && l.batch != []
       case EndRound => l.phase.Running? && l.batch == []
  }

  /** `Wake(false)` is a return of poll for other descriptors; a stale edge, whose count was read
      together with an earlier one, is dropped by epoll without a report. */
  ghost function Next(l: Loop, s: Step): Loop
    requires Enabled(l, s)
  {
    match s
    case Check(p, task) =>
      if l.stop then l.(dropped := l.dropped + [task]) else l.(producers := l.producers[p := Checked(task)])
    case Push(p) =>
      var task := l.producers[p].task;
      l.(tasks := l.tasks + [task], accepted := l.accepted + [task], producers := l.producers[p := Pushed])
    case WriteFd(p) => l.(counter := l.counter + 1, edge := true, producers := l.producers - {p})
    case TopOfLoop => l.(phase := if l.stop then Exited else Polling)
    case Skim => l.(edge := false)
    case Wake(reported) => l.(phase := Handling(reported), edge := l.edge && l.counter > 0 && !reported)
    case ReadFd => l.(phase := Handling(false), counter := 0)
    case Drain => l.(phase := Running, batch := l.tasks, tasks := [])
    case RunOne =>
      var task := l.batch[0];
      l.(batch := l.batch[1..], executed := l.executed + [task], stop := l.stop || task.StopLoop?)
    case EndRound => l.(phase := Top)
  }

  ghost predicate Run(l: Loop, steps: seq<Step>, l': Loop)
    decreases |steps|
  {
    if steps == [] then l' == l
    else Enabled(l, steps[0]) && Run(Next(l, steps[0]), steps[1..], l')
  }

  ghost predicate Reachable(l: Loop) { exists steps :: Run(Init(), steps, l) }

  // ---- the invariant ----

  /** Every accepted task is run once, in the order of acceptance. */
  ghost predicate Fifo(l: Loop) {
    && l.executed + l.batch + l.tasks == l.accepted
    && (l.batch != [] ==> l.phase.Running?)
  }

  /** A queued task has a producer about to write, an unreported edge with a positive count, or a
      round that is yet to drain the queue. */
  ghost predicate Awake(l: Loop) {
    l.tasks != [] ==>
      || (exists p :: p in l.producers && l.producers[p].Pushed?)
      || (l.counter > 0 && l.edge)
      || l.phase.Handling?
  }

  ghost predicate Stopping(l: Loop) {
    && (l.stop <==> StopLoop in l.executed)
    && (l.dropped != [] || l.phase.Exited? ==> l.stop)
    && (l.phase.Polling? || l.phase.Handling? ==> !l.stop)
    && (SELF in l.producers ==> l.phase.Handling? || l.phase.Running?)
  }

  /** A count in the eventfd has its report still to come, or its read. */
  ghost predicate Counted(l: Loop) { l.counter > 0 ==> l.edge || l.phase == Handling(true) }

  ghost predicate Inv(l: Loop) { Fifo(l) && Awake(l) && Counted(l) && Stopping(l) }

  lemma StepFifo(l: Loop, s: Step)
    requires Fifo(l) && Enabled(l, s)
    ensures Fifo(Next(l, s))
  {
    match s
    case Push(p) =>
      assert l.executed + l.batch + (l.tasks + [l.producers[p].task]) == l.accepted + [l.producers[p].task];
    case Drain => assert l.executed + l.tasks + [] == l.executed + [] + l.tasks;
    case RunOne => assert l.executed + [l.batch[0]] + l.batch[1..] == l.executed + l.batch;
    case _ =>
  }

  lemma StepAwake(l: Loop, s: Step)
    requires Awake(l) && Enabled(l, s)
    ensures Awake(Next(l, s))
  {
    var l' := Next(l, s);
    if exists p :: p in l.producers && l.producers[p].Pushed? && s != WriteFd(p) {
      var p :| p in l.producers && l.producers[p].Pushed? && s != WriteFd(p);
      assert p in l'.producers && l'.producers[p].Pushed?;
    }
    match s
    case Push(p) => assert l'.producers[p].Pushed?;
    case _ =>
  }

  lemma StepInv(l: Loop, s: Step)
    requires Inv(l) && Enabled(l, s)
    ensures Inv(Next(l, s))
  {
    StepFifo(l, s);
    StepAwake(l, s);
  }

  lemma {:induction false} RunInv(l: Loop, steps: seq<Step>, l': Loop)
    requires Inv(l) && Run(l, steps, l')
    ensures Inv(l')
    decreases |steps|
  {
    if steps != [] {
      StepInv(l, steps[0]);
      RunInv(Next(l, steps[0]), steps[1..], l');
    }
  }

  lemma ReachableInv(l: Loop)
    requires Reachable(l)
    ensures Inv(l)
  {
    var steps :| Run(Init(), steps, l);
    RunInv(Init(), steps, l);
  }

  // ---- what follows ----

  /** epoll_wait would put the thread to sleep, as far as the eventfd is concerned. */
  ghost predicate Blocked(l: Loop) { l.phase.Polling? && !(l.edge && l.counter > 0) }

  /** The loop blocks while a task is queued only if another thread is about to write. */
  lemma NoLostWakeup(l: Loop)
    requires Reachable(l) && l.phase.Polling? && l.tasks != []
    ensures Blocked(l) ==> exists p :: p != SELF && p in l.producers && l.producers[p].Pushed?
  {
    ReachableInv(l);
    if Blocked(l) {
      var p :| p in l.producers && l.producers[p].Pushed?;
      assert p != SELF;
    }
  }

  /** Once the producers are out of `enqueueTask` and the loop sleeps, all that was accepted has been
      run, once and in order. */
  lemma QuietMeansDone(l: Loop)
    requires Reachable(l) && Blocked(l) && l.producers == map[]
    ensures l.executed == l.accepted
  {
    ReachableInv(l);
    assert l.executed + [] + [] == l.executed;
  }

  lemma ExactlyOnceInOrder(l: Loop)
    requires Reachable(l)
    ensures l.executed + l.batch + l.tasks == l.accepted
    ensures l.phase.Polling? || l.phase.Exited? ==> l.batch == []
  {
    ReachableInv(l);
  }

  /** A task is refused only after a stop task has run. When the loop has ended, all that was accepted
      before that stop task has been run. */
  lemma StopKeepsWhatCameBefore(l: Loop, k: nat, m: nat)
    requires Reachable(l) && l.phase.Exited? && k <= m < |l.accepted|
    requires l.accepted[m] == StopLoop && forall j :: 0 <= j < m ==> l.accepted[j] != StopLoop
    ensures k < |l.executed| && l.executed[k] == l.accepted[k]
  {
    ReachableInv(l);
    assert l.accepted == l.executed + l.tasks;
    var j :| 0 <= j < |l.executed| && l.executed[j] == StopLoop;
    assert l.accepted[j] == StopLoop;
    assert m <= j;
  }

  lemma RefusedOnlyAfterStop(l: Loop)
    requires Reachable(l) && l.dropped != []
    ensures StopLoop in l.executed
  {
    ReachableInv(l);
  }

  /** Nothing is left in the eventfd that poll does not report: a count with no report to come is about
      to be read, and a loop without a report to come has an empty eventfd. */
  lemma NoCountIsForgotten(l: Loop)
    requires Reachable(l)
    ensures l.counter > 0 ==> l.edge || l.phase == Handling(true)
    ensures Blocked(l) ==> l.counter == 0
  {
    ReachableInv(l);
  }

  /** Once the stop flag is up and the producers that had seen it down are gone, nothing is accepted any
      more: later calls are refused. */
  lemma {:induction false} StoppedLoopAcceptsNothing(l: Loop, steps: seq<Step>, l': Loop)
    requires Inv(l) && l.stop && l.producers == map[] && Run(l, steps, l')
    ensures l'.accepted == l.accepted && l'.stop && l'.producers == map[]
    ensures l'.executed + l'.batch + l'.tasks == l.executed + l.batch + l.tasks
    decreases |steps|
  {
    if steps != [] {
      StepInv(l, steps[0]);
      StoppedLoopAcceptsNothing(Next(l, steps[0]), steps[1..], l');
    }
  }

  // ---- progress ----

  function RunSteps(n: nat): (steps: seq<Step>)
    ensures |steps| == n
  {
    if n == 0 then [] else [RunOne] + RunSteps(n - 1)
  }

  lemma {:induction false} RunBatch(l: Loop, l': Loop)
    requires l.phase.Running? && SELF !in l.producers
    requires l' == l.(batch := [], executed := l.executed + l.batch, stop := l.stop || StopLoop in l.batch)
    ensures Run(l, RunSteps(|l.batch|), l')
    decreases |l.batch|
  {
    if l.batch == [] {
      assert l.executed + [] == l.executed;
    } else {
      var m := Next(l, RunOne);
      assert l.batch == [l.batch[0]] + m.batch;
      assert m.executed + m.batch == l.executed + l.batch;
      RunBatch(m, l');
      assert RunSteps(|l.batch|)[1..] == RunSteps(|m.batch|);
    }
  }

  /** The steps of one round after which everything queued now has been run. */
  function Round(l: Loop): seq<Step> {
    if l.tasks == [] then [] else [Wake(true), ReadFd, Drain] + RunSteps(|l.tasks|)
  }

  /** Whenever no producer is inside `enqueueTask`, the polling loop needs nothing but its own steps to
      run all that was accepted. */
  lemma RoundRunsAll(l: Loop) returns (l': Loop)
    requires Reachable(l) && l.phase.Polling? && l.producers == map[]
    ensures Run(l, Round(l), l') && l'.executed == l.accepted
    ensures forall k :: 0 <= k < |Round(l)| ==> FromLoop(Round(l)[k])
  {
    ReachableInv(l);
    assert l.accepted == l.executed + l.tasks;
    if l.tasks == [] {
      l' := l;
    } else {
      var a := Next(l, Wake(true));
      var b := Next(a, ReadFd);
      var c := Next(b, Drain);
      l' := c.(batch := [], executed := c.executed + c.batch, stop := c.stop || StopLoop in c.batch);
      RunBatch(c, l');
      var steps := Round(l);
      assert steps[1..][1..][1..] == RunSteps(|l.tasks|);
      assert Run(b, steps[1..][1..], l');
      assert Run(a, steps[1..], l');
      LoopsOwn(|l.tasks|);
    }
  }

  lemma {:induction false} LoopsOwn(n: nat)
    ensures forall k :: 0 <= k < n ==> RunSteps(n)[k] == RunOne
  {
    if n > 0 {
      LoopsOwn(n - 1);
    }
  }

  /** After a stop task the loop ends by its own steps, when it has run the rest of its batch. */
  lemma StoppedLoopEnds(l: Loop) returns (steps: seq<Step>, l': Loop)
    requires Reachable(l) && l.stop && SELF !in l.producers
    ensures Run(l, steps, l') && l'.phase.Exited? && l'.executed == l.executed + l.batch && l'.tasks == l.tasks
    ensures forall k :: 0 <= k < |steps| ==> FromLoop(steps[k])
  {
    ReachableInv(l);
    assert l.executed + [] == l.executed;
    if l.phase.Exited? {
      steps, l' := [], l;
    } else if l.phase.Top? {
      steps, l' := [TopOfLoop], Next(l, TopOfLoop);
      assert steps[1..] == [];
    } else {
      var m := l.(batch := [], executed := l.executed + l.batch, stop := l.stop || StopLoop in l.batch);
      RunBatch(l, m);
      LoopsOwn(|l.batch|);
      var t := Next(m, EndRound);
      l' := Next(t, TopOfLoop);
      var end := [EndRound, TopOfLoop];
      assert end[1..] == [TopOfLoop] && [TopOfLoop][1..] == [];
      assert Run(t, [TopOfLoop], l');
      assert Run(m, end, l');
      RunConcat(l, RunSteps(|l.batch|), m, end, l');
      steps := RunSteps(|l.batch|) + end;
    }
  }

  // ---- one call of enqueueTask ----

  ghost function Enqueued(l: Loop, task: Callback): Loop {
    if l.stop then l.(dropped := l.dropped + [task])
    else l.(tasks := l.tasks + [task], accepted := l.accepted + [task], counter := l.counter + 1, edge := true)
  }

  function EnqueueSteps(stop: bool, p: nat, task: Callback): seq<Step> {
    if stop then [Check(p, task)] else [Check(p, task), Push(p), WriteFd(p)]
  }

  lemma EnqueueIsARun(l: Loop, p: nat, task: Callback)
    requires Enabled(l, Check(p, task))
    ensures Run(l, EnqueueSteps(l.stop, p, task), Enqueued(l, task))
  {
    var m := Next(l, Check(p, task));
    assert EnqueueSteps(l.stop, p, task)[1..] == if l.stop then [] else [Push(p), WriteFd(p)];
    if !l.stop {
      var n := Next(m, Push(p));
      var e := Next(n, WriteFd(p));
      assert e.producers == l.producers;
      assert e == Enqueued(l, task);
      assert [Push(p), WriteFd(p)][1..] == [WriteFd(p)] && [WriteFd(p)][1..] == [];
      assert Run(n, [WriteFd(p)], e);
    }
  }

  // ---- a batch whose tasks enqueue more ----

  lemma {:induction false} RunConcat(l: Loop, a: seq<Step>, m: Loop, b: seq<Step>, r: Loop)
    requires Run(l, a, m) && Run(m, b, r)
    ensures Run(l, a + b, r)
    decreases |a|
  {
    if a == [] {
      assert a + b == b;
    } else {
      RunConcat(Next(l, a[0]), a[1..], m, b, r);
      assert (a + b)[1..] == a[1..] + b;
    }
  }

  ghost function EnqueuedAll(l: Loop, tasks: seq<Callback>): (r: Loop)
    ensures r == l.(tasks := r.tasks, accepted := r.accepted, counter := r.counter, edge := r.edge, dropped := r.dropped)
    ensures l.tasks <= r.tasks && l.dropped <= r.dropped
    decreases |tasks|
  {
    if tasks == [] then l else EnqueuedAll(Enqueued(l, tasks[0]), tasks[1..])
  }

  /** The loop's own calls of `enqueueTask`, one after the other. */
  lemma {:induction false} EnqueueAllIsARun(l: Loop, tasks: seq<Callback>) returns (steps: seq<Step>)
    requires l.phase.Running? && SELF !in l.producers
    ensures Run(l, steps, EnqueuedAll(l, tasks))
    decreases |tasks|
  {
    steps := [];
    if tasks != [] {
      EnqueueIsARun(l, SELF, tasks[0]);
      var more := EnqueueAllIsARun(Enqueued(l, tasks[0]), tasks[1..]);
      RunConcat(l, EnqueueSteps(l.stop, SELF, tasks[0]), Enqueued(l, tasks[0]), more, EnqueuedAll(l, tasks));
      steps := EnqueueSteps(l.stop, SELF, tasks[0]) + more;
    }
  }

  /** The loop after its batch, when the k-th task enqueues `spawned[k]`: the whole batch has been run,
      once and in order, and what it enqueued is behind the queue, or dropped behind a stop task. */
  ghost function Ran(l: Loop, spawned: seq<seq<Callback>>): (r: Loop)
    requires l.phase.Running? && SELF !in l.producers && |spawned| == |l.batch|
    ensures r.batch == [] && r.executed == l.executed + l.batch && r.stop == (l.stop || StopLoop in l.batch)
    ensures l.tasks <= r.tasks && l.dropped <= r.dropped && r.phase == l.phase && r.producers == l.producers
    decreases |l.batch|
  {
    if l.batch == [] then l
    else
      HeadFirst(l);
      Ran(EnqueuedAll(Next(l, RunOne), spawned[0]), spawned[1..])
  }

  lemma HeadFirst(l: Loop)
    requires l.phase.Running? && SELF !in l.producers && l.batch != []
    ensures var m := Next(l, RunOne);
            m.executed + m.batch == l.executed + l.batch && (StopLoop in l.batch <==> l.batch[0].StopLoop? || StopLoop in m.batch)
  {
    assert l.batch == [l.batch[0]] + l.batch[1..];
  }

  /** It is reached by steps of the loop's own thread. */
  lemma {:induction false} RanIsARun(l: Loop, spawned: seq<seq<Callback>>) returns (steps: seq<Step>)
    requires l.phase.Running? && SELF !in l.producers && |spawned| == |l.batch|
    ensures Run(l, steps, Ran(l, spawned))
    decreases |l.batch|
  {
    steps := [];
    if l.batch != [] {
      var m := Next(l, RunOne);
      var n := EnqueuedAll(m, spawned[0]);
      var own := EnqueueAllIsARun(m, spawned[0]);
      var rest := RanIsARun(n, spawned[1..]);
      RunConcat(m, own, n, rest, Ran(l, spawned));
      steps := [RunOne] + (own + rest);
      assert steps[1..] == own + rest;
    }
  }

  // ---- the object ----

  class EventLoop {
    var tasks: seq<Callback>
    var stop: bool
    var counter: nat
    ghost var edge: bool
    ghost var phase: LoopPhase
    ghost var batch: seq<Callback>
    ghost var producers: map<nat, Stage>
    ghost var accepted: seq<Callback>
    ghost var executed: seq<Callback>
    ghost var dropped: seq<Callback>

    ghost function View(): Loop
      reads this
    {
      Loop(phase, tasks, batch, counter, edge, stop, producers, accepted, executed, dropped)
    }

    constructor ()
      ensures View() == Init()
    {
      tasks, stop, counter := [], false, 0;
      edge, phase, batch, producers := false, Top, [], map[];
      accepted, executed, dropped := [], [], [];
    }

    /** What thread `p` does when no other thread comes in between. */
    method EnqueueTask(p: nat, task: Callback)
      requires Enabled(View(), Check(p, task))
      modifies this
      ensures View() == Enqueued(old(View()), task)
    {
      if stop {
        dropped := dropped + [task];
        return;
      }
      tasks, accepted := tasks + [task], accepted + [task];
      counter, edge := counter + 1, true;
    }

    /** Reads the eventfd, however often a signal interrupts the read. */
    method ReadCallback(interrupts: nat)
      requires phase == Handling(true) && SELF !in producers
      modifies this
      ensures View() == Next(old(View()), ReadFd)
    {
      var left, done := interrupts, false;
      while !done
        invariant left >= 0
        invariant View() == if done then Next(old(View()), ReadFd) else old(View())
        decreases left, !done
      {
        if left > 0 {
          left := left - 1;
        } else {
          counter, done := 0, true;
          phase := Handling(false);
        }
      }
    }

    /** Moves the queue, task by task, into a local list. */
    method TakeTasks() returns (funcs: seq<Callback>)
      requires phase == Handling(false) && SELF !in producers
      modifies this
      ensures funcs == old(tasks) && View() == Next(old(View()), Drain)
    {
      funcs := [];
      while tasks != []
        invariant funcs + tasks == old(tasks)
        invariant View() == old(View()).(tasks := tasks)
        decreases |tasks|
      {
        assert funcs + [tasks[0]] + tasks[1..] == funcs + tasks;
        funcs := funcs + [tasks[0]];
        tasks := tasks[1..];
      }
      phase, batch := Running, funcs;
    }

    /** Tasks enqueued on the loop's own thread. */
    method EnqueueAll(more: seq<Callback>)
      requires phase == Running && SELF !in producers
      modifies this
      ensures View() == EnqueuedAll(old(View()), more)
      ensures phase == Running && producers == old(producers) && batch == old(batch)
    {
      for k := 0 to |more|
        invariant phase == Running && producers == old(producers) && batch == old(batch)
        invariant EnqueuedAll(View(), more[k..]) == EnqueuedAll(old(View()), more)
      {
        assert more[k..][1..] == more[k + 1..];
        EnqueueTask(SELF, more[k]);
      }
      assert more[|more|..] == [];
    }

    /** Runs the list to its end, even past a stop task; the k-th task enqueues `spawned[k]`. */
    method RunTasks(funcs: seq<Callback>, spawned: seq<seq<Callback>>)
      requires phase == Running && batch == funcs && SELF !in producers && |spawned| == |funcs|
      modifies this
      ensures View() == Ran(old(View()), spawned)
      ensures executed == old(executed) + funcs && batch == [] && old(tasks) <= tasks
      ensures stop == (old(stop) || StopLoop in funcs)
    {
      for k := 0 to |funcs|
        invariant phase == Running && producers == old(producers) && batch == funcs[k..]
        invariant Ran(View(), spawned[k..]) == Ran(old(View()), spawned)
      {
        assert spawned[k..][1..] == spawned[k + 1..] && funcs[k..][1..] == funcs[k + 1..];
        RunFirst(funcs[k]);
        EnqueueAll(spawned[k]);
      }
    }

    method RunFirst(task: Callback)
      requires phase == Running && batch != [] && batch[0] == task && SELF !in producers
      modifies this`batch, this`executed, this`stop
      ensures View() == Next(old(View()), RunOne)
    {
      if task.StopLoop? {
        stop := true;
      }
      batch, executed := batch[1..], executed + [task];
    }
  }
}
