/** The thread pool: workers and submitters around one mutex and one condition variable, and the
    thread that stops the pool. A step is one critical section, one notify or one task. */
module ThreadPool {
  import opened Algebra

  datatype Worker = AtLock | Waiting | Busy(task: nat) | Gone

  datatype Stop = NotYet | FlagSet | Notified | Joined

  datatype Pool = Pool(
    workers: seq<Worker>,
    tasks: seq<nat>,
    stopped: bool,               // stop_
    notifies: nat,               // submitters between the push and their notify_one
    stopper: Stop,
    // ---- history ----
    accepted: seq<nat>, dequeued: seq<nat>, finished: multiset<nat>, refused: seq<nat>)

  datatype Step =
    | Submit(task: nat)          // enqueue, up to the end of its critical section
    | NotifyOne(w: nat)          // wakes worker w
    | NotifyNobody
    | Lock(w: nat)               // worker w gets the mutex: takes a task, leaves, or waits
    | Spurious(w: nat)
    | Finish(w: nat)             // worker w ends its task
    | SetFlag
    | NotifyAll
    | Join

  ghost function Init(n: nat): Pool {
    Pool(seq(n, _ => AtLock), [], false, 0, NotYet, [], [], multiset{}, [])
  }

  predicate Is(p: Pool, w: nat, s: Worker) { w < |p.workers| && p.workers[w] == s }

  /** A notify wakes one of the waiting workers if there is one. */
  predicate Enabled(p: Pool, s: Step) {
    match s
    case Submit(_) => true
    case NotifyOne(w) => p.notifies > 0 && Is(p, w, Waiting)
    case NotifyNobody => p.notifies > 0 && forall w :: 0 <= w < |p.workers| ==> p.workers[w] != Waiting
    case Lock(w) => Is(p, w, AtLock)
    case Spurious(w) => Is(p, w, Waiting)
    case Finish(w) => w < |p.workers| && p.workers[w].Busy?
    case SetFlag => p.stopper.NotYet?
    case NotifyAll => p.stopper.FlagSet?
    case Join => p.stopper.Notified? && forall w :: 0 <= w < |p.workers| ==> p.workers[w] == Gone
  }

  function Woken(workers: seq<Worker>): seq<Worker> {
    seq(|workers|, k requires 0 <= k < |workers| => if workers[k].Waiting? then AtLock else workers[k])
  }

  ghost function Next(p: Pool, s: Step): Pool
    requires Enabled(p, s)
  {
    match s
    case Submit(task) =>
      if p.stopped then p.(refused := p.refused + [task])
      else p.(tasks := p.tasks + [task], accepted := p.accepted + [task], notifies := p.notifies + 1)
    case NotifyOne(w) => p.(notifies := p.notifies - 1, workers := p.workers[w := AtLock])
    case NotifyNobody => p.(notifies := p.notifies - 1)
    case Lock(w) =>
      if p.tasks != [] then
        p.(workers := p.workers[w := Busy(p.tasks[0])], tasks := p.tasks[1..], dequeued := p.dequeued + [p.tasks[0]])
      else if p.stopped then p.(workers := p.workers[w := Gone])
      else p.(workers := p.workers[w := Waiting])
    case Spurious(w) => p.(workers := p.workers[w := AtLock])
    case Finish(w) =>
      p.(workers := p.workers[w := AtLock], finished := p.finished + multiset{p.workers[w].task})
    case SetFlag => p.(stopped := true, stopper := FlagSet)
    case NotifyAll => p.(workers := Woken(p.workers), stopper := Notified)
    case Join => p.(stopper := Joined)
  }

  ghost predicate Run(p: Pool, steps: seq<Step>, p': Pool)
    decreases |steps|
  {
    if steps == [] then p' == p
    else Enabled(p, steps[0]) && Run(Next(p, steps[0]), steps[1..], p')
  }

  ghost predicate Reachable(p: Pool, n: nat) { exists steps :: Run(Init(n), steps, p) }

  // ---- counting workers ----

  function Contending(workers: seq<Worker>): nat {
    if workers == [] then 0 else (if workers[0].AtLock? then 1 else 0) + Contending(workers[1..])
  }

  function Held(workers: seq<Worker>): multiset<nat> {
    if workers == [] then multiset{} else InHand(workers[0]) + Held(workers[1..])
  }

  function InHand(s: Worker): multiset<nat> { if s.Busy? then multiset{s.task} else multiset{} }

  lemma {:induction false} ContendingUpdate(workers: seq<Worker>, w: nat, s: Worker)
    requires w < |workers|
    ensures Contending(workers[w := s]) + (if workers[w].AtLock? then 1 else 0)
            == Contending(workers) + (if s.AtLock? then 1 else 0)
  {
    if w == 0 {
      assert workers[0 := s][1..] == workers[1..];
    } else {
      ContendingUpdate(workers[1..], w - 1, s);
      assert workers[w := s][1..] == workers[1..][w - 1 := s];
    }
  }

  lemma {:induction false} HeldUpdate(workers: seq<Worker>, w: nat, s: Worker)
    requires w < |workers|
    ensures Held(workers[w := s]) + InHand(workers[w]) == Held(workers) + InHand(s)
  {
    if w == 0 {
      assert workers[0 := s][1..] == workers[1..];
      ReplacedFirst(InHand(s), InHand(workers[0]), Held(workers[1..]));
    } else {
      HeldUpdate(workers[1..], w - 1, s);
      assert workers[w := s][1..] == workers[1..][w - 1 := s];
      AddToBoth(InHand(workers[0]), Held(workers[1..][w - 1 := s]), InHand(workers[w]), Held(workers[1..]), InHand(s));
    }
  }

  lemma ReplacedFirst(a: multiset<nat>, b: multiset<nat>, rest: multiset<nat>)
    ensures (a + rest) + b == (b + rest) + a
  {
    SumSwap(a + rest, b);
    BagAssoc(b, a, rest);
    SwapLast(b, a, rest);
  }

  lemma {:induction false} HeldWoken(workers: seq<Worker>)
    ensures Held(Woken(workers)) == Held(workers)
  {
    if workers != [] {
      HeldWoken(workers[1..]);
      assert Woken(workers)[1..] == Woken(workers[1..]);
    }
  }

  lemma {:induction false} NoneHeld(workers: seq<Worker>)
    requires forall w :: 0 <= w < |workers| ==> !workers[w].Busy?
    ensures Held(workers) == multiset{}
  {
    if workers != [] {
      NoneHeld(workers[1..]);
    }
  }

  // ---- the invariant ----

  /** Accepted tasks leave the queue in order, each once, and are with a worker until finished. */
  ghost predicate Fifo(p: Pool) {
    && p.dequeued + p.tasks == p.accepted
    && multiset(p.dequeued) == p.finished + Held(p.workers)
  }

  predicate Asleep(p: Pool) { exists w :: 0 <= w < |p.workers| && p.workers[w] == Waiting }

  /** While a worker sleeps, every queued task has its own notify on the way or its own worker on the
      way to the lock. */
  ghost predicate NoneForgotten(p: Pool) {
    Asleep(p) ==> |p.tasks| <= p.notifies + Contending(p.workers)
  }

  ghost predicate Stopping(p: Pool) {
    && (p.stopped <==> !p.stopper.NotYet?)
    && (p.refused != [] ==> p.stopped)
    && (p.stopper.Notified? || p.stopper.Joined? ==> !Asleep(p))
    && (forall w :: 0 <= w < |p.workers| && p.workers[w].Gone? ==> p.stopped && p.tasks == [])
    && (p.stopper.Joined? ==> forall w :: 0 <= w < |p.workers| ==> p.workers[w].Gone?)
  }

  ghost predicate Inv(p: Pool) { Fifo(p) && NoneForgotten(p) && Stopping(p) }

  lemma StepFifo(p: Pool, s: Step)
    requires Fifo(p) && Enabled(p, s)
    ensures Fifo(Next(p, s))
  {
    match s
    case NotifyOne(w) => HeldSame(p.workers, w, AtLock);
    case Spurious(w) => HeldSame(p.workers, w, AtLock);
    case Finish(w) => FinishFifo(p, w);
    case NotifyAll => HeldWoken(p.workers);
    case Lock(w) =>
      if p.tasks != [] {
        TakeFifo(p, w);
      } else {
        HeldSame(p.workers, w, if p.stopped then Gone else Waiting);
      }
    case Submit(task) => assert p.dequeued + (p.tasks + [task]) == p.accepted + [task] || p.stopped;
    case _ =>
  }

  lemma HeldSame(workers: seq<Worker>, w: nat, s: Worker)
    requires w < |workers| && !workers[w].Busy? && !s.Busy?
    ensures Held(workers[w := s]) == Held(workers)
  {
    HeldUpdate(workers, w, s);
    AddNothing(Held(workers));
    AddNothing(Held(workers[w := s]));
  }

  lemma FinishFifo(p: Pool, w: nat)
    requires Fifo(p) && Enabled(p, Finish(w))
    ensures Fifo(Next(p, Finish(w)))
  {
    HeldUpdate(p.workers, w, AtLock);
    var held := Held(p.workers[w := AtLock]);
    AddNothing(Held(p.workers));
    assert p.finished + InHand(p.workers[w]) + held == p.finished + (held + InHand(p.workers[w]));
  }

  lemma TakeFifo(p: Pool, w: nat)
    requires Fifo(p) && Enabled(p, Lock(w)) && p.tasks != []
    ensures Fifo(Next(p, Lock(w)))
  {
    var t := p.tasks[0];
    HeldUpdate(p.workers, w, Busy(t));
    AddNothing(Held(p.workers[w := Busy(t)]));
    assert p.dequeued + [t] + p.tasks[1..] == p.dequeued + p.tasks;
    assert multiset(p.dequeued + [t]) == multiset(p.dequeued) + multiset{t};
    assert p.finished + Held(p.workers) + multiset{t} == p.finished + (Held(p.workers) + multiset{t});
  }

  lemma StepNoneForgotten(p: Pool, s: Step)
    requires NoneForgotten(p) && Enabled(p, s)
    ensures NoneForgotten(Next(p, s))
  {
    match s
    case NotifyOne(w) => ContendingUpdate(p.workers, w, AtLock);
    case Spurious(w) => ContendingUpdate(p.workers, w, AtLock);
    case Finish(w) => ContendingUpdate(p.workers, w, AtLock);
    case Lock(w) =>
      if p.tasks != [] {
        ContendingUpdate(p.workers, w, Busy(p.tasks[0]));
      }
    case _ =>
  }

  lemma StepStopping(p: Pool, s: Step)
    requires Stopping(p) && Enabled(p, s)
    ensures Stopping(Next(p, s))
  {
  }

  lemma {:induction false} RunInv(p: Pool, steps: seq<Step>, p': Pool)
    requires Inv(p) && Run(p, steps, p')
    ensures Inv(p') && |p'.workers| == |p.workers|
    decreases |steps|
  {
    if steps != [] {
      StepFifo(p, steps[0]);
      StepNoneForgotten(p, steps[0]);
      StepStopping(p, steps[0]);
      RunInv(Next(p, steps[0]), steps[1..], p');
    }
  }

  lemma ReachableInv(p: Pool, n: nat)
    requires Reachable(p, n)
    ensures Inv(p) && |p.workers| == n
  {
    NoneHeld(Init(n).workers);
    var steps :| Run(Init(n), steps, p);
    RunInv(Init(n), steps, p);
  }

  // ---- what follows ----

  /** A sleeping worker never leaves a task behind: while one sleeps, queued tasks are matched by
      notifies on the way and workers on the way to the lock. So with at least one worker, a task in
      the queue has an awake worker or a pending notify. */
  lemma NoLostNotify(p: Pool, n: nat)
    requires Reachable(p, n) && n == |p.workers|
    ensures Asleep(p) ==> |p.tasks| <= p.notifies + Contending(p.workers)
    ensures n > 0 && p.tasks != [] && p.notifies == 0 ==>
              exists w :: 0 <= w < n && (p.workers[w].AtLock? || p.workers[w].Busy?)
  {
    ReachableInv(p, n);
    if n > 0 && p.tasks != [] && p.notifies == 0 {
      assert !p.workers[0].Gone?;
      if p.workers[0].Waiting? {
        ContendingSome(p.workers);
      }
    }
  }

  lemma {:induction false} ContendingSome(workers: seq<Worker>)
    ensures Contending(workers) > 0 ==> exists w :: 0 <= w < |workers| && workers[w].AtLock?
  {
    if workers != [] && !workers[0].AtLock? {
      ContendingSome(workers[1..]);
      if w :| 0 <= w < |workers[1..]| && workers[1..][w].AtLock? {
        assert workers[w + 1].AtLock?;
      }
    }
  }

  lemma ExactlyOnceInOrder(p: Pool, n: nat)
    requires Reachable(p, n)
    ensures p.dequeued + p.tasks == p.accepted
    ensures multiset(p.dequeued) == p.finished + Held(p.workers)
  {
    ReachableInv(p, n);
  }

  /** When `stop` returns, every accepted task has run, exactly if there was a worker or no task. */
  lemma StopRunsEverything(p: Pool, n: nat)
    requires Reachable(p, n) && p.stopper.Joined?
    ensures p.finished == multiset(p.accepted) <==> n > 0 || p.accepted == []
    ensures n > 0 ==> p.tasks == [] && p.dequeued == p.accepted
  {
    ReachableInv(p, n);
    NoneHeld(p.workers);
    if n > 0 {
      assert p.workers[0].Gone?;
      assert p.dequeued + [] == p.dequeued;
    } else {
      NothingWithoutWorkers(p);
      if p.accepted != [] {
        assert p.accepted[0] in multiset(p.accepted);
      }
    }
  }

  lemma {:induction false} RunWithoutWorkers(p: Pool, steps: seq<Step>, p': Pool)
    requires p.workers == [] && p.finished == multiset{} && Run(p, steps, p')
    ensures p'.finished == multiset{}
    decreases |steps|
  {
    if steps != [] {
      RunWithoutWorkers(Next(p, steps[0]), steps[1..], p');
    }
  }

  lemma NothingWithoutWorkers(p: Pool)
    requires Reachable(p, 0)
    ensures p.finished == multiset{}
  {
    var steps :| Run(Init(0), steps, p);
    RunWithoutWorkers(Init(0), steps, p);
  }

  /** A pool without workers accepts a task, stops and never runs it. */
  lemma TaskLostWithoutWorkers()
    ensures exists p :: Reachable(p, 0) && p.stopper.Joined? && p.accepted == [7] && p.finished == multiset{}
  {
    var a := Next(Init(0), Submit(7));
    var b := Next(a, SetFlag);
    var c := Next(b, NotifyAll);
    var d := Next(c, Join);
    var steps := [Submit(7), SetFlag, NotifyAll, Join];
    assert steps[1..] == [SetFlag, NotifyAll, Join] && steps[1..][1..] == [NotifyAll, Join];
    assert steps[1..][1..][1..] == [Join] && [Join][1..] == [];
    assert Run(c, [Join], d);
    assert Run(b, [NotifyAll, Join], d);
    assert Run(a, steps[1..], d);
    assert Run(Init(0), steps, d);
  }

  // ---- stopping comes to an end ----

  function Weight(s: Worker): nat {
    match s
    case Gone => 0
    case AtLock => 1
    case Busy(_) => 2
    case Waiting => 2
  }

  function WorkLeft(workers: seq<Worker>): nat {
    if workers == [] then 0 else Weight(workers[0]) + WorkLeft(workers[1..])
  }

  lemma {:induction false} WorkLeftUpdate(workers: seq<Worker>, w: nat, s: Worker)
    requires w < |workers|
    ensures WorkLeft(workers[w := s]) + Weight(workers[w]) == WorkLeft(workers) + Weight(s)
  {
    if w == 0 {
      assert workers[0 := s][1..] == workers[1..];
    } else {
      WorkLeftUpdate(workers[1..], w - 1, s);
      assert workers[w := s][1..] == workers[1..][w - 1 := s];
    }
  }

  ghost function Left(p: Pool): nat { WorkLeft(p.workers) + 2 * |p.tasks| }

  predicate ByWorker(s: Step) { s.Lock? || s.Finish? }

  /** After notify_all no step of anyone adds work, each step of a worker takes some away, and until
      all workers are gone one of them can step: the join is never waited for in vain. */
  lemma StopMakesProgress(p: Pool, n: nat, s: Step)
    requires Reachable(p, n) && p.stopper.Notified? && Enabled(p, s)
    ensures if ByWorker(s) then Left(Next(p, s)) < Left(p) else Left(Next(p, s)) <= Left(p)
    ensures Enabled(p, Join) || exists s' :: ByWorker(s') && Enabled(p, s')
  {
    ReachableInv(p, n);
    match s {
      case Lock(w) => WorkLeftUpdate(p.workers, w, Next(p, s).workers[w]);
      case Finish(w) => WorkLeftUpdate(p.workers, w, AtLock);
      case _ =>
    }
    if !Enabled(p, Join) {
      var w :| 0 <= w < |p.workers| && p.workers[w] != Gone;
      var s' := if p.workers[w].AtLock? then Lock(w) else Finish(w);
      assert ByWorker(s') && Enabled(p, s');
    }
  }

  // ---- the object ----

  class ThreadPool {
    var workers: seq<Worker>
    var tasks: seq<nat>
    var stopped: bool
    ghost var notifies: nat
    ghost var stopper: Stop
    ghost var accepted: seq<nat>
    ghost var dequeued: seq<nat>
    ghost var finished: multiset<nat>
    ghost var refused: seq<nat>

    ghost function View(): Pool
      reads this
    {
      Pool(workers, tasks, stopped, notifies, stopper, accepted, dequeued, finished, refused)
    }

    constructor (n: nat)
      ensures View() == Init(n)
    {
      workers, tasks, stopped := seq(n, _ => AtLock), [], false;
      notifies, stopper, accepted, dequeued, finished, refused := 0, NotYet, [], [], multiset{}, [];
    }

    /** The critical section of `enqueue`; false is the exception. */
    method Enqueue(task: nat) returns (ok: bool)
      modifies this
      ensures ok == !old(stopped) && View() == Next(old(View()), Submit(task))
    {
      if stopped {
        refused := refused + [task];
        return false;
      }
      tasks, accepted, notifies := tasks + [task], accepted + [task], notifies + 1;
      return true;
    }

    /** One turn of a worker's loop in the critical section: a task to run, or none. */
    method WorkerTurn(w: nat) returns (task: seq<nat>)
      requires Is(View(), w, AtLock)
      modifies this
      ensures View() == Next(old(View()), Lock(w))
      ensures task <= old(tasks) && (task == [] <==> old(tasks) == [])
    {
      if !stopped && tasks == [] {
        workers := workers[w := Waiting];
        return [];
      }
      if stopped && tasks == [] {
        workers := workers[w := Gone];
        return [];
      }
      task := [tasks[0]];
      workers, tasks, dequeued := workers[w := Busy(tasks[0])], tasks[1..], dequeued + [tasks[0]];
    }

    method NotifyEveryone()
      requires stopper.FlagSet?
      modifies this
      ensures View() == Next(old(View()), NotifyAll)
    {
      for k := 0 to |workers|
        invariant |workers| == |old(workers)|
        invariant forall j :: 0 <= j < |workers| ==>
          workers[j] == if j < k then Woken(old(workers))[j] else old(workers)[j]
        invariant View() == old(View()).(workers := workers)
      {
        if workers[k].Waiting? {
          workers := workers[k := AtLock];
        }
      }
      stopper := Notified;
    }
  }
}
