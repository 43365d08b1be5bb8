/** The first steps of a run: one connection comes in, is adopted, and gets something to read. */
module Opening {
  import opened Timers
  import opened ConnSpec
  import opened Reactor

  const T0 := Time(0, 0)

  const OPENING: seq<Step> :=
    [Accept(0)] + ([Poll([])] + ([TakeTasks] + ([RunTask([], T0)] + ([EndRound] + [Poll([Ready(0, true, false)])]))))

  ghost function Opened(): Reactor {
    var c := NewConn(0, false).(link := Link(Connected, 0, 1, true, false, true, T0, NoCause, false));
    Reactor(false, map[0 := c], {0}, Add(NO_TIMERS, T0, 0), [], [], [], [Ready(0, true, false)], IoPass, T0, {0})
  }

  /** The connection is there. */
  ghost function Adopted(): Reactor { Opened().(pending := [], phase := TaskPass) }

  lemma FirstFourSteps()
    ensures var r1 := Init(false).(tasks := [Adopt(0)], accepted := {0});
            && Enabled(Init(false), Accept(0)) && Next(Init(false), Accept(0)) == r1
            && Enabled(r1, Poll([])) && Enabled(Next(r1, Poll([])), TakeTasks)
            && Next(Next(r1, Poll([])), TakeTasks) == r1.(phase := TaskPass, batch := [Adopt(0)], tasks := [])
            && Enabled(r1.(phase := TaskPass, batch := [Adopt(0)], tasks := []), RunTask([], T0))
  {
  }

  lemma FifthStep()
    ensures var r3 := Init(false).(accepted := {0}, phase := TaskPass, batch := [Adopt(0)]);
            Enabled(r3, RunTask([], T0)) && Next(r3, RunTask([], T0)) == Adopted()
  {
    var r3 := Init(false).(accepted := {0}, phase := TaskPass, batch := [Adopt(0)]);
    assert r3.batch[1..] == [];
    assert Next(r3, RunTask([], T0)).conns == Adopted().conns;
  }

  lemma LastTwoSteps()
    ensures Run(Adopted(), [EndRound] + [Poll([Ready(0, true, false)])], Opened())
  {
    var r5 := Next(Adopted(), EndRound);
    assert Next(r5, Poll([Ready(0, true, false)])) == Opened();
    OneStep(r5, Poll([Ready(0, true, false)]));
    FirstStep(Adopted(), EndRound, [Poll([Ready(0, true, false)])], Opened());
  }

  lemma OpeningRuns()
    ensures Run(Init(false), OPENING, Opened())
  {
    var end := [EndRound] + [Poll([Ready(0, true, false)])];
    var r1 := Next(Init(false), Accept(0));
    var r2 := Next(r1, Poll([]));
    var r3 := Next(r2, TakeTasks);
    FirstFourSteps();
    FifthStep();
    LastTwoSteps();
    FirstStep(r3, RunTask([], T0), end, Opened());
    FirstStep(r2, TakeTasks, [RunTask([], T0)] + end, Opened());
    FirstStep(r1, Poll([]), [TakeTasks] + ([RunTask([], T0)] + end), Opened());
    FirstStep(Init(false), Accept(0), [Poll([])] + ([TakeTasks] + ([RunTask([], T0)] + end)), Opened());
  }

  lemma FirstStep(r: Reactor, s: Step, rest: seq<Step>, r': Reactor)
    requires Enabled(r, s) && Run(Next(r, s), rest, r')
    ensures Run(r, [s] + rest, r')
  {
    assert ([s] + rest)[1..] == rest;
  }

  lemma OneStep(r: Reactor, s: Step)
    requires Enabled(r, s)
    ensures Run(r, [s], Next(r, s))
  {
    assert [s][1..] == [];
  }

  lemma {:induction false} RunOn(r: Reactor, steps: seq<Step>, r': Reactor, s: Step)
    requires Run(r, steps, r') && Enabled(r', s)
    ensures Run(r, steps + [s], Next(r', s))
    decreases |steps|
  {
    if steps == [] {
      OneStep(r, s);
      assert steps + [s] == [s];
    } else {
      RunOn(Next(r, steps[0]), steps[1..], r', s);
      assert (steps + [s])[1..] == steps[1..] + [s];
    }
  }
}
